/** The outgoing caches of a client: messages gather until the next one would not fit, then leave as one frame. */
module Batching {
  import opened Bytes

  const MAX_CACHE: nat := 512

  /** What lies between two messages and what is put around them. */
  datatype Style<!E> = Style(separator: seq<E>, open: seq<E>, close: seq<E>)

  const TEXT: Style<char> := Style(",", "[", "]")
  const BINARY: Style<byte> := Style([], [], [])

  function Overhead<E>(style: Style<E>): nat {
    |style.open| + |style.close|
  }

  /** Messages side by side. */
  function Join<E>(style: Style<E>, items: seq<seq<E>>): seq<E> {
    if items == [] then []
    else if |items| == 1 then items[0]
    else Join(style, items[..|items| - 1]) + style.separator + items[|items| - 1]
  }

  function Frame<E>(style: Style<E>, items: seq<seq<E>>): seq<E> {
    style.open + Join(style, items) + style.close
  }

  /** The messages of each frame that was sent, and those still in the cache. */
  datatype Batch<E> = Batch(sent: seq<seq<seq<E>>>, cached: seq<seq<E>>)

  function Empty<E>(): Batch<E> {
    Batch([], [])
  }

  /** Whether there is something in the cache that does not go together with `more` elements. */
  predicate Leaves<E>(style: Style<E>, b: Batch<E>, more: nat) {
    var size := |Join(style, b.cached)|;
    size > 0 && size + more + Overhead(style) > MAX_CACHE
  }

  /** Sending the cache if that is so. */
  function Flush<E>(style: Style<E>, b: Batch<E>, more: nat): Batch<E> {
    if Leaves(style, b, more) then Batch(b.sent + [b.cached], []) else b
  }

  function Put<E>(style: Style<E>, b: Batch<E>, item: seq<E>): Batch<E> {
    var f := Flush(style, b, |item|);
    f.(cached := f.cached + [item])
  }

  /** flushText and flushBinary without a size: everything leaves. */
  function FlushAll<E>(style: Style<E>, b: Batch<E>): Batch<E> {
    Flush(style, b, MAX_CACHE)
  }

  // ------------------------------------------------------------ nothing is lost

  function Flatten<T>(groups: seq<seq<T>>): seq<T> {
    if groups == [] then [] else Flatten(groups[..|groups| - 1]) + groups[|groups| - 1]
  }

  /** Every message that was put in, in order. */
  function Items<E>(b: Batch<E>): seq<seq<E>> {
    Flatten(b.sent) + b.cached
  }

  /** No frame is empty; one that holds more than one message keeps to the limit, not counting the last
      separator. */
  ghost predicate Bounded<E(!new)>(style: Style<E>, items: seq<seq<E>>) {
    items != [] && (|items| > 1 ==> |Frame(style, items)| <= MAX_CACHE + |style.separator|)
  }

  ghost predicate Good<E(!new)>(style: Style<E>, b: Batch<E>) {
    (forall g | g in b.sent :: Bounded(style, g)) &&
    (b.cached != [] ==> Bounded(style, b.cached)) &&
    (forall m | m in b.cached :: m != [])
  }

  lemma JoinMore<E>(style: Style<E>, items: seq<seq<E>>, item: seq<E>)
    ensures Join(style, items + [item]) ==
            (if items == [] then item else Join(style, items) + style.separator + item)
  {
    assert (items + [item])[..|items|] == items;
  }

  lemma JoinEmptyIff<E>(style: Style<E>, items: seq<seq<E>>)
    requires forall m | m in items :: m != []
    ensures Join(style, items) == [] <==> items == []
  {
    if items != [] {
      assert items[|items| - 1] in items;
    }
  }

  lemma FlattenMore<T>(groups: seq<seq<T>>, g: seq<T>)
    ensures Flatten(groups + [g]) == Flatten(groups) + g
  {
    assert (groups + [g])[..|groups|] == groups;
  }

  /** A flush neither drops nor reorders messages, and keeps the frames within bounds. */
  lemma FlushKeeps<E(!new)>(style: Style<E>, b: Batch<E>, more: nat)
    requires Good(style, b)
    ensures Good(style, Flush(style, b, more))
    ensures Items(Flush(style, b, more)) == Items(b)
    ensures b.sent <= Flush(style, b, more).sent
  {
    hide Join, Frame;
    FlattenMore(b.sent, b.cached);
    if b.cached == [] { JoinEmptyIff(style, b.cached); }
  }

  /** After an explicit flush nothing is left in the cache. */
  lemma FlushAllEmpties<E(!new)>(style: Style<E>, b: Batch<E>)
    requires Good(style, b)
    ensures FlushAll(style, b).cached == []
  {
    JoinEmptyIff(style, b.cached);
  }

  /** A message joins the end of the stream, and the frames stay within bounds. */
  lemma PutKeeps<E(!new)>(style: Style<E>, b: Batch<E>, item: seq<E>)
    requires Good(style, b) && item != []
    ensures Good(style, Put(style, b, item))
    ensures Items(Put(style, b, item)) == Items(b) + [item]
    ensures b.sent <= Put(style, b, item).sent
  {
    hide Join;
    FlushKeeps(style, b, |item|);
    var f := Flush(style, b, |item|);
    JoinMore(style, f.cached, item);
    JoinEmptyIff(style, f.cached);
    Regroup(Flatten(f.sent), f.cached, [item]);
  }

  /** The cache leaves exactly if it holds something and, as a frame, would come to more than 512 with the next message,
      not counting the separator; the next message then starts a new one. */
  lemma LeavesIff<E(!new)>(style: Style<E>, b: Batch<E>, item: seq<E>)
    requires forall m | m in b.cached :: m != []
    ensures Put(style, b, item) ==
            if b.cached != [] && |Frame(style, b.cached)| + |item| > 512 then Batch(b.sent + [b.cached], [item])
            else Batch(b.sent, b.cached + [item])
  {
    hide Join;
    JoinEmptyIff(style, b.cached);
    assert [] + [item] == [item];
  }

  /** What may happen to a cache. */
  datatype Op<E> = Queue(item: seq<E>) | FlushOp

  function AfterOps<E>(style: Style<E>, ops: seq<Op<E>>): Batch<E> {
    if ops == [] then Empty()
    else
      var b := AfterOps(style, ops[..|ops| - 1]);
      match ops[|ops| - 1]
      case Queue(item) => Put(style, b, item)
      case FlushOp => FlushAll(style, b)
  }

  function Queued<E>(ops: seq<Op<E>>): seq<seq<E>> {
    if ops == [] then []
    else
      var items := Queued(ops[..|ops| - 1]);
      match ops[|ops| - 1]
      case Queue(item) => items + [item]
      case FlushOp => items
  }

  /** Over every run: the frames in order and then the cache hold exactly the queued messages, in order; and
      every frame is within bounds. */
  lemma {:induction false} Lossless<E(!new)>(style: Style<E>, ops: seq<Op<E>>)
    requires forall op | op in ops :: op.Queue? ==> op.item != []
    ensures Items(AfterOps(style, ops)) == Queued(ops)
    ensures Good(style, AfterOps(style, ops))
  {
    if ops == [] {
    } else {
      var init := ops[..|ops| - 1];
      Lossless(style, init);
      var b := AfterOps(style, init);
      match ops[|ops| - 1] {
        case Queue(item) => PutKeeps(style, b, item);
        case FlushOp => FlushKeeps(style, b, MAX_CACHE);
      }
    }
  }

  /** The limits in bytes: 512 for a binary frame of more than one record, 513 for a text frame. */
  lemma FrameLimits(binary: seq<seq<byte>>, text: seq<seq<char>>)
    ensures Bounded(BINARY, binary) && |binary| > 1 ==> |Frame(BINARY, binary)| <= 512
    ensures Bounded(TEXT, text) && |text| > 1 ==> |Frame(TEXT, text)| <= 513
  {
  }

  /** Exactly when the cache comes to hold several messages that make a frame above the constant: the cached text
      and the new message fill it to the last character, and the comma comes on top. */
  lemma LimitExceededIff(b: Batch<char>, item: seq<char>)
    requires Good(TEXT, b) && item != []
    ensures var d := Put(TEXT, b, item);
            |d.cached| > 1 && |Frame(TEXT, d.cached)| > MAX_CACHE
            <==> b.cached != [] && |Join(TEXT, b.cached)| + |item| == MAX_CACHE - 2
  {
    hide Join, Frame;
    JoinEmptyIff(TEXT, b.cached);
    var d := Put(TEXT, b, item);
    JoinMore(TEXT, b.cached, item);
    JoinMore(TEXT, [], item);
    assert [] + [item] == [item];
    FrameSize(TEXT, d.cached);
  }

  /** The text limit is reached: the comma is not counted. */
  lemma TextLimitIsReached(m: seq<char>, n: seq<char>)
    requires m != [] && n != [] && |m| + |n| == 510
    ensures AfterOps(TEXT, [Queue(m), Queue(n), FlushOp]) == Batch([[m, n]], [])
    ensures |Frame(TEXT, [m, n])| == 513
  {
    hide Frame;
    assert [Queue(m), Queue(n), FlushOp][..2] == [Queue(m), Queue(n)];
    assert [Queue(m), Queue(n)][..1] == [Queue(m)];
    assert [Queue(m)][..0] == [];
    JoinMore(TEXT, [], m);
    JoinMore(TEXT, [m], n);
    assert [] + [m] == [m] && [m] + [n] == [m, n];
    hide Join;
    assert AfterOps(TEXT, [Queue(m)]) == Batch([], [m]);
    assert AfterOps(TEXT, [Queue(m), Queue(n)]) == Batch([], [m, n]);
    FrameSize(TEXT, [m, n]);
  }

  lemma FrameSize<E>(style: Style<E>, items: seq<seq<E>>)
    ensures |Frame(style, items)| == Overhead(style) + |Join(style, items)|
  {
  }

  // ------------------------------------------------------------ the caches themselves

  function Frames<E>(style: Style<E>, sent: seq<seq<seq<E>>>): (fs: seq<seq<E>>)
    ensures |fs| == |sent|
  {
    seq(|sent|, i requires 0 <= i < |sent| => Frame(style, sent[i]))
  }

  lemma FramesMore<E>(style: Style<E>, sent: seq<seq<seq<E>>>, items: seq<seq<E>>)
    ensures Frames(style, sent + [items]) == Frames(style, sent) + [Frame(style, items)]
  {
    var more := Frames(style, sent + [items]);
    assert forall i | 0 <= i < |sent| :: more[i] == Frame(style, (sent + [items])[i]) == Frame(style, sent[i]);
  }

  /** The two caches of a client as the fields they are, and the frames handed to the socket. */
  class ClientCaches {
    var textCache: string
    var binaryCache: seq<byte>
    var sentText: seq<string>
    var sentBinary: seq<seq<byte>>
    ghost var text: Batch<char>
    ghost var binary: Batch<byte>

    ghost predicate Valid()
      reads this
    {
      Good(TEXT, text) && textCache == Join(TEXT, text.cached) && sentText == Frames(TEXT, text.sent) &&
      Good(BINARY, binary) && binaryCache == Join(BINARY, binary.cached) && sentBinary == Frames(BINARY, binary.sent)
    }

    constructor ()
      ensures Valid() && text == Empty<char>() && binary == Empty<byte>()
    {
      textCache, binaryCache, sentText, sentBinary := "", [], [], [];
      text, binary := Empty(), Empty();
    }

    method FlushText(uncachedSize: nat)
      requires Valid()
      modifies this`textCache, this`sentText, this`text
      ensures Valid() && text == Flush(TEXT, old(text), uncachedSize)
    {
      hide Join;
      FlushKeeps(TEXT, text, uncachedSize);
      if |textCache| > 0 && |textCache| + uncachedSize + 2 > MAX_CACHE {
        FramesMore(TEXT, text.sent, text.cached);
        sentText := sentText + ["[" + textCache + "]"];
        textCache := "";
        JoinEmptyIff<char>(TEXT, []);
      }
      text := Flush(TEXT, text, uncachedSize);
    }

    method FlushBinary(uncachedSize: nat)
      requires Valid()
      modifies this`binaryCache, this`sentBinary, this`binary
      ensures Valid() && binary == Flush(BINARY, old(binary), uncachedSize)
    {
      hide Join;
      FlushKeeps(BINARY, binary, uncachedSize);
      if |binaryCache| > 0 && |binaryCache| + uncachedSize > MAX_CACHE {
        FramesMore(BINARY, binary.sent, binary.cached);
        assert Frame(BINARY, binary.cached) == binaryCache;
        sentBinary := sentBinary + [binaryCache];
        binaryCache := [];
        JoinEmptyIff<byte>(BINARY, []);
      }
      binary := Flush(BINARY, binary, uncachedSize);
    }

    /** The end of announceTopic, unannounceTopic and sendPropertyUpdate. */
    method QueueText(message: string)
      requires Valid() && message != ""
      modifies this`textCache, this`sentText, this`text
      ensures Valid() && text == Put(TEXT, old(text), message)
      ensures Items(text) == old(Items(text)) + [message]
    {
      hide Join;
      PutKeeps(TEXT, text, message);
      FlushText(|message|);
      JoinEmptyIff(TEXT, text.cached);
      JoinMore(TEXT, text.cached, message);
      if |textCache| > 0 {
        textCache := textCache + ",";
      }
      textCache := textCache + message;
      text := text.(cached := text.cached + [message]);
    }

    /** The end of sendTopicUpdate. */
    method QueueBinary(record: seq<byte>)
      requires Valid() && record != []
      modifies this`binaryCache, this`sentBinary, this`binary
      ensures Valid() && binary == Put(BINARY, old(binary), record)
      ensures Items(binary) == old(Items(binary)) + [record]
    {
      hide Join;
      PutKeeps(BINARY, binary, record);
      FlushBinary(|record|);
      JoinEmptyIff(BINARY, binary.cached);
      JoinMore(BINARY, binary.cached, record);
      assert binaryCache + [] == binaryCache;
      binaryCache := binaryCache + record;
      binary := binary.(cached := binary.cached + [record]);
    }
  }
}
