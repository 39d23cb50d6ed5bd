/** Exactly when all updates arrive: what the format loses, and what a socket makes of long frames. */
module NtArrivals {
  import opened Bytes
  import opened Floats
  import opened MsgPackFormat
  import opened MsgPackLaws
  import opened NtValues
  import opened NtRecords
  import opened Batching
  import opened NtStream
  import opened NtClient
  import opened NtServer
  import opened NtTheorems
  import WebSocketFrames
  import WebSocketMessages

  // ------------------------------------------------------------ values that come back different

  /** A string whose length needs the fifth bit of the short string marker. */
  predicate Cut(s: seq<byte>) {
    16 <= |s| < 32
  }

  predicate LossyItem(x: Item) {
    match x
    case StrItem(s) => Cut(s)
    case FloatItem(w, f) => !FloatFits(w, f)
    case _ => false
  }

  predicate Lossy(v: NTValue) {
    match v
    case StrV(_, s) => Cut(s)
    case FloatV(w, x) => !FloatFits(w, x)
    case ArrayV(_, xs) => exists x :: x in xs && LossyItem(x)
    case _ => false
  }

  predicate ItemSized(k: Kind, x: Item) {
    KindOf(x) == k && (x.StrItem? ==> |x.s| < SIZE_LIMIT) && (x.FloatItem? ==> FloatSized(x.wide, x.x))
  }

  /** Sizes that the packer does not give up on, and floating-point numbers for which it is defined. */
  predicate Sized(v: NTValue) {
    match v
    case StrV(_, s) => |s| < SIZE_LIMIT
    case BinV(_, b) => |b| < SIZE_LIMIT
    case FloatV(w, x) => FloatSized(w, x)
    case ArrayV(k, xs) => |xs| < SIZE_LIMIT && forall x | x in xs :: ItemSized(k, x)
    case _ => Known(TypeOf(v))
  }

  predicate RecordSized(r: Record) {
    Sized(r.value) && HeadFits(r)
  }

  lemma ItemFitsIff(k: Kind, x: Item)
    requires ItemSized(k, x)
    ensures ItemFits(x) <==> !LossyItem(x)
  {
    hide FloatFits, FloatSized;
  }

  lemma FitsIffLossless(r: Record)
    requires RecordSized(r)
    ensures RecordFits(r) <==> !Lossy(r.value)
  {
    hide FloatFits, FloatSized, ItemSized, ItemFits, LossyItem;
    if r.value.ArrayV? {
      forall x | x in r.value.items ensures KindOf(x) == r.value.kind && (ItemFits(x) <==> !LossyItem(x)) {
        assert ItemSized(r.value.kind, x);
        ItemFitsIff(r.value.kind, x);
        ItsKind(r.value.kind, x);
      }
    }
  }

  lemma ItsKind(k: Kind, x: Item)
    requires ItemSized(k, x)
    ensures KindOf(x) == k
  {
  }

  lemma ItemLost(k: Kind, c: Cursor, x: Item, more: seq<byte>)
    requires ItemSized(k, x) && LossyItem(x) && Before(c, EncItem(x), more)
    ensures RdItem(k, c).1 != x
  {
    hide RdStr, EncStr, RdFloat, EncFloat, FloatFits, FloatSized;
    match x
    case StrItem(s) =>
      StrCut(c, s, more);
      assert |RdStr(c).1| != |s|;
    case FloatItem(w, f) => FloatRead(w, c, f, more);
  }

  lemma {:induction false} ItemsLost(k: Kind, c: Cursor, xs: seq<Item>, more: seq<byte>)
    requires (forall x | x in xs :: ItemSized(k, x)) && (exists x :: x in xs && LossyItem(x))
    requires Before(c, EncItems(xs), more)
    ensures RdItems(k, c, |xs|).1 != xs
    decreases |xs|
  {
    hide RdItem, EncItem, LossyItem, ItemSized, ItemFits;
    var behind := EncItems(xs[1..]) + more;
    Regroup(EncItem(xs[0]), EncItems(xs[1..]), more);
    assert xs == [xs[0]] + xs[1..];
    ItemFitsIff(k, xs[0]);
    ItsKind(k, xs[0]);
    if LossyItem(xs[0]) {
      ItemLost(k, c, xs[0], behind);
    } else {
      ItemRoundTrip(k, c, xs[0], behind);
      ItemsLost(k, After(behind), xs[1..], more);
    }
  }

  lemma ValueLost(c: Cursor, v: NTValue, more: seq<byte>)
    requires Sized(v) && Lossy(v) && Before(c, Pack(v), more)
    ensures RdValue(c, ReadType(c, ApiCode(TypeOf(v)))).1 != Received(v)
  {
    hide RdStr, EncStr, RdItems, EncItems, RdArraySize, EncArrayHeader, RdFloat, EncFloat, FloatFits, FloatSized, LossyItem, ItemSized;
    match v {
      case StrV(_, s) =>
        StrCut(c, s, more);
        assert |RdStr(c).1| != |s|;
      case FloatV(w, x) => FloatRead(w, c, x, more);
      case ArrayV(k, xs) =>
        var behind := EncItems(xs) + more;
        Regroup(EncArrayHeader(|xs|), EncItems(xs), more);
        ArraySizeRoundTrip(c, |xs|, behind);
        ItemsLost(k, After(behind), xs, more);
    }
  }

  lemma NotAnInteger(r: Record)
    requires HeadFits(r) && Lossy(r.value)
    ensures TypeOfCode(r.code) != IntT
  {
  }

  lemma RecordLost(c: Cursor, r: Record, more: seq<byte>)
    requires RecordSized(r) && Lossy(r.value) && Before(c, EncRecord(r), more)
    ensures RdPass(c).Got? && RdPass(c).r != r.(value := Received(r.value))
  {
    hide RdPass, RdValue, Pack, EncRecord, ReadType, Received, Sized, Lossy;
    NotAnInteger(r);
    RecordHead(c, r, more);
    ValueLost(After(Pack(r.value) + more), r.value, more);
  }

  // ------------------------------------------------------------ sequences that differ

  /** The two differ at a place that both have. */
  predicate DifferAt<T(==)>(xs: seq<T>, ys: seq<T>, k: nat) {
    k < |xs| && k < |ys| && xs[k] != ys[k]
  }

  ghost predicate Differ<T>(xs: seq<T>, ys: seq<T>) {
    exists k: nat :: DifferAt(xs, ys, k)
  }

  lemma DifferLater<T>(xs: seq<T>, ys: seq<T>, before: seq<T>)
    requires Differ(xs, ys)
    ensures Differ(before + xs, before + ys)
  {
    var k: nat :| DifferAt(xs, ys, k);
    assert DifferAt(before + xs, before + ys, |before| + k);
  }

  lemma DifferBefore<T>(xs: seq<T>, ys: seq<T>, a: seq<T>, b: seq<T>)
    requires Differ(xs, ys)
    ensures Differ(xs + a, ys + b)
  {
    var k: nat :| DifferAt(xs, ys, k);
    assert DifferAt(xs + a, ys + b, k);
  }

  ghost predicate SameOrDiffer<T>(parts: seq<seq<T>>, groups: seq<seq<T>>) {
    |parts| == |groups| && forall i | 0 <= i < |parts| :: parts[i] == groups[i] || Differ(parts[i], groups[i])
  }

  /** Parts that are right or visibly wrong make up the whole exactly if they are all right. */
  lemma {:induction false} AllPartsIff<T>(parts: seq<seq<T>>, groups: seq<seq<T>>)
    requires SameOrDiffer(parts, groups)
    ensures if parts == groups then Flatten(parts) == Flatten(groups) else Differ(Flatten(parts), Flatten(groups))
    decreases |parts|
  {
    hide Differ;
    if parts == [] {
    } else {
      var n := |parts| - 1;
      assert parts == parts[..n] + [parts[n]] && groups == groups[..n] + [groups[n]];
      AllPartsIff(parts[..n], groups[..n]);
      if parts[..n] != groups[..n] {
        DifferBefore(Flatten(parts[..n]), Flatten(groups[..n]), parts[n], groups[n]);
      } else if parts[n] != groups[n] {
        DifferLater(parts[n], groups[n], Flatten(parts[..n]));
      }
    }
  }

  lemma DifferIsDifferent<T>(xs: seq<T>, ys: seq<T>)
    requires Differ(xs, ys)
    ensures xs != ys
  {
  }

  // ------------------------------------------------------------ one frame

  predicate AllSized(rs: seq<Record>) {
    forall r | r in rs :: RecordSized(r)
  }

  predicate AnyLossy(rs: seq<Record>) {
    exists r :: r in rs && Lossy(r.value)
  }

  /** What a frame of these records decodes to. */
  function Decodes(bytes: seq<byte>): seq<Record> {
    DecodeFrame(After(bytes)).0
  }

  lemma AllFit(rs: seq<Record>)
    requires AllSized(rs) && !AnyLossy(rs)
    ensures forall r | r in rs :: RecordFits(r)
  {
    hide RecordSized, Lossy, RecordFits;
    forall r | r in rs ensures RecordFits(r) { FitsIffLossless(r); }
  }

  lemma FrameOfOne(r: Record, rest: seq<Record>)
    ensures EncRecords([r] + rest) == EncRecord(r) + EncRecords(rest)
    ensures AllReceived([r] + rest) == [r.(value := Received(r.value))] + AllReceived(rest)
  {
    hide EncRecord, Received;
    assert ([r] + rest)[1..] == rest;
  }

  /** From the first record that is lossy on, a frame is not what was packed. */
  lemma {:induction false} FrameLost(rs: seq<Record>)
    requires AllSized(rs) && AnyLossy(rs)
    ensures Differ(Decodes(EncRecords(rs)), AllReceived(rs))
  {
    hide RdPass, EncRecord, EncRecords, RecordFits, Received, RecordSized, Lossy, AllReceived, Differ;
    var first, rest := rs[0], rs[1..];
    assert rs == [first] + rest;
    FrameOfOne(first, rest);
    var c := After(EncRecords(rs));
    PassShrinks(c);
    if Lossy(first.value) {
      RecordLost(c, first, EncRecords(rest));
      FirstDiffers(Decodes(EncRecords(rs)), AllReceived(rs));
    } else {
      FitsIffLossless(first);
      RecordRoundTrip(c, first, EncRecords(rest));
      var r :| r in rs && Lossy(r.value);
      assert r in rest;
      FrameLost(rest);
      DifferLater(Decodes(EncRecords(rest)), AllReceived(rest), [first.(value := Received(first.value))]);
    }
  }

  lemma FirstDiffers<T>(xs: seq<T>, ys: seq<T>)
    requires xs != [] && ys != [] && xs[0] != ys[0]
    ensures Differ(xs, ys)
  {
    assert DifferAt(xs, ys, 0);
  }

  /** A frame as it was packed. */
  lemma PlainFrame(rs: seq<Record>)
    requires AllSized(rs)
    ensures !AnyLossy(rs) ==> DecodeFrame(After(EncRecords(rs))) == (AllReceived(rs), Finished)
    ensures AnyLossy(rs) ==> Differ(Decodes(EncRecords(rs)), AllReceived(rs))
  {
    hide DecodeFrame, EncRecords, RecordFits, RecordSized, Lossy, AllReceived, Differ;
    if AnyLossy(rs) {
      FrameLost(rs);
    } else {
      AllFit(rs);
      FrameRoundTrip(rs);
    }
  }

  // ------------------------------------------------------------ through a socket

  /** Decoding the frames as they are handed over, or as the sending side of a socket fragments them. */
  datatype Transport = Direct | Socket(mask: bool)

  function Carry(t: Transport, frame: seq<byte>): seq<byte> {
    match t
    case Direct => frame
    case Socket(mask) => WebSocketMessages.Payload(WebSocketMessages.Plan(frame, WebSocketFrames.BINARY, mask, false))
  }

  /** Whether the fragments carry these bytes: there are few enough, or the middle ones repeat the first. */
  predicate Intact(t: Transport, e: seq<byte>) {
    match t
    case Direct => true
    case Socket(mask) =>
      WebSocketMessages.PacketSize(|e|, mask) <= WebSocketMessages.MAX_PACKET_SIZE ||
      WebSocketMessages.MiddleRepeats(e, WebSocketMessages.FragmentSize(mask), WebSocketMessages.FragmentSize(mask))
  }

  predicate Short(t: Transport, e: seq<byte>) {
    t.Direct? || |e| <= 2 * WebSocketMessages.FragmentSize(t.mask)
  }

  lemma CarriedIff(t: Transport, e: seq<byte>)
    ensures Carry(t, e) == e <==> Intact(t, e)
    ensures Short(t, e) ==> Intact(t, e)
  {
    hide WebSocketMessages.Plan, WebSocketMessages.MiddleRepeats, WebSocketMessages.PacketSize, WebSocketMessages.FragmentSize;
    if t.Socket? {
      WebSocketMessages.DeliveredIff(e, WebSocketFrames.BINARY, t.mask);
      if Short(t, e) { WebSocketMessages.TwoFragmentsDeliver(e, WebSocketFrames.BINARY, t.mask); }
    }
  }

  lemma SmallIsShort(t: Transport, e: seq<byte>)
    requires |e| <= MAX_CACHE
    ensures Short(t, e)
  {
  }

  // ------------------------------------------------------------ a long record that is not carried

  predicate HasContent(v: NTValue) {
    v.StrV? || v.BinV?
  }

  function Content(v: NTValue): seq<byte>
    requires HasContent(v)
  {
    if v.StrV? then v.s else v.bin
  }

  function WithContent(v: NTValue, b: seq<byte>): NTValue
    requires HasContent(v)
  {
    if v.StrV? then StrV(v.strTag, b) else BinV(v.binTag, b)
  }

  /** The marker and the size in front of the content. */
  function SizeBytes(v: NTValue): seq<byte>
    requires HasContent(v) && Sized(v)
  {
    var n := |Content(v)|;
    if v.StrV? then
      if n < 32 then [FIXSTR + n]
      else if n < 0xFF then [STR8] + BigEndian(n, 1)
      else if n < 0xFFFF then [STR16] + BigEndian(n, 2)
      else [STR32] + BigEndian(n, 4)
    else
      if n < 0xFF then [BIN8] + BigEndian(n, 1)
      else if n < 0xFFFF then [BIN16] + BigEndian(n, 2)
      else [BIN32] + BigEndian(n, 4)
  }

  function HeadBytes(r: Record): seq<byte>
    requires HasContent(r.value) && RecordSized(r)
  {
    EncArrayHeader(4) + (EncInt(r.id) + (EncUint(r.time) + (EncUint(r.code) + SizeBytes(r.value))))
  }

  lemma NumberSizes(v: int)
    ensures |EncInt(v)| <= 9 && (v >= 0 ==> |EncUint(v)| <= 9)
    ensures |EncArrayHeader(4)| == 1
  {
  }

  lemma RecordSplits(r: Record)
    requires HasContent(r.value) && RecordSized(r)
    ensures EncRecord(r) == HeadBytes(r) + Content(r.value) && |HeadBytes(r)| <= 33
  {
    hide EncInt, EncUint, EncArrayHeader, BigEndian;
    NumberSizes(r.id);
    NumberSizes(r.time);
    NumberSizes(r.code);
    var h, c := SizeBytes(r.value), Content(r.value);
    assert Pack(r.value) == h + c;
    Regroup(EncUint(r.code), h, c);
    Regroup(EncUint(r.time), EncUint(r.code) + h, c);
    Regroup(EncInt(r.id), EncUint(r.time) + (EncUint(r.code) + h), c);
    Regroup(EncArrayHeader(4), EncInt(r.id) + (EncUint(r.time) + (EncUint(r.code) + h)), c);
  }

  /** Every other record is short, unless it holds an array. */
  lemma OthersAreShort(t: Transport, r: Record)
    requires RecordSized(r) && !HasContent(r.value) && !r.value.ArrayV?
    ensures Short(t, EncRecord(r))
  {
    hide EncInt, EncUint, EncArrayHeader, BigEndian, Integral, Whole, PackedBits;
    NumberSizes(r.id);
    NumberSizes(r.time);
    NumberSizes(r.code);
    match r.value {
      case BoolV(_) =>
      case IntV(i) => NumberSizes(i);
      case UIntV(u) => NumberSizes(u);
      case FloatV(w, x) => NumberSizes(Whole(w, x));
    }
  }

  /** The fragments of a long record keep its length and its first bytes. */
  lemma CarriedBytes(t: Transport, e: seq<byte>)
    requires !Intact(t, e)
    ensures |Carry(t, e)| == |e| > 100 && Carry(t, e)[..100] == e[..100]
  {
    hide WebSocketMessages.Plan, WebSocketMessages.Payload, WebSocketMessages.MiddleRepeats;
    WebSocketMessages.DeliveredBytes(e, WebSocketFrames.BINARY, t.mask);
    var p, f := Carry(t, e), WebSocketMessages.FragmentSize(t.mask);
    WebSocketMessages.OversizedNeedsTwo(|e|, t.mask);
    forall i | 0 <= i < 100 ensures p[i] == e[i] {
      WebSocketMessages.SmallModulus(i, f);
      assert p[i] == WebSocketMessages.DeliveredByte(e, f, i);
    }
  }

  /** What arrives instead is a record with other content. */
  lemma RecordMangled(t: Transport, r: Record)
    requires RecordSized(r) && !Lossy(r.value) && !r.value.ArrayV? && !Intact(t, EncRecord(r))
    ensures Differ(Decodes(Carry(t, EncRecord(r))), [r.(value := Received(r.value))])
  {
    hide EncRecord, Carry, Intact, HeadBytes, DecodeFrame, RecordFits, Sized, HeadFits;
    CarriedIff(t, EncRecord(r));
    if !HasContent(r.value) { OthersAreShort(t, r); }
    CarriedBytes(t, EncRecord(r));
    RecordSplits(r);
    var e, p, h := EncRecord(r), Carry(t, EncRecord(r)), HeadBytes(r);
    var other := r.(value := WithContent(r.value, p[|h|..]));
    SameHead(r, p[|h|..]);
    assert p == h + p[|h|..] by { assert p[..|h|] == p[..100][..|h|] == e[..100][..|h|] == h; }
    RecordSplits(other);
    FitsIffLossless(other);
    OneRecord(other);
    FirstDiffers(Decodes(p), [r.(value := Received(r.value))]);
  }

  /** A record with other content of the same length. */
  lemma SameHead(r: Record, b: seq<byte>)
    requires HasContent(r.value) && RecordSized(r) && |b| == |Content(r.value)| && !Lossy(r.value)
    ensures var other := r.(value := WithContent(r.value, b));
            RecordSized(other) && !Lossy(other.value) && HeadBytes(other) == HeadBytes(r)
  {
    hide EncInt, EncUint, EncArrayHeader, BigEndian;
  }

  // ------------------------------------------------------------ all frames of a client

  predicate Survives(t: Transport, r: Record) {
    !Lossy(r.value) && Intact(t, EncRecord(r))
  }

  predicate AllSurvive(t: Transport, rs: seq<Record>) {
    forall r | r in rs :: Survives(t, r)
  }

  /** Arrays are short; what becomes of the middle of a long one may read as the same elements. */
  predicate Scalars(t: Transport, rs: seq<Record>) {
    forall r | r in rs :: r.value.ArrayV? ==> Short(t, EncRecord(r))
  }

  lemma {:induction false} RecordWithin(rs: seq<Record>, r: Record)
    requires r in rs
    ensures |EncRecord(r)| <= |EncRecords(rs)|
    decreases |rs|
  {
    hide EncRecord;
    if r != rs[0] {
      RecordWithin(rs[1..], r);
    }
  }

  lemma LossyIsShort(t: Transport, r: Record)
    requires RecordSized(r) && Lossy(r.value) && (r.value.ArrayV? ==> Short(t, EncRecord(r)))
    ensures Intact(t, EncRecord(r))
  {
    hide EncRecord, Short, Intact, HeadBytes, HeadFits, Sized;
    CarriedIff(t, EncRecord(r));
    if r.value.StrV? {
      RecordSplits(r);
      SmallIsShort(t, EncRecord(r));
    } else if !r.value.ArrayV? {
      OthersAreShort(t, r);
    }
  }

  /** One frame arrives as it was packed, or visibly different. */
  lemma FrameArrivesIff(t: Transport, rs: seq<Record>)
    requires AllSized(rs) && rs != [] && (|rs| > 1 ==> |EncRecords(rs)| <= MAX_CACHE)
    ensures AllSurvive(t, rs) ==> DecodeFrame(After(Carry(t, EncRecords(rs)))) == (AllReceived(rs), Finished)
    ensures Scalars(t, rs) && !AllSurvive(t, rs) ==> Differ(Decodes(Carry(t, EncRecords(rs))), AllReceived(rs))
  {
    hide EncRecord, EncRecords, DecodeFrame, Carry, Intact, Short, RecordSized, Lossy, Differ, AllReceived, Received;
    PlainFrame(rs);
    CarriedIff(t, EncRecords(rs));
    if |rs| > 1 {
      SmallIsShort(t, EncRecords(rs));
      forall r | r in rs ensures Intact(t, EncRecord(r)) {
        RecordWithin(rs, r);
        SmallIsShort(t, EncRecord(r));
        CarriedIff(t, EncRecord(r));
      }
    } else {
      var r := rs[0];
      assert rs == [r] + [];
      FrameOfOne(r, []);
      NoRecords();
      assert EncRecords(rs) == EncRecord(r) && AllReceived(rs) == [r.(value := Received(r.value))];
      assert r in rs;
      CarriedIff(t, EncRecord(r));
      if Scalars(t, rs) && Lossy(r.value) {
        LossyIsShort(t, r);
      } else if Scalars(t, rs) && !Intact(t, EncRecord(r)) {
        RecordMangled(t, r);
      }
    }
  }

  lemma NoRecords()
    ensures EncRecords([]) == [] && AllReceived([]) == []
  {
  }

  /** The records in each frame. */
  function Groups(sent: seq<seq<seq<byte>>>, rs: seq<Record>): (gs: seq<seq<Record>>)
    requires |Flatten(sent)| == |rs|
    ensures |gs| == |sent|
  {
    if sent == [] then []
    else
      var init := sent[..|sent| - 1];
      Groups(init, rs[..|Flatten(init)|]) + [rs[|Flatten(init)|..]]
  }

  function EachReceived(gs: seq<seq<Record>>): (ws: seq<seq<Record>>)
    ensures |ws| == |gs| && forall i :: 0 <= i < |gs| ==> ws[i] == AllReceived(gs[i])
  {
    seq(|gs|, i requires 0 <= i < |gs| => AllReceived(gs[i]))
  }

  /** What each frame decodes to where it arrives. */
  function Parts(t: Transport, sent: seq<seq<seq<byte>>>): (ps: seq<seq<Record>>)
    ensures |ps| == |sent| && forall i :: 0 <= i < |sent| ==> ps[i] == Decodes(Carry(t, Frame(BINARY, sent[i])))
  {
    seq(|sent|, i requires 0 <= i < |sent| => Decodes(Carry(t, Frame(BINARY, sent[i]))))
  }

  lemma EachReceivedMore(gs: seq<seq<Record>>, g: seq<Record>)
    ensures EachReceived(gs + [g]) == EachReceived(gs) + [AllReceived(g)]
  {
    hide AllReceived;
  }

  lemma {:induction false} GroupsEncode(sent: seq<seq<seq<byte>>>, rs: seq<Record>)
    requires Flatten(sent) == Encoded(rs)
    ensures forall i | 0 <= i < |sent| :: Encoded(Groups(sent, rs)[i]) == sent[i]
    ensures Flatten(EachReceived(Groups(sent, rs))) == AllReceived(rs)
  {
    hide AllReceived, EachReceived, Encoded;
    if sent == [] {
      NoRecords();
      NoGroups();
    } else {
      var init, last := sent[..|sent| - 1], sent[|sent| - 1];
      var n := |Flatten(init)|;
      Split(rs, Flatten(init), last);
      GroupsEncode(init, rs[..n]);
      var before := Groups(init, rs[..n]);
      EachReceivedMore(before, rs[n..]);
      FlattenMore(EachReceived(before), AllReceived(rs[n..]));
    }
  }

  lemma NoGroups()
    ensures EachReceived([]) == []
    ensures forall rs :: Encoded(rs) == [] ==> rs == []
  {
  }

  lemma {:induction false} GroupsHold(sent: seq<seq<seq<byte>>>, rs: seq<Record>)
    requires |Flatten(sent)| == |rs|
    ensures forall i | 0 <= i < |sent| :: forall r | r in Groups(sent, rs)[i] :: r in rs
    ensures forall r | r in rs :: exists i :: 0 <= i < |sent| && r in Groups(sent, rs)[i]
  {
    if sent == [] {
    } else {
      var init := sent[..|sent| - 1];
      var n := |Flatten(init)|;
      GroupsHold(init, rs[..n]);
      var gs, before := Groups(sent, rs), Groups(init, rs[..n]);
      assert rs == rs[..n] + rs[n..];
      forall r | r in rs ensures exists i :: 0 <= i < |sent| && r in gs[i] {
        if r in rs[..n] {
          var i :| 0 <= i < |init| && r in before[i];
          assert r in gs[i];
        } else {
          assert r in gs[|gs| - 1];
        }
      }
    }
  }

  /** What a client has received once its cache has been flushed, too. */
  function Arriving(t: Transport, b: Batch<byte>): seq<Record> {
    Flatten(Parts(t, FlushAll(BINARY, b).sent))
  }

  predicate AllEnd(t: Transport, b: Batch<byte>) {
    forall f | f in FlushAll(BINARY, b).sent :: DecodeFrame(After(Carry(t, Frame(BINARY, f)))).1 == Finished
  }

  lemma EverythingLeaves(b: Batch<byte>)
    requires Good(BINARY, b)
    ensures var c := FlushAll(BINARY, b); Good(BINARY, c) && Flatten(c.sent) == Items(b)
  {
    hide Good, Join, Flatten;
    FlushKeeps(BINARY, b, MAX_CACHE);
    FlushAllEmpties(BINARY, b);
    var c := FlushAll(BINARY, b);
    assert Flatten(c.sent) + [] == Flatten(c.sent);
  }

  lemma GroupArrivesIff(t: Transport, f: seq<seq<byte>>, g: seq<Record>)
    requires f == Encoded(g) && Bounded(BINARY, f) && AllSized(g)
    ensures AllSurvive(t, g) ==> DecodeFrame(After(Carry(t, Frame(BINARY, f)))) == (AllReceived(g), Finished)
    ensures Scalars(t, g) && !AllSurvive(t, g) ==> Differ(Decodes(Carry(t, Frame(BINARY, f))), AllReceived(g))
  {
    hide Frame, EncRecord, EncRecords, DecodeFrame, Carry, RecordSized, Differ, AllReceived, Survives, Short;
    FrameIsRecords(g);
    FrameArrivesIff(t, g);
  }

  /** All updates arrive, in order, if all of them survive the format and the socket, and without long arrays only
      then. */
  lemma BatchArrivesIff(t: Transport, b: Batch<byte>, rs: seq<Record>)
    requires Good(BINARY, b) && Items(b) == Encoded(rs) && AllSized(rs)
    ensures AllSurvive(t, rs) ==> Arriving(t, b) == AllReceived(rs) && AllEnd(t, b)
    ensures Scalars(t, rs) && !AllSurvive(t, rs) ==> Arriving(t, b) != AllReceived(rs)
  {
    hide Frame, EncRecord, DecodeFrame, Decodes, Carry, RecordSized, Differ, AllReceived, Survives, Short, FlushAll, Items, Encoded, Flatten, Groups;
    EverythingLeaves(b);
    var sent := FlushAll(BINARY, b).sent;
    GroupsEncode(sent, rs);
    GroupsHold(sent, rs);
    var gs, parts := Groups(sent, rs), Parts(t, sent);
    var ws := EachReceived(gs);
    forall i | 0 <= i < |sent|
      ensures AllSurvive(t, gs[i]) ==> parts[i] == ws[i] && DecodeFrame(After(Carry(t, Frame(BINARY, sent[i])))).1 == Finished
      ensures Scalars(t, rs) && !AllSurvive(t, gs[i]) ==> Differ(parts[i], ws[i]) && parts[i] != ws[i]
    {
      assert sent[i] in sent && forall r | r in gs[i] :: r in rs;
      GroupArrivesIff(t, sent[i], gs[i]);
      assert Decodes(Carry(t, Frame(BINARY, sent[i]))) == DecodeFrame(After(Carry(t, Frame(BINARY, sent[i])))).0 by {
        DecodesIs(Carry(t, Frame(BINARY, sent[i])));
      }
      if Differ(parts[i], ws[i]) { DifferIsDifferent(parts[i], ws[i]); }
    }
    if AllSurvive(t, rs) {
      assert parts == ws;
    } else if Scalars(t, rs) {
      AllPartsIff(parts, ws);
      assert exists i :: 0 <= i < |gs| && !AllSurvive(t, gs[i]);
      DifferIsDifferent(Flatten(parts), Flatten(ws));
    }
  }

  lemma DecodesIs(bytes: seq<byte>)
    ensures Decodes(bytes) == DecodeFrame(After(bytes)).0
  {
    hide DecodeFrame;
  }

  // ------------------------------------------------------------ from the queue to the client

  /** Whatever updates are queued and whenever the cache is flushed: all arrive, and each frame is read to its end,
      if all survive, and without long arrays only then. */
  lemma EndToEndIff(t: Transport, ops: seq<UpdateOp>)
    requires AllSized(Sent(ops))
    ensures var rs, b := Sent(ops), AfterOps(BINARY, ByteOps(ops));
            (AllSurvive(t, rs) ==> Arriving(t, b) == AllReceived(rs) && AllEnd(t, b)) &&
            (Scalars(t, rs) && !AllSurvive(t, rs) ==> Arriving(t, b) != AllReceived(rs)) &&
            (forall g | g in b.sent :: Bounded(BINARY, g))
  {
    hide EncRecord, Join, Items, AllReceived, Arriving, AllSurvive, AllSized, Scalars, AllEnd;
    QueuedAreEncoded(ops);
    Lossless(BINARY, ByteOps(ops));
    BatchArrivesIff(t, AfterOps(BINARY, ByteOps(ops)), Sent(ops));
  }

  /** In every run, once its cache has been flushed: a client receives all the updates queued for it, in order, and
      reads each frame to its end, if all survive, and without long arrays only then. */
  lemma UpdatesArriveIff(t: Transport, enc: Encoders, inputs: seq<Input>, s: Server, g: Guid)
    requires Reached(enc, inputs, s) && g in s.clients
    requires AllSized(UpdatesOf(s.clients[g].queue))
    ensures var rs, b := UpdatesOf(s.clients[g].queue), s.clients[g].binary;
            (AllSurvive(t, rs) ==> Arriving(t, b) == AllReceived(rs) && AllEnd(t, b)) &&
            (Scalars(t, rs) && !AllSurvive(t, rs) ==> Arriving(t, b) != AllReceived(rs))
  {
    hide Run, SoundRun, IdsOk, HistoryOk, TopicsOk, Join, Items, Good, AllReceived, Arriving, AllSurvive, AllSized, Scalars, AllEnd;
    RunClient(enc, inputs, s, g);
    RecordsAreEncoded(s.clients[g].queue);
    BatchArrivesIff(t, s.clients[g].binary, UpdatesOf(s.clients[g].queue));
  }

  /** Records of up to two fragments that the format does not change survive. */
  lemma ShortSurvives(t: Transport, r: Record)
    requires !Lossy(r.value) && Short(t, EncRecord(r))
    ensures Survives(t, r)
  {
    hide EncRecord, Short, Intact;
    CarriedIff(t, EncRecord(r));
  }
}
