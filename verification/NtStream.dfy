/** The stream of updates to one client, from the queue on the server to the records its frames decode to. */
module NtStream {
  import opened Bytes
  import opened NtValues
  import opened NtRecords
  import opened Batching

  function Encoded(rs: seq<Record>): (es: seq<seq<byte>>)
    ensures |es| == |rs|
    ensures forall i :: 0 <= i < |rs| ==> es[i] == EncRecord(rs[i])
  {
    seq(|rs|, i requires 0 <= i < |rs| => EncRecord(rs[i]))
  }

  lemma {:induction false} EncRecordsMore(rs: seq<Record>, r: Record)
    ensures EncRecords(rs + [r]) == EncRecords(rs) + EncRecord(r)
  {
    hide EncRecord;
    if rs == [] {
      assert [r][1..] == [];
      assert [] + [r] == [r];
      assert EncRecords([r]) == EncRecord(r) + [];
    } else {
      assert (rs + [r])[1..] == rs[1..] + [r];
      EncRecordsMore(rs[1..], r);
      Regroup(EncRecord(rs[0]), EncRecords(rs[1..]), EncRecord(r));
    }
  }

  /** A binary frame of packed records is the packed records one after another. */
  lemma {:induction false} FrameIsRecords(rs: seq<Record>)
    ensures Join(BINARY, Encoded(rs)) == EncRecords(rs)
    ensures Frame(BINARY, Encoded(rs)) == EncRecords(rs)
  {
    hide EncRecord;
    if rs == [] {
    } else {
      var init, last := rs[..|rs| - 1], rs[|rs| - 1];
      FrameIsRecords(init);
      assert rs == init + [last] && Encoded(rs) == Encoded(init) + [EncRecord(last)];
      EncRecordsMore(init, last);
      JoinMore(BINARY, Encoded(init), EncRecord(last));
      assert Join(BINARY, Encoded(init)) + [] == Join(BINARY, Encoded(init));
      if init == [] { assert EncRecords(init) == []; }
    }
    var joined := Join(BINARY, Encoded(rs));
    assert [] + joined + [] == joined;
  }

  lemma Split(rs: seq<Record>, a: seq<seq<byte>>, b: seq<seq<byte>>)
    requires a + b == Encoded(rs)
    ensures Encoded(rs[..|a|]) == a && Encoded(rs[|a|..]) == b
    ensures AllReceived(rs) == AllReceived(rs[..|a|]) + AllReceived(rs[|a|..])
  {
    hide Encoded, AllReceived;
    Slices(a, b);
    EncodedParts(rs, |a|);
    Halves(AllReceived(rs), |a|);
  }

  lemma Slices<T>(a: seq<T>, b: seq<T>)
    ensures (a + b)[..|a|] == a && (a + b)[|a|..] == b
  {
  }

  lemma Halves<T>(w: seq<T>, n: nat)
    requires n <= |w|
    ensures w == w[..n] + w[n..]
  {
  }

  lemma EncodedParts(rs: seq<Record>, n: nat)
    requires n <= |rs|
    ensures Encoded(rs[..n]) == Encoded(rs)[..n] && Encoded(rs[n..]) == Encoded(rs)[n..]
    ensures AllReceived(rs[..n]) == AllReceived(rs)[..n] && AllReceived(rs[n..]) == AllReceived(rs)[n..]
  {
    hide EncRecord, Received;
  }

  datatype UpdateOp = Send(r: Record) | FlushUpdates

  function ByteOps(ops: seq<UpdateOp>): (bs: seq<Op<byte>>)
    ensures |bs| == |ops|
  {
    seq(|ops|, i requires 0 <= i < |ops| => match ops[i] case Send(r) => Queue(EncRecord(r)) case FlushUpdates => FlushOp)
  }

  function Sent(ops: seq<UpdateOp>): seq<Record> {
    if ops == [] then []
    else
      var rs := Sent(ops[..|ops| - 1]);
      match ops[|ops| - 1]
      case Send(r) => rs + [r]
      case FlushUpdates => rs
  }

  lemma {:induction false} QueuedAreEncoded(ops: seq<UpdateOp>)
    ensures Queued(ByteOps(ops)) == Encoded(Sent(ops))
    ensures forall r | r in Sent(ops) :: Send(r) in ops
    ensures forall op | op in ByteOps(ops) :: op.Queue? ==> op.item != []
  {
    if ops == [] {
    } else {
      var init := ops[..|ops| - 1];
      QueuedAreEncoded(init);
      assert ByteOps(ops)[..|ops| - 1] == ByteOps(init);
      match ops[|ops| - 1] {
        case Send(r) => assert Encoded(Sent(init) + [r]) == Encoded(Sent(init)) + [EncRecord(r)];
        case FlushUpdates =>
      }
    }
  }

}
