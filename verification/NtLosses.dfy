/** Runs in which a client receives another value than the one that was written. */
module NtLosses {
  import opened Bytes
  import opened Floats
  import opened MsgPackFormat
  import opened NtValues
  import opened NtRecords
  import opened NtStream
  import opened NtClient
  import opened NtServer
  import opened NtTheorems
  import opened NtOvertaking
  import opened NtArrivals
  import WebSocketMessages

  function RecordX(v: NTValue): Record {
    RecordOf(0, 7, v)
  }

  /** One client, one value, written and flushed: it arrives exactly if it survives the format and the socket. */
  lemma WrittenArrivesIff(t: Transport, enc: Encoders, v: NTValue, p: Properties)
    requires Writable(v) && RecordSized(RecordX(v)) && Scalars(t, [RecordX(v)])
    ensures var s := Run(enc, OvertakingRun(enc, v, p));
            SoundRun(enc, OvertakingRun(enc, v, p)) && 0 in s.clients &&
            (Arriving(t, s.clients[0].binary) == AllReceived([RecordX(v)]) <==> Survives(t, RecordX(v)))
  {
    hide Run, SoundRun, Survives, Arriving, AllReceived, RecordSized, Scalars, Writable, EncRecord, OvertakingRun;
    LocalUpdateOvertakes(enc, v, p);
    var inputs := OvertakingRun(enc, v, p);
    var s := Run(enc, inputs);
    TheUpdates(s.clients[0], v, p);
    assert forall r | r in [RecordX(v)] :: r == RecordX(v);
    assert RecordX(v) in [RecordX(v)];
    UpdatesArriveIff(t, enc, inputs, s, 0);
  }

  lemma TheUpdates(c: Client, v: NTValue, p: Properties)
    requires Holds(c, v, p)
    ensures UpdatesOf(c.queue) == [RecordX(v)]
  {
    hide EncRecord, TypeName;
    var a, u := TheAnnouncement(v, p), TheUpdate(v);
    assert c.queue[..1] == [a] && [a][..0] == [];
    assert UpdatesOf([a]) == [];
    assert [] + [RecordX(v)] == [RecordX(v)];
  }

  // ------------------------------------------------------------ a half

  const HALF := Float(false, 1022, 0)

  lemma HalfIsLost(t: Transport, enc: Encoders, p: Properties)
    ensures var v := FloatV(true, HALF);
            var s := Run(enc, OvertakingRun(enc, v, p));
            SoundRun(enc, OvertakingRun(enc, v, p)) && 0 in s.clients &&
            Arriving(t, s.clients[0].binary) != AllReceived([RecordX(v)])
  {
    hide Run, SoundRun, Arriving, AllReceived, Intact, Short, EncRecord, OvertakingRun;
    WrittenArrivesIff(t, enc, FloatV(true, HALF), p);
  }

  // ------------------------------------------------------------ 4000 bytes

  /** 1600 zeros and 2400 ones. */
  function BigBytes(): seq<byte> {
    seq(4000, i => if i < 1600 then 0 else 1)
  }

  lemma BigValueChanges(enc: Encoders, p: Properties)
    ensures var v := BinV(PlainBin, BigBytes());
            var s := Run(enc, OvertakingRun(enc, v, p));
            SoundRun(enc, OvertakingRun(enc, v, p)) && 0 in s.clients &&
            Arriving(Direct, s.clients[0].binary) == AllReceived([RecordX(v)]) &&
            Arriving(Socket(false), s.clients[0].binary) != AllReceived([RecordX(v)])
  {
    hide Run, SoundRun, Arriving, AllReceived, Intact, Short, EncRecord, BigBytes, OvertakingRun;
    BigSize();
    var v := BinV(PlainBin, BigBytes());
    WrittenArrivesIff(Direct, enc, v, p);
    WrittenArrivesIff(Socket(false), enc, v, p);
    assert Survives(Direct, RecordX(v)) by { CarriedIff(Direct, EncRecord(RecordX(v))); DirectIsIntact(EncRecord(RecordX(v))); }
    BigIsNotIntact(RecordX(v));
  }

  lemma BigSize()
    ensures |BigBytes()| == 4000
  {
  }

  lemma DirectIsIntact(e: seq<byte>)
    ensures Intact(Direct, e)
  {
  }

  lemma BigIsNotIntact(r: Record)
    requires RecordSized(r) && r.value == BinV(PlainBin, BigBytes())
    ensures !Intact(Socket(false), EncRecord(r))
  {
    hide EncRecord, HeadBytes, RecordSized, HeadFits;
    RecordSplits(r);
    var e, h := EncRecord(r), |HeadBytes(r)|;
    BigSize();
    assert WebSocketMessages.FragmentSize(false) == 1456;
    assert 2 * 1456 < |e|;
    WebSocketMessages.LastOffsetBounds(|e|, 1456, 1);
    assert 1700 < WebSocketMessages.LastOffset(|e|, 1456);
    assert 1700 % 1456 == 244;
    assert e[1700] == BigBytes()[1700 - h] && e[244] == BigBytes()[244 - h];
    assert e[1700] != e[1700 % 1456];
  }
}
