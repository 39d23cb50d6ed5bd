/** The receiving side: reassembly of fragments with control frames in between (RFC 6455, sections 5.4 and 5.5). */
module WebSocketReceiver {
  import opened Bytes
  import opened WebSocketFrames
  import opened WebSocketMessages

  /** WebSocketFrame, as handed to the callback. */
  datatype Message = Message(isFragment: bool, opcode: nat, payload: seq<byte>)

  datatype Event =
    | Received(message: Message)
    | Pinged(payload: seq<byte>)
    | Ponged(payload: seq<byte>)
    | CloseSent(status: nat, reason: seq<byte>)
    | Closed(status: nat, reason: seq<byte>)

  /** currentFrame, the two close flags, whether the socket is still connected, and all callbacks and replies so far. */
  datatype State = State(current: Message, closeFrameSent: bool, gracefullyClosed: bool, open: bool, log: seq<Event>)

  function Note(s: State, e: Event): State {
    s.(log := s.log + [e])
  }

  /** close(status, reason) on a connected socket. */
  function CloseNow(s: State, status: nat, reason: seq<byte>): State {
    if !s.closeFrameSent then Note(s.(closeFrameSent := true), CloseSent(status, reason))
    else Note(s, Closed(status, reason)).(open := false)
  }

  /** handleFrame, with the callbacks set. */
  function Handle(s: State, p: Piece): State {
    if !p.fin then
      var c := if p.opcode != CONTINUATION then Message(true, p.opcode, p.payload)
               else s.current.(payload := s.current.payload + p.payload);
      Note(s.(current := c), Received(c))
    else if p.opcode == CONTINUATION then
      var c := Message(false, s.current.opcode, s.current.payload + p.payload);
      Note(s.(current := c), Received(c))
    else if p.opcode == PING then Note(s, Pinged(p.payload))
    else if p.opcode == PONG then Note(s, Ponged(p.payload))
    else if p.opcode == CLOSE then
      if |p.payload| >= 2 then
        CloseNow(s.(gracefullyClosed := true), FromBigEndian(p.payload[..2]), p.payload[2..]).(open := false)
      else CloseNow(s, 1000, [])
    else if p.opcode == TEXT || p.opcode == BINARY then
      var c := Message(false, p.opcode, p.payload);
      Note(s.(current := c), Received(c))
    else s
  }

  /** What handling a frame writes back: a pong with the ping's payload, or a close frame, once. */
  function Answer(s: State, p: Piece): seq<Piece> {
    if p.fin && p.opcode == PING then [Piece(PONG, true, p.payload)]
    else if p.fin && p.opcode == CLOSE && !s.closeFrameSent then
      [Piece(CLOSE, true, if |p.payload| >= 2 then BigEndian(FromBigEndian(p.payload[..2]), 2) + p.payload[2..] else BigEndian(1000, 2) + [])]
    else []
  }

  /** All that is written back while frames are handled, up to the closing of the socket. */
  function Answers(s: State, ps: seq<Piece>): seq<Piece>
    decreases |ps|
  {
    if |ps| == 0 || !s.open then [] else Answer(s, ps[0]) + Answers(Handle(s, ps[0]), ps[1..])
  }

  /** The poll loop stops when the socket is closed. */
  function Feed(s: State, ps: seq<Piece>): State
    decreases |ps|
  {
    if |ps| == 0 || !s.open then s else Feed(Handle(s, ps[0]), ps[1..])
  }

  /** Messages the application acts on: the callback drops fragments. */
  function Completed(log: seq<Event>): seq<Message> {
    if |log| == 0 then []
    else
      var e := log[|log| - 1];
      Completed(log[..|log| - 1]) + if e.Received? && !e.message.isFragment then [e.message] else []
  }

  function Pings(log: seq<Event>): seq<seq<byte>> {
    if |log| == 0 then []
    else
      var e := log[|log| - 1];
      Pings(log[..|log| - 1]) + if e.Pinged? then [e.payload] else []
  }

  predicate Control(p: Piece) {
    p.fin && (p.opcode == PING || p.opcode == PONG)
  }

  /** The frames of ps that belong to messages, and the payloads of its pings. */
  function DataFrames(ps: seq<Piece>): seq<Piece> {
    if |ps| == 0 then [] else (if Control(ps[0]) then [] else [ps[0]]) + DataFrames(ps[1..])
  }

  function PingPayloads(ps: seq<Piece>): seq<seq<byte>> {
    if |ps| == 0 then [] else (if Control(ps[0]) && ps[0].opcode == PING then [ps[0].payload] else []) + PingPayloads(ps[1..])
  }

  lemma NoteLog(s: State, e: Event)
    ensures Completed(Note(s, e).log) == Completed(s.log) + if e.Received? && !e.message.isFragment then [e.message] else []
    ensures Pings(Note(s, e).log) == Pings(s.log) + if e.Pinged? then [e.payload] else []
  {
    var l := s.log + [e];
    assert l[..|l| - 1] == s.log;
  }

  lemma ControlKeeps(s: State, p: Piece)
    requires Control(p)
    ensures var t := Handle(s, p);
      && t.current == s.current && t.open == s.open
      && Completed(t.log) == Completed(s.log)
      && Pings(t.log) == Pings(s.log) + PingPayloads([p])
  {
    NoteLog(s, Pinged(p.payload));
    NoteLog(s, Ponged(p.payload));
    assert PingPayloads([p][1..]) == [];
  }

  predicate DataOpcode(opcode: nat) {
    opcode == CONTINUATION || opcode == TEXT || opcode == BINARY
  }

  /** A fragment that is not the last: nothing is completed. */
  lemma FragmentHandled(s: State, p: Piece)
    requires !p.fin && DataOpcode(p.opcode) && (p.opcode == CONTINUATION ==> s.current.isFragment)
    ensures var t := Handle(s, p);
      && t.current == (if p.opcode != CONTINUATION then Message(true, p.opcode, p.payload)
                       else Message(true, s.current.opcode, s.current.payload + p.payload))
      && t.open == s.open && Completed(t.log) == Completed(s.log) && Pings(t.log) == Pings(s.log)
  {
    var c := Handle(s, p).current;
    NoteLog(s.(current := c), Received(c));
  }

  /** A last or only data frame: one message is completed. */
  lemma FinalHandled(s: State, p: Piece)
    requires p.fin && DataOpcode(p.opcode)
    ensures var t := Handle(s, p);
      && t.current == (if p.opcode != CONTINUATION then Message(false, p.opcode, p.payload)
                       else Message(false, s.current.opcode, s.current.payload + p.payload))
      && t.open == s.open && Completed(t.log) == Completed(s.log) + [t.current] && Pings(t.log) == Pings(s.log)
  {
    var c := Handle(s, p).current;
    NoteLog(s.(current := c), Received(c));
  }

  lemma DataFirst(ps: seq<Piece>)
    requires |ps| > 0
    ensures !Control(ps[0]) ==> |DataFrames(ps)| > 0 && DataFrames(ps)[0] == ps[0] && DataFrames(ps)[1..] == DataFrames(ps[1..])
    ensures !Control(ps[0]) ==> PingPayloads(ps) == PingPayloads(ps[1..])
    ensures Control(ps[0]) ==> DataFrames(ps) == DataFrames(ps[1..])
    ensures Control(ps[0]) ==> PingPayloads(ps) == PingPayloads([ps[0]]) + PingPayloads(ps[1..])
  {
    hide Control;
    assert [ps[0]][1..] == [];
  }

  lemma PayloadFirst(d: seq<Piece>)
    requires |d| > 0
    ensures Payload(d) == d[0].payload + Payload(d[1..])
    ensures d[1..] == [] ==> Payload(d) == d[0].payload
  {
    assert d[0].payload + [] == d[0].payload;
  }

  /** Trailing control frames change nothing. */
  lemma {:induction false} OnlyControl(s: State, ps: seq<Piece>)
    requires s.open && DataFrames(ps) == []
    ensures Completed(Feed(s, ps).log) == Completed(s.log)
    ensures Pings(Feed(s, ps).log) == Pings(s.log) + PingPayloads(ps)
    ensures Feed(s, ps).open
    decreases |ps|
  {
    if |ps| == 0 {
      assert Pings(s.log) + [] == Pings(s.log);
    } else {
      hide Handle, Completed, Pings, PingPayloads, DataFrames, Control;
      DataFirst(ps);
      ControlKeeps(s, ps[0]);
      OnlyControl(Handle(s, ps[0]), ps[1..]);
      Regroup(Pings(s.log), PingPayloads([ps[0]]), PingPayloads(ps[1..]));
    }
  }

  /** The rest of a series, interleaved with control frames, completes the message begun so far. */
  lemma {:induction false} RestOfSeries(s: State, ps: seq<Piece>, opcode: nat)
    requires s.open && s.current.opcode == opcode && s.current.isFragment
    requires Continues(DataFrames(ps))
    ensures Completed(Feed(s, ps).log) == Completed(s.log) + [Message(false, opcode, s.current.payload + Payload(DataFrames(ps)))]
    ensures Pings(Feed(s, ps).log) == Pings(s.log) + PingPayloads(ps)
    ensures Feed(s, ps).open
    decreases |ps|
  {
    var p, rest, d := ps[0], ps[1..], DataFrames(ps);
    var t := Handle(s, p);
    DataFirst(ps);
    assert Feed(s, ps) == Feed(t, rest);
    hide Handle, DataFrames, Feed, Completed, Pings, PingPayloads;
    if Control(p) {
      ControlKeeps(s, p);
      RestOfSeries(t, rest, opcode);
    } else {
      PayloadFirst(d);
      if p.fin {
        FinalHandled(s, p);
        OnlyControl(t, rest);
      } else {
        FragmentHandled(s, p);
        RestOfSeries(t, rest, opcode);
        Regroup(s.current.payload, p.payload, Payload(d[1..]));
      }
    }
  }

  /** The frames of one message: a single final data frame or a series. */
  predicate OneMessage(ps: seq<Piece>, opcode: nat) {
    if |ps| == 1 then ps[0].fin && ps[0].opcode == opcode else Series(ps, opcode)
  }

  lemma NotEmpty(ps: seq<Piece>, opcode: nat)
    requires OneMessage(DataFrames(ps), opcode)
    ensures ps != []
  {
  }

  lemma FeedFirst(s: State, ps: seq<Piece>)
    requires ps != [] && s.open
    ensures Feed(s, ps) == Feed(Handle(s, ps[0]), ps[1..])
  {
    hide Handle;
  }

  /** Reassembly: whatever pings and pongs lie between its frames, a message reaches the application exactly once,
      with its opcode and the payloads of its frames in order, and every ping is answered in order. */
  lemma {:induction false} Reassembly(s: State, ps: seq<Piece>, opcode: nat)
    requires s.open && (opcode == TEXT || opcode == BINARY)
    requires OneMessage(DataFrames(ps), opcode)
    ensures Completed(Feed(s, ps).log) == Completed(s.log) + [Message(false, opcode, Payload(DataFrames(ps)))]
    ensures Pings(Feed(s, ps).log) == Pings(s.log) + PingPayloads(ps)
    ensures Feed(s, ps).open
    decreases |ps|
  {
    hide Handle, DataFrames, Feed, Completed, Pings, PingPayloads;
    NotEmpty(ps, opcode);
    var p, rest, d := ps[0], ps[1..], DataFrames(ps);
    var t := Handle(s, p);
    DataFirst(ps);
    FeedFirst(s, ps);
    if Control(p) {
      ControlKeeps(s, p);
      Reassembly(t, rest, opcode);
    } else {
      PayloadFirst(d);
      if p.fin {
        FinalHandled(s, p);
        OnlyControl(t, rest);
      } else {
        FragmentHandled(s, p);
        RestOfSeries(t, rest, opcode);
      }
    }
  }

  lemma {:induction false} PiecesData(fs: seq<WireFrame>, data: seq<byte>, opcode: nat, mask: bool)
    requires forall f | f in fs :: FrameOk(f)
    requires opcode == TEXT || opcode == BINARY
    requires DataFrames(Pieces(fs)) == Plan(data, opcode, mask, false)
    ensures OneMessage(DataFrames(Pieces(fs)), opcode)
  {
    if PacketSize(|data|, mask) > MAX_PACKET_SIZE {
      FragmentShape(data, opcode, mask, false);
    }
  }

  /** From send to the callback: the frames written for a message, on one byte stream with control frames at any
      places between them, come out as one message with the original opcode; its bytes are the original ones exactly
      under the condition of DeliveredIff. */
  lemma EndToEnd(s: State, fs: seq<WireFrame>, data: seq<byte>, opcode: nat, mask: bool)
    requires s.open && (opcode == TEXT || opcode == BINARY)
    requires forall f | f in fs :: FrameOk(f)
    requires DataFrames(Pieces(fs)) == Plan(data, opcode, mask, false)
    ensures var log := Feed(s, ParseAll(WireAll(fs))).log;
      && Completed(log) == Completed(s.log) + [Message(false, opcode, Payload(Plan(data, opcode, mask, false)))]
      && (Completed(log) == Completed(s.log) + [Message(false, opcode, data)]
          <==> PacketSize(|data|, mask) <= MAX_PACKET_SIZE || MiddleRepeats(data, FragmentSize(mask), FragmentSize(mask)))
      && Pings(log) == Pings(s.log) + PingPayloads(Pieces(fs))
  {
    StreamRoundTrip(fs);
    PiecesData(fs, data, opcode, mask);
    Reassembly(s, Pieces(fs), opcode);
    DeliveredIff(data, opcode, mask);
    hide Plan, Payload, MiddleRepeats, PacketSize, FragmentSize, Completed, Pings, Feed, ParseAll, WireAll;
    var log := Feed(s, ParseAll(WireAll(fs))).log;
    var sent := Payload(Plan(data, opcode, mask, false));
    if Completed(log) == Completed(s.log) + [Message(false, opcode, data)] {
      assert (Completed(s.log) + [Message(false, opcode, data)])[|Completed(s.log)|] == Message(false, opcode, sent);
    }
  }

  /** With a pointer that advances through the middle fragments every message of every length would be carried. */
  lemma EndToEndAdvancing(s: State, fs: seq<WireFrame>, data: seq<byte>, opcode: nat, mask: bool)
    requires s.open && (opcode == TEXT || opcode == BINARY)
    requires forall f | f in fs :: FrameOk(f)
    requires DataFrames(Pieces(fs)) == Plan(data, opcode, mask, true)
    ensures Completed(Feed(s, ParseAll(WireAll(fs))).log) == Completed(s.log) + [Message(false, opcode, data)]
  {
    StreamRoundTrip(fs);
    if PacketSize(|data|, mask) > MAX_PACKET_SIZE {
      FragmentShape(data, opcode, mask, true);
    }
    Reassembly(s, Pieces(fs), opcode);
    AdvancingPlan(data, opcode, mask);
  }
}
