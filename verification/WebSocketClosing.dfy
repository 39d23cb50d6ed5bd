/** Closing a connection: what close frames do to it, over whole streams (RFC 6455, section 5.5.1), and what a stream
    of any bytes is parsed into. */
module WebSocketClosing {
  import opened Bytes
  import XorBytes
  import opened WebSocketFrames
  import opened WebSocketReceiver

  predicate Closing(p: Piece) {
    p.fin && p.opcode == CLOSE
  }

  predicate NoneCloses(ps: seq<Piece>) {
    forall p | p in ps :: !Closing(p)
  }

  /** One pong for each ping, with its payload. */
  function Pongs(ps: seq<Piece>): seq<Piece> {
    if ps == [] then []
    else (if ps[0].fin && ps[0].opcode == PING then [Piece(PONG, true, ps[0].payload)] else []) + Pongs(ps[1..])
  }

  lemma OthersStay(s: State, p: Piece)
    requires !Closing(p)
    ensures var t := Handle(s, p);
            t.open == s.open && t.closeFrameSent == s.closeFrameSent && t.gracefullyClosed == s.gracefullyClosed
    ensures Answer(s, p) == Pongs([p])
  {
    assert [p][1..] == [];
  }

  /** Up to a close frame: the connection stays open, and pings are answered. */
  lemma {:induction false} BeforeClosing(s: State, before: seq<Piece>, behind: seq<Piece>)
    requires s.open && NoneCloses(before)
    ensures var t := Feed(s, before);
            t.open && t.closeFrameSent == s.closeFrameSent && t.gracefullyClosed == s.gracefullyClosed &&
            Feed(s, before + behind) == Feed(t, behind) && Answers(s, before + behind) == Pongs(before) + Answers(t, behind)
    decreases |before|
  {
    hide Handle, Answer;
    if before == [] {
      assert before + behind == behind;
      assert [] + Answers(s, behind) == Answers(s, behind);
    } else {
      var p, rest := before[0], before[1..];
      assert p in before;
      OthersStay(s, p);
      BeforeClosing(Handle(s, p), rest, behind);
      assert (before + behind)[0] == p && (before + behind)[1..] == rest + behind;
      assert [p][1..] == [];
      assert Pongs(before) == Pongs([p]) + Pongs(rest) by { assert Pongs([]) == []; }
      Regroup(Pongs([p]), Pongs(rest), Answers(Feed(Handle(s, p), rest), behind));
    }
  }

  lemma StaysClosed(s: State, behind: seq<Piece>)
    requires !s.open
    ensures Feed(s, behind) == s && Answers(s, behind) == []
  {
  }

  /** The first two bytes, the higher one first. */
  function Status(payload: seq<byte>): nat
    requires |payload| >= 2
  {
    var high: nat, low: nat := payload[0], payload[1];
    256 * high + low
  }

  lemma StatusBytes(payload: seq<byte>)
    requires |payload| >= 2
    ensures FromBigEndian(payload[..2]) == Status(payload)
    ensures BigEndian(FromBigEndian(payload[..2]), 2) + payload[2..] == payload
  {
    var a: nat, b: nat := payload[0], payload[1];
    assert payload[..2] == [a, b];
    assert [a, b][1..] == [b] && [b][1..] == [];
    assert Pow256(0) == 1 && Pow256(1) == 256;
    assert FromBigEndian([b]) == b * 1 + FromBigEndian([]);
    assert FromBigEndian([a, b]) == a * 256 + FromBigEndian([b]);
    var n := 256 * a + b;
    assert n / 256 == a && n % 256 == b;
    assert BigEndian(n, 2) == [n / 256 % 256] + BigEndian(n, 1);
    assert BigEndian(n, 1) == [n / 1 % 256] + BigEndian(n, 0);
    assert payload == [a, b] + payload[2..];
  }

  /** A close frame with a status: nothing behind it is handled or answered, the connection is closed and counts as closed
      gracefully, and the frame is echoed unless a close frame was sent before. */
  lemma CloseEnds(s: State, before: seq<Piece>, p: Piece, behind: seq<Piece>)
    requires s.open && NoneCloses(before) && Closing(p) && |p.payload| >= 2
    ensures var ps := before + ([p] + behind);
            var t, u := Feed(s, ps), Feed(s, before);
            var status, reason := Status(p.payload), p.payload[2..];
            !t.open && t.gracefullyClosed && t.closeFrameSent && t.current == u.current &&
            t.log == u.log + [if s.closeFrameSent then Closed(status, reason) else CloseSent(status, reason)] &&
            Answers(s, ps) == Pongs(before) + (if s.closeFrameSent then [] else [Piece(CLOSE, true, p.payload)])
  {
    hide FromBigEndian, BigEndian;
    BeforeClosing(s, before, [p] + behind);
    StatusBytes(p.payload);
    var u := Feed(s, before);
    assert ([p] + behind)[1..] == behind;
    StaysClosed(Handle(u, p), behind);
    assert Answers(u, [p] + behind) == Answer(u, p) + [];
  }

  /** A bare close frame is answered with the status 1000 and leaves the connection open; if a close frame was sent
      before, the connection is closed instead. */
  lemma BareClose(s: State, before: seq<Piece>, p: Piece, behind: seq<Piece>)
    requires s.open && NoneCloses(before) && Closing(p) && |p.payload| < 2
    ensures var ps := before + ([p] + behind);
            var u := Feed(s, before);
            if s.closeFrameSent then
              Feed(s, ps) == u.(open := false, log := u.log + [Closed(1000, [])]) && Answers(s, ps) == Pongs(before)
            else
              var t := u.(closeFrameSent := true, log := u.log + [CloseSent(1000, [])]);
              t.open && Feed(s, ps) == Feed(t, behind) &&
              Answers(s, ps) == Pongs(before) + ([Piece(CLOSE, true, [0x03, 0xe8])] + Answers(t, behind))
  {
    hide FromBigEndian, BigEndian;
    BeforeClosing(s, before, [p] + behind);
    var u := Feed(s, before);
    assert ([p] + behind)[0] == p && ([p] + behind)[1..] == behind;
    assert BigEndian(1000, 2) + [] == [0x03, 0xe8] by { NormalStatus(); }
    if s.closeFrameSent {
      StaysClosed(Handle(u, p), behind);
    }
    assert Pongs(before) + [] == Pongs(before);
  }

  lemma NormalStatus()
    ensures BigEndian(1000, 2) + [] == [0x03, 0xe8]
  {
    assert Pow256(0) == 1 && Pow256(1) == 256;
    assert BigEndian(1000, 2) == [3] + BigEndian(1000, 1);
    assert BigEndian(1000, 1) == [0xe8] + BigEndian(1000, 0);
  }

  /** Two bare close frames: the second closes the connection, one close frame was written, and nothing behind is
      handled. */
  lemma TwoBareCloses(s: State, before: seq<Piece>, p: Piece, between: seq<Piece>, q: Piece, behind: seq<Piece>)
    requires s.open && !s.closeFrameSent && NoneCloses(before) && NoneCloses(between)
    requires Closing(p) && |p.payload| < 2 && Closing(q) && |q.payload| < 2
    ensures var ps := before + ([p] + (between + ([q] + behind)));
            !Feed(s, ps).open && Feed(s, ps).gracefullyClosed == s.gracefullyClosed &&
            Answers(s, ps) == Pongs(before) + ([Piece(CLOSE, true, [0x03, 0xe8])] + Pongs(between))
  {
    hide Handle, Answer;
    BareClose(s, before, p, between + ([q] + behind));
    BeforeClosing(s, before, []);
    var u := Feed(s, before);
    var t := u.(closeFrameSent := true, log := u.log + [CloseSent(1000, [])]);
    BareClose(t, between, q, behind);
    BeforeClosing(t, between, []);
  }

  function CloseFrames(ps: seq<Piece>): nat {
    if ps == [] then 0 else (if ps[0].opcode == CLOSE then 1 else 0) + CloseFrames(ps[1..])
  }

  lemma {:induction false} CloseFramesMore(ps: seq<Piece>, qs: seq<Piece>)
    ensures CloseFrames(ps + qs) == CloseFrames(ps) + CloseFrames(qs)
  {
    if ps == [] {
      assert ps + qs == qs;
    } else {
      assert (ps + qs)[1..] == ps[1..] + qs;
      CloseFramesMore(ps[1..], qs);
    }
  }

  lemma AnsweredOnce(s: State, p: Piece)
    ensures CloseFrames(Answer(s, p)) == if Handle(s, p).closeFrameSent && !s.closeFrameSent then 1 else 0
    ensures s.closeFrameSent ==> Handle(s, p).closeFrameSent
  {
    hide BigEndian, FromBigEndian;
    var a := Answer(s, p);
    if a != [] { assert a[1..] == []; }
  }

  /** Whatever is received: at most one close frame is ever written, and none after one was sent. */
  lemma {:induction false} OneCloseFrame(s: State, ps: seq<Piece>)
    ensures CloseFrames(Answers(s, ps)) == if Feed(s, ps).closeFrameSent && !s.closeFrameSent then 1 else 0
    ensures s.closeFrameSent ==> Feed(s, ps).closeFrameSent
    decreases |ps|
  {
    hide Handle, Answer;
    if ps == [] || !s.open {
    } else {
      var t := Handle(s, ps[0]);
      AnsweredOnce(s, ps[0]);
      OneCloseFrame(t, ps[1..]);
      CloseFramesMore(Answer(s, ps[0]), Answers(t, ps[1..]));
    }
  }

  // ------------------------------------------------------------ streams of bytes

  /** Frames on the wire and then any bytes. */
  lemma {:induction false} ParsedFrames(fs: seq<WireFrame>, behind: seq<byte>)
    requires forall f | f in fs :: FrameOk(f)
    ensures ParseAll(WireAll(fs) + behind) == Pieces(fs) + ParseAll(behind)
    decreases |fs|
  {
    hide Parse, Wire, ParseAll, FrameOk;
    if fs == [] {
      assert WireAll(fs) + behind == behind;
      assert Pieces(fs) + ParseAll(behind) == ParseAll(behind);
    } else {
      var more := WireAll(fs[1..]) + behind;
      assert fs[0] in fs;
      Regroup(Wire(fs[0]), WireAll(fs[1..]), behind);
      FrameRoundTrip(fs[0], more);
      OneParsed(fs[0], more);
      ParsedFrames(fs[1..], behind);
      assert Pieces(fs) == [fs[0].piece] + Pieces(fs[1..]);
      Regroup([fs[0].piece], Pieces(fs[1..]), ParseAll(behind));
    }
  }

  /** On the wire: frames that do not close, a close frame with a status, and any bytes whatever behind it. */
  lemma CloseEndsStream(s: State, fs: seq<WireFrame>, f: WireFrame, behind: seq<byte>)
    requires s.open && !s.closeFrameSent && (forall g | g in fs :: FrameOk(g)) && FrameOk(f)
    requires NoneCloses(Pieces(fs)) && Closing(f.piece) && |f.piece.payload| >= 2
    ensures var ps := ParseAll(WireAll(fs) + (Wire(f) + behind));
            !Feed(s, ps).open && Feed(s, ps).gracefullyClosed &&
            Answers(s, ps) == Pongs(Pieces(fs)) + [Piece(CLOSE, true, f.piece.payload)]
  {
    hide Parse, ParseAll, Wire, Feed, Answers, FrameOk;
    FrameRoundTrip(f, behind);
    OneParsed(f, behind);
    ParsedFrames(fs, Wire(f) + behind);
    CloseEnds(s, Pieces(fs), f.piece, ParseAll(behind));
  }

  // ------------------------------------------------------------ what any bytes are parsed into

  /** How many bytes the length takes behind the first two, and the length, in the 32 bits of a size. */
  function LengthSize(s: seq<byte>): nat
    requires |s| >= 2
  {
    if s[1] % 128 == 126 then 2 else if s[1] % 128 == 127 then 8 else 0
  }

  function LengthOf(s: seq<byte>): nat
    requires |s| >= 2 && |s| >= 2 + LengthSize(s)
  {
    if LengthSize(s) == 0 then s[1] % 128 else FromBigEndian(s[2..2 + LengthSize(s)]) % 0x1_0000_0000
  }

  /** Where the payload begins. */
  function PayloadAt(s: seq<byte>): nat
    requires |s| >= 2
  {
    2 + LengthSize(s) + (if s[1] >= 128 then 4 else 0)
  }

  /** Section 5.2, for any bytes: they are a frame exactly if the opcode is one of six and all bytes are there. */
  lemma ParsedIff(s: seq<byte>)
    requires |s| >= 2
    ensures Parse(s).Frame? <==> s[0] % 16 in {0, 1, 2, 8, 9, 10} && |s| >= 2 + LengthSize(s) && |s| >= PayloadAt(s) + LengthOf(s)
  {
    hide Mask, FromBigEndian, KeyFrom;
    if |s| >= 2 + LengthSize(s) { LengthParsed(s); }
  }

  lemma LengthParsed(s: seq<byte>)
    requires |s| >= 2 && |s| >= 2 + LengthSize(s)
    ensures ParseLength(s[1] % 128, s[2..]) == (true, LengthOf(s), s[2 + LengthSize(s)..])
  {
    var n := LengthSize(s);
    if n > 0 {
      assert s[2..][..n] == s[2..2 + n] && s[2..][n..] == s[2 + n..];
      Widths();
      if n == 2 { NumberBelow(s[2..4]); }
    }
  }

  lemma {:induction false} NumberBelow(b: seq<byte>)
    ensures FromBigEndian(b) < Pow256(|b|)
  {
    if b == [] {
    } else {
      NumberBelow(b[1..]);
      Distribute(0, b[0], Pow256(|b| - 1));
    }
  }

  /** The frame: each byte of a masked payload is combined with the byte of the key at its place modulo four. */
  lemma ParsedFrame(s: seq<byte>)
    requires |s| >= 2 && Parse(s).Frame?
    ensures |s| >= 2 + LengthSize(s) && |s| >= PayloadAt(s) + LengthOf(s)
    ensures var p, rest, at, n := Parse(s).piece, Parse(s).rest, PayloadAt(s), LengthOf(s);
            p.opcode == s[0] % 16 && (p.fin <==> s[0] >= 128) && |p.payload| == n && rest == s[at + n..] &&
            forall i | 0 <= i < n :: p.payload[i] == if s[1] >= 128 then XorBytes.Xor(s[at + i], s[at - 4 + i % 4]) else s[at + i]
  {
    hide FromBigEndian, Known, XorBytes.Xor;
    ParsedIff(s);
    LengthParsed(s);
    var r, n := s[2 + LengthSize(s)..], LengthOf(s);
    if s[1] >= 128 {
      assert r[..4] == [r[0], r[1], r[2], r[3]];
      KeyInPlace(r[..4]);
      assert r[4..4 + n] == s[PayloadAt(s)..PayloadAt(s) + n];
    }
  }

  lemma KeyInPlace(b: seq<byte>)
    requires |b| == 4
    ensures forall j | 0 <= j < 4 :: KeyByte(KeyFrom(b), j) == b[j]
  {
    var k0: nat, k1: nat, k2: nat, k3: nat := b[0], b[1], b[2], b[3];
    LowByte(k0, k1 + 256 * (k2 + 256 * k3));
    LowByte(k1, k2 + 256 * k3);
    LowByte(k2, k3);
  }

  lemma LowByte(low: nat, high: nat)
    requires low < 256
    ensures (low + 256 * high) % 256 == low && (low + 256 * high) / 256 == high
  {
  }
}
