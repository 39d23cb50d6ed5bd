/** The WebSocket object: frame buffers filled by index, the fragmentation loop, the frame reader and the dispatch. */
module WebSocketConnection {
  import opened Bytes
  import opened XorBytes
  import opened WebSocketFrames
  import opened WebSocketMessages
  import opened WebSocketReceiver

  /** maskPayload on length bytes of a buffer, in place. */
  method MaskPayload(buffer: array<byte>, start: nat, length: nat, key: Key)
    requires start + length <= buffer.Length
    modifies buffer
    ensures buffer[..] == old(buffer[..start] + Mask(buffer[start..start + length], key) + buffer[start + length..])
  {
    hide Xor, KeyByte;
    for i := 0 to length
      invariant forall j :: 0 <= j < buffer.Length && !(start <= j < start + i) ==> buffer[j] == old(buffer[j])
      invariant forall j {:trigger buffer[j]} :: start <= j < start + i ==> buffer[j] == Xor(old(buffer[j]), KeyByte(key, (j - start) % 4))
    {
      buffer[start + i] := Xor(buffer[start + i], KeyByte(key, i % 4));
    }
  }

  /** memcpy into the buffer at index. */
  method Copy(buffer: array<byte>, index: nat, b: seq<byte>)
    requires index + |b| <= buffer.Length
    modifies buffer
    ensures buffer[..index + |b|] == old(buffer[..index]) + b
  {
    for i := 0 to |b|
      invariant buffer[..index] == old(buffer[..index])
      invariant buffer[index..index + i] == b[..i]
    {
      buffer[index + i] := b[i];
    }
    assert buffer[..index + |b|] == buffer[..index] + buffer[index..index + |b|];
  }

  lemma MaskRegion(before: seq<byte>, p: seq<byte>, key: Key)
    ensures var s := before + p;
      s[..|before|] + Mask(s[|before|..|before| + |p|], key) + s[|before| + |p|..] == before + Mask(p, key)
  {
    var s := before + p;
    assert s[|before|..|before| + |p|] == p;
  }

  class WebSocket {
    const useMasking: bool
    /** Outcomes of get_rand_32, in order. */
    const random: nat -> Key
    var drawn: nat
    /** Bytes written to, and still to be read from, the socket. */
    var sent: seq<byte>
    var incoming: seq<byte>
    var state: State

    constructor (mask: bool, random: nat -> Key)
      ensures useMasking == mask && this.random == random && sent == [] && incoming == []
      ensures state == State(Message(false, CONTINUATION, []), false, false, true, [])
    {
      useMasking := mask;
      this.random := random;
      drawn, sent, incoming := 0, [], [];
      state := State(Message(false, CONTINUATION, []), false, false, true, []);
    }

    method NextKey() returns (key: Key)
      modifies this`drawn
    {
      if useMasking {
        key := random(drawn);
        drawn := drawn + 1;
      } else {
        key := 0;
      }
    }

    /** Both sendFrame overloads: the payload may come in two parts. */
    method SendFrame(h: Header, payload1: seq<byte>, payload2: seq<byte>, key: Key)
      requires HeaderOk(h)
      modifies this`sent
      ensures sent == old(sent) + EncFrame(h, payload1 + payload2, key)
    {
      hide Mask, KeyBytes, HeaderBytes, BigEndian;
      var n := |payload1| + |payload2|;
      var frameLength := HeaderSize(h.payloadLen, h.mask) + n;
      var buffer := new byte[frameLength];
      var index := 0;
      Copy(buffer, index, HeaderBytes(h));
      index := index + 2;
      if h.payloadLen == 127 {
        Copy(buffer, index, BigEndian(n, 8));
        index := index + 8;
      } else if h.payloadLen == 126 {
        Copy(buffer, index, BigEndian(n, 2));
        index := index + 2;
      }
      ghost var header := HeaderBytes(h) + LengthBytes(h.payloadLen, n);
      assert buffer[..index] == header;
      if h.mask {
        Copy(buffer, index, KeyBytes(key));
        index := index + 4;
      }
      ghost var before := buffer[..index];
      var payloadStart := index;
      Copy(buffer, index, payload1);
      index := index + |payload1|;
      Copy(buffer, index, payload2);
      Regroup(before, payload1, payload2);
      assert buffer[..] == before + (payload1 + payload2);
      if h.mask {
        MaskRegion(before, payload1 + payload2, key);
        MaskPayload(buffer, payloadStart, n, key);
        Regroup(header, KeyBytes(key), Mask(payload1 + payload2, key));
      }
      sent := sent + buffer[..];
    }

    /** Sends one piece with a header whose length field belongs to it; the frame written is returned for the proofs. */
    method SendPiece(p: Piece) returns (ghost f: WireFrame)
      requires FrameOk(WireFrame(p, false, 0))
      modifies this`sent, this`drawn
      ensures f.piece == p && f.mask == useMasking && FrameOk(f)
      ensures sent == old(sent) + Wire(f)
    {
      hide EncFrame, LengthCode;
      var key := NextKey();
      f := WireFrame(p, useMasking, key);
      assert p.payload + [] == p.payload;
      SendFrame(HeaderOf(p, useMasking), p.payload, [], key);
    }

    /** One pass of the loop over bytesLeft. */
    method SendFragment(data: seq<byte>, opcode: nat, fragmentPayloadLength: nat, left: nat) returns (bytesLeft: nat, ghost f: WireFrame)
      requires (opcode == TEXT || opcode == BINARY) && |data| < 0x1_0000_0000
      requires 0 < fragmentPayloadLength && 0 < left <= |data|
      modifies this`sent, this`drawn
      ensures (f.piece, bytesLeft) == NextFragment(data, opcode, fragmentPayloadLength, left, false)
      ensures bytesLeft < left && FrameOk(f) && f.mask == useMasking
      ensures sent == old(sent) + Wire(f)
    {
      hide Wire;
      bytesLeft := left;
      var at := |data| - bytesLeft;
      var p;
      if bytesLeft >= fragmentPayloadLength {
        if bytesLeft == fragmentPayloadLength {
          p := Piece(CONTINUATION, true, data[at..]);
        } else if bytesLeft == |data| {
          p := Piece(opcode, false, data[..fragmentPayloadLength]);
        } else {
          p := Piece(CONTINUATION, false, data[..fragmentPayloadLength]);
        }
        bytesLeft := bytesLeft - fragmentPayloadLength;
      } else {
        p := Piece(CONTINUATION, true, data[at..]);
        bytesLeft := 0;
      }
      f := SendPiece(p);
    }

    /** send: one frame if the packet is small enough, otherwise the loop over bytesLeft. */
    method Send(data: seq<byte>, opcode: nat) returns (ghost fs: seq<WireFrame>)
      requires (opcode == TEXT || opcode == BINARY) && |data| < 0x1_0000_0000
      modifies this`sent, this`drawn
      ensures forall f | f in fs :: FrameOk(f) && f.mask == useMasking
      ensures Pieces(fs) == Plan(data, opcode, useMasking, false)
      ensures sent == old(sent) + WireAll(fs)
    {
      hide Wire, Continues;
      if PacketSize(|data|, useMasking) > MAX_PACKET_SIZE {
        OversizedNeedsTwo(|data|, useMasking);
        var fragmentPayloadLength := FragmentSize(useMasking);
        var bytesLeft := |data|;
        ghost var plan := Fragments(data, opcode, fragmentPayloadLength, |data|, false);
        fs := [];
        while bytesLeft > 0
          invariant 0 <= bytesLeft <= |data|
          invariant forall f | f in fs :: FrameOk(f) && f.mask == useMasking
          invariant Pieces(fs) + Fragments(data, opcode, fragmentPayloadLength, bytesLeft, false) == plan
          invariant sent == old(sent) + WireAll(fs)
        {
          FragmentsStep(data, opcode, fragmentPayloadLength, bytesLeft);
          hide Fragments, WireAll, NextFragment;
          ghost var was := Pieces(fs);
          ghost var f;
          bytesLeft, f := SendFragment(data, opcode, fragmentPayloadLength, bytesLeft);
          WireAllAppend(fs, f);
          Regroup(old(sent), WireAll(fs), Wire(f));
          Regroup(was, [f.piece], Fragments(data, opcode, fragmentPayloadLength, bytesLeft, false));
          fs := fs + [f];
          assert Pieces(fs) == was + [f.piece];
        }
        assert Pieces(fs) + [] == Pieces(fs);
      } else {
        ghost var f := SendPiece(Piece(opcode, true, data));
        fs := [f];
        WireAllAppend([], f);
        assert [] + [f] == [f];
        assert Pieces(fs) == [f.piece];
      }
    }

    /** close(status, reason) */
    method Close(status: nat, reason: seq<byte>) returns (ghost replies: seq<WireFrame>)
      requires status < 0x1_0000 && |reason| < 0xFFFF_FFFE
      modifies this`sent, this`drawn, this`state
      ensures state == CloseNow(old(state), status, reason)
      ensures Pieces(replies) == (if old(state).closeFrameSent then [] else [Piece(CLOSE, true, BigEndian(status, 2) + reason)])
      ensures forall f | f in replies :: FrameOk(f) && f.mask == useMasking
      ensures sent == old(sent) + WireAll(replies)
    {
      hide EncFrame, LengthCode;
      replies := [];
      assert sent + [] == sent;
      if !state.closeFrameSent {
        var k := NextKey();
        var p := Piece(CLOSE, true, BigEndian(status, 2) + reason);
        SendFrame(HeaderOf(p, useMasking), BigEndian(status, 2), reason, k);
        replies := [WireFrame(p, useMasking, k)];
        WireOne(replies[0]);
        state := Note(state.(closeFrameSent := true), CloseSent(status, reason));
      } else {
        state := Note(state, Closed(status, reason)).(open := false);
      }
    }

    /** handleFrame */
    method HandleFrame(p: Piece) returns (ghost replies: seq<WireFrame>)
      requires Known(p.opcode) && |p.payload| < 0x1_0000_0000
      modifies this`sent, this`drawn, this`state
      ensures state == Handle(old(state), p)
      ensures Pieces(replies) == Answer(old(state), p) && forall f | f in replies :: FrameOk(f) && f.mask == useMasking
      ensures sent == old(sent) + WireAll(replies)
    {
      hide EncFrame, LengthCode, BigEndian;
      replies := [];
      assert sent + [] == sent;
      if !p.fin {
        var c: Message;
        if p.opcode != CONTINUATION {
          c := Message(true, p.opcode, p.payload);
        } else {
          c := state.current.(payload := state.current.payload + p.payload);
        }
        state := Note(state.(current := c), Received(c));
      } else if p.opcode == CONTINUATION {
        var c := Message(false, state.current.opcode, state.current.payload + p.payload);
        state := Note(state.(current := c), Received(c));
      } else if p.opcode == PING {
        ghost var f := SendPiece(Piece(PONG, true, p.payload));
        replies := [f];
        WireOne(f);
        state := Note(state, Pinged(p.payload));
      } else if p.opcode == PONG {
        state := Note(state, Ponged(p.payload));
      } else if p.opcode == CLOSE {
        if |p.payload| >= 2 {
          StatusRange(p.payload[..2]);
          state := state.(gracefullyClosed := true);
          replies := Close(FromBigEndian(p.payload[..2]), p.payload[2..]);
          state := state.(open := false);
        } else {
          replies := Close(1000, []);
        }
      } else {
        var c := Message(false, p.opcode, p.payload);
        state := Note(state.(current := c), Received(c));
      }
    }

    /** The poll loop with parseFrameHeader: frames are read off the stream and handled until it ends or fails, or the
        socket is closed. The state is the one after all frames of the stream, closed if the stream fails; the
        bytes written are the answers to the frames that were handled, in order. */
    method PollLoop() returns (ghost replies: seq<WireFrame>)
      modifies this`sent, this`drawn, this`state, this`incoming
      ensures var s := Feed(old(state), ParseAll(old(incoming)));
              state == s.(open := s.open && Unbroken(old(incoming)))
      ensures Pieces(replies) == Answers(old(state), ParseAll(old(incoming)))
      ensures forall f | f in replies :: FrameOk(f) && f.mask == useMasking
      ensures sent == old(sent) + WireAll(replies)
    {
      hide Handle, Parse, Answer, Wire, FrameOk, Pieces, WireAll, Answers, Feed;
      ghost var last, answers := Feed(state, ParseAll(incoming)), Answers(state, ParseAll(incoming));
      replies := [];
      NoReplies();
      while state.open && |incoming| >= 2
        invariant Feed(state, ParseAll(incoming)) == last && (Unbroken(old(incoming)) <==> Unbroken(incoming))
        invariant Pieces(replies) + Answers(state, ParseAll(incoming)) == answers
        invariant forall f | f in replies :: FrameOk(f) && f.mask == useMasking
        invariant sent == old(sent) + WireAll(replies)
        decreases |incoming|
      {
        match Parse(incoming) {
          case Disconnect =>
            NothingLeft(state, replies);
            state := state.(open := false);
            return;
          case Frame(p, rest) =>
            ParsedIsOk(incoming);
            OneAnswered(state, p, ParseAll(rest));
            incoming := rest;
            ghost var before := state;
            ghost var more := HandleFrame(p);
            MoreReplies(old(sent), replies, more, Answer(before, p), Answers(state, ParseAll(rest)));
            replies := replies + more;
        }
      }
      NothingLeft(state, replies);
    }
  }

  lemma NoReplies()
    ensures Pieces([]) == [] && WireAll([]) == []
  {
  }

  lemma NothingLeft(s: State, replies: seq<WireFrame>)
    ensures Answers(s, []) == [] && Feed(s, []) == s && Pieces(replies) + [] == Pieces(replies)
    ensures !s.open ==> forall ps :: Answers(s, ps) == [] && Feed(s, ps) == s
  {
  }

  lemma MoreReplies(sent: seq<byte>, was: seq<WireFrame>, more: seq<WireFrame>, answer: seq<Piece>, others: seq<Piece>)
    requires (forall f | f in was :: FrameOk(f)) && (forall f | f in more :: FrameOk(f)) && Pieces(more) == answer
    ensures forall f | f in was + more :: FrameOk(f)
    ensures sent + WireAll(was + more) == sent + WireAll(was) + WireAll(more)
    ensures Pieces(was + more) + others == Pieces(was) + (answer + others)
  {
    hide FrameOk, WireAll;
    assert Pieces(was + more) == Pieces(was) + Pieces(more);
    WireBoth(was, more);
  }

  lemma WireOne(f: WireFrame)
    requires FrameOk(f)
    ensures WireAll([f]) == Wire(f)
  {
    hide Wire;
    assert [f][1..] == [];
    assert WireAll([f]) == Wire(f) + [];
  }

  lemma {:induction false} WireBoth(fs: seq<WireFrame>, gs: seq<WireFrame>)
    requires (forall f | f in fs :: FrameOk(f)) && (forall g | g in gs :: FrameOk(g))
    ensures forall f | f in fs + gs :: FrameOk(f)
    ensures WireAll(fs + gs) == WireAll(fs) + WireAll(gs)
  {
    hide Wire, FrameOk;
    if fs == [] {
      assert fs + gs == gs;
    } else {
      assert (fs + gs)[1..] == fs[1..] + gs;
      WireBoth(fs[1..], gs);
      Regroup(Wire(fs[0]), WireAll(fs[1..]), WireAll(gs));
    }
  }

  lemma OneAnswered(s: State, p: Piece, ps: seq<Piece>)
    requires s.open
    ensures Answers(s, [p] + ps) == Answer(s, p) + Answers(Handle(s, p), ps) && Feed(s, [p] + ps) == Feed(Handle(s, p), ps)
  {
    hide Handle, Answer;
    assert ([p] + ps)[1..] == ps;
  }

  /** A stream that can be read to its end, up to a last single byte. */
  predicate Unbroken(s: seq<byte>)
    decreases |s|
  {
    |s| < 2 || (Parse(s).Frame? && Unbroken(Parse(s).rest))
  }

  lemma {:induction false} WireAllAppend(fs: seq<WireFrame>, f: WireFrame)
    requires FrameOk(f) && forall g | g in fs :: FrameOk(g)
    ensures WireAll(fs + [f]) == WireAll(fs) + Wire(f)
  {
    hide Wire;
    if |fs| == 0 {
      assert [] + [f] == [f] && [f][1..] == [];
      assert WireAll([f]) == Wire(f) + [];
    } else {
      assert (fs + [f])[1..] == fs[1..] + [f];
      WireAllAppend(fs[1..], f);
      Regroup(Wire(fs[0]), WireAll(fs[1..]), Wire(f));
    }
  }

  lemma StatusRange(b: seq<byte>)
    requires |b| == 2
    ensures FromBigEndian(b) < 0x1_0000
  {
    Widths();
    NumberRange(b);
  }

  lemma {:induction false} NumberRange(b: seq<byte>)
    ensures FromBigEndian(b) < Pow256(|b|)
  {
    if |b| == 0 {
    } else {
      NumberRange(b[1..]);
      Distribute(0, b[0], Pow256(|b| - 1));
    }
  }

  lemma LengthIsSmall(code: nat, s: seq<byte>)
    requires code < 128 && ParseLength(code, s).0
    ensures ParseLength(code, s).1 < 0x1_0000_0000
  {
    Widths();
    if code == 126 {
      NumberRange(s[..2]);
      assert |s[..2]| == 2;
    }
  }

  lemma PayloadLength(mask: bool, n: nat, s: seq<byte>)
    requires ParsePayload(mask, n, s).0
    ensures |ParsePayload(mask, n, s).1| == n
  {
  }

  /** A parsed frame has a known opcode and a payload whose size fits a size_t. */
  lemma ParsedIsOk(s: seq<byte>)
    requires |s| >= 2 && Parse(s).Frame?
    ensures Known(Parse(s).piece.opcode) && |Parse(s).piece.payload| < 0x1_0000_0000
  {
    hide ParseLength, ParsePayload, Known;
    var (_, n, s1) := ParseLength(s[1] % 128, s[2..]);
    LengthIsSmall(s[1] % 128, s[2..]);
    PayloadLength(s[1] >= 128, n, s1);
  }

  lemma FragmentsStep(data: seq<byte>, opcode: nat, f: nat, left: nat)
    requires 0 < f && 0 < left <= |data|
    ensures var (p, after) := NextFragment(data, opcode, f, left, false);
      Fragments(data, opcode, f, left, false) == [p] + Fragments(data, opcode, f, after, false)
  {
    hide NextFragment;
  }
}
