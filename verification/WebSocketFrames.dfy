/** Exclusive or of bytes that are kept as numbers. */
module XorBytes {
  type octet = x: int | 0 <= x < 256

  function TwoTo(n: nat): (p: nat)
    ensures p > 0
  {
    if n == 0 then 1 else 2 * TwoTo(n - 1)
  }

  /** Exclusive or of the lowest n bits. */
  function XorBits(a: nat, b: nat, n: nat): (r: nat)
    ensures r < TwoTo(n)
  {
    if n == 0 then 0 else 2 * XorBits(a / 2, b / 2, n - 1) + (a + b) % 2
  }

  function Xor(a: octet, b: octet): octet {
    Octets();
    XorBits(a, b, 8)
  }

  lemma Octets()
    ensures TwoTo(8) == 256
  {
    assert TwoTo(4) == 16;
    assert TwoTo(6) == 64;
  }

  lemma {:induction false} XorBitsTwice(a: nat, b: nat, n: nat)
    requires a < TwoTo(n)
    ensures XorBits(XorBits(a, b, n), b, n) == a
  {
    if n == 0 {
    } else {
      LowestBit(XorBits(a / 2, b / 2, n - 1), a, b);
      XorBitsTwice(a / 2, b / 2, n - 1);
    }
  }

  lemma LowestBit(x: nat, a: nat, b: nat)
    ensures (2 * x + (a + b) % 2) / 2 == x
    ensures (2 * x + (a + b) % 2 + b) % 2 == a % 2
  {
  }

  lemma XorInvolution(a: octet, b: octet)
    ensures Xor(Xor(a, b), b) == a
  {
    Octets();
    XorBitsTwice(a, b, 8);
  }
}

/** WebSocket frames on the wire (RFC 6455, sections 5.2 and 5.3): encoding, parsing and masking. */
module WebSocketFrames {
  import opened Bytes
  import opened XorBytes

  type Key = x: int | 0 <= x < 0x1_0000_0000

  const CONTINUATION: nat := 0x0
  const TEXT: nat := 0x1
  const BINARY: nat := 0x2
  const CLOSE: nat := 0x8
  const PING: nat := 0x9
  const PONG: nat := 0xA

  predicate Known(opcode: nat) {
    opcode == CONTINUATION || opcode == TEXT || opcode == BINARY || opcode == CLOSE || opcode == PING || opcode == PONG
  }

  /** The two fixed bytes; reserved bits are written as zero and ignored on reading. */
  datatype Header = Header(opcode: nat, fin: bool, payloadLen: nat, mask: bool)

  predicate HeaderOk(h: Header) {
    h.opcode < 16 && h.payloadLen < 128
  }

  function HeaderBytes(h: Header): (b: seq<byte>)
    requires HeaderOk(h)
    ensures |b| == 2
  {
    [h.opcode + (if h.fin then 128 else 0), h.payloadLen + (if h.mask then 128 else 0)]
  }

  /** The 7-bit length field of a payload: the code switches to 64 bits one byte early, at 65535. */
  function LengthCode(n: nat): (c: nat)
    ensures c < 128
  {
    if n >= 0xFFFF then 127 else if n >= 126 then 126 else n
  }

  function LengthBytes(code: nat, n: nat): seq<byte> {
    if code == 127 then BigEndian(n, 8) else if code == 126 then BigEndian(n, 2) else []
  }

  /** Byte j of a masking key as it lies in memory, least significant first. */
  function KeyByte(key: Key, j: nat): byte
    requires j < 4
  {
    if j == 0 then key % 256 else if j == 1 then key / 256 % 256 else if j == 2 then key / 256 / 256 % 256 else key / 256 / 256 / 256
  }

  function KeyBytes(key: Key): (b: seq<byte>)
    ensures |b| == 4
  {
    [KeyByte(key, 0), KeyByte(key, 1), KeyByte(key, 2), KeyByte(key, 3)]
  }

  function KeyFrom(b: seq<byte>): Key
    requires |b| == 4
  {
    var k0: nat, k1: nat, k2: nat, k3: nat := b[0], b[1], b[2], b[3];
    k0 + 256 * (k1 + 256 * (k2 + 256 * k3))
  }

  lemma KeyRoundTrip(key: Key)
    ensures KeyFrom(KeyBytes(key)) == key
  {
  }

  /** Section 5.3: octet i is combined with key octet i mod 4. */
  function Mask(payload: seq<byte>, key: Key): (m: seq<byte>)
    ensures |m| == |payload|
  {
    seq(|payload|, i requires 0 <= i < |payload| => Xor(payload[i], KeyByte(key, i % 4)))
  }

  /** Masking is its own inverse, for every payload and key. */
  lemma MaskTwice(payload: seq<byte>, key: Key)
    ensures Mask(Mask(payload, key), key) == payload
  {
    hide Xor, KeyByte;
    forall i | 0 <= i < |payload|
      ensures Mask(Mask(payload, key), key)[i] == payload[i]
    {
      XorInvolution(payload[i], KeyByte(key, i % 4));
    }
  }

  function EncFrame(h: Header, payload: seq<byte>, key: Key): seq<byte>
    requires HeaderOk(h)
  {
    HeaderBytes(h) + LengthBytes(h.payloadLen, |payload|)
    + (if h.mask then KeyBytes(key) + Mask(payload, key) else payload)
  }

  /** A frame as the receiver sees it. */
  datatype Piece = Piece(opcode: nat, fin: bool, payload: seq<byte>)

  /** A frame as it is sent: the header's length field always belongs to the payload. */
  datatype WireFrame = WireFrame(piece: Piece, mask: bool, key: Key)

  /** Lengths are size_t, 32 bits wide. */
  predicate FrameOk(f: WireFrame) {
    Known(f.piece.opcode) && |f.piece.payload| < 0x1_0000_0000
  }

  function HeaderOf(p: Piece, mask: bool): Header {
    Header(p.opcode, p.fin, LengthCode(|p.payload|), mask)
  }

  function Wire(f: WireFrame): seq<byte>
    requires FrameOk(f)
  {
    EncFrame(HeaderOf(f.piece, f.mask), f.piece.payload, f.key)
  }

  function WireAll(fs: seq<WireFrame>): seq<byte>
    requires forall f | f in fs :: FrameOk(f)
  {
    if |fs| == 0 then [] else Wire(fs[0]) + WireAll(fs[1..])
  }

  // ------------------------------------------------------------ parsing

  /** One frame taken from the front of the stream; a short read or an unknown opcode ends the connection. */
  datatype Parsed = Frame(piece: Piece, rest: seq<byte>) | Disconnect

  function ParseLength(code: nat, s: seq<byte>): (r: (bool, nat, seq<byte>))
    ensures r.0 ==> |r.2| <= |s|
  {
    if code == 126 then
      if |s| < 2 then (false, 0, s) else (true, FromBigEndian(s[..2]), s[2..])
    else if code == 127 then
      if |s| < 8 then (false, 0, s) else (true, FromBigEndian(s[..8]) % 0x1_0000_0000, s[8..])
    else (true, code, s)
  }

  function ParsePayload(mask: bool, n: nat, s: seq<byte>): (r: (bool, seq<byte>, seq<byte>))
    ensures r.0 ==> |r.2| <= |s|
  {
    if mask then
      if |s| < 4 + n then (false, [], s) else (true, Mask(s[4..4 + n], KeyFrom(s[..4])), s[4 + n..])
    else
      if |s| < n then (false, [], s) else (true, s[..n], s[n..])
  }

  function Parse(s: seq<byte>): (r: Parsed)
    requires |s| >= 2
    ensures r.Frame? ==> |r.rest| < |s|
  {
    var opcode, fin := s[0] % 16, s[0] >= 128;
    var code, mask := s[1] % 128, s[1] >= 128;
    if !Known(opcode) then Disconnect
    else
      var (ok, n, s1) := ParseLength(code, s[2..]);
      if !ok then Disconnect
      else
        var (ok', payload, s2) := ParsePayload(mask, n, s1);
        if !ok' then Disconnect else Frame(Piece(opcode, fin, payload), s2)
  }

  /** The poll loop: all frames of a stream, up to the first failure. */
  function ParseAll(s: seq<byte>): seq<Piece>
    decreases |s|
  {
    if |s| < 2 then []
    else
      match Parse(s)
      case Disconnect => []
      case Frame(p, rest) => [p] + ParseAll(rest)
  }

  lemma LengthRoundTrip(n: nat, more: seq<byte>)
    requires n < 0x1_0000_0000
    ensures ParseLength(LengthCode(n), LengthBytes(LengthCode(n), n) + more) == (true, n, more)
  {
    var code := LengthCode(n);
    var b := LengthBytes(code, n);
    assert (b + more)[..|b|] == b && (b + more)[|b|..] == more;
    Widths();
    if code == 127 {
      BigEndianRoundTrip(n, 8);
    } else if code == 126 {
      BigEndianRoundTrip(n, 2);
    }
    hide BigEndian, FromBigEndian, Pow256;
  }

  lemma PayloadRoundTrip(mask: bool, payload: seq<byte>, key: Key, more: seq<byte>)
    ensures ParsePayload(mask, |payload|, (if mask then KeyBytes(key) + Mask(payload, key) else payload) + more) == (true, payload, more)
  {
    hide Mask, KeyBytes;
    var n := |payload|;
    if mask {
      var k, m := KeyBytes(key), Mask(payload, key);
      var s := k + m + more;
      assert s[..4] == k && s[4..4 + n] == m && s[4 + n..] == more;
      KeyRoundTrip(key);
      MaskTwice(payload, key);
    } else {
      assert (payload + more)[..n] == payload && (payload + more)[n..] == more;
    }
  }

  lemma HeaderRoundTrip(h: Header)
    requires HeaderOk(h)
    ensures var b := HeaderBytes(h);
      b[0] % 16 == h.opcode && (b[0] >= 128) == h.fin && b[1] % 128 == h.payloadLen && (b[1] >= 128) == h.mask
  {
  }

  lemma ParseParts(h: Header, s: seq<byte>)
    requires HeaderOk(h) && Known(h.opcode)
    ensures |HeaderBytes(h) + s| >= 2
    ensures Parse(HeaderBytes(h) + s) ==
      var (ok, n, s1) := ParseLength(h.payloadLen, s);
      if !ok then Disconnect
      else
        var (ok', payload, s2) := ParsePayload(h.mask, n, s1);
        if !ok' then Disconnect else Frame(Piece(h.opcode, h.fin, payload), s2)
  {
    HeaderRoundTrip(h);
    hide HeaderBytes, ParseLength, ParsePayload, Known;
    var t := HeaderBytes(h) + s;
    assert t[0] == HeaderBytes(h)[0] && t[1] == HeaderBytes(h)[1] && t[2..] == s;
  }

  /** Section 5.2: a parsed frame is the frame that was encoded, and parsing stops exactly behind it. */
  lemma FrameRoundTrip(f: WireFrame, more: seq<byte>)
    requires FrameOk(f)
    ensures |Wire(f) + more| >= 2
    ensures Parse(Wire(f) + more) == Frame(f.piece, more)
  {
    var p := f.piece;
    var h := HeaderOf(p, f.mask);
    var l := LengthBytes(h.payloadLen, |p.payload|);
    var body := if f.mask then KeyBytes(f.key) + Mask(p.payload, f.key) else p.payload;
    hide Mask, KeyBytes, LengthBytes, LengthCode, ParseLength, ParsePayload, Parse, HeaderBytes, Known;
    assert Wire(f) + more == HeaderBytes(h) + (l + (body + more));
    ParseParts(h, l + (body + more));
    LengthRoundTrip(|p.payload|, body + more);
    PayloadRoundTrip(f.mask, p.payload, f.key, more);
  }

  function Pieces(fs: seq<WireFrame>): (ps: seq<Piece>)
    ensures |ps| == |fs|
  {
    seq(|fs|, i requires 0 <= i < |fs| => fs[i].piece)
  }

  lemma OneParsed(f: WireFrame, behind: seq<byte>)
    requires FrameOk(f) && |Wire(f) + behind| >= 2 && Parse(Wire(f) + behind) == Frame(f.piece, behind)
    ensures ParseAll(Wire(f) + behind) == [f.piece] + ParseAll(behind)
  {
    hide Parse, Wire;
  }

  /** A stream of frames parses into the same frames. */
  lemma {:induction false} StreamRoundTrip(fs: seq<WireFrame>)
    requires forall f | f in fs :: FrameOk(f)
    ensures ParseAll(WireAll(fs)) == Pieces(fs)
  {
    hide Parse, Wire, ParseAll, FrameOk;
    if |fs| > 0 {
      assert fs[0] in fs;
      FrameRoundTrip(fs[0], WireAll(fs[1..]));
      StreamRoundTrip(fs[1..]);
      OneParsed(fs[0], WireAll(fs[1..]));
      assert Pieces(fs) == [fs[0].piece] + Pieces(fs[1..]);
    } else {
      NothingParsed();
    }
  }

  lemma NothingParsed()
    ensures ParseAll([]) == []
  {
  }

  /** Section 5.2 asks for the minimal number of length bytes; the code keeps to it except at one length. */
  function MinimalCode(n: nat): nat {
    if n <= 125 then n else if n <= 0xFFFF then 126 else 127
  }

  lemma LengthCodeMinimalIff(n: nat)
    ensures LengthCode(n) == MinimalCode(n) <==> n != 0xFFFF
  {
  }
}
