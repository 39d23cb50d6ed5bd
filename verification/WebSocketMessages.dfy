/** Messages over frames (RFC 6455, sections 5.4 and 5.5): cutting a message into fragments, and putting
    fragments together again with control frames in between. */
module WebSocketMessages {
  import opened Bytes
  import opened WebSocketFrames

  const MAX_PACKET_SIZE: nat := 1460

  function HeaderSize(code: nat, mask: bool): nat {
    2 + (if code == 127 then 8 else if code == 126 then 2 else 0) + (if mask then 4 else 0)
  }

  function PacketSize(n: nat, mask: bool): nat {
    HeaderSize(LengthCode(n), mask) + n
  }

  /** Payload bytes of a full fragment. */
  function FragmentSize(mask: bool): nat {
    MAX_PACKET_SIZE
    - (2 + (if MAX_PACKET_SIZE - 8 >= 0xFFFF then 8 else if MAX_PACKET_SIZE - 6 >= 126 then 2 else 0) + (if mask then 4 else 0))
  }

  // ------------------------------------------------------------ fragmentation

  /** The frame sent in one pass of the loop over bytesLeft, and the bytes left after it. The code sends every middle
      fragment from the start of the buffer; with advance set, middle fragments are taken from the place reached, like
      the first and the last one. */
  function NextFragment(data: seq<byte>, opcode: nat, f: nat, left: nat, advance: bool): (r: (Piece, nat))
    requires 0 < f && 0 < left <= |data|
    ensures r.1 < left
  {
    var at := |data| - left;
    if left >= f then
      if left == f then (Piece(CONTINUATION, true, data[at..]), 0)
      else if left == |data| then (Piece(opcode, false, data[..f]), left - f)
      else (Piece(CONTINUATION, false, if advance then data[at..at + f] else data[..f]), left - f)
    else (Piece(CONTINUATION, true, data[at..]), 0)
  }

  /** The loop over bytesLeft. */
  function Fragments(data: seq<byte>, opcode: nat, f: nat, left: nat, advance: bool): seq<Piece>
    requires 0 < f && left <= |data|
    decreases left
  {
    if left == 0 then []
    else
      var (p, after) := NextFragment(data, opcode, f, left, advance);
      [p] + Fragments(data, opcode, f, after, advance)
  }

  /** All frames of one message. */
  function Plan(data: seq<byte>, opcode: nat, mask: bool, advance: bool): seq<Piece> {
    if PacketSize(|data|, mask) > MAX_PACKET_SIZE then Fragments(data, opcode, FragmentSize(mask), |data|, advance)
    else [Piece(opcode, true, data)]
  }

  function Payload(ps: seq<Piece>): seq<byte> {
    if |ps| == 0 then [] else ps[0].payload + Payload(ps[1..])
  }

  /** A fragmented message as section 5.4 wants it: opcode first, continuations behind, FIN on the last frame only. */
  predicate Series(ps: seq<Piece>, opcode: nat) {
    && |ps| >= 2
    && ps[0].opcode == opcode && !ps[0].fin
    && Continues(ps[1..])
  }

  predicate Continues(ps: seq<Piece>) {
    && |ps| >= 1
    && ps[0].opcode == CONTINUATION
    && if ps[0].fin then |ps| == 1 else Continues(ps[1..])
  }

  /** Offset of the last fragment. */
  function LastOffset(n: nat, f: nat): nat
    requires f > 0
  {
    if n == 0 then 0 else (n - 1) / f * f
  }

  lemma {:induction false} TailContinues(data: seq<byte>, opcode: nat, f: nat, left: nat, advance: bool)
    requires 0 < f && 0 < left < |data|
    ensures Continues(Fragments(data, opcode, f, left, advance))
    ensures |Payload(Fragments(data, opcode, f, left, advance))| == left
    ensures forall p | p in Fragments(data, opcode, f, left, advance) :: |p.payload| <= f
    decreases left
  {
    var ps := Fragments(data, opcode, f, left, advance);
    if left > f {
      TailContinues(data, opcode, f, left - f, advance);
      assert ps[1..] == Fragments(data, opcode, f, left - f, advance);
    } else {
      assert ps[1..] == [];
    }
  }

  lemma FullFragmentFits(n: nat, mask: bool)
    requires n <= FragmentSize(mask)
    ensures PacketSize(n, mask) <= MAX_PACKET_SIZE
  {
  }

  lemma OversizedNeedsTwo(n: nat, mask: bool)
    requires PacketSize(n, mask) > MAX_PACKET_SIZE
    ensures n > FragmentSize(mask) > 0
  {
  }

  /** Every oversized message: the shape of section 5.4, lengths that add up, and no packet above the limit. */
  lemma FragmentShape(data: seq<byte>, opcode: nat, mask: bool, advance: bool)
    requires PacketSize(|data|, mask) > MAX_PACKET_SIZE
    ensures var ps := Plan(data, opcode, mask, advance);
      && Series(ps, opcode)
      && |Payload(ps)| == |data|
      && (forall p | p in ps :: PacketSize(|p.payload|, mask) <= MAX_PACKET_SIZE)
  {
    var f := FragmentSize(mask);
    OversizedNeedsTwo(|data|, mask);
    hide FragmentSize, PacketSize;
    var ps := Plan(data, opcode, mask, advance);
    TailContinues(data, opcode, f, |data| - f, advance);
    assert ps[1..] == Fragments(data, opcode, f, |data| - f, advance);
    forall p | p in ps
      ensures PacketSize(|p.payload|, mask) <= MAX_PACKET_SIZE
    {
      assert p == ps[0] || p in ps[1..];
      FullFragmentFits(|p.payload|, mask);
    }
  }

  lemma TakeThenDrop(data: seq<byte>, at: nat, f: nat)
    requires at + f <= |data|
    ensures data[at..at + f] + data[at + f..] == data[at..]
  {
  }

  /** With an advancing pointer the fragments of a message hold exactly its bytes. */
  lemma {:induction false} AdvancingTail(data: seq<byte>, opcode: nat, f: nat, left: nat)
    requires 0 < f && left < |data|
    ensures Payload(Fragments(data, opcode, f, left, true)) == data[|data| - left..]
    decreases left
  {
    var ps := Fragments(data, opcode, f, left, true);
    if left > f {
      AdvancingTail(data, opcode, f, left - f);
      assert ps[1..] == Fragments(data, opcode, f, left - f, true);
      TakeThenDrop(data, |data| - left, f);
    } else if left > 0 {
      assert ps[1..] == [];
      assert Payload(ps) == ps[0].payload + [];
    }
  }

  lemma AdvancingPlan(data: seq<byte>, opcode: nat, mask: bool)
    ensures Payload(Plan(data, opcode, mask, true)) == data
  {
    var ps := Plan(data, opcode, mask, true);
    var f := FragmentSize(mask);
    if PacketSize(|data|, mask) > MAX_PACKET_SIZE {
      AdvancingTail(data, opcode, f, |data| - f);
      assert ps[1..] == Fragments(data, opcode, f, |data| - f, true);
    } else {
      assert Payload(ps) == ps[0].payload + Payload([]);
    }
  }

  /** The middle fragments repeat the first one: byte for byte, each byte before the last fragment equals the byte
      at the same place of the first fragment. */
  predicate MiddleRepeats(data: seq<byte>, f: nat, at: nat)
    requires f > 0
  {
    forall i :: at <= i < LastOffset(|data|, f) ==> data[i] == data[i % f]
  }

  lemma LastOffsetBounds(n: nat, f: nat, k: nat)
    requires f > 0 && k * f < n
    ensures n - k * f <= f ==> LastOffset(n, f) == k * f
    ensures n - k * f > f ==> LastOffset(n, f) >= k * f + f
  {
    var q := (n - 1) / f;
    assert q * f <= n - 1 < q * f + f;
    assert (q - k) * f == q * f - k * f;
    assert (q - k - 1) * f == q * f - k * f - f;
    Multiples(q - k, f);
    Multiples(q - k - 1, f);
  }

  lemma MiddleStep(data: seq<byte>, opcode: nat, f: nat, left: nat)
    requires 0 < f < left < |data|
    ensures Payload(Fragments(data, opcode, f, left, false)) == data[..f] + Payload(Fragments(data, opcode, f, left - f, false))
  {
    var ps := Fragments(data, opcode, f, left, false);
    assert ps[1..] == Fragments(data, opcode, f, left - f, false);
  }

  lemma LastStep(data: seq<byte>, opcode: nat, f: nat, left: nat)
    requires 0 < left <= f && left < |data|
    ensures Payload(Fragments(data, opcode, f, left, false)) == data[|data| - left..]
  {
    assert Fragments(data, opcode, f, 0, false) == [];
    var last := Piece(CONTINUATION, true, data[|data| - left..]);
    assert Fragments(data, opcode, f, left, false) == [last] + [];
    assert [last][1..] == [];
    assert Payload([last]) == last.payload + [];
  }

  /** Byte i of what the code delivers: before the last fragment it is taken from the first one. */
  function DeliveredByte(data: seq<byte>, f: nat, i: nat): byte
    requires f > 0 && i < |data|
  {
    SmallModulus(i, f);
    if i < LastOffset(|data|, f) then data[i % f] else data[i]
  }

  lemma SmallModulus(i: nat, f: nat)
    requires f > 0
    ensures 0 <= i % f <= i && (i < f ==> i % f == i)
  {
    if i < f {
      SmallRemainder(i, f, 0);
    }
  }

  /** What the frames from offset k * f on carry. */
  lemma {:induction false} TailBytes(data: seq<byte>, opcode: nat, f: nat, k: nat, at: nat)
    requires 0 < f && 0 < k && k * f == at && 0 < at < |data|
    ensures var p := Payload(Fragments(data, opcode, f, |data| - at, false));
            |p| == |data| - at && forall i | at <= i < |data| :: p[i - at] == DeliveredByte(data, f, i)
    decreases |data| - at
  {
    hide Fragments, Payload, LastOffset;
    var left := |data| - at;
    LastOffsetBounds(|data|, f, k);
    if left > f {
      assert (k + 1) * f == at + f;
      TailBytes(data, opcode, f, k + 1, at + f);
      MiddleStep(data, opcode, f, left);
      forall i | at <= i < at + f ensures DeliveredByte(data, f, i) == data[i - at] {
        SmallRemainder(i - at, f, k);
      }
    } else {
      LastStep(data, opcode, f, left);
    }
  }

  lemma FirstStep(data: seq<byte>, opcode: nat, f: nat)
    requires 0 < f < |data|
    ensures Payload(Fragments(data, opcode, f, |data|, false)) == data[..f] + Payload(Fragments(data, opcode, f, |data| - f, false))
  {
    var ps := Fragments(data, opcode, f, |data|, false);
    assert ps[1..] == Fragments(data, opcode, f, |data| - f, false);
  }

  lemma AllBytes(data: seq<byte>, opcode: nat, f: nat)
    requires 0 < f < |data|
    ensures var p := Payload(Fragments(data, opcode, f, |data|, false));
            |p| == |data| && forall i | 0 <= i < |data| :: p[i] == DeliveredByte(data, f, i)
  {
    hide Fragments, Payload, LastOffset;
    assert 1 * f == f;
    TailBytes(data, opcode, f, 1, f);
    FirstStep(data, opcode, f);
    forall i | 0 <= i < f ensures DeliveredByte(data, f, i) == data[i] {
      SmallModulus(i, f);
    }
  }

  /** What the frames of an oversized message carry, byte by byte. */
  lemma DeliveredBytes(data: seq<byte>, opcode: nat, mask: bool)
    requires PacketSize(|data|, mask) > MAX_PACKET_SIZE
    ensures FragmentSize(mask) > 0
    ensures var p := Payload(Plan(data, opcode, mask, false));
            |p| == |data| && forall i | 0 <= i < |data| :: p[i] == DeliveredByte(data, FragmentSize(mask), i)
  {
    hide FragmentSize, PacketSize, DeliveredByte, Fragments, Payload;
    OversizedNeedsTwo(|data|, mask);
    AllBytes(data, opcode, FragmentSize(mask));
  }

  lemma SameByteIff(data: seq<byte>, f: nat, i: nat)
    requires f > 0 && i < |data|
    ensures i % f < |data|
    ensures DeliveredByte(data, f, i) == data[i] <==> (f <= i < LastOffset(|data|, f) ==> data[i] == data[i % f])
  {
    hide LastOffset;
    SmallModulus(i, f);
  }

  lemma SameIffRepeats(data: seq<byte>, p: seq<byte>, f: nat)
    requires f > 0 && |p| == |data| && forall i | 0 <= i < |data| :: p[i] == DeliveredByte(data, f, i)
    ensures p == data <==> MiddleRepeats(data, f, f)
  {
    hide LastOffset, DeliveredByte;
    LastOffsetFits(|data|, f);
    if p == data {
      forall i | f <= i < LastOffset(|data|, f) ensures i % f < |data| && data[i] == data[i % f] {
        SameByteIff(data, f, i);
      }
    }
    if MiddleRepeats(data, f, f) {
      forall i | 0 <= i < |data| ensures p[i] == data[i] {
        SameByteIff(data, f, i);
      }
    }
  }

  lemma LastOffsetFits(n: nat, f: nat)
    requires f > 0
    ensures LastOffset(n, f) <= n
  {
    if n > 0 {
      assert (n - 1) / f * f <= n - 1;
    }
  }

  /** The frames the code sends for a message carry the message exactly when it needs no fragments, or its middle
      fragments repeat the first one. */
  lemma DeliveredIff(data: seq<byte>, opcode: nat, mask: bool)
    ensures Payload(Plan(data, opcode, mask, false)) == data
      <==> PacketSize(|data|, mask) <= MAX_PACKET_SIZE || MiddleRepeats(data, FragmentSize(mask), FragmentSize(mask))
  {
    hide FragmentSize, PacketSize, MiddleRepeats, DeliveredByte, Fragments;
    if PacketSize(|data|, mask) > MAX_PACKET_SIZE {
      DeliveredBytes(data, opcode, mask);
      SameIffRepeats(data, Payload(Plan(data, opcode, mask, false)), FragmentSize(mask));
    } else {
      var whole := Piece(opcode, true, data);
      assert [whole][1..] == [];
      assert Payload([whole]) == whole.payload + Payload([]);
    }
  }

  /** Up to two fragments there is no middle fragment, so every such message is carried. */
  lemma TwoFragmentsDeliver(data: seq<byte>, opcode: nat, mask: bool)
    requires |data| <= 2 * FragmentSize(mask)
    ensures Payload(Plan(data, opcode, mask, false)) == data
  {
    DeliveredIff(data, opcode, mask);
    var f := FragmentSize(mask);
    if |data| > f {
      assert 1 * f == f;
      LastOffsetBounds(|data|, f, 1);
    }
  }

  /** A message of three fragments that is not carried. */
  lemma ThreeFragmentsFail()
    ensures var data := seq<byte>(4000, i => if i < 1456 then 0 else 1);
      Payload(Plan(data, BINARY, false, false)) != data
  {
    var data := seq<byte>(4000, i => if i < 1456 then 0 else 1);
    DeliveredIff(data, BINARY, false);
    assert 1 * FragmentSize(false) == 1456;
    LastOffsetBounds(4000, 1456, 1);
    assert data[1456] != data[1456 % 1456];
  }
}
