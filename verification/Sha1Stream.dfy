/** Streaming SHA-1: bytes arrive in pieces of any size, the digest leaves as Base 64 text. */
module Sha1Stream {
  import opened Sha1Gates
  import opened Fips180
  import opened Sha1
  import Base64

  /** Number of bytes of m that lie in complete blocks. */
  function Whole(m: seq<Octet>): (k: nat)
    ensures k <= |m| < k + 64 && k % 64 == 0
  {
    |m| / 64 * 64
  }

  /** What the object's fields say about the bytes m received since the last reset. */
  ghost predicate Holds(m: seq<Octet>, digest: seq<Word>, buffer: seq<Octet>, transforms: nat) {
    && |digest| == 5
    && buffer == m[Whole(m)..]
    && AsWorking(digest) == HashBlocks(m[..Whole(m)])
    && transforms == |m| / 64 % TWO_TO_64
  }

  // ----- the last one or two blocks -----

  function HighWord(n: bv64): Word { (n >> 32) as Word }

  function LowWord(n: bv64): Word { (n & 0xffff_ffff) as Word }

  lemma LengthWords(n: bv64)
    ensures WordAt(LengthOctets(n), 0) == HighWord(n)
    ensures WordAt(LengthOctets(n), 4) == LowWord(n)
  {
  }

  lemma WordInside(p: seq<Octet>, q: seq<Octet>, i: nat)
    requires i + 4 <= |q|
    ensures WordAt(p + q, |p| + i) == WordAt(q, i)
  {
    assert (p + q)[|p| + i..|p| + i + 4] == q[i..i + 4];
  }

  lemma WordBefore(p: seq<Octet>, q: seq<Octet>, i: nat)
    requires i + 4 <= |p|
    ensures WordAt(p + q, i) == WordAt(p, i)
  {
  }

  /** Writing the length as two words is the same as writing it as eight bytes. */
  lemma ParseWithLength(p: seq<Octet>, n: bv64)
    requires |p| == 56
    ensures Parse(p + LengthOctets(n)) == Parse(p + Zeros(8))[14 := HighWord(n)][15 := LowWord(n)]
  {
    var l, r := Parse(p + LengthOctets(n)), Parse(p + Zeros(8))[14 := HighWord(n)][15 := LowWord(n)];
    LengthWords(n);
    forall i | 0 <= i < 16
      ensures l[i] == r[i]
    {
      hide LengthOctets, WordAt, HighWord, LowWord;
      if i < 14 {
        WordBefore(p, LengthOctets(n), 4 * i);
        WordBefore(p, Zeros(8), 4 * i);
      } else {
        WordInside(p, LengthOctets(n), 4 * i - 56);
      }
    }
  }

  lemma ZeroWord(z: seq<Octet>, i: nat)
    requires i + 4 <= |z| && z == Zeros(|z|)
    ensures WordAt(z, i) == 0
  {
  }

  lemma ParseZeros()
    ensures Parse(Zeros(64)) == seq(16, _ => 0)
  {
    forall i | 0 <= i < 16
      ensures Parse(Zeros(64))[i] == 0
    {
      ZeroWord(Zeros(64), 4 * i);
    }
  }

  lemma HashOneMore(b: seq<Octet>, block: seq<Octet>)
    requires |b| % 64 == 0 && |block| == 64
    ensures HashBlocks(b + block) == Compress(HashBlocks(b), Parse(block))
  {
    var w := b + block;
    assert w[..|w| - 64] == b && w[|w| - 64..] == block;
    hide Compress, Parse;
  }

  lemma HashTwoMore(b: seq<Octet>, first: seq<Octet>, second: seq<Octet>)
    requires |b| % 64 == 0 && |first| == 64 == |second|
    ensures HashBlocks((b + first) + second) == Compress(Compress(HashBlocks(b), Parse(first)), Parse(second))
  {
    hide Compress, Parse, HashBlocks;
    HashOneMore(b, first);
    HashOneMore(b + first, second);
  }

  /** Padding that fits behind the buffered bytes. */
  lemma HashShort(m: seq<Octet>, n: bv64)
    requires |m| % 64 < 56 && n == BitLength(|m|)
    ensures var r := m[Whole(m)..];
      Hash(m) == Compress(HashBlocks(m[..Whole(m)]), Parse(r + [0x80] + Zeros(63 - |r|))[14 := HighWord(n)][15 := LowWord(n)])
  {
    hide Compress, Parse, LengthOctets, HashBlocks, HighWord, LowWord, Pad, Zeros, BitLength;
    var k := Whole(m);
    var r := m[k..];
    var p := r + [0x80] + Zeros(55 - |r|);
    ShortPad(m);
    ZerosTogether(r + [0x80], 55 - |r|);
    HashOneMore(m[..k], p + LengthOctets(n));
    ParseWithLength(p, n);
  }

  lemma ShortPad(m: seq<Octet>)
    requires |m| % 64 < 56
    ensures var r := m[Whole(m)..];
      Pad(m) == m[..Whole(m)] + ((r + [0x80] + Zeros(55 - |r|)) + LengthOctets(BitLength(|m|)))
  {
    hide LengthOctets, BitLength;
    var k := Whole(m);
    var r := m[k..];
    assert PadZeros(|m|) == 55 - |r|;
    assert m == m[..k] + r;
  }

  lemma ZerosTogether(p: seq<Octet>, n: nat)
    ensures (p + Zeros(n)) + Zeros(8) == p + Zeros(n + 8)
  {
    assert Zeros(n) + Zeros(8) == Zeros(n + 8);
  }

  lemma LongPad(m: seq<Octet>)
    requires |m| % 64 >= 56
    ensures var r := m[Whole(m)..];
      Pad(m) == (m[..Whole(m)] + (r + [0x80] + Zeros(63 - |r|))) + (Zeros(56) + LengthOctets(BitLength(|m|)))
  {
    hide LengthOctets, BitLength;
    var k := Whole(m);
    var r := m[k..];
    assert PadZeros(|m|) == (63 - |r|) + 56;
    assert Zeros(PadZeros(|m|)) == Zeros(63 - |r|) + Zeros(56);
    assert m == m[..k] + r;
  }

  lemma ParseLast(n: bv64)
    ensures Parse(Zeros(56) + LengthOctets(n)) == seq<Word>(16, _ => 0)[14 := HighWord(n)][15 := LowWord(n)]
  {
    hide Parse, LengthOctets, HighWord, LowWord;
    ParseWithLength(Zeros(56), n);
    assert Zeros(56) + Zeros(8) == Zeros(64);
    ParseZeros();
  }

  /** Padding that spills over into a second block. */
  lemma HashLong(m: seq<Octet>, n: bv64)
    requires |m| % 64 >= 56 && n == BitLength(|m|)
    ensures var r := m[Whole(m)..];
      Hash(m) == Compress(Compress(HashBlocks(m[..Whole(m)]), Parse(r + [0x80] + Zeros(63 - |r|))),
                          seq<Word>(16, _ => 0)[14 := HighWord(n)][15 := LowWord(n)])
  {
    hide Compress, Parse, LengthOctets, HashBlocks, HighWord, LowWord, Pad, Zeros, BitLength;
    var k := Whole(m);
    var r := m[k..];
    var first := r + [0x80] + Zeros(63 - |r|);
    LongPad(m);
    HashTwoMore(m[..k], first, Zeros(56) + LengthOctets(n));
    ParseLast(n);
  }

  /** The 64-bit counter of transforms may wrap without changing the length that is appended. */
  function TotalBits(transforms: nat, buffered: nat): bv64 {
    AsLength((transforms * BLOCK_BYTES + buffered) * 8)
  }

  lemma TotalBitsAreTheLength(m: seq<Octet>, digest: seq<Word>, r: seq<Octet>, transforms: nat)
    requires Holds(m, digest, r, transforms)
    ensures TotalBits(transforms, |r|) == BitLength(|m|)
    ensures |r| == |m| % 64 && r == m[Whole(m)..] && AsWorking(digest) == HashBlocks(m[..Whole(m)])
  {
    hide AsLength, HashBlocks, AsWorking;
    TotalBitsModulo(|m|, transforms);
    SameLength((transforms * BLOCK_BYTES + |r|) * 8, 8 * |m|);
  }

  lemma SameLength(a: nat, b: nat)
    requires a % TWO_TO_64 == b % TWO_TO_64
    ensures AsLength(a) == AsLength(b)
  {
  }

  lemma TotalBitsModulo(length: nat, transforms: nat)
    requires transforms == length / 64 % TWO_TO_64
    ensures (transforms * 64 + length % 64) * 8 % TWO_TO_64 == 8 * length % TWO_TO_64
  {
    var j := length / 64 / TWO_TO_64;
    assert length / 64 == j * TWO_TO_64 + transforms;
    assert 8 * length == (transforms * 64 + length % 64) * 8 + (512 * j) * TWO_TO_64;
    SameModuloTwoTo64((transforms * 64 + length % 64) * 8, 512 * j);
  }

  lemma SameModuloTwoTo64(x: nat, j: nat)
    ensures (x + j * TWO_TO_64) % TWO_TO_64 == x % TWO_TO_64
  {
  }

  /** A piece that does not complete a block. */
  lemma AbsorbPiece(m: seq<Octet>, piece: seq<Octet>, digest: seq<Word>, buffer: seq<Octet>, transforms: nat)
    requires Holds(m, digest, buffer, transforms) && |buffer| + |piece| < 64
    ensures Holds(m + piece, digest, buffer + piece, transforms)
  {
    hide HashBlocks, AsWorking;
    var k := Whole(m);
    assert |m| == k + |buffer|;
    assert Whole(m + piece) == k;
    SplitBefore(m, piece, k);
  }

  lemma SplitBefore<T>(m: seq<T>, piece: seq<T>, k: nat)
    requires k <= |m|
    ensures (m + piece)[..k] == m[..k] && (m + piece)[k..] == m[k..] + piece
  {
  }

  /** A piece that completes a block, which is then hashed. */
  lemma AbsorbBlock(m: seq<Octet>, piece: seq<Octet>, digest: seq<Word>, buffer: seq<Octet>, transforms: nat, digest': seq<Word>)
    requires Holds(m, digest, buffer, transforms) && |buffer| + |piece| == 64
    requires |digest'| == 5 && AsWorking(digest') == Compress(AsWorking(digest), Parse(buffer + piece))
    ensures Holds(m + piece, digest', [], (transforms + 1) % TWO_TO_64)
  {
    hide HashBlocks, Compress, Parse;
    var k := Whole(m);
    assert |m| == k + |buffer|;
    var w := m + piece;
    assert Whole(w) == k + 64 && w[..k + 64] == w;
    assert m[..k] + (buffer + piece) == w;
    HashOneMore(m[..k], buffer + piece);
    assert |w| / 64 == |m| / 64 + 1;
    Wrap(|m| / 64);
  }

  lemma Wrap(n: nat)
    ensures (n % TWO_TO_64 + 1) % TWO_TO_64 == (n + 1) % TWO_TO_64
  {
  }

  /** buffer_to_block */
  method BufferToBlock(buffer: seq<Octet>, block: array<Word>)
    requires |buffer| == 64 && block.Length == 16
    modifies block
    ensures block[..] == Parse(buffer)
  {
    for i := 0 to BLOCK_INTS
      invariant forall j :: 0 <= j < i ==> block[j] == WordAt(buffer, 4 * j)
    {
      block[i] := WordAt(buffer, 4 * i);
    }
  }

  /** The bit 1 and as many zeros as complete the block. */
  method PadBuffer(r: seq<Octet>) returns (buffer: seq<Octet>)
    requires |r| < 64
    ensures buffer == r + [0x80] + Zeros(63 - |r|)
  {
    buffer := r + [0x80];
    while |buffer| < BLOCK_BYTES
      invariant |r| < |buffer| <= BLOCK_BYTES
      invariant buffer == r + [0x80] + Zeros(|buffer| - |r| - 1)
    {
      buffer := buffer + [0x00];
    }
  }

  /** The block that carries nothing but the length. */
  method ClearBlock(block: array<Word>)
    requires block.Length == 16
    modifies block
    ensures forall j :: 0 <= j < 14 ==> block[j] == 0
  {
    for i := 0 to BLOCK_INTS - 2
      invariant forall j :: 0 <= j < i ==> block[j] == 0
    {
      block[i] := 0;
    }
  }

  method AppendLength(block: array<Word>, totalBits: bv64)
    requires block.Length == 16
    modifies block
    ensures block[..] == old(block[..])[14 := HighWord(totalBits)][15 := LowWord(totalBits)]
  {
    hide HighWord, LowWord;
    block[BLOCK_INTS - 1] := LowWord(totalBits);
    block[BLOCK_INTS - 2] := HighWord(totalBits);
  }

  lemma LengthBlock(block: seq<Word>, totalBits: bv64)
    requires |block| == 16 && forall j :: 0 <= j < 14 ==> block[j] == 0
    ensures block[14 := HighWord(totalBits)][15 := LowWord(totalBits)]
         == seq<Word>(16, _ => 0)[14 := HighWord(totalBits)][15 := LowWord(totalBits)]
  {
    hide HighWord, LowWord;
  }

  /** Hashes the padded rest r of a message m: one block, or two when the length no longer fits behind it. */
  method HashRest(digest: array<Word>, r: seq<Octet>, transforms: nat, ghost m: seq<Octet>) returns (transforms': nat)
    requires digest.Length == 5 && |r| < 64 && Holds(m, digest[..], r, transforms)
    modifies digest
    ensures AsWorking(digest[..]) == Hash(m)
  {
    var totalBits := TotalBits(transforms, |r|);
    TotalBitsAreTheLength(m, digest[..], r, transforms);
    hide Holds, Compress, Parse, HashBlocks, Hash, Pad, HighWord, LowWord, Zeros, BitLength, TotalBits, AsWorking, Whole;
    transforms' := transforms;
    var block := new Word[16];
    var buffer := PadBuffer(r);
    BufferToBlock(buffer, block);
    if |r| + 1 > BLOCK_BYTES - 8 {
      HashLong(m, totalBits);
      transforms' := Transform(digest, block, transforms');
      ClearBlock(block);
      LengthBlock(block[..], totalBits);
    } else {
      HashShort(m, totalBits);
    }
    AppendLength(block, totalBits);
    transforms' := Transform(digest, block, transforms');
  }

  class SHA1 {
    const digest: array<Word>
    var buffer: seq<Octet>
    var transforms: nat
    /** The bytes received since the last reset. */
    ghost var message: seq<Octet>

    ghost predicate Valid()
      reads this, digest
    {
      digest.Length == 5 && |buffer| < 64 && Holds(message, digest[..], buffer, transforms)
    }

    constructor ()
      ensures Valid() && message == [] && fresh(digest)
    {
      digest := new Word[5];
      new;
      Reset();
    }

    method Reset()
      requires digest.Length == 5
      modifies this, digest
      ensures Valid() && message == []
      ensures buffer == [] && transforms == 0 && AsWorking(digest[..]) == INITIAL
    {
      digest[0], digest[1], digest[2], digest[3], digest[4] := 0x67452301, 0xefcdab89, 0x98badcfe, 0x10325476, 0xc3d2e1f0;
      buffer := [];
      transforms := 0;
      message := [];
    }

    method Update(s: seq<Octet>)
      requires Valid()
      modifies this, digest
      ensures Valid() && message == old(message) + s
    {
      hide Holds, HashBlocks, Compress, Parse;
      var pos := 0;
      while true
        invariant 0 <= pos <= |s|
        invariant |buffer| < BLOCK_BYTES
        invariant Holds(message, digest[..], buffer, transforms) && message == old(message) + s[..pos]
        decreases |s| - pos
      {
        var len := BLOCK_BYTES - |buffer|;
        var actualLen := if len <= |s| - pos then len else |s| - pos;
        var piece := s[pos..pos + actualLen];
        assert old(message) + s[..pos] + piece == old(message) + s[..pos + actualLen];
        ghost var m, b, d := message, buffer, digest[..];
        pos := pos + actualLen;
        buffer := buffer + piece;
        message := message + piece;
        if |buffer| != BLOCK_BYTES {
          AbsorbPiece(m, piece, d, b, transforms);
          assert s[..pos] == s;
          return;
        }
        var block := new Word[16];
        BufferToBlock(buffer, block);
        ghost var t := transforms;
        transforms := Transform(digest, block, transforms);
        AbsorbBlock(m, piece, d, b, t, digest[..]);
        buffer := [];
      }
    }

    /** Pads, hashes the last one or two blocks and starts over. */
    method Final() returns (text: string)
      requires Valid()
      modifies this, digest
      ensures text == Base64.Encode(DigestOctets(Hash(old(message))))
      ensures Valid() && message == []
      ensures buffer == [] && transforms == 0 && AsWorking(digest[..]) == INITIAL
    {
      transforms := HashRest(digest, buffer, transforms, message);
      text := Base64.EncodeLoop(DigestOctets(AsWorking(digest[..])));
      Reset();
    }
  }
}
