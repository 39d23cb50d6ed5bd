/** The 32-bit operations of SHA-1, in the form of FIPS 180-4 (sections 3.2 and 4.1.1) and in the
    cheaper form the code uses, each pair proved equal for all words. */
module Sha1Gates {
  type Word = bv32

  /** ROTL of section 3.2. */
  function RotL(x: Word, n: nat): Word
    requires n < 32
  {
    x.RotateLeft(n)
  }

  function Ch(x: Word, y: Word, z: Word): Word { (x & y) ^ (!x & z) }

  function Parity(x: Word, y: Word, z: Word): Word { x ^ y ^ z }

  function Maj(x: Word, y: Word, z: Word): Word { (x & y) ^ (x & z) ^ (y & z) }

  /** The combination step of the message schedule. */
  function Mix(p: Word, q: Word, r: Word, s: Word): Word { RotL(p ^ q ^ r ^ s, 1) }

  /** The five-term sum T of section 6.1.2, step 3, modulo 2^32. */
  function Sum(r: Word, f: Word, e: Word, k: Word, w: Word): Word { r + f + e + k + w }

  /** Addition modulo 2^32. */
  function Plus(x: Word, y: Word): Word { x + y }

  lemma ChoiceBits(x: Word, y: Word, z: Word)
    ensures (x & (y ^ z)) ^ z == (x & y) ^ (!x & z)
  {
  }

  lemma MajorityBits(x: Word, y: Word, z: Word)
    ensures ((x | y) & z) | (x & y) == (x & y) ^ (x & z) ^ (y & z)
  {
  }

  /** The expression of rounds 0 to 19. */
  function Choice(w: Word, x: Word, y: Word): (r: Word)
    ensures r == Ch(w, x, y)
  {
    ChoiceBits(w, x, y);
    (w & (x ^ y)) ^ y
  }

  /** The expression of rounds 40 to 59. */
  function Majority(w: Word, x: Word, y: Word): (r: Word)
    ensures r == Maj(w, x, y)
  {
    MajorityBits(w, x, y);
    ((w | x) & y) | (w & x)
  }

  function Rol(value: Word, bits: nat): (r: Word)
    requires bits == 1 || bits == 5 || bits == 30
    ensures r == RotL(value, bits)
  {
    (value << bits) | (value >> (32 - bits))
  }

  /** The new value of z in every round. */
  function Accumulate(z: Word, f: Word, b: Word, k: Word, r: Word): (sum: Word)
    ensures sum == Sum(r, f, z, k, b)
  {
    z + (f + b + k + r)
  }
}

/** The SHA-1 hash computation of FIPS 180-4, as the standard writes it down:
    an 80-word message schedule and five working variables that shift every round. */
module Fips180 {
  import opened Sha1Gates

  /** The five 32-bit words a..e, and also the five words of a hash value. */
  datatype Working = Working(a: Word, b: Word, c: Word, d: Word, e: Word)

  /** H(0) of section 5.3.1. */
  const INITIAL: Working := Working(0x67452301, 0xefcdab89, 0x98badcfe, 0x10325476, 0xc3d2e1f0)

  /** f_t of section 4.1.1. */
  function F(t: nat, x: Word, y: Word, z: Word): Word {
    if t < 20 then Ch(x, y, z) else if t < 40 then Parity(x, y, z) else if t < 60 then Maj(x, y, z) else Parity(x, y, z)
  }

  /** K_t of section 4.2.1. */
  function K(t: nat): Word {
    if t < 20 then 0x5a827999 else if t < 40 then 0x6ed9eba1 else if t < 60 then 0x8f1bbcdc else 0xca62c1d6
  }

  /** The message schedule W_t of section 6.1.2, step 1. */
  function W(m: seq<Word>, t: nat): Word
    requires |m| == 16
  {
    if t < 16 then m[t] else Mix(W(m, t - 3), W(m, t - 8), W(m, t - 14), W(m, t - 16))
  }

  /** One pass of section 6.1.2, step 3. */
  function Round(t: nat, s: Working, w: Word): Working {
    Working(Sum(RotL(s.a, 5), F(t, s.b, s.c, s.d), s.e, K(t), w), s.a, RotL(s.b, 30), s.c, s.d)
  }

  /** The working variables after the first t passes over a block m. */
  function Rounds(h: Working, m: seq<Word>, t: nat): Working
    requires |m| == 16
  {
    if t == 0 then h else Round(t - 1, Rounds(h, m, t - 1), W(m, t - 1))
  }

  function Add(h: Working, s: Working): Working {
    Working(Plus(h.a, s.a), Plus(h.b, s.b), Plus(h.c, s.c), Plus(h.d, s.d), Plus(h.e, s.e))
  }

  /** The next intermediate hash value: section 6.1.2, steps 1 to 4. */
  function Compress(h: Working, m: seq<Word>): Working
    requires |m| == 16
  {
    Add(h, Rounds(h, m, 80))
  }

  type Octet = bv8

  /** The 32-bit word whose four bytes start at b[i], most significant byte first (section 3.1). */
  function WordAt(b: seq<Octet>, i: nat): Word
    requires i + 4 <= |b|
  {
    b[i + 3] as Word | (b[i + 2] as Word << 8) | (b[i + 1] as Word << 16) | (b[i] as Word << 24)
  }

  /** A 512-bit block as sixteen words (section 5.2.1). */
  function Parse(b: seq<Octet>): (m: seq<Word>)
    requires |b| == 64
    ensures |m| == 16
  {
    seq(16, i requires 0 <= i < 16 => WordAt(b, 4 * i))
  }

  /** Hashing of whole blocks, section 6.1.2. */
  function HashBlocks(b: seq<Octet>): Working
    requires |b| % 64 == 0
  {
    if |b| == 0 then INITIAL else Compress(HashBlocks(b[..|b| - 64]), Parse(b[|b| - 64..]))
  }

  function Zeros(n: nat): (z: seq<Octet>)
    ensures |z| == n
    ensures forall i :: 0 <= i < n ==> z[i] == 0
  {
    seq(n, i => 0)
  }

  /** A 64-bit number as eight bytes, most significant first. */
  function LengthOctets(n: bv64): (o: seq<Octet>)
    ensures |o| == 8
  {
    [(n >> 56) as Octet, ((n >> 48) & 0xff) as Octet, ((n >> 40) & 0xff) as Octet, ((n >> 32) & 0xff) as Octet,
     ((n >> 24) & 0xff) as Octet, ((n >> 16) & 0xff) as Octet, ((n >> 8) & 0xff) as Octet, (n & 0xff) as Octet]
  }

  const TWO_TO_64: nat := 0x1_0000_0000_0000_0000

  /** The message length in bits as the 64-bit number of section 5.1.1 (which admits messages below 2^64 bits). */
  function BitLength(octets: nat): bv64 {
    AsLength(8 * octets)
  }

  function AsLength(n: nat): bv64 {
    (n % TWO_TO_64) as bv64
  }

  /** Number of zero bytes after the byte 0x80: see PaddingIsLeast. */
  function PadZeros(octets: nat): (n: nat)
    ensures (octets + 1 + n + 8) % 64 == 0
  {
    (119 - octets % 64) % 64
  }

  /** The padded message of section 5.1.1, for messages of whole bytes. */
  function Pad(m: seq<Octet>): (p: seq<Octet>)
    ensures |p| % 64 == 0
  {
    m + [0x80] + Zeros(PadZeros(|m|)) + LengthOctets(BitLength(|m|))
  }

  /** Section 5.1.1 asks for the smallest k with l + 1 + k = 448 (mod 512), that is 7 + 8 * PadZeros for whole bytes. */
  lemma PaddingIsLeast(l: nat, k: nat)
    requires (8 * l + 1 + k) % 512 == 448
    ensures (8 * l + 1 + (7 + 8 * PadZeros(l))) % 512 == 448
    ensures 7 + 8 * PadZeros(l) <= k
  {
    var j, a, t := l / 64, l % 64, (8 * l + 1 + k) / 512;
    assert k == 512 * (t - j) + 447 - 8 * a;
    if a <= 55 {
      assert PadZeros(l) == 55 - a;
      assert 8 * l + 1 + (7 + 8 * PadZeros(l)) == 512 * j + 448;
    } else {
      assert PadZeros(l) == 119 - a;
      assert 8 * l + 1 + (7 + 8 * PadZeros(l)) == 512 * (j + 1) + 448;
    }
  }

  /** SHA-1 of a byte string. */
  function Hash(m: seq<Octet>): Working {
    HashBlocks(Pad(m))
  }

  function WordOctets(w: Word): (o: seq<Octet>)
    ensures |o| == 4
  {
    [(w >> 24) as Octet, ((w >> 16) & 0xff) as Octet, ((w >> 8) & 0xff) as Octet, (w & 0xff) as Octet]
  }

  /** The 160-bit message digest as twenty bytes. */
  function DigestOctets(h: Working): (o: seq<Octet>)
    ensures |o| == 20
  {
    WordOctets(h.a) + WordOctets(h.b) + WordOctets(h.c) + WordOctets(h.d) + WordOctets(h.e)
  }
}
