/** The 80-round compression: registers renamed instead of moved, and a sixteen-word
    schedule that is overwritten in place. */
module Sha1 {
  import opened Sha1Gates
  import opened Fips180

  const BLOCK_INTS := 16
  const BLOCK_BYTES := 64

  /** Registers and schedule agree with the standard after t rounds on block m from hash h:
      cell u mod 16 holds W_u for the sixteen most recent u (for the whole message at the start). */
  ghost predicate Tracks(h: Working, m: seq<Word>, t: nat, s: Working, block: seq<Word>) {
    && |m| == 16 == |block|
    && s == Rounds(h, m, t)
    && forall u: nat :: t - 16 <= u < 16 || t - 16 <= u < t ==> block[u % 16] == W(m, u)
  }

  function Blk(block: seq<Word>, i: nat): (r: Word)
    requires |block| == 16 && i < 16
    ensures r == Mix(block[(i + 13) % 16], block[(i + 8) % 16], block[(i + 2) % 16], block[i])
  {
    Rol(block[(i + 13) % 16] ^ block[(i + 8) % 16] ^ block[(i + 2) % 16] ^ block[i], 1)
  }

  lemma SlotsDiffer(t: nat, u: nat)
    requires t - 16 < u < t
    ensures u % 16 != t % 16
  {
  }

  lemma Slot(t: nat, d: nat)
    requires d <= 16 <= t
    ensures (t % 16 + (16 - d)) % 16 == (t - d) % 16
  {
  }

  lemma Recent(h: Working, m: seq<Word>, t: nat, s: Working, block: seq<Word>, d: nat)
    requires 0 < d <= 16 <= t && Tracks(h, m, t, s, block)
    ensures block[(t % 16 + (16 - d)) % 16] == W(m, t - d)
  {
    Slot(t, d);
  }

  lemma ScheduleStep(m: seq<Word>, t: nat)
    requires |m| == 16 <= t
    ensures W(m, t) == Mix(W(m, t - 3), W(m, t - 8), W(m, t - 14), W(m, t - 16))
  {
  }

  lemma BlkOf(block: seq<Word>, i: nat, p: Word, q: Word, r: Word, s: Word)
    requires |block| == 16 && i < 16
    requires block[(i + 13) % 16] == p && block[(i + 8) % 16] == q && block[(i + 2) % 16] == r && block[i] == s
    ensures Blk(block, i) == Mix(p, q, r, s)
  {
  }

  lemma Sizes(h: Working, m: seq<Word>, t: nat, s: Working, block: seq<Word>)
    requires Tracks(h, m, t, s, block)
    ensures |m| == 16 == |block|
  {
  }

  lemma RingWord(h: Working, m: seq<Word>, t: nat, s: Working, block: seq<Word>, i: nat, d: nat, k: nat)
    requires 0 < d <= 16 <= t && Tracks(h, m, t, s, block) && i == t % 16 && k == 16 - d
    ensures (i + k) % 16 < |block| && block[(i + k) % 16] == W(m, t - d)
  {
    hide W;
    Sizes(h, m, t, s, block);
    Recent(h, m, t, s, block, d);
  }

  lemma Expand(h: Working, m: seq<Word>, t: nat, s: Working, block: seq<Word>)
    requires 16 <= t && Tracks(h, m, t, s, block)
    ensures Blk(block, t % 16) == W(m, t)
  {
    hide Tracks, W, Mix, Blk;
    Sizes(h, m, t, s, block);
    ScheduleStep(m, t);
    ExpandAt(h, m, t, s, block, t % 16);
  }

  lemma ExpandAt(h: Working, m: seq<Word>, t: nat, s: Working, block: seq<Word>, i: nat)
    requires 16 <= t && Tracks(h, m, t, s, block) && i == t % 16 && |block| == 16 == |m|
    ensures Blk(block, i) == Mix(W(m, t - 3), W(m, t - 8), W(m, t - 14), W(m, t - 16))
  {
    hide Tracks, W, Mix, Blk;
    RingWord(h, m, t, s, block, i, 3, 13);
    RingWord(h, m, t, s, block, i, 8, 8);
    RingWord(h, m, t, s, block, i, 14, 2);
    RingWord(h, m, t, s, block, i, 16, 0);
    BlkOf(block, i, W(m, t - 3), W(m, t - 8), W(m, t - 14), W(m, t - 16));
  }

  /** Overwriting cell t mod 16 keeps the fifteen other recent words and adds W_t. */
  lemma Overwrite(h: Working, m: seq<Word>, t: nat, s: Working, block: seq<Word>)
    requires 16 <= t && Tracks(h, m, t, s, block)
    ensures Blk(block, t % 16) == W(m, t)
    ensures Tracks(h, m, t + 1, Round(t, s, W(m, t)), block[t % 16 := W(m, t)])
  {
    Expand(h, m, t, s, block);
    forall u: nat | t - 15 <= u < t + 1
      ensures block[t % 16 := W(m, t)][u % 16] == W(m, u)
    {
      if u < t { SlotsDiffer(t, u); }
    }
  }

  lemma Start(h: Working, m: seq<Word>)
    requires |m| == 16
    ensures Tracks(h, m, 0, h, m)
  {
  }

  lemma Finish(h: Working, m: seq<Word>, s: Working, block: seq<Word>)
    requires Tracks(h, m, 80, s, block)
    ensures Compress(h, m) == Add(h, s)
  {
  }

  method R0(block: array<Word>, v: Word, w: Word, x: Word, y: Word, z: Word, i: nat,
            ghost t: nat, ghost h: Working, ghost m: seq<Word>)
    returns (w': Word, z': Word)
    requires block.Length == 16 && i == t % 16 && 0 <= t < 16
    requires Tracks(h, m, t, Working(v, w, x, y, z), block[..])
    ensures Tracks(h, m, t + 1, Working(z', v, w', x, y), block[..])
  {
    assert block[..][t % 16] == W(m, t);
    z' := Accumulate(z, Choice(w, x, y), block[i], 0x5a827999, Rol(v, 5));
    w' := Rol(w, 30);
  }

  method R1(block: array<Word>, v: Word, w: Word, x: Word, y: Word, z: Word, i: nat,
            ghost t: nat, ghost h: Working, ghost m: seq<Word>)
    returns (w': Word, z': Word)
    requires block.Length == 16 && i == t % 16 && 16 <= t < 20
    requires Tracks(h, m, t, Working(v, w, x, y, z), block[..])
    modifies block
    ensures Tracks(h, m, t + 1, Working(z', v, w', x, y), block[..])
  {
    Overwrite(h, m, t, Working(v, w, x, y, z), block[..]);
    ghost var was := block[..];
    block[i] := Blk(block[..], i);
    assert block[..] == was[i := W(m, t)];
    z' := Accumulate(z, Choice(w, x, y), block[i], 0x5a827999, Rol(v, 5));
    w' := Rol(w, 30);
  }

  method R2(block: array<Word>, v: Word, w: Word, x: Word, y: Word, z: Word, i: nat,
            ghost t: nat, ghost h: Working, ghost m: seq<Word>)
    returns (w': Word, z': Word)
    requires block.Length == 16 && i == t % 16 && 20 <= t < 40
    requires Tracks(h, m, t, Working(v, w, x, y, z), block[..])
    modifies block
    ensures Tracks(h, m, t + 1, Working(z', v, w', x, y), block[..])
  {
    Overwrite(h, m, t, Working(v, w, x, y, z), block[..]);
    ghost var was := block[..];
    block[i] := Blk(block[..], i);
    assert block[..] == was[i := W(m, t)];
    z' := Accumulate(z, w ^ x ^ y, block[i], 0x6ed9eba1, Rol(v, 5));
    w' := Rol(w, 30);
  }

  method R3(block: array<Word>, v: Word, w: Word, x: Word, y: Word, z: Word, i: nat,
            ghost t: nat, ghost h: Working, ghost m: seq<Word>)
    returns (w': Word, z': Word)
    requires block.Length == 16 && i == t % 16 && 40 <= t < 60
    requires Tracks(h, m, t, Working(v, w, x, y, z), block[..])
    modifies block
    ensures Tracks(h, m, t + 1, Working(z', v, w', x, y), block[..])
  {
    Overwrite(h, m, t, Working(v, w, x, y, z), block[..]);
    ghost var was := block[..];
    block[i] := Blk(block[..], i);
    assert block[..] == was[i := W(m, t)];
    z' := Accumulate(z, Majority(w, x, y), block[i], 0x8f1bbcdc, Rol(v, 5));
    w' := Rol(w, 30);
  }

  method R4(block: array<Word>, v: Word, w: Word, x: Word, y: Word, z: Word, i: nat,
            ghost t: nat, ghost h: Working, ghost m: seq<Word>)
    returns (w': Word, z': Word)
    requires block.Length == 16 && i == t % 16 && 60 <= t < 80
    requires Tracks(h, m, t, Working(v, w, x, y, z), block[..])
    modifies block
    ensures Tracks(h, m, t + 1, Working(z', v, w', x, y), block[..])
  {
    Overwrite(h, m, t, Working(v, w, x, y, z), block[..]);
    ghost var was := block[..];
    block[i] := Blk(block[..], i);
    assert block[..] == was[i := W(m, t)];
    z' := Accumulate(z, w ^ x ^ y, block[i], 0xca62c1d6, Rol(v, 5));
    w' := Rol(w, 30);
  }

  function AsWorking(d: seq<Word>): Working
    requires |d| == 5
  {
    Working(d[0], d[1], d[2], d[3], d[4])
  }

  /* The eighty unrolled rounds, ten to a method so that every proof obligation stays small. */

  method Rounds0(block: array<Word>, s: Working, ghost h: Working, ghost m: seq<Word>) returns (r: Working)
    requires block.Length == 16 && Tracks(h, m, 0, s, block[..])
    modifies block
    ensures Tracks(h, m, 10, r, block[..])
  {
    hide *;
    var a, b, c, d, e := s.a, s.b, s.c, s.d, s.e;
    b, e := R0(block, a, b, c, d, e, 0, 0, h, m);
    a, d := R0(block, e, a, b, c, d, 1, 1, h, m);
    e, c := R0(block, d, e, a, b, c, 2, 2, h, m);
    d, b := R0(block, c, d, e, a, b, 3, 3, h, m);
    c, a := R0(block, b, c, d, e, a, 4, 4, h, m);
    b, e := R0(block, a, b, c, d, e, 5, 5, h, m);
    a, d := R0(block, e, a, b, c, d, 6, 6, h, m);
    e, c := R0(block, d, e, a, b, c, 7, 7, h, m);
    d, b := R0(block, c, d, e, a, b, 8, 8, h, m);
    c, a := R0(block, b, c, d, e, a, 9, 9, h, m);
    r := Working(a, b, c, d, e);
  }

  method Rounds10(block: array<Word>, s: Working, ghost h: Working, ghost m: seq<Word>) returns (r: Working)
    requires block.Length == 16 && Tracks(h, m, 10, s, block[..])
    modifies block
    ensures Tracks(h, m, 20, r, block[..])
  {
    hide *;
    var a, b, c, d, e := s.a, s.b, s.c, s.d, s.e;
    b, e := R0(block, a, b, c, d, e, 10, 10, h, m);
    a, d := R0(block, e, a, b, c, d, 11, 11, h, m);
    e, c := R0(block, d, e, a, b, c, 12, 12, h, m);
    d, b := R0(block, c, d, e, a, b, 13, 13, h, m);
    c, a := R0(block, b, c, d, e, a, 14, 14, h, m);
    b, e := R0(block, a, b, c, d, e, 15, 15, h, m);
    a, d := R1(block, e, a, b, c, d, 0, 16, h, m);
    e, c := R1(block, d, e, a, b, c, 1, 17, h, m);
    d, b := R1(block, c, d, e, a, b, 2, 18, h, m);
    c, a := R1(block, b, c, d, e, a, 3, 19, h, m);
    r := Working(a, b, c, d, e);
  }

  method Rounds20(block: array<Word>, s: Working, ghost h: Working, ghost m: seq<Word>) returns (r: Working)
    requires block.Length == 16 && Tracks(h, m, 20, s, block[..])
    modifies block
    ensures Tracks(h, m, 30, r, block[..])
  {
    hide *;
    var a, b, c, d, e := s.a, s.b, s.c, s.d, s.e;
    b, e := R2(block, a, b, c, d, e, 4, 20, h, m);
    a, d := R2(block, e, a, b, c, d, 5, 21, h, m);
    e, c := R2(block, d, e, a, b, c, 6, 22, h, m);
    d, b := R2(block, c, d, e, a, b, 7, 23, h, m);
    c, a := R2(block, b, c, d, e, a, 8, 24, h, m);
    b, e := R2(block, a, b, c, d, e, 9, 25, h, m);
    a, d := R2(block, e, a, b, c, d, 10, 26, h, m);
    e, c := R2(block, d, e, a, b, c, 11, 27, h, m);
    d, b := R2(block, c, d, e, a, b, 12, 28, h, m);
    c, a := R2(block, b, c, d, e, a, 13, 29, h, m);
    r := Working(a, b, c, d, e);
  }

  method Rounds30(block: array<Word>, s: Working, ghost h: Working, ghost m: seq<Word>) returns (r: Working)
    requires block.Length == 16 && Tracks(h, m, 30, s, block[..])
    modifies block
    ensures Tracks(h, m, 40, r, block[..])
  {
    hide *;
    var a, b, c, d, e := s.a, s.b, s.c, s.d, s.e;
    b, e := R2(block, a, b, c, d, e, 14, 30, h, m);
    a, d := R2(block, e, a, b, c, d, 15, 31, h, m);
    e, c := R2(block, d, e, a, b, c, 0, 32, h, m);
    d, b := R2(block, c, d, e, a, b, 1, 33, h, m);
    c, a := R2(block, b, c, d, e, a, 2, 34, h, m);
    b, e := R2(block, a, b, c, d, e, 3, 35, h, m);
    a, d := R2(block, e, a, b, c, d, 4, 36, h, m);
    e, c := R2(block, d, e, a, b, c, 5, 37, h, m);
    d, b := R2(block, c, d, e, a, b, 6, 38, h, m);
    c, a := R2(block, b, c, d, e, a, 7, 39, h, m);
    r := Working(a, b, c, d, e);
  }

  method Rounds40(block: array<Word>, s: Working, ghost h: Working, ghost m: seq<Word>) returns (r: Working)
    requires block.Length == 16 && Tracks(h, m, 40, s, block[..])
    modifies block
    ensures Tracks(h, m, 50, r, block[..])
  {
    hide *;
    var a, b, c, d, e := s.a, s.b, s.c, s.d, s.e;
    b, e := R3(block, a, b, c, d, e, 8, 40, h, m);
    a, d := R3(block, e, a, b, c, d, 9, 41, h, m);
    e, c := R3(block, d, e, a, b, c, 10, 42, h, m);
    d, b := R3(block, c, d, e, a, b, 11, 43, h, m);
    c, a := R3(block, b, c, d, e, a, 12, 44, h, m);
    b, e := R3(block, a, b, c, d, e, 13, 45, h, m);
    a, d := R3(block, e, a, b, c, d, 14, 46, h, m);
    e, c := R3(block, d, e, a, b, c, 15, 47, h, m);
    d, b := R3(block, c, d, e, a, b, 0, 48, h, m);
    c, a := R3(block, b, c, d, e, a, 1, 49, h, m);
    r := Working(a, b, c, d, e);
  }

  method Rounds50(block: array<Word>, s: Working, ghost h: Working, ghost m: seq<Word>) returns (r: Working)
    requires block.Length == 16 && Tracks(h, m, 50, s, block[..])
    modifies block
    ensures Tracks(h, m, 60, r, block[..])
  {
    hide *;
    var a, b, c, d, e := s.a, s.b, s.c, s.d, s.e;
    b, e := R3(block, a, b, c, d, e, 2, 50, h, m);
    a, d := R3(block, e, a, b, c, d, 3, 51, h, m);
    e, c := R3(block, d, e, a, b, c, 4, 52, h, m);
    d, b := R3(block, c, d, e, a, b, 5, 53, h, m);
    c, a := R3(block, b, c, d, e, a, 6, 54, h, m);
    b, e := R3(block, a, b, c, d, e, 7, 55, h, m);
    a, d := R3(block, e, a, b, c, d, 8, 56, h, m);
    e, c := R3(block, d, e, a, b, c, 9, 57, h, m);
    d, b := R3(block, c, d, e, a, b, 10, 58, h, m);
    c, a := R3(block, b, c, d, e, a, 11, 59, h, m);
    r := Working(a, b, c, d, e);
  }

  method Rounds60(block: array<Word>, s: Working, ghost h: Working, ghost m: seq<Word>) returns (r: Working)
    requires block.Length == 16 && Tracks(h, m, 60, s, block[..])
    modifies block
    ensures Tracks(h, m, 70, r, block[..])
  {
    hide *;
    var a, b, c, d, e := s.a, s.b, s.c, s.d, s.e;
    b, e := R4(block, a, b, c, d, e, 12, 60, h, m);
    a, d := R4(block, e, a, b, c, d, 13, 61, h, m);
    e, c := R4(block, d, e, a, b, c, 14, 62, h, m);
    d, b := R4(block, c, d, e, a, b, 15, 63, h, m);
    c, a := R4(block, b, c, d, e, a, 0, 64, h, m);
    b, e := R4(block, a, b, c, d, e, 1, 65, h, m);
    a, d := R4(block, e, a, b, c, d, 2, 66, h, m);
    e, c := R4(block, d, e, a, b, c, 3, 67, h, m);
    d, b := R4(block, c, d, e, a, b, 4, 68, h, m);
    c, a := R4(block, b, c, d, e, a, 5, 69, h, m);
    r := Working(a, b, c, d, e);
  }

  method Rounds70(block: array<Word>, s: Working, ghost h: Working, ghost m: seq<Word>) returns (r: Working)
    requires block.Length == 16 && Tracks(h, m, 70, s, block[..])
    modifies block
    ensures Tracks(h, m, 80, r, block[..])
  {
    hide *;
    var a, b, c, d, e := s.a, s.b, s.c, s.d, s.e;
    b, e := R4(block, a, b, c, d, e, 6, 70, h, m);
    a, d := R4(block, e, a, b, c, d, 7, 71, h, m);
    e, c := R4(block, d, e, a, b, c, 8, 72, h, m);
    d, b := R4(block, c, d, e, a, b, 9, 73, h, m);
    c, a := R4(block, b, c, d, e, a, 10, 74, h, m);
    b, e := R4(block, a, b, c, d, e, 11, 75, h, m);
    a, d := R4(block, e, a, b, c, d, 12, 76, h, m);
    e, c := R4(block, d, e, a, b, c, 13, 77, h, m);
    d, b := R4(block, c, d, e, a, b, 14, 78, h, m);
    c, a := R4(block, b, c, d, e, a, 15, 79, h, m);
    r := Working(a, b, c, d, e);
  }

  method AllRounds(block: array<Word>, h: Working) returns (s: Working)
    requires block.Length == 16
    modifies block
    ensures Compress(h, old(block[..])) == Add(h, s)
  {
    ghost var m := block[..];
    Start(h, m);
    hide *;
    s := h;
    s := Rounds0(block, s, h, m);
    s := Rounds10(block, s, h, m);
    s := Rounds20(block, s, h, m);
    s := Rounds30(block, s, h, m);
    s := Rounds40(block, s, h, m);
    s := Rounds50(block, s, h, m);
    s := Rounds60(block, s, h, m);
    s := Rounds70(block, s, h, m);
    Finish(h, m, s, block[..]);
  }

  /** Hash a single 512-bit block: the new digest is the standard's Compress of the old one. */
  method Transform(digest: array<Word>, block: array<Word>, transforms: nat) returns (transforms': nat)
    requires digest.Length == 5 && block.Length == 16 && digest != block
    modifies digest, block
    ensures AsWorking(digest[..]) == Compress(AsWorking(old(digest[..])), old(block[..]))
    ensures transforms' == (transforms + 1) % TWO_TO_64
  {
    var s := AllRounds(block, AsWorking(digest[..]));
    hide Plus;
    digest[0] := Plus(digest[0], s.a);
    digest[1] := Plus(digest[1], s.b);
    digest[2] := Plus(digest[2], s.c);
    digest[3] := Plus(digest[3], s.d);
    digest[4] := Plus(digest[4], s.e);
    transforms' := (transforms + 1) % TWO_TO_64;
  }
}
