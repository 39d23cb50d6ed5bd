/** Bytes as numbers, and fixed-width numbers with the most significant byte first. */
module Bytes {
  type byte = x: int | 0 <= x < 256

  function Pow256(n: nat): (p: nat)
    ensures p > 0
  {
    if n == 0 then 1 else 256 * Pow256(n - 1)
  }

  function BigEndian(v: nat, width: nat): (b: seq<byte>)
    ensures |b| == width
  {
    if width == 0 then [] else [v / Pow256(width - 1) % 256] + BigEndian(v, width - 1)
  }

  function FromBigEndian(b: seq<byte>): nat {
    if |b| == 0 then 0 else b[0] * Pow256(|b| - 1) + FromBigEndian(b[1..])
  }

  lemma Multiples(d: int, m: int)
    requires m >= 0
    ensures d >= 1 ==> d * m >= m
    ensures d <= -1 ==> d * m <= -m
  {
  }

  lemma Remainder(v: nat, m: nat, t: nat, r: nat)
    requires v == t * m + r && r < m
    ensures v % m == r
  {
    var d := v / m - t;
    assert d * m == v / m * m - t * m;
    Multiples(d, m);
  }

  lemma SmallRemainder(r: nat, m: nat, k: int)
    requires r < m
    ensures (r + k * m) % m == r
  {
    var v := r + k * m;
    var d := v / m - k;
    assert d * m == v / m * m - k * m;
    Multiples(d, m);
  }

  lemma Regroup<T>(a: seq<T>, b: seq<T>, c: seq<T>)
    ensures (a + b) + c == a + (b + c)
  {
  }

  lemma Distribute(t: nat, u: nat, p: nat)
    ensures (256 * t + u) * p == t * (256 * p) + u * p
    ensures u <= 255 ==> u * p <= 255 * p
  {
  }

  lemma TopByte(v: nat, p: nat)
    requires p > 0
    ensures v / p % 256 * p + v % p == v % (256 * p)
  {
    var q, r := v / p, v % p;
    var t, u := q / 256, q % 256;
    assert q == 256 * t + u;
    Distribute(t, u, p);
    Remainder(v, 256 * p, t, u * p + r);
  }

  /** Reading back the bytes of a number gives the number, cut to the width. */
  lemma {:induction false} BigEndianRoundTrip(v: nat, width: nat)
    ensures FromBigEndian(BigEndian(v, width)) == v % Pow256(width)
  {
    if width == 0 {
    } else {
      BigEndianRoundTrip(v, width - 1);
      assert BigEndian(v, width)[1..] == BigEndian(v, width - 1);
      TopByte(v, Pow256(width - 1));
    }
  }

  lemma Widths()
    ensures Pow256(1) == 256 && Pow256(2) == 0x1_0000 && Pow256(4) == 0x1_0000_0000 && Pow256(8) == 0x1_0000_0000_0000_0000
  {
    assert Pow256(1) == 256 * Pow256(0);
    assert Pow256(2) == 256 * Pow256(1);
    assert Pow256(3) == 256 * Pow256(2);
    assert Pow256(4) == 256 * Pow256(3);
    assert Pow256(5) == 256 * Pow256(4);
    assert Pow256(6) == 256 * Pow256(5);
    assert Pow256(7) == 256 * Pow256(6);
    assert Pow256(8) == 256 * Pow256(7);
  }
}
