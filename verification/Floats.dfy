/** Floating-point numbers of IEEE 754 as their three fields, and the conversions between them and integers. */
module Floats {
  // ------------------------------------------------------------ powers of two

  /** n times two to the k */
  function Double(n: nat, k: nat): nat {
    if k == 0 then n else 2 * Double(n, k - 1)
  }

  /** n divided by two to the k, rounded down */
  function Halve(n: nat, k: nat): nat
    decreases k
  {
    if k == 0 then n else Halve(n / 2, k - 1)
  }

  /** Whether two to the k divides n. */
  predicate Divides(k: nat, n: nat)
    decreases k
  {
    k == 0 || (n % 2 == 0 && Divides(k - 1, n / 2))
  }

  lemma {:induction false} DoubleTwice(n: nat, a: nat, b: nat)
    ensures Double(Double(n, a), b) == Double(n, a + b)
    decreases b
  {
    if b == 0 {
    } else {
      DoubleTwice(n, a, b - 1);
    }
  }

  lemma {:induction false} HalveDouble(n: nat, k: nat)
    ensures Divides(k, Double(n, k)) && Halve(Double(n, k), k) == n
    decreases k
  {
    if k == 0 {
    } else {
      assert Double(n, k) / 2 == Double(n, k - 1);
      HalveDouble(n, k - 1);
    }
  }

  lemma {:induction false} DoubleHalve(n: nat, k: nat)
    ensures Double(Halve(n, k), k) <= n
    ensures Divides(k, n) <==> Double(Halve(n, k), k) == n
    decreases k
  {
    if k == 0 {
    } else {
      DoubleHalve(n / 2, k - 1);
    }
  }

  lemma {:induction false} PowerGrows(a: nat, b: nat)
    requires a <= b
    ensures 1 <= Double(1, a) <= Double(1, b)
  {
    if b == 0 {
    } else if a < b {
      PowerGrows(a, b - 1);
    } else {
      PowerGrows(a - 1, b - 1);
    }
  }

  /** The place of the highest bit. */
  function Log2(v: nat): (k: nat)
    requires v > 0
    ensures Double(1, k) <= v < Double(1, k + 1)
  {
    if v == 1 then 0 else Log2(v / 2) + 1
  }

  lemma Log2Is(v: nat, k: nat)
    requires v > 0 && Double(1, k) <= v < Double(1, k + 1)
    ensures Log2(v) == k
  {
    if Log2(v) < k { PowerGrows(Log2(v) + 1, k); }
    if Log2(v) > k { PowerGrows(k + 1, Log2(v)); }
  }

  // ------------------------------------------------------------ the two formats

  /** A float or, if wide, a double: sign, biased exponent and fraction. */
  datatype Float = Float(negative: bool, exponent: nat, fraction: nat)

  const ZERO := Float(false, 0, 0)

  function FractionBits(wide: bool): nat { if wide then 52 else 23 }
  function Bias(wide: bool): nat { if wide then 1023 else 127 }

  /** The weight of the lowest exponent bit, and the number of exponents. */
  function Unit(wide: bool): nat { if wide then 0x10_0000_0000_0000 else 0x80_0000 }
  function Exponents(wide: bool): nat { if wide then 2048 else 256 }

  predicate IsFloat(wide: bool, x: Float) {
    x.exponent < Exponents(wide) && x.fraction < Unit(wide)
  }

  function Infinity(wide: bool, negative: bool): Float {
    Float(negative, Exponents(wide) - 1, 0)
  }

  predicate IsZero(x: Float) {
    x.exponent == 0 && x.fraction == 0
  }

  lemma UnitIsPower(wide: bool)
    ensures Unit(wide) == Double(1, FractionBits(wide)) && 2 * Unit(wide) == Double(1, FractionBits(wide) + 1)
  {
    assert Double(1, 8) == 0x100;
    assert Double(0x100, 8) == 0x1_0000;
    assert Double(0x1_0000, 7) == 0x80_0000;
    DoubleTwice(1, 8, 8);
    DoubleTwice(1, 16, 7);
    if wide {
      assert Double(0x80_0000, 9) == 0x1_0000_0000;
      assert Double(0x1_0000_0000, 10) == 0x400_0000_0000;
      assert Double(0x400_0000_0000, 10) == 0x10_0000_0000_0000;
      DoubleTwice(1, 23, 9);
      DoubleTwice(1, 32, 10);
      DoubleTwice(1, 42, 10);
    }
  }

  /** The size of a normal number is this times two to the exponent - Bias - FractionBits. */
  function Significand(wide: bool, x: Float): nat {
    Unit(wide) + x.fraction
  }

  // ------------------------------------------------------------ whole numbers

  /** modf leaves no fraction. */
  predicate Integral(wide: bool, x: Float) {
    var point := Bias(wide) + FractionBits(wide);
    IsZero(x) || x.exponent >= point || (x.exponent >= Bias(wide) && Divides(point - x.exponent, Significand(wide, x)))
  }

  /** The size of a whole number. */
  function Magnitude(wide: bool, x: Float): nat {
    var point := Bias(wide) + FractionBits(wide);
    if IsZero(x) then 0
    else if x.exponent >= point then Double(Significand(wide, x), x.exponent - point)
    else Halve(Significand(wide, x), point - x.exponent)
  }

  function Whole(wide: bool, x: Float): int {
    var size: int := Magnitude(wide, x);
    if x.negative then -size else size
  }

  /** A positive number scaled to 24 bits: to the nearest such number, and to the even one of two that are as near. */
  function Rounded(n: nat): (r: (nat, nat))
    requires n > 0
  {
    var k := Log2(n);
    if k <= 23 then (k, Double(n, 23 - k))
    else
      var q := Halve(n, k - 23);
      var rest, half := n - Double(q, k - 23), Double(1, k - 24);
      var up := if rest > half || (rest == half && q % 2 == 1) then q + 1 else q;
      if up == 2 * Unit(false) then (k + 1, Unit(false)) else (k, up)
  }

  /** The float nearest to an integer. */
  function FromInteger(v: int): Float {
    if v == 0 then ZERO
    else
      RoundedRange(Size(v));
      var (k, significand) := Rounded(Size(v));
      Float(v < 0, k + Bias(false), significand - Unit(false))
  }

  function Size(v: int): nat {
    if v < 0 then -v else v
  }

  lemma {:induction false} HalveBelow(n: nat, k: nat, m: nat)
    requires Double(1, m + k) <= n < Double(1, m + k + 1)
    ensures Double(1, m) <= Halve(n, k) < Double(1, m + 1)
    decreases k
  {
    if k == 0 {
    } else {
      HalveBelow(n / 2, k - 1, m);
    }
  }

  lemma {:induction false} DoubleWithin(n: nat, m: nat, k: nat)
    requires Double(1, m) <= n < Double(1, m + 1)
    ensures Double(1, m + k) <= Double(n, k) < Double(1, m + k + 1)
    decreases k
  {
    if k == 0 {
    } else {
      DoubleWithin(n, m, k - 1);
    }
  }

  lemma RoundedRange(n: nat)
    requires n > 0
    ensures Unit(false) <= Rounded(n).1 < 2 * Unit(false)
  {
    hide Double, Halve, Log2;
    var k := Log2(n);
    UnitIsPower(false);
    if k <= 23 {
      DoubleWithin(n, k, 23 - k);
    } else {
      HalveBelow(n, k - 23, 23);
    }
  }

  /** A float as a double. */
  function Widened(x: Float): Float {
    if IsZero(x) then x else Float(x.negative, x.exponent + Bias(true) - Bias(false), x.fraction * 0x2000_0000)
  }

  /** value = float(val): by way of a float, even for a double. */
  function FromInt(wide: bool, v: int): Float {
    if wide then Widened(FromInteger(v)) else FromInteger(v)
  }

  // ------------------------------------------------------------ there and back

  lemma NotDoubled(n: nat)
    ensures Double(n, 0) == n && Halve(n, 0) == n
  {
  }

  lemma DoubledExactly(significand: nat, k: nat)
    requires Unit(false) <= significand < 2 * Unit(false)
    ensures Double(significand, k) > 0 && Rounded(Double(significand, k)) == (23 + k, significand)
  {
    hide Divides, Halve, Log2, Double;
    UnitIsPower(false);
    var n := Double(significand, k);
    DoubleWithin(significand, 23, k);
    PowerGrows(0, 23 + k);
    Log2Is(n, 23 + k);
    HalveDouble(significand, k);
    NotDoubled(n);
    if k == 0 {
      NotDoubled(significand);
    } else {
      PowerGrows(0, k - 1);
    }
  }

  lemma HalvedExactly(significand: nat, k: nat)
    requires Unit(false) <= significand < 2 * Unit(false) && k <= 23 && Divides(k, significand)
    ensures Halve(significand, k) > 0 && Rounded(Halve(significand, k)) == (23 - k, significand)
  {
    hide Divides, Halve, Log2, Double;
    UnitIsPower(false);
    var n := Halve(significand, k);
    assert 23 - k + k == 23;
    HalveBelow(significand, k, 23 - k);
    PowerGrows(0, 23 - k);
    Log2Is(n, 23 - k);
    DoubleHalve(significand, k);
  }

  lemma NarrowThereAndBack(x: Float)
    requires IsFloat(false, x) && Integral(false, x) && !IsZero(x)
    ensures FromInteger(Whole(false, x)) == x
  {
    hide Divides, Halve, Double, Rounded;
    if x.exponent >= 150 {
      DoubledExactly(Significand(false, x), x.exponent - 150);
    } else {
      HalvedExactly(Significand(false, x), 150 - x.exponent);
    }
  }

  function Distance(a: int, b: int): nat {
    if a < b then b - a else a - b
  }

  lemma {:induction false} DoubleGrows(m: nat, n: nat, k: nat)
    requires m <= n
    ensures Double(m, k) <= Double(n, k)
    decreases k
  {
    if k == 0 {
    } else {
      DoubleGrows(m, n, k - 1);
    }
  }

  /** No number of 24 bits is nearer to n than the one it is rounded to. */
  lemma RoundedIsNearest(n: nat, m: nat)
    requires n > 0 && Log2(n) > 23
    ensures var (k, significand) := Rounded(n);
            k >= 23 && Distance(n, Double(significand, k - 23)) <= Distance(n, Double(m, Log2(n) - 23))
  {
    hide Log2, Halve;
    var s := Log2(n) - 23;
    var q := Halve(n, s);
    HalveBounds(n, s);
    DoubleSum(q, 1, s);
    assert Double(1, s) == 2 * Double(1, s - 1);
    assert Double(2 * Unit(false), s) == Double(Unit(false), s + 1) by { CarryBit(s); }
    if m <= q { DoubleGrows(m, q, s); } else { DoubleGrows(q + 1, m, s); }
  }

  lemma {:induction false} CarryBit(s: nat)
    ensures Double(2 * Unit(false), s) == Double(Unit(false), s + 1)
  {
    if s == 0 {
    } else {
      CarryBit(s - 1);
    }
  }

  // ------------------------------------------------------------ doubles of 24 bits

  /** A double whose fraction has no more bits than that of a float. */
  predicate FewBits(x: Float) {
    x.fraction % 0x2000_0000 == 0
  }

  function Narrowed(x: Float): Float
    requires x.exponent >= Bias(true)
  {
    Float(x.negative, x.exponent + Bias(false) - Bias(true), x.fraction / 0x2000_0000)
  }

  lemma {:induction false} HalveDoubled(n: nat, a: nat, b: nat)
    ensures b <= a ==> Halve(Double(n, a), b) == Double(n, a - b) && Divides(b, Double(n, a))
    ensures a < b ==> Halve(Double(n, a), b) == Halve(n, b - a) && (Divides(b, Double(n, a)) <==> Divides(b - a, n))
    decreases b
  {
    if b == 0 || a == 0 {
    } else {
      assert Double(n, a) / 2 == Double(n, a - 1);
      HalveDoubled(n, a - 1, b - 1);
    }
  }

  lemma TimesPower(n: nat)
    ensures Double(n, 29) == n * 0x2000_0000
  {
    DoubleTwice(n, 8, 8);
    DoubleTwice(n, 16, 8);
    DoubleTwice(n, 24, 5);
    EightTimes(n);
    EightTimes(n * 0x100);
    EightTimes(n * 0x1_0000);
    EightTimes(n * 0x100_0000);
  }

  lemma EightTimes(n: nat)
    ensures Double(n, 8) == n * 0x100 && Double(n, 5) == n * 0x20
  {
    assert Double(n, 1) == n * 2;
    assert Double(n, 2) == n * 4;
    assert Double(n, 3) == n * 8;
    assert Double(n, 4) == n * 0x10;
    assert Double(n, 5) == n * 0x20;
    assert Double(n, 6) == n * 0x40;
    assert Double(n, 7) == n * 0x80;
  }

  lemma SameNumber(x: Float)
    requires IsFloat(true, x) && FewBits(x) && x.exponent >= Bias(true)
    ensures var y := Narrowed(x);
            Widened(y) == x && (Integral(true, x) <==> Integral(false, y)) && Magnitude(true, x) == Magnitude(false, y)
  {
    hide Divides, Halve, Double;
    var y := Narrowed(x);
    var s := Significand(false, y);
    TimesPower(s);
    assert Significand(true, x) == Double(s, 29);
    if x.exponent >= 1075 {
      DoubleTwice(s, 29, x.exponent - 1075);
    } else {
      HalveDoubled(s, 29, 1075 - x.exponent);
    }
  }

  /** A whole number comes back from its integer exactly if it has no more than 24 bits. */
  lemma WholeThereAndBackIff(wide: bool, x: Float)
    requires IsFloat(wide, x) && Integral(wide, x) && !IsZero(x) && x.exponent < Bias(wide) + 63
    ensures FromInt(wide, Whole(wide, x)) == x <==> wide ==> FewBits(x)
  {
    hide Divides, Halve, Double, Rounded, Magnitude, Integral;
    if !wide {
      NarrowThereAndBack(x);
    } else if FewBits(x) {
      ExponentAboveBias(x);
      SameNumber(x);
      NarrowThereAndBack(Narrowed(x));
    }
  }

  lemma ExponentAboveBias(x: Float)
    requires Integral(true, x) && !IsZero(x)
    ensures x.exponent >= Bias(true)
  {
  }

  // ------------------------------------------------------------ the bits on the wire

  /** The exponent without bias; a subnormal number has one of its own. */
  function Ilogb(wide: bool, x: Float): int {
    if x.exponent > 0 || x.fraction == 0 then x.exponent - Bias(wide)
    else Log2(x.fraction) + 1 - Bias(wide) - FractionBits(wide)
  }

  /** The bits of the mantissa behind its leading one. */
  function MantissaBits(wide: bool, x: Float): nat
    requires IsFloat(wide, x)
  {
    if x.exponent > 0 || x.fraction == 0 then x.fraction
    else
      SubnormalMantissa(wide, x.fraction);
      Double(x.fraction, FractionBits(wide) - Log2(x.fraction)) - Unit(wide)
  }

  lemma SubnormalMantissa(wide: bool, fraction: nat)
    requires 0 < fraction < Unit(wide)
    ensures Log2(fraction) < FractionBits(wide)
    ensures Unit(wide) <= Double(fraction, FractionBits(wide) - Log2(fraction)) < 2 * Unit(wide)
  {
    hide Double, Log2;
    UnitIsPower(wide);
    var k := Log2(fraction);
    if k >= FractionBits(wide) { PowerGrows(FractionBits(wide), k); }
    DoubleWithin(fraction, k, FractionBits(wide) - k);
  }

  /** The three masks together; a negative exponent field runs over into the sign. */
  function PackedBits(wide: bool, x: Float): nat
    requires IsFloat(wide, x)
  {
    var field := (Ilogb(wide, x) + Bias(wide)) % (2 * Exponents(wide));
    var sign := if x.negative && field < Exponents(wide) then Exponents(wide) else 0;
    (sign + field) * Unit(wide) + MantissaBits(wide, x)
  }

  lemma PackedRange(wide: bool, x: Float)
    requires IsFloat(wide, x)
    ensures PackedBits(wide, x) < if wide then 0x1_0000_0000_0000_0000 else 0x1_0000_0000
  {
    hide Double, Log2, Ilogb;
    if x.exponent == 0 && x.fraction > 0 { SubnormalMantissa(wide, x.fraction); }
  }

  /** What is read from these bits: exponents below the bias wrap around and make the number infinite. */
  function ReadBits(wide: bool, bits: nat): Float {
    var negative := bits / Unit(wide) / Exponents(wide) % 2 == 1;
    var exponent := bits / Unit(wide) % Exponents(wide);
    if Bias(wide) <= exponent < Exponents(wide) - 1 then Float(negative, exponent, bits % Unit(wide))
    else Infinity(wide, negative)
  }

  lemma SplitBits(wide: bool, high: nat, low: nat)
    requires low < Unit(wide)
    ensures (high * Unit(wide) + low) / Unit(wide) == high && (high * Unit(wide) + low) % Unit(wide) == low
  {
  }

  lemma NormalBits(wide: bool, x: Float)
    requires IsFloat(wide, x) && x.exponent > 0
    ensures var high := (if x.negative then Exponents(wide) else 0) + x.exponent;
            PackedBits(wide, x) == high * Unit(wide) + x.fraction
  {
  }

  /** Nothing that is read from bits is below one. */
  lemma NeverSmall(wide: bool, bits: nat)
    ensures ReadBits(wide, bits).exponent >= Bias(wide)
  {
    hide Unit;
  }

  /** A finite number comes back from its bits exactly if it is not below one. */
  lemma BitsThereAndBackIff(wide: bool, x: Float)
    requires IsFloat(wide, x) && x.exponent < Exponents(wide) - 1
    ensures ReadBits(wide, PackedBits(wide, x)) == x <==> x.exponent >= Bias(wide)
  {
    hide PackedBits, Unit, Exponents;
    NeverSmall(wide, PackedBits(wide, x));
    if x.exponent >= Bias(wide) {
      var high := (if x.negative then Exponents(wide) else 0) + x.exponent;
      NormalBits(wide, x);
      SplitBits(wide, high, x.fraction);
      SignAndExponent(wide, x.negative, x.exponent);
    }
  }

  lemma SignAndExponent(wide: bool, negative: bool, exponent: nat)
    requires exponent < Exponents(wide)
    ensures var high := (if negative then Exponents(wide) else 0) + exponent;
            (high / Exponents(wide) % 2 == 1 <==> negative) && high % Exponents(wide) == exponent
  {
  }

  /** The size of a whole number below 2^63. */
  lemma MagnitudeRange(wide: bool, x: Float)
    requires IsFloat(wide, x) && Integral(wide, x) && x.exponent < Bias(wide) + 63
    ensures Magnitude(wide, x) < 0x8000_0000_0000_0000 && (Magnitude(wide, x) == 0 <==> IsZero(x))
  {
    hide Double, Halve, Divides;
    if !IsZero(x) {
      var m, s := Significand(wide, x), x.exponent - Bias(wide);
      UnitIsPower(wide);
      if s >= FractionBits(wide) {
        DoubleWithin(m, FractionBits(wide), s - FractionBits(wide));
      } else {
        assert s + (FractionBits(wide) - s) == FractionBits(wide);
        HalveBelow(m, FractionBits(wide) - s, s);
      }
      PowerGrows(0, s);
      PowerGrows(s + 1, 63);
      PowerOf63();
    }
  }

  lemma PowerOf63()
    ensures Double(1, 63) == 0x8000_0000_0000_0000
  {
    UnitIsPower(true);
    DoubleTwice(1, 52, 11);
    EightTimes(0x10_0000_0000_0000);
    assert Double(0x1000_0000_0000_0000, 3) == 0x8000_0000_0000_0000;
    DoubleTwice(0x10_0000_0000_0000, 8, 3);
  }

  // ------------------------------------------------------------ bit by bit

  lemma {:induction false} DoubleSum(a: nat, b: nat, k: nat)
    ensures Double(a + b, k) == Double(a, k) + Double(b, k)
    decreases k
  {
    if k == 0 {
    } else {
      DoubleSum(a, b, k - 1);
    }
  }

  lemma {:induction false} HalveOnce(n: nat, k: nat)
    ensures Halve(n, k + 1) == Halve(n, k) / 2
    decreases k
  {
    if k == 0 {
      assert Halve(n / 2, 0) == n / 2;
    } else {
      HalveOnce(n / 2, k - 1);
    }
  }

  function Bit(n: nat, k: nat): nat {
    Halve(n, k) % 2
  }

  /** The number above bit k, with that bit and without it. */
  lemma OneBit(n: nat, k: nat)
    ensures Double(Halve(n, k), k) == Double(Halve(n, k + 1), k + 1) + Double(Bit(n, k), k)
  {
    hide Halve;
    var h := Halve(n, k);
    HalveOnce(n, k);
    DoubleSum(h / 2, h / 2, k);
    DoubleSum(h / 2 + h / 2, h % 2, k);
  }

  lemma BitDoubled(n: nat, k: nat)
    ensures Double(Bit(n, k), k) == (if Bit(n, k) == 1 then Double(1, k) else 0)
  {
    hide Halve;
    NothingDoubled(k);
  }

  lemma {:induction false} NothingDoubled(k: nat)
    ensures Double(0, k) == 0
  {
    if k == 0 {
    } else {
      NothingDoubled(k - 1);
    }
  }

  lemma {:induction false} HalveTwice(n: nat, a: nat, b: nat)
    ensures Halve(n, a + b) == Halve(Halve(n, a), b)
    decreases a
  {
    if a == 0 {
    } else {
      HalveTwice(n / 2, a - 1, b);
    }
  }

  lemma {:induction false} DoubleIsProduct(n: nat, k: nat)
    ensures Double(n, k) == n * Double(1, k)
    decreases k
  {
    if k == 0 {
    } else {
      DoubleIsProduct(n, k - 1);
      assert 2 * (n * Double(1, k - 1)) == n * (2 * Double(1, k - 1));
    }
  }

  lemma {:induction false} HalveBounds(n: nat, k: nat)
    ensures Double(Halve(n, k), k) <= n < Double(Halve(n, k) + 1, k)
    decreases k
  {
    if k == 0 {
    } else {
      HalveBounds(n / 2, k - 1);
    }
  }

  lemma HalveIsQuotient(wide: bool, n: nat)
    ensures Halve(n, FractionBits(wide)) == n / Unit(wide)
    ensures Double(Halve(n, FractionBits(wide)), FractionBits(wide)) == n / Unit(wide) * Unit(wide)
  {
    hide Halve, Double;
    var q := Halve(n, FractionBits(wide));
    UnitIsPower(wide);
    HalveBounds(n, FractionBits(wide));
    DoubleIsProduct(q, FractionBits(wide));
    DoubleIsProduct(q + 1, FractionBits(wide));
  }

  function ExponentBits(wide: bool): nat { if wide then 11 else 8 }

  lemma ExponentsIsPower(wide: bool, q: nat)
    ensures q - Double(Halve(q, ExponentBits(wide)), ExponentBits(wide)) == q % Exponents(wide)
  {
    hide Halve, Double;
    var h := Halve(q, ExponentBits(wide));
    HalveBounds(q, ExponentBits(wide));
    DoubleIsProduct(h, ExponentBits(wide));
    DoubleIsProduct(h + 1, ExponentBits(wide));
    SmallPowers();
  }

  lemma SmallPowers()
    ensures Double(1, 8) == 256 && Double(1, 11) == 2048
  {
    EightTimes(1);
    assert Double(1, 9) == 512;
    assert Double(1, 10) == 1024;
  }

  // ------------------------------------------------------------ as the program computes with them

  /** The mantissa with its leading one. */
  function Mantissa(wide: bool, x: Float): real
    requires IsFloat(wide, x)
  {
    1.0 + MantissaBits(wide, x) as real / Unit(wide) as real
  }

  /** ldexp: the mantissa, with its sign, times two to the exponent; infinite if that is too large. */
  function Ldexp(wide: bool, mantissa: real, exponent: nat): Float
    requires 1.0 <= mantissa < 2.0 || -2.0 < mantissa <= -1.0
  {
    var size := if mantissa < 0.0 then -mantissa else mantissa;
    if exponent <= Bias(wide) then Float(mantissa < 0.0, exponent + Bias(wide), ((size - 1.0) * Unit(wide) as real).Floor)
    else Infinity(wide, mantissa < 0.0)
  }

  lemma MaskStep(implied: real, integral: int, k: nat)
    requires 0.0 <= implied < 1.0 && integral == (implied * 2.0).Floor
    ensures integral == 0 || integral == 1
    ensures implied * Double(1, k + 1) as real ==
            (implied * 2.0 - integral as real) * Double(1, k) as real + (if integral == 1 then Double(1, k) as real else 0.0)
  {
    var p := Double(1, k);
    assert Double(1, k + 1) == 2 * p;
    assert implied * (2.0 * p as real) == (implied * 2.0) * p as real;
  }

  lemma MantissaStep(wide: bool, mantissa: real, k: nat)
    requires k < FractionBits(wide)
    ensures Double(1, FractionBits(wide) - k) > 0
    ensures (mantissa + 1.0 / Double(1, FractionBits(wide) - k) as real - 1.0) * Unit(wide) as real ==
            (mantissa - 1.0) * Unit(wide) as real + Double(1, k) as real
  {
    hide Double;
    UnitIsPower(wide);
    var a, b := Double(1, k), Double(1, FractionBits(wide) - k);
    DoubleTwice(1, k, FractionBits(wide) - k);
    DoubleIsProduct(a, FractionBits(wide) - k);
    PowerGrows(0, FractionBits(wide) - k);
    assert Unit(wide) == a * b;
  }

  /** The mantissa from its bits, in the exact arithmetic of a number that has room for all of them. */
  predicate MantissaOf(wide: bool, mantissa: real, bits: nat) {
    (mantissa - 1.0) * Unit(wide) as real == bits as real
  }

  lemma MantissaExact(wide: bool, x: Float)
    requires IsFloat(wide, x)
    ensures MantissaOf(wide, Mantissa(wide, x), MantissaBits(wide, x)) && MantissaBits(wide, x) < Unit(wide)
  {
    hide Double, Log2;
    if x.exponent == 0 && x.fraction > 0 { SubnormalMantissa(wide, x.fraction); }
    var bits, unit := MantissaBits(wide, x) as real, Unit(wide) as real;
    assert bits / unit * unit == bits;
  }

  lemma MantissaRange(wide: bool, mantissa: real, bits: nat)
    requires MantissaOf(wide, mantissa, bits) && bits < Unit(wide)
    ensures 1.0 <= mantissa < 2.0 && ((mantissa - 1.0) * Unit(wide) as real).Floor == bits
  {
  }

  /** Where the wrapped exponent leads. */
  lemma LdexpReads(wide: bool, mantissa: real, bits: nat)
    requires MantissaOf(wide, mantissa, bits % Unit(wide))
    ensures 1.0 <= mantissa < 2.0
    ensures var negative := bits / Unit(wide) / Exponents(wide) % 2 == 1;
            var exponent := (bits / Unit(wide) % Exponents(wide) - Bias(wide)) % (if wide then 0x1_0000 else 0x100);
            Ldexp(wide, if negative then -mantissa else mantissa, exponent) == ReadBits(wide, bits)
  {
    MantissaRange(wide, mantissa, bits % Unit(wide));
  }
}
