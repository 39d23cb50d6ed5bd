/** The packer and unpacker objects: byte loops over a growing buffer and a moving pointer. */
module MsgPackCodec {
  import opened Maybes
  import opened Bytes
  import opened Floats
  import opened MsgPackFormat

  /** twos_complement: the low bits of ~|v| + 1 for negative numbers. */
  function TwosComplement(v: int, width: nat): (r: nat)
    requires v < Pow256(width)
    ensures r == Low(v, width)
  {
    if v < 0 then
      var inverted := -1 - Abs(v);
      (inverted + 1) % Pow256(width)
    else
      SmallRemainder(v, Pow256(width), 0);
      v
  }

  // ------------------------------------------------------------ the bits of floating-point numbers

  /** The loop that takes the bits of the mantissa one by one. */
  method MantissaMask(wide: bool, mantissa: real, ghost bits: nat) returns (mask: nat)
    requires bits < Unit(wide) && MantissaOf(wide, mantissa, bits)
    ensures mask == bits
  {
    hide Double;
    UnitIsPower(wide);
    MantissaRange(wide, mantissa, bits);
    var implied := mantissa - 1.0;
    mask := 0;
    var i := FractionBits(wide);
    while i > 0
      invariant 0 <= i <= FractionBits(wide)
      invariant 0.0 <= implied < 1.0
      invariant mask as real + implied * Double(1, i) as real == bits as real
    {
      ghost var was := implied;
      implied := implied * 2.0;
      var integral := implied.Floor;
      implied := implied - integral as real;
      MaskStep(was, integral, i - 1);
      if integral == 1 { mask := mask + Double(1, i - 1); }
      i := i - 1;
    }
    NotDoubled(1);
  }

  /** The loop that adds up the mantissa. */
  method ReadMantissa(wide: bool, bits: nat) returns (mantissa: real)
    ensures MantissaOf(wide, mantissa, bits % Unit(wide))
  {
    hide Halve, Double;
    mantissa := 1.0;
    var i := FractionBits(wide);
    ghost var high := Double(Halve(bits, i), i);
    while i > 0
      invariant 0 <= i <= FractionBits(wide)
      invariant (mantissa - 1.0) * Unit(wide) as real == (Double(Halve(bits, i), i) - high) as real
    {
      OneBit(bits, i - 1);
      MantissaStep(wide, mantissa, i - 1);
      BitDoubled(bits, i - 1);
      if Bit(bits, i - 1) == 1 {
        mantissa := mantissa + 1.0 / Double(1, FractionBits(wide) + 1 - i) as real;
      }
      i := i - 1;
    }
    HalveIsQuotient(wide, bits);
    NotDoubled(bits);
  }

  /** The loop that adds up the exponent. */
  method ReadExponent(wide: bool, bits: nat) returns (exponent: nat)
    ensures exponent == bits / Unit(wide) % Exponents(wide)
  {
    hide Halve, Double;
    exponent := 0;
    ghost var q := Halve(bits, FractionBits(wide));
    NotDoubled(q);
    var j := 0;
    while j < ExponentBits(wide)
      invariant 0 <= j <= ExponentBits(wide)
      invariant exponent + Double(Halve(q, j), j) == q
    {
      OneBit(q, j);
      HalveTwice(bits, FractionBits(wide), j);
      exponent := exponent + Double(Bit(bits, FractionBits(wide) + j), j);
      j := j + 1;
    }
    HalveIsQuotient(wide, bits);
    ExponentsIsPower(wide, q);
  }

  /** The number with these bits. The exponent is kept in 8 or 16 bits without a sign. */
  method FromBits(wide: bool, bits: nat) returns (x: Float)
    ensures x == ReadBits(wide, bits)
  {
    var mantissa := ReadMantissa(wide, bits);
    LdexpReads(wide, mantissa, bits);
    if bits / Unit(wide) / Exponents(wide) % 2 == 1 { mantissa := -mantissa; }
    var exponent := ReadExponent(wide, bits);
    x := Ldexp(wide, mantissa, (exponent - Bias(wide)) % (if wide then 0x1_0000 else 0x100));
  }

  /** The elements for which packing is defined. */
  predicate ItemPackable(x: Item) {
    x != IntItem(INT64_MIN) && (x.FloatItem? ==> FloatSized(x.wide, x.x))
  }

  class Packer {
    var serialized: seq<byte>

    constructor ()
      ensures serialized == []
    {
      serialized := [];
    }

    method Clear()
      modifies this
      ensures serialized == []
    {
      serialized := [];
    }

    /** The loops that emit value >> 8 * (i - 1) for i = width .. 1. */
    method Append(value: nat, width: nat)
      modifies this
      ensures serialized == old(serialized) + BigEndian(value, width)
    {
      var i := width;
      while i > 0
        invariant 0 <= i <= width
        invariant serialized + BigEndian(value, i) == old(serialized) + BigEndian(value, width)
      {
        ghost var was := serialized;
        serialized := serialized + [value / Pow256(i - 1) % 256];
        assert was + BigEndian(value, i) == serialized + BigEndian(value, i - 1);
        i := i - 1;
      }
    }

    method AppendMarked(marker: byte, value: nat, width: nat)
      modifies this
      ensures serialized == old(serialized) + ([marker] + BigEndian(value, width))
    {
      serialized := serialized + [marker];
      Append(value, width);
      Regroup(old(serialized), [marker], BigEndian(value, width));
    }

    method PackInt8(v: int8)
      modifies this
      ensures serialized == old(serialized) + EncSigned(v, 1)
    {
      Widths();
      if v > 31 || v < -32 {
        serialized := serialized + [INT8];
      }
      serialized := serialized + [TwosComplement(v, 1)];
    }

    method PackInt16(v: int16)
      modifies this
      ensures serialized == old(serialized) + EncSigned(v, 2)
    {
      Widths();
      if Abs(v) < 0x80 {
        PackInt8(v);
      } else {
        AppendMarked(INT16, TwosComplement(v, 2), 2);
      }
    }

    method PackInt32(v: int32)
      modifies this
      ensures serialized == old(serialized) + EncSigned(v, 4)
    {
      Widths();
      if Abs(v) < 0x8000 {
        PackInt16(v);
      } else {
        AppendMarked(INT32, TwosComplement(v, 4), 4);
      }
    }

    /** llabs is undefined for the least value. */
    method PackInt64(v: int64)
      requires v != INT64_MIN
      modifies this
      ensures serialized == old(serialized) + EncInt(v)
    {
      Widths();
      if Abs(v) < 0x8000_0000 {
        PackInt32(v);
      } else {
        AppendMarked(INT64, TwosComplement(v, 8), 8);
      }
    }

    method PackUint8(v: uint8)
      modifies this
      ensures serialized == old(serialized) + EncUint(v)
    {
      if v <= 0x7f {
        serialized := serialized + [v];
      } else {
        serialized := serialized + [UINT8];
        serialized := serialized + [v];
      }
    }

    method PackUint16(v: uint16)
      modifies this
      ensures serialized == old(serialized) + EncUint(v)
    {
      if v > 0xff {
        AppendMarked(UINT16, v, 2);
      } else {
        PackUint8(v);
      }
    }

    method PackUint32(v: uint32)
      modifies this
      ensures serialized == old(serialized) + EncUint(v)
    {
      if v > 0xffff {
        AppendMarked(UINT32, v, 4);
      } else {
        PackUint16(v);
      }
    }

    method PackUint64(v: uint64)
      modifies this
      ensures serialized == old(serialized) + EncUint(v)
    {
      if v > 0xffff_ffff {
        AppendMarked(UINT64, v, 8);
      } else {
        PackUint32(v);
      }
    }

    method PackBool(b: bool)
      modifies this
      ensures serialized == old(serialized) + EncBool(b)
    {
      serialized := serialized + [if b then TRUE_BOOL else FALSE_BOOL];
    }

    method PackArrayHeader(size: nat)
      modifies this
      ensures serialized == old(serialized) + EncArrayHeader(size)
    {
      if size < 16 {
        serialized := serialized + [FIXARRAY + size];
      } else if size < 0xFFFF {
        AppendMarked(ARRAY16, size, 2);
      } else if size < SIZE_LIMIT {
        AppendMarked(ARRAY32, size, 4);
      }
    }

    method PackBytes(s: seq<byte>)
      modifies this
      ensures serialized == old(serialized) + s
    {
      for i := 0 to |s|
        invariant serialized == old(serialized) + s[..i]
      {
        serialized := serialized + [s[i]];
      }
    }

    method PackStr(s: seq<byte>)
      modifies this
      ensures serialized == old(serialized) + EncStr(s)
    {
      if |s| < 32 {
        serialized := serialized + [FIXSTR + |s|];
      } else if |s| < 0xFF {
        AppendMarked(STR8, |s|, 1);
      } else if |s| < 0xFFFF {
        AppendMarked(STR16, |s|, 2);
      } else if |s| < SIZE_LIMIT {
        AppendMarked(STR32, |s|, 4);
      } else {
        return;
      }
      ghost var header := serialized[|old(serialized)|..];
      assert serialized == old(serialized) + header;
      PackBytes(s);
      Regroup(old(serialized), header, s);
    }

    method PackBin(s: seq<byte>)
      modifies this
      ensures serialized == old(serialized) + EncBin(s)
    {
      if |s| < 0xFF {
        AppendMarked(BIN8, |s|, 1);
      } else if |s| < 0xFFFF {
        AppendMarked(BIN16, |s|, 2);
      } else if |s| < SIZE_LIMIT {
        AppendMarked(BIN32, |s|, 4);
      } else {
        return;
      }
      ghost var header := serialized[|old(serialized)|..];
      assert serialized == old(serialized) + header;
      PackBytes(s);
      Regroup(old(serialized), header, s);
    }

    /** A number without a fraction goes out as an integer, any other one as the masks of its sign, exponent and
        mantissa. */
    method PackFloat(wide: bool, x: Float)
      requires FloatSized(wide, x)
      modifies this
      ensures serialized == old(serialized) + EncFloat(wide, x)
    {
      hide Integral, Magnitude, MantissaBits, Ilogb, EncInt, MantissaOf, BigEndian;
      if Integral(wide, x) {
        MagnitudeRange(wide, x);
        PackInt64(Whole(wide, x));
      } else {
        MantissaExact(wide, x);
        var mantissa := MantissaMask(wide, Mantissa(wide, x), MantissaBits(wide, x));
        var field := (Ilogb(wide, x) + Bias(wide)) % (2 * Exponents(wide));
        var sign := if x.negative && field < Exponents(wide) then Exponents(wide) else 0;
        AppendMarked(FloatMarker(wide), (sign + field) * Unit(wide) + mantissa, FloatSize(wide));
      }
    }

    method PackItem(x: Item)
      requires ItemPackable(x)
      modifies this
      ensures serialized == old(serialized) + EncItem(x)
    {
      match x
      case BoolItem(b) => PackBool(b);
      case IntItem(i) => PackInt64(i);
      case StrItem(s) => PackStr(s);
      case FloatItem(wide, f) => PackFloat(wide, f);
    }

    /** pack_array */
    method PackArray(xs: seq<Item>)
      requires forall x | x in xs :: ItemPackable(x)
      modifies this
      ensures serialized == old(serialized) + EncArray(xs)
    {
      PackArrayHeader(|xs|);
      assert xs[0..] == xs;
      Regroup(old(serialized), EncArrayHeader(|xs|), EncItems(xs));
      hide EncArrayHeader, EncItem, ItemPackable;
      for i := 0 to |xs|
        invariant serialized + EncItems(xs[i..]) == old(serialized) + EncArray(xs)
      {
        ghost var was := serialized;
        PackItem(xs[i]);
        assert xs[i..][1..] == xs[i + 1..];
        Regroup(was, EncItem(xs[i]), EncItems(xs[i + 1..]));
      }
    }
  }

  function Plus(v: nat, r: (Cursor, nat)): (Cursor, nat) {
    (r.0, v + r.1)
  }

  lemma TakeNone(c: Cursor)
    ensures TakeNumber(c, 0) == (c, 0)
  {
  }

  lemma TakeOne(c: Cursor, i: nat, v: nat)
    requires i > 0
    ensures Plus(v, TakeNumber(c, i)) == Plus(v + Peek(c) * Pow256(i - 1), TakeNumber(Step(Touch(c)), i - 1))
  {
    hide Peek, Step, Touch, Pow256;
  }

  function Onto(xs: seq<Item>, r: (Cursor, seq<Item>)): (Cursor, seq<Item>) {
    (r.0, xs + r.1)
  }

  lemma TakeItem(k: Kind, c: Cursor, n: nat, xs: seq<Item>)
    requires n > 0
    ensures var (d, x) := RdItem(k, c); Onto(xs, RdItems(k, c, n)) == Onto(xs + [x], RdItems(k, d, n - 1))
  {
    hide RdItem;
    var (d, x) := RdItem(k, c);
    Regroup(xs, [x], RdItems(k, d, n - 1).1);
  }

  lemma TakeNoItem(k: Kind, c: Cursor, xs: seq<Item>)
    ensures Onto(xs, RdItems(k, c, 0)) == (c, xs)
  {
    assert xs + [] == xs;
  }

  lemma TouchedTwice(c: Cursor)
    ensures RdUint(Touch(c)) == RdUint(c) && RdInt(Touch(c)) == RdInt(c)
  {
    hide TakeNumber, TakeSigned;
  }

  class Unpacker {
    var data: seq<byte>
    var pos: nat
    var ec: Error

    ghost predicate Valid()
      reads this
    {
      pos <= |data| + 1
    }

    /** The state as the reading functions see it. */
    function Cur(): Cursor
      reads this
    {
      Cursor(if pos <= |data| then data[pos..] else [], pos > |data|, ec)
    }

    constructor ()
      ensures Valid() && data == [] && pos == 0 && ec == NoError
    {
      data, pos, ec := [], 0, NoError;
    }

    method SetData(bytes: seq<byte>)
      modifies this
      ensures Valid() && data == bytes && ec == old(ec)
      ensures Cur() == Cursor(bytes, false, old(ec))
    {
      data, pos := bytes, 0;
    }

    method SafeData() returns (b: byte)
      requires Valid()
      modifies this`ec
      ensures Valid() && Cur() == Touch(old(Cur())) && b == Peek(old(Cur()))
    {
      if pos < |data| {
        return data[pos];
      }
      ec := OutOfRange;
      return 0;
    }

    method SafeIncrement()
      requires Valid()
      modifies this`pos, this`ec
      ensures Valid() && Cur() == Step(old(Cur())) && pos >= old(pos)
      ensures old(pos) <= |data| ==> pos == old(pos) + 1
    {
      if |data| - pos >= 0 {
        pos := pos + 1;
      } else {
        ec := OutOfRange;
      }
    }

    /** The loops that add up safe_data() << 8 * (i - 1) for i = width .. 1. */
    method ReadNumber(width: nat) returns (v: nat)
      requires Valid()
      modifies this`pos, this`ec
      ensures Valid() && (Cur(), v) == TakeNumber(old(Cur()), width)
    {
      hide Peek, Step, Touch, Pow256, TakeNumber;
      v := 0;
      var i := width;
      ghost var whole := TakeNumber(Cur(), width);
      while i > 0
        invariant 0 <= i <= width && Valid()
        invariant whole == Plus(v, TakeNumber(Cur(), i))
      {
        TakeOne(Cur(), i, v);
        var b := SafeData();
        v := v + b * Pow256(i - 1);
        SafeIncrement();
        i := i - 1;
      }
      TakeNone(Cur());
    }

    method ReadSigned(width: nat) returns (v: int)
      requires Valid()
      modifies this`pos, this`ec
      ensures Valid() && (Cur(), v) == TakeSigned(old(Cur()), width)
    {
      var bits := ReadNumber(width);
      if 2 * bits < Pow256(width) { v := bits; } else { v := bits - Pow256(width); }
    }

    method UnpackInt64() returns (v: int64)
      requires Valid()
      modifies this`pos, this`ec
      ensures Valid() && (Cur(), v) == RdInt(old(Cur()))
    {
      IntRange(Cur());
      hide TakeNumber, TakeSigned;
      var flag := SafeData();
      var r: int;
      if flag == INT64 { SafeIncrement(); r := ReadSigned(8); }
      else if flag == INT32 { SafeIncrement(); r := ReadSigned(4); }
      else if flag == INT16 { SafeIncrement(); r := ReadSigned(2); }
      else if flag == INT8 { SafeIncrement(); r := ReadSigned(1); }
      else if flag == UINT32 { SafeIncrement(); r := ReadNumber(4); }
      else if flag == UINT16 { SafeIncrement(); r := ReadNumber(2); }
      else if flag == UINT8 { SafeIncrement(); r := ReadNumber(1); }
      else { r := ReadSigned(1); }
      v := r;
    }

    /** The eight bytes of the widest format are added to what the variable held before. */
    method UnpackUint64(was: uint64) returns (v: nat)
      requires Valid()
      modifies this`pos, this`ec
      ensures Valid()
      ensures var (d, n) := RdUint(old(Cur()));
              Cur() == d && v == if Peek(old(Cur())) == UINT64 then (was + n) % 0x1_0000_0000_0000_0000 else n
    {
      hide TakeNumber, TakeSigned, RdInt;
      var flag := SafeData();
      if flag == UINT64 {
        SafeIncrement();
        var n := ReadNumber(8);
        v := (was + n) % 0x1_0000_0000_0000_0000;
      } else if flag == UINT32 { SafeIncrement(); v := ReadNumber(4); }
      else if flag == UINT16 { SafeIncrement(); v := ReadNumber(2); }
      else if flag == UINT8 { SafeIncrement(); v := ReadNumber(1); }
      else if flag == INT64 || flag == INT32 || flag == INT16 || flag == INT8 {
        var i: int := UnpackInt64();
        v := i % 0x1_0000_0000_0000_0000;
      } else { v := ReadNumber(1); }
    }

    method UnpackUint8() returns (v: nat)
      requires Valid()
      modifies this`pos, this`ec
      ensures Valid() && (Cur(), v) == RdUint8(old(Cur()))
    {
      var flag := SafeData();
      if flag == UINT8 || flag == INT8 { SafeIncrement(); }
      v := ReadNumber(1);
    }

    method UnpackBool(was: bool) returns (value: bool)
      requires Valid()
      modifies this`pos, this`ec
      ensures Valid() && (Cur(), value) == RdBool(old(Cur()), was)
    {
      value := was;
      var b := SafeData();
      if b == TRUE_BOOL {
        value := true;
      } else if b == FALSE_BOOL {
        value := false;
      } else {
        ec := BadInput;
      }
      SafeIncrement();
    }

    method UnpackArrayHeader() returns (size: Maybe<nat>)
      requires Valid()
      modifies this`pos, this`ec
      ensures Valid() && (Cur(), size) == RdArrayHeader(old(Cur()))
    {
      hide TakeNumber;
      var flag := SafeData();
      if flag == ARRAY32 {
        SafeIncrement();
        var n := ReadNumber(4);
        size := Just(n);
      } else if flag == ARRAY16 {
        SafeIncrement();
        var n := ReadNumber(2);
        size := Just(n);
      } else if FIXARRAY <= flag <= FIXARRAY_END {
        SafeIncrement();
        size := Just(flag % 16);
      } else {
        size := Nothing;
      }
    }

    method ReadBytes(n: nat) returns (s: seq<byte>)
      requires Valid()
      modifies this`pos, this`ec
      ensures Valid() && (Cur(), s) == TakeBytes(old(Cur()), n)
    {
      if pos + n <= |data| {
        s := data[pos..pos + n];
        assert data[pos..][..n] == s && data[pos..][n..] == data[pos + n..];
        pos := pos + n;
      } else {
        s := [];
        ec := OutOfRange;
      }
    }

    method UnpackStr() returns (s: seq<byte>)
      requires Valid()
      modifies this`pos, this`ec
      ensures Valid() && (Cur(), s) == RdStr(old(Cur()))
    {
      hide TakeNumber, TakeBytes;
      var flag := SafeData();
      var size: nat;
      SafeIncrement();
      if flag == STR32 { size := ReadNumber(4); }
      else if flag == STR16 { size := ReadNumber(2); }
      else if flag == STR8 { size := ReadNumber(1); }
      else { size := flag % 16; }
      assert (Cur(), size) == RdStrSize(old(Cur()));
      s := ReadBytes(size);
    }

    method UnpackBin() returns (s: seq<byte>)
      requires Valid()
      modifies this`pos, this`ec
      ensures Valid() && (Cur(), s) == RdBin(old(Cur()))
    {
      hide TakeNumber, TakeBytes;
      var flag := SafeData();
      var size: nat;
      SafeIncrement();
      if flag == BIN32 { size := ReadNumber(4); }
      else if flag == BIN16 { size := ReadNumber(2); }
      else { size := ReadNumber(1); }
      assert (Cur(), size) == RdBinSize(old(Cur()));
      s := ReadBytes(size);
    }

    /** Reading into a float or a double that is zero before. */
    method UnpackFloat(wide: bool) returns (x: Float)
      requires Valid()
      modifies this`pos, this`ec
      ensures Valid() && (Cur(), x) == RdFloat(wide, old(Cur()))
    {
      hide TakeNumber, RdInt, RdUint, ReadBits, FromInt;
      UintRange(Cur());
      TouchedTwice(Cur());
      var flag := SafeData();
      if flag == FloatMarker(wide) {
        SafeIncrement();
        var bits := ReadNumber(FloatSize(wide));
        x := FromBits(wide, bits);
      } else if flag == INT8 || flag == INT16 || flag == INT32 || flag == INT64 {
        var v: int := UnpackInt64();
        x := FromInt(wide, v);
      } else {
        var v := UnpackUint64(0);
        x := FromInt(wide, v);
      }
    }

    method UnpackItem(k: Kind) returns (x: Item)
      requires Valid()
      modifies this`pos, this`ec
      ensures Valid() && (Cur(), x) == RdItem(k, old(Cur()))
    {
      hide RdInt, RdStr, RdBool, RdFloat;
      match k
      case BoolKind =>
        var b := UnpackBool(false);
        x := BoolItem(b);
      case IntKind =>
        var i := UnpackInt64();
        x := IntItem(i);
      case StrKind =>
        var s := UnpackStr();
        x := StrItem(s);
      case FloatKind(wide) =>
        var f := UnpackFloat(wide);
        x := FloatItem(wide, f);
    }

    /** unpack_array after its size. */
    method ReadItems(k: Kind, size: nat) returns (xs: seq<Item>)
      requires Valid()
      modifies this`pos, this`ec
      ensures Valid() && (Cur(), xs) == RdItems(k, old(Cur()), size)
    {
      hide RdItems, RdItem;
      ghost var whole := RdItems(k, Cur(), size);
      xs := [];
      assert xs + whole.1 == whole.1;
      for i := 0 to size
        invariant Valid()
        invariant whole == Onto(xs, RdItems(k, Cur(), size - i))
      {
        TakeItem(k, Cur(), size - i, xs);
        var x := UnpackItem(k);
        xs := xs + [x];
      }
      TakeNoItem(k, Cur(), xs);
    }

    /** unpack_array */
    method UnpackArray(k: Kind) returns (xs: seq<Item>)
      requires Valid()
      modifies this`pos, this`ec
      ensures Valid() && (Cur(), xs) == RdArray(k, old(Cur()))
    {
      hide TakeNumber, RdItem, RdItems;
      var flag := SafeData();
      var size: nat;
      SafeIncrement();
      if flag == ARRAY32 { size := ReadNumber(4); }
      else if flag == ARRAY16 { size := ReadNumber(2); }
      else { size := flag % 16; }
      assert (Cur(), size) == RdArraySize(old(Cur()));
      xs := ReadItems(k, size);
    }
  }
}
