/** What the unpacker reads back from what the packer wrote: the formats are self-delimiting. */
module MsgPackLaws {
  import opened Maybes
  import opened Bytes
  import opened Floats
  import opened MsgPackFormat

  /** A cursor that stands before the bytes of e, with more bytes behind them and no error so far. */
  ghost predicate Before(c: Cursor, e: seq<byte>, more: seq<byte>) {
    c.rest == e + more && !c.past && c.ec == NoError
  }

  /** The cursor behind exactly those bytes. */
  function After(more: seq<byte>): Cursor {
    Cursor(more, false, NoError)
  }

  lemma StepBefore(c: Cursor, b: byte, e: seq<byte>, more: seq<byte>)
    requires Before(c, [b] + e, more)
    ensures Peek(c) == b && Touch(c) == c && Step(c) == After(e + more)
  {
    assert c.rest == [b] + (e + more);
  }

  lemma {:induction false} TakeBigEndian(c: Cursor, v: nat, width: nat, more: seq<byte>)
    requires Before(c, BigEndian(v, width), more)
    ensures TakeNumber(c, width) == (After(more), v % Pow256(width))
    decreases width
  {
    if width > 0 {
      var e := BigEndian(v, width - 1);
      StepBefore(c, v / Pow256(width - 1) % 256, e, more);
      TakeBigEndian(Step(c), v, width - 1, more);
      TopByte(v, Pow256(width - 1));
    } else {
      assert c.rest == more;
    }
  }

  /** A marker followed by a number of the given width. */
  lemma TakeMarked(c: Cursor, marker: byte, v: nat, width: nat, more: seq<byte>)
    requires Before(c, [marker] + BigEndian(v, width), more) && v < Pow256(width)
    ensures Peek(c) == marker && Touch(c) == c
    ensures TakeNumber(Step(c), width) == (After(more), v)
  {
    StepBefore(c, marker, BigEndian(v, width), more);
    TakeBigEndian(Step(c), v, width, more);
    SmallRemainder(v, Pow256(width), 0);
  }

  lemma SignedLow(v: int, width: nat)
    requires 0 <= 2 * v + Pow256(width) < 2 * Pow256(width)
    ensures Low(v, width) < Pow256(width) && Signed(Low(v, width), width) == v
  {
    var p := Pow256(width);
    if v >= 0 { SmallRemainder(v, p, 0); } else { SmallRemainder(v + p, p, -1); }
  }

  lemma TakeMarkedSigned(c: Cursor, marker: byte, v: int, width: nat, more: seq<byte>)
    requires 0 <= 2 * v + Pow256(width) < 2 * Pow256(width)
    requires Before(c, [marker] + BigEndian(Low(v, width), width), more)
    ensures Peek(c) == marker && Touch(c) == c
    ensures TakeSigned(Step(c), width) == (After(more), v)
  {
    SignedLow(v, width);
    TakeMarked(c, marker, Low(v, width), width, more);
  }

  /** Signed integers: every 64-bit value. */
  lemma IntRoundTrip(c: Cursor, v: int64, more: seq<byte>)
    requires Before(c, EncInt(v), more)
    ensures RdInt(c) == (After(more), v)
  {
    Widths();
    if -32 <= v <= 31 {
      assert Low(v, 1) == v % 256;
      assert BigEndian(v % 256, 1) == [v % 256];
      SignedLow(v, 1);
      StepBefore(c, v % 256, [], more);
      TakeBigEndian(c, v % 256, 1, more);
    } else if Abs(v) < 0x80 {
      assert BigEndian(v % 256, 1) == [v % 256];
      TakeMarkedSigned(c, INT8, v, 1, more);
    } else if Abs(v) < 0x8000 {
      TakeMarkedSigned(c, INT16, v, 2, more);
    } else if Abs(v) < 0x8000_0000 {
      TakeMarkedSigned(c, INT32, v, 4, more);
    } else {
      TakeMarkedSigned(c, INT64, v, 8, more);
    }
  }

  /** Unsigned integers. */
  lemma UintRoundTrip(c: Cursor, v: uint64, more: seq<byte>)
    requires Before(c, EncUint(v), more)
    ensures RdUint(c) == (After(more), v)
  {
    Widths();
    if v < 0x80 {
      assert BigEndian(v, 1) == [v];
      StepBefore(c, v, [], more);
      TakeBigEndian(c, v, 1, more);
    } else if v < 0x100 {
      assert BigEndian(v, 1) == [v];
      TakeMarked(c, UINT8, v, 1, more);
    } else if v < 0x1_0000 {
      TakeMarked(c, UINT16, v, 2, more);
    } else if v < 0x1_0000_0000 {
      TakeMarked(c, UINT32, v, 4, more);
    } else {
      TakeMarked(c, UINT64, v, 8, more);
    }
  }

  lemma Uint8RoundTrip(c: Cursor, v: uint8, more: seq<byte>)
    requires Before(c, EncUint(v), more)
    ensures RdUint8(c) == (After(more), v)
  {
    Widths();
    assert BigEndian(v, 1) == [v];
    if v < 0x80 {
      StepBefore(c, v, [], more);
      TakeBigEndian(c, v, 1, more);
    } else {
      TakeMarked(c, UINT8, v, 1, more);
    }
  }

  lemma BoolRoundTrip(c: Cursor, b: bool, was: bool, more: seq<byte>)
    requires Before(c, EncBool(b), more)
    ensures RdBool(c, was) == (After(more), b)
  {
    StepBefore(c, if b then TRUE_BOOL else FALSE_BOOL, [], more);
  }

  // ------------------------------------------------------------ floating-point numbers

  /** The numbers that survive: whole ones of 24 bits except those from -1 to -32 and the negative zero, and others
      from one on. */
  predicate FloatFits(wide: bool, x: Float) {
    FloatSized(wide, x) &&
    if IsZero(x) then !x.negative
    else if Integral(wide, x) then (wide ==> FewBits(x)) && !(x.negative && Magnitude(wide, x) <= 32)
    else x.exponent >= Bias(wide)
  }

  /** The bytes of an integer as a floating-point number reads them. */
  function ReadAs(v: int): int {
    if -32 <= v < 0 then v + 256 else v
  }

  lemma WholeRead(wide: bool, c: Cursor, v: int64, more: seq<byte>)
    requires Before(c, EncInt(v), more)
    ensures RdFloat(wide, c) == (After(more), FromInt(wide, ReadAs(v)))
  {
    hide RdInt, RdUint, FromInt;
    Widths();
    if -32 <= v <= 31 {
      StepBefore(c, v % 256, [], more);
      ByteRead(c, v % 256, more);
    } else {
      IntRoundTrip(c, v, more);
      assert c.rest[0] == EncInt(v)[0];
    }
  }

  /** A bare byte that is no marker. */
  lemma ByteRead(c: Cursor, b: byte, more: seq<byte>)
    requires Before(c, [b], more) && (b < 0x80 || b >= 0xe0)
    ensures RdUint(c) == (After(more), b)
  {
    Widths();
    assert BigEndian(b, 1) == [b];
    StepBefore(c, b, [], more);
    TakeBigEndian(c, b, 1, more);
  }

  /** What is read is the number that was written exactly under that condition, and then the cursor is behind it. */
  lemma FloatRead(wide: bool, c: Cursor, x: Float, more: seq<byte>)
    requires FloatSized(wide, x) && Before(c, EncFloat(wide, x), more)
    ensures RdFloat(wide, c).1 == x <==> FloatFits(wide, x)
    ensures FloatFits(wide, x) ==> RdFloat(wide, c).0 == After(more)
  {
    hide RdInt, RdUint, EncInt, Integral, Magnitude, ReadBits, PackedBits, FromInt, Whole, BigEndian, TakeNumber;
    Widths();
    if Integral(wide, x) {
      MagnitudeRange(wide, x);
      WholeRange(wide, x);
      WholeRead(wide, c, Whole(wide, x), more);
      WholeFitsIff(wide, x);
    } else {
      PackedRange(wide, x);
      TakeMarked(c, FloatMarker(wide), PackedBits(wide, x), FloatSize(wide), more);
      BitsThereAndBackIff(wide, x);
      assert !IsZero(x) by { ZeroIsIntegral(wide, x); }
    }
  }

  lemma ZeroIsIntegral(wide: bool, x: Float)
    ensures IsZero(x) ==> Integral(wide, x)
  {
  }

  lemma WholeRange(wide: bool, x: Float)
    requires Magnitude(wide, x) < 0x8000_0000_0000_0000
    ensures -0x8000_0000_0000_0000 < Whole(wide, x) < 0x8000_0000_0000_0000
  {
    hide Magnitude;
  }

  lemma WholeFitsIff(wide: bool, x: Float)
    requires FloatSized(wide, x) && Integral(wide, x)
    ensures FromInt(wide, ReadAs(Whole(wide, x))) == x <==> FloatFits(wide, x)
  {
    hide Integral, Magnitude, FromInt;
    MagnitudeRange(wide, x);
    if IsZero(x) {
      ZeroRead(wide);
    } else if -32 <= Whole(wide, x) < 0 {
      NotNegative(wide, ReadAs(Whole(wide, x)));
    } else {
      WholeThereAndBackIff(wide, x);
    }
  }

  lemma ZeroRead(wide: bool)
    ensures FromInt(wide, 0) == ZERO
  {
  }

  lemma NotNegative(wide: bool, v: int)
    requires v >= 0
    ensures !FromInt(wide, v).negative
  {
  }

  /** What is below one in size is not zero, but is read as infinite. */
  lemma SmallBecomesInfinite(wide: bool, c: Cursor, x: Float, more: seq<byte>)
    requires IsFloat(wide, x) && 0 < x.exponent < Bias(wide) && Before(c, EncFloat(wide, x), more)
    ensures RdFloat(wide, c) == (After(more), Infinity(wide, x.negative))
  {
    hide BigEndian, TakeNumber, Divides, PackedBits, RdInt, RdUint;
    Widths();
    PackedRange(wide, x);
    TakeMarked(c, FloatMarker(wide), PackedBits(wide, x), FloatSize(wide), more);
    NormalBits(wide, x);
    SplitBits(wide, (if x.negative then Exponents(wide) else 0) + x.exponent, x.fraction);
    SignAndExponent(wide, x.negative, x.exponent);
  }

  ghost predicate FloatComesBack(wide: bool, x: Float) {
    forall c: Cursor, more: seq<byte> :: Before(c, EncFloat(wide, x), more) ==> RdFloat(wide, c) == (After(more), x)
  }

  /** A number for which packing is defined is read back in every context exactly under that condition. */
  lemma FloatComesBackIff(wide: bool, x: Float)
    requires FloatSized(wide, x)
    ensures FloatComesBack(wide, x) <==> FloatFits(wide, x)
  {
    hide RdFloat, FloatFits, EncFloat;
    if FloatFits(wide, x) {
      forall c: Cursor, more: seq<byte> | Before(c, EncFloat(wide, x), more) ensures RdFloat(wide, c) == (After(more), x) {
        FloatRead(wide, c, x, more);
      }
    } else {
      var c := After(EncFloat(wide, x));
      assert EncFloat(wide, x) + [] == EncFloat(wide, x);
      assert Before(c, EncFloat(wide, x), []);
      FloatRead(wide, c, x, []);
    }
  }

  /** Bytes taken by count. */
  lemma TakeExactly(c: Cursor, s: seq<byte>, more: seq<byte>)
    requires c == After(s + more)
    ensures TakeBytes(c, |s|) == (After(more), s)
  {
    assert (s + more)[|s|..] == more && (s + more)[..|s|] == s;
  }

  lemma TakeSized(c: Cursor, marker: byte, width: nat, s: seq<byte>, more: seq<byte>)
    requires |s| < Pow256(width)
    requires Before(c, [marker] + BigEndian(|s|, width) + s, more)
    ensures Peek(c) == marker && Touch(c) == c
    ensures TakeNumber(Step(c), width) == (After(s + more), |s|)
    ensures TakeBytes(After(s + more), |s|) == (After(more), s)
  {
    hide BigEndian, TakeNumber, TakeBytes, Pow256;
    Regroup([marker] + BigEndian(|s|, width), s, more);
    TakeMarked(c, marker, |s|, width, s + more);
    TakeExactly(After(s + more), s, more);
  }

  /** The lengths for which a string survives. */
  predicate StrFits(s: seq<byte>) {
    |s| < 16 || 32 <= |s| < SIZE_LIMIT
  }

  lemma StrRoundTrip(c: Cursor, s: seq<byte>, more: seq<byte>)
    requires StrFits(s) && Before(c, EncStr(s), more)
    ensures RdStr(c) == (After(more), s)
  {
    Widths();
    if |s| < 32 {
      StepBefore(c, FIXSTR + |s|, s, more);
      TakeExactly(Step(c), s, more);
    } else if |s| < 0xFF {
      TakeSized(c, STR8, 1, s, more);
    } else if |s| < 0xFFFF {
      TakeSized(c, STR16, 2, s, more);
    } else {
      TakeSized(c, STR32, 4, s, more);
    }
  }

  /** Lengths 16 to 31: the fifth length bit is lost, so the string comes back without its last sixteen
      bytes, which stay in front of whatever follows. */
  lemma StrCut(c: Cursor, s: seq<byte>, more: seq<byte>)
    requires 16 <= |s| < 32 && Before(c, EncStr(s), more)
    ensures RdStr(c) == (After(s[|s| - 16..] + more), s[..|s| - 16])
  {
    StepBefore(c, FIXSTR + |s|, s, more);
    var kept, left := s[..|s| - 16], s[|s| - 16..];
    assert s + more == kept + (left + more);
    TakeExactly(Step(c), kept, left + more);
  }

  ghost predicate StrComesBack(s: seq<byte>) {
    forall c: Cursor, more: seq<byte> :: Before(c, EncStr(s), more) ==> RdStr(c) == (After(more), s)
  }

  /** A string is read back whole in every context exactly for these lengths. */
  lemma StrComesBackIff(s: seq<byte>)
    ensures StrComesBack(s) <==> StrFits(s)
  {
    if StrFits(s) {
      forall c: Cursor, more: seq<byte> | Before(c, EncStr(s), more)
        ensures RdStr(c) == (After(more), s)
      {
        StrRoundTrip(c, s, more);
      }
    } else {
      var c := After(EncStr(s));
      assert EncStr(s) + [] == EncStr(s);
      assert Before(c, EncStr(s), []);
      if |s| < 32 {
        StrCut(c, s, []);
        assert |RdStr(c).1| == |s| - 16;
      } else {
        assert EncStr(s) == [];
        assert RdStr(c).1 == [];
      }
    }
  }

  lemma BinRoundTrip(c: Cursor, s: seq<byte>, more: seq<byte>)
    requires |s| < SIZE_LIMIT && Before(c, EncBin(s), more)
    ensures RdBin(c) == (After(more), s)
  {
    Widths();
    if |s| < 0xFF {
      TakeSized(c, BIN8, 1, s, more);
    } else if |s| < 0xFFFF {
      TakeSized(c, BIN16, 2, s, more);
    } else {
      TakeSized(c, BIN32, 4, s, more);
    }
  }

  // ------------------------------------------------------------ arrays

  /** The sizes whose header is recognised by unpack_array_header. */
  predicate HeaderFits(n: nat) {
    n <= 10 || 16 <= n < SIZE_LIMIT
  }

  lemma HeaderRoundTrip(c: Cursor, n: nat, more: seq<byte>)
    requires HeaderFits(n) && Before(c, EncArrayHeader(n), more)
    ensures RdArrayHeader(c) == (After(more), Just(n))
  {
    Widths();
    if n < 16 {
      StepBefore(c, FIXARRAY + n, [], more);
      assert [] + more == more;
    } else if n < 0xFFFF {
      TakeMarked(c, ARRAY16, n, 2, more);
    } else {
      TakeMarked(c, ARRAY32, n, 4, more);
    }
  }

  ghost predicate HeaderComesBack(n: nat) {
    forall c: Cursor, more: seq<byte> :: Before(c, EncArrayHeader(n), more) ==> RdArrayHeader(c) == (After(more), Just(n))
  }

  /** Headers of 11 to 15 elements are written but not recognised. */
  lemma HeaderComesBackIff(n: nat)
    ensures HeaderComesBack(n) <==> HeaderFits(n)
  {
    if HeaderFits(n) {
      forall c: Cursor, more: seq<byte> | Before(c, EncArrayHeader(n), more)
        ensures RdArrayHeader(c) == (After(more), Just(n))
      {
        HeaderRoundTrip(c, n, more);
      }
    } else {
      var c := After(EncArrayHeader(n));
      assert EncArrayHeader(n) + [] == EncArrayHeader(n);
      assert Before(c, EncArrayHeader(n), []);
      assert RdArrayHeader(c).1 == Nothing;
    }
  }

  predicate ItemFits(x: Item) {
    match x
    case StrItem(s) => StrFits(s)
    case FloatItem(wide, f) => FloatFits(wide, f)
    case _ => true
  }

  predicate ItemsFit(k: Kind, xs: seq<Item>) {
    forall x | x in xs :: KindOf(x) == k && ItemFits(x)
  }

  lemma ItemRoundTrip(k: Kind, c: Cursor, x: Item, more: seq<byte>)
    requires KindOf(x) == k && ItemFits(x) && Before(c, EncItem(x), more)
    ensures RdItem(k, c) == (After(more), x)
  {
    match x
    case BoolItem(b) => BoolRoundTrip(c, b, false, more);
    case IntItem(i) => IntRoundTrip(c, i, more);
    case StrItem(s) => StrRoundTrip(c, s, more);
    case FloatItem(wide, f) => FloatRead(wide, c, f, more);
  }

  lemma {:induction false} ItemsRoundTrip(k: Kind, c: Cursor, xs: seq<Item>, more: seq<byte>)
    requires ItemsFit(k, xs) && Before(c, EncItems(xs), more)
    ensures RdItems(k, c, |xs|) == (After(more), xs)
    decreases |xs|
  {
    hide EncItem, RdItem, ItemFits;
    if |xs| == 0 {
      assert c.rest == more;
    } else {
      var behind := EncItems(xs[1..]) + more;
      Regroup(EncItem(xs[0]), EncItems(xs[1..]), more);
      ItemRoundTrip(k, c, xs[0], behind);
      ItemsRoundTrip(k, After(behind), xs[1..], more);
      assert [xs[0]] + xs[1..] == xs;
    }
  }

  lemma ArraySizeRoundTrip(c: Cursor, n: nat, more: seq<byte>)
    requires n < SIZE_LIMIT && Before(c, EncArrayHeader(n), more)
    ensures RdArraySize(c) == (After(more), n)
  {
    Widths();
    if n < 16 {
      StepBefore(c, FIXARRAY + n, [], more);
      assert [] + more == more;
    } else if n < 0xFFFF {
      TakeMarked(c, ARRAY16, n, 2, more);
    } else {
      TakeMarked(c, ARRAY32, n, 4, more);
    }
  }

  /** Vectors of every size below the limit, with the size in the low four bits up to 15. */
  lemma ArrayRoundTrip(k: Kind, c: Cursor, xs: seq<Item>, more: seq<byte>)
    requires |xs| < SIZE_LIMIT && ItemsFit(k, xs) && Before(c, EncArray(xs), more)
    ensures RdArray(k, c) == (After(more), xs)
  {
    hide RdArraySize, EncArrayHeader, RdItems, EncItems;
    var behind := EncItems(xs) + more;
    Regroup(EncArrayHeader(|xs|), EncItems(xs), more);
    ArraySizeRoundTrip(c, |xs|, behind);
    ItemsRoundTrip(k, After(behind), xs, more);
  }
}
