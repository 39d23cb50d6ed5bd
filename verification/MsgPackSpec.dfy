/** The formats of the MessagePack specification, and what packer and unpacker make of them: the packer writes what
    the specification says, and the unpacker reads integers as it says, but for these bytes. */
module MsgPackSpec {
  import opened Maybes
  import opened Bytes
  import opened Floats
  import opened MsgPackFormat
  import opened MsgPackLaws
  import opened NtValues
  import opened NtRecords

  // ------------------------------------------------------------ the specification

  /** One value, as the specification has it: an array is its size, its elements follow. */
  datatype Format =
    | Integer(v: int)
    | Boolean(truth: bool)
    | Text(s: seq<byte>)
    | Binary(b: seq<byte>)
    | Number(wide: bool, bits: nat)
    | ArrayOf(size: nat)

  function Word(b: seq<byte>, at: nat, width: nat): nat
    requires at + width <= |b|
  {
    FromBigEndian(b[at..at + width])
  }

  function Sign(v: nat, width: nat): int {
    if 2 * v < Pow256(width) then v else v - Pow256(width)
  }

  /** An integer: the value and how many bytes it takes. */
  function IntegerAt(b: seq<byte>): Maybe<(int, nat)> {
    if b == [] then Nothing
    else if b[0] < 0x80 || b[0] >= 0xe0 then Just((Sign(b[0], 1), 1))
    else if b[0] == 0xcc && |b| > 1 then Just((Word(b, 1, 1), 2))
    else if b[0] == 0xcd && |b| > 2 then Just((Word(b, 1, 2), 3))
    else if b[0] == 0xce && |b| > 4 then Just((Word(b, 1, 4), 5))
    else if b[0] == 0xcf && |b| > 8 then Just((Word(b, 1, 8), 9))
    else if b[0] == 0xd0 && |b| > 1 then Just((Sign(Word(b, 1, 1), 1), 2))
    else if b[0] == 0xd1 && |b| > 2 then Just((Sign(Word(b, 1, 2), 2), 3))
    else if b[0] == 0xd2 && |b| > 4 then Just((Sign(Word(b, 1, 4), 4), 5))
    else if b[0] == 0xd3 && |b| > 8 then Just((Sign(Word(b, 1, 8), 8), 9))
    else Nothing
  }

  /** So many bytes behind a size. */
  function Cut(b: seq<byte>, at: nat, size: nat): Maybe<(seq<byte>, nat)> {
    if at + size <= |b| then Just((b[at..at + size], at + size)) else Nothing
  }

  function TextAt(b: seq<byte>): Maybe<(seq<byte>, nat)> {
    if b == [] then Nothing
    else if 0xa0 <= b[0] < 0xc0 then Cut(b, 1, b[0] - 0xa0)
    else if b[0] == 0xd9 && |b| > 1 then Cut(b, 2, Word(b, 1, 1))
    else if b[0] == 0xda && |b| > 2 then Cut(b, 3, Word(b, 1, 2))
    else if b[0] == 0xdb && |b| > 4 then Cut(b, 5, Word(b, 1, 4))
    else Nothing
  }

  function BinaryAt(b: seq<byte>): Maybe<(seq<byte>, nat)> {
    if b == [] then Nothing
    else if b[0] == 0xc4 && |b| > 1 then Cut(b, 2, Word(b, 1, 1))
    else if b[0] == 0xc5 && |b| > 2 then Cut(b, 3, Word(b, 1, 2))
    else if b[0] == 0xc6 && |b| > 4 then Cut(b, 5, Word(b, 1, 4))
    else Nothing
  }

  function ArrayAt(b: seq<byte>): Maybe<(nat, nat)> {
    if b == [] then Nothing
    else if 0x90 <= b[0] < 0xa0 then Just((b[0] - 0x90, 1))
    else if b[0] == 0xdc && |b| > 2 then Just((Word(b, 1, 2), 3))
    else if b[0] == 0xdd && |b| > 4 then Just((Word(b, 1, 4), 5))
    else Nothing
  }

  /** Any value, by the first byte. */
  function FormatAt(b: seq<byte>): Maybe<(Format, nat)> {
    if b == [] then Nothing
    else if b[0] == 0xc2 then Just((Boolean(false), 1))
    else if b[0] == 0xc3 then Just((Boolean(true), 1))
    else if b[0] == 0xca && |b| > 4 then Just((Number(false, Word(b, 1, 4)), 5))
    else if b[0] == 0xcb && |b| > 8 then Just((Number(true, Word(b, 1, 8)), 9))
    else
      match (IntegerAt(b), TextAt(b), BinaryAt(b), ArrayAt(b))
      case (Just((v, k)), _, _, _) => Just((Integer(v), k))
      case (_, Just((s, k)), _, _) => Just((Text(s), k))
      case (_, _, Just((s, k)), _) => Just((Binary(s), k))
      case (_, _, _, Just((n, k))) => Just((ArrayOf(n), k))
      case _ => Nothing
  }

  // ------------------------------------------------------------ the packer

  lemma MarkedWord(b: byte, v: nat, width: nat, more: seq<byte>)
    requires v < Pow256(width)
    ensures var e := [b] + BigEndian(v, width) + more; |e| >= 1 + width && e[0] == b && Word(e, 1, width) == v && e[1 + width..] == more
  {
    BigEndianRoundTrip(v, width);
    SmallRemainder(v, Pow256(width), 0);
    var e := [b] + BigEndian(v, width) + more;
    assert e[1..1 + width] == BigEndian(v, width);
  }

  lemma SignOfLow(v: int, width: nat)
    requires 0 <= 2 * v + Pow256(width) < 2 * Pow256(width)
    ensures Low(v, width) < Pow256(width) && Sign(Low(v, width), width) == v
  {
    SignedLow(v, width);
  }

  /** Every integer the packer writes is that integer to any conforming reader. */
  lemma PackedInteger(v: int64, more: seq<byte>)
    ensures IntegerAt(EncInt(v) + more) == Just((v, |EncInt(v)|))
  {
    hide BigEndian, FromBigEndian, Word;
    Widths();
    if -32 <= v <= 31 {
      assert (EncInt(v) + more)[0] == v % 256;
      SignOfLow(v, 1);
    } else if Abs(v) < 0x80 {
      SignOfLow(v, 1);
      OneByte(v % 256);
      assert EncInt(v) == [0xd0] + [v % 256];
      MarkedWord(0xd0, v % 256, 1, more);
    } else if Abs(v) < 0x8000 {
      SignOfLow(v, 2);
      MarkedWord(0xd1, Low(v, 2), 2, more);
    } else if Abs(v) < 0x8000_0000 {
      SignOfLow(v, 4);
      MarkedWord(0xd2, Low(v, 4), 4, more);
    } else {
      SignOfLow(v, 8);
      MarkedWord(0xd3, Low(v, 8), 8, more);
    }
  }

  lemma OneByte(b: byte)
    ensures BigEndian(b, 1) == [b]
  {
    assert Pow256(0) == 1;
    assert b / 1 % 256 == b;
    assert BigEndian(b, 0) == [];
  }

  lemma PackedUnsigned(v: uint64, more: seq<byte>)
    ensures IntegerAt(EncUint(v) + more) == Just((v, |EncUint(v)|))
  {
    hide BigEndian, FromBigEndian, Word;
    Widths();
    if v < 0x80 {
      assert (EncUint(v) + more)[0] == v;
    } else if v < 0x100 {
      OneByte(v);
      assert EncUint(v) == [0xcc] + [v];
      MarkedWord(0xcc, v, 1, more);
    } else if v < 0x1_0000 {
      MarkedWord(0xcd, v, 2, more);
    } else if v < 0x1_0000_0000 {
      MarkedWord(0xce, v, 4, more);
    } else {
      MarkedWord(0xcf, v, 8, more);
    }
  }

  lemma MarkedBytes(b: byte, width: nat, s: seq<byte>, more: seq<byte>)
    requires |s| < Pow256(width)
    ensures var e := [b] + BigEndian(|s|, width) + s + more;
            |e| >= 1 + width + |s| && e[0] == b && Word(e, 1, width) == |s| && e[1 + width..1 + width + |s|] == s
  {
    hide BigEndian, Word;
    Regroup([b] + BigEndian(|s|, width), s, more);
    MarkedWord(b, |s|, width, s + more);
    var e := [b] + BigEndian(|s|, width) + (s + more);
    assert e[1 + width..] == s + more;
    assert e[1 + width..][..|s|] == s;
  }

  /** Every string below the limit is that string, also of the lengths that the unpacker of the program cuts. */
  lemma PackedText(s: seq<byte>, more: seq<byte>)
    requires |s| < SIZE_LIMIT
    ensures TextAt(EncStr(s) + more) == Just((s, |EncStr(s)|))
  {
    hide BigEndian, FromBigEndian, Word;
    Widths();
    if |s| < 32 {
      var e := [0xa0 + |s|] + s + more;
      assert e[0] == 0xa0 + |s| && e[1..1 + |s|] == s;
    } else if |s| < 0xFF {
      MarkedBytes(0xd9, 1, s, more);
    } else if |s| < 0xFFFF {
      MarkedBytes(0xda, 2, s, more);
    } else {
      MarkedBytes(0xdb, 4, s, more);
    }
  }

  lemma PackedBinary(s: seq<byte>, more: seq<byte>)
    requires |s| < SIZE_LIMIT
    ensures BinaryAt(EncBin(s) + more) == Just((s, |EncBin(s)|))
  {
    hide BigEndian, FromBigEndian, Word;
    Widths();
    if |s| < 0xFF {
      MarkedBytes(0xc4, 1, s, more);
    } else if |s| < 0xFFFF {
      MarkedBytes(0xc5, 2, s, more);
    } else {
      MarkedBytes(0xc6, 4, s, more);
    }
  }

  lemma PackedArray(n: nat, more: seq<byte>)
    requires n < SIZE_LIMIT
    ensures ArrayAt(EncArrayHeader(n) + more) == Just((n, |EncArrayHeader(n)|))
  {
    hide BigEndian, FromBigEndian, Word;
    Widths();
    if n < 16 {
      assert (EncArrayHeader(n) + more)[0] == 0x90 + n;
    } else if n < 0xFFFF {
      MarkedWord(0xdc, n, 2, more);
    } else {
      MarkedWord(0xdd, n, 4, more);
    }
  }

  /** What a value is to a conforming reader, an array by its size. */
  function FormatOf(v: NTValue): Format
    requires v.FloatV? ==> IsFloat(v.wide, v.x)
  {
    match v
    case BoolV(b) => Boolean(b)
    case FloatV(w, x) => if Integral(w, x) then Integer(Whole(w, x)) else Number(w, PackedBits(w, x))
    case IntV(i) => Integer(i)
    case UIntV(u) => Integer(u)
    case StrV(_, s) => Text(s)
    case BinV(_, b) => Binary(b)
    case ArrayV(_, xs) => ArrayOf(|xs|)
    case OtherV(_) => Boolean(false)
  }

  predicate Packs(v: NTValue) {
    match v
    case FloatV(w, x) => FloatSized(w, x)
    case StrV(_, s) => |s| < SIZE_LIMIT
    case BinV(_, b) => |b| < SIZE_LIMIT
    case ArrayV(_, xs) => |xs| < SIZE_LIMIT
    case _ => Known(TypeOf(v))
  }

  /** The packer writes every value as the specification has it. */
  lemma PackedAsSpecified(v: NTValue, more: seq<byte>)
    requires Packs(v)
    ensures FormatAt(Pack(v) + more).Just? && FormatAt(Pack(v) + more).value.0 == FormatOf(v)
    ensures !v.ArrayV? ==> FormatAt(Pack(v) + more).value.1 == |Pack(v)|
  {
    hide BigEndian, FromBigEndian, Word, IntegerAt, TextAt, BinaryAt, ArrayAt, EncInt, EncUint, EncStr, EncBin, EncArrayHeader, EncItems,
         Integral, Magnitude, PackedBits;
    match v {
      case BoolV(b) =>
      case FloatV(w, x) => PackedFloat(w, x, more);
      case IntV(i) =>
        PackedInteger(i, more);
        ByFirstByte(EncInt(i) + more);
      case UIntV(u) =>
        PackedUnsigned(u, more);
        ByFirstByte(EncUint(u) + more);
      case StrV(_, s) =>
        PackedText(s, more);
        ByFirstByte(EncStr(s) + more);
      case BinV(_, b) =>
        PackedBinary(b, more);
        ByFirstByte(EncBin(b) + more);
      case ArrayV(_, xs) =>
        Regroup(EncArrayHeader(|xs|), EncItems(xs), more);
        PackedArray(|xs|, EncItems(xs) + more);
        ByFirstByte(EncArrayHeader(|xs|) + (EncItems(xs) + more));
    }
  }

  /** The formats differ in their first byte. */
  lemma ByFirstByte(b: seq<byte>)
    ensures IntegerAt(b).Just? ==> FormatAt(b) == Just((Integer(IntegerAt(b).value.0), IntegerAt(b).value.1))
    ensures TextAt(b).Just? ==> FormatAt(b) == Just((Text(TextAt(b).value.0), TextAt(b).value.1))
    ensures BinaryAt(b).Just? ==> FormatAt(b) == Just((Binary(BinaryAt(b).value.0), BinaryAt(b).value.1))
    ensures ArrayAt(b).Just? ==> FormatAt(b) == Just((ArrayOf(ArrayAt(b).value.0), ArrayAt(b).value.1))
  {
    hide Word, FromBigEndian;
  }

  lemma PackedFloat(wide: bool, x: Float, more: seq<byte>)
    requires FloatSized(wide, x)
    ensures FormatAt(EncFloat(wide, x) + more) ==
            Just((if Integral(wide, x) then Integer(Whole(wide, x)) else Number(wide, PackedBits(wide, x)), |EncFloat(wide, x)|))
  {
    hide BigEndian, FromBigEndian, Word, IntegerAt, TextAt, BinaryAt, ArrayAt, EncInt, Integral, Magnitude, PackedBits;
    Widths();
    if Integral(wide, x) {
      MagnitudeRange(wide, x);
      WholeRange(wide, x);
      PackedInteger(Whole(wide, x), more);
      ByFirstByte(EncInt(Whole(wide, x)) + more);
    } else {
      PackedRange(wide, x);
      MarkedWord(FloatMarker(wide), PackedBits(wide, x), FloatSize(wide), more);
    }
  }

  // ------------------------------------------------------------ the unpacker

  lemma {:induction false} TakeIsWord(c: Cursor, width: nat)
    requires !c.past && width <= |c.rest|
    ensures TakeNumber(c, width) == (c.(rest := c.rest[width..]), FromBigEndian(c.rest[..width]))
    decreases width
  {
    if width == 0 {
    } else {
      var d := Step(Touch(c));
      TakeIsWord(d, width - 1);
      assert c.rest[..width] == [c.rest[0]] + d.rest[..width - 1];
      assert c.rest[..width][1..] == d.rest[..width - 1];
      assert d.rest[width - 1..] == c.rest[width..];
    }
  }

  lemma TakeMarkedWord(c: Cursor, width: nat)
    requires !c.past && |c.rest| > width
    ensures TakeNumber(Step(Touch(c)), width) == (c.(rest := c.rest[1 + width..]), Word(c.rest, 1, width))
  {
    var d := Step(Touch(c));
    TakeIsWord(d, width);
    assert d.rest[..width] == c.rest[1..1 + width] && d.rest[width..] == c.rest[1 + width..];
  }

  lemma TakeBare(c: Cursor)
    requires !c.past && c.rest != []
    ensures TakeNumber(c, 1) == (c.(rest := c.rest[1..]), c.rest[0])
    ensures Pow256(1) == 256
  {
    TakeIsWord(c, 1);
    Widths();
    assert c.rest[..1] == [c.rest[0]];
    assert Pow256(0) == 1;
    assert FromBigEndian([c.rest[0]]) == c.rest[0] * 1 + FromBigEndian([]);
  }

  /** Reading a signed number follows the specification on every integer, except that the widest unsigned format is
      taken for its marker alone. */
  lemma SignedAsSpecified(c: Cursor)
    requires !c.past && IntegerAt(c.rest).Just?
    ensures var (v, k) := IntegerAt(c.rest).value;
            if c.rest[0] == 0xcf then RdInt(c) == (c.(rest := c.rest[1..]), 0xcf - 0x100)
            else RdInt(c) == (c.(rest := c.rest[k..]), v)
  {
    hide TakeNumber, Word, FromBigEndian;
    var b := c.rest[0];
    TakeBare(c);
    if |c.rest| > 1 { TakeMarkedWord(c, 1); }
    if |c.rest| > 2 { TakeMarkedWord(c, 2); }
    if |c.rest| > 4 { TakeMarkedWord(c, 4); }
    if |c.rest| > 8 { TakeMarkedWord(c, 8); }
  }

  /** Reading an unsigned number follows it too, modulo 2^64, except for the bytes of -1 to -32, which are read as
      they stand. */
  lemma UnsignedAsSpecified(c: Cursor)
    requires !c.past && IntegerAt(c.rest).Just?
    ensures var (v, k) := IntegerAt(c.rest).value;
            RdUint(c) == (c.(rest := c.rest[k..]), if c.rest[0] >= 0xe0 then c.rest[0] else v % 0x1_0000_0000_0000_0000)
  {
    hide TakeNumber, Word, FromBigEndian, RdInt;
    SignedAsSpecified(c);
    TakeBare(c);
    Widths();
    if |c.rest| > 1 { TakeMarkedWord(c, 1); WordRange(c.rest, 1); }
    if |c.rest| > 2 { TakeMarkedWord(c, 2); WordRange(c.rest, 2); }
    if |c.rest| > 4 { TakeMarkedWord(c, 4); WordRange(c.rest, 4); }
    if |c.rest| > 8 { TakeMarkedWord(c, 8); WordRange(c.rest, 8); }
  }

  lemma WordRange(b: seq<byte>, width: nat)
    requires 1 + width <= |b|
    ensures Word(b, 1, width) < Pow256(width)
  {
    WordBelow(b[1..1 + width]);
  }

  lemma {:induction false} WordBelow(b: seq<byte>)
    ensures FromBigEndian(b) < Pow256(|b|)
  {
    if b == [] {
    } else {
      WordBelow(b[1..]);
      Distribute(0, b[0], Pow256(|b| - 1));
    }
  }

  /** Reading a byte: behind either of the two markers of one byte, or as it stands. */
  lemma ByteAsSpecified(c: Cursor)
    requires !c.past && |c.rest| > 1
    ensures RdUint8(c) == if c.rest[0] == 0xcc || c.rest[0] == 0xd0 then (c.(rest := c.rest[2..]), c.rest[1])
                          else (c.(rest := c.rest[1..]), c.rest[0])
  {
    hide TakeNumber;
    TakeBare(c);
    TakeBare(Step(Touch(c)));
    assert Step(Touch(c)).rest[1..] == c.rest[2..];
  }

  /** Any other byte is a signed number of one byte, whatever it is the marker of. */
  lemma OtherBytesRead(c: Cursor)
    requires !c.past && c.rest != [] && 0x80 <= c.rest[0] < 0xe0 && !(0xcc <= c.rest[0] <= 0xce) && !(0xd0 <= c.rest[0] <= 0xd3)
    ensures RdInt(c) == (c.(rest := c.rest[1..]), Sign(c.rest[0], 1))
  {
    hide TakeNumber;
    TakeBare(c);
  }

  lemma BooleanAsSpecified(c: Cursor, was: bool)
    requires !c.past && c.rest != []
    ensures var d := c.(rest := c.rest[1..]);
            RdBool(c, was) == if c.rest[0] == 0xc2 then (d, false) else if c.rest[0] == 0xc3 then (d, true) else (d.(ec := BadInput), was)
  {
  }

  /** Reading a string follows the specification but for the fifth bit of a short length. */
  lemma TextAsSpecified(c: Cursor)
    requires !c.past && TextAt(c.rest).Just?
    ensures var (s, k) := TextAt(c.rest).value;
            if 0xb0 <= c.rest[0] < 0xc0 then RdStr(c) == (c.(rest := c.rest[k - 16..]), s[..|s| - 16])
            else RdStr(c) == (c.(rest := c.rest[k..]), s)
  {
    hide RdStr;
    if 0xa0 <= c.rest[0] < 0xc0 { ShortText(c); } else { LongText(c); }
  }

  lemma ShortText(c: Cursor)
    requires !c.past && TextAt(c.rest).Just? && 0xa0 <= c.rest[0] < 0xc0
    ensures var (s, k) := TextAt(c.rest).value;
            if 0xb0 <= c.rest[0] then k >= 17 && |s| >= 16 && RdStr(c) == (c.(rest := c.rest[k - 16..]), s[..|s| - 16])
            else RdStr(c) == (c.(rest := c.rest[k..]), s)
  {
    hide TakeNumber, TakeBytes, Word, FromBigEndian;
    var (s, k) := TextAt(c.rest).value;
    TakeAfter(c, 1, |s|);
    if 0xb0 <= c.rest[0] {
      TakeAfter(c, 1, |s| - 16);
      assert s[..|s| - 16] == c.rest[1..1 + (|s| - 16)];
    }
  }

  lemma LongText(c: Cursor)
    requires !c.past && TextAt(c.rest).Just? && !(0xa0 <= c.rest[0] < 0xc0)
    ensures var (s, k) := TextAt(c.rest).value; RdStr(c) == (c.(rest := c.rest[k..]), s)
  {
    hide TakeNumber, TakeBytes, Word, FromBigEndian;
    if |c.rest| > 1 { TakeMarkedWord(c, 1); }
    if |c.rest| > 2 { TakeMarkedWord(c, 2); }
    if |c.rest| > 4 { TakeMarkedWord(c, 4); }
    var (s, k) := TextAt(c.rest).value;
    TakeAfter(c, k - |s|, |s|);
  }

  lemma TakeAfter(c: Cursor, at: nat, n: nat)
    requires !c.past && at + n <= |c.rest|
    ensures TakeBytes(c.(rest := c.rest[at..]), n) == (c.(rest := c.rest[at + n..]), c.rest[at..at + n])
  {
    assert c.rest[at..][n..] == c.rest[at + n..] && c.rest[at..][..n] == c.rest[at..at + n];
  }

  lemma BinaryAsSpecified(c: Cursor)
    requires !c.past && BinaryAt(c.rest).Just?
    ensures var (s, k) := BinaryAt(c.rest).value; RdBin(c) == (c.(rest := c.rest[k..]), s)
  {
    hide TakeNumber, TakeBytes, Word, FromBigEndian;
    if |c.rest| > 1 { TakeMarkedWord(c, 1); }
    if |c.rest| > 2 { TakeMarkedWord(c, 2); }
    if |c.rest| > 4 { TakeMarkedWord(c, 4); }
    var (s, k) := BinaryAt(c.rest).value;
    TakeAfter(c, k - |s|, |s|);
  }

  /** Reading an array header follows it but for the sizes 11 to 15. */
  lemma ArrayAsSpecified(c: Cursor)
    requires !c.past && ArrayAt(c.rest).Just?
    ensures var (n, k) := ArrayAt(c.rest).value;
            RdArraySize(c) == (c.(rest := c.rest[k..]), n) &&
            RdArrayHeader(c) == if 0x9b <= c.rest[0] < 0xa0 then (c, Nothing) else (c.(rest := c.rest[k..]), Just(n))
  {
    hide TakeNumber, Word, FromBigEndian;
    if |c.rest| > 2 { TakeMarkedWord(c, 2); }
    if |c.rest| > 4 { TakeMarkedWord(c, 4); }
  }

  /** A floating-point number is read from its own format, or from an integer; a signed marker keeps the sign. */
  lemma FloatAsSpecified(wide: bool, c: Cursor)
    requires !c.past && |c.rest| > 8
    ensures c.rest[0] == (if wide then 0xcb else 0xca) ==>
              RdFloat(wide, c) == (c.(rest := c.rest[1 + FloatSize(wide)..]), ReadBits(wide, Word(c.rest, 1, FloatSize(wide))))
    ensures IntegerAt(c.rest).Just? ==>
              var (v, k) := IntegerAt(c.rest).value;
              RdFloat(wide, c) == (c.(rest := c.rest[k..]), FromInt(wide, if c.rest[0] >= 0xe0 then c.rest[0] else v))
  {
    hide TakeNumber, Word, FromBigEndian, RdInt, RdUint, FromInt, ReadBits;
    TakeMarkedWord(c, FloatSize(wide));
    if IntegerAt(c.rest).Just? {
      SignedAsSpecified(c);
      UnsignedAsSpecified(c);
      UnsignedStays(c.rest);
    }
  }

  lemma UnsignedStays(b: seq<byte>)
    requires IntegerAt(b).Just?
    ensures b[0] < 0xd0 ==> 0 <= IntegerAt(b).value.0 < 0x1_0000_0000_0000_0000
  {
    hide FromBigEndian, Word;
    Widths();
    if |b| > 1 { WordRange(b, 1); }
    if |b| > 2 { WordRange(b, 2); }
    if |b| > 4 { WordRange(b, 4); }
    if |b| > 8 { WordRange(b, 8); }
  }

  // ------------------------------------------------------------ written in one form and read in the other

  /** An unsigned number is read as a signed one exactly up to four bytes. */
  lemma UnsignedReadSigned(c: Cursor, v: uint64, more: seq<byte>)
    requires Before(c, EncUint(v), more)
    ensures RdInt(c) == (After(more), v) <==> v < 0x1_0000_0000
    ensures v >= 0x1_0000_0000 ==> RdInt(c).1 == 0xcf - 0x100
  {
    hide IntegerAt, RdInt, BigEndian;
    PackedUnsigned(v, more);
    SignedAsSpecified(c);
    assert c.rest[|EncUint(v)|..] == more;
    assert c.rest[0] == EncUint(v)[0];
  }

  /** A signed number is read as an unsigned one modulo 2^64, except for the bytes of -1 to -32. */
  lemma SignedReadUnsigned(c: Cursor, v: int64, more: seq<byte>)
    requires Before(c, EncInt(v), more)
    ensures RdUint(c) == (After(more), if -32 <= v < 0 then v + 256 else v % 0x1_0000_0000_0000_0000)
  {
    hide IntegerAt, RdUint, EncInt;
    PackedInteger(v, more);
    UnsignedAsSpecified(c);
    FirstOfInteger(v);
    assert c.rest[|EncInt(v)|..] == more;
    assert c.rest[0] == EncInt(v)[0];
  }

  lemma FirstOfInteger(v: int64)
    ensures EncInt(v) != []
    ensures if -32 <= v < 0 then EncInt(v)[0] == v + 256 else EncInt(v)[0] < 0xe0
  {
    hide BigEndian;
  }

  /** A record whose id was packed as an unsigned number, as other writers do from 128 on. */
  lemma IdInEitherForm(c: Cursor, r: Record, more: seq<byte>)
    requires RecordFits(r) && 0 <= r.id < 0x1_0000_0000
    requires Before(c, EncArrayHeader(4) + (EncUint(r.id) + (EncUint(r.time) + (EncUint(r.code) + Pack(r.value)))), more)
    ensures RdPass(c) == Got(r.(value := Received(r.value)), After(more))
  {
    hide RdPass, RdValue, Pack, RdInt, EncUint, ReadType, Received, ValueFits, EncArrayHeader;
    if TypeOfCode(r.code) == IntT {
      IntegersOnly(r);
      IntegersArePacked(r);
    }
    var tail := EncUint(r.time) + (EncUint(r.code) + Pack(r.value)) + more;
    UnsignedReadSigned(After(EncUint(r.id) + tail), r.id, tail);
    RecordHeadWith(c, EncUint(r.id), r, more);
    ValueRoundTrip(After(Pack(r.value) + more), r.value, more);
  }
}
