/** The MessagePack byte formats written by the packer, and what the unpacker makes of any bytes. */
module MsgPackFormat {
  import opened Maybes
  import opened Bytes
  import opened Floats

  type int8 = x: int | -0x80 <= x < 0x80
  type int16 = x: int | -0x8000 <= x < 0x8000
  type int32 = x: int | -0x8000_0000 <= x < 0x8000_0000
  type int64 = x: int | -0x8000_0000_0000_0000 <= x < 0x8000_0000_0000_0000
  type uint8 = x: int | 0 <= x < 0x100
  type uint16 = x: int | 0 <= x < 0x1_0000
  type uint32 = x: int | 0 <= x < 0x1_0000_0000
  type uint64 = x: int | 0 <= x < 0x1_0000_0000_0000_0000

  const INT64_MIN: int64 := -0x8000_0000_0000_0000
  /** Sizes from here on are given up by the packer. */
  const SIZE_LIMIT: nat := 0xFFFF_FFFF

  const FIXARRAY: byte := 0x90
  const FIXARRAY_END: byte := 0x9a
  const FIXSTR: byte := 0xa0
  const FALSE_BOOL: byte := 0xc2
  const TRUE_BOOL: byte := 0xc3
  const BIN8: byte := 0xc4
  const BIN16: byte := 0xc5
  const BIN32: byte := 0xc6
  const FLOAT32: byte := 0xca
  const FLOAT64: byte := 0xcb
  const UINT8: byte := 0xcc
  const UINT16: byte := 0xcd
  const UINT32: byte := 0xce
  const UINT64: byte := 0xcf
  const INT8: byte := 0xd0
  const INT16: byte := 0xd1
  const INT32: byte := 0xd2
  const INT64: byte := 0xd3
  const STR8: byte := 0xd9
  const STR16: byte := 0xda
  const STR32: byte := 0xdb
  const ARRAY16: byte := 0xdc
  const ARRAY32: byte := 0xdd

  function Abs(v: int): nat { if v < 0 then -v else v }

  // ---------------------------------------------------------------- writing

  /** A signed number as the low bits of its two's complement. */
  function Low(v: int, width: nat): nat {
    v % Pow256(width)
  }

  /** One byte for -32..31, then a marker and 1, 2, 4 or 8 bytes. Numbers of a narrower type stop at its width;
      otherwise the limits are symmetric around zero. */
  function EncSigned(v: int, width: nat): seq<byte> {
    if -32 <= v <= 31 then [v % 256]
    else if Abs(v) < 0x80 || width == 1 then [INT8, v % 256]
    else if Abs(v) < 0x8000 || width == 2 then [INT16] + BigEndian(Low(v, 2), 2)
    else if Abs(v) < 0x8000_0000 || width == 4 then [INT32] + BigEndian(Low(v, 4), 4)
    else [INT64] + BigEndian(Low(v, 8), 8)
  }

  function EncInt(v: int): seq<byte> {
    EncSigned(v, 8)
  }

  /** The shortest of a bare byte up to 0x7f and a marker with 1, 2, 4 or 8 bytes. */
  function EncUint(v: nat): seq<byte> {
    if v < 0x80 then [v]
    else if v < 0x100 then [UINT8, v]
    else if v < 0x1_0000 then [UINT16] + BigEndian(v, 2)
    else if v < 0x1_0000_0000 then [UINT32] + BigEndian(v, 4)
    else [UINT64] + BigEndian(v, 8)
  }

  function EncBool(b: bool): seq<byte> {
    [if b then TRUE_BOOL else FALSE_BOOL]
  }

  function EncArrayHeader(size: nat): seq<byte> {
    if size < 16 then [FIXARRAY + size]
    else if size < 0xFFFF then [ARRAY16] + BigEndian(size, 2)
    else if size < SIZE_LIMIT then [ARRAY32] + BigEndian(size, 4)
    else []
  }

  function EncStr(s: seq<byte>): seq<byte> {
    if |s| < 32 then [FIXSTR + |s|] + s
    else if |s| < 0xFF then [STR8] + BigEndian(|s|, 1) + s
    else if |s| < 0xFFFF then [STR16] + BigEndian(|s|, 2) + s
    else if |s| < SIZE_LIMIT then [STR32] + BigEndian(|s|, 4) + s
    else []
  }

  function EncBin(s: seq<byte>): seq<byte> {
    if |s| < 0xFF then [BIN8] + BigEndian(|s|, 1) + s
    else if |s| < 0xFFFF then [BIN16] + BigEndian(|s|, 2) + s
    else if |s| < SIZE_LIMIT then [BIN32] + BigEndian(|s|, 4) + s
    else []
  }

  function FloatMarker(wide: bool): byte { if wide then FLOAT64 else FLOAT32 }
  function FloatSize(wide: bool): nat { if wide then 8 else 4 }

  /** The numbers for which packing is defined: those below 2^63. */
  predicate FloatSized(wide: bool, x: Float) {
    IsFloat(wide, x) && x.exponent < Bias(wide) + 63
  }

  /** A number without a fraction is packed as an integer, any other one as its bits. Outside
      these sizes the conversions of the program are undefined. */
  function EncFloat(wide: bool, x: Float): seq<byte> {
    if !IsFloat(wide, x) then []
    else if Integral(wide, x) then EncInt(Whole(wide, x))
    else [FloatMarker(wide)] + BigEndian(PackedBits(wide, x), FloatSize(wide))
  }

  /** Elements of the vectors that the packer and unpacker are instantiated with. */
  datatype Kind = BoolKind | IntKind | StrKind | FloatKind(wide: bool)
  datatype Item = BoolItem(b: bool) | IntItem(i: int64) | StrItem(s: seq<byte>) | FloatItem(wide: bool, x: Float)

  function KindOf(x: Item): Kind {
    match x
    case BoolItem(_) => BoolKind
    case IntItem(_) => IntKind
    case StrItem(_) => StrKind
    case FloatItem(wide, _) => FloatKind(wide)
  }

  function EncItem(x: Item): seq<byte> {
    match x
    case BoolItem(b) => EncBool(b)
    case IntItem(i) => EncInt(i)
    case StrItem(s) => EncStr(s)
    case FloatItem(wide, x) => EncFloat(wide, x)
  }

  function EncItems(xs: seq<Item>): seq<byte> {
    if |xs| == 0 then [] else EncItem(xs[0]) + EncItems(xs[1..])
  }

  function EncArray(xs: seq<Item>): seq<byte> {
    EncArrayHeader(|xs|) + EncItems(xs)
  }

  // ---------------------------------------------------------------- reading

  datatype Error = NoError | OutOfRange | BadInput

  /** The unread bytes, whether the pointer stands one past the end, and the error code. */
  datatype Cursor = Cursor(rest: seq<byte>, past: bool, ec: Error)

  /** safe_data: the byte under the pointer, or 0. */
  function Peek(c: Cursor): byte {
    if c.rest == [] then 0 else c.rest[0]
  }

  /** safe_data: its effect on the error code. */
  function Touch(c: Cursor): Cursor {
    if c.rest == [] then c.(ec := OutOfRange) else c
  }

  /** safe_increment by one: it may step onto the place after the end, but no further. */
  function Step(c: Cursor): Cursor {
    if c.rest != [] then c.(rest := c.rest[1..])
    else if c.past then c.(ec := OutOfRange)
    else c.(past := true)
  }

  function TakeNumber(c: Cursor, width: nat): (Cursor, nat)
    decreases width
  {
    if width == 0 then (c, 0)
    else
      var (d, v) := TakeNumber(Step(Touch(c)), width - 1);
      (d, Peek(c) * Pow256(width - 1) + v)
  }

  /** The two's complement value of the low bits v. */
  function Signed(v: nat, width: nat): int {
    if 2 * v < Pow256(width) then v else v - Pow256(width)
  }

  function TakeSigned(c: Cursor, width: nat): (Cursor, int) {
    var (d, v) := TakeNumber(c, width);
    (d, Signed(v, width))
  }

  /** Reading a signed 64-bit integer: the marker decides the width; any other byte is an 8-bit number itself. */
  function RdInt(c: Cursor): (Cursor, int) {
    var flag := Peek(c);
    var c0 := Touch(c);
    if flag == INT64 then TakeSigned(Step(c0), 8)
    else if flag == INT32 then TakeSigned(Step(c0), 4)
    else if flag == INT16 then TakeSigned(Step(c0), 2)
    else if flag == INT8 then TakeSigned(Step(c0), 1)
    else if flag == UINT32 then TakeNumber(Step(c0), 4)
    else if flag == UINT16 then TakeNumber(Step(c0), 2)
    else if flag == UINT8 then TakeNumber(Step(c0), 1)
    else TakeSigned(c0, 1)
  }

  /** Reading an unsigned 64-bit integer; negative numbers are taken modulo 2^64. */
  function RdUint(c: Cursor): (Cursor, nat) {
    var flag := Peek(c);
    var c0 := Touch(c);
    if flag == UINT64 then TakeNumber(Step(c0), 8)
    else if flag == UINT32 then TakeNumber(Step(c0), 4)
    else if flag == UINT16 then TakeNumber(Step(c0), 2)
    else if flag == UINT8 then TakeNumber(Step(c0), 1)
    else if flag == INT64 || flag == INT32 || flag == INT16 || flag == INT8 then
      var (d, v) := RdInt(c);
      (d, v % 0x1_0000_0000_0000_0000)
    else TakeNumber(c0, 1)
  }

  /** Reading an 8-bit unsigned integer. */
  function RdUint8(c: Cursor): (Cursor, nat) {
    var flag := Peek(c);
    var c0 := Touch(c);
    if flag == UINT8 || flag == INT8 then TakeNumber(Step(c0), 1) else TakeNumber(c0, 1)
  }

  /** Reading a floating-point number: its bits, a number with a signed marker, or else an unsigned one, into which
      the bytes of -1 to -32 fall, too. */
  function RdFloat(wide: bool, c: Cursor): (Cursor, Float) {
    var flag := Peek(c);
    var c0 := Touch(c);
    if flag == FloatMarker(wide) then
      var (d, bits) := TakeNumber(Step(c0), FloatSize(wide));
      (d, ReadBits(wide, bits))
    else if flag == INT8 || flag == INT16 || flag == INT32 || flag == INT64 then
      var (d, v) := RdInt(c);
      (d, FromInt(wide, v))
    else
      var (d, v) := RdUint(c);
      (d, FromInt(wide, v))
  }

  function RdBool(c: Cursor, value: bool): (Cursor, bool) {
    var c0 := Touch(c);
    if Peek(c) == TRUE_BOOL then (Step(c0), true)
    else if Peek(c) == FALSE_BOOL then (Step(c0), false)
    else (Step(c0.(ec := BadInput)), value)
  }

  /** unpack_array_header: Nothing stands for the result -1, which leaves the pointer where it is. */
  function RdArrayHeader(c: Cursor): (Cursor, Maybe<nat>) {
    var flag := Peek(c);
    var c0 := Touch(c);
    if flag == ARRAY32 then
      var (d, n) := TakeNumber(Step(c0), 4);
      (d, Just(n))
    else if flag == ARRAY16 then
      var (d, n) := TakeNumber(Step(c0), 2);
      (d, Just(n))
    else if FIXARRAY <= flag <= FIXARRAY_END then (Step(c0), Just(flag % 16))
    else (c0, Nothing)
  }

  function TakeBytes(c: Cursor, n: nat): (Cursor, seq<byte>) {
    if !c.past && n <= |c.rest| then (c.(rest := c.rest[n..]), c.rest[..n])
    else (c.(ec := OutOfRange), [])
  }

  function RdStrSize(c: Cursor): (Cursor, nat) {
    var flag := Peek(c);
    var c0 := Touch(c);
    if flag == STR32 then TakeNumber(Step(c0), 4)
    else if flag == STR16 then TakeNumber(Step(c0), 2)
    else if flag == STR8 then TakeNumber(Step(c0), 1)
    else (Step(c0), flag % 16)
  }

  function RdStr(c: Cursor): (Cursor, seq<byte>) {
    var (d, n) := RdStrSize(c);
    TakeBytes(d, n)
  }

  function RdBinSize(c: Cursor): (Cursor, nat) {
    var flag := Peek(c);
    var c0 := Touch(c);
    if flag == BIN32 then TakeNumber(Step(c0), 4)
    else if flag == BIN16 then TakeNumber(Step(c0), 2)
    else TakeNumber(Step(c0), 1)
  }

  function RdBin(c: Cursor): (Cursor, seq<byte>) {
    var (d, n) := RdBinSize(c);
    TakeBytes(d, n)
  }

  function RdItem(k: Kind, c: Cursor): (Cursor, Item) {
    match k
    case BoolKind => var (d, b) := RdBool(c, false); (d, BoolItem(b))
    case IntKind =>
      IntRange(c);
      var (d, i) := RdInt(c);
      (d, IntItem(i))
    case StrKind => var (d, s) := RdStr(c); (d, StrItem(s))
    case FloatKind(wide) => var (d, x) := RdFloat(wide, c); (d, FloatItem(wide, x))
  }

  function RdItems(k: Kind, c: Cursor, n: nat): (Cursor, seq<Item>)
    decreases n
  {
    if n == 0 then (c, [])
    else
      var (d, x) := RdItem(k, c);
      var (e, xs) := RdItems(k, d, n - 1);
      (e, [x] + xs)
  }

  /** The size at the start of unpack_array: any byte other than the two markers gives it in its low four bits. */
  function RdArraySize(c: Cursor): (Cursor, nat) {
    var flag := Peek(c);
    var c0 := Touch(c);
    if flag == ARRAY32 then TakeNumber(Step(c0), 4)
    else if flag == ARRAY16 then TakeNumber(Step(c0), 2)
    else (Step(c0), flag % 16)
  }

  function RdArray(k: Kind, c: Cursor): (Cursor, seq<Item>) {
    var (d, n) := RdArraySize(c);
    RdItems(k, d, n)
  }

  lemma {:induction false} TakeNumberRange(c: Cursor, width: nat)
    ensures TakeNumber(c, width).1 < Pow256(width)
    decreases width
  {
    if width == 0 {
    } else {
      TakeNumberRange(Step(Touch(c)), width - 1);
      Distribute(0, Peek(c), Pow256(width - 1));
    }
  }

  lemma SignedFits(c: Cursor, width: nat)
    requires width == 1 || width == 2 || width == 4 || width == 8
    ensures -0x8000_0000_0000_0000 <= TakeSigned(c, width).1 < 0x8000_0000_0000_0000
  {
    Widths();
    TakeNumberRange(c, width);
  }

  lemma NumberFits(c: Cursor, width: nat)
    requires width == 1 || width == 2 || width == 4
    ensures TakeNumber(c, width).1 < 0x1_0000_0000
  {
    Widths();
    TakeNumberRange(c, width);
  }

  lemma IntRange(c: Cursor)
    ensures -0x8000_0000_0000_0000 <= RdInt(c).1 < 0x8000_0000_0000_0000
  {
    hide TakeNumber, TakeSigned, Touch, Step, Peek;
    var c0 := Touch(c);
    NumberFits(Step(c0), 1);
    NumberFits(Step(c0), 2);
    NumberFits(Step(c0), 4);
    SignedFits(Step(c0), 8);
    SignedFits(Step(c0), 4);
    SignedFits(Step(c0), 2);
    SignedFits(Step(c0), 1);
    SignedFits(c0, 1);
  }

  lemma UintRange(c: Cursor)
    ensures RdUint(c).1 < 0x1_0000_0000_0000_0000
  {
    hide TakeNumber, RdInt;
    var c0 := Touch(c);
    Widths();
    TakeNumberRange(Step(c0), 1);
    TakeNumberRange(Step(c0), 2);
    TakeNumberRange(Step(c0), 4);
    TakeNumberRange(Step(c0), 8);
    TakeNumberRange(c0, 1);
  }
}
