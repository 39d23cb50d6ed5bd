/** The values of NetworkTables topics: their types, how one is assigned to another, and their packed form. */
module NtValues {
  import opened Bytes
  import opened Floats
  import opened MsgPackFormat

  datatype StrTag = PlainStr | JsonStr
  datatype BinTag = PlainBin | RawBin | MsgpackBin | ProtobufBin

  /** The data types with their codes; codes from 6 to 10 exist only inside the implementation. */
  datatype NTType =
    | BoolT
    | FloatT(wide: bool)
    | IntT
    | UIntT
    | StrT(strTag: StrTag)
    | BinT(binTag: BinTag)
    | ArrayT(kind: Kind)
    | OtherT(code: byte)

  const UNASSIGNED: byte := 99

  /** A value with its type. */
  datatype NTValue =
    | BoolV(b: bool)
    | FloatV(wide: bool, x: Float)
    | IntV(i: int64)
    | UIntV(u: uint64)
    | StrV(strTag: StrTag, s: seq<byte>)
    | BinV(binTag: BinTag, bin: seq<byte>)
    | ArrayV(kind: Kind, items: seq<Item>)
    | OtherV(code: byte)

  function TypeOf(v: NTValue): NTType {
    match v
    case BoolV(_) => BoolT
    case FloatV(w, _) => FloatT(w)
    case IntV(_) => IntT
    case UIntV(_) => UIntT
    case StrV(t, _) => StrT(t)
    case BinV(t, _) => BinT(t)
    case ArrayV(k, _) => ArrayT(k)
    case OtherV(c) => OtherT(c)
  }

  /** The code of the type that clients see: getAPIType drops the inner distinctions. */
  function ApiCode(t: NTType): byte {
    match t
    case BoolT => 0
    case FloatT(wide) => if wide then 1 else 3
    case IntT => 2
    case UIntT => 2
    case StrT(_) => 4
    case BinT(_) => 5
    case ArrayT(BoolKind) => 16
    case ArrayT(IntKind) => 18
    case ArrayT(StrKind) => 20
    case ArrayT(FloatKind(wide)) => if wide then 17 else 19
    case OtherT(c) => c
  }

  function TypeOfCode(c: byte): NTType {
    match c
    case 0 => BoolT
    case 1 => FloatT(true)
    case 2 => IntT
    case 3 => FloatT(false)
    case 4 => StrT(PlainStr)
    case 5 => BinT(PlainBin)
    case 6 => UIntT
    case 7 => StrT(JsonStr)
    case 8 => BinT(RawBin)
    case 9 => BinT(MsgpackBin)
    case 10 => BinT(ProtobufBin)
    case 16 => ArrayT(BoolKind)
    case 17 => ArrayT(FloatKind(true))
    case 18 => ArrayT(IntKind)
    case 19 => ArrayT(FloatKind(false))
    case 20 => ArrayT(StrKind)
    case _ => OtherT(c)
  }

  predicate Known(t: NTType) {
    !t.OtherT?
  }

  function TypeName(t: NTType): string {
    match t
    case BoolT => "boolean"
    case FloatT(wide) => if wide then "double" else "float"
    case IntT => "int"
    case UIntT => "int"
    case StrT(PlainStr) => "string"
    case StrT(JsonStr) => "json"
    case BinT(PlainBin) => "raw"
    case BinT(RawBin) => "raw"
    case BinT(MsgpackBin) => "msgpack"
    case BinT(ProtobufBin) => "protobuf"
    case ArrayT(BoolKind) => "boolean[]"
    case ArrayT(IntKind) => "int[]"
    case ArrayT(StrKind) => "string[]"
    case ArrayT(FloatKind(wide)) => if wide then "double[]" else "float[]"
    case OtherT(_) => ""
  }

  function ParseTypeName(s: string): NTType {
    if s == "boolean" then BoolT
    else if s == "double" then FloatT(true)
    else if s == "int" then IntT
    else if s == "float" then FloatT(false)
    else if s == "string" then StrT(PlainStr)
    else if s == "json" then StrT(JsonStr)
    else if s == "raw" then BinT(PlainBin)
    else if s == "msgpack" then BinT(MsgpackBin)
    else if s == "protobuf" then BinT(ProtobufBin)
    else if s == "boolean[]" then ArrayT(BoolKind)
    else if s == "double[]" then ArrayT(FloatKind(true))
    else if s == "int[]" then ArrayT(IntKind)
    else if s == "float[]" then ArrayT(FloatKind(false))
    else if s == "string[]" then ArrayT(StrKind)
    else BinT(PlainBin)
  }

  /** The name a topic is announced with, read back, is a type with the same code: what a client is told
      about a topic agrees with the code in the records it then receives. */
  lemma NameGivesCode(t: NTType)
    requires Known(t)
    ensures ApiCode(ParseTypeName(TypeName(t))) == ApiCode(t)
    ensures TypeName(ParseTypeName(TypeName(t))) == TypeName(t)
  {
    assert "boolean"[0] == 'b';
    assert |"boolean"| == 7 && |"boolean[]"| == 9 && |"double"| == 6 && |"double[]"| == 8;
    assert |"int"| == 3 && |"int[]"| == 5 && |"float"| == 5 && |"float[]"| == 7;
    assert |"string"| == 6 && |"string[]"| == 8 && |"json"| == 4 && |"raw"| == 3 && |"msgpack"| == 7 && |"protobuf"| == 8;
    assert "boolean"[0] == 'b' && "msgpack"[0] == 'm' && "float[]"[0] == 'f';
    assert "double"[0] == 'd' && "string"[0] == 's' && "int"[0] == 'i' && "raw"[0] == 'r';
    assert "double[]"[0] == 'd' && "string[]"[0] == 's' && "protobuf"[0] == 'p' && "int[]"[0] == 'i' && "float"[0] == 'f';
  }

  /** Codes and types: the wire code of a type names a type with the same code. */
  lemma CodeRoundTrip(t: NTType)
    requires Known(t)
    ensures ApiCode(TypeOfCode(ApiCode(t))) == ApiCode(t) && Known(TypeOfCode(ApiCode(t)))
  {
  }

  predicate Valid(v: NTValue) {
    v != OtherV(UNASSIGNED)
  }

  /** A value of the given type with nothing in it. */
  function Default(t: NTType): (v: NTValue)
    ensures TypeOf(v) == t
  {
    match t
    case BoolT => BoolV(false)
    case FloatT(w) => FloatV(w, ZERO)
    case IntT => IntV(0)
    case UIntT => UIntV(0)
    case StrT(g) => StrV(g, [])
    case BinT(g) => BinV(g, [])
    case ArrayT(k) => ArrayV(k, [])
    case OtherT(c) => OtherV(c)
  }

  const TWO_TO_64: int := 0x1_0000_0000_0000_0000

  /** assign: the type stays, the data comes from the other value; a value of another type is ignored.
      The two integer fields share their bits. */
  function Assign(v: NTValue, o: NTValue): NTValue {
    if !Valid(v) then o
    else
      match (v, o)
      case (BoolV(_), BoolV(_)) => o
      case (FloatV(w, _), FloatV(x, _)) => if w == x then o else v
      case (IntV(_), IntV(_)) => o
      case (IntV(_), UIntV(u)) => IntV(if u < 0x8000_0000_0000_0000 then u else u - TWO_TO_64)
      case (UIntV(_), IntV(i)) => UIntV(i % TWO_TO_64)
      case (UIntV(_), UIntV(_)) => o
      case (StrV(g, _), StrV(_, s)) => StrV(g, s)
      case (BinV(g, _), BinV(_, b)) => BinV(g, b)
      case (ArrayV(j, _), ArrayV(k, _)) => if j == k then o else v
      case _ => v
  }

  /** The type of a topic never changes, and a value whose type does not match leaves it as it was. */
  lemma AssignKeepsType(v: NTValue, o: NTValue)
    requires Valid(v)
    ensures TypeOf(Assign(v, o)) == TypeOf(v)
    ensures ApiCode(TypeOf(v)) != ApiCode(TypeOf(o)) ==> Assign(v, o) == v
  {
  }

  /** Whether o is a number that the type of v cannot hold. */
  predicate Wraps(v: NTValue, o: NTValue) {
    (v.IntV? && o.UIntV? && o.u >= 0x8000_0000_0000_0000) || (v.UIntV? && o.IntV? && o.i < 0)
  }

  /** The data without the type: an integer, or anything else as it is apart from its inner tag. */
  function Payload(v: NTValue): NTValue {
    match v
    case StrV(_, s) => StrV(PlainStr, s)
    case BinV(_, b) => BinV(PlainBin, b)
    case _ => v
  }

  function Number(v: NTValue): int {
    match v
    case IntV(i) => i
    case UIntV(u) => u
    case _ => 0
  }

  predicate SamePayload(v: NTValue, o: NTValue) {
    if v.IntV? || v.UIntV? then (o.IntV? || o.UIntV?) && Number(v) == Number(o) else Payload(v) == Payload(o)
  }

  /** For two known types with the same code, the data is taken over exactly when it does not wrap. */
  lemma AssignTakesIff(v: NTValue, o: NTValue)
    requires Known(TypeOf(v)) && Known(TypeOf(o)) && ApiCode(TypeOf(v)) == ApiCode(TypeOf(o))
    ensures SamePayload(Assign(v, o), o) <==> !Wraps(v, o)
  {
  }

  /** value.bin = ...: seen only in values of a binary type. */
  function WithBin(v: NTValue, bytes: seq<byte>): (w: NTValue)
    ensures TypeOf(w) == TypeOf(v)
  {
    if v.BinV? then v.(bin := bytes) else v
  }

  // ------------------------------------------------------------ packing

  function Pack(v: NTValue): seq<byte> {
    match v
    case BoolV(b) => EncBool(b)
    case FloatV(w, x) => EncFloat(w, x)
    case IntV(i) => EncInt(i)
    case UIntV(u) => EncUint(u)
    case StrV(_, s) => EncStr(s)
    case BinV(_, b) => EncBin(b)
    case ArrayV(_, xs) => EncArray(xs)
    case OtherV(_) => []
  }

  /** One update on the wire: an array of a topic id, a time, a type code and the packed value. */
  datatype Record = Record(id: int, time: nat, code: byte, value: NTValue)

  function EncRecord(r: Record): (e: seq<byte>)
    ensures e != []
  {
    EncArrayHeader(4) + (EncInt(r.id) + (EncUint(r.time) + (EncUint(r.code) + Pack(r.value))))
  }

  /** The record that an update of a topic with this id and value is sent as. */
  function RecordOf(id: int, time: nat, v: NTValue): (r: Record)
    ensures r.id == id && r.time == time && r.value == v && r.code == ApiCode(TypeOf(v))
  {
    Record(id, time, ApiCode(TypeOf(v)), v)
  }
}
