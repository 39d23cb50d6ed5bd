/** The numbers and names of the protocol, written out. */
module NtProtocol {
  import opened Bytes
  import opened Floats
  import opened MsgPackFormat
  import opened NtValues
  import opened NtServer

  /** The data types by name, and the code that records carry for each. */
  const TYPES: map<string, byte> := map[
    "boolean" := 0, "double" := 1, "int" := 2, "float" := 3, "string" := 4, "json" := 4, "raw" := 5, "msgpack" := 5,
    "protobuf" := 5, "boolean[]" := 16, "double[]" := 17, "int[]" := 18, "float[]" := 19, "string[]" := 20]

  /** No two of the names are the same. */
  lemma Spelled()
    ensures |"boolean"| == 7 && |"boolean[]"| == 9 && |"double"| == 6 && |"double[]"| == 8 && |"int"| == 3 && |"int[]"| == 5
    ensures |"float"| == 5 && |"float[]"| == 7 && |"string"| == 6 && |"string[]"| == 8 && |"json"| == 4 && |"raw"| == 3
    ensures |"msgpack"| == 7 && |"protobuf"| == 8
    ensures "boolean"[0] == 'b' && "msgpack"[0] == 'm' && "float[]"[0] == 'f' && "double"[0] == 'd' && "string"[0] == 's'
    ensures "int"[0] == 'i' && "raw"[0] == 'r' && "double[]"[0] == 'd' && "string[]"[0] == 's' && "protobuf"[0] == 'p'
    ensures "int[]"[0] == 'i' && "float"[0] == 'f'
  {
  }

  /** A topic that is published with the name of a type gets that type, is announced with that name, and its records
      carry that code; any other name stands for raw. */
  lemma NamedType(s: string)
    ensures s in TYPES ==> ApiCode(ParseTypeName(s)) == TYPES[s] && TypeName(ParseTypeName(s)) == s
    ensures s !in TYPES ==> ApiCode(ParseTypeName(s)) == TYPES["raw"] && TypeName(ParseTypeName(s)) == "raw"
  {
    Spelled();
  }

  /** A record with one of the codes is read as a value of the type with that code. */
  lemma CodedType(c: byte)
    requires c in TYPES.Values
    ensures Known(TypeOfCode(c)) && ApiCode(TypeOfCode(c)) == c
  {
  }

  /** A topic that has no value yet is sent as false, 0, the empty string, no bytes or the empty array. */
  lemma NothingYet(t: NTType)
    requires Known(t)
    ensures Pack(Default(t)) == (match t
                                 case BoolT => [0xc2]
                                 case FloatT(_) => [0]
                                 case IntT => [0]
                                 case UIntT => [0]
                                 case StrT(_) => [0xa0]
                                 case BinT(_) => [0xc4, 0]
                                 case ArrayT(_) => [0x90]
                                 case OtherT(_) => [])
  {
  }

  /** The id of a record is used as the 32-bit integer that is congruent to it. */
  lemma KeyOfId(id: int, key: int)
    ensures ToInt32(id) == key <==> -0x8000_0000 <= key < 0x8000_0000 && (key - id) % 0x1_0000_0000 == 0
  {
  }
}
