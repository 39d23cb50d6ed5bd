/** Packing a record for a client, and the loop of the server over a binary frame, on the packer and
    unpacker objects. */
module NtFrames {
  import opened Maybes
  import opened Bytes
  import opened MsgPackFormat
  import opened MsgPackCodec
  import opened NtValues
  import opened NtRecords

  predicate Packable(v: NTValue) {
    match v
    case IntV(i) => i != INT64_MIN
    case FloatV(w, x) => FloatSized(w, x)
    case ArrayV(_, xs) => forall x | x in xs :: ItemPackable(x)
    case _ => true
  }

  method PackValue(v: NTValue, packer: Packer)
    requires Packable(v)
    modifies packer
    ensures packer.serialized == old(packer.serialized) + Pack(v)
  {
    hide EncInt, EncUint, EncStr, EncBin, EncArray, EncBool, EncFloat, FloatSized, ItemPackable;
    match v
    case BoolV(b) => packer.PackBool(b);
    case FloatV(w, x) => packer.PackFloat(w, x);
    case IntV(i) => packer.PackInt64(i);
    case UIntV(u) => packer.PackUint64(u);
    case StrV(_, s) => packer.PackStr(s);
    case BinV(_, b) => packer.PackBin(b);
    case ArrayV(_, xs) => packer.PackArray(xs);
    case OtherV(_) =>
  }

  /** The bytes that sendTopicUpdate appends to the cache of a client. */
  method PackRecord(id: int64, time: uint64, v: NTValue) returns (bytes: seq<byte>)
    requires Packable(v) && id != INT64_MIN
    ensures bytes == EncRecord(RecordOf(id, time, v))
  {
    hide EncInt, EncUint, Pack, EncArrayHeader;
    var packer := new Packer();
    packer.Clear();
    packer.PackArrayHeader(4);
    packer.PackInt64(id);
    packer.PackUint64(time);
    packer.PackUint8(ApiCode(TypeOf(v)));
    PackValue(v, packer);
    bytes := packer.serialized;
    assert [] + EncArrayHeader(4) == EncArrayHeader(4);
    Regroup4(EncArrayHeader(4), EncInt(id), EncUint(time), EncUint(ApiCode(TypeOf(v))), Pack(v));
  }

  /** The answer to a record with the id -1: the same type and data with the server's time. */
  method PackRttReply(now: uint64, code: uint8, v: NTValue) returns (bytes: seq<byte>)
    requires Packable(v)
    ensures bytes == EncRecord(Record(-1, now, code, v))
  {
    hide EncInt, EncUint, Pack, EncArrayHeader;
    var packer := new Packer();
    packer.PackArrayHeader(4);
    packer.PackInt64(-1);
    packer.PackUint64(now);
    packer.PackUint8(code);
    PackValue(v, packer);
    bytes := packer.serialized;
    assert [] + EncArrayHeader(4) == EncArrayHeader(4);
    Regroup4(EncArrayHeader(4), EncInt(-1), EncUint(now), EncUint(code), Pack(v));
  }

  lemma Regroup4<T>(a: seq<T>, b: seq<T>, c: seq<T>, d: seq<T>, e: seq<T>)
    ensures a + b + c + d + e == a + (b + (c + (d + e)))
  {
    Regroup(a + b + c, d, e);
    Regroup(a + b, c, d + e);
    Regroup(a, b, c + (d + e));
  }

  method UnpackValue(t: NTType, unpacker: Unpacker) returns (v: NTValue)
    requires unpacker.Valid()
    modifies unpacker`pos, unpacker`ec
    ensures unpacker.Valid() && (unpacker.Cur(), v) == RdValue(old(unpacker.Cur()), t)
  {
    hide RdInt, RdUint, RdStr, RdBin, RdArray, RdBool, RdFloat;
    match t
    case BoolT => var b := unpacker.UnpackBool(false); v := BoolV(b);
    case IntT => var i := unpacker.UnpackInt64(); v := IntV(i);
    case UIntT =>
      UintRange(unpacker.Cur());
      var u := unpacker.UnpackUint64(0);
      v := UIntV(u);
    case StrT(g) => var s := unpacker.UnpackStr(); v := StrV(g, s);
    case BinT(g) => var b := unpacker.UnpackBin(); v := BinV(g, b);
    case ArrayT(k) => var xs := unpacker.UnpackArray(k); v := ArrayV(k, xs);
    case FloatT(w) => var x := unpacker.UnpackFloat(w); v := FloatV(w, x);
    case OtherT(code) => v := OtherV(code);
  }

  /** Id, time and code of a record. */
  method UnpackHead(unpacker: Unpacker) returns (id: int64, time: uint64, code: uint8)
    requires unpacker.Valid()
    modifies unpacker`pos, unpacker`ec
    ensures unpacker.Valid()
    ensures var (c1, i) := RdInt(old(unpacker.Cur()));
            var (c2, t) := RdUint(c1);
            (id, time) == (i, t) && (unpacker.Cur(), code) == RdUint8(c2)
  {
    hide RdInt, RdUint, RdUint8;
    id := unpacker.UnpackInt64();
    UintRange(unpacker.Cur());
    time := unpacker.UnpackUint64(0);
    Uint8Range(unpacker.Cur());
    code := unpacker.UnpackUint8();
  }

  /** The four fields after a header of size four. */
  method UnpackRecord(unpacker: Unpacker) returns (pass: Pass)
    requires unpacker.Valid()
    modifies unpacker`pos, unpacker`ec
    ensures unpacker.Valid() && pass == RdRecord(old(unpacker.Cur()))
    ensures pass.Got? ==> unpacker.Cur() == pass.next
  {
    hide RdInt, RdUint, RdUint8, RdValue, ReadType;
    var id, time, code := UnpackHead(unpacker);
    ghost var c3 := unpacker.Cur();
    var t := TypeOfCode(code);
    if t == IntT {
      var next := unpacker.SafeData();
      if next == UINT8 || next == UINT16 || next == UINT32 || next == UINT64 {
        t := UIntT;
      }
    }
    assert t == ReadType(c3, code) by { ReadTypeIs(c3, code, t); }
    var v := UnpackValue(t, unpacker);
    pass := Got(Record(id, time, code, v), unpacker.Cur());
  }

  lemma ReadTypeIs(c: Cursor, code: byte, t: NTType)
    requires t == if TypeOfCode(code) == IntT && (Peek(c) == UINT8 || Peek(c) == UINT16 || Peek(c) == UINT32 || Peek(c) == UINT64)
                  then UIntT else TypeOfCode(code)
    ensures t == ReadType(c, code)
  {
  }

  lemma OntoNothing(c: Cursor)
    ensures OntoRecords([], DecodeFrame(c)) == DecodeFrame(c)
  {
    hide DecodeFrame;
    assert [] + DecodeFrame(c).0 == DecodeFrame(c).0;
  }

  method OnePass(unpacker: Unpacker) returns (pass: Pass)
    requires unpacker.Valid()
    modifies unpacker`pos, unpacker`ec
    ensures unpacker.Valid() && pass == RdPass(old(unpacker.Cur()))
    ensures unpacker.Cur() == pass.next
  {
    hide RdRecord, RdArrayHeader;
    var size := unpacker.UnpackArrayHeader();
    RecordShrinks(unpacker.Cur());
    if size == Just(4) {
      pass := UnpackRecord(unpacker);
    } else {
      pass := Skipped(unpacker.Cur());
    }
  }

  function OntoRecords(rs: seq<Record>, rest: (seq<Record>, Ending)): (seq<Record>, Ending) {
    (rs + rest.0, rest.1)
  }

  /** What the records so far and the rest of the frame come to, one pass later. */
  lemma Unfold(rs: seq<Record>, c: Cursor)
    ensures OntoRecords(rs, DecodeFrame(c)) ==
            match RdPass(c)
            case Skipped(d) =>
              if d.ec == OutOfRange then (rs, Finished)
              else if d == c then (rs, StuckAt(c))
              else OntoRecords(rs, DecodeFrame(d))
            case Got(r, d) =>
              if d.ec == OutOfRange then (rs + [r], Finished) else OntoRecords(rs + [r], DecodeFrame(d))
  {
    hide RdPass;
    assert rs + [] == rs;
    match RdPass(c) {
      case Got(r, d) => if d.ec != OutOfRange { Regroup(rs, [r], DecodeFrame(d).0); }
      case _ =>
    }
  }

  /** The loop of _handleFrame over a binary frame. A pass that changes nothing would be repeated for ever;
      here it ends the method. */
  method DecodeLoop(frame: seq<byte>) returns (records: seq<Record>, ending: Ending)
    ensures (records, ending) == DecodeFrame(Cursor(frame, false, NoError))
  {
    hide RdPass, DecodeFrame, OntoRecords;
    var unpacker := new Unpacker();
    unpacker.SetData(frame);
    records := [];
    ghost var whole := DecodeFrame(unpacker.Cur());
    OntoNothing(unpacker.Cur());
    while true
      invariant unpacker.Valid() && fresh(unpacker)
      invariant OntoRecords(records, DecodeFrame(unpacker.Cur())) == whole
      decreases |unpacker.Cur().rest|
    {
      var c := unpacker.Cur();
      PassShrinks(c);
      Unfold(records, c);
      var pass := OnePass(unpacker);
      match pass {
        case Skipped(d) =>
          if unpacker.ec != OutOfRange && unpacker.Cur() == c {
            return records, StuckAt(c);
          }
        case Got(r, d) => records := records + [r];
      }
      if unpacker.ec == OutOfRange {
        return records, Finished;
      }
    }
  }
}
