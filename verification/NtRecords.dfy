/** Binary frames: records packed one after another, and the loop that takes them apart again. */
module NtRecords {
  import opened Maybes
  import opened Bytes
  import opened Floats
  import opened MsgPackFormat
  import opened MsgPackLaws
  import opened NtValues

  // ------------------------------------------------------------ reading one value

  /** is_next_unsigned */
  predicate NextUnsigned(c: Cursor) {
    UINT8 <= Peek(c) <= UINT64
  }

  /** The type that a received value of this code gets. */
  function ReadType(c: Cursor, code: byte): NTType {
    var t := TypeOfCode(code);
    if t == IntT && NextUnsigned(c) then UIntT else t
  }

  function RdValue(c: Cursor, t: NTType): (Cursor, NTValue) {
    match t
    case BoolT => var (d, b) := RdBool(c, false); (d, BoolV(b))
    case IntT =>
      IntRange(c);
      var (d, i) := RdInt(c);
      (d, IntV(i))
    case UIntT =>
      UintRange(c);
      var (d, u) := RdUint(c);
      (d, UIntV(u))
    case StrT(g) => var (d, s) := RdStr(c); (d, StrV(g, s))
    case BinT(g) => var (d, b) := RdBin(c); (d, BinV(g, b))
    case ArrayT(k) => var (d, xs) := RdArray(k, c); (d, ArrayV(k, xs))
    case FloatT(w) => var (d, x) := RdFloat(w, c); (d, FloatV(w, x))
    case OtherT(code) => (c, OtherV(code))
  }

  lemma Uint8Range(c: Cursor)
    ensures RdUint8(c).1 < 0x100
  {
    hide TakeNumber;
    Widths();
    TakeNumberRange(Step(Touch(c)), 1);
    TakeNumberRange(Touch(c), 1);
  }

  // ------------------------------------------------------------ the loop over a frame

  /** How the loop over a frame ends: at the end of the frame, or never, because nothing moves it on from a byte
      that is no array header. */
  datatype Ending = Finished | StuckAt(at: Cursor)

  /** One pass of the loop: the record if there was one. */
  datatype Pass = Got(r: Record, next: Cursor) | Skipped(next: Cursor)

  function RdRecord(c: Cursor): Pass {
    IntRange(c);
    var (c1, id) := RdInt(c);
    UintRange(c1);
    var (c2, time) := RdUint(c1);
    Uint8Range(c2);
    var (c3, code) := RdUint8(c2);
    var t := ReadType(c3, code);
    var c4 := if TypeOfCode(code) == IntT then Touch(c3) else c3;
    var (d, v) := RdValue(c4, t);
    Got(Record(id, time, code, v), d)
  }

  function RdPass(c: Cursor): Pass {
    var (d, size) := RdArrayHeader(c);
    if size == Just(4) then RdRecord(d) else Skipped(d)
  }

  /** The loop; its bound on the number of passes is one more than the bytes left. */
  function DecodeFrame(c: Cursor): (seq<Record>, Ending)
    decreases |c.rest|
  {
    match RdPass(c)
    case Skipped(d) =>
      PassShrinks(c);
      if d.ec == OutOfRange then ([], Finished)
      else if d == c then ([], StuckAt(c))
      else DecodeFrame(d)
    case Got(r, d) =>
      PassShrinks(c);
      if d.ec == OutOfRange then ([r], Finished)
      else
        var (rs, ending) := DecodeFrame(d);
        ([r] + rs, ending)
  }

  // ------------------------------------------------------------ every pass moves on or stays for good

  lemma {:induction false} NumberShrinks(c: Cursor, width: nat)
    ensures |TakeNumber(c, width).0.rest| <= |c.rest|
    decreases width
  {
    if width == 0 {
    } else {
      NumberShrinks(Step(Touch(c)), width - 1);
    }
  }

  lemma IntShrinks(c: Cursor)
    ensures |RdInt(c).0.rest| <= |c.rest|
    ensures |RdUint(c).0.rest| <= |c.rest|
    ensures |RdUint8(c).0.rest| <= |c.rest|
  {
    hide TakeNumber;
    var c0 := Touch(c);
    NumberShrinks(c0, 1);
    NumberShrinks(Step(c0), 1);
    NumberShrinks(Step(c0), 2);
    NumberShrinks(Step(c0), 4);
    NumberShrinks(Step(c0), 8);
  }

  lemma SizesShrink(c: Cursor)
    ensures |RdStr(c).0.rest| <= |c.rest|
    ensures |RdBin(c).0.rest| <= |c.rest|
    ensures |RdArraySize(c).0.rest| <= |c.rest|
  {
    hide TakeNumber;
    var c0 := Touch(c);
    NumberShrinks(Step(c0), 1);
    NumberShrinks(Step(c0), 2);
    NumberShrinks(Step(c0), 4);
  }

  lemma FloatShrinks(wide: bool, c: Cursor)
    ensures |RdFloat(wide, c).0.rest| <= |c.rest|
  {
    hide TakeNumber, RdInt, RdUint;
    NumberShrinks(Step(Touch(c)), FloatSize(wide));
    IntShrinks(c);
  }

  lemma {:induction false} ItemsShrink(k: Kind, c: Cursor, n: nat)
    ensures |RdItems(k, c, n).0.rest| <= |c.rest|
    decreases n
  {
    hide RdInt, RdUint, RdStr, RdBin, RdFloat;
    if n == 0 {
    } else {
      IntShrinks(c);
      if k.FloatKind? { FloatShrinks(k.wide, c); }
      SizesShrink(c);
      ItemsShrink(k, RdItem(k, c).0, n - 1);
    }
  }

  lemma ValueShrinks(c: Cursor, t: NTType)
    ensures |RdValue(c, t).0.rest| <= |c.rest|
  {
    hide RdInt, RdUint, RdStr, RdBin, RdFloat, RdArraySize, RdItems;
    IntShrinks(c);
    if t.FloatT? { FloatShrinks(t.wide, c); }
    SizesShrink(c);
    if t.ArrayT? {
      var (d, n) := RdArraySize(c);
      ItemsShrink(t.kind, d, n);
    }
  }

  lemma RecordShrinks(c: Cursor)
    ensures RdRecord(c).Got? ==> |RdRecord(c).next.rest| <= |c.rest|
    ensures !RdRecord(c).Skipped?
  {
    hide RdInt, RdUint, RdUint8, RdValue;
    var (c1, id) := RdInt(c);
    IntShrinks(c);
    var (c2, time) := RdUint(c1);
    IntShrinks(c1);
    var (c3, code) := RdUint8(c2);
    IntShrinks(c2);
    Uint8Range(c2);
    var t := ReadType(c3, code);
    ValueShrinks(Touch(c3), t);
    ValueShrinks(c3, t);
  }

  /** A recognised header takes at least a byte; an unrecognised one leaves the cursor where it is. */
  lemma HeaderShrinks(c: Cursor)
    ensures var (d, size) := RdArrayHeader(c);
            if size == Nothing then d == Touch(c) else |d.rest| < |c.rest|
  {
    hide TakeNumber;
    var c0 := Touch(c);
    NumberShrinks(Step(c0), 2);
    NumberShrinks(Step(c0), 4);
  }

  lemma PassShrinks(c: Cursor)
    ensures RdPass(c).Got? ==> |RdPass(c).next.rest| < |c.rest|
    ensures RdPass(c).Skipped? ==>
              var d := RdPass(c).next;
              |d.rest| < |c.rest| || d == c || d.ec == OutOfRange
  {
    hide RdArrayHeader, RdRecord;
    var (d, size) := RdArrayHeader(c);
    HeaderShrinks(c);
    RecordShrinks(d);
  }

  /** Where the loop is stuck, the next pass sees the same cursor again, and so does every later one. */
  lemma {:induction false} StuckForGood(c: Cursor)
    requires DecodeFrame(c).1.StuckAt?
    ensures var at := DecodeFrame(c).1.at;
            RdPass(at) == Skipped(at) && at.ec != OutOfRange && RdArrayHeader(at) == (at, Nothing)
    decreases |c.rest|
  {
    hide RdArrayHeader, RdRecord;
    PassShrinks(c);
    HeaderShrinks(c);
    RecordShrinks(RdArrayHeader(c).0);
    match RdPass(c) {
      case Skipped(d) => if d.ec != OutOfRange && d != c { StuckForGood(d); }
      case Got(r, d) => if d.ec != OutOfRange { StuckForGood(d); }
    }
  }

  // ------------------------------------------------------------ frames on which the loop never ends

  /** The bytes that unpack_array_header takes for the start of an array. */
  predicate Recognised(b: byte) {
    b == ARRAY32 || b == ARRAY16 || FIXARRAY <= b <= FIXARRAY_END
  }

  /** The loop is still running, in front of a byte that is no array header. */
  predicate BeforeJunk(c: Cursor) {
    c.ec != OutOfRange && c.rest != [] && !Recognised(c.rest[0])
  }

  /** Where n passes lead, if the loop goes on for that long. */
  function AfterPasses(c: Cursor, n: nat): Maybe<Cursor>
    decreases n
  {
    if n == 0 then Just(c)
    else
      match RdPass(c)
      case Skipped(d) => if d.ec == OutOfRange then Nothing else AfterPasses(d, n - 1)
      case Got(_, d) => if d.ec == OutOfRange then Nothing else AfterPasses(d, n - 1)
  }

  /** In front of such a byte every pass changes nothing; anywhere else a pass that goes on moves. */
  lemma JunkStays(c: Cursor)
    requires c.ec != OutOfRange
    ensures BeforeJunk(c) <==> RdPass(c) == Skipped(c)
  {
    hide TakeNumber, RdRecord;
    PassShrinks(c);
    HeaderShrinks(c);
    RecordShrinks(RdArrayHeader(c).0);
  }

  lemma {:induction false} StuckMeansJunk(c: Cursor) returns (n: nat)
    requires c.ec != OutOfRange && DecodeFrame(c).1.StuckAt?
    ensures AfterPasses(c, n) == Just(DecodeFrame(c).1.at) && BeforeJunk(DecodeFrame(c).1.at)
    decreases |c.rest|
  {
    hide RdPass, BeforeJunk;
    PassShrinks(c);
    JunkStays(c);
    match RdPass(c) {
      case Skipped(d) =>
        if d.ec != OutOfRange && d != c {
          n := StuckMeansJunk(d);
          n := n + 1;
        } else {
          n := 0;
        }
      case Got(r, d) =>
        if d.ec != OutOfRange {
          n := StuckMeansJunk(d);
          n := n + 1;
        }
    }
  }

  lemma {:induction false} JunkMeansStuck(c: Cursor, n: nat)
    requires c.ec != OutOfRange && AfterPasses(c, n).Just? && BeforeJunk(AfterPasses(c, n).value)
    ensures DecodeFrame(c).1 == StuckAt(AfterPasses(c, n).value)
    decreases n
  {
    hide RdPass, BeforeJunk;
    PassShrinks(c);
    JunkStays(c);
    if n == 0 {
    } else {
      match RdPass(c) {
          case Skipped(d) => JunkMeansStuck(d, n - 1);
        case Got(r, d) => JunkMeansStuck(d, n - 1);
      }
    }
  }

  /** Exactly the frames on which the loop never ends: those in which finitely many passes, none of them running
      out of bytes, lead in front of a byte that is no array header. */
  lemma StuckIff(frame: seq<byte>)
    ensures DecodeFrame(Cursor(frame, false, NoError)).1.StuckAt? <==>
            exists n: nat :: AfterPasses(Cursor(frame, false, NoError), n).Just? &&
                             BeforeJunk(AfterPasses(Cursor(frame, false, NoError), n).value)
  {
    hide DecodeFrame, AfterPasses, BeforeJunk;
    var c := Cursor(frame, false, NoError);
    if DecodeFrame(c).1.StuckAt? {
      var n := StuckMeansJunk(c);
    }
    if n: nat :| AfterPasses(c, n).Just? && BeforeJunk(AfterPasses(c, n).value) {
      JunkMeansStuck(c, n);
    }
  }

  /** Any frame that starts with such a byte is one. */
  lemma StuckAtOnce(b: byte, more: seq<byte>)
    requires !Recognised(b)
    ensures DecodeFrame(After([b] + more)) == ([], StuckAt(After([b] + more)))
  {
    hide RdPass;
    JunkStays(After([b] + more));
  }

  // ------------------------------------------------------------ what comes back

  /** What the receiving side makes of a value: small unsigned numbers and inner tags do not show. */
  function Received(v: NTValue): (w: NTValue)
    ensures SamePayload(w, v) && ApiCode(TypeOf(w)) == ApiCode(TypeOf(v))
  {
    match v
    case UIntV(u) => if u < 0x80 then IntV(u) else v
    case StrV(_, s) => StrV(PlainStr, s)
    case BinV(_, b) => BinV(PlainBin, b)
    case _ => v
  }

  /** Values that survive packing: sizes that the format keeps, and numbers that it does not change. */
  predicate ValueFits(v: NTValue) {
    match v
    case StrV(_, s) => StrFits(s)
    case BinV(_, b) => |b| < SIZE_LIMIT
    case ArrayV(k, xs) => |xs| < SIZE_LIMIT && ItemsFit(k, xs)
    case FloatV(w, x) => FloatFits(w, x)
    case _ => Known(TypeOf(v))
  }

  predicate RecordFits(r: Record) {
    ValueFits(r.value) && r.code == ApiCode(TypeOf(r.value)) &&
    -0x8000_0000_0000_0000 <= r.id < 0x8000_0000_0000_0000 && r.time < 0x1_0000_0000_0000_0000
  }

  /** A packed unsigned number shows that it is one, unless it fits a bare byte; a signed one never does. */
  lemma FirstByte(c: Cursor, v: NTValue, more: seq<byte>)
    requires (v.IntV? || v.UIntV?) && Before(c, Pack(v), more)
    ensures Touch(c) == c && (NextUnsigned(c) <==> v.UIntV? && v.u >= 0x80)
  {
    hide BigEndian;
    assert c.rest[0] == Pack(v)[0];
  }

  lemma ValueRoundTrip(c: Cursor, v: NTValue, more: seq<byte>)
    requires ValueFits(v) && Before(c, Pack(v), more)
    ensures var t := ReadType(c, ApiCode(TypeOf(v)));
            RdValue(c, t) == (After(more), Received(v))
    ensures v.IntV? || v.UIntV? ==> Touch(c) == c
  {
    hide RdInt, RdUint, RdStr, RdBin, RdArray, RdBool, RdFloat, EncBool, EncInt, EncStr, EncBin, EncArray, EncFloat, FloatFits;
    match v {
      case BoolV(b) => BoolRoundTrip(c, b, false, more);
      case IntV(i) => FirstByte(c, v, more); IntRoundTrip(c, i, more);
      case UIntV(u) =>
        FirstByte(c, v, more);
        if u < 0x80 {
          SmallUnsigned(u);
          IntRoundTripSmall(c, u, more);
        } else {
          UintRoundTrip(c, u, more);
        }
      case StrV(_, s) => StrRoundTrip(c, s, more);
      case BinV(_, b) => BinRoundTrip(c, b, more);
      case FloatV(w, x) => FittingFloat(w, x); FloatRead(w, c, x, more);
      case ArrayV(k, xs) => ArrayRoundTrip(k, c, xs, more);
    }
  }

  lemma FittingFloat(wide: bool, x: Float)
    requires FloatFits(wide, x)
    ensures FloatSized(wide, x)
  {
  }

  lemma SmallUnsigned(u: uint64)
    requires u < 0x80
    ensures EncUint(u) == [u]
  {
  }

  /** A bare byte below 128 reads as itself. */
  lemma IntRoundTripSmall(c: Cursor, u: uint64, more: seq<byte>)
    requires u < 0x80 && Before(c, [u], more)
    ensures RdInt(c) == (After(more), u)
  {
    Widths();
    StepBefore(c, u, [], more);
    assert TakeNumber(c, 1) == (Step(c), u) by {
      assert TakeNumber(Step(c), 0) == (Step(c), 0);
      assert Pow256(0) == 1;
    }
  }

  lemma IntegersOnly(r: Record)
    requires RecordFits(r) && TypeOfCode(r.code) == IntT
    ensures r.value.IntV? || r.value.UIntV?
  {
  }

  predicate HeadFits(r: Record) {
    r.code == ApiCode(TypeOf(r.value)) && -0x8000_0000_0000_0000 <= r.id < 0x8000_0000_0000_0000 && r.time < 0x1_0000_0000_0000_0000
  }

  /** Time and code come back behind an id that does, and what the record then holds is what is read from its packed
      value. */
  lemma RecordHeadWith(c: Cursor, id: seq<byte>, r: Record, more: seq<byte>)
    requires HeadFits(r) && Before(c, EncArrayHeader(4) + (id + (EncUint(r.time) + (EncUint(r.code) + Pack(r.value)))), more)
    requires var tail := EncUint(r.time) + (EncUint(r.code) + Pack(r.value)) + more; RdInt(After(id + tail)) == (After(tail), r.id)
    requires TypeOfCode(r.code) == IntT ==> Pack(r.value) != []
    ensures var d := After(Pack(r.value) + more);
            var t := ReadType(d, r.code);
            RdPass(c) == Got(r.(value := RdValue(d, t).1), RdValue(d, t).0)
  {
    hide RdInt, RdUint, RdUint8, RdValue, Pack, EncInt, EncUint, EncArrayHeader, RdArrayHeader, ReadType;
    var e3 := EncUint(r.code) + Pack(r.value);
    var e2 := EncUint(r.time) + e3;
    var e1 := id + e2;
    Regroup(EncArrayHeader(4), e1, more);
    HeaderRoundTrip(c, 4, e1 + more);
    Regroup(id, e2, more);
    Regroup(EncUint(r.time), e3, more);
    var c2 := After(e2 + more);
    UintRoundTrip(c2, r.time, e3 + more);
    Regroup(EncUint(r.code), Pack(r.value), more);
    var c3 := After(e3 + more);
    Uint8RoundTrip(c3, r.code, Pack(r.value) + more);
  }

  lemma RecordHead(c: Cursor, r: Record, more: seq<byte>)
    requires HeadFits(r) && Before(c, EncRecord(r), more)
    requires TypeOfCode(r.code) == IntT ==> Pack(r.value) != []
    ensures var d := After(Pack(r.value) + more);
            var t := ReadType(d, r.code);
            RdPass(c) == Got(r.(value := RdValue(d, t).1), RdValue(d, t).0)
  {
    hide RdInt, RdPass, RdValue, Pack, EncInt, EncUint, EncArrayHeader, ReadType;
    var tail := EncUint(r.time) + (EncUint(r.code) + Pack(r.value)) + more;
    IntRoundTrip(After(EncInt(r.id) + tail), r.id, tail);
    RecordHeadWith(c, EncInt(r.id), r, more);
  }

  lemma IntegersArePacked(r: Record)
    requires r.value.IntV? || r.value.UIntV?
    ensures Pack(r.value) != []
  {
  }

  lemma RecordRoundTrip(c: Cursor, r: Record, more: seq<byte>)
    requires RecordFits(r) && Before(c, EncRecord(r), more)
    ensures RdPass(c) == Got(r.(value := Received(r.value)), After(more))
  {
    hide RdPass, RdValue, Pack, EncRecord, ReadType, Received, ValueFits;
    if TypeOfCode(r.code) == IntT {
      IntegersOnly(r);
      IntegersArePacked(r);
    }
    RecordHead(c, r, more);
    ValueRoundTrip(After(Pack(r.value) + more), r.value, more);
  }

  function EncRecords(rs: seq<Record>): seq<byte> {
    if rs == [] then [] else EncRecord(rs[0]) + EncRecords(rs[1..])
  }

  function AllReceived(rs: seq<Record>): (ws: seq<Record>)
    ensures |ws| == |rs|
    ensures forall i :: 0 <= i < |rs| ==> ws[i] == rs[i].(value := Received(rs[i].value))
  {
    seq(|rs|, i requires 0 <= i < |rs| => rs[i].(value := Received(rs[i].value)))
  }

  /** The loop ends on every frame made of whole records, and yields them all, in order. */
  lemma {:induction false} FrameRoundTrip(rs: seq<Record>)
    requires forall r | r in rs :: RecordFits(r)
    ensures DecodeFrame(After(EncRecords(rs))) == (AllReceived(rs), Finished)
  {
    hide RdPass, EncRecord, RecordFits, Received;
    var c := After(EncRecords(rs));
    if rs == [] {
      NoRecord();
      assert AllReceived(rs) == [];
    } else {
      var more := EncRecords(rs[1..]);
      RecordRoundTrip(c, rs[0], more);
      FrameRoundTrip(rs[1..]);
      assert AllReceived(rs) == [rs[0].(value := Received(rs[0].value))] + AllReceived(rs[1..]);
    }
  }

  lemma NoRecord()
    ensures RdPass(After([])) == Skipped(Touch(After([])))
  {
    hide RdRecord;
  }

  lemma OneRecord(r: Record)
    requires RecordFits(r)
    ensures DecodeFrame(After(EncRecord(r))) == ([r.(value := Received(r.value))], Finished)
  {
    hide EncRecord, RecordFits, Received, DecodeFrame;
    assert [r][1..] == [];
    assert EncRecords([r]) == EncRecord(r) + [] == EncRecord(r);
    FrameRoundTrip([r]);
    assert AllReceived([r]) == [r.(value := Received(r.value))];
  }

  /** The time request of a client and the server's answer: the server reads the number that was sent, and the
      client reads the same number back, with the server's time. */
  lemma RttRoundTrip(data: uint64, now: uint64)
    ensures var request := Record(-1, 0, ApiCode(IntT), UIntV(data));
            var (asked, _) := DecodeFrame(After(EncRecord(request)));
            |asked| == 1 && asked[0].id == -1 && Number(asked[0].value) == data &&
            var reply := Record(-1, now, asked[0].code, asked[0].value);
            var (answered, ending) := DecodeFrame(After(EncRecord(reply)));
            ending == Finished && |answered| == 1 && answered[0].id == -1 && answered[0].time == now &&
            Number(answered[0].value) == data
  {
    hide EncRecord, DecodeFrame;
    var request := Record(-1, 0, ApiCode(IntT), UIntV(data));
    OneRecord(request);
    OneRecord(Record(-1, now, ApiCode(IntT), Received(UIntV(data))));
  }

  /** So is any frame of whole records with such a byte behind them: the records are read, and then nothing more. */
  lemma {:induction false} StuckBehindRecords(rs: seq<Record>, b: byte, more: seq<byte>)
    requires !Recognised(b) && forall r | r in rs :: RecordFits(r)
    ensures DecodeFrame(After(EncRecords(rs) + ([b] + more))) == (AllReceived(rs), StuckAt(After([b] + more)))
  {
    hide RdRecord, EncRecord, RecordFits, Received, Recognised, RdPass;
    if rs == [] {
      assert EncRecords(rs) + ([b] + more) == [b] + more;
      StuckAtOnce(b, more);
      assert AllReceived(rs) == [];
    } else {
      var behind := EncRecords(rs[1..]) + ([b] + more);
      Regroup(EncRecord(rs[0]), EncRecords(rs[1..]), [b] + more);
      RecordRoundTrip(After(EncRecord(rs[0]) + behind), rs[0], behind);
      StuckBehindRecords(rs[1..], b, more);
      assert AllReceived(rs) == [rs[0].(value := Received(rs[0].value))] + AllReceived(rs[1..]);
    }
  }
}
