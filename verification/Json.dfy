/** Compact JSON (RFC 8259): a reader of it, and what comes of strings that are put in without escaping them. */
module Json {
  import opened Maybes
  import opened Decimals

  // ------------------------------------------------------------ a reader of JSON

  datatype Value =
    | JString(s: string)
    | JNumber(i: int)
    | JBool(b: bool)
    | JObject(fields: Fields)
    | JArray(items: Items)
  datatype Fields = NoField | Field(key: string, value: Value, others: Fields)
  datatype Items = NoItem | Item(first: Value, others: Items)

  /** A character that stands for itself inside quotes: unescaped in section 7. */
  predicate Unescaped(c: char) {
    c >= ' ' && c != '"' && c != '\\'
  }

  predicate AllUnescaped(s: string) {
    forall c | c in s :: Unescaped(c)
  }

  /** The characters of a string without escapes up to the closing quote, and what is behind the quote. */
  function StringAt(s: string): Maybe<(string, string)> {
    if s == "" then Nothing
    else if s[0] == '"' then Just(("", s[1..]))
    else if !Unescaped(s[0]) then Nothing
    else
      match StringAt(s[1..])
      case Nothing => Nothing
      case Just((t, rest)) => Just(([s[0]] + t, rest))
  }

  /** A whole number and what is behind its last digit. */
  function NumberAt(s: string): Maybe<(int, string)> {
    var minus := s != "" && s[0] == '-';
    var digits := if minus then s[1..] else s;
    match FromChars(digits)
    case Nothing => Nothing
    case Just(n) =>
      var i: int := n;
      Just((if minus then -i else i, digits[|Leading(digits)|..]))
  }

  predicate At(c: char, s: string) {
    s != "" && s[0] == c
  }

  function ValueAt(s: string): (r: Maybe<(Value, string)>)
    ensures r.Just? ==> |r.value.1| < |s|
    decreases |s|, 0
  {
    if At('"', s) then
      StringShrinks(s[1..]);
      match StringAt(s[1..]) case Nothing => Nothing case Just((t, rest)) => Just((JString(t), rest))
    else if "true" <= s then Just((JBool(true), s[4..]))
    else if "false" <= s then Just((JBool(false), s[5..]))
    else if At('{', s) then
      if At('}', s[1..]) then Just((JObject(NoField), s[2..]))
      else match FieldsAt(s[1..]) case Nothing => Nothing case Just((fs, rest)) => Just((JObject(fs), rest))
    else if At('[', s) then
      if At(']', s[1..]) then Just((JArray(NoItem), s[2..]))
      else match ItemsAt(s[1..]) case Nothing => Nothing case Just((xs, rest)) => Just((JArray(xs), rest))
    else
      match NumberAt(s) case Nothing => Nothing case Just((i, rest)) => Just((JNumber(i), rest))
  }

  /** The fields of an object, at least one, and what is behind its closing brace. */
  function FieldsAt(s: string): (r: Maybe<(Fields, string)>)
    ensures r.Just? ==> |r.value.1| < |s|
    decreases |s|, 1
  {
    if !At('"', s) then Nothing
    else
      StringShrinks(s[1..]);
      match StringAt(s[1..])
      case Nothing => Nothing
      case Just((key, rest)) =>
        if !At(':', rest) then Nothing
        else
          match ValueAt(rest[1..])
          case Nothing => Nothing
          case Just((v, more)) =>
            if At('}', more) then Just((Field(key, v, NoField), more[1..]))
            else if !At(',', more) then Nothing
            else
              match FieldsAt(more[1..])
              case Nothing => Nothing
              case Just((fs, end)) => Just((Field(key, v, fs), end))
  }

  /** The elements of an array, at least one, and what is behind its closing bracket. */
  function ItemsAt(s: string): (r: Maybe<(Items, string)>)
    ensures r.Just? ==> |r.value.1| < |s|
    decreases |s|, 1
  {
    match ValueAt(s)
    case Nothing => Nothing
    case Just((v, more)) =>
      if At(']', more) then Just((Item(v, NoItem), more[1..]))
      else if !At(',', more) then Nothing
      else
        match ItemsAt(more[1..])
        case Nothing => Nothing
        case Just((xs, end)) => Just((Item(v, xs), end))
  }

  /** A whole text as one JSON value. */
  function ParseJson(s: string): Maybe<Value> {
    match ValueAt(s)
    case Nothing => Nothing
    case Just((v, rest)) => if rest == "" then Just(v) else Nothing
  }

  lemma {:induction false} StringShrinks(s: string)
    ensures StringAt(s).Just? ==> |StringAt(s).value.1| < |s|
  {
    if s != "" && s[0] != '"' && Unescaped(s[0]) {
      StringShrinks(s[1..]);
    }
  }

  // ------------------------------------------------------------ reading what was written

  lemma {:induction false} StringRead(t: string, more: string)
    ensures AllUnescaped(t) ==> StringAt(t + "\"" + more) == Just((t, more))
    ensures !AllUnescaped(t) && StringAt(t + "\"" + more).Just? ==> |StringAt(t + "\"" + more).value.0| < |t|
  {
    var s := t + "\"" + more;
    if t == "" {
      assert s[1..] == more;
    } else {
      assert s[1..] == t[1..] + "\"" + more;
      StringRead(t[1..], more);
      assert t == [t[0]] + t[1..];
      assert AllUnescaped(t) <==> Unescaped(t[0]) && AllUnescaped(t[1..]);
    }
  }

  lemma NumberRead(i: int, more: string)
    requires more == "" || !IsDigit(more[0])
    ensures NumberAt(IntText(i) + more) == Just((i, more))
    ensures IntText(i) != "" && (IsDigit(IntText(i)[0]) || IntText(i)[0] == '-')
  {
    hide FromChars, Leading, Digits;
    var n := if i < 0 then -i else i;
    var d := Digits(n);
    assert d[0] in d;
    LeadingDigits(d, more);
    DecimalRoundTrip(n, more);
    assert (d + more)[|d|..] == more;
    if i < 0 {
      assert ("-" + d + more)[1..] == d + more;
    } else {
      assert (d + more)[0] == d[0];
    }
  }

  /** A value as compact JSON, its strings put in as they are. */
  function Put(v: Value): string {
    match v
    case JString(s) => "\"" + s + "\""
    case JNumber(i) => IntText(i)
    case JBool(b) => BoolText(b)
    case JObject(fs) => "{" + PutFields(fs)
    case JArray(xs) => "[" + PutItems(xs)
  }

  function Label(key: string): string {
    "\"" + key + "\":"
  }

  function PutFields(fs: Fields): string {
    match fs
    case NoField => "}"
    case Field(key, v, others) =>
      Label(key) + Put(v) + if others.NoField? then "}" else "," + PutFields(others)
  }

  function PutItems(xs: Items): string {
    match xs
    case NoItem => "]"
    case Item(v, others) => Put(v) + if others.NoItem? then "]" else "," + PutItems(others)
  }

  /** No string of the value needs an escape. */
  predicate Plain(v: Value) {
    match v
    case JString(s) => AllUnescaped(s)
    case JNumber(_) => true
    case JBool(_) => true
    case JObject(fs) => PlainFields(fs)
    case JArray(xs) => PlainItems(xs)
  }

  predicate PlainFields(fs: Fields) {
    fs.Field? ==> AllUnescaped(fs.key) && Plain(fs.value) && PlainFields(fs.others)
  }

  predicate PlainItems(xs: Items) {
    xs.Item? ==> Plain(xs.first) && PlainItems(xs.others)
  }

  /** The value is read from the text exactly if no string in it needs an escape. */
  lemma {:induction false} ValueReadIff(v: Value, more: string)
    requires more == "" || !IsDigit(more[0])
    ensures Plain(v) ==> ValueAt(Put(v) + more) == Just((v, more))
    ensures !Plain(v) ==> ValueAt(Put(v) + more).Nothing? || ValueAt(Put(v) + more).value.0 != v
    ensures Put(v) != "" && Put(v)[0] !in "}]"
  {
    match v
    case JString(t) => StringValue(t, more);
    case JNumber(i) => NumberValue(i, more);
    case JBool(b) => BoolValue(b, more);
    case JObject(fs) =>
      if fs.Field? { FieldsReadIff(fs, more); }
      ObjectValue(fs, more);
    case JArray(xs) =>
      if xs.Item? { ItemsReadIff(xs, more); }
      ArrayValue(xs, more);
  }

  lemma StringValue(t: string, more: string)
    ensures var s := Put(JString(t)) + more;
            (AllUnescaped(t) ==> ValueAt(s) == Just((JString(t), more))) &&
            (!AllUnescaped(t) ==> ValueAt(s).Nothing? || ValueAt(s).value.0 != JString(t))
  {
    hide StringAt, AllUnescaped;
    StringRead(t, more);
    assert (Put(JString(t)) + more)[1..] == t + "\"" + more;
  }

  lemma NumberValue(i: int, more: string)
    requires more == "" || !IsDigit(more[0])
    ensures ValueAt(Put(JNumber(i)) + more) == Just((JNumber(i), more))
    ensures Put(JNumber(i)) != "" && Put(JNumber(i))[0] !in "}]"
  {
    hide NumberAt, IntText;
    NumberRead(i, more);
    assert (IntText(i) + more)[0] == IntText(i)[0];
  }

  lemma BoolValue(b: bool, more: string)
    ensures ValueAt(Put(JBool(b)) + more) == Just((JBool(b), more))
  {
    hide StringAt, NumberAt, FieldsAt, ItemsAt;
    var s := BoolText(b) + more;
    assert s[|BoolText(b)|..] == more;
    assert BoolText(b) <= s;
    if !b { assert s[0] == 'f'; }
  }

  lemma ObjectValue(fs: Fields, more: string)
    requires fs.Field? ==> PutFields(fs)[0] == '"'
    ensures var s := Put(JObject(fs)) + more;
            if fs.NoField? then ValueAt(s) == Just((JObject(fs), more))
            else match FieldsAt(PutFields(fs) + more)
                 case Nothing => ValueAt(s).Nothing?
                 case Just((gs, rest)) => ValueAt(s) == Just((JObject(gs), rest))
  {
    hide FieldsAt;
    var s := Put(JObject(fs)) + more;
    assert s[1..] == PutFields(fs) + more && s[0] == '{';
    assert fs.NoField? ==> s[2..] == more;
  }

  lemma ArrayValue(xs: Items, more: string)
    requires xs.Item? ==> PutItems(xs) != "" && PutItems(xs)[0] != ']'
    ensures var s := Put(JArray(xs)) + more;
            if xs.NoItem? then ValueAt(s) == Just((JArray(xs), more))
            else match ItemsAt(PutItems(xs) + more)
                 case Nothing => ValueAt(s).Nothing?
                 case Just((ys, rest)) => ValueAt(s) == Just((JArray(ys), rest))
  {
    hide ItemsAt;
    var s := Put(JArray(xs)) + more;
    assert s[1..] == PutItems(xs) + more && s[0] == '[';
    assert xs.NoItem? ==> s[2..] == more;
  }

  lemma {:induction false} FieldsReadIff(fs: Fields, more: string)
    requires fs.Field?
    ensures PlainFields(fs) ==> FieldsAt(PutFields(fs) + more) == Just((fs, more))
    ensures !PlainFields(fs) ==> FieldsAt(PutFields(fs) + more).Nothing? || FieldsAt(PutFields(fs) + more).value.0 != fs
    ensures PutFields(fs)[0] == '"'
  {
    hide StringAt, AllUnescaped, ValueAt, Plain, Put, FieldsAt, PutFields;
    var behind := if fs.others.NoField? then "}" + more else "," + PutFields(fs.others) + more;
    var value := Put(fs.value) + behind;
    FieldPut(fs, more);
    StringRead(fs.key, ":" + value);
    ValueReadIff(fs.value, behind);
    if fs.others.Field? { FieldsReadIff(fs.others, more); } else { assert PlainFields(fs.others); }
    FieldRead(fs.key, value);
  }

  /** What stands behind the key and the value of a field. */
  lemma FieldPut(fs: Fields, more: string)
    requires fs.Field?
    ensures var behind := if fs.others.NoField? then "}" + more else "," + PutFields(fs.others) + more;
            PutFields(fs) + more == "\"" + fs.key + "\":" + (Put(fs.value) + behind) && PutFields(fs)[0] == '"' &&
            behind[1..] == if fs.others.NoField? then more else PutFields(fs.others) + more
  {
    hide Put, Label;
    var tail := if fs.others.NoField? then "}" else "," + PutFields(fs.others);
    var k, value := Label(fs.key), Put(fs.value);
    assert PutFields(fs) == k + value + tail;
    hide PutFields;
    Grouped(k, value, tail, more);
    Quoted(fs.key);
    FirstOf(k, value + tail);
    Regrouped(k, value, tail);
    Behind(if fs.others.NoField? then "}" else ",", if fs.others.NoField? then "" else PutFields(fs.others), more);
  }

  lemma FirstOf(a: string, b: string)
    requires a != ""
    ensures (a + b)[0] == a[0]
  {
  }

  lemma Regrouped(a: string, b: string, c: string)
    ensures a + b + c == a + (b + c)
  {
  }

  lemma Behind(first: string, rest: string, more: string)
    requires |first| == 1
    ensures (first + rest + more)[1..] == rest + more && first + "" == first && "" + more == more
  {
  }

  lemma Grouped(a: string, b: string, c: string, d: string)
    ensures a + b + c + d == a + (b + (c + d))
  {
  }

  lemma Quoted(key: string)
    ensures Label(key) == "\"" + key + "\":" && Label(key) != "" && Label(key)[0] == '"'
  {
  }

  /** How one field is read. */
  lemma FieldRead(key: string, value: string)
    ensures var s := "\"" + key + "\":" + value;
            match StringAt(key + "\"" + (":" + value))
            case Nothing => FieldsAt(s).Nothing?
            case Just((k, rest)) =>
              (FieldsAt(s).Just? ==> FieldsAt(s).value.0.Field? && FieldsAt(s).value.0.key == k) &&
              (rest == ":" + value ==>
                match ValueAt(value)
                case Nothing => FieldsAt(s).Nothing?
                case Just((v, more)) =>
                  if At('}', more) then FieldsAt(s) == Just((Field(k, v, NoField), more[1..]))
                  else if !At(',', more) || FieldsAt(more[1..]).Nothing? then FieldsAt(s).Nothing?
                  else FieldsAt(s) == Just((Field(k, v, FieldsAt(more[1..]).value.0), FieldsAt(more[1..]).value.1)))
  {
    hide StringAt, ValueAt;
    var s := "\"" + key + "\":" + value;
    assert s[1..] == key + "\"" + (":" + value);
    assert (":" + value)[1..] == value;
  }

  lemma {:induction false} ItemsReadIff(xs: Items, more: string)
    requires xs.Item?
    ensures PlainItems(xs) ==> ItemsAt(PutItems(xs) + more) == Just((xs, more))
    ensures !PlainItems(xs) ==> ItemsAt(PutItems(xs) + more).Nothing? || ItemsAt(PutItems(xs) + more).value.0 != xs
    ensures PutItems(xs) != "" && PutItems(xs)[0] != ']'
  {
    hide ValueAt, Plain, Put;
    var behind := if xs.others.NoItem? then "]" + more else "," + PutItems(xs.others) + more;
    assert PutItems(xs) + more == Put(xs.first) + behind;
    ValueReadIff(xs.first, behind);
    if xs.others.Item? { ItemsReadIff(xs.others, more); } else { assert PlainItems(xs.others); }
    assert behind[1..] == if xs.others.NoItem? then more else PutItems(xs.others) + more;
    assert xs == Item(xs.first, xs.others);
    assert PutItems(xs)[0] == Put(xs.first)[0];
  }
}
