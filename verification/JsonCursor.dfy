/** What the reader of JSON text does with the text still unread. It looks for the next character that matters
    and skips everything before it. */
module JsonCursor {
  import opened Maybes
  import opened Decimals

  /** The unread text, whether the pointer stands one past the end, and whether the error code is set. */
  datatype Cursor = Cursor(rest: string, past: bool, ec: bool)

  datatype DataType = ArrayType | ArrayEndType | ObjectType | ObjectEndType | StrType | TrueType | FalseType | IntType | NullType

  function Peek(c: Cursor): char {
    if c.rest == "" then '\0' else c.rest[0]
  }

  function Touch(c: Cursor): Cursor {
    if c.rest == "" then c.(ec := true) else c
  }

  function Step(c: Cursor): Cursor {
    if c.rest != "" then c.(rest := c.rest[1..])
    else if c.past then c.(ec := true)
    else c.(past := true)
  }

  /** safe_find_after: at least one character is taken, even after an error. */
  function FindAfter(c: Cursor, ch: char): (d: Cursor)
    ensures |d.rest| <= |c.rest| && (c.rest != "" ==> |d.rest| < |c.rest|)
    decreases |c.rest|
  {
    var d := Step(Touch(c));
    if d.ec || Peek(c) == ch then d else FindAfter(d, ch)
  }

  /** safe_find for one character. */
  function Find(c: Cursor, ch: char): (d: Cursor)
    ensures |d.rest| <= |c.rest|
    decreases |c.rest|
  {
    if Peek(c) == ch then Touch(c)
    else
      var d := Step(Touch(c));
      if d.ec then d else Find(d, ch)
  }

  /** safe_find for several characters: the error code is overwritten. */
  function FindAny(c: Cursor, chars: string): (d: Cursor)
    ensures |d.rest| <= |c.rest|
    decreases |c.rest|
  {
    if c.rest == "" then c.(ec := true)
    else if c.rest[0] in chars then c.(ec := false)
    else FindAny(c.(rest := c.rest[1..]), chars)
  }

  function UnpackKey(c: Cursor): (r: (Cursor, string))
    ensures |r.0.rest| <= |c.rest| && (c.rest != "" ==> |r.0.rest| < |c.rest|)
  {
    var d := FindAfter(c, '"');
    if d.ec then (d, "")
    else
      var e := Find(d, '"');
      if e.ec then (e, "") else (Step(e), d.rest[..|d.rest| - |e.rest|])
  }

  const NUMERIC := "0123456789-."

  /** std::from_chars for a 32-bit number. */
  datatype Chars = Invalid | TooLarge | Fits(i: int)

  function FromChars32(s: string): Chars {
    var negative := s != "" && s[0] == '-';
    match FromChars(if negative then s[1..] else s)
    case Nothing => Invalid
    case Just(k) =>
      var n: int := k;
      if negative then if n <= 0x8000_0000 then Fits(-n) else TooLarge
      else if n < 0x8000_0000 then Fits(n) else TooLarge
  }

  /** unpack_int: Nothing stands for an undetermined number, which is what a number that is too large leaves. */
  function UnpackInt(c: Cursor): (r: (Cursor, Maybe<int>))
    ensures |r.0.rest| <= |c.rest|
  {
    var d := FindAny(c, NUMERIC);
    if d.ec then (d, Just(0))
    else
      var e := FindAny(d, ",}");
      if e.ec then (e, Just(0))
      else
        match FromChars32(d.rest[..|d.rest| - |e.rest|])
        case Invalid => (e.(ec := true), Just(0))
        case TooLarge => (e, Nothing)
        case Fits(i) => (e, Just(i))
  }

  predicate IsTrue(s: string) {
    |s| >= 4 && s[0] == 't' && s[1] == 'r' && s[2] == 'u' && s[3] == 'e'
  }

  predicate IsFalse(s: string) {
    |s| >= 5 && s[0] == 'f' && s[1] == 'a' && s[2] == 'l' && s[3] == 's' && s[4] == 'e'
  }

  predicate IsNull(s: string) {
    |s| >= 4 && s[0] == 'n' && s[1] == 'u' && s[2] == 'l' && s[3] == 'l'
  }

  function UnpackBool(c: Cursor): (r: (Cursor, bool))
    ensures |r.0.rest| <= |c.rest|
    decreases |c.rest|
  {
    var d := Touch(c);
    if d.ec then (d, false)
    else if IsTrue(c.rest) then (c.(rest := c.rest[4..]), true)
    else if IsFalse(c.rest) then (c.(rest := c.rest[5..]), false)
    else UnpackBool(c.(rest := c.rest[1..]))
  }

  function TypeAt(s: string): Maybe<DataType>
    requires s != ""
  {
    if s[0] == '[' then Just(ArrayType)
    else if s[0] == ']' then Just(ArrayEndType)
    else if s[0] == '{' then Just(ObjectType)
    else if s[0] == '}' then Just(ObjectEndType)
    else if s[0] == '"' then Just(StrType)
    else if IsDigit(s[0]) || s[0] == '-' || s[0] == '.' then Just(IntType)
    else if IsTrue(s) then Just(TrueType)
    else if IsFalse(s) then Just(FalseType)
    else if IsNull(s) then Just(NullType)
    else Nothing
  }

  /** peek_type: Nothing is its OutOfRange. */
  function PeekType(s: string): (t: Maybe<DataType>)
    ensures t.Just? ==> s != ""
  {
    if s == "" then Nothing
    else
      var t := TypeAt(s);
      if t.Just? then t else PeekType(s[1..])
  }

  function PeekOr(s: string): DataType {
    match PeekType(s) case Nothing => NullType case Just(t) => t
  }

  predicate IsBool(t: DataType) {
    t == TrueType || t == FalseType
  }

  // ------------------------------------------------------------ on well-formed text

  /** A cursor on this text, with no error. */
  function On(s: string): Cursor {
    Cursor(s, false, false)
  }

  lemma {:induction false} FindAfterSkips(skip: string, ch: char, more: string)
    requires ch !in skip
    ensures FindAfter(On(skip + ([ch] + more)), ch) == On(more)
  {
    var s := skip + ([ch] + more);
    if skip == "" {
      assert s == [ch] + more && s[1..] == more;
    } else {
      assert s[0] == skip[0] && skip[0] in skip;
      assert s[1..] == skip[1..] + ([ch] + more);
      FindAfterSkips(skip[1..], ch, more);
    }
  }

  lemma {:induction false} FindSkips(skip: string, ch: char, more: string)
    requires ch !in skip
    ensures Find(On(skip + ([ch] + more)), ch) == On([ch] + more)
  {
    var s := skip + ([ch] + more);
    if skip == "" {
      assert s == [ch] + more;
    } else {
      assert s[0] == skip[0] && skip[0] in skip;
      assert s[1..] == skip[1..] + ([ch] + more);
      FindSkips(skip[1..], ch, more);
    }
  }

  /** A string in quotes. */
  function Quoted(s: string, more: string): string {
    ['"'] + (s + (['"'] + more))
  }

  lemma KeyRoundTrip(skip: string, s: string, more: string)
    requires '"' !in skip && '"' !in s
    ensures UnpackKey(On(skip + Quoted(s, more))) == (On(more), s)
  {
    hide FindAfter, Find;
    FindAfterSkips(skip, '"', s + (['"'] + more));
    FindSkips(s, '"', more);
    var d := s + (['"'] + more);
    assert d[..|d| - |['"'] + more|] == s;
    assert (['"'] + more)[1..] == more;
  }

  lemma {:induction false} FindAnySkips(skip: string, chars: string, rest: string, past: bool, ec: bool)
    requires rest != "" && rest[0] in chars && forall c | c in skip :: c !in chars
    ensures FindAny(Cursor(skip + rest, past, ec), chars) == Cursor(rest, past, false)
  {
    if skip == "" {
      assert skip + rest == rest;
    } else {
      assert (skip + rest)[0] == skip[0] && skip[0] in skip;
      assert (skip + rest)[1..] == skip[1..] + rest;
      FindAnySkips(skip[1..], chars, rest, past, ec);
    }
  }

  lemma Int32FromChars(i: int)
    requires -0x8000_0000 <= i < 0x8000_0000
    ensures FromChars32(IntText(i)) == Fits(i)
  {
    hide Digits, FromChars;
    if i < 0 {
      assert IntText(i)[1..] == Digits(-i) && Digits(-i) + "" == Digits(-i);
      DecimalRoundTrip(-i, "");
    } else {
      assert Digits(i)[0] in Digits(i) && Digits(i) + "" == Digits(i);
      DecimalRoundTrip(i, "");
    }
  }

  lemma NumericText(i: int)
    ensures IntText(i) != "" && IntText(i)[0] in NUMERIC
    ensures forall c | c in IntText(i) :: c !in ",}"
  {
    var d := Digits(if i < 0 then -i else i);
    assert d[0] in d && IsDigit(d[0]);
    DigitsAreNumeric(d[0]);
    assert "0123456789-."[10] == '-';
    forall c | c in IntText(i) ensures c !in ",}" {
      assert c == '-' || c in d;
    }
  }

  lemma DigitsAreNumeric(c: char)
    requires IsDigit(c)
    ensures c in NUMERIC
  {
    assert "0123456789-."[ValueOf(c)] == c;
  }

  /** A number followed by a comma or a closing brace, which stays unread. */
  lemma IntRoundTrip(skip: string, i: int, more: string)
    requires -0x8000_0000 <= i < 0x8000_0000 && more != "" && more[0] in ",}"
    requires forall c | c in skip :: c !in NUMERIC
    ensures UnpackInt(On(skip + (IntText(i) + more))) == (On(more), Just(i))
  {
    hide FindAny, IntText, FromChars32;
    NumericText(i);
    var text := IntText(i);
    FindAnySkips(skip, NUMERIC, text + more, false, false);
    FindAnySkips(text, ",}", more, false, false);
    assert (text + more)[..|text + more| - |more|] == text;
    Int32FromChars(i);
  }

  lemma BoolRoundTrip(b: bool, more: string)
    ensures UnpackBool(On([':'] + (BoolText(b) + more))) == (On(more), b)
  {
    var s := BoolText(b) + more;
    assert ([':'] + s)[1..] == s;
    assert UnpackBool(On([':'] + s)) == UnpackBool(On(s));
    if b { assert s[4..] == more; } else { assert s[5..] == more; }
  }

  /** Characters that peek_type passes over. */
  predicate Passed(c: char) {
    c == ',' || c == ':'
  }

  lemma PeekSkips(c: char, rest: string)
    requires Passed(c)
    ensures PeekType([c] + rest) == PeekType(rest)
  {
    assert ([c] + rest)[1..] == rest;
  }
}
