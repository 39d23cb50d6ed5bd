/** Numbers as decimal digits: std::to_string, and std::from_chars on what it wrote. */
module Decimals {
  import opened Maybes

  predicate IsDigit(c: char) {
    '0' <= c <= '9'
  }

  function DigitOf(d: nat): (c: char)
    requires d < 10
    ensures IsDigit(c)
  {
    '0' + d as char
  }

  function ValueOf(c: char): (d: nat)
    requires IsDigit(c)
    ensures d < 10
  {
    (c - '0') as nat
  }

  predicate AllDigits(s: string) {
    forall c | c in s :: IsDigit(c)
  }

  /** std::to_string of a natural number. */
  function Digits(n: nat): (s: string)
    ensures s != "" && AllDigits(s)
  {
    if n < 10 then [DigitOf(n)] else Digits(n / 10) + [DigitOf(n % 10)]
  }

  function Number(s: string): nat
    requires AllDigits(s)
  {
    if s == "" then 0 else 10 * Number(s[..|s| - 1]) + ValueOf(s[|s| - 1])
  }

  /** The digits that a text starts with. */
  function Leading(s: string): (t: string)
    ensures AllDigits(t) && t <= s
    ensures |t| < |s| ==> !IsDigit(s[|t|])
  {
    if s == "" || !IsDigit(s[0]) then "" else [s[0]] + Leading(s[1..])
  }

  /** std::from_chars for an unsigned number of unbounded size; Nothing is its invalid_argument. */
  function FromChars(s: string): Maybe<nat> {
    if Leading(s) == "" then Nothing else Just(Number(Leading(s)))
  }

  lemma {:induction false} NumberOfDigits(n: nat)
    ensures Number(Digits(n)) == n
  {
    if n >= 10 {
      NumberOfDigits(n / 10);
      assert Digits(n)[..|Digits(n)| - 1] == Digits(n / 10);
    } else {
      assert Digits(n)[..0] == "";
    }
  }

  lemma {:induction false} LeadingDigits(s: string, more: string)
    requires AllDigits(s) && (more == "" || !IsDigit(more[0]))
    ensures Leading(s + more) == s
  {
    if s == "" {
      assert s + more == more;
    } else {
      assert s[0] in s;
      assert (s + more)[1..] == s[1..] + more;
      LeadingDigits(s[1..], more);
      assert [s[0]] + s[1..] == s;
    }
  }

  /** A written number reads back as itself, whatever other text follows it. */
  lemma DecimalRoundTrip(n: nat, more: string)
    requires more == "" || !IsDigit(more[0])
    ensures FromChars(Digits(n) + more) == Just(n)
  {
    LeadingDigits(Digits(n), more);
    NumberOfDigits(n);
  }

  /** std::to_string of an integer. */
  function IntText(i: int): string {
    if i < 0 then "-" + Digits(-i) else Digits(i)
  }

  function BoolText(b: bool): string {
    if b then "true" else "false"
  }
}
