/** The Base 64 encoding of RFC 4648, section 4: the loop of the code, the encoding as the RFC
    describes it, and a strict decoder that accepts the encodings and nothing else. */
module Base64 {
  import opened Maybes
  type Octet = bv8

  const ROW0: string := "ABCDEFGHIJKLM"
  const ROW1: string := "NOPQRSTUVWXYZ"
  const ROW2: string := "abcdefghijklm"
  const ROW3: string := "nopqrstuvwxyz"
  const ROW4: string := "0123456789+/"

  /** Table 1 of RFC 4648. */
  const TABLE: string := ROW0 + ROW1 + ROW2 + ROW3 + ROW4

  function Char(x: Octet): char
    requires x < 64
  {
    TABLE[x as nat]
  }

  /** The value of an alphabet character, by its place in the character ranges; 64 for any other character. */
  function Place(c: char): nat {
    if 'A' <= c <= 'Z' then c as nat - 65
    else if 'a' <= c <= 'z' then c as nat - 71
    else if '0' <= c <= '9' then c as nat + 4
    else if c == '+' then 62
    else if c == '/' then 63
    else 64
  }

  function Digit(c: char): (d: Maybe<Octet>)
    ensures d.Just? ==> d.value < 64
  {
    if Place(c) < 64 then Just(Place(c) as Octet) else Nothing
  }

  lemma Row0(i: nat)
    requires i < 13
    ensures ROW0[i] as nat == 65 + i
  {
  }

  lemma Row1(i: nat)
    requires i < 13
    ensures ROW1[i] as nat == 78 + i
  {
  }

  lemma Row2(i: nat)
    requires i < 13
    ensures ROW2[i] as nat == 97 + i
  {
  }

  lemma Row3(i: nat)
    requires i < 13
    ensures ROW3[i] as nat == 110 + i
  {
  }

  lemma Row4(i: nat)
    requires i < 12
    ensures i < 10 ==> ROW4[i] as nat == 48 + i
    ensures i == 10 ==> ROW4[i] == '+'
    ensures i == 11 ==> ROW4[i] == '/'
  {
  }

  lemma TableAt(i: nat)
    requires i < 64
    ensures |TABLE| == 64
    ensures TABLE[i] == if i < 13 then ROW0[i] else if i < 26 then ROW1[i - 13] else if i < 39 then ROW2[i - 26]
                        else if i < 52 then ROW3[i - 39] else ROW4[i - 52]
  {
  }

  lemma PlaceOfUpper(i: nat)
    requires i < 26
    ensures Place(TABLE[i]) == i
  {
    TableAt(i);
    if i < 13 { Row0(i); } else { Row1(i - 13); }
  }

  lemma PlaceOfLower(i: nat)
    requires 26 <= i < 52
    ensures Place(TABLE[i]) == i
  {
    TableAt(i);
    if i < 39 { Row2(i - 26); } else { Row3(i - 39); }
  }

  lemma PlaceOfOther(i: nat)
    requires 52 <= i < 64
    ensures Place(TABLE[i]) == i
  {
    TableAt(i);
    Row4(i - 52);
  }

  lemma OctetThereAndBack(x: Octet)
    ensures (x as nat) as Octet == x
  {
  }

  /** Every six-bit value is recovered from its character. */
  lemma DigitOfChar(x: Octet)
    requires x < 64
    ensures Digit(Char(x)) == Just(x)
  {
    var i := x as nat;
    if i < 26 { PlaceOfUpper(i); } else if i < 52 { PlaceOfLower(i); } else { PlaceOfOther(i); }
    OctetThereAndBack(x);
  }

  /** Every alphabet character is the character of its value. */
  lemma CharOfDigit(c: char)
    requires Digit(c).Just?
    ensures Char(Digit(c).value) == c
  {
    var i := Place(c);
    NatThereAndBack(i);
    TableAt(i);
    if i < 13 { Row0(i); } else if i < 26 { Row1(i - 13); } else if i < 39 { Row2(i - 26); }
    else if i < 52 { Row3(i - 39); } else { Row4(i - 52); }
  }

  lemma NatThereAndBack(i: nat)
    requires i < 64
    ensures (i as Octet) as nat == i
  {
  }

  // The three octets of four six-bit groups.

  function FirstOctet(p: Octet, q: Octet): Octet { (p << 2) | (q >> 4) }

  function SecondOctet(q: Octet, r: Octet): Octet { ((q & 0xF) << 4) | (r >> 2) }

  function ThirdOctet(r: Octet, s: Octet): Octet { ((r & 0x3) << 6) | s }

  // The four six-bit groups of up to three octets, leftmost bits first.

  function First(x: Octet): (r: Octet)
    ensures r < 64
  {
    (x >> 2) & 0x3F
  }

  function Second(x: Octet, y: Octet): (r: Octet)
    ensures r < 64
  {
    ((x & 0x3) << 4) | ((y & 0xF0) >> 4)
  }

  function Third(y: Octet, z: Octet): (r: Octet)
    ensures r < 64
  {
    ((y & 0xF) << 2) | ((z & 0xC0) >> 6)
  }

  function Fourth(z: Octet): (r: Octet)
    ensures r < 64
  {
    z & 0x3F
  }

  /** The second group of a lone last octet. */
  function SecondOfOne(x: Octet): (r: Octet)
    ensures r == Second(x, 0)
  {
    (x & 0x3) << 4
  }

  /** The third group of a last pair. */
  function ThirdOfTwo(y: Octet): (r: Octet)
    ensures r == Third(y, 0)
  {
    (y & 0xF) << 2
  }

  /** The encoding of RFC 4648, section 4, with zero bits and '=' padding for a short last group. */
  function Encode(d: seq<Octet>): string
  {
    if |d| == 0 then []
    else if |d| == 1 then [Char(First(d[0])), Char(Second(d[0], 0)), '=', '=']
    else if |d| == 2 then [Char(First(d[0])), Char(Second(d[0], d[1])), Char(Third(d[1], 0)), '=']
    else [Char(First(d[0])), Char(Second(d[0], d[1])), Char(Third(d[1], d[2])), Char(Fourth(d[2]))] + Encode(d[3..])
  }

  lemma {:induction false} EncodeLength(d: seq<Octet>)
    ensures |Encode(d)| == 4 * ((|d| + 2) / 3)
  {
    if |d| < 3 {
    } else {
      EncodeLength(d[3..]);
    }
  }

  /** One quantum of four characters: one to three octets, or nothing if it is not a canonical quantum. */
  function DecodeQuantum(a: char, b: char, c: char, d: char): Maybe<seq<Octet>> {
    if Digit(a).Nothing? || Digit(b).Nothing? then Nothing
    else
      var p, q := Digit(a).value, Digit(b).value;
      var x := FirstOctet(p, q);
      if c == '=' then
        if d == '=' && q & 0xF == 0 then Just([x]) else Nothing
      else if Digit(c).Nothing? then Nothing
      else
        var r := Digit(c).value;
        var y := SecondOctet(q, r);
        if d == '=' then
          if r & 0x3 == 0 then Just([x, y]) else Nothing
        else if Digit(d).Nothing? then Nothing
        else Just([x, y, ThirdOctet(r, Digit(d).value)])
  }

  /** A strict decoder: whole quanta, padding in the last one only, unused bits zero. */
  function Decode(s: string): Maybe<seq<Octet>> {
    if |s| == 0 then Just([])
    else if |s| < 4 then Nothing
    else
      var q := DecodeQuantum(s[0], s[1], s[2], s[3]);
      if q.Nothing? then Nothing
      else if |s| == 4 then q
      else if |q.value| < 3 then Nothing
      else
        var rest := Decode(s[4..]);
        if rest.Nothing? then Nothing else Just(q.value + rest.value)
  }

  lemma SplitOctets(x: Octet, y: Octet, z: Octet)
    ensures FirstOctet(First(x), Second(x, y)) == x
    ensures SecondOctet(Second(x, y), Third(y, z)) == y
    ensures ThirdOctet(Third(y, z), Fourth(z)) == z
    ensures Second(x, 0) & 0xF == 0 && Third(y, 0) & 0x3 == 0
  {
  }

  lemma JoinSextets(p: Octet, q: Octet, r: Octet, s: Octet)
    requires p < 64 && q < 64 && r < 64 && s < 64
    ensures var x := FirstOctet(p, q);
      var y := SecondOctet(q, r);
      var z := ThirdOctet(r, s);
      && First(x) == p && Second(x, y) == q && Third(y, z) == r && Fourth(z) == s
      && (q & 0xF == 0 ==> Second(x, 0) == q) && (r & 0x3 == 0 ==> Third(y, 0) == r)
  {
  }

  lemma NotPadding(x: Octet)
    requires x < 64
    ensures Char(x) != '='
  {
    DigitOfChar(x);
    assert Place('=') == 64;
  }

  lemma DigitsOfQuantum(x: Octet, y: Octet, z: Octet)
    ensures Digit(Char(First(x))) == Just(First(x))
    ensures Digit(Char(Second(x, y))) == Just(Second(x, y))
    ensures Digit(Char(Third(y, z))) == Just(Third(y, z))
    ensures Digit(Char(Fourth(z))) == Just(Fourth(z))
    ensures Char(Third(y, z)) != '=' && Char(Fourth(z)) != '='
  {
    hide Char, First, Second, Third, Fourth, Digit;
    DigitOfChar(First(x));
    DigitOfChar(Second(x, y));
    DigitOfChar(Third(y, z));
    DigitOfChar(Fourth(z));
    NotPadding(Third(y, z));
    NotPadding(Fourth(z));
  }

  lemma QuantumRoundTrip(d: seq<Octet>)
    requires 1 <= |d| <= 3
    ensures var s := Encode(d); |s| == 4 && DecodeQuantum(s[0], s[1], s[2], s[3]) == Just(d)
  {
    var x := d[0];
    var y := if |d| > 1 then d[1] else 0;
    var z := if |d| > 2 then d[2] else 0;
    hide Char, First, Second, Third, Fourth, FirstOctet, SecondOctet, ThirdOctet, Digit;
    SplitOctets(x, y, z);
    DigitsOfQuantum(x, y, z);
    if |d| == 1 {
      assert d == [x];
    } else if |d| == 2 {
      assert d == [x, y];
    } else {
      assert d == [x, y, z] && d[3..] == [];
    }
  }

  lemma EncodeJoin(q: seq<Octet>, rest: seq<Octet>)
    requires |q| == 3
    ensures |Encode(q)| == 4 && Encode(q + rest) == Encode(q) + Encode(rest)
  {
    hide Char, First, Second, Third, Fourth;
    assert (q + rest)[3..] == rest;
    assert q[3..] == [] && Encode([]) == [];
  }

  /** Decoding inverts encoding, for every byte string. */
  lemma {:induction false} DecodeEncode(d: seq<Octet>)
    ensures Decode(Encode(d)) == Just(d)
  {
    if |d| == 0 {
    } else if |d| <= 3 {
      hide DecodeQuantum, Encode;
      QuantumRoundTrip(d);
    } else {
      hide DecodeQuantum, Encode;
      var q, rest := d[..3], d[3..];
      assert d == q + rest;
      EncodeJoin(q, rest);
      QuantumRoundTrip(q);
      DecodeEncode(rest);
      EncodeLength(rest);
      var s := Encode(q) + Encode(rest);
      assert s[4..] == Encode(rest);
    }
  }

  lemma OneIsCanonical(p: Octet, q: Octet)
    requires p < 64 && q < 64 && q & 0xF == 0
    ensures Encode([FirstOctet(p, q)]) == [Char(p), Char(q), '=', '=']
  {
    JoinSextets(p, q, 0, 0);
    hide Char, First, Second, Third, Fourth, FirstOctet, SecondOctet, ThirdOctet;
  }

  lemma TwoIsCanonical(p: Octet, q: Octet, r: Octet)
    requires p < 64 && q < 64 && r < 64 && r & 0x3 == 0
    ensures Encode([FirstOctet(p, q), SecondOctet(q, r)]) == [Char(p), Char(q), Char(r), '=']
  {
    JoinSextets(p, q, r, 0);
    hide Char, First, Second, Third, Fourth, FirstOctet, SecondOctet, ThirdOctet;
  }

  lemma ThreeIsCanonical(p: Octet, q: Octet, r: Octet, s: Octet)
    requires p < 64 && q < 64 && r < 64 && s < 64
    ensures Encode([FirstOctet(p, q), SecondOctet(q, r), ThirdOctet(r, s)]) == [Char(p), Char(q), Char(r), Char(s)]
  {
    JoinSextets(p, q, r, s);
    hide Char, First, Second, Third, Fourth, FirstOctet, SecondOctet, ThirdOctet;
    var d := [FirstOctet(p, q), SecondOctet(q, r), ThirdOctet(r, s)];
    assert d[3..] == [];
  }

  lemma QuantumIsCanonical(a: char, b: char, c: char, d: char)
    requires DecodeQuantum(a, b, c, d).Just?
    ensures 1 <= |DecodeQuantum(a, b, c, d).value| <= 3
    ensures Encode(DecodeQuantum(a, b, c, d).value) == [a, b, c, d]
  {
    hide Char, Encode, Digit, FirstOctet, SecondOctet, ThirdOctet;
    CharOfDigit(a);
    CharOfDigit(b);
    var p, q := Digit(a).value, Digit(b).value;
    if c == '=' {
      OneIsCanonical(p, q);
    } else {
      CharOfDigit(c);
      if d == '=' {
        TwoIsCanonical(p, q, Digit(c).value);
      } else {
        CharOfDigit(d);
        ThreeIsCanonical(p, q, Digit(c).value, Digit(d).value);
      }
    }
  }

  /** The decoder accepts only what the encoder writes. */
  lemma {:induction false} EncodeDecode(s: string)
    requires Decode(s).Just?
    ensures Encode(Decode(s).value) == s
  {
    if |s| < 4 {
    } else {
      hide DecodeQuantum, Encode;
      QuantumIsCanonical(s[0], s[1], s[2], s[3]);
      var q := DecodeQuantum(s[0], s[1], s[2], s[3]).value;
      assert s == [s[0], s[1], s[2], s[3]] + s[4..];
      if |s| == 4 {
        assert s == [s[0], s[1], s[2], s[3]];
      } else {
        EncodeDecode(s[4..]);
        EncodeJoin(q, Decode(s[4..]).value);
      }
    }
  }

  lemma EncodeStep(d: seq<Octet>, i: nat)
    requires i + 2 < |d|
    ensures Encode(d[i..]) == [Char(First(d[i])), Char(Second(d[i], d[i + 1])), Char(Third(d[i + 1], d[i + 2])), Char(Fourth(d[i + 2]))]
                              + Encode(d[i + 3..])
  {
    assert d[i..][3..] == d[i + 3..];
  }

  /** Four characters at the write position. */
  method Put(ret: array<char>, p: nat, quantum: string)
    requires p + 4 <= ret.Length && |quantum| == 4
    modifies ret
    ensures ret[..p + 4] == old(ret[..p]) + quantum
  {
    ret[p], ret[p + 1], ret[p + 2], ret[p + 3] := quantum[0], quantum[1], quantum[2], quantum[3];
  }

  /** The last, padded group of one or two octets. */
  function Tail(data: seq<Octet>, i: nat): (quantum: string)
    requires i < |data| <= i + 2
    ensures |quantum| == 4
  {
    if i == |data| - 1
    then [Char(First(data[i])), Char(SecondOfOne(data[i])), '=', '=']
    else [Char(First(data[i])), Char(Second(data[i], data[i + 1])), Char(ThirdOfTwo(data[i + 1])), '=']
  }

  lemma EncodeTail(data: seq<Octet>, i: nat)
    requires i <= |data| <= i + 2
    ensures Encode(data[i..]) == if i < |data| then Tail(data, i) else []
  {
  }

  lemma Fits(n: nat, q: nat)
    requires 3 * q < n
    ensures 4 * q + 4 <= 4 * ((n + 2) / 3)
  {
  }

  lemma RegroupSlices(a: string, b: string, c: string, whole: string)
    requires a + (b + c) == whole
    ensures (a + b) + c == whole
  {
    assert (a + b) + c == a + (b + c);
  }

  /** base64_encode: fills a string of precomputed length from the write position p on. */
  method EncodeLoop(data: seq<Octet>) returns (text: string)
    ensures text == Encode(data)
    ensures Decode(text) == Just(data)
    ensures |text| == 4 * ((|data| + 2) / 3)
  {
    hide Char, First, Second, Third, Fourth, Tail, Decode, Encode;
    DecodeEncode(data);
    EncodeLength(data);
    var outLen := 4 * ((|data| + 2) / 3);
    var ret := new char[outLen](_ => '\0');
    var p := 0;
    var i := 0;
    ghost var q := 0;
    assert data[0..] == data;
    while |data| > 2 && i < |data| - 2
      invariant 0 <= i <= |data| && i == 3 * q && p == 4 * q <= outLen
      invariant ret[..p] + Encode(data[i..]) == Encode(data)
    {
      EncodeStep(data, i);
      Fits(|data|, q);
      var quantum := [Char(First(data[i])), Char(Second(data[i], data[i + 1])),
                      Char(Third(data[i + 1], data[i + 2])), Char(Fourth(data[i + 2]))];
      RegroupSlices(ret[..p], quantum, Encode(data[i + 3..]), Encode(data));
      Put(ret, p, quantum);
      p := p + 4;
      i := i + 3;
      q := q + 1;
    }
    EncodeTail(data, i);
    if i < |data| {
      Fits(|data|, q);
      Put(ret, p, Tail(data, i));
      p := p + 4;
    }
    assert ret[..p] == Encode(data);
    text := ret[..];
  }
}
