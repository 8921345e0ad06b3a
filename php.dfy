/** PHP value semantics the controllers rely on: loose truthiness, the
    string form of integers, and the integer pattern of the framework's
    number validator. */
module Php {

  datatype Option<T> = None | Some(value: T)

  /** A scalar PHP value as it arrives from a request body or a record. */
  datatype Scalar = Null | Int(i: int) | Str(s: string) | Bool(b: bool)

  /** `(bool)$s` for a string: only "" and "0" are falsy. */
  predicate Truthy(s: string) {
    s != "" && s != "0"
  }

  /** `(bool)$v` for a nullable string (a body parameter). */
  predicate OptionTruthy(v: Option<string>) {
    v.Some? && Truthy(v.value)
  }

  predicate IsDigit(c: char) {
    '0' <= c <= '9'
  }

  predicate AllDigits(s: string) {
    forall i :: 0 <= i < |s| ==> IsDigit(s[i])
  }

  function DigitChar(d: nat): (c: char)
    requires d < 10
    ensures IsDigit(c) && (c - '0') as nat == d
  {
    '0' + d as char
  }

  /** Decimal digits of a natural number, without leading zeros. */
  function NatText(n: nat): (s: string)
    ensures |s| > 0 && AllDigits(s)
    ensures (|s| > 1) == (n >= 10)
    ensures s[0] != '0' || n == 0
    ensures s[0] == '0' ==> s == "0"
  {
    if n < 10 then [DigitChar(n)] else NatText(n / 10) + [DigitChar(n % 10)]
  }

  /** Decimal text as PHP prints an integer: digits without a leading zero,
      optionally after a minus sign, and never "-0". */
  predicate CanonicalIntText(s: string) {
    (|s| > 0 && AllDigits(s) && (s[0] == '0' ==> s == "0"))
    || (|s| > 1 && s[0] == '-' && AllDigits(s[1..]) && s[1] != '0')
  }

  /** `(string)$n` for an integer. */
  function IntText(n: int): (s: string)
    ensures |s| > 0
    ensures s[0] == '-' <==> n < 0
    ensures CanonicalIntText(s)
  {
    if n < 0 then
      var d := NatText(-n);
      assert ("-" + d)[1..] == d;
      "-" + d
    else NatText(n)
  }

  /** `(string)$v` for a scalar: null and false become "", true becomes "1". */
  function ScalarText(v: Scalar): (s: string)
    ensures v.Null? ==> s == ""
    ensures v.Int? ==> s == IntText(v.i)
  {
    match v
    case Null => ""
    case Int(i) => IntText(i)
    case Str(s) => s
    case Bool(b) => if b then "1" else ""
  }

  /** Value of a string of decimal digits. */
  function DigitsValue(s: string): nat
    requires AllDigits(s)
  {
    if s == [] then 0 else DigitsValue(s[..|s| - 1]) * 10 + (s[|s| - 1] - '0') as nat
  }

  /** Reads an optionally negative decimal integer; the inverse of IntText. */
  function ParseInt(s: string): (r: Option<int>)
    ensures r.Some? <==> (|s| > 0 && AllDigits(s)) || (|s| > 1 && s[0] == '-' && AllDigits(s[1..]))
  {
    if |s| > 0 && AllDigits(s) then Some(DigitsValue(s))
    else if |s| > 1 && s[0] == '-' && AllDigits(s[1..]) then Some(-(DigitsValue(s[1..]) as int))
    else None
  }

  lemma {:induction false} NatTextRoundTrip(n: nat)
    ensures DigitsValue(NatText(n)) == n
  {
    var s := NatText(n);
    if n >= 10 {
      NatTextRoundTrip(n / 10);
      assert s[..|s| - 1] == NatText(n / 10);
    }
  }

  /** Printing an integer and reading it back gives the integer. */
  lemma IntTextRoundTrip(n: int)
    ensures ParseInt(IntText(n)) == Some(n)
  {
    var s := IntText(n);
    if n < 0 {
      var d := NatText(-n);
      assert s == ['-'] + d;
      assert s[1..] == d;
      assert !AllDigits(s) by { assert !IsDigit(s[0]); }
      NatTextRoundTrip(-n);
    } else {
      NatTextRoundTrip(n);
    }
  }

  /** The characters `\s` matches in a PCRE pattern. */
  predicate IsSpace(c: char) {
    c == ' ' || c == '\t' || c == '\n' || c == '\r' || c == 11 as char || c == 12 as char
  }

  function TrimStart(s: string): (t: string)
    ensures |t| <= |s| && t == s[|s| - |t|..]
    ensures t == [] || !IsSpace(t[0])
  {
    if s != [] && IsSpace(s[0]) then TrimStart(s[1..]) else s
  }

  function TrimEnd(s: string): (t: string)
    ensures |t| <= |s| && t == s[..|t|]
    ensures t == [] || !IsSpace(t[|t| - 1])
  {
    if s != [] && IsSpace(s[|s| - 1]) then TrimEnd(s[..|s| - 1]) else s
  }

  /** The integer pattern of the number validator, `^\s*[+-]?\d+\s*$`. */
  predicate IsIntegerText(s: string) {
    var t := TrimEnd(TrimStart(s));
    (|t| > 0 && AllDigits(t))
    || (|t| > 1 && (t[0] == '+' || t[0] == '-') && AllDigits(t[1..]))
  }

  /** A digit string that starts with a non-zero digit has a positive value. */
  lemma {:induction false} LeadingDigitPositive(s: string)
    requires |s| > 0 && AllDigits(s) && s[0] != '0'
    ensures DigitsValue(s) > 0
  {
    if |s| > 1 {
      var init := s[..|s| - 1];
      assert init[0] == s[0];
      LeadingDigitPositive(init);
    }
  }

  /** Digits without a leading zero are exactly how their value prints. */
  lemma {:induction false} CanonicalDigitsText(s: string)
    requires |s| > 0 && AllDigits(s) && (s[0] == '0' ==> s == "0")
    ensures NatText(DigitsValue(s)) == s
  {
    var v := DigitsValue(s);
    var d := (s[|s| - 1] - '0') as nat;
    if |s| == 1 {
      assert s[..|s| - 1] == [];
      assert DigitsValue(s[..|s| - 1]) == 0;
      assert NatText(v) == [DigitChar(d)];
    } else {
      var init := s[..|s| - 1];
      assert init[0] == s[0];
      LeadingDigitPositive(init);
      CanonicalDigitsText(init);
      assert v / 10 == DigitsValue(init) && v % 10 == d;
      assert NatText(v) == NatText(v / 10) + [DigitChar(v % 10)];
      assert s == init + [s[|s| - 1]];
    }
  }

  /** The other round trip: canonical text parses to a value that prints
      back as the same text, so canonical text is fixed by its value. */
  lemma CanonicalIntTextRoundTrip(s: string)
    requires CanonicalIntText(s)
    ensures ParseInt(s).Some? && IntText(ParseInt(s).value) == s
  {
    if |s| > 0 && AllDigits(s) {
      CanonicalDigitsText(s);
    } else {
      var t := s[1..];
      LeadingDigitPositive(t);
      CanonicalDigitsText(t);
      assert s == "-" + t;
    }
  }

  /** Whatever integer is printed, the printed form passes the integer pattern. */
  lemma IntTextIsIntegerText(n: int)
    ensures IsIntegerText(IntText(n))
  {
    var s := IntText(n);
    assert !IsSpace(s[0]);
    assert TrimStart(s) == s;
    assert !IsSpace(s[|s| - 1]) by {
      if n < 0 { assert s[|s| - 1] == NatText(-n)[|NatText(-n)| - 1]; }
    }
    assert TrimEnd(s) == s;
    if n < 0 {
      assert s[1..] == NatText(-n);
    }
  }
}
