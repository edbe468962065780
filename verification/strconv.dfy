/** The two integer conversions the handlers use on counters: Go's
    `strconv.ParseInt(s, 10, 64)` (update path) and `strconv.FormatInt(v, 10)` (read path). */
module Strconv {
  import opened Wrappers
  import opened GoTypes

  predicate IsDigit(c: char) {
    '0' <= c <= '9'
  }

  predicate AllDigits(s: string) {
    forall i :: 0 <= i < |s| ==> IsDigit(s[i])
  }

  function DigitValue(c: char): (d: nat)
    requires IsDigit(c)
    ensures d < 10
  {
    c as int - '0' as int
  }

  function Digit(d: nat): (c: char)
    requires d < 10
    ensures IsDigit(c) && DigitValue(c) == d
  {
    ('0' as int + d) as char
  }

  /** The value of a decimal digit string, most significant digit first. */
  function DecimalValue(s: string): nat
    requires AllDigits(s)
    decreases |s|
  {
    if s == [] then 0 else DecimalValue(s[..|s| - 1]) * 10 + DigitValue(s[|s| - 1])
  }

  /** The part of `s` after one optional leading sign. */
  function Magnitude(s: string): string {
    if |s| > 0 && (s[0] == '+' || s[0] == '-') then s[1..] else s
  }

  /** What ParseInt accepts syntactically: an optional `+` or `-`, then one or more
      decimal digits, and nothing else (no spaces, no underscores, no fraction). */
  predicate WellFormed(s: string) {
    |Magnitude(s)| > 0 && AllDigits(Magnitude(s))
  }

  /** The mathematical value a well-formed numeral denotes. */
  function Denotation(s: string): int
    requires WellFormed(s)
  {
    if s[0] == '-' then -(DecimalValue(Magnitude(s)) as int) else DecimalValue(Magnitude(s))
  }

  /** `strconv.ParseInt(s, 10, 64)`, keeping only whether it succeeded: a syntax error
      (empty input, lone sign, any non-digit) and a range error (the value does not fit
      int64) both fail. The magnitude is checked against the cutoff 2^63, which a
      negative numeral may reach and a positive one may not. */
  function ParseInt(s: string): (r: Option<int64>)
    ensures r.Some? <==> WellFormed(s) && MinInt64 as int <= Denotation(s) <= MaxInt64 as int
    ensures r.Some? ==> r.value as int == Denotation(s)
  {
    if |s| == 0 then None
    else
      var neg := s[0] == '-';
      var digits := if s[0] == '+' || s[0] == '-' then s[1..] else s;
      if |digits| == 0 || !AllDigits(digits) then None
      else
        var un := DecimalValue(digits);
        if !neg && un >= TwoTo63 then None
        else if neg && un > TwoTo63 then None
        else if neg then Some((-(un as int)) as int64)
        else Some(un as int64)
  }

  /** Shortest decimal digits of `n`. */
  function FormatNat(n: nat): (s: string)
    ensures |s| > 0 && AllDigits(s)
    decreases n
  {
    if n < 10 then [Digit(n)] else FormatNat(n / 10) + [Digit(n % 10)]
  }

  lemma {:induction false} DecimalValueOfFormatNat(n: nat)
    ensures DecimalValue(FormatNat(n)) == n
    decreases n
  {
    if n >= 10 {
      DecimalValueOfFormatNat(n / 10);
      var s := FormatNat(n);
      assert s[..|s| - 1] == FormatNat(n / 10);
    }
  }

  /** The numerals FormatInt produces: no `+`, no leading zero, no `-0`. */
  predicate Canonical(s: string) {
    && WellFormed(s)
    && s[0] != '+'
    && (|Magnitude(s)| > 1 ==> Magnitude(s)[0] != '0')
    && (s[0] == '-' ==> Magnitude(s) != "0")
  }

  lemma {:induction false} FormatNatLeads(n: nat)
    ensures FormatNat(n)[0] != '0' || n == 0
    ensures |FormatNat(n)| > 1 ==> n >= 10
    decreases n
  {
    if n >= 10 {
      FormatNatLeads(n / 10);
    }
  }

  /** `strconv.FormatInt(v, 10)`: a `-` for negatives, then the shortest digits.
      Its output is canonical and parses back to `v`. */
  function FormatInt(v: int64): (s: string)
    ensures Canonical(s)
    ensures ParseInt(s) == Some(v)
  {
    var mag: nat := if v < 0 then -(v as int) else v as int;
    DecimalValueOfFormatNat(mag);
    FormatNatLeads(mag);
    if v < 0 then
      var s := "-" + FormatNat(mag);
      assert Magnitude(s) == FormatNat(mag);
      s
    else FormatNat(mag)
  }

  lemma {:induction false} LeadingDigitPositive(s: string)
    requires |s| > 0 && AllDigits(s) && s[0] != '0'
    ensures DecimalValue(s) >= 1
    ensures |s| > 1 ==> DecimalValue(s) >= 10
    decreases |s|
  {
    if |s| > 1 {
      LeadingDigitPositive(s[..|s| - 1]);
    }
  }

  /** A digit string without a leading zero is the shortest spelling of its value. */
  lemma {:induction false} FormatNatOfDecimalValue(s: string)
    requires |s| > 0 && AllDigits(s)
    requires |s| > 1 ==> s[0] != '0'
    ensures FormatNat(DecimalValue(s)) == s
    decreases |s|
  {
    var n := DecimalValue(s);
    var init := s[..|s| - 1];
    if |s| == 1 {
      assert init == [];
    } else {
      LeadingDigitPositive(s);
      LeadingDigitPositive(init);
      FormatNatOfDecimalValue(init);
      assert n / 10 == DecimalValue(init);
      assert n % 10 == DigitValue(s[|s| - 1]);
      assert s == init + [s[|s| - 1]];
    }
  }

  /** The other direction of the round trip: formatting what a canonical numeral
      parses to gives back the very same text. */
  lemma FormatOfParse(s: string, v: int64)
    requires Canonical(s)
    requires ParseInt(s) == Some(v)
    ensures FormatInt(v) == s
  {
    var m := Magnitude(s);
    FormatNatOfDecimalValue(m);
    if s[0] == '-' {
      LeadingDigitPositive(m);
      assert s == "-" + m;
    }
  }

  /** The update path rejects the test suite's malformed counters. */
  lemma ParseIntRejectsMalformed()
    ensures ParseInt("Hello") == None
    ensures ParseInt("15.15") == None
    ensures ParseInt("") == None
    ensures ParseInt("-") == None
    ensures ParseInt("5") == Some(5)
  {
    assert !IsDigit("Hello"[0]);
    assert !IsDigit("15.15"[2]);
  }

  /** 2^63 (the test suite's "9223372036854775808") overflows a positive int64 but is
      the magnitude of the smallest one; 2^63 - 1 is the largest accepted. */
  lemma ParseIntRange()
    ensures ParseInt(FormatNat(TwoTo63)) == None
    ensures ParseInt("+" + FormatNat(TwoTo63 - 1)) == Some(MaxInt64)
    ensures ParseInt("-" + FormatNat(TwoTo63)) == Some(MinInt64)
  {
    DecimalValueOfFormatNat(TwoTo63);
    DecimalValueOfFormatNat(TwoTo63 - 1);
    assert Magnitude("-" + FormatNat(TwoTo63)) == FormatNat(TwoTo63);
    assert Magnitude("+" + FormatNat(TwoTo63 - 1)) == FormatNat(TwoTo63 - 1);
  }
}
