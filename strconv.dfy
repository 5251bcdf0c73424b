/**
  The parts of Go's `strconv` package the attachment adapter relies on:
  `Itoa` and `Atoi` for the decimal text of a Go `int`, and `FormatBool` and
  `ParseBool` for the text of a `bool`.
*/
module Strconv {
  import opened Wrappers

  const MinInt64: int := -0x8000_0000_0000_0000
  const MaxInt64: int := 0x7FFF_FFFF_FFFF_FFFF

  /** Go's `int` on the 64-bit platforms the provider is built for. */
  type GoInt = x: int | MinInt64 <= x <= MaxInt64

  /** The two reasons `strconv` reports for a rejected text (`ErrSyntax`, `ErrRange`). */
  datatype NumError = ErrSyntax | ErrRange

  predicate IsDigit(c: char) {
    '0' <= c <= '9'
  }

  predicate AllDigits(s: string) {
    forall i :: 0 <= i < |s| ==> IsDigit(s[i])
  }

  function DigitChar(d: nat): (c: char)
    requires d < 10
    ensures IsDigit(c)
  {
    ('0' as int + d) as char
  }

  function DigitValue(c: char): (d: nat)
    requires IsDigit(c)
    ensures d < 10 && DigitChar(d) == c
  {
    c as int - '0' as int
  }

  /** The decimal digits of `n`, most significant first. */
  function Digits(n: nat): (s: string)
    ensures |s| > 0 && AllDigits(s)
    ensures n >= 10 ==> s[0] != '0'
    decreases n
  {
    if n < 10 then [DigitChar(n)] else Digits(n / 10) + [DigitChar(n % 10)]
  }

  /** The number a string of decimal digits denotes (leading zeros allowed). */
  function DigitsValue(s: string): nat
    requires AllDigits(s)
    decreases |s|
  {
    if s == [] then 0 else DigitsValue(s[..|s| - 1]) * 10 + DigitValue(s[|s| - 1])
  }

  /** `strconv.Itoa`: a minus sign for negative numbers, then the digits of the magnitude. */
  function Itoa(n: GoInt): (s: string)
    ensures |s| > 0
    ensures (s[0] == '-') == (n < 0)
    ensures AllDigits(if n < 0 then s[1..] else s)
    ensures n < 0 ==> |s| > 1
  {
    if n < 0 then "-" + Digits(-(n as int)) else Digits(n)
  }

  /**
    `strconv.Atoi`: an optional `+` or `-` sign followed by one or more decimal
    digits (no spaces, no underscores), whose value must fit a Go `int`.
  */
  function Atoi(s: string): (r: Result<GoInt, NumError>)
    ensures r.Success? ==> |s| > 0 && AllDigits(s[1..])
    ensures r.Success? && !IsDigit(s[0]) ==> s[0] == '-' || s[0] == '+'
    ensures r.Success? && r.value < 0 ==> s[0] == '-'
    ensures |s| > 0 && !IsDigit(s[0]) && s[0] != '-' && s[0] != '+' ==> r == Failure(ErrSyntax)
  {
    var signed := |s| > 0 && (s[0] == '-' || s[0] == '+');
    var body := if signed then s[1..] else s;
    if body == [] || !AllDigits(body) then Failure(ErrSyntax)
    else
      var magnitude: int := DigitsValue(body);
      var v: int := if signed && s[0] == '-' then -magnitude else magnitude;
      if MinInt64 <= v <= MaxInt64 then Success(v) else Failure(ErrRange)
  }

  /** `strconv.FormatBool`. */
  function FormatBool(b: bool): (s: string)
    ensures s == "true" || s == "false"
  {
    if b then "true" else "false"
  }

  /** `strconv.ParseBool`: the spellings Go accepts for each value; anything else is a syntax error. */
  function ParseBool(s: string): (r: Result<bool, NumError>)
    ensures r.Success? ==> |s| > 0 && (r.value <==> s[0] in {'1', 't', 'T'})
    ensures s == "" ==> r.Failure?
  {
    if s in {"1", "t", "T", "true", "TRUE", "True"} then Success(true)
    else if s in {"0", "f", "F", "false", "FALSE", "False"} then Success(false)
    else Failure(ErrSyntax)
  }

  /** Reading the digits back gives the number they were rendered from. */
  lemma {:induction false} DigitsValueOfDigits(n: nat)
    ensures DigitsValue(Digits(n)) == n
    decreases n
  {
    if n >= 10 {
      var s := Digits(n);
      var prefix := Digits(n / 10);
      assert s == prefix + [DigitChar(n % 10)];
      assert s[..|s| - 1] == prefix;
      DigitsValueOfDigits(n / 10);
    }
  }

  /** Every Go `int` survives `Itoa` followed by `Atoi`. */
  lemma AtoiOfItoa(n: GoInt)
    ensures Atoi(Itoa(n)) == Success(n)
  {
    var s := Itoa(n);
    if n < 0 {
      assert s[1..] == Digits(-(n as int));
      DigitsValueOfDigits(-(n as int));
    } else {
      DigitsValueOfDigits(n);
    }
  }

  /** Two Go `int`s with the same decimal text are equal. */
  lemma ItoaInjective(m: GoInt, n: GoInt)
    requires Itoa(m) == Itoa(n)
    ensures m == n
  {
    AtoiOfItoa(m);
    AtoiOfItoa(n);
  }

  /** Every `bool` survives `FormatBool` followed by `ParseBool`. */
  lemma ParseBoolOfFormatBool(b: bool)
    ensures ParseBool(FormatBool(b)) == Success(b)
  {
  }
}
