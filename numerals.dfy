/**
 * Decimal numerals as Python reads and writes them: `int(s)` on a string (surrounding whitespace,
 * an optional sign, digits with single underscores between them) and `str(n)` on an integer.
 */
module Numerals {
  import opened Common
  import Text

  predicate IsDigit(c: char) {
    '0' <= c <= '9'
  }

  function DigitValue(c: char): (d: nat)
    requires IsDigit(c)
    ensures d < 10
  {
    c as int - '0' as int
  }

  function DigitChar(d: nat): (c: char)
    requires d < 10
    ensures IsDigit(c) && DigitValue(c) == d
  {
    ('0' as int + d) as char
  }

  predicate AllDigits(s: string) {
    forall i :: 0 <= i < |s| ==> IsDigit(s[i])
  }

  /** The value of a string of decimal digits, most significant first. */
  function DigitsValue(s: string): (n: nat)
    requires AllDigits(s)
  {
    if s == [] then 0 else 10 * DigitsValue(s[..|s| - 1]) + DigitValue(s[|s| - 1])
  }

  /**
   * The digit part that Python's `int()` accepts: digits, where an underscore may stand only
   * between two digits.
   */
  predicate ValidDigitGroups(s: string) {
    && s != []
    && IsDigit(s[0]) && IsDigit(s[|s| - 1])
    && (forall i :: 0 <= i < |s| ==> IsDigit(s[i]) || s[i] == '_')
    && (forall i, j :: 0 <= i < |s| && 0 <= j < |s| && j == i + 1 ==> !(s[i] == '_' && s[j] == '_'))
  }

  function DropUnderscores(s: string): (r: string)
    requires forall i :: 0 <= i < |s| ==> IsDigit(s[i]) || s[i] == '_'
    ensures AllDigits(r) && |r| <= |s|
  {
    if s == [] then []
    else if s[0] == '_' then DropUnderscores(s[1..])
    else [s[0]] + DropUnderscores(s[1..])
  }

  lemma {:induction false} DropUnderscoresOfDigits(s: string)
    requires AllDigits(s)
    ensures DropUnderscores(s) == s
  {
    if s != [] {
      DropUnderscoresOfDigits(s[1..]);
    }
  }

  /** Python's `int(s)` on a string in base 10: `None` where Python raises `ValueError`. */
  function ParseInt(s: string): (r: Option<int>)
    ensures r.Some? ==> var t := Text.Strip(s);
      && t != [] && IsDigit(t[|t| - 1])
      && (IsDigit(t[0]) || t[0] == '-' || t[0] == '+')
      && (r.value < 0 ==> t[0] == '-')
  {
    var t := Text.Strip(s);
    if t == [] then None
    else
      var negative := t[0] == '-';
      var body := if t[0] == '-' || t[0] == '+' then t[1..] else t;
      if !ValidDigitGroups(body) then None
      else
        var magnitude: int := DigitsValue(DropUnderscores(body));
        Some(if negative then -magnitude else magnitude)
  }

  /** A blank string, the empty one among them, is not a number. */
  lemma BlankIsNotANumber(s: string)
    requires Text.IsBlank(s)
    ensures ParseInt(s).None?
  {
    Text.StripDropsOnlySpace(s);
  }

  /** `str(n)` for a natural number: its shortest decimal numeral. */
  function NatToString(n: nat): (s: string)
    ensures s != [] && AllDigits(s)
    ensures |s| > 1 ==> s[0] != '0'
    decreases n
  {
    if n < 10 then [DigitChar(n)] else NatToString(n / 10) + [DigitChar(n % 10)]
  }


  /** Reading back what `NatToString` wrote gives the number. */
  lemma {:induction false} DigitsValueOfNatToString(n: nat)
    ensures DigitsValue(NatToString(n)) == n
    decreases n
  {
    var s := NatToString(n);
    if n >= 10 {
      DigitsValueOfNatToString(n / 10);
      assert s[..|s| - 1] == NatToString(n / 10);
    }
  }

  lemma DigitsAreValidGroups(s: string)
    requires s != [] && AllDigits(s)
    ensures ValidDigitGroups(s)
  {
  }

  lemma {:induction false} ParseIntUnsigned(d: string, v: nat)
    requires d != [] && AllDigits(d) && DigitsValue(d) == v
    ensures ParseInt(d) == Some(v)
  {
    Text.StripFixed(d);
    DropUnderscoresOfDigits(d);
    DigitsAreValidGroups(d);
  }

  lemma {:induction false} ParseIntNegative(d: string, v: nat)
    requires d != [] && AllDigits(d) && DigitsValue(d) == v
    ensures ParseInt("-" + d) == Some(-(v as int))
  {
    var s := "-" + d;
    assert s[0] == '-' && s[|s| - 1] == d[|d| - 1] && IsDigit(d[|d| - 1]);
    Text.StripFixed(s);
    assert Text.Strip(s)[1..] == d;
    DropUnderscoresOfDigits(d);
    DigitsAreValidGroups(d);
  }

  lemma NatRoundTrip(n: nat)
    ensures ParseInt(NatToString(n)) == Some(n)
  {
    DigitsValueOfNatToString(n);
    ParseIntUnsigned(NatToString(n), n);
  }

  lemma NegatedNatRoundTrip(n: nat)
    requires n > 0
    ensures ParseInt("-" + NatToString(n)) == Some(-(n as int))
  {
    DigitsValueOfNatToString(n);
    ParseIntNegative(NatToString(n), n);
  }

  /** `str(n)` for any integer: a numeral that `int()` reads back as `n`. */
  function IntToString(n: int): (s: string)
    ensures s != []
    ensures ParseInt(s) == Some(n)
  {
    if n < 0 then
      NegatedNatRoundTrip(-n);
      "-" + NatToString(-n)
    else
      NatRoundTrip(n);
      NatToString(n)
  }
}
