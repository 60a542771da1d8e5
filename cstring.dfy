/** The C library's `atoi`, which the command handlers use to read their
    numeric arguments: leading white space is skipped, an optional sign is
    read, then as many decimal digits as follow; anything else reads as 0. */
module CString {

  /** `isspace` in the C locale. */
  predicate IsSpace(c: char) {
    c == ' ' || c == '\t' || c == '\n' || c == '\U{B}' || c == '\U{C}' || c == '\r'
  }

  predicate IsDigit(c: char) {
    '0' <= c <= '9'
  }

  function DigitValue(c: char): (d: nat)
    requires IsDigit(c)
    ensures d < 10
  {
    (c as int) - ('0' as int)
  }

  function SkipSpace(s: string): (r: string)
    ensures |r| <= |s|
    ensures r == [] || !IsSpace(r[0])
  {
    if |s| > 0 && IsSpace(s[0]) then SkipSpace(s[1..]) else s
  }

  /** The longest run of digits at the front of `s`. */
  function LeadingDigits(s: string): (r: string)
    ensures |r| <= |s| && r == s[..|r|]
    ensures forall i :: 0 <= i < |r| ==> IsDigit(r[i])
    ensures |r| < |s| ==> !IsDigit(s[|r|])
  {
    if |s| > 0 && IsDigit(s[0]) then [s[0]] + LeadingDigits(s[1..]) else []
  }

  /** The number a string of decimal digits denotes. */
  function DigitsValue(ds: string): nat
    requires forall i :: 0 <= i < |ds| ==> IsDigit(ds[i])
  {
    if ds == [] then 0
    else DigitsValue(ds[..|ds| - 1]) * 10 + DigitValue(ds[|ds| - 1])
  }

  /** `atoi(s)`, on unbounded integers (its overflow is undefined in C). */
  function Atoi(s: string): int {
    var t := SkipSpace(s);
    if |t| > 0 && t[0] == '-' then -(DigitsValue(LeadingDigits(t[1..])) as int)
    else if |t| > 0 && t[0] == '+' then DigitsValue(LeadingDigits(t[1..]))
    else DigitsValue(LeadingDigits(t))
  }

  /** The decimal numeral of `n`, without sign or leading zeros. */
  function Decimal(n: nat): (s: string)
    ensures |s| > 0
    ensures forall i :: 0 <= i < |s| ==> IsDigit(s[i])
  {
    var last := ('0' as int + n % 10) as char;
    if n < 10 then [last] else Decimal(n / 10) + [last]
  }

  lemma {:induction false} DigitsValueOfDecimal(n: nat)
    ensures DigitsValue(Decimal(n)) == n
  {
    var s := Decimal(n);
    if n >= 10 {
      DigitsValueOfDecimal(n / 10);
      assert s[..|s| - 1] == Decimal(n / 10);
    }
  }

  /** `atoi` reads a numeral back as the number it denotes. */
  lemma AtoiDecimal(n: nat)
    ensures Atoi(Decimal(n)) == n
  {
    var s := Decimal(n);
    assert SkipSpace(s) == s;
    assert LeadingDigits(s) == s;
    DigitsValueOfDecimal(n);
  }

  /** ... and, behind a minus sign, as its negation. */
  lemma AtoiNegative(n: nat)
    ensures Atoi("-" + Decimal(n)) == -(n as int)
  {
    var s := Decimal(n);
    assert LeadingDigits(s) == s;
    DigitsValueOfDecimal(n);
    var m := "-" + s;
    assert SkipSpace(m) == m;
    assert m[1..] == s;
  }

  /** A string that does not start with white space, a sign or a digit reads as 0. */
  lemma AtoiNonNumeric(s: string)
    requires s == [] || !(IsSpace(s[0]) || IsDigit(s[0]) || s[0] == '-' || s[0] == '+')
    ensures Atoi(s) == 0
  {
    assert SkipSpace(s) == s;
  }
}
