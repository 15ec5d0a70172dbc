/**
 * Go's 64-bit `int` and its decimal text: the output of fmt's `%d` verb and
 * the input accepted by `strconv.ParseInt(s, 10, 0)` on a 64-bit platform.
 */
module Decimal {
  import opened Wrappers

  /** math.MinInt and math.MaxInt for a 64-bit `int`. */
  const MinInt: int := -0x8000_0000_0000_0000
  const MaxInt: int := 0x7FFF_FFFF_FFFF_FFFF

  /** The values of Go's `int` (and `int64`). */
  type Int64 = x: int | MinInt <= x <= MaxInt

  predicate IsDigit(c: char) {
    '0' <= c <= '9'
  }

  predicate AllDigits(s: string) {
    forall i :: 0 <= i < |s| ==> IsDigit(s[i])
  }

  function DigitValue(c: char): (d: nat)
    requires IsDigit(c)
    ensures d < 10
  {
    c as int - '0' as int
  }

  function DigitChar(d: nat): (c: char)
    requires d < 10
    ensures IsDigit(c) && DigitValue(c) == d
  {
    ('0' as int + d) as char
  }

  /** The number denoted by a string of decimal digits, most significant first. */
  function ValueOf(s: string): nat
    requires AllDigits(s)
  {
    if s == [] then 0 else 10 * ValueOf(s[..|s| - 1]) + DigitValue(s[|s| - 1])
  }

  /** `%d` of a non-negative number: its digits, without leading zeros. */
  function FormatNat(n: nat): (s: string)
    ensures |s| > 0 && AllDigits(s)
    ensures ValueOf(s) == n
    ensures s[0] == '0' ==> s == "0"
  {
    if n < 10 then [DigitChar(n)]
    else
      var prefix := FormatNat(n / 10);
      var s := prefix + [DigitChar(n % 10)];
      assert s[..|s| - 1] == prefix;
      s
  }

  /** `%d` of an integer: a minus sign for negative numbers, then the digits. */
  function FormatInt(n: int): (s: string)
    ensures |s| > 0
    ensures n >= 0 ==> AllDigits(s)
    ensures n < 0 ==> s[0] == '-' && AllDigits(s[1..])
    ensures forall c :: c in s ==> c == '-' || IsDigit(c)
  {
    if n < 0 then "-" + FormatNat(-n) else FormatNat(n)
  }

  /** The text after an optional leading `+` or `-`. */
  function Unsigned(s: string): string {
    if |s| > 0 && (s[0] == '+' || s[0] == '-') then s[1..] else s
  }

  /**
   * strconv.ParseInt(s, 10, 0): an optional sign, one or more decimal digits
   * and a value within the 64-bit range; anything else is an error (None).
   */
  function ParseInt(s: string): (r: Option<Int64>)
    ensures r.Some? ==> |s| > 0
    ensures r.Some? ==> forall i :: 0 <= i < |s| ==> IsDigit(s[i]) || (i == 0 && (s[i] == '+' || s[i] == '-'))
  {
    var digits := Unsigned(s);
    if |digits| == 0 || !AllDigits(digits) then None
    else
      var n: int := if |s| > 0 && s[0] == '-' then -(ValueOf(digits) as int) else ValueOf(digits);
      if MinInt <= n <= MaxInt then Some(n) else None
  }

  /** Every `int` printed with `%d` is read back by ParseInt as itself. */
  lemma ParseFormat(n: Int64)
    ensures ParseInt(FormatInt(n)) == Some(n)
  {
  }
}
