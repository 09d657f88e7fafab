/** Plain decimal strings with at most 18 fractional digits, as the pricing engine and
    the quota ledger read and write them. An amount is a whole number of units of 10^-18. */
module Decimals {
  import opened Wrappers

  const FRACTION_DIGITS := 18

  predicate IsDigit(c: char) { '0' <= c <= '9' }

  predicate AllDigits(s: string) { forall i :: 0 <= i < |s| ==> IsDigit(s[i]) }

  /** The number that a string of decimal digits denotes. */
  function DigitsValue(s: string): (v: nat)
    requires AllDigits(s)
  {
    if |s| == 0 then 0
    else 10 * DigitsValue(s[..|s| - 1]) + (s[|s| - 1] as int - '0' as int)
  }

  function Zeros(n: nat): (s: string) { seq(n, _ => '0') }

  /** Position of the first dot, or the length when there is none. */
  function DotIndex(s: string): (i: nat)
    ensures i <= |s|
    ensures forall j :: 0 <= j < i ==> s[j] != '.'
    ensures i < |s| ==> s[i] == '.'
  {
    if |s| == 0 then 0
    else if s[0] == '.' then 0
    else
      assert forall j :: 0 <= j < DotIndex(s[1..]) ==> s[1..][j] == s[j + 1];
      1 + DotIndex(s[1..])
  }

  function Whole(s: string): (w: string) { s[..DotIndex(s)] }

  function Fraction(s: string): (f: string)
  {
    if DotIndex(s) == |s| then "" else s[DotIndex(s) + 1..]
  }

  predicate WholePart(w: string, maxDigits: nat)
  {
    w == "0" || (1 <= |w| <= maxDigits && AllDigits(w) && w[0] != '0')
  }

  /** No leading zeros, at most maxDigits integer digits, and after an optional dot
      between 1 and 18 fractional digits. */
  predicate Plain(s: string, maxDigits: nat)
  {
    && WholePart(Whole(s), maxDigits)
    && AllDigits(Fraction(s))
    && (DotIndex(s) < |s| ==> 1 <= |Fraction(s)| <= FRACTION_DIGITS)
  }

  /** Integer digits, then fractional digits, filled up with zeros to 18 places. */
  function UnitDigits(s: string): (d: string)
    requires |Fraction(s)| <= FRACTION_DIGITS
  {
    Whole(s) + Fraction(s) + Zeros(FRACTION_DIGITS - |Fraction(s)|)
  }

  /** The amount in units of 10^-18 that the quota ledger reads. */
  function QuotaUnits(s: string): (r: Option<nat>)
  {
    if Plain(s, 60) then Some(DigitsValue(UnitDigits(s))) else None
  }

  // ---------- writing amounts ----------

  function Pow10(n: nat): (p: nat)
    ensures p > 0
  {
    if n == 0 then 1 else 10 * Pow10(n - 1)
  }

  /** The decimal digits of a number, without leading zeros. */
  function Digits(n: nat): (s: string)
  {
    if n < 10 then [n as char + '0'] else Digits(n / 10) + [(n % 10) as char + '0']
  }

  function TrimRight(s: string, c: char): (t: string)
  {
    if |s| > 0 && s[|s| - 1] == c then TrimRight(s[..|s| - 1], c) else s
  }

  /** At least one integer digit and 18 fractional ones. */
  function Padded(units: nat): (s: string)
    ensures |s| >= FRACTION_DIGITS + 1
  {
    var d := Digits(units);
    if |d| <= FRACTION_DIGITS then Zeros(FRACTION_DIGITS + 1 - |d|) + d else d
  }

  function Trimmed(s: string): (t: string) { TrimRight(TrimRight(s, '0'), '.') }

  /** How the pricing engine and the quota ledger write an amount. */
  function Format(units: nat): (s: string)
  {
    var d := Padded(units);
    Trimmed(d[..|d| - FRACTION_DIGITS] + "." + d[|d| - FRACTION_DIGITS..])
  }

  /** The canonical form of an amount with at most 18 integer digits. */
  function Decimal(s: string): (r: Option<string>)
  {
    if !Plain(s, 18) then None else Some(if DotIndex(s) < |s| then Trimmed(s) else s)
  }
}
