/** Amounts as text: what is written is read back, and every amount has one canonical form. */
module DecimalText {
  import opened Wrappers
  import opened Decimals

  // ---------- digits ----------

  lemma {:induction false} DigitsRead(n: nat)
    ensures AllDigits(Digits(n)) && DigitsValue(Digits(n)) == n && |Digits(n)| >= 1
    ensures n > 0 ==> Digits(n)[0] != '0'
    decreases n
  {
    if n >= 10 {
      DigitsRead(n / 10);
      assert Digits(n)[..|Digits(n)| - 1] == Digits(n / 10);
    } else {
      assert Digits(n)[..0] == "";
    }
  }

  lemma DigitsAppend(s: string, c: char)
    requires AllDigits(s) && IsDigit(c)
    ensures AllDigits(s + [c]) && DigitsValue(s + [c]) == 10 * DigitsValue(s) + (c as int - '0' as int)
  {
    assert (s + [c])[..|s|] == s;
  }

  lemma {:induction false} DigitsBelow(s: string)
    requires AllDigits(s)
    ensures DigitsValue(s) < Pow10(|s|)
    decreases |s|
  {
    if |s| > 0 { DigitsBelow(s[..|s| - 1]); }
  }

  /** A string of digits that does not start with zero is at least a power of ten. */
  lemma {:induction false} DigitsAtLeast(s: string)
    requires AllDigits(s) && |s| > 0 && s[0] != '0'
    ensures DigitsValue(s) >= Pow10(|s| - 1)
    decreases |s|
  {
    if |s| > 1 { DigitsAtLeast(s[..|s| - 1]); }
    else { assert s[..0] == ""; }
  }

  lemma {:induction false} LeadingZeros(n: nat, s: string)
    requires AllDigits(s)
    ensures AllDigits(Zeros(n) + s) && DigitsValue(Zeros(n) + s) == DigitsValue(s)
    decreases |s|, n
  {
    if |s| > 0 {
      LeadingZeros(n, s[..|s| - 1]);
      assert Zeros(n) + s == (Zeros(n) + s[..|s| - 1]) + [s[|s| - 1]];
      DigitsAppend(Zeros(n) + s[..|s| - 1], s[|s| - 1]);
    } else if n > 0 {
      LeadingZeros(n - 1, s);
      assert Zeros(n) + s == (Zeros(n - 1) + s) + ['0'];
      DigitsAppend(Zeros(n - 1) + s, '0');
    } else {
      assert Zeros(n) + s == s;
    }
  }

  lemma {:induction false} TrailingZeros(s: string, n: nat)
    requires AllDigits(s)
    ensures AllDigits(s + Zeros(n)) && DigitsValue(s + Zeros(n)) == DigitsValue(s) * Pow10(n)
    decreases n
  {
    if n > 0 {
      TrailingZeros(s, n - 1);
      assert s + Zeros(n) == (s + Zeros(n - 1)) + ['0'];
      DigitsAppend(s + Zeros(n - 1), '0');
      assert 10 * (DigitsValue(s) * Pow10(n - 1)) == DigitsValue(s) * (10 * Pow10(n - 1));
    } else {
      assert s + Zeros(0) == s;
    }
  }

  /** Digit strings of equal length that denote the same number are equal. */
  lemma {:induction false} DigitsInjective(s: string, t: string)
    requires AllDigits(s) && AllDigits(t) && |s| == |t| && DigitsValue(s) == DigitsValue(t)
    ensures s == t
    decreases |s|
  {
    if |s| > 0 {
      var n := |s| - 1;
      assert s[n] as int - '0' as int == DigitsValue(s) % 10;
      assert t[n] as int - '0' as int == DigitsValue(t) % 10;
      DigitsInjective(s[..n], t[..n]);
      assert s == s[..n] + [s[n]] && t == t[..n] + [t[n]];
    }
  }

  lemma {:induction false} Pow10Monotone(m: nat, n: nat)
    requires m <= n
    ensures Pow10(m) <= Pow10(n)
    decreases n - m
  {
    if m < n { Pow10Monotone(m, n - 1); }
  }

  lemma Pow10Small()
    ensures Pow10(5) == 100_000 && Pow10(6) == 1_000_000
  {
    assert Pow10(3) == 1000;
  }

  lemma Pow10Values()
    ensures Pow10(18) == 1_000_000_000_000_000_000
    ensures Pow10(36) == 1_000_000_000_000_000_000_000_000_000_000_000_000
    ensures Pow10(77) == 100_000_000_000_000_000_000_000_000_000_000_000_000_000_000_000_000_000_000_000_000_000_000_000_000_000
  {
    hide Pow10;
    Pow10Small();
    Pow10Adds(6, 6);
    Pow10Adds(12, 6);
    Pow10Adds(12, 12);
    Pow10Adds(24, 12);
    Pow10Adds(36, 36);
    Pow10Adds(72, 5);
  }

  lemma {:induction false} Pow10Adds(m: nat, n: nat)
    ensures Pow10(m + n) == Pow10(m) * Pow10(n)
    decreases n
  {
    if n > 0 {
      Pow10Adds(m, n - 1);
      assert Pow10(m) * (10 * Pow10(n - 1)) == 10 * (Pow10(m) * Pow10(n - 1));
    }
  }

  // ---------- trimming ----------

  lemma {:induction false} TrimAppend(a: string, f: string, c: char)
    requires |a| > 0 && a[|a| - 1] != c
    ensures TrimRight(a + f, c) == a + TrimRight(f, c)
    decreases |f|
  {
    if |f| > 0 && f[|f| - 1] == c {
      TrimAppend(a, f[..|f| - 1], c);
      assert (a + f)[..|a + f| - 1] == a + f[..|f| - 1];
    } else if |f| == 0 {
      assert a + f == a;
    }
  }

  lemma {:induction false} TrimZeros(f: string)
    ensures |TrimRight(f, '0')| <= |f| && TrimRight(f, '0') == f[..|TrimRight(f, '0')|]
    ensures f == TrimRight(f, '0') + Zeros(|f| - |TrimRight(f, '0')|)
    ensures |TrimRight(f, '0')| > 0 ==> TrimRight(f, '0')[|TrimRight(f, '0')| - 1] != '0'
    decreases |f|
  {
    if |f| > 0 && f[|f| - 1] == '0' {
      var n := |f| - 1;
      TrimZeros(f[..n]);
      assert f == f[..n] + ['0'];
      assert Zeros(|f| - |TrimRight(f, '0')|) == Zeros(n - |TrimRight(f, '0')|) + ['0'];
    }
  }

  /** An integer part and a fraction put together with a dot, then trimmed. */
  lemma TrimmedParts(w: string, f: string)
    requires |w| > 0 && AllDigits(w) && AllDigits(f)
    ensures var t := TrimRight(f, '0');
            Trimmed(w + "." + f) == if |t| == 0 then w else w + "." + t
  {
    var t := TrimRight(f, '0');
    TrimAppend(w + ".", f, '0');
    TrimZeros(f);
    if |t| == 0 {
      assert w + "." + t == w + ".";
      TrimAppend(w, ".", '.');
      assert TrimRight(".", '.') == TrimRight("", '.') by { assert "."[..0] == ""; }
      assert w + "" == w;
    } else {
      assert IsDigit(t[|t| - 1]);
    }
  }

  lemma {:induction false} DotAfter(w: string, rest: string)
    requires AllDigits(w)
    ensures DotIndex(w + rest) == |w| + DotIndex(rest)
    decreases |w|
  {
    if |w| > 0 {
      assert (w + rest)[1..] == w[1..] + rest;
      DotAfter(w[1..], rest);
    } else {
      assert w + rest == rest;
    }
  }

  lemma PartsOf(w: string, f: string)
    requires AllDigits(w)
    ensures Whole(w + "." + f) == w && Fraction(w + "." + f) == f && DotIndex(w + "." + f) == |w|
    ensures Whole(w) == w && Fraction(w) == "" && DotIndex(w) == |w|
  {
    assert w + "." + f == w + ("." + f);
    DotAfter(w, "." + f);
    DotAfter(w, "");
    assert w + "" == w;
  }

  /** Trimming an amount changes neither its digits nor its form. */
  lemma TrimmedUnits(w: string, f: string, maxDigits: nat)
    requires WholePart(w, maxDigits) && AllDigits(f) && 1 <= |f| <= FRACTION_DIGITS
    ensures var s := Trimmed(w + "." + f);
            Plain(s, maxDigits) && |Fraction(s)| <= FRACTION_DIGITS
            && UnitDigits(s) == w + f + Zeros(FRACTION_DIGITS - |f|)
  {
    hide DotIndex, TrimRight, Whole, Fraction, Trimmed;
    var t := TrimRight(f, '0');
    TrimmedParts(w, f);
    TrimZeros(f);
    PartsOf(w, t);
    Refilled(w, t, |f| - |t|, FRACTION_DIGITS - |f|);
  }

  lemma Refilled(w: string, t: string, m: nat, n: nat)
    ensures w + t + Zeros(m + n) == w + (t + Zeros(m)) + Zeros(n)
  {}

  // ---------- round trips ----------

  lemma PaddedForm(units: nat)
    ensures AllDigits(Padded(units))
    ensures DigitsValue(Padded(units)) == units
    ensures |Padded(units)| > FRACTION_DIGITS + 1 ==> Padded(units)[0] != '0'
  {
    DigitsRead(units);
    var d := Digits(units);
    if |d| <= FRACTION_DIGITS { LeadingZeros(FRACTION_DIGITS + 1 - |d|, d); }
  }

  /** The integer digits of an amount below 10^(18 + n) number at most n. */
  lemma PaddedWhole(units: nat, maxDigits: nat)
    requires maxDigits >= 1 && units < Pow10(FRACTION_DIGITS + maxDigits)
    ensures WholePart(Padded(units)[..|Padded(units)| - FRACTION_DIGITS], maxDigits)
  {
    PaddedForm(units);
    var p := Padded(units);
    if |p| > FRACTION_DIGITS + 1 {
      DigitsAtLeast(p);
      if |p| - 1 >= FRACTION_DIGITS + maxDigits { Pow10Monotone(FRACTION_DIGITS + maxDigits, |p| - 1); }
    } else if p[0] == '0' {
      assert p[..1] == "0";
    }
  }

  /** Every amount below 10^(18 + n) is written with at most n integer digits and reads back. */
  lemma FormatReads(units: nat, maxDigits: nat)
    requires maxDigits >= 1 && units < Pow10(FRACTION_DIGITS + maxDigits)
    ensures Plain(Format(units), maxDigits) && DigitsValue(UnitDigits(Format(units))) == units
  {
    hide Padded, Plain, Trimmed, UnitDigits, DigitsValue, WholePart, Pow10;
    PaddedForm(units);
    PaddedWhole(units, maxDigits);
    var p := Padded(units);
    var n := |p| - FRACTION_DIGITS;
    TrimmedUnits(p[..n], p[n..], maxDigits);
    assert p[..n] + p[n..] + Zeros(0) == p;
  }

  /** What the ledger writes it reads back: any amount with at most 60 integer digits. */
  lemma QuotaRoundTrip(units: nat)
    requires units < Pow10(78)
    ensures QuotaUnits(Format(units)) == Some(units)
  {
    FormatReads(units, 60);
  }

  lemma Joined(s: string)
    requires DotIndex(s) < |s|
    ensures s == Whole(s) + "." + Fraction(s)
  {
    SplitAt(s, DotIndex(s));
  }

  lemma SplitAt(s: string, n: nat)
    requires n < |s| && s[n] == '.'
    ensures s == s[..n] + "." + s[n + 1..]
  {
    forall i | 0 <= i < |s| ensures s[i] == (s[..n] + "." + s[n + 1..])[i] {}
  }

  lemma PlainDigits(s: string, maxDigits: nat)
    requires Plain(s, maxDigits)
    ensures |Fraction(s)| <= FRACTION_DIGITS && AllDigits(UnitDigits(s)) && |UnitDigits(s)| >= FRACTION_DIGITS + 1
    ensures |UnitDigits(s)| > FRACTION_DIGITS + 1 ==> UnitDigits(s)[0] != '0'
    ensures |UnitDigits(s)| == |Whole(s)| + FRACTION_DIGITS
  {}

  /** The canonical form keeps the number. */
  lemma DecimalKeeps(s: string)
    requires Decimal(s).Some?
    ensures Plain(Decimal(s).value, 18) && UnitDigits(Decimal(s).value) == UnitDigits(s)
  {
    PlainDigits(s, 18);
    if DotIndex(s) < |s| {
      Joined(s);
      TrimmedUnits(Whole(s), Fraction(s), 18);
    }
  }

  /** A digit string of at least 19 digits, with no superfluous leading zero, is the padded form
      of its value. */
  lemma PaddedIsUnique(d: string)
    requires AllDigits(d) && |d| >= FRACTION_DIGITS + 1 && (|d| > FRACTION_DIGITS + 1 ==> d[0] != '0')
    ensures d == Padded(DigitsValue(d))
  {
    hide Padded, DigitsValue, Pow10;
    var p := Padded(DigitsValue(d));
    PaddedForm(DigitsValue(d));
    NotLonger(d, p);
    NotLonger(p, d);
    DigitsInjective(d, p);
  }

  lemma NotLonger(s: string, t: string)
    requires AllDigits(s) && AllDigits(t) && DigitsValue(s) == DigitsValue(t)
    requires |t| >= FRACTION_DIGITS + 1 && (|s| > FRACTION_DIGITS + 1 ==> s[0] != '0')
    ensures |s| <= |t|
  {
    hide DigitsValue, Pow10;
    if |s| > |t| {
      DigitsAtLeast(s);
      DigitsBelow(t);
      Pow10Monotone(|t|, |s| - 1);
    }
  }

  /** The canonical form is the one that formatting produces: amounts are equal as numbers
      exactly when their canonical forms are equal as text. */
  lemma DecimalIsFormat(s: string)
    requires Decimal(s).Some?
    ensures |Fraction(s)| <= FRACTION_DIGITS
    ensures Decimal(s).value == Format(DigitsValue(UnitDigits(s)))
  {
    hide Padded, DigitsValue, TrimRight, Trimmed, Whole, Fraction, DotIndex, WholePart;
    PlainDigits(s, 18);
    PlainParts(s, 18);
    var d := UnitDigits(s);
    PaddedIsUnique(d);
    var n := |d| - FRACTION_DIGITS;
    var w, f := Whole(s), Fraction(s);
    assert d[..n] == w && d[n..] == f + Zeros(FRACTION_DIGITS - |f|);
    TrimmedParts(w, d[n..]);
    SameTrim(f, FRACTION_DIGITS - |f|);
    CanonicalParts(s);
  }

  lemma PlainParts(s: string, maxDigits: nat)
    requires Plain(s, maxDigits)
    ensures |Whole(s)| > 0 && AllDigits(Whole(s)) && AllDigits(Fraction(s))
  {}

  /** The canonical form: the integer digits, and the fraction unless it is all zeros. */
  lemma CanonicalParts(s: string)
    requires Plain(s, 18)
    ensures Decimal(s) == Some(var t := TrimRight(Fraction(s), '0'); if |t| == 0 then Whole(s) else Whole(s) + "." + t)
  {
    hide Trimmed, WholePart;
    PlainParts(s, 18);
    if DotIndex(s) < |s| {
      Joined(s);
      TrimmedParts(Whole(s), Fraction(s));
    } else {
      assert Whole(s) == s && Fraction(s) == "";
      assert TrimRight("", '0') == "";
    }
  }

  lemma {:induction false} SameTrim(f: string, n: nat)
    ensures TrimRight(f + Zeros(n), '0') == TrimRight(f, '0')
    decreases n
  {
    if n > 0 {
      SameTrim(f, n - 1);
      assert (f + Zeros(n))[..|f + Zeros(n)| - 1] == f + Zeros(n - 1);
    } else {
      assert f + Zeros(0) == f;
    }
  }

  lemma CanonicalForms(s: string, t: string)
    requires Decimal(s).Some? && Decimal(t).Some?
    ensures |Fraction(s)| <= FRACTION_DIGITS && |Fraction(t)| <= FRACTION_DIGITS
    ensures AllDigits(UnitDigits(s)) && AllDigits(UnitDigits(t))
    ensures Decimal(s) == Decimal(t) <==> DigitsValue(UnitDigits(s)) == DigitsValue(UnitDigits(t))
  {
    PlainDigits(s, 18);
    PlainDigits(t, 18);
    DecimalIsFormat(s);
    DecimalIsFormat(t);
    DecimalKeeps(s);
    DecimalKeeps(t);
  }
}
