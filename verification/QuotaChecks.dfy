/** The arithmetic of checkQuota: the decrementing ceiling test and the money loop, each
    against the plain sum it stands for. */
module QuotaChecks {
  import opened Wrappers
  import opened Decimals
  import opened LedgerTypes
  import opened Totals
  import opened Ledger
  import opened LedgerInvariant
  import opened Counters

  lemma {:induction false} SumGrows(s: seq<int>, i: nat)
    requires i <= |s| && forall j :: 0 <= j < |s| ==> 0 <= s[j]
    ensures Sum(s[..i]) <= Sum(s)
    decreases |s| - i
  {
    if i < |s| {
      SumStep(s, i);
      SumGrows(s, i + 1);
    } else {
      assert s[..i] == s;
    }
  }

  lemma SumStep(s: seq<int>, i: nat)
    requires i < |s|
    ensures Sum(s[..i + 1]) == Sum(s[..i]) + s[i]
  {
    assert s[..i + 1] == s[..i] + [s[i]];
    SumAppend(s[..i], s[i]);
  }

  /** Subtracting the amounts one by one from the ceiling, and stopping at the first that is
      larger than what remains, decides whether their unbounded sum is within the ceiling; what
      remains never leaves [0, ceiling], so the test cannot wrap around. */
  method FitsCeiling(ceiling: Int64, amounts: seq<int>) returns (ok: bool)
    requires 0 <= ceiling && forall i :: 0 <= i < |amounts| ==> 0 <= amounts[i]
    ensures ok <==> Sum(amounts) <= ceiling
  {
    var remaining: Int64 := ceiling;
    var i := 0;
    while i < |amounts|
      invariant 0 <= i <= |amounts|
      invariant 0 <= remaining == ceiling - Sum(amounts[..i])
    {
      SumStep(amounts, i);
      SumGrows(amounts, i + 1);
      if amounts[i] > remaining { return false; }
      remaining := remaining - amounts[i];
      i := i + 1;
    }
    assert amounts[..|amounts|] == amounts;
    return true;
  }

  function MoneySum(totals: seq<map<string, int>>, c: string): (n: int)
  {
    if |totals| == 0 then 0 else MoneySum(totals[..|totals| - 1], c) + MoneyOf(totals[|totals| - 1], c)
  }

  predicate OnlyCurrency(m: map<string, int>, c: string) { forall x :: x in m ==> x == c }

  /** Subtracts every total from the maximum, currency by currency in any order, and refuses
      the first currency that is not the policy's own. */
  method MoneyLeft(maximum: int, totals: seq<map<string, int>>, c: string) returns (s: Status, left: int)
    ensures s == Ok || s == ErrQuotaCurrency
    ensures s == Ok <==> forall i :: 0 <= i < |totals| ==> OnlyCurrency(totals[i], c)
    ensures s == Ok ==> left == maximum - MoneySum(totals, c)
  {
    left := maximum;
    var i := 0;
    while i < |totals|
      invariant 0 <= i <= |totals|
      invariant forall j :: 0 <= j < i ==> OnlyCurrency(totals[j], c)
      invariant left == maximum - MoneySum(totals[..i], c)
    {
      var todo := totals[i].Keys;
      ghost var before := left;
      while todo != {}
        invariant todo <= totals[i].Keys
        invariant forall x :: x in totals[i] && x !in todo ==> x == c
        invariant left == before - (if c in totals[i] && c !in todo then totals[i][c] else 0)
        decreases |todo|
      {
        var x :| x in todo;
        if x != c { return ErrQuotaCurrency, left; }
        left := left - totals[i][x];
        todo := todo - {x};
      }
      assert totals[..i + 1][..i] == totals[..i];
      i := i + 1;
    }
    assert totals[..|totals|] == totals;
    return Ok, left;
  }

  // ---------- what a counter that was read says about the folds ----------

  /** Counter c holds the folds of (a, w). */
  ghost predicate Reads(c: Counter, f: Core, a: Account, w: Window)
  {
    CounterOk(c) && forall d :: Stored(d) ==> Amount(c, d) == Fold(f, a, w, d)
  }

  lemma TableReads(t: Table, f: Core, a: Account, w: Window)
    requires TableAgrees(t, f)
    ensures Reads(CounterAt(t, a, w), f, a, w)
  {
    CounterAtOk(t, a, w);
  }

  /** On an empty history the zero counter is right. */
  lemma ZeroReads(f: Core, a: Account, w: Window)
    requires f.receipts == map[] && f.expiry == {}
    ensures Reads(ZERO, f, a, w)
  {
    assert Charged(f, a, w) == {};
    forall d ensures Fold(f, a, w, d) == 0 { assert Weights(f.receipts, {}, d) == map[]; }
  }

  lemma ReadTokens(c: Counter, f: Core, a: Account, w: Window)
    requires Reads(c, f, a, w)
    ensures 0 <= c.tokensUsed == Fold(f, a, w, TokensUsed)
    ensures 0 <= c.tokensHeld == Fold(f, a, w, TokensHeld)
    ensures 0 <= c.tokensUnknown == Fold(f, a, w, TokensUnknown)
    ensures 0 <= c.moneyUnknown == Fold(f, a, w, MoneyUnknown)
  {
    hide Fold;
    assert Amount(c, TokensUsed) == c.tokensUsed && Amount(c, TokensHeld) == c.tokensHeld;
    assert Amount(c, TokensUnknown) == c.tokensUnknown && Amount(c, MoneyUnknown) == c.moneyUnknown;
  }

  lemma ReadMoney(c: Counter, f: Core, a: Account, w: Window, x: string)
    requires Reads(c, f, a, w)
    ensures 0 <= MoneyOf(c.moneyUsed, x) == Fold(f, a, w, MoneyUsed(x))
    ensures 0 <= MoneyOf(c.moneyHeld, x) == Fold(f, a, w, MoneyHeld(x))
    ensures MoneyOf(c.moneyUsed, x) > 0 <==> x in c.moneyUsed
    ensures MoneyOf(c.moneyHeld, x) > 0 <==> x in c.moneyHeld
  {
    hide Fold;
    assert Amount(c, MoneyUsed(x)) == MoneyOf(c.moneyUsed, x);
    assert Amount(c, MoneyHeld(x)) == MoneyOf(c.moneyHeld, x);
  }

  function MoneyTotals(used: Counter, active: Counter): (s: seq<map<string, int>>)
  {
    [used.moneyUsed, used.moneyHeld, active.moneyUsed, active.moneyHeld]
  }

  /** The four maps hold a foreign currency exactly when some load in one is positive. */
  lemma ForeignIffKey(used: Counter, active: Counter, f: Core, a: Account, w: Window, c: string)
    requires Reads(used, f, a, w) && Reads(active, f, a, InFlight)
    ensures ForeignMoney(f, a, w, c)
            <==> !forall i :: 0 <= i < 4 ==> OnlyCurrency(MoneyTotals(used, active)[i], c)
    ensures MoneySum(MoneyTotals(used, active), c) == MoneyLoad(f, a, w, c)
  {
    hide Fold, Reads, MoneySum;
    var totals := MoneyTotals(used, active);
    forall x: string
      ensures MoneyLoad(f, a, w, x) > 0 <==>
                x in used.moneyUsed || x in used.moneyHeld || x in active.moneyUsed || x in active.moneyHeld
    {
      ReadMoney(used, f, a, w, x);
      ReadMoney(active, f, a, InFlight, x);
    }
    ReadMoney(used, f, a, w, c);
    ReadMoney(active, f, a, InFlight, c);
    FourMaps(used.moneyUsed, used.moneyHeld, active.moneyUsed, active.moneyHeld, c);
    KeyedByForeign(used, active, f, a, w, c);
  }

  /** Some map holds another currency exactly when some amount in another currency is positive. */
  lemma KeyedByForeign(used: Counter, active: Counter, f: Core, a: Account, w: Window, c: string)
    requires forall x: string :: MoneyLoad(f, a, w, x) > 0 <==>
               x in used.moneyUsed || x in used.moneyHeld || x in active.moneyUsed || x in active.moneyHeld
    ensures ForeignMoney(f, a, w, c)
            <==> !forall i :: 0 <= i < 4 ==> OnlyCurrency(MoneyTotals(used, active)[i], c)
  {
    hide MoneyLoad;
    var totals := MoneyTotals(used, active);
    if ForeignMoney(f, a, w, c) {
      var x: string :| x != c && MoneyLoad(f, a, w, x) > 0;
      assert !OnlyCurrency(totals[0], c) || !OnlyCurrency(totals[1], c)
          || !OnlyCurrency(totals[2], c) || !OnlyCurrency(totals[3], c);
    }
    if i :| 0 <= i < 4 && !OnlyCurrency(totals[i], c) {
      var x :| x in totals[i] && x != c;
      assert MoneyLoad(f, a, w, x) > 0;
    }
  }

  lemma FourMaps(p: map<string, int>, q: map<string, int>, r: map<string, int>, s: map<string, int>, c: string)
    ensures MoneySum([p, q, r, s], c) == MoneyOf(p, c) + MoneyOf(q, c) + MoneyOf(r, c) + MoneyOf(s, c)
  {
    assert [p][..0] == [] && MoneySum([p], c) == MoneyOf(p, c);
    assert [p, q][..1] == [p] && MoneySum([p, q], c) == MoneyOf(p, c) + MoneyOf(q, c);
    assert [p, q, r][..2] == [p, q];
    assert MoneySum([p, q, r], c) == MoneyOf(p, c) + MoneyOf(q, c) + MoneyOf(r, c);
    assert [p, q, r, s][..3] == [p, q, r];
  }

  lemma FiveAmounts(a: int, b: int, c: int, d: int, e: int)
    ensures Sum([a, b, c, d, e]) == a + b + c + d + e
  {
    assert [e][1..] == [] && Sum([e]) == e;
    assert [d, e][1..] == [e] && Sum([d, e]) == d + e;
    assert [c, d, e][1..] == [d, e] && Sum([c, d, e]) == c + d + e;
    assert [b, c, d, e][1..] == [c, d, e] && Sum([b, c, d, e]) == b + c + d + e;
    assert [a, b, c, d, e][1..] == [b, c, d, e];
  }
}
