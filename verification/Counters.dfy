/** The journal's incremental counters, and their agreement with the folds they stand for. */
module Counters {
  import opened Wrappers
  import opened Decimals
  import opened LedgerTypes
  import opened Totals
  import opened Ledger
  import opened LedgerInvariant

  /** A stored counter. Money amounts are in units of 10^-18, and absent when zero. */
  datatype Counter = Counter(
    tokensUsed: int,
    tokensHeld: int,
    tokensUnknown: int,
    moneyUsed: map<string, int>,
    moneyHeld: map<string, int>,
    moneyUnknown: int)

  const ZERO := Counter(0, 0, 0, map[], map[], 0)

  type Counts = map<Account, int>
  type Table = map<(Account, Window), Counter>

  // ---------- event and lease counts ----------

  function CountValue(m: Counts, a: Account): (n: int) { if a in m then m[a] else 0 }

  /** Adds delta to a count; a count that reaches zero is removed. */
  function ChangeCount(m: Counts, a: Account, delta: int): (r: Option<Counts>)
    ensures r.Some? <==> CountValue(m, a) + delta >= 0
    ensures r.Some? ==> forall b :: CountValue(r.value, b) == CountValue(m, b) + if b == a then delta else 0
    ensures r.Some? && Positive(m) ==> Positive(r.value)
  {
    var v := CountValue(m, a) + delta;
    if v < 0 then None
    else if v == 0 then Some(m - {a})
    else Some(m[a := v])
  }

  predicate Positive(m: Counts) { forall a :: a in m ==> m[a] > 0 }

  /** The index holds exactly one count per account with events. */
  ghost predicate RpmAgrees(m: Counts, events: set<Event>)
  {
    Positive(m) && forall a :: CountValue(m, a) == |EventsOf(events, a)|
  }

  ghost predicate ActiveAgrees(m: Counts, leases: map<Id, seq<Account>>)
  {
    Positive(m) && forall a :: CountValue(m, a) == |LeasesOf(leases, a)|
  }

  // ---------- amounts ----------

  function MoneyOf(m: map<string, int>, c: string): (n: int) { if c in m then m[c] else 0 }

  function Amount(c: Counter, d: Dim): (n: int)
  {
    match d
    case TokensUsed => c.tokensUsed
    case TokensHeld => c.tokensHeld
    case TokensUnknown => c.tokensUnknown
    case MoneyUsed(x) => MoneyOf(c.moneyUsed, x)
    case MoneyHeld(x) => MoneyOf(c.moneyHeld, x)
    case MoneyUnknown => c.moneyUnknown
    case _ => 0
  }

  predicate MoneyOk(m: map<string, int>)
  {
    forall c :: c in m ==> ValidCurrency(c) && m[c] > 0
  }

  /** What readQuotaCounter accepts and applyQuotaCounter writes. */
  predicate CounterOk(c: Counter)
  {
    && 0 <= c.tokensUsed <= MAX_INT64 && 0 <= c.tokensHeld <= MAX_INT64
    && 0 <= c.tokensUnknown <= MAX_INT64 && 0 <= c.moneyUnknown <= MAX_INT64
    && MoneyOk(c.moneyUsed) && MoneyOk(c.moneyHeld)
  }

  function CounterAt(t: Table, a: Account, w: Window): (c: Counter)
  {
    if (a, w) in t then t[(a, w)] else ZERO
  }

  predicate TableOk(t: Table)
  {
    forall k :: k in t ==> CounterOk(t[k]) && t[k] != ZERO
  }

  /** Counters with the same amounts are the same counter. */
  lemma CounterDetermined(c: Counter, e: Counter)
    requires CounterOk(c) && CounterOk(e)
    requires forall d :: Stored(d) ==> Amount(c, d) == Amount(e, d)
    ensures c == e
  {
    assert Amount(c, TokensUsed) == Amount(e, TokensUsed);
    assert Amount(c, TokensHeld) == Amount(e, TokensHeld);
    assert Amount(c, TokensUnknown) == Amount(e, TokensUnknown);
    assert Amount(c, MoneyUnknown) == Amount(e, MoneyUnknown);
    forall x: string ensures MoneyOf(c.moneyUsed, x) == MoneyOf(e.moneyUsed, x)
                          && MoneyOf(c.moneyHeld, x) == MoneyOf(e.moneyHeld, x)
    {
      assert Amount(c, MoneyUsed(x)) == Amount(e, MoneyUsed(x));
      assert Amount(c, MoneyHeld(x)) == Amount(e, MoneyHeld(x));
    }
    MoneyDetermined(c.moneyUsed, e.moneyUsed);
    MoneyDetermined(c.moneyHeld, e.moneyHeld);
  }

  lemma MoneyDetermined(m: map<string, int>, n: map<string, int>)
    requires MoneyOk(m) && MoneyOk(n) && forall x :: MoneyOf(m, x) == MoneyOf(n, x)
    ensures m == n
  {
    forall x ensures x in m <==> x in n {
      assert MoneyOf(m, x) == MoneyOf(n, x);
    }
    forall x | x in m ensures m[x] == n[x] {
      assert MoneyOf(m, x) == MoneyOf(n, x);
    }
  }

  /** The whole table is fixed by its amounts: nothing stale can hide in it. */
  lemma TableDetermined(t: Table, u: Table)
    requires TableOk(t) && TableOk(u)
    requires forall a, w, d :: Stored(d) ==> Amount(CounterAt(t, a, w), d) == Amount(CounterAt(u, a, w), d)
    ensures t == u
  {
    forall k: (Account, Window) ensures CounterAt(t, k.0, k.1) == CounterAt(u, k.0, k.1) {
      CounterDetermined(CounterAt(t, k.0, k.1), CounterAt(u, k.0, k.1));
    }
    forall k ensures k in t <==> k in u {
      assert k == (k.0, k.1);
      assert CounterAt(t, k.0, k.1) == CounterAt(u, k.0, k.1);
    }
    forall k | k in t ensures t[k] == u[k] {
      assert k == (k.0, k.1);
      assert CounterAt(t, k.0, k.1) == CounterAt(u, k.0, k.1);
    }
  }

  // ---------- arithmetic ----------

  /** 64-bit addition or subtraction that refuses to leave [0, MAX_INT64]. */
  function AddToken(total: int, value: int, sign: int): (r: Option<int>)
    requires sign == 1 || sign == -1
  {
    if value < 0 then None
    else if sign == 1 then (if total > MAX_INT64 - value then None else Some(total + value))
    else (if total < value then None else Some(total - value))
  }

  /** Big-integer addition or subtraction of one currency; a zero amount is removed. */
  function AddMoney(m: map<string, int>, c: string, money: string, sign: int): (r: Option<map<string, int>>)
    requires sign == 1 || sign == -1
  {
    if QuotaUnits(money).None? then None
    else
      var v := MoneyOf(m, c) + sign * Units(money);
      if v < 0 then None
      else if v == 0 then Some(m - {c})
      else Some(m[c := v])
  }

  function AddTokens(c: Counter, r: Receipt, sign: int): (o: Option<Counter>)
    requires sign == 1 || sign == -1
  {
    if TokenAmount(r).None? then
      var v := AddToken(c.tokensUnknown, 1, sign);
      if v.None? then None else Some(c.(tokensUnknown := v.value))
    else if TokensSettled(r) then
      var v := AddToken(c.tokensUsed, TokenAmount(r).value, sign);
      if v.None? then None else Some(c.(tokensUsed := v.value))
    else
      var v := AddToken(c.tokensHeld, TokenAmount(r).value, sign);
      if v.None? then None else Some(c.(tokensHeld := v.value))
  }

  function AddMonies(c: Counter, r: Receipt, sign: int): (o: Option<Counter>)
    requires sign == 1 || sign == -1
  {
    if MoneyAmount(r).None? then
      var v := AddToken(c.moneyUnknown, 1, sign);
      if v.None? then None else Some(c.(moneyUnknown := v.value))
    else if MoneySettled(r) then
      var v := AddMoney(c.moneyUsed, MoneyCurrency(r), MoneyAmount(r).value, sign);
      if v.None? then None else Some(c.(moneyUsed := v.value))
    else
      var v := AddMoney(c.moneyHeld, MoneyCurrency(r), MoneyAmount(r).value, sign);
      if v.None? then None else Some(c.(moneyHeld := v.value))
  }

  /** One receipt added to or taken from one counter, tokens first, then money. */
  function ApplyEntry(c: Counter, r: Receipt, sign: int): (o: Option<Counter>)
    requires sign == 1 || sign == -1
  {
    var t := AddTokens(c, r, sign);
    if t.None? then None else AddMonies(t.value, r, sign)
  }

  predicate ValidAmounts(r: Receipt) { ValidBound(r.bound) && ValidSettlement(r.actual) }

  /** The four amounts that are 64-bit integers. */
  predicate Bounded(d: Dim) { d in {TokensUsed, TokensHeld, TokensUnknown, MoneyUnknown} }

  lemma TokensApplied(c: Counter, r: Receipt, sign: int)
    requires CounterOk(c) && ValidAmounts(r) && (sign == 1 || sign == -1)
    ensures AddTokens(c, r, sign).Some? <==>
              forall d :: d in {TokensUsed, TokensHeld, TokensUnknown} ==>
                0 <= Amount(c, d) + sign * Contribution(r, d) <= MAX_INT64
    ensures AddTokens(c, r, sign).Some? ==>
              && CounterOk(AddTokens(c, r, sign).value)
              && forall d :: Stored(d) ==>
                   Amount(AddTokens(c, r, sign).value, d)
                   == Amount(c, d) + if d in {TokensUsed, TokensHeld, TokensUnknown} then sign * Contribution(r, d) else 0
  {
    hide ValidAmounts, Contribution, TokenAmount, TokensSettled, MoneyOk;
    TokenAmountNonNegative(r);
    TokenContributions(r);
  }

  lemma TokenContributions(r: Receipt)
    ensures Contribution(r, TokensUsed)
            == if TokenAmount(r).Some? && TokensSettled(r) then TokenAmount(r).value else 0
    ensures Contribution(r, TokensHeld)
            == if TokenAmount(r).Some? && !TokensSettled(r) then TokenAmount(r).value else 0
    ensures Contribution(r, TokensUnknown) == if TokenAmount(r).None? then 1 else 0
  {}

  lemma TokenAmountNonNegative(r: Receipt)
    requires ValidAmounts(r)
    ensures TokenAmount(r).Some? ==> 0 <= TokenAmount(r).value
  {}

  lemma MoneyAmountValid(r: Receipt)
    requires ValidAmounts(r)
    ensures MoneyAmount(r).Some? ==> QuotaUnits(MoneyAmount(r).value).Some? && ValidCurrency(MoneyCurrency(r))
  {}

  lemma MoneyApplied(m: map<string, int>, c: string, money: string, sign: int)
    requires MoneyOk(m) && ValidCurrency(c) && QuotaUnits(money).Some? && (sign == 1 || sign == -1)
    ensures AddMoney(m, c, money, sign).Some? <==> 0 <= MoneyOf(m, c) + sign * Units(money)
    ensures AddMoney(m, c, money, sign).Some? ==>
              && MoneyOk(AddMoney(m, c, money, sign).value)
              && forall x :: MoneyOf(AddMoney(m, c, money, sign).value, x)
                             == MoneyOf(m, x) + if x == c then sign * Units(money) else 0
  {
    hide Units, QuotaUnits, ValidCurrency;
  }

  lemma MoniesApplied(c: Counter, r: Receipt, sign: int)
    requires CounterOk(c) && ValidAmounts(r) && (sign == 1 || sign == -1)
    ensures AddMonies(c, r, sign).Some? <==>
              && 0 <= c.moneyUnknown + sign * Contribution(r, MoneyUnknown) <= MAX_INT64
              && forall x :: 0 <= MoneyOf(c.moneyUsed, x) + sign * Contribution(r, MoneyUsed(x))
                          && 0 <= MoneyOf(c.moneyHeld, x) + sign * Contribution(r, MoneyHeld(x))
    ensures AddMonies(c, r, sign).Some? ==>
              && CounterOk(AddMonies(c, r, sign).value)
              && forall d :: Stored(d) ==>
                   Amount(AddMonies(c, r, sign).value, d)
                   == Amount(c, d) + if d in {TokensUsed, TokensHeld, TokensUnknown} then 0 else sign * Contribution(r, d)
  {
    hide ValidAmounts, Contribution, Units, QuotaUnits, ValidCurrency, AddMoney, MoneyAmount, MoneySettled, MoneyOk;
    MoneyAmountValid(r);
    MoneyContributions(r);
    MoneyNonNegative(c.moneyUsed);
    MoneyNonNegative(c.moneyHeld);
    if MoneyAmount(r).Some? {
      MoneyApplied(if MoneySettled(r) then c.moneyUsed else c.moneyHeld, MoneyCurrency(r), MoneyAmount(r).value, sign);
    }
  }

  lemma MoneyNonNegative(m: map<string, int>)
    requires MoneyOk(m)
    ensures forall x :: 0 <= MoneyOf(m, x)
  {}

  lemma MoneyContributions(r: Receipt)
    ensures Contribution(r, MoneyUnknown) == if MoneyAmount(r).None? then 1 else 0
    ensures forall x :: Contribution(r, MoneyUsed(x))
              == if MoneyAmount(r).Some? && MoneySettled(r) && MoneyCurrency(r) == x then Units(MoneyAmount(r).value) else 0
    ensures forall x :: Contribution(r, MoneyHeld(x))
              == if MoneyAmount(r).Some? && !MoneySettled(r) && MoneyCurrency(r) == x then Units(MoneyAmount(r).value) else 0
  {}

  /** Applying a receipt changes every amount by its contribution, and succeeds exactly when
      every result is in range. */
  lemma EntryApplied(c: Counter, r: Receipt, sign: int)
    requires CounterOk(c) && ValidAmounts(r) && (sign == 1 || sign == -1)
    ensures ApplyEntry(c, r, sign).Some? <==>
              forall d :: Stored(d) ==>
                && 0 <= Amount(c, d) + sign * Contribution(r, d)
                && (Bounded(d) ==> Amount(c, d) + sign * Contribution(r, d) <= MAX_INT64)
    ensures ApplyEntry(c, r, sign).Some? ==>
              && CounterOk(ApplyEntry(c, r, sign).value)
              && forall d :: Stored(d) ==>
                   Amount(ApplyEntry(c, r, sign).value, d) == Amount(c, d) + sign * Contribution(r, d)
    ensures ApplyEntry(c, r, sign).Some? ==>
              forall d :: Stored(d) ==>
                Amount(ApplyEntry(c, r, sign).value, d) == Amount(c, d) + sign * Measured(r.bound, Told(r), d)
  {
    hide ValidAmounts, AddTokens, AddMonies, Contribution, CounterOk, Measured;
    forall d | Stored(d) ensures Contribution(r, d) == Measured(r.bound, Told(r), d) { CountedAsMeasured(r, d); }
    TokensApplied(c, r, sign);
    var t := AddTokens(c, r, sign);
    if t.Some? {
      MoniesApplied(t.value, r, sign);
      InRange(c, t.value, r, sign);
    } else {
      var d :| d in {TokensUsed, TokensHeld, TokensUnknown}
               && !(0 <= Amount(c, d) + sign * Contribution(r, d) <= MAX_INT64);
      assert Stored(d) && Bounded(d);
    }
  }

  lemma InRange(c: Counter, t: Counter, r: Receipt, sign: int)
    requires forall d :: d in {TokensUsed, TokensHeld, TokensUnknown} ==>
               0 <= Amount(c, d) + sign * Contribution(r, d) <= MAX_INT64
    requires forall d :: Stored(d) ==>
               Amount(t, d) == Amount(c, d) + if d in {TokensUsed, TokensHeld, TokensUnknown} then sign * Contribution(r, d) else 0
    ensures (&& 0 <= t.moneyUnknown + sign * Contribution(r, MoneyUnknown) <= MAX_INT64
             && forall x :: 0 <= MoneyOf(t.moneyUsed, x) + sign * Contribution(r, MoneyUsed(x))
                         && 0 <= MoneyOf(t.moneyHeld, x) + sign * Contribution(r, MoneyHeld(x)))
            <==> forall d :: Stored(d) ==>
                   && 0 <= Amount(c, d) + sign * Contribution(r, d)
                   && (Bounded(d) ==> Amount(c, d) + sign * Contribution(r, d) <= MAX_INT64)
  {
    hide Contribution;
    assert Amount(t, MoneyUnknown) == t.moneyUnknown == Amount(c, MoneyUnknown);
    forall x: string ensures MoneyOf(t.moneyUsed, x) == Amount(c, MoneyUsed(x))
                          && MoneyOf(t.moneyHeld, x) == Amount(c, MoneyHeld(x))
    {
      assert Amount(t, MoneyUsed(x)) == MoneyOf(t.moneyUsed, x);
      assert Amount(t, MoneyHeld(x)) == MoneyOf(t.moneyHeld, x);
    }
  }

  // ---------- the table ----------

  /** Reads, updates and writes back one counter; a counter that became zero is removed. */
  function ApplyQuotaCounter(t: Table, a: Account, w: Window, r: Receipt, sign: int): (o: Option<Table>)
    requires sign == 1 || sign == -1
  {
    var c := ApplyEntry(CounterAt(t, a, w), r, sign);
    if c.None? then None
    else if c.value == ZERO then Some(t - {(a, w)})
    else Some(t[(a, w) := c.value])
  }

  /** Every stored amount of every counter is the fold it stands for. */
  ghost predicate TableAgrees(t: Table, f: Core)
  {
    TableOk(t) && forall a, w, d :: Stored(d) ==> Amount(CounterAt(t, a, w), d) == Fold(f, a, w, d)
  }

  lemma CounterAtOk(t: Table, a: Account, w: Window)
    requires TableOk(t)
    ensures CounterOk(CounterAt(t, a, w))
  {}

  lemma TableApplied(t: Table, a: Account, w: Window, r: Receipt, sign: int)
    requires TableOk(t) && ValidAmounts(r) && (sign == 1 || sign == -1)
    ensures ApplyQuotaCounter(t, a, w, r, sign).Some? <==>
              forall d :: Stored(d) ==>
                && 0 <= Amount(CounterAt(t, a, w), d) + sign * Contribution(r, d)
                && (Bounded(d) ==> Amount(CounterAt(t, a, w), d) + sign * Contribution(r, d) <= MAX_INT64)
    ensures ApplyQuotaCounter(t, a, w, r, sign).Some? ==>
              var u := ApplyQuotaCounter(t, a, w, r, sign).value;
              && TableOk(u)
              && (forall b, x :: (b, x) != (a, w) ==> CounterAt(u, b, x) == CounterAt(t, b, x))
              && forall d :: Stored(d) ==>
                   Amount(CounterAt(u, a, w), d) == Amount(CounterAt(t, a, w), d) + sign * Contribution(r, d)
  {
    hide ValidAmounts, ApplyEntry, Contribution, CounterOk, Amount;
    CounterAtOk(t, a, w);
    EntryApplied(CounterAt(t, a, w), r, sign);
  }

  // ---------- the indexed journal ----------

  /** The core together with the counts and counters that the program keeps beside it. */
  datatype Db = Db(core: Core, rpm: Counts, active: Counts, eventCount: int, entryCount: int, counters: Table)

  const EMPTY_DB := Db(EMPTY_CORE, map[], map[], 0, 0, map[])

  ghost predicate Agrees(db: Db)
  {
    && RpmAgrees(db.rpm, db.core.events)
    && ActiveAgrees(db.active, db.core.leases)
    && db.eventCount == |db.core.events|
    && db.entryCount == |db.core.receipts|
    && TableAgrees(db.counters, db.core)
  }

  ghost predicate ValidDb(db: Db, cfg: Config)
  {
    Inv(db.core, cfg) && Agrees(db)
  }

  lemma CountsDetermined(m: Counts, n: Counts)
    requires Positive(m) && Positive(n) && forall a :: CountValue(m, a) == CountValue(n, a)
    ensures m == n
  {
    forall a ensures a in m <==> a in n {
      assert CountValue(m, a) == CountValue(n, a);
    }
    forall a | a in m ensures m[a] == n[a] {
      assert CountValue(m, a) == CountValue(n, a);
    }
  }

  /** The indexes are a function of the core: two agreeing journals with the same core are equal.
      Rebuilding an agreeing index is therefore the identity. */
  lemma IndexesDetermined(x: Db, y: Db)
    requires x.core == y.core && Agrees(x) && Agrees(y)
    ensures x == y
  {
    CountsDetermined(x.rpm, y.rpm);
    CountsDetermined(x.active, y.active);
    forall a, w, d | Stored(d) ensures Amount(CounterAt(x.counters, a, w), d) == Amount(CounterAt(y.counters, a, w), d) {
      assert Amount(CounterAt(x.counters, a, w), d) == Fold(x.core, a, w, d);
    }
    TableDetermined(x.counters, y.counters);
  }

  // ---------- the event count under an admission ----------

  lemma NewEventsOf(id: Id, t: int, accounts: seq<Account>, a: Account)
    ensures EventsOf(NewEvents(id, t, accounts), a) == if a in accounts then {Event(t, id, a)} else {}
  {
    if a in accounts {
      var i :| 0 <= i < |accounts| && accounts[i] == a;
      assert Event(t, id, accounts[i]) in NewEvents(id, t, accounts);
    }
  }

  lemma {:induction false} NewEventsDistinct(id: Id, t: int, accounts: seq<Account>)
    requires DistinctAccounts(accounts)
    ensures |NewEvents(id, t, accounts)| == |accounts|
    decreases |accounts|
  {
    if |accounts| > 0 {
      var n := |accounts| - 1;
      NewEventsDistinct(id, t, accounts[..n]);
      assert NewEvents(id, t, accounts) == NewEvents(id, t, accounts[..n]) + {Event(t, id, accounts[n])};
    } else {
      assert NewEvents(id, t, accounts) == {};
    }
  }

  /** After an admission raised each named account's count by one, the counts still agree with
      the events if and only if none of the new event keys was present before. */
  lemma CountsAgreeIffFresh(before: Counts, after: Counts, events: set<Event>, id: Id, t: int, accounts: seq<Account>)
    requires RpmAgrees(before, events) && Positive(after)
    requires forall a :: CountValue(after, a) == CountValue(before, a) + if a in accounts then 1 else 0
    ensures RpmAgrees(after, events + NewEvents(id, t, accounts)) <==>
              forall a :: a in accounts ==> Event(t, id, a) !in events
  {
    forall a
      ensures CountValue(after, a) == |EventsOf(events + NewEvents(id, t, accounts), a)|
              <==> (a in accounts ==> Event(t, id, a) !in events)
    {
      NewEventsOf(id, t, accounts, a);
      assert EventsOf(events + NewEvents(id, t, accounts), a)
          == EventsOf(events, a) + EventsOf(NewEvents(id, t, accounts), a);
      assert CountValue(before, a) == |EventsOf(events, a)|;
      if a in accounts && Event(t, id, a) in events {
        assert EventsOf(events, a) + {Event(t, id, a)} == EventsOf(events, a);
      }
    }
  }

  lemma EventTotalIffFresh(events: set<Event>, id: Id, t: int, accounts: seq<Account>)
    requires DistinctAccounts(accounts) && forall a :: a in accounts ==> Event(t, id, a) !in events
    ensures |events + NewEvents(id, t, accounts)| == |events| + |accounts|
  {
    NewEventsDistinct(id, t, accounts);
    assert events !! NewEvents(id, t, accounts);
  }

  lemma LeasesAfter(before: Counts, after: Counts, leases: map<Id, seq<Account>>, id: Id, accounts: seq<Account>)
    requires ActiveAgrees(before, leases) && Positive(after) && id !in leases
    requires forall a :: CountValue(after, a) == CountValue(before, a) + if a in accounts then 1 else 0
    ensures ActiveAgrees(after, leases[id := accounts])
  {
    forall a ensures CountValue(after, a) == |LeasesOf(leases[id := accounts], a)| {
      assert CountValue(before, a) == |LeasesOf(leases, a)|;
      assert LeasesOf(leases[id := accounts], a) == LeasesOf(leases, a) + if a in accounts then {id} else {};
    }
  }

  lemma LeasesReleased(before: Counts, after: Counts, leases: map<Id, seq<Account>>, id: Id)
    requires ActiveAgrees(before, leases) && Positive(after) && id in leases
    requires forall a :: CountValue(after, a) == CountValue(before, a) - if a in leases[id] then 1 else 0
    ensures ActiveAgrees(after, leases - {id})
  {
    forall a ensures CountValue(after, a) == |LeasesOf(leases - {id}, a)| {
      assert CountValue(before, a) == |LeasesOf(leases, a)|;
      assert LeasesOf(leases - {id}, a) == LeasesOf(leases, a) - {id};
    }
  }

  lemma EventRemoved(before: Counts, after: Counts, events: set<Event>, e: Event)
    requires RpmAgrees(before, events) && Positive(after) && e in events
    requires forall a :: CountValue(after, a) == CountValue(before, a) + if a == e.account then -1 else 0
    ensures RpmAgrees(after, events - {e})
  {
    forall a ensures CountValue(after, a) == |EventsOf(events - {e}, a)| {
      assert CountValue(before, a) == |EventsOf(events, a)|;
      assert EventsOf(events - {e}, a) == EventsOf(events, a) - {e};
    }
  }

  lemma EventCounted(before: Counts, events: set<Event>, e: Event)
    requires RpmAgrees(before, events) && e in events
    ensures CountValue(before, e.account) >= 1
  {
    assert CountValue(before, e.account) == |EventsOf(events, e.account)|;
    assert e in EventsOf(events, e.account);
  }
}
