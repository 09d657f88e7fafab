/** Charging one settled receipt to its open windows, in any order. */
module Projection {
  import opened Wrappers
  import opened Decimals
  import opened LedgerTypes
  import opened Totals
  import opened Ledger
  import opened LedgerInvariant
  import opened Counters

  type Slot = (Account, Window)

  predicate Open(q: Receipt, t: int, p: Slot)
  {
    p.0 in Names(q) && p.1 in Windows(q) && WindowEnd(q, p.1) > t
  }

  function Slots(q: Receipt, t: int): (s: set<Slot>)
  {
    set a, w | a in Names(q) && w in Windows(q) && WindowEnd(q, w) > t :: (a, w)
  }

  /** Table u is table t with q added to exactly the counters in done. */
  ghost predicate Added(t: Table, u: Table, q: Receipt, done: set<Slot>)
  {
    && TableOk(u)
    && forall a, w, d :: Stored(d) ==>
         Amount(CounterAt(u, a, w), d)
         == Amount(CounterAt(t, a, w), d) + if (a, w) in done then Contribution(q, d) else 0
  }

  /** Adding q to one counter of t stays within 64 bits. */
  ghost predicate HasRoom(t: Table, p: Slot, q: Receipt)
  {
    forall d :: Bounded(d) ==> Amount(CounterAt(t, p.0, p.1), d) + Contribution(q, d) <= MAX_INT64
  }

  function Keys(q: Receipt, done: set<Slot>): (s: set<ExpiryKey>)
  {
    set p | p in done :: Charge(WindowEnd(q, p.1), p.0, p.1, q.id)
  }

  lemma AddedNone(t: Table, q: Receipt)
    requires TableOk(t)
    ensures Added(t, t, q, {}) && Keys(q, {}) == {}
  {}

  lemma AddedOne(t: Table, u: Table, q: Receipt, done: set<Slot>, p: Slot)
    requires TableOk(t) && Added(t, u, q, done) && p !in done && ValidAmounts(q)
    ensures ApplyQuotaCounter(u, p.0, p.1, q, 1).Some? <==> HasRoom(t, p, q)
    ensures ApplyQuotaCounter(u, p.0, p.1, q, 1).Some? ==>
              Added(t, ApplyQuotaCounter(u, p.0, p.1, q, 1).value, q, done + {p})
  {
    hide ApplyQuotaCounter, Contribution, ValidAmounts, CounterAt, Amount, CounterOk;
    TableApplied(u, p.0, p.1, q, 1);
    forall d | Stored(d)
      ensures 0 <= Contribution(q, d) && 0 <= Amount(CounterAt(t, p.0, p.1), d)
      ensures Amount(CounterAt(u, p.0, p.1), d) == Amount(CounterAt(t, p.0, p.1), d)
    {
      assert 0 <= Contribution(q, d) by { AmountsNonNegative(q, d); }
      AmountNonNegative(t, p.0, p.1, d);
    }
  }

  lemma AmountsNonNegative(q: Receipt, d: Dim)
    requires ValidAmounts(q)
    ensures 0 <= Contribution(q, d)
  {
    NonNegative(q, d);
  }

  lemma AmountNonNegative(t: Table, a: Account, w: Window, d: Dim)
    requires TableOk(t)
    ensures 0 <= Amount(CounterAt(t, a, w), d)
  {}

  ghost predicate AllRoom(t: Table, q: Receipt, done: set<Slot>)
  {
    forall p :: p in done ==> HasRoom(t, p, q)
  }

  lemma KeysOne(q: Receipt, done: set<Slot>, p: Slot)
    ensures Keys(q, done + {p}) == Keys(q, done) + {Charge(WindowEnd(q, p.1), p.0, p.1, q.id)}
  {}

  lemma RoomEverywhere(t: Table, q: Receipt, instant: int)
    requires AllRoom(t, q, Slots(q, instant))
    ensures forall p :: Open(q, instant, p) ==> HasRoom(t, p, q)
  {
    SlotsOpen(q, instant);
  }

  /** All open slots visited: the expiry keys are the receipt's charge keys. */
  lemma KeysAll(q: Receipt, t: int)
    ensures Keys(q, Slots(q, t)) == ChargeKeys(q, t)
  {
    hide Names, Windows, WindowEnd;
    forall k | k in ChargeKeys(q, t) ensures k in Keys(q, Slots(q, t)) {
      assert (k.account, k.window) in Slots(q, t);
    }
  }

  lemma SlotsOpen(q: Receipt, t: int)
    ensures forall p :: p in Slots(q, t) <==> Open(q, t, p)
  {
    forall p: Slot ensures p in Slots(q, t) <==> Open(q, t, p) {
      assert p == (p.0, p.1);
    }
  }

  // ---------- visiting windows and accounts ----------

  function SlotsIn(q: Receipt, t: int, ws: set<Window>): (s: set<Slot>)
  {
    set a, w | a in Names(q) && w in ws && WindowEnd(q, w) > t :: (a, w)
  }

  function Row(q: Receipt, w: Window, n: nat): (s: set<Slot>)
    requires n <= |q.accounts|
  {
    set i | 0 <= i < n :: (q.accounts[i].account, w)
  }

  lemma RowStarts(q: Receipt, w: Window)
    ensures Row(q, w, 0) == {}
  {}

  lemma WindowVisited(q: Receipt, t: int, ws: set<Window>, w: Window)
    ensures SlotsIn(q, t, ws + {w})
         == SlotsIn(q, t, ws) + if WindowEnd(q, w) > t then Row(q, w, |q.accounts|) else {}
  {
    forall p | p in Row(q, w, |q.accounts|) && WindowEnd(q, w) > t ensures p in SlotsIn(q, t, ws + {w}) {
      var i :| 0 <= i < |q.accounts| && p == (q.accounts[i].account, w);
      assert q.accounts[i].account in Names(q);
    }
    forall p | p in SlotsIn(q, t, ws + {w})
      ensures p in SlotsIn(q, t, ws) + if WindowEnd(q, w) > t then Row(q, w, |q.accounts|) else {}
    {
      if p.1 == w {
        var i :| 0 <= i < |q.accounts| && q.accounts[i].account == p.0;
        assert p == (q.accounts[i].account, w);
      }
    }
  }

  lemma AccountVisited(q: Receipt, t: int, ws: set<Window>, w: Window, i: nat)
    requires ValidAccounts(q.accounts) && i < |q.accounts| && w !in ws
    ensures Row(q, w, i + 1) == Row(q, w, i) + {(q.accounts[i].account, w)}
    ensures (q.accounts[i].account, w) !in SlotsIn(q, t, ws) + Row(q, w, i)
  {
    forall p | p in Row(q, w, i) + {(q.accounts[i].account, w)} ensures p in Row(q, w, i + 1) {
      if p in Row(q, w, i) {
        var j :| 0 <= j < i && p == (q.accounts[j].account, w);
      } else {
        assert p == (q.accounts[i].account, w);
      }
    }
  }

  lemma AllWindows(q: Receipt, t: int)
    ensures SlotsIn(q, t, Windows(q)) == Slots(q, t) && SlotsIn(q, t, {}) == {}
  {}

  /** A counter without room refuses the projection, and with it every later one. */
  lemma NoRoom(q: Receipt, t: int, i: nat, w: Window, table: Table)
    requires i < |q.accounts| && w in Windows(q) && WindowEnd(q, w) > t
    requires !HasRoom(table, (q.accounts[i].account, w), q)
    ensures !forall p :: Open(q, t, p) ==> HasRoom(table, p, q)
  {
    assert q.accounts[i].account in Names(q);
    assert Open(q, t, (q.accounts[i].account, w));
  }

  lemma WindowEndsLater(q: Receipt, w: Window)
    requires WellFormed(q) && w in Windows(q)
    ensures q.admittedAt < WindowEnd(q, w) <= Latest(q)
  {}

  lemma LatestIsAnEnd(q: Receipt)
    ensures SevenDays in Windows(q) && q.monthEnd <= Latest(q)
    ensures Latest(q) == q.monthEnd || Latest(q) == WindowEnd(q, SevenDays)
  {}

  // ---------- in-flight amounts ----------

  /** Table u is table t with q taken out of exactly the counters in done. */
  ghost predicate Taken(t: Table, u: Table, q: Receipt, done: set<Slot>)
  {
    && TableOk(u)
    && forall a, w, d :: Stored(d) ==>
         Amount(CounterAt(u, a, w), d)
         == Amount(CounterAt(t, a, w), d) - if (a, w) in done then Contribution(q, d) else 0
  }

  /** The counter holds at least what q contributed to it. */
  ghost predicate Covers(t: Table, p: Slot, q: Receipt)
  {
    forall d :: Stored(d) ==> Contribution(q, d) <= Amount(CounterAt(t, p.0, p.1), d)
  }

  lemma TakenOne(t: Table, u: Table, q: Receipt, done: set<Slot>, p: Slot)
    requires TableOk(t) && Taken(t, u, q, done) && p !in done && ValidAmounts(q) && Covers(t, p, q)
    ensures ApplyQuotaCounter(u, p.0, p.1, q, -1).Some?
    ensures Taken(t, ApplyQuotaCounter(u, p.0, p.1, q, -1).value, q, done + {p})
  {
    hide ApplyQuotaCounter, Contribution, ValidAmounts, CounterAt, Amount, CounterOk;
    TableApplied(u, p.0, p.1, q, -1);
    forall d | Stored(d)
      ensures 0 <= Contribution(q, d) <= Amount(CounterAt(u, p.0, p.1), d)
      ensures Bounded(d) ==> Amount(CounterAt(u, p.0, p.1), d) <= MAX_INT64
    {
      assert Amount(CounterAt(u, p.0, p.1), d) == Amount(CounterAt(t, p.0, p.1), d);
      AmountsNonNegative(q, d);
      AmountBounded(t, p.0, p.1, d);
    }
  }

  lemma AmountBounded(t: Table, a: Account, w: Window, d: Dim)
    requires TableOk(t)
    ensures Bounded(d) ==> Amount(CounterAt(t, a, w), d) <= MAX_INT64
  {}

  lemma FlightVisited(q: Receipt, i: nat)
    requires ValidAccounts(q.accounts) && i < |q.accounts|
    ensures Row(q, InFlight, i + 1) == Row(q, InFlight, i) + {(q.accounts[i].account, InFlight)}
    ensures (q.accounts[i].account, InFlight) !in Row(q, InFlight, i)
    ensures q.accounts[i].account in Names(q)
  {
    AccountVisited(q, 0, {}, InFlight, i);
    assert SlotsIn(q, 0, {}) == {};
  }

  lemma FlightRow(q: Receipt, a: Account, w: Window)
    ensures (a, w) in Row(q, InFlight, |q.accounts|) <==> w == InFlight && a in Names(q)
  {
    if a in Names(q) {
      var i :| 0 <= i < |q.accounts| && q.accounts[i].account == a;
      assert (q.accounts[i].account, InFlight) in Row(q, InFlight, |q.accounts|);
    }
  }
}
