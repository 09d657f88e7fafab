/** The loops of the journal over its indexes: first keys, prune steps and projections. */
module IndexSteps {
  import opened Wrappers
  import opened Decimals
  import opened LedgerTypes
  import opened Totals
  import opened Ledger
  import opened LedgerInvariant
  import opened LedgerSteps
  import opened Counters

  // ---------- cursors ----------

  predicate FirstEvent(events: set<Event>, e: Event)
  {
    e in events && forall x :: x in events ==> e.at <= x.at
  }

  lemma {:induction false} SomeFirstEvent(events: set<Event>)
    requires events != {}
    ensures exists e :: FirstEvent(events, e)
    decreases events
  {
    var x :| x in events;
    if events == {x} {
      assert FirstEvent(events, x);
    } else {
      SomeFirstEvent(events - {x});
      var y :| FirstEvent(events - {x}, y);
      assert FirstEvent(events, if x.at <= y.at then x else y);
    }
  }

  /** Expiry order: earlier instants first, and charges before retirements at the same instant. */
  predicate Before(x: ExpiryKey, y: ExpiryKey)
  {
    x.at < y.at || (x.at == y.at && x.Charge? && y.Retire?)
  }

  predicate FirstKey(keys: set<ExpiryKey>, k: ExpiryKey)
  {
    k in keys && forall x :: x in keys ==> !Before(x, k)
  }

  lemma {:induction false} SomeFirstKey(keys: set<ExpiryKey>)
    requires keys != {}
    ensures exists k :: FirstKey(keys, k)
    decreases keys
  {
    var x :| x in keys;
    if keys == {x} {
      assert FirstKey(keys, x);
    } else {
      SomeFirstKey(keys - {x});
      var y :| FirstKey(keys - {x}, y);
      var first := if Before(x, y) then x else y;
      forall z | z in keys ensures !Before(z, first) {
        assert z == x || z in keys - {x};
      }
      assert FirstKey(keys, first);
    }
  }

  // ---------- pruning, one key at a time ----------

  predicate KeysSound(f: Core) { forall k :: k in f.expiry ==> KeySound(f.receipts, k) }

  /** Every stored receipt passes the checks of readQuotaReceipt. */
  predicate Readable(f: Core)
  {
    forall id :: id in f.receipts ==> f.receipts[id].id == id && WellFormed(f.receipts[id])
  }

  /** The core after the cursor left todo unvisited. */
  function Pruning(f: Core, t: int, todo: set<ExpiryKey>): (g: Core)
  {
    f.(expiry := (set k | k in f.expiry && (k in todo || !Due(f, t, k))),
       receipts := f.receipts - Retiring(f, t, todo))
  }

  function Retiring(f: Core, t: int, todo: set<ExpiryKey>): (s: set<Id>)
  {
    set k | k in f.expiry && k !in todo && k.Retire? && Due(f, t, k) :: k.id
  }

  /** todo is a final stretch of the expiry order, and everything before it is at most t. */
  predicate CursorAt(f: Core, t: int, todo: set<ExpiryKey>)
  {
    && todo <= f.expiry
    && (forall k :: k in f.expiry && k !in todo ==> k.at <= t)
    && (forall x, y :: x in f.expiry && x !in todo && y in todo ==> !Before(y, x))
  }

  lemma PruningStarts(f: Core, t: int)
    ensures CursorAt(f, t, f.expiry) && Pruning(f, t, f.expiry) == f
  {
    assert Retiring(f, t, f.expiry) == {};
    assert f.receipts - {} == f.receipts;
  }

  /** Where the cursor stops, either at the end or at a key after t, pruning is complete. */
  lemma PruningEnds(f: Core, t: int, todo: set<ExpiryKey>)
    requires CursorAt(f, t, todo)
    requires todo == {} || exists k :: FirstKey(todo, k) && k.at > t
    ensures Pruning(f, t, todo) == PruneQuota(f, t)
  {
    forall k | k in todo ensures !Due(f, t, k) {
      var first :| FirstKey(todo, first) && first.at > t;
      assert !Before(k, first);
    }
    assert Retiring(f, t, todo) == RetiredIds(f, t);
  }

  lemma CursorMoves(f: Core, t: int, todo: set<ExpiryKey>, k: ExpiryKey)
    requires CursorAt(f, t, todo) && FirstKey(todo, k) && k.at <= t
    ensures CursorAt(f, t, todo - {k})
  {}

  lemma RetireIsLast(f: Core, k: ExpiryKey, x: ExpiryKey)
    requires KeysSound(f) && k in f.expiry && x in f.expiry && x.Retire? && x.id == k.id
    ensures k == x || Before(k, x)
  {
    assert KeySound(f.receipts, x) && KeySound(f.receipts, k);
    if k.Charge? { WindowsEndByLatest(f.receipts[k.id], k.window); }
  }

  /** A due key still to be visited has its receipt: charges precede retirements. */
  lemma PruningHasReceipt(f: Core, t: int, todo: set<ExpiryKey>, k: ExpiryKey)
    requires KeysSound(f) && CursorAt(f, t, todo) && k in todo
    ensures k.id in f.receipts && k.id !in Retiring(f, t, todo)
  {
    assert KeySound(f.receipts, k);
    forall x | x in f.expiry && x !in todo && x.Retire? ensures x.id != k.id {
      if x.id == k.id { RetireIsLast(f, k, x); }
    }
  }

  /** Visiting a due charge takes exactly its receipt out of its counter's fold. */
  lemma ChargePruned(f: Core, t: int, todo: set<ExpiryKey>, k: ExpiryKey, a: Account, w: Window, d: Dim)
    requires KeysSound(f) && CursorAt(f, t, todo) && k in todo && k.Charge? && k.at <= t
    ensures Pruning(f, t, todo - {k}).receipts == Pruning(f, t, todo).receipts
    ensures Fold(Pruning(f, t, todo - {k}), a, w, d)
         == Fold(Pruning(f, t, todo), a, w, d)
            - if (a, w) == (k.account, k.window) then Contribution(f.receipts[k.id], d) else 0
  {
    hide Contribution;
    var g, h := Pruning(f, t, todo), Pruning(f, t, todo - {k});
    PruningHasReceipt(f, t, todo, k);
    assert Retiring(f, t, todo - {k}) == Retiring(f, t, todo);
    assert h.expiry == g.expiry - {k};
    ChargeRemoved(g, h, k, a, w, d);
  }

  lemma ChargeRemoved(g: Core, h: Core, k: ExpiryKey, a: Account, w: Window, d: Dim)
    requires k in g.expiry && k.Charge? && h.expiry == g.expiry - {k} && h.receipts == g.receipts
    requires k.id in g.receipts && k.window != InFlight
    requires forall x :: x in g.expiry ==> KeySound(g.receipts, x) || x.id !in g.receipts
    ensures Fold(h, a, w, d) == Fold(g, a, w, d)
            - if (a, w) == (k.account, k.window) then Contribution(g.receipts[k.id], d) else 0
  {
    hide Contribution, Terminal;
    if w == InFlight {
      assert Charged(h, a, w) == Charged(g, a, w);
    } else if (a, w) == (k.account, k.window) {
      OnlyCharge(g, h, k);
      assert Charged(g, a, w) == Charged(h, a, w) + {k.id};
      SumInsert(g.receipts, Charged(h, a, w), k.id, d);
    } else {
      OtherCharges(g, h, k, a, w);
    }
  }

  lemma OtherCharges(g: Core, h: Core, k: ExpiryKey, a: Account, w: Window)
    requires k.Charge? && h.expiry == g.expiry - {k} && w != InFlight && (a, w) != (k.account, k.window)
    ensures Charged(h, a, w) == Charged(g, a, w)
  {
    forall id | id in Charged(g, a, w) ensures id in Charged(h, a, w) {
      var x :| x in g.expiry && x.Charge? && x.account == a && x.window == w && x.id == id;
      assert x in h.expiry;
    }
  }

  lemma UniqueCharge(rs: map<Id, Receipt>, k: ExpiryKey, x: ExpiryKey)
    requires KeySound(rs, k) && KeySound(rs, x) && k.Charge? && x.Charge?
    requires x.account == k.account && x.window == k.window && x.id == k.id
    ensures x == k
  {}

  /** A receipt is charged to a window by one key only. */
  lemma OnlyCharge(g: Core, h: Core, k: ExpiryKey)
    requires k in g.expiry && k.Charge? && h.expiry == g.expiry - {k} && h.receipts == g.receipts
    requires k.id in g.receipts && k.window != InFlight
    requires forall x :: x in g.expiry ==> KeySound(g.receipts, x) || x.id !in g.receipts
    ensures Charged(g, k.account, k.window) == Charged(h, k.account, k.window) + {k.id}
    ensures k.id !in Charged(h, k.account, k.window)
  {
    hide Terminal, Names, KeySound;
    forall x | x in h.expiry && x.Charge? && x.account == k.account && x.window == k.window ensures x.id != k.id {
      if x.id == k.id { UniqueCharge(g.receipts, k, x); }
    }
    forall id | id in Charged(g, k.account, k.window) && id != k.id ensures id in Charged(h, k.account, k.window) {
      var x :| x in g.expiry && x.Charge? && x.account == k.account && x.window == k.window && x.id == id;
      assert x in h.expiry;
    }
  }

  /** Visiting a due retirement drops a receipt that no fold counts any more. */
  lemma RetirePruned(f: Core, t: int, todo: set<ExpiryKey>, k: ExpiryKey, a: Account, w: Window, d: Dim)
    requires KeysSound(f) && CursorAt(f, t, todo) && FirstKey(todo, k) && k.Retire? && Due(f, t, k)
    ensures Pruning(f, t, todo - {k}).receipts == Pruning(f, t, todo).receipts - {k.id}
    ensures k.id in Pruning(f, t, todo).receipts
    ensures Pruning(f, t, todo - {k}).expiry == Pruning(f, t, todo).expiry - {k}
    ensures Fold(Pruning(f, t, todo - {k}), a, w, d) == Fold(Pruning(f, t, todo), a, w, d)
  {
    hide Contribution;
    var g, h := Pruning(f, t, todo), Pruning(f, t, todo - {k});
    PruningHasReceipt(f, t, todo, k);
    RetiringStep(f, t, todo, k);
    RetiredUncharged(f, t, todo, k, a, w);
    assert k.id !in Charged(g, a, w) && Charged(h, a, w) == Charged(g, a, w);
    SumSame(g.receipts, h.receipts, Charged(g, a, w), d);
  }

  lemma RetiringStep(f: Core, t: int, todo: set<ExpiryKey>, k: ExpiryKey)
    requires CursorAt(f, t, todo) && k in todo && k.Retire? && Due(f, t, k)
    ensures Retiring(f, t, todo - {k}) == Retiring(f, t, todo) + {k.id}
  {
    forall id | id in Retiring(f, t, todo) + {k.id} ensures id in Retiring(f, t, todo - {k}) {
      if id != k.id {
        var x :| x in f.expiry && x !in todo && x.Retire? && Due(f, t, x) && x.id == id;
        assert x !in todo - {k};
      }
    }
  }

  lemma RetiredUncharged(f: Core, t: int, todo: set<ExpiryKey>, k: ExpiryKey, a: Account, w: Window)
    requires KeysSound(f) && CursorAt(f, t, todo) && FirstKey(todo, k) && k.Retire? && Due(f, t, k)
    ensures k.id !in Charged(Pruning(f, t, todo), a, w)
    ensures Charged(Pruning(f, t, todo - {k}), a, w) == Charged(Pruning(f, t, todo), a, w)
  {
    hide Names;
    var g, h := Pruning(f, t, todo), Pruning(f, t, todo - {k});
    RetiringStep(f, t, todo, k);
    PruningHasReceipt(f, t, todo, k);
    assert KeySound(f.receipts, k);
    assert h.expiry == g.expiry - {k};
    forall x | x in g.expiry && x.Charge? ensures x.id != k.id && x in h.expiry {
      if x.id == k.id { ChargeBeforeRetire(f, t, x, k); }
    }
    if w != InFlight {
      forall id | id in Charged(g, a, w) ensures id in Charged(h, a, w) {
        var x :| x in g.expiry && x.Charge? && x.account == a && x.window == w && x.id == id;
        assert x in h.expiry;
      }
    }
  }

  lemma ChargeBeforeRetire(f: Core, t: int, x: ExpiryKey, k: ExpiryKey)
    requires KeysSound(f) && k in f.expiry && x in f.expiry && k.Retire? && x.Charge? && x.id == k.id && k.at <= t
    ensures Before(x, k) && Due(f, t, x)
  {
    RetireIsLast(f, x, k);
  }

  /** A retirement whose fact is still queued stays in the index. */
  lemma RetireKept(f: Core, t: int, todo: set<ExpiryKey>, k: ExpiryKey)
    requires CursorAt(f, t, todo) && k in todo && k.Retire? && !Due(f, t, k)
    ensures Pruning(f, t, todo - {k}) == Pruning(f, t, todo)
  {
    assert Retiring(f, t, todo - {k}) == Retiring(f, t, todo);
  }

  // ---------- counters under these steps ----------

  lemma ReadableWeighable(f: Core)
    requires Readable(f)
    ensures Weighable(f.receipts)
  {
    hide ValidKey, ValidAccounts;
  }

  /** The counter of a visited charge covers it, and taking it out keeps the table in agreement. */
  lemma ChargeTaken(f: Core, t: int, todo: set<ExpiryKey>, k: ExpiryKey, table: Table)
    requires KeysSound(f) && Readable(f) && CursorAt(f, t, todo) && k in todo && k.Charge? && k.at <= t
    requires TableAgrees(table, Pruning(f, t, todo))
    ensures k.id in Pruning(f, t, todo).receipts && Pruning(f, t, todo).receipts[k.id] == f.receipts[k.id]
    ensures WellFormed(f.receipts[k.id]) && f.receipts[k.id].id == k.id
    ensures var o := ApplyQuotaCounter(table, k.account, k.window, f.receipts[k.id], -1);
            o.Some? && TableAgrees(o.value, Pruning(f, t, todo - {k}))
  {
    hide Pruning, ApplyQuotaCounter, Contribution, Fold, KeysSound, CursorAt, CounterOk, ValidAmounts, CounterAt, Amount;
    var g, h := Pruning(f, t, todo), Pruning(f, t, todo - {k});
    PruningHasReceipt(f, t, todo, k);
    PruningReceipts(f, t, todo);
    var r := f.receipts[k.id];
    assert ValidAmounts(r) by { WellFormedAmounts(r); }
    TableApplied(table, k.account, k.window, r, -1);
    forall d | Stored(d)
      ensures 0 <= Amount(CounterAt(table, k.account, k.window), d) - Contribution(r, d)
      ensures Bounded(d) ==> Amount(CounterAt(table, k.account, k.window), d) - Contribution(r, d) <= MAX_INT64
    {
      ChargePruned(f, t, todo, k, k.account, k.window, d);
      ReadableWeighable(f);
      FoldAtLeastZero(h, f, k.account, k.window, d);
      WeightAtLeastZero(r, d);
      TableBounded(table, k.account, k.window, d);
    }
    forall a, w, d | Stored(d)
      ensures Amount(CounterAt(ApplyQuotaCounter(table, k.account, k.window, r, -1).value, a, w), d) == Fold(h, a, w, d)
    {
      ChargePruned(f, t, todo, k, a, w, d);
      assert Amount(CounterAt(table, a, w), d) == Fold(g, a, w, d);
    }
  }

  lemma PruningReceipts(f: Core, t: int, todo: set<ExpiryKey>)
    ensures forall id :: id in Pruning(f, t, todo).receipts <==> id in f.receipts && id !in Retiring(f, t, todo)
    ensures forall id :: id in Pruning(f, t, todo).receipts ==> Pruning(f, t, todo).receipts[id] == f.receipts[id]
  {}

  lemma WellFormedAmounts(r: Receipt)
    requires WellFormed(r)
    ensures ValidAmounts(r)
  {}

  lemma WeightAtLeastZero(r: Receipt, d: Dim)
    requires ValidAmounts(r)
    ensures 0 <= Contribution(r, d)
  {
    NonNegative(r, d);
  }

  lemma TableBounded(table: Table, a: Account, w: Window, d: Dim)
    requires TableOk(table)
    ensures Bounded(d) ==> Amount(CounterAt(table, a, w), d) <= MAX_INT64
  {}

  lemma FoldAtLeastZero(h: Core, f: Core, a: Account, w: Window, d: Dim)
    requires Weighable(f.receipts) && forall id :: id in h.receipts ==> id in f.receipts && h.receipts[id] == f.receipts[id]
    ensures 0 <= Fold(h, a, w, d)
  {
    hide Charged;
    SumNonNegative(h.receipts, Charged(h, a, w), d);
  }

  lemma RetireTaken(f: Core, t: int, todo: set<ExpiryKey>, k: ExpiryKey, table: Table)
    requires KeysSound(f) && CursorAt(f, t, todo) && FirstKey(todo, k) && k.Retire? && Due(f, t, k)
    requires TableAgrees(table, Pruning(f, t, todo))
    ensures k.id in Pruning(f, t, todo).receipts
    ensures |Pruning(f, t, todo - {k}).receipts| == |Pruning(f, t, todo).receipts| - 1
    ensures Pruning(f, t, todo - {k})
         == Pruning(f, t, todo).(receipts := Pruning(f, t, todo).receipts - {k.id},
                                 expiry := Pruning(f, t, todo).expiry - {k})
    ensures TableAgrees(table, Pruning(f, t, todo - {k}))
  {
    hide Fold, KeysSound, CursorAt, FirstKey, Due, Retiring;
    RetirePruned(f, t, todo, k, "", InFlight, TokensUsed);
    var rs := Pruning(f, t, todo).receipts;
    assert (rs - {k.id}).Keys == rs.Keys - {k.id};
    forall a, w, d | Stored(d) ensures Amount(CounterAt(table, a, w), d) == Fold(Pruning(f, t, todo - {k}), a, w, d) {
      RetirePruned(f, t, todo, k, a, w, d);
      assert Amount(CounterAt(table, a, w), d) == Fold(Pruning(f, t, todo), a, w, d);
    }
  }
}
