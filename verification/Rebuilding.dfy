/** Rebuilding counters and expiry keys receipt by receipt, as startup does. */
module Rebuilding {
  import opened Wrappers
  import opened Decimals
  import opened LedgerTypes
  import opened Totals
  import opened Ledger
  import opened LedgerInvariant
  import opened LedgerSteps
  import opened LedgerRecovery
  import opened LedgerRefinement
  import opened Counters
  import opened IndexSteps
  import Projection

  function Restrict(rs: map<Id, Receipt>, ids: set<Id>): (m: map<Id, Receipt>)
  {
    map id | id in rs && id in ids :: rs[id]
  }

  /** The core as if only the receipts in done had been projected so far. */
  function Partial(f: Core, done: set<Id>): (g: Core)
  {
    f.(leases := map[], receipts := InterruptAll(f),
       expiry := RebuiltExpiry(Restrict(InterruptAll(f), done), f.clock))
  }

  lemma PartialEnds(f: Core)
    ensures Partial(f, f.receipts.Keys) == Rebuild(f)
  {
    assert Restrict(InterruptAll(f), f.receipts.Keys) == InterruptAll(f);
  }

  lemma NothingInFlight(f: Core, cfg: Config, done: set<Id>, a: Account)
    requires Inv(f, cfg)
    ensures Charged(Partial(f, done), a, InFlight) == {}
  {
    hide Inv, Names, RebuiltExpiry;
    forall id | id in f.receipts ensures Terminal(InterruptAll(f)[id]) { InterruptedReceipt(f, cfg, id); }
  }

  lemma PartialStarts(f: Core, cfg: Config)
    requires Inv(f, cfg)
    ensures Partial(f, {}).expiry == {} && TableAgrees(map[], Partial(f, {}))
  {
    hide Inv, InterruptAll, Names, Windows, WindowEnd;
    assert Restrict(InterruptAll(f), {}) == map[];
    var g := Partial(f, {});
    forall a, w, d | Stored(d) ensures Amount(CounterAt(map[], a, w), d) == Fold(g, a, w, d) {
      if w == InFlight { NothingInFlight(f, cfg, {}, a); }
      assert Charged(g, a, w) == {};
      assert Weights(g.receipts, {}, d) == map[];
    }
  }

  /** Which receipts the rebuilt part of the index charges to a window. */
  lemma PartialCharged(f: Core, done: set<Id>, a: Account, w: Window, id: Id)
    requires w != InFlight
    ensures id in Charged(Partial(f, done), a, w) <==>
              && id in f.receipts && id in done
              && a in Names(InterruptAll(f)[id]) && w in Windows(InterruptAll(f)[id])
              && WindowEnd(InterruptAll(f)[id], w) > f.clock
  {
    hide RebuiltExpiry, Names, Windows, WindowEnd, InterruptAll;
    var rs := Restrict(InterruptAll(f), done);
    assert InterruptAll(f).Keys == f.receipts.Keys by { InterruptKeys(f); }
    if id in rs { RebuiltMember(rs, f.clock, Charge(WindowEnd(rs[id], w), a, w, id)); }
    if id in Charged(Partial(f, done), a, w) {
      var k :| k in Partial(f, done).expiry && k.Charge? && k.account == a && k.window == w && k.id == id;
      RebuiltMember(rs, f.clock, k);
    }
  }

  lemma InterruptKeys(f: Core)
    ensures InterruptAll(f).Keys == f.receipts.Keys
  {}

  /** One more projected receipt is charged to exactly its open slots. */
  lemma PartialGrows(f: Core, cfg: Config, done: set<Id>, id: Id, a: Account, w: Window, d: Dim)
    requires Inv(f, cfg) && id in f.receipts && id !in done
    ensures var q := InterruptAll(f)[id];
            Fold(Partial(f, done + {id}), a, w, d)
            == Fold(Partial(f, done), a, w, d) + if (a, w) in Projection.Slots(q, f.clock) then Contribution(q, d) else 0
  {
    hide Inv, InterruptAll, RebuiltExpiry, Names, Windows, WindowEnd, Contribution, Charged, Projection.Slots;
    InterruptKeys(f);
    var q := InterruptAll(f)[id];
    Projection.SlotsOpen(q, f.clock);
    assert (a, w) in Projection.Slots(q, f.clock) <==> Projection.Open(q, f.clock, (a, w));
    var g, h := Partial(f, done), Partial(f, done + {id});
    if w == InFlight {
      NothingInFlight(f, cfg, done, a);
      NothingInFlight(f, cfg, done + {id}, a);
      SlotsNotInFlight(q, f.clock, a);
    } else {
      forall x ensures x in Charged(h, a, w) <==>
                       x in Charged(g, a, w) || (x == id && (a, w) in Projection.Slots(q, f.clock))
      {
        PartialCharged(f, done, a, w, x);
        PartialCharged(f, done + {id}, a, w, x);
      }
      PartialCharged(f, done, a, w, id);
      if (a, w) in Projection.Slots(q, f.clock) {
        assert Charged(h, a, w) == Charged(g, a, w) + {id};
        SumInsert(g.receipts, Charged(g, a, w), id, d);
      } else {
        assert Charged(h, a, w) == Charged(g, a, w);
      }
    }
  }

  lemma SlotsNotInFlight(q: Receipt, t: int, a: Account)
    ensures (a, InFlight) !in Projection.Slots(q, t)
  {}

  lemma PartialKeys(f: Core, done: set<Id>, id: Id)
    requires id in f.receipts && InterruptAll(f)[id].id == id
    ensures var q := InterruptAll(f)[id];
            Partial(f, done + {id}).expiry
            == Partial(f, done).expiry + ChargeKeys(q, f.clock) + {Retire(Latest(q), q.id)}
  {
    hide RebuiltExpiry, InterruptAll, Names, Windows, WindowEnd, Latest, ChargeKeys;
    InterruptKeys(f);
    var rs := InterruptAll(f);
    var q := rs[id];
    forall k ensures k in Partial(f, done + {id}).expiry <==>
                     k in Partial(f, done).expiry + ChargeKeys(q, f.clock) + {Retire(Latest(q), q.id)}
    {
      RebuiltMember(Restrict(rs, done + {id}), f.clock, k);
      RebuiltMember(Restrict(rs, done), f.clock, k);
      ChargeMember(q, f.clock, k);
    }
  }

  lemma ChargeMember(q: Receipt, t: int, k: ExpiryKey)
    ensures k in ChargeKeys(q, t) <==>
              && k.Charge? && k.id == q.id && k.account in Names(q) && k.window in Windows(q)
              && k.at == WindowEnd(q, k.window) > t
  {
    hide Names, Windows, WindowEnd;
  }

  /** Projecting the next receipt keeps the counters in agreement. */
  lemma PartialAgrees(f: Core, cfg: Config, done: set<Id>, id: Id, t: Table, u: Table)
    requires Inv(f, cfg) && id in f.receipts && id !in done && TableAgrees(t, Partial(f, done))
    requires Projection.Added(t, u, InterruptAll(f)[id], Projection.Slots(InterruptAll(f)[id], f.clock))
    ensures TableAgrees(u, Partial(f, done + {id}))
  {
    hide Inv, InterruptAll, Partial, Fold, Contribution, Projection.Slots, Amount, CounterAt, TableOk;
    InterruptKeys(f);
    forall a, w, d | Stored(d) ensures Amount(CounterAt(u, a, w), d) == Fold(Partial(f, done + {id}), a, w, d) {
      PartialGrows(f, cfg, done, id, a, w, d);
      assert Amount(CounterAt(t, a, w), d) == Fold(Partial(f, done), a, w, d);
    }
  }

  lemma PartialBelowRebuilt(f: Core, cfg: Config, done: set<Id>, a: Account, w: Window, d: Dim)
    requires Inv(f, cfg)
    ensures Fold(Partial(f, done), a, w, d) <= Fold(Rebuild(f), a, w, d)
  {
    hide Inv, InterruptAll, RebuiltExpiry, Charged, Contribution;
    PartialEnds(f);
    RebuiltWeighable(f, cfg);
    forall id | id in Charged(Partial(f, done), a, w) ensures id in Charged(Partial(f, f.receipts.Keys), a, w) {
      if w == InFlight { NothingInFlight(f, cfg, done, a); }
      else { PartialCharged(f, done, a, w, id); PartialCharged(f, f.receipts.Keys, a, w, id); }
    }
    SumMonotone(Partial(f, done).receipts, Charged(Partial(f, done), a, w),
                Rebuild(f).receipts, Charged(Rebuild(f), a, w), d);
  }

  /** A counter without room on the way means that the rebuilt counters do not fit. */
  lemma NoRoomNoFit(f: Core, cfg: Config, done: set<Id>, id: Id, t: Table)
    requires Inv(f, cfg) && id in f.receipts && id !in done && TableAgrees(t, Partial(f, done))
    requires !forall p :: Projection.Open(InterruptAll(f)[id], f.clock, p) ==> Projection.HasRoom(t, p, InterruptAll(f)[id])
    ensures !FoldsFit(Rebuild(f))
  {
    hide Inv, InterruptAll, Partial, Fold, Contribution, Rebuild, Projection.Slots, Amount, CounterAt, TableOk;
    InterruptKeys(f);
    var q := InterruptAll(f)[id];
    var p :| Projection.Open(q, f.clock, p) && !Projection.HasRoom(t, p, q);
    var d :| Bounded(d) && Amount(CounterAt(t, p.0, p.1), d) + Contribution(q, d) > MAX_INT64;
    assert Stored(d) && Amount(CounterAt(t, p.0, p.1), d) == Fold(Partial(f, done), p.0, p.1, d);
    Projection.SlotsOpen(q, f.clock);
    assert p in Projection.Slots(q, f.clock) && p == (p.0, p.1);
    PartialGrows(f, cfg, done, id, p.0, p.1, d);
    PartialBelowRebuilt(f, cfg, done + {id}, p.0, p.1, d);
    assert Fold(Rebuild(f), p.0, p.1, d) > MAX_INT64;
  }

  /** A table in agreement shows that every fold is in range. */
  lemma AgreeingFits(f: Core, t: Table)
    requires TableAgrees(t, f)
    ensures FoldsFit(f)
  {
    hide Fold;
    forall a, w, d | d in {TokensUsed, TokensHeld, TokensUnknown, MoneyUnknown} ensures Fold(f, a, w, d) <= MAX_INT64 {
      assert Stored(d) && Bounded(d);
      TableBounded(t, a, w, d);
    }
  }

  /** What startup checks of a stored receipt holds of every receipt of a valid journal. */
  lemma RecoverableReceipt(f: Core, cfg: Config, id: Id)
    requires Inv(f, cfg) && id in f.receipts && f.version == V2
    ensures f.receipts[id].id == id && WellFormed(f.receipts[id])
    ensures QuotaMonth(cfg, f.zone, f.receipts[id].admittedAt) == Some((f.receipts[id].monthStart, f.receipts[id].monthEnd))
    ensures f.coverage <= f.receipts[id].admittedAt <= f.clock && Names(f.receipts[id]) <= f.births.Keys
    ensures f.receipts[id].state == Active ==> id in f.pending && |f.pending[id]| > 0 && id !in f.ready
    ensures f.receipts[id].state != Active ==>
              && id !in f.pending
              && (id in f.ready ==> f.receipts[id].digest == Some(Digest(f.receipts[id].actual, f.ready[id])))
    ensures InterruptAll(f)[id].id == id && WellFormed(InterruptAll(f)[id])
  {
    hide FoldsFit, ExpiryOk, WellFormed, Names, QuotaMonth, EventsOk, ModeOk, SwitchOk;
    assert ReceiptOk(f, cfg, id);
    InterruptedReceipt(f, cfg, id);
  }

  lemma RebuiltPrunable(f: Core, cfg: Config)
    requires Inv(f, cfg)
    ensures KeysSound(Rebuild(f)) && Readable(Rebuild(f))
  {
    hide Inv, RebuiltExpiry, KeySound, WellFormed;
    RebuiltIndex(f, cfg);
    forall id | id in Rebuild(f).receipts
      ensures Rebuild(f).receipts[id].id == id && WellFormed(Rebuild(f).receipts[id])
    {
      InterruptedReceipt(f, cfg, id);
      assert ReceiptOk(f, cfg, id) by { InvReceiptOk(f, cfg, id); }
    }
  }

  lemma InvReceiptOk(f: Core, cfg: Config, id: Id)
    requires Inv(f, cfg) && id in f.receipts
    ensures ReceiptOk(f, cfg, id)
  {
    hide FoldsFit, ExpiryOk, EventsOk, ModeOk, SwitchOk;
  }

  // ---------- the startup loop ----------

  /** A journal as a crash leaves it: sound facts, and no quota index before the switch. The
      counts and counters of an active journal may hold anything. */
  ghost predicate Recoverable(db: Db, cfg: Config)
  {
    Inv(db.core, cfg) && (db.core.version == V1 ==> db.counters == map[] && db.entryCount == 0)
  }

  /** The admissions among done that startup has interrupted and not yet stored. */
  function InterruptedIn(f: Core, done: set<Id>): (m: map<Id, Receipt>)
  {
    map id | id in f.receipts && id in done && f.receipts[id].state == Active :: Interrupt(f.receipts[id], f.pending)
  }

  /** Startup has projected the receipts in done. */
  ghost predicate Rebuilt(before: Db, now: Db, done: set<Id>, interrupted: map<Id, Receipt>, count: int)
  {
    && now == before.(core := before.core.(expiry := Partial(before.core, done).expiry), counters := now.counters)
    && TableAgrees(now.counters, Partial(before.core, done))
    && interrupted == InterruptedIn(before.core, done)
    && count == |done|
  }

  lemma RebuildStarts(before: Db, now: Db, cfg: Config)
    requires Inv(before.core, cfg)
    requires now == before.(core := before.core.(expiry := {}), counters := map[])
    ensures Rebuilt(before, now, {}, map[], 0)
  {
    hide Inv, Partial, TableAgrees;
    PartialStarts(before.core, cfg);
  }

  lemma RecoverableMode(db: Db, cfg: Config)
    requires Recoverable(db, cfg)
    ensures db.core.version == V1 ==>
              && db.core.receipts == map[] && db.core.expiry == {} && db.core.births == map[] && db.core.invalid == map[]
              && db.counters == map[] && db.entryCount == 0
    ensures db.core.version == V2 ==>
              && MetadataStatus(db.core, cfg) == Ok && db.core.coverage <= db.core.clock
              && (forall a :: a in db.core.births ==> ValidKey(a) && 0 <= db.core.births[a] <= db.core.clock)
              && (forall v :: v in db.core.invalid ==> ValidKey(v) && ValidKey(db.core.invalid[v]))
  {
    hide FoldsFit, ExpiryOk, ReceiptsOk, ValidKey, MetadataStatus;
  }

  /** Nothing that startup checks of the next receipt can fail on a sound journal. */
  lemma RecoveredEntry(before: Db, now: Db, cfg: Config, done: set<Id>, interrupted: map<Id, Receipt>, count: int, id: Id)
    requires Inv(before.core, cfg) && before.core.version == V2
    requires Rebuilt(before, now, done, interrupted, count) && done <= before.core.receipts.Keys
    requires id in before.core.receipts && id !in done
    ensures var r := now.core.receipts[id];
            && r.id == id && WellFormed(r)
            && QuotaMonth(cfg, now.core.zone, r.admittedAt) == Some((r.monthStart, r.monthEnd))
            && now.core.coverage <= r.admittedAt <= now.core.clock && Names(r) <= now.core.births.Keys
            && (r.state == Active ==> id in now.core.pending && |now.core.pending[id]| > 0 && id !in now.core.ready)
            && (r.state != Active ==>
                  && id !in now.core.pending
                  && (id in now.core.ready ==> r.digest == Some(Digest(r.actual, now.core.ready[id]))))
    ensures InterruptAll(before.core)[id] == Interrupt(now.core.receipts[id], now.core.pending)
    ensures InterruptAll(before.core)[id].id == id && WellFormed(InterruptAll(before.core)[id]) && TableOk(now.counters)
    ensures count + 1 <= cfg.quotaCapacity
  {
    hide Inv, WellFormed, QuotaMonth, Names, TableOk, Partial;
    RecoverableReceipt(before.core, cfg, id);
    SubsetCard(done + {id}, before.core.receipts.Keys);
    RoomForAll(before.core, cfg);
  }

  lemma InterruptedStep(f: Core, done: set<Id>, id: Id)
    requires id in f.receipts
    ensures InterruptedIn(f, done + {id})
         == if f.receipts[id].state == Active then InterruptedIn(f, done)[id := Interrupt(f.receipts[id], f.pending)]
            else InterruptedIn(f, done)
  {
    hide Interrupt;
  }

  /** The next receipt was projected, or some rebuilt counter cannot hold it. */
  lemma EntryProjected(before: Db, mid: Db, now: Db, cfg: Config, done: set<Id>, interrupted: map<Id, Receipt>,
                       count: int, id: Id, s: Status)
    requires Inv(before.core, cfg) && id in before.core.receipts && id !in done
    requires Rebuilt(before, mid, done, interrupted, count)
    requires InterruptAll(before.core)[id].id == id
    requires var q := InterruptAll(before.core)[id];
             && (s == Ok <==> forall p :: Projection.Open(q, mid.core.clock, p) ==> Projection.HasRoom(mid.counters, p, q))
             && (s == Ok ==>
                   && now == mid.(counters := now.counters,
                                   core := mid.core.(expiry := mid.core.expiry + ChargeKeys(q, mid.core.clock)
                                                                + {Retire(Latest(q), q.id)}))
                   && Projection.Added(mid.counters, now.counters, q, Projection.Slots(q, mid.core.clock)))
    ensures s != Ok ==> !FoldsFit(Rebuild(before.core))
    ensures s == Ok ==> Rebuilt(before, now, done + {id}, InterruptedIn(before.core, done + {id}), count + 1)
  {
    hide Inv, InterruptAll, Partial, TableAgrees, ChargeKeys, Latest, Rebuild, FoldsFit;
    hide Projection.Open, Projection.HasRoom, Projection.Added, Projection.Slots, InterruptedIn;
    if s == Ok {
      PartialKeys(before.core, done, id);
      PartialAgrees(before.core, cfg, done, id, mid.counters, now.counters);
      PartialFrame(before.core, done, done + {id});
    } else {
      NoRoomNoFit(before.core, cfg, done, id, mid.counters);
    }
  }

  lemma PartialFrame(f: Core, done: set<Id>, more: set<Id>)
    ensures Partial(f, more) == Partial(f, done).(expiry := Partial(f, more).expiry)
  {
    hide InterruptAll, RebuiltExpiry;
  }

  /** All receipts projected and the interrupted ones stored: the rebuilt journal, whose folds fit. */
  lemma RebuildEnds(before: Db, projected: Db, now: Db, cfg: Config, interrupted: map<Id, Receipt>, count: int)
    requires Inv(before.core, cfg) && before.core.leases == map[]
    requires Rebuilt(before, projected, before.core.receipts.Keys, interrupted, count)
    requires now == projected.(core := projected.core.(receipts := projected.core.receipts + interrupted), entryCount := count)
    ensures now == before.(core := Rebuild(before.core), counters := now.counters, entryCount := count)
    ensures TableAgrees(now.counters, now.core) && now.entryCount == |now.core.receipts|
    ensures KeysSound(now.core) && Readable(now.core) && FoldsFit(Rebuild(before.core))
  {
    hide Inv, TableAgrees, RebuiltExpiry, FoldsFit, KeysSound, Readable;
    PartialEnds(before.core);
    StoredInterrupts(before.core);
    InterruptKeys(before.core);
    RebuiltPrunable(before.core, cfg);
    AgreeingFits(Rebuild(before.core), now.counters);
  }

  lemma StoredInterrupts(f: Core)
    ensures f.receipts + InterruptedIn(f, f.receipts.Keys) == InterruptAll(f)
  {}
}
