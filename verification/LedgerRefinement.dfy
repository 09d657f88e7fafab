/** A crash followed by Open leaves the journal exactly as completing every admission in
    flight with its stored crash settlement would have, apart from the state tag. */
module LedgerRefinement {
  import opened Wrappers
  import opened Decimals
  import opened LedgerTypes
  import opened Totals
  import opened Ledger
  import opened LedgerInvariant
  import opened LedgerSteps
  import opened LedgerRecovery

  /** Completes one pending fact with its own fallback, settling what its receipt stored. */
  ghost function CompleteOne(f: Core, cfg: Config, id: Id, now: int): (o: Outcome)
    requires id in f.pending
  {
    if id in f.receipts then CompleteQuota(f, cfg, id, f.pending[id], f.receipts[id].recovery, now)
    else CompletePlain(f, cfg, id, f.pending[id])
  }

  /** Completes the listed facts in order and stops at the first failure. */
  ghost function CompleteEach(f: Core, cfg: Config, ids: seq<Id>, now: int): (o: Outcome)
    decreases |ids|
  {
    if |ids| == 0 then Outcome(Ok, f)
    else
      var n := |ids| - 1;
      var o := CompleteEach(f, cfg, ids[..n], now);
      if o.status != Ok || ids[n] !in o.core.pending then Fail(f, Then(o.status, ErrMissing))
      else CompleteOne(o.core, cfg, ids[n], now)
  }

  /** Where completing wrote "complete", a crash writes "interrupted". */
  function Tag(before: Core, after: Core): (g: Core)
  {
    after.(receipts := map id | id in after.receipts ::
             if id in before.receipts && !Terminal(before.receipts[id])
             then after.receipts[id].(state := Interrupted) else after.receipts[id])
  }

  function Done(ids: seq<Id>): (s: set<Id>) { set i | 0 <= i < |ids| :: ids[i] }

  function Finished(f: Core, id: Id): (r: Receipt)
    requires id in f.receipts
  {
    var r := f.receipts[id];
    if Terminal(r) || id !in f.pending then r else Settle(r, r.recovery, f.pending[id], Complete)
  }

  function FinishedReceipts(f: Core, done: set<Id>): (m: map<Id, Receipt>)
  {
    map id | id in f.receipts :: if id in done then Finished(f, id) else f.receipts[id]
  }

  function FinishedKeys(f: Core, done: set<Id>): (s: set<ExpiryKey>)
  {
    (set id, a, w | id in f.receipts && id in done && !Terminal(f.receipts[id])
                    && a in Names(f.receipts[id]) && w in Windows(f.receipts[id])
                    && WindowEnd(f.receipts[id], w) > f.clock
       :: Charge(WindowEnd(f.receipts[id], w), a, w, id))
    + (set id | id in f.receipts && id in done && !Terminal(f.receipts[id]) :: Retire(Latest(f.receipts[id]), id))
  }

  function FinishedReady(f: Core, done: set<Id>): (m: map<Id, Payload>)
  {
    map id | id in f.ready.Keys + f.pending.Keys * done :: if id in f.ready then f.ready[id] else f.pending[id]
  }

  /** The journal after the facts in done were completed, in closed form. */
  function Finish(f: Core, done: set<Id>): (g: Core)
  {
    f.(receipts := FinishedReceipts(f, done),
       expiry := f.expiry + FinishedKeys(f, done),
       pending := f.pending - done,
       ready := FinishedReady(f, done),
       leases := f.leases - done)
  }

  /** A stored crash settlement never overruns its bound. */
  lemma RecoveryNeverOverruns(f: Core, cfg: Config, id: Id)
    requires Inv(f, cfg) && id in f.receipts && !Terminal(f.receipts[id])
    ensures id in f.pending && id !in f.ready
    ensures !Finished(f, id).overrun && !f.receipts[id].overrun
    ensures Finished(f, id).id == id
  {
    assert ReceiptOk(f, cfg, id);
  }

  lemma FinishEmpty(f: Core)
    ensures Finish(f, {}) == f
  {
    assert FinishedReceipts(f, {}) == f.receipts;
    assert FinishedReady(f, {}) == f.ready;
    assert f.pending - {} == f.pending && f.leases - {} == f.leases;
    assert FinishedKeys(f, {}) == {};
  }

  lemma FinishKeysStep(f: Core, done: set<Id>, q: Receipt)
    requires q.id in f.receipts && q.id !in done && !Terminal(f.receipts[q.id])
    requires Names(q) == Names(f.receipts[q.id]) && Windows(q) == Windows(f.receipts[q.id])
    requires q.admittedAt == f.receipts[q.id].admittedAt && q.monthEnd == f.receipts[q.id].monthEnd
    ensures FinishedKeys(f, done + {q.id})
         == FinishedKeys(f, done) + ChargeKeys(q, f.clock) + {Retire(Latest(q), q.id)}
  {
    hide Names, Windows;
    var r := f.receipts[q.id];
    assert forall w :: WindowEnd(q, w) == WindowEnd(r, w);
    assert Latest(q) == Latest(r);
  }

  lemma FinishStepFacts(f: Core, done: set<Id>, id: Id)
    requires f.pending.Keys !! f.ready.Keys && id in f.pending && id !in done
    ensures var g := Finish(f, done);
            var n := Finish(f, done + {id});
            && id in g.pending && g.pending[id] == f.pending[id] && id !in g.ready
            && n.ready == g.ready[id := f.pending[id]] && n.pending == g.pending - {id} && n.leases == g.leases - {id}
  {
    hide FinishedReceipts, FinishedKeys;
    var before, after := FinishedReady(f, done), FinishedReady(f, done + {id});
    assert after.Keys == before.Keys + {id};
    assert after == before[id := f.pending[id]];
    assert f.pending - (done + {id}) == f.pending - done - {id};
    assert f.leases - (done + {id}) == f.leases - done - {id};
  }

  lemma FinishStepReceipts(f: Core, done: set<Id>, id: Id)
    requires id in f.receipts && id in f.pending && id !in done && !Terminal(f.receipts[id])
    requires Finished(f, id).id == id
    ensures Finish(f, done).receipts.Keys == f.receipts.Keys
    ensures Finish(f, done).receipts[id] == f.receipts[id]
    ensures Finish(f, done + {id}).receipts == Finish(f, done).receipts[id := Finished(f, id)]
    ensures Finish(f, done + {id}).expiry
         == Finish(f, done).expiry + ChargeKeys(Finished(f, id), f.clock) + {Retire(Latest(Finished(f, id)), id)}
  {
    hide FinishedReady, Windows, FinishedKeys, ChargeKeys, Latest;
    var q := Finished(f, id);
    assert Names(q) == Names(f.receipts[id]);
    SameWindows(q, f.receipts[id]);
    FinishKeysStep(f, done, q);
    assert FinishedReceipts(f, done + {id}) == FinishedReceipts(f, done)[id := q];
  }

  /** One more completion is one more fact in the closed form. */
  lemma FinishStepQuota(f: Core, cfg: Config, done: set<Id>, id: Id, now: int)
    requires Inv(f, cfg) && f.version == V2
    requires id in f.pending && id !in done && id in f.receipts && 0 < now <= f.clock
    ensures id in Finish(f, done).pending
    ensures CompleteOne(Finish(f, done), cfg, id, now).status == Ok
            <==> ProjectionFits(Finish(f, done), Finished(f, id), f.clock)
    ensures CompleteOne(Finish(f, done), cfg, id, now).status == Ok ==>
              CompleteOne(Finish(f, done), cfg, id, now).core == Finish(f, done + {id})
  {
    hide FoldsFit, ExpiryOk, SwitchOk, EventsOk, LeasesOk, ValidKey, ProjectionFits, CompleteOne;
    hide FinishedReceipts, FinishedKeys, FinishedReady, ChargeKeys, Latest, ValidBound, ValidSettlement, ValidAccounts;
    assert ReceiptOk(f, cfg, id);
    RecoveryNeverOverruns(f, cfg, id);
    FinishStepFacts(f, done, id);
    FinishStepReceipts(f, done, id);
    FinishSettles(Finish(f, done), cfg, Finished(f, id), id, now);
  }

  lemma FinishSettles(g: Core, cfg: Config, q: Receipt, id: Id, now: int)
    requires id in g.receipts && !Terminal(g.receipts[id]) && id in g.pending && id !in g.ready
    requires q == Settle(g.receipts[id], g.receipts[id].recovery, g.pending[id], Complete) && !q.overrun && q.id == id
    requires MetadataStatus(g, cfg) == Ok && 0 < now <= g.clock
    requires ValidEntry(cfg, id, g.pending[id]) && ValidSettlement(g.receipts[id].recovery)
    requires RecoveryStatus(g.receipts[id].bound, g.receipts[id].recovery) == Ok
    ensures var o := CompleteOne(g, cfg, id, now);
            && (o.status == Ok <==> ProjectionFits(g, q, g.clock))
            && (o.status == Ok ==>
                  o.core == g.(receipts := g.receipts[id := q],
                               expiry := g.expiry + ChargeKeys(q, g.clock) + {Retire(Latest(q), id)},
                               ready := g.ready[id := g.pending[id]],
                               leases := g.leases - {id}, pending := g.pending - {id}))
  {
    hide ProjectionFits, ChargeKeys, ValidEntry, ValidSettlement, Latest;
    var t := LogicalTime(g, now);
    assert t == g.clock;
  }

  lemma FinishStepPlain(f: Core, cfg: Config, done: set<Id>, id: Id, now: int)
    requires FactsOk(cfg, f.pending, f.ready) && id in f.pending && id !in done && id !in f.receipts
    ensures id in Finish(f, done).pending
    ensures CompleteOne(Finish(f, done), cfg, id, now) == Outcome(Ok, Finish(f, done + {id}))
  {
    hide ValidKey, FinishedReady;
    FinishStepFacts(f, done, id);
    assert FinishedReceipts(f, done + {id}) == FinishedReceipts(f, done);
    assert FinishedKeys(f, done + {id}) == FinishedKeys(f, done);
  }

  predicate Enumerates(ids: seq<Id>, s: set<Id>)
  {
    (forall i, j :: 0 <= i < j < |ids| ==> ids[i] != ids[j]) && forall i :: 0 <= i < |ids| ==> ids[i] in s
  }

  /** The journal's clock has reached now; a version 1 journal reads no time when it completes. */
  predicate Reached(f: Core, now: int) { f.version == V2 ==> 0 < now <= f.clock }

  /** However the facts are ordered, completing them yields the closed form. */
  lemma {:induction false} CompleteEachFinishes(f: Core, cfg: Config, ids: seq<Id>, now: int)
    requires Inv(f, cfg) && Reached(f, now)
    requires Enumerates(ids, f.pending.Keys)
    requires CompleteEach(f, cfg, ids, now).status == Ok
    ensures CompleteEach(f, cfg, ids, now).core == Finish(f, Done(ids))
    ensures Inv(Finish(f, Done(ids)), cfg)
    decreases |ids|
  {
    hide Inv, Finish, CompleteOne;
    if |ids| == 0 {
      FinishEmpty(f);
      assert Done(ids) == {};
    } else {
      var n := |ids| - 1;
      CompleteEachFinishes(f, cfg, ids[..n], now);
      FinishLast(f, cfg, ids, now);
    }
  }

  lemma FinishLast(f: Core, cfg: Config, ids: seq<Id>, now: int)
    requires Inv(f, cfg) && Reached(f, now)
    requires |ids| > 0 && Enumerates(ids, f.pending.Keys)
    requires CompleteEach(f, cfg, ids, now).status == Ok
    requires Inv(Finish(f, Done(ids[..|ids| - 1])), cfg)
    requires CompleteEach(f, cfg, ids[..|ids| - 1], now).core == Finish(f, Done(ids[..|ids| - 1]))
    ensures CompleteEach(f, cfg, ids, now).core == Finish(f, Done(ids))
    ensures Inv(Finish(f, Done(ids)), cfg)
  {
    hide Inv, Finish, CompleteOne;
    var n := |ids| - 1;
    var done := Done(ids[..n]);
    var id := ids[n];
    assert id !in done && Done(ids) == done + {id};
    if f.version == V1 { NoReceipts(f, cfg); }
    if id in f.receipts {
      FinishStepQuota(f, cfg, done, id, now);
      NextFinishQuota(f, cfg, done, id, now);
    } else {
      InvFacts(f, cfg);
      FinishStepPlain(f, cfg, done, id, now);
      NextFinishPlain(f, cfg, done, id);
    }
  }

  lemma NextFinishQuota(f: Core, cfg: Config, done: set<Id>, id: Id, now: int)
    requires Inv(f, cfg) && f.version == V2 && 0 < now <= f.clock
    requires Inv(Finish(f, done), cfg) && id in f.pending && id !in done && id in f.receipts
    requires CompleteOne(Finish(f, done), cfg, id, now).status == Ok
    ensures Inv(Finish(f, done + {id}), cfg)
  {
    hide Inv, FinishedReceipts, FinishedKeys, FinishedReady, CompleteQuota;
    var g := Finish(f, done);
    FinishKeys(f, done);
    FinishStepQuota(f, cfg, done, id, now);
    CompleteQuotaKeeps(g, cfg, id, g.pending[id], g.receipts[id].recovery, now);
  }

  lemma NextFinishPlain(f: Core, cfg: Config, done: set<Id>, id: Id)
    requires Inv(f, cfg) && Inv(Finish(f, done), cfg)
    requires id in f.pending && id !in done && id !in f.receipts
    ensures Inv(Finish(f, done + {id}), cfg)
  {
    hide Inv, FinishedReceipts, FinishedKeys, FinishedReady, CompletePlain;
    var g := Finish(f, done);
    FinishKeys(f, done);
    InvFacts(f, cfg);
    FinishStepPlain(f, cfg, done, id, f.clock);
    CompletePlainKeeps(g, cfg, id, g.pending[id]);
  }

  lemma FinishKeys(f: Core, done: set<Id>)
    ensures Finish(f, done).receipts.Keys == f.receipts.Keys
  {}

  // ---------- the recovered journal is the completed one ----------

  lemma TaggedReceipts(f: Core, cfg: Config)
    requires Inv(f, cfg)
    ensures forall id :: id in f.receipts ==>
              Interrupt(f.receipts[id], f.pending)
              == if Terminal(f.receipts[id]) then f.receipts[id] else Finished(f, id).(state := Interrupted)
  {
    forall id | id in f.receipts
      ensures Interrupt(f.receipts[id], f.pending)
           == if Terminal(f.receipts[id]) then f.receipts[id] else Finished(f, id).(state := Interrupted)
    {
      assert ReceiptOk(f, cfg, id);
      if !Terminal(f.receipts[id]) { RecoveryNeverOverruns(f, cfg, id); }
    }
  }

  lemma RebuiltMember(rs: map<Id, Receipt>, t: int, k: ExpiryKey)
    ensures k in RebuiltExpiry(rs, t) <==>
              && k.id in rs
              && match k
                 case Charge(at, a, w, id) =>
                   a in Names(rs[id]) && w in Windows(rs[id]) && at == WindowEnd(rs[id], w) > t
                 case Retire(at, id) => at == Latest(rs[id])
  {
    hide Names, Windows, WindowEnd, Latest;
  }

  lemma FinishedMember(f: Core, done: set<Id>, k: ExpiryKey)
    ensures k in FinishedKeys(f, done) <==>
              && k.id in f.receipts && k.id in done && !Terminal(f.receipts[k.id])
              && match k
                 case Charge(at, a, w, id) =>
                   a in Names(f.receipts[id]) && w in Windows(f.receipts[id])
                   && at == WindowEnd(f.receipts[id], w) > f.clock
                 case Retire(at, id) => at == Latest(f.receipts[id])
  {
    hide Names, Windows, WindowEnd, Latest;
  }

  /** An open window is charged exactly for the receipts that name the account. */
  lemma IndexedMember(f: Core, cfg: Config, k: ExpiryKey)
    requires Inv(f, cfg) && (k.Charge? ==> k.at > f.clock)
    ensures k in f.expiry <==> KeySound(f.receipts, k)
  {
    hide FoldsFit, SwitchOk, EventsOk, LeasesOk, FactsOk, ModeOk, WellFormed, Names, Windows, ReceiptsOk;
    if k in f.expiry { assert KeySound(f.receipts, k); }
    if KeySound(f.receipts, k) { assert KeysComplete(f, k.id); }
  }

  lemma SameKey(f: Core, cfg: Config, k: ExpiryKey)
    requires Inv(f, cfg) && (k.Charge? ==> k.at > f.clock)
    ensures k in RebuiltExpiry(InterruptAll(f), f.clock) <==> k in f.expiry + FinishedKeys(f, f.pending.Keys)
  {
    hide Inv, RebuiltExpiry, FinishedKeys, Names, Windows, KeysComplete;
    RebuiltMember(InterruptAll(f), f.clock, k);
    FinishedMember(f, f.pending.Keys, k);
    IndexedMember(f, cfg, k);
    if k.id in f.receipts {
      var r := f.receipts[k.id];
      InterruptedReceipt(f, cfg, k.id);
      SameWindows(Interrupt(r, f.pending), r);
      if !Terminal(r) { RecoveryNeverOverruns(f, cfg, k.id); }
    }
  }

  /** Charges of windows that ended may linger; otherwise the index is the rebuilt one. */
  lemma FinishedIndex(f: Core, cfg: Config, k: ExpiryKey)
    requires Inv(f, cfg) && (k.Charge? ==> k.at > f.clock)
    ensures k in ReplayPending(Rebuild(f)).expiry <==> k in Finish(f, f.pending.Keys).expiry
  {
    hide Inv, RebuiltExpiry, FinishedKeys, FinishedReceipts, FinishedReady, InterruptAll;
    SameKey(f, cfg, k);
  }

  lemma SameWindows(r: Receipt, q: Receipt)
    requires r.monthStart == q.monthStart
    ensures Windows(r) == Windows(q)
  {}

  lemma SameDue(f: Core, t: int)
    ensures forall k :: Due(Finish(f, f.pending.Keys), t, k) <==> Due(ReplayPending(Rebuild(f)), t, k)
  {
    hide RebuiltExpiry, FinishedKeys, FinishedReceipts, InterruptAll;
    var g := Finish(f, f.pending.Keys);
    var h := ReplayPending(Rebuild(f));
    assert g.ready.Keys == h.ready.Keys;
    assert g.pending.Keys == {} == h.pending.Keys;
  }

  lemma FinishedRetired(f: Core, cfg: Config)
    requires Inv(f, cfg)
    ensures RetiredIds(Finish(f, f.pending.Keys), f.clock) == RetiredIds(ReplayPending(Rebuild(f)), f.clock)
  {
    hide Inv, Finish, Due, RebuiltExpiry, InterruptAll;
    var g := Finish(f, f.pending.Keys);
    var h := ReplayPending(Rebuild(f));
    SameDue(f, f.clock);
    forall k: ExpiryKey | k.Retire? ensures k in g.expiry <==> k in h.expiry {
      FinishedIndex(f, cfg, k);
    }
  }

  lemma FinishedPrunes(f: Core, cfg: Config)
    requires Inv(f, cfg)
    ensures PruneQuota(Finish(f, f.pending.Keys), f.clock).expiry
         == PruneQuota(ReplayPending(Rebuild(f)), f.clock).expiry
  {
    hide Inv, Finish, RebuiltExpiry, InterruptAll;
    var g := Finish(f, f.pending.Keys);
    var h := ReplayPending(Rebuild(f));
    SameDue(f, f.clock);
    forall k | !Due(g, f.clock, k) ensures k in g.expiry <==> k in h.expiry {
      FinishedIndex(f, cfg, k);
    }
  }

  lemma FinishedEqualsRecovered(f: Core, cfg: Config)
    requires Inv(f, cfg)
    ensures PruneQuota(ReplayPending(Rebuild(f)), f.clock)
         == Tag(f, PruneQuota(Finish(f, f.pending.Keys), f.clock))
  {
    hide FoldsFit, ExpiryOk, ReceiptsOk, SwitchOk, EventsOk, ModeOk, RebuiltExpiry, FinishedKeys, RetiredIds;
    hide Interrupt, InterruptAll, FinishedReceipts, FinishedReady, ValidEntry, Due, FactsOk, LeasesOk;
    var g := Finish(f, f.pending.Keys);
    var h := ReplayPending(Rebuild(f));
    FinishedRetired(f, cfg);
    FinishedPrunes(f, cfg);
    FinishedFacts(f, cfg);
    TaggedMap(f, cfg, RetiredIds(g, f.clock));
  }

  lemma TaggedMap(f: Core, cfg: Config, gone: set<Id>)
    requires Inv(f, cfg)
    ensures InterruptAll(f) - gone
         == Tag(f, f.(receipts := FinishedReceipts(f, f.pending.Keys) - gone)).receipts
  {
    hide FoldsFit, ExpiryOk, ReceiptsOk, SwitchOk, EventsOk, ModeOk, Interrupt, FactsOk, LeasesOk;
    TaggedReceipts(f, cfg);
    forall id | id in f.receipts && !Terminal(f.receipts[id]) ensures id in f.pending {
      RecoveryNeverOverruns(f, cfg, id);
    }
  }

  lemma FinishedFacts(f: Core, cfg: Config)
    requires FactsOk(cfg, f.pending, f.ready) && LeasesOk(f.pending, f.leases)
    ensures var g := Finish(f, f.pending.Keys);
            && g.ready == f.pending + f.ready && g.pending == map[] && g.leases == map[]
  {
    hide FinishedReceipts, FinishedKeys, ValidEntry;
    var g := Finish(f, f.pending.Keys);
    assert g.ready == f.pending + f.ready;
    assert g.leases == map[];
    assert g.pending == map[];
  }

  // ---------- when recovery succeeds ----------

  lemma RebuiltCharged(f: Core, a: Account, w: Window, id: Id)
    requires w != InFlight
    ensures id in Charged(Rebuild(f), a, w) <==>
              && id in f.receipts
              && a in Names(Interrupt(f.receipts[id], f.pending))
              && w in Windows(Interrupt(f.receipts[id], f.pending))
              && WindowEnd(f.receipts[id], w) > f.clock
  {
    hide RebuiltExpiry, Names, Windows, WindowEnd;
    var rs := InterruptAll(f);
    if id in f.receipts {
      SameEnds(f.receipts[id], Interrupt(f.receipts[id], f.pending), w);
      RebuiltMember(rs, f.clock, Charge(WindowEnd(rs[id], w), a, w, id));
    }
    if id in Charged(Rebuild(f), a, w) {
      var k :| k in Rebuild(f).expiry && k.Charge? && k.account == a && k.window == w && k.id == id;
      RebuiltMember(rs, f.clock, k);
    }
  }

  lemma SameEnds(r: Receipt, q: Receipt, w: Window)
    requires r.admittedAt == q.admittedAt && r.monthEnd == q.monthEnd
    ensures WindowEnd(r, w) == WindowEnd(q, w)
  {}

  lemma RebuiltInFlight(f: Core, cfg: Config, a: Account)
    requires Inv(f, cfg)
    ensures Charged(Rebuild(f), a, InFlight) == {}
  {
    hide Inv, Names;
    forall id | id in f.receipts ensures Terminal(Rebuild(f).receipts[id]) { InterruptedReceipt(f, cfg, id); }
  }

  /** Which receipts a completed journal charges to an open window. */
  lemma FinishCharged(f: Core, cfg: Config, done: set<Id>, a: Account, w: Window, id: Id)
    requires Inv(f, cfg) && w != InFlight
    ensures id in Charged(Finish(f, done), a, w) <==>
              || id in Charged(f, a, w)
              || (&& id in f.receipts && id in done && !Terminal(f.receipts[id])
                  && a in Names(f.receipts[id]) && w in Windows(f.receipts[id])
                  && WindowEnd(f.receipts[id], w) > f.clock)
  {
    hide Inv, FinishedKeys, Names, Windows, WindowEnd, FinishedReceipts, FinishedReady;
    if id in Charged(Finish(f, done), a, w) {
      var k :| k in Finish(f, done).expiry && k.Charge? && k.account == a && k.window == w && k.id == id;
      FinishedMember(f, done, k);
    }
    if id in Charged(f, a, w) {
      var k :| k in f.expiry && k.Charge? && k.account == a && k.window == w && k.id == id;
      assert k in Finish(f, done).expiry;
    }
    if id in f.receipts {
      FinishedMember(f, done, Charge(WindowEnd(f.receipts[id], w), a, w, id));
    }
  }

  lemma FinishedWeight(f: Core, cfg: Config, done: set<Id>, id: Id, d: Dim)
    requires Inv(f, cfg) && id in f.receipts && (id in done || Terminal(f.receipts[id]))
    ensures Weight(Finish(f, done).receipts, id, d) == Weight(Rebuild(f).receipts, id, d)
  {
    hide FoldsFit, ExpiryOk, SwitchOk, EventsOk, LeasesOk, WellFormed, FinishedKeys, FinishedReady, RebuiltExpiry;
    TaggedReceipts(f, cfg);
    if !Terminal(f.receipts[id]) {
      RecoveryNeverOverruns(f, cfg, id);
      UntaggedContribution(Finished(f, id), d);
    }
  }

  /** The counters do not see whether a settlement was completed or interrupted. */
  lemma UntaggedContribution(r: Receipt, d: Dim)
    requires Terminal(r)
    ensures Contribution(r.(state := Interrupted), d) == Contribution(r, d)
  {}

  /** Charges whose windows all ended are absent, as after any prune at the current clock. */
  predicate NoStale(f: Core)
  {
    forall k :: k in f.expiry && k.Charge? ==> k.at > f.clock
  }

  /** Receipt id is settled, names a, and its window w has not ended. */
  predicate OpenCharge(f: Core, a: Account, w: Window, id: Id)
  {
    && id in f.receipts && Terminal(f.receipts[id])
    && a in Names(f.receipts[id]) && w in Windows(f.receipts[id]) && WindowEnd(f.receipts[id], w) > f.clock
  }

  lemma ChargedOpen(f: Core, cfg: Config, a: Account, w: Window, id: Id)
    requires Inv(f, cfg) && w != InFlight
    ensures OpenCharge(f, a, w, id) ==> id in Charged(f, a, w)
    ensures NoStale(f) && id in Charged(f, a, w) ==> OpenCharge(f, a, w, id)
  {
    hide Inv, Names, Windows, WindowEnd, KeysComplete;
    if id in f.receipts {
      var k := Charge(WindowEnd(f.receipts[id], w), a, w, id);
      if WindowEnd(f.receipts[id], w) > f.clock { IndexedMember(f, cfg, k); }
    }
    if NoStale(f) && id in Charged(f, a, w) {
      var k :| k in f.expiry && k.Charge? && k.account == a && k.window == w && k.id == id;
      IndexedMember(f, cfg, k);
    }
  }

  /** A prune leaves no stale charge. */
  lemma PruneLeavesNoStale(f: Core, t: int)
    requires t == f.clock
    ensures NoStale(PruneQuota(f, t))
  {}

  /** After a prune, a window's counters sum exactly the settled receipts that name the account
      and whose window ends after the instant; in flight they sum the active receipts. */
  lemma PrunedFold(f: Core, cfg: Config, a: Account, w: Window, d: Dim)
    requires Inv(f, cfg) && w != InFlight
    ensures var g := PruneQuota(f, f.clock);
            Fold(g, a, w, d) == WeightSum(g.receipts, (set id | id in g.receipts && OpenCharge(g, a, w, id)), d)
  {
    hide Inv, PruneQuota, NoStale, OpenCharge, Charged;
    var g := PruneQuota(f, f.clock);
    PruneQuotaKeeps(f, cfg);
    PruneLeavesNoStale(f, f.clock);
    PruneKeepsClock(f, f.clock);
    forall id ensures id in Charged(g, a, w) <==> id in g.receipts && OpenCharge(g, a, w, id) {
      ChargedOpen(g, cfg, a, w, id);
      OpenChargeStored(g, a, w, id);
    }
    assert Charged(g, a, w) == set id | id in g.receipts && OpenCharge(g, a, w, id);
  }

  lemma PruneKeepsClock(f: Core, t: int)
    ensures PruneQuota(f, t).clock == f.clock
  {}

  lemma OpenChargeStored(f: Core, a: Account, w: Window, id: Id)
    ensures OpenCharge(f, a, w, id) ==> id in f.receipts
  {}

  // ---------- what completion adds to a counter ----------

  /** The running admissions that completing them would charge to window w of account a. */
  function Joining(f: Core, a: Account, w: Window): (ids: set<Id>)
  {
    set id | id in f.receipts && !Terminal(f.receipts[id]) && a in Names(f.receipts[id])
             && w in Windows(f.receipts[id]) && WindowEnd(f.receipts[id], w) > f.clock
  }

  /** What the running admissions would add to a counter of that window. */
  ghost function Incoming(f: Core, a: Account, w: Window, d: Dim): (n: int)
  {
    Total(map id | id in Joining(f, a, w) :: Contribution(Finished(f, id), d))
  }

  /** Charges still counted although their window has ended. */
  function Ended(f: Core, a: Account, w: Window): (ids: set<Id>)
  {
    set id | id in Charged(f, a, w) && id in f.receipts && WindowEnd(f.receipts[id], w) <= f.clock
  }

  ghost function Stale(f: Core, a: Account, w: Window, d: Dim): (n: int)
  {
    WeightSum(f.receipts, Ended(f, a, w), d)
  }

  predicate Counter(d: Dim) { d in {TokensUsed, TokensHeld, TokensUnknown, MoneyUnknown} }

  /** Every counter, charges of ended windows included, has room for what is still running. */
  ghost predicate CompletionsFit(f: Core)
  {
    forall a, w, d :: w != InFlight && Counter(d) ==> Fold(f, a, w, d) + Incoming(f, a, w, d) <= MAX_INT64
  }

  /** Every rebuilt counter would also have room for the charges of ended windows. */
  ghost predicate RebuiltWithStaleFits(f: Core)
  {
    forall a, w, d :: w != InFlight && Counter(d) ==> Fold(Rebuild(f), a, w, d) + Stale(f, a, w, d) <= MAX_INT64
  }

  lemma FinishedCharges(f: Core, cfg: Config, a: Account, w: Window)
    requires Inv(f, cfg) && w != InFlight
    ensures Charged(Finish(f, f.pending.Keys), a, w) == Charged(f, a, w) + Joining(f, a, w)
    ensures Charged(f, a, w) !! Joining(f, a, w)
  {
    hide Inv, Names, Windows, WindowEnd, Finish, Charged;
    forall id
      ensures id in Charged(Finish(f, f.pending.Keys), a, w) <==> id in Charged(f, a, w) + Joining(f, a, w)
      ensures id in Charged(f, a, w) ==> id !in Joining(f, a, w)
    {
      FinishCharged(f, cfg, f.pending.Keys, a, w, id);
      ChargedSound(f, cfg, a, w, id);
      if id in f.receipts && !Terminal(f.receipts[id]) { RecoveryNeverOverruns(f, cfg, id); }
    }
  }

  lemma ChargedSound(f: Core, cfg: Config, a: Account, w: Window, id: Id)
    requires Inv(f, cfg) && w != InFlight
    ensures id in Charged(f, a, w) ==>
              && id in f.receipts && Terminal(f.receipts[id])
              && a in Names(f.receipts[id]) && w in Windows(f.receipts[id])
  {
    hide FoldsFit, ReceiptsOk, Names, Windows;
    if id in Charged(f, a, w) {
      var k :| k in f.expiry && k.Charge? && k.account == a && k.window == w && k.id == id;
      assert KeySound(f.receipts, k);
    }
  }

  /** A completed counter holds what it held before and what was running. */
  lemma FinishedFold(f: Core, cfg: Config, a: Account, w: Window, d: Dim)
    requires Inv(f, cfg) && w != InFlight
    ensures Fold(Finish(f, f.pending.Keys), a, w, d) == Fold(f, a, w, d) + Incoming(f, a, w, d)
  {
    hide Inv, Finish, Charged, Contribution, Finished, Names, Windows, WindowEnd;
    var rs := Finish(f, f.pending.Keys).receipts;
    FinishedCharges(f, cfg, a, w);
    SumUnion(rs, Charged(f, a, w), Joining(f, a, w), d);
    forall id | id in Charged(f, a, w) ensures Weight(rs, id, d) == Weight(f.receipts, id, d) {
      ChargedSound(f, cfg, a, w, id);
      SettledUnchanged(f, f.pending.Keys, id);
    }
    SumSame(rs, f.receipts, Charged(f, a, w), d);
    forall id | id in Joining(f, a, w) ensures Weight(rs, id, d) == Contribution(Finished(f, id), d) {
      JoiningFinished(f, cfg, a, w, id);
    }
    assert Weights(rs, Joining(f, a, w), d)
        == map id | id in Joining(f, a, w) :: Contribution(Finished(f, id), d);
  }

  lemma SettledUnchanged(f: Core, done: set<Id>, id: Id)
    requires id in f.receipts && Terminal(f.receipts[id])
    ensures id in Finish(f, done).receipts && Finish(f, done).receipts[id] == f.receipts[id]
  {}

  lemma JoiningFinished(f: Core, cfg: Config, a: Account, w: Window, id: Id)
    requires Inv(f, cfg) && id in Joining(f, a, w)
    ensures id in Finish(f, f.pending.Keys).receipts
    ensures Finish(f, f.pending.Keys).receipts[id] == Finished(f, id)
  {
    hide Inv, Names, Windows;
    RecoveryNeverOverruns(f, cfg, id);
  }

  lemma RebuiltCharges(f: Core, cfg: Config, a: Account, w: Window)
    requires Inv(f, cfg) && w != InFlight
    ensures Charged(Finish(f, f.pending.Keys), a, w) == Charged(Rebuild(f), a, w) + Ended(f, a, w)
    ensures Charged(Rebuild(f), a, w) !! Ended(f, a, w)
  {
    hide Inv, Names, Windows, WindowEnd, Finish, Rebuild, Charged;
    FinishedCharges(f, cfg, a, w);
    forall id
      ensures id in Charged(f, a, w) + Joining(f, a, w) <==> id in Charged(Rebuild(f), a, w) + Ended(f, a, w)
      ensures id in Charged(Rebuild(f), a, w) ==> id !in Ended(f, a, w)
    {
      RebuiltCharged(f, a, w, id);
      ChargedOpen(f, cfg, a, w, id);
      ChargedSound(f, cfg, a, w, id);
      if id in f.receipts {
        InterruptedReceipt(f, cfg, id);
        SameWindows(Interrupt(f.receipts[id], f.pending), f.receipts[id]);
      }
    }
  }

  /** A completed counter is the rebuilt one with the charges of ended windows on top. */
  lemma FinishedOverRebuilt(f: Core, cfg: Config, a: Account, w: Window, d: Dim)
    requires Inv(f, cfg) && w != InFlight
    ensures Fold(Finish(f, f.pending.Keys), a, w, d) == Fold(Rebuild(f), a, w, d) + Stale(f, a, w, d)
    ensures 0 <= Stale(f, a, w, d)
  {
    hide Inv, Finish, Rebuild, Charged, Contribution, Names, Windows, WindowEnd;
    var rs := Finish(f, f.pending.Keys).receipts;
    RebuiltCharges(f, cfg, a, w);
    FinishedCharges(f, cfg, a, w);
    SumUnion(rs, Charged(Rebuild(f), a, w), Ended(f, a, w), d);
    forall id | id in Charged(Rebuild(f), a, w) ensures Weight(rs, id, d) == Weight(Rebuild(f).receipts, id, d) {
      ChargedSound(f, cfg, a, w, id);
      if !Terminal(f.receipts[id]) { RecoveryNeverOverruns(f, cfg, id); }
      FinishedWeight(f, cfg, f.pending.Keys, id, d);
    }
    SumSame(rs, Rebuild(f).receipts, Charged(Rebuild(f), a, w), d);
    forall id | id in Ended(f, a, w) ensures Weight(rs, id, d) == Weight(f.receipts, id, d) {
      ChargedSound(f, cfg, a, w, id);
      SettledUnchanged(f, f.pending.Keys, id);
    }
    SumSame(rs, f.receipts, Ended(f, a, w), d);
    StaleNonNegative(f, cfg, a, w, d);
  }

  lemma StaleNonNegative(f: Core, cfg: Config, a: Account, w: Window, d: Dim)
    requires Inv(f, cfg)
    ensures 0 <= Stale(f, a, w, d)
  {
    hide FoldsFit, ReceiptOk, Ended;
    InvWeighable(f, cfg);
    SumNonNegative(f.receipts, Ended(f, a, w), d);
  }

  lemma FinishedInFlight(f: Core, cfg: Config, a: Account, d: Dim)
    requires Inv(f, cfg)
    ensures Fold(Finish(f, f.pending.Keys), a, InFlight, d) == 0
    ensures Fold(Rebuild(f), a, InFlight, d) == 0
  {
    hide Inv, Rebuild, Finish, Charged;
    var g := Finish(f, f.pending.Keys);
    forall id | id in g.receipts ensures Terminal(g.receipts[id]) { FinishedSettled(f, cfg, id); }
    NothingInFlight(g, a);
    RebuiltInFlight(f, cfg, a);
    assert Weights(g.receipts, {}, d) == map[] == Weights(Rebuild(f).receipts, {}, d);
  }

  lemma NothingInFlight(g: Core, a: Account)
    requires forall id :: id in g.receipts ==> Terminal(g.receipts[id])
    ensures Charged(g, a, InFlight) == {}
  {}

  lemma FinishedSettled(f: Core, cfg: Config, id: Id)
    requires Inv(f, cfg)
    ensures id in Finish(f, f.pending.Keys).receipts ==> Terminal(Finish(f, f.pending.Keys).receipts[id])
  {
    hide Inv, FinishedKeys, FinishedReady;
    if id in f.receipts && !Terminal(f.receipts[id]) { RecoveryNeverOverruns(f, cfg, id); }
  }

  lemma CounterFits(f: Core, a: Account, w: Window, d: Dim)
    requires FoldsFit(f) && Counter(d)
    ensures Fold(f, a, w, d) <= MAX_INT64
  {}

  /** The counters of the completed journal, as sums over the journal before. */
  lemma FinishedFits(f: Core, cfg: Config)
    requires Inv(f, cfg)
    ensures FoldsFit(Finish(f, f.pending.Keys)) <==> CompletionsFit(f)
    ensures FoldsFit(Finish(f, f.pending.Keys)) <==> RebuiltWithStaleFits(f)
    ensures RebuiltWithStaleFits(f) ==> FoldsFit(Rebuild(f))
  {
    hide Inv, Finish, Rebuild, Fold, Incoming, Stale;
    var g := Finish(f, f.pending.Keys);
    forall a, w, d | w != InFlight
      ensures Fold(g, a, w, d) == Fold(f, a, w, d) + Incoming(f, a, w, d)
      ensures Fold(g, a, w, d) == Fold(Rebuild(f), a, w, d) + Stale(f, a, w, d)
      ensures 0 <= Stale(f, a, w, d)
    {
      FinishedFold(f, cfg, a, w, d);
      FinishedOverRebuilt(f, cfg, a, w, d);
    }
    forall a, d ensures Fold(g, a, InFlight, d) == 0 && Fold(Rebuild(f), a, InFlight, d) == 0 {
      FinishedInFlight(f, cfg, a, d);
    }
    FitsBySums(f, g);
  }

  lemma FitsBySums(f: Core, g: Core)
    requires forall a, w, d :: w != InFlight ==>
               && Fold(g, a, w, d) == Fold(f, a, w, d) + Incoming(f, a, w, d)
               && Fold(g, a, w, d) == Fold(Rebuild(f), a, w, d) + Stale(f, a, w, d)
               && 0 <= Stale(f, a, w, d)
    requires forall a, d :: Fold(g, a, InFlight, d) == 0 && Fold(Rebuild(f), a, InFlight, d) == 0
    ensures FoldsFit(g) <==> CompletionsFit(f)
    ensures FoldsFit(g) <==> RebuiltWithStaleFits(f)
    ensures RebuiltWithStaleFits(f) ==> FoldsFit(Rebuild(f))
  {
    hide Rebuild, Fold, Incoming, Stale;
  }

  lemma NoStaleNoEnded(f: Core, cfg: Config, a: Account, w: Window)
    requires Inv(f, cfg) && NoStale(f) && w != InFlight
    ensures Ended(f, a, w) == {}
  {
    hide Inv, NoStale, Charged, Names, Windows, WindowEnd;
    forall id | id in Charged(f, a, w) && id in f.receipts ensures WindowEnd(f.receipts[id], w) > f.clock {
      ChargedOpen(f, cfg, a, w, id);
    }
  }

  lemma NoStaleFits(f: Core, cfg: Config)
    requires Inv(f, cfg) && NoStale(f) && FoldsFit(Rebuild(f))
    ensures RebuiltWithStaleFits(f)
  {
    hide Inv, NoStale, Rebuild, FoldsFit, Ended;
    forall a, w, d | w != InFlight && Counter(d)
      ensures Fold(Rebuild(f), a, w, d) + Stale(f, a, w, d) <= MAX_INT64
    {
      NoStaleNoEnded(f, cfg, a, w);
      assert Weights(f.receipts, {}, d) == map[];
      CounterFits(Rebuild(f), a, w, d);
    }
  }

  lemma RebuiltWeighable(f: Core, cfg: Config)
    requires Inv(f, cfg)
    ensures Weighable(Rebuild(f).receipts)
  {
    hide Inv;
    forall id | id in f.receipts
      ensures ValidBound(Rebuild(f).receipts[id].bound) && ValidSettlement(Rebuild(f).receipts[id].actual)
    {
      InterruptedReceipt(f, cfg, id);
    }
  }

  // ---------- when completion succeeds ----------

  /** What is charged so far, and the next receipt, are all charged in the end. */
  lemma NextWithinFinished(f: Core, cfg: Config, done: set<Id>, next: Id, a: Account, w: Window)
    requires Inv(f, cfg) && w != InFlight && done <= f.pending.Keys
    requires next in Joining(f, a, w) && next !in done
    ensures Charged(Finish(f, done), a, w) + {next} <= Charged(Finish(f, f.pending.Keys), a, w)
    ensures next !in Charged(Finish(f, done), a, w)
    ensures forall id :: id in Charged(Finish(f, done), a, w) ==>
              id in f.receipts && (id in done || Terminal(f.receipts[id]))
  {
    hide Inv, Names, Windows, WindowEnd, Finish, Charged;
    forall id | id in Charged(Finish(f, done), a, w) + {next}
      ensures id in Charged(Finish(f, f.pending.Keys), a, w) && id in f.receipts
      ensures id in Charged(Finish(f, done), a, w) ==> id != next && (id in done || Terminal(f.receipts[id]))
    {
      FinishCharged(f, cfg, done, a, w, id);
      FinishCharged(f, cfg, f.pending.Keys, a, w, id);
      ChargedSound(f, cfg, a, w, id);
      if id == next { RecoveryNeverOverruns(f, cfg, next); }
    }
  }

  lemma FinishedWeighable(f: Core, cfg: Config)
    requires Inv(f, cfg)
    ensures Weighable(Finish(f, f.pending.Keys).receipts)
  {
    hide FoldsFit, ExpiryOk, SwitchOk, EventsOk, LeasesOk, FactsOk, ModeOk;
    forall id | id in f.receipts
      ensures ValidBound(Finished(f, id).bound) && ValidSettlement(Finished(f, id).actual)
    {
      assert ReceiptOk(f, cfg, id);
    }
  }

  lemma NextFold(f: Core, cfg: Config, done: set<Id>, id: Id, a: Account, w: Window, d: Dim)
    requires Inv(f, cfg) && w != InFlight && done <= f.pending.Keys
    requires id in Joining(f, a, w) && id !in done
    ensures Fold(Finish(f, done), a, w, d) + Contribution(Finished(f, id), d)
         <= Fold(Finish(f, f.pending.Keys), a, w, d)
  {
    hide Inv, Finish, Rebuild, Charged, Names, Windows, WindowEnd, Contribution;
    var ids := Charged(Finish(f, done), a, w);
    var rs := Finish(f, f.pending.Keys).receipts;
    NextWithinFinished(f, cfg, done, id, a, w);
    FinishedWeighable(f, cfg);
    forall j | j in ids ensures Weight(Finish(f, done).receipts, j, d) == Weight(rs, j, d) {
      if !Terminal(f.receipts[j]) { RecoveryNeverOverruns(f, cfg, j); }
      FinishedWeight(f, cfg, done, j, d);
      FinishedWeight(f, cfg, f.pending.Keys, j, d);
    }
    SumSame(Finish(f, done).receipts, rs, ids, d);
    SumInsert(rs, ids, id, d);
    JoiningFinished(f, cfg, a, w, id);
    SumMonotone(rs, ids + {id}, rs, Charged(Finish(f, f.pending.Keys), a, w), d);
  }

  lemma NextFits(f: Core, cfg: Config, done: set<Id>, id: Id)
    requires Inv(f, cfg) && FoldsFit(Finish(f, f.pending.Keys)) && done <= f.pending.Keys
    requires id in f.receipts && !Terminal(f.receipts[id]) && id !in done
    ensures ProjectionFits(Finish(f, done), Finished(f, id), f.clock)
  {
    hide Inv, Finish, FoldsFit, Windows;
    var q := Finished(f, id);
    assert Names(q) == Names(f.receipts[id]);
    SameWindows(q, f.receipts[id]);
    forall a, w | a in Names(q) && w in Windows(q) && WindowEnd(q, w) > f.clock
      ensures Fits(Finish(f, done), a, w, q)
    {
      SameEnds(q, f.receipts[id], w);
      NotInFlight(f.receipts[id], w);
      forall d | d in {TokensUsed, TokensHeld, TokensUnknown, MoneyUnknown}
        ensures Fold(Finish(f, done), a, w, d) + Contribution(q, d) <= MAX_INT64
      {
        NextFold(f, cfg, done, id, a, w, d);
        CounterFits(Finish(f, f.pending.Keys), a, w, d);
      }
    }
  }

  lemma NotInFlight(r: Receipt, w: Window)
    requires w in Windows(r)
    ensures w != InFlight
  {}

  /** Completing the running admissions, in any order, succeeds when the final counters fit. */
  lemma {:induction false} CompleteEachSucceeds(f: Core, cfg: Config, ids: seq<Id>, now: int)
    requires Inv(f, cfg) && Reached(f, now)
    requires Enumerates(ids, f.pending.Keys)
    requires FoldsFit(Finish(f, f.pending.Keys))
    ensures CompleteEach(f, cfg, ids, now).status == Ok
    decreases |ids|
  {
    hide Inv, Finish, CompleteOne, FoldsFit;
    if |ids| > 0 {
      var n := |ids| - 1;
      CompleteEachSucceeds(f, cfg, ids[..n], now);
      CompleteEachFinishes(f, cfg, ids[..n], now);
      assert ids[n] !in Done(ids[..n]);
      if f.version == V1 { NoReceipts(f, cfg); }
      if ids[n] in f.receipts {
        PendingActive(f, cfg, ids[n]);
        NextFits(f, cfg, Done(ids[..n]), ids[n]);
        FinishStepQuota(f, cfg, Done(ids[..n]), ids[n], now);
      } else {
        InvFacts(f, cfg);
        FinishStepPlain(f, cfg, Done(ids[..n]), ids[n], now);
      }
    }
  }

  lemma InvFacts(f: Core, cfg: Config)
    requires Inv(f, cfg)
    ensures FactsOk(cfg, f.pending, f.ready) && LeasesOk(f.pending, f.leases)
  {}

  lemma PendingActive(f: Core, cfg: Config, id: Id)
    requires Inv(f, cfg) && id in f.pending && id in f.receipts
    ensures !Terminal(f.receipts[id])
  {
    assert ReceiptOk(f, cfg, id);
  }

  // ---------- the theorems ----------

  /** Completing every running admission succeeds, whatever the order, exactly when every counter
      of every window, charges of ended windows included, has room for what is running. */
  lemma CompletionTotalIff(f: Core, cfg: Config, ids: seq<Id>, now: int)
    requires Inv(f, cfg) && Reached(f, now)
    requires Enumerates(ids, f.pending.Keys) && Done(ids) == f.pending.Keys
    ensures CompleteEach(f, cfg, ids, now).status == Ok <==> CompletionsFit(f)
  {
    hide Inv, Finish, CompletionsFit, RebuiltWithStaleFits, FoldsFit;
    FinishedFits(f, cfg);
    if CompleteEach(f, cfg, ids, now).status == Ok {
      CompleteEachFinishes(f, cfg, ids, now);
      InvCounters(Finish(f, f.pending.Keys), cfg);
    } else if FoldsFit(Finish(f, f.pending.Keys)) {
      CompleteEachSucceeds(f, cfg, ids, now);
    }
  }

  lemma InvCounters(f: Core, cfg: Config)
    requires Inv(f, cfg)
    ensures FoldsFit(f)
  {}

  lemma CompletionImpliesRecovery(f: Core, cfg: Config, ids: seq<Id>, now: int)
    requires Inv(f, cfg) && Reached(f, now)
    requires Enumerates(ids, f.pending.Keys) && Done(ids) == f.pending.Keys
    requires CompleteEach(f, cfg, ids, now).status == Ok
    ensures Open(f) == Outcome(Ok, Tag(f, PruneQuota(CompleteEach(f, cfg, ids, now).core, f.clock)))
  {
    hide Inv, Finish, Rebuild, FoldsFit, PruneQuota, ReplayPending, Tag, CompletionsFit, RebuiltWithStaleFits;
    CompletionTotalIff(f, cfg, ids, now);
    CompleteEachFinishes(f, cfg, ids, now);
    FinishedFits(f, cfg);
    if f.version == V2 { OpenQuotaKeeps(f, cfg); } else { PlainRecovery(f, cfg); }
    FinishedEqualsRecovered(f, cfg);
  }

  /** Without receipts there is nothing to rebuild, to prune or to tag. */
  lemma PlainRecovery(f: Core, cfg: Config)
    requires Inv(f, cfg) && f.version == V1
    ensures Open(f) == Outcome(Ok, PruneQuota(ReplayPending(Rebuild(f)), f.clock))
    ensures Tag(f, PruneQuota(Finish(f, f.pending.Keys), f.clock)) == Finish(f, f.pending.Keys)
    ensures CompletionsFit(f)
  {
    hide Inv, Finish, Tag, PruneQuota, Rebuild, ReplayPending, CompletionsFit, RebuiltWithStaleFits, Fold;
    NoReceipts(f, cfg);
    PlainRebuild(f);
    PlainFinish(f);
    FinishedFits(f, cfg);
    EmptyFolds(Finish(f, f.pending.Keys));
  }

  lemma PlainRebuild(f: Core)
    requires f.receipts == map[] && f.expiry == {} && f.version == V1
    ensures Open(f) == Outcome(Ok, PruneQuota(ReplayPending(Rebuild(f)), f.clock))
  {
    hide Names, Windows, WindowEnd, Latest, FoldsFit;
    assert Rebuild(f) == f.(leases := map[]);
    PruneEmpty(ReplayPending(f.(leases := map[])), f.clock);
  }

  lemma PlainFinish(f: Core)
    requires f.receipts == map[] && f.expiry == {}
    ensures Tag(f, PruneQuota(Finish(f, f.pending.Keys), f.clock)) == Finish(f, f.pending.Keys)
    ensures Finish(f, f.pending.Keys).receipts == map[] && Finish(f, f.pending.Keys).expiry == {}
  {
    hide Names, Windows, WindowEnd, Latest, FinishedReady;
    var g := Finish(f, f.pending.Keys);
    assert g.receipts == map[] && g.expiry == {};
    PruneEmpty(g, f.clock);
    assert Tag(f, g).receipts == g.receipts;
  }

  /** A crash and Open refine normal completion: whatever the order of completion, at any time
      up to the saved clock, the recovered journal is the completed and pruned one with the
      tag "interrupted". Completion succeeds exactly when every rebuilt counter would also have
      room for the charges of ended windows, which startup drops; so the two part exactly where
      the rebuilt counters fit and those charges on top do not. Before activation there are no
      counters, and startup is completing every pending fact. */
  lemma RecoveryRefinesCompletion(f: Core, cfg: Config, ids: seq<Id>, now: int)
    requires Inv(f, cfg) && Reached(f, now)
    requires Enumerates(ids, f.pending.Keys) && Done(ids) == f.pending.Keys
    ensures CompleteEach(f, cfg, ids, now).status == Ok ==>
              Open(f) == Outcome(Ok, Tag(f, PruneQuota(CompleteEach(f, cfg, ids, now).core, f.clock)))
    ensures CompleteEach(f, cfg, ids, now).status == Ok <==> RebuiltWithStaleFits(f)
    ensures (Open(f).status == Ok) != (CompleteEach(f, cfg, ids, now).status == Ok)
            <==> FoldsFit(Rebuild(f)) && !RebuiltWithStaleFits(f)
    ensures NoStale(f) ==> (Open(f).status == Ok <==> CompleteEach(f, cfg, ids, now).status == Ok)
    ensures f.version == V1 ==> Open(f).status == Ok && Open(f) == CompleteEach(f, cfg, ids, now)
  {
    hide Inv, FoldsFit, CompleteEach, Tag, Finish, Rebuild, CompletionsFit, RebuiltWithStaleFits, NoStale, PruneQuota;
    CompletionTotalIff(f, cfg, ids, now);
    FinishedFits(f, cfg);
    if f.version == V1 {
      PlainRecovery(f, cfg);
      CompleteEachFinishes(f, cfg, ids, now);
    }
    if CompleteEach(f, cfg, ids, now).status == Ok {
      CompletionImpliesRecovery(f, cfg, ids, now);
    } else if NoStale(f) && FoldsFit(Rebuild(f)) {
      NoStaleFits(f, cfg);
    }
  }
}
