/** Every transaction of the journal preserves the invariant. */
module LedgerSteps {
  import opened Wrappers
  import opened Decimals
  import opened LedgerTypes
  import opened Totals
  import opened Ledger
  import opened LedgerInvariant

  // ---------- operations that leave receipts alone ----------

  predicate SameQuota(f: Core, g: Core)
  {
    && g.version == f.version && g.zone == f.zone && g.coverage == f.coverage
    && g.receipts == f.receipts && g.expiry == f.expiry && g.births == f.births && g.invalid == f.invalid
  }

  /** Facts may come and go as long as no receipt's own fact is moved or rewritten. */
  lemma FactsFrame(f: Core, g: Core, cfg: Config)
    requires Inv(f, cfg) && SameQuota(f, g) && g.clock == f.clock
    requires FactsOk(cfg, g.pending, g.ready) && LeasesOk(g.pending, g.leases)
    requires EventsOk(g.events, g.clock) && SwitchOk(g)
    requires forall id :: id in f.receipts ==>
               && (id in f.pending <==> id in g.pending)
               && (id in g.ready ==> id in f.ready && g.ready[id] == f.ready[id])
    ensures Inv(g, cfg)
  {
    QuotaFrame(f, g, cfg);
    forall id | id in g.receipts ensures ReceiptOk(g, cfg, id) {
      assert ReceiptOk(f, cfg, id);
    }
  }

  lemma ReserveKeeps(f: Core, cfg: Config, id: Id, payload: Payload)
    requires Inv(f, cfg)
    ensures Inv(Reserve(f, cfg, id, payload).core, cfg)
  {
    hide FoldsFit, ReceiptOk, ExpiryOk, ValidKey;
    if Reserve(f, cfg, id, payload).status == Ok { FactsFrame(f, Reserve(f, cfg, id, payload).core, cfg); }
  }

  lemma UpdatePendingKeeps(f: Core, cfg: Config, id: Id, payload: Payload)
    requires Inv(f, cfg)
    ensures Inv(UpdatePending(f, cfg, id, payload).core, cfg)
  {
    hide FoldsFit, ReceiptOk, ExpiryOk, ValidKey;
    if UpdatePending(f, cfg, id, payload).status == Ok { FactsFrame(f, UpdatePending(f, cfg, id, payload).core, cfg); }
  }

  lemma CompletePlainKeeps(f: Core, cfg: Config, id: Id, payload: Payload)
    requires Inv(f, cfg)
    ensures Inv(CompletePlain(f, cfg, id, payload).core, cfg)
  {
    hide Inv, ValidEntry;
    var g := CompletePlain(f, cfg, id, payload).core;
    if g != f { DeliverKeeps(f, cfg, id, payload, g); }
  }

  lemma DeliverKeeps(f: Core, cfg: Config, id: Id, payload: Payload, g: Core)
    requires Inv(f, cfg) && id in f.pending && id !in f.receipts && ValidEntry(cfg, id, payload)
    requires g == f.(ready := f.ready[id := payload], leases := f.leases - {id}, pending := f.pending - {id})
    ensures Inv(g, cfg)
  {
    hide FoldsFit, ReceiptsOk, ExpiryOk, ModeOk, ValidEntry, DistinctAccounts, ValidKey;
    FactsFrame(f, g, cfg);
  }

  lemma AckKeeps(f: Core, cfg: Config, id: Id)
    requires Inv(f, cfg)
    ensures Inv(Ack(f, id).core, cfg)
  {
    hide FoldsFit, ReceiptOk, ExpiryOk, ValidKey;
    if Ack(f, id).status == Ok { FactsFrame(f, Ack(f, id).core, cfg); }
  }

  lemma {:induction false} LimitsAllOk(f: Core, limits: seq<Limit>, i: nat)
    requires i <= |limits| && LimitsStatus(f, limits, i) == Ok
    ensures forall j :: i <= j < |limits| ==> LimitStatus(f, limits, j) == Ok
    decreases |limits| - i
  {
    if i < |limits| { LimitsAllOk(f, limits, i + 1); }
  }

  /** An admission that passed the limit checks names valid, distinct accounts. */
  lemma AdmittedAccounts(f: Core, limits: seq<Limit>)
    requires LimitsStatus(f, limits, 0) == Ok
    ensures DistinctAccounts(LimitAccounts(limits))
    ensures forall i :: 0 <= i < |limits| ==> ValidKey(limits[i].account)
  {
    LimitsAllOk(f, limits, 0);
    forall i | 0 <= i < |limits| ensures ValidKey(limits[i].account) {
      assert LimitStatus(f, limits, i) == Ok;
    }
    forall i, j | 0 <= i < j < |limits| ensures LimitAccounts(limits)[i] != LimitAccounts(limits)[j] {
      assert LimitStatus(f, limits, j) == Ok;
    }
  }

  lemma NewEventsCard(id: Id, t: int, accounts: seq<Account>)
    ensures |NewEvents(id, t, accounts)| <= |accounts|
    decreases |accounts|
  {
    if |accounts| > 0 {
      var n := |accounts| - 1;
      NewEventsCard(id, t, accounts[..n]);
      assert NewEvents(id, t, accounts) == NewEvents(id, t, accounts[..n]) + {Event(t, id, accounts[n])};
    }
  }

  lemma ApplyFacts(f: Core, cfg: Config, id: Id, payload: Payload, accounts: seq<Account>)
    requires Inv(f, cfg) && 0 < f.clock
    requires ValidEntry(cfg, id, payload) && id !in f.pending && id !in f.ready
    requires |f.events| + |accounts| <= LIMIT_HISTORY_CAPACITY
    requires DistinctAccounts(accounts) && forall i :: 0 <= i < |accounts| ==> ValidKey(accounts[i])
    ensures var g := ApplyAdmission(f, id, payload, f.clock, accounts);
            && FactsOk(cfg, g.pending, g.ready) && LeasesOk(g.pending, g.leases) && EventsOk(g.events, g.clock)
  {
    NewEventsCard(id, f.clock, accounts);
  }

  lemma LimitStepsKeep(f: Core, cfg: Config, id: Id, payload: Payload, limits: seq<Limit>, now: int)
    requires Inv(f, cfg)
    ensures Inv(ReserveWithLimits(f, cfg, id, payload, limits, now).core, cfg)
    ensures Inv(ObserveLimits(f, now).core, cfg)
  {
    hide FoldsFit, ReceiptOk, ExpiryOk, ValidKey;
    if 0 < now { PruneLimitsKeeps(f, cfg, LogicalTime(f, now)); }
    var o := ReserveWithLimits(f, cfg, id, payload, limits, now);
    if o.status == Ok {
      var g := PruneLimits(f, LogicalTime(f, now));
      AdmittedAccounts(g, limits);
      ApplyFacts(g, cfg, id, payload, LimitAccounts(limits));
      FactsFrame(g, o.core, cfg);
    }
  }

  lemma EnableKeeps(f: Core, cfg: Config, zone: string, now: int)
    requires Inv(f, cfg) && 0 <= cfg.quotaCapacity
    ensures Inv(EnableQuota(f, cfg, zone, now).core, cfg)
  {
    var g := EnableQuota(f, cfg, zone, now).core;
    if g != f {
      forall a, w, d ensures Fold(g, a, w, d) == 0 {
        assert Charged(g, a, w) == {};
        assert Weights(g.receipts, {}, d) == map[];
      }
    }
  }

  lemma ObserveQuotaKeeps(f: Core, cfg: Config, account: Account, now: int)
    requires Inv(f, cfg)
    ensures Inv(ObserveQuota(f, cfg, account, now).core, cfg)
  {
    if ObserveQuota(f, cfg, account, now).status == Ok {
      var t := LogicalTime(f, now);
      ClockKeeps(f, cfg, t);
      PruneQuotaKeeps(f.(clock := t), cfg);
    }
  }

  // ---------- quota admission ----------

  lemma {:induction false} PoliciesAllOk(f: Core, ps: seq<Policy>, b: Bound, coverage: int, t: int, start: int, i: nat)
    requires i <= |ps| && PoliciesStatus(f, ps, b, coverage, t, start, i) == Ok
    ensures forall j :: i <= j < |ps| ==> PolicyStatus(f, ps[j], b, coverage, t, start) == Ok
    decreases |ps| - i
  {
    hide PolicyStatus;
    if i < |ps| { PoliciesAllOk(f, ps, b, coverage, t, start, i + 1); }
  }

  lemma {:induction false} SameTokens(f: Core, g: Core, p: Policy, b: Bound, coverage: int, tws: seq<TokenWindow>, i: nat)
    requires i <= |tws|
    requires forall a, w, d :: Fold(f, a, w, d) == Fold(g, a, w, d)
    ensures TokensStatus(f, p, b, coverage, tws, i) == TokensStatus(g, p, b, coverage, tws, i)
    decreases |tws| - i
  {
    hide Fold;
    if i < |tws| { SameTokens(f, g, p, b, coverage, tws, i + 1); }
  }

  /** The journal as the admission check leaves it: clock advanced, events and history pruned. */
  lemma CheckedCore(f: Core, cfg: Config, id: Id, ps: seq<Policy>, b: Bound, zone: string, now: int, h: Core, r: Receipt)
    requires Inv(f, cfg)
    requires CheckQuotaAdmission(f, cfg, id, ps, b, zone, now) == QuotaAdmitted(h, r)
    ensures Inv(h, cfg)
    ensures h == if f.version == V2 then PruneQuota(PruneLimits(f, LogicalTime(f, now)), LogicalTime(f, now))
                 else PruneLimits(f, LogicalTime(f, now))
    ensures 0 < now
  {
    hide Inv, PoliciesStatus, LimitsStatus, PruneQuota, QuotaMonth;
    var t := LogicalTime(f, now);
    assert 0 < t && f.clock <= t;
    PruneLimitsKeeps(f, cfg, t);
    if f.version == V2 { PruneQuotaKeeps(PruneLimits(f, t), cfg); }
  }

  /** The receipt that the admission check proposes, and the room it found. */
  lemma CheckedFields(f: Core, cfg: Config, id: Id, ps: seq<Policy>, b: Bound, zone: string, now: int,
                      h: Core, r: Receipt)
    requires CheckQuotaAdmission(f, cfg, id, ps, b, zone, now) == QuotaAdmitted(h, r)
    ensures f.version == V1 ==> zone != ""
    ensures id !in f.receipts && id !in f.pending && id !in f.ready
    ensures r.id == id && r.accounts == PolicyAccounts(ps) && r.bound == b && r.state == Active && !r.overrun
    ensures r.actual == NO_SETTLEMENT && r.recovery == NO_SETTLEMENT && r.digest == None
    ensures r.admittedAt == LogicalTime(f, now) <= MAX_INT64 - SEVEN_DAYS
    ensures |h.events| + |ps| <= LIMIT_HISTORY_CAPACITY
    ensures f.version == V2 ==> |h.receipts| < cfg.quotaCapacity
    ensures QuotaMonth(cfg, if f.version == V2 then f.zone else zone, r.admittedAt) == Some((r.monthStart, r.monthEnd))
    ensures LimitsStatus(PruneLimits(f, LogicalTime(f, now)), PolicyLimits(ps), 0) == Ok
    ensures PoliciesStatus(h, ps, b, if f.version == V2 then f.coverage else r.admittedAt,
                           r.admittedAt, r.monthStart, 0) == Ok
  {
    hide PoliciesStatus, LimitsStatus, Due;
  }

  lemma NamesOfPolicies(r: Receipt, ps: seq<Policy>)
    requires r.accounts == PolicyAccounts(ps)
    ensures forall i :: 0 <= i < |ps| ==> ps[i].limit.account in Names(r)
    ensures forall a :: a in Names(r) ==> exists i :: 0 <= i < |ps| && ps[i].limit.account == a
  {
    forall i | 0 <= i < |ps| ensures ps[i].limit.account in Names(r) {
      assert r.accounts[i].account == ps[i].limit.account;
    }
  }

  lemma CheckedPolicies(f: Core, h: Core, ps: seq<Policy>, b: Bound, coverage: int, t: int, start: int)
    requires 0 < t
    requires LimitsStatus(f, PolicyLimits(ps), 0) == Ok
    requires PoliciesStatus(h, ps, b, coverage, t, start, 0) == Ok
    ensures DistinctAccounts(LimitAccounts(PolicyLimits(ps)))
    ensures forall i :: 0 <= i < |ps| ==> ValidKey(ps[i].limit.account) && 0 <= Created(ps[i]) <= t
    ensures forall i :: 0 <= i < |ps| ==> ValidKey(ps[i].revision)
    ensures |ps| <= MAX_ACCOUNTS && |ps| > 0 ==> ValidAccounts(PolicyAccounts(ps))
  {
    hide ValidKey, TokensStatus, MoneyStatus, RevisionStatus;
    var limits := PolicyLimits(ps);
    AdmittedAccounts(f, limits);
    PoliciesAllOk(h, ps, b, coverage, t, start, 0);
    forall i | 0 <= i < |ps|
      ensures ValidKey(ps[i].limit.account) && ValidKey(ps[i].revision) && 0 <= Created(ps[i]) <= t
    {
      assert limits[i].account == ps[i].limit.account;
      assert PolicyStatus(h, ps[i], b, coverage, t, start) == Ok;
      assert IdentityStatus(h.births, ps[i], t) == Ok;
    }
    var accounts := PolicyAccounts(ps);
    forall i, j | 0 <= i < j < |accounts| ensures accounts[i].account != accounts[j].account {
      assert LimitAccounts(limits)[i] != LimitAccounts(limits)[j];
    }
  }

  lemma {:induction false} EstablishAdds(births: map<Account, int>, ps: seq<Policy>, n: nat, t: int)
    requires n <= |ps|
    requires forall a :: a in births ==> ValidKey(a) && 0 <= births[a] <= t
    requires forall i :: 0 <= i < |ps| ==> ValidKey(ps[i].limit.account) && 0 <= Created(ps[i]) <= t
    ensures births.Keys <= Establish(births, ps, n).Keys
    ensures forall i :: 0 <= i < n ==> ps[i].limit.account in Establish(births, ps, n)
    ensures forall a :: a in Establish(births, ps, n) ==> ValidKey(a) && 0 <= Establish(births, ps, n)[a] <= t
    ensures forall a :: a in births ==> Establish(births, ps, n)[a] == births[a]
  {
    if n > 0 { EstablishAdds(births, ps, n - 1, t); }
  }

  /** A new active receipt is charged in flight to the accounts it names and nowhere else. */
  lemma InsertFold(f: Core, g: Core, r: Receipt, a: Account, w: Window, d: Dim)
    requires r.id !in f.receipts && !Terminal(r)
    requires g.receipts == f.receipts[r.id := r] && g.expiry == f.expiry && ExpiryOk(f)
    ensures Fold(g, a, w, d) == Fold(f, a, w, d) + if w == InFlight && a in Names(r) then Contribution(r, d) else 0
  {
    var ids := Charged(f, a, w);
    assert r.id !in ids && ids <= f.receipts.Keys by {
      if w != InFlight {
        forall id | id in ids ensures id in f.receipts {
          var k :| k in f.expiry && k.Charge? && k.id == id;
          assert KeySound(f.receipts, k);
        }
      }
    }
    SumSame(f.receipts, g.receipts, ids, d);
    if w == InFlight && a in Names(r) {
      assert Charged(g, a, w) == ids + {r.id};
      SumInsert(g.receipts, ids, r.id, d);
    } else {
      assert Charged(g, a, w) == ids;
    }
  }

  lemma InsertFits(f: Core, g: Core, r: Receipt)
    requires r.id !in f.receipts && !Terminal(r)
    requires g.receipts == f.receipts[r.id := r] && g.expiry == f.expiry && ExpiryOk(f)
    requires FoldsFit(f) && InFlightFits(f, r)
    ensures FoldsFit(g)
  {
    forall a, w, d | d in {TokensUsed, TokensHeld, TokensUnknown, MoneyUnknown}
      ensures Fold(g, a, w, d) <= MAX_INT64
    {
      InsertFold(f, g, r, a, w, d);
      assert Fold(f, a, w, d) <= MAX_INT64;
      if w == InFlight && a in Names(r) {
        assert Fits(f, a, InFlight, r);
      }
    }
  }

  lemma InsertExpiry(f: Core, g: Core, r: Receipt)
    requires r.id !in f.receipts && !Terminal(r)
    requires g.receipts == f.receipts[r.id := r] && g.expiry == f.expiry && g.clock == f.clock && ExpiryOk(f)
    ensures ExpiryOk(g)
  {
    forall k | k in g.expiry ensures KeySound(g.receipts, k) {
      assert KeySound(f.receipts, k);
    }
    forall id | id in g.receipts ensures KeysComplete(g, id) {
      if id != r.id { assert KeysComplete(f, id); }
    }
  }

  lemma AdmitReceipts(h: Core, cfg: Config, g: Core, ps: seq<Policy>, q: Receipt)
    requires Inv(h, cfg) && h.clock == q.admittedAt && h.coverage <= h.clock
    requires WellFormed(q) && !Terminal(q) && !q.overrun && q.id !in h.receipts
    requires q.accounts == PolicyAccounts(ps)
    requires h.births.Keys <= g.births.Keys
    requires forall i :: 0 <= i < |ps| ==> ps[i].limit.account in g.births
    requires QuotaMonth(cfg, h.zone, h.clock) == Some((q.monthStart, q.monthEnd))
    requires g.receipts == h.receipts[q.id := q] && g.clock == h.clock && g.coverage == h.coverage
    requires g.zone == h.zone && g.ready == h.ready && g.pending.Keys == h.pending.Keys + {q.id}
    requires g.invalid == h.invalid
    ensures ReceiptsOk(g, cfg)
  {
    hide FoldsFit, ExpiryOk, ValidKey, FactsOk, LeasesOk, EventsOk, SwitchOk, ModeOk, Overran, RecoveryStatus;
    hide ValidBound, ValidSettlement, ValidAccounts;
    NamesOfPolicies(q, ps);
    forall id | id in g.receipts ensures ReceiptOk(g, cfg, id) {
      if id != q.id { assert ReceiptOk(h, cfg, id); }
    }
  }

  predicate BirthsOk(births: map<Account, int>, t: int)
  {
    forall a :: a in births ==> ValidKey(a) && 0 <= births[a] <= t
  }

  lemma AdmitBirths(h: Core, cfg: Config, ps: seq<Policy>)
    requires ModeOk(h, cfg) && h.version == V2
    requires forall i :: 0 <= i < |ps| ==> ValidKey(ps[i].limit.account) && 0 <= Created(ps[i]) <= h.clock
    ensures BirthsOk(Establish(h.births, ps, |ps|), h.clock)
    ensures h.births.Keys <= Establish(h.births, ps, |ps|).Keys
    ensures forall i :: 0 <= i < |ps| ==> ps[i].limit.account in Establish(h.births, ps, |ps|)
  {
    hide ValidKey, Establish, MetadataStatus, Created;
    EstablishAdds(h.births, ps, |ps|, h.clock);
  }

  lemma AdmitMode(h: Core, cfg: Config, g: Core, q: Receipt)
    requires ModeOk(h, cfg) && h.version == V2 && |h.receipts| < cfg.quotaCapacity
    requires g.version == V2 && g.clock == h.clock && g.zone == h.zone && g.coverage == h.coverage
    requires g.invalid == h.invalid && BirthsOk(g.births, g.clock)
    requires g.receipts == h.receipts[q.id := q]
    ensures ModeOk(g, cfg)
  {
    hide ValidKey;
    assert g.receipts.Keys == h.receipts.Keys + {q.id};
  }

  lemma AdmitSwitch(h: Core, g: Core, q: Receipt, accounts: seq<Account>)
    requires SwitchOk(h) && q.id !in h.receipts && q.admittedAt == h.clock
    requires g.version == h.version && g.clock == h.clock && g.coverage == h.coverage
    requires g.receipts == h.receipts[q.id := q] && g.events == h.events + NewEvents(q.id, h.clock, accounts)
    ensures SwitchOk(g)
  {}

  lemma AdmitFacts(h: Core, cfg: Config, g: Core, id: Id, payload: Payload, ps: seq<Policy>)
    requires Inv(h, cfg) && 0 < h.clock && ValidEntry(cfg, id, payload) && id !in h.pending && id !in h.ready
    requires DistinctAccounts(LimitAccounts(PolicyLimits(ps))) && |h.events| + |ps| <= LIMIT_HISTORY_CAPACITY
    requires forall i :: 0 <= i < |ps| ==> ValidKey(ps[i].limit.account)
    requires var a := ApplyAdmission(h, id, payload, h.clock, LimitAccounts(PolicyLimits(ps)));
             g.pending == a.pending && g.ready == a.ready && g.leases == a.leases && g.events == a.events
             && g.clock == h.clock
    ensures FactsOk(cfg, g.pending, g.ready) && LeasesOk(g.pending, g.leases) && EventsOk(g.events, g.clock)
  {
    hide Inv, FactsOk, LeasesOk, EventsOk, ValidKey, DistinctAccounts, ValidEntry;
    var accounts := LimitAccounts(PolicyLimits(ps));
    forall i | 0 <= i < |accounts| ensures ValidKey(accounts[i]) {
      assert accounts[i] == ps[i].limit.account;
    }
    ApplyFacts(h, cfg, id, payload, accounts);
  }

  /** The receipts' side of an admission. */
  lemma AdmitQuota(h: Core, cfg: Config, g: Core, ps: seq<Policy>, q: Receipt)
    requires Inv(h, cfg) && h.version == V2 && h.clock == q.admittedAt && |h.receipts| < cfg.quotaCapacity
    requires WellFormed(q) && !Terminal(q) && !q.overrun && q.id !in h.receipts
    requires q.accounts == PolicyAccounts(ps)
    requires forall i :: 0 <= i < |ps| ==> ValidKey(ps[i].limit.account) && 0 <= Created(ps[i]) <= h.clock
    requires QuotaMonth(cfg, h.zone, h.clock) == Some((q.monthStart, q.monthEnd))
    requires InFlightFits(h, q)
    requires g == h.(pending := g.pending, events := g.events, leases := g.leases,
                     births := Establish(h.births, ps, |ps|), receipts := h.receipts[q.id := q])
    requires g.pending.Keys == h.pending.Keys + {q.id}
    ensures ModeOk(g, cfg) && FoldsFit(g) && ExpiryOk(g) && ReceiptsOk(g, cfg)
  {
    hide FoldsFit, ReceiptsOk, ExpiryOk, WellFormed, InFlightFits, ValidKey, Establish, SwitchOk;
    hide FactsOk, LeasesOk, EventsOk, QuotaMonth, BirthsOk, PolicyAccounts, Created;
    AdmitBirths(h, cfg, ps);
    AdmitMode(h, cfg, g, q);
    InsertFits(h, g, q);
    InsertExpiry(h, g, q);
    AdmitReceipts(h, cfg, g, ps, q);
  }

  lemma AdmitKeeps(h: Core, cfg: Config, g: Core, payload: Payload, ps: seq<Policy>, q: Receipt, accounts: seq<Account>)
    requires Inv(h, cfg) && h.version == V2 && 0 < h.clock == q.admittedAt && |h.receipts| < cfg.quotaCapacity
    requires ValidEntry(cfg, q.id, payload) && WellFormed(q) && !Terminal(q) && !q.overrun
    requires q.id !in h.receipts && q.id !in h.pending && q.id !in h.ready
    requires q.accounts == PolicyAccounts(ps) && accounts == LimitAccounts(PolicyLimits(ps))
    requires DistinctAccounts(accounts) && |h.events| + |ps| <= LIMIT_HISTORY_CAPACITY
    requires forall i :: 0 <= i < |ps| ==> ValidKey(ps[i].limit.account) && 0 <= Created(ps[i]) <= h.clock
    requires QuotaMonth(cfg, h.zone, h.clock) == Some((q.monthStart, q.monthEnd))
    requires InFlightFits(h, q)
    requires g == ApplyAdmission(h, q.id, payload, h.clock, accounts)
                  .(births := Establish(h.births, ps, |ps|), receipts := h.receipts[q.id := q])
    ensures Inv(g, cfg)
  {
    hide FoldsFit, ReceiptsOk, ExpiryOk, WellFormed, InFlightFits, ValidKey, Establish, NewEvents, SwitchOk;
    hide FactsOk, LeasesOk, EventsOk, DistinctAccounts, ValidEntry, QuotaMonth, ModeOk;
    hide PolicyAccounts, LimitAccounts, PolicyLimits, Created;
    AdmitFacts(h, cfg, g, q.id, payload, ps);
    AdmitQuota(h, cfg, g, ps, q);
    AdmitSwitch(h, g, q, accounts);
  }

  lemma InFlightFitsRecovery(h: Core, r: Receipt, recovery: Settlement)
    requires InFlightFits(h, r) && !Terminal(r)
    ensures InFlightFits(h, r.(recovery := recovery))
  {
    var q := r.(recovery := recovery);
    assert Names(q) == Names(r);
    forall a | a in Names(q) ensures Fits(h, a, InFlight, q) {
      assert Fits(h, a, InFlight, r);
      forall d | d in {TokensUsed, TokensHeld, TokensUnknown, MoneyUnknown}
        ensures Contribution(q, d) == Contribution(r, d) {}
    }
  }

  /** A successful quota admission, taken apart. */
  lemma ReserveQuotaParts(f: Core, cfg: Config, id: Id, payload: Payload, ps: seq<Policy>, b: Bound,
                          recovery: Settlement, now: int) returns (h: Core, r: Receipt)
    requires ReserveWithQuota(f, cfg, id, payload, ps, b, recovery, now).status == Ok
    ensures ValidEntry(cfg, id, payload) && 1 <= |ps| <= MAX_ACCOUNTS
    ensures ValidBound(b) && ValidSettlement(recovery) && RecoveryStatus(b, recovery) == Ok
    ensures CheckQuotaAdmission(f, cfg, id, ps, b, "", now) == QuotaAdmitted(h, r)
    ensures InFlightFits(h, r)
    ensures ReserveWithQuota(f, cfg, id, payload, ps, b, recovery, now).core
         == ApplyAdmission(h, id, payload, r.admittedAt, LimitAccounts(PolicyLimits(ps)))
            .(births := Establish(h.births, ps, |ps|), receipts := h.receipts[id := r.(recovery := recovery)])
  {
    hide CheckQuotaAdmission, InFlightFits, Establish, ValidBound, ValidSettlement, RecoveryStatus, ApplyAdmission;
    h := CheckQuotaAdmission(f, cfg, id, ps, b, "", now).core;
    r := CheckQuotaAdmission(f, cfg, id, ps, b, "", now).receipt;
  }

  lemma ReserveQuotaKeeps(f: Core, cfg: Config, id: Id, payload: Payload, ps: seq<Policy>, b: Bound,
                          recovery: Settlement, now: int)
    requires Inv(f, cfg)
    ensures Inv(ReserveWithQuota(f, cfg, id, payload, ps, b, recovery, now).core, cfg)
  {
    hide Inv, CheckQuotaAdmission, InFlightFits, Establish, ApplyAdmission, PoliciesStatus, LimitsStatus, Due;
    if ReserveWithQuota(f, cfg, id, payload, ps, b, recovery, now).status == Ok {
      var h, r := ReserveQuotaParts(f, cfg, id, payload, ps, b, recovery, now);
      CheckedCore(f, cfg, id, ps, b, "", now, h, r);
      CheckedFields(f, cfg, id, ps, b, "", now, h, r);
      CheckedPolicies(PruneLimits(f, r.admittedAt), h, ps, b, f.coverage, r.admittedAt, r.monthStart);
      InFlightFitsRecovery(h, r, recovery);
      AdmitKeeps(h, cfg, ReserveWithQuota(f, cfg, id, payload, ps, b, recovery, now).core, payload, ps,
                 r.(recovery := recovery), LimitAccounts(PolicyLimits(ps)));
    }
  }

  lemma PreflightKeeps(f: Core, cfg: Config, id: Id, ps: seq<Policy>, b: Bound, zone: string, now: int)
    requires Inv(f, cfg)
    ensures Inv(PreflightWithQuota(f, cfg, id, ps, b, zone, now).core, cfg)
  {
    hide Inv, CheckQuotaAdmission;
    var c := CheckQuotaAdmission(f, cfg, id, ps, b, zone, now);
    if PreflightWithQuota(f, cfg, id, ps, b, zone, now).status == Ok && c.QuotaAdmitted? {
      CheckedCore(f, cfg, id, ps, b, zone, now, c.core, c.receipt);
    }
  }

  // ---------- checkpoints and settlement ----------

  lemma UpdatePendingQuotaKeeps(f: Core, cfg: Config, id: Id, payload: Payload, recovery: Settlement)
    requires Inv(f, cfg)
    ensures Inv(UpdatePendingQuota(f, cfg, id, payload, recovery).core, cfg)
  {
    hide FoldsFit, ExpiryOk, ValidKey, ReceiptsOk, ValidSettlement, RecoveryStatus, EventsOk;
    var o := UpdatePendingQuota(f, cfg, id, payload, recovery);
    if o.status == Ok {
      var g := o.core;
      UpdateReceipts(f, cfg, g, id, recovery);
      RecoveryUnweighed(f, g, id);
      assert g.receipts.Keys == f.receipts.Keys;
    }
  }

  lemma UpdateReceipts(f: Core, cfg: Config, g: Core, id: Id, recovery: Settlement)
    requires ReceiptsOk(f, cfg) && id in f.receipts && !Terminal(f.receipts[id])
    requires ValidSettlement(recovery) && RecoveryStatus(f.receipts[id].bound, recovery) == Ok
    requires g.receipts == f.receipts[id := f.receipts[id].(recovery := recovery)]
    requires g == f.(receipts := g.receipts, pending := g.pending) && g.pending.Keys == f.pending.Keys
    ensures ReceiptsOk(g, cfg)
  {
    hide ValidKey, ValidBound, ValidSettlement, RecoveryStatus;
    assert Names(g.receipts[id]) == Names(f.receipts[id]);
    forall j | j in g.receipts ensures ReceiptOk(g, cfg, j) {
      assert ReceiptOk(f, cfg, j);
    }
  }

  /** The crash settlement of an active receipt is never counted while it is active. */
  lemma RecoveryUnweighed(f: Core, g: Core, id: Id)
    requires id in f.receipts && !Terminal(f.receipts[id]) && id in g.receipts
    requires g.receipts == f.receipts[id := f.receipts[id].(recovery := g.receipts[id].recovery)]
    requires g.expiry == f.expiry && g.clock == f.clock
    requires ExpiryOk(f) && FoldsFit(f)
    ensures ExpiryOk(g) && FoldsFit(g)
    ensures forall a, w, d :: Fold(g, a, w, d) == Fold(f, a, w, d)
  {
    hide Names, Windows, Contribution;
    assert Names(g.receipts[id]) == Names(f.receipts[id]) by { NamesByAccounts(g.receipts[id], f.receipts[id]); }
    forall k | k in g.expiry ensures KeySound(g.receipts, k) {
      assert KeySound(f.receipts, k);
    }
    forall j | j in g.receipts ensures KeysComplete(g, j) {
      assert KeysComplete(f, j);
    }
    forall j, d ensures Weight(g.receipts, j, d) == Weight(f.receipts, j, d) {
      ActiveWeight(f.receipts[id], g.receipts[id].recovery, d);
    }
    forall a, w, d ensures Fold(g, a, w, d) == Fold(f, a, w, d) {
      assert Charged(g, a, w) == Charged(f, a, w);
      SumSame(f.receipts, g.receipts, Charged(f, a, w), d);
    }
  }

  lemma NamesByAccounts(r: Receipt, q: Receipt)
    requires r.accounts == q.accounts
    ensures Names(r) == Names(q)
  {}

  lemma ActiveWeight(r: Receipt, recovery: Settlement, d: Dim)
    requires !Terminal(r)
    ensures Contribution(r.(recovery := recovery), d) == Contribution(r, d)
  {}

  predicate Projected(f: Core, g: Core, q: Receipt, t: int)
  {
    && q.id in f.receipts && !Terminal(f.receipts[q.id]) && Terminal(q)
    && q.accounts == f.receipts[q.id].accounts
    && g.receipts == f.receipts[q.id := q]
    && g.expiry == f.expiry + ChargeKeys(q, t) + {Retire(Latest(q), q.id)}
  }

  /** Settling moves a receipt from the in-flight amounts to every window still open. */
  lemma SettleFold(f: Core, g: Core, q: Receipt, t: int, a: Account, w: Window, d: Dim)
    requires Projected(f, g, q, t) && ExpiryOk(f)
    ensures w == InFlight ==>
              Fold(g, a, w, d) == Fold(f, a, w, d)
                                  - if a in Names(q) then Contribution(f.receipts[q.id], d) else 0
    ensures w != InFlight ==>
              Fold(g, a, w, d) == Fold(f, a, w, d)
                + if a in Names(q) && w in Windows(q) && WindowEnd(q, w) > t then Contribution(q, d) else 0
  {
    if w == InFlight {
      SettleInFlight(f, g, q, t, a, d);
    } else {
      SettleWindow(f, g, q, t, a, w, d);
    }
  }

  lemma SettleInFlight(f: Core, g: Core, q: Receipt, t: int, a: Account, d: Dim)
    requires Projected(f, g, q, t)
    ensures Fold(g, a, InFlight, d) == Fold(f, a, InFlight, d)
                                       - if a in Names(q) then Contribution(f.receipts[q.id], d) else 0
  {
    var ids := Charged(g, a, InFlight);
    assert q.id !in ids;
    SumSame(f.receipts, g.receipts, ids, d);
    assert Names(q) == Names(f.receipts[q.id]);
    if a in Names(q) {
      assert Charged(f, a, InFlight) == ids + {q.id};
      SumInsert(f.receipts, ids, q.id, d);
    } else {
      assert Charged(f, a, InFlight) == ids;
    }
  }

  lemma ChargedTerminal(f: Core, a: Account, w: Window, id: Id)
    requires ExpiryOk(f) && w != InFlight && id in Charged(f, a, w)
    ensures id in f.receipts && Terminal(f.receipts[id])
  {
    var k :| k in f.expiry && k.Charge? && k.account == a && k.window == w && k.id == id;
    assert KeySound(f.receipts, k);
  }

  lemma ChargedAfter(f: Core, g: Core, q: Receipt, t: int, a: Account, w: Window)
    requires g.expiry == f.expiry + ChargeKeys(q, t) + {Retire(Latest(q), q.id)} && w != InFlight
    ensures Charged(g, a, w)
         == Charged(f, a, w) + if a in Names(q) && w in Windows(q) && WindowEnd(q, w) > t then {q.id} else {}
  {
    var here := a in Names(q) && w in Windows(q) && WindowEnd(q, w) > t;
    forall id | id in Charged(g, a, w) ensures id in Charged(f, a, w) || (here && id == q.id) {
      var k :| k in g.expiry && k.Charge? && k.account == a && k.window == w && k.id == id;
    }
    if here {
      assert Charge(WindowEnd(q, w), a, w, q.id) in ChargeKeys(q, t);
    }
    forall id | id in Charged(f, a, w) ensures id in Charged(g, a, w) {
      var k :| k in f.expiry && k.Charge? && k.account == a && k.window == w && k.id == id;
      assert k in g.expiry;
    }
  }

  lemma SettleWindow(f: Core, g: Core, q: Receipt, t: int, a: Account, w: Window, d: Dim)
    requires Projected(f, g, q, t) && ExpiryOk(f) && w != InFlight
    ensures Fold(g, a, w, d) == Fold(f, a, w, d)
              + if a in Names(q) && w in Windows(q) && WindowEnd(q, w) > t then Contribution(q, d) else 0
  {
    hide ChargeKeys, Names, Windows, ExpiryOk;
    var ids := Charged(f, a, w);
    ChargedAfter(f, g, q, t, a, w);
    forall id | id in ids ensures id in f.receipts && id != q.id {
      ChargedTerminal(f, a, w, id);
    }
    SumSame(f.receipts, g.receipts, ids, d);
    if a in Names(q) && w in Windows(q) && WindowEnd(q, w) > t {
      SumInsert(g.receipts, ids, q.id, d);
    } else {
      assert Charged(g, a, w) == ids;
    }
  }

  lemma SettleFits(f: Core, g: Core, cfg: Config, q: Receipt, t: int)
    requires Projected(f, g, q, t) && ExpiryOk(f) && FoldsFit(f) && ReceiptsOk(f, cfg)
    requires ProjectionFits(f, q, t)
    ensures FoldsFit(g)
  {
    hide ReceiptOk, ExpiryOk;
    forall a, w, d | d in {TokensUsed, TokensHeld, TokensUnknown, MoneyUnknown}
      ensures Fold(g, a, w, d) <= MAX_INT64
    {
      SettleFold(f, g, q, t, a, w, d);
      assert Fold(f, a, w, d) <= MAX_INT64;
      if w == InFlight {
        InvWeighable(f, cfg);
        NonNegative(f.receipts[q.id], d);
      } else if a in Names(q) && w in Windows(q) && WindowEnd(q, w) > t {
        assert Fits(f, a, w, q);
      }
    }
  }

  lemma SettleExpiry(f: Core, g: Core, q: Receipt, t: int)
    requires Projected(f, g, q, t) && ExpiryOk(f) && f.clock <= t == g.clock
    ensures ExpiryOk(g)
  {
    forall k | k in g.expiry ensures KeySound(g.receipts, k) {
      if k in f.expiry { assert KeySound(f.receipts, k); }
    }
    forall id | id in g.receipts ensures KeysComplete(g, id) {
      if id != q.id {
        assert KeysComplete(f, id);
      } else {
        forall a, w | a in Names(q) && w in Windows(q) && WindowEnd(q, w) > g.clock
          ensures Charge(WindowEnd(q, w), a, w, id) in g.expiry
        {
          assert Charge(WindowEnd(q, w), a, w, q.id) in ChargeKeys(q, t);
        }
      }
    }
  }

  lemma SettledWellFormed(r: Receipt, s: Settlement, payload: Payload)
    requires WellFormed(r) && ValidSettlement(s)
    ensures WellFormed(Settle(r, s, payload, Complete))
  {}

  lemma SettleReceipts(f: Core, g: Core, cfg: Config, q: Receipt, payload: Payload, t: int)
    requires ReceiptsOk(f, cfg) && q.id in f.receipts && !Terminal(f.receipts[q.id])
    requires q == Settle(f.receipts[q.id], q.actual, payload, Complete) && ValidSettlement(q.actual)
    requires f.clock <= t == g.clock && g.coverage == f.coverage && g.zone == f.zone && g.births == f.births
    requires g.receipts == f.receipts[q.id := q]
    requires g.pending == f.pending - {q.id} && g.ready == f.ready[q.id := payload]
    requires g.invalid == Project(f, q, t).invalid
    ensures ReceiptsOk(g, cfg)
  {
    hide WellFormed, Overran, ChargeKeys;
    assert Names(q) == Names(f.receipts[q.id]);
    forall id | id in g.receipts ensures ReceiptOk(g, cfg, id) {
      assert ReceiptOk(f, cfg, id);
      if id == q.id { SettledWellFormed(f.receipts[id], q.actual, payload); }
    }
  }

  /** A successful first settlement, taken apart. */
  lemma CompleteQuotaParts(f: Core, cfg: Config, id: Id, payload: Payload, actual: Settlement, now: int)
    returns (t: int, q: Receipt)
    requires Inv(f, cfg)
    requires CompleteQuota(f, cfg, id, payload, actual, now).status == Ok
    requires id in f.receipts && !Terminal(f.receipts[id])
    ensures ValidEntry(cfg, id, payload) && ValidSettlement(actual) && f.version == V2
    ensures 0 < now && t == LogicalTime(f, now)
    ensures q == Settle(f.receipts[id], actual, payload, Complete) && q.id == id && ProjectionFits(f, q, t)
    ensures id in f.pending && id !in f.ready
    ensures CompleteQuota(f, cfg, id, payload, actual, now).core
         == Project(f, q, t).(ready := f.ready[id := payload], leases := f.leases - {id}, pending := f.pending - {id})
  {
    hide FoldsFit, ExpiryOk, LeasesOk, EventsOk, SwitchOk, ProjectionFits, ValidKey, WellFormed, Project;
    assert ReceiptOk(f, cfg, id);
    t := LogicalTime(f, now);
    q := Settle(f.receipts[id], actual, payload, Complete);
    assert Project(f, q, t).ready == f.ready && Project(f, q, t).pending == f.pending
        && Project(f, q, t).leases == f.leases by { ProjectFrame(f, q, t); }
  }

  lemma ProjectFrame(f: Core, q: Receipt, t: int)
    ensures Project(f, q, t).ready == f.ready && Project(f, q, t).pending == f.pending
    ensures Project(f, q, t).leases == f.leases && Project(f, q, t).events == f.events
  {}

  lemma SettleMode(f: Core, cfg: Config, q: Receipt, t: int)
    requires ModeOk(f, cfg) && f.version == V2 && q.id in f.receipts && f.clock <= t
    requires ValidKey(q.id) && (q.bound.revision == "" || ValidKey(q.bound.revision))
    ensures ModeOk(Project(f, q, t), cfg)
  {
    hide ValidKey, ChargeKeys;
    var g := Project(f, q, t);
    assert g.receipts.Keys == f.receipts.Keys;
  }

  lemma CompleteQuotaKeeps(f: Core, cfg: Config, id: Id, payload: Payload, actual: Settlement, now: int)
    requires Inv(f, cfg)
    ensures Inv(CompleteQuota(f, cfg, id, payload, actual, now).core, cfg)
  {
    var g := CompleteQuota(f, cfg, id, payload, actual, now).core;
    if CompleteQuota(f, cfg, id, payload, actual, now).status == Ok && id in f.receipts && !Terminal(f.receipts[id]) {
      SettleKeeps(f, cfg, id, payload, actual, now, g);
    } else {
      hide Inv, ProjectionFits, Project;
      assert g == f;
    }
  }

  lemma SettleKeeps(f: Core, cfg: Config, id: Id, payload: Payload, actual: Settlement, now: int, g: Core)
    requires Inv(f, cfg)
    requires CompleteQuota(f, cfg, id, payload, actual, now) == Outcome(Ok, g)
    requires id in f.receipts && !Terminal(f.receipts[id])
    ensures Inv(g, cfg)
  {
    hide FoldsFit, ExpiryOk, ProjectionFits, ValidKey, ValidAccounts, ChargeKeys, CompleteQuota, ReceiptsOk, ModeOk;
    var t, q := CompleteQuotaParts(f, cfg, id, payload, actual, now);
    SettleFits(f, g, cfg, q, t);
    SettleExpiry(f, g, q, t);
    SettleReceipts(f, g, cfg, q, payload, t);
    BoundRevision(f, cfg, id);
    SettleMode(f, cfg, q, t);
    ModeOkFacts(Project(f, q, t), g, cfg);
    SettleSwitch(f, g, q, t);
  }

  lemma BoundRevision(f: Core, cfg: Config, id: Id)
    requires ReceiptsOk(f, cfg) && id in f.receipts
    ensures ValidKey(id) && (f.receipts[id].bound.revision == "" || ValidKey(f.receipts[id].bound.revision))
  {
    assert ReceiptOk(f, cfg, id);
  }

  lemma ModeOkFacts(f: Core, g: Core, cfg: Config)
    requires ModeOk(f, cfg) && SameQuota(f, g) && g.clock == f.clock
    ensures ModeOk(g, cfg)
  {}

  lemma SettleSwitch(f: Core, g: Core, q: Receipt, t: int)
    requires SwitchOk(f) && g.events == f.events && EventsOk(f.events, f.clock)
    requires f.clock <= t == g.clock && g.version == f.version && g.coverage == f.coverage
    requires q.id in f.receipts && q.admittedAt == f.receipts[q.id].admittedAt && g.receipts == f.receipts[q.id := q]
    ensures SwitchOk(g)
  {}
}
