/** What every operation of the journal keeps, crashes included. */
module LedgerInvariant {
  import opened Wrappers
  import opened Decimals
  import opened LedgerTypes
  import opened Totals
  import opened Ledger

  // ---------- the invariant ----------

  predicate FactsOk(cfg: Config, pending: map<Id, Payload>, ready: map<Id, Payload>)
  {
    && pending.Keys !! ready.Keys
    && (forall id :: id in pending ==> ValidEntry(cfg, id, pending[id]))
    && (forall id :: id in ready ==> ValidEntry(cfg, id, ready[id]))
  }

  predicate DistinctAccounts(s: seq<Account>)
  {
    forall i, j :: 0 <= i < j < |s| ==> s[i] != s[j]
  }

  predicate LeasesOk(pending: map<Id, Payload>, leases: map<Id, seq<Account>>)
  {
    leases.Keys <= pending.Keys && forall id :: id in leases ==> DistinctAccounts(leases[id])
  }

  predicate EventsOk(events: set<Event>, clock: int)
  {
    && |events| <= LIMIT_HISTORY_CAPACITY
    && forall e :: e in events ==> ValidKey(e.account) && 0 < e.at <= clock
  }

  predicate ModeOk(f: Core, cfg: Config)
  {
    if f.version == V1 then
      f.receipts == map[] && f.expiry == {} && f.births == map[] && f.invalid == map[]
    else
      && MetadataStatus(f, cfg) == Ok
      && f.coverage <= f.clock
      && |f.receipts| <= cfg.quotaCapacity
      && (forall a :: a in f.births ==> ValidKey(a) && 0 <= f.births[a] <= f.clock)
      && (forall v :: v in f.invalid ==> ValidKey(v) && ValidKey(f.invalid[v]))
  }

  predicate ValidAccounts(accounts: seq<QuotaAccount>)
  {
    && 1 <= |accounts| <= MAX_ACCOUNTS
    && (forall i :: 0 <= i < |accounts| ==> ValidKey(accounts[i].account) && ValidKey(accounts[i].revision))
    && forall i, j :: 0 <= i < j < |accounts| ==> accounts[i].account != accounts[j].account
  }

  /** What readQuotaReceipt accepts. */
  predicate WellFormed(r: Receipt)
  {
    && ValidKey(r.id)
    && 0 < r.admittedAt <= MAX_INT64 - SEVEN_DAYS
    && 0 <= r.monthStart
    && r.admittedAt < r.monthEnd
    && ValidAccounts(r.accounts)
    && ValidBound(r.bound) && ValidSettlement(r.actual) && ValidSettlement(r.recovery)
    && RecoveryStatus(r.bound, r.recovery) == Ok
    && (r.state == Active ==> r.digest == None && r.actual.tokens == None && r.actual.money == None)
    && (r.state != Active ==> r.recovery == NO_SETTLEMENT && r.digest.Some?)
  }

  /** How a stored receipt agrees with the clock, the calendar and the queued facts. */
  predicate ReceiptOk(f: Core, cfg: Config, id: Id)
    requires id in f.receipts
  {
    var r := f.receipts[id];
    && r.id == id
    && WellFormed(r)
    && f.coverage <= r.admittedAt <= f.clock
    && QuotaMonth(cfg, f.zone, r.admittedAt) == Some((r.monthStart, r.monthEnd))
    && Names(r) <= f.births.Keys
    && r.overrun == (Terminal(r) && Overran(r.bound, r.actual))
    && (r.overrun && r.bound.revision != "" ==> r.bound.revision in f.invalid)
    && (if Terminal(r) then id !in f.pending && (id in f.ready ==> r.digest == Some(Digest(r.actual, f.ready[id])))
        else id in f.pending)
  }

  predicate ReceiptsOk(f: Core, cfg: Config)
  {
    forall id :: id in f.receipts ==> ReceiptOk(f, cfg, id)
  }

  predicate KeySound(rs: map<Id, Receipt>, k: ExpiryKey)
  {
    && k.id in rs
    && Terminal(rs[k.id])
    && match k
       case Charge(at, a, w, id) => a in Names(rs[id]) && w in Windows(rs[id]) && at == WindowEnd(rs[id], w)
       case Retire(at, id) => at == Latest(rs[id])
  }

  predicate KeysComplete(f: Core, id: Id)
    requires id in f.receipts
  {
    var r := f.receipts[id];
    Terminal(r) ==>
      && Retire(Latest(r), id) in f.expiry
      && forall a, w :: a in Names(r) && w in Windows(r) && WindowEnd(r, w) > f.clock ==>
           Charge(WindowEnd(r, w), a, w, id) in f.expiry
  }

  /** The expiry index holds only keys of settled receipts, and no open window is missing. */
  predicate ExpiryOk(f: Core)
  {
    && (forall k :: k in f.expiry ==> KeySound(f.receipts, k))
    && (forall id :: id in f.receipts ==> KeysComplete(f, id))
  }

  /** An event at the current instant after the switch to quotas belongs to a retained receipt. */
  predicate SwitchOk(f: Core)
  {
    f.version == V2 ==>
      forall e :: e in f.events && e.at == f.clock && f.coverage < e.at ==>
        e.id in f.receipts && f.receipts[e.id].admittedAt == e.at
  }

  ghost predicate Inv(f: Core, cfg: Config)
  {
    && 0 <= f.clock
    && FactsOk(cfg, f.pending, f.ready)
    && LeasesOk(f.pending, f.leases)
    && EventsOk(f.events, f.clock)
    && ModeOk(f, cfg)
    && ReceiptsOk(f, cfg)
    && ExpiryOk(f)
    && SwitchOk(f)
    && FoldsFit(f)
  }

  // ---------- sums over receipts ----------

  lemma NonNegative(r: Receipt, d: Dim)
    requires ValidBound(r.bound) && ValidSettlement(r.actual)
    ensures 0 <= Contribution(r, d)
  {}

  ghost predicate Weighable(rs: map<Id, Receipt>)
  {
    forall id :: id in rs ==> ValidBound(rs[id].bound) && ValidSettlement(rs[id].actual)
  }

  lemma SumInsert(rs: map<Id, Receipt>, ids: set<Id>, id: Id, d: Dim)
    requires id !in ids
    ensures WeightSum(rs, ids + {id}, d) == WeightSum(rs, ids, d) + Weight(rs, id, d)
  {
    assert Weights(rs, ids + {id}, d) == Weights(rs, ids, d)[id := Weight(rs, id, d)];
    TotalInsert(Weights(rs, ids, d), id, Weight(rs, id, d));
  }

  lemma SumSame(rs: map<Id, Receipt>, qs: map<Id, Receipt>, ids: set<Id>, d: Dim)
    requires forall id :: id in ids ==> Weight(rs, id, d) == Weight(qs, id, d)
    ensures WeightSum(rs, ids, d) == WeightSum(qs, ids, d)
  {
    assert Weights(rs, ids, d) == Weights(qs, ids, d);
  }

  lemma SumMonotone(rs: map<Id, Receipt>, ids: set<Id>, qs: map<Id, Receipt>, jds: set<Id>, d: Dim)
    requires Weighable(qs)
    requires ids <= jds
    requires forall id :: id in ids ==> Weight(rs, id, d) <= Weight(qs, id, d)
    ensures WeightSum(rs, ids, d) <= WeightSum(qs, jds, d)
  {
    forall id | id in jds ensures 0 <= Weight(qs, id, d) {
      if id in qs { NonNegative(qs[id], d); }
    }
    TotalMonotone(Weights(rs, ids, d), Weights(qs, jds, d));
  }

  lemma SumNonNegative(rs: map<Id, Receipt>, ids: set<Id>, d: Dim)
    requires Weighable(rs)
    ensures 0 <= WeightSum(rs, ids, d)
  {
    SumMonotone(rs, {}, rs, ids, d);
    assert Weights(rs, {}, d) == map[];
  }

  lemma {:induction false} SumUnion(rs: map<Id, Receipt>, ids: set<Id>, jds: set<Id>, d: Dim)
    requires ids !! jds
    ensures WeightSum(rs, ids + jds, d) == WeightSum(rs, ids, d) + WeightSum(rs, jds, d)
    decreases jds
  {
    if jds == {} {
      assert ids + jds == ids;
      assert Weights(rs, {}, d) == map[];
    } else {
      var j :| j in jds;
      SumUnion(rs, ids, jds - {j}, d);
      SumInsert(rs, ids + (jds - {j}), j, d);
      SumInsert(rs, jds - {j}, j, d);
      assert ids + (jds - {j}) + {j} == ids + jds;
      assert jds - {j} + {j} == jds;
    }
  }

  lemma InvWeighable(f: Core, cfg: Config)
    requires ReceiptsOk(f, cfg)
    ensures Weighable(f.receipts)
  {
    forall id | id in f.receipts ensures ValidBound(f.receipts[id].bound) && ValidSettlement(f.receipts[id].actual) {
      assert ReceiptOk(f, cfg, id);
    }
  }

  /** Fewer charges to the same receipts keep every counter in range. */
  lemma FoldsShrink(f: Core, g: Core, cfg: Config)
    requires ReceiptsOk(f, cfg) && FoldsFit(f)
    requires forall a, w :: Charged(g, a, w) <= Charged(f, a, w)
    requires forall a, w, id :: id in Charged(g, a, w) ==>
               forall d :: Weight(g.receipts, id, d) == Weight(f.receipts, id, d)
    ensures FoldsFit(g)
  {
    InvWeighable(f, cfg);
    forall a, w, d | d in {TokensUsed, TokensHeld, TokensUnknown, MoneyUnknown}
      ensures Fold(g, a, w, d) <= MAX_INT64
    {
      SumMonotone(g.receipts, Charged(g, a, w), f.receipts, Charged(f, a, w), d);
      assert Fold(f, a, w, d) <= MAX_INT64;
    }
  }

  lemma WindowsEndByLatest(r: Receipt, w: Window)
    requires w in Windows(r)
    ensures WindowEnd(r, w) <= Latest(r)
  {}

  // ---------- frames ----------

  /** The quota side of the invariant does not look at the facts an operation may add. */
  lemma QuotaFrame(f: Core, g: Core, cfg: Config)
    requires Inv(f, cfg)
    requires g.version == f.version && g.zone == f.zone && g.coverage == f.coverage
    requires g.receipts == f.receipts && g.expiry == f.expiry && g.births == f.births && g.invalid == f.invalid
    requires f.clock <= g.clock
    ensures ModeOk(g, cfg) && ExpiryOk(g) && FoldsFit(g)
  {
    forall id | id in g.receipts ensures KeysComplete(g, id) {
      assert KeysComplete(f, id);
    }
    forall a, w, d | d in {TokensUsed, TokensHeld, TokensUnknown, MoneyUnknown}
      ensures Fold(g, a, w, d) <= MAX_INT64
    {
      assert Charged(g, a, w) == Charged(f, a, w);
      assert Fold(f, a, w, d) <= MAX_INT64;
    }
  }

  lemma PruneLimitsKeeps(f: Core, cfg: Config, t: int)
    requires Inv(f, cfg) && 0 < t && f.clock <= t
    ensures Inv(PruneLimits(f, t), cfg)
  {
    var g := PruneLimits(f, t);
    QuotaFrame(f, g, cfg);
    SubsetCard(g.events, f.events);
    forall id | id in g.receipts ensures ReceiptOk(g, cfg, id) {
      assert ReceiptOk(f, cfg, id);
    }
  }

  lemma ClockKeeps(f: Core, cfg: Config, t: int)
    requires Inv(f, cfg) && 0 < t && f.clock <= t
    ensures Inv(f.(clock := t), cfg)
  {
    var g := f.(clock := t);
    QuotaFrame(f, g, cfg);
    forall id | id in g.receipts ensures ReceiptOk(g, cfg, id) {
      assert ReceiptOk(f, cfg, id);
    }
  }

  // ---------- pruning the quota history ----------

  lemma PrunedReceipt(f: Core, cfg: Config, t: int, id: Id)
    requires Inv(f, cfg) && id in RetiredIds(f, t)
    ensures id in f.receipts && Terminal(f.receipts[id]) && Latest(f.receipts[id]) <= t
    ensures id !in f.pending && id !in f.ready
  {
    var k :| k in f.expiry && k.Retire? && Due(f, t, k) && k.id == id;
    assert KeySound(f.receipts, k);
  }

  /** A kept key's receipt is kept: charges end no later than the receipt retires. */
  lemma KeptKey(f: Core, cfg: Config, t: int, k: ExpiryKey)
    requires Inv(f, cfg) && k in PruneQuota(f, t).expiry
    ensures k.id in f.receipts && k.id !in RetiredIds(f, t)
  {
    assert KeySound(f.receipts, k);
    if k.id in RetiredIds(f, t) {
      PrunedReceipt(f, cfg, t, k.id);
      match k
      case Charge(at, a, w, id) => WindowsEndByLatest(f.receipts[id], w);
      case Retire(at, id) =>
    }
  }

  lemma PruneCharged(f: Core, cfg: Config, t: int, a: Account, w: Window)
    requires Inv(f, cfg) && w != InFlight
    ensures Charged(PruneQuota(f, t), a, w) <= Charged(f, a, w)
    ensures Charged(PruneQuota(f, t), a, w) <= PruneQuota(f, t).receipts.Keys
  {
    var g := PruneQuota(f, t);
    forall id | id in Charged(g, a, w) ensures id in Charged(f, a, w) && id in g.receipts {
      var k :| k in g.expiry && k.Charge? && k.account == a && k.window == w && k.id == id;
      KeptKey(f, cfg, t, k);
    }
  }

  lemma PruneInFlight(f: Core, cfg: Config, t: int, a: Account)
    requires Inv(f, cfg)
    ensures Charged(PruneQuota(f, t), a, InFlight) == Charged(f, a, InFlight)
    ensures Charged(f, a, InFlight) <= PruneQuota(f, t).receipts.Keys
  {
    hide FoldsFit, ReceiptOk, FactsOk, LeasesOk, EventsOk, SwitchOk, ModeOk;
    forall id | id in Charged(f, a, InFlight) ensures id in PruneQuota(f, t).receipts {
      if id in RetiredIds(f, t) { PrunedReceipt(f, cfg, t, id); }
    }
  }

  lemma PruneQuotaExpiry(f: Core, cfg: Config)
    requires Inv(f, cfg)
    ensures ExpiryOk(PruneQuota(f, f.clock))
  {
    var t := f.clock;
    var g := PruneQuota(f, t);
    forall k | k in g.expiry ensures KeySound(g.receipts, k) {
      assert KeySound(f.receipts, k);
      KeptKey(f, cfg, t, k);
    }
    forall id | id in g.receipts ensures KeysComplete(g, id) {
      assert KeysComplete(f, id);
    }
  }

  lemma PruneQuotaFolds(f: Core, cfg: Config, t: int)
    requires Inv(f, cfg)
    ensures FoldsFit(PruneQuota(f, t))
  {
    var g := PruneQuota(f, t);
    forall a, w ensures Charged(g, a, w) <= Charged(f, a, w) && Charged(g, a, w) <= g.receipts.Keys {
      if w == InFlight { PruneInFlight(f, cfg, t, a); } else { PruneCharged(f, cfg, t, a, w); }
    }
    FoldsShrink(f, g, cfg);
  }

  lemma PruneQuotaSwitch(f: Core, cfg: Config)
    requires Inv(f, cfg)
    ensures SwitchOk(PruneQuota(f, f.clock))
  {
    hide FoldsFit, FactsOk, LeasesOk, EventsOk, ExpiryOk;
    var g := PruneQuota(f, f.clock);
    forall e | f.version == V2 && e in g.events && e.at == g.clock && g.coverage < e.at ensures e.id in g.receipts {
      if e.id in RetiredIds(f, f.clock) { PrunedReceipt(f, cfg, f.clock, e.id); }
    }
  }

  lemma PruneQuotaReceipts(f: Core, cfg: Config, t: int)
    requires ReceiptsOk(f, cfg)
    ensures ReceiptsOk(PruneQuota(f, t), cfg)
  {
    hide WellFormed, Due;
    var g := PruneQuota(f, t);
    forall id | id in g.receipts ensures ReceiptOk(g, cfg, id) {
      assert ReceiptOk(f, cfg, id);
    }
  }

  lemma PruneQuotaKeeps(f: Core, cfg: Config)
    requires Inv(f, cfg)
    ensures Inv(PruneQuota(f, f.clock), cfg)
  {
    hide FoldsFit, ExpiryOk, SwitchOk, ReceiptsOk, ValidKey, Due;
    var g := PruneQuota(f, f.clock);
    PruneQuotaExpiry(f, cfg);
    PruneQuotaFolds(f, cfg, f.clock);
    PruneQuotaSwitch(f, cfg);
    PruneQuotaReceipts(f, cfg, f.clock);
    SubsetCard(g.receipts.Keys, f.receipts.Keys);
  }

  // ---------- journals without receipts ----------

  lemma NoReceipts(f: Core, cfg: Config)
    requires Inv(f, cfg) && f.version == V1
    ensures f.receipts == map[] && f.expiry == {}
  {
    hide FoldsFit, ReceiptsOk, ExpiryOk, FactsOk, LeasesOk, EventsOk, SwitchOk;
  }

  /** With no receipts at all every fold is zero. */
  lemma EmptyFolds(f: Core)
    requires f.receipts == map[] && f.expiry == {}
    ensures forall a, w, d :: Fold(f, a, w, d) == 0
  {
    forall a, w, d ensures Fold(f, a, w, d) == 0 {
      assert Charged(f, a, w) == {};
      assert Weights(f.receipts, {}, d) == map[];
    }
  }

  lemma PruneEmpty(f: Core, t: int)
    requires f.receipts == map[] && f.expiry == {}
    ensures PruneQuota(f, t) == f
  {
    assert RetiredIds(f, t) == {};
  }
}
