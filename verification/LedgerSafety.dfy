/** Quota safety over whole runs: an account admitted only under hard ceilings never holds
    more than its ceiling plus the overruns its receipts record. */
module LedgerSafety {
  import opened Wrappers
  import opened Decimals
  import opened LedgerTypes
  import opened Totals
  import opened Ledger
  import opened LedgerInvariant
  import opened LedgerSteps
  import opened LedgerRecovery
  import opened LedgerReceipts
  import opened LedgerRefinement

  /** What a ceiling limits: tokens in one rolling span or in the month, or the month's money. */
  datatype Kind = Rolling(window: Window) | MonthTokens | MonthMoney(currency: string)

  predicate ValidKind(k: Kind) { k.Rolling? ==> k.window in {Minute, FiveHours, SevenDays} }

  /** The windows whose contents a ceiling of this kind limits. */
  predicate InKind(w: Window, k: Kind) { if k.Rolling? then w == k.window else w.Month? }

  function CappedDim(k: Kind): (d: Dim)
  {
    match k case MonthMoney(c) => CappedMoney(c) case _ => CappedTokens
  }

  function UsedDim(k: Kind): (d: Dim)
  {
    match k case MonthMoney(c) => MoneyUsed(c) case _ => TokensUsed
  }

  function HeldDim(k: Kind): (d: Dim)
  {
    match k case MonthMoney(c) => MoneyHeld(c) case _ => TokensHeld
  }

  function ExcessDim(k: Kind): (d: Dim)
  {
    match k case MonthMoney(c) => ExcessMoney(c) case _ => ExcessTokens
  }

  /** The hard ceiling of a policy, if it has one of this kind. */
  function HardCeiling(p: Policy, k: Kind): (c: Option<int>)
  {
    match k
    case Rolling(w) =>
      var o := if w == Minute then p.tpm else if w == FiveHours then p.tokens5H else p.tokens7D;
      if o.Some? then Some(o.value) else None
    case MonthTokens =>
      if p.tokensMonth.Some? && p.tokensBehavior != AlertOnly then Some(p.tokensMonth.value) else None
    case MonthMoney(c) =>
      if p.moneyMonth.Some? && p.moneyBehavior != AlertOnly && p.currency == c then Some(Units(p.moneyMonth.value))
      else None
  }

  /** If op admits account a, it does so under a hard ceiling of at most limit. */
  ghost predicate AdmitsWithin(f: Core, cfg: Config, op: Op, a: Account, k: Kind, limit: int)
  {
    op.OpReserveWithQuota? && Step(f, cfg, op).status == Ok ==>
      forall i :: 0 <= i < |op.policies| && op.policies[i].limit.account == a ==>
        HardCeiling(op.policies[i], k).Some? && HardCeiling(op.policies[i], k).value <= limit
  }

  /** The amounts up to each receipt's own bound stay within the limit in every window. */
  ghost predicate Guarded(f: Core, a: Account, k: Kind, limit: int)
  {
    forall w :: InKind(w, k) ==> Fold(f, a, w, CappedDim(k)) + Fold(f, a, InFlight, CappedDim(k)) <= limit
  }

  // ---------- capped and excess amounts ----------

  lemma PairSum(rs: map<Id, Receipt>, a: Dim, b: Dim, sum: map<Id, int>)
    requires forall id :: id in sum ==> sum[id] == Weight(rs, id, a) + Weight(rs, id, b)
    ensures WeightSum(rs, sum.Keys, a) + WeightSum(rs, sum.Keys, b) == Total(sum)
  {
    hide Weight;
    TotalAdd(Weights(rs, sum.Keys, a), Weights(rs, sum.Keys, b), sum);
  }

  lemma PairSums(rs: map<Id, Receipt>, ids: set<Id>, a: Dim, b: Dim, c: Dim, d: Dim)
    requires forall id :: id in ids ==> Weight(rs, id, a) + Weight(rs, id, b) == Weight(rs, id, c) + Weight(rs, id, d)
    ensures WeightSum(rs, ids, a) + WeightSum(rs, ids, b) == WeightSum(rs, ids, c) + WeightSum(rs, ids, d)
  {
    hide Weight, WeightSum;
    var sum := map id | id in ids :: Weight(rs, id, a) + Weight(rs, id, b);
    assert sum.Keys == ids;
    PairSum(rs, a, b, sum);
    PairSum(rs, c, d, sum);
  }

  lemma ContributionSplits(r: Receipt, k: Kind)
    ensures Contribution(r, UsedDim(k)) + Contribution(r, HeldDim(k))
         == Contribution(r, CappedDim(k)) + Contribution(r, ExcessDim(k))
  {
    hide Units;
  }

  /** Used plus held is what is within the bounds plus what exceeds them. */
  lemma FoldSplits(f: Core, a: Account, w: Window, k: Kind)
    ensures Fold(f, a, w, UsedDim(k)) + Fold(f, a, w, HeldDim(k))
         == Fold(f, a, w, CappedDim(k)) + Fold(f, a, w, ExcessDim(k))
  {
    hide Contribution, Charged;
    forall id ensures Weight(f.receipts, id, UsedDim(k)) + Weight(f.receipts, id, HeldDim(k))
                   == Weight(f.receipts, id, CappedDim(k)) + Weight(f.receipts, id, ExcessDim(k))
    {
      if id in f.receipts { ContributionSplits(f.receipts[id], k); }
    }
    PairSums(f.receipts, Charged(f, a, w), UsedDim(k), HeldDim(k), CappedDim(k), ExcessDim(k));
  }

  lemma FoldNonNegative(f: Core, cfg: Config, a: Account, w: Window, d: Dim)
    requires Inv(f, cfg)
    ensures 0 <= Fold(f, a, w, d)
  {
    hide FoldsFit, ExpiryOk, Charged;
    InvWeighable(f, cfg);
    SumNonNegative(f.receipts, Charged(f, a, w), d);
  }

  /** An active receipt holds its bound, so nothing in flight exceeds a bound. */
  lemma InFlightHasNoExcess(f: Core, a: Account, k: Kind)
    ensures Fold(f, a, InFlight, ExcessDim(k)) == 0
  {
    var ids := Charged(f, a, InFlight);
    assert forall id :: id in ids ==> Weight(f.receipts, id, ExcessDim(k)) == 0;
    ZeroSum(f.receipts, ids, ExcessDim(k));
  }

  lemma {:induction false} ZeroSum(rs: map<Id, Receipt>, ids: set<Id>, d: Dim)
    requires forall id :: id in ids ==> Weight(rs, id, d) == 0
    ensures WeightSum(rs, ids, d) == 0
    decreases ids
  {
    if ids == {} {
      assert Weights(rs, {}, d) == map[];
    } else {
      var id :| id in ids;
      ZeroSum(rs, ids - {id}, d);
      SumInsert(rs, ids - {id}, id, d);
      assert ids - {id} + {id} == ids;
    }
  }

  /** Excess is recorded: only a receipt flagged as overrun, whose bound revision is then
      barred, has any, given that its bound was proven. */
  lemma ExcessIsRecorded(f: Core, cfg: Config, id: Id, d: Dim)
    requires Inv(f, cfg) && id in f.receipts && (d.ExcessTokens? || d.ExcessMoney?)
    requires if d.ExcessTokens? then f.receipts[id].bound.tokens.Some?
             else f.receipts[id].bound.money.Some? && MoneyCurrency(f.receipts[id]) == f.receipts[id].bound.currency
    requires Contribution(f.receipts[id], d) > 0
    ensures f.receipts[id].overrun && Terminal(f.receipts[id])
    ensures f.receipts[id].bound.revision != "" ==> f.receipts[id].bound.revision in f.invalid
  {
    hide FoldsFit, ExpiryOk, ValidKey, FactsOk, LeasesOk, EventsOk, SwitchOk, ModeOk, ValidAccounts, Names;
    assert ReceiptOk(f, cfg, id);
  }

  // ---------- steps ----------

  lemma GuardedShrinks(f: Core, g: Core, cfg: Config, a: Account, k: Kind, limit: int)
    requires ReceiptsOk(f, cfg) && Guarded(f, a, k, limit)
    requires forall w :: Charged(g, a, w) <= Charged(f, a, w)
    requires forall w, id :: id in Charged(g, a, w) ==>
               Weight(g.receipts, id, CappedDim(k)) == Weight(f.receipts, id, CappedDim(k))
    ensures Guarded(g, a, k, limit)
  {
    hide ReceiptOk, CappedDim, Contribution;
    InvWeighable(f, cfg);
    var d := CappedDim(k);
    SumMonotone(g.receipts, Charged(g, a, InFlight), f.receipts, Charged(f, a, InFlight), d);
    forall w | InKind(w, k) ensures Fold(g, a, w, d) + Fold(g, a, InFlight, d) <= limit {
      SumMonotone(g.receipts, Charged(g, a, w), f.receipts, Charged(f, a, w), d);
    }
  }

  lemma GuardedFrame(f: Core, g: Core, a: Account, k: Kind, limit: int)
    requires Guarded(f, a, k, limit) && g.receipts == f.receipts && g.expiry == f.expiry
    ensures Guarded(g, a, k, limit)
  {
    assert forall w :: Charged(g, a, w) == Charged(f, a, w);
    assert forall w :: Fold(g, a, w, CappedDim(k)) == Fold(f, a, w, CappedDim(k));
  }

  lemma GuardedPrune(f: Core, cfg: Config, t: int, a: Account, k: Kind, limit: int)
    requires Inv(f, cfg) && Guarded(f, a, k, limit)
    ensures Guarded(PruneQuota(f, t), a, k, limit)
  {
    hide Inv, Guarded, Charged;
    var g := PruneQuota(f, t);
    forall w ensures Charged(g, a, w) <= Charged(f, a, w) && Charged(g, a, w) <= g.receipts.Keys {
      if w == InFlight { PruneInFlight(f, cfg, t, a); } else { PruneCharged(f, cfg, t, a, w); }
    }
    assert ReceiptsOk(f, cfg) by { InvReceipts(f, cfg); }
    GuardedShrinks(f, g, cfg, a, k, limit);
  }

  lemma InvReceipts(f: Core, cfg: Config)
    requires Inv(f, cfg)
    ensures ReceiptsOk(f, cfg) && ExpiryOk(f)
  {}

  /** After a prune, the only month still charged is the current one. */
  lemma ChargedMonth(h: Core, cfg: Config, a: Account, start: int, id: Id)
    requires Inv(h, cfg) && NoStale(h) && CalendarOk(cfg) && QuotaMonth(cfg, h.zone, h.clock).Some?
    ensures id in Charged(h, a, Month(start)) ==> start == QuotaMonth(cfg, h.zone, h.clock).value.0
  {
    hide FoldsFit, FactsOk, LeasesOk, EventsOk, ModeOk, SwitchOk, WellFormed, Names, QuotaMonth;
    if id in Charged(h, a, Month(start)) {
      var k :| k in h.expiry && k.Charge? && k.account == a && k.window == Month(start) && k.id == id;
      assert KeySound(h.receipts, k);
      assert ReceiptOk(h, cfg, id);
    }
  }

  lemma OtherMonthsEmpty(h: Core, cfg: Config, a: Account, start: int)
    requires Inv(h, cfg) && NoStale(h) && CalendarOk(cfg)
    requires QuotaMonth(cfg, h.zone, h.clock).Some? && QuotaMonth(cfg, h.zone, h.clock).value.0 != start
    ensures Charged(h, a, Month(start)) == {}
  {
    hide Inv, NoStale, CalendarOk, QuotaMonth, Charged;
    forall id ensures id !in Charged(h, a, Month(start)) {
      ChargedMonth(h, cfg, a, start, id);
    }
  }

  /** A passed token check bounds what the window holds together with the new reservation. */
  lemma TokenRoom(h: Core, p: Policy, b: Bound, coverage: int, t: int, start: int, i: nat)
    requires i < 4 && PolicyStatus(h, p, b, coverage, t, start) == Ok
    requires TokenWindows(p, t, start)[i].ceiling.Some? && !SoftTokens(p, TokenWindows(p, t, start)[i].window)
    ensures b.tokens.Some?
    ensures TokenLoad(h, p.limit.account, TokenWindows(p, t, start)[i].window) + b.tokens.value
            <= TokenWindows(p, t, start)[i].ceiling.value
  {
    hide MoneyStatus, RevisionStatus, TokenLoad;
    TokensAllOk(h, p, b, coverage, TokenWindows(p, t, start), 0);
    assert TokenStatus(h, p, b, coverage, TokenWindows(p, t, start)[i]) == Ok;
  }

  lemma {:induction false} TokensAllOk(f: Core, p: Policy, b: Bound, coverage: int, tws: seq<TokenWindow>, i: nat)
    requires i <= |tws| && TokensStatus(f, p, b, coverage, tws, i) == Ok
    ensures forall j :: i <= j < |tws| ==> TokenStatus(f, p, b, coverage, tws[j]) == Ok
    decreases |tws| - i
  {
    if i < |tws| { TokensAllOk(f, p, b, coverage, tws, i + 1); }
  }

  function AdmissionWindow(k: Kind, start: int): (w: Window)
  {
    if k.Rolling? then k.window else Month(start)
  }

  /** Every hard ceiling of an admitted policy covers the load of its window and the bound. */
  lemma CeilingRoom(h: Core, cfg: Config, p: Policy, r: Receipt, coverage: int, k: Kind)
    requires Inv(h, cfg) && ValidKind(k) && r.state == Active
    requires PolicyStatus(h, p, r.bound, coverage, r.admittedAt, r.monthStart) == Ok
    requires HardCeiling(p, k).Some?
    ensures var a, w := p.limit.account, AdmissionWindow(k, r.monthStart);
            Fold(h, a, w, CappedDim(k)) + Fold(h, a, InFlight, CappedDim(k)) + Contribution(r, CappedDim(k))
            <= HardCeiling(p, k).value
  {
    hide Inv, IdentityStatus, RevisionStatus, TokensStatus, MoneyStatus, Fold;
    var a, w := p.limit.account, AdmissionWindow(k, r.monthStart);
    FoldSplits(h, a, w, k);
    FoldSplits(h, a, InFlight, k);
    FoldNonNegative(h, cfg, a, w, ExcessDim(k));
    FoldNonNegative(h, cfg, a, InFlight, ExcessDim(k));
    match k
    case Rolling(_) =>
      TokenRoom(h, p, r.bound, coverage, r.admittedAt, r.monthStart,
                if k.window == Minute then 0 else if k.window == FiveHours then 1 else 2);
    case MonthTokens => TokenRoom(h, p, r.bound, coverage, r.admittedAt, r.monthStart, 3);
    case MonthMoney(c) => MoneyRoom(h, p, r.bound, coverage, r.admittedAt, r.monthStart);
  }

  lemma MoneyRoom(h: Core, p: Policy, b: Bound, coverage: int, t: int, start: int)
    requires PolicyStatus(h, p, b, coverage, t, start) == Ok
    requires p.moneyMonth.Some? && p.moneyBehavior != AlertOnly
    ensures b.money.Some? && b.currency == p.currency
    ensures MoneyLoad(h, p.limit.account, Month(start), p.currency) + Units(b.money.value)
            <= Units(p.moneyMonth.value)
  {
    hide TokensStatus, RevisionStatus, MoneyLoad, IdentityStatus;
  }

  lemma ReserveGuarded(f: Core, cfg: Config, op: Op, a: Account, k: Kind, limit: int)
    requires Inv(f, cfg) && Guarded(f, a, k, limit) && ValidKind(k)
    requires op.OpReserveWithQuota? && AdmitsWithin(f, cfg, op, a, k, limit)
    requires k.Rolling? || CalendarOk(cfg)
    ensures Guarded(Step(f, cfg, op).core, a, k, limit)
  {
    hide Inv, Guarded, CheckQuotaAdmission, ApplyAdmission, Establish, PoliciesStatus, LimitsStatus, PruneQuota;
    hide CalendarOk, InFlightFits, QuotaMonth, HardCeiling;
    if Step(f, cfg, op).status == Ok {
      var h, r := ReserveQuotaParts(f, cfg, op.id, op.payload, op.policies, op.bound, op.recovery, op.now);
      CheckedCore(f, cfg, op.id, op.policies, op.bound, "", op.now, h, r);
      CheckedFields(f, cfg, op.id, op.policies, op.bound, "", op.now, h, r);
      var t := LogicalTime(f, op.now);
      CheckedGuarded(f, cfg, t, a, k, limit);
      PoliciesAllOk(h, op.policies, op.bound, f.coverage, t, r.monthStart, 0);
      AdmissionFrame(f, cfg, h, op, r);
      InsertGuarded(h, cfg, Step(f, cfg, op).core, op.policies, r, r.(recovery := op.recovery), f.coverage, a, k, limit);
    }
  }

  lemma CheckedGuarded(f: Core, cfg: Config, t: int, a: Account, k: Kind, limit: int)
    requires Inv(f, cfg) && Guarded(f, a, k, limit) && 0 < t && f.clock <= t
    ensures Guarded(PruneQuota(PruneLimits(f, t), t), a, k, limit)
    ensures NoStale(PruneQuota(PruneLimits(f, t), t))
  {
    hide Inv, Guarded;
    PruneLimitsKeeps(f, cfg, t);
    GuardedFrame(f, PruneLimits(f, t), a, k, limit);
    GuardedPrune(PruneLimits(f, t), cfg, t, a, k, limit);
  }

  lemma AdmissionFrame(f: Core, cfg: Config, h: Core, op: Op, r: Receipt)
    requires op.OpReserveWithQuota? && h == PruneQuota(PruneLimits(f, r.admittedAt), r.admittedAt)
    requires r.id == op.id && r.id !in f.receipts
    requires Step(f, cfg, op).core
          == ApplyAdmission(h, op.id, op.payload, r.admittedAt, LimitAccounts(PolicyLimits(op.policies)))
             .(births := Establish(h.births, op.policies, |op.policies|),
               receipts := h.receipts[op.id := r.(recovery := op.recovery)])
    ensures r.id !in h.receipts && h.clock == r.admittedAt && h.zone == f.zone
    ensures Step(f, cfg, op).core.receipts == h.receipts[r.id := r.(recovery := op.recovery)]
    ensures Step(f, cfg, op).core.expiry == h.expiry
  {
    hide Step, Establish, NewEvents, Due, LiveEvents;
  }

  lemma InsertGuarded(h: Core, cfg: Config, g: Core, ps: seq<Policy>, r: Receipt, q: Receipt, coverage: int,
                      a: Account, k: Kind, limit: int)
    requires Inv(h, cfg) && Guarded(h, a, k, limit) && NoStale(h) && ValidKind(k)
    requires r.state == Active && r.id !in h.receipts && r.admittedAt == h.clock && r.accounts == PolicyAccounts(ps)
    requires q == r.(recovery := q.recovery)
    requires g.receipts == h.receipts[r.id := q] && g.expiry == h.expiry
    requires QuotaMonth(cfg, h.zone, h.clock) == Some((r.monthStart, r.monthEnd))
    requires forall i :: 0 <= i < |ps| ==> PolicyStatus(h, ps[i], r.bound, coverage, r.admittedAt, r.monthStart) == Ok
    requires forall i :: 0 <= i < |ps| && ps[i].limit.account == a ==>
               HardCeiling(ps[i], k).Some? && HardCeiling(ps[i], k).value <= limit
    requires k.Rolling? || CalendarOk(cfg)
    ensures Guarded(g, a, k, limit)
  {
    hide Inv, CalendarOk, NoStale, PolicyStatus, HardCeiling, QuotaMonth, Fold, Contribution, PolicyAccounts, Names;
    InvReceipts(h, cfg);
    var d := CappedDim(k);
    assert SameContribution(q, r, d) by { RecoveryNotCounted(r, q.recovery, d); }
    InsertFold(h, g, q, a, InFlight, d);
    forall w | InKind(w, k) ensures Fold(g, a, w, d) + Fold(g, a, InFlight, d) <= limit {
      InsertFold(h, g, q, a, w, d);
      if a in Names(q) {
        NamedPolicy(q, ps, a);
        var i :| 0 <= i < |ps| && ps[i].limit.account == a;
        CeilingRoom(h, cfg, ps[i], r, coverage, k);
        if w != AdmissionWindow(k, r.monthStart) {
          OtherMonthsEmpty(h, cfg, a, w.start);
          EmptyFold(h, a, w, d);
          FoldNonNegative(h, cfg, a, AdmissionWindow(k, r.monthStart), d);
        }
      }
    }
  }

  predicate SameContribution(r: Receipt, q: Receipt, d: Dim) { Contribution(r, d) == Contribution(q, d) }

  lemma RecoveryNotCounted(r: Receipt, recovery: Settlement, d: Dim)
    requires r.state == Active
    ensures SameContribution(r.(recovery := recovery), r, d)
  {}

  lemma NamedPolicy(r: Receipt, ps: seq<Policy>, a: Account)
    requires r.accounts == PolicyAccounts(ps) && a in Names(r)
    ensures exists i :: 0 <= i < |ps| && ps[i].limit.account == a
  {
    NamesOfPolicies(r, ps);
  }

  lemma EmptyFold(f: Core, a: Account, w: Window, d: Dim)
    requires Charged(f, a, w) == {}
    ensures Fold(f, a, w, d) == 0
  {
    assert Weights(f.receipts, {}, d) == map[];
  }

  /** Settling moves at most the bound from flight into a window. */
  lemma SettleGuarded(f: Core, g: Core, cfg: Config, q: Receipt, t: int, a: Account, k: Kind, limit: int)
    requires Inv(f, cfg) && Guarded(f, a, k, limit)
    requires q.id in f.receipts && f.receipts[q.id].state == Active && Terminal(q) && Projected(f, g, q, t)
    requires q.bound == f.receipts[q.id].bound && ValidSettlement(q.actual)
    ensures Guarded(g, a, k, limit)
  {
    hide Inv, Fold, Projected, Contribution, Names, Windows;
    InvReceipts(f, cfg);
    var d := CappedDim(k);
    CappedByBound(f, cfg, q.id, q, k);
    SettleFold(f, g, q, t, a, InFlight, d);
    forall w | InKind(w, k) ensures Fold(g, a, w, d) + Fold(g, a, InFlight, d) <= limit {
      SettleFold(f, g, q, t, a, w, d);
    }
  }

  lemma CappedByBound(f: Core, cfg: Config, id: Id, q: Receipt, k: Kind)
    requires ReceiptsOk(f, cfg) && id in f.receipts && f.receipts[id].state == Active
    requires Terminal(q) && q.bound == f.receipts[id].bound && ValidSettlement(q.actual)
    ensures 0 <= Contribution(q, CappedDim(k)) <= Contribution(f.receipts[id], CappedDim(k))
  {
    assert ReceiptOk(f, cfg, id);
  }

  lemma CompleteGuarded(f: Core, cfg: Config, op: Op, a: Account, k: Kind, limit: int)
    requires Inv(f, cfg) && Guarded(f, a, k, limit) && op.OpCompleteQuota?
    ensures Guarded(Step(f, cfg, op).core, a, k, limit)
  {
    hide Inv, Guarded, ProjectionFits, ChargeKeys;
    var g := Step(f, cfg, op).core;
    if Step(f, cfg, op).status == Ok && op.id in f.receipts && !Terminal(f.receipts[op.id]) {
      var t, q := CompleteQuotaParts(f, cfg, op.id, op.payload, op.actual, op.now);
      SettleGuarded(f, g, cfg, q, t, a, k, limit);
    } else {
      hide Project;
      assert g == f;
    }
  }

  /** Recovery settles everything in flight at once. */
  lemma OpenGuarded(f: Core, cfg: Config, a: Account, k: Kind, limit: int)
    requires Inv(f, cfg) && Guarded(f, a, k, limit) && ValidKind(k)
    ensures Guarded(Open(f).core, a, k, limit)
  {
    hide Inv, Guarded, FoldsFit, Rebuild, PruneQuota;
    if f.version == V1 {
      GuardedFrame(f, Open(f).core, a, k, limit);
    } else if FoldsFit(Rebuild(f)) {
      RebuildGuarded(f, cfg, a, k, limit);
      GuardedFrame(Rebuild(f), ReplayPending(Rebuild(f)), a, k, limit);
      OpenQuotaKeeps(f, cfg);
      GuardedPrune(ReplayPending(Rebuild(f)), cfg, f.clock, a, k, limit);
    }
  }

  lemma RebuildGuarded(f: Core, cfg: Config, a: Account, k: Kind, limit: int)
    requires Inv(f, cfg) && Guarded(f, a, k, limit) && ValidKind(k)
    ensures Guarded(Rebuild(f), a, k, limit)
  {
    hide Inv, Rebuild, Fold, Charged;
    var d := CappedDim(k);
    RebuiltInFlight(f, cfg, a);
    EmptyFold(Rebuild(f), a, InFlight, d);
    forall w | InKind(w, k) ensures Fold(Rebuild(f), a, w, d) + Fold(Rebuild(f), a, InFlight, d) <= limit {
      KindNotInFlight(w, k);
      RebuiltCappedFold(f, cfg, a, w, k);
    }
  }

  lemma KindNotInFlight(w: Window, k: Kind)
    requires InKind(w, k) && ValidKind(k)
    ensures w != InFlight
  {}

  lemma RebuiltCappedFold(f: Core, cfg: Config, a: Account, w: Window, k: Kind)
    requires Inv(f, cfg) && w != InFlight
    ensures Fold(Rebuild(f), a, w, CappedDim(k)) <= Fold(f, a, w, CappedDim(k)) + Fold(f, a, InFlight, CappedDim(k))
  {
    hide Inv, Rebuild, Charged, Names, Windows, Weight, CappedDim;
    var d := CappedDim(k);
    var ids, jds := Charged(f, a, w), Charged(f, a, InFlight);
    RebuiltSources(f, cfg, a, w);
    SumUnion(f.receipts, ids, jds, d);
    assert Weighable(f.receipts) by { InvReceipts(f, cfg); InvWeighable(f, cfg); }
    forall id | id in Charged(Rebuild(f), a, w)
      ensures Weight(Rebuild(f).receipts, id, d) <= Weight(f.receipts, id, d)
    {
      InterruptCapped(f, cfg, id, k);
    }
    SumMonotone(Rebuild(f).receipts, Charged(Rebuild(f), a, w), f.receipts, ids + jds, d);
  }

  lemma InterruptCapped(f: Core, cfg: Config, id: Id, k: Kind)
    requires Inv(f, cfg) && id in f.receipts
    ensures Weight(Rebuild(f).receipts, id, CappedDim(k)) <= Weight(f.receipts, id, CappedDim(k))
  {
    hide Inv, RebuiltExpiry;
    if !Terminal(f.receipts[id]) {
      InvReceipts(f, cfg);
      assert ReceiptOk(f, cfg, id);
      InterruptedReceipt(f, cfg, id);
      CappedByBound(f, cfg, id, Interrupt(f.receipts[id], f.pending), k);
    }
  }

  /** Recovery charges a window only with what it held or what was in flight. */
  lemma RebuiltSources(f: Core, cfg: Config, a: Account, w: Window)
    requires Inv(f, cfg) && w != InFlight
    ensures Charged(Rebuild(f), a, w) <= Charged(f, a, w) + Charged(f, a, InFlight)
    ensures Charged(Rebuild(f), a, w) <= f.receipts.Keys
    ensures Charged(f, a, w) !! Charged(f, a, InFlight)
  {
    hide Inv, Names, Windows, WindowEnd, Rebuild;
    InvReceipts(f, cfg);
    forall id | id in Charged(Rebuild(f), a, w)
      ensures id in f.receipts && (id in Charged(f, a, w) || id in Charged(f, a, InFlight))
    {
      RebuiltCharged(f, a, w, id);
      ChargedOpen(f, cfg, a, w, id);
      InterruptedReceipt(f, cfg, id);
      SameWindows(Interrupt(f.receipts[id], f.pending), f.receipts[id]);
    }
    forall id | id in Charged(f, a, w) ensures id !in Charged(f, a, InFlight) {
      ChargedTerminal(f, a, w, id);
    }
  }

  lemma OtherStepsGuarded(f: Core, cfg: Config, op: Op, a: Account, k: Kind, limit: int)
    requires Inv(f, cfg) && Guarded(f, a, k, limit) && 0 <= limit
    requires !op.OpReserveWithQuota? && !op.OpCompleteQuota? && !op.OpOpen?
    ensures Guarded(Step(f, cfg, op).core, a, k, limit)
  {
    hide Inv, Guarded, Step;
    match op
    case OpEnableQuota(_, _) => EnableGuarded(f, cfg, op, a, k, limit);
    case OpPreflight(_, _, _, _, _) => PreflightGuarded(f, cfg, op, a, k, limit);
    case OpUpdatePendingQuota(_, _, _) => UpdateGuarded(f, cfg, op, a, k, limit);
    case OpObserveQuota(_, _) => ObserveStepGuarded(f, cfg, op, a, k, limit);
    case OpReserveWithLimits(_, _, _, _) => LimitGuarded(f, cfg, op, a, k, limit);
    case _ => PlainGuarded(f, cfg, op, a, k, limit);
  }

  lemma EnableGuarded(f: Core, cfg: Config, op: Op, a: Account, k: Kind, limit: int)
    requires Guarded(f, a, k, limit) && 0 <= limit && op.OpEnableQuota?
    ensures Guarded(Step(f, cfg, op).core, a, k, limit)
  {
    hide Guarded;
    if Step(f, cfg, op).core != f { EmptyGuarded(Step(f, cfg, op).core, a, k, limit); }
  }

  lemma ObserveStepGuarded(f: Core, cfg: Config, op: Op, a: Account, k: Kind, limit: int)
    requires Inv(f, cfg) && Guarded(f, a, k, limit) && op.OpObserveQuota?
    ensures Guarded(Step(f, cfg, op).core, a, k, limit)
  {
    hide Inv, Guarded, PruneQuota, QuotaMonth, ValidKey;
    if Step(f, cfg, op).status == Ok {
      ClockNotNegative(f, cfg);
      ObserveGuarded(f, cfg, LogicalTime(f, op.now), a, k, limit);
    }
  }

  lemma PlainGuarded(f: Core, cfg: Config, op: Op, a: Account, k: Kind, limit: int)
    requires Guarded(f, a, k, limit)
    requires op.OpReserve? || op.OpUpdatePending? || op.OpComplete? || op.OpAck? || op.OpObserveLimits?
    ensures Guarded(Step(f, cfg, op).core, a, k, limit)
  {
    hide Guarded, ValidEntry, ValidKey, LiveEvents;
    GuardedFrame(f, Step(f, cfg, op).core, a, k, limit);
  }

  lemma ObserveGuarded(f: Core, cfg: Config, t: int, a: Account, k: Kind, limit: int)
    requires Inv(f, cfg) && Guarded(f, a, k, limit) && 0 < t && f.clock <= t
    ensures Guarded(PruneQuota(f.(clock := t), t), a, k, limit)
  {
    hide Inv, Guarded;
    ClockKeeps(f, cfg, t);
    GuardedFrame(f, f.(clock := t), a, k, limit);
    GuardedPrune(f.(clock := t), cfg, t, a, k, limit);
  }

  lemma LimitGuarded(f: Core, cfg: Config, op: Op, a: Account, k: Kind, limit: int)
    requires Guarded(f, a, k, limit) && op.OpReserveWithLimits?
    ensures Guarded(Step(f, cfg, op).core, a, k, limit)
  {
    hide Guarded, LimitsStatus, LiveEvents, NewEvents, ValidEntry, LimitAccounts;
    GuardedFrame(f, Step(f, cfg, op).core, a, k, limit);
  }

  lemma EmptyGuarded(g: Core, a: Account, k: Kind, limit: int)
    requires g.receipts == map[] && g.expiry == {} && 0 <= limit
    ensures Guarded(g, a, k, limit)
  {
    forall w ensures Fold(g, a, w, CappedDim(k)) == 0 {
      assert Charged(g, a, w) == {};
      EmptyFold(g, a, w, CappedDim(k));
    }
  }

  lemma PreflightGuarded(f: Core, cfg: Config, op: Op, a: Account, k: Kind, limit: int)
    requires Inv(f, cfg) && Guarded(f, a, k, limit) && op.OpPreflight?
    ensures Guarded(Step(f, cfg, op).core, a, k, limit)
  {
    hide Inv, Guarded, CheckQuotaAdmission, PruneQuota;
    var c := CheckQuotaAdmission(f, cfg, op.id, op.policies, op.bound, op.zone, op.now);
    if Step(f, cfg, op).status == Ok && c.QuotaAdmitted? {
      CheckedCore(f, cfg, op.id, op.policies, op.bound, op.zone, op.now, c.core, c.receipt);
      var t := LogicalTime(f, op.now);
      assert 0 <= f.clock by { ClockNotNegative(f, cfg); }
      if f.version == V2 { CheckedGuarded(f, cfg, t, a, k, limit); }
      else { GuardedFrame(f, PruneLimits(f, t), a, k, limit); }
    }
  }

  lemma UpdateGuarded(f: Core, cfg: Config, op: Op, a: Account, k: Kind, limit: int)
    requires Inv(f, cfg) && Guarded(f, a, k, limit) && op.OpUpdatePendingQuota?
    ensures Guarded(Step(f, cfg, op).core, a, k, limit)
  {
    hide Fold, FactsOk, LeasesOk, EventsOk, SwitchOk, ModeOk;
    if Step(f, cfg, op).status == Ok { RecoveryUnweighed(f, Step(f, cfg, op).core, op.id); }
  }

  lemma StepGuarded(f: Core, cfg: Config, op: Op, a: Account, k: Kind, limit: int)
    requires Inv(f, cfg) && Guarded(f, a, k, limit) && ValidKind(k) && 0 <= limit
    requires AdmitsWithin(f, cfg, op, a, k, limit) && (k.Rolling? || CalendarOk(cfg))
    ensures Guarded(Step(f, cfg, op).core, a, k, limit)
  {
    hide Inv, Guarded, AdmitsWithin, CalendarOk;
    if op.OpReserveWithQuota? {
      ReserveGuarded(f, cfg, op, a, k, limit);
    } else if op.OpCompleteQuota? {
      CompleteGuarded(f, cfg, op, a, k, limit);
    } else if op.OpOpen? {
      OpenGuarded(f, cfg, a, k, limit);
    } else {
      OtherStepsGuarded(f, cfg, op, a, k, limit);
    }
  }

  // ---------- the theorem ----------

  lemma {:induction false} RunGuarded(cfg: Config, states: seq<Core>, ops: seq<Op>, n: nat, a: Account, k: Kind, limit: int)
    requires IsRun(cfg, states, ops) && n < |states| && 0 <= cfg.quotaCapacity && 0 <= limit && ValidKind(k)
    requires forall i :: 0 <= i < |ops| ==> AdmitsWithin(states[i], cfg, ops[i], a, k, limit)
    requires k.Rolling? || CalendarOk(cfg)
    ensures Guarded(states[n], a, k, limit)
    decreases n
  {
    hide Guarded, AdmitsWithin, CalendarOk, Step;
    if n == 0 {
      EmptyGuarded(states[0], a, k, limit);
    } else {
      RunGuarded(cfg, states, ops, n - 1, a, k, limit);
      RunKeeps(cfg, states, ops, n - 1);
      StepGuarded(states[n - 1], cfg, ops[n - 1], a, k, limit);
    }
  }

  /** In every state of every run, crashes included: if account a was only ever admitted under
      hard ceilings of at most limit, what is settled and held in any window of that kind,
      together with everything in flight, is at most limit plus the recorded excess. */
  lemma QuotaSafety(cfg: Config, states: seq<Core>, ops: seq<Op>, n: nat, a: Account, k: Kind, limit: int, w: Window)
    requires IsRun(cfg, states, ops) && n < |states| && 0 <= cfg.quotaCapacity && 0 <= limit && ValidKind(k)
    requires forall i :: 0 <= i < |ops| ==> AdmitsWithin(states[i], cfg, ops[i], a, k, limit)
    requires k.Rolling? || CalendarOk(cfg)
    requires InKind(w, k)
    ensures var f := states[n];
            Fold(f, a, w, UsedDim(k)) + Fold(f, a, w, HeldDim(k))
            + Fold(f, a, InFlight, UsedDim(k)) + Fold(f, a, InFlight, HeldDim(k))
            <= limit + Fold(f, a, w, ExcessDim(k))
  {
    hide Fold, IsRun, CalendarOk, AdmitsWithin;
    RunGuarded(cfg, states, ops, n, a, k, limit);
    FoldSplits(states[n], a, w, k);
    FoldSplits(states[n], a, InFlight, k);
    InFlightHasNoExcess(states[n], a, k);
  }

  // ---------- the excess is on record ----------

  /** The bound states what a ceiling of this kind limits, under a revision that can be barred. */
  predicate Proven(b: Bound, k: Kind)
  {
    b.revision != "" && match k
                        case MonthMoney(c) => b.money.Some? && b.currency == c
                        case _ => b.tokens.Some?
  }

  predicate ProvenReceipt(r: Receipt, a: Account, k: Kind)
  {
    (a in Names(r) ==> Proven(r.bound, k)) && SettledInCurrency(r)
  }

  /** A hard ceiling is only passed by a proven bound. */
  lemma CeilingProves(h: Core, p: Policy, b: Bound, coverage: int, t: int, start: int, k: Kind)
    requires PolicyStatus(h, p, b, coverage, t, start) == Ok
    requires ValidKind(k) && HardCeiling(p, k).Some?
    ensures Proven(b, k)
  {
    hide IdentityStatus, TokensStatus, MoneyStatus;
    match k {
      case Rolling(_) =>
        TokenRoom(h, p, b, coverage, t, start,
                  if k.window == Minute then 0 else if k.window == FiveHours then 1 else 2);
      case MonthTokens => TokenRoom(h, p, b, coverage, t, start, 3);
      case MonthMoney(_) => MoneyRoom(h, p, b, coverage, t, start);
    }
  }

  lemma AdmittedProven(f: Core, cfg: Config, op: Op, q: Receipt, a: Account, k: Kind, limit: int)
    requires Inv(f, cfg) && ValidKind(k) && AdmitsWithin(f, cfg, op, a, k, limit)
    requires op.OpReserveWithQuota? && Step(f, cfg, op).status == Ok
    requires Born(op, q, q.admittedAt)
    ensures ProvenReceipt(q, a, k)
  {
    hide Inv, CheckQuotaAdmission, InFlightFits, Establish, ApplyAdmission, PolicyStatus, HardCeiling, LimitsStatus, Proven;
    if a in Names(q) {
      NamedPolicy(q, op.policies, a);
      var i :| 0 <= i < |op.policies| && op.policies[i].limit.account == a;
      var h, r := ReserveQuotaParts(f, cfg, op.id, op.payload, op.policies, op.bound, op.recovery, op.now);
      CheckedFields(f, cfg, op.id, op.policies, op.bound, "", op.now, h, r);
      var coverage := if f.version == V2 then f.coverage else r.admittedAt;
      PoliciesAllOk(h, op.policies, op.bound, coverage, r.admittedAt, r.monthStart, 0);
      CeilingProves(h, op.policies[i], op.bound, coverage, r.admittedAt, r.monthStart, k);
    }
  }

  lemma DescendantProven(r: Receipt, q: Receipt, a: Account, k: Kind)
    requires Descends(r, q) && ProvenReceipt(r, a, k)
    ensures ProvenReceipt(q, a, k)
  {}

  lemma StepProven(f: Core, cfg: Config, op: Op, a: Account, k: Kind, limit: int, id: Id)
    requires Inv(f, cfg) && ValidKind(k) && AdmitsWithin(f, cfg, op, a, k, limit)
    requires id in f.receipts ==> ProvenReceipt(f.receipts[id], a, k)
    requires id in Step(f, cfg, op).core.receipts
    ensures ProvenReceipt(Step(f, cfg, op).core.receipts[id], a, k)
  {
    hide Inv, Step, AdmitsWithin, Descends, ProvenReceipt;
    StepReceipts(f, cfg, op, id);
    if id in f.receipts {
      DescendantProven(f.receipts[id], Step(f, cfg, op).core.receipts[id], a, k);
    } else {
      FailedReserve(f, cfg, op);
      AdmittedProven(f, cfg, op, Step(f, cfg, op).core.receipts[id], a, k, limit);
    }
  }

  lemma {:induction false} RunProven(cfg: Config, states: seq<Core>, ops: seq<Op>, n: nat, a: Account, k: Kind,
                                     limit: int, id: Id)
    requires IsRun(cfg, states, ops) && n < |states| && 0 <= cfg.quotaCapacity && ValidKind(k)
    requires forall i :: 0 <= i < |ops| ==> AdmitsWithin(states[i], cfg, ops[i], a, k, limit)
    requires id in states[n].receipts
    ensures ProvenReceipt(states[n].receipts[id], a, k)
    decreases n
  {
    hide Inv, Step, AdmitsWithin, ProvenReceipt;
    if n > 0 {
      if id in states[n - 1].receipts { RunProven(cfg, states, ops, n - 1, a, k, limit, id); }
      RunKeeps(cfg, states, ops, n - 1);
      StepProven(states[n - 1], cfg, ops[n - 1], a, k, limit, id);
    }
  }

  lemma ProvenExcess(f: Core, cfg: Config, id: Id, a: Account, k: Kind)
    requires Inv(f, cfg) && id in f.receipts && a in Names(f.receipts[id])
    requires ProvenReceipt(f.receipts[id], a, k) && Contribution(f.receipts[id], ExcessDim(k)) > 0
    ensures f.receipts[id].overrun && Terminal(f.receipts[id])
    ensures f.receipts[id].bound.revision != "" && f.receipts[id].bound.revision in f.invalid
  {
    hide Inv, Names, Contribution;
    ExcessIsRecorded(f, cfg, id, ExcessDim(k));
  }

  /** In every state of every run: if account a was only admitted under hard ceilings, every
      receipt that names it and contributes to the excess in QuotaSafety is settled, marked as
      overrun, and the revision of its bound is barred from further admissions. */
  lemma ExcessIsBarred(cfg: Config, states: seq<Core>, ops: seq<Op>, n: nat, a: Account, k: Kind, limit: int, id: Id)
    requires IsRun(cfg, states, ops) && n < |states| && 0 <= cfg.quotaCapacity && ValidKind(k)
    requires forall i :: 0 <= i < |ops| ==> AdmitsWithin(states[i], cfg, ops[i], a, k, limit)
    requires id in states[n].receipts && a in Names(states[n].receipts[id])
    requires Contribution(states[n].receipts[id], ExcessDim(k)) > 0
    ensures states[n].receipts[id].overrun && Terminal(states[n].receipts[id])
    ensures states[n].receipts[id].bound.revision != "" && states[n].receipts[id].bound.revision in states[n].invalid
  {
    hide Inv, IsRun, AdmitsWithin, ProvenReceipt, Contribution, Names;
    RunProven(cfg, states, ops, n, a, k, limit, id);
    RunKeeps(cfg, states, ops, n);
    ProvenExcess(states[n], cfg, id, a, k);
  }
}
