/** Exactly when an admission or a preflight passes, and exactly what it then does, in terms of the
    limits, events, leases, bounds and settlements themselves. */
module LedgerAdmissions {
  import opened Wrappers
  import opened Decimals
  import opened LedgerTypes
  import opened Totals
  import opened Ledger
  import opened LedgerInvariant
  import opened LedgerSteps
  import opened LedgerRecovery
  import opened LedgerReceipts
  import opened LedgerRuns
  import opened LedgerFacts
  import opened LedgerRefinement
  import opened LedgerMeasures

  // ---------- rates and leases ----------

  /** The admissions of account a in the minute that ends at t. */
  function RecentEvents(f: Core, a: Account, t: int): (s: set<Event>)
  {
    set e | e in f.events && e.account == a && e.at > t - 60_000_000_000
  }

  function RecentHistory(f: Core, t: int): (s: set<Event>)
  {
    set e | e in f.events && e.at > t - 60_000_000_000
  }

  /** The requests that hold a lease of account a. */
  function LeaseHolders(f: Core, a: Account): (s: set<Id>)
  {
    set id | id in f.leases && a in f.leases[id]
  }

  /** A new request id has room in the queue and under every limit at instant t. */
  predicate LimitsAllow(f: Core, cfg: Config, id: Id, limits: seq<Limit>, t: int)
  {
    && id !in f.pending && id !in f.ready && |f.pending| + |f.ready| < cfg.capacity
    && |RecentHistory(f, t)| + |limits| <= 200_000
    && (forall i :: 0 <= i < |limits| ==> ValidKey(limits[i].account))
    && (forall i, j :: 0 <= i < j < |limits| ==> limits[i].account != limits[j].account)
    && (forall i :: 0 <= i < |limits| && limits[i].rpm.Some? ==>
          |RecentEvents(f, limits[i].account, t)| < limits[i].rpm.value)
    && (forall i :: 0 <= i < |limits| && limits[i].concurrency.Some? ==>
          |LeaseHolders(f, limits[i].account)| < limits[i].concurrency.value)
  }

  function Later(clock: int, now: int): (t: int) { if now < clock then clock else now }

  lemma {:induction false} AllLimitsOk(f: Core, limits: seq<Limit>, i: nat)
    requires i <= |limits|
    ensures LimitsStatus(f, limits, i) == Ok <==> forall j :: i <= j < |limits| ==> LimitStatus(f, limits, j) == Ok
    decreases |limits| - i
  {
    if i < |limits| { AllLimitsOk(f, limits, i + 1); }
  }

  lemma LimitMeaning(f: Core, limits: seq<Limit>, t: int, i: nat)
    requires i < |limits|
    ensures LimitStatus(PruneLimits(f, t), limits, i) == Ok <==>
              && ValidKey(limits[i].account)
              && (forall j :: 0 <= j < i ==> limits[j].account != limits[i].account)
              && (limits[i].rpm.Some? ==> |RecentEvents(f, limits[i].account, t)| < limits[i].rpm.value)
              && (limits[i].concurrency.Some? ==> |LeaseHolders(f, limits[i].account)| < limits[i].concurrency.value)
  {
    hide ValidKey;
    var a := limits[i].account;
    assert EventsOf(PruneLimits(f, t).events, a) == RecentEvents(f, a, t);
    assert LeasesOf(f.leases, a) == LeaseHolders(f, a);
  }

  /** The common limit check passes exactly when there is room under every limit. */
  lemma LimitsIff(f: Core, cfg: Config, id: Id, limits: seq<Limit>, now: int)
    ensures CheckLimits(f, cfg, id, limits, now).Admitted?
            <==> 0 < now && LimitsAllow(f, cfg, id, limits, Later(f.clock, now))
    ensures CheckLimits(f, cfg, id, limits, now).Admitted? ==>
              CheckLimits(f, cfg, id, limits, now) == Admitted(PruneLimits(f, Later(f.clock, now)), Later(f.clock, now))
  {
    hide LimitsStatus, LimitStatus, ValidKey, RecentEvents, LeaseHolders;
    var t := Later(f.clock, now);
    var g := PruneLimits(f, t);
    assert g.events == RecentHistory(f, t);
    AllLimitsOk(g, limits, 0);
    forall i | 0 <= i < |limits|
      ensures LimitStatus(g, limits, i) == Ok <==>
                && ValidKey(limits[i].account)
                && (forall j :: 0 <= j < i ==> limits[j].account != limits[i].account)
                && (limits[i].rpm.Some? ==> |RecentEvents(f, limits[i].account, t)| < limits[i].rpm.value)
                && (limits[i].concurrency.Some? ==>
                      |LeaseHolders(f, limits[i].account)| < limits[i].concurrency.value)
    {
      LimitMeaning(f, limits, t, i);
    }
  }

  /** A version 1 admission succeeds exactly when the journal is not active, the entry is valid and
      there is room under every limit; it then adds one event and one lease per account, the fallback,
      and nothing else. */
  lemma LimitAdmissionIff(f: Core, cfg: Config, id: Id, payload: Payload, limits: seq<Limit>, now: int)
    ensures ReserveWithLimits(f, cfg, id, payload, limits, now).status == Ok <==>
              && f.version == V1 && ValidKey(id) && 0 < |payload| <= cfg.maxPayload && |limits| <= 8 && 0 < now
              && LimitsAllow(f, cfg, id, limits, Later(f.clock, now))
    ensures var o := ReserveWithLimits(f, cfg, id, payload, limits, now);
            var t := Later(f.clock, now);
            if o.status != Ok then o.core == f
            else
              && o.core.clock == t
              && (forall e :: e in o.core.events <==>
                    || e in RecentHistory(f, t)
                    || (e.at == t && e.id == id && exists i :: 0 <= i < |limits| && limits[i].account == e.account))
              && o.core.leases.Keys == f.leases.Keys + {id} && |o.core.leases[id]| == |limits|
              && (forall i :: 0 <= i < |limits| ==> o.core.leases[id][i] == limits[i].account)
              && (forall i :: i in f.leases && i != id ==> o.core.leases[i] == f.leases[i])
              && o.core.pending == f.pending[id := payload]
              && o.core == f.(clock := t, events := o.core.events, leases := o.core.leases, pending := o.core.pending)
  {
    hide CheckLimits, LimitsAllow, ValidKey;
    LimitsIff(f, cfg, id, limits, now);
    var t := Later(f.clock, now);
    AddedEvents(f, id, t, limits);
  }

  lemma AddedEvents(f: Core, id: Id, t: int, limits: seq<Limit>)
    ensures forall e :: e in LiveEvents(f.events, t) + NewEvents(id, t, LimitAccounts(limits)) <==>
              || e in RecentHistory(f, t)
              || (e.at == t && e.id == id && exists i :: 0 <= i < |limits| && limits[i].account == e.account)
  {
    var accounts := LimitAccounts(limits);
    forall e: Event | e.at == t && e.id == id && exists i :: 0 <= i < |limits| && limits[i].account == e.account
      ensures e in NewEvents(id, t, accounts)
    {
      var i :| 0 <= i < |limits| && limits[i].account == e.account;
      assert Event(t, id, accounts[i]) in NewEvents(id, t, accounts);
    }
  }

  // ---------- ceilings ----------

  /** Tokens that settled requests of account a count for in window w at t, or running ones reserve. */
  ghost function TokensIn(f: Core, a: Account, w: Window, t: int): (n: int)
  {
    Amounts(f, SettledIn(f, a, w, t), TokensUsed) + Amounts(f, SettledIn(f, a, w, t), TokensHeld)
    + Amounts(f, RunningFor(f, a), TokensUsed) + Amounts(f, RunningFor(f, a), TokensHeld)
  }

  ghost function MoneyIn(f: Core, a: Account, w: Window, t: int, c: string): (n: int)
  {
    Amounts(f, SettledIn(f, a, w, t), MoneyUsed(c)) + Amounts(f, SettledIn(f, a, w, t), MoneyHeld(c))
    + Amounts(f, RunningFor(f, a), MoneyUsed(c)) + Amounts(f, RunningFor(f, a), MoneyHeld(c))
  }

  /** Some such request counts for an unknown amount. */
  ghost predicate Untold(f: Core, a: Account, w: Window, t: int, d: Dim)
    requires Stored(d)
  {
    Amounts(f, SettledIn(f, a, w, t), d) != 0 || Amounts(f, RunningFor(f, a), d) != 0
  }

  /** The journal, or the account itself, is younger than the window: nothing in it was missed. */
  predicate Covered(p: Policy, start: int, coverage: int)
  {
    coverage <= start || (p.createdAt.Some? && coverage <= p.createdAt.value)
  }

  /** The policy's ceiling on window w, if there is one, leaves room for the bound. A soft ceiling is
      only watched. */
  ghost predicate TokensAllow(f: Core, p: Policy, b: Bound, w: Window, start: int, ceiling: Option<Int64>, soft: bool,
                              coverage: int, t: int)
  {
    ceiling.Some? ==>
      && 0 <= ceiling.value && (ceiling.value == 0 ==> soft)
      && Covered(p, start, coverage)
      && b.tokens.Some?
      && !Untold(f, p.limit.account, w, t, TokensUnknown)
      && (!soft ==> TokensIn(f, p.limit.account, w, t) + b.tokens.value <= ceiling.value)
  }

  ghost predicate MoneyAllows(f: Core, p: Policy, b: Bound, start: int, coverage: int, t: int)
  {
    p.moneyMonth.Some? ==>
      var soft := p.moneyBehavior == AlertOnly;
      && QuotaUnits(p.moneyMonth.value).Some? && (QuotaUnits(p.moneyMonth.value).value == 0 ==> soft)
      && ValidCurrency(p.currency)
      && Covered(p, start, coverage)
      && b.money.Some? && QuotaUnits(b.money.value).Some? && b.currency == p.currency
      && !Untold(f, p.limit.account, Month(start), t, MoneyUnknown)
      && (forall c: string :: c != p.currency ==> MoneyIn(f, p.limit.account, Month(start), t, c) == 0)
      && (!soft ==>
            MoneyIn(f, p.limit.account, Month(start), t, p.currency) + QuotaUnits(b.money.value).value
            <= QuotaUnits(p.moneyMonth.value).value)
  }

  /** Everything one policy asks of a request admitted at t, in the month that begins at start. */
  ghost predicate PolicyAllows(f: Core, p: Policy, b: Bound, coverage: int, t: int, start: int)
  {
    && p.tokensBehavior != Unrecognized && p.moneyBehavior != Unrecognized && p.proofsConsistent
    && (p.tokensBehavior == AlertOnly || p.moneyBehavior == AlertOnly ==> p.monthlyProof)
    && ValidKey(p.revision)
    && (p.createdAt.Some? ==> 0 < p.createdAt.value <= t)
    && (p.limit.account in f.births ==>
          f.births[p.limit.account] == if p.createdAt.Some? then p.createdAt.value else 0)
    && TokensAllow(f, p, b, Minute, t - 60_000_000_000, p.tpm, false, coverage, t)
    && TokensAllow(f, p, b, FiveHours, t - 18_000_000_000_000, p.tokens5H, false, coverage, t)
    && TokensAllow(f, p, b, SevenDays, t - 604_800_000_000_000, p.tokens7D, false, coverage, t)
    && TokensAllow(f, p, b, Month(start), start, p.tokensMonth, p.tokensBehavior == AlertOnly, coverage, t)
    && MoneyAllows(f, p, b, start, coverage, t)
    && (p.tpm.Some? || p.tokens5H.Some? || p.tokens7D.Some? || p.tokensMonth.Some? || p.moneyMonth.Some? ==>
          b.revision != "" && b.revision !in f.invalid)
  }

  /** h is f as the checks at t see it. */
  ghost predicate SeenAt(f: Core, h: Core, t: int)
  {
    && h.births == f.births && h.invalid == f.invalid
    && (forall a, w, d :: w != InFlight && Stored(d) ==> Fold(h, a, w, d) == Amounts(f, SettledIn(f, a, w, t), d))
    && (forall a, d :: Stored(d) ==> Fold(h, a, InFlight, d) == Amounts(f, RunningFor(f, a), d))
    && (forall a, w, d :: 0 <= Fold(h, a, w, d))
  }

  lemma TokensMeaning(f: Core, h: Core, p: Policy, b: Bound, coverage: int, t: int, tw: TokenWindow)
    requires SeenAt(f, h, t) && 0 < coverage && tw.window != InFlight
    ensures TokenStatus(h, p, b, coverage, tw) == Ok <==>
              TokensAllow(f, p, b, tw.window, tw.start, tw.ceiling, SoftTokens(p, tw.window), coverage, t)
  {
    hide Fold, Amounts, SettledIn, RunningFor;
    var a := p.limit.account;
    assert Fold(h, a, tw.window, TokensUnknown) == Amounts(f, SettledIn(f, a, tw.window, t), TokensUnknown);
    assert Fold(h, a, InFlight, TokensUnknown) == Amounts(f, RunningFor(f, a), TokensUnknown);
    assert TokenLoad(h, a, tw.window) == TokensIn(f, a, tw.window, t);
  }

  lemma WindowsMeaning(f: Core, h: Core, p: Policy, b: Bound, coverage: int, t: int, start: int)
    requires SeenAt(f, h, t) && 0 < coverage
    ensures TokensStatus(h, p, b, coverage, TokenWindows(p, t, start), 0) == Ok <==>
              && TokensAllow(f, p, b, Minute, t - 60_000_000_000, p.tpm, false, coverage, t)
              && TokensAllow(f, p, b, FiveHours, t - 18_000_000_000_000, p.tokens5H, false, coverage, t)
              && TokensAllow(f, p, b, SevenDays, t - 604_800_000_000_000, p.tokens7D, false, coverage, t)
              && TokensAllow(f, p, b, Month(start), start, p.tokensMonth, p.tokensBehavior == AlertOnly, coverage, t)
  {
    hide TokensAllow, TokenStatus, SeenAt;
    var tws := TokenWindows(p, t, start);
    TokensMeaning(f, h, p, b, coverage, t, tws[0]);
    TokensMeaning(f, h, p, b, coverage, t, tws[1]);
    TokensMeaning(f, h, p, b, coverage, t, tws[2]);
    TokensMeaning(f, h, p, b, coverage, t, tws[3]);
    assert TokensStatus(h, p, b, coverage, tws, 4) == Ok;
    assert TokensStatus(h, p, b, coverage, tws, 3) == Then(TokenStatus(h, p, b, coverage, tws[3]), Ok);
    assert TokensStatus(h, p, b, coverage, tws, 2)
        == Then(TokenStatus(h, p, b, coverage, tws[2]), TokensStatus(h, p, b, coverage, tws, 3));
    assert TokensStatus(h, p, b, coverage, tws, 1)
        == Then(TokenStatus(h, p, b, coverage, tws[1]), TokensStatus(h, p, b, coverage, tws, 2));
  }

  lemma MoneyMeaning(f: Core, h: Core, p: Policy, b: Bound, coverage: int, t: int, start: int)
    requires SeenAt(f, h, t) && 0 < coverage && ValidBound(b)
    ensures MoneyStatus(h, p, b, coverage, start) == Ok <==> MoneyAllows(f, p, b, start, coverage, t)
  {
    hide Fold, Amounts, SettledIn, RunningFor, QuotaUnits, ValidCurrency;
    var a, w := p.limit.account, Month(start);
    assert Fold(h, a, w, MoneyUnknown) == Amounts(f, SettledIn(f, a, w, t), MoneyUnknown);
    assert Fold(h, a, InFlight, MoneyUnknown) == Amounts(f, RunningFor(f, a), MoneyUnknown);
    forall c: string ensures MoneyLoad(h, a, w, c) == MoneyIn(f, a, w, t, c) && 0 <= MoneyIn(f, a, w, t, c) {
      LoadMeaning(f, h, a, w, t, c);
    }
    UnitsMeaning(p, b);
    ForeignMeaning(f, h, a, w, t, p.currency);
  }

  lemma LoadMeaning(f: Core, h: Core, a: Account, w: Window, t: int, c: string)
    requires SeenAt(f, h, t) && w != InFlight
    ensures MoneyLoad(h, a, w, c) == MoneyIn(f, a, w, t, c) && 0 <= MoneyIn(f, a, w, t, c)
  {
    hide Fold, Amounts, SettledIn, RunningFor;
  }

  lemma UnitsMeaning(p: Policy, b: Bound)
    ensures p.moneyMonth.Some? && QuotaUnits(p.moneyMonth.value).Some? ==>
              Units(p.moneyMonth.value) == QuotaUnits(p.moneyMonth.value).value
    ensures b.money.Some? && QuotaUnits(b.money.value).Some? ==> Units(b.money.value) == QuotaUnits(b.money.value).value
  {
    hide QuotaUnits;
  }

  lemma ForeignMeaning(f: Core, h: Core, a: Account, w: Window, t: int, currency: string)
    requires forall c: string :: MoneyLoad(h, a, w, c) == MoneyIn(f, a, w, t, c) && 0 <= MoneyIn(f, a, w, t, c)
    ensures ForeignMoney(h, a, w, currency) <==> exists c: string :: c != currency && MoneyIn(f, a, w, t, c) != 0
  {
    hide MoneyLoad, MoneyIn;
  }

  /** One policy's checks pass exactly when it allows the request. */
  lemma PolicyIff(f: Core, h: Core, p: Policy, b: Bound, coverage: int, t: int, start: int)
    requires SeenAt(f, h, t) && 0 < coverage && ValidBound(b)
    ensures PolicyStatus(h, p, b, coverage, t, start) == Ok <==> PolicyAllows(f, p, b, coverage, t, start)
  {
    hide TokensStatus, MoneyStatus, TokensAllow, MoneyAllows, ValidKey;
    WindowsMeaning(f, h, p, b, coverage, t, start);
    MoneyMeaning(f, h, p, b, coverage, t, start);
    assert h.births == f.births && h.invalid == f.invalid;
  }

  lemma {:induction false} PoliciesIff(f: Core, h: Core, ps: seq<Policy>, b: Bound, coverage: int, t: int, start: int,
                                       i: nat)
    requires SeenAt(f, h, t) && 0 < coverage && ValidBound(b) && i <= |ps|
    ensures PoliciesStatus(h, ps, b, coverage, t, start, i) == Ok
            <==> forall j :: i <= j < |ps| ==> PolicyAllows(f, ps[j], b, coverage, t, start)
    decreases |ps| - i
  {
    hide SeenAt, PolicyStatus, PolicyAllows, ValidBound;
    if i < |ps| {
      PolicyIff(f, h, ps[i], b, coverage, t, start);
      PoliciesIff(f, h, ps, b, coverage, t, start, i + 1);
    }
  }

  // ---------- what the checks see ----------

  lemma Seen(f: Core, cfg: Config, t: int)
    requires Inv(f, cfg) && 0 < t && f.clock <= t
    ensures SeenAt(f, if f.version == V2 then PruneQuota(PruneLimits(f, t), t) else PruneLimits(f, t), t)
  {
    hide Inv, Fold, PruneQuota, PruneLimits, SettledIn, RunningFor, Amounts;
    PruneLimitsKeeps(f, cfg, t);
    if f.version == V2 {
      PrunedIsSeen(f, cfg, t);
    } else {
      NoReceipts(f, cfg);
      EmptyIsSeen(f, PruneLimits(f, t), t);
    }
  }

  lemma PrunedIsSeen(f: Core, cfg: Config, t: int)
    requires Inv(f, cfg) && 0 < t && f.clock <= t && f.version == V2
    ensures SeenAt(f, PruneQuota(PruneLimits(f, t), t), t)
  {
    hide Inv, Fold, PruneQuota, SettledIn, RunningFor, Amounts, LiveEvents;
    var p := PruneLimits(f, t);
    var h := PruneQuota(p, t);
    PruneLimitsKeeps(f, cfg, t);
    PruneQuotaKeeps(p, cfg);
    forall a, w, d | w != InFlight && Stored(d) ensures Fold(h, a, w, d) == Amounts(f, SettledIn(f, a, w, t), d) {
      CheckedAmounts(f, cfg, t, a, w, d);
    }
    forall a, d | Stored(d) ensures Fold(h, a, InFlight, d) == Amounts(f, RunningFor(f, a), d) {
      CheckedAmounts(f, cfg, t, a, Minute, d);
      RunningAmounts(f, a, d);
    }
    forall a, w, d ensures 0 <= Fold(h, a, w, d) { CountedNonNegative(h, cfg, a, w, d); }
    SameRecords(f, t);
  }

  lemma SameRecords(f: Core, t: int)
    ensures PruneQuota(PruneLimits(f, t), t).births == f.births && PruneQuota(PruneLimits(f, t), t).invalid == f.invalid
  {}

  lemma CountedNonNegative(h: Core, cfg: Config, a: Account, w: Window, d: Dim)
    requires Inv(h, cfg)
    ensures 0 <= Fold(h, a, w, d)
  {
    hide FoldsFit, ExpiryOk, Charged;
    InvWeighable(h, cfg);
    SumNonNegative(h.receipts, Charged(h, a, w), d);
  }

  lemma EmptyIsSeen(f: Core, h: Core, t: int)
    requires f.receipts == map[] && f.expiry == {} && h == PruneLimits(f, t)
    ensures SeenAt(f, h, t)
  {
    hide NamesAccount, InWindow, Fold, Measured, Told;
    EmptyFolds(h);
    forall a, w, d | Stored(d) ensures Amounts(f, SettledIn(f, a, w, t), d) == 0 && Amounts(f, RunningFor(f, a), d) == 0 {
      NothingCounts(f, SettledIn(f, a, w, t), d);
      NothingCounts(f, RunningFor(f, a), d);
    }
  }

  lemma NothingCounts(f: Core, ids: set<Id>, d: Dim)
    requires f.receipts == map[] && Stored(d)
    ensures Amounts(f, ids, d) == 0
  {
    hide Measured, Told;
    var m := map id | id in ids && id in f.receipts :: Measured(f.receipts[id].bound, Told(f.receipts[id]), d);
    assert m.Keys == {};
    assert m == map[];
  }

  // ---------- admissions and preflights ----------

  /** The receipt is settled, its fact was acknowledged and all its windows have ended at t. */
  predicate Collectable(f: Core, id: Id, t: int)
    requires id in f.receipts
  {
    var r := f.receipts[id];
    && r.state != Active && id !in f.pending && id !in f.ready
    && r.monthEnd <= t && r.admittedAt + 604_800_000_000_000 <= t
  }

  function KeptReceipts(f: Core, t: int): (ids: set<Id>)
  {
    set id | id in f.receipts && !Collectable(f, id, t)
  }

  /** A request may be admitted at t under these policies: there is room under every rate and lease
      limit and in the quota history, the month is known, and every policy allows it. */
  ghost predicate QuotaAllows(f: Core, cfg: Config, id: Id, ps: seq<Policy>, b: Bound, zone: string, coverage: int, t: int)
  {
    && id !in f.receipts && LimitsAllow(f, cfg, id, PolicyLimits(ps), t)
    && (f.version == V2 ==> |KeptReceipts(f, t)| < cfg.quotaCapacity)
    && t + 604_800_000_000_000 <= 0x7FFF_FFFF_FFFF_FFFF
    && cfg.loads(zone) && 0 <= cfg.month(zone, t).0 && t < cfg.month(zone, t).1
    && forall i :: 0 <= i < |ps| ==> PolicyAllows(f, ps[i], b, coverage, t, cfg.month(zone, t).0)
  }

  lemma RetiredMeaning(f: Core, cfg: Config, t: int, id: Id)
    requires Inv(f, cfg) && id in f.receipts
    ensures id in RetiredIds(f, t) <==> Collectable(f, id, t)
  {
    hide FoldsFit, FactsOk, LeasesOk, EventsOk, ModeOk, SwitchOk, ReceiptsOk, Names, Windows;
    var r := f.receipts[id];
    if id in RetiredIds(f, t) { PrunedReceipt(f, cfg, t, id); }
    if Collectable(f, id, t) {
      assert KeysComplete(f, id);
      assert Retire(Latest(r), id) in f.expiry && Due(f, t, Retire(Latest(r), id));
    }
  }

  lemma KeptMeaning(f: Core, cfg: Config, t: int)
    requires Inv(f, cfg) && 0 < t && f.clock <= t
    ensures PruneQuota(PruneLimits(f, t), t).receipts.Keys == KeptReceipts(f, t)
  {
    hide Inv, RetiredIds, Collectable, LiveEvents;
    var p := PruneLimits(f, t);
    PruneLimitsKeeps(f, cfg, t);
    forall id | id in f.receipts ensures id in RetiredIds(p, t) <==> Collectable(f, id, t) {
      RetiredMeaning(p, cfg, t, id);
      SameCollectable(f, p, id, t);
    }
  }

  lemma SameCollectable(f: Core, p: Core, id: Id, t: int)
    requires p.receipts == f.receipts && p.pending == f.pending && p.ready == f.ready && id in f.receipts
    ensures Collectable(p, id, t) == Collectable(f, id, t)
  {}

  /** The zone and the start of coverage that a check uses. */
  function CheckedZone(f: Core, zone: string): (z: string) { if f.version == V2 then f.zone else zone }

  function CheckedCoverage(f: Core, t: int): (c: int) { if f.version == V2 then f.coverage else t }

  lemma CheckIff(f: Core, cfg: Config, id: Id, ps: seq<Policy>, b: Bound, zone: string, now: int)
    requires Inv(f, cfg) && ValidBound(b)
    ensures var t := Later(f.clock, now);
            CheckQuotaAdmission(f, cfg, id, ps, b, zone, now).QuotaAdmitted? <==>
              && 0 < now
              && (if f.version == V2 then zone == "" || zone == f.zone else zone != "")
              && QuotaAllows(f, cfg, id, ps, b, CheckedZone(f, zone), CheckedCoverage(f, t), t)
  {
    hide FoldsFit, ReceiptsOk, ExpiryOk, FactsOk, LeasesOk, EventsOk, SwitchOk, CheckLimits, PoliciesStatus;
    hide LimitsAllow, PolicyAllows, PruneQuota, PruneLimits, ValidBound, SeenAt, KeptReceipts, PolicyLimits;
    var t := Later(f.clock, now);
    LimitsIff(f, cfg, id, PolicyLimits(ps), now);
    if 0 < now {
      var h := if f.version == V2 then PruneQuota(PruneLimits(f, t), t) else PruneLimits(f, t);
      Seen(f, cfg, t);
      KeptMeaning(f, cfg, t);
      PoliciesIff(f, h, ps, b, CheckedCoverage(f, t), t, cfg.month(CheckedZone(f, zone), t).0, 0);
    }
  }

  /** Preflight passes exactly when the request is well-formed, an active journal is in the stated
      zone, and the request may be admitted. */
  lemma PreflightIff(f: Core, cfg: Config, id: Id, ps: seq<Policy>, b: Bound, zone: string, now: int)
    requires Inv(f, cfg)
    ensures PreflightWithQuota(f, cfg, id, ps, b, zone, now).status == Ok <==>
              && ValidKey(id) && 1 <= |ps| <= 8 && zone != "" && cfg.loads(zone) && ValidBound(b) && 0 < now
              && (f.version == V2 ==> zone == f.zone)
              && QuotaAllows(f, cfg, id, ps, b, zone, CheckedCoverage(f, Later(f.clock, now)), Later(f.clock, now))
  {
    hide Inv, CheckQuotaAdmission, QuotaAllows, ValidKey, ValidBound;
    if ValidBound(b) { CheckIff(f, cfg, id, ps, b, zone, now); }
  }

  /** Every account's in-flight counters can take the bound. */
  ghost predicate FlightAllows(f: Core, ps: seq<Policy>, b: Bound)
  {
    forall i :: 0 <= i < |ps| ==>
      var running := RunningFor(f, ps[i].limit.account);
      && (b.tokens.Some? ==> Amounts(f, running, TokensHeld) + b.tokens.value <= 0x7FFF_FFFF_FFFF_FFFF)
      && (b.tokens.None? ==> Amounts(f, running, TokensUnknown) + 1 <= 0x7FFF_FFFF_FFFF_FFFF)
      && (b.money.None? ==> Amounts(f, running, MoneyUnknown) + 1 <= 0x7FFF_FFFF_FFFF_FFFF)
  }

  lemma FlightMeaning(f: Core, h: Core, ps: seq<Policy>, b: Bound, t: int)
    requires SeenAt(f, h, t)
    ensures RoomInFlight(h, ps, b) <==> FlightAllows(f, ps, b)
  {
    hide Fold, Amounts, RunningFor;
    forall i | 0 <= i < |ps|
      ensures var a := ps[i].limit.account;
              && Fold(h, a, InFlight, TokensHeld) == Amounts(f, RunningFor(f, a), TokensHeld)
              && Fold(h, a, InFlight, TokensUnknown) == Amounts(f, RunningFor(f, a), TokensUnknown)
              && Fold(h, a, InFlight, MoneyUnknown) == Amounts(f, RunningFor(f, a), MoneyUnknown)
    {}
  }

  /** An admission succeeds exactly when the entry, the bound and its crash settlement are well-formed,
      the journal is active, the request may be admitted, and its bound fits in flight. */
  lemma QuotaAdmissionIff(f: Core, cfg: Config, id: Id, payload: Payload, ps: seq<Policy>, b: Bound,
                          recovery: Settlement, now: int)
    requires Inv(f, cfg)
    ensures ReserveWithQuota(f, cfg, id, payload, ps, b, recovery, now).status == Ok <==>
              && ValidKey(id) && 0 < |payload| <= cfg.maxPayload && 1 <= |ps| <= 8
              && ValidBound(b) && ValidSettlement(recovery) && RecoveryAllowed(b, recovery)
              && f.version == V2 && 0 < now
              && QuotaAllows(f, cfg, id, ps, b, f.zone, f.coverage, Later(f.clock, now))
              && FlightAllows(f, ps, b)
  {
    hide Inv, CheckQuotaAdmission, QuotaAllows, ValidKey, ValidBound, ValidSettlement, RecoveryStatus, InFlightFits;
    hide Establish, ApplyAdmission, FlightAllows, PolicyLimits, RecoveryAllowed, SeenAt, PruneQuota, PruneLimits;
    if ValidBound(b) {
      CheckIff(f, cfg, id, ps, b, "", now);
      RecoveryMeaning(b, recovery);
      var c := CheckQuotaAdmission(f, cfg, id, ps, b, "", now);
      if c.QuotaAdmitted? {
        CheckedCore(f, cfg, id, ps, b, "", now, c.core, c.receipt);
        CheckedFields(f, cfg, id, ps, b, "", now, c.core, c.receipt);
        RoomIsFit(c.core, cfg, ps, c.receipt);
        Seen(f, cfg, Later(f.clock, now)) by { ClockNotNegative(f, cfg); }
        FlightMeaning(f, c.core, ps, b, Later(f.clock, now));
      }
    }
  }

  /** A crash settlement may not exceed the bound, nor be in another currency. */
  predicate RecoveryAllowed(b: Bound, s: Settlement)
  {
    && (s.tokens.Some? && b.tokens.Some? ==> s.tokens.value <= b.tokens.value)
    && (s.money.Some? && b.money.Some? ==>
          && s.currency == b.currency
          && (QuotaUnits(s.money.value).Some? && QuotaUnits(b.money.value).Some? ==>
                QuotaUnits(s.money.value).value <= QuotaUnits(b.money.value).value))
  }

  lemma RecoveryMeaning(b: Bound, s: Settlement)
    requires ValidBound(b)
    ensures ValidSettlement(s) ==> (RecoveryStatus(b, s) == Ok <==> RecoveryAllowed(b, s))
  {
    hide QuotaUnits, ValidCurrency, ValidKey, ValidHexDigest;
  }

  lemma AdmissionShape(f: Core, cfg: Config, id: Id, payload: Payload, ps: seq<Policy>, b: Bound,
                       recovery: Settlement, now: int) returns (r: Receipt)
    requires Inv(f, cfg)
    requires ReserveWithQuota(f, cfg, id, payload, ps, b, recovery, now).status == Ok
    ensures var t := Later(f.clock, now);
            var h := PruneQuota(PruneLimits(f, t), t);
            && f.version == V2 && 0 < t && f.clock <= t
            && r.id == id && r.accounts == PolicyAccounts(ps) && r.bound == b && r.state == Active && !r.overrun
            && r.digest == None && r.admittedAt == t && r.recovery == recovery
            && QuotaMonth(cfg, f.zone, t) == Some((r.monthStart, r.monthEnd))
            && ReserveWithQuota(f, cfg, id, payload, ps, b, recovery, now).core
               == ApplyAdmission(h, id, payload, t, LimitAccounts(PolicyLimits(ps)))
                  .(births := Establish(h.births, ps, |ps|), receipts := h.receipts[id := r])
  {
    hide Inv, CheckQuotaAdmission, InFlightFits, Establish, PruneQuota, PruneLimits, PolicyLimits, ApplyAdmission;
    hide QuotaMonth, PolicyAccounts;
    var h, q := ReserveQuotaParts(f, cfg, id, payload, ps, b, recovery, now);
    CheckedCore(f, cfg, id, ps, b, "", now, h, q);
    CheckedFields(f, cfg, id, ps, b, "", now, h, q);
    ClockNotNegative(f, cfg);
    r := q.(recovery := recovery);
  }

  /** What a successful admission adds: one event and one lease per account, and the fallback; events
      of the minute before stay, and the rest of the queue is left alone. */
  lemma AdmissionQueue(f: Core, cfg: Config, id: Id, payload: Payload, ps: seq<Policy>, b: Bound,
                       recovery: Settlement, now: int)
    requires Inv(f, cfg)
    requires ReserveWithQuota(f, cfg, id, payload, ps, b, recovery, now).status == Ok
    ensures var g := ReserveWithQuota(f, cfg, id, payload, ps, b, recovery, now).core;
            var t := Later(f.clock, now);
            && g.clock == t && g.pending == f.pending[id := payload] && g.ready == f.ready
            && g.version == f.version && g.zone == f.zone && g.coverage == f.coverage && g.invalid == f.invalid
            && (forall e :: e in g.events <==>
                  || e in RecentHistory(f, t)
                  || (e.at == t && e.id == id && exists i :: 0 <= i < |ps| && ps[i].limit.account == e.account))
            && g.leases.Keys == f.leases.Keys + {id} && |g.leases[id]| == |ps|
            && (forall i :: 0 <= i < |ps| ==> g.leases[id][i] == ps[i].limit.account)
            && (forall i :: i in f.leases && i != id ==> g.leases[i] == f.leases[i])
  {
    hide Inv, ReserveWithQuota, Establish, PruneQuota, PruneLimits, RecentHistory, QuotaMonth, LiveEvents, NewEvents;
    hide PolicyLimits, PolicyAccounts;
    var r := AdmissionShape(f, cfg, id, payload, ps, b, recovery, now);
    var t := Later(f.clock, now);
    CheckedFrame(f, t);
    AddedEvents(f, id, t, PolicyLimits(ps));
    LimitsOfPolicies(ps);
  }

  /** The receipt of a successful admission: it states the policies' accounts and revisions, the bound
      and the crash settlement; every other receipt is kept as it was until it is collectable. */
  lemma AdmissionReceipt(f: Core, cfg: Config, id: Id, payload: Payload, ps: seq<Policy>, b: Bound,
                         recovery: Settlement, now: int)
    requires Inv(f, cfg)
    requires ReserveWithQuota(f, cfg, id, payload, ps, b, recovery, now).status == Ok
    ensures var g := ReserveWithQuota(f, cfg, id, payload, ps, b, recovery, now).core;
            var t := Later(f.clock, now);
            && g.receipts.Keys == KeptReceipts(f, t) + {id}
            && (forall i :: i in g.receipts && i != id ==> i in f.receipts && g.receipts[i] == f.receipts[i])
            && var r := g.receipts[id];
               && r.id == id && r.admittedAt == t && (r.monthStart, r.monthEnd) == cfg.month(f.zone, t)
               && |r.accounts| == |ps|
               && (forall i :: 0 <= i < |ps| ==> r.accounts[i] == QuotaAccount(ps[i].limit.account, ps[i].revision))
               && r.bound == b && r.state == Active && r.recovery == recovery && !r.overrun && r.digest == None
  {
    hide Inv, ReserveWithQuota, Establish, PruneQuota, PruneLimits, KeptReceipts, LiveEvents, NewEvents, PolicyLimits;
    var r := AdmissionShape(f, cfg, id, payload, ps, b, recovery, now);
    var t := Later(f.clock, now);
    KeptMeaning(f, cfg, t);
    PrunedFields(PruneLimits(f, t), t);
    CheckedFrame(f, t);
  }

  /** An account's creation time is recorded with its first admission and never rewritten. */
  lemma AdmissionRecords(f: Core, cfg: Config, id: Id, payload: Payload, ps: seq<Policy>, b: Bound,
                         recovery: Settlement, now: int)
    requires Inv(f, cfg)
    requires ReserveWithQuota(f, cfg, id, payload, ps, b, recovery, now).status == Ok
    ensures var g := ReserveWithQuota(f, cfg, id, payload, ps, b, recovery, now).core;
            && (forall a :: a in g.births <==> a in f.births || exists i :: 0 <= i < |ps| && ps[i].limit.account == a)
            && (forall a :: a in f.births ==> g.births[a] == f.births[a])
            && (forall i :: 0 <= i < |ps| && ps[i].limit.account in g.births ==>
                  g.births[ps[i].limit.account] == if ps[i].createdAt.Some? then ps[i].createdAt.value else 0)
  {
    hide Inv, ReserveWithQuota, Establish, PruneQuota, PruneLimits, LiveEvents, NewEvents, PolicyLimits, PolicyAllows;
    var r := AdmissionShape(f, cfg, id, payload, ps, b, recovery, now);
    var t := Later(f.clock, now);
    CheckedFrame(f, t);
    QuotaAdmissionIff(f, cfg, id, payload, ps, b, recovery, now);
    forall i | 0 <= i < |ps| ensures ps[i].limit.account in f.births ==> f.births[ps[i].limit.account] == Created(ps[i]) {
      RecordedBirth(f, ps[i], b, f.coverage, t, cfg.month(f.zone, t).0);
    }
    LimitsOfPolicies(ps);
    DistinctLimits(f, cfg, id, ps, t);
    Established(f.births, ps, |ps|);
  }

  lemma RecordedBirth(f: Core, p: Policy, b: Bound, coverage: int, t: int, start: int)
    requires PolicyAllows(f, p, b, coverage, t, start)
    ensures p.limit.account in f.births ==> f.births[p.limit.account] == Created(p)
  {
    hide TokensAllow, MoneyAllows;
  }

  lemma DistinctLimits(f: Core, cfg: Config, id: Id, ps: seq<Policy>, t: int)
    requires LimitsAllow(f, cfg, id, PolicyLimits(ps), t)
    ensures forall i, j :: 0 <= i < j < |ps| ==> ps[i].limit.account != ps[j].limit.account
  {
    forall i, j | 0 <= i < j < |ps| ensures ps[i].limit.account != ps[j].limit.account {
      assert PolicyLimits(ps)[i].account != PolicyLimits(ps)[j].account;
    }
  }

  lemma {:induction false} Established(births: map<Account, int>, ps: seq<Policy>, n: nat)
    requires n <= |ps|
    requires forall i :: 0 <= i < |ps| && ps[i].limit.account in births ==> births[ps[i].limit.account] == Created(ps[i])
    requires forall i, j :: 0 <= i < j < |ps| ==> ps[i].limit.account != ps[j].limit.account
    ensures forall a :: a in Establish(births, ps, n) <==> a in births || exists i :: 0 <= i < n && ps[i].limit.account == a
    ensures forall a :: a in births ==> Establish(births, ps, n)[a] == births[a]
    ensures forall i :: 0 <= i < n ==> Establish(births, ps, n)[ps[i].limit.account] == Created(ps[i])
    decreases n
  {
    if n > 0 {
      Established(births, ps, n - 1);
      EstablishedOne(Establish(births, ps, n - 1), Establish(births, ps, n), ps[n - 1]);
      forall i | 0 <= i < n ensures Establish(births, ps, n)[ps[i].limit.account] == Created(ps[i]) {
        if i == n - 1 { NotEarlier(births, ps, n - 1, Establish(births, ps, n - 1)); }
      }
    }
  }

  lemma EstablishedOne(before: map<Account, int>, after: map<Account, int>, p: Policy)
    requires after == if p.limit.account in before then before else before[p.limit.account := Created(p)]
    ensures forall a :: a in after <==> a in before || a == p.limit.account
    ensures forall a :: a in before ==> after[a] == before[a]
    ensures p.limit.account !in before ==> after[p.limit.account] == Created(p)
  {}

  /** The next account is among the earlier records only when it was there from the start. */
  lemma NotEarlier(births: map<Account, int>, ps: seq<Policy>, n: nat, before: map<Account, int>)
    requires n < |ps|
    requires forall i, j :: 0 <= i < j < |ps| ==> ps[i].limit.account != ps[j].limit.account
    requires forall a :: a in before <==> a in births || exists i :: 0 <= i < n && ps[i].limit.account == a
    ensures ps[n].limit.account in before ==> ps[n].limit.account in births
  {}

  lemma LimitsOfPolicies(ps: seq<Policy>)
    ensures |PolicyLimits(ps)| == |ps|
    ensures forall i :: 0 <= i < |ps| ==> PolicyLimits(ps)[i] == ps[i].limit
  {}

  lemma CheckedFrame(f: Core, t: int)
    ensures var h := PruneQuota(PruneLimits(f, t), t);
            && h.events == LiveEvents(f.events, t) && h.pending == f.pending && h.ready == f.ready
            && h.leases == f.leases && h.version == f.version && h.zone == f.zone && h.coverage == f.coverage
            && h.invalid == f.invalid && h.births == f.births && h.clock == t
            && PruneLimits(f, t).receipts == f.receipts
  {}
}
