/** Why an operation is refused: every error names a condition that holds of the journal, in terms of
    its limits, events, leases, receipts, bounds and settlements. */
module LedgerRefusals {
  import opened Wrappers
  import opened Decimals
  import opened LedgerTypes
  import opened Ledger
  import opened LedgerInvariant
  import opened LedgerSteps
  import opened LedgerReceipts
  import opened LedgerFacts
  import opened LedgerMeasures
  import opened LedgerAdmissions

  // ---------- rates and leases ----------

  /** What limit i has against the request, after those before it had nothing. */
  predicate LimitRefuses(f: Core, limits: seq<Limit>, t: int, i: nat, s: Status)
    requires i < |limits|
  {
    var l := limits[i];
    match s
    case ErrInvalid => !ValidKey(l.account) || exists j :: 0 <= j < i && limits[j].account == l.account
    case ErrRateLimit => l.rpm.Some? && l.rpm.value <= |RecentEvents(f, l.account, t)|
    case ErrConcurrency =>
      && l.concurrency.Some? && l.concurrency.value <= |LeaseHolders(f, l.account)|
      && (l.rpm.Some? ==> |RecentEvents(f, l.account, t)| < l.rpm.value)
    case _ => false
  }

  predicate LimitPasses(f: Core, l: Limit, t: int)
  {
    && ValidKey(l.account) && (l.rpm.Some? ==> |RecentEvents(f, l.account, t)| < l.rpm.value)
    && (l.concurrency.Some? ==> |LeaseHolders(f, l.account)| < l.concurrency.value)
  }

  predicate FirstRefusal(f: Core, limits: seq<Limit>, t: int, i: nat, s: Status)
    requires i < |limits|
  {
    LimitRefuses(f, limits, t, i, s) && forall j :: 0 <= j < i ==> LimitPasses(f, limits[j], t)
  }

  /** The queue is full, the id is taken, or the first limit without room refuses. */
  predicate QueueRefuses(f: Core, cfg: Config, id: Id, limits: seq<Limit>, now: int, s: Status)
  {
    var t := Later(f.clock, now);
    || (s == ErrInvalid && (id in f.pending || id in f.ready || now <= 0))
    || (s == ErrFull && (cfg.capacity <= |f.pending| + |f.ready| || 200_000 < |RecentHistory(f, t)| + |limits|))
    || exists i :: 0 <= i < |limits| && FirstRefusal(f, limits, t, i, s)
  }

  lemma LimitRefusal(f: Core, limits: seq<Limit>, t: int, i: nat, s: Status)
    requires i < |limits| && LimitStatus(PruneLimits(f, t), limits, i) == s
    ensures if s == Ok then LimitPasses(f, limits[i], t) else LimitRefuses(f, limits, t, i, s)
  {
    hide ValidKey;
    LimitMeaning(f, limits, t, i);
    var a := limits[i].account;
    assert EventsOf(PruneLimits(f, t).events, a) == RecentEvents(f, a, t);
    assert LeasesOf(f.leases, a) == LeaseHolders(f, a);
  }

  lemma {:induction false} FirstOfLimits(f: Core, limits: seq<Limit>, t: int, i: nat, s: Status) returns (j: nat)
    requires i <= |limits| && s != Ok && LimitsStatus(PruneLimits(f, t), limits, i) == s
    requires forall k :: 0 <= k < i ==> LimitPasses(f, limits[k], t)
    ensures j < |limits| && FirstRefusal(f, limits, t, j, s)
    decreases |limits| - i
  {
    hide LimitStatus, LimitRefuses, LimitPasses, PruneLimits;
    j := i;
    if i < |limits| {
      LimitRefusal(f, limits, t, i, LimitStatus(PruneLimits(f, t), limits, i));
      if LimitStatus(PruneLimits(f, t), limits, i) == Ok { j := FirstOfLimits(f, limits, t, i + 1, s); }
    }
  }

  lemma LimitsRefusal(f: Core, cfg: Config, id: Id, limits: seq<Limit>, now: int, s: Status)
    requires CheckLimits(f, cfg, id, limits, now) == Rejected(s)
    ensures QueueRefuses(f, cfg, id, limits, now, s)
  {
    hide LimitsStatus, FirstRefusal, RecentEvents, LeaseHolders;
    var t := Later(f.clock, now);
    var g := PruneLimits(f, t);
    assert g.events == RecentHistory(f, t);
    if LimitsStatus(g, limits, 0) == s && s != Ok {
      var i := FirstOfLimits(f, limits, t, 0, s);
    }
  }

  /** A refused version 1 admission: the journal is active, the entry malformed, or the queue refuses. */
  lemma LimitAdmissionRefusal(f: Core, cfg: Config, id: Id, payload: Payload, limits: seq<Limit>, now: int)
    ensures var s := ReserveWithLimits(f, cfg, id, payload, limits, now).status;
            s == Ok || (s == ErrQuotaRequired && f.version == V2)
            || (s == ErrInvalid && (!ValidKey(id) || !(0 < |payload| <= cfg.maxPayload) || 8 < |limits|))
            || QueueRefuses(f, cfg, id, limits, now, s)
  {
    hide CheckLimits, QueueRefuses, ValidKey;
    var c := CheckLimits(f, cfg, id, limits, now);
    if c.Rejected? { LimitsRefusal(f, cfg, id, limits, now, c.status); }
  }

  // ---------- ceilings ----------

  /** What a token ceiling on window w has against the bound. */
  ghost predicate TokensRefuse(f: Core, p: Policy, b: Bound, w: Window, start: int, ceiling: Option<Int64>, soft: bool,
                               coverage: int, t: int, s: Status)
  {
    && ceiling.Some?
    && match s
       case ErrInvalid => ceiling.value < 0
       case ErrQuotaCoverage => !Covered(p, start, coverage)
       case ErrQuotaBound => b.tokens.None?
       case ErrQuotaUnknown => Untold(f, p.limit.account, w, t, TokensUnknown)
       case ErrQuotaTokens =>
         && !soft
         && (ceiling.value == 0
             || (b.tokens.Some? && ceiling.value < TokensIn(f, p.limit.account, w, t) + b.tokens.value))
       case _ => false
  }

  /** What the monthly money ceiling has against the bound. */
  ghost predicate MoneyRefuses(f: Core, p: Policy, b: Bound, start: int, coverage: int, t: int, s: Status)
  {
    && p.moneyMonth.Some?
    && match s
       case ErrInvalid => QuotaUnits(p.moneyMonth.value).None? || !ValidCurrency(p.currency)
       case ErrQuotaCoverage => !Covered(p, start, coverage)
       case ErrQuotaBound => b.money.None?
       case ErrQuotaUnknown => Untold(f, p.limit.account, Month(start), t, MoneyUnknown)
       case ErrQuotaCurrency =>
         b.currency != p.currency
         || exists c: string :: c != p.currency && MoneyIn(f, p.limit.account, Month(start), t, c) != 0
       case ErrQuotaMoney =>
         && p.moneyBehavior != AlertOnly && QuotaUnits(p.moneyMonth.value).Some?
         && (QuotaUnits(p.moneyMonth.value).value == 0
             || (b.money.Some? && QuotaUnits(b.money.value).Some?
                 && QuotaUnits(p.moneyMonth.value).value
                    < MoneyIn(f, p.limit.account, Month(start), t, p.currency) + QuotaUnits(b.money.value).value))
       case _ => false
  }

  /** What a policy has against a request admitted at t, in the month that begins at start. */
  ghost predicate PolicyRefuses(f: Core, p: Policy, b: Bound, coverage: int, t: int, start: int, s: Status)
  {
    || (s == ErrInvalid &&
          (p.tokensBehavior == Unrecognized || p.moneyBehavior == Unrecognized || !p.proofsConsistent
           || ((p.tokensBehavior == AlertOnly || p.moneyBehavior == AlertOnly) && !p.monthlyProof)
           || !ValidKey(p.revision) || (p.createdAt.Some? && !(0 < p.createdAt.value <= t))))
    || (s == ErrQuotaConflict && p.limit.account in f.births
        && f.births[p.limit.account] != if p.createdAt.Some? then p.createdAt.value else 0)
    || TokensRefuse(f, p, b, Minute, t - 60_000_000_000, p.tpm, false, coverage, t, s)
    || TokensRefuse(f, p, b, FiveHours, t - 18_000_000_000_000, p.tokens5H, false, coverage, t, s)
    || TokensRefuse(f, p, b, SevenDays, t - 604_800_000_000_000, p.tokens7D, false, coverage, t, s)
    || TokensRefuse(f, p, b, Month(start), start, p.tokensMonth, p.tokensBehavior == AlertOnly, coverage, t, s)
    || MoneyRefuses(f, p, b, start, coverage, t, s)
    || (s == ErrQuotaBound && (b.revision == "" || b.revision in f.invalid)
        && (p.tpm.Some? || p.tokens5H.Some? || p.tokens7D.Some? || p.tokensMonth.Some? || p.moneyMonth.Some?))
  }

  lemma TokensRefusal(f: Core, h: Core, p: Policy, b: Bound, coverage: int, t: int, tw: TokenWindow, s: Status)
    requires SeenAt(f, h, t) && 0 < coverage && tw.window != InFlight && TokenStatus(h, p, b, coverage, tw) == s != Ok
    ensures TokensRefuse(f, p, b, tw.window, tw.start, tw.ceiling, SoftTokens(p, tw.window), coverage, t, s)
  {
    hide Fold, Amounts, SettledIn, RunningFor;
    var a := p.limit.account;
    assert Fold(h, a, tw.window, TokensUnknown) == Amounts(f, SettledIn(f, a, tw.window, t), TokensUnknown);
    assert Fold(h, a, InFlight, TokensUnknown) == Amounts(f, RunningFor(f, a), TokensUnknown);
    assert TokenLoad(h, a, tw.window) == TokensIn(f, a, tw.window, t);
  }

  lemma WindowsRefusal(f: Core, h: Core, p: Policy, b: Bound, coverage: int, t: int, start: int, s: Status)
    requires SeenAt(f, h, t) && 0 < coverage
    requires TokensStatus(h, p, b, coverage, TokenWindows(p, t, start), 0) == s != Ok
    ensures PolicyRefuses(f, p, b, coverage, t, start, s)
  {
    hide TokensRefuse, MoneyRefuses, TokenStatus, SeenAt, ValidKey;
    var tws := TokenWindows(p, t, start);
    assert TokensStatus(h, p, b, coverage, tws, 4) == Ok;
    assert TokensStatus(h, p, b, coverage, tws, 3) == Then(TokenStatus(h, p, b, coverage, tws[3]), Ok);
    assert TokensStatus(h, p, b, coverage, tws, 2)
        == Then(TokenStatus(h, p, b, coverage, tws[2]), TokensStatus(h, p, b, coverage, tws, 3));
    assert TokensStatus(h, p, b, coverage, tws, 1)
        == Then(TokenStatus(h, p, b, coverage, tws[1]), TokensStatus(h, p, b, coverage, tws, 2));
    if s == TokenStatus(h, p, b, coverage, tws[0]) { TokensRefusal(f, h, p, b, coverage, t, tws[0], s); }
    else if s == TokenStatus(h, p, b, coverage, tws[1]) { TokensRefusal(f, h, p, b, coverage, t, tws[1], s); }
    else if s == TokenStatus(h, p, b, coverage, tws[2]) { TokensRefusal(f, h, p, b, coverage, t, tws[2], s); }
    else { TokensRefusal(f, h, p, b, coverage, t, tws[3], s); }
  }

  lemma MoneyRefusal(f: Core, h: Core, p: Policy, b: Bound, coverage: int, t: int, start: int, s: Status)
    requires SeenAt(f, h, t) && 0 < coverage && ValidBound(b) && MoneyStatus(h, p, b, coverage, start) == s != Ok
    ensures MoneyRefuses(f, p, b, start, coverage, t, s)
  {
    hide Fold, Amounts, SettledIn, RunningFor, QuotaUnits, ValidCurrency;
    var a, w := p.limit.account, Month(start);
    assert Fold(h, a, w, MoneyUnknown) == Amounts(f, SettledIn(f, a, w, t), MoneyUnknown);
    assert Fold(h, a, InFlight, MoneyUnknown) == Amounts(f, RunningFor(f, a), MoneyUnknown);
    forall c: string ensures MoneyLoad(h, a, w, c) == MoneyIn(f, a, w, t, c) && 0 <= MoneyIn(f, a, w, t, c) {
      LoadMeaning(f, h, a, w, t, c);
    }
    UnitsMeaning(p, b);
    ForeignMeaning(f, h, a, w, t, p.currency);
  }

  lemma PolicyRefusal(f: Core, h: Core, p: Policy, b: Bound, coverage: int, t: int, start: int, s: Status)
    requires SeenAt(f, h, t) && 0 < coverage && ValidBound(b) && PolicyStatus(h, p, b, coverage, t, start) == s != Ok
    ensures PolicyRefuses(f, p, b, coverage, t, start, s)
  {
    hide TokensStatus, MoneyStatus, TokensRefuse, MoneyRefuses, ValidKey;
    assert h.births == f.births && h.invalid == f.invalid;
    if IdentityStatus(h.births, p, t) == Ok {
      var tokens := TokensStatus(h, p, b, coverage, TokenWindows(p, t, start), 0);
      var money := MoneyStatus(h, p, b, coverage, start);
      if tokens != Ok { WindowsRefusal(f, h, p, b, coverage, t, start, tokens); }
      else if money != Ok { MoneyRefusal(f, h, p, b, coverage, t, start, money); }
    }
  }

  /** The first policy that refuses decides. */
  ghost predicate PoliciesRefuse(f: Core, ps: seq<Policy>, b: Bound, coverage: int, t: int, start: int, s: Status)
  {
    exists j :: 0 <= j < |ps| && PolicyRefuses(f, ps[j], b, coverage, t, start, s)
      && forall k :: 0 <= k < j ==> PolicyAllows(f, ps[k], b, coverage, t, start)
  }

  lemma {:induction false} PoliciesRefusal(f: Core, h: Core, ps: seq<Policy>, b: Bound, coverage: int, t: int, start: int,
                                           i: nat, s: Status)
    requires SeenAt(f, h, t) && 0 < coverage && ValidBound(b) && i <= |ps|
    requires PoliciesStatus(h, ps, b, coverage, t, start, i) == s != Ok
    requires forall k :: 0 <= k < i ==> PolicyAllows(f, ps[k], b, coverage, t, start)
    ensures PoliciesRefuse(f, ps, b, coverage, t, start, s)
    decreases |ps| - i
  {
    hide SeenAt, PolicyStatus, PolicyAllows, PolicyRefuses, ValidBound;
    if i < |ps| {
      PolicyIff(f, h, ps[i], b, coverage, t, start);
      if PolicyStatus(h, ps[i], b, coverage, t, start) == Ok {
        PoliciesRefusal(f, h, ps, b, coverage, t, start, i + 1, s);
      } else {
        PolicyRefusal(f, h, ps[i], b, coverage, t, start, s);
      }
    }
  }

  // ---------- admissions and preflights ----------

  /** Why the common check refuses; zone is "" for an admission. */
  ghost predicate CheckRefuses(f: Core, cfg: Config, id: Id, ps: seq<Policy>, b: Bound, zone: string, now: int, s: Status)
  {
    var t := Later(f.clock, now);
    var z := CheckedZone(f, zone);
    || (s == ErrQuotaInactive && f.version == V1 && zone == "")
    || (s == ErrQuotaConflict && (id in f.receipts || (f.version == V2 && zone != "" && zone != f.zone)))
    || QueueRefuses(f, cfg, id, PolicyLimits(ps), now, s)
    || (s == ErrFull && f.version == V2 && cfg.quotaCapacity <= |KeptReceipts(f, t)|)
    || (s == ErrInvalid &&
          (!cfg.loads(z) || cfg.month(z, t).0 < 0 || cfg.month(z, t).1 <= t
           || 0x7FFF_FFFF_FFFF_FFFF < t + 604_800_000_000_000))
    || PoliciesRefuse(f, ps, b, CheckedCoverage(f, t), t, cfg.month(z, t).0, s)
  }

  lemma CheckRefusal(f: Core, cfg: Config, id: Id, ps: seq<Policy>, b: Bound, zone: string, now: int, s: Status)
    requires Inv(f, cfg) && ValidBound(b)
    requires CheckQuotaAdmission(f, cfg, id, ps, b, zone, now) == QuotaRejected(s)
    ensures CheckRefuses(f, cfg, id, ps, b, zone, now, s)
  {
    hide FoldsFit, ReceiptsOk, ExpiryOk, FactsOk, LeasesOk, EventsOk, SwitchOk, CheckLimits, PoliciesStatus;
    hide PoliciesRefuse, PruneQuota, PruneLimits, ValidBound, SeenAt, KeptReceipts, PolicyLimits, QueueRefuses, LimitsAllow;
    var t := Later(f.clock, now);
    LimitsIff(f, cfg, id, PolicyLimits(ps), now);
    var c := CheckLimits(f, cfg, id, PolicyLimits(ps), now);
    if c.Rejected? {
      LimitsRefusal(f, cfg, id, PolicyLimits(ps), now, c.status);
    } else {
      var h := if f.version == V2 then PruneQuota(PruneLimits(f, t), t) else PruneLimits(f, t);
      var start := cfg.month(CheckedZone(f, zone), t).0;
      Seen(f, cfg, t);
      KeptMeaning(f, cfg, t);
      var p := PoliciesStatus(h, ps, b, CheckedCoverage(f, t), t, start, 0);
      if p != Ok { PoliciesRefusal(f, h, ps, b, CheckedCoverage(f, t), t, start, 0, p); }
    }
  }

  /** A refused preflight: malformed, or refused by the common check. */
  lemma PreflightRefusal(f: Core, cfg: Config, id: Id, ps: seq<Policy>, b: Bound, zone: string, now: int)
    requires Inv(f, cfg)
    ensures var s := PreflightWithQuota(f, cfg, id, ps, b, zone, now).status;
            s == Ok
            || (s == ErrInvalid &&
                  (!ValidKey(id) || !(1 <= |ps| <= 8) || zone == "" || !cfg.loads(zone) || !ValidBound(b)))
            || CheckRefuses(f, cfg, id, ps, b, zone, now, s)
  {
    hide Inv, CheckQuotaAdmission, CheckRefuses, ValidKey, ValidBound;
    var c := CheckQuotaAdmission(f, cfg, id, ps, b, zone, now);
    if ValidBound(b) && c.QuotaRejected? { CheckRefusal(f, cfg, id, ps, b, zone, now, c.status); }
  }

  /** What a crash settlement has against the bound. */
  predicate RecoveryRefused(b: Bound, r: Settlement, s: Status)
  {
    match s
    case ErrQuotaCurrency => r.money.Some? && b.money.Some? && r.currency != b.currency
    case ErrQuotaBound =>
      || (r.tokens.Some? && b.tokens.Some? && b.tokens.value < r.tokens.value)
      || (r.money.Some? && b.money.Some? && QuotaUnits(r.money.value).Some? && QuotaUnits(b.money.value).Some?
          && QuotaUnits(b.money.value).value < QuotaUnits(r.money.value).value)
    case _ => false
  }

  lemma RecoveryRefusal(b: Bound, r: Settlement)
    requires ValidBound(b) && ValidSettlement(r) && RecoveryStatus(b, r) != Ok
    ensures RecoveryRefused(b, r, RecoveryStatus(b, r))
  {
    hide QuotaUnits, ValidCurrency, ValidKey, ValidHexDigest;
  }

  /** A refused admission: malformed, a crash settlement beyond the bound, refused by the common check,
      or without room in the in-flight counters. */
  lemma QuotaAdmissionRefusal(f: Core, cfg: Config, id: Id, payload: Payload, ps: seq<Policy>, b: Bound,
                              recovery: Settlement, now: int)
    requires Inv(f, cfg)
    ensures var s := ReserveWithQuota(f, cfg, id, payload, ps, b, recovery, now).status;
            s == Ok
            || (s == ErrInvalid &&
                  (!ValidKey(id) || !(0 < |payload| <= cfg.maxPayload) || !(1 <= |ps| <= 8) || !ValidBound(b)
                   || !ValidSettlement(recovery) || !FlightAllows(f, ps, b)))
            || RecoveryRefused(b, recovery, s)
            || CheckRefuses(f, cfg, id, ps, b, "", now, s)
  {
    hide Inv, CheckQuotaAdmission, CheckRefuses, ValidKey, ValidBound, ValidSettlement, RecoveryStatus, InFlightFits;
    hide Establish, ApplyAdmission, FlightAllows, PolicyLimits, RecoveryRefused;
    if ValidBound(b) {
      if ValidSettlement(recovery) && RecoveryStatus(b, recovery) != Ok { RecoveryRefusal(b, recovery); }
      var c := CheckQuotaAdmission(f, cfg, id, ps, b, "", now);
      if c.QuotaRejected? {
        CheckRefusal(f, cfg, id, ps, b, "", now, c.status);
      } else {
        FlightIff(f, cfg, id, ps, b, now, c.core, c.receipt);
      }
    }
  }

  lemma FlightIff(f: Core, cfg: Config, id: Id, ps: seq<Policy>, b: Bound, now: int, h: Core, r: Receipt)
    requires Inv(f, cfg) && ValidBound(b)
    requires CheckQuotaAdmission(f, cfg, id, ps, b, "", now) == QuotaAdmitted(h, r)
    ensures InFlightFits(h, r) <==> FlightAllows(f, ps, b)
  {
    hide Inv, CheckQuotaAdmission, QuotaAllows, ValidBound, InFlightFits, FlightAllows, SeenAt, PruneQuota, PruneLimits;
    CheckIff(f, cfg, id, ps, b, "", now);
    CheckedCore(f, cfg, id, ps, b, "", now, h, r);
    CheckedFields(f, cfg, id, ps, b, "", now, h, r);
    RoomIsFit(h, cfg, ps, r);
    Seen(f, cfg, Later(f.clock, now)) by { ClockNotNegative(f, cfg); }
    FlightMeaning(f, h, ps, b, Later(f.clock, now));
  }

  // ---------- settlements and the queue ----------

  /** A refused settlement: malformed or untimely, of an inactive journal, of an unknown request, after
      another settlement, in another currency, or without room in a counter. */
  lemma CompletionRefusal(f: Core, cfg: Config, id: Id, payload: Payload, s: Settlement, now: int)
    requires Inv(f, cfg)
    ensures match CompleteQuota(f, cfg, id, payload, s, now).status
            case Ok => true
            case ErrInvalid =>
              || !ValidKey(id) || !(0 < |payload| <= cfg.maxPayload) || !ValidSettlement(s)
              || (id in f.receipts && f.receipts[id].state == Active
                  && (now <= 0 || !CountersTake(f, f.receipts[id], s, Later(f.clock, now))))
            case ErrQuotaInactive => f.version == V1
            case ErrMissing => id !in f.receipts
            case ErrQuotaConflict =>
              id in f.receipts && f.receipts[id].state != Active && f.receipts[id].digest != Some(Digest(s, payload))
            case ErrQuotaCurrency =>
              && id in f.receipts && f.receipts[id].state == Active
              && s.money.Some? && f.receipts[id].bound.money.Some? && s.currency != f.receipts[id].bound.currency
            case _ => false
  {
    hide FoldsFit, ExpiryOk, LeasesOk, EventsOk, SwitchOk, ProjectionFits, ValidKey, WellFormed, CountersTake, Project;
    hide ValidSettlement;
    if id in f.receipts {
      assert ReceiptOk(f, cfg, id);
      var r := f.receipts[id];
      if r.state == Active {
        var q := Settle(r, s, payload, Complete);
        TakenMeaning(f, r, q, Later(f.clock, now));
        ProjectFrame(f, q, Later(f.clock, now));
      }
    }
  }

  /** A refused replacement: malformed, nothing pending under a receipt, or beyond the bound. */
  lemma UpdateRefusal(f: Core, cfg: Config, id: Id, payload: Payload, recovery: Settlement)
    requires Inv(f, cfg)
    ensures var s := UpdatePendingQuota(f, cfg, id, payload, recovery).status;
            s == Ok
            || (s == ErrInvalid && (!ValidKey(id) || !(0 < |payload| <= cfg.maxPayload) || !ValidSettlement(recovery)))
            || (s == ErrMissing && (id !in f.pending || id !in f.receipts))
            || (id in f.receipts && RecoveryRefused(f.receipts[id].bound, recovery, s))
  {
    hide FoldsFit, ExpiryOk, LeasesOk, EventsOk, SwitchOk, ModeOk, ValidKey, ValidSettlement, RecoveryStatus;
    hide RecoveryRefused, ValidAccounts, ValidBound;
    if id in f.receipts {
      assert ReceiptOk(f, cfg, id);
      if ValidSettlement(recovery) && RecoveryStatus(f.receipts[id].bound, recovery) != Ok {
        RecoveryRefusal(f.receipts[id].bound, recovery);
      }
    }
  }

  predicate Malformed(cfg: Config, id: Id, payload: Payload) { !ValidKey(id) || !(0 < |payload| <= cfg.maxPayload) }

  /** A refused plain operation. */
  lemma PlainRefusal(f: Core, cfg: Config, id: Id, payload: Payload)
    requires Inv(f, cfg)
    ensures match Reserve(f, cfg, id, payload).status
            case Ok => true
            case ErrInvalid => Malformed(cfg, id, payload) || id in f.pending || id in f.ready
            case ErrQuotaConflict => id in f.receipts
            case ErrFull => cfg.capacity <= |f.pending| + |f.ready|
            case _ => false
    ensures match UpdatePending(f, cfg, id, payload).status
            case Ok => true
            case ErrInvalid => Malformed(cfg, id, payload)
            case ErrMissing => id !in f.pending
            case _ => false
    ensures match CompletePlain(f, cfg, id, payload).status
            case Ok => true
            case ErrInvalid => Malformed(cfg, id, payload)
            case ErrQuotaRequired => id in f.receipts
            case ErrMissing => id !in f.pending && id !in f.ready
            case _ => false
    ensures Ack(f, id).status == if ValidKey(id) then Ok else ErrInvalid
  {
    hide Inv, ValidKey;
    InvDisjoint(f, cfg);
  }

  /** A refused activation, observation or startup. */
  lemma ModeRefusal(f: Core, cfg: Config, zone: string, account: Account, now: int)
    requires Inv(f, cfg)
    ensures match EnableQuota(f, cfg, zone, now).status
            case Ok => true
            case ErrInvalid => zone == "" || !cfg.loads(zone) || now <= 0
            case ErrQuotaConflict => f.version == V2 && f.zone != zone
            case _ => false
    ensures match ObserveQuota(f, cfg, account, now).status
            case Ok => true
            case ErrInvalid =>
              !ValidKey(account) || now <= 0 || cfg.month(f.zone, Later(f.clock, now)).0 < 0
              || cfg.month(f.zone, Later(f.clock, now)).1 <= Later(f.clock, now)
            case ErrQuotaInactive => f.version == V1
            case _ => false
    ensures ObserveLimits(f, now).status == if 0 < now then Ok else ErrInvalid
    ensures Open(f).status in {Ok, ErrInvalid}
  {
    hide FoldsFit, ReceiptsOk, ExpiryOk, FactsOk, LeasesOk, EventsOk, SwitchOk, ValidKey, PruneQuota, Rebuild, ReplayPending;
  }
}
