/** Where the guarantees of the journal end: exactly when startup succeeds, and runs after which
    startup fails, only completion fails, preflight misleads, or an event key is used twice. */
module LedgerBoundaries {
  import opened Wrappers
  import opened Decimals
  import opened LedgerTypes
  import opened Totals
  import opened Ledger
  import opened LedgerInvariant
  import opened LedgerSteps
  import opened LedgerRecovery
  import opened LedgerRefinement
  import opened LedgerFacts
  import opened LedgerRuns

  // ---------- when startup succeeds ----------

  lemma {:induction false} TotalAtMostOne<T(!new)>(m: map<T, int>)
    requires forall k :: k in m ==> m[k] <= 1
    ensures Total(m) <= |m|
    decreases |m|
  {
    if m != map[] {
      var k :| k in m;
      TotalTake(m, k);
      assert (m - {k}).Keys == m.Keys - {k};
      TotalAtMostOne(m - {k});
    }
  }

  /** Unknown amounts are counted one by one, so their counters never overflow. */
  lemma UnknownsFit(f: Core, cfg: Config, a: Account, w: Window, d: Dim)
    requires Inv(f, cfg) && f.version == V2 && cfg.quotaCapacity <= MAX_INT64
    requires d == TokensUnknown || d == MoneyUnknown
    ensures Fold(Rebuild(f), a, w, d) <= MAX_INT64
  {
    hide Inv, InterruptAll, RebuiltExpiry, TokenAmount, MoneyAmount;
    var g := Rebuild(f);
    assert g.receipts.Keys == f.receipts.Keys by { InterruptedAt(f); }
    forall id | id in Charged(g, a, w) ensures id in f.receipts {
      if w == InFlight { RebuiltInFlight(f, cfg, a); } else { RebuiltCharged(f, a, w, id); }
    }
    var m := Weights(g.receipts, Charged(g, a, w), d);
    TotalAtMostOne(m);
    assert m.Keys == Charged(g, a, w);
    SubsetCard(Charged(g, a, w), f.receipts.Keys);
    RoomForAll(f, cfg);
  }

  /** Startup of an active journal succeeds exactly when, in every window of every account, the
      tokens used and the tokens held after interruption each fit in a signed 64-bit integer. */
  lemma RecoveryTotalIff(f: Core, cfg: Config)
    requires Inv(f, cfg) && f.version == V2 && cfg.quotaCapacity <= MAX_INT64
    ensures Open(f).status == Ok <==>
              forall a, w :: && Fold(Rebuild(f), a, w, TokensUsed) <= MAX_INT64
                             && Fold(Rebuild(f), a, w, TokensHeld) <= MAX_INT64
  {
    hide Inv, Fold, Rebuild, PruneQuota, ReplayPending;
    var g := Rebuild(f);
    if forall a, w :: Fold(g, a, w, TokensUsed) <= MAX_INT64 && Fold(g, a, w, TokensHeld) <= MAX_INT64 {
      forall a, w, d | d in {TokensUsed, TokensHeld, TokensUnknown, MoneyUnknown} ensures Fold(g, a, w, d) <= MAX_INT64 {
        if d == TokensUnknown || d == MoneyUnknown { UnknownsFit(f, cfg, a, w, d); }
      }
    }
  }

  /** The receipts that name account a. */
  function Retained(f: Core, a: Account): (ids: set<Id>)
  {
    set id | id in f.receipts && a in Names(f.receipts[id])
  }

  /** What account a would count if every retained receipt were still inside its windows. */
  ghost function RetainedTokens(f: Core, a: Account): (n: int)
  {
    Total(map id | id in Retained(f, a) :: CountedTokens(Interrupt(f.receipts[id], f.pending)))
  }

  /** Startup succeeds whenever no account's retained tokens exceed a signed 64-bit integer. */
  lemma RecoveryIsTotal(f: Core, cfg: Config)
    requires Inv(f, cfg) && cfg.quotaCapacity <= MAX_INT64
    requires forall a :: RetainedTokens(f, a) <= MAX_INT64
    ensures Open(f).status == Ok
  {
    hide Inv, Fold, Rebuild, RetainedTokens, PruneQuota;
    if f.version == V2 {
      forall a, w ensures Fold(Rebuild(f), a, w, TokensUsed) <= MAX_INT64 && Fold(Rebuild(f), a, w, TokensHeld) <= MAX_INT64 {
        assert RetainedTokens(f, a) <= MAX_INT64;
        RetainedBounds(f, cfg, a, w, TokensUsed);
        RetainedBounds(f, cfg, a, w, TokensHeld);
      }
      RecoveryTotalIff(f, cfg);
    }
  }

  lemma RetainedBounds(f: Core, cfg: Config, a: Account, w: Window, d: Dim)
    requires Inv(f, cfg) && (d == TokensUsed || d == TokensHeld)
    ensures Fold(Rebuild(f), a, w, d) <= RetainedTokens(f, a)
  {
    hide Inv, InterruptAll, RebuiltExpiry, Interrupt, Names, CountedTokens, Contribution;
    var g := Rebuild(f);
    var m := map id | id in Retained(f, a) :: CountedTokens(Interrupt(f.receipts[id], f.pending));
    forall id | id in f.receipts
      ensures 0 <= CountedTokens(Interrupt(f.receipts[id], f.pending))
      ensures Contribution(Interrupt(f.receipts[id], f.pending), d) <= CountedTokens(Interrupt(f.receipts[id], f.pending))
      ensures Names(Interrupt(f.receipts[id], f.pending)) == Names(f.receipts[id])
    {
      InterruptedReceipt(f, cfg, id);
      CountedIsMost(Interrupt(f.receipts[id], f.pending), d);
    }
    InterruptedAt(f);
    forall id | id in Charged(g, a, w) ensures id in Retained(f, a) {
      if w == InFlight { RebuiltInFlight(f, cfg, a); } else { RebuiltCharged(f, a, w, id); }
    }
    TotalMonotone(Weights(g.receipts, Charged(g, a, w), d), m);
  }

  lemma InterruptedAt(f: Core)
    ensures InterruptAll(f).Keys == f.receipts.Keys
    ensures forall id :: id in f.receipts ==> InterruptAll(f)[id] == Interrupt(f.receipts[id], f.pending)
  {
    hide Interrupt;
  }

  lemma CountedIsMost(r: Receipt, d: Dim)
    requires WellFormed(r) && (d == TokensUsed || d == TokensHeld)
    ensures 0 <= CountedTokens(r) && Contribution(r, d) <= CountedTokens(r)
  {}

  // ---------- a run whose recovery fails ----------

  const NO_CEILINGS := Policy(Limit("acct", None, None), "rev", true, false, None, None, None, None, None, None, "",
                              Stop, Stop)
  const LARGEST := Bound(Some(MAX_INT64), None, "", "", "", "")

  // The ends of January and February 1970 in UTC, and the last instant of that January.
  const JANUARY_END: int := 2_678_400_000_000_000
  const FEBRUARY_END: int := 5_097_600_000_000_000
  const FIRST: int := JANUARY_END - 1

  /** UTC's months as far as the runs below go; an instant before 1970 has none. */
  function MonthAt(t: int): (m: (int, int))
  {
    if t < 0 then (-1, 0) else if t < JANUARY_END then (0, JANUARY_END) else (JANUARY_END, FEBRUARY_END)
  }

  /** The journal's own history capacity, little room otherwise, and any calendar in which the first
      two months of UTC are what they are. */
  ghost predicate UtcBegins(cfg: Config)
  {
    && cfg.capacity >= 2 && cfg.maxPayload >= 1 && cfg.quotaCapacity == QUOTA_HISTORY_CAPACITY && cfg.loads("UTC")
    && forall t :: 0 <= t < FEBRUARY_END ==> cfg.month("UTC", t) == MonthAt(t)
  }

  const TWO_MONTHS := Config(2, 1, QUOTA_HISTORY_CAPACITY, zone => true, (zone, t) => MonthAt(t))

  /** There are such calendars whose months partition the time they cover. */
  lemma TwoMonthsPartition()
    ensures UtcBegins(TWO_MONTHS) && CalendarOk(TWO_MONTHS)
  {
    forall z, t | QuotaMonth(TWO_MONTHS, z, t).Some?
      ensures MonthOf(TWO_MONTHS, z, t, QuotaMonth(TWO_MONTHS, z, t).value)
    {}
  }

  /** Reserve the largest bound, settle it without a measured amount, reserve it again. */
  const OVERFLOW: seq<Op> :=
    [OpEnableQuota("UTC", FIRST),
     OpReserveWithQuota("a", "x", [NO_CEILINGS], LARGEST, NO_SETTLEMENT, FIRST),
     OpCompleteQuota("a", "x", NO_SETTLEMENT, FIRST),
     OpReserveWithQuota("b", "x", [NO_CEILINGS], LARGEST, NO_SETTLEMENT, FIRST)]

  function Admission(id: Id, t: int): (r: Receipt)
  {
    Receipt(id, t, MonthAt(t).0, MonthAt(t).1, [QuotaAccount("acct", "rev")], LARGEST, Active,
            NO_SETTLEMENT, NO_SETTLEMENT, None, false)
  }

  /** An active journal whose pruned history at instant t is h, with room for one more request. */
  predicate Calm(f: Core, h: Core, t: int)
  {
    && f.version == V2 && f.zone == "UTC" && f.coverage == FIRST && 0 < t < FEBRUARY_END && f.clock <= t
    && h == PruneQuota(PruneLimits(f, t), t)
    && |f.pending| + |f.ready| < 2 && |f.receipts| < 10 && |f.events| < 10
    && ("acct" in f.births ==> f.births["acct"] == 0)
  }

  predicate Unused(f: Core, id: Id) { id !in f.receipts && id !in f.pending && id !in f.ready }

  lemma CalmHistory(f: Core, h: Core, t: int)
    requires Calm(f, h, t)
    ensures |PruneLimits(f, t).events| < 10 && |h.receipts| < 10 && h.births == f.births
    ensures h.leases == f.leases && h.pending == f.pending && h.ready == f.ready
  {
    hide Due;
    SubsetCard(PruneLimits(f, t).events, f.events);
    SubsetCard(h.receipts.Keys, f.receipts.Keys);
  }

  /** The common check passes, whatever is in flight. */
  lemma CalmChecks(cfg: Config, f: Core, h: Core, id: Id, zone: string, t: int)
    requires UtcBegins(cfg)
    requires Calm(f, h, t) && Unused(f, id) && zone in {"", "UTC"}
    ensures CheckQuotaAdmission(f, cfg, id, [NO_CEILINGS], LARGEST, zone, t) == QuotaAdmitted(h, Admission(id, t))
  {
    hide PruneQuota, LiveEvents, PoliciesStatus, LimitsStatus;
    CalmHistory(f, h, t);
    var ps := [NO_CEILINGS];
    assert PolicyLimits(ps) == [NO_CEILINGS.limit] && PolicyAccounts(ps) == [QuotaAccount("acct", "rev")];
    LimitsUnlimited(PruneLimits(f, t));
    MonthFound(cfg, t);
    CalmPolicies(h, t, MonthAt(t).0);
  }

  lemma LimitsUnlimited(f: Core)
    ensures LimitsStatus(f, [NO_CEILINGS.limit], 0) == Ok
  {
    assert LimitsStatus(f, [NO_CEILINGS.limit], 1) == Ok;
  }

  lemma {:induction false} TokensUnlimited(f: Core, tws: seq<TokenWindow>, i: nat)
    requires i <= |tws| && forall j :: 0 <= j < |tws| ==> tws[j].ceiling == None
    ensures TokensStatus(f, NO_CEILINGS, LARGEST, FIRST, tws, i) == Ok
    decreases |tws| - i
  {
    if i < |tws| { TokensUnlimited(f, tws, i + 1); }
  }

  lemma CalmPolicies(h: Core, t: int, start: int)
    requires "acct" in h.births ==> h.births["acct"] == 0
    ensures PoliciesStatus(h, [NO_CEILINGS], LARGEST, FIRST, t, start, 0) == Ok
  {
    hide TokensStatus;
    TokensUnlimited(h, TokenWindows(NO_CEILINGS, t, start), 0);
    assert PolicyStatus(h, NO_CEILINGS, LARGEST, FIRST, t, start) == Ok;
    assert PoliciesStatus(h, [NO_CEILINGS], LARGEST, FIRST, t, start, 1) == Ok;
  }

  lemma MonthFound(cfg: Config, t: int)
    requires UtcBegins(cfg) && 0 < t < FEBRUARY_END
    ensures QuotaMonth(cfg, "UTC", t) == Some(MonthAt(t))
  {}

  lemma IdleRoom(h: Core, r: Receipt)
    requires forall id :: id in h.receipts ==> Terminal(h.receipts[id])
    requires r.state == Active
    ensures InFlightFits(h, r)
  {
    forall a, d ensures Fold(h, a, InFlight, d) == 0 {
      assert Charged(h, a, InFlight) == {};
      assert Weights(h.receipts, {}, d) == map[];
    }
  }

  function Admit(h: Core, id: Id, t: int): (g: Core)
  {
    h.(events := h.events + {Event(t, id, "acct")}, leases := h.leases[id := ["acct"]],
       pending := h.pending[id := "x"], births := h.births["acct" := 0], receipts := h.receipts[id := Admission(id, t)])
  }

  lemma CalmAdmits(cfg: Config, f: Core, h: Core, id: Id, t: int)
    requires UtcBegins(cfg)
    requires Calm(f, h, t) && Unused(f, id) && ValidKey(id)
    requires forall id :: id in h.receipts ==> Terminal(h.receipts[id])
    ensures ReserveWithQuota(f, cfg, id, "x", [NO_CEILINGS], LARGEST, NO_SETTLEMENT, t) == Outcome(Ok, Admit(h, id, t))
  {
    hide CheckQuotaAdmission, InFlightFits, NewEvents, Calm;
    CalmChecks(cfg, f, h, id, "", t);
    IdleRoom(h, Admission(id, t));
    var ps := [NO_CEILINGS];
    assert LimitAccounts(PolicyLimits(ps)) == ["acct"];
    CalmBirths(f, h, ps, t);
    OneEvent(id, t);
  }

  lemma CalmBirths(f: Core, h: Core, ps: seq<Policy>, t: int)
    requires Calm(f, h, t) && ps == [NO_CEILINGS]
    ensures Establish(h.births, ps, 1) == h.births["acct" := 0]
  {
    CalmHistory(f, h, t);
    assert Establish(h.births, ps, 0) == h.births;
  }

  lemma OneEvent(id: Id, t: int)
    ensures NewEvents(id, t, ["acct"]) == {Event(t, id, "acct")}
  {
    assert Event(t, id, ["acct"][0]) in NewEvents(id, t, ["acct"]);
  }

  /** At its own instant a journal has nothing to prune. */
  lemma NothingToPrune(f: Core)
    requires f.clock == FIRST
    requires (forall e :: e in f.events ==> e.at == FIRST) && (forall k :: k in f.expiry ==> k.at > FIRST)
    ensures PruneLimits(f, FIRST) == f && PruneQuota(f, FIRST) == f
  {
    assert LiveEvents(f.events, FIRST) == f.events;
    assert RetiredIds(f, FIRST) == {};
  }

  lemma CalmNow(f: Core)
    requires f.version == V2 && f.clock == FIRST && f.zone == "UTC" && f.coverage == FIRST
    requires |f.pending| + |f.ready| < 2 && |f.receipts| < 10 && |f.events| < 10
    requires (forall e :: e in f.events ==> e.at == FIRST) && (forall k :: k in f.expiry ==> k.at > FIRST)
    requires "acct" in f.births ==> f.births["acct"] == 0
    ensures Calm(f, f, FIRST)
  {
    hide PruneLimits, PruneQuota;
    NothingToPrune(f);
  }

  const ACTIVATED := EMPTY_CORE.(version := V2, clock := FIRST, zone := "UTC", coverage := FIRST)

  function Settled(f: Core): (g: Core)
  {
    Project(f, Settle(Admission("a", FIRST), NO_SETTLEMENT, "x", Complete), FIRST)
      .(leases := f.leases - {"a"}, pending := f.pending - {"a"}, ready := f.ready["a" := "x"])
  }

  function StateAt(n: nat): (f: Core)
    requires n <= 4
  {
    if n == 0 then EMPTY_CORE
    else if n == 1 then ACTIVATED
    else if n == 2 then Admit(ACTIVATED, "a", FIRST)
    else if n == 3 then Settled(Admit(ACTIVATED, "a", FIRST))
    else Admit(Settled(Admit(ACTIVATED, "a", FIRST)), "b", FIRST)
  }

  lemma Activates(cfg: Config)
    requires UtcBegins(cfg)
    ensures Step(EMPTY_CORE, cfg, OVERFLOW[0]) == Outcome(Ok, ACTIVATED)
  {}

  lemma FirstAdmission(cfg: Config)
    requires UtcBegins(cfg)
    ensures Step(ACTIVATED, cfg, OVERFLOW[1]) == Outcome(Ok, Admit(ACTIVATED, "a", FIRST))
  {
    hide Admit, CheckQuotaAdmission;
    CalmNow(ACTIVATED);
    CalmAdmits(cfg, ACTIVATED, ACTIVATED, "a", FIRST);
  }

  /** Nothing was charged before, so the unmeasured settlement fits. */
  lemma FirstSettlement(cfg: Config, f: Core)
    requires UtcBegins(cfg)
    requires f == Admit(ACTIVATED, "a", FIRST)
    ensures Step(f, cfg, OVERFLOW[2]) == Outcome(Ok, Settled(f))
  {
    hide ChargeKeys, Project;
    var q := Settle(Admission("a", FIRST), NO_SETTLEMENT, "x", Complete);
    NothingCharged(f, q);
    assert Project(f, q, FIRST).pending == f.pending && Project(f, q, FIRST).ready == f.ready && Project(f, q, FIRST).leases == f.leases
      by { ProjectFacts(f, q); }
  }

  lemma ProjectFacts(f: Core, q: Receipt)
    ensures Project(f, q, FIRST).pending == f.pending && Project(f, q, FIRST).ready == f.ready
    ensures Project(f, q, FIRST).leases == f.leases && Project(f, q, FIRST).events == f.events
  {}

  lemma NothingCharged(f: Core, q: Receipt)
    requires f.expiry == {} && (q.bound.tokens.Some? || q.actual.tokens.Some?)
    ensures ProjectionFits(f, q, FIRST)
  {
    hide Names, Windows, WindowEnd;
    forall a, w | a in Names(q) && w in Windows(q) && WindowEnd(q, w) > FIRST ensures Fits(f, a, w, q) {
      assert w != InFlight by { WindowsPass(q, w); }
      forall d ensures Fold(f, a, w, d) == 0 {
        assert Charged(f, a, w) == {};
        assert Weights(f.receipts, {}, d) == map[];
      }
    }
  }

  lemma WindowsPass(q: Receipt, w: Window)
    requires w in Windows(q)
    ensures w != InFlight
  {}

  lemma SecondAdmission(cfg: Config, f: Core)
    requires UtcBegins(cfg)
    requires f == Settled(Admit(ACTIVATED, "a", FIRST))
    ensures Step(f, cfg, OVERFLOW[3]) == Outcome(Ok, Admit(f, "b", FIRST))
  {
    hide Admit, CheckQuotaAdmission, Settled, Calm;
    SettledIsIdle(f);
    CalmAdmits(cfg, f, f, "b", FIRST);
  }

  lemma SettledIsIdle(f: Core)
    requires f == Settled(Admit(ACTIVATED, "a", FIRST))
    ensures Calm(f, f, FIRST) && Unused(f, "b") && forall id :: id in f.receipts ==> Terminal(f.receipts[id])
    ensures forall e :: e in f.events ==> e.at == FIRST
  {
    hide ChargeKeys, Latest, Settle, PruneQuota, LiveEvents;
    var q := Settle(Admission("a", FIRST), NO_SETTLEMENT, "x", Complete);
    assert q.id == "a" && Terminal(q) && !q.overrun && q.admittedAt == FIRST by { SettledTerminal(Admission("a", FIRST)); }
    forall k | k in f.expiry ensures k.at > FIRST { SettledKeys(q, k); }
    assert f.receipts == map["a" := q];
    assert f.pending == map[] && f.ready == map["a" := "x"];
    CalmNow(f);
  }

  lemma SettledTerminal(r: Receipt)
    requires !r.overrun
    ensures var q := Settle(r, NO_SETTLEMENT, "x", Complete);
            q.id == r.id && Terminal(q) && !q.overrun && q.admittedAt == r.admittedAt
  {}

  lemma SettledKeys(q: Receipt, k: ExpiryKey)
    requires k in ChargeKeys(q, FIRST) + {Retire(Latest(q), q.id)} && q.admittedAt == FIRST
    ensures k.at > FIRST
  {}

  /** After recovery both requests hold the largest bound. */
  predicate Holds(r: Receipt)
  {
    && r.accounts == [QuotaAccount("acct", "rev")] && r.bound == LARGEST && r.admittedAt == FIRST
    && Terminal(r) && r.actual == NO_SETTLEMENT
  }

  lemma BothHold(f: Core)
    requires f == Admit(Settled(Admit(ACTIVATED, "a", FIRST)), "b", FIRST)
    ensures f.receipts.Keys == {"a", "b"} && f.clock == FIRST && f.version == V2
    ensures Holds(Interrupt(f.receipts["a"], f.pending)) && Holds(Interrupt(f.receipts["b"], f.pending))
    ensures f.receipts["a"].admittedAt == FIRST && f.receipts["b"].admittedAt == FIRST
  {
    hide ChargeKeys;
  }

  lemma HoldCharges(r: Receipt)
    requires Holds(r)
    ensures "acct" in Names(r) && Minute in Windows(r) && WindowEnd(r, Minute) == FIRST + MINUTE
    ensures Contribution(r, TokensHeld) == MAX_INT64
  {
    assert r.accounts[0].account == "acct";
  }

  /** The two holds of the largest bound meet in one counter. */
  lemma HoldsCollide(f: Core)
    requires f == Admit(Settled(Admit(ACTIVATED, "a", FIRST)), "b", FIRST)
    ensures !FoldsFit(Rebuild(f))
  {
    hide Admit, Settled, RebuiltExpiry, Charged, Interrupt, Names, Windows, Contribution, Holds;
    BothHold(f);
    InterruptedAt(f);
    var g := Rebuild(f);
    forall id ensures id in Charged(g, "acct", Minute) <==> id in {"a", "b"} {
      RebuiltCharged(f, "acct", Minute, id);
      if id in {"a", "b"} { HoldCharges(Interrupt(f.receipts[id], f.pending)); }
    }
    HoldCharges(Interrupt(f.receipts["a"], f.pending));
    HoldCharges(Interrupt(f.receipts["b"], f.pending));
    assert Charged(g, "acct", Minute) == {} + {"a"} + {"b"};
    SumInsert(g.receipts, {} + {"a"}, "b", TokensHeld);
    SumInsert(g.receipts, {}, "a", TokensHeld);
    assert Weights(g.receipts, {}, TokensHeld) == map[];
    assert Fold(g, "acct", Minute, TokensHeld) == 2 * MAX_INT64;
  }

  /** Every operation of this run succeeds, and the journal it leaves cannot be opened again. */
  lemma RecoveryCanFail(cfg: Config)
    requires UtcBegins(cfg)
    ensures var states := seq(5, n requires 0 <= n < 5 => StateAt(n));
            && IsRun(cfg, states, OVERFLOW)
            && (forall i :: 0 <= i < 4 ==> Step(states[i], cfg, OVERFLOW[i]).status == Ok)
            && Open(states[4]).status == ErrInvalid
  {
    hide Step, Rebuild, FoldsFit, Admit, Settled;
    var states := seq(5, n requires 0 <= n < 5 => StateAt(n));
    Activates(cfg);
    FirstAdmission(cfg);
    FirstSettlement(cfg, states[2]);
    SecondAdmission(cfg, states[3]);
    forall i | 0 <= i < 4 ensures Step(states[i], cfg, OVERFLOW[i]) == Outcome(Ok, states[i + 1]) {
      assert i == 0 || i == 1 || i == 2 || i == 3;
    }
    HoldsCollide(states[4]);
    BothHold(states[4]);
  }

  // ---------- what preflight does not see ----------

  lemma OneHeld(f: Core)
    requires f == Admit(ACTIVATED, "a", FIRST)
    ensures !InFlightFits(f, Admission("b", FIRST))
  {
    hide Contribution, Names;
    HeldBound("a", FIRST);
    HeldBound("b", FIRST);
    assert Charged(f, "acct", InFlight) == {} + {"a"};
    SumInsert(f.receipts, {}, "a", TokensHeld);
    assert Weights(f.receipts, {}, TokensHeld) == map[];
    assert Fold(f, "acct", InFlight, TokensHeld) == MAX_INT64;
    assert Fits(f, "acct", InFlight, Admission("b", FIRST)) ==>
        Fold(f, "acct", InFlight, TokensHeld) + Contribution(Admission("b", FIRST), TokensHeld) <= MAX_INT64;
  }

  lemma HeldBound(id: Id, t: int)
    ensures Names(Admission(id, t)) == {"acct"} && Contribution(Admission(id, t), TokensHeld) == MAX_INT64
  {
    assert Admission(id, t).accounts[0].account == "acct";
  }

  /** After two operations, with one request of the largest bound in flight, preflight of another
      one passes and its admission is refused. */
  lemma PreflightCanMislead(cfg: Config)
    requires UtcBegins(cfg)
    ensures var states := seq(3, n requires 0 <= n < 3 => StateAt(n));
            && IsRun(cfg, states, OVERFLOW[..2])
            && PreflightWithQuota(states[2], cfg, "b", [NO_CEILINGS], LARGEST, "UTC", FIRST) == Outcome(Ok, states[2])
            && ReserveWithQuota(states[2], cfg, "b", "x", [NO_CEILINGS], LARGEST, NO_SETTLEMENT, FIRST).status == ErrInvalid
  {
    hide Step, Admit, Calm, CheckQuotaAdmission, InFlightFits;
    var states := seq(3, n requires 0 <= n < 3 => StateAt(n));
    Activates(cfg);
    FirstAdmission(cfg);
    forall i | 0 <= i < 2 ensures Step(states[i], cfg, OVERFLOW[..2][i]).core == states[i + 1] {
      assert i == 0 || i == 1;
    }
    HeldIsCalm(states[2]);
    CalmChecks(cfg, states[2], states[2], "b", "UTC", FIRST);
    CalmChecks(cfg, states[2], states[2], "b", "", FIRST);
    OneHeld(states[2]);
  }

  lemma HeldIsCalm(f: Core)
    requires f == Admit(ACTIVATED, "a", FIRST)
    ensures Calm(f, f, FIRST) && Unused(f, "b")
  {
    hide PruneQuota, PruneLimits, Calm;
    CalmNow(f);
  }

  // ---------- a run whose completion fails although its recovery does not ----------

  // The first request's last window ends; one nanosecond earlier the second request is admitted.
  const END: int := FIRST + SEVEN_DAYS
  const LATE: int := END - 1

  /** As before, but the second request is admitted in February, as the first one's last window ends. */
  const LINGERING: seq<Op> :=
    OVERFLOW[..3] + [OpReserveWithQuota("b", "x", [NO_CEILINGS], LARGEST, NO_SETTLEMENT, LATE),
                     OpObserveLimits(END)]

  function HistoryAt(f: Core, t: int): (h: Core) { PruneQuota(PruneLimits(f, t), t) }

  function LingeringAt(n: nat): (f: Core)
    requires n <= 5
  {
    if n <= 3 then StateAt(n)
    else if n == 4 then Admit(HistoryAt(StateAt(3), LATE), "b", LATE)
    else PruneLimits(LingeringAt(4), END)
  }

  const UNMEASURED := Settle(Admission("a", FIRST), NO_SETTLEMENT, "x", Complete)
  const LAST_CHARGE := Charge(END, "acct", SevenDays, "a")

  /** One settled request, with its seven-day charge. */
  predicate OneSettled(f: Core)
  {
    && f.version == V2 && f.clock == FIRST && f.zone == "UTC" && f.coverage == FIRST
    && f.pending == map[] && f.ready == map["a" := "x"] && f.receipts == map["a" := UNMEASURED]
    && LAST_CHARGE in f.expiry && (forall k :: k in f.expiry && k.Retire? ==> k.at > LATE)
    && |f.events| < 10 && ("acct" in f.births ==> f.births["acct"] == 0)
  }

  lemma SettledIsOne(f: Core)
    requires f == Settled(Admit(ACTIVATED, "a", FIRST))
    ensures OneSettled(f)
  {
    hide ChargeKeys, Settle, Latest;
    SettledTerminal(Admission("a", FIRST));
    FirstCharge();
    forall k | k in f.expiry && k.Retire? ensures k.at > LATE { OnlyRetirement(k); }
  }

  /** The seven-day charge of the first request is still there, and so is its receipt. */
  lemma KeptHistory(f: Core, h: Core)
    requires OneSettled(f) && h == HistoryAt(f, LATE)
    ensures h.receipts == map["a" := UNMEASURED] && LAST_CHARGE in h.expiry
    ensures h.version == V2 && h.pending == map[] && h.ready == map["a" := "x"]
    ensures h.zone == "UTC" && h.coverage == FIRST
    ensures Calm(f, h, LATE) && Unused(f, "b")
  {
    hide LiveEvents;
    assert RetiredIds(PruneLimits(f, LATE), LATE) == {};
    assert f.receipts - {} == f.receipts;
  }

  lemma FirstCharge()
    ensures LAST_CHARGE in ChargeKeys(UNMEASURED, FIRST)
  {
    assert UNMEASURED.accounts[0].account == "acct";
    assert WindowEnd(UNMEASURED, SevenDays) == END;
    assert SevenDays in Windows(UNMEASURED) && "acct" in Names(UNMEASURED);
  }

  lemma OnlyRetirement(k: ExpiryKey)
    requires k in ChargeKeys(UNMEASURED, FIRST) + {Retire(Latest(UNMEASURED), "a")} && k.Retire?
    ensures k.at == END
  {}

  lemma LateAdmission(cfg: Config, f: Core)
    requires UtcBegins(cfg)
    requires f == StateAt(3)
    ensures Step(f, cfg, LINGERING[3]) == Outcome(Ok, LingeringAt(4))
  {
    hide Admit, Settled, Calm, HistoryAt, OneSettled, CheckQuotaAdmission, ReserveWithQuota;
    var h := HistoryAt(f, LATE);
    SettledIsOne(f);
    KeptHistory(f, h);
    assert Terminal(UNMEASURED) by { SettledTerminal(Admission("a", FIRST)); }
    CalmAdmits(cfg, f, h, "b", LATE);
  }

  /** What the run leaves behind: a charge whose window has just ended beside a running request. */
  predicate Lingers(f: Core)
  {
    && f.version == V2 && f.clock == END && f.zone == "UTC" && f.coverage == FIRST
    && f.receipts == map["a" := UNMEASURED, "b" := Admission("b", LATE)]
    && f.pending == map["b" := "x"] && f.ready == map["a" := "x"] && LAST_CHARGE in f.expiry
  }

  lemma LastLingers()
    ensures Lingers(LingeringAt(5))
  {
    hide Settled, LiveEvents, HistoryAt, OneSettled;
    SettledIsOne(StateAt(3));
    KeptHistory(StateAt(3), HistoryAt(StateAt(3), LATE));
  }

  lemma LingeringRun(cfg: Config)
    requires UtcBegins(cfg)
    ensures IsRun(cfg, seq(6, n requires 0 <= n < 6 => LingeringAt(n)), LINGERING)
    ensures forall i :: 0 <= i < 5 ==> Step(LingeringAt(i), cfg, LINGERING[i]).status == Ok
  {
    hide Step, Admit, Settled, HistoryAt, Lingers;
    Activates(cfg);
    FirstAdmission(cfg);
    FirstSettlement(cfg, StateAt(2));
    LateAdmission(cfg, StateAt(3));
    LastLingers();
    LastObservation(cfg);
    forall i | 0 <= i < 5 ensures Step(LingeringAt(i), cfg, LINGERING[i]) == Outcome(Ok, LingeringAt(i + 1)) {
      assert i == 0 || i == 1 || i == 2 || i == 3 || i == 4;
    }
  }

  lemma LastObservation(cfg: Config)
    requires UtcBegins(cfg)
    ensures Step(LingeringAt(4), cfg, LINGERING[4]) == Outcome(Ok, LingeringAt(5))
  {
    hide Admit, HistoryAt, LiveEvents, StateAt;
    assert LingeringAt(4).clock == LATE by { LateClock(); }
  }

  lemma LateClock()
    ensures LingeringAt(4).clock == LATE
  {
    hide StateAt, LiveEvents, Due;
  }

  lemma LingeringCharge(r: Receipt, t: int)
    requires r.accounts == [QuotaAccount("acct", "rev")] && r.bound == LARGEST && r.admittedAt == t
    requires Terminal(r) ==> r.actual == NO_SETTLEMENT
    ensures Names(r) == {"acct"} && SevenDays in Windows(r) && WindowEnd(r, SevenDays) == t + SEVEN_DAYS
    ensures Contribution(r, TokensHeld) == MAX_INT64
  {
    assert r.accounts[0].account == "acct";
  }

  /** The lingering charge leaves no room for the second request's own. */
  lemma LingeringOverflows(cfg: Config, f: Core)
    requires UtcBegins(cfg)
    requires Inv(f, cfg) && Lingers(f)
    ensures !ProjectionFits(f, Settle(f.receipts["b"], NO_SETTLEMENT, "x", Complete), f.clock)
  {
    hide Inv, Contribution, Names, Windows, WindowEnd, Charged;
    var q := Settle(f.receipts["b"], NO_SETTLEMENT, "x", Complete);
    LingeringCharge(q, LATE);
    LingeringCharge(UNMEASURED, FIRST);
    LingeringCharged(cfg, f);
    assert Charged(f, "acct", SevenDays) == {} + {"a"};
    SumInsert(f.receipts, {}, "a", TokensHeld);
    assert Weights(f.receipts, {}, TokensHeld) == map[];
    assert Fold(f, "acct", SevenDays, TokensHeld) == MAX_INT64;
    assert Fits(f, "acct", SevenDays, q) ==>
        Fold(f, "acct", SevenDays, TokensHeld) + Contribution(q, TokensHeld) <= MAX_INT64;
  }

  lemma LingeringCharged(cfg: Config, f: Core)
    requires UtcBegins(cfg)
    requires Inv(f, cfg) && Lingers(f)
    ensures Charged(f, "acct", SevenDays) == {"a"}
  {
    hide Inv, Settle, Admission;
    forall id ensures id in Charged(f, "acct", SevenDays) ==> id == "a" {
      ChargedSound(f, cfg, "acct", SevenDays, id);
      assert !Terminal(Admission("b", LATE)) by { RunningAdmission(LATE); }
    }
    assert LAST_CHARGE in f.expiry;
  }

  lemma RunningAdmission(t: int)
    ensures !Terminal(Admission("b", t))
  {}

  /** Startup charges only the second request. */
  lemma LingeringRecovers(cfg: Config, f: Core)
    requires UtcBegins(cfg)
    requires Inv(f, cfg) && Lingers(f)
    ensures Open(f).status == Ok
  {
    hide Inv, Open, Rebuild, Charged, Contribution, Interrupt, Names, Windows, WindowEnd;
    var g := Rebuild(f);
    forall a, w, d | d == TokensUsed || d == TokensHeld ensures Fold(g, a, w, d) <= MAX_INT64 {
      LingeringFold(cfg, f, a, w, d);
    }
    RecoveryTotalIff(f, cfg);
  }

  lemma LingeringFold(cfg: Config, f: Core, a: Account, w: Window, d: Dim)
    requires UtcBegins(cfg)
    requires Inv(f, cfg) && Lingers(f) && (d == TokensUsed || d == TokensHeld)
    ensures Fold(Rebuild(f), a, w, d) <= MAX_INT64
  {
    hide Inv, Rebuild, Charged, Contribution, Interrupt;
    var g := Rebuild(f);
    RebuiltWeighable(f, cfg);
    forall id | id in Charged(g, a, w) ensures id == "b" {
      if w == InFlight { RebuiltInFlight(f, cfg, a); } else { RebuiltCharged(f, a, w, id); }
      FirstEnded(f, w);
    }
    SumMonotone(g.receipts, Charged(g, a, w), g.receipts, {} + {"b"}, d);
    SumInsert(g.receipts, {}, "b", d);
    assert Weights(g.receipts, {}, d) == map[];
    LingeringWeight(f, d);
  }

  lemma FirstEnded(f: Core, w: Window)
    requires Lingers(f)
    ensures w in Windows(UNMEASURED) ==> WindowEnd(UNMEASURED, w) <= f.clock
    ensures Interrupt(UNMEASURED, f.pending) == UNMEASURED
  {}

  lemma LingeringWeight(f: Core, d: Dim)
    requires Lingers(f) && (d == TokensUsed || d == TokensHeld)
    ensures Weight(Rebuild(f).receipts, "b", d) <= MAX_INT64
  {
    hide RebuiltExpiry;
    InterruptedAt(f);
  }

  /** Startup would succeed, but request id cannot be completed with its own crash settlement. */
  ghost predicate StuckUntilRestart(cfg: Config, f: Core, id: Id, now: int)
  {
    Open(f).status == Ok && id in f.pending && CompleteOne(f, cfg, id, now).status == ErrInvalid
  }

  /** Every operation of this run succeeds and so does startup afterwards, but the request still
      running cannot be completed. */
  lemma CompletionCanFail(cfg: Config)
    requires UtcBegins(cfg)
    ensures var states := seq(6, n requires 0 <= n < 6 => LingeringAt(n));
            && IsRun(cfg, states, LINGERING)
            && (forall i :: 0 <= i < 5 ==> Step(states[i], cfg, LINGERING[i]).status == Ok)
            && StuckUntilRestart(cfg, states[5], "b", END)
  {
    hide Step, LingeringAt, Inv, Open, ProjectionFits, IsRun, CompleteOne;
    var states := seq(6, n requires 0 <= n < 6 => LingeringAt(n));
    LingeringRun(cfg);
    LastLingers();
    RunKeeps(cfg, states, LINGERING, 5);
    LingeringRecovers(cfg, states[5]);
    LingeringOverflows(cfg, states[5]);
    LingeringRefused(cfg, states[5]);
  }

  lemma LingeringRefused(cfg: Config, f: Core)
    requires UtcBegins(cfg)
    requires Lingers(f)
    requires !ProjectionFits(f, Settle(f.receipts["b"], NO_SETTLEMENT, "x", Complete), f.clock)
    ensures CompleteOne(f, cfg, "b", END).status == ErrInvalid
  {
    hide ProjectionFits, Settle;
  }

  // ---------- a run that uses an event key twice ----------

  const UNCAPPED := Limit("acct", None, None)

  /** Admit, complete and acknowledge one id, then admit it again at the same instant. */
  const REUSE: seq<Op> :=
    [OpReserveWithLimits("a", "x", [UNCAPPED], 1), OpComplete("a", "x"), OpAck("a"),
     OpReserveWithLimits("a", "x", [UNCAPPED], 1)]

  const USED_ONCE := EMPTY_CORE.(clock := 1, events := {Event(1, "a", "acct")})

  const REUSED := USED_ONCE.(leases := map["a" := ["acct"]], pending := map["a" := "x"])

  lemma AdmitsUncapped(cfg: Config, f: Core)
    requires cfg.capacity >= 1 && cfg.maxPayload >= 1
    requires f == EMPTY_CORE || f == USED_ONCE
    ensures ReserveWithLimits(f, cfg, "a", "x", [UNCAPPED], 1) == Outcome(Ok, REUSED)
  {
    hide NewEvents;
    var g := PruneLimits(f, 1);
    assert g == f.(clock := 1);
    assert LimitsStatus(g, [UNCAPPED], 1) == Ok;
    assert LimitAccounts([UNCAPPED]) == ["acct"];
    OneEvent("a", 1);
    assert f.events + {Event(1, "a", "acct")} == {Event(1, "a", "acct")};
  }

  /** On a version 1 journal an acknowledged id admitted again at the same instant succeeds, but
      writes an event that is already there: both admissions are one event afterwards. */
  lemma KeysCanCollide(cfg: Config)
    requires cfg.capacity >= 1 && cfg.maxPayload >= 1
    ensures var states := [EMPTY_CORE, REUSED, REUSED.(leases := map[], pending := map[], ready := map["a" := "x"]),
                           USED_ONCE, REUSED];
            && IsRun(cfg, states, REUSE)
            && (forall i :: 0 <= i < 4 ==> Step(states[i], cfg, REUSE[i]).status == Ok)
            && !FreshKeys(states[3], REUSE[3])
            && |EventsOf(states[4].events, "acct")| == 1
  {
    hide ReserveWithLimits;
    var states := [EMPTY_CORE, REUSED, REUSED.(leases := map[], pending := map[], ready := map["a" := "x"]), USED_ONCE, REUSED];
    AdmitsUncapped(cfg, EMPTY_CORE);
    AdmitsUncapped(cfg, USED_ONCE);
    assert map["a" := ["acct"]] - {"a"} == map[];
    assert Step(states[1], cfg, REUSE[1]) == Outcome(Ok, states[2]);
    assert Step(states[2], cfg, REUSE[2]) == Outcome(Ok, states[3]);
    forall i | 0 <= i < 4 ensures Step(states[i], cfg, REUSE[i]) == Outcome(Ok, states[i + 1]) {
      assert i == 0 || i == 1 || i == 2 || i == 3;
    }
    assert LimitAccounts(OpLimits(REUSE[3]))[0] == "acct";
    assert LogicalTime(USED_ONCE, OpNow(REUSE[3])) == 1 && OpId(REUSE[3]) == "a";
    assert EventsOf(REUSED.events, "acct") == {Event(1, "a", "acct")};
  }
}
