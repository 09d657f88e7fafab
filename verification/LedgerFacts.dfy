/** No queued fact is lost or rewritten, settlements are final, and preflight is exact. */
module LedgerFacts {
  import opened Wrappers
  import opened Decimals
  import opened LedgerTypes
  import opened Totals
  import opened Ledger
  import opened LedgerInvariant
  import opened LedgerSteps
  import opened LedgerRecovery
  import opened LedgerReceipts
  import opened LedgerRuns

  // ---------- queued facts ----------

  predicate Queued(f: Core, id: Id) { id in f.pending || id in f.ready }

  /** The payload an operation may write for id. */
  predicate Writes(op: Op, id: Id, payload: Payload)
  {
    match op
    case OpUpdatePending(i, p) => i == id && p == payload
    case OpUpdatePendingQuota(i, p, _) => i == id && p == payload
    case OpComplete(i, p) => i == id && p == payload
    case OpCompleteQuota(i, p, _, _) => i == id && p == payload
    case _ => false
  }

  /** What one step may do to a queued fact: keep it, rewrite a pending one at its owner's
      request, deliver it, or drop it on acknowledgement of its delivery. */
  ghost predicate FactStep(f: Core, g: Core, op: Op, id: Id)
  {
    && (id in f.ready ==> (id in g.ready && g.ready[id] == f.ready[id]) || op == OpAck(id))
    && (id in f.ready ==> id !in g.pending)
    && (id in f.pending ==>
          || (id in g.pending && (g.pending[id] == f.pending[id] || Writes(op, id, g.pending[id])))
          || (id in g.ready && ((op == OpOpen && g.ready[id] == f.pending[id]) || Writes(op, id, g.ready[id]))))
  }

  lemma StepFacts(f: Core, cfg: Config, op: Op, id: Id)
    requires Inv(f, cfg) && Queued(f, id)
    ensures FactStep(f, Step(f, cfg, op).core, op, id)
  {
    hide Inv, FactStep, Step;
    InvDisjoint(f, cfg);
    match op
    case OpReserveWithQuota(_, _, _, _, _, _) => ReserveFacts(f, cfg, op, id);
    case OpReserveWithLimits(_, _, _, _) => ReserveFacts(f, cfg, op, id);
    case OpCompleteQuota(_, _, _, _) => CompleteFacts(f, cfg, op, id);
    case OpOpen => OpenIsStep(f, cfg); OpenFacts(f, cfg, id);
    case OpPreflight(_, _, _, _, _) => QuietFacts(f, cfg, op, id);
    case OpEnableQuota(_, _) => QuietFacts(f, cfg, op, id);
    case OpObserveLimits(_) => QuietFacts(f, cfg, op, id);
    case OpObserveQuota(_, _) => QuietFacts(f, cfg, op, id);
    case _ => PlainFacts(f, cfg, op, id);
  }

  lemma PlainFacts(f: Core, cfg: Config, op: Op, id: Id)
    requires f.pending.Keys !! f.ready.Keys && Queued(f, id)
    requires op.OpReserve? || op.OpUpdatePending? || op.OpUpdatePendingQuota? || op.OpComplete? || op.OpAck?
    ensures FactStep(f, Step(f, cfg, op).core, op, id)
  {
    hide FactStep;
    if op.OpComplete? || op.OpAck? {
      DeliveryFacts(f, cfg, op, id);
    } else {
      PendingFacts(f, cfg, op, id);
    }
  }

  lemma PendingFacts(f: Core, cfg: Config, op: Op, id: Id)
    requires f.pending.Keys !! f.ready.Keys && Queued(f, id)
    requires op.OpReserve? || op.OpUpdatePending? || op.OpUpdatePendingQuota?
    ensures FactStep(f, Step(f, cfg, op).core, op, id)
  {
    hide Reserve, UpdatePending, UpdatePendingQuota, FactStep;
    match op {
      case OpReserve(i, p) => ReserveShape(f, cfg, i, p);
      case OpUpdatePending(i, p) => UpdateShape(f, cfg, i, p);
      case OpUpdatePendingQuota(i, p, r) => UpdateQuotaShape(f, cfg, i, p, r);
    }
    FactKept(f, Step(f, cfg, op).core, op, id);
  }

  lemma ReserveShape(f: Core, cfg: Config, i: Id, p: Payload)
    ensures var g := Reserve(f, cfg, i, p).core;
            g.ready == f.ready && (g.pending == f.pending || (g.pending == f.pending[i := p] && i !in f.ready && i !in f.pending))
  {
    hide ValidEntry;
  }

  lemma UpdateShape(f: Core, cfg: Config, i: Id, p: Payload)
    ensures var g := UpdatePending(f, cfg, i, p).core;
            g.ready == f.ready && (g.pending == f.pending || (g.pending == f.pending[i := p] && i !in f.ready))
  {
    hide ValidEntry;
  }

  lemma UpdateQuotaShape(f: Core, cfg: Config, i: Id, p: Payload, r: Settlement)
    ensures var g := UpdatePendingQuota(f, cfg, i, p, r).core;
            g.ready == f.ready && (g.pending == f.pending || (g.pending == f.pending[i := p] && i !in f.ready))
  {
    hide ValidEntry, ValidSettlement, RecoveryStatus;
  }

  /** Writing the pending entry of the operation's own id is a permitted step for every fact. */
  lemma FactKept(f: Core, g: Core, op: Op, id: Id)
    requires f.pending.Keys !! f.ready.Keys && g.ready == f.ready
    requires op.OpReserve? || op.OpUpdatePending? || op.OpUpdatePendingQuota?
    requires g.pending == f.pending
             || (g.pending == f.pending[op.id := op.payload] && op.id !in f.ready && (op.OpReserve? ==> op.id !in f.pending))
    ensures FactStep(f, g, op, id)
  {}

  lemma DeliveryFacts(f: Core, cfg: Config, op: Op, id: Id)
    requires f.pending.Keys !! f.ready.Keys && Queued(f, id)
    requires op.OpComplete? || op.OpAck?
    ensures FactStep(f, Step(f, cfg, op).core, op, id)
  {
    hide ValidEntry, ValidKey;
  }

  lemma QuietFacts(f: Core, cfg: Config, op: Op, id: Id)
    requires Inv(f, cfg) && Queued(f, id)
    requires op.OpPreflight? || op.OpEnableQuota? || op.OpObserveLimits? || op.OpObserveQuota?
    ensures FactStep(f, Step(f, cfg, op).core, op, id)
  {
    hide Inv, Step;
    InvDisjoint(f, cfg);
    QuietStep(f, cfg, op);
  }

  /** Observations, previews and the switch leave the queued facts alone. */
  lemma QuietStep(f: Core, cfg: Config, op: Op)
    requires Inv(f, cfg)
    requires op.OpPreflight? || op.OpEnableQuota? || op.OpObserveLimits? || op.OpObserveQuota?
    ensures Step(f, cfg, op).core.pending == f.pending && Step(f, cfg, op).core.ready == f.ready
  {
    hide Inv, CheckQuotaAdmission, QuotaMonth, Due, LiveEvents, ValidKey, ValidBound, MetadataStatus;
    if op.OpPreflight? {
      if Step(f, cfg, op).status == Ok { PreflightClock(f, cfg, op); }
    } else if op.OpEnableQuota? {
      EnabledFacts(f, cfg, op.zone, op.now);
    }
  }

  lemma EnabledFacts(f: Core, cfg: Config, zone: string, now: int)
    ensures EnableQuota(f, cfg, zone, now).core.pending == f.pending && EnableQuota(f, cfg, zone, now).core.ready == f.ready
  {}

  lemma CompleteFacts(f: Core, cfg: Config, op: Op, id: Id)
    requires Inv(f, cfg) && Queued(f, id) && op.OpCompleteQuota?
    ensures FactStep(f, Step(f, cfg, op).core, op, id)
  {
    hide Inv, ProjectionFits, ChargeKeys;
    InvDisjoint(f, cfg);
    if Step(f, cfg, op).status == Ok && op.id in f.receipts && !Terminal(f.receipts[op.id]) {
      var t, q := CompleteQuotaParts(f, cfg, op.id, op.payload, op.actual, op.now);
    } else {
      hide Project;
      assert Step(f, cfg, op).core == f;
    }
  }

  lemma InvDisjoint(f: Core, cfg: Config)
    requires Inv(f, cfg)
    ensures f.pending.Keys !! f.ready.Keys
  {}

  /** An admission queues its own, new fact and touches no other. */
  lemma AdmissionQueues(f: Core, cfg: Config, op: Op)
    requires Inv(f, cfg) && (op.OpReserveWithQuota? || op.OpReserveWithLimits?) && Step(f, cfg, op).status == Ok
    ensures op.id !in f.pending && op.id !in f.ready
    ensures Step(f, cfg, op).core.pending == f.pending[op.id := op.payload]
    ensures Step(f, cfg, op).core.ready == f.ready
  {
    hide Inv, CheckQuotaAdmission, LimitsStatus, NewEvents, InFlightFits, Establish, Due, LiveEvents;
    if op.OpReserveWithQuota? {
      var h, r := ReserveQuotaParts(f, cfg, op.id, op.payload, op.policies, op.bound, op.recovery, op.now);
      CheckedCore(f, cfg, op.id, op.policies, op.bound, "", op.now, h, r);
      CheckedFields(f, cfg, op.id, op.policies, op.bound, "", op.now, h, r);
    }
  }

  lemma ReserveFacts(f: Core, cfg: Config, op: Op, id: Id)
    requires Inv(f, cfg) && (op.OpReserveWithQuota? || op.OpReserveWithLimits?) && Queued(f, id)
    ensures FactStep(f, Step(f, cfg, op).core, op, id)
  {
    hide Inv, Step;
    InvDisjoint(f, cfg);
    FailedReserve(f, cfg, op);
    if Step(f, cfg, op).status == Ok { AdmissionQueues(f, cfg, op); }
  }

  lemma OpenFacts(f: Core, cfg: Config, id: Id)
    requires f.pending.Keys !! f.ready.Keys && Queued(f, id)
    ensures FactStep(f, Open(f).core, OpOpen, id)
  {
    hide FoldsFit, InterruptAll, RebuiltExpiry, Due;
  }

  /** id was not acknowledged while ready between states i and n. */
  ghost predicate NotAcked(states: seq<Core>, ops: seq<Op>, id: Id, i: nat, n: nat)
    requires |states| == |ops| + 1 && i <= n <= |ops|
  {
    forall j :: i <= j < n ==> !(ops[j] == OpAck(id) && id in states[j].ready)
  }

  /** Until its delivery is acknowledged, a reserved request stays in exactly one of pending
      and ready, through every operation and crash. */
  lemma {:induction false} NoFactLost(cfg: Config, states: seq<Core>, ops: seq<Op>, id: Id, i: nat, n: nat)
    requires IsRun(cfg, states, ops) && i <= n < |states| && 0 <= cfg.quotaCapacity
    requires Queued(states[i], id) && NotAcked(states, ops, id, i, n)
    ensures id in states[n].pending <==> id !in states[n].ready
    decreases n
  {
    hide Step, Inv;
    RunKeeps(cfg, states, ops, n);
    InvDisjoint(states[n], cfg);
    if i < n {
      NoFactLost(cfg, states, ops, id, i, n - 1);
      RunKeeps(cfg, states, ops, n - 1);
      StepFacts(states[n - 1], cfg, ops[n - 1], id);
    }
  }

  /** The first fact accepted for delivery is the one delivered: it is never rewritten. */
  lemma {:induction false} DeliveredFactIsFinal(cfg: Config, states: seq<Core>, ops: seq<Op>, id: Id, i: nat, n: nat)
    requires IsRun(cfg, states, ops) && i <= n < |states| && 0 <= cfg.quotaCapacity
    requires id in states[i].ready && NotAcked(states, ops, id, i, n)
    ensures id in states[n].ready && states[n].ready[id] == states[i].ready[id]
    decreases n
  {
    hide Step, Inv;
    if i < n {
      DeliveredFactIsFinal(cfg, states, ops, id, i, n - 1);
      RunKeeps(cfg, states, ops, n - 1);
      StepFacts(states[n - 1], cfg, ops[n - 1], id);
    }
  }

  // ---------- settlements ----------

  ghost predicate Retained(states: seq<Core>, id: Id, i: nat, n: nat)
    requires i <= n < |states|
  {
    forall j :: i <= j <= n ==> id in states[j].receipts
  }

  lemma {:induction false} SettledReceiptIsFinal(cfg: Config, states: seq<Core>, ops: seq<Op>, id: Id, i: nat, n: nat)
    requires IsRun(cfg, states, ops) && i <= n < |states| && 0 <= cfg.quotaCapacity
    requires Retained(states, id, i, n) && Terminal(states[i].receipts[id])
    ensures states[n].receipts[id] == states[i].receipts[id]
    decreases n
  {
    hide Step, Inv;
    if i < n {
      SettledReceiptIsFinal(cfg, states, ops, id, i, n - 1);
      RunKeeps(cfg, states, ops, n - 1);
      StepReceipts(states[n - 1], cfg, ops[n - 1], id);
    }
  }

  /** After an accepted settlement, and for as long as its receipt is retained, through every
      other operation and crash, repeating it succeeds and changes nothing while any other
      settlement or payload is a conflict. */
  lemma SettlementIsIdempotent(cfg: Config, states: seq<Core>, ops: seq<Op>, i: nat, n: nat,
                               payload: Payload, actual: Settlement, now: int)
    requires IsRun(cfg, states, ops) && i < n < |states| && 0 <= cfg.quotaCapacity
    requires ops[i].OpCompleteQuota? && Step(states[i], cfg, ops[i]).status == Ok
    requires Retained(states, ops[i].id, i + 1, n)
    requires ValidEntry(cfg, ops[i].id, payload) && ValidSettlement(actual)
    ensures CompleteQuota(states[n], cfg, ops[i].id, payload, actual, now)
         == Fail(states[n], if payload == ops[i].payload && actual == ops[i].actual then Ok else ErrQuotaConflict)
  {
    hide Inv, Step, ProjectionFits, Project, ValidEntry, ValidSettlement;
    RunKeeps(cfg, states, ops, i);
    RunKeeps(cfg, states, ops, n);
    SettledDigest(states[i], cfg, ops[i]);
    SettledReceiptIsFinal(cfg, states, ops, ops[i].id, i + 1, n);
    RetainedMetadata(states[n], cfg, ops[i].id);
  }

  lemma SettledDigest(f: Core, cfg: Config, op: Op)
    requires Inv(f, cfg) && op.OpCompleteQuota? && Step(f, cfg, op).status == Ok
    ensures op.id in Step(f, cfg, op).core.receipts
    ensures Terminal(Step(f, cfg, op).core.receipts[op.id])
    ensures Step(f, cfg, op).core.receipts[op.id].digest == Some(Digest(op.actual, op.payload))
  {
    hide Inv, ProjectionFits, ChargeKeys;
    if !Terminal(f.receipts[op.id]) {
      var t, q := CompleteQuotaParts(f, cfg, op.id, op.payload, op.actual, op.now);
    }
  }

  lemma RetainedMetadata(f: Core, cfg: Config, id: Id)
    requires Inv(f, cfg) && id in f.receipts
    ensures MetadataStatus(f, cfg) == Ok
  {
    hide FoldsFit, ReceiptsOk, ExpiryOk, FactsOk, LeasesOk, EventsOk, SwitchOk;
  }

  // ---------- preflight ----------

  /** On an active journal preflight passes exactly when the admission does, except for the one
      check it does not make: that the in-flight counters have room for the bound. A passed
      preflight only advances the clock and prunes. */
  lemma PreflightIsExact(f: Core, cfg: Config, id: Id, payload: Payload, ps: seq<Policy>, b: Bound,
                         recovery: Settlement, zone: string, now: int)
    requires Inv(f, cfg) && f.version == V2 && zone == f.zone
    requires ValidEntry(cfg, id, payload) && ValidSettlement(recovery) && RecoveryStatus(b, recovery) == Ok
    ensures var pre := PreflightWithQuota(f, cfg, id, ps, b, zone, now);
            var res := ReserveWithQuota(f, cfg, id, payload, ps, b, recovery, now);
            && (res.status == Ok <==> pre.status == Ok && RoomInFlight(pre.core, ps, b))
            && (pre.status == Ok ==>
                  pre.core == PruneQuota(PruneLimits(f, LogicalTime(f, now)), LogicalTime(f, now)))
            && (pre.status != Ok ==> res.status == pre.status)
  {
    hide Inv, CheckLimits, PoliciesStatus, QuotaMonth, PruneQuota, PruneLimits, RoomInFlight;
    hide ValidKey, ValidBound, ValidSettlement, RecoveryStatus, InFlightFits, Establish, ApplyAdmission;
    ActiveMetadata(f, cfg);
    SameCheck(f, cfg, id, ps, b, zone, now);
    var c := CheckQuotaAdmission(f, cfg, id, ps, b, "", now);
    if PreflightWithQuota(f, cfg, id, ps, b, zone, now).status == Ok && c.QuotaAdmitted? {
      hide CheckQuotaAdmission;
      CheckedCore(f, cfg, id, ps, b, "", now, c.core, c.receipt);
      CheckedFields(f, cfg, id, ps, b, "", now, c.core, c.receipt);
      RoomIsFit(c.core, cfg, ps, c.receipt);
    }
  }

  lemma ActiveMetadata(f: Core, cfg: Config)
    requires Inv(f, cfg) && f.version == V2
    ensures MetadataStatus(f, cfg) == Ok
  {
    hide FoldsFit, ReceiptsOk, ExpiryOk, FactsOk, LeasesOk, EventsOk, SwitchOk;
  }

  lemma SameCheck(f: Core, cfg: Config, id: Id, ps: seq<Policy>, b: Bound, zone: string, now: int)
    requires f.version == V2 && f.zone == zone
    ensures CheckQuotaAdmission(f, cfg, id, ps, b, zone, now) == CheckQuotaAdmission(f, cfg, id, ps, b, "", now)
  {
    hide CheckLimits, PoliciesStatus, PruneQuota, QuotaMonth, MetadataStatus;
  }

  /** Every named account's in-flight counters can take the bound within 64 bits. */
  ghost predicate RoomInFlight(f: Core, ps: seq<Policy>, b: Bound)
  {
    forall i :: 0 <= i < |ps| ==>
      var a := ps[i].limit.account;
      && (b.tokens.Some? ==> Fold(f, a, InFlight, TokensHeld) + b.tokens.value <= MAX_INT64)
      && (b.tokens.None? ==> Fold(f, a, InFlight, TokensUnknown) + 1 <= MAX_INT64)
      && (b.money.None? ==> Fold(f, a, InFlight, MoneyUnknown) + 1 <= MAX_INT64)
  }

  lemma RoomIsFit(h: Core, cfg: Config, ps: seq<Policy>, r: Receipt)
    requires Inv(h, cfg) && r.state == Active && r.accounts == PolicyAccounts(ps)
    ensures InFlightFits(h, r) <==> RoomInFlight(h, ps, r.bound)
  {
    hide Inv, Fold, PolicyAccounts, Names;
    NamesOfPolicies(r, ps);
    forall i | 0 <= i < |ps| ensures ps[i].limit.account in Names(r) {}
    forall a, d ensures d in {TokensUsed, TokensHeld, TokensUnknown, MoneyUnknown} ==>
                          Fold(h, a, InFlight, d) <= MAX_INT64
    {
      FoldsInRange(h, cfg, a, d);
    }
    if RoomInFlight(h, ps, r.bound) {
      forall a | a in Names(r) ensures Fits(h, a, InFlight, r) {
        var i :| 0 <= i < |ps| && ps[i].limit.account == a;
        RoomFits(h, ps, r, i);
      }
    }
    if InFlightFits(h, r) {
      forall i | 0 <= i < |ps| ensures Fits(h, ps[i].limit.account, InFlight, r) {}
    }
  }

  lemma FoldsInRange(h: Core, cfg: Config, a: Account, d: Dim)
    requires Inv(h, cfg)
    ensures d in {TokensUsed, TokensHeld, TokensUnknown, MoneyUnknown} ==> Fold(h, a, InFlight, d) <= MAX_INT64
  {
    hide FactsOk, LeasesOk, EventsOk, ModeOk, ReceiptsOk, ExpiryOk, SwitchOk;
  }

  lemma RoomFits(h: Core, ps: seq<Policy>, r: Receipt, i: nat)
    requires RoomInFlight(h, ps, r.bound) && i < |ps| && r.state == Active
    requires forall d :: d in {TokensUsed, TokensHeld, TokensUnknown, MoneyUnknown} ==>
               Fold(h, ps[i].limit.account, InFlight, d) <= MAX_INT64
    ensures Fits(h, ps[i].limit.account, InFlight, r)
  {
    hide Fold;
  }

  // ---------- preflight before activation ----------

  lemma {:induction false} SameLimits(f: Core, g: Core, limits: seq<Limit>, i: nat)
    requires i <= |limits| && f.events == g.events && f.leases == g.leases
    ensures LimitsStatus(f, limits, i) == LimitsStatus(g, limits, i)
    decreases |limits| - i
  {
    if i < |limits| { SameLimits(f, g, limits, i + 1); }
  }

  lemma SamePolicy(f: Core, g: Core, p: Policy, b: Bound, coverage: int, t: int, start: int)
    requires forall a, w, d :: Fold(f, a, w, d) == Fold(g, a, w, d)
    requires f.births == g.births && f.invalid == g.invalid
    ensures PolicyStatus(f, p, b, coverage, t, start) == PolicyStatus(g, p, b, coverage, t, start)
  {
    hide Fold, TokensStatus;
    SameTokens(f, g, p, b, coverage, TokenWindows(p, t, start), 0);
    forall w, c: string ensures MoneyLoad(f, p.limit.account, w, c) == MoneyLoad(g, p.limit.account, w, c) {}
  }

  lemma {:induction false} SamePolicies(f: Core, g: Core, ps: seq<Policy>, b: Bound, coverage: int, t: int, start: int, i: nat)
    requires i <= |ps|
    requires forall a, w, d :: Fold(f, a, w, d) == Fold(g, a, w, d)
    requires f.births == g.births && f.invalid == g.invalid
    ensures PoliciesStatus(f, ps, b, coverage, t, start, i) == PoliciesStatus(g, ps, b, coverage, t, start, i)
    decreases |ps| - i
  {
    hide Fold, PolicyStatus;
    if i < |ps| {
      SamePolicy(f, g, ps[i], b, coverage, t, start);
      SamePolicies(f, g, ps, b, coverage, t, start, i + 1);
    }
  }

  /** Activation does not change what the limit checks see. */
  lemma SameLimitChecks(f: Core, cfg: Config, id: Id, limits: seq<Limit>, zone: string, now: int)
    requires f.version == V1 && 0 < now && zone != "" && cfg.loads(zone)
    ensures var e, t := EnableQuota(f, cfg, zone, now).core, LogicalTime(f, now);
            && e == f.(version := V2, clock := t, zone := zone, coverage := t,
                       receipts := map[], expiry := {}, births := map[], invalid := map[])
            && match CheckLimits(f, cfg, id, limits, now)
               case Rejected(s) => CheckLimits(e, cfg, id, limits, now) == Rejected(s)
               case Admitted(g, at) => at == t && g == PruneLimits(f, t)
                                       && CheckLimits(e, cfg, id, limits, now) == Admitted(PruneLimits(e, t), t)
  {
    hide LimitsStatus, LiveEvents;
    var e, t := EnableQuota(f, cfg, zone, now).core, LogicalTime(f, now);
    SameLimits(PruneLimits(f, t), PruneLimits(e, t), limits, 0);
  }

  /** The two checks see the same journal, apart from its version, zone and coverage. */
  lemma SameActivation(f: Core, cfg: Config, id: Id, ps: seq<Policy>, b: Bound, zone: string, now: int)
    requires Inv(f, cfg) && f.version == V1 && 0 < now && 0 < cfg.quotaCapacity
    requires zone != "" && cfg.loads(zone)
    ensures var e := EnableQuota(f, cfg, zone, now).core;
            var c, d := CheckQuotaAdmission(f, cfg, id, ps, b, zone, now), CheckQuotaAdmission(e, cfg, id, ps, b, "", now);
            (c.QuotaAdmitted? <==> d.QuotaAdmitted?)
            && (c.QuotaAdmitted? && d.QuotaAdmitted? ==> d.core.receipts == map[] && d.core.expiry == {})
  {
    hide FoldsFit, FactsOk, LeasesOk, EventsOk, ReceiptsOk, ExpiryOk, SwitchOk, CheckLimits, PoliciesStatus;
    hide QuotaMonth, LiveEvents, EnableQuota, PruneQuota;
    var e, t := EnableQuota(f, cfg, zone, now).core, LogicalTime(f, now);
    SameLimitChecks(f, cfg, id, PolicyLimits(ps), zone, now);
    var g, h := PruneLimits(f, t), PruneLimits(e, t);
    PruneEmpty(h, t);
    EmptyFolds(g);
    EmptyFolds(h);
    if QuotaMonth(cfg, zone, t).Some? {
      SamePolicies(g, h, ps, b, t, t, QuotaMonth(cfg, zone, t).value.0, 0);
    }
  }

  lemma EmptyRoom(h: Core, r: Receipt)
    requires h.receipts == map[] && h.expiry == {} && r.state == Active
    ensures InFlightFits(h, r)
  {
    EmptyFolds(h);
    forall a | a in Names(r) ensures Fits(h, a, InFlight, r) {
      assert forall d :: Fold(h, a, InFlight, d) == 0;
    }
  }

  /** Before activation, preflight passes exactly when activating in its zone and then admitting,
      both at the same time, would; no counter can overflow on an empty journal. A passed preflight
      only advances the clock and prunes events, and a refused one changes nothing. */
  lemma PreflightBeforeActivation(f: Core, cfg: Config, id: Id, payload: Payload, ps: seq<Policy>, b: Bound,
                                  recovery: Settlement, zone: string, now: int)
    requires Inv(f, cfg) && f.version == V1 && 0 < cfg.quotaCapacity
    requires ValidEntry(cfg, id, payload) && ValidSettlement(recovery) && RecoveryStatus(b, recovery) == Ok
    ensures var enabled := EnableQuota(f, cfg, zone, now);
            PreflightWithQuota(f, cfg, id, ps, b, zone, now).status == Ok <==>
              enabled.status == Ok && ReserveWithQuota(enabled.core, cfg, id, payload, ps, b, recovery, now).status == Ok
    ensures var pre := PreflightWithQuota(f, cfg, id, ps, b, zone, now);
            pre.core == if pre.status == Ok then PruneLimits(f, LogicalTime(f, now)) else f
  {
    hide Inv, CheckQuotaAdmission, ValidBound, ValidSettlement, RecoveryStatus, InFlightFits, Establish, ApplyAdmission;
    hide ValidKey, PruneLimits;
    PlainPreflight(f, cfg, id, ps, b, zone, now);
    if zone != "" && cfg.loads(zone) {
      if 0 < now {
        SameActivation(f, cfg, id, ps, b, zone, now);
        var d := CheckQuotaAdmission(EnableQuota(f, cfg, zone, now).core, cfg, id, ps, b, "", now);
        if d.QuotaAdmitted? && CheckQuotaAdmission(f, cfg, id, ps, b, zone, now).QuotaAdmitted? {
          CheckedFields(EnableQuota(f, cfg, zone, now).core, cfg, id, ps, b, "", now, d.core, d.receipt);
          EmptyRoom(d.core, d.receipt);
        }
      } else {
        PastIsRejected(f, cfg, id, ps, b, zone, now);
      }
    }
  }

  lemma PlainPreflight(f: Core, cfg: Config, id: Id, ps: seq<Policy>, b: Bound, zone: string, now: int)
    requires Inv(f, cfg) && f.version == V1
    ensures var pre := PreflightWithQuota(f, cfg, id, ps, b, zone, now);
            pre.core == if pre.status == Ok then PruneLimits(f, LogicalTime(f, now)) else f
  {
    hide Inv, CheckQuotaAdmission, PruneLimits, ValidKey, ValidBound;
    var c := CheckQuotaAdmission(f, cfg, id, ps, b, zone, now);
    if c.QuotaAdmitted? { CheckedCore(f, cfg, id, ps, b, zone, now, c.core, c.receipt); }
  }

  lemma PastIsRejected(f: Core, cfg: Config, id: Id, ps: seq<Policy>, b: Bound, zone: string, now: int)
    requires now <= 0
    ensures CheckQuotaAdmission(f, cfg, id, ps, b, zone, now).QuotaRejected?
  {}
}
