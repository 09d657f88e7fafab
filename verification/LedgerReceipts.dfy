/** Where the receipts of a journal come from, what may happen to them, and how long they stay. */
module LedgerReceipts {
  import opened Wrappers
  import opened Decimals
  import opened LedgerTypes
  import opened Ledger
  import opened LedgerInvariant
  import opened LedgerSteps
  import opened LedgerRecovery

  /** q is what one step may make of receipt r: the same admission, left alone once it is
      settled, and never settled in another currency than its bound's. */
  predicate Descends(r: Receipt, q: Receipt)
  {
    && q.id == r.id && q.admittedAt == r.admittedAt && q.accounts == r.accounts && q.bound == r.bound
    && (Terminal(r) ==> q == r)
    && (!Terminal(r) && Terminal(q) ==> SettledInCurrency(q))
    && (!Terminal(q) ==> q == r.(recovery := q.recovery))
  }

  /** q is what op made of the running receipt r: settled by its completion with what it states, or
      by startup with the stored crash settlement and the stored fallback. */
  predicate SettledBy(f: Core, op: Op, r: Receipt, q: Receipt)
  {
    if op.OpCompleteQuota? then
      op.id == r.id
      && q == r.(state := Complete, actual := op.actual, recovery := NO_SETTLEMENT,
                 digest := Some(Digest(op.actual, op.payload)), overrun := q.overrun)
    else
      op.OpOpen? && r.id in f.pending
      && q == r.(state := Interrupted, actual := r.recovery, recovery := NO_SETTLEMENT,
                 digest := Some(Digest(r.recovery, f.pending[r.id])))
  }

  predicate SettledInCurrency(r: Receipt)
  {
    Terminal(r) && r.actual.money.Some? && r.bound.money.Some? ==> r.actual.currency == r.bound.currency
  }

  /** q is the receipt of the admission op, made at instant t. */
  predicate Born(op: Op, q: Receipt, t: int)
  {
    && op.OpReserveWithQuota?
    && q.id == op.id && q.admittedAt == t && q.bound == op.bound && q.state == Active && q.recovery == op.recovery
    && q.accounts == PolicyAccounts(op.policies)
  }

  /** What one step may do to the receipts. */
  ghost predicate ReceiptStep(f: Core, g: Core, op: Op, id: Id)
  {
    && (id in g.receipts ==>
          if id in f.receipts then Descends(f.receipts[id], g.receipts[id])
          else Born(op, g.receipts[id], g.clock) && g.receipts[id].id == id)
    && (id in f.receipts && id in g.receipts && !op.OpUpdatePendingQuota? ==>
          || g.receipts[id] == f.receipts[id]
          || (!Terminal(f.receipts[id]) && SettledBy(f, op, f.receipts[id], g.receipts[id])))
    && (id in f.receipts && id !in g.receipts ==> Terminal(f.receipts[id]) && Latest(f.receipts[id]) <= g.clock)
  }

  lemma SameReceipts(f: Core, g: Core, op: Op, id: Id)
    requires g.receipts == f.receipts
    ensures ReceiptStep(f, g, op, id)
  {}

  lemma PruneReceipts(f: Core, cfg: Config, g: Core, op: Op, id: Id)
    requires Inv(f, cfg) && g == PruneQuota(f, f.clock)
    ensures ReceiptStep(f, g, op, id)
  {
    hide Inv, Due;
    if id in RetiredIds(f, f.clock) { PrunedReceipt(f, cfg, f.clock, id); }
  }

  /** The journal a quota admission or preflight leaves, before anything is added. */
  lemma CheckedReceipts(f: Core, cfg: Config, h: Core, op: Op, t: int, id: Id)
    requires Inv(f, cfg) && 0 < t && f.clock <= t
    requires h == if f.version == V2 then PruneQuota(PruneLimits(f, t), t) else PruneLimits(f, t)
    ensures ReceiptStep(f, h, op, id) && h.clock == t && h.receipts.Keys <= f.receipts.Keys
  {
    hide Inv, ReceiptStep, Due, LiveEvents;
    var p := PruneLimits(f, t);
    PruneLimitsKeeps(f, cfg, t);
    assert p.receipts == f.receipts;
    if f.version == V2 {
      PruneReceipts(p, cfg, h, op, id);
      StepFromSame(f, p, h, op, id);
    } else {
      SameReceipts(f, h, op, id);
    }
  }

  lemma StepFromSame(f: Core, p: Core, h: Core, op: Op, id: Id)
    requires p.receipts == f.receipts && p.pending == f.pending && ReceiptStep(p, h, op, id)
    ensures ReceiptStep(f, h, op, id)
  {}

  lemma ClockNotNegative(f: Core, cfg: Config)
    requires Inv(f, cfg)
    ensures 0 <= f.clock
  {}

  lemma ReserveReceipts(f: Core, cfg: Config, op: Op, id: Id)
    requires Inv(f, cfg) && op.OpReserveWithQuota?
    ensures ReceiptStep(f, Step(f, cfg, op).core, op, id)
  {
    hide Inv, CheckQuotaAdmission, LimitsStatus, NewEvents, InFlightFits, Establish;
    hide PruneQuota, PruneLimits, ReceiptStep;
    if Step(f, cfg, op).status == Ok {
      var h, r := ReserveQuotaParts(f, cfg, op.id, op.payload, op.policies, op.bound, op.recovery, op.now);
      CheckedCore(f, cfg, op.id, op.policies, op.bound, "", op.now, h, r);
      CheckedFields(f, cfg, op.id, op.policies, op.bound, "", op.now, h, r);
      CheckedReceipts(f, cfg, h, op, r.admittedAt, id);
      AddedReceipt(f, h, Step(f, cfg, op).core, op, r.(recovery := op.recovery), id);
    } else {
      SameReceipts(f, Step(f, cfg, op).core, op, id);
    }
  }

  lemma FailedReserve(f: Core, cfg: Config, op: Op)
    ensures Step(f, cfg, op).status != Ok && (op.OpReserveWithLimits? || op.OpReserveWithQuota?) ==>
              Step(f, cfg, op).core == f
  {
    hide CheckQuotaAdmission, CheckLimits, InFlightFits, ApplyAdmission, Establish;
  }

  lemma AddedReceipt(f: Core, h: Core, g: Core, op: Op, q: Receipt, id: Id)
    requires ReceiptStep(f, h, op, id) && h.receipts.Keys <= f.receipts.Keys
    requires Born(op, q, g.clock) && q.id !in f.receipts
    requires g.receipts == h.receipts[q.id := q] && g.clock == h.clock
    ensures ReceiptStep(f, g, op, id)
  {}

  lemma PreflightReceipts(f: Core, cfg: Config, op: Op, id: Id)
    requires Inv(f, cfg) && op.OpPreflight?
    ensures ReceiptStep(f, Step(f, cfg, op).core, op, id)
  {
    hide Inv, CheckQuotaAdmission, PruneQuota, PruneLimits, ReceiptStep;
    var c := CheckQuotaAdmission(f, cfg, op.id, op.policies, op.bound, op.zone, op.now);
    if Step(f, cfg, op).status == Ok && c.QuotaAdmitted? {
      CheckedCore(f, cfg, op.id, op.policies, op.bound, op.zone, op.now, c.core, c.receipt);
      ClockNotNegative(f, cfg);
      CheckedReceipts(f, cfg, c.core, op, LogicalTime(f, op.now), id);
    } else {
      SameReceipts(f, Step(f, cfg, op).core, op, id);
    }
  }

  lemma ObserveReceipts(f: Core, cfg: Config, op: Op, id: Id)
    requires Inv(f, cfg) && op.OpObserveQuota?
    ensures ReceiptStep(f, Step(f, cfg, op).core, op, id)
  {
    hide Inv, ReceiptStep, PruneQuota, QuotaMonth, ValidKey, MetadataStatus;
    if Step(f, cfg, op).status == Ok {
      ClockNotNegative(f, cfg);
      var t := LogicalTime(f, op.now);
      ClockKeeps(f, cfg, t);
      PruneReceipts(f.(clock := t), cfg, Step(f, cfg, op).core, op, id);
      StepFromSame(f, f.(clock := t), Step(f, cfg, op).core, op, id);
    } else {
      SameReceipts(f, Step(f, cfg, op).core, op, id);
    }
  }

  lemma UpdateReceipts(f: Core, cfg: Config, op: Op, id: Id)
    requires Inv(f, cfg) && op.OpUpdatePendingQuota?
    ensures ReceiptStep(f, Step(f, cfg, op).core, op, id)
  {
    hide FoldsFit, ExpiryOk, FactsOk, LeasesOk, EventsOk, SwitchOk, ModeOk, WellFormed;
    hide ValidEntry, ValidSettlement, RecoveryStatus;
    if op.id in f.receipts { assert ReceiptOk(f, cfg, op.id); }
  }

  lemma CompleteReceipts(f: Core, cfg: Config, op: Op, id: Id)
    requires Inv(f, cfg) && op.OpCompleteQuota?
    ensures ReceiptStep(f, Step(f, cfg, op).core, op, id)
  {
    hide Inv, ProjectionFits, ChargeKeys, ReceiptStep;
    var g := Step(f, cfg, op).core;
    if Step(f, cfg, op).status == Ok && op.id in f.receipts && !Terminal(f.receipts[op.id]) {
      var t, q := CompleteQuotaParts(f, cfg, op.id, op.payload, op.actual, op.now);
      CompletedCurrency(f, cfg, op);
      ReplacedReceipt(f, g, op, q, id);
    } else {
      hide Project;
      SameReceipts(f, g, op, id);
    }
  }

  lemma CompletedCurrency(f: Core, cfg: Config, op: Op)
    requires op.OpCompleteQuota? && Step(f, cfg, op).status == Ok
    requires op.id in f.receipts && !Terminal(f.receipts[op.id])
    ensures op.actual.money.Some? && f.receipts[op.id].bound.money.Some? ==>
              op.actual.currency == f.receipts[op.id].bound.currency
  {
    hide ProjectionFits, Project, Settle, ValidEntry, ValidSettlement;
  }

  lemma ReplacedReceipt(f: Core, g: Core, op: Op, q: Receipt, id: Id)
    requires q.id in f.receipts && g.receipts == f.receipts[q.id := q] && Descends(f.receipts[q.id], q)
    requires !Terminal(f.receipts[q.id]) && SettledBy(f, op, f.receipts[q.id], q)
    ensures ReceiptStep(f, g, op, id)
  {}

  lemma InterruptedDescends(f: Core, cfg: Config, id: Id)
    requires Inv(f, cfg) && id in f.receipts
    ensures Descends(f.receipts[id], Interrupt(f.receipts[id], f.pending))
    ensures !Terminal(f.receipts[id]) ==>
              id in f.pending && SettledBy(f, OpOpen, f.receipts[id], Interrupt(f.receipts[id], f.pending))
    ensures Terminal(f.receipts[id]) ==> Interrupt(f.receipts[id], f.pending) == f.receipts[id]
  {
    hide FoldsFit, ExpiryOk, FactsOk, LeasesOk, EventsOk, SwitchOk, ModeOk, ValidAccounts, ValidBound, ValidSettlement;
    assert ReceiptOk(f, cfg, id);
  }

  lemma ReplayedFields(f: Core)
    ensures var h := ReplayPending(Rebuild(f));
            && h.clock == f.clock && h.receipts.Keys == f.receipts.Keys
            && (forall id :: id in f.receipts ==> h.receipts[id] == Interrupt(f.receipts[id], f.pending))
            && f.pending.Keys <= h.ready.Keys
            && ReplayPending(f.(leases := map[])).receipts == f.receipts
  {
    hide RebuiltExpiry, Interrupt;
  }

  lemma OpenReceipts(f: Core, cfg: Config, id: Id)
    requires Inv(f, cfg)
    ensures ReceiptStep(f, Open(f).core, OpOpen, id)
  {
    hide Inv, FoldsFit, Rebuild, PruneQuota, ReplayPending, ReceiptStep;
    ReplayedFields(f);
    if f.version == V2 && FoldsFit(Rebuild(f)) {
      OpenQuotaKeeps(f, cfg);
      RecoveredReceipts(f, cfg, ReplayPending(Rebuild(f)), Open(f).core, id);
    } else {
      SameReceipts(f, Open(f).core, OpOpen, id);
    }
  }

  lemma RecoveredReceipts(f: Core, cfg: Config, h: Core, g: Core, id: Id)
    requires Inv(f, cfg) && Inv(h, cfg) && g == PruneQuota(h, h.clock)
    requires h.clock == f.clock && h.receipts.Keys == f.receipts.Keys && f.pending.Keys <= h.ready.Keys
    requires id in f.receipts ==> h.receipts[id] == Interrupt(f.receipts[id], f.pending)
    ensures ReceiptStep(f, g, OpOpen, id)
  {
    hide Inv, RetiredIds, Interrupt, Latest;
    if id in f.receipts {
      InterruptedDescends(f, cfg, id);
      if id in RetiredIds(h, h.clock) { PrunedReceipt(h, cfg, h.clock, id); }
    }
  }

  /** Receipts come only from admissions, are settled at most once, in the bound's currency, by their
      completion or by startup with what was stored for it, and go only after their last window ended. */
  lemma StepReceipts(f: Core, cfg: Config, op: Op, id: Id)
    requires Inv(f, cfg)
    ensures ReceiptStep(f, Step(f, cfg, op).core, op, id)
  {
    hide Inv, Step, ReceiptStep;
    match op {
      case OpReserveWithQuota(_, _, _, _, _, _) => ReserveReceipts(f, cfg, op, id);
      case OpPreflight(_, _, _, _, _) => PreflightReceipts(f, cfg, op, id);
      case OpObserveQuota(_, _) => ObserveReceipts(f, cfg, op, id);
      case OpUpdatePendingQuota(_, _, _) => UpdateReceipts(f, cfg, op, id);
      case OpCompleteQuota(_, _, _, _) => CompleteReceipts(f, cfg, op, id);
      case OpOpen => OpenReceipts(f, cfg, id); OpenIsStep(f, cfg);
      case _ => PlainReceipts(f, cfg, op, id);
    }
  }

  lemma OpenIsStep(f: Core, cfg: Config)
    ensures Step(f, cfg, OpOpen) == Open(f)
  {}

  lemma PlainReceipts(f: Core, cfg: Config, op: Op, id: Id)
    requires Inv(f, cfg)
    requires op.OpReserve? || op.OpUpdatePending? || op.OpComplete? || op.OpAck? || op.OpReserveWithLimits?
             || op.OpObserveLimits? || op.OpEnableQuota?
    ensures ReceiptStep(f, Step(f, cfg, op).core, op, id)
  {
    hide Inv, ReceiptStep, Step;
    if op.OpReserveWithLimits? || op.OpObserveLimits? || op.OpEnableQuota? {
      LimitReceipts(f, cfg, op);
    } else {
      QueueReceipts(f, cfg, op);
    }
    SameReceipts(f, Step(f, cfg, op).core, op, id);
  }

  lemma QueueReceipts(f: Core, cfg: Config, op: Op)
    requires op.OpReserve? || op.OpUpdatePending? || op.OpComplete? || op.OpAck?
    ensures Step(f, cfg, op).core.receipts == f.receipts
  {
    hide ValidEntry, ValidKey;
  }

  lemma LimitReceipts(f: Core, cfg: Config, op: Op)
    requires Inv(f, cfg) && (op.OpReserveWithLimits? || op.OpObserveLimits? || op.OpEnableQuota?)
    ensures Step(f, cfg, op).core.receipts == f.receipts
  {
    hide Inv, ValidEntry, LimitsStatus, LiveEvents, NewEvents, MetadataStatus;
    if f.version == V1 { NoReceipts(f, cfg); }
  }
}
