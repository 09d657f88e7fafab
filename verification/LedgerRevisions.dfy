/** A bound that a settlement exceeded is never trusted again: its revision stays barred, and no
    constrained request is admitted, or passes a preflight, under it. */
module LedgerRevisions {
  import opened Wrappers
  import opened Decimals
  import opened LedgerTypes
  import opened Ledger
  import opened LedgerInvariant
  import opened LedgerSteps
  import opened LedgerRecovery
  import opened LedgerReceipts

  // ---------- barred revisions stay barred ----------

  lemma CheckedInvalid(f: Core, t: int)
    ensures PruneQuota(PruneLimits(f, t), t).invalid == f.invalid
    ensures PruneLimits(f, t).invalid == f.invalid
  {}

  lemma ReserveInvalid(f: Core, cfg: Config, op: Op)
    requires Inv(f, cfg) && (op.OpReserveWithQuota? || op.OpPreflight?)
    ensures Step(f, cfg, op).core.invalid == f.invalid
  {
    hide Inv, CheckQuotaAdmission, InFlightFits, Establish, PruneQuota, PruneLimits, NewEvents;
    CheckedInvalid(f, LogicalTime(f, op.now));
    if op.OpReserveWithQuota? {
      FailedReserve(f, cfg, op);
      if Step(f, cfg, op).status == Ok {
        var h, r := ReserveQuotaParts(f, cfg, op.id, op.payload, op.policies, op.bound, op.recovery, op.now);
        CheckedCore(f, cfg, op.id, op.policies, op.bound, "", op.now, h, r);
        CheckedFields(f, cfg, op.id, op.policies, op.bound, "", op.now, h, r);
      }
    } else {
      var c := CheckQuotaAdmission(f, cfg, op.id, op.policies, op.bound, op.zone, op.now);
      if c.QuotaAdmitted? { CheckedCore(f, cfg, op.id, op.policies, op.bound, op.zone, op.now, c.core, c.receipt); }
    }
  }

  lemma CompleteInvalid(f: Core, cfg: Config, op: Op)
    requires op.OpCompleteQuota?
    ensures f.invalid.Keys <= Step(f, cfg, op).core.invalid.Keys
  {
    hide ProjectionFits, ChargeKeys, ValidEntry, ValidSettlement, MetadataStatus, Overran;
  }

  lemma PlainInvalid(f: Core, cfg: Config, op: Op)
    requires op.OpReserve? || op.OpUpdatePending? || op.OpComplete? || op.OpAck? || op.OpUpdatePendingQuota? || op.OpOpen?
    ensures Step(f, cfg, op).core.invalid == f.invalid
  {
    hide ValidEntry, ValidKey, ValidSettlement, RecoveryStatus, Due, InterruptAll, RebuiltExpiry, FoldsFit;
  }

  lemma ClockInvalid(f: Core, cfg: Config, op: Op)
    requires Inv(f, cfg) && (op.OpReserveWithLimits? || op.OpObserveLimits? || op.OpEnableQuota? || op.OpObserveQuota?)
    ensures Step(f, cfg, op).core.invalid == f.invalid
  {
    hide Inv, ValidEntry, ValidKey, LimitsStatus, LiveEvents, NewEvents, Due, QuotaMonth, MetadataStatus;
    if f.version == V1 { NoRevisions(f, cfg); }
  }

  lemma NoRevisions(f: Core, cfg: Config)
    requires Inv(f, cfg) && f.version == V1
    ensures f.invalid == map[]
  {
    hide FoldsFit, ReceiptsOk, ExpiryOk, FactsOk, LeasesOk, EventsOk, SwitchOk;
  }

  lemma StepKeepsBarred(f: Core, cfg: Config, op: Op)
    requires Inv(f, cfg)
    ensures f.invalid.Keys <= Step(f, cfg, op).core.invalid.Keys
  {
    hide Inv, Step;
    if op.OpReserveWithQuota? || op.OpPreflight? {
      ReserveInvalid(f, cfg, op);
    } else if op.OpCompleteQuota? {
      CompleteInvalid(f, cfg, op);
    } else if op.OpReserveWithLimits? || op.OpObserveLimits? || op.OpEnableQuota? || op.OpObserveQuota? {
      ClockInvalid(f, cfg, op);
    } else {
      PlainInvalid(f, cfg, op);
    }
  }

  /** A barred revision stays barred, through every operation and crash. */
  lemma {:induction false} BarredStays(cfg: Config, states: seq<Core>, ops: seq<Op>, i: nat, n: nat, v: Revision)
    requires IsRun(cfg, states, ops) && i <= n < |states| && 0 <= cfg.quotaCapacity
    requires v in states[i].invalid
    ensures v in states[n].invalid
    decreases n
  {
    hide Step, Inv;
    if i < n {
      BarredStays(cfg, states, ops, i, n - 1, v);
      RunKeeps(cfg, states, ops, n - 1);
      StepKeepsBarred(states[n - 1], cfg, ops[n - 1]);
    }
  }

  // ---------- and is refused ----------

  /** The policy states no ceiling at all. */
  predicate Unlimited(p: Policy)
  {
    p.tpm == None && p.tokens5H == None && p.tokens7D == None && p.tokensMonth == None && p.moneyMonth == None
  }

  lemma PassedRevision(h: Core, p: Policy, b: Bound, coverage: int, t: int, start: int)
    requires PolicyStatus(h, p, b, coverage, t, start) == Ok
    ensures Unlimited(p) || (b.revision != "" && b.revision !in h.invalid)
  {
    hide TokensStatus, MoneyStatus, IdentityStatus;
  }

  lemma PassedCheck(f: Core, cfg: Config, id: Id, ps: seq<Policy>, b: Bound, zone: string, now: int, h: Core, r: Receipt,
                    i: nat)
    requires Inv(f, cfg) && CheckQuotaAdmission(f, cfg, id, ps, b, zone, now) == QuotaAdmitted(h, r) && i < |ps|
    ensures Unlimited(ps[i]) || (b.revision != "" && b.revision !in f.invalid)
  {
    hide Inv, CheckQuotaAdmission, PolicyStatus, LimitsStatus, PruneQuota, PruneLimits, Unlimited;
    CheckedCore(f, cfg, id, ps, b, zone, now, h, r);
    CheckedFields(f, cfg, id, ps, b, zone, now, h, r);
    CheckedInvalid(f, LogicalTime(f, now));
    var coverage := if f.version == V2 then f.coverage else r.admittedAt;
    PoliciesAllOk(h, ps, b, coverage, r.admittedAt, r.monthStart, 0);
    PassedRevision(h, ps[i], b, coverage, r.admittedAt, r.monthStart);
  }

  /** An admission or preflight that passes with any ceiling at all states a bound under a revision,
      and that revision is not barred. */
  lemma CeilingsNeedRevision(f: Core, cfg: Config, op: Op, i: nat)
    requires Inv(f, cfg) && (op.OpReserveWithQuota? || op.OpPreflight?) && Step(f, cfg, op).status == Ok
    requires i < |op.policies|
    requires op.policies[i].tpm.Some? || op.policies[i].tokens5H.Some? || op.policies[i].tokens7D.Some?
             || op.policies[i].tokensMonth.Some? || op.policies[i].moneyMonth.Some?
    ensures op.bound.revision != "" && op.bound.revision !in f.invalid
  {
    hide Inv, CheckQuotaAdmission, InFlightFits, Establish, ApplyAdmission, ValidKey, ValidBound;
    if op.OpReserveWithQuota? {
      var h, r := ReserveQuotaParts(f, cfg, op.id, op.payload, op.policies, op.bound, op.recovery, op.now);
      PassedCheck(f, cfg, op.id, op.policies, op.bound, "", op.now, h, r, i);
    } else {
      var c := CheckQuotaAdmission(f, cfg, op.id, op.policies, op.bound, op.zone, op.now);
      PassedCheck(f, cfg, op.id, op.policies, op.bound, op.zone, op.now, c.core, c.receipt, i);
    }
  }

  /** A settlement above its bound, in tokens or in money, bars the bound's revision. */
  lemma OverrunBars(f: Core, cfg: Config, op: Op)
    requires Inv(f, cfg) && op.OpCompleteQuota? && Step(f, cfg, op).status == Ok
    requires op.id in f.receipts && f.receipts[op.id].state == Active && f.receipts[op.id].bound.revision != ""
    requires var b := f.receipts[op.id].bound;
             || (op.actual.tokens.Some? && b.tokens.Some? && op.actual.tokens.value > b.tokens.value)
             || (op.actual.money.Some? && b.money.Some? && QuotaUnits(op.actual.money.value).Some?
                 && QuotaUnits(b.money.value).Some?
                 && QuotaUnits(op.actual.money.value).value > QuotaUnits(b.money.value).value)
    ensures f.receipts[op.id].bound.revision in Step(f, cfg, op).core.invalid
    ensures op.id in Step(f, cfg, op).core.receipts && Step(f, cfg, op).core.receipts[op.id].overrun
  {
    hide Inv, ProjectionFits, ChargeKeys, QuotaUnits;
    var t, q := CompleteQuotaParts(f, cfg, op.id, op.payload, op.actual, op.now);
  }

  /** From the settlement that exceeded its bound on, no request with any ceiling is admitted or
      passes a preflight under that bound's revision, in every run. */
  lemma BarredForever(cfg: Config, states: seq<Core>, ops: seq<Op>, i: nat, n: nat, k: nat)
    requires IsRun(cfg, states, ops) && i < n < |ops| && 0 <= cfg.quotaCapacity
    requires ops[i].OpCompleteQuota? && Step(states[i], cfg, ops[i]).status == Ok
    requires ops[i].id in states[i].receipts && states[i].receipts[ops[i].id].state == Active
    requires var b := states[i].receipts[ops[i].id].bound;
             && b.revision != ""
             && (|| (ops[i].actual.tokens.Some? && b.tokens.Some? && ops[i].actual.tokens.value > b.tokens.value)
                 || (ops[i].actual.money.Some? && b.money.Some? && QuotaUnits(ops[i].actual.money.value).Some?
                     && QuotaUnits(b.money.value).Some?
                     && QuotaUnits(ops[i].actual.money.value).value > QuotaUnits(b.money.value).value))
    requires (ops[n].OpReserveWithQuota? || ops[n].OpPreflight?) && Step(states[n], cfg, ops[n]).status == Ok
    requires ops[n].bound.revision == states[i].receipts[ops[i].id].bound.revision && k < |ops[n].policies|
    ensures var p := ops[n].policies[k];
            p.tpm == None && p.tokens5H == None && p.tokens7D == None && p.tokensMonth == None && p.moneyMonth == None
  {
    hide Step, Inv, QuotaUnits;
    RunKeeps(cfg, states, ops, i);
    RunKeeps(cfg, states, ops, n);
    OverrunBars(states[i], cfg, ops[i]);
    BarredStays(cfg, states, ops, i + 1, n, ops[n].bound.revision);
    var p := ops[n].policies[k];
    if p.tpm.Some? || p.tokens5H.Some? || p.tokens7D.Some? || p.tokensMonth.Some? || p.moneyMonth.Some? {
      CeilingsNeedRevision(states[n], cfg, ops[n], k);
      assert false;
    }
  }
}
