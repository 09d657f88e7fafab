/** What is delivered and settled for a request is what its owner stated last: the payload and the
    crash settlement in the journal are those of the last successful call that stated them. */
module LedgerStatements {
  import opened Wrappers
  import opened Decimals
  import opened LedgerTypes
  import opened Ledger
  import opened LedgerInvariant
  import opened LedgerSteps
  import opened LedgerRecovery
  import opened LedgerReceipts
  import opened LedgerRuns
  import opened LedgerFacts
  import opened LedgerAdmissions

  /** The fallback an operation states for id, if it does. */
  function StatesPayload(op: Op, id: Id): (p: Option<Payload>)
  {
    match op
    case OpReserve(i, p) => if i == id then Some(p) else None
    case OpReserveWithLimits(i, p, _, _) => if i == id then Some(p) else None
    case OpReserveWithQuota(i, p, _, _, _, _) => if i == id then Some(p) else None
    case OpUpdatePending(i, p) => if i == id then Some(p) else None
    case OpUpdatePendingQuota(i, p, _) => if i == id then Some(p) else None
    case _ => None
  }

  /** The crash settlement an operation states for id, if it does. */
  function StatesRecovery(op: Op, id: Id): (s: Option<Settlement>)
  {
    match op
    case OpReserveWithQuota(i, _, _, _, s, _) => if i == id then Some(s) else None
    case OpUpdatePendingQuota(i, _, s) => if i == id then Some(s) else None
    case _ => None
  }

  /** The last of the first n operations that succeeded and stated a fallback for id. */
  ghost function LastPayload(cfg: Config, states: seq<Core>, ops: seq<Op>, n: nat, id: Id): (p: Option<Payload>)
    requires n <= |ops| <= |states|
  {
    if n == 0 then None
    else if Step(states[n - 1], cfg, ops[n - 1]).status == Ok && StatesPayload(ops[n - 1], id).Some? then
      StatesPayload(ops[n - 1], id)
    else LastPayload(cfg, states, ops, n - 1, id)
  }

  ghost function LastRecovery(cfg: Config, states: seq<Core>, ops: seq<Op>, n: nat, id: Id): (s: Option<Settlement>)
    requires n <= |ops| <= |states|
  {
    if n == 0 then None
    else if Step(states[n - 1], cfg, ops[n - 1]).status == Ok && StatesRecovery(ops[n - 1], id).Some? then
      StatesRecovery(ops[n - 1], id)
    else LastRecovery(cfg, states, ops, n - 1, id)
  }

  // ---------- single steps ----------

  /** Replacing fallback and crash settlement: exactly these two are replaced. */
  lemma UpdateEffect(f: Core, cfg: Config, id: Id, payload: Payload, recovery: Settlement)
    requires UpdatePendingQuota(f, cfg, id, payload, recovery).status == Ok
    ensures var g := UpdatePendingQuota(f, cfg, id, payload, recovery).core;
            && id in f.pending && id in f.receipts && f.receipts[id].state == Active
            && g.pending == f.pending[id := payload]
            && g.receipts == f.receipts[id := f.receipts[id].(recovery := recovery)]
            && g == f.(pending := g.pending, receipts := g.receipts)
  {
    hide ValidEntry, ValidSettlement, RecoveryStatus;
  }

  /** It succeeds exactly for a well-formed statement within the bound about a request that runs. */
  lemma UpdateIff(f: Core, cfg: Config, id: Id, payload: Payload, recovery: Settlement)
    requires Inv(f, cfg)
    ensures UpdatePendingQuota(f, cfg, id, payload, recovery).status == Ok <==>
              && ValidKey(id) && 0 < |payload| <= cfg.maxPayload && ValidSettlement(recovery)
              && id in f.pending && id in f.receipts && RecoveryAllowed(f.receipts[id].bound, recovery)
  {
    hide FoldsFit, ExpiryOk, LeasesOk, EventsOk, SwitchOk, ModeOk, ValidKey, ValidSettlement, RecoveryStatus;
    hide RecoveryAllowed, ValidAccounts, ValidBound;
    if id in f.receipts {
      assert ReceiptOk(f, cfg, id);
      RecoveryMeaning(f.receipts[id].bound, recovery);
    }
  }

  /** A pending payload after one step: stated by it, or untouched. */
  ghost predicate PayloadStep(f: Core, g: Core, op: Op, ok: bool, id: Id)
  {
    id in g.pending ==>
      if ok && StatesPayload(op, id).Some? then g.pending[id] == StatesPayload(op, id).value
      else id in f.pending && g.pending[id] == f.pending[id]
  }

  lemma ReservedPayload(f: Core, cfg: Config, op: Op, id: Id)
    requires op.OpReserve?
    ensures PayloadStep(f, Step(f, cfg, op).core, op, Step(f, cfg, op).status == Ok, id)
  {
    hide ValidEntry;
  }

  lemma UpdatedPayload(f: Core, cfg: Config, op: Op, id: Id)
    requires op.OpUpdatePending?
    ensures PayloadStep(f, Step(f, cfg, op).core, op, Step(f, cfg, op).status == Ok, id)
  {
    hide ValidEntry;
  }

  lemma CheckpointPayload(f: Core, cfg: Config, op: Op, id: Id)
    requires op.OpUpdatePendingQuota?
    ensures PayloadStep(f, Step(f, cfg, op).core, op, Step(f, cfg, op).status == Ok, id)
  {
    hide UpdatePendingQuota;
    if Step(f, cfg, op).status == Ok { UpdateEffect(f, cfg, op.id, op.payload, op.recovery); }
    else { FailedUpdate(f, cfg, op); }
  }

  lemma FailedUpdate(f: Core, cfg: Config, op: Op)
    ensures op.OpUpdatePendingQuota? && Step(f, cfg, op).status != Ok ==> Step(f, cfg, op).core == f
  {
    hide ValidEntry, ValidSettlement, RecoveryStatus;
  }

  lemma DeliveredPayload(f: Core, cfg: Config, op: Op, id: Id)
    requires op.OpComplete? || op.OpAck?
    ensures PayloadStep(f, Step(f, cfg, op).core, op, Step(f, cfg, op).status == Ok, id)
  {
    hide ValidEntry, ValidKey;
  }

  lemma SettledPayload(f: Core, cfg: Config, op: Op, id: Id)
    requires Inv(f, cfg) && op.OpCompleteQuota?
    ensures PayloadStep(f, Step(f, cfg, op).core, op, Step(f, cfg, op).status == Ok, id)
  {
    hide Inv, ProjectionFits, ChargeKeys;
    if Step(f, cfg, op).status == Ok && op.id in f.receipts && f.receipts[op.id].state == Active {
      var t, q := CompleteQuotaParts(f, cfg, op.id, op.payload, op.actual, op.now);
    } else {
      hide Project;
      assert Step(f, cfg, op).core == f;
    }
  }

  lemma AdmittedPayload(f: Core, cfg: Config, op: Op, id: Id)
    requires Inv(f, cfg) && (op.OpReserveWithQuota? || op.OpReserveWithLimits?)
    ensures PayloadStep(f, Step(f, cfg, op).core, op, Step(f, cfg, op).status == Ok, id)
  {
    hide Inv, Step;
    FailedReserve(f, cfg, op);
    if Step(f, cfg, op).status == Ok { AdmissionQueues(f, cfg, op); }
  }

  lemma QuietPayload(f: Core, cfg: Config, op: Op, id: Id)
    requires Inv(f, cfg)
    requires op.OpPreflight? || op.OpEnableQuota? || op.OpObserveLimits? || op.OpObserveQuota?
    ensures PayloadStep(f, Step(f, cfg, op).core, op, Step(f, cfg, op).status == Ok, id)
  {
    hide Inv, Step;
    QuietStep(f, cfg, op);
  }

  lemma OpenedPayload(f: Core, cfg: Config, id: Id)
    ensures PayloadStep(f, Step(f, cfg, OpOpen).core, OpOpen, Step(f, cfg, OpOpen).status == Ok, id)
  {
    hide FoldsFit, InterruptAll, RebuiltExpiry, Due;
  }

  lemma StepPayload(f: Core, cfg: Config, op: Op, id: Id)
    requires Inv(f, cfg)
    ensures PayloadStep(f, Step(f, cfg, op).core, op, Step(f, cfg, op).status == Ok, id)
  {
    hide Inv, Step, PayloadStep;
    if op.OpReserve? {
      ReservedPayload(f, cfg, op, id);
    } else if op.OpUpdatePending? {
      UpdatedPayload(f, cfg, op, id);
    } else if op.OpUpdatePendingQuota? {
      CheckpointPayload(f, cfg, op, id);
    } else if op.OpComplete? || op.OpAck? {
      DeliveredPayload(f, cfg, op, id);
    } else if op.OpCompleteQuota? {
      SettledPayload(f, cfg, op, id);
    } else if op.OpReserveWithQuota? || op.OpReserveWithLimits? {
      AdmittedPayload(f, cfg, op, id);
    } else if op.OpOpen? {
      OpenedPayload(f, cfg, id);
    } else {
      QuietPayload(f, cfg, op, id);
    }
  }

  /** The crash settlement of a running request after one step: stated by it, or untouched. */
  ghost predicate RecoveryStep(f: Core, g: Core, op: Op, ok: bool, id: Id)
  {
    id in g.receipts && g.receipts[id].state == Active ==>
      if ok && StatesRecovery(op, id).Some? then g.receipts[id].recovery == StatesRecovery(op, id).value
      else id in f.receipts && f.receipts[id].state == Active && g.receipts[id].recovery == f.receipts[id].recovery
  }

  lemma StepRecovery(f: Core, cfg: Config, op: Op, id: Id)
    requires Inv(f, cfg)
    ensures RecoveryStep(f, Step(f, cfg, op).core, op, Step(f, cfg, op).status == Ok, id)
  {
    hide Inv, Step;
    StepReceipts(f, cfg, op, id);
    FailedReserve(f, cfg, op);
    FailedUpdate(f, cfg, op);
    NewId(f, cfg, op);
    if op.OpUpdatePendingQuota? && Step(f, cfg, op).status == Ok { UpdateIsStep(f, cfg, op); }
  }

  lemma UpdateIsStep(f: Core, cfg: Config, op: Op)
    requires op.OpUpdatePendingQuota? && Step(f, cfg, op).status == Ok
    ensures op.id in f.receipts && f.receipts[op.id].state == Active
    ensures Step(f, cfg, op).core.receipts == f.receipts[op.id := f.receipts[op.id].(recovery := op.recovery)]
  {
    hide UpdatePendingQuota;
    UpdateEffect(f, cfg, op.id, op.payload, op.recovery);
  }

  lemma NewId(f: Core, cfg: Config, op: Op)
    ensures op.OpReserveWithQuota? && Step(f, cfg, op).status == Ok ==> op.id !in f.receipts
  {
    hide CheckQuotaAdmission, InFlightFits, Establish, ApplyAdmission;
    if op.OpReserveWithQuota? && Step(f, cfg, op).status == Ok {
      var h, r := ReserveQuotaParts(f, cfg, op.id, op.payload, op.policies, op.bound, op.recovery, op.now);
      CheckedFields(f, cfg, op.id, op.policies, op.bound, "", op.now, h, r);
    }
  }

  // ---------- runs ----------

  /** In every state of every run, a pending payload is the one stated last for its id. */
  lemma {:induction false} PendingIsStated(cfg: Config, states: seq<Core>, ops: seq<Op>, n: nat, id: Id)
    requires IsRun(cfg, states, ops) && n < |states| && 0 <= cfg.quotaCapacity
    requires id in states[n].pending
    ensures LastPayload(cfg, states, ops, n, id) == Some(states[n].pending[id])
    decreases n
  {
    hide Step, Inv;
    if n > 0 {
      RunKeeps(cfg, states, ops, n - 1);
      StepPayload(states[n - 1], cfg, ops[n - 1], id);
      if id in states[n - 1].pending { PendingIsStated(cfg, states, ops, n - 1, id); }
    }
  }

  /** In every state of every run, the crash settlement of a running request is the one stated last. */
  lemma {:induction false} RecoveryIsStated(cfg: Config, states: seq<Core>, ops: seq<Op>, n: nat, id: Id)
    requires IsRun(cfg, states, ops) && n < |states| && 0 <= cfg.quotaCapacity
    requires id in states[n].receipts && states[n].receipts[id].state == Active
    ensures LastRecovery(cfg, states, ops, n, id) == Some(states[n].receipts[id].recovery)
    decreases n
  {
    hide Step, Inv;
    if n > 0 {
      RunKeeps(cfg, states, ops, n - 1);
      StepRecovery(states[n - 1], cfg, ops[n - 1], id);
      if id in states[n - 1].receipts && states[n - 1].receipts[id].state == Active {
        RecoveryIsStated(cfg, states, ops, n - 1, id);
      }
    }
  }

  lemma OpenDelivers(f: Core, id: Id)
    requires f.pending.Keys !! f.ready.Keys && id in f.pending && Open(f).status == Ok
    ensures id in Open(f).core.ready && Open(f).core.ready[id] == f.pending[id]
  {
    hide FoldsFit, InterruptAll, RebuiltExpiry, Due;
  }

  lemma OpenSettles(f: Core, cfg: Config, id: Id)
    requires Inv(f, cfg) && id in f.receipts && f.receipts[id].state == Active && Open(f).status == Ok
    ensures id in Open(f).core.receipts && SettledBy(f, OpOpen, f.receipts[id], Open(f).core.receipts[id])
    ensures f.receipts[id].id == id && id in f.pending
  {
    hide Inv, Open;
    OpenReceipts(f, cfg, id);
    InterruptedDescends(f, cfg, id);
    OpenTerminal(f, cfg, id);
    RunningId(f, cfg, id);
  }

  lemma RunningId(f: Core, cfg: Config, id: Id)
    requires Inv(f, cfg) && id in f.receipts
    ensures f.receipts[id].id == id
  {
    hide FoldsFit, ExpiryOk, FactsOk, LeasesOk, EventsOk, SwitchOk, ModeOk, WellFormed;
    assert ReceiptOk(f, cfg, id);
  }

  lemma OpenTerminal(f: Core, cfg: Config, id: Id)
    requires Inv(f, cfg) && id in f.receipts && Open(f).status == Ok && id in Open(f).core.receipts
    ensures Open(f).core.receipts[id].state != Active
  {
    hide Inv, FoldsFit, Interrupt, RebuiltExpiry, Due;
    if f.version == V1 { NoReceipts(f, cfg); }
    InterruptedReceipt(f, cfg, id);
  }

  /** Startup delivers and settles, for every request a crash left running, exactly what the last
      successful call stated: its fallback becomes the deliverable fact, and its crash settlement
      the settled amounts. */
  lemma StartupUsesLastStatement(cfg: Config, states: seq<Core>, ops: seq<Op>, n: nat, id: Id)
    requires IsRun(cfg, states, ops) && n < |states| && 0 <= cfg.quotaCapacity
    requires id in states[n].pending && Open(states[n]).status == Ok
    ensures var g := Open(states[n]).core;
            && id in g.ready && LastPayload(cfg, states, ops, n, id) == Some(g.ready[id])
            && (id in states[n].receipts ==>
                  && id in g.receipts && g.receipts[id].state == Interrupted
                  && LastRecovery(cfg, states, ops, n, id) == Some(g.receipts[id].actual)
                  && g.receipts[id].digest == Some(Digest(g.receipts[id].actual, g.ready[id])))
  {
    hide Step, Inv, Open, IsRun;
    RunKeeps(cfg, states, ops, n);
    InvDisjoint(states[n], cfg);
    PendingIsStated(cfg, states, ops, n, id);
    OpenDelivers(states[n], id);
    if id in states[n].receipts {
      PendingRuns(states[n], cfg, id);
      RecoveryIsStated(cfg, states, ops, n, id);
      OpenSettles(states[n], cfg, id);
    }
  }

  lemma PendingRuns(f: Core, cfg: Config, id: Id)
    requires Inv(f, cfg) && id in f.pending && id in f.receipts
    ensures f.receipts[id].state == Active
  {
    hide FoldsFit, ExpiryOk, LeasesOk, EventsOk, SwitchOk, ModeOk, WellFormed;
    assert ReceiptOk(f, cfg, id);
  }
}
