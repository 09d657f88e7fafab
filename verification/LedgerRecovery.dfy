/** Opening a journal after a crash: when it succeeds, what it yields, and why it is the
    same as completing every admission that was still running. */
module LedgerRecovery {
  import opened Wrappers
  import opened Decimals
  import opened LedgerTypes
  import opened Totals
  import opened Ledger
  import opened LedgerInvariant
  import opened LedgerSteps

  // ---------- recovery keeps the invariant ----------

  /** Pruning looks only at which facts are queued, not at whether they are pending or ready. */
  lemma ReplayCommutes(f: Core, t: int)
    ensures ReplayPending(PruneQuota(f, t)) == PruneQuota(ReplayPending(f), t)
  {
    var g := ReplayPending(f);
    assert forall k :: Due(f, t, k) <==> Due(g, t, k);
    assert RetiredIds(f, t) == RetiredIds(g, t);
  }

  lemma InterruptedReceipt(f: Core, cfg: Config, id: Id)
    requires Inv(f, cfg) && id in f.receipts
    ensures WellFormed(Interrupt(f.receipts[id], f.pending))
    ensures Names(Interrupt(f.receipts[id], f.pending)) == Names(f.receipts[id])
    ensures Terminal(Interrupt(f.receipts[id], f.pending))
    ensures Interrupt(f.receipts[id], f.pending).overrun
            == Overran(f.receipts[id].bound, Interrupt(f.receipts[id], f.pending).actual)
  {
    hide FoldsFit, ExpiryOk, FactsOk, LeasesOk, EventsOk, SwitchOk, ModeOk, ValidAccounts, ValidBound, ValidKey;
    assert ReceiptOk(f, cfg, id);
  }

  lemma ReplayFacts(f: Core, cfg: Config)
    requires FactsOk(cfg, f.pending, f.ready)
    ensures FactsOk(cfg, ReplayPending(f).pending, ReplayPending(f).ready)
  {}

  lemma RebuiltReceipts(f: Core, cfg: Config)
    requires Inv(f, cfg)
    ensures ReceiptsOk(ReplayPending(Rebuild(f)), cfg)
  {
    hide FoldsFit, ExpiryOk, WellFormed, SwitchOk, EventsOk, LeasesOk, RebuiltExpiry, ValidEntry, Names, Overran;
    var g := ReplayPending(Rebuild(f));
    forall id | id in g.receipts ensures ReceiptOk(g, cfg, id) {
      assert ReceiptOk(f, cfg, id);
      InterruptedReceipt(f, cfg, id);
    }
  }

  lemma RebuiltIndex(f: Core, cfg: Config)
    requires Inv(f, cfg)
    ensures ExpiryOk(ReplayPending(Rebuild(f)))
  {
    hide Inv, Names, Windows, Latest, WindowEnd;
    var g := ReplayPending(Rebuild(f));
    forall id | id in g.receipts ensures Terminal(g.receipts[id]) { InterruptedReceipt(f, cfg, id); }
    forall k | k in g.expiry ensures KeySound(g.receipts, k) {}
    forall id | id in g.receipts ensures KeysComplete(g, id) {}
  }

  lemma RebuiltSwitch(f: Core, cfg: Config)
    requires Inv(f, cfg)
    ensures SwitchOk(ReplayPending(Rebuild(f)))
  {
    hide FoldsFit, ExpiryOk, ReceiptsOk, EventsOk, LeasesOk, FactsOk, RebuiltExpiry;
  }

  lemma RebuiltMode(f: Core, cfg: Config)
    requires ModeOk(f, cfg) && f.version == V2
    ensures ModeOk(ReplayPending(Rebuild(f)), cfg)
  {
    hide RebuiltExpiry, ValidKey;
    assert Rebuild(f).receipts.Keys == f.receipts.Keys;
  }

  lemma RebuiltFolds(f: Core)
    requires FoldsFit(Rebuild(f))
    ensures FoldsFit(ReplayPending(Rebuild(f)))
  {
    hide Rebuild;
    var g := Rebuild(f);
    forall a, w, d | d in {TokensUsed, TokensHeld, TokensUnknown, MoneyUnknown}
      ensures Fold(ReplayPending(g), a, w, d) <= MAX_INT64
    {
      assert Charged(ReplayPending(g), a, w) == Charged(g, a, w);
      assert Fold(g, a, w, d) <= MAX_INT64;
    }
  }

  lemma OpenKeeps(f: Core, cfg: Config)
    requires Inv(f, cfg)
    ensures Inv(Open(f).core, cfg)
  {
    if f.version == V1 {
      var g := Open(f).core;
      hide ReceiptOk, ValidKey;
      ReplayFacts(f, cfg);
      QuotaFrame(f, g, cfg);
    } else if FoldsFit(Rebuild(f)) {
      OpenQuotaKeeps(f, cfg);
    }
  }

  lemma OpenQuotaKeeps(f: Core, cfg: Config)
    requires Inv(f, cfg) && f.version == V2 && FoldsFit(Rebuild(f))
    ensures Inv(Open(f).core, cfg)
    ensures Inv(ReplayPending(Rebuild(f)), cfg)
    ensures Open(f).core == PruneQuota(ReplayPending(Rebuild(f)), f.clock)
  {
    hide FoldsFit, ExpiryOk, ReceiptsOk, SwitchOk, EventsOk, FactsOk, ModeOk, InterruptAll, RebuiltExpiry, PruneQuota;
    var g := ReplayPending(Rebuild(f));
    ReplayFacts(Rebuild(f), cfg);
    RebuiltReceipts(f, cfg);
    RebuiltIndex(f, cfg);
    RebuiltSwitch(f, cfg);
    RebuiltMode(f, cfg);
    RebuiltFolds(f);
    PruneQuotaKeeps(g, cfg);
    ReplayCommutes(Rebuild(f), f.clock);
  }

  /** The receipts of an active journal fit its capacity. */
  lemma RoomForAll(f: Core, cfg: Config)
    requires Inv(f, cfg) && f.version == V2
    ensures |f.receipts| <= cfg.quotaCapacity
  {
    hide FoldsFit, ExpiryOk, ReceiptsOk, ValidKey, MetadataStatus;
  }

  // ---------- every reachable journal ----------

  lemma StepKeeps(f: Core, cfg: Config, op: Op)
    requires Inv(f, cfg) && 0 <= cfg.quotaCapacity
    ensures Inv(Step(f, cfg, op).core, cfg)
  {
    hide Inv, CheckQuotaAdmission, CheckLimits;
    match op
    case OpReserve(id, p) => ReserveKeeps(f, cfg, id, p);
    case OpUpdatePending(id, p) => UpdatePendingKeeps(f, cfg, id, p);
    case OpComplete(id, p) => CompletePlainKeeps(f, cfg, id, p);
    case OpAck(id) => AckKeeps(f, cfg, id);
    case OpReserveWithLimits(id, p, ls, now) => LimitStepsKeep(f, cfg, id, p, ls, now);
    case OpObserveLimits(now) => LimitStepsKeep(f, cfg, "", "", [], now);
    case OpEnableQuota(z, now) => EnableKeeps(f, cfg, z, now);
    case OpPreflight(id, ps, b, z, now) => PreflightKeeps(f, cfg, id, ps, b, z, now);
    case OpReserveWithQuota(id, p, ps, b, rec, now) => ReserveQuotaKeeps(f, cfg, id, p, ps, b, rec, now);
    case OpUpdatePendingQuota(id, p, rec) => UpdatePendingQuotaKeeps(f, cfg, id, p, rec);
    case OpCompleteQuota(id, p, s, now) => CompleteQuotaKeeps(f, cfg, id, p, s, now);
    case OpObserveQuota(a, now) => ObserveQuotaKeeps(f, cfg, a, now);
    case OpOpen => OpenKeeps(f, cfg);
  }

  lemma EmptyKeeps(cfg: Config)
    ensures Inv(EMPTY_CORE, cfg)
  {
    forall a, w, d ensures Fold(EMPTY_CORE, a, w, d) == 0 {
      assert Charged(EMPTY_CORE, a, w) == {};
      assert Weights(EMPTY_CORE.receipts, {}, d) == map[];
    }
  }

  /** Every state of every run, crashes included, satisfies the invariant. */
  lemma {:induction false} RunKeeps(cfg: Config, states: seq<Core>, ops: seq<Op>, n: nat)
    requires IsRun(cfg, states, ops) && n < |states| && 0 <= cfg.quotaCapacity
    ensures Inv(states[n], cfg)
    decreases n
  {
    hide Inv;
    if n == 0 {
      EmptyKeeps(cfg);
    } else {
      RunKeeps(cfg, states, ops, n - 1);
      StepKeeps(states[n - 1], cfg, ops[n - 1]);
    }
  }
}
