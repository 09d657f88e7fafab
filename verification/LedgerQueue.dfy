/** The queue itself: exactly when its plain operations succeed and what they do, what startup leaves,
    and that it never holds more facts than it was opened for. */
module LedgerQueue {
  import opened Wrappers
  import opened Decimals
  import opened LedgerTypes
  import opened Totals
  import opened Ledger
  import opened LedgerInvariant
  import opened LedgerSteps
  import opened LedgerRecovery
  import opened LedgerReceipts
  import opened LedgerRuns
  import opened LedgerFacts
  import opened LedgerMeasures
  import opened LedgerAdmissions

  // ---------- plain operations ----------

  predicate WellFormedEntry(cfg: Config, id: Id, payload: Payload) { ValidKey(id) && 0 < |payload| <= cfg.maxPayload }

  /** A plain operation that does not succeed changes nothing; one that does writes exactly its fact. */
  lemma PlainIff(f: Core, cfg: Config, id: Id, payload: Payload)
    requires Inv(f, cfg)
    ensures Reserve(f, cfg, id, payload).status == Ok <==>
              && WellFormedEntry(cfg, id, payload) && id !in f.receipts && id !in f.pending && id !in f.ready
              && |f.pending| + |f.ready| < cfg.capacity
    ensures Reserve(f, cfg, id, payload).core
         == if Reserve(f, cfg, id, payload).status == Ok then f.(pending := f.pending[id := payload]) else f
    ensures UpdatePending(f, cfg, id, payload).status == Ok <==> WellFormedEntry(cfg, id, payload) && id in f.pending
    ensures UpdatePending(f, cfg, id, payload).core
         == if UpdatePending(f, cfg, id, payload).status == Ok then f.(pending := f.pending[id := payload]) else f
    ensures CompletePlain(f, cfg, id, payload).status == Ok <==>
              WellFormedEntry(cfg, id, payload) && id !in f.receipts && (id in f.pending || id in f.ready)
    ensures CompletePlain(f, cfg, id, payload).core
         == if CompletePlain(f, cfg, id, payload).status == Ok && id in f.pending then
              f.(pending := f.pending - {id}, ready := f.ready[id := payload], leases := f.leases - {id})
            else f
    ensures Ack(f, id).status == Ok <==> ValidKey(id)
    ensures Ack(f, id).core == if ValidKey(id) then f.(ready := f.ready - {id}) else f
  {
    hide Inv, ValidKey;
    InvDisjoint(f, cfg);
  }

  /** Activation succeeds on a version 1 journal in any zone that loads, and keeps it; on an active one
      it only confirms the zone. It starts coverage at once and forgets nothing of the queue. */
  lemma ActivationIff(f: Core, cfg: Config, zone: string, now: int)
    requires Inv(f, cfg)
    ensures EnableQuota(f, cfg, zone, now).status == Ok <==>
              zone != "" && cfg.loads(zone) && if f.version == V2 then f.zone == zone else 0 < now
    ensures var g := EnableQuota(f, cfg, zone, now).core;
            var t := Later(f.clock, now);
            g == if EnableQuota(f, cfg, zone, now).status == Ok && f.version == V1 then
                   f.(version := V2, zone := zone, clock := t, coverage := t)
                 else f
  {
    hide FoldsFit, ReceiptsOk, ExpiryOk, FactsOk, LeasesOk, EventsOk, SwitchOk;
  }

  /** Observing usage only advances the clock and forgets what has ended: rate events a minute old, or,
      for quotas, charges of ended windows and collectable receipts. */
  lemma ObservationIff(f: Core, cfg: Config, account: Account, now: int)
    requires Inv(f, cfg)
    ensures ObserveLimits(f, now).status == Ok <==> 0 < now
    ensures ObserveLimits(f, now).core
         == if 0 < now then f.(clock := Later(f.clock, now), events := RecentHistory(f, Later(f.clock, now))) else f
    ensures ObserveQuota(f, cfg, account, now).status == Ok <==>
              && ValidKey(account) && f.version == V2 && 0 < now
              && 0 <= cfg.month(f.zone, Later(f.clock, now)).0
              && Later(f.clock, now) < cfg.month(f.zone, Later(f.clock, now)).1
    ensures var o := ObserveQuota(f, cfg, account, now);
            var t := Later(f.clock, now);
            if o.status != Ok then o.core == f
            else
              && o.core == f.(clock := t, receipts := o.core.receipts, expiry := o.core.expiry)
              && o.core.receipts.Keys == KeptReceipts(f, t)
              && (forall id :: id in o.core.receipts ==> o.core.receipts[id] == f.receipts[id])
  {
    hide FoldsFit, ReceiptsOk, ExpiryOk, FactsOk, LeasesOk, EventsOk, SwitchOk, PruneQuota, KeptReceipts, ValidKey;
    var t := Later(f.clock, now);
    assert LiveEvents(f.events, t) == RecentHistory(f, t);
    if 0 < now {
      KeptAt(f, cfg, t);
      PrunedFields(f.(clock := t), t);
      PrunedQueue(f.(clock := t), t);
    }
  }

  lemma KeptAt(f: Core, cfg: Config, t: int)
    requires Inv(f, cfg) && 0 < t && f.clock <= t
    ensures PruneQuota(f.(clock := t), t).receipts.Keys == KeptReceipts(f, t)
  {
    hide Inv, RetiredIds, Collectable;
    ClockKeeps(f, cfg, t);
    forall id | id in f.receipts ensures id in RetiredIds(f.(clock := t), t) <==> Collectable(f, id, t) {
      RetiredMeaning(f.(clock := t), cfg, t, id);
      SameCollectable(f, f.(clock := t), id, t);
    }
  }

  lemma PrunedQueue(f: Core, t: int)
    ensures PruneQuota(f, t) == f.(receipts := PruneQuota(f, t).receipts, expiry := PruneQuota(f, t).expiry)
  {}

  /** A charge is dropped exactly when its window has ended, and a retirement when it is due and the
      fact was acknowledged. */
  lemma PrunedIndex(f: Core, t: int, k: ExpiryKey)
    ensures k in PruneQuota(f, t).expiry <==>
              k in f.expiry && (k.at > t || (k.Retire? && (k.id in f.pending || k.id in f.ready)))
  {}

  // ---------- startup ----------

  /** Startup delivers every fallback, drops every lease, and touches nothing else of the queue; the
      rate history, the clock, the account records and the barred revisions survive as they are. */
  lemma StartupEffects(f: Core, cfg: Config)
    requires Inv(f, cfg) && Open(f).status == Ok
    ensures var g := Open(f).core;
            && g.pending == map[] && g.leases == map[]
            && g.ready.Keys == f.ready.Keys + f.pending.Keys
            && (forall id :: id in f.ready ==> g.ready[id] == f.ready[id])
            && (forall id :: id in f.pending ==> g.ready[id] == f.pending[id])
            && g == f.(pending := map[], leases := map[], ready := g.ready, receipts := g.receipts, expiry := g.expiry)
  {
    hide Inv, FoldsFit, PruneQuota, Rebuild, ReplayPending;
    InvDisjoint(f, cfg);
    var h := if f.version == V1 then f.(leases := map[]) else PruneQuota(Rebuild(f), f.clock);
    assert Open(f).core == ReplayPending(h);
    RebuiltQueue(f);
    PrunedQueue(Rebuild(f), f.clock);
    Replayed(h);
  }

  lemma RebuiltQueue(f: Core)
    ensures Rebuild(f) == f.(leases := map[], receipts := Rebuild(f).receipts, expiry := Rebuild(f).expiry)
  {}

  lemma Replayed(h: Core)
    requires h.pending.Keys !! h.ready.Keys
    ensures var g := ReplayPending(h);
            && g == h.(pending := map[], ready := g.ready) && g.ready.Keys == h.ready.Keys + h.pending.Keys
            && (forall id :: id in h.ready ==> g.ready[id] == h.ready[id])
            && (forall id :: id in h.pending ==> g.ready[id] == h.pending[id])
  {}

  /** A refused startup changes nothing. */
  lemma RefusedStartup(f: Core)
    ensures Open(f).status != Ok ==> Open(f).core == f
  {
    hide FoldsFit, Rebuild, PruneQuota;
  }

  // ---------- capacity ----------

  function Held(f: Core): (n: nat) { |f.pending| + |f.ready| }

  /** No step adds more than one fact, and only where there is room. */
  ghost predicate HeldStep(f: Core, g: Core, cfg: Config)
  {
    Held(g) <= Held(f) || (Held(f) < cfg.capacity && Held(g) == Held(f) + 1)
  }

  lemma WriteHeld(m: map<Id, Payload>, id: Id, p: Payload)
    ensures |m[id := p]| == if id in m then |m| else |m| + 1
  {
    assert m[id := p].Keys == m.Keys + {id};
  }

  lemma DropHeld(m: map<Id, Payload>, id: Id)
    ensures |m - {id}| == if id in m then |m| - 1 else |m|
  {
    assert (m - {id}).Keys == m.Keys - {id};
  }

  lemma MergedHeld(m: map<Id, Payload>, n: map<Id, Payload>)
    requires m.Keys !! n.Keys
    ensures |m + n| == |m| + |n|
  {
    assert (m + n).Keys == m.Keys + n.Keys;
  }

  lemma PlainHeld(f: Core, cfg: Config, op: Op)
    requires Inv(f, cfg)
    requires op.OpReserve? || op.OpUpdatePending? || op.OpComplete? || op.OpAck?
    ensures HeldStep(f, Step(f, cfg, op).core, cfg)
  {
    hide Inv, Reserve, UpdatePending, CompletePlain, Ack;
    InvDisjoint(f, cfg);
    if op.OpAck? {
      PlainIff(f, cfg, op.id, "");
      DropHeld(f.ready, op.id);
    } else {
      PlainIff(f, cfg, op.id, op.payload);
      WriteHeld(f.pending, op.id, op.payload);
      DropHeld(f.pending, op.id);
      WriteHeld(f.ready, op.id, op.payload);
    }
  }

  lemma AdmissionHeld(f: Core, cfg: Config, op: Op)
    requires Inv(f, cfg) && (op.OpReserveWithLimits? || op.OpReserveWithQuota?)
    ensures HeldStep(f, Step(f, cfg, op).core, cfg)
  {
    hide Inv, Step;
    FailedReserve(f, cfg, op);
    if Step(f, cfg, op).status == Ok {
      AdmissionQueues(f, cfg, op);
      AdmissionRoom(f, cfg, op);
      WriteHeld(f.pending, op.id, op.payload);
    }
  }

  lemma AdmissionRoom(f: Core, cfg: Config, op: Op)
    requires Inv(f, cfg) && (op.OpReserveWithLimits? || op.OpReserveWithQuota?) && Step(f, cfg, op).status == Ok
    ensures |f.pending| + |f.ready| < cfg.capacity
  {
    hide Inv, ReserveWithLimits, ReserveWithQuota, PolicyAllows, FlightAllows;
    if op.OpReserveWithLimits? {
      LimitAdmissionIff(f, cfg, op.id, op.payload, op.limits, op.now);
    } else {
      QuotaAdmissionIff(f, cfg, op.id, op.payload, op.policies, op.bound, op.recovery, op.now);
    }
  }

  lemma UpdatedHeld(f: Core, cfg: Config, op: Op)
    requires op.OpUpdatePendingQuota?
    ensures HeldStep(f, Step(f, cfg, op).core, cfg)
  {
    hide RecoveryStatus, ValidSettlement, ValidEntry;
    WriteHeld(f.pending, op.id, op.payload);
  }

  lemma CompletedHeld(f: Core, cfg: Config, op: Op)
    requires Inv(f, cfg) && op.OpCompleteQuota?
    ensures HeldStep(f, Step(f, cfg, op).core, cfg)
  {
    hide Inv, CompleteQuota, Settle, Project, ProjectionFits;
    if CompleteQuota(f, cfg, op.id, op.payload, op.actual, op.now).status == Ok
       && op.id in f.receipts && !Terminal(f.receipts[op.id]) {
      var t, q := CompleteQuotaParts(f, cfg, op.id, op.payload, op.actual, op.now);
      ProjectFrame(f, q, t);
      DropHeld(f.pending, op.id);
      WriteHeld(f.ready, op.id, op.payload);
    } else {
      RefusedCompletion(f, cfg, op.id, op.payload, op.actual, op.now);
    }
  }

  lemma RefusedCompletion(f: Core, cfg: Config, id: Id, payload: Payload, actual: Settlement, now: int)
    requires CompleteQuota(f, cfg, id, payload, actual, now).status != Ok || id !in f.receipts || Terminal(f.receipts[id])
    ensures CompleteQuota(f, cfg, id, payload, actual, now).core == f
  {
    hide ProjectionFits, Project, Settle, ValidSettlement, ValidEntry;
  }

  lemma StepHeld(f: Core, cfg: Config, op: Op)
    requires Inv(f, cfg)
    ensures HeldStep(f, Step(f, cfg, op).core, cfg)
  {
    hide Inv, Step;
    if op.OpReserveWithLimits? || op.OpReserveWithQuota? {
      AdmissionHeld(f, cfg, op);
    } else if op.OpCompleteQuota? {
      CompletedHeld(f, cfg, op);
    } else if op.OpUpdatePendingQuota? {
      UpdatedHeld(f, cfg, op);
    } else if op.OpOpen? {
      OpenIsStep(f, cfg);
      OpenHeld(f, cfg);
    } else if op.OpPreflight? || op.OpEnableQuota? || op.OpObserveLimits? || op.OpObserveQuota? {
      QuietStep(f, cfg, op);
    } else {
      PlainHeld(f, cfg, op);
    }
  }

  lemma OpenHeld(f: Core, cfg: Config)
    requires Inv(f, cfg)
    ensures HeldStep(f, Open(f).core, cfg)
  {
    hide Inv, Open;
    if Open(f).status == Ok {
      StartupEffects(f, cfg);
      InvDisjoint(f, cfg);
      MergedHeld(f.ready, f.pending);
      assert |Open(f).core.ready| == |f.ready| + |f.pending| by {
        assert Open(f).core.ready.Keys == (f.ready + f.pending).Keys;
      }
    } else {
      RefusedStartup(f);
    }
  }

  /** In every state of every run the queue holds at most the facts it was opened for. */
  lemma {:induction false} QueueBounded(cfg: Config, states: seq<Core>, ops: seq<Op>, n: nat)
    requires IsRun(cfg, states, ops) && n < |states| && 0 <= cfg.quotaCapacity && 0 <= cfg.capacity
    ensures |states[n].pending| + |states[n].ready| <= cfg.capacity
    decreases n
  {
    hide Step, Inv;
    if n > 0 {
      QueueBounded(cfg, states, ops, n - 1);
      RunKeeps(cfg, states, ops, n - 1);
      StepHeld(states[n - 1], cfg, ops[n - 1]);
    }
  }
}
