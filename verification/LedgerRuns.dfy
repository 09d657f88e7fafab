/** Properties of whole runs: request rates, leases, queued facts and settlements. */
module LedgerRuns {
  import opened Wrappers
  import opened Decimals
  import opened LedgerTypes
  import opened Totals
  import opened Ledger
  import opened LedgerInvariant
  import opened LedgerSteps
  import opened LedgerRecovery
  import opened LedgerReceipts

  // ---------- admissions ----------

  function OpLimits(op: Op): (s: seq<Limit>)
  {
    match op
    case OpReserveWithLimits(_, _, ls, _) => ls
    case OpReserveWithQuota(_, _, ps, _, _, _) => PolicyLimits(ps)
    case _ => []
  }

  function OpId(op: Op): (id: Id)
  {
    match op
    case OpReserveWithLimits(id, _, _, _) => id
    case OpReserveWithQuota(id, _, _, _, _, _) => id
    case _ => ""
  }

  function OpNow(op: Op): (t: int)
  {
    match op
    case OpReserveWithLimits(_, _, _, now) => now
    case OpReserveWithQuota(_, _, _, _, _, now) => now
    case _ => 0
  }

  /** op is a successful admission that names account a. */
  ghost predicate Admits(f: Core, cfg: Config, op: Op, a: Account)
  {
    && (op.OpReserveWithLimits? || op.OpReserveWithQuota?)
    && Step(f, cfg, op).status == Ok
    && exists i :: 0 <= i < |OpLimits(op)| && OpLimits(op)[i].account == a
  }

  /** What a successful admission did to events and leases, whichever call made it. */
  ghost predicate AdmissionEffect(f: Core, g: Core, op: Op)
  {
    var t := LogicalTime(f, OpNow(op));
    var accounts := LimitAccounts(OpLimits(op));
    && g.clock == t
    && LimitsStatus(PruneLimits(f, t), OpLimits(op), 0) == Ok
    && g.events == LiveEvents(f.events, t) + NewEvents(OpId(op), t, accounts)
    && g.leases == f.leases[OpId(op) := accounts]
  }

  lemma AdmissionHappened(f: Core, cfg: Config, op: Op, a: Account)
    requires Inv(f, cfg) && Admits(f, cfg, op, a)
    ensures AdmissionEffect(f, Step(f, cfg, op).core, op)
  {
    hide Inv, LimitsStatus, CheckQuotaAdmission, LiveEvents, NewEvents, InFlightFits, Establish;
    if op.OpReserveWithQuota? {
      var h, r := ReserveQuotaParts(f, cfg, op.id, op.payload, op.policies, op.bound, op.recovery, op.now);
      CheckedCore(f, cfg, op.id, op.policies, op.bound, "", op.now, h, r);
      CheckedFields(f, cfg, op.id, op.policies, op.bound, "", op.now, h, r);
    }
  }

  /** No event of the last minute is dropped. */
  predicate KeepsEvents(f: Core, g: Core)
  {
    f.clock <= g.clock && forall e :: e in f.events && e.at > g.clock - MINUTE ==> e in g.events
  }

  /** The logical clock never runs backwards, and no event of the last minute is dropped. */
  lemma StepEvents(f: Core, cfg: Config, op: Op)
    requires Inv(f, cfg)
    ensures KeepsEvents(f, Step(f, cfg, op).core)
  {
    hide Inv, Step, KeepsEvents;
    if op.OpReserveWithQuota? {
      FailedReserve(f, cfg, op);
      UnchangedEvents(f);
      if Step(f, cfg, op).status == Ok { QuotaEvents(f, cfg, op); }
    } else if op.OpPreflight? {
      PreflightEvents(f, cfg, op);
    } else if op.OpReserveWithLimits? {
      LimitedEvents(f, cfg, op);
    } else if op.OpObserveLimits? || op.OpEnableQuota? || op.OpObserveQuota? {
      ClockEvents(f, cfg, op);
    } else {
      SettlingEvents(f, cfg, op);
    }
  }

  lemma UnchangedEvents(f: Core)
    ensures KeepsEvents(f, f)
  {}

  lemma LimitedEvents(f: Core, cfg: Config, op: Op)
    requires op.OpReserveWithLimits?
    ensures KeepsEvents(f, Step(f, cfg, op).core)
  {
    hide LimitsStatus, NewEvents, ValidEntry, LimitAccounts;
  }

  /** The other steps that only advance the clock. */
  lemma ClockEvents(f: Core, cfg: Config, op: Op)
    requires op.OpObserveLimits? || op.OpEnableQuota? || op.OpObserveQuota?
    ensures KeepsEvents(f, Step(f, cfg, op).core)
  {
    hide ValidKey, QuotaMonth, PruneQuota, MetadataStatus;
    if op.OpObserveQuota? && Step(f, cfg, op).status == Ok {
      PrunedEvents(f.(clock := LogicalTime(f, op.now)), LogicalTime(f, op.now));
    }
  }

  lemma PrunedEvents(f: Core, t: int)
    ensures PruneQuota(f, t).clock == f.clock && PruneQuota(f, t).events == f.events
  {}

  /** The steps that leave the events alone. */
  lemma SettlingEvents(f: Core, cfg: Config, op: Op)
    requires op.OpReserve? || op.OpUpdatePending? || op.OpComplete? || op.OpAck? || op.OpUpdatePendingQuota?
             || op.OpCompleteQuota? || op.OpOpen?
    ensures KeepsEvents(f, Step(f, cfg, op).core) && Step(f, cfg, op).core.events == f.events
  {
    hide ValidEntry, ValidKey, ValidSettlement, RecoveryStatus, MetadataStatus, ProjectionFits, ChargeKeys, Settle, Open;
    if op.OpOpen? { OpenClock(f); }
  }

  lemma PreflightEvents(f: Core, cfg: Config, op: Op)
    requires Inv(f, cfg) && op.OpPreflight?
    ensures KeepsEvents(f, Step(f, cfg, op).core) && Step(f, cfg, op).core.events <= f.events
  {
    hide Inv, Step;
    if Step(f, cfg, op).status == Ok { PreflightClock(f, cfg, op); } else { RefusedPreflight(f, cfg, op); }
  }

  lemma RefusedPreflight(f: Core, cfg: Config, op: Op)
    requires op.OpPreflight? && Step(f, cfg, op).status != Ok
    ensures Step(f, cfg, op).core == f
  {
    hide CheckQuotaAdmission;
  }

  lemma QuotaEvents(f: Core, cfg: Config, op: Op)
    requires Inv(f, cfg) && op.OpReserveWithQuota? && Step(f, cfg, op).status == Ok
    ensures KeepsEvents(f, Step(f, cfg, op).core)
  {
    hide Inv, CheckQuotaAdmission, NewEvents, InFlightFits, Establish, Due, ValidKey;
    var h, r := ReserveQuotaParts(f, cfg, op.id, op.payload, op.policies, op.bound, op.recovery, op.now);
    CheckedCore(f, cfg, op.id, op.policies, op.bound, "", op.now, h, r);
    CheckedFields(f, cfg, op.id, op.policies, op.bound, "", op.now, h, r);
  }

  lemma PreflightClock(f: Core, cfg: Config, op: Op)
    requires Inv(f, cfg) && op.OpPreflight? && Step(f, cfg, op).status == Ok
    ensures Step(f, cfg, op).core.clock == LogicalTime(f, op.now)
    ensures Step(f, cfg, op).core.events == LiveEvents(f.events, LogicalTime(f, op.now))
    ensures Step(f, cfg, op).core.leases == f.leases
    ensures Step(f, cfg, op).core.pending == f.pending && Step(f, cfg, op).core.ready == f.ready
  {
    hide Inv, CheckQuotaAdmission, LiveEvents, Due;
    var c := CheckQuotaAdmission(f, cfg, op.id, op.policies, op.bound, op.zone, op.now);
    if c.QuotaAdmitted? {
      CheckedCore(f, cfg, op.id, op.policies, op.bound, op.zone, op.now, c.core, c.receipt);
    }
  }

  lemma OpenClock(f: Core)
    ensures Open(f).core.clock == f.clock && Open(f).core.events == f.events
  {}

  // ---------- requests per minute ----------

  /** Every limit an admission states for a caps its rate at no more than cap. */
  ghost predicate RateWithin(f: Core, cfg: Config, op: Op, a: Account, cap: int)
  {
    Admits(f, cfg, op, a) ==>
      forall i :: 0 <= i < |OpLimits(op)| && OpLimits(op)[i].account == a ==>
        OpLimits(op)[i].rpm.Some? && OpLimits(op)[i].rpm.value <= cap
  }

  /** The admission's event keys are not in the journal yet. */
  predicate FreshKeys(f: Core, op: Op)
  {
    forall a :: a in LimitAccounts(OpLimits(op)) ==> Event(LogicalTime(f, OpNow(op)), OpId(op), a) !in f.events
  }

  /** What version 1 left behind: the events in the journal when it was switched to quotas. */
  function LeftByV1(states: seq<Core>, i: nat): (s: set<Event>)
    requires i < |states|
  {
    if i == 0 || states[i - 1].version == V1 then states[i].events else LeftByV1(states, i - 1)
  }

  /** Where a caller must supply a fresh id: on a version 1 journal and, at the very instant of
      the switch, against the events that version 1 left there. */
  predicate FreshWhereNeeded(states: seq<Core>, ops: seq<Op>, i: nat)
    requires |states| == |ops| + 1 && i < |ops|
  {
    var f, op := states[i], ops[i];
    var t := LogicalTime(f, OpNow(op));
    if f.version == V1 then op.OpReserveWithLimits? ==> FreshKeys(f, op)
    else op.OpReserveWithQuota? && t == f.coverage ==>
      forall a :: a in LimitAccounts(OpLimits(op)) ==> Event(t, OpId(op), a) !in LeftByV1(states, i)
  }

  /** An event at the current instant is left from version 1 or has its receipt. */
  predicate EventSource(f: Core, left: set<Event>, e: Event)
  {
    e in left || (e.id in f.receipts && f.receipts[e.id].admittedAt == e.at)
  }

  /** On an active journal only a quota admission adds events: its own, at the new clock. */
  lemma ActiveStepEvents(f: Core, cfg: Config, op: Op, e: Event)
    requires Inv(f, cfg) && f.version == V2
    requires e in Step(f, cfg, op).core.events && e !in f.events
    ensures e.at == Step(f, cfg, op).core.clock
    ensures e.id in Step(f, cfg, op).core.receipts && Step(f, cfg, op).core.receipts[e.id].admittedAt == e.at
  {
    hide Inv, Step;
    if op.OpReserveWithQuota? {
      QuotaAdmissionEvent(f, cfg, op, e);
    } else if op.OpPreflight? {
      PreflightEvents(f, cfg, op);
    } else if op.OpReserveWithLimits? || op.OpObserveLimits? || op.OpEnableQuota? || op.OpObserveQuota? {
      NoLimitEvents(f, cfg, op);
    } else {
      SettlingEvents(f, cfg, op);
    }
  }

  lemma NoLimitEvents(f: Core, cfg: Config, op: Op)
    requires f.version == V2
    requires op.OpReserveWithLimits? || op.OpObserveLimits? || op.OpEnableQuota? || op.OpObserveQuota?
    ensures Step(f, cfg, op).core.events <= f.events
  {
    hide ValidEntry, ValidKey, QuotaMonth, Due, MetadataStatus, CheckLimits;
  }

  lemma QuotaAdmissionEvent(f: Core, cfg: Config, op: Op, e: Event)
    requires Inv(f, cfg) && op.OpReserveWithQuota?
    requires e in Step(f, cfg, op).core.events && e !in f.events
    ensures e.at == Step(f, cfg, op).core.clock
    ensures e.id in Step(f, cfg, op).core.receipts && Step(f, cfg, op).core.receipts[e.id].admittedAt == e.at
  {
    hide Inv, CheckQuotaAdmission, InFlightFits, Establish, Due, ValidKey;
    FailedReserve(f, cfg, op);
    var h, r := ReserveQuotaParts(f, cfg, op.id, op.payload, op.policies, op.bound, op.recovery, op.now);
    CheckedCore(f, cfg, op.id, op.policies, op.bound, "", op.now, h, r);
    CheckedFields(f, cfg, op.id, op.policies, op.bound, "", op.now, h, r);
  }

  lemma StepEventSource(f: Core, cfg: Config, op: Op, left: set<Event>, e: Event)
    requires Inv(f, cfg) && f.version == V2
    requires forall d :: d in f.events && d.at == f.clock ==> EventSource(f, left, d)
    requires e in Step(f, cfg, op).core.events && e.at == Step(f, cfg, op).core.clock
    ensures EventSource(Step(f, cfg, op).core, left, e)
  {
    hide Inv, Step;
    if e in f.events {
      StepEvents(f, cfg, op);
      EventsPast(f, cfg, e);
      assert EventSource(f, left, e);
      StepReceipts(f, cfg, op, e.id);
      LatestAfter(f, cfg, e.id);
    } else {
      ActiveStepEvents(f, cfg, op, e);
    }
  }

  lemma EventsPast(f: Core, cfg: Config, e: Event)
    requires Inv(f, cfg) && e in f.events
    ensures e.at <= f.clock
  {}

  lemma LatestAfter(f: Core, cfg: Config, id: Id)
    requires Inv(f, cfg)
    ensures id in f.receipts ==> f.receipts[id].admittedAt < Latest(f.receipts[id])
  {}

  /** In every run, an event at the current instant that version 1 did not leave there belongs
      to a retained receipt admitted at that instant. */
  lemma {:induction false} EventsHaveReceipts(cfg: Config, states: seq<Core>, ops: seq<Op>, n: nat, e: Event)
    requires IsRun(cfg, states, ops) && n < |states| && 0 <= cfg.quotaCapacity
    requires e in states[n].events && e.at == states[n].clock
    ensures EventSource(states[n], LeftByV1(states, n), e)
    decreases n
  {
    hide Step, Inv, EventSource;
    if n == 0 || states[n - 1].version == V1 {
      LeftIsSource(states[n], LeftByV1(states, n), e);
    } else {
      RunKeeps(cfg, states, ops, n - 1);
      forall d | d in states[n - 1].events && d.at == states[n - 1].clock
        ensures EventSource(states[n - 1], LeftByV1(states, n), d)
      {
        EventsHaveReceipts(cfg, states, ops, n - 1, d);
      }
      StepEventSource(states[n - 1], cfg, ops[n - 1], LeftByV1(states, n), e);
    }
  }

  lemma LeftIsSource(f: Core, left: set<Event>, e: Event)
    requires e in left
    ensures EventSource(f, left, e)
  {}

  /** Afterwards, receipt retention alone keeps the event keys of quota admissions apart. */
  lemma FreshByRetention(f: Core, cfg: Config, op: Op)
    requires Inv(f, cfg) && op.OpReserveWithQuota? && Step(f, cfg, op).status == Ok
    requires LogicalTime(f, op.now) != f.coverage
    ensures FreshKeys(f, op)
  {
    hide FoldsFit, ReceiptOk, ExpiryOk, LeasesOk, FactsOk, CheckQuotaAdmission, InFlightFits, Establish;
    hide ApplyAdmission, ValidEntry, ValidBound, ValidSettlement;
    var h, r := ReserveQuotaParts(f, cfg, op.id, op.payload, op.policies, op.bound, op.recovery, op.now);
    CheckedFields(f, cfg, op.id, op.policies, op.bound, "", op.now, h, r);
  }

  /** At the instant of the switch, receipts and the caller together do. */
  lemma FreshAtSwitch(cfg: Config, states: seq<Core>, ops: seq<Op>, n: nat)
    requires IsRun(cfg, states, ops) && n < |ops| && 0 <= cfg.quotaCapacity
    requires FreshWhereNeeded(states, ops, n) && states[n].version == V2
    requires ops[n].OpReserveWithQuota? && Step(states[n], cfg, ops[n]).status == Ok
    requires LogicalTime(states[n], ops[n].now) == states[n].coverage
    ensures FreshKeys(states[n], ops[n])
  {
    hide Inv, Step, LeftByV1, LimitAccounts;
    var f, op := states[n], ops[n];
    RunKeeps(cfg, states, ops, n);
    SwitchInstant(f, cfg, op);
    forall a | a in LimitAccounts(OpLimits(op)) ensures Event(LogicalTime(f, OpNow(op)), OpId(op), a) !in f.events {
      var e := Event(LogicalTime(f, OpNow(op)), OpId(op), a);
      if e in f.events { EventsHaveReceipts(cfg, states, ops, n, e); }
    }
  }

  lemma SwitchInstant(f: Core, cfg: Config, op: Op)
    requires Inv(f, cfg) && f.version == V2
    requires op.OpReserveWithQuota? && Step(f, cfg, op).status == Ok && LogicalTime(f, op.now) == f.coverage
    ensures f.clock == f.coverage && op.id !in f.receipts
  {
    hide FoldsFit, ReceiptsOk, ExpiryOk, LeasesOk, FactsOk, CheckQuotaAdmission, InFlightFits, Establish, ApplyAdmission;
    var h, r := ReserveQuotaParts(f, cfg, op.id, op.payload, op.policies, op.bound, op.recovery, op.now);
    CheckedFields(f, cfg, op.id, op.policies, op.bound, "", op.now, h, r);
  }

  lemma AdmissionIsFresh(cfg: Config, states: seq<Core>, ops: seq<Op>, n: nat, a: Account)
    requires IsRun(cfg, states, ops) && n < |ops| && 0 <= cfg.quotaCapacity
    requires Admits(states[n], cfg, ops[n], a) && FreshWhereNeeded(states, ops, n)
    ensures EventOf(states, ops, a, n) in states[n + 1].events
    ensures EventOf(states, ops, a, n) !in states[n].events
  {
    hide Inv, Step, FreshKeys, LeftByV1;
    var f, op := states[n], ops[n];
    RunKeeps(cfg, states, ops, n);
    AdmissionHappened(f, cfg, op, a);
    var i :| 0 <= i < |OpLimits(op)| && OpLimits(op)[i].account == a;
    assert LimitAccounts(OpLimits(op))[i] == a;
    if f.version == V1 {
      LimitsOnly(f, cfg, op, a);
    } else {
      QuotaOnly(f, cfg, op, a);
      if LogicalTime(f, OpNow(op)) == f.coverage {
        FreshAtSwitch(cfg, states, ops, n);
      } else {
        FreshByRetention(f, cfg, op);
      }
    }
    FreshKey(f, op, a);
  }

  lemma LimitsOnly(f: Core, cfg: Config, op: Op, a: Account)
    requires Admits(f, cfg, op, a) && f.version == V1
    ensures op.OpReserveWithLimits?
  {}

  lemma FreshKey(f: Core, op: Op, a: Account)
    requires FreshKeys(f, op) && a in LimitAccounts(OpLimits(op))
    ensures Event(LogicalTime(f, OpNow(op)), OpId(op), a) !in f.events
  {}

  lemma QuotaOnly(f: Core, cfg: Config, op: Op, a: Account)
    requires Admits(f, cfg, op, a) && f.version == V2
    ensures op.OpReserveWithQuota? && Step(f, cfg, op).status == Ok
  {}

  /** An admission under a rate cap saw fewer events of the last minute than the cap. */
  lemma AdmissionBelowCap(f: Core, cfg: Config, op: Op, a: Account, cap: int)
    requires Inv(f, cfg) && Admits(f, cfg, op, a) && RateWithin(f, cfg, op, a, cap)
    ensures |EventsOf(LiveEvents(f.events, Step(f, cfg, op).core.clock), a)| < cap
  {
    hide Inv, Step, LiveEvents, EventsOf;
    AdmissionHappened(f, cfg, op, a);
    var t := LogicalTime(f, OpNow(op));
    LimitsAllOk(PruneLimits(f, t), OpLimits(op), 0);
    var i :| 0 <= i < |OpLimits(op)| && OpLimits(op)[i].account == a;
    assert LimitStatus(PruneLimits(f, t), OpLimits(op), i) == Ok;
  }

  lemma {:induction false} ClockMonotone(cfg: Config, states: seq<Core>, ops: seq<Op>, i: nat, n: nat)
    requires IsRun(cfg, states, ops) && i <= n < |states| && 0 <= cfg.quotaCapacity
    ensures states[i].clock <= states[n].clock
    decreases n
  {
    hide Step, Inv;
    if i < n {
      ClockMonotone(cfg, states, ops, i, n - 1);
      RunKeeps(cfg, states, ops, n - 1);
      StepEvents(states[n - 1], cfg, ops[n - 1]);
    }
  }

  /** An event stays in the journal for a minute of logical time. */
  lemma {:induction false} EventPersists(cfg: Config, states: seq<Core>, ops: seq<Op>, i: nat, n: nat, e: Event)
    requires IsRun(cfg, states, ops) && i <= n < |states| && 0 <= cfg.quotaCapacity
    requires e in states[i].events && e.at > states[n].clock - MINUTE
    ensures e in states[n].events
    decreases n
  {
    hide Step, Inv;
    if i < n {
      ClockMonotone(cfg, states, ops, n - 1, n);
      EventPersists(cfg, states, ops, i, n - 1, e);
      RunKeeps(cfg, states, ops, n - 1);
      StepEvents(states[n - 1], cfg, ops[n - 1]);
    }
  }

  /** The steps that admitted account a at a logical time in [from, from + one minute). */
  ghost function AdmissionsIn(cfg: Config, states: seq<Core>, ops: seq<Op>, a: Account, from: int): (s: set<int>)
    requires |states| == |ops| + 1
  {
    set i | 0 <= i < |ops| && Admits(states[i], cfg, ops[i], a) && from <= states[i + 1].clock < from + MINUTE
  }

  ghost predicate CappedRun(cfg: Config, states: seq<Core>, ops: seq<Op>, a: Account, cap: int)
  {
    && IsRun(cfg, states, ops)
    && forall i :: 0 <= i < |ops| ==>
         && RateWithin(states[i], cfg, ops[i], a, cap)
         && (Admits(states[i], cfg, ops[i], a) ==> FreshWhereNeeded(states, ops, i))
  }

  function EventOf(states: seq<Core>, ops: seq<Op>, a: Account, i: int): (e: Event)
    requires |states| == |ops| + 1 && 0 <= i < |ops|
  {
    Event(states[i + 1].clock, OpId(ops[i]), a)
  }

  lemma EarlierEvent(cfg: Config, states: seq<Core>, ops: seq<Op>, a: Account, cap: int, i: nat, j: nat)
    requires CappedRun(cfg, states, ops, a, cap) && 0 <= cfg.quotaCapacity && i < j < |ops|
    requires Admits(states[i], cfg, ops[i], a) && Admits(states[j], cfg, ops[j], a)
    requires states[j + 1].clock - MINUTE < states[i + 1].clock
    ensures EventOf(states, ops, a, i) in EventsOf(LiveEvents(states[j].events, states[j + 1].clock), a)
    ensures EventOf(states, ops, a, i) != EventOf(states, ops, a, j)
  {
    hide Step, Inv, Admits, RateWithin, FreshWhereNeeded;
    RunKeeps(cfg, states, ops, i);
    RunKeeps(cfg, states, ops, j);
    AdmissionIsFresh(cfg, states, ops, i, a);
    AdmissionIsFresh(cfg, states, ops, j, a);
    ClockMonotone(cfg, states, ops, j, j + 1);
    EventPersists(cfg, states, ops, i + 1, j, EventOf(states, ops, a, i));
  }

  lemma {:induction false} Maximum(s: set<int>) returns (m: int)
    requires exists i :: i in s
    ensures m in s
    ensures forall i :: i in s ==> i <= m
    decreases |s|
  {
    var x :| x in s;
    m := x;
    if y :| y in s - {x} {
      var rest := Maximum(s - {x});
      m := if x < rest then rest else x;
    }
    forall i | i in s ensures i <= m {
      assert i == x || i in s - {x};
    }
  }

  /** Of admissions within one minute, all but the last are distinct events that the last one saw. */
  lemma EarlierAdmissions(cfg: Config, states: seq<Core>, ops: seq<Op>, a: Account, cap: int, s: set<int>, j: nat)
    requires CappedRun(cfg, states, ops, a, cap) && 0 <= cfg.quotaCapacity && j in s
    requires forall i :: i in s ==> 0 <= i <= j < |ops| && Admits(states[i], cfg, ops[i], a)
    requires forall i :: i in s ==> states[j + 1].clock - MINUTE < states[i + 1].clock
    ensures |s| - 1 <= |EventsOf(LiveEvents(states[j].events, states[j + 1].clock), a)|
  {
    hide Step, Admits, RateWithin, FreshWhereNeeded, EventOf, EventsOf, LiveEvents;
    var seen := EventsOf(LiveEvents(states[j].events, states[j + 1].clock), a);
    var m := map i | i in s - {j} :: EventOf(states, ops, a, i);
    forall i | i in m ensures m[i] in seen {
      EarlierEvent(cfg, states, ops, a, cap, i, j);
    }
    forall x, y | x in m && y in m && x < y ensures m[x] != m[y] {
      DistinctEvents(cfg, states, ops, a, cap, x, y, j);
    }
    ListedCard(m, seen);
    assert s == m.Keys + {j};
  }

  lemma DistinctEvents(cfg: Config, states: seq<Core>, ops: seq<Op>, a: Account, cap: int, x: nat, y: nat, j: nat)
    requires CappedRun(cfg, states, ops, a, cap) && 0 <= cfg.quotaCapacity && x < y <= j < |ops|
    requires Admits(states[x], cfg, ops[x], a) && Admits(states[y], cfg, ops[y], a)
    requires states[j + 1].clock - MINUTE < states[x + 1].clock
    ensures EventOf(states, ops, a, x) != EventOf(states, ops, a, y)
  {
    hide Step, Admits, RateWithin, FreshWhereNeeded, EventOf;
    ClockMonotone(cfg, states, ops, y + 1, j + 1);
    EarlierEvent(cfg, states, ops, a, cap, x, y);
  }

  /** No half-open minute of logical time holds more admissions of an account than the rate cap
      it was always admitted under, across clock regressions and restarts. */
  lemma SlidingWindowRate(cfg: Config, states: seq<Core>, ops: seq<Op>, a: Account, cap: nat, from: int)
    requires CappedRun(cfg, states, ops, a, cap) && 0 <= cfg.quotaCapacity
    ensures |AdmissionsIn(cfg, states, ops, a, from)| <= cap
  {
    hide Step, Inv, Admits, RateWithin, FreshWhereNeeded, EventsOf, LiveEvents;
    var s := AdmissionsIn(cfg, states, ops, a, from);
    if some :| some in s {
      var j := Maximum(s);
      EarlierAdmissions(cfg, states, ops, a, cap, s, j);
      RunKeeps(cfg, states, ops, j);
      AdmissionBelowCap(states[j], cfg, ops[j], a, cap);
    } else {
      assert s == {};
    }
  }

  // ---------- leases ----------

  /** Every limit an admission states for a caps its leases at no more than cap. */
  ghost predicate ConcurrencyWithin(f: Core, cfg: Config, op: Op, a: Account, cap: int)
  {
    Admits(f, cfg, op, a) ==>
      forall i :: 0 <= i < |OpLimits(op)| && OpLimits(op)[i].account == a ==>
        OpLimits(op)[i].concurrency.Some? && OpLimits(op)[i].concurrency.value <= cap
  }

  /** Only an admission takes a lease; every other step keeps or releases some. */
  lemma StepLeases(f: Core, cfg: Config, op: Op)
    requires Inv(f, cfg)
    ensures !(Step(f, cfg, op).status == Ok && (op.OpReserveWithLimits? || op.OpReserveWithQuota?)) ==>
              Step(f, cfg, op).core.leases.Keys <= f.leases.Keys
    ensures !(Step(f, cfg, op).status == Ok && (op.OpReserveWithLimits? || op.OpReserveWithQuota?)) ==>
              forall id :: id in Step(f, cfg, op).core.leases ==> Step(f, cfg, op).core.leases[id] == f.leases[id]
  {
    hide Inv, CheckQuotaAdmission, LimitsStatus, NewEvents, InFlightFits, Establish, Rebuild, FoldsFit, ProjectionFits;
    hide ValidKey, QuotaMonth, Due, ChargeKeys, Settle, ReserveWithQuota, ReserveWithLimits;
    if op.OpPreflight? && Step(f, cfg, op).status == Ok {
      PreflightClock(f, cfg, op);
    } else if op.OpOpen? {
      OpenLeases(f);
    } else if op.OpReserveWithQuota? || op.OpReserveWithLimits? {
      FailedReserve(f, cfg, op);
    }
  }

  lemma OpenLeases(f: Core)
    ensures Open(f).core.leases == map[] || Open(f).core == f
  {}

  lemma StepConcurrency(f: Core, cfg: Config, op: Op, a: Account, cap: int)
    requires Inv(f, cfg) && ConcurrencyWithin(f, cfg, op, a, cap)
    requires |LeasesOf(f.leases, a)| <= cap
    ensures |LeasesOf(Step(f, cfg, op).core.leases, a)| <= cap
  {
    hide Inv, Step;
    var g := Step(f, cfg, op).core;
    if Admits(f, cfg, op, a) {
      AdmissionHappened(f, cfg, op, a);
      AdmissionConcurrency(f, g, op, a, cap);
    } else if Step(f, cfg, op).status == Ok && (op.OpReserveWithLimits? || op.OpReserveWithQuota?) {
      OtherAdmission(f, cfg, op, a);
      SubsetCard(LeasesOf(g.leases, a), LeasesOf(f.leases, a));
    } else {
      FailedReserve(f, cfg, op);
      StepLeases(f, cfg, op);
      SubsetCard(LeasesOf(g.leases, a), LeasesOf(f.leases, a));
    }
  }

  lemma AdmissionConcurrency(f: Core, g: Core, op: Op, a: Account, cap: int)
    requires AdmissionEffect(f, g, op)
    requires exists i :: 0 <= i < |OpLimits(op)| && OpLimits(op)[i].account == a
    requires forall i :: 0 <= i < |OpLimits(op)| && OpLimits(op)[i].account == a ==>
               OpLimits(op)[i].concurrency.Some? && OpLimits(op)[i].concurrency.value <= cap
    ensures |LeasesOf(g.leases, a)| <= cap
  {
    hide LiveEvents, NewEvents, EventsOf;
    var t := LogicalTime(f, OpNow(op));
    LimitsAllOk(PruneLimits(f, t), OpLimits(op), 0);
    var i :| 0 <= i < |OpLimits(op)| && OpLimits(op)[i].account == a;
    assert LimitStatus(PruneLimits(f, t), OpLimits(op), i) == Ok;
    assert LeasesOf(g.leases, a) <= LeasesOf(f.leases, a) + {OpId(op)};
    SubsetCard(LeasesOf(g.leases, a), LeasesOf(f.leases, a) + {OpId(op)});
  }

  /** An admission of other accounts leaves the leases that name a as they are. */
  lemma OtherAdmission(f: Core, cfg: Config, op: Op, a: Account)
    requires Inv(f, cfg) && !Admits(f, cfg, op, a)
    requires Step(f, cfg, op).status == Ok && (op.OpReserveWithLimits? || op.OpReserveWithQuota?)
    ensures LeasesOf(Step(f, cfg, op).core.leases, a) <= LeasesOf(f.leases, a)
  {
    hide Inv, Step;
    AdmittedLease(f, cfg, op);
    var accounts := LimitAccounts(OpLimits(op));
    forall i | 0 <= i < |accounts| ensures accounts[i] != a {
      assert accounts[i] == OpLimits(op)[i].account;
    }
  }

  lemma AdmittedLease(f: Core, cfg: Config, op: Op)
    requires Step(f, cfg, op).status == Ok && (op.OpReserveWithLimits? || op.OpReserveWithQuota?) && Inv(f, cfg)
    ensures Step(f, cfg, op).core.leases == f.leases[OpId(op) := LimitAccounts(OpLimits(op))]
  {
    hide Inv, LimitsStatus, CheckQuotaAdmission, LiveEvents, NewEvents, InFlightFits, Establish;
    if op.OpReserveWithQuota? {
      var h, r := ReserveQuotaParts(f, cfg, op.id, op.payload, op.policies, op.bound, op.recovery, op.now);
      CheckedCore(f, cfg, op.id, op.policies, op.bound, "", op.now, h, r);
    }
  }

  /** In every state of every run the leases naming an account stay within the concurrency cap
      it was always admitted under, and every lease belongs to a pending request. */
  lemma {:induction false} LeaseConservation(cfg: Config, states: seq<Core>, ops: seq<Op>, n: nat, a: Account, cap: nat)
    requires IsRun(cfg, states, ops) && n < |states| && 0 <= cfg.quotaCapacity
    requires forall i :: 0 <= i < |ops| ==> ConcurrencyWithin(states[i], cfg, ops[i], a, cap)
    ensures |LeasesOf(states[n].leases, a)| <= cap
    ensures LeasesOf(states[n].leases, a) <= states[n].pending.Keys
    decreases n
  {
    hide Step, FoldsFit, FactsOk, EventsOk, ModeOk, ReceiptsOk, ExpiryOk, SwitchOk, ConcurrencyWithin;
    RunKeeps(cfg, states, ops, n);
    if n == 0 {
      assert LeasesOf(states[0].leases, a) == {};
    } else {
      LeaseConservation(cfg, states, ops, n - 1, a, cap);
      RunKeeps(cfg, states, ops, n - 1);
      StepConcurrency(states[n - 1], cfg, ops[n - 1], a, cap);
    }
  }
}
