/** The journal as the program keeps it: buckets changed in place inside transactions, counts
    and counters maintained incrementally. Every operation is proved equal to its counterpart
    over the facts alone. On a journal whose buckets do not agree with each other an operation
    may fail as the program does, so the contracts are conditional on the state they start in. */
module Journal {
  import opened Wrappers
  import opened Decimals
  import opened LedgerTypes
  import opened Totals
  import opened Ledger
  import opened LedgerInvariant
  import opened LedgerSteps
  import opened LedgerRecovery
  import opened LedgerRefinement
  import opened LedgerRuns
  import opened Counters
  import opened IndexSteps
  import opened QuotaChecks
  import Projection
  import opened Rebuilding

  // ---------- pieces of the contracts ----------

  ghost predicate EventsAgree(db: Db)
  {
    && RpmAgrees(db.rpm, db.core.events)
    && db.eventCount == |db.core.events|
    && forall e :: e in db.core.events ==> ValidKey(e.account)
  }

  ghost predicate Prunable(db: Db)
  {
    && KeysSound(db.core) && Readable(db.core)
    && TableAgrees(db.counters, db.core)
    && db.entryCount == |db.core.receipts|
  }

  /** A transaction on a valid journal does what its counterpart over the facts does, commits
      or rolls back, and leaves a valid journal. */
  ghost predicate Refines(before: Db, after: Db, cfg: Config, op: Op, s: Status)
  {
    ValidDb(before, cfg) ==>
      Outcome(s, after.core) == Step(before.core, cfg, op) && ValidDb(after, cfg)
  }

  /** An admission also does what its counterpart does; its counts still agree with the events
      afterwards exactly when its event keys were new. */
  ghost predicate RefinesAdmission(before: Db, after: Db, cfg: Config, op: Op, s: Status)
  {
    ValidDb(before, cfg) ==>
      && Outcome(s, after.core) == Step(before.core, cfg, op)
      && Inv(after.core, cfg)
      && (Agrees(after) <==> (s == Ok ==> FreshKeys(before.core, op)))
  }

  /** The cursor stands before todo, and everything due before it is gone. */
  ghost predicate PruneState(before: Db, now: Db, t: int, todo: set<ExpiryKey>)
  {
    && CursorAt(before.core, t, todo)
    && now == before.(core := Pruning(before.core, t, todo), counters := now.counters, entryCount := now.entryCount)
    && TableAgrees(now.counters, now.core)
    && now.entryCount == |now.core.receipts|
  }

  function ReadReceipt(f: Core, id: Id): (s: Status)
  {
    if id !in f.receipts then ErrMissing
    else if f.receipts[id].id != id || !WellFormed(f.receipts[id]) then ErrInvalid
    else Ok
  }

  /** A counter that readQuotaCounter accepts. */
  predicate Legible(c: Counter)
  {
    && 0 <= c.tokensUsed && 0 <= c.tokensHeld && 0 <= c.tokensUnknown && 0 <= c.moneyUnknown
    && (forall x :: x in c.moneyUsed ==> ValidCurrency(x) && 0 <= c.moneyUsed[x])
    && (forall x :: x in c.moneyHeld ==> ValidCurrency(x) && 0 <= c.moneyHeld[x])
  }

  class Queue {
    const cfg: Config
    var db: Db

    ghost predicate Valid()
      reads this
    {
      ValidDb(db, cfg)
    }

    // ---------- limits ----------

    /** Drops the events of the last minute's past in time order and keeps their counts. */
    method PruneEvents(instant: int) returns (s: Status)
      modifies this
      ensures EventsAgree(old(db)) ==>
                && s == Ok && EventsAgree(db)
                && db == old(db).(core := old(db.core).(events := LiveEvents(old(db.core.events), instant)),
                                  rpm := db.rpm, eventCount := db.eventCount)
    {
      ghost var start, sound := db, EventsAgree(db);
      var cutoff := instant - MINUTE;
      var removed := 0;
      while db.core.events != {}
        invariant removed >= 0
        invariant db == start.(core := start.core.(events := db.core.events), rpm := db.rpm)
        invariant db.core.events <= start.core.events
        invariant forall e :: e in start.core.events && e !in db.core.events ==> e.at <= cutoff
        invariant sound ==> RpmAgrees(db.rpm, db.core.events) && removed == |start.core.events| - |db.core.events|
        decreases |db.core.events|
      {
        SomeFirstEvent(db.core.events);
        var e :| e in db.core.events && FirstEvent(db.core.events, e);
        if !ValidKey(e.account) { return ErrInvalid; }
        if e.at > cutoff { break; }
        var count := ChangeCount(db.rpm, e.account, -1);
        if sound { EventCounted(db.rpm, db.core.events, e); }
        if count.None? { return ErrInvalid; }
        if sound { EventRemoved(db.rpm, count.value, db.core.events, e); }
        db := db.(rpm := count.value, core := db.core.(events := db.core.events - {e}));
        removed := removed + 1;
      }
      assert db.core.events == LiveEvents(start.core.events, instant);
      if removed > db.eventCount { return ErrInvalid; }
      db := db.(eventCount := db.eventCount - removed);
      return Ok;
    }

    /** Moves the stored clock forward to now, never back. */
    method LogicalLimitTime(now: int) returns (s: Status, t: int)
      modifies this
      ensures now <= 0 ==> s == ErrInvalid && db == old(db)
      ensures now > 0 ==> s == Ok && t == LogicalTime(old(db.core), now) && db == old(db).(core := old(db.core).(clock := t))
    {
      if now <= 0 { return ErrInvalid, 0; }
      t := now;
      if t < db.core.clock { t := db.core.clock; }
      db := db.(core := db.core.(clock := t));
      return Ok, t;
    }

    /** Releases the leases of one request, once. */
    method ReleaseLimits(id: Id) returns (s: Status)
      modifies this
      ensures ActiveAgrees(old(db.active), old(db.core.leases))
              && (id in old(db.core.leases) ==> DistinctAccounts(old(db.core.leases)[id])) ==>
                && s == Ok && ActiveAgrees(db.active, db.core.leases)
                && db == old(db).(core := old(db.core).(leases := old(db.core.leases) - {id}), active := db.active)
    {
      if id !in db.core.leases {
        assert db.core.leases - {id} == db.core.leases;
        return Ok;
      }
      ghost var start := db;
      ghost var sound := ActiveAgrees(db.active, db.core.leases) && DistinctAccounts(db.core.leases[id]);
      var accounts := db.core.leases[id];
      var i := 0;
      while i < |accounts|
        invariant 0 <= i <= |accounts|
        invariant db == start.(active := db.active)
        invariant sound ==> Positive(db.active)
        invariant sound ==> forall a :: CountValue(db.active, a)
                                        == CountValue(start.active, a) - if a in accounts[..i] then 1 else 0
      {
        var count := ChangeCount(db.active, accounts[i], -1);
        assert accounts[..i + 1] == accounts[..i] + [accounts[i]];
        if sound {
          LeaseCounted(start.active, start.core.leases, id, accounts[i]);
          NotYet(accounts, i);
        }
        if count.None? { return ErrInvalid; }
        db := db.(active := count.value);
        i := i + 1;
      }
      assert accounts[..|accounts|] == accounts;
      if sound { LeasesReleased(start.active, db.active, start.core.leases, id); }
      db := db.(core := db.core.(leases := db.core.leases - {id}));
      return Ok;
    }

    /** Consumes RPM and takes leases, one account at a time, and stores the fallback. */
    method ApplyLimitAdmission(id: Id, payload: Payload, instant: int, accounts: seq<Account>) returns (s: Status)
      requires DistinctAccounts(accounts)
      modifies this
      ensures Positive(old(db.rpm)) && Positive(old(db.active)) ==>
                && s == Ok && Positive(db.rpm) && Positive(db.active)
                && db == old(db).(core := ApplyAdmission(old(db.core), id, payload, instant, accounts),
                                  rpm := db.rpm, active := db.active,
                                  eventCount := old(db.eventCount) + |accounts|)
                && (forall a :: CountValue(db.rpm, a) == CountValue(old(db.rpm), a) + if a in accounts then 1 else 0)
                && (forall a :: CountValue(db.active, a) == CountValue(old(db.active), a) + if a in accounts then 1 else 0)
    {
      ghost var start := db;
      ghost var sound := Positive(db.rpm) && Positive(db.active);
      var i := 0;
      assert NewEvents(id, instant, accounts[..0]) == {};
      while i < |accounts|
        invariant 0 <= i <= |accounts|
        invariant db == start.(core := start.core.(events := db.core.events), rpm := db.rpm, active := db.active)
        invariant db.core.events == start.core.events + NewEvents(id, instant, accounts[..i])
        invariant sound ==> Positive(db.rpm) && Positive(db.active)
        invariant sound ==> forall a ::
                    && CountValue(db.rpm, a) == CountValue(start.rpm, a) + (if a in accounts[..i] then 1 else 0)
                    && CountValue(db.active, a) == CountValue(start.active, a) + (if a in accounts[..i] then 1 else 0)
      {
        NotYet(accounts, i);
        NewEventsStep(id, instant, accounts, i);
        assert accounts[..i + 1] == accounts[..i] + [accounts[i]];
        if sound { PositiveCount(db.rpm, accounts[i]); PositiveCount(db.active, accounts[i]); }
        var rpm := ChangeCount(db.rpm, accounts[i], 1);
        if rpm.None? { return ErrInvalid; }
        var active := ChangeCount(db.active, accounts[i], 1);
        if active.None? { return ErrInvalid; }
        db := db.(rpm := rpm.value, active := active.value,
                  core := db.core.(events := db.core.events + {Event(instant, id, accounts[i])}));
        i := i + 1;
      }
      assert accounts[..|accounts|] == accounts;
      db := db.(eventCount := db.eventCount + |accounts|,
                core := db.core.(leases := db.core.leases[id := accounts], pending := db.core.pending[id := payload]));
      return Ok;
    }

    /** Every capacity, rate and concurrency check, without consuming anything. */
    method CheckLimitAdmission(id: Id, limits: seq<Limit>, now: int)
      returns (s: Status, instant: int, accounts: seq<Account>)
      modifies this
      ensures ValidDb(old(db), cfg) ==>
                match CheckLimits(old(db.core), cfg, id, limits, now)
                case Rejected(e) => s == e
                case Admitted(g, t) =>
                  && s == Ok && instant == t && accounts == LimitAccounts(limits)
                  && db == old(db).(core := g, rpm := db.rpm, eventCount := db.eventCount)
                  && EventsAgree(db)
      ensures s == Ok ==> DistinctAccounts(accounts)
    {
      hide LimitsStatus, ValidDb, RpmAgrees, ActiveAgrees, EventsAgree, LiveEvents, LimitAccounts;
      instant, accounts := 0, [];
      ghost var start, sound := db, ValidDb(db, cfg);
      if id in db.core.pending || id in db.core.ready { return ErrInvalid, 0, []; }
      if |db.core.pending| + |db.core.ready| >= cfg.capacity { return ErrFull, 0, []; }
      s, instant := LogicalLimitTime(now);
      if s != Ok { return; }
      if sound { ValidEvents(start, cfg); ClockUncounted(start, db); }
      s := PruneEvents(instant);
      if s != Ok { return; }
      if sound { EventTotal(db); }
      if db.eventCount + |limits| > LIMIT_HISTORY_CAPACITY { return ErrFull, instant, []; }
      if sound { StillAgrees(start, db, cfg); }
      s, accounts := CheckEachLimit(limits);
    }

    /** The caps of each account against its counts; no account may be named twice. */
    method CheckEachLimit(limits: seq<Limit>) returns (s: Status, accounts: seq<Account>)
      ensures RpmAgrees(db.rpm, db.core.events) && ActiveAgrees(db.active, db.core.leases) ==>
                && s == LimitsStatus(db.core, limits, 0)
                && (s == Ok ==> accounts == LimitAccounts(limits))
      ensures s == Ok ==> DistinctAccounts(accounts)
    {
      hide LimitsStatus, RpmAgrees, ActiveAgrees, EventsOf, LeasesOf;
      accounts := [];
      var seen: set<Account> := {};
      var i := 0;
      ghost var sound := RpmAgrees(db.rpm, db.core.events) && ActiveAgrees(db.active, db.core.leases);
      while i < |limits|
        invariant 0 <= i <= |limits|
        invariant forall a :: a in seen <==> exists j :: 0 <= j < i && limits[j].account == a
        invariant accounts == LimitAccounts(limits)[..i] && DistinctAccounts(accounts)
        invariant sound ==> LimitsStatus(db.core, limits, 0) == LimitsStatus(db.core, limits, i)
      {
        var l := limits[i];
        LimitsUnfold(db.core, limits, i);
        if sound { CountsRead(db, l.account); }
        if !ValidKey(l.account) || l.account in seen { return ErrInvalid, accounts; }
        seen := seen + {l.account};
        var rpm, active := CountValue(db.rpm, l.account), CountValue(db.active, l.account);
        if l.rpm.Some? && (l.rpm.value < 0 || rpm >= l.rpm.value) { return ErrRateLimit, accounts; }
        if l.concurrency.Some? && (l.concurrency.value < 0 || active >= l.concurrency.value) {
          return ErrConcurrency, accounts;
        }
        accounts := accounts + [l.account];
        i := i + 1;
      }
      assert accounts == LimitAccounts(limits);
      LimitsUnfold(db.core, limits, |limits|);
      return Ok, accounts;
    }

    // ---------- quota checks ----------

    /** One capped token window of a policy. */
    method CheckTokenWindow(p: Policy, b: Bound, coverage: int, tw: TokenWindow, active: Counter, activeJournal: bool)
      returns (s: Status)
      ensures TableAgrees(db.counters, db.core) && Reads(active, db.core, p.limit.account, InFlight)
              && (activeJournal || (db.core.receipts == map[] && db.core.expiry == {}))
              && (b.tokens.Some? ==> 0 <= b.tokens.value) ==>
                s == TokenStatus(db.core, p, b, coverage, tw)
    {
      hide TableAgrees, Reads, Fold, Legible;
      ghost var a := p.limit.account;
      ghost var sound := TableAgrees(db.counters, db.core) && Reads(active, db.core, a, InFlight)
                         && (activeJournal || (db.core.receipts == map[] && db.core.expiry == {}))
                         && (b.tokens.Some? ==> 0 <= b.tokens.value);
      if tw.ceiling.None? { return Ok; }
      if tw.ceiling.value < 0 { return ErrInvalid; }
      var soft := tw.window.Month? && p.tokensBehavior == AlertOnly;
      if tw.ceiling.value == 0 && !soft { return ErrQuotaTokens; }
      if tw.start < coverage && Created(p) < coverage { return ErrQuotaCoverage; }
      if b.tokens.None? { return ErrQuotaBound; }
      var used := if activeJournal then CounterAt(db.counters, p.limit.account, tw.window) else ZERO;
      if sound { WindowReads(db, a, tw.window, activeJournal); ReadIsLegible(used, db.core, a, tw.window); }
      if !Legible(used) { return ErrInvalid; }
      if sound { ReadTokens(used, db.core, a, tw.window); ReadTokens(active, db.core, a, InFlight); }
      if used.tokensUnknown > 0 || active.tokensUnknown > 0 { return ErrQuotaUnknown; }
      if !soft {
        var amounts := [used.tokensUsed, used.tokensHeld, active.tokensUsed, active.tokensHeld, b.tokens.value];
        FiveAmounts(used.tokensUsed, used.tokensHeld, active.tokensUsed, active.tokensHeld, b.tokens.value);
        if exists i :: 0 <= i < |amounts| && amounts[i] < 0 { return ErrInvalid; }
        var ok := FitsCeiling(tw.ceiling.value, amounts);
        if !ok { return ErrQuotaTokens; }
      }
      return Ok;
    }

    /** The monthly money of a policy. */
    method CheckMoney(p: Policy, b: Bound, coverage: int, monthStart: int, active: Counter, activeJournal: bool)
      returns (s: Status)
      ensures TableAgrees(db.counters, db.core) && Reads(active, db.core, p.limit.account, InFlight)
              && (activeJournal || (db.core.receipts == map[] && db.core.expiry == {})) ==>
                s == MoneyStatus(db.core, p, b, coverage, monthStart)
    {
      hide TableAgrees, Reads, Fold, Legible, QuotaUnits, ForeignMoney, MoneyLoad;
      ghost var a, w := p.limit.account, Month(monthStart);
      ghost var sound := TableAgrees(db.counters, db.core) && Reads(active, db.core, a, InFlight)
                         && (activeJournal || (db.core.receipts == map[] && db.core.expiry == {}));
      if p.moneyMonth.None? { return Ok; }
      var maximum := QuotaUnits(p.moneyMonth.value);
      if maximum.None? { return ErrInvalid; }
      var soft := p.moneyBehavior == AlertOnly;
      if maximum.value == 0 && !soft { return ErrQuotaMoney; }
      if !ValidCurrency(p.currency) { return ErrInvalid; }
      if monthStart < coverage && Created(p) < coverage { return ErrQuotaCoverage; }
      if b.money.None? { return ErrQuotaBound; }
      if b.currency != p.currency { return ErrQuotaCurrency; }
      var used := if activeJournal then CounterAt(db.counters, p.limit.account, Month(monthStart)) else ZERO;
      if sound { WindowReads(db, a, w, activeJournal); ReadIsLegible(used, db.core, a, w); }
      if !Legible(used) { return ErrInvalid; }
      if sound {
        ReadTokens(used, db.core, a, w);
        ReadTokens(active, db.core, a, InFlight);
        ForeignIffKey(used, active, db.core, a, w, p.currency);
      }
      if used.moneyUnknown > 0 || active.moneyUnknown > 0 { return ErrQuotaUnknown; }
      var left;
      s, left := MoneyLeft(maximum.value, MoneyTotals(used, active), p.currency);
      if s != Ok { return; }
      if left < Units(b.money.value) && !soft { return ErrQuotaMoney; }
      return Ok;
    }

    /** What is checked before any counter is read. An account seen for the first time is
        recorded when the admission, not a preflight, establishes it. */
    method RecordAccount(p: Policy, instant: int, activeJournal: bool, establish: bool) returns (s: Status)
      modifies this
      ensures activeJournal || old(db.core.births) == map[] ==>
                && s == IdentityStatus(old(db.core.births), p, instant)
                && (s == Ok ==>
                      db == old(db).(core := old(db.core).(births :=
                              if activeJournal && establish then Recorded(old(db.core.births), p) else old(db.core.births))))
    {
      hide ValidKey;
      if !BehaviorsAllowed(p) { return ErrInvalid; }
      if !ValidKey(p.revision) { return ErrInvalid; }
      var created := 0;
      if p.createdAt.Some? {
        created := p.createdAt.value;
        if created <= 0 || created > instant { return ErrInvalid; }
      }
      if activeJournal {
        if p.limit.account in db.core.births {
          if db.core.births[p.limit.account] != created { return ErrQuotaConflict; }
        } else if establish {
          db := db.(core := db.core.(births := db.core.births[p.limit.account := created]));
        }
      }
      return Ok;
    }

    /** Every check of one policy. */
    method CheckQuota(p: Policy, b: Bound, coverage: int, instant: int, monthStart: int, activeJournal: bool, establish: bool)
      returns (s: Status)
      modifies this
      ensures TableAgrees(old(db.counters), old(db.core)) && ValidBound(b)
              && (activeJournal || EmptyHistory(old(db.core))) ==>
                && s == PolicyStatus(old(db.core), p, b, coverage, instant, monthStart)
                && (s == Ok ==>
                      db == old(db).(core := old(db.core).(births :=
                              if activeJournal && establish then Recorded(old(db.core.births), p) else old(db.core.births))))
    {
      hide TableAgrees, Reads, Fold, Legible, TokensStatus, MoneyStatus, ValidKey, TokenWindows, IdentityStatus, Recorded;
      ghost var start, a := db, p.limit.account;
      ghost var sound := TableAgrees(db.counters, db.core) && ValidBound(b) && (activeJournal || EmptyHistory(db.core));
      s := RecordAccount(p, instant, activeJournal, establish);
      if s != Ok { return; }
      if sound {
        BirthsUnreadStatus(start.core, db.core, p, b, coverage, TokenWindows(p, instant, monthStart), monthStart);
      }
      var active := if activeJournal then CounterAt(db.counters, p.limit.account, InFlight) else ZERO;
      if sound {
        assert TableAgrees(db.counters, db.core) by { BirthsUnreadTable(start.core, db.core, db.counters); }
        WindowReads(db, a, InFlight, activeJournal);
        ReadIsLegible(active, db.core, a, InFlight);
      }
      if !Legible(active) { return ErrInvalid; }
      var tws := TokenWindows(p, instant, monthStart);
      ghost var checked := db;
      var i := 0;
      while i < |tws|
        invariant 0 <= i <= |tws|
        invariant db == checked
        invariant sound ==> TokensStatus(db.core, p, b, coverage, tws, 0) == TokensStatus(db.core, p, b, coverage, tws, i)
      {
        TokensUnfold(db.core, p, b, coverage, tws, i);
        s := CheckTokenWindow(p, b, coverage, tws[i], active, activeJournal);
        if s != Ok { return; }
        i := i + 1;
      }
      TokensUnfold(db.core, p, b, coverage, tws, |tws|);
      s := CheckMoney(p, b, coverage, monthStart, active, activeJournal);
      if s != Ok { return; }
      if Constrained(p) {
        var invalid := activeJournal && b.revision in db.core.invalid;
        if b.revision == "" || invalid { return ErrQuotaBound; }
      }
      return Ok;
    }

    /** The common check of preflight and admission: limits first, then the pruned history. */
    method CheckAdmission(id: Id, ps: seq<Policy>, b: Bound, previewZone: string, now: int, establish: bool)
      returns (s: Status, entry: Receipt, accounts: seq<Account>)
      modifies this
      ensures ValidDb(old(db), cfg) && ValidBound(b) ==>
                match CheckQuotaAdmission(old(db.core), cfg, id, ps, b, previewZone, now)
                case QuotaRejected(e) => s == e
                case QuotaAdmitted(h, r) =>
                  && s == Ok && entry == r && accounts == LimitAccounts(PolicyLimits(ps))
                  && db.core == h.(births := BirthsAfter(h, ps, |ps|, establish))
                  && Agrees(db)
      ensures s == Ok ==> DistinctAccounts(accounts)
    {
      hide ValidDb, Agrees, PoliciesStatus, CheckLimits, EventsAgree, Prunable, PruneQuota, LimitAccounts, ValidBound;
      hide QuotaMonth, PruneLimits, MetadataStatus, PolicyLimits, BirthsAfter, DistinctAccounts, EmptyHistory, TableAgrees;
      ghost var start, sound := db, ValidDb(db, cfg) && ValidBound(b);
      var activeJournal := db.core.version == V2;
      entry := Receipt(id, 0, 0, 0, [], b, Active, NO_SETTLEMENT, NO_SETTLEMENT, None, false);
      accounts := [];
      if activeJournal {
        s := MetadataStatus(db.core, cfg);
        if s != Ok { return; }
        if previewZone != "" && db.core.zone != previewZone { return ErrQuotaConflict, entry, []; }
      } else if previewZone == "" {
        return ErrQuotaInactive, entry, [];
      }
      if id in db.core.receipts { return ErrQuotaConflict, entry, []; }
      var instant;
      s, instant, accounts := CheckLimitAdmission(id, PolicyLimits(ps), now);
      if s != Ok { return; }
      if sound { LimitsAdmitted(start, db, cfg, id, ps, now, instant); }
      ghost var limited := db;
      if activeJournal {
        s := PruneHistory(instant);
        if s != Ok { return; }
      }
      if sound { HistoryPruned(start, limited, db, cfg, instant); }
      if activeJournal && db.entryCount >= cfg.quotaCapacity { return ErrFull, entry, []; }
      var zone := if activeJournal then db.core.zone else previewZone;
      var coverage := if activeJournal then db.core.coverage else instant;
      var month := QuotaMonth(cfg, zone, instant);
      if month.None? { return ErrInvalid, entry, []; }
      if instant > MAX_INT64 - SEVEN_DAYS { return ErrInvalid, entry, []; }
      entry := entry.(admittedAt := instant, monthStart := month.value.0, monthEnd := month.value.1);
      s, entry := CheckPolicies(ps, b, coverage, entry, activeJournal, establish);
    }

    /** The policies one after another, each against the same pruned history. */
    method CheckPolicies(ps: seq<Policy>, b: Bound, coverage: int, e: Receipt, activeJournal: bool, establish: bool)
      returns (s: Status, entry: Receipt)
      requires e.accounts == []
      modifies this
      ensures Agrees(old(db)) && ValidBound(b) && (activeJournal <==> old(db.core.version) == V2)
              && (activeJournal || EmptyHistory(old(db.core)))
              && DistinctAccounts(LimitAccounts(PolicyLimits(ps))) ==>
                && s == PoliciesStatus(old(db.core), ps, b, coverage, e.admittedAt, e.monthStart, 0)
                && (s == Ok ==>
                      && entry == e.(accounts := PolicyAccounts(ps))
                      && db == old(db).(core := old(db.core).(births := BirthsAfter(old(db.core), ps, |ps|, establish)))
                      && Agrees(db))
    {
      hide Agrees, PoliciesStatus, PolicyStatus, Establish, LimitAccounts, PolicyAccounts, ValidBound, DistinctAccounts;
      hide PolicyLimits, TableAgrees;
      ghost var start := db;
      ghost var sound := Agrees(db) && ValidBound(b) && (activeJournal <==> db.core.version == V2)
                         && (activeJournal || EmptyHistory(db.core)) && DistinctAccounts(LimitAccounts(PolicyLimits(ps)));
      entry := e;
      var i := 0;
      BirthsStart(db.core, ps, establish);
      while i < |ps|
        invariant 0 <= i <= |ps|
        invariant |PolicyAccounts(ps)| == |ps| && entry == e.(accounts := PolicyAccounts(ps)[..i])
        invariant sound ==> db == start.(core := start.core.(births := BirthsAfter(start.core, ps, i, establish)))
        invariant sound ==> (PoliciesStatus(start.core, ps, b, coverage, e.admittedAt, e.monthStart, 0)
                             == PoliciesStatus(start.core, ps, b, coverage, e.admittedAt, e.monthStart, i))
      {
        PoliciesUnfold(start.core, ps, b, coverage, e.admittedAt, e.monthStart, i);
        if sound {
          BirthsStep(start, db, ps, i, establish, b, coverage, e.admittedAt, e.monthStart);
        }
        s := CheckQuota(ps[i], b, coverage, e.admittedAt, e.monthStart, activeJournal, establish);
        if s != Ok { return; }
        AccountsStep(ps, i);
        entry := entry.(accounts := entry.accounts + [QuotaAccount(ps[i].limit.account, ps[i].revision)]);
        i := i + 1;
      }
      PoliciesUnfold(start.core, ps, b, coverage, e.admittedAt, e.monthStart, |ps|);
      assert PolicyAccounts(ps)[..|ps|] == PolicyAccounts(ps);
      if sound { BirthsAgree(start, db); }
      return Ok, entry;
    }

    // ---------- quota history ----------

    /** Walks the expiry index in order: ended charges leave their counters, and receipts leave
        once every window ended and their fact was acknowledged. */
    method PruneHistory(instant: int) returns (s: Status)
      modifies this
      ensures Prunable(old(db)) ==>
                && s == Ok
                && db == old(db).(core := PruneQuota(old(db.core), instant), counters := db.counters, entryCount := db.entryCount)
                && TableAgrees(db.counters, db.core) && db.entryCount == |db.core.receipts|
    {
      hide Pruning, KeysSound, CursorAt, Readable, WellFormed, TableAgrees, ApplyQuotaCounter, PruneQuota;
      ghost var start, sound := db, Prunable(db);
      var todo := db.core.expiry;
      PruningStarts(db.core, instant);
      while todo != {}
        invariant sound ==> PruneState(start, db, instant, todo)
        decreases |todo|
      {
        SomeFirstKey(todo);
        var k :| k in todo && FirstKey(todo, k);
        if k.at > instant { break; }
        if sound { CursorMoves(start.core, instant, todo, k); PruningFrame(start.core, instant, todo); }
        if k.Charge? {
          if sound { ChargeTaken(start.core, instant, todo, k, db.counters); ChargeLeaves(start.core, instant, todo, k); }
          s := ReadReceipt(db.core, k.id);
          if s != Ok { return; }
          var table := ApplyQuotaCounter(db.counters, k.account, k.window, db.core.receipts[k.id], -1);
          if table.None? { return ErrInvalid; }
          db := db.(counters := table.value, core := db.core.(expiry := db.core.expiry - {k}));
        } else if k.id in db.core.ready || k.id in db.core.pending {
          if sound { RetireKept(start.core, instant, todo, k); }
        } else {
          if sound { RetireTaken(start.core, instant, todo, k, db.counters); }
          if k.id !in db.core.receipts || db.entryCount == 0 { return ErrInvalid; }
          db := db.(entryCount := db.entryCount - 1,
                    core := db.core.(receipts := db.core.receipts - {k.id}, expiry := db.core.expiry - {k}));
        }
        todo := todo - {k};
      }
      if sound { PruningEnds(start.core, instant, todo); }
      return Ok;
    }

    /** Charges a settled receipt to every window that is still open and files its expiry keys.
        It fails exactly when some counter has no room. */
    method ProjectTerminal(q: Receipt, instant: int) returns (s: Status)
      modifies this
      ensures TableOk(old(db.counters)) && WellFormed(q) ==>
                && (s == Ok <==> forall p :: Projection.Open(q, instant, p) ==> Projection.HasRoom(old(db.counters), p, q))
                && (s == Ok || s == ErrInvalid)
                && (s == Ok ==>
                      && db == old(db).(counters := db.counters,
                                        core := old(db.core).(expiry := old(db.core).expiry + ChargeKeys(q, instant)
                                                                        + {Retire(Latest(q), q.id)}))
                      && Projection.Added(old(db.counters), db.counters, q, Projection.Slots(q, instant)))
    {
      hide WellFormed, TableOk, ProjectState, LatestState, Projection.Open, Projection.HasRoom, Projection.Added;
      hide Projection.SlotsIn, Projection.Slots, ChargeKeys, Windows, WindowEnd, Latest;
      ghost var start, sound := db, TableOk(db.counters) && WellFormed(q);
      var latest := q.monthEnd;
      var todo := Windows(q);
      ghost var visited: set<Window> := {};
      if sound { ProjectStarts(db, q, instant); }
      while todo != {}
        invariant visited !! todo && visited + todo == Windows(q)
        invariant sound ==> ProjectState(start, db, q, Projection.SlotsIn(q, instant, visited)) && LatestState(q, visited, latest)
        decreases |todo|
      {
        var w :| w in todo;
        if sound { Projection.WindowEndsLater(q, w); LatestMoves(q, visited, latest, w); }
        var end := WindowEnd(q, w);
        if end < q.admittedAt { return ErrInvalid; }
        if end > latest { latest := end; }
        if end > instant {
          s := ProjectWindow(q, w, instant, start, visited, sound);
          if s != Ok { return; }
        } else {
          WindowSkipped(q, instant, visited, w);
        }
        visited := visited + {w};
        todo := todo - {w};
      }
      if sound {
        assert visited == Windows(q);
        ProjectEnds(start, db, q, instant, latest);
      }
      db := db.(core := db.core.(expiry := db.core.expiry + {Retire(latest, q.id)}));
      return Ok;
    }

    /** The inner loop of a projection: one window, all accounts. */
    method ProjectWindow(q: Receipt, w: Window, instant: int, ghost before: Db, ghost visited: set<Window>, ghost sound: bool)
      returns (s: Status)
      requires w in Windows(q) && w !in visited && WindowEnd(q, w) > instant
      requires sound ==>
                 TableOk(before.counters) && WellFormed(q)
                 && ProjectState(before, db, q, Projection.SlotsIn(q, instant, visited))
      modifies this
      ensures sound && s == Ok ==> ProjectState(before, db, q, Projection.SlotsIn(q, instant, visited + {w}))
      ensures s == Ok || s == ErrInvalid
      ensures sound && s != Ok ==>
                !forall p :: Projection.Open(q, instant, p) ==> Projection.HasRoom(before.counters, p, q)
    {
      hide WellFormed, TableOk, Projection.Added, Projection.HasRoom, Projection.Open, ApplyQuotaCounter, Windows, WindowEnd;
      hide Projection.SlotsIn, Projection.Keys, Projection.AllRoom, Projection.Row, ProjectState;
      ghost var done := Projection.SlotsIn(q, instant, visited);
      var i := 0;
      Projection.RowStarts(q, w);
      assert done + {} == done;
      while i < |q.accounts|
        invariant 0 <= i <= |q.accounts|
        invariant sound ==> ProjectState(before, db, q, done + Projection.Row(q, w, i))
      {
        var a := q.accounts[i].account;
        if sound { SlotVisited(before, db, q, instant, visited, w, i); }
        var next := ApplyQuotaCounter(db.counters, a, w, q, 1);
        if next.None? { return ErrInvalid; }
        db := db.(counters := next.value, core := db.core.(expiry := db.core.expiry + {Charge(WindowEnd(q, w), a, w, q.id)}));
        i := i + 1;
      }
      Projection.WindowVisited(q, instant, visited, w);
      return Ok;
    }

    // ---------- in-flight amounts ----------

    /** Holds a new reservation's bound for every account it names, or fails if one has no room. */
    method HoldInFlight(r: Receipt) returns (s: Status)
      modifies this
      ensures TableAgrees(old(db.counters), old(db.core)) && WellFormed(r) ==>
                && (s == Ok <==> InFlightFits(old(db.core), r))
                && (s != Ok ==> s == ErrInvalid)
                && (s == Ok ==>
                      && db == old(db).(counters := db.counters)
                      && Projection.Added(old(db.counters), db.counters, r, Projection.Row(r, InFlight, |r.accounts|)))
    {
      hide WellFormed, TableAgrees, TableOk, Projection.Added, Projection.HasRoom, ApplyQuotaCounter, InFlightFits;
      hide Projection.Row, ValidAccounts, ValidAmounts, Fits, Fold;
      ghost var start, sound := db, TableAgrees(db.counters, db.core) && WellFormed(r);
      if sound { HoldStarts(start, r); }
      var i := 0;
      while i < |r.accounts|
        invariant 0 <= i <= |r.accounts|
        invariant db == start.(counters := db.counters)
        invariant sound ==> HoldState(start, db, r, i)
      {
        if sound { HoldOne(start, db, r, i); }
        var next := ApplyQuotaCounter(db.counters, r.accounts[i].account, InFlight, r, 1);
        if next.None? { return ErrInvalid; }
        db := db.(counters := next.value);
        i := i + 1;
      }
      if sound { HoldEnds(start, db, r); }
      return Ok;
    }

    /** Takes a settled reservation's bound back out of its accounts' in-flight counters. */
    method ReleaseInFlight(r: Receipt) returns (s: Status)
      modifies this
      ensures TableAgrees(old(db.counters), old(db.core)) && WellFormed(r) && Readable(old(db.core))
              && !Terminal(r) && r.id in old(db.core.receipts) && old(db.core.receipts)[r.id] == r ==>
                && s == Ok
                && db == old(db).(counters := db.counters)
                && Projection.Taken(old(db.counters), db.counters, r, Projection.Row(r, InFlight, |r.accounts|))
    {
      hide WellFormed, TableAgrees, TableOk, Projection.Taken, ApplyQuotaCounter, Projection.Row, ValidAccounts, Readable;
      ghost var start := db;
      ghost var sound := TableAgrees(db.counters, db.core) && WellFormed(r) && Readable(db.core)
                         && !Terminal(r) && r.id in db.core.receipts && db.core.receipts[r.id] == r;
      if sound { TakeStarts(start, r); }
      var i := 0;
      while i < |r.accounts|
        invariant 0 <= i <= |r.accounts|
        invariant db == start.(counters := db.counters)
        invariant sound ==> Projection.Taken(start.counters, db.counters, r, Projection.Row(r, InFlight, i))
      {
        if sound { TakeOne(start, db, r, i); }
        var next := ApplyQuotaCounter(db.counters, r.accounts[i].account, InFlight, r, -1);
        if next.None? { return ErrInvalid; }
        db := db.(counters := next.value);
        i := i + 1;
      }
      return Ok;
    }

    // ---------- startup ----------

    /** Drops the leases and rebuilds the counts of the last minute from its events. */
    method InitLimits() returns (s: Status)
      modifies this
      ensures EventsOk(old(db.core.events), old(db.core.clock)) ==>
                && s == Ok
                && db == old(db).(core := old(db.core).(leases := map[]), rpm := db.rpm, active := map[],
                                  eventCount := |old(db.core.events)|)
                && RpmAgrees(db.rpm, db.core.events) && ActiveAgrees(db.active, db.core.leases)
    {
      ghost var sound := EventsOk(db.core.events, db.core.clock);
      db := db.(core := db.core.(leases := map[]), rpm := map[], active := map[]);
      ghost var start := db;
      NothingCounted();
      var todo := db.core.events;
      assert db.core.events - todo == {};
      var total := 0;
      while todo != {}
        invariant todo <= start.core.events && total == |start.core.events| - |todo|
        invariant db == start.(rpm := db.rpm)
        invariant sound ==> RpmAgrees(db.rpm, start.core.events - todo)
        decreases |todo|
      {
        var e :| e in todo;
        if !ValidKey(e.account) { return ErrInvalid; }
        total := total + 1;
        var count := ChangeCount(db.rpm, e.account, 1);
        if sound { EventAdded(db.rpm, count, start.core.events, todo, e); }
        if count.None? { return ErrInvalid; }
        db := db.(rpm := count.value);
        todo := todo - {e};
      }
      assert start.core.events - {} == start.core.events;
      if total > LIMIT_HISTORY_CAPACITY { return ErrInvalid; }
      db := db.(eventCount := total);
      return Ok;
    }

    /** Every account of a stored receipt has a recorded creation time. */
    method Established(entry: Receipt) returns (known: bool)
      ensures known <==> Names(entry) <= db.core.births.Keys
    {
      var i := 0;
      while i < |entry.accounts|
        invariant 0 <= i <= |entry.accounts|
        invariant forall j :: 0 <= j < i ==> entry.accounts[j].account in db.core.births
      {
        if entry.accounts[i].account !in db.core.births {
          assert entry.accounts[i].account in Names(entry);
          return false;
        }
        i := i + 1;
      }
      return true;
    }

    /** Checks one stored receipt against the clock, the calendar and the queued facts,
        interrupts it when a crash left it running, and projects it. */
    method RecoverEntry(id: Id, interrupted: map<Id, Receipt>, count: nat, ghost before: Db, ghost done: set<Id>)
      returns (s: Status, next: map<Id, Receipt>)
      modifies this
      ensures Inv(before.core, cfg) && before.core.version == V2 && done < done + {id} <= before.core.receipts.Keys
              && Rebuilt(before, old(db), done, interrupted, count) ==>
                && (s == Ok ==> Rebuilt(before, db, done + {id}, next, count + 1))
                && (s != Ok ==> s == ErrInvalid && !FoldsFit(Rebuild(before.core)))
    {
      hide Inv, WellFormed, Partial, TableAgrees, InterruptedIn, QuotaMonth, FoldsFit, Rebuild, Projection.Open, Projection.HasRoom, Projection.Added;
      hide Projection.Slots, TableOk, ChargeKeys, Latest, Names, InterruptAll;
      ghost var sound := Inv(before.core, cfg) && before.core.version == V2 && done < done + {id} <= before.core.receipts.Keys
                         && Rebuilt(before, db, done, interrupted, count);
      next := interrupted;
      if sound { NextReceipt(before.core, done, id); RecoveredEntry(before, db, cfg, done, interrupted, count, id); }
      s := ReadReceipt(db.core, id);
      if s != Ok { return; }
      var entry := db.core.receipts[id];
      var month := QuotaMonth(cfg, db.core.zone, entry.admittedAt);
      if month.None? || entry.admittedAt < db.core.coverage || entry.admittedAt > db.core.clock
         || entry.monthStart != month.value.0 || entry.monthEnd != month.value.1 {
        return ErrInvalid, next;
      }
      var known := Established(entry);
      if !known { return ErrInvalid, next; }
      if entry.state == Active {
        if id !in db.core.pending || |db.core.pending[id]| == 0 || id in db.core.ready { return ErrInvalid, next; }
        entry := entry.(state := Interrupted, actual := entry.recovery, recovery := NO_SETTLEMENT,
                        digest := Some(Digest(entry.recovery, db.core.pending[id])));
        next := interrupted[id := entry];
      } else {
        if id in db.core.pending { return ErrInvalid, next; }
        if id in db.core.ready && entry.digest != Some(Digest(entry.actual, db.core.ready[id])) { return ErrInvalid, next; }
      }
      if count + 1 > cfg.quotaCapacity { return ErrInvalid, next; }
      ghost var checked := db;
      if sound { InterruptedStep(before.core, done, id); }
      s := ProjectTerminal(entry, db.core.clock);
      if sound { EntryProjected(before, checked, db, cfg, done, interrupted, count, id, s); }
    }

    /** Projects every receipt, in any order, and stores the interrupted ones. */
    method ProjectReceipts(ghost before: Db) returns (s: Status)
      modifies this
      ensures Inv(before.core, cfg) && before.core.version == V2 && before.core.leases == map[]
              && old(db) == before.(core := before.core.(expiry := {}), counters := map[]) ==>
                && (s == Ok <==> FoldsFit(Rebuild(before.core)))
                && (s == Ok || s == ErrInvalid)
                && (s == Ok ==>
                      && db == before.(core := Rebuild(before.core), counters := db.counters, entryCount := db.entryCount)
                      && Prunable(db))
    {
      hide Inv, Rebuilt, TableAgrees, KeysSound, Readable, FoldsFit, Rebuild;
      ghost var sound := Inv(before.core, cfg) && before.core.version == V2 && before.core.leases == map[]
                         && db == before.(core := before.core.(expiry := {}), counters := map[]);
      if sound { RebuildStarts(before, db, cfg); }
      var interrupted: map<Id, Receipt> := map[];
      var count := 0;
      var todo := db.core.receipts.Keys;
      ghost var done: set<Id> := {};
      while todo != {}
        invariant sound ==> todo !! done && todo + done == before.core.receipts.Keys
        invariant sound ==> Rebuilt(before, db, done, interrupted, count)
        decreases |todo|
      {
        var id :| id in todo;
        if sound { assert done < done + {id} <= before.core.receipts.Keys; }
        s, interrupted := RecoverEntry(id, interrupted, count, before, done);
        if s != Ok { return; }
        count := count + 1;
        todo := todo - {id};
        done := done + {id};
      }
      ghost var projected := db;
      db := db.(core := db.core.(receipts := db.core.receipts + interrupted), entryCount := count);
      if sound { RebuildEnds(before, projected, db, cfg, interrupted, count); }
      return Ok;
    }

    /** Counters and expiry index rebuilt from the receipts, which a crash may have left running. */
    method RecoverQuota() returns (s: Status)
      modifies this
      ensures Recoverable(old(db), cfg) && old(db.core.leases) == map[] ==>
                if old(db.core.version) == V1 then s == Ok && db == old(db)
                else
                  && (s == Ok <==> FoldsFit(Rebuild(old(db.core))))
                  && (s == Ok || s == ErrInvalid)
                  && (s == Ok ==>
                        && db == old(db).(core := PruneQuota(Rebuild(old(db.core)), old(db.core.clock)),
                                          counters := db.counters, entryCount := db.entryCount)
                        && TableAgrees(db.counters, db.core) && db.entryCount == |db.core.receipts|)
    {
      hide Inv, Rebuilt, MetadataStatus, TableAgrees, KeysSound, Readable, Names, PruneQuota, FoldsFit, Rebuild, InterruptAll;
      ghost var before, sound := db, Recoverable(db, cfg) && db.core.leases == map[];
      if sound { RecoverableMode(db, cfg); }
      if db.core.version == V1 {
        if db.core.receipts != map[] || db.core.expiry != {} || db.core.births != map[] || db.core.invalid != map[]
           || db.counters != map[] || db.entryCount != 0 {
          return ErrInvalid;
        }
        return Ok;
      }
      s := MetadataStatus(db.core, cfg);
      if s != Ok { return; }
      var instant := db.core.clock;
      if instant < db.core.coverage { return ErrInvalid; }
      db := db.(core := db.core.(expiry := {}), counters := map[]);
      if exists a :: a in db.core.births && (!ValidKey(a) || db.core.births[a] < 0 || db.core.births[a] > db.core.clock) {
        return ErrInvalid;
      }
      if exists v :: v in db.core.invalid && (!ValidKey(v) || !ValidKey(db.core.invalid[v])) { return ErrInvalid; }
      s := ProjectReceipts(before);
      if s != Ok { return; }
      s := PruneHistory(instant);
    }

    /** Makes every pending fallback deliverable. */
    method Replay() returns (s: Status)
      modifies this
      ensures FactsOk(cfg, old(db.core.pending), old(db.core.ready)) ==>
                s == Ok && db == old(db).(core := ReplayPending(old(db.core)))
    {
      hide FactsOk, Restricted, ValidKey;
      ghost var start, sound := db, FactsOk(cfg, db.core.pending, db.core.ready);
      var pending, ready := db.core.pending, db.core.ready;
      var todo := pending.Keys;
      NothingReplayed(pending, ready);
      while todo != {}
        invariant db == start && todo <= pending.Keys
        invariant sound ==> ready == Restricted(pending, pending.Keys - todo) + start.core.ready
        decreases |todo|
      {
        var id :| id in todo;
        if sound { FallbackReplayed(pending, start.core.ready, todo, id, cfg); }
        if !ValidKey(id) || |pending[id]| > cfg.maxPayload { return ErrInvalid; }
        if id !in ready { ready := ready[id := pending[id]]; }
        todo := todo - {id};
      }
      AllReplayed(pending, todo);
      db := db.(core := db.core.(ready := ready, pending := map[]));
      return Ok;
    }

    /** Opens the journal after a crash or a clean stop. The indexes it finds do not matter. */
    method Open() returns (s: Status)
      modifies this
      ensures s != Ok ==> db == old(db)
      ensures Recoverable(old(db), cfg) ==> Outcome(s, db.core) == Ledger.Open(old(db.core)) && (s == Ok ==> Valid())
      ensures Refines(old(db), db, cfg, OpOpen, s)
    {
      hide Inv, PruneQuota, Rebuild, FoldsFit, TableAgrees, RpmAgrees, ActiveAgrees, ReplayPending, EventsOk, FactsOk;
      var saved := db;
      ghost var sound := Recoverable(db, cfg);
      if sound { OpenStarts(db, cfg); }
      s := InitLimits();
      ghost var limited := db;
      if s == Ok {
        if sound { LimitsDropped(saved, db, cfg); }
        s := RecoverQuota();
      }
      ghost var recovered := db;
      if s == Ok {
        if sound { QuotaRecovered(saved, limited, db, cfg); }
        s := Replay();
      }
      if s != Ok { db := saved; }
      if sound { OpenEnds(saved, limited, recovered, db, cfg, s); }
      if ValidDb(saved, cfg) { ValidRecoverable(saved, cfg); }
    }

    // ---------- transactions ----------

    constructor (cfg: Config)
      ensures Valid() && this.cfg == cfg && db == EMPTY_DB
    {
      this.cfg := cfg;
      db := EMPTY_DB;
      new;
      EmptyKeeps(cfg);
      EmptyAgrees();
    }

    /** Stores a fallback fact before a caller dispatches anything. */
    method Reserve(id: Id, payload: Payload) returns (s: Status)
      modifies this
      ensures Refines(old(db), db, cfg, OpReserve(id, payload), s)
    {
      hide Inv, Agrees, ValidEntry;
      ghost var start := db;
      if ValidDb(db, cfg) { ReserveKeeps(db.core, cfg, id, payload); }
      if !ValidEntry(cfg, id, payload) { return ErrInvalid; }
      if id in db.core.receipts { return ErrQuotaConflict; }
      if id in db.core.pending || id in db.core.ready { return ErrInvalid; }
      if |db.core.pending| + |db.core.ready| >= cfg.capacity { return ErrFull; }
      db := db.(core := db.core.(pending := db.core.pending[id := payload]));
      AgreesFrame(start, db);
      return Ok;
    }

    /** Replaces the fallback of a pending fact. */
    method UpdatePending(id: Id, payload: Payload) returns (s: Status)
      modifies this
      ensures Refines(old(db), db, cfg, OpUpdatePending(id, payload), s)
    {
      hide Inv, Agrees, ValidEntry;
      ghost var start := db;
      if ValidDb(db, cfg) { UpdatePendingKeeps(db.core, cfg, id, payload); }
      if !ValidEntry(cfg, id, payload) { return ErrInvalid; }
      if id in db.core.ready || id !in db.core.pending { return ErrMissing; }
      db := db.(core := db.core.(pending := db.core.pending[id := payload]));
      AgreesFrame(start, db);
      return Ok;
    }

    /** Moves a pending fact to ready and releases its leases; a ready fact stays as it is. */
    method CompleteFact(id: Id, payload: Payload) returns (s: Status)
      modifies this
      ensures ActiveAgrees(old(db.active), old(db.core.leases)) && LeasesOk(old(db.core.pending), old(db.core.leases)) ==>
                && (s == Ok || db == old(db))
                && Outcome(s, db.core) == Deliver(old(db.core), id, payload)
                && db == old(db).(core := db.core, active := db.active)
                && ActiveAgrees(db.active, db.core.leases)
    {
      hide ActiveAgrees, DistinctAccounts;
      if id in db.core.ready { return Ok; }
      if id !in db.core.pending { return ErrMissing; }
      db := db.(core := db.core.(ready := db.core.ready[id := payload]));
      s := ReleaseLimits(id);
      if s != Ok { return; }
      db := db.(core := db.core.(pending := db.core.pending - {id}));
      return Ok;
    }

    /** The final fact of a request without a quota receipt. */
    method Complete(id: Id, payload: Payload) returns (s: Status)
      modifies this
      ensures Refines(old(db), db, cfg, OpComplete(id, payload), s)
    {
      hide Inv, Agrees, ValidEntry;
      ghost var start, sound := db, ValidDb(db, cfg);
      if sound { CompletePlainKeeps(db.core, cfg, id, payload); ValidLeases(db, cfg); }
      if !ValidEntry(cfg, id, payload) { return ErrInvalid; }
      if id in db.core.receipts { return ErrQuotaRequired; }
      var saved := db;
      s := CompleteFact(id, payload);
      if s != Ok { db := saved; }
      if sound && s == Ok { AgreesDelivered(start, db); }
    }

    /** Removes a delivered fact. */
    method Ack(id: Id) returns (s: Status)
      modifies this
      ensures Refines(old(db), db, cfg, OpAck(id), s)
    {
      hide Inv, Agrees, ValidKey;
      ghost var start := db;
      if ValidDb(db, cfg) { AckKeeps(db.core, cfg, id); }
      if !ValidKey(id) { return ErrInvalid; }
      db := db.(core := db.core.(ready := db.core.ready - {id}));
      AgreesFrame(start, db);
      return Ok;
    }

    /** A version 1 admission: RPM, leases and fallback in one transaction. */
    method ReserveWithLimits(id: Id, payload: Payload, limits: seq<Limit>, now: Int64) returns (s: Status)
      modifies this
      ensures RefinesAdmission(old(db), db, cfg, OpReserveWithLimits(id, payload, limits, now), s)
    {
      hide ValidDb, ValidEntry, ApplyAdmission, FreshKeys, CheckLimits, LimitAccounts, EventsAgree, Positive;
      ghost var sound, op := ValidDb(db, cfg), OpReserveWithLimits(id, payload, limits, now);
      var saved := db;
      if sound { LimitStepsKeepDb(db, cfg, op); }
      if !ValidEntry(cfg, id, payload) || |limits| > MAX_ACCOUNTS { return ErrInvalid; }
      if db.core.version == V2 { return ErrQuotaRequired; }
      var instant, accounts;
      s, instant, accounts := CheckLimitAdmission(id, limits, now);
      ghost var checked := db;
      if s == Ok {
        if sound { CheckedPositive(saved, db, cfg); }
        s := ApplyLimitAdmission(id, payload, instant, accounts);
      }
      if s != Ok { db := saved; }
      if sound && s == Ok { LimitAdmissionAgrees(saved, checked, db, cfg, op, instant); }
    }

    /** AccountUsage: the current rate and concurrency of an account. */
    method ObserveLimits(account: Account, now: Int64) returns (s: Status, rpm: int, active: int)
      modifies this
      ensures Refines(old(db), db, cfg, OpObserveLimits(now), s)
      ensures ValidDb(old(db), cfg) && s == Ok ==>
                rpm == |EventsOf(db.core.events, account)| && active == |LeasesOf(db.core.leases, account)|
    {
      hide ValidDb, EventsAgree, LiveEvents;
      ghost var sound := ValidDb(db, cfg);
      rpm, active := 0, 0;
      var saved := db;
      if sound { LimitStepsKeepDb(db, cfg, OpObserveLimits(now)); ValidEvents(db, cfg); }
      var instant;
      s, instant := LogicalLimitTime(now);
      if s == Ok {
        if sound { ClockUncounted(saved, db); }
        s := PruneEvents(instant);
      }
      if s != Ok { db := saved; return; }
      if sound { ObservedAgrees(saved, db, cfg); CountsRead(db, account); }
      rpm, active := CountValue(db.rpm, account), CountValue(db.active, account);
    }

    /** Switches the journal to quota accounting, once, and records the zone and the coverage start. */
    method EnableQuota(zone: string, now: Int64) returns (s: Status)
      requires 0 <= cfg.quotaCapacity
      modifies this
      ensures Refines(old(db), db, cfg, OpEnableQuota(zone, now), s)
    {
      hide ValidDb, MetadataStatus;
      ghost var sound := ValidDb(db, cfg);
      var saved := db;
      if sound { EnableKeepsDb(db, cfg, zone, now); }
      if zone == "" || !cfg.loads(zone) { return ErrInvalid; }
      if db.core.version == V2 {
        s := MetadataStatus(db.core, cfg);
        if s != Ok { return; }
        if db.core.zone != zone { return ErrQuotaConflict; }
        return Ok;
      }
      var instant;
      s, instant := LogicalLimitTime(now);
      if s != Ok { return; }
      db := db.(core := db.core.(receipts := map[], expiry := {}, births := map[], invalid := map[]),
                entryCount := 0, counters := map[]);
      db := db.(core := db.core.(zone := zone, coverage := instant));
      db := db.(core := db.core.(version := V2));
      if sound { EnabledAgrees(saved, db, cfg); }
    }

    /** Whether an admission would be refused, without consuming anything. */
    method PreflightWithQuota(id: Id, ps: seq<Policy>, b: Bound, zone: string, now: Int64) returns (s: Status)
      modifies this
      ensures Refines(old(db), db, cfg, OpPreflight(id, ps, b, zone, now), s)
    {
      hide ValidDb, CheckQuotaAdmission, ValidBound, ValidKey, Agrees;
      ghost var sound := ValidDb(db, cfg);
      var saved := db;
      if sound { PreflightKeepsDb(db, cfg, OpPreflight(id, ps, b, zone, now)); }
      if !ValidKey(id) || |ps| == 0 || |ps| > MAX_ACCOUNTS || zone == "" { return ErrInvalid; }
      if !cfg.loads(zone) { return ErrInvalid; }
      if !ValidBound(b) { return ErrInvalid; }
      var entry, accounts;
      s, entry, accounts := CheckAdmission(id, ps, b, zone, now, false);
      if s != Ok { db := saved; }
      if sound && s == Ok { StillValid(db, cfg); }
    }

    /** Commits the checks, the RPM events, the leases, the holds, the fallback and the crash
        settlement together, or nothing at all. */
    method ReserveWithQuota(id: Id, payload: Payload, ps: seq<Policy>, b: Bound, recovery: Settlement, now: Int64)
      returns (s: Status)
      modifies this
      ensures RefinesAdmission(old(db), db, cfg, OpReserveWithQuota(id, payload, ps, b, recovery, now), s)
    {
      hide ValidDb, CheckQuotaAdmission, ValidBound, ValidEntry, ValidSettlement, RecoveryStatus, Agrees, WellFormed;
      hide ApplyAdmission, FreshKeys, LimitAccounts, InFlightFits, Establish, TableAgrees, Positive, Projection.Added;
      ghost var sound, op := ValidDb(db, cfg), OpReserveWithQuota(id, payload, ps, b, recovery, now);
      var saved := db;
      if sound { ReserveKeepsDb(db, cfg, op); }
      if !ValidEntry(cfg, id, payload) || |ps| == 0 || |ps| > MAX_ACCOUNTS { return ErrInvalid; }
      if !ValidBound(b) { return ErrInvalid; }
      if !ValidSettlement(recovery) { return ErrInvalid; }
      s := RecoveryStatus(b, recovery);
      if s != Ok { return; }
      var entry, accounts;
      s, entry, accounts := CheckAdmission(id, ps, b, "", now, true);
      ghost var checked := db;
      if s == Ok {
        if sound { AdmissionChecked(saved, db, cfg, op, entry); }
        s := ApplyLimitAdmission(id, payload, entry.admittedAt, accounts);
      }
      if s == Ok {
        if sound {
          AdmissionApplied(CheckQuotaAdmission(saved.core, cfg, id, ps, b, "", now).core, checked, db,
                           entry.admittedAt, id, payload, accounts);
        }
        s := HoldInFlight(entry);
      }
      if s == Ok {
        ghost var held := db;
        db := db.(core := db.core.(receipts := db.core.receipts[id := entry.(recovery := recovery)]),
                  entryCount := db.entryCount + 1);
        if sound { AdmissionStored(saved, checked, held, db, cfg, op, entry); }
      } else {
        db := saved;
      }
    }

    /** Replaces fallback and crash settlement of a running admission. */
    method UpdatePendingQuota(id: Id, payload: Payload, recovery: Settlement) returns (s: Status)
      modifies this
      ensures Refines(old(db), db, cfg, OpUpdatePendingQuota(id, payload, recovery), s)
    {
      hide ValidDb, ValidEntry, ValidSettlement, RecoveryStatus, WellFormed;
      ghost var start, sound := db, ValidDb(db, cfg);
      if sound { UpdateKeepsDb(db, cfg, id, payload, recovery); }
      if !ValidEntry(cfg, id, payload) { return ErrInvalid; }
      if !ValidSettlement(recovery) { return ErrInvalid; }
      if id in db.core.ready || id !in db.core.pending { return ErrMissing; }
      s := ReadReceipt(db.core, id);
      if s != Ok { return; }
      var entry := db.core.receipts[id];
      if entry.state != Active { return ErrQuotaConflict; }
      s := RecoveryStatus(entry.bound, recovery);
      if s != Ok { return; }
      entry := entry.(recovery := recovery);
      db := db.(core := db.core.(receipts := db.core.receipts[id := entry]));
      db := db.(core := db.core.(pending := db.core.pending[id := payload]));
      if sound { UpdatedAgrees(start, db, cfg, id); }
    }

    /** Settles a request, once: its bound leaves the in-flight counters, what it used or still
        holds enters every open window, and its final fact becomes deliverable. */
    method CompleteQuota(id: Id, payload: Payload, actual: Settlement, now: Int64) returns (s: Status)
      modifies this
      ensures Refines(old(db), db, cfg, OpCompleteQuota(id, payload, actual, now), s)
    {
      hide ValidDb, ValidEntry, ValidSettlement, WellFormed, MetadataStatus, ProjectionFits, Deliver, Project, Settle;
      hide TableAgrees, TableOk, ChargeKeys, ActiveAgrees, LeasesOk, Latest, Agrees, Inv, SettleSound;
      hide Delivered, Overran;
      ghost var start, sound := db, ValidDb(db, cfg);
      var saved := db;
      if sound { CompleteKeepsDb(db, cfg, id, payload, actual, now); }
      if !ValidEntry(cfg, id, payload) { return ErrInvalid; }
      if !ValidSettlement(actual) { return ErrInvalid; }
      s := MetadataStatus(db.core, cfg);
      if s != Ok { return; }
      s := ReadReceipt(db.core, id);
      if s != Ok { return; }
      var entry := db.core.receipts[id];
      if entry.state != Active {
        if entry.digest != Some(Digest(actual, payload)) { return ErrQuotaConflict; }
        return Ok;
      }
      if actual.money.Some? && entry.bound.money.Some? && actual.currency != entry.bound.currency {
        return ErrQuotaCurrency;
      }
      var instant;
      s, instant := LogicalLimitTime(now);
      if s != Ok { return; }
      s := SettleEntry(entry, payload, actual, instant);
      if s != Ok { db := saved; }
      if sound {
        CompletionOutcome(start, db, cfg, id, payload, actual, now, s);
        StillValid(db, cfg);
      }
    }

    /** The writing half of a settlement. */
    method SettleEntry(entry: Receipt, payload: Payload, actual: Settlement, instant: int) returns (s: Status)
      modifies this
      ensures SettleSound(old(db), cfg, entry, payload, actual, instant) ==>
                var q := Settle(entry, actual, payload, State.Complete);
                && (s == Ok <==> ProjectionFits(old(db.core), q, instant))
                && (s != Ok ==> s == ErrInvalid)
                && (s == Ok ==>
                      && db.core == Delivered(Project(old(db.core), q, instant), entry.id, payload)
                      && Agrees(db))
    {
      hide SettleSound, WellFormed, ProjectionFits, TableAgrees, Readable, TableOk, Projection.Added, Projection.Taken;
      hide Projection.Row, Projection.Open, Projection.HasRoom, Projection.Slots, ChargeKeys, ActiveAgrees, LeasesOk, Latest;
      hide Agrees;
      ghost var start, sound := db, SettleSound(db, cfg, entry, payload, actual, instant);
      if sound { SettleReady(db, cfg, entry, payload, actual, instant); }
      s := ReleaseInFlight(entry);
      if s != Ok { return; }
      ghost var released := db;
      var q := entry.(state := State.Complete, actual := actual, recovery := NO_SETTLEMENT, digest := Some(Digest(actual, payload)));
      if actual.tokens.Some? && q.bound.tokens.Some? && actual.tokens.value > q.bound.tokens.value {
        q := q.(overrun := true);
      }
      if actual.money.Some? && q.bound.money.Some? {
        q := q.(overrun := q.overrun || Units(actual.money.value) > Units(q.bound.money.value));
      }
      if q.overrun && q.bound.revision != "" {
        db := db.(core := db.core.(invalid := db.core.invalid[q.bound.revision := entry.id]));
      }
      db := db.(core := db.core.(receipts := db.core.receipts[entry.id := q]));
      ghost var stored := db;
      if sound { ReleasedRoom(start, released, cfg, entry, q, payload, actual, instant); }
      s := ProjectTerminal(q, instant);
      if s != Ok {
        if sound { ProjectionFailed(start, released, cfg, entry, q, payload, actual, instant); }
        return ErrInvalid;
      }
      ghost var projected := db;
      if sound { ProjectionDone(start, released, projected, cfg, entry, q, payload, actual, instant); }
      s := CompleteFact(entry.id, payload);
      if sound { SettlementStored(start, projected, db, cfg, entry, q, payload, actual, instant, s); }
      if s != Ok { return ErrInvalid; }
    }

    /** AccountQuotaUsage: advances the clock and prunes the history before it is read. */
    method ObserveQuota(account: Account, now: Int64) returns (s: Status)
      modifies this
      ensures Refines(old(db), db, cfg, OpObserveQuota(account, now), s)
    {
      hide MetadataStatus, QuotaMonth, ValidKey, PruneQuota, Prunable, TableAgrees, Inv, Agrees;
      ghost var start, sound := db, ValidDb(db, cfg);
      var saved := db;
      if sound { ObserveKeepsDb(db, cfg, account, now); }
      if !ValidKey(account) { return ErrInvalid; }
      s := MetadataStatus(db.core, cfg);
      if s != Ok { return; }
      var zone := db.core.zone;
      var instant;
      s, instant := LogicalLimitTime(now);
      if s != Ok { return; }
      if sound { ClockPrunable(start, db, cfg); }
      s := PruneHistory(instant);
      if sound { PrunedAgrees(start, db, cfg, instant); }
      if s == Ok && QuotaMonth(cfg, zone, instant).None? { s := ErrInvalid; }
      if s != Ok { db := saved; }
    }
  }

  // ---------- lemmas of the transactions ----------

  lemma LimitStepsKeepDb(db: Db, cfg: Config, op: Op)
    requires ValidDb(db, cfg) && (op.OpReserveWithLimits? || op.OpObserveLimits?)
    ensures Agrees(db) && Inv(db.core, cfg)
    ensures Inv(Step(db.core, cfg, op).core, cfg)
  {
    hide Inv, Agrees;
    if op.OpReserveWithLimits? { LimitStepsKeep(db.core, cfg, op.id, op.payload, op.limits, op.now); }
    else { LimitStepsKeep(db.core, cfg, "", "", [], op.now); }
  }

  lemma EnableKeepsDb(db: Db, cfg: Config, zone: string, now: int)
    requires ValidDb(db, cfg) && 0 <= cfg.quotaCapacity
    ensures Inv(Ledger.EnableQuota(db.core, cfg, zone, now).core, cfg)
  {
    hide Inv, Agrees;
    EnableKeeps(db.core, cfg, zone, now);
  }

  lemma PreflightKeepsDb(db: Db, cfg: Config, op: Op)
    requires ValidDb(db, cfg) && op.OpPreflight?
    ensures Inv(Step(db.core, cfg, op).core, cfg)
  {
    hide Inv, Agrees;
    PreflightKeeps(db.core, cfg, op.id, op.policies, op.bound, op.zone, op.now);
  }

  lemma ReserveKeepsDb(db: Db, cfg: Config, op: Op)
    requires ValidDb(db, cfg) && op.OpReserveWithQuota?
    ensures Agrees(db) && Inv(db.core, cfg)
    ensures Inv(Step(db.core, cfg, op).core, cfg)
  {
    hide Inv, Agrees;
    ReserveQuotaKeeps(db.core, cfg, op.id, op.payload, op.policies, op.bound, op.recovery, op.now);
  }

  lemma StillValid(db: Db, cfg: Config)
    requires Inv(db.core, cfg) && Agrees(db)
    ensures ValidDb(db, cfg)
  {}

  lemma CheckedPositive(before: Db, now: Db, cfg: Config)
    requires ValidDb(before, cfg) && EventsAgree(now) && now.active == before.active
    ensures Positive(now.rpm) && Positive(now.active)
  {
    hide Inv, TableAgrees;
  }

  lemma ObservedAgrees(before: Db, now: Db, cfg: Config)
    requires ValidDb(before, cfg) && EventsAgree(now) && Inv(now.core, cfg)
    requires now == before.(core := before.core.(clock := now.core.clock, events := now.core.events),
                            rpm := now.rpm, eventCount := now.eventCount)
    ensures ValidDb(now, cfg)
    ensures RpmAgrees(now.rpm, now.core.events) && ActiveAgrees(now.active, now.core.leases)
  {
    hide Inv, TableAgrees;
    TableFrame(before.core, now.core, before.counters);
  }

  lemma EnabledAgrees(before: Db, now: Db, cfg: Config)
    requires ValidDb(before, cfg) && Inv(now.core, cfg)
    requires now == before.(core := now.core, entryCount := 0, counters := map[])
    requires now.core.events == before.core.events && now.core.leases == before.core.leases
    requires now.core.receipts == map[] && now.core.expiry == {}
    ensures ValidDb(now, cfg)
  {
    hide Inv;
    forall a, w, d | Stored(d) ensures Amount(CounterAt(map[], a, w), d) == Fold(now.core, a, w, d) {
      assert Charged(now.core, a, w) == {};
      assert Weights(now.core.receipts, {}, d) == map[];
    }
  }

  /** Freshness relative to all events is freshness relative to the live ones. */
  lemma FreshIsLive(f: Core, op: Op, t: int, accounts: seq<Account>)
    requires t == LogicalTime(f, OpNow(op)) && accounts == LimitAccounts(OpLimits(op))
    ensures FreshKeys(f, op) <==> forall a :: a in accounts ==> Event(t, OpId(op), a) !in LiveEvents(f.events, t)
  {
    hide LimitAccounts, OpLimits;
  }

  /** The counts after an admission: always for leases, exactly with fresh keys for events. */
  lemma AdmissionCounts(saved: Db, checked: Db, after: Db, cfg: Config, op: Op, t: int, accounts: seq<Account>)
    requires ValidDb(saved, cfg) && EventsAgree(checked) && checked.active == saved.active
    requires checked.core.events == LiveEvents(saved.core.events, t) && checked.core.leases == saved.core.leases
    requires t == LogicalTime(saved.core, OpNow(op)) && accounts == LimitAccounts(OpLimits(op))
    requires DistinctAccounts(accounts) && OpId(op) !in saved.core.pending
    requires Positive(after.rpm) && Positive(after.active)
    requires after.eventCount == checked.eventCount + |accounts|
    requires forall a :: CountValue(after.rpm, a) == CountValue(checked.rpm, a) + if a in accounts then 1 else 0
    requires forall a :: CountValue(after.active, a) == CountValue(checked.active, a) + if a in accounts then 1 else 0
    requires after.core.events == checked.core.events + NewEvents(OpId(op), t, accounts)
    requires after.core.leases == checked.core.leases[OpId(op) := accounts]
    ensures ActiveAgrees(after.active, after.core.leases)
    ensures (RpmAgrees(after.rpm, after.core.events) && after.eventCount == |after.core.events|) <==> FreshKeys(saved.core, op)
  {
    hide Inv, LiveEvents, NewEvents, LimitAccounts, RpmAgrees, ActiveAgrees, FreshKeys, TableAgrees;
    ValidLeases(saved, cfg);
    LeasesAfter(checked.active, after.active, checked.core.leases, OpId(op), accounts);
    FreshIsLive(saved.core, op, t, accounts);
    CountsAgreeIffFresh(checked.rpm, after.rpm, checked.core.events, OpId(op), t, accounts);
    if FreshKeys(saved.core, op) { EventTotalIffFresh(checked.core.events, OpId(op), t, accounts); }
  }

  lemma LimitAdmissionAgrees(saved: Db, checked: Db, after: Db, cfg: Config, op: Op, t: int)
    requires ValidDb(saved, cfg) && op.OpReserveWithLimits?
    requires CheckLimits(saved.core, cfg, op.id, op.limits, op.now) == Admitted(checked.core, t)
    requires checked == saved.(core := checked.core, rpm := checked.rpm, eventCount := checked.eventCount)
    requires EventsAgree(checked) && DistinctAccounts(LimitAccounts(op.limits))
    requires after == checked.(core := ApplyAdmission(checked.core, op.id, op.payload, t, LimitAccounts(op.limits)),
                               rpm := after.rpm, active := after.active, eventCount := checked.eventCount + |LimitAccounts(op.limits)|)
    requires Positive(after.rpm) && Positive(after.active)
    requires forall a :: CountValue(after.rpm, a) == CountValue(checked.rpm, a) + if a in LimitAccounts(op.limits) then 1 else 0
    requires forall a :: CountValue(after.active, a)
                         == CountValue(checked.active, a) + if a in LimitAccounts(op.limits) then 1 else 0
    ensures Agrees(after) <==> FreshKeys(saved.core, op)
  {
    hide Inv, LimitsStatus, LiveEvents, NewEvents, LimitAccounts, RpmAgrees, ActiveAgrees, FreshKeys, EventsAgree, Positive;
    hide TableAgrees, DistinctAccounts;
    AdmissionCounts(saved, checked, after, cfg, op, t, LimitAccounts(op.limits));
    assert TableAgrees(saved.counters, saved.core);
    TableFrame(saved.core, after.core, after.counters);
  }

  lemma AdmissionChecked(saved: Db, checked: Db, cfg: Config, op: Op, r: Receipt)
    requires ValidDb(saved, cfg) && op.OpReserveWithQuota? && Agrees(checked)
    requires ValidEntry(cfg, op.id, op.payload) && 1 <= |op.policies| <= MAX_ACCOUNTS && ValidBound(op.bound)
    requires var c := CheckQuotaAdmission(saved.core, cfg, op.id, op.policies, op.bound, "", op.now);
             c.QuotaAdmitted? && c.receipt == r
             && checked.core == c.core.(births := BirthsAfter(c.core, op.policies, |op.policies|, true))
    ensures Positive(checked.rpm) && Positive(checked.active) && TableAgrees(checked.counters, checked.core)
    ensures WellFormed(r)
  {
    hide Inv, CheckQuotaAdmission, TableAgrees, LimitsStatus, PoliciesStatus, Due, LiveEvents, BirthsAfter;
    var h := CheckQuotaAdmission(saved.core, cfg, op.id, op.policies, op.bound, "", op.now).core;
    CheckedCore(saved.core, cfg, op.id, op.policies, op.bound, "", op.now, h, r);
    CheckedFields(saved.core, cfg, op.id, op.policies, op.bound, "", op.now, h, r);
    CheckedPolicies(PruneLimits(saved.core, r.admittedAt), h, op.policies, op.bound, saved.core.coverage,
                    r.admittedAt, r.monthStart);
  }

  lemma AdmissionApplied(h: Core, checked: Db, now: Db, t: int, id: Id, payload: Payload, accounts: seq<Account>)
    requires Agrees(checked) && now.core == ApplyAdmission(checked.core, id, payload, t, accounts)
    requires now.counters == checked.counters && checked.core == h.(births := checked.core.births)
    ensures TableAgrees(now.counters, now.core)
    ensures forall r :: InFlightFits(now.core, r) <==> InFlightFits(h, r)
  {
    hide TableAgrees;
    TableFrame(checked.core, now.core, now.counters);
    forall a, w, d ensures Fold(now.core, a, w, d) == Fold(h, a, w, d) {
      assert Charged(now.core, a, w) == Charged(h, a, w);
    }
    forall r, a ensures Fits(now.core, a, InFlight, r) <==> Fits(h, a, InFlight, r) {
      hide Fold;
    }
  }

  /** The counters after the new receipt was stored. */
  lemma StoredTable(before: Core, after: Core, t: Table, u: Table, r: Receipt, q: Receipt)
    requires TableAgrees(t, before) && r.state == Active && r.id !in before.receipts && ExpiryOk(before)
    requires q == r.(recovery := q.recovery)
    requires after.receipts == before.receipts[r.id := q] && after.expiry == before.expiry
    requires Projection.Added(t, u, r, Projection.Row(r, InFlight, |r.accounts|))
    ensures TableAgrees(u, after)
  {
    hide Fold, Contribution, Projection.Row, ExpiryOk, Names;
    assert Names(q) == Names(r) by { NamesByAccounts(q, r); }
    forall a, w, d | Stored(d) ensures Amount(CounterAt(u, a, w), d) == Fold(after, a, w, d) {
      InsertFold(before, after, q, a, w, d);
      Projection.FlightRow(r, a, w);
      assert Amount(CounterAt(t, a, w), d) == Fold(before, a, w, d);
      ActiveWeight(r, q.recovery, d);
    }
  }

  /** The admission committed exactly what its counterpart prescribes. */
  lemma AdmissionStored(saved: Db, checked: Db, held: Db, after: Db, cfg: Config, op: Op, r: Receipt)
    requires ValidDb(saved, cfg) && op.OpReserveWithQuota? && Agrees(checked)
    requires ValidEntry(cfg, op.id, op.payload) && 1 <= |op.policies| <= MAX_ACCOUNTS
    requires ValidBound(op.bound) && ValidSettlement(op.recovery) && RecoveryStatus(op.bound, op.recovery) == Ok
    requires var c := CheckQuotaAdmission(saved.core, cfg, op.id, op.policies, op.bound, "", op.now);
             c.QuotaAdmitted? && c.receipt == r && InFlightFits(c.core, r)
             && checked.core == c.core.(births := BirthsAfter(c.core, op.policies, |op.policies|, true))
    requires var accounts := LimitAccounts(PolicyLimits(op.policies));
             && DistinctAccounts(accounts)
             && held == checked.(core := ApplyAdmission(checked.core, op.id, op.payload, r.admittedAt, accounts),
                                 rpm := held.rpm, active := held.active, eventCount := checked.eventCount + |accounts|,
                                 counters := held.counters)
             && (forall a :: CountValue(held.rpm, a) == CountValue(checked.rpm, a) + if a in accounts then 1 else 0)
             && (forall a :: CountValue(held.active, a) == CountValue(checked.active, a) + if a in accounts then 1 else 0)
    requires Positive(held.rpm) && Positive(held.active)
    requires Projection.Added(checked.counters, held.counters, r, Projection.Row(r, InFlight, |r.accounts|))
    requires after == held.(core := held.core.(receipts := held.core.receipts[op.id := r.(recovery := op.recovery)]),
                            entryCount := held.entryCount + 1)
    ensures Step(saved.core, cfg, op) == Outcome(Ok, after.core)
    ensures Agrees(after) <==> FreshKeys(saved.core, op)
  {
    hide Inv, CheckQuotaAdmission, TableAgrees, ValidBound, ValidEntry, ValidSettlement, RecoveryStatus, InFlightFits;
    hide LimitAccounts, PolicyLimits, DistinctAccounts, Positive, Projection.Added, Projection.Row, FreshKeys, Establish;
    hide RpmAgrees, ActiveAgrees, PruneQuota, LimitsStatus, PoliciesStatus, LiveEvents, NewEvents, Step, BirthsAfter;
    hide ValidDb, EventsAgree;
    var accounts := LimitAccounts(PolicyLimits(op.policies));
    var h := CheckQuotaAdmission(saved.core, cfg, op.id, op.policies, op.bound, "", op.now).core;
    assert Inv(saved.core, cfg) by { ReserveKeepsDb(saved, cfg, op); }
    CheckedCore(saved.core, cfg, op.id, op.policies, op.bound, "", op.now, h, r);
    CheckedFields(saved.core, cfg, op.id, op.policies, op.bound, "", op.now, h, r);
    AdmittedEvents(saved, checked, h, cfg, op, r);
    AdmissionOutcome(saved.core, h, checked.core, after.core, cfg, op, r);
    AdmissionCounts(saved, checked, after, cfg, op, r.admittedAt, accounts);
    AdmissionTable(h, checked, after, cfg, op, r);
  }

  lemma AdmissionTable(h: Core, checked: Db, after: Db, cfg: Config, op: Op, r: Receipt)
    requires Inv(h, cfg) && Agrees(checked) && checked.core == h.(births := checked.core.births)
    requires op.OpReserveWithQuota? && r.id == op.id && r.id !in h.receipts && r.state == Active
    requires Projection.Added(checked.counters, after.counters, r, Projection.Row(r, InFlight, |r.accounts|))
    requires after.core.receipts == checked.core.receipts[op.id := r.(recovery := op.recovery)]
    requires after.core.expiry == checked.core.expiry && after.entryCount == checked.entryCount + 1
    ensures TableAgrees(after.counters, after.core) && after.entryCount == |after.core.receipts|
  {
    hide Inv, TableAgrees, Projection.Added, Projection.Row, RpmAgrees, ActiveAgrees, ExpiryOk;
    InvExpiry(h, cfg);
    StoredTable(checked.core, after.core, checked.counters, after.counters, r, r.(recovery := op.recovery));
    assert after.core.receipts.Keys == checked.core.receipts.Keys + {op.id};
  }

  lemma AdmissionOutcome(f: Core, h: Core, checked: Core, after: Core, cfg: Config, op: Op, r: Receipt)
    requires op.OpReserveWithQuota? && ValidEntry(cfg, op.id, op.payload) && 1 <= |op.policies| <= MAX_ACCOUNTS
    requires ValidBound(op.bound) && ValidSettlement(op.recovery) && RecoveryStatus(op.bound, op.recovery) == Ok
    requires CheckQuotaAdmission(f, cfg, op.id, op.policies, op.bound, "", op.now) == QuotaAdmitted(h, r)
    requires InFlightFits(h, r) && h.version == V2
    requires checked == h.(births := BirthsAfter(h, op.policies, |op.policies|, true))
    requires after == ApplyAdmission(checked, op.id, op.payload, r.admittedAt, LimitAccounts(PolicyLimits(op.policies)))
                      .(receipts := checked.receipts[op.id := r.(recovery := op.recovery)])
    ensures Step(f, cfg, op) == Outcome(Ok, after)
  {
    hide CheckQuotaAdmission, ValidBound, ValidEntry, ValidSettlement, RecoveryStatus, InFlightFits, LimitAccounts;
    hide PolicyLimits, Establish, NewEvents;
  }

  lemma InvExpiry(f: Core, cfg: Config)
    requires Inv(f, cfg)
    ensures ExpiryOk(f) && forall m :: ExpiryOk(f.(births := m))
  {
    hide FoldsFit, ReceiptsOk, FactsOk, LeasesOk, EventsOk, ModeOk, SwitchOk, KeySound;
    forall m: map<Account, int> ensures ExpiryOk(f.(births := m)) {
      forall id | id in f.receipts ensures KeysComplete(f.(births := m), id) { assert KeysComplete(f, id); }
    }
  }

  lemma AdmittedEvents(saved: Db, checked: Db, h: Core, cfg: Config, op: Op, r: Receipt)
    requires ValidDb(saved, cfg) && op.OpReserveWithQuota? && Agrees(checked) && Inv(h, cfg)
    requires h == if saved.core.version == V2 then PruneQuota(PruneLimits(saved.core, r.admittedAt), r.admittedAt)
                  else PruneLimits(saved.core, r.admittedAt)
    requires checked.core == h.(births := checked.core.births)
    requires op.id !in saved.core.receipts
    ensures EventsAgree(checked) && checked.core.leases == saved.core.leases && checked.active == saved.active
    ensures checked.core.events == LiveEvents(saved.core.events, r.admittedAt)
    ensures op.id !in checked.core.receipts && h.version == saved.core.version
  {
    hide FoldsFit, ReceiptsOk, ExpiryOk, FactsOk, LeasesOk, SwitchOk, TableAgrees, LiveEvents, Due;
    assert checked.active == saved.active by { LeaseCountsDetermined(saved, checked); }
  }

  lemma LeaseCountsDetermined(x: Db, y: Db)
    requires Agrees(x) && Agrees(y) && x.core.leases == y.core.leases
    ensures x.active == y.active
  {
    hide TableAgrees, RpmAgrees, LeasesOf;
    CountsDetermined(x.active, y.active);
  }

  lemma UpdateKeepsDb(db: Db, cfg: Config, id: Id, payload: Payload, recovery: Settlement)
    requires ValidDb(db, cfg)
    ensures Inv(Ledger.UpdatePendingQuota(db.core, cfg, id, payload, recovery).core, cfg)
    ensures Readable(db.core)
  {
    hide Agrees, FoldsFit, ExpiryOk, Ledger.UpdatePendingQuota;
    UpdatePendingQuotaKeeps(db.core, cfg, id, payload, recovery);
    ReceiptsReadable(db.core, cfg);
  }

  lemma UpdatedAgrees(before: Db, after: Db, cfg: Config, id: Id)
    requires ValidDb(before, cfg) && Inv(after.core, cfg)
    requires id in before.core.receipts && !Terminal(before.core.receipts[id]) && id in after.core.receipts
    requires after == before.(core := before.core.(receipts := after.core.receipts, pending := after.core.pending))
    requires after.core.receipts == before.core.receipts[id := before.core.receipts[id].(recovery := after.core.receipts[id].recovery)]
    ensures ValidDb(after, cfg)
  {
    hide FactsOk, LeasesOk, EventsOk, ModeOk, ReceiptsOk, SwitchOk, Fold, RpmAgrees, ActiveAgrees, Terminal;
    RecoveryUnweighed(before.core, after.core, id);
    assert after.core.receipts.Keys == before.core.receipts.Keys;
    forall a, w, d | Stored(d) ensures Amount(CounterAt(after.counters, a, w), d) == Fold(after.core, a, w, d) {
      assert Amount(CounterAt(before.counters, a, w), d) == Fold(before.core, a, w, d);
    }
  }

  lemma CompleteKeepsDb(db: Db, cfg: Config, id: Id, payload: Payload, actual: Settlement, now: int)
    requires ValidDb(db, cfg)
    ensures Inv(Ledger.CompleteQuota(db.core, cfg, id, payload, actual, now).core, cfg)
    ensures Readable(db.core) && Agrees(db) && Inv(db.core, cfg)
  {
    hide Agrees, FoldsFit, ExpiryOk, Ledger.CompleteQuota;
    CompleteQuotaKeeps(db.core, cfg, id, payload, actual, now);
    ReceiptsReadable(db.core, cfg);
  }

  function Delivered(f: Core, id: Id, payload: Payload): (g: Core)
  {
    f.(ready := f.ready[id := payload], leases := f.leases - {id}, pending := f.pending - {id})
  }

  /** The journal a settlement starts from: valid except that its clock was just moved to instant. */
  ghost predicate SettleSound(db: Db, cfg: Config, entry: Receipt, payload: Payload, actual: Settlement, instant: int)
  {
    && Agrees(db) && Inv(db.core, cfg) && db.core.clock == instant
    && entry.id in db.core.receipts && db.core.receipts[entry.id] == entry && entry.state == Active
    && ValidSettlement(actual) && ValidEntry(cfg, entry.id, payload)
  }

  lemma SettleReady(db: Db, cfg: Config, entry: Receipt, payload: Payload, actual: Settlement, instant: int)
    requires SettleSound(db, cfg, entry, payload, actual, instant)
    ensures TableAgrees(db.counters, db.core) && Readable(db.core) && WellFormed(entry)
    ensures entry.id in db.core.pending && entry.id !in db.core.ready && !entry.overrun
    ensures entry.id in db.core.receipts && db.core.receipts[entry.id] == entry && entry.state == Active
    ensures db.core.clock == instant
  {
    hide FoldsFit, ExpiryOk, RpmAgrees, ActiveAgrees, TableAgrees, WellFormed, EventsOk, ModeOk;
    ReceiptsReadable(db.core, cfg);
    assert ReceiptOk(db.core, cfg, entry.id);
  }

  lemma ReleasedRoom(start: Db, released: Db, cfg: Config, entry: Receipt, q: Receipt, payload: Payload,
                     actual: Settlement, instant: int)
    requires SettleSound(start, cfg, entry, payload, actual, instant)
    requires q == Settle(entry, actual, payload, State.Complete) && WellFormed(entry)
    requires Projection.Taken(start.counters, released.counters, entry, Projection.Row(entry, InFlight, |entry.accounts|))
    ensures WellFormed(q) && TableOk(released.counters)
    ensures (forall p :: Projection.Open(q, instant, p) ==> Projection.HasRoom(released.counters, p, q))
            <==> ProjectionFits(start.core, q, instant)
  {
    hide Inv, WellFormed, Projection.Row, Fits, Projection.HasRoom, Names, WindowEnd, RpmAgrees, ActiveAgrees;
    hide ValidSettlement, ValidEntry, TableAgrees;
    SettledWellFormed(entry, actual, payload);
    forall p: Projection.Slot | p.1 != InFlight
      ensures Projection.HasRoom(released.counters, p, q) <==> Fits(start.core, p.0, p.1, q)
    {
      SameRoom(start.counters, released.counters, entry, q, p);
      FitsIffRoom(start.counters, start.core, p.0, p.1, q);
    }
    forall a, w | a in Names(q) && w in Windows(q) && WindowEnd(q, w) > instant
      ensures Projection.Open(q, instant, (a, w)) && w != InFlight
    {}
    if forall p :: Projection.Open(q, instant, p) ==> Projection.HasRoom(released.counters, p, q) {
      forall a, w | a in Names(q) && w in Windows(q) && WindowEnd(q, w) > instant ensures Fits(start.core, a, w, q) {
        assert Projection.Open(q, instant, (a, w));
        assert Projection.HasRoom(released.counters, (a, w), q);
      }
    }
  }

  lemma SameRoom(t: Table, u: Table, entry: Receipt, q: Receipt, p: Projection.Slot)
    requires Projection.Taken(t, u, entry, Projection.Row(entry, InFlight, |entry.accounts|)) && p.1 != InFlight
    ensures Projection.HasRoom(u, p, q) <==> Projection.HasRoom(t, (p.0, p.1), q)
  {
    hide Contribution, Projection.Row, Amount, CounterAt;
    Projection.FlightRow(entry, p.0, p.1);
    forall d | Bounded(d) ensures Amount(CounterAt(u, p.0, p.1), d) == Amount(CounterAt(t, p.0, p.1), d) {
      assert Stored(d);
    }
  }

  lemma ProjectionFailed(start: Db, released: Db, cfg: Config, entry: Receipt, q: Receipt, payload: Payload,
                         actual: Settlement, instant: int)
    requires SettleSound(start, cfg, entry, payload, actual, instant)
    requires q == Settle(entry, actual, payload, State.Complete) && WellFormed(entry)
    requires Projection.Taken(start.counters, released.counters, entry, Projection.Row(entry, InFlight, |entry.accounts|))
    requires !forall p :: Projection.Open(q, instant, p) ==> Projection.HasRoom(released.counters, p, q)
    ensures !ProjectionFits(start.core, q, instant)
  {
    hide SettleSound, WellFormed, Projection.Taken, Projection.Row, ProjectionFits, Projection.Open, Projection.HasRoom;
    ReleasedRoom(start, released, cfg, entry, q, payload, actual, instant);
  }

  /** After the projection every counter is the fold over the settled journal. */
  lemma ProjectionDone(start: Db, released: Db, projected: Db, cfg: Config, entry: Receipt, q: Receipt, payload: Payload,
                       actual: Settlement, instant: int)
    requires SettleSound(start, cfg, entry, payload, actual, instant)
    requires q == Settle(entry, actual, payload, State.Complete)
    requires Projection.Taken(start.counters, released.counters, entry, Projection.Row(entry, InFlight, |entry.accounts|))
    requires Projection.Added(released.counters, projected.counters, q, Projection.Slots(q, instant))
    requires projected == start.(core := projected.core, counters := projected.counters)
    requires projected.core.receipts == start.core.receipts[q.id := q]
    requires projected.core.expiry == start.core.expiry + ChargeKeys(q, instant) + {Retire(Latest(q), q.id)}
    requires projected.core.leases == start.core.leases && projected.core.pending == start.core.pending
    requires projected.core.events == start.core.events
    ensures TableAgrees(projected.counters, projected.core)
    ensures ActiveAgrees(projected.active, projected.core.leases) && LeasesOk(projected.core.pending, projected.core.leases)
    ensures RpmAgrees(projected.rpm, projected.core.events) && projected.eventCount == |projected.core.events|
    ensures projected.entryCount == |projected.core.receipts|
  {
    hide FoldsFit, FactsOk, EventsOk, ModeOk, ReceiptsOk, SwitchOk, ExpiryOk, Fold, Contribution, Projection.Row;
    hide Projection.Slots, Projection.Taken, Projection.Added, ChargeKeys, RpmAgrees, ActiveAgrees, TableAgrees;
    hide ValidEntry, ValidSettlement, LeasesOk;
    SettledTable(start.core, projected.core, start.counters, released.counters, projected.counters, entry, q, instant);
    assert projected.core.receipts.Keys == start.core.receipts.Keys;
  }

  lemma SettledTable(before: Core, after: Core, t: Table, u: Table, v: Table, entry: Receipt, q: Receipt, instant: int)
    requires TableAgrees(t, before) && ExpiryOk(before)
    requires entry.id in before.receipts && before.receipts[entry.id] == entry && entry.state == Active
    requires Terminal(q) && q.accounts == entry.accounts && q.id == entry.id
    requires Projection.Taken(t, u, entry, Projection.Row(entry, InFlight, |entry.accounts|))
    requires Projection.Added(u, v, q, Projection.Slots(q, instant))
    requires after.receipts == before.receipts[q.id := q]
    requires after.expiry == before.expiry + ChargeKeys(q, instant) + {Retire(Latest(q), q.id)}
    ensures TableAgrees(v, after)
  {
    hide Fold, Contribution, Projection.Row, Projection.Slots, Projection.Taken, ChargeKeys, ExpiryOk, Latest;
    hide Amount, CounterAt;
    forall a, w, d | Stored(d) ensures Amount(CounterAt(v, a, w), d) == Fold(after, a, w, d) {
      SettledAmount(before, after, t, u, v, entry, q, instant, a, w, d);
    }
  }

  lemma SettledAmount(before: Core, after: Core, t: Table, u: Table, v: Table, entry: Receipt, q: Receipt, instant: int,
                      a: Account, w: Window, d: Dim)
    requires TableAgrees(t, before) && ExpiryOk(before) && Stored(d)
    requires entry.id in before.receipts && before.receipts[entry.id] == entry && entry.state == Active
    requires Terminal(q) && q.accounts == entry.accounts && q.id == entry.id
    requires Projection.Taken(t, u, entry, Projection.Row(entry, InFlight, |entry.accounts|))
    requires Projection.Added(u, v, q, Projection.Slots(q, instant))
    requires after.receipts == before.receipts[q.id := q]
    requires after.expiry == before.expiry + ChargeKeys(q, instant) + {Retire(Latest(q), q.id)}
    ensures Amount(CounterAt(v, a, w), d) == Fold(after, a, w, d)
  {
    hide Fold, Contribution, Names, Projection.Row, Projection.Slots, ChargeKeys, ExpiryOk, Windows, WindowEnd, Latest;
    hide Amount, CounterAt, Stored, TableOk;
    NamesByAccounts(q, entry);
    SettleFold(before, after, q, instant, a, w, d);
    Projection.FlightRow(entry, a, w);
    Projection.SlotsOpen(q, instant);
    assert (a, w) in Projection.Slots(q, instant) <==> Projection.Open(q, instant, (a, w));
    WindowNotInFlight(q, w);
    assert Amount(CounterAt(t, a, w), d) == Fold(before, a, w, d);
  }

  lemma WindowNotInFlight(q: Receipt, w: Window)
    ensures w in Windows(q) ==> w != InFlight
  {}

  lemma SettlementStored(start: Db, projected: Db, after: Db, cfg: Config, entry: Receipt, q: Receipt, payload: Payload,
                         actual: Settlement, instant: int, s: Status)
    requires SettleSound(start, cfg, entry, payload, actual, instant)
    requires q == Settle(entry, actual, payload, State.Complete)
    requires projected.core == Project(start.core, q, instant)
    requires TableAgrees(projected.counters, projected.core) && projected.entryCount == |projected.core.receipts|
    requires RpmAgrees(projected.rpm, projected.core.events) && projected.eventCount == |projected.core.events|
    requires Outcome(s, after.core) == Deliver(projected.core, entry.id, payload)
    requires after == projected.(core := after.core, active := after.active) && ActiveAgrees(after.active, after.core.leases)
    ensures s == Ok && after.core == Delivered(Project(start.core, q, instant), entry.id, payload) && Agrees(after)
  {
    hide SettleSound, TableAgrees, RpmAgrees, ActiveAgrees, ChargeKeys, Settle, Latest;
    SettleReady(start, cfg, entry, payload, actual, instant);
    TableFrame(projected.core, after.core, after.counters);
  }

  lemma CompletionOutcome(start: Db, after: Db, cfg: Config, id: Id, payload: Payload, actual: Settlement, now: int, s: Status)
    requires ValidDb(start, cfg) && ValidEntry(cfg, id, payload) && ValidSettlement(actual)
    requires MetadataStatus(start.core, cfg) == Ok && id in start.core.receipts && start.core.receipts[id].id == id
    requires !Terminal(start.core.receipts[id]) && 0 < now
    requires var r := start.core.receipts[id];
             !(actual.money.Some? && r.bound.money.Some? && actual.currency != r.bound.currency)
    requires var f := start.core.(clock := LogicalTime(start.core, now));
             var q := Settle(start.core.receipts[id], actual, payload, Complete);
             SettleSound(start.(core := f), cfg, start.core.receipts[id], payload, actual, f.clock) ==>
               && (s == Ok <==> ProjectionFits(f, q, f.clock))
               && (s != Ok ==> s == ErrInvalid && after == start)
               && (s == Ok ==> after.core == Delivered(Project(f, q, f.clock), id, payload) && Agrees(after))
    ensures Outcome(s, after.core) == Ledger.CompleteQuota(start.core, cfg, id, payload, actual, now)
    ensures Agrees(after)
  {
    hide Inv, Agrees, ProjectionFits, ChargeKeys, Settle, Latest, ValidEntry, ValidSettlement, MetadataStatus;
    var f := start.core.(clock := LogicalTime(start.core, now));
    var q := Settle(start.core.receipts[id], actual, payload, Complete);
    ClockKeeps(start.core, cfg, f.clock);
    AgreesFrame(start, start.(core := f));
    SettleReady(start.(core := f), cfg, start.core.receipts[id], payload, actual, f.clock);
    ProjectionClock(start.core, f, q);
  }

  lemma ProjectionClock(f: Core, g: Core, q: Receipt)
    requires g == f.(clock := g.clock)
    ensures ProjectionFits(f, q, g.clock) <==> ProjectionFits(g, q, g.clock)
  {
    forall a, w, d ensures Fold(g, a, w, d) == Fold(f, a, w, d) {
      assert Charged(g, a, w) == Charged(f, a, w);
    }
    forall a, w ensures Fits(g, a, w, q) <==> Fits(f, a, w, q) {
      hide Fold;
    }
  }

  lemma ObserveKeepsDb(db: Db, cfg: Config, account: Account, now: int)
    requires ValidDb(db, cfg)
    ensures Inv(Ledger.ObserveQuota(db.core, cfg, account, now).core, cfg)
    ensures Agrees(db) && Inv(db.core, cfg)
  {
    hide Agrees, Inv, Ledger.ObserveQuota;
    ObserveQuotaKeeps(db.core, cfg, account, now);
  }

  lemma ClockPrunable(before: Db, now: Db, cfg: Config)
    requires ValidDb(before, cfg) && now == before.(core := before.core.(clock := now.core.clock))
    ensures Prunable(now)
  {
    hide FoldsFit, WellFormed, RpmAgrees, EventsOk, ModeOk, KeySound;
    ReceiptsReadable(before.core, cfg);
    TableFrame(before.core, now.core, now.counters);
  }

  lemma PrunedAgrees(before: Db, now: Db, cfg: Config, t: int)
    requires ValidDb(before, cfg) && TableAgrees(now.counters, now.core) && now.entryCount == |now.core.receipts|
    requires now == before.(core := PruneQuota(before.core.(clock := t), t), counters := now.counters, entryCount := now.entryCount)
    ensures Agrees(now) && Agrees(before)
  {
    hide Inv, TableAgrees, Due;
  }

  ghost predicate HoldState(before: Db, now: Db, r: Receipt, i: nat)
    requires i <= |r.accounts|
  {
    && Projection.Added(before.counters, now.counters, r, Projection.Row(r, InFlight, i))
    && forall j :: 0 <= j < i ==> Fits(before.core, r.accounts[j].account, InFlight, r)
  }

  lemma HoldStarts(db: Db, r: Receipt)
    requires TableAgrees(db.counters, db.core)
    ensures HoldState(db, db, r, 0)
  {
    hide Fold;
    Projection.RowStarts(r, InFlight);
    Projection.AddedNone(db.counters, r);
  }

  /** The room a counter has is the room the fold has. */
  lemma FitsIffRoom(t: Table, f: Core, a: Account, w: Window, r: Receipt)
    requires TableAgrees(t, f)
    ensures Fits(f, a, w, r) <==> Projection.HasRoom(t, (a, w), r)
  {
    hide Fold, Contribution;
    forall d | Bounded(d) ensures Amount(CounterAt(t, a, w), d) == Fold(f, a, w, d) {
      assert Stored(d);
    }
  }

  lemma HoldOne(before: Db, now: Db, r: Receipt, i: nat)
    requires i < |r.accounts| && TableAgrees(before.counters, before.core) && WellFormed(r) && HoldState(before, now, r, i)
    ensures var next := ApplyQuotaCounter(now.counters, r.accounts[i].account, InFlight, r, 1);
            && (next.None? ==> !InFlightFits(before.core, r))
            && (next.Some? ==> HoldState(before, now.(counters := next.value), r, i + 1))
  {
    hide WellFormed, ApplyQuotaCounter, Fits, Projection.Added, Projection.HasRoom, Projection.Row, ValidAmounts, Names;
    WellFormedParts(r);
    Projection.FlightVisited(r, i);
    Projection.AddedOne(before.counters, now.counters, r, Projection.Row(r, InFlight, i), (r.accounts[i].account, InFlight));
    FitsIffRoom(before.counters, before.core, r.accounts[i].account, InFlight, r);
  }

  lemma HoldEnds(before: Db, now: Db, r: Receipt)
    requires HoldState(before, now, r, |r.accounts|)
    ensures InFlightFits(before.core, r)
  {
    hide Fits, Projection.Added;
    forall a | a in Names(r) ensures Fits(before.core, a, InFlight, r) {
      var j :| 0 <= j < |r.accounts| && r.accounts[j].account == a;
    }
  }

  lemma TakeStarts(db: Db, r: Receipt)
    requires TableAgrees(db.counters, db.core)
    ensures Projection.Taken(db.counters, db.counters, r, Projection.Row(r, InFlight, 0))
  {
    Projection.RowStarts(r, InFlight);
  }

  lemma TakeOne(before: Db, now: Db, r: Receipt, i: nat)
    requires i < |r.accounts| && TableAgrees(before.counters, before.core) && WellFormed(r) && Readable(before.core)
    requires !Terminal(r) && r.id in before.core.receipts && before.core.receipts[r.id] == r
    requires Projection.Taken(before.counters, now.counters, r, Projection.Row(r, InFlight, i))
    ensures var next := ApplyQuotaCounter(now.counters, r.accounts[i].account, InFlight, r, -1);
            && next.Some?
            && Projection.Taken(before.counters, next.value, r, Projection.Row(r, InFlight, i + 1))
  {
    hide WellFormed, ApplyQuotaCounter, Projection.Taken, Projection.Covers, Projection.Row, ValidAmounts, Names, Readable;
    WellFormedParts(r);
    Projection.FlightVisited(r, i);
    FlightCovered(before, r, r.accounts[i].account);
    Projection.TakenOne(before.counters, now.counters, r, Projection.Row(r, InFlight, i), (r.accounts[i].account, InFlight));
  }

  /** The in-flight fold of a named account contains the receipt. */
  lemma FlightCovered(db: Db, r: Receipt, a: Account)
    requires TableAgrees(db.counters, db.core) && Readable(db.core) && a in Names(r)
    requires !Terminal(r) && r.id in db.core.receipts && db.core.receipts[r.id] == r
    ensures Projection.Covers(db.counters, (a, InFlight), r)
  {
    hide Contribution, Readable, Names;
    ReadableWeighable(db.core);
    var ids := Charged(db.core, a, InFlight);
    forall d | Stored(d) ensures Contribution(r, d) <= Amount(CounterAt(db.counters, a, InFlight), d) {
      SumMonotone(db.core.receipts, {r.id}, db.core.receipts, ids, d);
      SumInsert(db.core.receipts, {}, r.id, d);
      assert {} + {r.id} == {r.id} && Weights(db.core.receipts, {}, d) == map[];
      assert Amount(CounterAt(db.counters, a, InFlight), d) == Fold(db.core, a, InFlight, d);
    }
  }

  /** q was added to the counters in slots, all of which had room, and filed under their keys. */
  ghost predicate ProjectState(before: Db, now: Db, q: Receipt, slots: set<Projection.Slot>)
  {
    && now == before.(counters := now.counters,
                      core := before.core.(expiry := before.core.expiry + Projection.Keys(q, slots)))
    && Projection.Added(before.counters, now.counters, q, slots)
    && Projection.AllRoom(before.counters, q, slots)
  }

  predicate LatestState(q: Receipt, visited: set<Window>, latest: int)
  {
    q.monthEnd <= latest <= Latest(q) && forall w :: w in visited ==> WindowEnd(q, w) <= latest
  }

  lemma ProjectStarts(db: Db, q: Receipt, instant: int)
    requires TableOk(db.counters)
    ensures ProjectState(db, db, q, Projection.SlotsIn(q, instant, {}))
    ensures LatestState(q, {}, q.monthEnd)
  {
    hide TableOk, Projection.Added;
    Projection.AllWindows(q, instant);
    Projection.AddedNone(db.counters, q);
  }

  lemma LatestMoves(q: Receipt, visited: set<Window>, latest: int, w: Window)
    requires LatestState(q, visited, latest) && WindowEnd(q, w) <= Latest(q)
    ensures LatestState(q, visited + {w}, if WindowEnd(q, w) > latest then WindowEnd(q, w) else latest)
  {}

  lemma WindowSkipped(q: Receipt, instant: int, visited: set<Window>, w: Window)
    requires WindowEnd(q, w) <= instant
    ensures Projection.SlotsIn(q, instant, visited + {w}) == Projection.SlotsIn(q, instant, visited)
  {
    Projection.WindowVisited(q, instant, visited, w);
  }

  lemma ProjectEnds(before: Db, now: Db, q: Receipt, instant: int, latest: int)
    requires ProjectState(before, now, q, Projection.SlotsIn(q, instant, Windows(q)))
    requires LatestState(q, Windows(q), latest)
    ensures latest == Latest(q)
    ensures now == before.(counters := now.counters,
                           core := before.core.(expiry := before.core.expiry + ChargeKeys(q, instant)))
    ensures Projection.Added(before.counters, now.counters, q, Projection.Slots(q, instant))
    ensures forall p :: Projection.Open(q, instant, p) ==> Projection.HasRoom(before.counters, p, q)
  {
    hide Projection.Added, Projection.HasRoom, Projection.Open;
    Projection.AllWindows(q, instant);
    Projection.KeysAll(q, instant);
    Projection.LatestIsAnEnd(q);
    Projection.RoomEverywhere(before.counters, q, instant);
  }

  /** One account of one window: it has room exactly when the counter accepts it. */
  lemma SlotVisited(before: Db, now: Db, q: Receipt, instant: int, visited: set<Window>, w: Window, i: nat)
    requires TableOk(before.counters) && WellFormed(q) && i < |q.accounts|
    requires w in Windows(q) && w !in visited && WindowEnd(q, w) > instant
    requires ProjectState(before, now, q, Projection.SlotsIn(q, instant, visited) + Projection.Row(q, w, i))
    ensures var a := q.accounts[i].account;
            var next := ApplyQuotaCounter(now.counters, a, w, q, 1);
            && (next.None? ==> !forall p :: Projection.Open(q, instant, p) ==> Projection.HasRoom(before.counters, p, q))
            && (next.Some? ==>
                  ProjectState(before, now.(counters := next.value, core := now.core.(expiry :=
                                              now.core.expiry + {Charge(WindowEnd(q, w), a, w, q.id)})),
                               q, Projection.SlotsIn(q, instant, visited) + Projection.Row(q, w, i + 1)))
  {
    hide WellFormed, TableOk, Projection.Added, Projection.HasRoom, Projection.Open, ApplyQuotaCounter;
    hide Projection.SlotsIn, Projection.Row, Projection.Keys, Windows, WindowEnd;
    var a := q.accounts[i].account;
    var slots := Projection.SlotsIn(q, instant, visited) + Projection.Row(q, w, i);
    WellFormedParts(q);
    Projection.AccountVisited(q, instant, visited, w, i);
    Projection.AddedOne(before.counters, now.counters, q, slots, (a, w));
    assert slots + {(a, w)} == Projection.SlotsIn(q, instant, visited) + Projection.Row(q, w, i + 1);
    Projection.KeysOne(q, slots, (a, w));
    if ApplyQuotaCounter(now.counters, a, w, q, 1).None? {
      Projection.NoRoom(q, instant, i, w, before.counters);
    }
  }

  lemma WellFormedParts(q: Receipt)
    requires WellFormed(q)
    ensures ValidAccounts(q.accounts) && ValidAmounts(q)
  {}

  /** The recorded accounts after the first n policies were checked. */
  function BirthsAfter(f: Core, ps: seq<Policy>, n: nat, establish: bool): (m: map<Account, int>)
    requires n <= |ps|
  {
    if establish && f.version == V2 then Establish(f.births, ps, n) else f.births
  }

  lemma BirthsStart(f: Core, ps: seq<Policy>, establish: bool)
    ensures BirthsAfter(f, ps, 0, establish) == f.births && |PolicyAccounts(ps)| == |ps|
  {}

  lemma AccountsStep(ps: seq<Policy>, i: nat)
    requires i < |ps|
    ensures |PolicyAccounts(ps)| == |ps|
    ensures PolicyAccounts(ps)[..i + 1] == PolicyAccounts(ps)[..i] + [QuotaAccount(ps[i].limit.account, ps[i].revision)]
  {}

  lemma PoliciesUnfold(f: Core, ps: seq<Policy>, b: Bound, coverage: int, t: int, start: int, i: nat)
    requires i <= |ps|
    ensures PoliciesStatus(f, ps, b, coverage, t, start, i)
         == if i == |ps| then Ok
            else Then(PolicyStatus(f, ps[i], b, coverage, t, start), PoliciesStatus(f, ps, b, coverage, t, start, i + 1))
  {}

  /** Recording earlier, different accounts does not touch the one checked next. */
  lemma {:induction false} EstablishOther(births: map<Account, int>, ps: seq<Policy>, n: nat, a: Account)
    requires n <= |ps| && forall i :: 0 <= i < n ==> ps[i].limit.account != a
    ensures a in Establish(births, ps, n) <==> a in births
    ensures a in births ==> Establish(births, ps, n)[a] == births[a]
  {
    if n > 0 { EstablishOther(births, ps, n - 1, a); }
  }

  lemma BirthsStep(start: Db, now: Db, ps: seq<Policy>, i: nat, establish: bool, b: Bound, coverage: int, t: int, from: int)
    requires i < |ps| && DistinctAccounts(LimitAccounts(PolicyLimits(ps))) && Agrees(start)
    requires now == start.(core := start.core.(births := BirthsAfter(start.core, ps, i, establish)))
    ensures TableAgrees(now.counters, now.core)
    ensures EmptyHistory(start.core) && start.core.version == V1 ==> EmptyHistory(now.core)
    ensures PolicyStatus(now.core, ps[i], b, coverage, t, from) == PolicyStatus(start.core, ps[i], b, coverage, t, from)
    ensures (if start.core.version == V2 && establish then Recorded(now.core.births, ps[i]) else now.core.births)
         == BirthsAfter(start.core, ps, i + 1, establish)
  {
    hide TokensStatus, MoneyStatus, RpmAgrees, ActiveAgrees, TableAgrees;
    BirthsUnreadTable(start.core, now.core, now.counters);
    BirthsUnreadStatus(start.core, now.core, ps[i], b, coverage, TokenWindows(ps[i], t, from), from);
    var a := ps[i].limit.account;
    forall j | 0 <= j < i ensures ps[j].limit.account != a {
      assert LimitAccounts(PolicyLimits(ps))[j] != LimitAccounts(PolicyLimits(ps))[i];
    }
    EstablishOther(start.core.births, ps, i, a);
  }

  lemma BirthsAgree(start: Db, now: Db)
    requires Agrees(start) && now == start.(core := start.core.(births := now.core.births))
    ensures Agrees(now)
  {
    hide TableAgrees;
    BirthsUnreadTable(start.core, now.core, now.counters);
  }

  /** After the limit checks passed, the journal is ready for its history to be pruned. */
  lemma LimitsAdmitted(start: Db, now: Db, cfg: Config, id: Id, ps: seq<Policy>, t0: int, instant: int)
    requires ValidDb(start, cfg) && CheckLimits(start.core, cfg, id, PolicyLimits(ps), t0) == Admitted(now.core, instant)
    requires now == start.(core := now.core, rpm := now.rpm, eventCount := now.eventCount) && EventsAgree(now)
    ensures Prunable(now) && now.core == PruneLimits(start.core, instant) && Agrees(now)
    ensures DistinctAccounts(LimitAccounts(PolicyLimits(ps)))
    ensures now.core.version == start.core.version
  {
    hide FoldsFit, LimitsStatus, WellFormed, LiveEvents, RpmAgrees, EventsOk, ModeOk, KeySound;
    AdmittedAccounts(now.core, PolicyLimits(ps));
    ReceiptsReadable(start.core, cfg);
    TableFrame(start.core, now.core, now.counters);
  }

  lemma ReceiptsReadable(f: Core, cfg: Config)
    requires ReceiptsOk(f, cfg)
    ensures Readable(f)
  {
    hide WellFormed, QuotaMonth, Names, Overran;
    forall id | id in f.receipts ensures f.receipts[id].id == id && WellFormed(f.receipts[id]) {
      assert ReceiptOk(f, cfg, id);
    }
  }

  /** Counters depend on receipts and the expiry index only. */
  lemma TableFrame(f: Core, g: Core, t: Table)
    requires TableAgrees(t, f) && g.receipts == f.receipts && g.expiry == f.expiry
    ensures TableAgrees(t, g)
  {
    forall a, w, d | Stored(d) ensures Amount(CounterAt(t, a, w), d) == Fold(g, a, w, d) {
      assert Charged(g, a, w) == Charged(f, a, w);
      assert Fold(f, a, w, d) == Fold(g, a, w, d);
    }
  }

  /** The history the policies are checked against, on either version. */
  lemma HistoryPruned(start: Db, limited: Db, now: Db, cfg: Config, instant: int)
    requires ValidDb(start, cfg) && Agrees(limited) && limited.core == PruneLimits(start.core, instant)
    requires if start.core.version == V2 then
               && now == limited.(core := PruneQuota(limited.core, instant), counters := now.counters,
                                  entryCount := now.entryCount)
               && TableAgrees(now.counters, now.core) && now.entryCount == |now.core.receipts|
             else now == limited
    ensures Agrees(now) && now.entryCount == |now.core.receipts|
    ensures now.core.version == start.core.version && now.core.zone == start.core.zone
    ensures now.core.coverage == start.core.coverage
    ensures start.core.version == V1 ==> EmptyHistory(now.core)
  {
    hide FoldsFit, ReceiptsOk, ExpiryOk, LeasesOk, FactsOk, TableAgrees, LiveEvents, Due, RpmAgrees, ActiveAgrees;
  }

  lemma EmptyAgrees()
    ensures Agrees(EMPTY_DB)
  {
    forall a ensures EventsOf({}, a) == {} && LeasesOf(map[], a) == {} {}
    forall a, w, d | Stored(d) ensures Amount(CounterAt(map[], a, w), d) == Fold(EMPTY_CORE, a, w, d) {
      assert Charged(EMPTY_CORE, a, w) == {};
      assert Weights(EMPTY_CORE.receipts, {}, d) == map[];
    }
  }

  /** The indexes do not look at facts, clock or metadata. */
  lemma AgreesFrame(before: Db, after: Db)
    requires after == before.(core := after.core)
    requires after.core.events == before.core.events && after.core.leases == before.core.leases
    requires after.core.receipts == before.core.receipts && after.core.expiry == before.core.expiry
    ensures Agrees(before) ==> Agrees(after)
  {
    hide TableAgrees;
    if Agrees(before) { TableFrame(before.core, after.core, before.counters); }
  }

  lemma AgreesDelivered(before: Db, after: Db)
    requires Agrees(before) && after == before.(core := after.core, active := after.active)
    requires after.core.events == before.core.events
    requires after.core.receipts == before.core.receipts && after.core.expiry == before.core.expiry
    requires ActiveAgrees(after.active, after.core.leases)
    ensures Agrees(after)
  {
    hide TableAgrees, ActiveAgrees;
    TableFrame(before.core, after.core, before.counters);
  }

  lemma ValidLeases(db: Db, cfg: Config)
    requires ValidDb(db, cfg)
    ensures ActiveAgrees(db.active, db.core.leases) && LeasesOk(db.core.pending, db.core.leases)
  {
    hide FoldsFit, ReceiptsOk, ExpiryOk, TableAgrees, RpmAgrees;
  }

  predicate EmptyHistory(f: Core)
  {
    f.receipts == map[] && f.expiry == {} && f.births == map[] && f.invalid == map[]
  }

  function Recorded(births: map<Account, int>, p: Policy): (m: map<Account, int>)
  {
    if p.limit.account in births then births else births[p.limit.account := Created(p)]
  }

  lemma ValidEvents(db: Db, cfg: Config)
    requires ValidDb(db, cfg)
    ensures EventsAgree(db)
  {
    hide FoldsFit, ReceiptsOk, ExpiryOk, TableAgrees;
  }

  lemma ClockUncounted(before: Db, now: Db)
    requires EventsAgree(before)
    requires now.rpm == before.rpm && now.eventCount == before.eventCount && now.core.events == before.core.events
    ensures EventsAgree(now)
  {}

  lemma EventTotal(db: Db)
    requires EventsAgree(db)
    ensures db.eventCount == |db.core.events|
  {}

  lemma StillAgrees(before: Db, now: Db, cfg: Config)
    requires ValidDb(before, cfg) && EventsAgree(now)
    requires now.active == before.active && now.core.leases == before.core.leases
    ensures RpmAgrees(now.rpm, now.core.events) && ActiveAgrees(now.active, now.core.leases)
  {
    hide Inv, TableAgrees;
  }

  lemma CountsRead(db: Db, a: Account)
    requires RpmAgrees(db.rpm, db.core.events) && ActiveAgrees(db.active, db.core.leases)
    ensures CountValue(db.rpm, a) == |EventsOf(db.core.events, a)|
    ensures CountValue(db.active, a) == |LeasesOf(db.core.leases, a)|
  {}

  lemma LimitsUnfold(f: Core, limits: seq<Limit>, i: nat)
    requires i <= |limits|
    ensures LimitsStatus(f, limits, i)
         == if i == |limits| then Ok else Then(LimitStatus(f, limits, i), LimitsStatus(f, limits, i + 1))
  {}

  lemma TokensUnfold(f: Core, p: Policy, b: Bound, coverage: int, tws: seq<TokenWindow>, i: nat)
    requires i <= |tws|
    ensures TokensStatus(f, p, b, coverage, tws, i)
         == if i == |tws| then Ok
            else Then(TokenStatus(f, p, b, coverage, tws[i]), TokensStatus(f, p, b, coverage, tws, i + 1))
  {}

  lemma WindowReads(db: Db, a: Account, w: Window, activeJournal: bool)
    requires TableAgrees(db.counters, db.core)
    requires activeJournal || (db.core.receipts == map[] && db.core.expiry == {})
    ensures Reads(if activeJournal then CounterAt(db.counters, a, w) else ZERO, db.core, a, w)
  {
    if activeJournal { TableReads(db.counters, db.core, a, w); } else { ZeroReads(db.core, a, w); }
  }

  lemma ReadIsLegible(c: Counter, f: Core, a: Account, w: Window)
    requires Reads(c, f, a, w)
    ensures Legible(c)
  {}

  /** No fold looks at the recorded accounts. */
  lemma BirthsUnread(f: Core, g: Core)
    requires g == f.(births := g.births)
    ensures forall a, w, d :: Fold(g, a, w, d) == Fold(f, a, w, d)
  {
    forall a, w, d ensures Fold(g, a, w, d) == Fold(f, a, w, d) {
      assert Charged(g, a, w) == Charged(f, a, w);
    }
  }

  lemma BirthsUnreadTable(f: Core, g: Core, t: Table)
    requires g == f.(births := g.births) && TableAgrees(t, f)
    ensures TableAgrees(t, g)
  {
    hide Fold;
    BirthsUnread(f, g);
  }

  lemma BirthsUnreadStatus(f: Core, g: Core, p: Policy, b: Bound, coverage: int, tws: seq<TokenWindow>, start: int)
    requires g == f.(births := g.births)
    ensures TokensStatus(g, p, b, coverage, tws, 0) == TokensStatus(f, p, b, coverage, tws, 0)
    ensures MoneyStatus(g, p, b, coverage, start) == MoneyStatus(f, p, b, coverage, start)
  {
    hide Fold, TokensStatus;
    BirthsUnread(f, g);
    SameTokens(f, g, p, b, coverage, tws, 0);
    forall w, c: string ensures MoneyLoad(f, p.limit.account, w, c) == MoneyLoad(g, p.limit.account, w, c) {}
  }

  lemma PruningFrame(f: Core, t: int, todo: set<ExpiryKey>)
    requires CursorAt(f, t, todo)
    ensures todo <= f.expiry
    ensures Pruning(f, t, todo).ready == f.ready && Pruning(f, t, todo).pending == f.pending
  {}

  lemma ChargeLeaves(f: Core, t: int, todo: set<ExpiryKey>, k: ExpiryKey)
    requires k in todo && todo <= f.expiry && k.Charge? && k.at <= t
    ensures Pruning(f, t, todo - {k})
         == Pruning(f, t, todo).(expiry := Pruning(f, t, todo).expiry - {k})
  {
    assert Retiring(f, t, todo - {k}) == Retiring(f, t, todo);
  }

  lemma LeaseCounted(m: Counts, leases: map<Id, seq<Account>>, id: Id, a: Account)
    requires ActiveAgrees(m, leases) && id in leases && a in leases[id]
    ensures CountValue(m, a) >= 1
  {
    assert CountValue(m, a) == |LeasesOf(leases, a)|;
    assert id in LeasesOf(leases, a);
  }

  lemma NotYet(accounts: seq<Account>, i: nat)
    requires DistinctAccounts(accounts) && i < |accounts|
    ensures accounts[i] !in accounts[..i]
  {}

  lemma PositiveCount(m: Counts, a: Account)
    requires Positive(m)
    ensures CountValue(m, a) >= 0
  {}

  lemma NewEventsStep(id: Id, t: int, accounts: seq<Account>, i: nat)
    requires i < |accounts|
    ensures NewEvents(id, t, accounts[..i + 1]) == NewEvents(id, t, accounts[..i]) + {Event(t, id, accounts[i])}
  {
    forall e | e in NewEvents(id, t, accounts[..i + 1])
      ensures e in NewEvents(id, t, accounts[..i]) + {Event(t, id, accounts[i])}
    {
      var j :| 0 <= j < i + 1 && e == Event(t, id, accounts[..i + 1][j]);
      if j < i { assert e == Event(t, id, accounts[..i][j]); }
    }
    forall e | e in NewEvents(id, t, accounts[..i]) + {Event(t, id, accounts[i])}
      ensures e in NewEvents(id, t, accounts[..i + 1])
    {
      if e in NewEvents(id, t, accounts[..i]) {
        var j :| 0 <= j < i && e == Event(t, id, accounts[..i][j]);
        assert e == Event(t, id, accounts[..i + 1][j]);
      } else {
        assert e == Event(t, id, accounts[..i + 1][i]);
      }
    }
  }

  // ---------- lemmas of startup ----------

  lemma NothingCounted()
    ensures RpmAgrees(map[], {}) && ActiveAgrees(map[], map[])
  {
    forall a ensures EventsOf({}, a) == {} && LeasesOf(map[], a) == {} {}
  }

  lemma EventAdded(m: Counts, count: Option<Counts>, events: set<Event>, todo: set<Event>, e: Event)
    requires RpmAgrees(m, events - todo) && e in todo && todo <= events && count == ChangeCount(m, e.account, 1)
    ensures count.Some? && RpmAgrees(count.value, events - (todo - {e}))
  {
    assert events - (todo - {e}) == (events - todo) + {e};
    EventCountedOnce(m, count, events - todo, e);
  }

  lemma EventsOfInsert(events: set<Event>, e: Event, a: Account)
    requires e !in events
    ensures |EventsOf(events + {e}, a)| == |EventsOf(events, a)| + if e.account == a then 1 else 0
  {
    if e.account == a {
      assert EventsOf(events + {e}, a) == EventsOf(events, a) + {e};
    } else {
      assert EventsOf(events + {e}, a) == EventsOf(events, a);
    }
  }

  lemma EventCountedOnce(m: Counts, count: Option<Counts>, events: set<Event>, e: Event)
    requires RpmAgrees(m, events) && e !in events && count == ChangeCount(m, e.account, 1)
    ensures count.Some? && RpmAgrees(count.value, events + {e})
  {
    hide EventsOf;
    assert CountValue(m, e.account) == |EventsOf(events, e.account)|;
    forall a ensures CountValue(count.value, a) == |EventsOf(events + {e}, a)| {
      assert CountValue(m, a) == |EventsOf(events, a)|;
      EventsOfInsert(events, e, a);
    }
  }

  lemma NextReceipt(f: Core, done: set<Id>, id: Id)
    requires done < done + {id} <= f.receipts.Keys
    ensures id in f.receipts && id !in done && done <= f.receipts.Keys
  {}

  function Restricted(m: map<Id, Payload>, ids: set<Id>): (r: map<Id, Payload>)
  {
    map id | id in m && id in ids :: m[id]
  }

  lemma NothingReplayed(pending: map<Id, Payload>, ready: map<Id, Payload>)
    ensures Restricted(pending, pending.Keys - pending.Keys) + ready == ready
  {}

  lemma AllReplayed(pending: map<Id, Payload>, todo: set<Id>)
    requires todo == {}
    ensures Restricted(pending, pending.Keys - todo) == pending
  {}

  lemma FallbackReplayed(pending: map<Id, Payload>, ready: map<Id, Payload>, todo: set<Id>, id: Id, cfg: Config)
    requires FactsOk(cfg, pending, ready) && todo <= pending.Keys && id in todo
    ensures ValidKey(id) && |pending[id]| <= cfg.maxPayload && id !in Restricted(pending, pending.Keys - todo) + ready
    ensures (Restricted(pending, pending.Keys - todo) + ready)[id := pending[id]]
         == Restricted(pending, pending.Keys - (todo - {id})) + ready
  {}

  lemma ValidRecoverable(db: Db, cfg: Config)
    requires ValidDb(db, cfg)
    ensures Recoverable(db, cfg)
  {
    hide FoldsFit, ExpiryOk, ReceiptsOk, FactsOk, EventsOk, RpmAgrees, ActiveAgrees;
    if db.core.version == V1 {
      forall a, w, d | Stored(d) ensures Amount(CounterAt(map[], a, w), d) == Amount(CounterAt(db.counters, a, w), d) {
        assert Charged(db.core, a, w) == {};
        assert Weights(db.core.receipts, {}, d) == map[];
        assert Amount(CounterAt(db.counters, a, w), d) == Fold(db.core, a, w, d);
      }
      TableDetermined(map[], db.counters);
    }
  }

  lemma OpenStarts(db: Db, cfg: Config)
    requires Recoverable(db, cfg)
    ensures EventsOk(db.core.events, db.core.clock) && FactsOk(cfg, db.core.pending, db.core.ready)
  {
    hide FoldsFit, ExpiryOk, ReceiptsOk, FactsOk, EventsOk;
  }

  /** A crash loses nothing by dropping the leases. */
  lemma LimitsDropped(saved: Db, now: Db, cfg: Config)
    requires Recoverable(saved, cfg)
    requires now == saved.(core := saved.core.(leases := map[]), rpm := now.rpm, active := map[], eventCount := now.eventCount)
    ensures Recoverable(now, cfg) && Rebuild(now.core) == Rebuild(saved.core)
  {
    hide InterruptAll, RebuiltExpiry, ReceiptOk, FactsOk, EventsOk;
    QuotaFrame(saved.core, now.core, cfg);
    forall id | id in now.core.receipts ensures ReceiptOk(now.core, cfg, id) { assert ReceiptOk(saved.core, cfg, id); LeasesUnread(saved.core, now.core, cfg, id); }
    SameInterrupts(saved.core, now.core);
  }

  lemma LeasesUnread(f: Core, g: Core, cfg: Config, id: Id)
    requires id in f.receipts && ReceiptOk(f, cfg, id) && g == f.(leases := map[])
    ensures ReceiptOk(g, cfg, id)
  {
    hide WellFormed, QuotaMonth, Names, Overran;
  }

  lemma SameInterrupts(f: Core, g: Core)
    requires g.receipts == f.receipts && g.pending == f.pending
    ensures InterruptAll(g) == InterruptAll(f)
  {}

  /** The facts queued before are the facts queued after quota recovery. */
  lemma QuotaRecovered(saved: Db, limited: Db, now: Db, cfg: Config)
    requires limited.core == saved.core.(leases := map[])
    requires now.core == limited.core || now.core == PruneQuota(Rebuild(limited.core), limited.core.clock)
    ensures now.core.pending == saved.core.pending && now.core.ready == saved.core.ready
  {
    hide InterruptAll, RebuiltExpiry, Due;
  }

  lemma OpenEnds(saved: Db, limited: Db, recovered: Db, now: Db, cfg: Config, s: Status)
    requires Recoverable(saved, cfg) && Rebuild(limited.core) == Rebuild(saved.core)
    requires limited == saved.(core := saved.core.(leases := map[]), rpm := limited.rpm, active := map[],
                               eventCount := |saved.core.events|)
    requires RpmAgrees(limited.rpm, limited.core.events) && ActiveAgrees(limited.active, limited.core.leases)
    requires if s != Ok then now == saved && s == ErrInvalid && saved.core.version == V2 && !FoldsFit(Rebuild(saved.core))
             else now == recovered.(core := ReplayPending(recovered.core))
    requires s == Ok ==>
               if saved.core.version == V1 then recovered == limited
               else
                 && FoldsFit(Rebuild(saved.core))
                 && recovered == limited.(core := PruneQuota(Rebuild(saved.core), saved.core.clock),
                                          counters := recovered.counters, entryCount := recovered.entryCount)
                 && TableAgrees(recovered.counters, recovered.core) && recovered.entryCount == |recovered.core.receipts|
    ensures Outcome(s, now.core) == Ledger.Open(saved.core)
    ensures s == Ok ==> ValidDb(now, cfg)
  {
    hide Inv, TableAgrees, RpmAgrees, ActiveAgrees, FoldsFit, InterruptAll, RebuiltExpiry, Due;
    if s == Ok {
      OpenKeeps(saved.core, cfg);
      if saved.core.version == V1 { EmptyTable(saved, limited, cfg); }
      TableFrame(recovered.core, now.core, now.counters);
    }
  }

  lemma EmptyTable(saved: Db, limited: Db, cfg: Config)
    requires Recoverable(saved, cfg) && saved.core.version == V1
    requires limited.core == saved.core.(leases := map[])
    requires limited.counters == saved.counters && limited.entryCount == saved.entryCount
    ensures TableAgrees(limited.counters, limited.core) && limited.entryCount == |limited.core.receipts|
  {
    hide FoldsFit, ExpiryOk, ReceiptsOk, FactsOk, EventsOk;
    forall a, w, d | Stored(d) ensures Amount(CounterAt(map[], a, w), d) == Fold(limited.core, a, w, d) {
      assert Charged(limited.core, a, w) == {};
      assert Weights(limited.core.receipts, {}, d) == map[];
    }
  }
}
