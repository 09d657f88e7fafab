/** What the counters hold, read off bounds and settlements: what an admission reserves, what a
    settlement moves, and what startup makes of requests that a crash interrupted. */
module LedgerMeasures {
  import opened Wrappers
  import opened Decimals
  import opened LedgerTypes
  import opened Totals
  import opened Ledger
  import opened LedgerInvariant
  import opened LedgerSteps
  import opened LedgerRecovery
  import opened LedgerReceipts
  import opened LedgerRefinement

  // ---------- accounts and windows of a receipt ----------

  predicate NamesAccount(r: Receipt, a: Account)
  {
    exists i :: 0 <= i < |r.accounts| && r.accounts[i].account == a
  }

  /** w is a window of r that is still open at t: a minute, five hours and seven days from admission,
      and the calendar month of the admission. */
  predicate InWindow(r: Receipt, w: Window, t: int)
  {
    match w
    case InFlight => false
    case Minute => t < r.admittedAt + 60_000_000_000
    case FiveHours => t < r.admittedAt + 18_000_000_000_000
    case SevenDays => t < r.admittedAt + 604_800_000_000_000
    case Month(start) => start == r.monthStart && t < r.monthEnd
  }

  lemma WindowMeaning(r: Receipt, a: Account, w: Window, t: int)
    ensures a in Names(r) <==> NamesAccount(r, a)
    ensures w in Windows(r) && WindowEnd(r, w) > t <==> InWindow(r, w, t)
  {
    if NamesAccount(r, a) {
      var i :| 0 <= i < |r.accounts| && r.accounts[i].account == a;
    }
  }

  /** The settled requests of account a that still count in window w at t. */
  function SettledIn(f: Core, a: Account, w: Window, t: int): (ids: set<Id>)
  {
    set id | id in f.receipts && f.receipts[id].state != Active
             && NamesAccount(f.receipts[id], a) && InWindow(f.receipts[id], w, t)
  }

  /** The requests of account a that are still running. */
  function RunningFor(f: Core, a: Account): (ids: set<Id>)
  {
    set id | id in f.receipts && f.receipts[id].state == Active && NamesAccount(f.receipts[id], a)
  }

  /** What these requests count for together. */
  ghost function Amounts(f: Core, ids: set<Id>, d: Dim): (n: int)
    requires Stored(d)
  {
    Total(map id | id in ids && id in f.receipts :: Measured(f.receipts[id].bound, Told(f.receipts[id]), d))
  }

  lemma AmountsAreWeights(f: Core, ids: set<Id>, d: Dim)
    requires Stored(d) && ids <= f.receipts.Keys
    ensures WeightSum(f.receipts, ids, d) == Amounts(f, ids, d)
  {
    hide Contribution, Measured;
    forall id | id in ids ensures Weight(f.receipts, id, d) == Measured(f.receipts[id].bound, Told(f.receipts[id]), d) {
      CountedAsMeasured(f.receipts[id], d);
    }
    assert Weights(f.receipts, ids, d)
        == map id | id in ids && id in f.receipts :: Measured(f.receipts[id].bound, Told(f.receipts[id]), d);
  }

  /** In flight a counter holds what is known of the running requests: their bounds. */
  lemma RunningAmounts(f: Core, a: Account, d: Dim)
    requires Stored(d)
    ensures Fold(f, a, InFlight, d) == Amounts(f, RunningFor(f, a), d)
  {
    hide Names, NamesAccount, Amounts, WeightSum;
    forall id | id in f.receipts ensures a in Names(f.receipts[id]) <==> NamesAccount(f.receipts[id], a) {
      WindowMeaning(f.receipts[id], a, InFlight, 0);
    }
    assert Charged(f, a, InFlight) == RunningFor(f, a);
    AmountsAreWeights(f, RunningFor(f, a), d);
  }

  lemma OpenChargeMeaning(f: Core, a: Account, w: Window, id: Id)
    ensures OpenCharge(f, a, w, id) <==> id in SettledIn(f, a, w, f.clock)
  {
    hide Names, Windows, WindowEnd, NamesAccount, InWindow;
    if id in f.receipts { WindowMeaning(f.receipts[id], a, w, f.clock); }
  }

  /** A request that still counts in a window is not collected. */
  lemma CountedIsKept(f: Core, cfg: Config, a: Account, w: Window, id: Id)
    requires Inv(f, cfg) && id in SettledIn(f, a, w, f.clock)
    ensures id in PruneQuota(f, f.clock).receipts
  {
    hide Inv, Names, NamesAccount, Due;
    WindowMeaning(f.receipts[id], a, w, f.clock);
    WindowsEndByLatest(f.receipts[id], w);
    if id in RetiredIds(f, f.clock) { PrunedReceipt(f, cfg, f.clock, id); }
  }

  /** After a prune a window's counter holds exactly what its settled requests count for. */
  lemma WindowAmounts(f: Core, cfg: Config, a: Account, w: Window, d: Dim)
    requires Inv(f, cfg) && w != InFlight && Stored(d)
    ensures Fold(PruneQuota(f, f.clock), a, w, d) == Amounts(f, SettledIn(f, a, w, f.clock), d)
  {
    hide Inv, PruneQuota, OpenCharge, SettledIn, Amounts, Contribution;
    var g := PruneQuota(f, f.clock);
    PrunedFold(f, cfg, a, w, d);
    var ids := set id | id in g.receipts && OpenCharge(g, a, w, id);
    PrunedFields(f, f.clock);
    forall id ensures id in ids <==> id in SettledIn(f, a, w, f.clock) {
      OpenChargeMeaning(f, a, w, id);
      OpenChargeSame(f, g, a, w, id);
      OpenChargeStored(f, a, w, id);
      if id in SettledIn(f, a, w, f.clock) { CountedIsKept(f, cfg, a, w, id); }
    }
    assert ids == SettledIn(f, a, w, f.clock);
    forall id | id in ids ensures id in f.receipts && Weight(g.receipts, id, d) == Weight(f.receipts, id, d) {}
    SumSame(g.receipts, f.receipts, ids, d);
    AmountsAreWeights(f, ids, d);
  }

  lemma PrunedFields(f: Core, t: int)
    ensures var g := PruneQuota(f, t);
            g.clock == f.clock && g.receipts.Keys <= f.receipts.Keys
            && forall id :: id in g.receipts ==> g.receipts[id] == f.receipts[id]
  {
    hide Due;
  }

  lemma OpenChargeSame(f: Core, g: Core, a: Account, w: Window, id: Id)
    requires g.clock == f.clock && (id in g.receipts ==> id in f.receipts && g.receipts[id] == f.receipts[id])
    ensures id in g.receipts ==> (OpenCharge(g, a, w, id) <==> OpenCharge(f, a, w, id))
    ensures OpenCharge(g, a, w, id) ==> id in g.receipts
  {
    hide Names, Windows, WindowEnd;
  }

  // ---------- settlement ----------

  /** What account a's counter of window w gains when request r is settled with s at t. */
  function Gain(r: Receipt, s: Settlement, a: Account, w: Window, t: int, d: Dim): (n: int)
    requires Stored(d)
  {
    if NamesAccount(r, a) && InWindow(r, w, t) then Measured(r.bound, s, d) else 0
  }

  lemma SettlementMoves(f: Core, cfg: Config, id: Id, payload: Payload, actual: Settlement, now: int,
                        a: Account, w: Window, d: Dim)
    requires Inv(f, cfg) && Stored(d) && w != InFlight
    requires id in f.receipts && f.receipts[id].state == Active
    requires CompleteQuota(f, cfg, id, payload, actual, now).status == Ok
    ensures var g := CompleteQuota(f, cfg, id, payload, actual, now).core;
            && Fold(g, a, w, d) == Fold(f, a, w, d) + Gain(f.receipts[id], actual, a, w, LogicalTime(f, now), d)
            && Fold(g, a, InFlight, d) == Fold(f, a, InFlight, d)
               - if NamesAccount(f.receipts[id], a) then Measured(f.receipts[id].bound, NO_SETTLEMENT, d) else 0
  {
    hide Inv, Fold, Contribution, Measured, Names, Windows, WindowEnd, NamesAccount, InWindow, ChargeKeys, ProjectionFits;
    var g := CompleteQuota(f, cfg, id, payload, actual, now).core;
    var t, q := CompleteQuotaParts(f, cfg, id, payload, actual, now);
    assert ExpiryOk(f) by { IndexOk(f, cfg); }
    SettleFold(f, g, q, t, a, w, d);
    SettleFold(f, g, q, t, a, InFlight, d);
    SettledMeaning(f.receipts[id], q, a, w, t, d);
  }

  lemma IndexOk(f: Core, cfg: Config)
    requires Inv(f, cfg)
    ensures ExpiryOk(f) && ReceiptsOk(f, cfg)
  {}

  lemma SettledMeaning(r: Receipt, q: Receipt, a: Account, w: Window, t: int, d: Dim)
    requires Stored(d) && r.state == Active && q.state != Active
    requires q.bound == r.bound && q.accounts == r.accounts && q.admittedAt == r.admittedAt
    requires q.monthStart == r.monthStart && q.monthEnd == r.monthEnd
    ensures a in Names(q) <==> NamesAccount(r, a)
    ensures w in Windows(q) && WindowEnd(q, w) > t <==> InWindow(r, w, t)
    ensures Contribution(q, d) == Measured(r.bound, q.actual, d)
    ensures Contribution(r, d) == Measured(r.bound, NO_SETTLEMENT, d)
  {
    hide Names, Windows, WindowEnd, Contribution, Measured;
    WindowMeaning(q, a, w, t);
    CountedAsMeasured(q, d);
    CountedAsMeasured(r, d);
    assert InWindow(q, w, t) == InWindow(r, w, t);
    assert NamesAccount(q, a) == NamesAccount(r, a) by { SameAccounts(q, r, a); }
  }

  lemma SameAccounts(q: Receipt, r: Receipt, a: Account)
    requires q.accounts == r.accounts
    ensures NamesAccount(q, a) == NamesAccount(r, a)
  {}

  /** Settling a running request: every open window of every account it names gains what was
      measured as used, and what was not measured as held at exactly the bound; only what has
      neither becomes unknown. */
  lemma CompletionGains(f: Core, cfg: Config, id: Id, payload: Payload, s: Settlement, now: int,
                        a: Account, w: Window, c: string)
    requires Inv(f, cfg) && id in f.receipts && f.receipts[id].state == Active
    requires CompleteQuota(f, cfg, id, payload, s, now).status == Ok
    requires NamesAccount(f.receipts[id], a) && InWindow(f.receipts[id], w, if now < f.clock then f.clock else now)
    ensures var g, b := CompleteQuota(f, cfg, id, payload, s, now).core, f.receipts[id].bound;
            && Fold(g, a, w, TokensUsed) - Fold(f, a, w, TokensUsed) == (if s.tokens.Some? then s.tokens.value else 0)
            && Fold(g, a, w, TokensHeld) - Fold(f, a, w, TokensHeld)
               == (if s.tokens.None? && b.tokens.Some? then b.tokens.value else 0)
            && Fold(g, a, w, TokensUnknown) - Fold(f, a, w, TokensUnknown)
               == (if s.tokens.None? && b.tokens.None? then 1 else 0)
            && Fold(g, a, w, MoneyUnknown) - Fold(f, a, w, MoneyUnknown)
               == (if s.money.None? && b.money.None? then 1 else 0)
    ensures var g, b := CompleteQuota(f, cfg, id, payload, s, now).core, f.receipts[id].bound;
            && (s.money.Some? ==> QuotaUnits(s.money.value).Some?) && (b.money.Some? ==> QuotaUnits(b.money.value).Some?)
            && Fold(g, a, w, MoneyUsed(c)) - Fold(f, a, w, MoneyUsed(c))
               == (if s.money.Some? && s.currency == c then QuotaUnits(s.money.value).value else 0)
            && Fold(g, a, w, MoneyHeld(c)) - Fold(f, a, w, MoneyHeld(c))
               == (if s.money.None? && b.money.Some? && b.currency == c then QuotaUnits(b.money.value).value else 0)
  {
    hide Inv, Fold, CompleteQuota, NamesAccount;
    SettlementMoves(f, cfg, id, payload, s, now, a, w, TokensUsed);
    SettlementMoves(f, cfg, id, payload, s, now, a, w, TokensHeld);
    SettlementMoves(f, cfg, id, payload, s, now, a, w, TokensUnknown);
    SettlementMoves(f, cfg, id, payload, s, now, a, w, MoneyUsed(c));
    SettlementMoves(f, cfg, id, payload, s, now, a, w, MoneyHeld(c));
    SettlementMoves(f, cfg, id, payload, s, now, a, w, MoneyUnknown);
    ReadableMoney(f, cfg, id, payload, s, now);
  }

  lemma ReadableMoney(f: Core, cfg: Config, id: Id, payload: Payload, s: Settlement, now: int)
    requires Inv(f, cfg) && id in f.receipts && f.receipts[id].state == Active
    requires CompleteQuota(f, cfg, id, payload, s, now).status == Ok
    ensures s.money.Some? ==> QuotaUnits(s.money.value).Some?
    ensures f.receipts[id].bound.money.Some? ==> QuotaUnits(f.receipts[id].bound.money.value).Some?
  {
    hide FoldsFit, ExpiryOk, FactsOk, LeasesOk, EventsOk, SwitchOk, ModeOk, ProjectionFits, Project, ValidEntry;
    assert ReceiptOk(f, cfg, id);
  }

  /** The settlement exceeds the bound, in tokens or in money. */
  predicate Exceeds(s: Settlement, b: Bound)
  {
    || (s.tokens.Some? && b.tokens.Some? && s.tokens.value > b.tokens.value)
    || (s.money.Some? && b.money.Some? && QuotaUnits(s.money.value).Some? && QuotaUnits(b.money.value).Some?
        && QuotaUnits(s.money.value).value > QuotaUnits(b.money.value).value)
  }

  /** Every counter that the settlement of r would add to at t has room. */
  ghost predicate CountersTake(f: Core, r: Receipt, s: Settlement, t: int)
  {
    forall a, w, d :: NamesAccount(r, a) && InWindow(r, w, t) && Counter(d) ==>
      Fold(f, a, w, d) + Measured(r.bound, s, d) <= MAX_INT64
  }

  lemma TakenMeaning(f: Core, r: Receipt, q: Receipt, t: int)
    requires r.state == Active && q.state != Active
    requires q.bound == r.bound && q.accounts == r.accounts && q.admittedAt == r.admittedAt
    requires q.monthStart == r.monthStart && q.monthEnd == r.monthEnd
    ensures ProjectionFits(f, q, t) <==> CountersTake(f, r, q.actual, t)
  {
    hide Names, Windows, WindowEnd, NamesAccount, InWindow, Fold, Contribution, Measured;
    forall a, w, d | Counter(d)
      ensures a in Names(q) <==> NamesAccount(r, a)
      ensures w in Windows(q) && WindowEnd(q, w) > t <==> InWindow(r, w, t)
      ensures Contribution(q, d) == Measured(r.bound, q.actual, d)
    {
      SettledMeaning(r, q, a, w, t, d);
    }
    forall a, w ensures a in Names(q) <==> NamesAccount(r, a)
      ensures w in Windows(q) && WindowEnd(q, w) > t <==> InWindow(r, w, t)
    {
      SettledMeaning(r, q, a, w, t, TokensUsed);
    }
    if CountersTake(f, r, q.actual, t) {
      forall a, w | a in Names(q) && w in Windows(q) && WindowEnd(q, w) > t ensures Fits(f, a, w, q) {}
    }
    if ProjectionFits(f, q, t) {
      forall a, w, d | NamesAccount(r, a) && InWindow(r, w, t) && Counter(d)
        ensures Fold(f, a, w, d) + Measured(r.bound, q.actual, d) <= MAX_INT64
      {
        assert Fits(f, a, w, q);
      }
    }
  }

  /** A settlement succeeds exactly when it is well-formed, the journal is active, and either it is the
      one already accepted, or the request is running, the currency is the bound's, and every counter
      has room. */
  lemma CompletionIff(f: Core, cfg: Config, id: Id, payload: Payload, s: Settlement, now: int)
    requires Inv(f, cfg)
    ensures CompleteQuota(f, cfg, id, payload, s, now).status == Ok <==>
              && ValidKey(id) && 0 < |payload| <= cfg.maxPayload && ValidSettlement(s)
              && f.version == V2 && id in f.receipts
              && var r := f.receipts[id];
                 if r.state != Active then r.digest == Some(Digest(s, payload))
                 else
                   && (s.money.Some? && r.bound.money.Some? ==> s.currency == r.bound.currency)
                   && 0 < now && CountersTake(f, r, s, if now < f.clock then f.clock else now)
  {
    hide FoldsFit, ExpiryOk, LeasesOk, EventsOk, SwitchOk, ProjectionFits, ValidKey, WellFormed, CountersTake, Project;
    hide ValidSettlement;
    if id in f.receipts {
      assert ReceiptOk(f, cfg, id);
      var r := f.receipts[id];
      if r.state == Active {
        var t := if now < f.clock then f.clock else now;
        var q := Settle(r, s, payload, Complete);
        TakenMeaning(f, r, q, t);
        ProjectFrame(f, q, t);
      }
    }
  }

  /** What a first settlement does: the receipt records it, an excess bars the bound's revision, the
      fact is delivered with its lease released, and nothing else changes but clock and index. */
  lemma CompletionEffects(f: Core, cfg: Config, id: Id, payload: Payload, s: Settlement, now: int)
    requires Inv(f, cfg) && id in f.receipts && f.receipts[id].state == Active
    requires CompleteQuota(f, cfg, id, payload, s, now).status == Ok
    ensures var g, r := CompleteQuota(f, cfg, id, payload, s, now).core, f.receipts[id];
            && g.receipts == f.receipts[id := r.(state := Complete, actual := s, recovery := NO_SETTLEMENT,
                                                 digest := Some(Digest(s, payload)), overrun := Exceeds(s, r.bound))]
            && g.invalid == (if Exceeds(s, r.bound) && r.bound.revision != "" then f.invalid[r.bound.revision := id]
                             else f.invalid)
            && g.ready == f.ready[id := payload] && g.pending == f.pending - {id} && g.leases == f.leases - {id}
            && g.clock == (if now < f.clock then f.clock else now)
            && g == f.(receipts := g.receipts, invalid := g.invalid, ready := g.ready, pending := g.pending,
                       leases := g.leases, clock := g.clock, expiry := g.expiry)
  {
    hide Inv, ProjectionFits, ChargeKeys, CompleteQuota, Overran, Exceeds;
    var t, q := CompleteQuotaParts(f, cfg, id, payload, s, now);
    NotOverrun(f, cfg, id);
    ExceedsMeaning(f, cfg, id, payload, s, now);
  }

  lemma NotOverrun(f: Core, cfg: Config, id: Id)
    requires Inv(f, cfg) && id in f.receipts && f.receipts[id].state == Active
    ensures !f.receipts[id].overrun && f.receipts[id].id == id
  {
    hide FoldsFit, ExpiryOk, LeasesOk, EventsOk, SwitchOk, FactsOk, ModeOk, WellFormed;
    assert ReceiptOk(f, cfg, id);
  }

  lemma ExceedsMeaning(f: Core, cfg: Config, id: Id, payload: Payload, s: Settlement, now: int)
    requires Inv(f, cfg) && id in f.receipts && f.receipts[id].state == Active
    requires CompleteQuota(f, cfg, id, payload, s, now).status == Ok
    ensures Overran(f.receipts[id].bound, s) <==> Exceeds(s, f.receipts[id].bound)
  {
    hide Inv, QuotaUnits, CompleteQuota;
    ReadableMoney(f, cfg, id, payload, s, now);
  }

  /** What it files: one charge for every open window of every account, at that window's end, and the
      retirement of the receipt at the end of its last window. */
  lemma CompletionFiles(f: Core, cfg: Config, id: Id, payload: Payload, s: Settlement, now: int, k: ExpiryKey)
    requires Inv(f, cfg) && id in f.receipts && f.receipts[id].state == Active
    requires CompleteQuota(f, cfg, id, payload, s, now).status == Ok
    ensures var g, r := CompleteQuota(f, cfg, id, payload, s, now).core, f.receipts[id];
            k in g.expiry <==>
              || k in f.expiry
              || (k.id == id && match k
                  case Charge(at, a, w, _) =>
                    NamesAccount(r, a) && InWindow(r, w, g.clock) && !InWindow(r, w, at) && InWindow(r, w, at - 1)
                  case Retire(at, _) =>
                    at == if r.monthEnd < r.admittedAt + 604_800_000_000_000 then r.admittedAt + 604_800_000_000_000
                          else r.monthEnd)
  {
    hide Inv, ProjectionFits, CompleteQuota;
    var t, q := CompleteQuotaParts(f, cfg, id, payload, s, now);
    NotOverrun(f, cfg, id);
    FiledMeaning(f.receipts[id], q, t, k);
  }

  lemma FiledMeaning(r: Receipt, q: Receipt, t: int, k: ExpiryKey)
    requires q.id == r.id && q.accounts == r.accounts && q.admittedAt == r.admittedAt
    requires q.monthStart == r.monthStart && q.monthEnd == r.monthEnd
    ensures k in ChargeKeys(q, t) + {Retire(Latest(q), q.id)} <==>
              && k.id == r.id
              && match k
                 case Charge(at, a, w, _) =>
                   NamesAccount(r, a) && InWindow(r, w, t) && !InWindow(r, w, at) && InWindow(r, w, at - 1)
                 case Retire(at, _) =>
                   at == if r.monthEnd < r.admittedAt + 604_800_000_000_000 then r.admittedAt + 604_800_000_000_000
                         else r.monthEnd
  {
    if k.Charge? {
      WindowMeaning(q, k.account, k.window, t);
      SameAccounts(q, r, k.account);
      if k.account in Names(q) && k.window in Windows(q) && WindowEnd(q, k.window) > t {
        assert Charge(WindowEnd(q, k.window), k.account, k.window, q.id) in ChargeKeys(q, t);
      }
    }
  }

  // ---------- admission ----------

  /** An admission reserves its bound in flight for exactly the accounts its policies name, and each
      window keeps exactly what still counts there. */
  lemma AdmissionReserves(f: Core, cfg: Config, id: Id, payload: Payload, ps: seq<Policy>, b: Bound,
                          recovery: Settlement, now: int, a: Account, w: Window, d: Dim)
    requires Inv(f, cfg) && Stored(d) && w != InFlight
    requires ReserveWithQuota(f, cfg, id, payload, ps, b, recovery, now).status == Ok
    ensures var g := ReserveWithQuota(f, cfg, id, payload, ps, b, recovery, now).core;
            && Fold(g, a, InFlight, d) == Fold(f, a, InFlight, d)
               + (if exists i :: 0 <= i < |ps| && ps[i].limit.account == a then Measured(b, NO_SETTLEMENT, d) else 0)
            && Fold(g, a, w, d) == Amounts(f, SettledIn(f, a, w, LogicalTime(f, now)), d)
  {
    hide Inv, Fold, CheckQuotaAdmission, InFlightFits, Contribution, Measured, Names, Establish, PruneQuota, LiveEvents;
    hide SettledIn, Amounts, NewEvents, PolicyAccounts;
    var h, r := ReserveQuotaParts(f, cfg, id, payload, ps, b, recovery, now);
    CheckedCore(f, cfg, id, ps, b, "", now, h, r);
    CheckedFields(f, cfg, id, ps, b, "", now, h, r);
    var g := ReserveWithQuota(f, cfg, id, payload, ps, b, recovery, now).core;
    var q := r.(recovery := recovery);
    assert f.version == V2;
    CheckedAmounts(f, cfg, r.admittedAt, a, w, d);
    assert id !in h.receipts by { PrunedFields(PruneLimits(f, r.admittedAt), r.admittedAt); }
    assert ExpiryOk(h) by { IndexOk(h, cfg); }
    InsertFold(h, g, q, a, w, d);
    InsertFold(h, g, q, a, InFlight, d);
    NamesOfPolicies(q, ps);
    CountedAsMeasured(q, d);
  }

  lemma CheckedAmounts(f: Core, cfg: Config, t: int, a: Account, w: Window, d: Dim)
    requires Inv(f, cfg) && Stored(d) && w != InFlight && 0 < t && f.clock <= t
    ensures var h := PruneQuota(PruneLimits(f, t), t);
            && Fold(h, a, w, d) == Amounts(f, SettledIn(f, a, w, t), d)
            && Fold(h, a, InFlight, d) == Fold(f, a, InFlight, d)
  {
    hide Inv, PruneQuota, LiveEvents, NamesAccount, InWindow, Contribution, Names;
    var p := PruneLimits(f, t);
    PruneLimitsKeeps(f, cfg, t);
    WindowAmounts(p, cfg, a, w, d);
    assert SettledIn(p, a, w, t) == SettledIn(f, a, w, t);
    PruneInFlight(p, cfg, t, a);
    PrunedFields(p, t);
    SumSame(PruneQuota(p, t).receipts, f.receipts, Charged(p, a, InFlight), d);
  }

  // ---------- startup ----------

  /** The running requests of account a that startup would charge to window w. */
  function InterruptedIn(f: Core, a: Account, w: Window): (ids: set<Id>)
  {
    set id | id in f.receipts && f.receipts[id].state == Active
             && NamesAccount(f.receipts[id], a) && InWindow(f.receipts[id], w, f.clock)
  }

  /** What they count for, settled with the crash settlements that were stored for them. */
  ghost function InterruptedAmounts(f: Core, a: Account, w: Window, d: Dim): (n: int)
    requires Stored(d)
  {
    Total(map id | id in InterruptedIn(f, a, w) :: Measured(f.receipts[id].bound, f.receipts[id].recovery, d))
  }

  /** After startup every window of every account holds exactly what its settled requests count for
      and what each interrupted one counts for with its stored crash settlement: measured amounts as
      used, the others at exactly their bounds; nothing is in flight. */
  lemma RecoveredAmounts(f: Core, cfg: Config, a: Account, w: Window, d: Dim)
    requires Inv(f, cfg) && f.version == V2 && Open(f).status == Ok && w != InFlight && Stored(d)
    ensures Fold(Open(f).core, a, w, d)
         == Amounts(f, SettledIn(f, a, w, f.clock), d) + InterruptedAmounts(f, a, w, d)
    ensures Fold(Open(f).core, a, InFlight, d) == 0
  {
    hide Inv, Fold, Rebuild, ReplayPending, PruneQuota, FoldsFit, SettledIn, InterruptedIn, Amounts, InterruptedAmounts;
    var h := ReplayPending(Rebuild(f));
    OpenQuotaKeeps(f, cfg);
    ReplayedFields(f);
    WindowAmounts(h, cfg, a, w, d);
    RecoveredSplit(f, cfg, h, a, w, d);
    RecoveredInFlight(f, cfg, h, a, d);
  }

  lemma RecoveredInFlight(f: Core, cfg: Config, h: Core, a: Account, d: Dim)
    requires Inv(f, cfg) && Inv(h, cfg) && h.receipts.Keys == f.receipts.Keys && Stored(d)
    requires forall id :: id in f.receipts ==> h.receipts[id] == Interrupt(f.receipts[id], f.pending)
    ensures Fold(PruneQuota(h, h.clock), a, InFlight, d) == 0
  {
    hide Inv, Interrupt, Names, PruneQuota;
    forall id | id in h.receipts ensures Terminal(h.receipts[id]) { InterruptedReceipt(f, cfg, id); }
    PruneInFlight(h, cfg, h.clock, a);
    assert Charged(PruneQuota(h, h.clock), a, InFlight) == {};
    assert Weights(PruneQuota(h, h.clock).receipts, {}, d) == map[];
  }

  lemma RecoveredReceipt(f: Core, cfg: Config, h: Core, a: Account, w: Window, id: Id, d: Dim)
    requires Inv(f, cfg) && h.clock == f.clock && h.receipts.Keys == f.receipts.Keys && Stored(d)
    requires id in f.receipts && h.receipts[id] == Interrupt(f.receipts[id], f.pending)
    ensures h.receipts[id].state != Active
    ensures NamesAccount(h.receipts[id], a) == NamesAccount(f.receipts[id], a)
    ensures InWindow(h.receipts[id], w, h.clock) == InWindow(f.receipts[id], w, f.clock)
    ensures Measured(h.receipts[id].bound, Told(h.receipts[id]), d)
         == Measured(f.receipts[id].bound,
                     if f.receipts[id].state == Active then f.receipts[id].recovery else f.receipts[id].actual, d)
  {
    hide Inv, Measured;
    InterruptedDescends(f, cfg, id);
    SameAccounts(h.receipts[id], f.receipts[id], a);
  }

  lemma AmountsSplit(h: Core, ids: set<Id>, jds: set<Id>, d: Dim)
    requires Stored(d) && ids !! jds && ids + jds <= h.receipts.Keys
    ensures Amounts(h, ids + jds, d) == Amounts(h, ids, d) + Amounts(h, jds, d)
  {
    hide Measured, Contribution, Amounts;
    AmountsAreWeights(h, ids + jds, d);
    AmountsAreWeights(h, ids, d);
    AmountsAreWeights(h, jds, d);
    SumUnion(h.receipts, ids, jds, d);
  }

  lemma RecoveredSplit(f: Core, cfg: Config, h: Core, a: Account, w: Window, d: Dim)
    requires Inv(f, cfg) && h.clock == f.clock && h.receipts.Keys == f.receipts.Keys && Stored(d)
    requires forall id :: id in f.receipts ==> h.receipts[id] == Interrupt(f.receipts[id], f.pending)
    ensures Amounts(h, SettledIn(h, a, w, h.clock), d)
         == Amounts(f, SettledIn(f, a, w, f.clock), d) + InterruptedAmounts(f, a, w, d)
  {
    hide Inv, Interrupt, Measured, NamesAccount, InWindow, Amounts, InterruptedAmounts;
    var settled, running := SettledIn(f, a, w, f.clock), InterruptedIn(f, a, w);
    forall id | id in f.receipts ensures id in SettledIn(h, a, w, h.clock) <==> id in settled + running {
      RecoveredReceipt(f, cfg, h, a, w, id, d);
    }
    assert SettledIn(h, a, w, h.clock) == settled + running;
    AmountsSplit(h, settled, running, d);
    RecoveredSettled(f, cfg, h, a, w, d);
    RecoveredRunning(f, cfg, h, a, w, d);
  }

  lemma RecoveredSettled(f: Core, cfg: Config, h: Core, a: Account, w: Window, d: Dim)
    requires Inv(f, cfg) && h.clock == f.clock && h.receipts.Keys == f.receipts.Keys && Stored(d)
    requires forall id :: id in f.receipts ==> h.receipts[id] == Interrupt(f.receipts[id], f.pending)
    ensures Amounts(h, SettledIn(f, a, w, f.clock), d) == Amounts(f, SettledIn(f, a, w, f.clock), d)
  {
    hide Inv, Interrupt, Measured, NamesAccount, InWindow;
    var ids := SettledIn(f, a, w, f.clock);
    forall id | id in ids ensures Measured(h.receipts[id].bound, Told(h.receipts[id]), d)
                               == Measured(f.receipts[id].bound, Told(f.receipts[id]), d)
    {
      RecoveredReceipt(f, cfg, h, a, w, id, d);
    }
    assert (map id | id in ids && id in h.receipts :: Measured(h.receipts[id].bound, Told(h.receipts[id]), d))
        == map id | id in ids && id in f.receipts :: Measured(f.receipts[id].bound, Told(f.receipts[id]), d);
  }

  lemma RecoveredRunning(f: Core, cfg: Config, h: Core, a: Account, w: Window, d: Dim)
    requires Inv(f, cfg) && h.clock == f.clock && h.receipts.Keys == f.receipts.Keys && Stored(d)
    requires forall id :: id in f.receipts ==> h.receipts[id] == Interrupt(f.receipts[id], f.pending)
    ensures Amounts(h, InterruptedIn(f, a, w), d) == InterruptedAmounts(f, a, w, d)
  {
    hide Inv, Interrupt, Measured, NamesAccount, InWindow, Amounts, InterruptedAmounts;
    var ids := InterruptedIn(f, a, w);
    forall id | id in ids ensures Measured(h.receipts[id].bound, Told(h.receipts[id]), d)
                               == Measured(f.receipts[id].bound, f.receipts[id].recovery, d)
    {
      RecoveredReceipt(f, cfg, h, a, w, id, d);
    }
    RunningTotals(f, h, a, w, d);
  }

  lemma InterruptedHave(f: Core, a: Account, w: Window)
    ensures forall id :: id in InterruptedIn(f, a, w) ==> id in f.receipts
  {
    hide NamesAccount, InWindow;
  }

  lemma RunningTotals(f: Core, h: Core, a: Account, w: Window, d: Dim)
    requires Stored(d) && h.receipts.Keys == f.receipts.Keys
    requires forall id :: id in InterruptedIn(f, a, w) ==>
               Measured(h.receipts[id].bound, Told(h.receipts[id]), d)
               == Measured(f.receipts[id].bound, f.receipts[id].recovery, d)
    ensures Amounts(h, InterruptedIn(f, a, w), d) == InterruptedAmounts(f, a, w, d)
  {
    hide Measured, NamesAccount, InWindow, Told, InterruptedIn, Total;
    var ids := InterruptedIn(f, a, w);
    assert forall id :: id in ids ==> id in f.receipts by { InterruptedHave(f, a, w); }
    var m := map id | id in ids && id in h.receipts :: Measured(h.receipts[id].bound, Told(h.receipts[id]), d);
    var n := map id | id in ids :: Measured(f.receipts[id].bound, f.receipts[id].recovery, d);
    assert m.Keys == n.Keys;
    assert m == n;
  }
}
