/** The journal's operations stated over its facts alone. Where the program reads an
    incremental count or counter, these functions count events, leases and receipts directly;
    Journal.dfy proves the program's own form equal to them. */
module Ledger {
  import opened Wrappers
  import opened Decimals
  import opened LedgerTypes
  import opened Totals

  /** One transaction: a status, and the core that is committed. Errors roll back. */
  datatype Outcome = Outcome(status: Status, core: Core)

  function Fail(f: Core, s: Status): (o: Outcome) { Outcome(s, f) }

  // ---------- counting ----------

  function EventsOf(events: set<Event>, a: Account): (s: set<Event>)
  {
    set e | e in events && e.account == a
  }

  function LeasesOf(leases: map<Id, seq<Account>>, a: Account): (s: set<Id>)
  {
    set id | id in leases && a in leases[id]
  }

  /** The receipts charged to account a in window w. */
  function Charged(f: Core, a: Account, w: Window): (ids: set<Id>)
  {
    if w.InFlight? then
      set id | id in f.receipts && !Terminal(f.receipts[id]) && a in Names(f.receipts[id])
    else
      set k | k in f.expiry && k.Charge? && k.account == a && k.window == w :: k.id
  }

  function Weight(rs: map<Id, Receipt>, id: Id, d: Dim): (n: int)
  {
    if id in rs then Contribution(rs[id], d) else 0
  }

  function Weights(rs: map<Id, Receipt>, ids: set<Id>, d: Dim): (m: map<Id, int>)
  {
    map id | id in ids :: Weight(rs, id, d)
  }

  ghost function WeightSum(rs: map<Id, Receipt>, ids: set<Id>, d: Dim): (n: int)
  {
    Total(Weights(rs, ids, d))
  }

  /** The fold of dimension d over the receipts charged to (a, w). */
  ghost function Fold(f: Core, a: Account, w: Window, d: Dim): (n: int)
  {
    WeightSum(f.receipts, Charged(f, a, w), d)
  }

  /** Adding r to (a, w) keeps every 64-bit counter in range. */
  ghost predicate Fits(f: Core, a: Account, w: Window, r: Receipt)
  {
    forall d :: d in {TokensUsed, TokensHeld, TokensUnknown, MoneyUnknown} ==>
      Fold(f, a, w, d) + Contribution(r, d) <= MAX_INT64
  }

  // ---------- validation ----------

  predicate ValidEntry(cfg: Config, id: Id, payload: Payload)
  {
    ValidKey(id) && 0 < |payload| <= cfg.maxPayload
  }

  predicate ValidMoney(money: Option<string>, currency: string)
  {
    money.Some? ==> QuotaUnits(money.value).Some? && ValidCurrency(currency)
  }

  predicate ValidBound(b: Bound)
  {
    && (b.tokens.Some? ==> 0 <= b.tokens.value)
    && ValidMoney(b.money, b.currency)
    && (b.revision == "" || ValidKey(b.revision))
    && |b.priceRevision| <= 64
    && (b.basisDigest == "" || ValidHexDigest(b.basisDigest))
  }

  predicate ValidSettlement(s: Settlement)
  {
    (s.tokens.Some? ==> 0 <= s.tokens.value) && ValidMoney(s.money, s.currency)
  }

  /** A crash settlement must stay within the admitted bound. */
  function RecoveryStatus(b: Bound, s: Settlement): (r: Status)
  {
    if s.tokens.Some? && b.tokens.Some? && s.tokens.value > b.tokens.value then ErrQuotaBound
    else if s.money.None? || b.money.None? then Ok
    else if s.currency != b.currency then ErrQuotaCurrency
    else if Units(s.money.value) > Units(b.money.value) then ErrQuotaBound
    else Ok
  }

  function QuotaMonth(cfg: Config, zone: string, t: int): (r: Option<(int, int)>)
  {
    if !cfg.loads(zone) then None
    else
      var m := cfg.month(zone, t);
      if m.0 < 0 || m.1 <= t then None else Some(m)
  }

  /** m is a month that holds t, and the month of every instant it spans. */
  ghost predicate MonthOf(cfg: Config, zone: string, t: int, m: (int, int))
  {
    m.0 <= t < m.1 && forall u :: m.0 <= u < m.1 ==> QuotaMonth(cfg, zone, u) == Some(m)
  }

  /** The months of every zone partition the time they cover. */
  ghost predicate CalendarOk(cfg: Config)
  {
    forall zone, t :: QuotaMonth(cfg, zone, t).Some? ==> MonthOf(cfg, zone, t, QuotaMonth(cfg, zone, t).value)
  }

  /** Metadata of an active journal, or why quota operations are refused. */
  function MetadataStatus(f: Core, cfg: Config): (s: Status)
  {
    if f.version != V2 then ErrQuotaInactive
    else if f.coverage <= 0 || f.zone == "" || !cfg.loads(f.zone) then ErrInvalid
    else Ok
  }

  /** The stored clock never runs backwards. */
  function LogicalTime(f: Core, now: int): (t: int) { if now < f.clock then f.clock else now }

  // ---------- pruning ----------

  function LiveEvents(events: set<Event>, t: int): (s: set<Event>)
  {
    set e | e in events && e.at > t - MINUTE
  }

  predicate Due(f: Core, t: int, k: ExpiryKey)
  {
    k.at <= t && (k.Charge? || (k.id !in f.ready && k.id !in f.pending))
  }

  function RetiredIds(f: Core, t: int): (s: set<Id>)
  {
    set k | k in f.expiry && k.Retire? && Due(f, t, k) :: k.id
  }

  /** Charges whose window ended are dropped; receipts are dropped once every window ended
      and their fact was acknowledged. */
  function PruneQuota(f: Core, t: int): (g: Core)
  {
    f.(expiry := (set k | k in f.expiry && !Due(f, t, k)), receipts := f.receipts - RetiredIds(f, t))
  }

  function PruneLimits(f: Core, t: int): (g: Core) { f.(clock := t, events := LiveEvents(f.events, t)) }

  // ---------- limits ----------

  datatype Admission = Rejected(status: Status) | Admitted(core: Core, instant: int)

  function LimitStatus(f: Core, limits: seq<Limit>, i: nat): (s: Status)
    requires i < |limits|
  {
    var l := limits[i];
    if !ValidKey(l.account) || (exists j :: 0 <= j < i && limits[j].account == l.account) then ErrInvalid
    else if l.rpm.Some? && (l.rpm.value < 0 || |EventsOf(f.events, l.account)| >= l.rpm.value) then ErrRateLimit
    else if l.concurrency.Some? && (l.concurrency.value < 0 || |LeasesOf(f.leases, l.account)| >= l.concurrency.value)
    then ErrConcurrency
    else Ok
  }

  function LimitsStatus(f: Core, limits: seq<Limit>, i: nat): (s: Status)
    requires i <= |limits|
    decreases |limits| - i
  {
    if i == |limits| then Ok else Then(LimitStatus(f, limits, i), LimitsStatus(f, limits, i + 1))
  }

  function CheckLimits(f: Core, cfg: Config, id: Id, limits: seq<Limit>, now: int): (r: Admission)
    ensures r.Rejected? ==> r.status != Ok
  {
    if id in f.pending || id in f.ready then Rejected(ErrInvalid)
    else if |f.pending| + |f.ready| >= cfg.capacity then Rejected(ErrFull)
    else if now <= 0 then Rejected(ErrInvalid)
    else
      var t := LogicalTime(f, now);
      var g := PruneLimits(f, t);
      if |g.events| + |limits| > LIMIT_HISTORY_CAPACITY then Rejected(ErrFull)
      else
        var s := LimitsStatus(g, limits, 0);
        if s != Ok then Rejected(s) else Admitted(g, t)
  }

  function LimitAccounts(limits: seq<Limit>): (s: seq<Account>)
  {
    seq(|limits|, i requires 0 <= i < |limits| => limits[i].account)
  }

  function NewEvents(id: Id, t: int, accounts: seq<Account>): (s: set<Event>)
  {
    set i | 0 <= i < |accounts| :: Event(t, id, accounts[i])
  }

  /** Consumes RPM, takes the leases and stores the fallback fact. */
  function ApplyAdmission(f: Core, id: Id, payload: Payload, t: int, accounts: seq<Account>): (g: Core)
  {
    f.(events := f.events + NewEvents(id, t, accounts),
       leases := f.leases[id := accounts],
       pending := f.pending[id := payload])
  }

  // ---------- plain queue operations ----------

  function Reserve(f: Core, cfg: Config, id: Id, payload: Payload): (o: Outcome)
  {
    if !ValidEntry(cfg, id, payload) then Fail(f, ErrInvalid)
    else if id in f.receipts then Fail(f, ErrQuotaConflict)
    else if id in f.pending || id in f.ready then Fail(f, ErrInvalid)
    else if |f.pending| + |f.ready| >= cfg.capacity then Fail(f, ErrFull)
    else Outcome(Ok, f.(pending := f.pending[id := payload]))
  }

  function UpdatePending(f: Core, cfg: Config, id: Id, payload: Payload): (o: Outcome)
  {
    if !ValidEntry(cfg, id, payload) then Fail(f, ErrInvalid)
    else if id in f.ready || id !in f.pending then Fail(f, ErrMissing)
    else Outcome(Ok, f.(pending := f.pending[id := payload]))
  }

  /** Moves a pending fact to ready and releases its lease; a ready fact is left alone. */
  function Deliver(f: Core, id: Id, payload: Payload): (o: Outcome)
  {
    if id in f.ready then Outcome(Ok, f)
    else if id !in f.pending then Fail(f, ErrMissing)
    else Outcome(Ok, f.(ready := f.ready[id := payload], leases := f.leases - {id}, pending := f.pending - {id}))
  }

  function CompletePlain(f: Core, cfg: Config, id: Id, payload: Payload): (o: Outcome)
  {
    if !ValidEntry(cfg, id, payload) then Fail(f, ErrInvalid)
    else if id in f.receipts then Fail(f, ErrQuotaRequired)
    else Deliver(f, id, payload)
  }

  function Ack(f: Core, id: Id): (o: Outcome)
  {
    if !ValidKey(id) then Fail(f, ErrInvalid) else Outcome(Ok, f.(ready := f.ready - {id}))
  }

  function ReserveWithLimits(f: Core, cfg: Config, id: Id, payload: Payload, limits: seq<Limit>, now: int)
    : (o: Outcome)
  {
    if !ValidEntry(cfg, id, payload) || |limits| > MAX_ACCOUNTS then Fail(f, ErrInvalid)
    else if f.version == V2 then Fail(f, ErrQuotaRequired)
    else
      match CheckLimits(f, cfg, id, limits, now)
      case Rejected(s) => Fail(f, s)
      case Admitted(g, t) => Outcome(Ok, ApplyAdmission(g, id, payload, t, LimitAccounts(limits)))
  }

  /** AccountUsage: advances the clock and prunes RPM events. */
  function ObserveLimits(f: Core, now: int): (o: Outcome)
  {
    if now <= 0 then Fail(f, ErrInvalid) else Outcome(Ok, PruneLimits(f, LogicalTime(f, now)))
  }

  // ---------- quota admission ----------

  function EnableQuota(f: Core, cfg: Config, zone: string, now: int): (o: Outcome)
  {
    if zone == "" || !cfg.loads(zone) then Fail(f, ErrInvalid)
    else if f.version == V2 then
      Fail(f, Then(MetadataStatus(f, cfg), if f.zone != zone then ErrQuotaConflict else Ok))
    else if now <= 0 then Fail(f, ErrInvalid)
    else
      var t := LogicalTime(f, now);
      Outcome(Ok, f.(version := V2, clock := t, zone := zone, coverage := t,
                     receipts := map[], expiry := {}, births := map[], invalid := map[]))
  }

  function Created(p: Policy): (t: int) { if p.createdAt.Some? then p.createdAt.value else 0 }

  /** A capped token window of a policy: its name, where it starts and its ceiling. */
  datatype TokenWindow = TokenWindow(window: Window, start: int, ceiling: Option<Int64>)

  function TokenWindows(p: Policy, t: int, monthStart: int): (s: seq<TokenWindow>)
  {
    [TokenWindow(Minute, t - MINUTE, p.tpm),
     TokenWindow(FiveHours, t - FIVE_HOURS, p.tokens5H),
     TokenWindow(SevenDays, t - SEVEN_DAYS, p.tokens7D),
     TokenWindow(Month(monthStart), monthStart, p.tokensMonth)]
  }

  predicate SoftTokens(p: Policy, w: Window) { w.Month? && p.tokensBehavior == AlertOnly }

  /** Tokens settled or held in window w, plus everything in flight. */
  ghost function TokenLoad(f: Core, a: Account, w: Window): (n: int)
  {
    Fold(f, a, w, TokensUsed) + Fold(f, a, w, TokensHeld)
    + Fold(f, a, InFlight, TokensUsed) + Fold(f, a, InFlight, TokensHeld)
  }

  ghost function MoneyLoad(f: Core, a: Account, w: Window, c: string): (n: int)
  {
    Fold(f, a, w, MoneyUsed(c)) + Fold(f, a, w, MoneyHeld(c))
    + Fold(f, a, InFlight, MoneyUsed(c)) + Fold(f, a, InFlight, MoneyHeld(c))
  }

  ghost function TokenStatus(f: Core, p: Policy, b: Bound, coverage: int, tw: TokenWindow): (s: Status)
  {
    var a := p.limit.account;
    if tw.ceiling.None? then Ok
    else if tw.ceiling.value < 0 then ErrInvalid
    else if tw.ceiling.value == 0 && !SoftTokens(p, tw.window) then ErrQuotaTokens
    else if tw.start < coverage && Created(p) < coverage then ErrQuotaCoverage
    else if b.tokens.None? then ErrQuotaBound
    else if Fold(f, a, tw.window, TokensUnknown) > 0 || Fold(f, a, InFlight, TokensUnknown) > 0 then ErrQuotaUnknown
    else if !SoftTokens(p, tw.window) && TokenLoad(f, a, tw.window) + b.tokens.value > tw.ceiling.value
    then ErrQuotaTokens
    else Ok
  }

  ghost function TokensStatus(f: Core, p: Policy, b: Bound, coverage: int, tws: seq<TokenWindow>, i: nat): (s: Status)
    requires i <= |tws|
    decreases |tws| - i
  {
    if i == |tws| then Ok
    else Then(TokenStatus(f, p, b, coverage, tws[i]), TokensStatus(f, p, b, coverage, tws, i + 1))
  }

  /** Some amount charged to a in w, or in flight, is in a currency other than c. */
  ghost predicate ForeignMoney(f: Core, a: Account, w: Window, c: string)
  {
    exists other: string :: other != c && MoneyLoad(f, a, w, other) > 0
  }

  ghost function MoneyStatus(f: Core, p: Policy, b: Bound, coverage: int, monthStart: int): (s: Status)
  {
    var a := p.limit.account;
    var w := Month(monthStart);
    if p.moneyMonth.None? then Ok
    else if QuotaUnits(p.moneyMonth.value).None? then ErrInvalid
    else if Units(p.moneyMonth.value) == 0 && p.moneyBehavior != AlertOnly then ErrQuotaMoney
    else if !ValidCurrency(p.currency) then ErrInvalid
    else if monthStart < coverage && Created(p) < coverage then ErrQuotaCoverage
    else if b.money.None? then ErrQuotaBound
    else if b.currency != p.currency then ErrQuotaCurrency
    else if Fold(f, a, w, MoneyUnknown) > 0 || Fold(f, a, InFlight, MoneyUnknown) > 0 then ErrQuotaUnknown
    else if ForeignMoney(f, a, w, p.currency) then ErrQuotaCurrency
    else if p.moneyBehavior != AlertOnly
            && MoneyLoad(f, a, w, p.currency) + Units(b.money.value) > Units(p.moneyMonth.value)
    then ErrQuotaMoney
    else Ok
  }

  predicate Constrained(p: Policy)
  {
    p.tpm.Some? || p.tokens5H.Some? || p.tokens7D.Some? || p.tokensMonth.Some? || p.moneyMonth.Some?
  }

  predicate BehaviorsAllowed(p: Policy)
  {
    && p.tokensBehavior != Unrecognized && p.moneyBehavior != Unrecognized
    && p.proofsConsistent
    && (p.tokensBehavior == AlertOnly || p.moneyBehavior == AlertOnly ==> p.monthlyProof)
  }

  /** Everything checkQuota reads before it looks at any counter. */
  function IdentityStatus(births: map<Account, int>, p: Policy, t: int): (s: Status)
  {
    if !BehaviorsAllowed(p) then ErrInvalid
    else if !ValidKey(p.revision) then ErrInvalid
    else if p.createdAt.Some? && (p.createdAt.value <= 0 || p.createdAt.value > t) then ErrInvalid
    else if p.limit.account in births && births[p.limit.account] != Created(p) then ErrQuotaConflict
    else Ok
  }

  function RevisionStatus(f: Core, p: Policy, b: Bound): (s: Status)
  {
    if Constrained(p) && (b.revision == "" || b.revision in f.invalid) then ErrQuotaBound else Ok
  }

  ghost function PolicyStatus(f: Core, p: Policy, b: Bound, coverage: int, t: int, monthStart: int): (s: Status)
  {
    Then(IdentityStatus(f.births, p, t),
    Then(TokensStatus(f, p, b, coverage, TokenWindows(p, t, monthStart), 0),
    Then(MoneyStatus(f, p, b, coverage, monthStart),
         RevisionStatus(f, p, b))))
  }

  ghost function PoliciesStatus(f: Core, ps: seq<Policy>, b: Bound, coverage: int, t: int, monthStart: int, i: nat)
    : (s: Status)
    requires i <= |ps|
    decreases |ps| - i
  {
    if i == |ps| then Ok
    else Then(PolicyStatus(f, ps[i], b, coverage, t, monthStart),
              PoliciesStatus(f, ps, b, coverage, t, monthStart, i + 1))
  }

  function PolicyLimits(ps: seq<Policy>): (s: seq<Limit>)
  {
    seq(|ps|, i requires 0 <= i < |ps| => ps[i].limit)
  }

  function PolicyAccounts(ps: seq<Policy>): (s: seq<QuotaAccount>)
  {
    seq(|ps|, i requires 0 <= i < |ps| => QuotaAccount(ps[i].limit.account, ps[i].revision))
  }

  datatype QuotaAdmission = QuotaRejected(status: Status) | QuotaAdmitted(core: Core, receipt: Receipt)

  /** The common check of preflight and admission. previewZone is "" for an admission. */
  ghost function CheckQuotaAdmission(f: Core, cfg: Config, id: Id, ps: seq<Policy>, b: Bound,
                                     previewZone: string, now: int): (r: QuotaAdmission)
    ensures r.QuotaRejected? ==> r.status != Ok
  {
    if f.version == V2 && MetadataStatus(f, cfg) != Ok then QuotaRejected(MetadataStatus(f, cfg))
    else if f.version == V2 && previewZone != "" && f.zone != previewZone then QuotaRejected(ErrQuotaConflict)
    else if f.version == V1 && previewZone == "" then QuotaRejected(ErrQuotaInactive)
    else if id in f.receipts then QuotaRejected(ErrQuotaConflict)
    else
      match CheckLimits(f, cfg, id, PolicyLimits(ps), now)
      case Rejected(s) => QuotaRejected(s)
      case Admitted(g, t) =>
        var h := if f.version == V2 then PruneQuota(g, t) else g;
        var zone := if f.version == V2 then f.zone else previewZone;
        var coverage := if f.version == V2 then f.coverage else t;
        if f.version == V2 && |h.receipts| >= cfg.quotaCapacity then QuotaRejected(ErrFull)
        else if QuotaMonth(cfg, zone, t).None? then QuotaRejected(ErrInvalid)
        else if t > MAX_INT64 - SEVEN_DAYS then QuotaRejected(ErrInvalid)
        else
          var (start, end) := QuotaMonth(cfg, zone, t).value;
          var s := PoliciesStatus(h, ps, b, coverage, t, start, 0);
          if s != Ok then QuotaRejected(s)
          else
            QuotaAdmitted(h, Receipt(id, t, start, end, PolicyAccounts(ps), b, Active,
                                     NO_SETTLEMENT, NO_SETTLEMENT, None, false))
  }

  /** Accounts seen for the first time record the creation time their policy states. */
  function Establish(births: map<Account, int>, ps: seq<Policy>, n: nat): (m: map<Account, int>)
    requires n <= |ps|
  {
    if n == 0 then births
    else
      var before := Establish(births, ps, n - 1);
      var a := ps[n - 1].limit.account;
      if a in before then before else before[a := Created(ps[n - 1])]
  }

  ghost function PreflightWithQuota(f: Core, cfg: Config, id: Id, ps: seq<Policy>, b: Bound, zone: string, now: int)
    : (o: Outcome)
  {
    if !ValidKey(id) || |ps| == 0 || |ps| > MAX_ACCOUNTS || zone == "" || !cfg.loads(zone) then Fail(f, ErrInvalid)
    else if !ValidBound(b) then Fail(f, ErrInvalid)
    else
      match CheckQuotaAdmission(f, cfg, id, ps, b, zone, now)
      case QuotaRejected(s) => Fail(f, s)
      case QuotaAdmitted(h, _) => Outcome(Ok, h)
  }

  /** Every account of r still has room for it among its in-flight amounts. */
  ghost predicate InFlightFits(f: Core, r: Receipt)
  {
    forall a :: a in Names(r) ==> Fits(f, a, InFlight, r)
  }

  ghost function ReserveWithQuota(f: Core, cfg: Config, id: Id, payload: Payload, ps: seq<Policy>, b: Bound,
                                  recovery: Settlement, now: int): (o: Outcome)
  {
    if !ValidEntry(cfg, id, payload) || |ps| == 0 || |ps| > MAX_ACCOUNTS then Fail(f, ErrInvalid)
    else if !ValidBound(b) || !ValidSettlement(recovery) then Fail(f, ErrInvalid)
    else if RecoveryStatus(b, recovery) != Ok then Fail(f, RecoveryStatus(b, recovery))
    else
      match CheckQuotaAdmission(f, cfg, id, ps, b, "", now)
      case QuotaRejected(s) => Fail(f, s)
      case QuotaAdmitted(h, r) =>
        if !InFlightFits(h, r) then Fail(f, ErrInvalid)
        else
          var g := ApplyAdmission(h, id, payload, r.admittedAt, LimitAccounts(PolicyLimits(ps)));
          Outcome(Ok, g.(births := Establish(h.births, ps, |ps|),
                         receipts := h.receipts[id := r.(recovery := recovery)]))
  }

  function UpdatePendingQuota(f: Core, cfg: Config, id: Id, payload: Payload, recovery: Settlement): (o: Outcome)
  {
    if !ValidEntry(cfg, id, payload) || !ValidSettlement(recovery) then Fail(f, ErrInvalid)
    else if id in f.ready || id !in f.pending then Fail(f, ErrMissing)
    else if id !in f.receipts then Fail(f, ErrMissing)
    else if Terminal(f.receipts[id]) then Fail(f, ErrQuotaConflict)
    else if RecoveryStatus(f.receipts[id].bound, recovery) != Ok
    then Fail(f, RecoveryStatus(f.receipts[id].bound, recovery))
    else
      Outcome(Ok, f.(receipts := f.receipts[id := f.receipts[id].(recovery := recovery)],
                     pending := f.pending[id := payload]))
  }

  // ---------- settlement ----------

  predicate Overran(b: Bound, s: Settlement)
  {
    || (s.tokens.Some? && b.tokens.Some? && s.tokens.value > b.tokens.value)
    || (s.money.Some? && b.money.Some? && Units(s.money.value) > Units(b.money.value))
  }

  /** The receipt after settlement s was accepted with the delivered payload. */
  function Settle(r: Receipt, s: Settlement, payload: Payload, state: State): (q: Receipt)
  {
    r.(state := state, actual := s, recovery := NO_SETTLEMENT, digest := Some(Digest(s, payload)),
       overrun := r.overrun || Overran(r.bound, s))
  }

  function ChargeKeys(r: Receipt, t: int): (s: set<ExpiryKey>)
  {
    set a, w | a in Names(r) && w in Windows(r) && WindowEnd(r, w) > t :: Charge(WindowEnd(r, w), a, w, r.id)
  }

  /** Every window of r that is still open has room for it. */
  ghost predicate ProjectionFits(f: Core, r: Receipt, t: int)
  {
    forall a, w :: a in Names(r) && w in Windows(r) && WindowEnd(r, w) > t ==> Fits(f, a, w, r)
  }

  /** Replaces an active receipt by its settled form and charges its open windows. */
  function Project(f: Core, r: Receipt, t: int): (g: Core)
  {
    f.(clock := t,
       receipts := f.receipts[r.id := r],
       expiry := f.expiry + ChargeKeys(r, t) + {Retire(Latest(r), r.id)},
       invalid := if r.overrun && r.bound.revision != "" then f.invalid[r.bound.revision := r.id] else f.invalid)
  }

  ghost function CompleteQuota(f: Core, cfg: Config, id: Id, payload: Payload, actual: Settlement, now: int)
    : (o: Outcome)
  {
    if !ValidEntry(cfg, id, payload) || !ValidSettlement(actual) then Fail(f, ErrInvalid)
    else if MetadataStatus(f, cfg) != Ok then Fail(f, MetadataStatus(f, cfg))
    else if id !in f.receipts then Fail(f, ErrMissing)
    else
      var r := f.receipts[id];
      if Terminal(r) then Fail(f, if r.digest != Some(Digest(actual, payload)) then ErrQuotaConflict else Ok)
      else if actual.money.Some? && r.bound.money.Some? && actual.currency != r.bound.currency
      then Fail(f, ErrQuotaCurrency)
      else if now <= 0 then Fail(f, ErrInvalid)
      else
        var t := LogicalTime(f, now);
        var q := Settle(r, actual, payload, Complete);
        if !ProjectionFits(f, q, t) then Fail(f, ErrInvalid)
        else
          var d := Deliver(Project(f, q, t), id, payload);
          if d.status != Ok then Fail(f, d.status) else d
  }

  /** AccountQuotaUsage: advances the clock and prunes the quota history. */
  function ObserveQuota(f: Core, cfg: Config, account: Account, now: int): (o: Outcome)
  {
    if !ValidKey(account) then Fail(f, ErrInvalid)
    else if MetadataStatus(f, cfg) != Ok then Fail(f, MetadataStatus(f, cfg))
    else if now <= 0 then Fail(f, ErrInvalid)
    else
      var t := LogicalTime(f, now);
      if QuotaMonth(cfg, f.zone, t).None? then Fail(f, ErrInvalid)
      else Outcome(Ok, PruneQuota(f.(clock := t), t))
  }

  // ---------- recovery ----------

  /** An admission that a crash left active is settled with its stored crash settlement. */
  function Interrupt(r: Receipt, pending: map<Id, Payload>): (q: Receipt)
  {
    if Terminal(r) then r
    else
      r.(state := Interrupted, actual := r.recovery, recovery := NO_SETTLEMENT,
         digest := Some(Digest(r.recovery, if r.id in pending then pending[r.id] else "")))
  }

  function InterruptAll(f: Core): (m: map<Id, Receipt>)
  {
    map id | id in f.receipts :: Interrupt(f.receipts[id], f.pending)
  }

  /** The expiry index rebuilt from receipts alone. */
  function RebuiltExpiry(rs: map<Id, Receipt>, t: int): (s: set<ExpiryKey>)
  {
    (set id, a, w | id in rs && a in Names(rs[id]) && w in Windows(rs[id]) && WindowEnd(rs[id], w) > t
       :: Charge(WindowEnd(rs[id], w), a, w, id))
    + (set id | id in rs :: Retire(Latest(rs[id]), id))
  }

  /** Receipts interrupted, leases dropped and the expiry index rebuilt. */
  function Rebuild(f: Core): (g: Core)
  {
    var rs := InterruptAll(f);
    f.(leases := map[], receipts := rs, expiry := RebuiltExpiry(rs, f.clock))
  }

  /** Every rebuilt 64-bit counter is in range. */
  ghost predicate FoldsFit(f: Core)
  {
    forall a, w, d :: d in {TokensUsed, TokensHeld, TokensUnknown, MoneyUnknown} ==> Fold(f, a, w, d) <= MAX_INT64
  }

  /** Every fallback left pending becomes deliverable. */
  function ReplayPending(f: Core): (g: Core)
  {
    f.(ready := f.pending + f.ready, pending := map[])
  }

  /** Opening a journal after a crash or a clean stop. */
  ghost function Open(f: Core): (o: Outcome)
  {
    if f.version == V1 then Outcome(Ok, ReplayPending(f.(leases := map[])))
    else if !FoldsFit(Rebuild(f)) then Fail(f, ErrInvalid)
    else Outcome(Ok, ReplayPending(PruneQuota(Rebuild(f), f.clock)))
  }

  // ---------- runs ----------

  datatype Op =
    | OpReserve(id: Id, payload: Payload)
    | OpUpdatePending(id: Id, payload: Payload)
    | OpComplete(id: Id, payload: Payload)
    | OpAck(id: Id)
    | OpReserveWithLimits(id: Id, payload: Payload, limits: seq<Limit>, now: Int64)
    | OpObserveLimits(now: Int64)
    | OpEnableQuota(zone: string, now: Int64)
    | OpPreflight(id: Id, policies: seq<Policy>, bound: Bound, zone: string, now: Int64)
    | OpReserveWithQuota(id: Id, payload: Payload, policies: seq<Policy>, bound: Bound, recovery: Settlement, now: Int64)
    | OpUpdatePendingQuota(id: Id, payload: Payload, recovery: Settlement)
    | OpCompleteQuota(id: Id, payload: Payload, actual: Settlement, now: Int64)
    | OpObserveQuota(account: Account, now: Int64)
    | OpOpen

  ghost function Step(f: Core, cfg: Config, op: Op): (o: Outcome)
  {
    match op
    case OpReserve(id, p) => Reserve(f, cfg, id, p)
    case OpUpdatePending(id, p) => UpdatePending(f, cfg, id, p)
    case OpComplete(id, p) => CompletePlain(f, cfg, id, p)
    case OpAck(id) => Ack(f, id)
    case OpReserveWithLimits(id, p, ls, now) => ReserveWithLimits(f, cfg, id, p, ls, now)
    case OpObserveLimits(now) => ObserveLimits(f, now)
    case OpEnableQuota(z, now) => EnableQuota(f, cfg, z, now)
    case OpPreflight(id, ps, b, z, now) => PreflightWithQuota(f, cfg, id, ps, b, z, now)
    case OpReserveWithQuota(id, p, ps, b, rec, now) => ReserveWithQuota(f, cfg, id, p, ps, b, rec, now)
    case OpUpdatePendingQuota(id, p, rec) => UpdatePendingQuota(f, cfg, id, p, rec)
    case OpCompleteQuota(id, p, s, now) => CompleteQuota(f, cfg, id, p, s, now)
    case OpObserveQuota(a, now) => ObserveQuota(f, cfg, a, now)
    case OpOpen => Open(f)
  }

  /** states[i + 1] is what operation ops[i] left behind, starting from an empty journal.
      A crash before a commit is a state without a step; a crash after one is OpOpen. */
  ghost predicate IsRun(cfg: Config, states: seq<Core>, ops: seq<Op>)
  {
    && |states| == |ops| + 1
    && states[0] == EMPTY_CORE
    && forall i :: 0 <= i < |ops| ==> states[i + 1] == Step(states[i], cfg, ops[i]).core
  }
}
