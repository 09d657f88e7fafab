/** The values the durable quota journal stores: receipts, counters, limits and buckets. */
module LedgerTypes {
  import opened Wrappers
  import opened Decimals

  type Id = string
  type Account = string
  type Revision = string
  type Payload = string
  type Int64 = x: int | -0x8000_0000_0000_0000 <= x <= MAX_INT64

  const MAX_INT64: int := 0x7FFF_FFFF_FFFF_FFFF
  const MINUTE: int := 60_000_000_000
  const FIVE_HOURS: int := 18_000_000_000_000
  const SEVEN_DAYS: int := 604_800_000_000_000
  const LIMIT_HISTORY_CAPACITY: int := 200_000
  const QUOTA_HISTORY_CAPACITY: int := 1_000_000
  const MAX_ACCOUNTS: int := 8

  datatype Status =
    | Ok
    | ErrFull
    | ErrInvalid
    | ErrMissing
    | ErrRateLimit
    | ErrConcurrency
    | ErrQuotaInactive
    | ErrQuotaRequired
    | ErrQuotaCoverage
    | ErrQuotaUnknown
    | ErrQuotaBound
    | ErrQuotaTokens
    | ErrQuotaMoney
    | ErrQuotaCurrency
    | ErrQuotaConflict

  /** The first failing check decides. */
  function Then(first: Status, next: Status): (s: Status) { if first != Ok then first else next }

  predicate ValidKeyChar(c: char)
  {
    'A' <= c <= 'Z' || 'a' <= c <= 'z' || '0' <= c <= '9' || c == '_' || c == '-'
  }

  predicate ValidKey(s: string) { 1 <= |s| <= 64 && forall i :: 0 <= i < |s| ==> ValidKeyChar(s[i]) }

  predicate ValidCurrency(s: string) { |s| == 3 && forall i :: 0 <= i < 3 ==> 'A' <= s[i] <= 'Z' }

  predicate ValidHexDigest(s: string)
  {
    |s| == 64 && forall i :: 0 <= i < 64 ==> '0' <= s[i] <= '9' || 'a' <= s[i] <= 'f'
  }

  /** What an admission may consume. Nil dimensions are unproven. */
  datatype Bound = Bound(
    tokens: Option<Int64>,
    money: Option<string>,
    currency: string,
    revision: Revision,
    priceRevision: string,
    basisDigest: string)

  /** What a request did consume. A missing dimension is unproven, not zero. */
  datatype Settlement = Settlement(tokens: Option<Int64>, money: Option<string>, currency: string)

  const NO_SETTLEMENT := Settlement(None, None, "")

  /** SHA-256 over the settlement and the payload, taken to be injective. */
  datatype Digest = Digest(settlement: Settlement, payload: Payload)

  datatype State = Active | Complete | Interrupted

  datatype QuotaAccount = QuotaAccount(account: Account, revision: Revision)

  datatype Receipt = Receipt(
    id: Id,
    admittedAt: int,
    monthStart: int,
    monthEnd: int,
    accounts: seq<QuotaAccount>,
    bound: Bound,
    state: State,
    actual: Settlement,
    recovery: Settlement,
    digest: Option<Digest>,
    overrun: bool)

  /** InFlight is the window named "active" that holds the reservations still running. */
  datatype Window = InFlight | Minute | FiveHours | SevenDays | Month(start: int)

  datatype Behavior = Stop | AlertOnly | Unrecognized

  datatype Limit = Limit(account: Account, rpm: Option<Int64>, concurrency: Option<Int64>)

  /** proofsConsistent: at most one of the key and membership proofs is claimed.
      monthlyProof: the account is one whose proofs allow a monthly behaviour. */
  datatype Policy = Policy(
    limit: Limit,
    revision: Revision,
    proofsConsistent: bool,
    monthlyProof: bool,
    createdAt: Option<Int64>,
    tpm: Option<Int64>,
    tokens5H: Option<Int64>,
    tokens7D: Option<Int64>,
    tokensMonth: Option<Int64>,
    moneyMonth: Option<string>,
    currency: string,
    tokensBehavior: Behavior,
    moneyBehavior: Behavior)

  /** Key of one RPM event: logical instant, request and account. */
  datatype Event = Event(at: int, id: Id, account: Account)

  /** Entries of the ordered expiry index. Charge keys carry the byte 'c', retire keys 'r'. */
  datatype ExpiryKey =
    | Charge(at: int, account: Account, window: Window, id: Id)
    | Retire(at: int, id: Id)

  datatype Version = V1 | V2

  /** Sizes fixed at Open, and the calendar of every time zone that loads. */
  datatype Config = Config(
    capacity: int,
    maxPayload: int,
    quotaCapacity: int,
    loads: string -> bool,
    month: (string, int) -> (int, int))

  /** Every bucket except the counts and counters derived from the others.
      clock is 0 until the first logical time is stored. */
  datatype Core = Core(
    version: Version,
    clock: int,
    pending: map<Id, Payload>,
    ready: map<Id, Payload>,
    events: set<Event>,
    leases: map<Id, seq<Account>>,
    zone: string,
    coverage: int,
    receipts: map<Id, Receipt>,
    expiry: set<ExpiryKey>,
    births: map<Account, int>,
    invalid: map<Revision, Id>)

  const EMPTY_CORE := Core(V1, 0, map[], map[], {}, map[], "", 0, map[], {}, map[], map[])

  function Terminal(r: Receipt): (b: bool) { r.state != Active }

  function Names(r: Receipt): (s: set<Account>)
  {
    set i | 0 <= i < |r.accounts| :: r.accounts[i].account
  }

  function Windows(r: Receipt): (s: set<Window>)
  {
    {Minute, FiveHours, SevenDays, Month(r.monthStart)}
  }

  function WindowEnd(r: Receipt, w: Window): (end: int)
  {
    match w
    case InFlight => r.admittedAt
    case Minute => r.admittedAt + MINUTE
    case FiveHours => r.admittedAt + FIVE_HOURS
    case SevenDays => r.admittedAt + SEVEN_DAYS
    case Month(_) => r.monthEnd
  }

  /** The later of the month end and seven days after admission. */
  function Latest(r: Receipt): (end: int)
  {
    if r.monthEnd < r.admittedAt + SEVEN_DAYS then r.admittedAt + SEVEN_DAYS else r.monthEnd
  }

  /** Amounts one receipt can add to a counter. The last four are only measured, never stored:
      Capped is the counted amount up to the receipt's own bound, Excess is what lies above it. */
  datatype Dim =
    | TokensUsed
    | TokensHeld
    | TokensUnknown
    | MoneyUsed(currency: string)
    | MoneyHeld(currency: string)
    | MoneyUnknown
    | CappedTokens
    | ExcessTokens
    | CappedMoney(currency: string)
    | ExcessMoney(currency: string)

  predicate Stored(d: Dim) { !(d.CappedTokens? || d.ExcessTokens? || d.CappedMoney? || d.ExcessMoney?) }

  function Units(money: string): (u: nat)
  {
    match QuotaUnits(money)
    case Some(u) => u
    case None => 0
  }

  predicate TokensSettled(r: Receipt) { Terminal(r) && r.actual.tokens.Some? }

  predicate MoneySettled(r: Receipt) { Terminal(r) && r.actual.money.Some? }

  function TokenAmount(r: Receipt): (t: Option<Int64>)
  {
    if TokensSettled(r) then r.actual.tokens else r.bound.tokens
  }

  function MoneyAmount(r: Receipt): (m: Option<string>)
  {
    if MoneySettled(r) then r.actual.money else r.bound.money
  }

  function MoneyCurrency(r: Receipt): (c: string)
  {
    if MoneySettled(r) then r.actual.currency else r.bound.currency
  }

  function Min(a: int, b: int): (m: int) { if a <= b then a else b }

  function CountedTokens(r: Receipt): (n: int)
  {
    match TokenAmount(r) case Some(n) => n case None => 0
  }

  function CountedMoney(r: Receipt, c: string): (n: int)
  {
    match MoneyAmount(r)
    case Some(m) => if MoneyCurrency(r) == c then Units(m) else 0
    case None => 0
  }

  function TokenCap(r: Receipt): (n: int)
  {
    match r.bound.tokens case Some(b) => b case None => 0
  }

  function MoneyCap(r: Receipt, c: string): (n: int)
  {
    match r.bound.money
    case Some(m) => if r.bound.currency == c then Units(m) else 0
    case None => 0
  }

  /** What a receipt adds to dimension d of every counter it is charged to. */
  function Contribution(r: Receipt, d: Dim): (n: int)
  {
    match d
    case TokensUsed => if TokensSettled(r) then CountedTokens(r) else 0
    case TokensHeld => if TokensSettled(r) then 0 else CountedTokens(r)
    case TokensUnknown => if TokenAmount(r).None? then 1 else 0
    case MoneyUsed(c) => if MoneySettled(r) then CountedMoney(r, c) else 0
    case MoneyHeld(c) => if MoneySettled(r) then 0 else CountedMoney(r, c)
    case MoneyUnknown => if MoneyAmount(r).None? then 1 else 0
    case CappedTokens => Min(CountedTokens(r), TokenCap(r))
    case ExcessTokens => CountedTokens(r) - Min(CountedTokens(r), TokenCap(r))
    case CappedMoney(c) => Min(CountedMoney(r, c), MoneyCap(r, c))
    case ExcessMoney(c) => CountedMoney(r, c) - Min(CountedMoney(r, c), MoneyCap(r, c))
  }

  // ---------- what a request counts for ----------

  /** What is known of a request's use: nothing while it is running. */
  function Told(r: Receipt): (s: Settlement) { if r.state == Active then NO_SETTLEMENT else r.actual }

  /** What a request of bound b counts for once s is known, dimension by dimension: a measured amount
      is used, an unmeasured one is held at its bound, and one with neither is unknown. */
  function Measured(b: Bound, s: Settlement, d: Dim): (n: int)
    requires Stored(d)
  {
    match d
    case TokensUsed => if s.tokens.Some? then s.tokens.value else 0
    case TokensHeld => if s.tokens.None? && b.tokens.Some? then b.tokens.value else 0
    case TokensUnknown => if s.tokens.None? && b.tokens.None? then 1 else 0
    case MoneyUsed(c) =>
      if s.money.Some? && s.currency == c && QuotaUnits(s.money.value).Some? then QuotaUnits(s.money.value).value else 0
    case MoneyHeld(c) =>
      if s.money.None? && b.money.Some? && b.currency == c && QuotaUnits(b.money.value).Some? then
        QuotaUnits(b.money.value).value
      else 0
    case MoneyUnknown => if s.money.None? && b.money.None? then 1 else 0
  }

  /** The counters' case analysis by amounts agrees with it. */
  lemma CountedAsMeasured(r: Receipt, d: Dim)
    requires Stored(d)
    ensures Contribution(r, d) == Measured(r.bound, Told(r), d)
  {}
}
