/** Price schedules, exchange rates and usage, and the exact arithmetic of charges. */
module PricingTypes {
  import opened Wrappers
  import opened Decimals
  import LedgerTypes

  type Int64 = LedgerTypes.Int64

  /** One unit of the last decimal place is 1 / SCALE. */
  const SCALE: real := 1_000_000_000_000_000_000.0
  const MAX_RATES: int := 10

  datatype Metric = Input | Output | CacheRead | CacheWrite | ImageInput | PDFInput | OtherMetric(name: string)
  datatype Tier = Base | Long | OtherTier(name: string)
  datatype Unit = PerMillion | PerImage | PerPDF | OtherUnit(name: string)

  datatype Rate = Rate(
    id: string,
    metric: Metric,
    tier: Tier,
    unit: Unit,
    currency: string,
    amount: string,
    enabled: bool)

  datatype Schedule = Schedule(
    priceId: string,
    providerModelId: string,
    protocol: string,
    threshold: Int64,
    rates: seq<Rate>)

  datatype FX = FX(platform: string, rates: map<string, string>)

  /** The input count includes both cache counts. */
  datatype Usage = Usage(
    input: Int64,
    output: Int64,
    cacheRead: Int64,
    cacheWrite: Int64,
    images: Int64,
    pdfs: Int64)

  datatype Component = Component(rate: Rate, quantity: int, exchange: string, charge: string)

  datatype Adapter = TextAdapter | MultimodalAdapter

  datatype Quote = Quote(
    adapter: Adapter,
    priceId: string,
    providerModelId: string,
    usage: Usage,
    tier: Tier,
    threshold: Int64,
    currency: string,
    components: seq<Component>,
    total: string)

  /** What a request may use at most, and whether it may touch the caches. */
  datatype Capacity = Capacity(
    input: Int64,
    output: Int64,
    images: Int64,
    pdfs: Int64,
    cacheRead: bool,
    cacheWrite: bool)

  datatype BoundQuote = BoundQuote(amount: string, currency: string, capacity: Capacity, components: int)

  datatype Priced<+T> = Priced(value: T) | Invalid | Unpriced

  const CURRENCIES := {"USD", "CNY", "EUR", "GBP", "JPY", "HKD", "SGD"}
  const PROTOCOLS := {"openai_chat", "openai_responses", "anthropic_messages", "gemini_generate_content"}
  const THRESHOLDS: set<int> := {0, 128_000, 200_000}

  // ---------- amounts ----------

  /** The number of units of 10^-18 in an amount with at most 18 integer digits. */
  function AmountUnits(s: string): (u: nat)
  {
    if Plain(s, 18) then DigitsValue(UnitDigits(s)) else 0
  }

  function Amount(s: string): (r: real) { AmountUnits(s) as real / SCALE }

  /** The exact value of an amount, read from its canonical form. */
  function Rational(s: string): (r: Option<real>)
  {
    match Decimal(s) case Some(v) => Some(Amount(v)) case None => None
  }

  /** n is x rounded to an integer, and to the even one of two equally near integers. */
  predicate IsHalfEven(x: real, n: int)
  {
    -0.5 <= x - n as real <= 0.5 && (x - n as real == 0.5 || x - n as real == -0.5 ==> n % 2 == 0)
  }

  function HalfEven(x: real): (n: int)
    ensures IsHalfEven(x, n)
  {
    var q := x.Floor;
    if x - q as real > 0.5 || (x - q as real == 0.5 && q % 2 == 1) then q + 1 else q
  }

  function Ceiling(x: real): (n: int)
    ensures (n - 1) as real < x <= n as real
  {
    if x == x.Floor as real then x.Floor else x.Floor + 1
  }

  // ---------- validation ----------

  predicate ValidRate(r: Rate)
  {
    && (match r.metric
        case ImageInput => r.unit == PerImage && r.tier == Base
        case PDFInput => r.unit == PerPDF && r.tier == Base
        case OtherMetric(_) => false
        case _ => r.unit == PerMillion && (r.tier == Base || r.tier == Long))
    && r.currency in CURRENCIES
    && Decimal(r.amount).Some?
  }

  /** Valid rates, no two for the same metric and tier, and no enabled long-context rate
      without a threshold. */
  predicate ValidSchedule(s: Schedule)
  {
    && s.protocol in PROTOCOLS && s.threshold in THRESHOLDS && |s.rates| <= MAX_RATES
    && (forall i :: 0 <= i < |s.rates| ==> ValidRate(s.rates[i]))
    && (forall i, j :: 0 <= i < j < |s.rates| ==>
          s.rates[i].metric != s.rates[j].metric || s.rates[i].tier != s.rates[j].tier)
    && (forall i :: 0 <= i < |s.rates| && s.rates[i].tier == Long && s.rates[i].enabled ==> s.threshold != 0)
  }

  predicate ValidExchange(f: FX, c: string, value: string)
  {
    && c in CURRENCIES
    && Rational(value).Some? && Rational(value).value > 0.0
    && (c == f.platform ==> Rational(value).value == 1.0)
  }

  predicate ValidFX(f: FX)
  {
    f.platform in CURRENCIES && forall c :: c in f.rates ==> ValidExchange(f, c, f.rates[c])
  }

  predicate ValidUsage(u: Usage)
  {
    && 0 <= u.input && 0 <= u.output && 0 <= u.cacheRead && 0 <= u.cacheWrite && 0 <= u.images && 0 <= u.pdfs
    && u.cacheRead + u.cacheWrite <= u.input
  }

  predicate ValidCapacity(c: Capacity) { 0 <= c.input && 0 <= c.output && 0 <= c.images && 0 <= c.pdfs }

  /** Some rate is enabled: an empty or disabled catalogue is not a free model. */
  predicate Configured(s: Schedule) { exists i :: 0 <= i < |s.rates| && s.rates[i].enabled }

  // ---------- prices ----------

  predicate Media(m: Metric) { m == ImageInput || m == PDFInput }

  predicate Lists(s: Schedule, t: Tier, m: Metric, r: Rate)
  {
    r in s.rates && r.tier == t && r.metric == m && r.enabled
  }

  function ExchangeOf(f: FX, currency: string): (e: Option<string>)
  {
    if currency == f.platform then Some("1")
    else if currency in f.rates then Some(f.rates[currency])
    else None
  }

  /** The price of one million tokens or one item at rate r, in the platform currency. */
  function RatePrice(f: FX, r: Rate): (p: Option<real>)
  {
    match ExchangeOf(f, r.currency)
    case Some(e) => Some(Amount(r.amount) * Amount(e))
    case None => None
  }

  /** The enabled rate for a metric in a tier, if any. */
  ghost function Listed(s: Schedule, t: Tier, m: Metric): (r: Option<Rate>)
  {
    if exists r :: Lists(s, t, m, r) then
      var r :| Lists(s, t, m, r);
      Some(r)
    else None
  }

  /** The price listed for a metric in a tier, where a rate is enabled and can be converted. */
  ghost function PriceOf(s: Schedule, f: FX, t: Tier, m: Metric): (p: Option<real>)
  {
    match Listed(s, t, m) case Some(r) => RatePrice(f, r) case None => None
  }

  function TierOf(s: Schedule, input: int): (t: Tier) { if s.threshold > 0 && input > s.threshold then Long else Base }

  function RateTier(m: Metric, t: Tier): (r: Tier) { if Media(m) then Base else t }

  function Divisor(m: Metric): (d: real)
    ensures d > 0.0
  {
    if Media(m) then 1.0 else 1_000_000.0
  }

  const METRICS := [Input, Output, CacheRead, CacheWrite, ImageInput, PDFInput]

  /** What each metric is charged for: input tokens are those in neither cache. */
  function Quantity(u: Usage, m: Metric): (q: int)
  {
    match m
    case Input => u.input - u.cacheRead - u.cacheWrite
    case Output => u.output
    case CacheRead => u.cacheRead
    case CacheWrite => u.cacheWrite
    case ImageInput => u.images
    case PDFInput => u.pdfs
    case OtherMetric(_) => 0
  }

  // ---------- charges ----------

  ghost function UsagePrice(s: Schedule, f: FX, u: Usage, m: Metric): (p: Option<real>)
  {
    PriceOf(s, f, RateTier(m, TierOf(s, u.input)), m)
  }

  /** Every metric used has an enabled rate in the request's tier and an exchange rate. */
  ghost predicate Chargeable(s: Schedule, f: FX, u: Usage)
  {
    forall m :: m in METRICS && Quantity(u, m) != 0 ==> UsagePrice(s, f, u, m).Some?
  }

  function Exact(price: real, quantity: int, m: Metric): (c: real) { price * quantity as real / Divisor(m) }

  /** One component, rounded once, in units of 10^-18. */
  ghost function Charge(s: Schedule, f: FX, u: Usage, m: Metric): (units: int)
  {
    if Quantity(u, m) == 0 || UsagePrice(s, f, u, m).None? then 0
    else HalfEven(Exact(UsagePrice(s, f, u, m).value, Quantity(u, m), m) * SCALE)
  }

  ghost function ChargeSum(s: Schedule, f: FX, u: Usage, n: nat): (units: int)
    requires n <= |METRICS|
  {
    if n == 0 then 0 else ChargeSum(s, f, u, n - 1) + Charge(s, f, u, METRICS[n - 1])
  }

  ghost function TotalUnits(s: Schedule, f: FX, u: Usage): (units: int) { ChargeSum(s, f, u, |METRICS|) }

  /** The line of a quote for one metric that was used. */
  ghost function Line(s: Schedule, f: FX, u: Usage, m: Metric): (c: Option<Component>)
  {
    match Listed(s, RateTier(m, TierOf(s, u.input)), m)
    case None => None
    case Some(r) =>
      if ExchangeOf(f, r.currency).None? || Decimal(r.amount).None? || Decimal(ExchangeOf(f, r.currency).value).None?
         || Charge(s, f, u, m) < 0
      then None
      else Some(Component(r.(amount := Decimal(r.amount).value), Quantity(u, m),
                          Decimal(ExchangeOf(f, r.currency).value).value, Format(Charge(s, f, u, m))))
  }

  /** One line for each of the first n metrics that was used, in order. */
  ghost function Lines(s: Schedule, f: FX, u: Usage, n: nat): (cs: seq<Component>)
    requires n <= |METRICS|
  {
    if n == 0 then []
    else
      Lines(s, f, u, n - 1)
      + (if Quantity(u, METRICS[n - 1]) != 0 && Line(s, f, u, METRICS[n - 1]).Some?
         then [Line(s, f, u, METRICS[n - 1]).value] else [])
  }

  // ---------- bounds ----------

  /** The tiers and the input metrics that some usage within the capacity can reach. */
  function Tiers(s: Schedule, c: Capacity): (ts: set<Tier>)
  {
    if s.threshold > 0 && c.input > s.threshold then {Base, Long} else {Base}
  }

  function InputMetrics(c: Capacity): (ms: set<Metric>)
  {
    {Input} + (if c.cacheRead then {CacheRead} else {}) + (if c.cacheWrite then {CacheWrite} else {})
  }

  type Cell = (Tier, Metric)

  function InputCells(s: Schedule, c: Capacity): (cells: set<Cell>)
  {
    if c.input == 0 then {} else set t, m | t in Tiers(s, c) && m in InputMetrics(c) :: (t, m)
  }

  function OutputCells(s: Schedule, c: Capacity): (cells: set<Cell>)
  {
    if c.output == 0 then {} else set t | t in Tiers(s, c) :: (t, Output)
  }

  function MediaCells(c: Capacity): (cells: set<Cell>)
  {
    (if c.images == 0 then {} else {(Base, ImageInput)}) + (if c.pdfs == 0 then {} else {(Base, PDFInput)})
  }

  ghost predicate AllPriced(s: Schedule, f: FX, cells: set<Cell>)
  {
    forall t, m :: (t, m) in cells ==> PriceOf(s, f, t, m).Some?
  }

  /** The highest price among the cells, or zero when there is none. */
  ghost predicate Highest(s: Schedule, f: FX, cells: set<Cell>, p: real)
  {
    && (forall t, m :: (t, m) in cells ==> PriceOf(s, f, t, m).Some? && PriceOf(s, f, t, m).value <= p)
    && (p == 0.0 || exists t, m :: (t, m) in cells && PriceOf(s, f, t, m) == Some(p))
  }

  /** How many separately rounded charges a usage within the capacity can have. */
  function ComponentCount(c: Capacity): (n: int)
  {
    (if c.input > 0 then |InputMetrics(c)| else 0) + (if c.output > 0 then 1 else 0)
    + (if c.images == 0 then 0 else 1) + (if c.pdfs == 0 then 0 else 1)
  }

  ghost function MediaPrice(s: Schedule, f: FX, m: Metric): (p: real)
  {
    match PriceOf(s, f, Base, m) case Some(p) => p case None => 0.0
  }

  /** The unrounded worst case at the highest input and output prices. */
  ghost function WorstCase(s: Schedule, f: FX, c: Capacity, input: real, output: real): (x: real)
  {
    Exact(input, c.input, Input) + Exact(output, c.output, Output)
    + Exact(MediaPrice(s, f, ImageInput), c.images, ImageInput) + Exact(MediaPrice(s, f, PDFInput), c.pdfs, PDFInput)
  }

  /** Half a unit for every rounded component, rounded up; a free worst case reserves nothing. */
  function BoundUnits(worst: real, components: int): (n: int)
  {
    if worst == 0.0 then 0 else Ceiling(worst * SCALE + components as real / 2.0)
  }

  ghost predicate BoundPriced(s: Schedule, f: FX, c: Capacity)
  {
    AllPriced(s, f, InputCells(s, c)) && AllPriced(s, f, OutputCells(s, c)) && AllPriced(s, f, MediaCells(c))
  }

  /** units is the reservation for capacity c. */
  ghost predicate Reserves(s: Schedule, f: FX, c: Capacity, units: int)
  {
    && BoundPriced(s, f, c)
    && exists input, output ::
         && Highest(s, f, InputCells(s, c), input) && Highest(s, f, OutputCells(s, c), output)
         && units == BoundUnits(WorstCase(s, f, c, input, output), ComponentCount(c))
  }

  /** A usage that stays within the capacity and touches only the caches it allows. */
  predicate Within(u: Usage, c: Capacity)
  {
    && u.input <= c.input && u.output <= c.output && u.images <= c.images && u.pdfs <= c.pdfs
    && (u.cacheRead > 0 ==> c.cacheRead) && (u.cacheWrite > 0 ==> c.cacheWrite)
  }
}
