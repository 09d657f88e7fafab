/** What a quote and a reservation say, read off their own text against the schedule, the exchange
    rates and the counts: tiers, rates, roundings and reachable prices. */
module PricingMeaning {
  import opened Wrappers
  import opened Decimals
  import opened DecimalText
  import opened PricingTypes
  import opened PricingBounds
  import opened Pricing

  // ---------- amounts ----------

  /** An amount of the schedule reads as the number that the engine computes with. */
  lemma AmountReads(s: string)
    requires Decimal(s).Some?
    ensures QuotaUnits(s).Some? && QuotaUnits(Decimal(s).value).Some?
    ensures Read(s) == Amount(s) == Read(Decimal(s).value)
  {
    DecimalKeeps(s);
    UnitsRead(s);
    UnitsRead(Decimal(s).value);
  }

  lemma UnitsRead(s: string)
    requires Plain(s, 18)
    ensures QuotaUnits(s) == Some(AmountUnits(s)) && Read(s) == Amount(s)
  {}

  lemma OneReads()
    ensures QuotaUnits("1").Some? && Read("1") == 1.0 == Amount("1") && Decimal("1") == Some("1")
  {
    One();
    AmountReads("1");
  }

  // ---------- what a quote says ----------

  predicate IsMedia(m: Metric) { m == ImageInput || m == PDFInput }

  /** u has n of metric m; plain input is what is in neither cache. */
  predicate Counts(u: Usage, m: Metric, n: int)
  {
    match m
    case Input => n + u.cacheRead + u.cacheWrite == u.input
    case Output => n == u.output
    case CacheRead => n == u.cacheRead
    case CacheWrite => n == u.cacheWrite
    case ImageInput => n == u.images
    case PDFInput => n == u.pdfs
    case OtherMetric(_) => false
  }

  /** Media are charged at the base tier, tokens at the tier that the whole input decides. */
  predicate TierFor(s: Schedule, input: int, m: Metric, t: Tier)
  {
    if IsMedia(m) then t == Base else (t == Base || t == Long) && (t == Long <==> 0 < s.threshold < input)
  }

  predicate ExchangeFor(f: FX, currency: string, e: string)
  {
    if currency == f.platform then e == "1" else currency in f.rates && Decimal(f.rates[currency]) == Some(e)
  }

  function Product(amount: real, quantity: int, divisor: real, exchange: real): (x: real)
    requires divisor > 0.0
  {
    amount * (quantity as real / divisor) * exchange
  }

  /** amount x quantity / divisor x exchange, in units of 10^-18, rounds half to even to units. */
  predicate RoundsTo(amount: real, quantity: int, divisor: real, exchange: real, units: int)
    requires divisor > 0.0
  {
    IsHalfEven(Product(amount, quantity, divisor, exchange) * SCALE, units)
  }

  /** The line states an enabled rate of the schedule in canonical form, the tier and count of its
      metric, the exchange rate of its currency, and their product rounded half to even once. */
  ghost predicate LineSays(s: Schedule, f: FX, u: Usage, c: Component)
  {
    && Counts(u, c.rate.metric, c.quantity) && c.quantity != 0 && TierFor(s, u.input, c.rate.metric, c.rate.tier)
    && (exists r :: r in s.rates && r.enabled && c.rate == r.(amount := c.rate.amount)
                    && Decimal(r.amount) == Some(c.rate.amount))
    && ExchangeFor(f, c.rate.currency, c.exchange)
    && QuotaUnits(c.rate.amount).Some? && QuotaUnits(c.exchange).Some? && QuotaUnits(c.charge).Some?
    && RoundsTo(Read(c.rate.amount), c.quantity, if IsMedia(c.rate.metric) then 1.0 else 1_000_000.0, Read(c.exchange),
                QuotaUnits(c.charge).value)
  }

  lemma CountMeaning(u: Usage, m: Metric, n: int)
    requires m in METRICS
    ensures Counts(u, m, n) <==> n == Quantity(u, m)
  {}

  lemma TierMeaning(s: Schedule, u: Usage, m: Metric)
    ensures TierFor(s, u.input, m, RateTier(m, TierOf(s, u.input)))
    ensures forall t :: TierFor(s, u.input, m, t) ==> t == RateTier(m, TierOf(s, u.input))
  {}

  lemma LineMeaning(s: Schedule, f: FX, u: Usage, m: Metric)
    requires ValidSchedule(s) && ValidFX(f) && ValidUsage(u) && m in METRICS
    requires Quantity(u, m) != 0 && UsagePrice(s, f, u, m).Some?
    ensures Line(s, f, u, m).Some? && Line(s, f, u, m).value.rate.metric == m && LineSays(s, f, u, Line(s, f, u, m).value)
  {
    hide ValidSchedule, ValidFX, ValidUsage, Amount, Decimal, Rational, METRICS, Format, QuotaUnits, Charge, Quantity;
    hide Listed, Read, TierFor, Counts, RoundsTo, TierOf, RateTier, ExchangeFor;
    var t := RateTier(m, TierOf(s, u.input));
    var r := Listed(s, t, m).value;
    ListedRate(s, t, m);
    assert Lists(s, t, m, r);
    var e := ExchangeOf(f, r.currency).value;
    ReadableRate(s, f, r, e);
    ChargeableLine(s, f, u, m);
    var c := Line(s, f, u, m).value;
    CountMeaning(u, m, c.quantity);
    TierMeaning(s, u, m);
    AmountReads(r.amount);
    AmountReads(e);
    ExchangeMeaning(s, f, r, e);
    ChargeMeaning(s, f, u, m, r, e);
    assert c.rate == r.(amount := c.rate.amount);
  }

  lemma ExchangeMeaning(s: Schedule, f: FX, r: Rate, e: string)
    requires ExchangeOf(f, r.currency) == Some(e) && Decimal(e).Some?
    ensures ExchangeFor(f, r.currency, Decimal(e).value)
  {
    hide Decimal;
    OneReads();
  }

  lemma ChargeMeaning(s: Schedule, f: FX, u: Usage, m: Metric, r: Rate, e: string)
    requires ValidSchedule(s) && Lists(s, RateTier(m, TierOf(s, u.input)), m, r)
    requires ExchangeOf(f, r.currency) == Some(e) && Quantity(u, m) != 0
    ensures UsagePrice(s, f, u, m).Some?
    ensures RoundsTo(Amount(r.amount), Quantity(u, m), if IsMedia(m) then 1.0 else 1_000_000.0, Amount(e),
                     Charge(s, f, u, m))
  {
    hide ValidSchedule, Amount, Quantity, TierOf, RateTier, HalfEven, Exact, UsagePrice, Divisor, Charge, RoundsTo;
    PriceIs(s, f, u, m, r, e);
    var p := UsagePrice(s, f, u, m).value;
    SameCharge(Amount(r.amount), Amount(e), p, Quantity(u, m), m);
    ChargeIs(s, f, u, m);
    DivisorIs(m);
    RoundedOnce(Amount(r.amount), Quantity(u, m), Divisor(m), Amount(e), Exact(p, Quantity(u, m), m), Charge(s, f, u, m));
  }

  lemma PriceIs(s: Schedule, f: FX, u: Usage, m: Metric, r: Rate, e: string)
    requires ValidSchedule(s) && Lists(s, RateTier(m, TierOf(s, u.input)), m, r)
    requires ExchangeOf(f, r.currency) == Some(e)
    ensures UsagePrice(s, f, u, m) == Some(Amount(r.amount) * Amount(e))
  {
    hide ValidSchedule, Amount, TierOf, RateTier, PriceOf;
    PriceAt(s, f, RateTier(m, TierOf(s, u.input)), m, r, e);
  }

  lemma ChargeIs(s: Schedule, f: FX, u: Usage, m: Metric)
    requires UsagePrice(s, f, u, m).Some? && Quantity(u, m) != 0
    ensures Charge(s, f, u, m) == HalfEven(Exact(UsagePrice(s, f, u, m).value, Quantity(u, m), m) * SCALE)
  {
    hide HalfEven, Exact, UsagePrice, Quantity;
  }

  lemma DivisorIs(m: Metric)
    ensures Divisor(m) == if IsMedia(m) then 1.0 else 1_000_000.0
  {}

  lemma RoundedOnce(a: real, q: int, d: real, e: real, x: real, units: int)
    requires d > 0.0 && a * (q as real / d) * e == x && units == HalfEven(x * SCALE)
    ensures RoundsTo(a, q, d, e, units)
  {
    hide IsHalfEven, HalfEven;
    assert IsHalfEven(x * SCALE, units);
    assert Product(a, q, d, e) == x;
  }

  /** The lines of the first n metrics. */
  ghost predicate LinesSay(s: Schedule, f: FX, u: Usage, n: nat, cs: seq<Component>)
    requires n <= |METRICS|
  {
    && (forall i :: 0 <= i < |cs| ==> LineSays(s, f, u, cs[i]) && cs[i].rate.metric in METRICS[..n])
    && (forall i, j :: 0 <= i < j < |cs| ==> cs[i].rate.metric != cs[j].rate.metric)
    && (forall k :: 0 <= k < n && Quantity(u, METRICS[k]) != 0 ==> exists i :: 0 <= i < |cs| && cs[i].rate.metric == METRICS[k])
  }

  lemma {:induction false} LinesMeaning(s: Schedule, f: FX, u: Usage, n: nat)
    requires ValidSchedule(s) && ValidFX(f) && ValidUsage(u) && Chargeable(s, f, u) && n <= |METRICS|
    ensures LinesSay(s, f, u, n, Lines(s, f, u, n))
    decreases n
  {
    hide ValidSchedule, ValidFX, ValidUsage, Line, LineSays, Quantity, LinesSay, UsagePrice;
    if n == 0 {
      NoLinesSay(s, f, u);
    } else {
      var m := METRICS[n - 1];
      LinesMeaning(s, f, u, n - 1);
      assert m in METRICS;
      if Quantity(u, m) != 0 {
        LineMeaning(s, f, u, m);
        OneMoreLine(s, f, u, n, Lines(s, f, u, n - 1), Line(s, f, u, m).value);
      } else {
        NoMoreLine(s, f, u, n, Lines(s, f, u, n - 1));
        assert Lines(s, f, u, n) == Lines(s, f, u, n - 1);
      }
    }
  }

  lemma NoLinesSay(s: Schedule, f: FX, u: Usage)
    ensures LinesSay(s, f, u, 0, [])
  {}

  lemma OneMoreLine(s: Schedule, f: FX, u: Usage, n: nat, cs: seq<Component>, c: Component)
    requires 0 < n <= |METRICS| && LinesSay(s, f, u, n - 1, cs) && LineSays(s, f, u, c) && c.rate.metric == METRICS[n - 1]
    ensures LinesSay(s, f, u, n, cs + [c])
  {
    hide LineSays, Quantity;
    var more := cs + [c];
    assert forall k :: 0 <= k < n - 1 ==> METRICS[k] != METRICS[n - 1];
    forall i | 0 <= i < |cs| ensures more[i].rate.metric in METRICS[..n] && more[i].rate.metric != c.rate.metric {
      assert more[i] == cs[i];
    }
    assert METRICS[n - 1] in METRICS[..n];
    forall k | 0 <= k < n && Quantity(u, METRICS[k]) != 0 ensures exists i :: 0 <= i < |more| && more[i].rate.metric == METRICS[k] {
      if k == n - 1 {
        assert more[|cs|].rate.metric == METRICS[k];
      } else {
        var i :| 0 <= i < |cs| && cs[i].rate.metric == METRICS[k];
        assert more[i].rate.metric == METRICS[k];
      }
    }
  }

  lemma NoMoreLine(s: Schedule, f: FX, u: Usage, n: nat, cs: seq<Component>)
    requires 0 < n <= |METRICS| && LinesSay(s, f, u, n - 1, cs) && Quantity(u, METRICS[n - 1]) == 0
    ensures LinesSay(s, f, u, n, cs)
  {
    hide LineSays, Quantity;
    forall i | 0 <= i < |cs| ensures cs[i].rate.metric in METRICS[..n] {
      var k :| 0 <= k < n - 1 && METRICS[k] == cs[i].rate.metric;
      assert METRICS[..n][k] == cs[i].rate.metric;
    }
  }

  /** Everything a quote says follows from its schedule, exchange rates and counts: one tier for all
      token lines, Long exactly above the threshold; one line for exactly each metric with a count;
      on every line the schedule's own enabled rate, and its charge rounded once. */
  lemma QuoteSays(s: Schedule, f: FX, u: Usage, q: Quote)
    requires ValidSchedule(s) && ValidFX(f) && ValidUsage(u) && Chargeable(s, f, u) && IsQuote(s, f, u, q)
    ensures (q.tier == Base || q.tier == Long) && (q.tier == Long <==> 0 < s.threshold < u.input)
    ensures q.usage == u && q.currency == f.platform && q.threshold == s.threshold
    ensures q.priceId == s.priceId && q.providerModelId == s.providerModelId
    ensures q.adapter == MultimodalAdapter <==> exists r :: r in s.rates && IsMedia(r.metric)
    ensures forall i :: 0 <= i < |q.components| ==> LineSays(s, f, u, q.components[i])
    ensures forall i :: 0 <= i < |q.components| && !IsMedia(q.components[i].rate.metric) ==>
              q.components[i].rate.tier == q.tier
    ensures forall i, j :: 0 <= i < j < |q.components| ==> q.components[i].rate.metric != q.components[j].rate.metric
    ensures forall m, n :: Counts(u, m, n) && n != 0 ==>
              exists i :: 0 <= i < |q.components| && q.components[i].rate.metric == m
  {
    hide ValidSchedule, ValidFX, ValidUsage, Chargeable, Lines, LineSays, Format, TotalUnits, Quantity;
    LinesMeaning(s, f, u, |METRICS|);
    forall i | 0 <= i < |q.components| && !IsMedia(q.components[i].rate.metric)
      ensures q.components[i].rate.tier == q.tier
    {
      LineTier(s, f, u, q.components[i]);
    }
    forall m, n | Counts(u, m, n) && n != 0
      ensures exists i :: 0 <= i < |q.components| && q.components[i].rate.metric == m
    {
      Metered(m, u, n);
      CountMeaning(u, m, n);
      var k :| 0 <= k < |METRICS| && METRICS[k] == m;
    }
  }

  lemma LineTier(s: Schedule, f: FX, u: Usage, c: Component)
    requires LineSays(s, f, u, c) && !IsMedia(c.rate.metric)
    ensures c.rate.tier == TierOf(s, u.input)
  {
    hide ExchangeFor, Counts, RoundsTo;
  }

  lemma Metered(m: Metric, u: Usage, n: int)
    requires Counts(u, m, n)
    ensures m in METRICS
  {
    assert METRICS[0] == Input && METRICS[1] == Output && METRICS[2] == CacheRead && METRICS[3] == CacheWrite
        && METRICS[4] == ImageInput && METRICS[5] == PDFInput;
  }

  /** A usage is priced exactly when every metric it counts has an enabled rate in its tier whose
      currency is the platform's or has an exchange rate. */
  lemma ChargeableSays(s: Schedule, f: FX, u: Usage)
    requires ValidSchedule(s)
    ensures Chargeable(s, f, u) <==>
              forall m, n :: Counts(u, m, n) && n != 0 ==>
                exists r :: r in s.rates && r.enabled && r.metric == m && TierFor(s, u.input, m, r.tier)
                            && (r.currency == f.platform || r.currency in f.rates)
  {
    hide ValidSchedule, Quantity, TierOf, RateTier, TierFor;
    forall m, n | Counts(u, m, n) ensures m in METRICS && n == Quantity(u, m) {
      Metered(m, u, n);
      CountMeaning(u, m, n);
    }
    forall m | m in METRICS
      ensures Counts(u, m, Quantity(u, m))
      ensures UsagePrice(s, f, u, m).Some? <==>
                exists r :: r in s.rates && r.enabled && r.metric == m && TierFor(s, u.input, m, r.tier)
                            && (r.currency == f.platform || r.currency in f.rates)
    {
      CountMeaning(u, m, Quantity(u, m));
      PricedMeaning(s, f, u, m);
    }
  }

  lemma PricedMeaning(s: Schedule, f: FX, u: Usage, m: Metric)
    requires ValidSchedule(s)
    ensures UsagePrice(s, f, u, m).Some? <==>
              exists r :: r in s.rates && r.enabled && r.metric == m && TierFor(s, u.input, m, r.tier)
                          && (r.currency == f.platform || r.currency in f.rates)
  {
    hide ValidSchedule, TierOf, RateTier, TierFor, Amount;
    var t := RateTier(m, TierOf(s, u.input));
    TierMeaning(s, u, m);
    CellPriced(s, f, t, m);
  }

  /** A cell has a price exactly when an enabled rate for it can be converted, and it is that rate. */
  lemma CellPriced(s: Schedule, f: FX, t: Tier, m: Metric)
    requires ValidSchedule(s)
    ensures PriceOf(s, f, t, m).Some? <==>
              exists r :: r in s.rates && r.enabled && r.metric == m && r.tier == t
                          && (r.currency == f.platform || r.currency in f.rates)
  {
    hide ValidSchedule, Amount, Listed;
    if r :| Lists(s, t, m, r) && (r.currency == f.platform || r.currency in f.rates) {
      ListedIs(s, t, m, r);
    } else if Listed(s, t, m).Some? {
      ListedRate(s, t, m);
    }
  }

  // ---------- what a reservation says ----------

  /** Some usage within the capacity can be charged for the metric in the tier. */
  predicate Reached(s: Schedule, c: Capacity, t: Tier, m: Metric)
  {
    match m
    case Input => c.input > 0 && InReach(s, c, t)
    case CacheRead => c.input > 0 && c.cacheRead && InReach(s, c, t)
    case CacheWrite => c.input > 0 && c.cacheWrite && InReach(s, c, t)
    case Output => c.output > 0 && InReach(s, c, t)
    case ImageInput => c.images > 0 && t == Base
    case PDFInput => c.pdfs > 0 && t == Base
    case OtherMetric(_) => false
  }

  predicate InReach(s: Schedule, c: Capacity, t: Tier) { t == Base || (t == Long && 0 < s.threshold < c.input) }

  /** An enabled rate of the schedule prices the metric in the tier at p in the platform currency. */
  ghost predicate Costs(s: Schedule, f: FX, t: Tier, m: Metric, p: real)
  {
    exists r, e :: PricedAs(s, f, t, m, r, e, p)
  }

  function Times(x: real, y: real): (p: real) { x * y }

  predicate PricedAs(s: Schedule, f: FX, t: Tier, m: Metric, r: Rate, e: string, p: real)
  {
    && r in s.rates && r.enabled && r.metric == m && r.tier == t && ExchangeFor(f, r.currency, e)
    && p == Times(Read(r.amount), Read(e))
  }

  /** p is the highest price that is in reach for one of the metrics, or zero when none is. */
  ghost predicate Tops(s: Schedule, f: FX, c: Capacity, ms: set<Metric>, p: real)
  {
    && (forall t, m :: m in ms && Reached(s, c, t, m) ==> exists k :: k <= p && Costs(s, f, t, m, k))
    && ((exists t, m :: m in ms && Reached(s, c, t, m) && Costs(s, f, t, m, p))
        || (p == 0.0 && forall t, m :: m in ms ==> !Reached(s, c, t, m)))
  }

  lemma CostsIs(s: Schedule, f: FX, t: Tier, m: Metric, p: real)
    requires ValidSchedule(s) && ValidFX(f)
    ensures Costs(s, f, t, m, p) <==> PriceOf(s, f, t, m) == Some(p)
  {
    hide ValidSchedule, ValidFX, PriceOf, PricedAs;
    if Costs(s, f, t, m, p) {
      var r, e :| PricedAs(s, f, t, m, r, e, p);
      CostIsPrice(s, f, t, m, r, e, p);
    }
    if PriceOf(s, f, t, m) == Some(p) {
      var r, e := PriceIsCost(s, f, t, m);
    }
  }

  lemma CostIsPrice(s: Schedule, f: FX, t: Tier, m: Metric, r: Rate, e: string, p: real)
    requires ValidSchedule(s) && ValidFX(f) && PricedAs(s, f, t, m, r, e, p)
    ensures PriceOf(s, f, t, m) == Some(p)
  {
    hide ValidSchedule, ValidFX, Amount, Read, Decimal, PriceOf, Rational, ExchangeFor, Times;
    var x := ConversionReads(f, r, e);
    ReadableRate(s, f, r, x);
    AmountReads(r.amount);
    AmountReads(x);
    PriceTimes(s, f, t, m, r, x);
  }

  lemma PriceTimes(s: Schedule, f: FX, t: Tier, m: Metric, r: Rate, x: string)
    requires ValidSchedule(s) && Lists(s, t, m, r) && ExchangeOf(f, r.currency) == Some(x)
    ensures PriceOf(s, f, t, m) == Some(Times(Amount(r.amount), Amount(x)))
  {
    hide ValidSchedule, Amount, PriceOf;
    PriceAt(s, f, t, m, r, x);
  }

  lemma PriceIsCost(s: Schedule, f: FX, t: Tier, m: Metric) returns (r: Rate, e: string)
    requires ValidSchedule(s) && ValidFX(f) && PriceOf(s, f, t, m).Some?
    ensures PricedAs(s, f, t, m, r, e, PriceOf(s, f, t, m).value)
  {
    hide ValidSchedule, ValidFX, Amount, Read, Decimal, PriceOf, Rational, ExchangeFor, Times;
    r := PricedByRate(s, f, t, m);
    var x := ExchangeOf(f, r.currency).value;
    ReadableRate(s, f, r, x);
    e := Decimal(x).value;
    ExchangeMeaning(s, f, r, x);
    AmountReads(r.amount);
    AmountReads(x);
    PriceTimes(s, f, t, m, r, x);
  }

  lemma ConversionReads(f: FX, r: Rate, e: string) returns (x: string)
    requires ExchangeFor(f, r.currency, e)
    ensures ExchangeOf(f, r.currency) == Some(x) && Decimal(x) == Some(e)
  {
    hide Decimal;
    OneReads();
    x := if r.currency == f.platform then "1" else f.rates[r.currency];
  }

  const INPUTS: set<Metric> := {Input, CacheRead, CacheWrite}

  lemma CellsReached(s: Schedule, c: Capacity)
    requires ValidCapacity(c)
    ensures forall t, m :: (t, m) in InputCells(s, c) <==> m in INPUTS && Reached(s, c, t, m)
    ensures forall t, m :: (t, m) in OutputCells(s, c) <==> m == Output && Reached(s, c, t, m)
    ensures forall t, m :: (t, m) in MediaCells(c) <==> IsMedia(m) && Reached(s, c, t, m)
  {
    assert forall t :: t in Tiers(s, c) <==> InReach(s, c, t);
  }

  /** A capacity is priced exactly when every cell in its reach has an enabled convertible rate. */
  lemma BoundPricedSays(s: Schedule, f: FX, c: Capacity)
    requires ValidSchedule(s) && ValidFX(f) && ValidCapacity(c)
    ensures BoundPriced(s, f, c) <==> forall t, m :: Reached(s, c, t, m) ==> exists p :: Costs(s, f, t, m, p)
  {
    hide ValidSchedule, ValidFX, PriceOf, InputCells, OutputCells, MediaCells, Costs, InReach;
    CellsReached(s, c);
    forall t, m ensures PriceOf(s, f, t, m).Some? <==> exists p :: Costs(s, f, t, m, p) {
      if PriceOf(s, f, t, m).Some? { CostsIs(s, f, t, m, PriceOf(s, f, t, m).value); }
      forall p | Costs(s, f, t, m, p) ensures PriceOf(s, f, t, m).Some? { CostsIs(s, f, t, m, p); }
    }
    forall t, m | Reached(s, c, t, m)
      ensures (t, m) in InputCells(s, c) || (t, m) in OutputCells(s, c) || (t, m) in MediaCells(c)
    {}
  }

  lemma HighestTops(s: Schedule, f: FX, c: Capacity, cells: set<Cell>, ms: set<Metric>, p: real)
    requires ValidSchedule(s) && ValidFX(f) && Highest(s, f, cells, p)
    requires forall t, m :: (t, m) in cells <==> m in ms && Reached(s, c, t, m)
    ensures Tops(s, f, c, ms, p)
  {
    hide ValidSchedule, ValidFX, PriceOf, Reached, Costs;
    forall t, m | m in ms && Reached(s, c, t, m)
      ensures exists k :: k <= p && Costs(s, f, t, m, k)
      ensures p == 0.0 ==> Costs(s, f, t, m, p)
    {
      assert (t, m) in cells;
      CostsIs(s, f, t, m, PriceOf(s, f, t, m).value);
      PriceNonNegative(s, f, t, m);
    }
    if p != 0.0 {
      var t, m :| (t, m) in cells && PriceOf(s, f, t, m) == Some(p);
      CostsIs(s, f, t, m, p);
    }
  }

  /** The price of a media kind in reach, and what it adds to the worst case. */
  lemma MediaTops(s: Schedule, f: FX, c: Capacity, m: Metric) returns (p: real)
    requires ValidSchedule(s) && ValidFX(f) && ValidCapacity(c) && BoundPriced(s, f, c) && IsMedia(m)
    ensures Tops(s, f, c, {m}, p)
    ensures var n := if m == ImageInput then c.images else c.pdfs; Exact(MediaPrice(s, f, m), n, m) == p * n as real
  {
    hide ValidSchedule, ValidFX, PriceOf, InputCells, OutputCells, Costs;
    var n := if m == ImageInput then c.images else c.pdfs;
    if n == 0 {
      p := 0.0;
    } else {
      assert (Base, m) in MediaCells(c);
      p := PriceOf(s, f, Base, m).value;
      CostsIs(s, f, Base, m, p);
      assert Reached(s, c, Base, m);
    }
  }

  /** The worst case in plain terms. */
  function Worst(c: Capacity, input: real, output: real, image: real, pdf: real): (x: real)
  {
    input * c.input as real / 1_000_000.0 + output * c.output as real / 1_000_000.0
    + image * c.images as real + pdf * c.pdfs as real
  }

  /** A reservation of that many units covers the worst case with half a unit for each component,
      and no more; a free worst case reserves nothing. */
  predicate Covers(worst: real, components: int, units: int)
  {
    if worst == 0.0 then units == 0
    else (units - 1) as real < worst * SCALE + components as real / 2.0 <= units as real
  }

  /** How many charges are rounded on their own at most. */
  predicate Roundings(c: Capacity, n: int)
  {
    n == (if c.input > 0 then 1 + (if c.cacheRead then 1 else 0) + (if c.cacheWrite then 1 else 0) else 0)
         + (if c.output > 0 then 1 else 0) + (if c.images > 0 then 1 else 0) + (if c.pdfs > 0 then 1 else 0)
  }

  /** Everything a reservation says follows from its schedule, exchange rates and capacity: the highest
      prices in reach, the full quantities at them, and the least amount that also covers roundings. */
  lemma ReservationSays(s: Schedule, f: FX, c: Capacity, q: BoundQuote)
    requires ValidSchedule(s) && ValidFX(f) && ValidCapacity(c) && IsReservation(s, f, c, q)
    ensures q.currency == f.platform && q.capacity == c && Roundings(c, q.components)
    ensures QuotaUnits(q.amount).Some?
    ensures exists input, output, image, pdf ::
              && Tops(s, f, c, {Input, CacheRead, CacheWrite}, input) && Tops(s, f, c, {Output}, output)
              && Tops(s, f, c, {ImageInput}, image) && Tops(s, f, c, {PDFInput}, pdf)
              && Covers(Worst(c, input, output, image, pdf), q.components, QuotaUnits(q.amount).value)
  {
    hide ValidSchedule, ValidFX, Reserves, Format, QuotaUnits, Tops, Worst, Covers, Roundings, Pow10;
    var units: nat :| Reserves(s, f, c, units) && q == BoundQuote(Format(units), f.platform, c, ComponentCount(c));
    ReserveBelow(s, f, c, units);
    Pow10Monotone(77, 78);
    QuotaRoundTrip(units);
    var input, output, image, pdf := UnitsSay(s, f, c, units);
    CountIs(c);
  }

  lemma UnitsSay(s: Schedule, f: FX, c: Capacity, units: nat) returns (input: real, output: real, image: real, pdf: real)
    requires ValidSchedule(s) && ValidFX(f) && ValidCapacity(c) && Reserves(s, f, c, units)
    ensures Tops(s, f, c, {Input, CacheRead, CacheWrite}, input) && Tops(s, f, c, {Output}, output)
    ensures Tops(s, f, c, {ImageInput}, image) && Tops(s, f, c, {PDFInput}, pdf)
    ensures Covers(Worst(c, input, output, image, pdf), ComponentCount(c), units)
  {
    hide ValidSchedule, ValidFX, Highest, WorstCase, ComponentCount, BoundUnits, BoundPriced, Tops, Worst, Covers;
    hide InputCells, OutputCells, MediaPrice, Exact, Reached;
    input, output :|
      && Highest(s, f, InputCells(s, c), input) && Highest(s, f, OutputCells(s, c), output)
      && units == BoundUnits(WorstCase(s, f, c, input, output), ComponentCount(c));
    CellsReached(s, c);
    HighestTops(s, f, c, InputCells(s, c), {Input, CacheRead, CacheWrite}, input);
    HighestTops(s, f, c, OutputCells(s, c), {Output}, output);
    image := MediaTops(s, f, c, ImageInput);
    pdf := MediaTops(s, f, c, PDFInput);
    WorstIs(s, f, c, input, output, image, pdf);
    UnitsCover(Worst(c, input, output, image, pdf), ComponentCount(c), units);
  }

  lemma WorstIs(s: Schedule, f: FX, c: Capacity, input: real, output: real, image: real, pdf: real)
    requires Exact(MediaPrice(s, f, ImageInput), c.images, ImageInput) == image * c.images as real
    requires Exact(MediaPrice(s, f, PDFInput), c.pdfs, PDFInput) == pdf * c.pdfs as real
    ensures Worst(c, input, output, image, pdf) == WorstCase(s, f, c, input, output)
  {
    hide MediaPrice;
  }

  lemma CountIs(c: Capacity)
    requires ValidCapacity(c)
    ensures Roundings(c, ComponentCount(c))
  {
    MetricCount(c);
  }

  lemma UnitsCover(worst: real, components: int, units: int)
    requires units == BoundUnits(worst, components)
    ensures Covers(worst, components, units)
  {}
}
