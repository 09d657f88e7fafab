/** Charging a usage and reserving for a capacity, as the pricing engine does it. */
module Pricing {
  import opened Wrappers
  import opened Decimals
  import opened DecimalText
  import opened PricingTypes
  import opened PricingBounds

  // ---------- text ----------

  /** An amount with at most 60 integer digits, read back from its text. */
  function Read(s: string): (r: real)
  {
    match QuotaUnits(s) case Some(u) => u as real / SCALE case None => 0.0
  }

  /** Rounds to 18 places, half to even, and writes the result. */
  method Rounded(r: real) returns (value: string)
    requires 0.0 <= r
    ensures 0 <= HalfEven(r * SCALE) && value == Format(HalfEven(r * SCALE))
  {
    var num := r * SCALE;
    var q := num.Floor;
    var rem := num - q as real;
    var twice := rem + rem;
    if twice > 1.0 || (twice == 1.0 && q % 2 == 1) { q := q + 1; }
    assert IsHalfEven(num, q);
    HalfEvenUnique(num, q, HalfEven(num));
    var digits := Digits(q);
    if |digits| <= FRACTION_DIGITS { digits := Zeros(FRACTION_DIGITS + 1 - |digits|) + digits; }
    value := digits[..|digits| - FRACTION_DIGITS] + "." + digits[|digits| - FRACTION_DIGITS..];
    value := TrimRight(TrimRight(value, '0'), '.');
  }

  /** Rounding a whole number of units only writes it. */
  lemma WholeUnits(n: nat)
    ensures n as real / SCALE * SCALE == n as real && HalfEven(n as real) == n
  {
    assert IsHalfEven(n as real, n);
  }

  // ---------- validation ----------

  method ValidateSchedule(s: Schedule) returns (ok: bool)
    ensures ok <==> ValidSchedule(s)
  {
    hide ValidRate;
    if s.protocol !in PROTOCOLS || s.threshold !in THRESHOLDS || |s.rates| > MAX_RATES { return false; }
    var seen: set<(Metric, Tier)> := {};
    var i := 0;
    while i < |s.rates|
      invariant 0 <= i <= |s.rates|
      invariant forall j :: 0 <= j < i ==> ValidRate(s.rates[j]) && (s.rates[j].metric, s.rates[j].tier) in seen
      invariant forall p :: p in seen ==> exists j :: 0 <= j < i && p == (s.rates[j].metric, s.rates[j].tier)
      invariant forall j, k :: 0 <= j < k < i ==>
                  s.rates[j].metric != s.rates[k].metric || s.rates[j].tier != s.rates[k].tier
      invariant forall j :: 0 <= j < i && s.rates[j].tier == Long && s.rates[j].enabled ==> s.threshold != 0
    {
      var r := s.rates[i];
      if !ValidRate(r) { return false; }
      if (r.metric, r.tier) in seen || (r.tier == Long && r.enabled && s.threshold == 0) { return false; }
      seen := seen + {(r.metric, r.tier)};
      i := i + 1;
    }
    return true;
  }

  method ValidateFX(f: FX) returns (ok: bool)
    ensures ok <==> ValidFX(f)
  {
    hide Rational;
    if f.platform !in CURRENCIES { return false; }
    var todo := f.rates.Keys;
    while todo != {}
      invariant todo <= f.rates.Keys
      invariant forall c :: c in f.rates && c !in todo ==> ValidExchange(f, c, f.rates[c])
      decreases |todo|
    {
      var currency :| currency in todo;
      if currency !in CURRENCIES { return false; }
      var r := Rational(f.rates[currency]);
      if r.None? || r.value <= 0.0 { return false; }
      if currency == f.platform && r.value != 1.0 { return false; }
      todo := todo - {currency};
    }
    return true;
  }

  /** The canonical form of an amount has its value. */
  lemma RationalIsAmount(s: string)
    requires Decimal(s).Some?
    ensures Rational(s) == Some(Amount(s))
  {
    DecimalKeeps(s);
  }

  lemma One()
    ensures Decimal("1") == Some("1") && Amount("1") == 1.0 && Rational("1") == Some(1.0)
  {
    hide Pow10;
    PartsOf("1", "");
    TrailingZeros("1", 18);
    Pow10Values();
    assert "1"[..0] == "" && DigitsValue("1") == 1;
    assert UnitDigits("1") == "1" + Zeros(18);
  }

  lemma ListedIs(s: Schedule, t: Tier, m: Metric, r: Rate)
    requires ValidSchedule(s) && Lists(s, t, m, r)
    ensures Listed(s, t, m) == Some(r)
  {
    hide ValidRate;
  }

  // ---------- prices ----------

  /** The first enabled rate for a metric in a tier. */
  method Select(s: Schedule, t: Tier, m: Metric) returns (selected: Option<Rate>)
    ensures selected.Some? ==> Lists(s, t, m, selected.value)
    ensures selected.None? ==> forall r :: !Lists(s, t, m, r)
  {
    var index := 0;
    while index < |s.rates|
      invariant 0 <= index <= |s.rates|
      invariant forall j :: 0 <= j < index ==> !Lists(s, t, m, s.rates[j])
    {
      var rate := s.rates[index];
      if rate.tier == t && rate.metric == m && rate.enabled { return Some(rate); }
      index := index + 1;
    }
    return None;
  }

  /** The price of a cell in the platform currency. */
  method Convert(s: Schedule, f: FX, t: Tier, m: Metric) returns (p: Priced<real>)
    requires ValidSchedule(s) && ValidFX(f)
    ensures p == match PriceOf(s, f, t, m) case Some(v) => Priced(v) case None => Unpriced
  {
    hide ValidSchedule, ValidFX, Amount, Rational, Decimal;
    var selected := Select(s, t, m);
    if selected.None? { return Unpriced; }
    var r := selected.value;
    var exchange := "1";
    if r.currency != f.platform {
      if r.currency !in f.rates {
        PriceMissing(s, f, t, m, r);
        return Unpriced;
      }
      exchange := f.rates[r.currency];
    }
    ReadableRate(s, f, r, exchange);
    var rate := Rational(r.amount);
    if rate.None? { return Invalid; }
    var conversion := Rational(exchange);
    if conversion.None? { return Invalid; }
    PriceAt(s, f, t, m, r, exchange);
    var price := rate.value * conversion.value;
    assert price == Amount(r.amount) * Amount(exchange);
    return Priced(price);
  }

  lemma PriceAt(s: Schedule, f: FX, t: Tier, m: Metric, r: Rate, exchange: string)
    requires ValidSchedule(s) && Lists(s, t, m, r) && ExchangeOf(f, r.currency) == Some(exchange)
    ensures PriceOf(s, f, t, m) == Some(Amount(r.amount) * Amount(exchange))
  {
    hide AmountUnits, ValidSchedule;
    ListedIs(s, t, m, r);
    assert PriceOf(s, f, t, m) == RatePrice(f, r);
    assert RatePrice(f, r) == Some(Amount(r.amount) * Amount(ExchangeOf(f, r.currency).value));
  }

  lemma PriceMissing(s: Schedule, f: FX, t: Tier, m: Metric, r: Rate)
    requires ValidSchedule(s) && Lists(s, t, m, r) && ExchangeOf(f, r.currency) == None
    ensures PriceOf(s, f, t, m) == None
  {
    hide ValidSchedule;
    ListedIs(s, t, m, r);
  }

  lemma ReadableRate(s: Schedule, f: FX, r: Rate, exchange: string)
    requires ValidSchedule(s) && ValidFX(f) && r in s.rates && ExchangeOf(f, r.currency) == Some(exchange)
    ensures Rational(r.amount) == Some(Amount(r.amount)) && Decimal(r.amount).Some?
    ensures Rational(exchange) == Some(Amount(exchange)) && Decimal(exchange).Some?
  {
    hide Amount, Decimal;
    assert ValidRate(r);
    RationalIsAmount(r.amount);
    if r.currency == f.platform { One(); }
    else {
      assert ValidExchange(f, r.currency, exchange);
      RationalIsAmount(exchange);
    }
  }

  // ---------- reservations ----------

  /** A metric whose capacity is zero needs no price. */
  predicate Wanted(c: Capacity, m: Metric) { if m == Output then c.output != 0 else c.input != 0 }

  function Inputs(done: set<Cell>): (cells: set<Cell>) { set p | p in done && p.1 != Output }

  function Outputs(done: set<Cell>): (cells: set<Cell>) { set p | p in done && p.1 == Output }

  /** The two highest prices after the cells in done were visited. */
  ghost predicate Visited(s: Schedule, f: FX, c: Capacity, done: set<Cell>, input: real, output: real)
  {
    Highest(s, f, Inputs(done), input) && Highest(s, f, Outputs(done), output)
  }

  lemma VisitedNone(s: Schedule, f: FX, c: Capacity)
    ensures Visited(s, f, c, {}, 0.0, 0.0)
  {}

  /** Visiting one more priced cell raises the price of its side if it is higher. */
  lemma VisitedOne(s: Schedule, f: FX, c: Capacity, done: set<Cell>, input: real, output: real, t: Tier, m: Metric)
    requires Visited(s, f, c, done, input, output) && PriceOf(s, f, t, m).Some?
    ensures var p := PriceOf(s, f, t, m).value;
            if m == Output then Visited(s, f, c, done + {(t, m)}, input, if p > output then p else output)
            else Visited(s, f, c, done + {(t, m)}, if p > input then p else input, output)
  {
    hide PriceOf;
    var more := done + {(t, m)};
    if m == Output {
      assert Inputs(more) == Inputs(done) && Outputs(more) == Outputs(done) + {(t, m)};
      HighestOne(s, f, Outputs(done), output, t, m);
    } else {
      assert Inputs(more) == Inputs(done) + {(t, m)} && Outputs(more) == Outputs(done);
      HighestOne(s, f, Inputs(done), input, t, m);
    }
  }

  lemma HighestOne(s: Schedule, f: FX, cells: set<Cell>, high: real, t: Tier, m: Metric)
    requires Highest(s, f, cells, high) && PriceOf(s, f, t, m).Some?
    ensures Highest(s, f, cells + {(t, m)}, if PriceOf(s, f, t, m).value > high then PriceOf(s, f, t, m).value else high)
  {
    hide PriceOf;
    if high != 0.0 {
      var k, n :| (k, n) in cells && PriceOf(s, f, k, n) == Some(high);
      assert (k, n) in cells + {(t, m)};
    }
    assert (t, m) in cells + {(t, m)};
  }

  /** The price loop of a reservation: every reachable tier and every billed metric. */
  method HighestPrices(s: Schedule, f: FX, c: Capacity, tiers: seq<Tier>, metrics: seq<Metric>)
    returns (r: Priced<(real, real)>)
    requires ValidSchedule(s) && ValidFX(f)
    requires (set t | t in tiers) == Tiers(s, c) && (set m | m in metrics) == InputMetrics(c)
    ensures r != Invalid
    ensures r == Unpriced <==> !(AllPriced(s, f, InputCells(s, c)) && AllPriced(s, f, OutputCells(s, c)))
    ensures r.Priced? ==> Highest(s, f, InputCells(s, c), r.value.0) && Highest(s, f, OutputCells(s, c), r.value.1)
  {
    hide PriceOf, ValidSchedule, ValidFX, Visited, Tiers, InputMetrics;
    var maxInput, maxOutput := 0.0, 0.0;
    ghost var done: set<Cell> := {};
    VisitedNone(s, f, c);
    var all := metrics + [Output];
    var i := 0;
    while i < |tiers|
      invariant 0 <= i <= |tiers|
      invariant Visited(s, f, c, done, maxInput, maxOutput)
      invariant forall t, m :: (t, m) in done <==> t in tiers[..i] && m in all && Wanted(c, m)
    {
      ghost var before := done;
      var j := 0;
      while j < |all|
        invariant 0 <= j <= |all|
        invariant Visited(s, f, c, done, maxInput, maxOutput)
        invariant forall t, m :: (t, m) in done <==> (t, m) in before || (t == tiers[i] && m in all[..j] && Wanted(c, m))
      {
        var metric := all[j];
        if Wanted(c, metric) {
          var price := Convert(s, f, tiers[i], metric);
          if price == Unpriced {
            MissingCell(s, f, c, tiers, metrics, i, j);
            return Unpriced;
          }
          VisitedOne(s, f, c, done, maxInput, maxOutput, tiers[i], metric);
          if metric == Output {
            if price.value > maxOutput { maxOutput := price.value; }
          } else if price.value > maxInput {
            maxInput := price.value;
          }
          done := done + {(tiers[i], metric)};
        }
        j := j + 1;
      }
      i := i + 1;
    }
    AllVisited(s, f, c, tiers, metrics, done, maxInput, maxOutput);
    return Priced((maxInput, maxOutput));
  }

  lemma MissingCell(s: Schedule, f: FX, c: Capacity, tiers: seq<Tier>, metrics: seq<Metric>, i: nat, j: nat)
    requires (set t | t in tiers) == Tiers(s, c) && (set m | m in metrics) == InputMetrics(c)
    requires i < |tiers| && j < |metrics + [Output]| && Wanted(c, (metrics + [Output])[j])
    requires PriceOf(s, f, tiers[i], (metrics + [Output])[j]).None?
    ensures !(AllPriced(s, f, InputCells(s, c)) && AllPriced(s, f, OutputCells(s, c)))
  {
    hide PriceOf;
    var t, m := tiers[i], (metrics + [Output])[j];
    assert t in Tiers(s, c);
    if m == Output { assert (t, m) in OutputCells(s, c); }
    else {
      assert m in InputMetrics(c);
      assert (t, m) in InputCells(s, c);
    }
  }

  lemma AllVisited(s: Schedule, f: FX, c: Capacity, tiers: seq<Tier>, metrics: seq<Metric>, done: set<Cell>,
                   input: real, output: real)
    requires (set t | t in tiers) == Tiers(s, c) && (set m | m in metrics) == InputMetrics(c)
    requires Visited(s, f, c, done, input, output)
    requires forall t, m :: (t, m) in done <==> t in tiers && m in metrics + [Output] && Wanted(c, m)
    ensures Highest(s, f, InputCells(s, c), input) && Highest(s, f, OutputCells(s, c), output)
    ensures AllPriced(s, f, InputCells(s, c)) && AllPriced(s, f, OutputCells(s, c))
  {
    hide PriceOf, Tiers;
    forall t, m ensures (t, m) in InputCells(s, c) <==> (t, m) in done && m != Output {
      assert t in Tiers(s, c) <==> t in tiers;
      assert m in InputMetrics(c) <==> m in metrics;
    }
    forall t, m ensures (t, m) in OutputCells(s, c) <==> (t, m) in done && m == Output {
      assert t in Tiers(s, c) <==> t in tiers;
    }
    SameCells(InputCells(s, c), Inputs(done));
    SameCells(OutputCells(s, c), Outputs(done));
  }

  lemma SameCells(a: set<Cell>, b: set<Cell>)
    requires forall t, m :: (t, m) in a <==> (t, m) in b
    ensures a == b
  {
    forall p: Cell ensures p in a <==> p in b {
      assert p == (p.0, p.1);
    }
  }

  lemma FormatZero()
    ensures Format(0) == "0"
  {
    assert Padded(0) == Zeros(18) + "0";
    assert Padded(0)[..1] == "0" && Padded(0)[1..] == Zeros(18);
    TrimmedParts("0", Zeros(18));
    SameTrim("", 18);
    assert "" + Zeros(18) == Zeros(18);
    assert TrimRight("", '0') == "";
  }

  /** Image and document prices added to the worst case, one after the other. */
  method AddMedia(s: Schedule, f: FX, c: Capacity, exact: real, components: int)
    returns (r: Priced<(real, int)>)
    requires ValidSchedule(s) && ValidFX(f) && ValidCapacity(c)
    ensures r != Invalid
    ensures r == Unpriced <==> !AllPriced(s, f, MediaCells(c))
    ensures r.Priced? ==>
              && r.value.0 == exact + Exact(MediaPrice(s, f, ImageInput), c.images, ImageInput)
                              + Exact(MediaPrice(s, f, PDFInput), c.pdfs, PDFInput)
              && r.value.1 == components + (if c.images == 0 then 0 else 1) + (if c.pdfs == 0 then 0 else 1)
  {
    hide PriceOf, ValidSchedule, ValidFX;
    var total, count := exact, components;
    var items := [(ImageInput, c.images), (PDFInput, c.pdfs)];
    var i := 0;
    while i < |items|
      invariant 0 <= i <= |items|
      invariant i >= 1 && c.images != 0 ==> PriceOf(s, f, Base, ImageInput).Some?
      invariant i >= 2 && c.pdfs != 0 ==> PriceOf(s, f, Base, PDFInput).Some?
      invariant total == exact + (if i >= 1 then Exact(MediaPrice(s, f, ImageInput), c.images, ImageInput) else 0.0)
                         + (if i >= 2 then Exact(MediaPrice(s, f, PDFInput), c.pdfs, PDFInput) else 0.0)
      invariant count == components + (if i >= 1 && c.images != 0 then 1 else 0) + (if i >= 2 && c.pdfs != 0 then 1 else 0)
    {
      var metric, quantity := items[i].0, items[i].1;
      if quantity != 0 {
        count := count + 1;
        var rate := Convert(s, f, Base, metric);
        if rate == Unpriced {
          assert (Base, metric) in MediaCells(c);
          return Unpriced;
        }
        var part := rate.value * quantity as real;
        assert part == Exact(MediaPrice(s, f, metric), quantity, metric);
        total := total + part;
      } else {
        assert Exact(MediaPrice(s, f, metric), 0, metric) == 0.0;
      }
      i := i + 1;
    }
    return Priced((total, count));
  }

  /** The quote states the reservation in units of 10^-18, in the platform currency. */
  ghost predicate IsReservation(s: Schedule, f: FX, c: Capacity, q: BoundQuote)
  {
    exists units: nat :: Reserves(s, f, c, units) && q == BoundQuote(Format(units), f.platform, c, ComponentCount(c))
  }

  /** What to reserve for a request before it runs. */
  method ReserveBound(s: Schedule, f: FX, c: Capacity) returns (r: Priced<BoundQuote>)
    ensures r == Invalid <==> !(ValidCapacity(c) && ValidSchedule(s) && ValidFX(f))
    ensures ValidCapacity(c) && ValidSchedule(s) && ValidFX(f) ==>
              (r == Unpriced <==> !(Configured(s) && BoundPriced(s, f, c)))
    ensures r.Priced? ==> IsReservation(s, f, c, r.value)
  {
    hide ValidSchedule, ValidFX, Highest, AllPriced, MediaPrice, Exact, BoundUnits, InputCells, OutputCells, MediaCells;
    hide ComponentCount, WorstCase, Reserves, InputMetrics, Tiers, Format;
    if c.input < 0 || c.output < 0 || c.images < 0 || c.pdfs < 0 { return Invalid; }
    var ok := ValidateSchedule(s);
    if !ok { return Invalid; }
    ok := ValidateFX(f);
    if !ok { return Invalid; }
    var configured := AnyEnabled(s);
    if !configured { return Unpriced; }
    var tiers := [Base];
    if s.threshold > 0 && c.input > s.threshold { tiers := tiers + [Long]; }
    var metrics := [Input];
    if c.cacheRead { metrics := metrics + [CacheRead]; }
    if c.cacheWrite { metrics := metrics + [CacheWrite]; }
    var components := 0;
    if c.input > 0 { components := |metrics|; }
    if c.output > 0 { components := components + 1; }
    Considered(s, c, tiers, metrics, components);
    var highest := HighestPrices(s, f, c, tiers, metrics);
    if highest == Unpriced { return Unpriced; }
    var maxInput, maxOutput := highest.value.0, highest.value.1;
    var exact := maxInput * (c.input as real / 1_000_000.0) + maxOutput * (c.output as real / 1_000_000.0);
    TokenParts(maxInput, c.input, maxOutput, c.output);
    var media := AddMedia(s, f, c, exact, components);
    if media == Unpriced { return Unpriced; }
    exact, components := media.value.0, media.value.1;
    WorstReserved(s, f, c, maxInput, maxOutput, exact, components);
    var amount := RoundUp(exact, components);
    assert Reserves(s, f, c, BoundUnits(exact, components) as nat);
    return Priced(BoundQuote(amount, f.platform, c, components));
  }

  /** The tiers, metrics and components that a reservation considers. */
  lemma Considered(s: Schedule, c: Capacity, tiers: seq<Tier>, metrics: seq<Metric>, components: int)
    requires ValidCapacity(c)
    requires tiers == [Base] + (if s.threshold > 0 && c.input > s.threshold then [Long] else [])
    requires metrics == [Input] + (if c.cacheRead then [CacheRead] else []) + (if c.cacheWrite then [CacheWrite] else [])
    requires components == (if c.input > 0 then |metrics| else 0) + (if c.output > 0 then 1 else 0)
    ensures (set t | t in tiers) == Tiers(s, c) && (set m | m in metrics) == InputMetrics(c)
    ensures ComponentCount(c) == components + (if c.images == 0 then 0 else 1) + (if c.pdfs == 0 then 0 else 1)
  {
    hide ComponentCount;
    TiersOf(s, c, tiers);
    MetricsOf(c, metrics);
    CountOf(c, |metrics|);
  }

  lemma TiersOf(s: Schedule, c: Capacity, tiers: seq<Tier>)
    requires tiers == [Base] + (if s.threshold > 0 && c.input > s.threshold then [Long] else [])
    ensures (set t | t in tiers) == Tiers(s, c)
  {}

  lemma MetricsOf(c: Capacity, metrics: seq<Metric>)
    requires metrics == [Input] + (if c.cacheRead then [CacheRead] else []) + (if c.cacheWrite then [CacheWrite] else [])
    ensures (set m | m in metrics) == InputMetrics(c)
    ensures |metrics| == |InputMetrics(c)|
  {
    MetricCount(c);
  }

  lemma CountOf(c: Capacity, n: int)
    requires ValidCapacity(c) && n == |InputMetrics(c)|
    ensures ComponentCount(c) == (if c.input > 0 then n else 0) + (if c.output > 0 then 1 else 0)
                                 + (if c.images == 0 then 0 else 1) + (if c.pdfs == 0 then 0 else 1)
  {}

  lemma WorstReserved(s: Schedule, f: FX, c: Capacity, input: real, output: real, exact: real, components: int)
    requires ValidCapacity(c) && BoundPriced(s, f, c)
    requires Highest(s, f, InputCells(s, c), input) && Highest(s, f, OutputCells(s, c), output)
    requires exact == Exact(input, c.input, Input) + Exact(output, c.output, Output)
                      + Exact(MediaPrice(s, f, ImageInput), c.images, ImageInput)
                      + Exact(MediaPrice(s, f, PDFInput), c.pdfs, PDFInput)
    requires components == ComponentCount(c)
    ensures Reserves(s, f, c, BoundUnits(exact, components)) && 0.0 <= exact && 0 <= components
    ensures 0 <= BoundUnits(exact, components)
  {
    hide Highest, Exact, MediaPrice, ComponentCount, BoundPriced, BoundUnits;
    assert exact == WorstCase(s, f, c, input, output);
    HighestNonNegative(s, f, InputCells(s, c), input);
    HighestNonNegative(s, f, OutputCells(s, c), output);
    WorstGrows(s, f, c, c, input, output, input, output);
    CountNonNegative(c);
    BoundGrows(exact, components, exact, components);
  }

  /** Half a unit per component on top, rounded up to a whole unit and written. */
  method RoundUp(exact: real, components: int) returns (amount: string)
    requires 0.0 <= exact && 0 <= components && 0 <= BoundUnits(exact, components)
    ensures amount == Format(BoundUnits(exact, components))
  {
    hide Format;
    if exact == 0.0 {
      FormatZero();
      return "0";
    }
    var units := exact * SCALE;
    units := units + components as real / 2.0;
    var roundedUp := units.Floor;
    if roundedUp as real != units { roundedUp := roundedUp + 1; }
    assert roundedUp == BoundUnits(exact, components);
    WholeUnits(roundedUp);
    amount := Rounded(roundedUp as real / SCALE);
  }

  lemma TokenParts(p: real, q: int, k: real, n: int)
    ensures p * (q as real / 1_000_000.0) + k * (n as real / 1_000_000.0) == Exact(p, q, Input) + Exact(k, n, Output)
  {
    assert p * (q as real / 1_000_000.0) == p * q as real / 1_000_000.0;
    assert k * (n as real / 1_000_000.0) == k * n as real / 1_000_000.0;
  }

  method AnyEnabled(s: Schedule) returns (configured: bool)
    ensures configured <==> Configured(s)
  {
    configured := false;
    var i := 0;
    while i < |s.rates|
      invariant 0 <= i <= |s.rates|
      invariant configured <==> exists j :: 0 <= j < i && s.rates[j].enabled
    {
      configured := configured || s.rates[i].enabled;
      i := i + 1;
    }
  }

  // ---------- charges ----------

  /** Whether a request with this tier looks at the rate. */
  predicate InTier(r: Rate, t: Tier) { r.tier == t || (r.tier == Base && Media(r.metric)) }

  /** The rates of the request's tier by metric, enabled or not, as far as the first n go. */
  predicate ByMetric(s: Schedule, t: Tier, n: int, rates: map<Metric, Rate>)
    requires 0 <= n <= |s.rates|
  {
    && (forall m :: m in rates ==> exists j :: 0 <= j < n && s.rates[j] == rates[m] && rates[m].metric == m && InTier(rates[m], t))
    && (forall j :: 0 <= j < n && InTier(s.rates[j], t) ==> s.rates[j].metric in rates && rates[s.rates[j].metric] == s.rates[j])
  }

  lemma ByMetricStep(s: Schedule, t: Tier, n: int, rates: map<Metric, Rate>)
    requires ValidSchedule(s) && (t == Base || t == Long) && 0 <= n < |s.rates| && ByMetric(s, t, n, rates)
    ensures ByMetric(s, t, n + 1, if InTier(s.rates[n], t) then rates[s.rates[n].metric := s.rates[n]] else rates)
  {
    hide ValidSchedule;
    var r := s.rates[n];
    var next := if InTier(r, t) then rates[r.metric := r] else rates;
    forall m | m in next
      ensures exists j :: 0 <= j < n + 1 && s.rates[j] == next[m] && next[m].metric == m && InTier(next[m], t)
    {
      if !(InTier(r, t) && m == r.metric) {
        var j :| 0 <= j < n && s.rates[j] == rates[m] && rates[m].metric == m && InTier(rates[m], t);
      }
    }
    forall j | 0 <= j < n && InTier(s.rates[j], t) && InTier(r, t) ensures s.rates[j].metric != r.metric {
      OnePerTier(s, t, j, n);
    }
  }

  lemma OnePerTier(s: Schedule, t: Tier, i: int, j: int)
    requires ValidSchedule(s) && (t == Base || t == Long) && 0 <= i < j < |s.rates|
    requires InTier(s.rates[i], t) && InTier(s.rates[j], t)
    ensures s.rates[i].metric != s.rates[j].metric
  {
    assert ValidRate(s.rates[i]) && ValidRate(s.rates[j]);
  }

  lemma MappedIsListed(s: Schedule, t: Tier, rates: map<Metric, Rate>, m: Metric)
    requires ValidSchedule(s) && (t == Base || t == Long) && ByMetric(s, t, |s.rates|, rates)
    requires m in rates && rates[m].enabled
    ensures Lists(s, RateTier(m, t), m, rates[m])
  {
    hide ValidRate;
    var j :| 0 <= j < |s.rates| && s.rates[j] == rates[m] && rates[m].metric == m && InTier(rates[m], t);
    ValidInTier(s, t, j);
  }

  lemma ValidInTier(s: Schedule, t: Tier, j: int)
    requires ValidSchedule(s) && (t == Base || t == Long) && 0 <= j < |s.rates|
    ensures InTier(s.rates[j], t) <==> s.rates[j].tier == RateTier(s.rates[j].metric, t)
  {
    assert ValidRate(s.rates[j]);
  }

  lemma ListedIsMapped(s: Schedule, t: Tier, rates: map<Metric, Rate>, m: Metric, r: Rate)
    requires ValidSchedule(s) && (t == Base || t == Long) && ByMetric(s, t, |s.rates|, rates)
    requires Lists(s, RateTier(m, t), m, r)
    ensures m in rates && rates[m] == r
  {
    hide ValidSchedule, InTier;
    var j :| 0 <= j < |s.rates| && s.rates[j] == r;
    ValidInTier(s, t, j);
  }

  /** The rate a metric is charged at is the enabled one that the schedule lists. */
  lemma ByMetricListed(s: Schedule, t: Tier, rates: map<Metric, Rate>, m: Metric)
    requires ValidSchedule(s) && (t == Base || t == Long) && ByMetric(s, t, |s.rates|, rates)
    ensures Listed(s, RateTier(m, t), m) == if m in rates && rates[m].enabled then Some(rates[m]) else None
  {
    hide ValidSchedule, ByMetric, RateTier;
    if m in rates && rates[m].enabled {
      MappedIsListed(s, t, rates, m);
      ListedIs(s, RateTier(m, t), m, rates[m]);
    } else if exists r :: Lists(s, RateTier(m, t), m, r) {
      var r :| Lists(s, RateTier(m, t), m, r);
      ListedIsMapped(s, t, rates, m, r);
    }
  }

  function AdapterOf(s: Schedule): (a: Adapter)
  {
    if exists r :: r in s.rates && Media(r.metric) then MultimodalAdapter else TextAdapter
  }

  /** The amounts of the first n metrics are in: their lines, and their sum in units. */
  ghost predicate Billed(s: Schedule, f: FX, u: Usage, n: nat, lines: seq<Component>, total: real)
    requires n <= |METRICS|
  {
    && (forall m :: m in METRICS[..n] && Quantity(u, m) != 0 ==> UsagePrice(s, f, u, m).Some?)
    && lines == Lines(s, f, u, n)
    && total == ChargeSum(s, f, u, n) as real / SCALE
  }

  /** One metric of a quote: its rate, its exchange rate and its rounded charge. */
  method ChargeLine(s: Schedule, f: FX, u: Usage, t: Tier, rates: map<Metric, Rate>, metric: Metric, quantity: int, divisor: real)
    returns (r: Priced<(Component, real)>)
    requires ValidSchedule(s) && ValidFX(f) && ValidUsage(u) && t == TierOf(s, u.input)
    requires ByMetric(s, t, |s.rates|, rates) && metric in METRICS
    requires quantity == Quantity(u, metric) != 0 && divisor == Divisor(metric)
    ensures r != Invalid
    ensures r == Unpriced <==> UsagePrice(s, f, u, metric) == None
    ensures r.Priced? ==>
              && Line(s, f, u, metric) == Some(r.value.0)
              && r.value.1 == Charge(s, f, u, metric) as real / SCALE
  {
    hide ValidSchedule, ValidFX, ValidUsage, ByMetric, Rational, Decimal, Amount, UsagePrice, METRICS, Format, Listed;
    hide QuotaUnits, Charge, Line, HalfEven, Read, Quantity, TierOf, Divisor;
    ByMetricListed(s, t, rates, metric) by { TwoTiers(s, u); }
    if metric !in rates || !rates[metric].enabled {
      Unlisted(s, f, u, metric);
      return Unpriced;
    }
    var rate := rates[metric];
    var exchange := "1";
    if rate.currency != f.platform {
      if rate.currency !in f.rates {
        Unconverted(s, f, u, metric, rate);
        return Unpriced;
      }
      exchange := f.rates[rate.currency];
    }
    LineReadable(s, f, u, metric, rate, exchange);
    var amount := Rational(rate.amount);
    if amount.None? { return Invalid; }
    var conversion := Rational(exchange);
    if conversion.None? { return Invalid; }
    var charge := amount.value * (quantity as real / divisor);
    charge := charge * conversion.value;
    assert charge == Amount(rate.amount) * (Quantity(u, metric) as real / Divisor(metric)) * Amount(exchange);
    LineReady(s, f, u, metric, rate, exchange, charge);
    var value := Rounded(charge);
    var exact := Read(value);
    var line := Component(rate.(amount := Decimal(rate.amount).value), quantity, Decimal(exchange).value, value);
    return Priced((line, exact));
  }

  lemma TwoTiers(s: Schedule, u: Usage)
    ensures TierOf(s, u.input) == Base || TierOf(s, u.input) == Long
  {}

  lemma LineReadable(s: Schedule, f: FX, u: Usage, m: Metric, rate: Rate, exchange: string)
    requires ValidSchedule(s) && ValidFX(f)
    requires Listed(s, RateTier(m, TierOf(s, u.input)), m) == Some(rate) && ExchangeOf(f, rate.currency) == Some(exchange)
    ensures Lists(s, RateTier(m, TierOf(s, u.input)), m, rate)
    ensures Rational(rate.amount) == Some(Amount(rate.amount)) && Decimal(rate.amount).Some?
    ensures Rational(exchange) == Some(Amount(exchange)) && Decimal(exchange).Some?
  {
    hide ValidSchedule, ValidFX, Rational, Decimal, Amount, Listed;
    ListedRate(s, RateTier(m, TierOf(s, u.input)), m);
    ReadableRate(s, f, rate, exchange);
  }

  /** What the charge of one listed and convertible metric comes to. */
  lemma LineReady(s: Schedule, f: FX, u: Usage, m: Metric, rate: Rate, exchange: string, charge: real)
    requires ValidSchedule(s) && ValidFX(f) && ValidUsage(u) && m in METRICS && Quantity(u, m) != 0
    requires Listed(s, RateTier(m, TierOf(s, u.input)), m) == Some(rate) && ExchangeOf(f, rate.currency) == Some(exchange)
    requires charge == Amount(rate.amount) * (Quantity(u, m) as real / Divisor(m)) * Amount(exchange)
    ensures Decimal(rate.amount).Some? && Decimal(exchange).Some?
    ensures UsagePrice(s, f, u, m).Some?
    ensures 0.0 <= charge && HalfEven(charge * SCALE) == Charge(s, f, u, m)
    ensures 0 <= Charge(s, f, u, m) && Read(Format(Charge(s, f, u, m))) == Charge(s, f, u, m) as real / SCALE
    ensures Line(s, f, u, m) == Some(Component(rate.(amount := Decimal(rate.amount).value), Quantity(u, m),
                                               Decimal(exchange).value, Format(Charge(s, f, u, m))))
  {
    hide ValidSchedule, ValidFX, ValidUsage, Rational, Decimal, Amount, METRICS, Format, Listed, Read, Quantity, TierOf;
    hide HalfEven, Exact, Divisor;
    LineReadable(s, f, u, m, rate, exchange);
    PriceAt(s, f, RateTier(m, TierOf(s, u.input)), m, rate, exchange);
    var price := UsagePrice(s, f, u, m).value;
    SameCharge(Amount(rate.amount), Amount(exchange), price, Quantity(u, m), m);
    PriceAtLeastZero(s, f, u, m);
    QuantityNonNegative(u, m);
    ExactMonotone(0.0, 0, price, Quantity(u, m), m);
    assert charge * SCALE == Exact(price, Quantity(u, m), m) * SCALE;
    ChargeReads(s, f, u, m);
  }

  lemma QuantityNonNegative(u: Usage, m: Metric)
    requires ValidUsage(u)
    ensures 0 <= Quantity(u, m)
  {}

  lemma Unlisted(s: Schedule, f: FX, u: Usage, m: Metric)
    requires Listed(s, RateTier(m, TierOf(s, u.input)), m) == None
    ensures UsagePrice(s, f, u, m) == None
  {}

  lemma Unconverted(s: Schedule, f: FX, u: Usage, m: Metric, rate: Rate)
    requires Listed(s, RateTier(m, TierOf(s, u.input)), m) == Some(rate) && ExchangeOf(f, rate.currency) == None
    ensures UsagePrice(s, f, u, m) == None
  {}

  lemma ListedRate(s: Schedule, t: Tier, m: Metric)
    requires Listed(s, t, m).Some?
    ensures Lists(s, t, m, Listed(s, t, m).value)
  {}

  lemma SameCharge(a: real, e: real, price: real, q: int, m: Metric)
    requires price == a * e
    ensures a * (q as real / Divisor(m)) * e == Exact(price, q, m)
  {
    var x := q as real;
    assert a * (x / Divisor(m)) == a * x / Divisor(m);
    assert a * x * e == a * e * x;
  }

  /** A written charge reads back as it was written. */
  lemma ChargeReads(s: Schedule, f: FX, u: Usage, m: Metric)
    requires ValidUsage(u) && m in METRICS
    ensures 0 <= Charge(s, f, u, m) && Read(Format(Charge(s, f, u, m))) == Charge(s, f, u, m) as real / SCALE
  {
    hide Charge, Format;
    SumBelow(s, f, u, 0);
    Pow10Monotone(77, 78);
    QuotaRoundTrip(Charge(s, f, u, m));
  }

  /** The line of a metric that was used, and what its charge reads as. */
  lemma ChargeableLine(s: Schedule, f: FX, u: Usage, m: Metric)
    requires ValidSchedule(s) && ValidFX(f) && ValidUsage(u) && m in METRICS && UsagePrice(s, f, u, m).Some?
    ensures 0 <= Charge(s, f, u, m) && Line(s, f, u, m).Some? && QuotaUnits(Line(s, f, u, m).value.charge) == Some(Charge(s, f, u, m) as nat)
    ensures Line(s, f, u, m).value.quantity == Quantity(u, m)
  {
    hide ValidSchedule, ValidFX, ValidUsage, Amount, Decimal, Rational, METRICS, Format, QuotaUnits, Charge, Quantity, Listed;
    var t := RateTier(m, TierOf(s, u.input));
    var r := Listed(s, t, m).value;
    ListedRate(s, t, m);
    ReadableRate(s, f, r, ExchangeOf(f, r.currency).value);
    ChargeReads(s, f, u, m);
    SumBelow(s, f, u, 0);
    Pow10Monotone(77, 78);
    QuotaRoundTrip(Charge(s, f, u, m));
  }

  ghost predicate IsQuote(s: Schedule, f: FX, u: Usage, q: Quote)
  {
    && 0 <= TotalUnits(s, f, u)
    && q == Quote(AdapterOf(s), s.priceId, s.providerModelId, u, TierOf(s, u.input), s.threshold,
                  f.platform, Lines(s, f, u, |METRICS|), Format(TotalUnits(s, f, u)))
  }

  /** The quote for a usage: one line per metric used, each rounded once, and their exact sum. */
  method Calculate(s: Schedule, f: FX, u: Usage) returns (r: Priced<Quote>)
    ensures r == Invalid <==> !(ValidSchedule(s) && ValidFX(f) && ValidUsage(u))
    ensures ValidSchedule(s) && ValidFX(f) && ValidUsage(u) ==>
              (r == Unpriced <==> !(Configured(s) && Chargeable(s, f, u)))
    ensures r.Priced? ==> IsQuote(s, f, u, r.value)
  {
    hide ValidSchedule, ValidFX, Billed, ByMetric, Format, AdapterOf, Quantity, HalfEven, UsagePrice, Divisor, Configured;
    hide Charge, ChargeSum, Line, Lines, TotalUnits, PartSum, UsedSum;
    var ok := ValidateSchedule(s);
    if !ok { return Invalid; }
    ok := ValidateFX(f);
    if !ok { return Invalid; }
    if u.input < 0 || u.output < 0 || u.cacheRead < 0 || u.cacheWrite < 0 || u.images < 0 || u.pdfs < 0
       || u.cacheRead > u.input || u.cacheWrite > u.input - u.cacheRead {
      return Invalid;
    }
    var tier := Base;
    if s.threshold > 0 && u.input > s.threshold { tier := Long; }
    var configured, rates := RatesOf(s, tier);
    if !configured { return Unpriced; }
    var total := 0.0;
    var lines: seq<Component> := [];
    var items := [(Input, u.input - u.cacheRead - u.cacheWrite, 1_000_000.0), (Output, u.output, 1_000_000.0),
                  (CacheRead, u.cacheRead, 1_000_000.0), (CacheWrite, u.cacheWrite, 1_000_000.0),
                  (ImageInput, u.images, 1.0), (PDFInput, u.pdfs, 1.0)];
    ItemsAreMetrics(u, items);
    BilledNone(s, f, u);
    var i := 0;
    while i < |items|
      invariant 0 <= i <= |items| == |METRICS|
      invariant Billed(s, f, u, i, lines, total)
    {
      var metric, quantity, divisor := items[i].0, items[i].1, items[i].2;
      if quantity != 0 {
        var line := ChargeLine(s, f, u, tier, rates, metric, quantity, divisor);
        if line == Unpriced {
          assert METRICS[i] in METRICS;
          return Unpriced;
        }
        BilledOne(s, f, u, i, lines, total, line.value.0);
        total := total + line.value.1;
        lines := lines + [line.value.0];
      } else {
        BilledSkip(s, f, u, i, lines, total);
      }
      i := i + 1;
    }
    BilledAll(s, f, u, lines, total);
    TotalNearParts(s, f, u);
    WholeUnits(TotalUnits(s, f, u));
    var text := Rounded(total);
    var adapter := ScheduleAdapter(s);
    return Priced(Quote(adapter, s.priceId, s.providerModelId, u, tier, s.threshold, f.platform, lines, text));
  }

  method ScheduleAdapter(s: Schedule) returns (a: Adapter)
    ensures a == AdapterOf(s)
  {
    var i := 0;
    while i < |s.rates|
      invariant 0 <= i <= |s.rates|
      invariant forall j :: 0 <= j < i ==> !Media(s.rates[j].metric)
    {
      if s.rates[i].metric == ImageInput || s.rates[i].metric == PDFInput { return MultimodalAdapter; }
      i := i + 1;
    }
    return TextAdapter;
  }

  /** The rates of the request's tier by metric, and whether any rate is enabled at all. */
  method RatesOf(s: Schedule, t: Tier) returns (configured: bool, rates: map<Metric, Rate>)
    requires ValidSchedule(s) && (t == Base || t == Long)
    ensures configured <==> Configured(s)
    ensures ByMetric(s, t, |s.rates|, rates)
  {
    hide ValidSchedule, ByMetric;
    rates := map[];
    configured := false;
    assert ByMetric(s, t, 0, rates) by { ByMetricNone(s, t); }
    var i := 0;
    while i < |s.rates|
      invariant 0 <= i <= |s.rates|
      invariant configured <==> exists j :: 0 <= j < i && s.rates[j].enabled
      invariant ByMetric(s, t, i, rates)
    {
      var r := s.rates[i];
      if r.enabled { configured := true; }
      ByMetricStep(s, t, i, rates);
      if r.tier == t || (r.tier == Base && (r.metric == ImageInput || r.metric == PDFInput)) { rates := rates[r.metric := r]; }
      i := i + 1;
    }
  }

  lemma ByMetricNone(s: Schedule, t: Tier)
    ensures ByMetric(s, t, 0, map[])
  {}

  lemma ItemsAreMetrics(u: Usage, items: seq<(Metric, int, real)>)
    requires items == [(Input, u.input - u.cacheRead - u.cacheWrite, 1_000_000.0), (Output, u.output, 1_000_000.0),
                       (CacheRead, u.cacheRead, 1_000_000.0), (CacheWrite, u.cacheWrite, 1_000_000.0),
                       (ImageInput, u.images, 1.0), (PDFInput, u.pdfs, 1.0)]
    ensures |items| == |METRICS|
    ensures forall i :: 0 <= i < |items| ==>
              items[i].0 == METRICS[i] && items[i].1 == Quantity(u, METRICS[i]) && items[i].2 == Divisor(METRICS[i])
  {}

  lemma BilledNone(s: Schedule, f: FX, u: Usage)
    ensures Billed(s, f, u, 0, [], 0.0)
  {}

  lemma BilledOne(s: Schedule, f: FX, u: Usage, n: nat, lines: seq<Component>, total: real, line: Component)
    requires n < |METRICS| && Billed(s, f, u, n, lines, total) && Quantity(u, METRICS[n]) != 0
    requires UsagePrice(s, f, u, METRICS[n]).Some? && Line(s, f, u, METRICS[n]) == Some(line)
    ensures Billed(s, f, u, n + 1, lines + [line], total + Charge(s, f, u, METRICS[n]) as real / SCALE)
  {
    hide Line, Charge, UsagePrice, Quantity;
    assert METRICS[..n + 1] == METRICS[..n] + [METRICS[n]];
  }

  lemma BilledSkip(s: Schedule, f: FX, u: Usage, n: nat, lines: seq<Component>, total: real)
    requires n < |METRICS| && Billed(s, f, u, n, lines, total) && Quantity(u, METRICS[n]) == 0
    ensures Billed(s, f, u, n + 1, lines, total)
  {
    hide Line, UsagePrice, Quantity;
    assert METRICS[..n + 1] == METRICS[..n] + [METRICS[n]];
  }

  lemma BilledAll(s: Schedule, f: FX, u: Usage, lines: seq<Component>, total: real)
    requires Billed(s, f, u, |METRICS|, lines, total)
    ensures Chargeable(s, f, u) && lines == Lines(s, f, u, |METRICS|) && total == TotalUnits(s, f, u) as real / SCALE
  {
    hide Line, UsagePrice, Quantity, Charge;
    assert METRICS[..|METRICS|] == METRICS;
  }
}
