/** A reservation for a capacity covers every charge of a usage within it. */
module PricingBounds {
  import opened Wrappers
  import opened Decimals
  import opened DecimalText
  import opened PricingTypes
  import LedgerTypes

  // ---------- arithmetic ----------

  lemma Scaled(p: real, q: real, m: real, n: real)
    requires 0.0 <= p <= m && 0.0 <= q <= n
    ensures 0.0 <= p * q <= m * n
  {
    assert p * q <= m * q;
    assert m * q <= m * n;
  }

  lemma ExactMonotone(p: real, q: int, p': real, q': int, m: Metric)
    requires 0.0 <= p <= p' && 0 <= q <= q'
    ensures 0.0 <= Exact(p, q, m) <= Exact(p', q', m)
  {
    Scaled(p, q as real, p', q' as real);
  }

  lemma ExactAdds(p: real, q: int, r: int, m: Metric)
    ensures Exact(p, q, m) + Exact(p, r, m) == Exact(p, q + r, m)
  {
    assert p * q as real + p * r as real == p * (q + r) as real;
  }

  lemma ExactMedia(p: real, q: int, m: Metric, k: Metric)
    requires Media(m) == Media(k)
    ensures Exact(p, q, m) == Exact(p, q, k)
  {}

  /** Two roundings of the same number to an integer are equal. */
  lemma HalfEvenUnique(x: real, m: int, n: int)
    requires IsHalfEven(x, m) && IsHalfEven(x, n)
    ensures m == n
  {}

  lemma CeilingMonotone(x: real, y: real)
    requires x <= y
    ensures Ceiling(x) <= Ceiling(y)
  {}

  lemma BelowCeiling(n: int, x: real)
    requires n as real <= x
    ensures n <= Ceiling(x)
  {}

  lemma AmountNonNegative(s: string)
    ensures 0.0 <= Amount(s)
  {}

  /** A listed price is the price of some enabled rate for that metric and tier. */
  lemma PricedByRate(s: Schedule, f: FX, t: Tier, m: Metric) returns (r: Rate)
    requires PriceOf(s, f, t, m).Some?
    ensures Lists(s, t, m, r) && PriceOf(s, f, t, m) == RatePrice(f, r) && ExchangeOf(f, r.currency).Some?
  {
    hide Amount;
    r := Listed(s, t, m).value;
  }

  lemma PriceNonNegative(s: Schedule, f: FX, t: Tier, m: Metric)
    ensures PriceOf(s, f, t, m).Some? ==> 0.0 <= PriceOf(s, f, t, m).value
  {
    hide Amount, PriceOf;
    if PriceOf(s, f, t, m).Some? {
      var r := PricedByRate(s, f, t, m);
      var e := ExchangeOf(f, r.currency).value;
      AmountNonNegative(r.amount);
      AmountNonNegative(e);
      Scaled(0.0, 0.0, Amount(r.amount), Amount(e));
    }
  }

  // ---------- dominance ----------

  /** The unrounded charge of one metric. */
  ghost function Part(s: Schedule, f: FX, u: Usage, m: Metric): (x: real)
  {
    if Quantity(u, m) == 0 || UsagePrice(s, f, u, m).None? then 0.0
    else Exact(UsagePrice(s, f, u, m).value, Quantity(u, m), m)
  }

  function Used(u: Usage, m: Metric): (n: int) { if Quantity(u, m) == 0 then 0 else 1 }

  /** Rounding a component moves it by at most half a unit, and not at all when it is zero. */
  lemma ChargeNearPart(s: Schedule, f: FX, u: Usage, m: Metric)
    requires ValidUsage(u)
    ensures 0.0 <= Part(s, f, u, m) && 0 <= Charge(s, f, u, m)
    ensures Charge(s, f, u, m) as real <= Part(s, f, u, m) * SCALE + Used(u, m) as real / 2.0
    ensures Part(s, f, u, m) == 0.0 ==> Charge(s, f, u, m) == 0
  {
    hide UsagePrice, Exact;
    if Quantity(u, m) != 0 && UsagePrice(s, f, u, m).Some? {
      PriceAtLeastZero(s, f, u, m);
      ExactMonotone(0.0, 0, UsagePrice(s, f, u, m).value, Quantity(u, m), m);
      ExactZero(m);
    }
  }

  lemma PriceAtLeastZero(s: Schedule, f: FX, u: Usage, m: Metric)
    requires UsagePrice(s, f, u, m).Some?
    ensures 0.0 <= UsagePrice(s, f, u, m).value
  {
    PriceNonNegative(s, f, RateTier(m, TierOf(s, u.input)), m);
  }

  lemma ExactZero(m: Metric)
    ensures Exact(0.0, 0, m) == 0.0
  {}

  /** The tier of a usage within the capacity is one the reservation considered. */
  lemma TierReached(s: Schedule, u: Usage, c: Capacity)
    requires Within(u, c)
    ensures TierOf(s, u.input) in Tiers(s, c)
  {}

  lemma CellReached(s: Schedule, u: Usage, c: Capacity, m: Metric)
    requires Within(u, c) && ValidUsage(u) && ValidCapacity(c) && Quantity(u, m) != 0
    ensures (RateTier(m, TierOf(s, u.input)), m) in
              (if m == Output then OutputCells(s, c) else if Media(m) then MediaCells(c) else InputCells(s, c))
  {
    TierReached(s, u, c);
  }

  lemma PartBelow(s: Schedule, f: FX, u: Usage, c: Capacity, m: Metric, cells: set<Cell>, high: real)
    requires ValidUsage(u) && Highest(s, f, cells, high) && 0.0 <= high
    requires Quantity(u, m) != 0 ==> (RateTier(m, TierOf(s, u.input)), m) in cells
    ensures Quantity(u, m) != 0 ==> UsagePrice(s, f, u, m).Some?
    ensures Part(s, f, u, m) <= Exact(high, Quantity(u, m), m)
  {
    hide Exact, PriceOf;
    if Quantity(u, m) != 0 {
      PriceAtLeastZero(s, f, u, m);
      ExactMonotone(UsagePrice(s, f, u, m).value, Quantity(u, m), high, Quantity(u, m), m);
    } else {
      ExactMonotone(0.0, 0, high, 0, m);
    }
  }

  lemma HighestNonNegative(s: Schedule, f: FX, cells: set<Cell>, p: real)
    requires Highest(s, f, cells, p)
    ensures 0.0 <= p
  {
    if p != 0.0 {
      var t, m :| (t, m) in cells && PriceOf(s, f, t, m) == Some(p);
      PriceNonNegative(s, f, t, m);
    }
  }

  /** All input tokens together cost no more than the capacity at the highest input price. */
  lemma InputCovered(s: Schedule, f: FX, u: Usage, c: Capacity, high: real)
    requires ValidUsage(u) && ValidCapacity(c) && Within(u, c) && Highest(s, f, InputCells(s, c), high)
    ensures forall m :: m in {Input, CacheRead, CacheWrite} && Quantity(u, m) != 0 ==> UsagePrice(s, f, u, m).Some?
    ensures Part(s, f, u, Input) + Part(s, f, u, CacheRead) + Part(s, f, u, CacheWrite) <= Exact(high, c.input, Input)
    ensures Used(u, Input) + Used(u, CacheRead) + Used(u, CacheWrite) <= if c.input > 0 then |InputMetrics(c)| else 0
  {
    hide Part, Exact, UsagePrice, Highest;
    HighestNonNegative(s, f, InputCells(s, c), high);
    forall m | m in {Input, CacheRead, CacheWrite}
      ensures Quantity(u, m) != 0 ==> UsagePrice(s, f, u, m).Some?
      ensures Part(s, f, u, m) <= Exact(high, Quantity(u, m), Input)
    {
      if Quantity(u, m) != 0 { CellReached(s, u, c, m); }
      PartBelow(s, f, u, c, m, InputCells(s, c), high);
      ExactMedia(high, Quantity(u, m), m, Input);
    }
    InputSplit(u, c, high);
    InputCount(u, c);
  }

  lemma InputSplit(u: Usage, c: Capacity, high: real)
    requires ValidUsage(u) && Within(u, c) && 0.0 <= high
    ensures Exact(high, Quantity(u, Input), Input) + Exact(high, Quantity(u, CacheRead), Input)
            + Exact(high, Quantity(u, CacheWrite), Input) <= Exact(high, c.input, Input)
  {
    hide Exact;
    ExactAdds(high, Quantity(u, Input), u.cacheRead, Input);
    ExactAdds(high, Quantity(u, Input) + u.cacheRead, u.cacheWrite, Input);
    ExactMonotone(high, u.input, high, c.input, Input);
  }

  lemma InputCount(u: Usage, c: Capacity)
    requires ValidUsage(u) && ValidCapacity(c) && Within(u, c)
    ensures Used(u, Input) + Used(u, CacheRead) + Used(u, CacheWrite) <= if c.input > 0 then |InputMetrics(c)| else 0
  {
    MetricCount(c);
  }

  lemma MetricCount(c: Capacity)
    ensures |InputMetrics(c)| == 1 + (if c.cacheRead then 1 else 0) + (if c.cacheWrite then 1 else 0)
  {}

  lemma OutputCovered(s: Schedule, f: FX, u: Usage, c: Capacity, high: real)
    requires ValidUsage(u) && ValidCapacity(c) && Within(u, c) && Highest(s, f, OutputCells(s, c), high)
    ensures Quantity(u, Output) != 0 ==> UsagePrice(s, f, u, Output).Some?
    ensures Part(s, f, u, Output) <= Exact(high, c.output, Output)
    ensures Used(u, Output) <= if c.output > 0 then 1 else 0
  {
    hide Part, Exact, UsagePrice, Highest;
    HighestNonNegative(s, f, OutputCells(s, c), high);
    if Quantity(u, Output) != 0 { CellReached(s, u, c, Output); }
    PartBelow(s, f, u, c, Output, OutputCells(s, c), high);
    ExactMonotone(high, u.output, high, c.output, Output);
  }

  lemma MediaCovered(s: Schedule, f: FX, u: Usage, c: Capacity, m: Metric, most: int)
    requires ValidUsage(u) && ValidCapacity(c) && Within(u, c) && AllPriced(s, f, MediaCells(c))
    requires Media(m) && most == (if m == ImageInput then c.images else c.pdfs)
    ensures Quantity(u, m) != 0 ==> UsagePrice(s, f, u, m).Some?
    ensures Part(s, f, u, m) <= Exact(MediaPrice(s, f, m), most, m)
    ensures Used(u, m) <= if most == 0 then 0 else 1
  {
    hide Exact, PriceOf;
    if Quantity(u, m) != 0 {
      CellReached(s, u, c, m);
      PriceNonNegative(s, f, Base, m);
      ExactMonotone(MediaPrice(s, f, m), Quantity(u, m), MediaPrice(s, f, m), most, m);
    } else {
      PriceNonNegative(s, f, Base, m);
      ExactMonotone(0.0, 0, MediaPrice(s, f, m), most, m);
    }
  }

  lemma ChargeSums(s: Schedule, f: FX, u: Usage)
    ensures TotalUnits(s, f, u) == Charge(s, f, u, Input) + Charge(s, f, u, Output) + Charge(s, f, u, CacheRead)
                                   + Charge(s, f, u, CacheWrite) + Charge(s, f, u, ImageInput) + Charge(s, f, u, PDFInput)
  {
    hide Charge;
    assert ChargeSum(s, f, u, 0) == 0;
    assert ChargeSum(s, f, u, 1) == Charge(s, f, u, Input);
    assert ChargeSum(s, f, u, 2) == ChargeSum(s, f, u, 1) + Charge(s, f, u, Output);
    assert ChargeSum(s, f, u, 3) == ChargeSum(s, f, u, 2) + Charge(s, f, u, CacheRead);
    assert ChargeSum(s, f, u, 4) == ChargeSum(s, f, u, 3) + Charge(s, f, u, CacheWrite);
    assert ChargeSum(s, f, u, 5) == ChargeSum(s, f, u, 4) + Charge(s, f, u, ImageInput);
    assert ChargeSum(s, f, u, 6) == ChargeSum(s, f, u, 5) + Charge(s, f, u, PDFInput);
  }

  ghost function PartSum(s: Schedule, f: FX, u: Usage): (x: real)
  {
    Part(s, f, u, Input) + Part(s, f, u, Output) + Part(s, f, u, CacheRead) + Part(s, f, u, CacheWrite)
    + Part(s, f, u, ImageInput) + Part(s, f, u, PDFInput)
  }

  function UsedSum(u: Usage): (n: int)
  {
    Used(u, Input) + Used(u, Output) + Used(u, CacheRead) + Used(u, CacheWrite) + Used(u, ImageInput) + Used(u, PDFInput)
  }

  /** The total is within half a unit per component of the unrounded charge, and zero when that is. */
  lemma TotalNearParts(s: Schedule, f: FX, u: Usage)
    requires ValidUsage(u)
    ensures 0.0 <= PartSum(s, f, u) && 0 <= TotalUnits(s, f, u)
    ensures TotalUnits(s, f, u) as real <= PartSum(s, f, u) * SCALE + UsedSum(u) as real / 2.0
    ensures PartSum(s, f, u) == 0.0 ==> TotalUnits(s, f, u) == 0
  {
    hide Charge, Part, Used, TotalUnits;
    ChargeSums(s, f, u);
    forall m | m in METRICS
      ensures 0.0 <= Part(s, f, u, m) && 0 <= Charge(s, f, u, m)
      ensures Charge(s, f, u, m) as real <= Part(s, f, u, m) * SCALE + Used(u, m) as real / 2.0
      ensures Part(s, f, u, m) == 0.0 ==> Charge(s, f, u, m) == 0
    {
      ChargeNearPart(s, f, u, m);
    }
    AllMetrics();
  }

  lemma AllMetrics()
    ensures forall m :: m in METRICS <==> m in {Input, Output, CacheRead, CacheWrite, ImageInput, PDFInput}
  {}

  /** A usage within the capacity can be priced, at most at the worst case in at most the counted
      number of components. */
  lemma PartsCovered(s: Schedule, f: FX, u: Usage, c: Capacity, input: real, output: real)
    requires ValidUsage(u) && ValidCapacity(c) && Within(u, c) && BoundPriced(s, f, c)
    requires Highest(s, f, InputCells(s, c), input) && Highest(s, f, OutputCells(s, c), output)
    ensures Chargeable(s, f, u)
    ensures PartSum(s, f, u) <= WorstCase(s, f, c, input, output) && UsedSum(u) <= ComponentCount(c)
  {
    hide Part, Used, Exact, UsagePrice, Highest, Quantity, MediaPrice;
    InputCovered(s, f, u, c, input);
    OutputCovered(s, f, u, c, output);
    MediaCovered(s, f, u, c, ImageInput, c.images);
    MediaCovered(s, f, u, c, PDFInput, c.pdfs);
    AllMetrics();
  }

  /** Dominance: whatever a usage within the capacity costs, in whichever tier and cache classes,
      at any exchange rates and after each component was rounded, is reserved. */
  lemma Dominance(s: Schedule, f: FX, u: Usage, c: Capacity, units: int)
    requires ValidUsage(u) && ValidCapacity(c) && Within(u, c) && Reserves(s, f, c, units)
    ensures Chargeable(s, f, u) && 0 <= TotalUnits(s, f, u) <= units
  {
    hide PartSum, UsedSum, TotalUnits, Highest, WorstCase, ComponentCount, Chargeable, BoundPriced;
    var input, output :|
      && Highest(s, f, InputCells(s, c), input) && Highest(s, f, OutputCells(s, c), output)
      && units == BoundUnits(WorstCase(s, f, c, input, output), ComponentCount(c));
    PartsCovered(s, f, u, c, input, output);
    TotalNearParts(s, f, u);
    var worst := WorstCase(s, f, c, input, output);
    if worst != 0.0 {
      BelowCeiling(TotalUnits(s, f, u), worst * SCALE + ComponentCount(c) as real / 2.0);
    }
  }

  // ---------- monotonicity ----------

  /** Capacity c allows no more than d, in every quantity and cache class. */
  predicate Smaller(c: Capacity, d: Capacity)
  {
    && c.input <= d.input && c.output <= d.output && c.images <= d.images && c.pdfs <= d.pdfs
    && (c.cacheRead ==> d.cacheRead) && (c.cacheWrite ==> d.cacheWrite)
  }

  lemma HighestGrows(s: Schedule, f: FX, cells: set<Cell>, more: set<Cell>, p: real, q: real)
    requires cells <= more && Highest(s, f, cells, p) && Highest(s, f, more, q)
    ensures 0.0 <= p <= q
  {
    HighestNonNegative(s, f, cells, p);
    HighestNonNegative(s, f, more, q);
  }

  lemma MoreCells(s: Schedule, c: Capacity, d: Capacity)
    requires ValidCapacity(c) && ValidCapacity(d) && Smaller(c, d)
    ensures InputCells(s, c) <= InputCells(s, d) && OutputCells(s, c) <= OutputCells(s, d)
    ensures ComponentCount(c) <= ComponentCount(d)
  {
    MetricCount(c);
    MetricCount(d);
  }

  lemma WorstGrows(s: Schedule, f: FX, c: Capacity, d: Capacity, input: real, output: real, input': real, output': real)
    requires ValidCapacity(c) && ValidCapacity(d) && Smaller(c, d)
    requires 0.0 <= input <= input' && 0.0 <= output <= output'
    ensures 0.0 <= WorstCase(s, f, c, input, output) <= WorstCase(s, f, d, input', output')
  {
    hide Exact, MediaPrice;
    MediaAtLeastZero(s, f, ImageInput);
    MediaAtLeastZero(s, f, PDFInput);
    ExactMonotone(input, c.input, input', d.input, Input);
    ExactMonotone(output, c.output, output', d.output, Output);
    ExactMonotone(MediaPrice(s, f, ImageInput), c.images, MediaPrice(s, f, ImageInput), d.images, ImageInput);
    ExactMonotone(MediaPrice(s, f, PDFInput), c.pdfs, MediaPrice(s, f, PDFInput), d.pdfs, PDFInput);
  }

  lemma MediaAtLeastZero(s: Schedule, f: FX, m: Metric)
    ensures 0.0 <= MediaPrice(s, f, m)
  {
    PriceNonNegative(s, f, Base, m);
  }

  lemma BoundGrows(x: real, m: int, y: real, n: int)
    requires 0.0 <= x <= y && 0 <= m <= n
    ensures 0 <= BoundUnits(x, m) <= BoundUnits(y, n)
  {
    assert x * SCALE <= y * SCALE;
    CeilingMonotone(x * SCALE + m as real / 2.0, y * SCALE + n as real / 2.0);
    BelowCeiling(0, x * SCALE + m as real / 2.0);
    BelowCeiling(0, y * SCALE + n as real / 2.0);
  }

  /** A larger capacity that still prices never reserves less. */
  lemma ReserveMonotone(s: Schedule, f: FX, c: Capacity, d: Capacity, units: int, more: int)
    requires ValidCapacity(c) && ValidCapacity(d) && Smaller(c, d)
    requires Reserves(s, f, c, units) && Reserves(s, f, d, more)
    ensures units <= more
  {
    hide Highest, WorstCase, ComponentCount, BoundUnits, BoundPriced;
    var input, output :|
      && Highest(s, f, InputCells(s, c), input) && Highest(s, f, OutputCells(s, c), output)
      && units == BoundUnits(WorstCase(s, f, c, input, output), ComponentCount(c));
    var input', output' :|
      && Highest(s, f, InputCells(s, d), input') && Highest(s, f, OutputCells(s, d), output')
      && more == BoundUnits(WorstCase(s, f, d, input', output'), ComponentCount(d));
    MoreCells(s, c, d);
    HighestGrows(s, f, InputCells(s, c), InputCells(s, d), input, input');
    HighestGrows(s, f, OutputCells(s, c), OutputCells(s, d), output, output');
    WorstGrows(s, f, c, d, input, output, input', output');
    CountNonNegative(c);
    BoundGrows(WorstCase(s, f, c, input, output), ComponentCount(c), WorstCase(s, f, d, input', output'), ComponentCount(d));
  }

  lemma CountNonNegative(c: Capacity)
    ensures 0 <= ComponentCount(c) <= 6
  {
    MetricCount(c);
  }

  /** The reservation is determined by schedule, rates and capacity. */
  lemma ReserveUnique(s: Schedule, f: FX, c: Capacity, units: int, other: int)
    requires ValidCapacity(c) && Reserves(s, f, c, units) && Reserves(s, f, c, other)
    ensures units == other
  {
    hide Reserves;
    ReserveMonotone(s, f, c, c, units, other);
    ReserveMonotone(s, f, c, c, other, units);
  }

  // ---------- size ----------

  const LARGEST_PRICE: real := 1_000_000_000_000_000_000_000_000_000_000_000_000.0

  lemma AmountBelow(s: string)
    ensures 0.0 <= Amount(s) <= SCALE
  {
    if Plain(s, 18) {
      PlainDigits(s, 18);
      DigitsBelow(UnitDigits(s));
      Pow10Monotone(|UnitDigits(s)|, 36);
      Pow10Values();
    }
  }

  lemma PriceBelow(s: Schedule, f: FX, t: Tier, m: Metric)
    ensures PriceOf(s, f, t, m).Some? ==> 0.0 <= PriceOf(s, f, t, m).value <= LARGEST_PRICE
  {
    hide Amount, PriceOf;
    if PriceOf(s, f, t, m).Some? {
      var r := PricedByRate(s, f, t, m);
      var e := ExchangeOf(f, r.currency).value;
      AmountBelow(r.amount);
      AmountBelow(e);
      Scaled(Amount(r.amount), Amount(e), SCALE, SCALE);
    }
  }

  lemma HighestBelow(s: Schedule, f: FX, cells: set<Cell>, p: real)
    requires Highest(s, f, cells, p)
    ensures 0.0 <= p <= LARGEST_PRICE
  {
    hide PriceOf;
    if p != 0.0 {
      var t, m :| (t, m) in cells && PriceOf(s, f, t, m) == Some(p);
      PriceBelow(s, f, t, m);
    }
  }

  /** No single part of a worst case exceeds 10^55. */
  lemma PartSize(p: real, q: LedgerTypes.Int64, m: Metric)
    requires 0.0 <= p <= LARGEST_PRICE && 0 <= q
    ensures 0.0 <= Exact(p, q, m) <= 10_000_000_000_000_000_000_000_000_000_000_000_000_000_000_000_000_000_000.0
  {
    Scaled(p, q as real, LARGEST_PRICE, 10_000_000_000_000_000_000.0);
  }

  lemma MediaBelow(s: Schedule, f: FX, m: Metric)
    ensures 0.0 <= MediaPrice(s, f, m) <= LARGEST_PRICE
  {
    PriceBelow(s, f, Base, m);
  }

  /** Every reservation has fewer than 60 integer digits, whatever the prices and quantities. */
  lemma ReserveBelow(s: Schedule, f: FX, c: Capacity, units: int)
    requires ValidCapacity(c) && Reserves(s, f, c, units)
    ensures 0 <= units < Pow10(77)
  {
    hide Highest, Exact, MediaPrice, ComponentCount, BoundPriced, Pow10;
    var input, output :|
      && Highest(s, f, InputCells(s, c), input) && Highest(s, f, OutputCells(s, c), output)
      && units == BoundUnits(WorstCase(s, f, c, input, output), ComponentCount(c));
    HighestBelow(s, f, InputCells(s, c), input);
    HighestBelow(s, f, OutputCells(s, c), output);
    MediaBelow(s, f, ImageInput);
    MediaBelow(s, f, PDFInput);
    PartSize(input, c.input, Input);
    PartSize(output, c.output, Output);
    PartSize(MediaPrice(s, f, ImageInput), c.images, ImageInput);
    PartSize(MediaPrice(s, f, PDFInput), c.pdfs, PDFInput);
    CountNonNegative(c);
    Pow10Values();
    BoundSize(WorstCase(s, f, c, input, output), ComponentCount(c));
  }

  lemma BoundSize(x: real, n: int)
    requires 0.0 <= x <= 40_000_000_000_000_000_000_000_000_000_000_000_000_000_000_000_000_000_000.0 && 0 <= n <= 6
    ensures 0 <= BoundUnits(x, n)
              <= 40_000_000_000_000_000_000_000_000_000_000_000_000_000_000_000_000_000_000_000_000_000_000_000_000 + 4
  {
    BoundGrows(0.0, 0, x, n);
  }

  /** Every single charge has fewer than 60 integer digits, and so has the total. */
  lemma ChargeBelow(s: Schedule, f: FX, u: Usage, m: Metric)
    requires ValidUsage(u)
    ensures 0 <= Charge(s, f, u, m)
              <= 10_000_000_000_000_000_000_000_000_000_000_000_000_000_000_000_000_000_000_000_000_000_000_000_000 + 1
  {
    hide Exact, UsagePrice;
    ChargeNearPart(s, f, u, m);
    if Quantity(u, m) != 0 && UsagePrice(s, f, u, m).Some? {
      UsagePriceBelow(s, f, u, m);
      PartSize(UsagePrice(s, f, u, m).value, Quantity(u, m), m);
    }
  }

  lemma UsagePriceBelow(s: Schedule, f: FX, u: Usage, m: Metric)
    requires UsagePrice(s, f, u, m).Some?
    ensures 0.0 <= UsagePrice(s, f, u, m).value <= LARGEST_PRICE
  {
    PriceBelow(s, f, RateTier(m, TierOf(s, u.input)), m);
  }

  lemma {:induction false} SumBelow(s: Schedule, f: FX, u: Usage, n: nat)
    requires ValidUsage(u) && n <= |METRICS|
    ensures 0 <= ChargeSum(s, f, u, n) < Pow10(77)
    ensures forall m :: m in METRICS ==> 0 <= Charge(s, f, u, m) < Pow10(77)
  {
    hide Charge, Pow10;
    Pow10Values();
    forall m | m in METRICS
      ensures 0 <= Charge(s, f, u, m)
                <= 10_000_000_000_000_000_000_000_000_000_000_000_000_000_000_000_000_000_000_000_000_000_000_000_000 + 1
    {
      ChargeBelow(s, f, u, m);
    }
    PartialSum(s, f, u, n);
  }

  lemma {:induction false} PartialSum(s: Schedule, f: FX, u: Usage, n: nat)
    requires n <= |METRICS|
    requires forall m :: m in METRICS ==>
               0 <= Charge(s, f, u, m)
                 <= 10_000_000_000_000_000_000_000_000_000_000_000_000_000_000_000_000_000_000_000_000_000_000_000_000 + 1
    ensures 0 <= ChargeSum(s, f, u, n)
              <= n * (10_000_000_000_000_000_000_000_000_000_000_000_000_000_000_000_000_000_000_000_000_000_000_000_000 + 1)
    decreases n
  {
    hide Charge;
    if n > 0 {
      assert METRICS[n - 1] in METRICS;
      PartialSum(s, f, u, n - 1);
    }
  }
}
