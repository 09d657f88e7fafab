/** Prices and the quota journal together: what is reserved is accepted by the journal, and
    settling what a usage within the reserved capacity costs never exceeds it. */
module PricedSettlement {
  import opened Wrappers
  import opened Decimals
  import opened DecimalText
  import opened PricingTypes
  import opened PricingBounds
  import opened Pricing
  import L = LedgerTypes
  import Ledger
  import LedgerInvariant
  import LedgerSteps

  // ---------- text ----------

  /** A reservation is accepted by the journal and denotes the same number there. */
  lemma ReservationIsAccepted(s: Schedule, f: FX, c: Capacity, q: BoundQuote) returns (units: nat)
    requires ValidCapacity(c) && ValidFX(f) && IsReservation(s, f, c, q)
    ensures Reserves(s, f, c, units) && QuotaUnits(q.amount) == Some(units) && Plain(q.amount, 59)
    ensures L.ValidCurrency(q.currency) && Ledger.ValidMoney(Some(q.amount), q.currency)
  {
    hide Reserves, Format, ValidCapacity, QuotaUnits;
    units :| Reserves(s, f, c, units) && q == BoundQuote(Format(units), f.platform, c, ComponentCount(c));
    ReserveBelow(s, f, c, units);
    FormatReads(units, 59);
    Pow10Monotone(77, 78);
    QuotaRoundTrip(units);
    PlatformIsCurrency(f);
  }

  lemma PlatformIsCurrency(f: FX)
    requires ValidFX(f)
    ensures L.ValidCurrency(f.platform)
  {
    var c := f.platform;
    assert c == "USD" || c == "CNY" || c == "EUR" || c == "GBP" || c == "JPY" || c == "HKD" || c == "SGD";
  }

  /** So is the total of a quote. */
  lemma TotalIsAccepted(s: Schedule, f: FX, u: Usage, q: Quote)
    requires ValidUsage(u) && ValidFX(f) && IsQuote(s, f, u, q)
    ensures 0 <= TotalUnits(s, f, u) && QuotaUnits(q.total) == Some(TotalUnits(s, f, u) as nat)
    ensures L.ValidCurrency(q.currency)
  {
    hide Format, ChargeSum, QuotaUnits;
    SumBelow(s, f, u, |METRICS|);
    Pow10Monotone(77, 78);
    QuotaRoundTrip(TotalUnits(s, f, u));
    PlatformIsCurrency(f);
  }

  // ---------- the lines of a quote ----------

  ghost function LineUnits(lines: seq<Component>): (units: int)
  {
    if |lines| == 0 then 0
    else
      LineUnits(lines[..|lines| - 1])
      + match QuotaUnits(lines[|lines| - 1].charge) case Some(u) => u case None => 0
  }

  lemma NoLines()
    ensures LineUnits([]) == 0
  {}

  lemma LineUnitsAdd(lines: seq<Component>, line: Component)
    ensures LineUnits(lines + [line])
         == LineUnits(lines) + match QuotaUnits(line.charge) case Some(u) => u case None => 0
  {
    assert (lines + [line])[..|lines|] == lines;
  }

  lemma Unused(s: Schedule, f: FX, u: Usage, m: Metric)
    requires Quantity(u, m) == 0
    ensures Charge(s, f, u, m) == 0
  {}

  lemma {:induction false} LinesAdd(s: Schedule, f: FX, u: Usage, n: nat)
    requires ValidSchedule(s) && ValidFX(f) && ValidUsage(u) && Chargeable(s, f, u) && n <= |METRICS|
    ensures LineUnits(Lines(s, f, u, n)) == ChargeSum(s, f, u, n)
    decreases n
  {
    hide ValidSchedule, ValidFX, ValidUsage, Line, LineUnits, QuotaUnits, Quantity, Charge, UsagePrice;
    if n > 0 {
      var m := METRICS[n - 1];
      assert m in METRICS;
      LinesAdd(s, f, u, n - 1);
      if Quantity(u, m) != 0 {
        ChargeableLine(s, f, u, m);
        LineUnitsAdd(Lines(s, f, u, n - 1), Line(s, f, u, m).value);
      } else {
        Unused(s, f, u, m);
        assert Lines(s, f, u, n) == Lines(s, f, u, n - 1);
      }
    } else {
      NoLines();
    }
  }

  /** Conservation: the total of a quote is exactly the sum of its lines as they are written. */
  lemma QuoteConserves(s: Schedule, f: FX, u: Usage, q: Quote)
    requires ValidSchedule(s) && ValidFX(f) && ValidUsage(u) && Chargeable(s, f, u) && IsQuote(s, f, u, q)
    ensures QuotaUnits(q.total).Some? && LineUnits(q.components) == QuotaUnits(q.total).value
  {
    hide ValidSchedule, ValidFX, Lines, LineUnits, Chargeable, QuotaUnits;
    LinesAdd(s, f, u, |METRICS|);
    TotalIsAccepted(s, f, u, q);
  }

  // ---------- settlement ----------

  /** The bound states the capacity's tokens, if any, and its reservation; the settlement states the
      usage's tokens, if they are known, and its charge. */
  ghost predicate PricedBy(b: L.Bound, actual: L.Settlement, c: Capacity, reserved: BoundQuote, u: Usage, quote: Quote)
  {
    && b.money == Some(reserved.amount) && b.currency == reserved.currency
    && actual.money == Some(quote.total) && actual.currency == quote.currency
    && (b.tokens.Some? ==> b.tokens.value == c.input + c.output)
    && (actual.tokens.Some? ==> actual.tokens.value == u.input + u.output)
  }

  lemma TokensWithin(u: Usage, c: Capacity)
    requires ValidUsage(u) && Within(u, c)
    ensures 0 <= u.input + u.output <= c.input + c.output
  {}

  /** Settling a usage within the reserved capacity exceeds the bound neither in tokens nor in money. */
  lemma ChargeNeverOverruns(s: Schedule, f: FX, c: Capacity, u: Usage, reserved: BoundQuote, quote: Quote,
                            b: L.Bound, actual: L.Settlement)
    requires ValidFX(f) && ValidCapacity(c) && ValidUsage(u) && Within(u, c)
    requires IsReservation(s, f, c, reserved) && IsQuote(s, f, u, quote)
    requires PricedBy(b, actual, c, reserved, u, quote)
    ensures !Ledger.Overran(b, actual) && actual.currency == b.currency && Ledger.ValidSettlement(actual)
  {
    hide ValidFX, Within, ValidUsage, ValidCapacity, TotalUnits, Reserves, QuotaUnits;
    var units := ReservationIsAccepted(s, f, c, reserved);
    TotalIsAccepted(s, f, u, quote);
    TokensWithin(u, c);
    Dominance(s, f, u, c, units);
  }

  /** In the journal such a settlement is accepted for its currency, and it neither marks the
      receipt as overrun nor invalidates the revision of its bound. */
  lemma SettlementKeepsRevision(s: Schedule, f: FX, c: Capacity, u: Usage, reserved: BoundQuote, quote: Quote,
                                j: L.Core, cfg: L.Config, id: L.Id, payload: L.Payload, actual: L.Settlement, now: int)
    requires ValidFX(f) && ValidCapacity(c) && ValidUsage(u) && Within(u, c)
    requires IsReservation(s, f, c, reserved) && IsQuote(s, f, u, quote)
    requires LedgerInvariant.Inv(j, cfg) && id in j.receipts && !L.Terminal(j.receipts[id])
    requires PricedBy(j.receipts[id].bound, actual, c, reserved, u, quote)
    ensures var o := Ledger.CompleteQuota(j, cfg, id, payload, actual, now);
            && o.status != L.ErrQuotaCurrency
            && o.core.invalid == j.invalid
            && (o.status == L.Ok ==> id in o.core.receipts && !o.core.receipts[id].overrun)
  {
    hide ValidFX, Within, ValidUsage, ValidCapacity, IsReservation, IsQuote, LedgerInvariant.Inv, Ledger.ProjectionFits;
    hide Ledger.Overran, Ledger.ValidEntry, Ledger.ValidSettlement, Ledger.ChargeKeys, L.Latest;
    ChargeNeverOverruns(s, f, c, u, reserved, quote, j.receipts[id].bound, actual);
    NotYetOverrun(j, cfg, id);
  }

  lemma NotYetOverrun(j: L.Core, cfg: L.Config, id: L.Id)
    requires LedgerInvariant.Inv(j, cfg) && id in j.receipts && !L.Terminal(j.receipts[id])
    ensures !j.receipts[id].overrun && j.receipts[id].id == id
  {
    hide LedgerInvariant.WellFormed, Ledger.FoldsFit, LedgerInvariant.ExpiryOk;
    assert LedgerInvariant.ReceiptOk(j, cfg, id);
  }
}
