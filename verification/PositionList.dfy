/** The position list's own valuation of a manual holding (internal/investments/positions.go), and
    its agreement with the yield series of the same holding. */
module PositionList {
  import opened Wrappers
  import opened Decimals
  import opened Sequences
  import opened Sorting
  import opened Domain
  import opened Ledger
  import opened CostBasis
  import opened Tables
  import opened Quotes
  import opened ManualYield

  datatype Basis = AtCost | ManualValuation | MarketQuote

  datatype Shown = Shown(
    quantity: real, averageCost: Option<real>, totalCost: Option<real>, closed: bool,
    basis: Basis, currentValue: real, unitPrice: Option<real>, valuedOn: Option<Day>)

  /** A listed position before the ledger speaks. */
  const UNSEEN := Shown(0.0, None, None, false, AtCost, 0.0, None, None)

  predicate QuoteWins(h: Holding, quote: Option<Quote>) {
    quote.Some? && h.quantity > 0.0 && (h.valuedOn.None? || h.valuedOn.value < quote.value.on)
  }

  /** What the list shows for a holding and the latest quote of its asset. */
  function ShownFor(h: Holding, quote: Option<Quote>): Shown {
    var base := UNSEEN.(quantity := h.quantity, averageCost := Some(h.AverageCost()), totalCost := Some(h.totalCost),
                        closed := h.quantity == 0.0);
    if QuoteWins(h, quote) then
      base.(basis := MarketQuote, currentValue := MarketValue(h.quantity, quote.value.price),
            unitPrice := Some(quote.value.price), valuedOn := Some(quote.value.on))
    else if h.valuationTotal.None? then base.(currentValue := h.totalCost)
    else base.(basis := ManualValuation, currentValue := h.ValuedValue(), valuedOn := h.valuedOn,
               unitPrice := if h.quantity > 0.0 then Some(ValuedPrice(h)) else None)
  }

  function ValuedPrice(h: Holding): real {
    if h.valuationTotal.None? || h.valuedQuantity <= 0.0 then 0.0 else Div(h.valuationTotal.value, h.valuedQuantity)
  }

  class Position {
    var quantity: real
    var averageCost: Option<real>
    var totalCost: Option<real>
    var closed: bool
    var basis: Basis
    var currentValue: real
    var unitPrice: Option<real>
    var valuedOn: Option<Day>

    function View(): Shown
      reads this
    {
      Shown(quantity, averageCost, totalCost, closed, basis, currentValue, unitPrice, valuedOn)
    }

    constructor ()
      ensures View() == UNSEEN
    {
      quantity, averageCost, totalCost, closed := 0.0, None, None, false;
      basis, currentValue, unitPrice, valuedOn := AtCost, 0.0, None, None;
    }

    /** Copies the replayed holding onto a position as listed; a position the ledger never met
        stays as it is. */
    method ApplyLedgerState(state: PositionLedger?, quote: Option<Quote>)
      requires View() == UNSEEN
      modifies this
      ensures View() == if state == null then UNSEEN else ShownFor(state.View(), quote)
    {
      if state == null {
        return;
      }
      var holding := state.View();
      quantity := holding.quantity;
      averageCost := Some(holding.AverageCost());
      totalCost := Some(holding.totalCost);
      closed := holding.quantity == 0.0;
      var valuedDay := holding.valuedOn;
      if quote.Some? && quantity > 0.0 && (valuedDay.None? || valuedDay.value < quote.value.on) {
        basis := MarketQuote;
        currentValue := MarketValue(quantity, quote.value.price);
        unitPrice := Some(quote.value.price);
        valuedOn := Some(quote.value.on);
        return;
      }
      if holding.valuationTotal.None? {
        currentValue := holding.totalCost;
        return;
      }
      basis := ManualValuation;
      currentValue := holding.ValuedValue();
      if quantity > 0.0 {
        unitPrice := Some(ValuedPrice(holding));
      }
      valuedOn := valuedDay;
    }
  }

  /** A closed holding is worth nothing by any account of it. */
  lemma ClosedIsWorthless(h: Holding, quote: Option<Quote>)
    requires Sound(h) && h.quantity == 0.0
    ensures ShownFor(h, quote).currentValue == 0.0
  {
    if h.valuationTotal.Some? {
      DivZero(h.valuedQuantity);
      assert h.valuationTotal.value * 0.0 == 0.0;
    }
  }

  /** Where the worth of a holding on a day is stated at all, the list states the same. */
  lemma ListAgreesWithWorth(h: Holding, quotes: seq<Quote>, d: Day)
    requires Sound(h) && LatestQuoteOn(quotes, d) == LatestQuote(quotes)
    ensures WorthOn(h, quotes, d).Some? ==> ShownFor(h, LatestQuote(quotes)).currentValue == WorthOn(h, quotes, d).value
    ensures WorthOn(h, quotes, d).None? <==>
            h.quantity > 0.0
            && if QuoteWins(h, LatestQuote(quotes)) then d - LatestQuote(quotes).value.on > MAX_QUOTE_AGE
               else h.valuationTotal.None?
  {
    if h.quantity <= 0.0 {
      ClosedIsWorthless(h, LatestQuote(quotes));
    }
  }

  /** From the last operation and the last quote on, the position list and the yield series value a
      holding alike, whenever the series values it; it does not exactly when units are held and
      their latest statement is a quote more than ten days old, or there is no statement. */
  lemma TwoValuationsAgree(rows: seq<Operation>, p: Id, quotes: Option<seq<Quote>>, d: Day)
    requires Ordered(rows) && Replay(rows).Ok? && p != EMPTY
    requires forall op | op in rows :: op.occurredOn <= d
    requires quotes.Some? ==> Ascending(quotes.value, QuotedOn) && forall q | q in quotes.value :: q.on <= d
    ensures var h := Replay(rows).value.At(p);
            var quote := if quotes.Some? then LatestQuote(quotes.value) else None;
            var value := ManualSeriesOf(rows, p, quotes).Value(d);
            && (value.Some? ==> ShownFor(h, quote).currentValue == value.value)
            && (value.None? <==>
                h.quantity > 0.0 && if QuoteWins(h, quote) then d - quote.value.on > MAX_QUOTE_AGE else h.valuationTotal.None?)
  {
    var series := if quotes.Some? then quotes.value else [];
    FilterAll(rows, DatedThrough(d));
    ManualValueIsReplay(rows, p, quotes, d);
    ReplayedHoldingsSound(rows, p);
    LatestIsInForce(series, d);
    ListAgreesWithWorth(Replay(rows).value.At(p), series, d);
  }
}
