/** What a typed valuation says of a holding from its day on (internal/investments/ledger.go,
    yield.go, positions.go): the amount typed, in proportion to the units still held, until a newer
    quote speaks. Stated on the rows themselves. */
module Valued {
  import opened Wrappers
  import opened Decimals
  import opened Sorting
  import opened Domain
  import opened Ledger
  import opened Acceptance
  import opened CostBasis
  import opened Tables
  import opened Quotes
  import opened ManualYield
  import opened PositionList

  // ---- what the ledger remembers ----

  predicate TypesValue(op: Operation, p: Id) {
    op.kind.Valuation? && op.position == Some(p)
  }

  /** The last valuation of a position among some rows, and the rows around it. */
  ghost predicate LastValued(rows: seq<Operation>, before: seq<Operation>, valuation: Operation, after: seq<Operation>, p: Id) {
    rows == before + [valuation] + after && TypesValue(valuation, p) && forall op | op in after :: !TypesValue(op, p)
  }

  lemma OtherRowsKeepValuation(l: Account, op: Operation, p: Id)
    requires Apply(l, op).Ok? && !TypesValue(op, p)
    ensures var h, n := l.At(p), Apply(l, op).value.At(p);
            n.valuationTotal == h.valuationTotal && n.valuedQuantity == h.valuedQuantity && n.valuedOn == h.valuedOn
  {
  }

  /** From an accepted valuation on, the ledger remembers its amount, its day and the units held
      at that moment, of which there were some, whatever is bought or sold later. */
  lemma {:induction false} ValuationStands(before: seq<Operation>, valuation: Operation, after: seq<Operation>, p: Id)
    requires LastValued(before + [valuation] + after, before, valuation, after, p)
    requires Replay(before + [valuation] + after).Ok?
    ensures p != EMPTY && PositionUnits(before, p) > 0.0
    ensures var h := Replay(before + [valuation] + after).value.At(p);
            && h.valuationTotal == Some(valuation.amount) && h.valuedQuantity == PositionUnits(before, p)
            && h.valuedOn == Some(valuation.occurredOn)
  {
    if after == [] {
      assert before + [valuation] + [] == before + [valuation];
      ReplayPush(before, valuation);
      ReplayAcceptsExactlyAdmissible(before);
    } else {
      var rest, last := after[..|after| - 1], after[|after| - 1];
      assert before + [valuation] + after == (before + [valuation] + rest) + [last];
      assert last in after && forall op | op in rest :: op in after;
      ReplayPush(before + [valuation] + rest, last);
      ValuationStands(before, valuation, rest, p);
      OtherRowsKeepValuation(Replay(before + [valuation] + rest).value, last, p);
    }
  }

  /** A remembered valuation day is that of some valuation, and a position never valued has none. */
  lemma {:induction false} RememberedIsTyped(rows: seq<Operation>, p: Id)
    requires Replay(rows).Ok?
    ensures var h := Replay(rows).value.At(p);
            && (h.valuedOn.Some? <==> h.valuationTotal.Some?)
            && (h.valuedOn.Some? ==> exists op | op in rows :: TypesValue(op, p) && h.valuedOn == Some(op.occurredOn))
  {
    if rows != [] {
      var rest, last := rows[..|rows| - 1], rows[|rows| - 1];
      assert rows == rest + [last];
      ReplayPush(rest, last);
      RememberedIsTyped(rest, p);
      if !TypesValue(last, p) {
        OtherRowsKeepValuation(Replay(rest).value, last, p);
      }
    }
  }

  lemma UnitsHeld(rows: seq<Operation>, p: Id)
    requires Replay(rows).Ok?
    ensures Replay(rows).value.At(p).quantity == PositionUnits(rows, p) >= 0.0
  {
    ReplayAcceptsExactlyAdmissible(rows);
    assert rows[..|rows|] == rows && Solvent(rows);
  }

  // ---- what it is worth ----

  /** An amount in proportion to units: within half a unit of the division's last place, and exact
      while the units are those it was typed for, or none. */
  predicate InProportion(value: real, amount: real, units: real, typedFor: real) {
    && typedFor > 0.0 && Distance(value, Share(amount, units, typedFor)) <= HALF_UNIT
    && (units == typedFor ==> value == amount) && (units == 0.0 ==> value == 0.0)
  }

  lemma ProportionOf(h: Holding)
    requires h.valuationTotal.Some? && h.valuedQuantity > 0.0
    ensures InProportion(h.ValuedValue(), h.valuationTotal.value, h.quantity, h.valuedQuantity)
  {
    if h.quantity == h.valuedQuantity {
      ShareOfWhole(h.valuationTotal.value, h.valuedQuantity);
    }
    if h.quantity == 0.0 {
      assert h.valuationTotal.value * 0.0 == 0.0;
      DivZero(h.valuedQuantity);
    }
  }

  lemma NothingInProportion(amount: real, typedFor: real)
    requires typedFor > 0.0
    ensures InProportion(0.0, amount, 0.0, typedFor)
  {
    assert amount * 0.0 == 0.0 && 0.0 / typedFor == 0.0;
  }

  /** The quotes a position's asset has; none without a market. */
  function QuotesGiven(quotes: Option<seq<Quote>>): seq<Quote> {
    if quotes.Some? then quotes.value else []
  }

  lemma TypedWorth(h: Holding, quotes: seq<Quote>, d: Day, on: Day)
    requires h.valuationTotal.Some? && h.valuedQuantity > 0.0 && h.valuedOn == Some(on) && h.quantity >= 0.0
    requires Ascending(quotes, QuotedOn) && forall q | q in quotes && q.on <= d :: q.on <= on
    ensures WorthOn(h, quotes, d).Some?
    ensures InProportion(WorthOn(h, quotes, d).value, h.valuationTotal.value, h.quantity, h.valuedQuantity)
  {
    ProportionOf(h);
    NothingInProportion(h.valuationTotal.value, h.valuedQuantity);
  }

  /** While no quote is newer than the last valuation, the series answers the amount typed in
      proportion to the units held at the end of the day. */
  lemma WorthByValuation(rows: seq<Operation>, p: Id, quotes: Option<seq<Quote>>, d: Day,
                         before: seq<Operation>, valuation: Operation, after: seq<Operation>)
    requires Ordered(rows) && Replay(rows).Ok? && Ascending(QuotesGiven(quotes), QuotedOn)
    requires LastValued(Through(rows, d), before, valuation, after, p)
    requires forall q | q in QuotesGiven(quotes) && q.on <= d :: q.on <= valuation.occurredOn
    ensures var value := ManualSeriesOf(rows, p, quotes).Value(d);
            && value.Some?
            && InProportion(value.value, valuation.amount, PositionUnits(Through(rows, d), p), PositionUnits(before, p))
  {
    ThroughReplays(rows, d);
    ValuationStands(before, valuation, after, p);
    ManualValueIsReplay(rows, p, quotes, d);
    UnitsHeld(Through(rows, d), p);
    TypedWorth(Replay(Through(rows, d)).value.At(p), QuotesGiven(quotes), d, valuation.occurredOn);
  }

  lemma ThroughReplays(rows: seq<Operation>, d: Day)
    requires Ordered(rows) && Replay(rows).Ok?
    ensures Replay(Through(rows, d)).Ok?
  {
    ThroughCuts(rows, d);
    PrefixReplays(rows, |Through(rows, d)|);
  }

  lemma QuotedWorth(h: Holding, quotes: seq<Quote>, d: Day, quote: Quote)
    requires LatestQuoteOn(quotes, d) == Some(quote) && h.quantity > 0.0
    requires h.valuedOn.Some? ==> h.valuedOn.value < quote.on
    ensures WorthOn(h, quotes, d).None? <==> d - quote.on > 10
    ensures WorthOn(h, quotes, d).Some? ==> Priced(WorthOn(h, quotes, d).value, h.quantity, quote.price)
  {
  }

  lemma QuotedList(h: Holding, quote: Quote)
    requires h.quantity > 0.0 && (h.valuedOn.Some? ==> h.valuedOn.value < quote.on)
    ensures var s := ShownFor(h, Some(quote));
            && s.basis.MarketQuote? && s.unitPrice == Some(quote.price) && s.valuedOn == Some(quote.on)
            && Priced(s.currentValue, h.quantity, quote.price)
  {
  }

  /** A quote newer than every valuation prices the units held at the end of the day, to the cent,
      for ten days; after that nothing does. */
  lemma WorthByQuote(rows: seq<Operation>, p: Id, quotes: seq<Quote>, d: Day, quote: Quote)
    requires Ordered(rows) && Replay(rows).Ok? && p != EMPTY && IsPriceSeries(quotes) && IsLatest(quotes, quote, d)
    requires forall op | op in Through(rows, d) && TypesValue(op, p) :: op.occurredOn < quote.on
    requires PositionUnits(Through(rows, d), p) > 0.0
    ensures var value := ManualSeriesOf(rows, p, Some(quotes)).Value(d);
            && (value.None? <==> d - quote.on > 10)
            && (value.Some? ==> Priced(value.value, PositionUnits(Through(rows, d), p), quote.price))
  {
    ThroughReplays(rows, d);
    ManualValueIsReplay(rows, p, Some(quotes), d);
    UnitsHeld(Through(rows, d), p);
    RememberedIsTyped(Through(rows, d), p);
    LatestIsFound(quotes, quote, d);
    QuotedWorth(Replay(Through(rows, d)).value.At(p), quotes, d, quote);
  }

  /** Units that nothing priced by that day have no known worth; no units are worth nothing. */
  lemma WorthUnstated(rows: seq<Operation>, p: Id, quotes: Option<seq<Quote>>, d: Day)
    requires Ordered(rows) && Replay(rows).Ok? && p != EMPTY && Ascending(QuotesGiven(quotes), QuotedOn)
    requires forall op | op in Through(rows, d) :: !TypesValue(op, p)
    requires forall q | q in QuotesGiven(quotes) :: q.on > d
    ensures PositionUnits(Through(rows, d), p) > 0.0 ==> ManualSeriesOf(rows, p, quotes).Value(d).None?
  {
    ThroughReplays(rows, d);
    ManualValueIsReplay(rows, p, quotes, d);
    UnitsHeld(Through(rows, d), p);
    RememberedIsTyped(Through(rows, d), p);
  }

  lemma WorthOfNothing(rows: seq<Operation>, p: Id, quotes: Option<seq<Quote>>, d: Day)
    requires Ordered(rows) && Replay(rows).Ok? && p != EMPTY && PositionUnits(Through(rows, d), p) == 0.0
    ensures ManualSeriesOf(rows, p, quotes).Value(d) == Some(0.0)
  {
    ThroughReplays(rows, d);
    ManualValueIsReplay(rows, p, quotes, d);
    UnitsHeld(Through(rows, d), p);
  }

  // ---- what the list shows ----

  /** Units, cost and average cost as replayed; closed exactly when no unit is left. */
  predicate ShowsHolding(s: Shown, h: Holding, units: real) {
    && s.quantity == units && (s.closed <==> units == 0.0) && s.totalCost == Some(h.totalCost)
    && s.averageCost.Some?
    && (units > 0.0 ==> Distance(s.averageCost.value, h.totalCost / units) <= HALF_UNIT)
  }

  lemma ListShowsHolding(rows: seq<Operation>, p: Id, quote: Option<Quote>)
    requires Replay(rows).Ok?
    ensures ShowsHolding(ShownFor(Replay(rows).value.At(p), quote), Replay(rows).value.At(p), PositionUnits(rows, p))
  {
    UnitsHeld(rows, p);
  }

  /** Unless a newer quote prices units still held, the list shows the amount typed in proportion to
      them, its unit price, and its day. */
  lemma ListByValuation(rows: seq<Operation>, p: Id, quote: Option<Quote>,
                        before: seq<Operation>, valuation: Operation, after: seq<Operation>)
    requires Replay(rows).Ok? && LastValued(rows, before, valuation, after, p)
    requires quote.Some? && quote.value.on > valuation.occurredOn ==> PositionUnits(rows, p) == 0.0
    ensures var s := ShownFor(Replay(rows).value.At(p), quote);
            && s.basis.ManualValuation? && s.valuedOn == Some(valuation.occurredOn)
            && InProportion(s.currentValue, valuation.amount, PositionUnits(rows, p), PositionUnits(before, p))
            && (s.unitPrice.Some? <==> PositionUnits(rows, p) > 0.0)
            && (s.unitPrice.Some? ==> Distance(s.unitPrice.value, valuation.amount / PositionUnits(before, p)) <= HALF_UNIT)
  {
    ValuationStands(before, valuation, after, p);
    UnitsHeld(rows, p);
    ProportionOf(Replay(rows).value.At(p));
  }

  /** A quote newer than every valuation prices the units held, to the cent, however old it is. */
  lemma ListByQuote(rows: seq<Operation>, p: Id, quote: Quote)
    requires Replay(rows).Ok? && PositionUnits(rows, p) > 0.0
    requires forall op | op in rows && TypesValue(op, p) :: op.occurredOn < quote.on
    ensures var s := ShownFor(Replay(rows).value.At(p), Some(quote));
            && s.basis.MarketQuote? && s.unitPrice == Some(quote.price) && s.valuedOn == Some(quote.on)
            && Priced(s.currentValue, PositionUnits(rows, p), quote.price)
  {
    UnitsHeld(rows, p);
    RememberedIsTyped(rows, p);
    QuotedList(Replay(rows).value.At(p), quote);
  }

  /** A position never valued, without a quote for the units it holds, is shown at its cost. */
  lemma ListAtCost(rows: seq<Operation>, p: Id, quote: Option<Quote>)
    requires Replay(rows).Ok? && forall op | op in rows :: !TypesValue(op, p)
    requires quote.None? || PositionUnits(rows, p) == 0.0
    ensures var s, h := ShownFor(Replay(rows).value.At(p), quote), Replay(rows).value.At(p);
            s.basis.AtCost? && s.currentValue == h.totalCost && s.unitPrice.None? && s.valuedOn.None?
  {
    UnitsHeld(rows, p);
    RememberedIsTyped(rows, p);
  }
}
