/** The yield engine (internal/investments/yield.go): a holding's value on a day, the money that
    went into it over a period, and what is left as its yield, over a period or day by day. */
module Yield {
  import opened Wrappers
  import opened Sequences
  import opened Sorting
  import opened Domain
  import opened Quotes

  /** One dated change of a holding: units and money in (+) or out (-). */
  datatype FlowEvent = FlowEvent(day: Day, quantity: real, cash: real, inflow: bool)

  /** A manual holding's value after the last operation of a day that has one. */
  datatype Checkpoint = Checkpoint(day: Day, value: real, valued: bool, valuedOn: Option<Day>)

  /** The units held from the end of a day until the next step. */
  datatype Step = Step(day: Day, held: real)

  datatype Reason = NoHistory | IncompleteHistory | NoPrice
  datatype YieldError = Unavailable(reason: Reason) | InvalidPeriod
  datatype YieldResult = YieldResult(
    value: real, startValue: real, endValue: real, netFlows: real, start: Day, end: Day, partial: bool)
  datatype DayYield = DayYield(day: Day, value: real, endValue: real, netFlows: real)

  function EventDay(e: FlowEvent): Day { e.day }
  function CheckpointDay(c: Checkpoint): Day { c.day }

  // ---- flows and units ----

  function CashIn(from: Day, until: Day): FlowEvent -> real {
    (e: FlowEvent) => if from < e.day <= until then e.cash else 0.0
  }

  function UnitsAfter(d: Day): FlowEvent -> real {
    (e: FlowEvent) => if e.day > d then e.quantity else 0.0
  }

  function UnitsThrough(d: Day): FlowEvent -> real {
    (e: FlowEvent) => if e.day <= d then e.quantity else 0.0
  }

  function UnitsBetween(from: Day, until: Day): FlowEvent -> real {
    (e: FlowEvent) => if from < e.day <= until then e.quantity else 0.0
  }

  method SumFlows(events: seq<FlowEvent>, from: Day, until: Day) returns (total: real)
    ensures total == Sum(events, CashIn(from, until))
  {
    total := 0.0;
    var i := 0;
    while i < |events|
      invariant 0 <= i <= |events| && total == Sum(events[..i], CashIn(from, until))
    {
      SumTake(events, i, CashIn(from, until));
      var event := events[i];
      if event.day > from && !(event.day > until) {
        total := total + event.cash;
      }
      i := i + 1;
    }
    assert events[..i] == events;
  }

  /** The units at the end of a day, rebuilt backwards from today's. */
  method QuantityAt(now: real, events: seq<FlowEvent>, d: Day) returns (quantity: real)
    ensures quantity == now - Sum(events, UnitsAfter(d))
  {
    quantity := now;
    var i := 0;
    while i < |events|
      invariant 0 <= i <= |events| && quantity == now - Sum(events[..i], UnitsAfter(d))
    {
      SumTake(events, i, UnitsAfter(d));
      if events[i].day > d {
        quantity := quantity - events[i].quantity;
      }
      i := i + 1;
    }
    assert events[..i] == events;
  }

  /** The units held at the end of a day: those of the last step not after it. */
  function HeldAt(timeline: seq<Step>, d: Day): real {
    if timeline == [] then 0.0
    else if timeline[0].day > d then 0.0
    else if |timeline| == 1 || timeline[1].day > d then timeline[0].held
    else HeldAt(timeline[1..], d)
  }

  method TimelineAt(timeline: seq<Step>, d: Day) returns (held: real)
    ensures held == HeldAt(timeline, d)
  {
    held := 0.0;
    var i := 0;
    while i < |timeline|
      invariant 0 <= i <= |timeline|
      invariant HeldAt(timeline, d) ==
                if i < |timeline| && timeline[i].day <= d then HeldAt(timeline[i..], d) else held
    {
      if timeline[i].day > d {
        break;
      }
      held := timeline[i].held;
      assert i + 1 < |timeline| ==> timeline[i..][1] == timeline[i + 1];
      assert timeline[i..][1..] == timeline[i + 1..];
      i := i + 1;
    }
  }

  // ---- series ----

  /** A holding's value at the end of each day (none when nothing prices it), the money moved into
      and out of it, and the day before it first existed. */
  datatype ValueSeries = ValueSeries(value: Day -> Option<real>, events: seq<FlowEvent>, inception: Option<Day>, missing: Reason)
  {
    /** The net money put in during (from, until]. */
    function Flows(from: Day, until: Day): real {
      Sum(events, CashIn(from, until))
    }
  }

  datatype QuoteVerdict = QuoteDeclined | QuoteUsed(total: real) | QuoteStale

  datatype Series =
    | SyncedSeries(quantityKnown: bool, quantityNow: real, events: seq<FlowEvent>, quotes: seq<Quote>,
                   firstInflow: Option<Day>, complete: bool, movements: nat)
    | ManualSeries(events: seq<FlowEvent>, checkpoints: seq<Checkpoint>, quotes: seq<Quote>, timeline: seq<Step>)
  {
    function Quantity(d: Day): real
      requires SyncedSeries?
    {
      quantityNow - Sum(events, UnitsAfter(d))
    }

    function SyncedValue(d: Day): Option<real>
      requires SyncedSeries?
    {
      if complete && firstInflow.Some? && d < firstInflow.value then Some(0.0)
      else if !quantityKnown then None
      else if Quantity(d) <= 0.0 then Some(0.0)
      else match PriceOn(quotes, d) case None => None case Some(price) => Some(MarketValue(Quantity(d), price))
    }

    /** What the price series says about a day, against the ledger's state as of it. */
    function QuotedValue(d: Day, checkpoint: Checkpoint): QuoteVerdict
      requires ManualSeries?
    {
      if quotes == [] then QuoteDeclined
      else if HeldAt(timeline, d) <= 0.0 then QuoteDeclined
      else
        match LatestQuoteOn(quotes, d)
        case None => QuoteDeclined
        case Some(quote) =>
          if checkpoint.valuedOn.Some? && checkpoint.valuedOn.value >= quote.on then QuoteDeclined
          else if d - quote.on > MAX_QUOTE_AGE then QuoteStale
          else QuoteUsed(MarketValue(HeldAt(timeline, d), quote.price))
    }

    function ManualValue(d: Day): Option<real>
      requires ManualSeries?
    {
      var i := CountThrough(checkpoints, CheckpointDay, d);
      if i == 0 then Some(0.0)
      else
        var checkpoint := checkpoints[i - 1];
        match QuotedValue(d, checkpoint)
        case QuoteUsed(total) => Some(total)
        case QuoteStale => None
        case QuoteDeclined => if checkpoint.valued then Some(checkpoint.value) else None
    }

    /** The value at the end of a day; none when nothing prices it. */
    function Value(d: Day): Option<real> {
      if SyncedSeries? then SyncedValue(d) else ManualValue(d)
    }

    /** The day before the holding first existed. */
    function Inception(): Option<Day> {
      if SyncedSeries? then
        if !complete || firstInflow.None? then None else Some(firstInflow.value - 1)
      else
        match FirstInflow(events) case None => None case Some(day) => Some(day - 1)
    }

    function MissingInception(): Reason {
      if SyncedSeries? && movements > 0 then IncompleteHistory else NoHistory
    }

    /** The series as the calculations below see it. */
    function View(): ValueSeries {
      ValueSeries(Value, events, Inception(), MissingInception())
    }
  }

  /** The day of the first event that put money in. */
  function FirstInflow(events: seq<FlowEvent>): (r: Option<Day>)
    ensures r.Some? ==> exists e | e in events :: e.inflow && e.day == r.value
    ensures r.None? <==> forall e | e in events :: !e.inflow
  {
    if events == [] then None
    else if events[0].inflow then Some(events[0].day)
    else FirstInflow(events[1..])
  }

  lemma {:induction false} FirstInflowIsEarliest(events: seq<FlowEvent>, e: FlowEvent)
    requires Ascending(events, EventDay) && e in events && e.inflow
    ensures FirstInflow(events).Some? && FirstInflow(events).value <= e.day
  {
    var i :| 0 <= i < |events| && events[i] == e;
    assert i > 0 ==> EventDay(events[0]) <= EventDay(events[i]);
    if !events[0].inflow {
      forall a, b | 0 <= a < b < |events[1..]| ensures EventDay(events[1..][a]) <= EventDay(events[1..][b]) {
        assert EventDay(events[a + 1]) <= EventDay(events[b + 1]);
      }
      assert events[1..][i - 1] == e;
      FirstInflowIsEarliest(events[1..], e);
    }
  }

  // ---- the period ----

  /** What a period's yield is: the first priced day on or after the requested start, the two
      values, the money moved between, and the difference. */
  ghost predicate IsYieldOver(s: ValueSeries, from: Option<Day>, until: Day, r: Result<YieldResult, YieldError>) {
    var first := if from.Some? then from else s.inception;
    if first.None? then r == Err(Unavailable(s.missing))
    else if first.value > until then r == Err(InvalidPeriod)
    else if s.value(until).None? then r == Err(Unavailable(NoPrice))
    else
      && r.Ok?
      && first.value <= r.value.start <= until
      && s.value(r.value.start) == Some(r.value.startValue)
      && (forall d | first.value <= d < r.value.start :: s.value(d).None?)
      && (r.value.partial <==> r.value.start != first.value)
      && r.value.end == until && s.value(until) == Some(r.value.endValue)
      && r.value.netFlows == s.Flows(r.value.start, until)
      && r.value.value == r.value.endValue - r.value.startValue - r.value.netFlows
  }

  /** The search for a priced start never runs past the end: the end itself is priced. */
  method YieldOver(s: ValueSeries, from: Option<Day>, until: Day) returns (r: Result<YieldResult, YieldError>)
    ensures IsYieldOver(s, from, until, r)
  {
    var start: Day;
    if from.None? {
      var inception := s.inception;
      if inception.None? {
        return Err(Unavailable(s.missing));
      }
      start := inception.value;
    } else {
      start := from.value;
    }
    if start > until {
      return Err(InvalidPeriod);
    }
    var endValue := s.value(until);
    if endValue.None? {
      return Err(Unavailable(NoPrice));
    }
    ghost var first := start;
    var partial := false;
    var startValue := s.value(start);
    while startValue.None?
      invariant first <= start <= until && startValue == s.value(start)
      invariant forall d | first <= d < start :: s.value(d).None?
      invariant partial <==> start != first
      decreases until - start
    {
      start := start + 1;
      if start > until {
        assert false;
      }
      partial := true;
      startValue := s.value(start);
    }
    var netFlows := SumFlows(s.events, start, until);
    r := Ok(YieldResult(endValue.value - startValue.value - netFlows, startValue.value, endValue.value, netFlows, start, until, partial));
  }

  // ---- day by day ----

  function DayRow(s: ValueSeries, d: Day): seq<DayYield> {
    if s.value(d).Some? && s.value(d - 1).Some? then
      [DayYield(d, s.value(d).value - s.value(d - 1).value - s.Flows(d - 1, d), s.value(d).value, s.Flows(d - 1, d))]
    else []
  }

  /** The yield of each day in (from, until] priced on both itself and the day before. */
  function Daily(s: ValueSeries, from: Day, until: Day): seq<DayYield>
    decreases until - from
  {
    if until <= from then [] else Daily(s, from, until - 1) + DayRow(s, until)
  }

  method DailyOver(s: ValueSeries, from: Day, until: Day) returns (days: seq<DayYield>)
    ensures days == Daily(s, from, until)
  {
    days := [];
    var previous := s.value(from);
    var day := from + 1;
    while !(day > until)
      invariant from < day && (day <= until + 1 || day == from + 1)
      invariant previous == s.value(day - 1)
      invariant days == Daily(s, from, day - 1)
      decreases until - day
    {
      var current := s.value(day);
      if current.Some? && previous.Some? {
        var flows := SumFlows(s.events, day - 1, day);
        days := days + [DayYield(day, current.value - previous.value - flows, current.value, flows)];
      }
      previous := current;
      day := day + 1;
    }
  }

  function DayValue(y: DayYield): real { y.value }
  function DayFlows(y: DayYield): real { y.netFlows }

  /** Money moved over adjoining periods adds up. */
  lemma {:induction false} FlowsSplit(events: seq<FlowEvent>, a: Day, b: Day, c: Day)
    requires a <= b <= c
    ensures Sum(events, CashIn(a, c)) == Sum(events, CashIn(a, b)) + Sum(events, CashIn(b, c))
  {
    if events != [] {
      FlowsSplit(events[..|events| - 1], a, b, c);
    }
  }

  lemma NoFlows(events: seq<FlowEvent>, a: Day)
    ensures Sum(events, CashIn(a, a)) == 0.0
  {
    SumZero(events, CashIn(a, a));
  }

  /** One day's yield: what its end value leaves over the day before's and the money moved. */
  predicate YieldOfDay(s: ValueSeries, y: DayYield) {
    && s.value(y.day) == Some(y.endValue) && s.value(y.day - 1).Some?
    && y.netFlows == s.Flows(y.day - 1, y.day)
    && y.value == y.endValue - s.value(y.day - 1).value - y.netFlows
  }

  /** Each day listed is one of the period, with its own figures. */
  lemma {:induction false} EachDayListed(s: ValueSeries, from: Day, until: Day, y: DayYield)
    requires y in Daily(s, from, until)
    ensures from < y.day <= until && YieldOfDay(s, y)
    decreases until - from
  {
    if y !in DayRow(s, until) {
      EachDayListed(s, from, until - 1, y);
    }
  }

  /** Each day of the period priced on both itself and the day before is listed. */
  lemma {:induction false} PricedDaysListed(s: ValueSeries, from: Day, until: Day, d: Day) returns (y: DayYield)
    requires from < d <= until && s.value(d).Some? && s.value(d - 1).Some?
    ensures y in Daily(s, from, until) && y.day == d
    decreases until - from
  {
    if d == until {
      y := DayRow(s, until)[0];
    } else {
      y := PricedDaysListed(s, from, until - 1, d);
    }
  }

  /** No day is listed twice, and they come oldest first. */
  lemma {:induction false} DaysListedInOrder(s: ValueSeries, from: Day, until: Day)
    ensures forall i, j | 0 <= i < j < |Daily(s, from, until)| :: Daily(s, from, until)[i].day < Daily(s, from, until)[j].day
    decreases until - from
  {
    if from < until {
      DaysListedInOrder(s, from, until - 1);
      forall y | y in Daily(s, from, until - 1) ensures y.day < until {
        EachDayListed(s, from, until - 1, y);
      }
    }
  }

  /** When every day is priced, the days list each day once and their yields and flows add up to
      the period's. */
  lemma {:induction false} DailyTelescopes(s: ValueSeries, from: Day, until: Day)
    requires from <= until && forall d | from <= d <= until :: s.value(d).Some?
    ensures |Daily(s, from, until)| == until - from
    ensures forall i | 0 <= i < until - from :: Daily(s, from, until)[i].day == from + 1 + i
    ensures Sum(Daily(s, from, until), DayFlows) == s.Flows(from, until)
    ensures Sum(Daily(s, from, until), DayValue) == s.value(until).value - s.value(from).value - s.Flows(from, until)
    decreases until - from
  {
    if from == until {
      NoFlows(s.events, from);
    } else {
      DailyTelescopes(s, from, until - 1);
      assert s.value(until).Some? && s.value(until - 1).Some?;
      var row := DayRow(s, until)[0];
      SumConcat(Daily(s, from, until - 1), [row], DayFlows);
      SumConcat(Daily(s, from, until - 1), [row], DayValue);
      SumOne(row, DayFlows);
      SumOne(row, DayValue);
      FlowsSplit(s.events, from, until - 1, until);
    }
  }

  /** The daily yields of a fully priced period sum to the period's yield. */
  lemma DaysSumToPeriod(s: ValueSeries, from: Day, until: Day, r: Result<YieldResult, YieldError>)
    requires from <= until && forall d | from <= d <= until :: s.value(d).Some?
    requires IsYieldOver(s, Some(from), until, r)
    ensures r.Ok? && r.value.start == from && !r.value.partial
    ensures Sum(Daily(s, from, until), DayValue) == r.value.value
    ensures Sum(Daily(s, from, until), DayFlows) == r.value.netFlows
  {
    assert s.value(from).Some? && s.value(until).Some?;
    DailyTelescopes(s, from, until);
  }

  /** The yields of two adjoining periods that meet on a priced day add up to the yield of both. */
  lemma PeriodsCompose(s: ValueSeries, a: Day, b: Day, c: Day,
                       r: Result<YieldResult, YieldError>, left: Result<YieldResult, YieldError>, right: Result<YieldResult, YieldError>)
    requires a <= b <= c && s.value(b).Some?
    requires IsYieldOver(s, Some(a), c, r) && IsYieldOver(s, Some(a), b, left) && IsYieldOver(s, Some(b), c, right)
    ensures r.Ok? <==> right.Ok?
    ensures r.Ok? ==> left.Ok? && r.value.start == left.value.start
                      && r.value.value == left.value.value + right.value.value
  {
    if r.Ok? {
      FlowsSplit(s.events, r.value.start, b, c);
    }
  }

  /** A series whose value on its inception day is zero. */
  ghost predicate StartsAtZero(s: ValueSeries) {
    s.inception.Some? ==> s.value(s.inception.value) == Some(0.0)
  }

  /** Over a series that starts at zero, a yield since inception starts there, at zero, in full. */
  lemma SinceInceptionStartsAtZero(s: ValueSeries, until: Day, r: Result<YieldResult, YieldError>)
    requires StartsAtZero(s) && IsYieldOver(s, None, until, r)
    ensures r.Ok? ==> s.inception == Some(r.value.start) && r.value.startValue == 0.0 && !r.value.partial
    ensures r.Ok? ==> r.value.value == r.value.endValue - r.value.netFlows
  {
  }

  /** A provider holding whose history is complete starts at zero. */
  lemma SyncedStartsAtZero(s: Series)
    requires s.SyncedSeries?
    ensures StartsAtZero(s.View())
  {
  }

  // ---- quantities backwards and forwards ----

  /** Rebuilding backwards agrees with adding forwards, between any two days. */
  lemma BackwardIsForward(s: Series, d1: Day, d2: Day)
    requires s.SyncedSeries? && d1 <= d2
    ensures s.Quantity(d2) - s.Quantity(d1) == Sum(s.events, UnitsBetween(d1, d2))
  {
    UnitsSplit(s.events, d1, d2);
  }

  lemma {:induction false} UnitsSplit(events: seq<FlowEvent>, d1: Day, d2: Day)
    requires d1 <= d2
    ensures Sum(events, UnitsAfter(d1)) == Sum(events, UnitsBetween(d1, d2)) + Sum(events, UnitsAfter(d2))
  {
    if events != [] {
      UnitsSplit(events[..|events| - 1], d1, d2);
    }
  }
}
