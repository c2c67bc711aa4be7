/** The series of a provider holding (internal/investments/yield.go): its movements placed on their
    days, a purchase older than the connection restored from the stated principal, and the judgement
    whether the history accounts for the holding. */
module SyncedYield {
  import opened Wrappers
  import opened Decimals
  import opened Sequences
  import opened Sorting
  import opened Domain
  import opened Tables
  import opened Quotes
  import opened Yield

  datatype ProviderMovement = ProviderMovement(
    direction: Direction, quantity: Option<real>, amount: Option<real>, tradedOn: Option<Day>, happenedOn: Option<Day>)

  datatype ProviderHolding = ProviderHolding(
    quantity: Option<real>, fixedIncome: bool, amountOriginal: Option<real>, purchasedOn: Option<Day>, issuedOn: Option<Day>)
  {
    function Now(): real {
      if quantity.Some? then quantity.value else 0.0
    }

    /** The stated purchase of a fixed income title still held: its day, if principal and day are known. */
    function BoughtOn(): Option<Day> {
      if !fixedIncome || amountOriginal.None? || amountOriginal.value <= 0.0 || quantity.None? || quantity.value <= 0.0 then None
      else if purchasedOn.Some? then purchasedOn
      else issuedOn
    }
  }

  // ---- placing movements ----

  function MovedOn(m: ProviderMovement): Option<Day> {
    if m.tradedOn.Some? then m.tradedOn else m.happenedOn
  }

  predicate Placeable(m: ProviderMovement) {
    !m.direction.UnknownDirection? && m.amount.Some? && MovedOn(m).Some?
  }

  function EventOf(m: ProviderMovement): FlowEvent
    requires Placeable(m)
  {
    var units := if m.quantity.Some? then m.quantity.value else 0.0;
    if m.direction.Inflow? then FlowEvent(MovedOn(m).value, units, m.amount.value, true)
    else FlowEvent(MovedOn(m).value, -units, -m.amount.value, false)
  }

  function EventsOf(movements: seq<ProviderMovement>): seq<FlowEvent> {
    if movements == [] then []
    else
      var last := movements[|movements| - 1];
      EventsOf(movements[..|movements| - 1]) + (if Placeable(last) then [EventOf(last)] else [])
  }

  function BoughtUnits(m: ProviderMovement): real {
    if Placeable(m) && m.direction.Inflow? && m.quantity.Some? then m.quantity.value else 0.0
  }

  function SoldUnits(m: ProviderMovement): real {
    if Placeable(m) && m.direction.Outflow? && m.quantity.Some? then m.quantity.value else 0.0
  }

  /** One more movement placed, counted and totalled. */
  lemma OneMorePlaced(movements: seq<ProviderMovement>, i: nat)
    requires i < |movements|
    ensures EventsOf(movements[..i + 1])
            == EventsOf(movements[..i]) + (if Placeable(movements[i]) then [EventOf(movements[i])] else [])
    ensures (forall m | m in movements[..i + 1] :: Placeable(m))
            <==> (forall m | m in movements[..i] :: Placeable(m)) && Placeable(movements[i])
    ensures Sum(movements[..i + 1], SoldUnits) == Sum(movements[..i], SoldUnits) + SoldUnits(movements[i])
    ensures Sum(movements[..i + 1], BoughtUnits) == Sum(movements[..i], BoughtUnits) + BoughtUnits(movements[i])
  {
    assert movements[..i + 1][..i] == movements[..i];
    assert movements[..i + 1] == movements[..i] + [movements[i]];
    SumTake(movements, i, SoldUnits);
    SumTake(movements, i, BoughtUnits);
  }

  /** The loop's own reading of one movement: its event, and the units it bought or sold. */
  method ReadMovement(m: ProviderMovement) returns (event: FlowEvent, sold: real, bought: real)
    requires Placeable(m)
    ensures event == EventOf(m) && sold == SoldUnits(m) && bought == BoughtUnits(m)
  {
    var inflow := m.direction.Inflow?;
    event := FlowEvent(MovedOn(m).value, 0.0, if inflow then m.amount.value else -m.amount.value, inflow);
    sold, bought := 0.0, 0.0;
    if m.quantity.Some? {
      if inflow {
        event := event.(quantity := m.quantity.value);
        bought := m.quantity.value;
      } else {
        event := event.(quantity := -m.quantity.value);
        sold := m.quantity.value;
      }
    }
  }

  method PlaceMovements(movements: seq<ProviderMovement>) returns (events: seq<FlowEvent>, placed: bool, sold: real, bought: real)
    ensures events == EventsOf(movements)
    ensures placed <==> forall m | m in movements :: Placeable(m)
    ensures sold == Sum(movements, SoldUnits) && bought == Sum(movements, BoughtUnits)
  {
    events, placed, sold, bought := [], true, 0.0, 0.0;
    var i := 0;
    while i < |movements|
      invariant 0 <= i <= |movements|
      invariant events == EventsOf(movements[..i])
      invariant placed <==> forall m | m in movements[..i] :: Placeable(m)
      invariant sold == Sum(movements[..i], SoldUnits) && bought == Sum(movements[..i], BoughtUnits)
    {
      OneMorePlaced(movements, i);
      var m := movements[i];
      if m.direction.UnknownDirection? || m.amount.None? || MovedOn(m).None? {
        placed := false;
      } else {
        var event, soldUnits, boughtUnits := ReadMovement(m);
        sold, bought := sold + soldUnits, bought + boughtUnits;
        events := events + [event];
      }
      i := i + 1;
    }
    assert movements[..i] == movements;
  }

  /** The stable sort by day. */
  function SortByDay(events: seq<FlowEvent>): seq<FlowEvent> {
    SortBy(events, EventDay)
  }

  // ---- restoration and judgement ----

  predicate HasInflow(events: seq<FlowEvent>) {
    exists e | e in events :: e.inflow
  }

  function Purchase(h: ProviderHolding, events: seq<FlowEvent>, boughtOn: Day): FlowEvent
    requires h.amountOriginal.Some?
  {
    FlowEvent(boughtOn, h.Now() - Sum(events, UnitsAfter(boughtOn)), h.amountOriginal.value, true)
  }

  predicate NeedsPurchase(h: ProviderHolding, movements: seq<ProviderMovement>) {
    !HasInflow(SortByDay(EventsOf(movements))) && h.BoughtOn().Some?
  }

  function AllEvents(h: ProviderHolding, movements: seq<ProviderMovement>): seq<FlowEvent> {
    var events := SortByDay(EventsOf(movements));
    if NeedsPurchase(h, movements) then SortByDay([Purchase(h, events, h.BoughtOn().value)] + events) else events
  }

  /** Selling more than was ever bought, past one hundredth for fixed income. */
  predicate Oversold(h: ProviderHolding, sold: real, bought: real) {
    sold - bought > 0.0 && (h.fixedIncome ==> sold - bought > Div(bought, 100.0))
  }

  predicate Complete(h: ProviderHolding, movements: seq<ProviderMovement>) {
    && (forall m | m in movements :: Placeable(m))
    && HasInflow(AllEvents(h, movements))
    && !Oversold(h, Sum(movements, SoldUnits), Sum(movements, BoughtUnits))
  }

  function SyncedSeriesOf(h: ProviderHolding, movements: seq<ProviderMovement>, quotes: seq<Quote>): Series {
    SyncedSeries(h.quantity.Some?, h.Now(), AllEvents(h, movements), quotes,
                 FirstInflow(AllEvents(h, movements)), Complete(h, movements), |movements|)
  }

  method AnyInflow(events: seq<FlowEvent>) returns (found: bool)
    ensures found <==> HasInflow(events)
  {
    found := false;
    var i := 0;
    while i < |events|
      invariant 0 <= i <= |events| && (found <==> exists k | 0 <= k < i :: events[k].inflow)
    {
      found := found || events[i].inflow;
      i := i + 1;
    }
  }

  method FindFirstInflow(events: seq<FlowEvent>) returns (r: Option<Day>)
    ensures r == FirstInflow(events)
  {
    r := None;
    var i := 0;
    while i < |events|
      invariant 0 <= i <= |events| && FirstInflow(events) == FirstInflow(events[i..])
    {
      if events[i].inflow {
        return Some(events[i].day);
      }
      assert events[i..][1..] == events[i + 1..];
      i := i + 1;
    }
  }

  /** The events sorted, with the missing purchase put back when the holding states one. */
  method RestorePurchase(h: ProviderHolding, ghost movements: seq<ProviderMovement>, placed: seq<FlowEvent>) returns (events: seq<FlowEvent>, hasInflow: bool)
    requires placed == EventsOf(movements)
    ensures events == AllEvents(h, movements) && hasInflow == HasInflow(events)
  {
    events := SortByDay(placed);
    hasInflow := AnyInflow(events);
    if !hasInflow {
      var boughtOn := h.BoughtOn();
      if boughtOn.Some? {
        var units := QuantityAt(h.Now(), events, boughtOn.value);
        events := SortByDay([FlowEvent(boughtOn.value, units, h.amountOriginal.value, true)] + events);
        hasInflow := true;
        RestoredHasInflow(h, movements);
      }
    }
  }

  method LoadSyncedSeries(h: ProviderHolding, movements: seq<ProviderMovement>, quotes: seq<Quote>) returns (s: Series)
    ensures s == SyncedSeriesOf(h, movements, quotes)
  {
    var placed, complete, sold, bought := PlaceMovements(movements);
    var events, hasInflow := RestorePurchase(h, movements, placed);
    if !hasInflow {
      complete := false;
    }
    if Oversold(h, sold, bought) {
      complete := false;
    }
    var firstInflow := FindFirstInflow(events);
    s := SyncedSeries(h.quantity.Some?, h.Now(), events, quotes, firstInflow, complete, |movements|);
  }

  lemma RestoredHasInflow(h: ProviderHolding, movements: seq<ProviderMovement>)
    requires NeedsPurchase(h, movements)
    ensures HasInflow(AllEvents(h, movements))
  {
    var events := SortByDay(EventsOf(movements));
    var purchase := Purchase(h, events, h.BoughtOn().value);
    SortSorts([purchase] + events, EventDay);
    assert purchase in multiset([purchase] + events);
    assert purchase in multiset(AllEvents(h, movements));
  }

  // ---- what the restoration achieves ----

  lemma PurchaseSums(h: ProviderHolding, movements: seq<ProviderMovement>, f: FlowEvent -> real)
    requires NeedsPurchase(h, movements)
    ensures Sum(AllEvents(h, movements), f)
            == f(Purchase(h, SortByDay(EventsOf(movements)), h.BoughtOn().value)) + Sum(EventsOf(movements), f)
  {
    var events := SortByDay(EventsOf(movements));
    var purchase := Purchase(h, events, h.BoughtOn().value);
    SortSums([purchase] + events, EventDay, f);
    SumConcat([purchase], events, f);
    SumOne(purchase, f);
    SortSums(EventsOf(movements), EventDay, f);
  }

  lemma {:induction false} EveryEventIsBeforeOrAfter(events: seq<FlowEvent>, d: Day)
    ensures Sum(events, UnitsThrough(d)) + Sum(events, UnitsAfter(d)) == Sum(events, Moves)
  {
    if events != [] {
      EveryEventIsBeforeOrAfter(events[..|events| - 1], d);
    }
  }

  function Moves(e: FlowEvent): real {
    e.quantity
  }

  /** The restored purchase is for the units held at the end of its day. */
  lemma PurchaseUnits(h: ProviderHolding, movements: seq<ProviderMovement>)
    requires NeedsPurchase(h, movements)
    ensures Purchase(h, SortByDay(EventsOf(movements)), h.BoughtOn().value).quantity
            == h.Now() - Sum(EventsOf(movements), UnitsAfter(h.BoughtOn().value))
  {
    SortSums(EventsOf(movements), EventDay, UnitsAfter(h.BoughtOn().value));
  }

  /** The quantity rebuilt backwards from all events, a restored purchase included. */
  function Rebuilt(h: ProviderHolding, movements: seq<ProviderMovement>, d: Day): real {
    h.Now() - Sum(AllEvents(h, movements), UnitsAfter(d))
  }

  /** The purchase takes its units out of every day before it, and out of no other. */
  lemma RebuiltPastPurchase(h: ProviderHolding, movements: seq<ProviderMovement>, d: Day)
    requires NeedsPurchase(h, movements)
    ensures var events, boughtOn := EventsOf(movements), h.BoughtOn().value;
            Rebuilt(h, movements, d)
            == if d >= boughtOn then h.Now() - Sum(events, UnitsAfter(d))
               else Sum(events, UnitsAfter(boughtOn)) - Sum(events, UnitsAfter(d))
  {
    PurchaseSums(h, movements, UnitsAfter(d));
    PurchaseUnits(h, movements);
  }

  /** From its purchase day on, a restored holding's quantity is what it was without the purchase;
      before it, minus what moved from that day's end through the purchase day. */
  lemma RestoredQuantity(h: ProviderHolding, movements: seq<ProviderMovement>, quotes: seq<Quote>, d: Day)
    requires NeedsPurchase(h, movements)
    ensures var s, boughtOn := SyncedSeriesOf(h, movements, quotes), h.BoughtOn().value;
            s.Quantity(d) == if d >= boughtOn then h.Now() - Sum(EventsOf(movements), UnitsAfter(d))
                             else -Sum(EventsOf(movements), UnitsBetween(d, boughtOn))
  {
    SeriesIsRebuilt(h, movements, quotes, d);
    RebuiltPastPurchase(h, movements, d);
    if d < h.BoughtOn().value {
      UnitsSplit(EventsOf(movements), d, h.BoughtOn().value);
    }
  }

  lemma SeriesIsRebuilt(h: ProviderHolding, movements: seq<ProviderMovement>, quotes: seq<Quote>, d: Day)
    ensures SyncedSeriesOf(h, movements, quotes).Quantity(d) == Rebuilt(h, movements, d)
    ensures SyncedSeriesOf(h, movements, quotes).events == AllEvents(h, movements)
  {
  }

  lemma RebuiltForward(h: ProviderHolding, movements: seq<ProviderMovement>, d: Day)
    requires NeedsPurchase(h, movements)
    ensures Rebuilt(h, movements, d)
            == Sum(AllEvents(h, movements), UnitsThrough(d)) - Sum(EventsOf(movements), UnitsThrough(h.BoughtOn().value))
  {
    PurchaseSums(h, movements, UnitsThrough(d));
    PurchaseUnits(h, movements);
    RebuiltPastPurchase(h, movements, d);
    EveryEventIsBeforeOrAfter(EventsOf(movements), d);
    EveryEventIsBeforeOrAfter(EventsOf(movements), h.BoughtOn().value);
  }

  /** On every day the restored quantity is the forward sum of the events through it, less the
      units of the movements dated on or before the purchase. */
  lemma RestoredForward(h: ProviderHolding, movements: seq<ProviderMovement>, quotes: seq<Quote>, d: Day)
    requires NeedsPurchase(h, movements)
    ensures var s := SyncedSeriesOf(h, movements, quotes);
            s.Quantity(d) == Sum(s.events, UnitsThrough(d)) - Sum(EventsOf(movements), UnitsThrough(h.BoughtOn().value))
  {
    SeriesIsRebuilt(h, movements, quotes, d);
    RebuiltForward(h, movements, d);
  }

  /** With no movement dated on or before the restored purchase, nothing is held, and nothing is
      worth anything, on any earlier day; and backwards is forwards on every day. */
  lemma RestoredFromNothing(h: ProviderHolding, movements: seq<ProviderMovement>, quotes: seq<Quote>, d: Day)
    requires NeedsPurchase(h, movements)
    requires forall e | e in EventsOf(movements) :: e.day > h.BoughtOn().value
    ensures var s := SyncedSeriesOf(h, movements, quotes);
            && s.Quantity(d) == Sum(s.events, UnitsThrough(d))
            && (d < h.BoughtOn().value ==> s.Quantity(d) == 0.0 && s.Value(d) == Some(0.0))
  {
    RestoredForward(h, movements, quotes, d);
    SumZero(EventsOf(movements), UnitsThrough(h.BoughtOn().value));
    if d < h.BoughtOn().value {
      RestoredQuantity(h, movements, quotes, d);
      SumZero(EventsOf(movements), UnitsBetween(d, h.BoughtOn().value));
    }
  }

  /** A complete holding starts at zero the day before its first inflow, which every other inflow
      follows. */
  lemma CompleteStartsAtFirstInflow(h: ProviderHolding, movements: seq<ProviderMovement>, quotes: seq<Quote>)
    requires Complete(h, movements)
    ensures var s := SyncedSeriesOf(h, movements, quotes);
            && s.Inception().Some? && s.Value(s.Inception().value) == Some(0.0)
            && (exists e | e in s.events :: e.inflow && e.day == s.Inception().value + 1)
            && forall e | e in s.events && e.inflow :: s.Inception().value < e.day
  {
    var s := SyncedSeriesOf(h, movements, quotes);
    SortSorts(EventsOf(movements), EventDay);
    if NeedsPurchase(h, movements) {
      SortSorts([Purchase(h, SortByDay(EventsOf(movements)), h.BoughtOn().value)] + SortByDay(EventsOf(movements)), EventDay);
    }
    forall e | e in s.events && e.inflow ensures s.Inception().value < e.day {
      FirstInflowIsEarliest(s.events, e);
    }
  }

  // ---- what the series says of the movements ----

  /** The units a movement brought in or took out after a day, as the provider sent it. */
  function NetUnitsAfter(d: Day): ProviderMovement -> real {
    (m: ProviderMovement) =>
      var day := if m.tradedOn.Some? then m.tradedOn else m.happenedOn;
      if m.amount.None? || m.quantity.None? || day.None? || day.value <= d then 0.0
      else if m.direction.Inflow? then m.quantity.value
      else if m.direction.Outflow? then -m.quantity.value
      else 0.0
  }

  /** The money it brought in or took out during a period. */
  function NetMoneyIn(from: Day, until: Day): ProviderMovement -> real {
    (m: ProviderMovement) =>
      var day := if m.tradedOn.Some? then m.tradedOn else m.happenedOn;
      if m.amount.None? || day.None? || day.value <= from || day.value > until then 0.0
      else if m.direction.Inflow? then m.amount.value
      else if m.direction.Outflow? then -m.amount.value
      else 0.0
  }

  lemma {:induction false} EventsSumMovements(movements: seq<ProviderMovement>, f: FlowEvent -> real, g: ProviderMovement -> real)
    requires forall m | m in movements :: g(m) == if Placeable(m) then f(EventOf(m)) else 0.0
    ensures Sum(EventsOf(movements), f) == Sum(movements, g)
  {
    if movements != [] {
      var rest, last := movements[..|movements| - 1], movements[|movements| - 1];
      assert last in movements;
      EventsSumMovements(rest, f, g);
      if Placeable(last) {
        SumPush(EventsOf(rest), EventOf(last), f);
      } else {
        assert EventsOf(movements) == EventsOf(rest);
      }
    }
  }

  lemma UnitsAfterFromMovements(movements: seq<ProviderMovement>, d: Day)
    ensures Sum(EventsOf(movements), UnitsAfter(d)) == Sum(movements, NetUnitsAfter(d))
  {
    EventsSumMovements(movements, UnitsAfter(d), NetUnitsAfter(d));
  }

  lemma MoneyFromMovements(movements: seq<ProviderMovement>, from: Day, until: Day)
    ensures Sum(EventsOf(movements), CashIn(from, until)) == Sum(movements, NetMoneyIn(from, until))
  {
    EventsSumMovements(movements, CashIn(from, until), NetMoneyIn(from, until));
  }

  /** The purchase the program restores: a fixed income title still held, whose principal and day
      the provider states, none of whose movements it could place brought money in. */
  predicate PurchaseMissing(h: ProviderHolding, movements: seq<ProviderMovement>) {
    && (forall m | m in movements && m.direction.Inflow? ::
          m.amount.None? || (m.tradedOn.None? && m.happenedOn.None?))
    && h.fixedIncome && h.quantity.Some? && h.quantity.value > 0.0
    && h.amountOriginal.Some? && h.amountOriginal.value > 0.0 && (h.purchasedOn.Some? || h.issuedOn.Some?)
  }

  lemma {:induction false} PlacedInflow(movements: seq<ProviderMovement>)
    ensures HasInflow(EventsOf(movements)) <==> exists m | m in movements :: Placeable(m) && m.direction.Inflow?
  {
    if movements != [] {
      var rest, last := movements[..|movements| - 1], movements[|movements| - 1];
      assert movements == rest + [last];
      PlacedInflow(rest);
      var more := if Placeable(last) then [EventOf(last)] else [];
      assert EventsOf(movements) == EventsOf(rest) + more;
      assert Placeable(last) ==> more[0] in more;
      InflowOfEither(EventsOf(rest), more);
    }
  }

  lemma InflowOfEither(a: seq<FlowEvent>, b: seq<FlowEvent>)
    ensures HasInflow(a + b) <==> HasInflow(a) || HasInflow(b)
  {
    if e :| e in a && e.inflow {
      assert e in a + b;
    }
    if e :| e in b && e.inflow {
      assert e in a + b;
    }
  }

  lemma SortedInflow(events: seq<FlowEvent>)
    ensures HasInflow(SortByDay(events)) <==> HasInflow(events)
  {
    SortSorts(events, EventDay);
    if e :| e in events && e.inflow {
      assert e in multiset(SortByDay(events));
    }
    if e :| e in SortByDay(events) && e.inflow {
      assert e in multiset(events);
    }
  }

  lemma RestoredExactlyWhenMissing(h: ProviderHolding, movements: seq<ProviderMovement>)
    ensures NeedsPurchase(h, movements) <==> PurchaseMissing(h, movements)
  {
    SortedInflow(EventsOf(movements));
    PlacedInflow(movements);
  }

  /** The day of the stated purchase: the purchase date, or else the issue date. */
  function StatedDay(h: ProviderHolding): Option<Day> {
    if h.purchasedOn.Some? then h.purchasedOn else h.issuedOn
  }

  /** Unless a purchase is restored after the day, its quantity is today's less the units the
      provider's movements brought in after it; if one is, only what moved up to it counts. */
  lemma QuantityFromMovements(h: ProviderHolding, movements: seq<ProviderMovement>, quotes: seq<Quote>, d: Day)
    ensures var s := SyncedSeriesOf(h, movements, quotes);
            s.Quantity(d)
            == if PurchaseMissing(h, movements) && d < StatedDay(h).value
               then Sum(movements, NetUnitsAfter(StatedDay(h).value)) - Sum(movements, NetUnitsAfter(d))
               else (if h.quantity.Some? then h.quantity.value else 0.0) - Sum(movements, NetUnitsAfter(d))
  {
    SeriesIsRebuilt(h, movements, quotes, d);
    RestoredExactlyWhenMissing(h, movements);
    UnitsAfterFromMovements(movements, d);
    if NeedsPurchase(h, movements) {
      RebuiltPastPurchase(h, movements, d);
      UnitsAfterFromMovements(movements, h.BoughtOn().value);
    } else {
      SortSums(EventsOf(movements), EventDay, UnitsAfter(d));
    }
  }

  /** The money moved in a period is what the provider's movements moved, and the restored purchase
      if it falls in it. */
  lemma FlowsFromMovements(h: ProviderHolding, movements: seq<ProviderMovement>, quotes: seq<Quote>, from: Day, until: Day)
    ensures SyncedSeriesOf(h, movements, quotes).View().Flows(from, until)
            == Sum(movements, NetMoneyIn(from, until))
               + if PurchaseMissing(h, movements) && from < StatedDay(h).value <= until then h.amountOriginal.value else 0.0
  {
    RestoredExactlyWhenMissing(h, movements);
    MoneyFromMovements(movements, from, until);
    if NeedsPurchase(h, movements) {
      PurchaseSums(h, movements, CashIn(from, until));
    } else {
      SortSums(EventsOf(movements), EventDay, CashIn(from, until));
    }
  }

  /** A movement that states its direction, amount and day. */
  predicate Stated(m: ProviderMovement) {
    (m.direction.Inflow? || m.direction.Outflow?) && m.amount.Some? && (m.tradedOn.Some? || m.happenedOn.Some?)
  }

  lemma StatedIsPlaceable(m: ProviderMovement)
    ensures Stated(m) <==> Placeable(m)
  {
  }

  lemma InflowKnown(h: ProviderHolding, movements: seq<ProviderMovement>)
    ensures HasInflow(AllEvents(h, movements)) <==>
            (exists m | m in movements :: Stated(m) && m.direction.Inflow?) || PurchaseMissing(h, movements)
  {
    RestoredExactlyWhenMissing(h, movements);
    SortedInflow(EventsOf(movements));
    PlacedInflow(movements);
    if NeedsPurchase(h, movements) {
      RestoredHasInflow(h, movements);
    }
  }

  /** The history accounts for the holding if and only if every movement states its direction,
      amount and day, an inflow is among them or restored, and no more units were sold than bought,
      but for one hundredth of those bought in fixed income. */
  lemma CompleteExactly(h: ProviderHolding, movements: seq<ProviderMovement>, quotes: seq<Quote>, sold: real, bought: real)
    requires sold == Sum(movements, SoldUnits) && bought == Sum(movements, BoughtUnits)
    ensures SyncedSeriesOf(h, movements, quotes).complete <==>
            && (forall m | m in movements :: Stated(m))
            && ((exists m | m in movements :: Stated(m) && m.direction.Inflow?) || PurchaseMissing(h, movements))
            && (sold <= bought || (h.fixedIncome && sold - bought <= Div(bought, 100.0)))
  {
    InflowKnown(h, movements);
    forall m | m in movements ensures Stated(m) <==> Placeable(m) {
      StatedIsPlaceable(m);
    }
  }

  /** The day is before every inflow of a series that accounts for its holding. */
  ghost predicate BeforeIt(s: Series, d: Day)
    requires s.SyncedSeries?
  {
    s.complete && exists e | e in s.events :: e.inflow && forall x | x in s.events && x.inflow :: d < x.day
  }

  /** The units of a day: today's less those that moved after it. */
  function UnitsOn(s: Series, d: Day): real
    requires s.SyncedSeries?
  {
    s.quantityNow - Sum(s.events, UnitsAfter(d))
  }

  ghost predicate WellLoaded(s: Series) {
    s.SyncedSeries? && Ascending(s.events, EventDay) && s.firstInflow == FirstInflow(s.events) && IsPriceSeries(s.quotes)
  }

  lemma LoadedWell(h: ProviderHolding, movements: seq<ProviderMovement>, quotes: seq<Quote>)
    requires IsPriceSeries(quotes)
    ensures WellLoaded(SyncedSeriesOf(h, movements, quotes))
  {
    EventsAscend(h, movements);
  }

  lemma BeforeItIsBeforeFirst(s: Series, d: Day)
    requires WellLoaded(s)
    ensures BeforeIt(s, d) <==> s.complete && s.firstInflow.Some? && d < s.firstInflow.value
  {
    FirstInflowBounds(s.events, d);
  }

  lemma PricedDay(s: Series, d: Day, price: real)
    requires s.SyncedSeries? && s.quantityKnown && UnitsOn(s, d) > 0.0
    requires !(s.complete && s.firstInflow.Some? && d < s.firstInflow.value)
    requires PriceOn(s.quotes, d) == Some(price)
    ensures s.Value(d) == Some(MarketValue(UnitsOn(s, d), price))
  {
  }

  /** On any day with units, from the first inflow on, the value is those units at the latest quote
      on or before the day, to the cent, if that quote is at most ten days old. */
  lemma ProviderValue(s: Series, d: Day, quote: Quote)
    requires WellLoaded(s) && s.quantityKnown && !BeforeIt(s, d) && UnitsOn(s, d) > 0.0
    requires IsLatest(s.quotes, quote, d) && d - quote.on <= 10
    ensures s.Value(d).Some? && Priced(s.Value(d).value, UnitsOn(s, d), quote.price)
  {
    BeforeItIsBeforeFirst(s, d);
    PriceIsLatest(s.quotes, d);
    PricedDay(s, d, quote.price);
  }

  /** Nothing is known of a day exactly when the quantity is unknown, or there are units and their
      latest quote is missing or more than ten days old; never before the first inflow. */
  lemma ProviderValueUnknown(s: Series, d: Day)
    requires WellLoaded(s)
    ensures s.Value(d).None? <==>
            && !BeforeIt(s, d)
            && (!s.quantityKnown || (UnitsOn(s, d) > 0.0 && forall quote | IsLatest(s.quotes, quote, d) :: d - quote.on > 10))
  {
    BeforeItIsBeforeFirst(s, d);
    PriceIsLatest(s.quotes, d);
  }

  /** A day before the first inflow, or one without units, is worth nothing. */
  lemma ProviderValueZero(s: Series, d: Day)
    requires WellLoaded(s) && (BeforeIt(s, d) || (s.quantityKnown && UnitsOn(s, d) <= 0.0))
    ensures s.Value(d) == Some(0.0)
  {
    BeforeItIsBeforeFirst(s, d);
  }

  lemma EventsAscend(h: ProviderHolding, movements: seq<ProviderMovement>)
    ensures Ascending(AllEvents(h, movements), EventDay)
  {
    SortSorts(EventsOf(movements), EventDay);
    if NeedsPurchase(h, movements) {
      SortSorts([Purchase(h, SortByDay(EventsOf(movements)), h.BoughtOn().value)] + SortByDay(EventsOf(movements)), EventDay);
    }
  }

  lemma FirstInflowBounds(events: seq<FlowEvent>, d: Day)
    requires Ascending(events, EventDay)
    ensures FirstInflow(events).Some? && d < FirstInflow(events).value <==>
            exists e | e in events :: e.inflow && forall x | x in events && x.inflow :: d < x.day
  {
    forall x | x in events && x.inflow ensures FirstInflow(events).Some? && FirstInflow(events).value <= x.day {
      FirstInflowIsEarliest(events, x);
    }
  }

  /** A day has a price exactly when its latest quote is at most ten days old, and it is that quote's. */
  lemma PriceIsLatest(quotes: seq<Quote>, d: Day)
    requires IsPriceSeries(quotes)
    ensures forall quote | IsLatest(quotes, quote, d) :: PriceOn(quotes, d) == if d - quote.on <= 10 then Some(quote.price) else None
    ensures PriceOn(quotes, d).Some? ==> exists quote :: IsLatest(quotes, quote, d) && d - quote.on <= 10
  {
    forall quote | IsLatest(quotes, quote, d)
      ensures PriceOn(quotes, d) == if d - quote.on <= 10 then Some(quote.price) else None {
      LatestIsFound(quotes, quote, d);
    }
    if PriceOn(quotes, d).Some? {
      var found := LatestQuoteOn(quotes, d).value;
      assert Ascending(quotes, QuotedOn);
      assert IsLatest(quotes, found, d);
    }
  }

  /** Since inception, a holding its history does not account for has no yield: for want of history
      when the provider sent no movement, and of a complete one otherwise. */
  lemma IncompleteHasNoInception(h: ProviderHolding, movements: seq<ProviderMovement>, quotes: seq<Quote>, until: Day,
                                 r: Result<YieldResult, YieldError>)
    requires !SyncedSeriesOf(h, movements, quotes).complete
    requires IsYieldOver(SyncedSeriesOf(h, movements, quotes).View(), None, until, r)
    ensures r == Err(Unavailable(if movements == [] then NoHistory else IncompleteHistory))
  {
  }
}
