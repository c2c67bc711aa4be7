/** The series of a manual holding (internal/investments/yield.go): one pass over the account's
    ledger leaves a checkpoint at the end of every day, and a binary search over them answers what
    replaying the account only through that day would. */
module ManualYield {
  import opened Wrappers
  import opened Sequences
  import opened Sorting
  import opened Domain
  import opened Ledger
  import opened Acceptance
  import opened Tables
  import opened Mutations
  import opened BookInvariants
  import opened Transfers
  import opened Quotes
  import opened Yield

  // ---- events ----

  /** The money and units an operation moved into or out of its holding. */
  function ManualFlow(op: Operation): Option<FlowEvent> {
    match op.kind
    case InitialBalance | Buy => Some(FlowEvent(op.occurredOn, Units(op), op.amount + op.fees + op.taxes, true))
    case TransferIn => Some(FlowEvent(op.occurredOn, Units(op), op.amount, true))
    case Sell => Some(FlowEvent(op.occurredOn, -Units(op), -(op.amount - op.fees - op.taxes), false))
    case TransferOut => Some(FlowEvent(op.occurredOn, -Units(op), -op.amount, false))
    case _ => None
  }

  function FlowOf(op: Operation, p: Id): seq<FlowEvent> {
    if op.position == Some(p) && ManualFlow(op).Some? then [ManualFlow(op).value] else []
  }

  function FlowsOf(rows: seq<Operation>, p: Id): seq<FlowEvent> {
    if rows == [] then [] else FlowsOf(rows[..|rows| - 1], p) + FlowOf(rows[|rows| - 1], p)
  }

  /** One more row of the account being read. */
  lemma FlowsTake(rows: seq<Operation>, i: nat, p: Id)
    requires i < |rows|
    ensures FlowsOf(rows[..i + 1], p) == FlowsOf(rows[..i], p) + FlowOf(rows[i], p)
  {
    assert rows[..i + 1][..i] == rows[..i];
  }

  lemma ReplayTake(rows: seq<Operation>, i: nat)
    requires i < |rows| && Replay(rows[..i]).Ok?
    ensures Replay(rows[..i + 1]) == Apply(Replay(rows[..i]).value, rows[i])
  {
    assert rows[..i + 1] == rows[..i] + [rows[i]];
    ReplayPush(rows[..i], rows[i]);
  }

  /** Cash that came from or went to outside the account's holdings. */
  function ExternalCash(op: Operation): real {
    match op.kind
    case InitialBalance => if op.position.None? then op.amount else 0.0
    case Deposit | Income => op.amount
    case Withdrawal | Fee | Tax => -op.amount
    case _ => 0.0
  }

  /** The money a purchase or sale moved into its holding, as the yield of that holding counts it. */
  function TradeFlow(op: Operation): real {
    if op.kind.Buy? || op.kind.Sell? then ManualFlow(op).value.cash else 0.0
  }

  /** The ledger's cash and the yield's flows are two sides of the same trades: what the account
      holds in cash is what came from outside less what its holdings took in. */
  lemma {:induction false} CashIsExternalLessTrades(rows: seq<Operation>)
    ensures Cash(rows) == Sum(rows, ExternalCash) - Sum(rows, TradeFlow)
  {
    if rows != [] {
      CashIsExternalLessTrades(rows[..|rows| - 1]);
    }
  }

  /** What an inflow adds to a holding's cost is the money its flow event carries. */
  lemma FlowIsCostAdded(h: Holding, op: Operation)
    requires ValidShape(op) && HasPosition(op) && ManualFlow(op).Some?
    ensures ManualFlow(op).value.quantity == Revalue(h, op).quantity - h.quantity
    ensures ManualFlow(op).value.inflow ==> ManualFlow(op).value.cash == Revalue(h, op).totalCost - h.totalCost
  {
  }

  /** What the two halves of a transfer move into one holding they take out of the other. */
  lemma PairFlowsCancel(b: Book, out: Operation, into: Operation)
    requires PairOf(b, out, into)
    ensures ManualFlow(out).Some? && ManualFlow(into).Some?
    ensures ManualFlow(out).value.quantity == -ManualFlow(into).value.quantity
    ensures ManualFlow(out).value.cash == -ManualFlow(into).value.cash
    ensures ManualFlow(out).value.day == ManualFlow(into).value.day
  {
  }

  // ---- checkpoints ----

  function CheckpointOf(day: Day, h: Holding): Checkpoint {
    if h.quantity > 0.0 then Checkpoint(day, h.ValuedValue(), h.valuationTotal.Some?, h.valuedOn)
    else Checkpoint(day, 0.0, true, None)
  }

  /** What some rows leave of a position; nothing of what they leave counts if they do not replay. */
  function HeldAfter(rows: seq<Operation>, p: Id): Holding {
    match Replay(rows) case Err(_) => NOTHING_HELD case Ok(l) => l.At(p)
  }

  /** The checkpoint after the last of some rows. */
  function CheckpointAfter(rows: seq<Operation>, p: Id): Checkpoint
    requires rows != []
  {
    CheckpointOf(rows[|rows| - 1].occurredOn, HeldAfter(rows, p))
  }

  predicate EndsItsDay(rows: seq<Operation>, i: nat)
    requires i < |rows|
  {
    i == |rows| - 1 || rows[i + 1].occurredOn != rows[i].occurredOn
  }

  lemma PrefixReplays(rows: seq<Operation>, n: nat)
    requires Replay(rows).Ok? && n <= |rows|
    ensures Replay(rows[..n]).Ok?
  {
    ReplayPrefix(rows, n);
  }

  /** The checkpoint one row leaves, if it ends its day. */
  function CheckpointAt(rows: seq<Operation>, i: nat, p: Id): seq<Checkpoint>
    requires i < |rows|
  {
    if EndsItsDay(rows, i) then [CheckpointAfter(rows[..i + 1], p)] else []
  }

  /** The checkpoints the first n rows leave. */
  function Checkpoints(rows: seq<Operation>, n: nat, p: Id): seq<Checkpoint>
    requires n <= |rows|
  {
    if n == 0 then []
    else Checkpoints(rows, n - 1, p) + CheckpointAt(rows, n - 1, p)
  }

  // ---- the timeline ----

  function Moved(timeline: seq<Step>, running: real, e: FlowEvent): seq<Step> {
    var n := |timeline|;
    if n > 0 && timeline[n - 1].day == e.day then timeline[..n - 1] + [Step(e.day, running)]
    else timeline + [Step(e.day, running)]
  }

  function EventUnits(e: FlowEvent): real {
    e.quantity
  }

  function TimelineOf(events: seq<FlowEvent>): seq<Step> {
    if events == [] then []
    else Moved(TimelineOf(events[..|events| - 1]), Sum(events, EventUnits), events[|events| - 1])
  }

  method NewQuantityTimeline(events: seq<FlowEvent>) returns (timeline: seq<Step>)
    ensures timeline == TimelineOf(events)
  {
    timeline := [];
    var running := 0.0;
    var i := 0;
    while i < |events|
      invariant 0 <= i <= |events|
      invariant running == Sum(events[..i], EventUnits) && timeline == TimelineOf(events[..i])
    {
      SumTake(events, i, EventUnits);
      assert events[..i + 1][..i] == events[..i];
      running := running + events[i].quantity;
      var n := |timeline|;
      if n > 0 && timeline[n - 1].day == events[i].day {
        timeline := timeline[n - 1 := Step(events[i].day, running)];
      } else {
        timeline := timeline + [Step(events[i].day, running)];
      }
      i := i + 1;
    }
    assert events[..i] == events;
  }

  /** Days of a timeline that grow as they should, and what it says on any day. */
  ghost predicate TimelineRight(events: seq<FlowEvent>, timeline: seq<Step>) {
    && (forall i, j | 0 <= i < j < |timeline| :: timeline[i].day < timeline[j].day)
    && (timeline == [] <==> events == [])
    && (events != [] ==> timeline[|timeline| - 1] == Step(events[|events| - 1].day, Sum(events, EventUnits)))
    && forall d: Day :: HeldAt(timeline, d) == Sum(events, UnitsThrough(d))
  }

  /** Appending a later step changes the answer from its day on, and only then. */
  lemma {:induction false} HeldAtPush(timeline: seq<Step>, s: Step, d: Day)
    requires forall i | 0 <= i < |timeline| :: timeline[i].day < s.day
    ensures HeldAt(timeline + [s], d) == if d < s.day then HeldAt(timeline, d) else s.held
  {
    if |timeline| > 0 {
      HeldAtPush(timeline[1..], s, d);
      assert (timeline + [s])[1..] == timeline[1..] + [s];
      assert |timeline| > 1 ==> (timeline + [s])[1] == timeline[1];
    }
  }

  lemma UnitsThroughAll(events: seq<FlowEvent>, d: Day)
    requires forall e | e in events :: e.day <= d
    ensures Sum(events, UnitsThrough(d)) == Sum(events, EventUnits)
  {
    SumSame(events, UnitsThrough(d), EventUnits);
  }

  lemma TimelinePush(events: seq<FlowEvent>, timeline: seq<Step>, e: FlowEvent)
    requires Ascending(events + [e], EventDay) && TimelineRight(events, timeline)
    ensures TimelineRight(events + [e], Moved(timeline, Sum(events + [e], EventUnits), e))
  {
    var all, n := events + [e], |timeline|;
    var running := Sum(all, EventUnits);
    var step := Step(e.day, running);
    var kept := if n > 0 && timeline[n - 1].day == e.day then timeline[..n - 1] else timeline;
    assert Moved(timeline, running, e) == kept + [step];
    forall x | x in all ensures x.day <= e.day {
      var i :| 0 <= i < |all| && all[i] == x;
      assert i < |all| - 1 ==> EventDay(all[i]) <= EventDay(all[|all| - 1]);
    }
    if n > 0 {
      assert timeline[n - 1].day == events[|events| - 1].day <= e.day by {
        assert events[|events| - 1] in all;
      }
    }
    assert all[..|all| - 1] == events && all[|all| - 1] == e;
    forall d: Day ensures HeldAt(kept + [step], d) == Sum(all, UnitsThrough(d)) {
      HeldAtPush(kept, step, d);
      if d >= e.day {
        UnitsThroughAll(all, d);
      } else if kept != timeline {
        assert timeline == kept + [timeline[n - 1]];
        HeldAtPush(kept, timeline[n - 1], d);
      }
    }
  }

  /** The timeline's answer on any day is the sum of the units moved through it. */
  lemma {:induction false} TimelineSums(events: seq<FlowEvent>)
    requires Ascending(events, EventDay)
    ensures TimelineRight(events, TimelineOf(events))
  {
    if events != [] {
      var rest, e := events[..|events| - 1], events[|events| - 1];
      assert events == rest + [e];
      forall i, j | 0 <= i < j < |rest| ensures EventDay(rest[i]) <= EventDay(rest[j]) {
        assert EventDay(events[i]) <= EventDay(events[j]);
      }
      TimelineSums(rest);
      TimelinePush(rest, TimelineOf(rest), e);
    }
  }

  // ---- loading ----

  function ManualSeriesOf(rows: seq<Operation>, p: Id, quotes: Option<seq<Quote>>): Series
  {
    ManualSeries(
      FlowsOf(rows, p), Checkpoints(rows, |rows|, p),
      if quotes.Some? then quotes.value else [],
      if quotes.Some? then TimelineOf(FlowsOf(rows, p)) else [])
  }

  /** The ledger's word on one position, taken after the last row of a day. */
  method TakeCheckpoint(ledger: AccountLedger, rows: seq<Operation>, i: nat, p: Id) returns (taken: seq<Checkpoint>)
    requires ledger.Valid() && i < |rows| && Replay(rows[..i + 1]) == Ok(ledger.View())
    ensures taken == CheckpointAt(rows, i, p)
  {
    var day := rows[i].occurredOn;
    if !(i == |rows| - 1 || rows[i + 1].occurredOn != day) {
      return [];
    }
    var checkpoint := Checkpoint(day, 0.0, true, None);
    if p in ledger.positions && ledger.positions[p].quantity > 0.0 {
      var state := ledger.positions[p].View();
      checkpoint := checkpoint.(value := state.ValuedValue(), valued := state.valuationTotal.Some?, valuedOn := state.valuedOn);
    }
    return [checkpoint];
  }

  datatype Pass = Pass(events: seq<FlowEvent>, checkpoints: seq<Checkpoint>)

  /** One row of the pass: the ledger moves on, and a day's last row leaves its checkpoint. */
  method PassRow(ledger: AccountLedger, rows: seq<Operation>, i: nat, p: Id) returns (failed: Option<Error>, taken: seq<Checkpoint>)
    requires ledger.Valid() && i < |rows| && Replay(rows[..i]) == Ok(ledger.View())
    modifies ledger, ledger.positions.Values
    ensures ledger.Valid() && fresh(ledger.positions.Values - old(ledger.positions.Values))
    ensures failed.Some? ==> Replay(rows) == Err(failed.value)
    ensures failed.None? ==> Replay(rows[..i + 1]) == Ok(ledger.View()) && taken == CheckpointAt(rows, i, p)
  {
    ReplayTake(rows, i);
    ReplayPrefix(rows, i + 1);
    failed := ledger.ApplyOperation(rows[i]);
    taken := [];
    if failed.None? {
      taken := TakeCheckpoint(ledger, rows, i, p);
    }
  }

  /** One pass over the account's rows. */
  method PassOver(rows: seq<Operation>, p: Id) returns (r: Result<Pass, Error>)
    ensures match Replay(rows)
            case Err(e) => r == Err(e)
            case Ok(_) => r == Ok(Pass(FlowsOf(rows, p), Checkpoints(rows, |rows|, p)))
  {
    var events: seq<FlowEvent> := [];
    var checkpoints: seq<Checkpoint> := [];
    var ledger := new AccountLedger();
    var i := 0;
    while i < |rows|
      invariant 0 <= i <= |rows|
      invariant fresh(ledger) && ledger.Valid() && fresh(ledger.positions.Values)
      invariant Replay(rows[..i]) == Ok(ledger.View())
      invariant events == FlowsOf(rows[..i], p) && checkpoints == Checkpoints(rows, i, p)
    {
      FlowsTake(rows, i, p);
      var failed, taken := PassRow(ledger, rows, i, p);
      if failed.Some? {
        return Err(failed.value);
      }
      events := events + FlowOf(rows[i], p);
      checkpoints := checkpoints + taken;
      i := i + 1;
    }
    assert rows[..i] == rows;
    return Ok(Pass(events, checkpoints));
  }

  /** The series of a position. Quotes are given when its asset has a market. */
  method LoadManualSeries(rows: seq<Operation>, p: Id, quotes: Option<seq<Quote>>) returns (r: Result<Series, Error>)
    ensures match Replay(rows)
            case Err(e) => r == Err(e)
            case Ok(_) => r == Ok(ManualSeriesOf(rows, p, quotes))
  {
    var passed := PassOver(rows, p);
    if passed.Err? {
      return Err(passed.error);
    }
    var events, checkpoints := passed.value.events, passed.value.checkpoints;
    if quotes.Some? {
      var timeline := NewQuantityTimeline(events);
      return Ok(ManualSeries(events, checkpoints, quotes.value, timeline));
    }
    return Ok(ManualSeries(events, checkpoints, [], []));
  }

  // ---- the search finds the replay ----

  function OccurredOn(op: Operation): Day {
    op.occurredOn
  }

  /** The first k rows are those through a day. */
  ghost predicate CutsAt(rows: seq<Operation>, d: Day, k: nat) {
    k <= |rows| && forall i | 0 <= i < |rows| :: OccurredOn(rows[i]) <= d <==> i < k
  }

  lemma ThroughCuts(rows: seq<Operation>, d: Day)
    requires Ordered(rows)
    ensures CutsAt(rows, d, |Through(rows, d)|) && Through(rows, d) == rows[..|Through(rows, d)|]
  {
    ThroughIsPrefix(rows, d);
  }

  lemma {:induction false} EarlyCheckpoints(rows: seq<Operation>, d: Day, n: nat, p: Id)
    requires n <= |rows|
    requires forall i | 0 <= i < n :: OccurredOn(rows[i]) <= d
    ensures forall c | c in Checkpoints(rows, n, p) :: c.day <= d
  {
    if n > 0 {
      EarlyCheckpoints(rows, d, n - 1, p);
      assert OccurredOn(rows[n - 1]) <= d;
    }
  }

  /** The checkpoints through a day are an initial stretch, and nothing else. */
  ghost predicate CutByDay(all: seq<Checkpoint>, early: seq<Checkpoint>, d: Day) {
    && |early| <= |all| && all[..|early|] == early
    && forall i | 0 <= i < |all| :: CheckpointDay(all[i]) <= d <==> i < |early|
  }

  lemma LaterCheckpoint(rows: seq<Operation>, d: Day, i: nat, p: Id)
    requires i < |rows| && OccurredOn(rows[i]) > d
    ensures forall c | c in CheckpointAt(rows, i, p) :: CheckpointDay(c) > d
  {
  }

  lemma CutPush(all: seq<Checkpoint>, early: seq<Checkpoint>, more: seq<Checkpoint>, d: Day)
    requires CutByDay(all, early, d) && forall c | c in more :: CheckpointDay(c) > d
    ensures CutByDay(all + more, early, d)
  {
    forall i | 0 <= i < |all + more| ensures CheckpointDay((all + more)[i]) <= d <==> i < |early| {
      if i < |all| {
        assert (all + more)[i] == all[i];
      } else {
        assert (all + more)[i] == more[i - |all|];
      }
    }
  }

  /** Of the checkpoints of all rows, those through a day are the checkpoints of the rows through
      that day. */
  lemma {:induction false} CheckpointsCut(rows: seq<Operation>, d: Day, k: nat, n: nat, p: Id)
    requires CutsAt(rows, d, k) && k <= n <= |rows|
    ensures CutByDay(Checkpoints(rows, n, p), Checkpoints(rows, k, p), d)
    decreases n
  {
    if k == n {
      EarlyCheckpoints(rows, d, n, p);
    } else {
      CheckpointsCut(rows, d, k, n - 1, p);
      assert !(OccurredOn(rows[n - 1]) <= d);
      LaterCheckpoint(rows, d, n - 1, p);
      CutPush(Checkpoints(rows, n - 1, p), Checkpoints(rows, k, p), CheckpointAt(rows, n - 1, p), d);
    }
  }

  lemma LastCheckpoint(rows: seq<Operation>, d: Day, k: nat, p: Id)
    requires CutsAt(rows, d, k)
    ensures k == 0 <==> Checkpoints(rows, k, p) == []
    ensures k > 0 ==> Checkpoints(rows, k, p)[|Checkpoints(rows, k, p)| - 1] == CheckpointAfter(rows[..k], p)
  {
    if k > 0 {
      assert OccurredOn(rows[k - 1]) <= d;
      assert k < |rows| ==> !(OccurredOn(rows[k]) <= d);
      assert EndsItsDay(rows, k - 1);
    }
  }

  /** The checkpoint in force on a day is the account replayed only through that day. */
  lemma CheckpointIsReplay(rows: seq<Operation>, p: Id, d: Day)
    requires Ordered(rows) && Replay(rows).Ok?
    ensures Replay(Through(rows, d)).Ok?
    ensures var all := ManualSeriesOf(rows, p, None).checkpoints;
            var i := CountThrough(all, CheckpointDay, d);
            if i == 0 then Through(rows, d) == []
            else Through(rows, d) != [] && all[i - 1] == CheckpointAfter(Through(rows, d), p)
  {
    var k := |Through(rows, d)|;
    ThroughCuts(rows, d);
    assert rows[..|rows|] == rows;
    PrefixReplays(rows, k);
    CheckpointsCut(rows, d, k, |rows|, p);
    LastCheckpoint(rows, d, k, p);
    CutIsCount(Checkpoints(rows, |rows|, p), CheckpointDay, d, |Checkpoints(rows, k, p)|);
  }

  // ---- the timeline is the replay ----

  lemma {:induction false} FlowsWithin(rows: seq<Operation>, p: Id, e: FlowEvent)
    requires e in FlowsOf(rows, p)
    ensures exists op | op in rows :: ManualFlow(op) == Some(e)
  {
    var rest, last := rows[..|rows| - 1], rows[|rows| - 1];
    assert last in rows && forall op | op in rest :: op in rows;
    if e in FlowsOf(rest, p) {
      FlowsWithin(rest, p, e);
    }
  }

  lemma FlowsNotAfter(rows: seq<Operation>, p: Id, day: Day)
    requires forall op | op in rows :: op.occurredOn <= day
    ensures forall e | e in FlowsOf(rows, p) :: e.day <= day
  {
    forall e | e in FlowsOf(rows, p) ensures e.day <= day {
      FlowsWithin(rows, p, e);
    }
  }

  lemma {:induction false} FlowsDated(rows: seq<Operation>, p: Id)
    requires Ascending(rows, OccurredOn)
    ensures Ascending(FlowsOf(rows, p), EventDay)
  {
    if rows != [] {
      var rest, last := rows[..|rows| - 1], rows[|rows| - 1];
      forall i, j | 0 <= i < j < |rest| ensures OccurredOn(rest[i]) <= OccurredOn(rest[j]) {
        assert OccurredOn(rows[i]) <= OccurredOn(rows[j]);
      }
      forall op | op in rest ensures op.occurredOn <= last.occurredOn {
        var i :| 0 <= i < |rest| && rest[i] == op;
        assert OccurredOn(rows[i]) <= OccurredOn(rows[|rows| - 1]);
      }
      FlowsDated(rest, p);
      FlowsNotAfter(rest, p, last.occurredOn);
    }
  }

  lemma ThroughPush(rows: seq<Operation>, last: Operation, p: Id, d: Day)
    ensures PositionUnits(Through(rows + [last], d), p)
            == PositionUnits(Through(rows, d), p) + (if last.occurredOn <= d then UnitsIn(p)(last) else 0.0)
  {
    FilterConcat(rows, [last], DatedThrough(d));
    FilterOne(last, DatedThrough(d));
    if last.occurredOn <= d {
      UnitsPush(Through(rows, d), last, p);
    } else {
      assert Through(rows + [last], d) == Through(rows, d);
    }
  }

  lemma {:induction false} FlowUnits(rows: seq<Operation>, p: Id, d: Day)
    requires p != EMPTY
    ensures Sum(FlowsOf(rows, p), UnitsThrough(d)) == PositionUnits(Through(rows, d), p)
  {
    if rows != [] {
      var rest, last := rows[..|rows| - 1], rows[|rows| - 1];
      assert rows == rest + [last];
      FlowUnits(rest, p, d);
      SumConcat(FlowsOf(rest, p), FlowOf(last, p), UnitsThrough(d));
      OneFlowUnits(last, p, d);
      ThroughPush(rest, last, p, d);
    }
  }

  lemma OneFlowUnits(op: Operation, p: Id, d: Day)
    requires p != EMPTY
    ensures Sum(FlowOf(op, p), UnitsThrough(d)) == if op.occurredOn <= d then UnitsIn(p)(op) else 0.0
  {
    if FlowOf(op, p) != [] {
      SumOne(FlowOf(op, p)[0], UnitsThrough(d));
    }
  }

  lemma OrderedAscending(rows: seq<Operation>)
    requires Ordered(rows)
    ensures Ascending(rows, OccurredOn)
  {
    forall i, j | 0 <= i < j < |rows| ensures OccurredOn(rows[i]) <= OccurredOn(rows[j]) {
      assert Before(rows[i], rows[j]);
    }
  }

  /** The timeline's answer on a day is the quantity the replay through that day holds. */
  lemma TimelineIsReplay(rows: seq<Operation>, p: Id, d: Day)
    requires Ordered(rows) && Replay(rows).Ok? && p != EMPTY
    ensures Replay(Through(rows, d)).Ok?
    ensures HeldAt(TimelineOf(FlowsOf(rows, p)), d) == Replay(Through(rows, d)).value.At(p).quantity
  {
    OrderedAscending(rows);
    FlowsDated(rows, p);
    TimelineSums(FlowsOf(rows, p));
    FlowUnits(rows, p, d);
    ThroughCuts(rows, d);
    PrefixReplays(rows, |Through(rows, d)|);
    ReplayAcceptsExactlyAdmissible(Through(rows, d));
  }

  // ---- the value is the replay's ----

  /** What a holding is worth at the end of a day, said without checkpoints or timelines: nothing
      when nothing is held; otherwise by the latest statement about its price, a typed valuation
      winning over a quote of the same day and an aged quote pricing nothing. */
  function WorthOn(h: Holding, quotes: seq<Quote>, d: Day): Option<real> {
    var quote := LatestQuoteOn(quotes, d);
    if h.quantity <= 0.0 then Some(0.0)
    else if quote.Some? && (h.valuedOn.None? || h.valuedOn.value < quote.value.on) then
      if d - quote.value.on > MAX_QUOTE_AGE then None else Some(MarketValue(h.quantity, quote.value.price))
    else if h.valuationTotal.Some? then Some(h.ValuedValue())
    else None
  }

  /** A series whose search finds a holding's checkpoint answers that holding's worth. */
  lemma FoundCheckpointAnswers(s: Series, h: Holding, day: Day, d: Day)
    requires s.ManualSeries? && CountThrough(s.checkpoints, CheckpointDay, d) > 0
    requires s.checkpoints[CountThrough(s.checkpoints, CheckpointDay, d) - 1] == CheckpointOf(day, h)
    requires s.quotes != [] ==> HeldAt(s.timeline, d) == h.quantity
    ensures s.Value(d) == WorthOn(h, s.quotes, d)
  {
  }

  /** On every day, the series' answer is the worth of the account replayed only through that day. */
  lemma ManualValueIsReplay(rows: seq<Operation>, p: Id, quotes: Option<seq<Quote>>, d: Day)
    requires Ordered(rows) && Replay(rows).Ok? && p != EMPTY
    ensures Replay(Through(rows, d)).Ok?
    ensures ManualSeriesOf(rows, p, quotes).Value(d)
            == WorthOn(Replay(Through(rows, d)).value.At(p), if quotes.Some? then quotes.value else [], d)
  {
    CheckpointIsReplay(rows, p, d);
    TimelineIsReplay(rows, p, d);
    var s, h := ManualSeriesOf(rows, p, quotes), Replay(Through(rows, d)).value.At(p);
    if CountThrough(s.checkpoints, CheckpointDay, d) > 0 {
      FoundCheckpointAnswers(s, h, Through(rows, d)[|Through(rows, d)| - 1].occurredOn, d);
    }
  }

  // ---- since inception ----

  lemma {:induction false} NoUnitsIn(events: seq<FlowEvent>, d: Day)
    requires forall e | e in events && e.day <= d :: e.quantity <= 0.0
    ensures Sum(events, UnitsThrough(d)) <= 0.0
  {
    if events != [] {
      var rest, last := events[..|events| - 1], events[|events| - 1];
      assert last in events && forall e | e in rest :: e in events;
      NoUnitsIn(rest, d);
    }
  }

  lemma OutflowsTakeUnits(rows: seq<Operation>, p: Id, e: FlowEvent)
    requires Replay(rows).Ok? && e in FlowsOf(rows, p) && !e.inflow
    ensures e.quantity <= 0.0
  {
    ReplayAcceptsExactlyAdmissible(rows);
    FlowsWithin(rows, p, e);
    var op :| op in rows && ManualFlow(op) == Some(e);
    var k :| 0 <= k < |rows| && rows[k] == op;
    assert Placed(rows[..k], rows[k]);
  }

  /** Before its first inflow a valid ledger holds nothing of a position. */
  lemma NothingBeforeInception(rows: seq<Operation>, p: Id, d: Day)
    requires Ordered(rows) && Replay(rows).Ok? && p != EMPTY
    requires FirstInflow(FlowsOf(rows, p)).Some? && d < FirstInflow(FlowsOf(rows, p)).value
    ensures Replay(Through(rows, d)).Ok? && Replay(Through(rows, d)).value.At(p).quantity == 0.0
  {
    var events := FlowsOf(rows, p);
    OrderedAscending(rows);
    FlowsDated(rows, p);
    forall e | e in events && e.day <= d ensures e.quantity <= 0.0 {
      if e.inflow {
        FirstInflowIsEarliest(events, e);
      } else {
        OutflowsTakeUnits(rows, p, e);
      }
    }
    NoUnitsIn(events, d);
    FlowUnits(rows, p, d);
    ThroughCuts(rows, d);
    PrefixReplays(rows, |Through(rows, d)|);
    ReplayAcceptsExactlyAdmissible(Through(rows, d));
    assert Through(rows, d)[..|Through(rows, d)|] == Through(rows, d);
    assert Solvent(Through(rows, d));
  }

  /** Every manual series of a valid ledger starts at zero. */
  lemma ManualStartsAtZero(rows: seq<Operation>, p: Id, quotes: Option<seq<Quote>>)
    requires Ordered(rows) && Replay(rows).Ok? && p != EMPTY
    ensures StartsAtZero(ManualSeriesOf(rows, p, quotes).View())
  {
    var s := ManualSeriesOf(rows, p, quotes);
    if s.Inception().Some? {
      NothingBeforeInception(rows, p, s.Inception().value);
      ManualValueIsReplay(rows, p, quotes, s.Inception().value);
    }
  }

  predicate PutsIn(op: Operation, p: Id) {
    op.position == Some(p) && op.kind in {InitialBalance, Buy, TransferIn}
  }

  lemma {:induction false} InflowHasRow(rows: seq<Operation>, p: Id, e: FlowEvent) returns (op: Operation)
    requires e in FlowsOf(rows, p) && e.inflow
    ensures op in rows && PutsIn(op, p) && op.occurredOn == e.day
  {
    var rest, last := rows[..|rows| - 1], rows[|rows| - 1];
    assert rows == rest + [last];
    if e in FlowsOf(rest, p) {
      op := InflowHasRow(rest, p, e);
    } else {
      op := last;
    }
  }

  lemma {:induction false} RowHasInflow(rows: seq<Operation>, p: Id, op: Operation) returns (e: FlowEvent)
    requires op in rows && PutsIn(op, p)
    ensures e in FlowsOf(rows, p) && e.inflow && e.day == op.occurredOn
  {
    var rest, last := rows[..|rows| - 1], rows[|rows| - 1];
    assert rows == rest + [last];
    if op in rest {
      e := RowHasInflow(rest, p, op);
    } else {
      e := FlowOf(last, p)[0];
    }
  }

  lemma FirstInflowOfRows(rows: seq<Operation>, p: Id, op: Operation)
    requires Ordered(rows) && op in rows && PutsIn(op, p)
    ensures FirstInflow(FlowsOf(rows, p)).Some? && FirstInflow(FlowsOf(rows, p)).value <= op.occurredOn
  {
    OrderedAscending(rows);
    FlowsDated(rows, p);
    var e := RowHasInflow(rows, p, op);
    FirstInflowIsEarliest(FlowsOf(rows, p), e);
  }

  /** A manual holding begins the day before the first row that put units into it. */
  lemma InceptionIsDayBeforeFirst(rows: seq<Operation>, p: Id, quotes: Option<seq<Quote>>)
    requires Ordered(rows)
    ensures var inception := ManualSeriesOf(rows, p, quotes).Inception();
            && (inception.None? ==> forall op | op in rows :: !PutsIn(op, p))
            && (inception.Some? ==>
                  && (exists op | op in rows :: PutsIn(op, p) && op.occurredOn == inception.value + 1)
                  && forall op | op in rows && PutsIn(op, p) :: inception.value < op.occurredOn)
  {
    var events := FlowsOf(rows, p);
    forall op | op in rows && PutsIn(op, p) ensures FirstInflow(events).Some? && FirstInflow(events).value <= op.occurredOn {
      FirstInflowOfRows(rows, p, op);
    }
    if FirstInflow(events).Some? {
      var e :| e in events && e.inflow && e.day == FirstInflow(events).value;
      var op := InflowHasRow(rows, p, e);
    }
  }

  /** Since inception, a manual position that nothing ever went into has no history. */
  lemma NoInflowNoInception(rows: seq<Operation>, p: Id, quotes: Option<seq<Quote>>, until: Day, r: Result<YieldResult, YieldError>)
    requires forall op | op in rows && op.position == Some(p) :: op.kind !in {InitialBalance, Buy, TransferIn}
    requires IsYieldOver(ManualSeriesOf(rows, p, quotes).View(), None, until, r)
    ensures r == Err(Unavailable(NoHistory))
  {
    NothingWentIn(rows, p);
  }

  lemma {:induction false} NothingWentIn(rows: seq<Operation>, p: Id)
    requires forall op | op in rows && op.position == Some(p) :: op.kind !in {InitialBalance, Buy, TransferIn}
    ensures forall e | e in FlowsOf(rows, p) :: !e.inflow
  {
    if rows != [] {
      var rest, last := rows[..|rows| - 1], rows[|rows| - 1];
      assert last in rows && forall op | op in rest :: op in rows;
      NothingWentIn(rest, p);
    }
  }

  /** In every sound book, the series of a manual position answers, on every day, what its account
      held at the end of that day was worth, and starts at zero. */
  lemma SoundBookYields(b: Book, p: Id, quotes: Option<seq<Quote>>, d: Day)
    requires BookSound(b) && p in b.positions
    ensures var account := b.positions[p].account;
            && Replay(History(b.ops, account)).Ok? && HoldingOn(b.ops, d, account, p).Ok?
            && ManualSeriesOf(History(b.ops, account), p, quotes).Value(d)
               == WorthOn(HoldingOn(b.ops, d, account, p).value, if quotes.Some? then quotes.value else [], d)
            && StartsAtZero(ManualSeriesOf(History(b.ops, account), p, quotes).View())
  {
    var account := b.positions[p].account;
    var rows := History(b.ops, account);
    assert CatalogueSound(b) && IsManual(b, account);
    ReplayAcceptsExactlyAdmissible(rows);
    DayReplays(b, d, account);
    FilterOrdered(b.ops, InAccount(account));
    FilterCommutes(b.ops, DatedThrough(d), InAccount(account));
    assert Through(rows, d) == HistoryThrough(b.ops, d, account);
    ManualValueIsReplay(rows, p, quotes, d);
    ManualStartsAtZero(rows, p, quotes);
  }
}
