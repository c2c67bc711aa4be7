/** Reconstructing past net-worth snapshots (internal/networth/backfill.go): one backward walk over
    the window with one index into the cash movements, filling the days that have no row. */
module Backfill {
  import opened Wrappers
  import opened Decimals
  import opened Sequences
  import opened Sorting
  import opened Domain
  import P = Payables

  /** Instants are seconds; a day ends where the next one starts. */
  const DAY_LENGTH := 86400

  function DayEnd(d: Day): Instant {
    (d + 1) * DAY_LENGTH
  }

  function DayOf(at: Instant): Day {
    at / DAY_LENGTH
  }

  // ---- cash movements ----

  /** A synced transaction of an account that is not a credit card; included says the eligibility
      rules of the money engine keep it. */
  datatype CashRow = CashRow(occurredAt: Option<Instant>, effective: Option<real>, included: bool, outflow: bool)

  datatype Delta = Delta(at: Instant, amount: real)

  predicate Reversible(row: CashRow) {
    row.occurredAt.Some? && row.included && row.effective.Some?
  }

  function DeltaOf(row: CashRow): Delta
    requires Reversible(row)
  {
    Delta(row.occurredAt.value, if row.outflow then -Abs(row.effective.value) else Abs(row.effective.value))
  }

  function DeltasOf(rows: seq<CashRow>): seq<Delta> {
    if rows == [] then []
    else DeltasOf(rows[..|rows| - 1]) + (if Reversible(rows[|rows| - 1]) then [DeltaOf(rows[|rows| - 1])] else [])
  }

  function NewestFirst(delta: Delta): int {
    -delta.at
  }

  method CashDeltasDescending(rows: seq<CashRow>) returns (deltas: seq<Delta>)
    ensures Ascending(deltas, NewestFirst) && multiset(deltas) == multiset(DeltasOf(rows))
    ensures deltas == SortBy(DeltasOf(rows), NewestFirst)
  {
    var result: seq<Delta> := [];
    var i := 0;
    while i < |rows|
      invariant 0 <= i <= |rows| && result == DeltasOf(rows[..i])
    {
      assert rows[..i + 1][..i] == rows[..i];
      var row := rows[i];
      i := i + 1;
      if row.occurredAt.None? {
        continue;
      }
      if !row.included || row.effective.None? {
        continue;
      }
      var delta := Abs(row.effective.value);
      if row.outflow {
        delta := -delta;
      }
      result := result + [Delta(row.occurredAt.value, delta)];
    }
    assert rows[..i] == rows;
    SortSorts(result, NewestFirst);
    deltas := SortBy(result, NewestFirst);
  }

  function Amount(delta: Delta): real {
    delta.amount
  }

  /** What moved at or after an instant. */
  function MovedSince(at: Instant): Delta -> real {
    (delta: Delta) => if delta.at >= at then delta.amount else 0.0
  }

  /** The cash at the end of a day, on its own: today's, less all that moved since. */
  function CashOn(currentCash: real, deltas: seq<Delta>, d: Day): real {
    currentCash - Sum(deltas, MovedSince(DayEnd(d)))
  }

  // ---- the backward walk ----

  datatype Gap = Gap(day: Day, cash: real)

  /** The days from last back to first that have no row, each with its own cash. */
  function Gaps(currentCash: real, deltas: seq<Delta>, existing: set<Day>, first: Day, last: Day): seq<Gap>
    decreases last - first
  {
    if last < first then []
    else (if last in existing then [] else [Gap(last, CashOn(currentCash, deltas, last))])
         + Gaps(currentCash, deltas, existing, first, last - 1)
  }

  /** The movements before the index happened at or after an instant, the others before it. */
  ghost predicate CutsAt(deltas: seq<Delta>, idx: nat, at: Instant) {
    idx <= |deltas| && forall k | 0 <= k < |deltas| :: k < idx <==> NewestFirst(deltas[k]) <= -at
  }

  lemma CutSum(deltas: seq<Delta>, idx: nat, at: Instant)
    requires CutsAt(deltas, idx, at)
    ensures Sum(deltas[..idx], Amount) == Sum(deltas, MovedSince(at))
  {
    var moved, rest := deltas[..idx], deltas[idx..];
    assert deltas == moved + rest;
    SumConcat(moved, rest, MovedSince(at));
    forall delta | delta in moved ensures Amount(delta) == MovedSince(at)(delta) {
      var k :| 0 <= k < idx && deltas[k] == delta;
      assert NewestFirst(deltas[k]) <= -at;
    }
    SumSame(moved, Amount, MovedSince(at));
    forall delta | delta in rest ensures MovedSince(at)(delta) == 0.0 {
      var k :| idx <= k < |deltas| && deltas[k] == delta;
      assert !(NewestFirst(deltas[k]) <= -at);
    }
    SumZero(rest, MovedSince(at));
  }

  /** The movements before the index all happened at or after an instant. */
  ghost predicate AllSince(deltas: seq<Delta>, idx: nat, at: Instant) {
    idx <= |deltas| && forall k | 0 <= k < idx :: NewestFirst(deltas[k]) <= -at
  }

  /** Advancing the index to a day's end takes in exactly what moved since then. */
  method Advance(deltas: seq<Delta>, idx: nat, runningDelta: real, at: Instant) returns (next: nat, running: real)
    requires Ascending(deltas, NewestFirst) && idx <= |deltas| && runningDelta == Sum(deltas[..idx], Amount)
    requires AllSince(deltas, idx, at)
    ensures CutsAt(deltas, next, at) && running == Sum(deltas[..next], Amount)
  {
    next, running := idx, runningDelta;
    while next < |deltas| && !(deltas[next].at < at)
      invariant idx <= next <= |deltas| && running == Sum(deltas[..next], Amount)
      invariant AllSince(deltas, next, at)
    {
      SumTake(deltas, next, Amount);
      running := running + deltas[next].amount;
      next := next + 1;
    }
    forall k | next <= k < |deltas| ensures !(NewestFirst(deltas[k]) <= -at) {
      assert next < k ==> NewestFirst(deltas[next]) <= NewestFirst(deltas[k]);
    }
  }

  lemma {:induction false} GapsJoin(currentCash: real, deltas: seq<Delta>, existing: set<Day>, d: Day, last: Day)
    requires d <= last
    ensures Gaps(currentCash, deltas, existing, d, last)
            == Gaps(currentCash, deltas, existing, d + 1, last) + (if d in existing then [] else [Gap(d, CashOn(currentCash, deltas, d))])
    decreases last - d
  {
    if d < last {
      GapsJoin(currentCash, deltas, existing, d, last - 1);
    }
  }

  /** One more gap, the running total being all that moved since its day's end. */
  lemma GapsPush(currentCash: real, deltas: seq<Delta>, existing: set<Day>, d: Day, last: Day, idx: nat)
    requires d <= last && CutsAt(deltas, idx, DayEnd(d))
    ensures Gaps(currentCash, deltas, existing, d, last)
            == Gaps(currentCash, deltas, existing, d + 1, last)
               + (if d in existing then [] else [Gap(d, currentCash - Sum(deltas[..idx], Amount))])
  {
    CutSum(deltas, idx, DayEnd(d));
    GapsJoin(currentCash, deltas, existing, d, last);
  }

  /** How far the walk has come: the days after d are done, and the index is not past d's end. */
  ghost predicate Walked(currentCash: real, deltas: seq<Delta>, existing: set<Day>, d: Day, last: Day,
                         idx: nat, running: real, gaps: seq<Gap>) {
    && d <= last && gaps == Gaps(currentCash, deltas, existing, d + 1, last)
    && AllSince(deltas, idx, DayEnd(d)) && running == Sum(deltas[..idx], Amount)
  }

  lemma WalkedOneDay(currentCash: real, deltas: seq<Delta>, existing: set<Day>, d: Day, last: Day,
                     idx: nat, running: real, gaps: seq<Gap>)
    requires d <= last && gaps == Gaps(currentCash, deltas, existing, d + 1, last)
    requires CutsAt(deltas, idx, DayEnd(d)) && running == Sum(deltas[..idx], Amount)
    ensures Walked(currentCash, deltas, existing, d - 1, last, idx, running,
                   if d in existing then gaps else gaps + [Gap(d, currentCash - running)])
  {
    GapsPush(currentCash, deltas, existing, d, last, idx);
  }

  method WalkBack(currentCash: real, deltas: seq<Delta>, existing: set<Day>, first: Day, last: Day) returns (gaps: seq<Gap>)
    requires Ascending(deltas, NewestFirst)
    ensures gaps == Gaps(currentCash, deltas, existing, first, last)
  {
    gaps := [];
    var idx: nat := 0;
    var runningDelta := 0.0;
    var d := last;
    while !(d < first)
      invariant d < first - 1 ==> d == last
      invariant Walked(currentCash, deltas, existing, d, last, idx, runningDelta, gaps)
      decreases d - first
    {
      idx, runningDelta := Advance(deltas, idx, runningDelta, DayEnd(d));
      WalkedOneDay(currentCash, deltas, existing, d, last, idx, runningDelta, gaps);
      if d !in existing {
        gaps := gaps + [Gap(d, currentCash - runningDelta)];
      }
      d := d - 1;
    }
  }

  // ---- the snapshots table ----

  datatype Breakdown = Breakdown(
    cash: real, investments: real, creditCard: real, debt: real, assets: real, liabilities: real, netWorth: real)
  {
    function TotalsFor(): Breakdown {
      this.(assets := cash + investments, liabilities := creditCard + debt,
            netWorth := cash + investments - (creditCard + debt))
    }
  }

  datatype Row = Row(breakdown: Breakdown, backfilled: bool)

  type Table = map<Day, Row>

  /** What the run reads besides the table; the card's figure per day is given. */
  datatype Sources = Sources(currentCash: real, rows: seq<CashRow>, payables: P.Tables, creditCard: Day -> real)

  function DeltasFor(src: Sources): seq<Delta> {
    SortBy(DeltasOf(src.rows), NewestFirst)
  }

  /** The row a past day gets, each part computed for that day alone. */
  function FilledRow(src: Sources, d: Day): Row {
    Row(Breakdown(CashOn(src.currentCash, DeltasOf(src.rows), d), 0.0, src.creditCard(d),
                  P.RemainingTotalOn(src.payables, DayEnd(d)), 0.0, 0.0, 0.0).TotalsFor(), true)
  }

  function Earliest(rows: seq<CashRow>): (r: Option<Instant>)
    ensures r.Some? ==> exists row | row in rows :: row.occurredAt == r
    ensures r.Some? ==> forall row | row in rows && row.occurredAt.Some? :: r.value <= row.occurredAt.value
    ensures r.None? <==> forall row | row in rows :: row.occurredAt.None?
  {
    if rows == [] then None
    else
      var rest := Earliest(rows[1..]);
      if rows[0].occurredAt.None? then rest
      else if rest.Some? && rest.value < rows[0].occurredAt.value then rest
      else rows[0].occurredAt
  }

  predicate Within(d: Day, first: Day, last: Day) {
    first <= d <= last
  }

  function Days(first: Day, last: Day): set<Day> {
    set d | first <= d <= last && Within(d, first, last)
  }

  /** A table with every day of a stretch filled that had no row. */
  function Filled(table: Table, src: Sources, first: Day, last: Day): Table {
    map d | d in table.Keys + Days(first, last) :: if d in table then table[d] else FilledRow(src, d)
  }

  /** The days a run answers for: from the first recorded movement's day through yesterday. */
  predicate InWindow(src: Sources, today: Day, d: Day) {
    Earliest(src.rows).Some? && DayOf(Earliest(src.rows).value) <= d < today
  }

  /** The table a run leaves. */
  function Backfilled(table: Table, src: Sources, today: Day): Table {
    if Earliest(src.rows).None? then table else Filled(table, src, DayOf(Earliest(src.rows).value), today - 1)
  }

  ghost predicate HasGap(gaps: seq<Gap>, d: Day) {
    exists k | 0 <= k < |gaps| :: gaps[k].day == d
  }

  /** One load of the payables answers the end of every gap's day. */
  method DebtsFor(src: Sources, gaps: seq<Gap>) returns (debts: seq<real>)
    ensures |debts| == |gaps|
    ensures forall i | 0 <= i < |gaps| :: debts[i] == P.RemainingTotalOn(src.payables, DayEnd(gaps[i].day))
  {
    var dayEnds: seq<Instant> := [];
    var i := 0;
    while i < |gaps|
      invariant 0 <= i <= |gaps| && |dayEnds| == i
      invariant forall k | 0 <= k < i :: dayEnds[k] == DayEnd(gaps[k].day)
    {
      dayEnds := dayEnds + [DayEnd(gaps[i].day)];
      i := i + 1;
    }
    debts := P.RemainingTotalsAsOf(src.payables, dayEnds);
  }

  function Inserted(table: Table, day: Day, row: Row): Table {
    if day in table then table else table[day := row]
  }

  function AllInserted(table: Table, src: Sources, gaps: seq<Gap>): Table {
    if gaps == [] then table
    else
      var day := gaps[|gaps| - 1].day;
      Inserted(AllInserted(table, src, gaps[..|gaps| - 1]), day, FilledRow(src, day))
  }

  class Snapshots {
    var table: Table

    constructor ()
      ensures table == map[]
    {
      table := map[];
    }

    /** A day that has a row keeps it. */
    method InsertIfAbsent(day: Day, row: Row)
      modifies this
      ensures table == Inserted(old(table), day, row)
    {
      if day !in table {
        table := table[day := row];
      }
    }

    method InsertGaps(src: Sources, gaps: seq<Gap>, debts: seq<real>)
      requires forall k | 0 <= k < |gaps| :: gaps[k].cash == CashOn(src.currentCash, DeltasOf(src.rows), gaps[k].day)
      requires |debts| == |gaps| && forall k | 0 <= k < |gaps| :: debts[k] == P.RemainingTotalOn(src.payables, DayEnd(gaps[k].day))
      modifies this
      ensures table == AllInserted(old(table), src, gaps)
    {
      var i := 0;
      while i < |gaps|
        invariant 0 <= i <= |gaps| && table == AllInserted(old(table), src, gaps[..i])
      {
        assert gaps[..i + 1][..i] == gaps[..i];
        var g := gaps[i];
        InsertIfAbsent(g.day, Row(Breakdown(g.cash, 0.0, src.creditCard(g.day), debts[i], 0.0, 0.0, 0.0).TotalsFor(), true));
        i := i + 1;
      }
      assert gaps[..i] == gaps;
    }

    method FillWindow(src: Sources, first: Day, last: Day)
      modifies this
      ensures table == Filled(old(table), src, first, last)
    {
      var deltas := CashDeltasDescending(src.rows);
      var gaps := WalkBack(src.currentCash, deltas, table.Keys, first, last);
      InsertsFill(table, src, first, last);
      if |gaps| == 0 {
        return;
      }
      forall k | 0 <= k < |gaps| ensures gaps[k].cash == CashOn(src.currentCash, DeltasOf(src.rows), gaps[k].day) {
        GapIsItsDay(src, table.Keys, first, last, k);
      }
      var debts := DebtsFor(src, gaps);
      InsertGaps(src, gaps, debts);
    }

    method Backfill(src: Sources, today: Day)
      modifies this
      ensures table == Backfilled(old(table), src, today)
    {
      var earliest := Earliest(src.rows);
      if earliest.None? {
        return;
      }
      var first, last := DayOf(earliest.value), today - 1;
      if first > last {
        assert Filled(table, src, first, last) == table;
        return;
      }
      FillWindow(src, first, last);
    }
  }

  lemma {:induction false} InsertedRows(table: Table, src: Sources, gaps: seq<Gap>, d: Day)
    ensures d in AllInserted(table, src, gaps) <==> d in table || HasGap(gaps, d)
    ensures d in AllInserted(table, src, gaps) ==>
              AllInserted(table, src, gaps)[d] == if d in table then table[d] else FilledRow(src, d)
  {
    if gaps != [] {
      InsertedRows(table, src, gaps[..|gaps| - 1], d);
      HasGapPush(gaps, |gaps| - 1, d);
      assert gaps[..|gaps|] == gaps;
    }
  }

  /** Writing every gap fills the window. */
  lemma InsertsFill(table: Table, src: Sources, first: Day, last: Day)
    ensures AllInserted(table, src, Gaps(src.currentCash, DeltasFor(src), table.Keys, first, last)) == Filled(table, src, first, last)
  {
    var gaps := Gaps(src.currentCash, DeltasFor(src), table.Keys, first, last);
    var written, filled := AllInserted(table, src, gaps), Filled(table, src, first, last);
    GapsCover(src, table.Keys, first, last);
    forall d: Day ensures d in written <==> d in filled {
      InsertedRows(table, src, gaps, d);
    }
    forall d | d in written ensures written[d] == filled[d] {
      InsertedRows(table, src, gaps, d);
    }
    assert written.Keys == filled.Keys;
  }

  lemma HasGapPush(gaps: seq<Gap>, i: nat, d: Day)
    requires i < |gaps|
    ensures HasGap(gaps[..i + 1], d) <==> HasGap(gaps[..i], d) || d == gaps[i].day
  {
    if HasGap(gaps[..i], d) {
      var k :| 0 <= k < i && gaps[..i][k].day == d;
      assert gaps[..i + 1][k].day == d;
    }
    if d == gaps[i].day {
      assert gaps[..i + 1][i].day == d;
    }
  }

  lemma {:induction false} GapIsItsDay(src: Sources, existing: set<Day>, first: Day, last: Day, k: nat)
    requires k < |Gaps(src.currentCash, DeltasFor(src), existing, first, last)|
    ensures var g := Gaps(src.currentCash, DeltasFor(src), existing, first, last)[k];
            first <= g.day <= last && g.day !in existing && g.cash == CashOn(src.currentCash, DeltasOf(src.rows), g.day)
    decreases last - first
  {
    var own := if last in existing then 0 else 1;
    SortSums(DeltasOf(src.rows), NewestFirst, MovedSince(DayEnd(last)));
    if k >= own {
      GapIsItsDay(src, existing, first, last - 1, k - own);
    }
  }

  lemma {:induction false} GapAt(src: Sources, existing: set<Day>, first: Day, last: Day, d: Day)
    requires first <= d <= last && d !in existing
    ensures HasGap(Gaps(src.currentCash, DeltasFor(src), existing, first, last), d)
    decreases last - first
  {
    var gaps := Gaps(src.currentCash, DeltasFor(src), existing, first, last);
    if d == last {
      assert gaps[0].day == d;
    } else {
      var rest := Gaps(src.currentCash, DeltasFor(src), existing, first, last - 1);
      GapAt(src, existing, first, last - 1, d);
      var k :| 0 <= k < |rest| && rest[k].day == d;
      assert gaps[k + (if last in existing then 0 else 1)].day == d;
    }
  }

  /** The gaps are exactly the window's days without a row. */
  lemma GapsCover(src: Sources, existing: set<Day>, first: Day, last: Day)
    ensures forall d :: HasGap(Gaps(src.currentCash, DeltasFor(src), existing, first, last), d) <==> d in Days(first, last) && d !in existing
  {
    var gaps := Gaps(src.currentCash, DeltasFor(src), existing, first, last);
    forall d ensures HasGap(gaps, d) <==> d in Days(first, last) && d !in existing {
      if HasGap(gaps, d) {
        var k :| 0 <= k < |gaps| && gaps[k].day == d;
        GapIsItsDay(src, existing, first, last, k);
      }
      if d in Days(first, last) && d !in existing {
        GapAt(src, existing, first, last, d);
      }
    }
  }

  // ---- what a run guarantees ----

  /** The cash a stored transaction brought in after the end of a day: an outflow took it out; what
      has no day, no amount or no part in the totals moved nothing. */
  function CameInAfter(d: Day): CashRow -> real {
    (row: CashRow) =>
      if row.occurredAt.None? || row.effective.None? || !row.included || row.occurredAt.value < (d + 1) * 86400 then 0.0
      else
        var size := if row.effective.value < 0.0 then -row.effective.value else row.effective.value;
        if row.outflow then -size else size
  }

  /** The cash of a past day, from the stored transactions themselves. */
  lemma {:induction false} CashFromRows(rows: seq<CashRow>, d: Day)
    ensures Sum(DeltasOf(rows), MovedSince(DayEnd(d))) == Sum(rows, CameInAfter(d))
  {
    if rows != [] {
      var rest, last := rows[..|rows| - 1], rows[|rows| - 1];
      CashFromRows(rest, d);
      if Reversible(last) {
        SumPush(DeltasOf(rest), DeltaOf(last), MovedSince(DayEnd(d)));
      } else {
        assert DeltasOf(rows) == DeltasOf(rest);
      }
    }
  }

  /** Every day of the window has a row after the run; a day that had one keeps it; every new row
      holds that day's own cash, debt and totals; and nothing outside the window is written. */
  lemma RunFillsTheWindow(table: Table, src: Sources, today: Day, d: Day)
    ensures d in Backfilled(table, src, today) <==> d in table || InWindow(src, today, d)
    ensures d in table ==> Backfilled(table, src, today)[d] == table[d]
    ensures d !in table && InWindow(src, today, d) ==>
              var b := Backfilled(table, src, today)[d].breakdown;
              && Backfilled(table, src, today)[d].backfilled
              && b.cash == src.currentCash - Sum(src.rows, CameInAfter(d))
              && b.debt == P.RemainingTotalOn(src.payables, DayEnd(d))
              && b.creditCard == src.creditCard(d) && b.investments == 0.0
              && b.netWorth == b.assets - b.liabilities && b.assets == b.cash && b.liabilities == b.creditCard + b.debt
  {
    CashFromRows(src.rows, d);
  }

  /** A run that stopped after any part of its inserts, repeated, ends where the whole run would. */
  lemma RunResumes(table: Table, partial: Table, src: Sources, today: Day)
    requires table.Keys <= partial.Keys <= Backfilled(table, src, today).Keys
    requires forall d | d in partial :: partial[d] == Backfilled(table, src, today)[d]
    ensures Backfilled(partial, src, today) == Backfilled(table, src, today)
  {
    var whole, again := Backfilled(table, src, today), Backfilled(partial, src, today);
    assert again.Keys == whole.Keys;
    forall d | d in whole ensures again[d] == whole[d] {
      assert d in partial || d !in table;
    }
  }

  /** Running twice changes nothing more. */
  lemma RunTwiceIsOnce(table: Table, src: Sources, today: Day)
    ensures Backfilled(Backfilled(table, src, today), src, today) == Backfilled(table, src, today)
  {
    RunResumes(table, Backfilled(table, src, today), src, today);
  }

  /** A second run finds no gap. */
  lemma SecondRunFindsNothing(table: Table, src: Sources, today: Day)
    requires Earliest(src.rows).Some?
    ensures Gaps(src.currentCash, DeltasFor(src), Backfilled(table, src, today).Keys, DayOf(Earliest(src.rows).value), today - 1) == []
  {
    var first, existing := DayOf(Earliest(src.rows).value), Backfilled(table, src, today).Keys;
    var gaps := Gaps(src.currentCash, DeltasFor(src), existing, first, today - 1);
    if |gaps| > 0 {
      GapIsItsDay(src, existing, first, today - 1, 0);
      assert false;
    }
  }

  function MovedOn(d: Day): Delta -> real {
    (delta: Delta) => if DayOf(delta.at) == d then delta.amount else 0.0
  }

  lemma {:induction false} MovedSinceSplits(deltas: seq<Delta>, d: Day)
    ensures Sum(deltas, MovedSince(DayEnd(d - 1))) == Sum(deltas, MovedSince(DayEnd(d))) + Sum(deltas, MovedOn(d))
  {
    if deltas != [] {
      var last := deltas[|deltas| - 1];
      MovedSinceSplits(deltas[..|deltas| - 1], d);
    }
  }

  /** From one reconstructed day to the next, cash changes by what moved on that day. */
  lemma CashMovesDayByDay(src: Sources, d: Day)
    ensures FilledRow(src, d).breakdown.cash - FilledRow(src, d - 1).breakdown.cash == Sum(DeltasOf(src.rows), MovedOn(d))
  {
    MovedSinceSplits(DeltasOf(src.rows), d);
  }
}
