/** What opening a position leaves in the ledger (internal/investments/positions.go). */
module Openings {
  import opened Wrappers
  import opened Decimals
  import opened Sequences
  import opened Domain
  import opened Ledger
  import opened Acceptance
  import opened CostBasis
  import opened Tables
  import opened Mutations
  import opened BookInvariants

  /** The unit price times the quantity is the total, up to half a unit of the division's last place
      per unit opened. */
  predicate PricedWithin(o: Opening) {
    Distance(o.total, o.unitPrice * o.quantity) <= HALF_UNIT * o.quantity
  }

  lemma OpeningPriced(input: PositionInput)
    ensures PricedWithin(OpeningHolding(input))
  {
    var q := input.initialQuantity;
    if q > 0.0 && !(input.initialUnitCost > 0.0) && input.initialValue.Some? && input.initialValue.value > 0.0 {
      QuotientTimes(input.initialValue.value, q);
    }
  }

  /** The opening is stated by a quantity and unit cost, by a total for a quantity, or by a bare
      amount that opens one unit; without a positive amount there is none. */
  lemma OpeningMeaning(input: PositionInput)
    ensures var o := OpeningHolding(input);
            && (o.quantity > 0.0 <==> o.total > 0.0)
            && (o.quantity > 0.0 && input.initialQuantity > 0.0 ==> o.quantity == input.initialQuantity)
            && (o.quantity > 0.0 && input.initialQuantity <= 0.0 ==> o.quantity == 1.0 && o.total == o.unitPrice)
            && (input.initialQuantity > 0.0 && input.initialUnitCost > 0.0 ==> o.unitPrice == input.initialUnitCost)
            && PricedWithin(o)
  {
    var q := input.initialQuantity;
    if q > 0.0 && input.initialUnitCost > 0.0 {
      ProductPositive(q, input.initialUnitCost);
    }
    OpeningPriced(input);
  }

  lemma QuotientTimes(x: real, q: real)
    requires q > 0.0
    ensures Distance(x, Div(x, q) * q) <= HALF_UNIT * q
  {
    var e := Div(x, q) - x / q;
    assert x / q * q == x;
    assert Div(x, q) * q - x == e * q;
    ProductNonNegative(HALF_UNIT - e, q);
    ProductNonNegative(HALF_UNIT + e, q);
    assert (HALF_UNIT - e) * q == HALF_UNIT * q - e * q;
    assert (HALF_UNIT + e) * q == HALF_UNIT * q + e * q;
  }

  /** Rows that do not touch a position leave it as it was. */
  lemma {:induction false} UntouchedHolding(before: seq<Operation>, rows: seq<Operation>, p: Id)
    requires Replay(before).Ok? && Replay(before + rows).Ok?
    requires forall op | op in rows :: !Touches(op, p)
    ensures Replay(before + rows).value.At(p) == Replay(before).value.At(p)
  {
    if rows == [] {
      assert before + rows == before;
    } else {
      var rest, last := rows[..|rows| - 1], rows[|rows| - 1];
      assert last in rows && before + rows == (before + rest) + [last];
      ReplayPush(before + rest, last);
      UntouchedHolding(before, rest, p);
    }
  }

  /** The one row that touches a position leaves what that row opens. */
  lemma OnlyRowOpens(before: seq<Operation>, op: Operation, after: seq<Operation>, p: Id)
    requires Replay(before + [op] + after).Ok? && Touches(op, p) && op.kind.InitialBalance?
    requires forall o | o in before || o in after :: !Touches(o, p)
    ensures Replay(before + [op] + after).value.At(p) == Holding(Units(op), op.amount + op.fees + op.taxes, None, 0.0, None)
  {
    var h := before + [op] + after;
    assert h[..|before|] == before && h[..|before| + 1] == before + [op];
    ReplayPrefix(h, |before|);
    ReplayPrefix(h, |before| + 1);
    assert [] + before == before;
    UntouchedHolding([], before, p);
    ReplayPush(before, op);
    UntouchedHolding(before + [op], after, p);
  }

  /** The committed book has the opening row, somewhere in its account's history. */
  lemma OpeningInserts(b: Book, input: PositionInput, position: Id, row: RowStamp, today: Day)
    requires CreatePositionIn(b, input, position, row, today).Ok? && OpeningHolding(input).quantity > 0.0
    ensures CreatePositionIn(b, input, position, row, today).value.ops == InsertRow(b.ops, OpeningRow(input, position, row, today))
    ensures Replay(History(InsertRow(b.ops, OpeningRow(input, position, row, today)), input.account)).Ok?
  {
    OpeningMeaning(input);
    var op := OpeningRow(input, position, row, today);
    OneTouched(b.(positions := b.positions[position := PositionRow(input.account, input.asset)], ops := InsertRow(b.ops, op)), input.account);
  }

  /** No row of a sound book touches a position that does not exist yet. */
  lemma NewPositionUntouched(b: Book, account: Id, position: Id)
    requires BookSound(b) && position !in b.positions && position != EMPTY
    ensures forall o | o in History(b.ops, account) :: !Touches(o, position)
  {
    forall o | o in History(b.ops, account) ensures !Touches(o, position) {
      FilterMember(b.ops, InAccount(account), o);
      assert RowSound(b, o);
    }
  }

  /** The new row splits its account's history in two. */
  lemma HistoryAround(ops: seq<Operation>, op: Operation) returns (before: seq<Operation>, after: seq<Operation>)
    ensures History(ops, op.account) == before + after
    ensures History(InsertRow(ops, op), op.account) == before + [op] + after
  {
    var k, p := Slot(ops, op), InAccount(op.account);
    before, after := Filter(ops[..k], p), Filter(ops[k..], p);
    assert ops == ops[..k] + ops[k..];
    FilterConcat(ops[..k], ops[k..], p);
    FilterSplice(ops[..k], op, ops[k..], p);
  }

  /** A committed opening holds exactly the stated quantity at exactly the stated cost. */
  lemma OpeningHolds(b: Book, input: PositionInput, position: Id, row: RowStamp, today: Day)
    requires BookSound(b) && FreshFor(b, CreatePosition(input, position, row, today))
    requires CreatePositionIn(b, input, position, row, today).Ok? && OpeningHolding(input).quantity > 0.0
    ensures var c := CreatePositionIn(b, input, position, row, today).value;
            && Replay(History(c.ops, input.account)).Ok?
            && Replay(History(c.ops, input.account)).value.At(position)
               == Holding(OpeningHolding(input).quantity, OpeningHolding(input).total, None, 0.0, None)
  {
    var op := OpeningRow(input, position, row, today);
    OpeningInserts(b, input, position, row, today);
    NewPositionUntouched(b, input.account, position);
    var before, after := HistoryAround(b.ops, op);
    assert forall o | o in before || o in after :: o in before + after;
    OnlyRowOpens(before, op, after, position);
  }

  /** A row with no effect on a sum, spliced in, leaves it. */
  lemma SilentRow(before: seq<Operation>, op: Operation, after: seq<Operation>, f: Operation -> real)
    requires f(op) == 0.0
    ensures Sum(before + [op] + after, f) == Sum(before + after, f)
  {
    SumSplice(before, op, after, f);
  }

  /** A committed opening leaves the account's cash and every other position's units alone. */
  lemma OpeningMovesNothingElse(b: Book, input: PositionInput, position: Id, row: RowStamp, today: Day)
    requires CreatePositionIn(b, input, position, row, today).Ok? && OpeningHolding(input).quantity > 0.0
    ensures var c := CreatePositionIn(b, input, position, row, today).value;
            && Cash(History(c.ops, input.account)) == Cash(History(b.ops, input.account))
            && forall q: Id | q != position ::
                 PositionUnits(History(c.ops, input.account), q) == PositionUnits(History(b.ops, input.account), q)
  {
    var op := OpeningRow(input, position, row, today);
    OpeningInserts(b, input, position, row, today);
    var before, after := HistoryAround(b.ops, op);
    SilentRow(before, op, after, CashDelta);
    forall q: Id | q != position
      ensures PositionUnits(before + [op] + after, q) == PositionUnits(before + after, q)
    {
      SilentRow(before, op, after, UnitsIn(q));
    }
  }
}
