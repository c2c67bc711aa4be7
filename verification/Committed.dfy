/** What a committed request leaves in the tables, field by field: the rows it was asked for, and
    everything else as it was (internal/investments/operations.go, positions.go). */
module Committed {
  import opened Wrappers
  import opened Decimals
  import opened Sequences
  import opened Domain
  import opened Ledger
  import opened Acceptance
  import opened CostBasis
  import opened Tables
  import opened Reconciliation
  import opened LinkInvariants
  import opened LinkEffects
  import opened BulkUnlink
  import opened Mutations
  import opened BookInvariants
  import opened Transfers

  // ---- operations ----

  /** A row as an input asks for it, manual and outside every transfer. */
  predicate AskedFor(op: Operation, input: OperationInput) {
    && op.account == input.account && StoredAs(input.position, op.position) && op.kind == input.kind
    && op.occurredOn == input.occurredOn && op.amount == input.amount
    && op.quantity == input.quantity && op.unitPrice == input.unitPrice
    && op.fees == input.fees && op.taxes == input.taxes
    && op.origin.Manual? && op.transfer.None?
  }

  predicate RowOf(op: Operation, input: OperationInput, stamp: RowStamp) {
    op.id == stamp.id && op.createdAt == stamp.at && AskedFor(op, input)
  }

  ghost predicate HasRowOf(ops: seq<Operation>, input: OperationInput, stamp: RowStamp) {
    exists op | op in ops :: RowOf(op, input, stamp)
  }

  /** One row for each input, every row there was, and no other. */
  ghost predicate GainsRows(before: seq<Operation>, after: seq<Operation>, inputs: seq<OperationInput>, rows: seq<RowStamp>)
    requires |inputs| == |rows|
  {
    && (forall i {:trigger HasRowOf(after, inputs[i], rows[i])} | 0 <= i < |inputs| :: HasRowOf(after, inputs[i], rows[i]))
    && (forall op | op in before :: op in after)
    && (forall op | op in after && op !in before :: exists i {:trigger RowOf(op, inputs[i], rows[i])} | 0 <= i < |inputs| :: RowOf(op, inputs[i], rows[i]))
    && |after| == |before| + |inputs|
  }

  lemma GainsRowsPush(before: seq<Operation>, mid: seq<Operation>, op: Operation, inputs: seq<OperationInput>, rows: seq<RowStamp>)
    requires |inputs| == |rows| > 0 && GainsRows(before, mid, inputs[..|inputs| - 1], rows[..|rows| - 1])
    requires RowOf(op, inputs[|inputs| - 1], rows[|rows| - 1])
    ensures GainsRows(before, InsertRow(mid, op), inputs, rows)
  {
    var after, n := InsertRow(mid, op), |inputs| - 1;
    InsertRowMembers(mid, op);
    forall i | 0 <= i < |inputs| ensures HasRowOf(after, inputs[i], rows[i]) {
      if i < n {
        assert HasRowOf(mid, inputs[..n][i], rows[..n][i]);
        var x :| x in mid && RowOf(x, inputs[i], rows[i]);
        assert x in after;
      } else {
        assert op in after;
      }
    }
    forall x | x in after && x !in before ensures exists i | 0 <= i < |inputs| :: RowOf(x, inputs[i], rows[i]) {
      if x in mid {
        var i :| 0 <= i < n && RowOf(x, inputs[..n][i], rows[..n][i]);
        assert RowOf(x, inputs[i], rows[i]);
      } else {
        assert RowOf(x, inputs[n], rows[n]);
      }
    }
  }

  lemma {:induction false} BatchGainsRows(b: Book, inputs: seq<OperationInput>, rows: seq<RowStamp>)
    requires |inputs| == |rows| && InsertInputs(b, inputs, rows).Ok?
    ensures var c := InsertInputs(b, inputs, rows).value;
            c == b.(ops := c.ops) && GainsRows(b.ops, c.ops, inputs, rows)
  {
    if inputs != [] {
      var n := |inputs| - 1;
      BatchGainsRows(b, inputs[..n], rows[..n]);
      GainsRowsPush(b.ops, InsertInputs(b, inputs[..n], rows[..n]).value.ops, Stored(Draft(inputs[n], rows[n])), inputs, rows);
    }
  }

  /** A committed batch is its rows and, if one was asked for, a link on the first of them. */
  lemma BatchThenLink(b: Book, inputs: seq<OperationInput>, link: Option<LinkInput>, rows: seq<RowStamp>, stamp: LinkStamp)
    requires |inputs| == |rows| && CreateOperationsIn(b, inputs, link, rows, stamp).Ok?
    ensures 1 <= |inputs| <= 100 && InsertInputs(b, inputs, rows).Ok?
    ensures var c := InsertInputs(b, inputs, rows).value;
            if link.None? then CreateOperationsIn(b, inputs, link, rows, stamp).value == c
            else CreateLink(c, link.value.(operation := rows[0].id), stamp) == CreateOperationsIn(b, inputs, link, rows, stamp)
  {
  }

  /** A committed batch leaves one row for each input, as it was asked for, under the id and time it
      drew; every row there was; and no other. */
  lemma CreatedAsAsked(b: Book, inputs: seq<OperationInput>, link: Option<LinkInput>, rows: seq<RowStamp>, stamp: LinkStamp)
    requires |inputs| == |rows| && FreshRows(b, rows)
    requires CreateOperationsIn(b, inputs, link, rows, stamp).Ok?
    ensures 1 <= |inputs| <= 100
    ensures var c := CreateOperationsIn(b, inputs, link, rows, stamp).value;
            c == b.(ops := c.ops, links := c.links) && GainsRows(b.ops, c.ops, inputs, rows)
    ensures link.None? ==> CreateOperationsIn(b, inputs, link, rows, stamp).value.links == b.links
  {
    BatchThenLink(b, inputs, link, rows, stamp);
    BatchGainsRows(b, inputs, rows);
    var c := InsertInputs(b, inputs, rows).value;
    if link.Some? {
      NamedLinkTouchesLinksOnly(c, link.value.(operation := rows[0].id), stamp);
    }
  }

  /** The row a fresh id was drawn for is the one row carrying it. */
  lemma FreshIdNamesItsRow(b: Book, after: seq<Operation>, inputs: seq<OperationInput>, rows: seq<RowStamp>, i: nat, op: Operation)
    requires |inputs| == |rows| && FreshRows(b, rows) && GainsRows(b.ops, after, inputs, rows)
    requires i < |rows| && op in after && op.id == rows[i].id
    ensures RowOf(op, inputs[i], rows[i])
  {
    assert FreshRow(b, rows[i].id);
    var j := WhoseRow(b.ops, after, inputs, rows, op);
    assert rows[j].id == rows[i].id;
  }

  lemma WhoseRow(before: seq<Operation>, after: seq<Operation>, inputs: seq<OperationInput>, rows: seq<RowStamp>, op: Operation)
      returns (j: nat)
    requires |inputs| == |rows| && GainsRows(before, after, inputs, rows) && op in after && op !in before
    ensures j < |inputs| && RowOf(op, inputs[j], rows[j])
  {
    j :| 0 <= j < |inputs| && RowOf(op, inputs[j], rows[j]);
  }

  /** The link asked for with a batch is recorded on its first row, with the line, movement and
      amount asked for. */
  lemma CreatedLinkAsAsked(b: Book, inputs: seq<OperationInput>, link: LinkInput, rows: seq<RowStamp>, stamp: LinkStamp) returns (l: Link)
    requires |inputs| == |rows| && FreshRows(b, rows)
    requires CreateOperationsIn(b, inputs, Some(link), rows, stamp).Ok?
    ensures |rows| > 0 && l.id == stamp.link && l.createdAt == stamp.linkedAt && l.operation == rows[0].id
    ensures l.amount == link.amount > 0.0 && StoredAs(link.line, l.line) && StoredAs(link.movement, l.movement)
    ensures GainsLink(b.links, CreateOperationsIn(b, inputs, Some(link), rows, stamp).value.links, l)
  {
    BatchThenLink(b, inputs, Some(link), rows, stamp);
    BatchGainsRows(b, inputs, rows);
    l := NamedLinkRecorded(InsertInputs(b, inputs, rows).value, link.(operation := rows[0].id), stamp);
  }

  /** An account is there, and an integrated one takes cash operations without a position only. */
  predicate AccountTakes(b: Book, input: OperationInput) {
    && input.account in b.accounts
    && (b.accounts[input.account].kind.IntegratedAccount? ==>
          input.kind in {Deposit, Withdrawal, Income, Fee, Tax} && input.position.None?)
  }

  /** A named position is one of the account's own. */
  predicate PositionFits(b: Book, input: OperationInput) {
    StoredAs(input.position, None)
    || (input.position.value in b.positions && b.positions[input.position.value].account == input.account)
  }

  predicate Bare(input: OperationInput) {
    input.quantity.None? && input.unitPrice.None? && input.fees == 0.0 && input.taxes == 0.0
  }

  /** What an input must say: cash kinds an amount and nothing else; a trade its position, units and
      amount; a valuation its position and nothing but an amount; an opening either its cash or a
      position's units. Halves of transfers cannot be asked for one by one. */
  predicate Complete(input: OperationInput) {
    var placed := input.position.Some? && input.position.value != EMPTY;
    && input.account != EMPTY && input.occurredOn != ZERO_DAY
    && input.amount >= 0.0 && input.fees >= 0.0 && input.taxes >= 0.0
    && (input.quantity.Some? ==> input.quantity.value > 0.0)
    && (input.unitPrice.Some? ==> input.unitPrice.value >= 0.0)
    && (input.kind in {Deposit, Withdrawal, Income, Fee, Tax} ==> !placed && Bare(input) && input.amount > 0.0)
    && (input.kind in {Buy, Sell} ==> placed && input.quantity.Some? && input.amount > 0.0)
    && (input.kind.Valuation? ==> placed && Bare(input))
    && (input.kind.InitialBalance? ==> if placed then input.quantity.Some? else Bare(input) && input.amount > 0.0)
    && input.kind !in {TransferOut, TransferIn, UnknownKind}
  }

  /** A row is accepted for insertion if and only if its account takes it, it is complete, and its
      position is the account's. */
  lemma RowAcceptedExactly(b: Book, input: OperationInput, stamp: RowStamp)
    ensures RowJudgement(b, Draft(input, stamp)).None? <==> AccountTakes(b, input) && Complete(input) && PositionFits(b, input)
  {
  }

  /** A stored row of a manual account: cash kinds an amount and nothing else; a trade or half of a
      transfer its position and units; a valuation its position; and no negative figure. */
  predicate CompleteRow(op: Operation) {
    var bare := op.quantity.None? && op.unitPrice.None? && op.fees == 0.0 && op.taxes == 0.0;
    && op.account != EMPTY && op.occurredOn != ZERO_DAY
    && op.amount >= 0.0 && op.fees >= 0.0 && op.taxes >= 0.0
    && (op.quantity.Some? ==> op.quantity.value > 0.0) && (op.unitPrice.Some? ==> op.unitPrice.value >= 0.0)
    && (op.kind in {Deposit, Withdrawal, Income, Fee, Tax} ==> op.position.None? && bare && op.amount > 0.0)
    && (op.kind in {Buy, Sell, TransferOut, TransferIn} ==> op.position.Some? && op.quantity.Some?)
    && (op.kind in {Buy, Sell} ==> op.amount > 0.0)
    && (op.kind in {TransferOut, TransferIn} <==> op.transfer.Some?)
    && (op.kind.Valuation? ==> op.position.Some? && bare)
    && (op.kind.InitialBalance? ==> if op.position.Some? then op.quantity.Some? else bare && op.amount > 0.0)
    && !op.kind.UnknownKind?
  }

  lemma WellFormedIsComplete(b: Book, op: Operation)
    requires CatalogueSound(b) && RowSound(b, op) && WellFormed(op)
    ensures CompleteRow(op)
  {
  }

  lemma RowOfManualAccountComplete(b: Book, op: Operation)
    requires BookSound(b) && op in b.ops && IsManual(b, op.account)
    ensures CompleteRow(op)
  {
    var h := History(b.ops, op.account);
    FilterMember(b.ops, InAccount(op.account), op);
    var k :| 0 <= k < |h| && h[k] == op;
    assert Admissible(h) && Placed(h[..k], h[k]);
    assert RowSound(b, op);
    WellFormedIsComplete(b, op);
  }

  /** All rows but one, and one in its place. */
  ghost predicate OneReplaced(before: seq<Operation>, after: seq<Operation>, old_: Operation, new_: Operation) {
    old_ in before && forall op :: op in after <==> op == new_ || (op in before && op != old_)
  }

  lemma OnlyRowWithItsId(ops: seq<Operation>, row: Operation, op: Operation)
    requires DistinctRows(ops) && row in ops && op in ops
    ensures op.id == row.id <==> op == row
  {
    FoundIsIt(ops, row);
    FoundIsIt(ops, op);
  }

  /** A committed edit leaves the row as it was asked for, under its old id and time, in the place of
      a manual row outside every transfer, and every other row as it was. */
  lemma UpdatedAsAsked(b: Book, id: Id, input: OperationInput) returns (was: Operation, now: Operation)
    requires LinksSound(b) && UpdateOperationIn(b, id, input).Ok?
    ensures was in b.ops && was.id == id && was.origin.Manual? && was.transfer.None?
    ensures now.id == id && now.createdAt == was.createdAt && AskedFor(now, input)
    ensures var c := UpdateOperationIn(b, id, input).value;
            c == b.(ops := c.ops) && OneReplaced(b.ops, c.ops, was, now)
  {
    was := CurrentEditable(b, id).value;
    now := Stored(Draft(input, RowStamp(id, was.createdAt)));
    ReplaceRowMembers(b.ops, now);
    forall op | op in b.ops ensures op.id != id <==> op != was {
      OnlyRowWithItsId(b.ops, was, op);
    }
  }

  /** A committed deletion takes exactly the one row, which was manual, outside every transfer and
      without a link, and leaves the rest of the book as it was. */
  lemma DeletedExactly(b: Book, id: Id) returns (was: Operation)
    requires LinksSound(b) && DeleteOperationIn(b, id).Ok?
    ensures was in b.ops && was.id == id && was.origin.Manual? && was.transfer.None?
    ensures forall l | l in b.links :: l.operation != id
    ensures var c := DeleteOperationIn(b, id).value;
            c == b.(ops := c.ops) && forall op :: op in c.ops <==> op in b.ops && op != was
  {
    was := CurrentEditable(b, id).value;
    FilterMembers(b.ops, OtherThan(id));
    forall op | op in b.ops ensures op.id != id <==> op != was {
      OnlyRowWithItsId(b.ops, was, op);
    }
  }

  // ---- transfers ----

  /** One half of a transfer, on its own position's account, carrying the cost its units had. */
  predicate HalfOf(b: Book, op: Operation, move: TransferInput, transfer: Id, kind: Kind, position: Id, id: Id, at: Instant) {
    && position in b.positions
    && op.id == id && op.createdAt == at && op.transfer == Some(transfer) && op.kind == kind
    && op.position == Some(position) && op.account == b.positions[position].account
    && op.occurredOn == move.occurredOn && op.quantity == Some(move.quantity)
    && op.fees == 0.0 && op.taxes == 0.0 && op.origin.Manual?
  }

  /** The cost of some units out of a holding: their share within half a unit of the division's last
      place, and exactly all of it for all of them. */
  predicate CarriedCost(amount: real, units: real, held: Holding) {
    && held.quantity > 0.0 && Distance(amount, Share(held.totalCost, units, held.quantity)) <= HALF_UNIT
    && (units == held.quantity ==> amount == held.totalCost)
  }

  predicate CarriedPrice(unitPrice: Option<real>, held: Holding) {
    held.quantity > 0.0 && unitPrice.Some? && Distance(unitPrice.value, held.totalCost / held.quantity) <= HALF_UNIT
  }

  lemma CarriedByCostOf(held: Holding, units: real)
    requires 0.0 < units <= held.quantity
    ensures CarriedCost(held.CostOf(units), units, held) && CarriedPrice(Some(held.AverageCost()), held)
  {
    if units == held.quantity {
      ShareOfWhole(held.totalCost, held.quantity);
    }
  }

  /** A committed transfer leaves two rows more, one on each position's account, for the quantity
      and day asked, both carrying what the units cost at the end of that day; and no other change. */
  lemma TransferredAsAsked(b: Book, move: TransferInput, transfer: Id, outId: Id, inId: Id, at: Instant)
      returns (out: Operation, into: Operation, held: Holding)
    requires CreateTransferIn(b, move, transfer, outId, inId, at).Ok?
    ensures HalfOf(b, out, move, transfer, TransferOut, move.source, outId, at)
    ensures HalfOf(b, into, move, transfer, TransferIn, move.destination, inId, at)
    ensures HoldingOn(b.ops, move.occurredOn, b.positions[move.source].account, move.source) == Ok(held)
    ensures held.quantity >= move.quantity > 0.0
    ensures out.amount == into.amount && CarriedCost(out.amount, move.quantity, held)
    ensures out.unitPrice == into.unitPrice && CarriedPrice(out.unitPrice, held)
    ensures var c := CreateTransferIn(b, move, transfer, outId, inId, at).value;
            c == b.(ops := c.ops) && multiset(c.ops) == multiset(b.ops) + multiset{out, into}
  {
    held := SourceOn(b, move).value;
    out := TransferRow(b, move, held, TransferOut, transfer, outId, at);
    into := TransferRow(b, move, held, TransferIn, transfer, inId, at);
    CarriedByCostOf(held, move.quantity);
    SpliceGains(b.ops, Slot(b.ops, out), out);
    SpliceGains(InsertRow(b.ops, out), Slot(InsertRow(b.ops, out), into), into);
  }

  /** A transfer is considered if and only if it moves some units on some day between two positions
      of one asset in two different manual accounts. */
  lemma TransferConsideredExactly(b: Book, move: TransferInput)
    ensures TransferJudgement(b, move).None? <==>
            && move.source != EMPTY && move.destination != EMPTY && move.quantity > 0.0 && move.occurredOn != ZERO_DAY
            && move.source in b.positions && move.destination in b.positions
            && b.positions[move.source].asset == b.positions[move.destination].asset
            && b.positions[move.source].account != b.positions[move.destination].account
            && (forall a | a in [b.positions[move.source].account, b.positions[move.destination].account] ::
                  a in b.accounts && b.accounts[a].kind.ManualAccount?)
  {
    if move.source in b.positions && move.destination in b.positions {
      var accounts := [b.positions[move.source].account, b.positions[move.destination].account];
      assert accounts[0] in accounts && accounts[1] in accounts;
    }
  }

  /** Deleting a transfer takes exactly its rows. */
  lemma TransferDeletedExactly(b: Book, transfer: Id)
    requires DeleteTransferIn(b, transfer).Ok?
    ensures transfer != EMPTY && |TransferRows(b.ops, transfer)| == 2
    ensures var c := DeleteTransferIn(b, transfer).value;
            c == b.(ops := c.ops) && forall op :: op in c.ops <==> op in b.ops && op.transfer != Some(transfer)
  {
    FilterMembers(b.ops, NotInTransfer(transfer));
  }

  // ---- positions ----

  predicate StatesUnits(input: PositionInput) {
    input.initialQuantity > 0.0 && input.initialUnitCost > 0.0
  }

  /** What an opening is worth in all: units at a unit cost, or else the amount stated. */
  predicate StatedTotal(input: PositionInput, total: real) {
    if StatesUnits(input) then total == input.initialQuantity * input.initialUnitCost
    else input.initialValue == Some(total)
  }

  /** The opening row of a position: its units, or one unit of a bare amount, at the total stated. */
  predicate Opens(op: Operation, input: PositionInput, position: Id, row: RowStamp, today: Day) {
    && op.id == row.id && op.createdAt == row.at && op.account == input.account && op.position == Some(position)
    && op.kind.InitialBalance? && op.transfer.None? && op.origin.Manual? && op.fees == 0.0 && op.taxes == 0.0
    && op.occurredOn == (if input.occurredOn == ZERO_DAY then today else input.occurredOn)
    && op.quantity == Some(if input.initialQuantity > 0.0 then input.initialQuantity else 1.0)
    && StatedTotal(input, op.amount) && op.amount > 0.0
    && op.unitPrice.Some?
    && (StatesUnits(input) ==> op.unitPrice.value == input.initialUnitCost)
    && (!StatesUnits(input) ==> Distance(op.unitPrice.value, op.amount / op.quantity.value) <= HALF_UNIT)
  }

  /** Whether the request states an opening at all. */
  predicate StatesOpening(input: PositionInput) {
    StatesUnits(input) || (input.initialValue.Some? && input.initialValue.value > 0.0)
  }

  lemma OpeningRowOpens(input: PositionInput, position: Id, row: RowStamp, today: Day)
    requires OpeningHolding(input).quantity > 0.0 && OpeningHolding(input).total > 0.0
    ensures StatesOpening(input) && Opens(OpeningRow(input, position, row, today), input, position, row, today)
  {
  }

  lemma OpeningStated(input: PositionInput)
    ensures OpeningHolding(input).quantity > 0.0 && OpeningHolding(input).total > 0.0 <==> StatesOpening(input)
  {
    if StatesUnits(input) {
      ProductPositive(input.initialQuantity, input.initialUnitCost);
    }
  }

  /** A position is asked for by figures that are not negative, in an account without one of that asset. */
  lemma AskedForAnew(b: Book, input: PositionInput, position: Id, row: RowStamp, today: Day)
    requires CreatePositionIn(b, input, position, row, today).Ok?
    ensures input.initialQuantity >= 0.0 && input.initialUnitCost >= 0.0
    ensures forall p | p in b.positions :: b.positions[p] != PositionRow(input.account, input.asset)
  {
  }

  /** A committed creation leaves the position with its account and asset and, if an opening was
      stated, its one opening row; and no other change. */
  lemma OpenedAsAsked(b: Book, input: PositionInput, position: Id, row: RowStamp, today: Day) returns (op: Operation)
    requires CreatePositionIn(b, input, position, row, today).Ok?
    ensures var c := CreatePositionIn(b, input, position, row, today).value;
            && c == b.(positions := b.positions[position := PositionRow(input.account, input.asset)], ops := c.ops)
            && if StatesOpening(input)
               then Opens(op, input, position, row, today) && multiset(c.ops) == multiset(b.ops) + multiset{op}
               else c.ops == b.ops
  {
    op := OpeningRow(input, position, row, today);
    OpeningStated(input);
    if StatesOpening(input) {
      OpeningRowOpens(input, position, row, today);
      SpliceGains(b.ops, Slot(b.ops, op), op);
    }
  }

  // ---- bank lines ----

  /** All lines as they were, but for whether one is in the totals. */
  predicate OnlyThatLine(before: map<Id, BankLine>, after: map<Id, BankLine>, line: Id, ignored: bool) {
    && line in before && after.Keys == before.Keys
    && after[line].value == before[line].value && after[line].brl == before[line].brl && after[line].ignored == ignored
    && forall k | k in before && k != line :: after[k] == before[k]
  }

  /** Excluding a known line marks it, and takes its links if it was in the totals. */
  lemma IgnoredAsAsked(b: Book, line: Id)
    requires LinksSound(b)
    ensures IgnoreIn(b, line).Ok? <==> line in b.lines
    ensures IgnoreIn(b, line).Ok? ==>
              var c := IgnoreIn(b, line).value;
              && c == b.(lines := c.lines, ops := c.ops, links := c.links)
              && OnlyThatLine(b.lines, c.lines, line, true)
              && OthersStand(b.links, c.links, line) && RowsStand(b, c) && forall l | l in c.links :: l.line != Some(line)
  {
    if line in b.lines {
      if b.lines[line].ignored {
        IgnoredCarriesNothing(b, line);
      } else {
        IgnoredTakesItsLinks(b, line);
      }
    }
  }

  lemma IgnoredCarriesNothing(b: Book, line: Id)
    requires LinksSound(b) && line in b.lines && b.lines[line].ignored
    ensures OthersStand(b.links, b.links, line) && forall l | l in b.links :: l.line != Some(line)
  {
    forall l | l in b.links ensures l.line != Some(line) && Holds(b.links, l) {
      assert LinkSound(b, l) && SameParcel(l, l);
    }
  }

  lemma IgnoredTakesItsLinks(b: Book, line: Id)
    requires LinksSound(b) && line in b.lines
    ensures var c := IgnoreLine(b, line);
            && c == b.(lines := c.lines, ops := c.ops, links := c.links)
            && OnlyThatLine(b.lines, c.lines, line, true)
            && OthersStand(b.links, c.links, line) && RowsStand(b, c) && forall l | l in c.links :: l.line != Some(line)
  {
    UnlinkTakesOnlyTheLine(b, line);
    RemoveAsReadFrame(b, b.lines[line := b.lines[line].(ignored := true)], LinesRead(b, line));
  }

  /** Taking a known line back marks it so, and does nothing else. */
  lemma ConsideredAsAsked(b: Book, line: Id)
    ensures Perform(b, ConsiderTransaction(line)).Ok? <==> line in b.lines
    ensures line in b.lines ==>
              var c := Perform(b, ConsiderTransaction(line)).value;
              c == b.(lines := c.lines) && OnlyThatLine(b.lines, c.lines, line, false)
  {
  }
}
