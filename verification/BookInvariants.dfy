/** What every request keeps, over every run: manual histories that replay, atomic transfer pairs,
    rows inside their accounts, and the link invariants. */
module BookInvariants {
  import opened Wrappers
  import opened Decimals
  import opened Sequences
  import opened Domain
  import opened Ledger
  import opened Acceptance
  import opened CostBasis
  import opened Tables
  import opened Reconciliation
  import opened LinkInvariants
  import opened BulkUnlink
  import opened Mutations

  // ---- the invariant ----

  /** Accounts have ids; a source has at most one integrated account, under its own id. */
  ghost predicate CustodiesSound(b: Book) {
    && EMPTY !in b.accounts && EMPTY !in b.custodies
    && (forall c, d | c in b.custodies && d in b.custodies && b.custodies[c] == b.custodies[d] :: c == d)
    && (forall c | c in b.custodies && c in b.accounts :: b.accounts[c] == AccountRow(IntegratedAccount, Some(b.custodies[c])))
    && (forall a, c | a in b.accounts && c in b.custodies && b.accounts[a].source == Some(b.custodies[c]) :: a == c)
    && (forall m | m in b.movements :: b.movements[m].custody in b.custodies && b.custodies[b.movements[m].custody] == b.movements[m].source)
  }

  /** Positions belong to manual accounts; provider custody is integrated. */
  ghost predicate CatalogueSound(b: Book) {
    && (forall p | p in b.positions :: p != EMPTY && IsManual(b, b.positions[p].account))
    && CustodiesSound(b)
  }

  /** A stored row sits in an existing account, on a position of that account if on any, and only
      the two halves of a transfer carry a transfer id. */
  predicate RowSound(b: Book, op: Operation) {
    && op.account in b.accounts
    && (op.position.Some? ==> op.position.value in b.positions && b.positions[op.position.value].account == op.account)
    && (op.transfer.Some? <==> op.kind.TransferOut? || op.kind.TransferIn?)
    && (op.origin.Synced? ==> !IsManual(b, op.account) && op.transfer.None?)
  }

  ghost predicate RowsSound(b: Book) {
    forall op | op in b.ops :: RowSound(b, op)
  }

  /** The two halves of one move: same units, cost and day, two accounts, one asset. */
  predicate PairOf(b: Book, out: Operation, into: Operation) {
    && out.kind.TransferOut? && into.kind.TransferIn?
    && out.quantity.Some? && out.quantity == into.quantity && out.amount == into.amount
    && out.occurredOn == into.occurredOn && out.account != into.account
    && HasPosition(out) && HasPosition(into)
    && out.position.value in b.positions && into.position.value in b.positions
    && b.positions[out.position.value].asset == b.positions[into.position.value].asset
  }

  predicate IsPair(b: Book, rows: seq<Operation>) {
    |rows| == 2 && (PairOf(b, rows[0], rows[1]) || PairOf(b, rows[1], rows[0]))
  }

  ghost predicate TransfersAtomic(b: Book) {
    forall t: Id :: TransferRows(b.ops, t) == [] || IsPair(b, TransferRows(b.ops, t))
  }

  /** Every manual account's history replays: no prefix of it overdraws cash or any position. */
  ghost predicate HistoriesSound(b: Book) {
    forall a | IsManual(b, a) :: Admissible(History(b.ops, a))
  }

  ghost predicate BookSound(b: Book) {
    CatalogueSound(b) && RowsSound(b) && TransfersAtomic(b) && HistoriesSound(b) && LinksSound(b)
  }

  // ---- fresh ids ----

  ghost predicate FreshRows(b: Book, rows: seq<RowStamp>) {
    && (forall i | 0 <= i < |rows| :: rows[i].id != EMPTY && FreshRow(b, rows[i].id))
    && (forall i, j | 0 <= i < j < |rows| :: rows[i].id != rows[j].id)
  }

  ghost predicate FreshStamp(b: Book, stamp: LinkStamp) {
    FreshLink(b, stamp.link) && FreshRow(b, stamp.pivot)
  }

  /** The ids a request draws are new, as generated ids are. */
  ghost predicate FreshFor(b: Book, request: Request) {
    && WellTyped(request)
    && match request
       case CreateOperations(_, _, rows, stamp) =>
         FreshRows(b, rows) && FreshStamp(b, stamp) && forall i | 0 <= i < |rows| :: rows[i].id != stamp.pivot
       case CreateTransfer(_, transfer, outId, inId, _) =>
         FreshRow(b, outId) && FreshRow(b, inId) && outId != inId
         && transfer != EMPTY && TransferRows(b.ops, transfer) == []
       case CreatePosition(_, position, row, _) => position != EMPTY && position !in b.positions && FreshRow(b, row.id)
       case CreateReconciliation(_, stamp) => FreshStamp(b, stamp)
       case _ => true
  }

  // ---- histories ----

  lemma {:induction false} CommitJudgesEveryTouched(b: Book, touched: seq<Id>, a: Id)
    requires FirstFailure(b, touched).None? && a in touched && IsManual(b, a)
    ensures Admissible(History(b.ops, a))
  {
    var rest, last := touched[..|touched| - 1], touched[|touched| - 1];
    assert touched == rest + [last];
    if a in rest {
      CommitJudgesEveryTouched(b, rest, a);
    } else {
      ReplayAcceptsExactlyAdmissible(History(b.ops, a));
    }
  }

  /** A committed write is sound on the accounts it touched by the replay, and on the others
      because their rows did not change. */
  lemma CommitKeepsHistories(b: Book, c: Book, touched: seq<Id>)
    requires HistoriesSound(b) && Commit(c, touched).Ok? && c.accounts == b.accounts
    requires forall a: Id | a !in touched :: IsManual(b, a) ==> History(c.ops, a) == History(b.ops, a)
    ensures HistoriesSound(c)
  {
    forall a | IsManual(c, a) ensures Admissible(History(c.ops, a)) {
      if a in touched {
        CommitJudgesEveryTouched(c, touched, a);
      } else {
        assert IsManual(b, a);
      }
    }
  }

  // ---- transfers ----

  /** A row outside every transfer leaves all pairs as they were. */
  lemma PlainInsertKeepsPairs(b: Book, op: Operation)
    requires TransfersAtomic(b) && op.transfer.None?
    ensures TransfersAtomic(b.(ops := InsertRow(b.ops, op)))
  {
    forall t: Id ensures TransferRows(InsertRow(b.ops, op), t) == TransferRows(b.ops, t) {
      TransferRowsOfInsert(b.ops, op, t);
    }
  }

  lemma TransferRowsSplit(ops: seq<Operation>, op: Operation, t: Id) returns (early: seq<Operation>, late: seq<Operation>)
    ensures TransferRows(ops, t) == early + late
    ensures TransferRows(InsertRow(ops, op), t) == early + (if op.transfer == Some(t) then [op] else []) + late
  {
    var k := Slot(ops, op);
    assert ops == ops[..k] + ops[k..];
    FilterConcat(ops[..k], ops[k..], InTransfer(t));
    FilterSplice(ops[..k], op, ops[k..], InTransfer(t));
    early, late := Filter(ops[..k], InTransfer(t)), Filter(ops[k..], InTransfer(t));
  }

  lemma TransferRowsOfInsert(ops: seq<Operation>, op: Operation, t: Id)
    ensures op.transfer != Some(t) ==> TransferRows(InsertRow(ops, op), t) == TransferRows(ops, t)
    ensures op.transfer == Some(t) && TransferRows(ops, t) == [] ==> TransferRows(InsertRow(ops, op), t) == [op]
    ensures op.transfer == Some(t) && |TransferRows(ops, t)| == 1 ==>
              TransferRows(InsertRow(ops, op), t) == [op] + TransferRows(ops, t)
              || TransferRows(InsertRow(ops, op), t) == TransferRows(ops, t) + [op]
  {
    var early, late := TransferRowsSplit(ops, op, t);
    if early == [] {
      assert early + [op] + late == [op] + (early + late);
    } else if late == [] {
      assert early + [op] + late == (early + late) + [op];
    }
  }

  /** Dropping rows outside every transfer leaves all pairs as they were. */
  lemma {:induction false} PlainFilterKeepsPairs(ops: seq<Operation>, keep: Operation -> bool, t: Id)
    requires forall op | op in ops && op.transfer == Some(t) :: keep(op)
    ensures TransferRows(Filter(ops, keep), t) == TransferRows(ops, t)
  {
    if ops != [] {
      var rest, last := ops[..|ops| - 1], ops[|ops| - 1];
      assert last in ops;
      PlainFilterKeepsPairs(rest, keep, t);
      FilterConcat(Filter(rest, keep), [last], InTransfer(t));
      FilterOne(last, InTransfer(t));
    }
  }

  // ---- creating operations ----

  /** Every row of the larger table is an old one or a new manual one, and no old one is lost. */
  ghost predicate AddsOnly(ops: seq<Operation>, more: seq<Operation>, rows: seq<RowStamp>) {
    && (forall op | op in more :: op in ops || (op.origin.Manual? && exists i | 0 <= i < |rows| :: op.id == rows[i].id))
    && (forall op | op in ops :: op in more)
  }

  lemma AddsOnePush(ops: seq<Operation>, more: seq<Operation>, rows: seq<RowStamp>, op: Operation)
    requires rows != [] && AddsOnly(ops, more, rows[..|rows| - 1])
    requires op.origin.Manual? && op.id == rows[|rows| - 1].id
    ensures AddsOnly(ops, InsertRow(more, op), rows)
  {
    InsertRowMembers(more, op);
  }

  lemma {:induction false} InsertInputsAdds(b: Book, inputs: seq<OperationInput>, rows: seq<RowStamp>)
    requires |inputs| == |rows| && InsertInputs(b, inputs, rows).Ok?
    ensures InsertInputs(b, inputs, rows).value == b.(ops := InsertInputs(b, inputs, rows).value.ops)
    ensures AddsOnly(b.ops, InsertInputs(b, inputs, rows).value.ops, rows)
  {
    if inputs != [] {
      var n := |inputs| - 1;
      InsertInputsAdds(b, inputs[..n], rows[..n]);
      AddsOnePush(b.ops, InsertInputs(b, inputs[..n], rows[..n]).value.ops, rows, Stored(Draft(inputs[n], rows[n])));
    }
  }

  lemma NextRowIsFresh(b: Book, c: Book, rows: seq<RowStamp>)
    requires rows != [] && FreshRows(b, rows) && c == b.(ops := c.ops) && AddsOnly(b.ops, c.ops, rows[..|rows| - 1])
    ensures FreshRow(c, rows[|rows| - 1].id)
  {
  }

  /** What a batch of inserted inputs is: sound rows and sound links. */
  lemma {:induction false} InsertInputsSound(b: Book, inputs: seq<OperationInput>, rows: seq<RowStamp>)
    requires CatalogueSound(b) && RowsSound(b) && TransfersAtomic(b) && LinksSound(b)
    requires |inputs| == |rows| && FreshRows(b, rows) && InsertInputs(b, inputs, rows).Ok?
    ensures var c := InsertInputs(b, inputs, rows).value;
            c == b.(ops := c.ops) && RowsSound(c) && TransfersAtomic(c) && LinksSound(c) && AddsOnly(b.ops, c.ops, rows)
  {
    InsertInputsAdds(b, inputs, rows);
    if inputs != [] {
      var n := |inputs| - 1;
      assert FreshRows(b, rows[..n]);
      InsertInputsSound(b, inputs[..n], rows[..n]);
      var d := InsertInputs(b, inputs[..n], rows[..n]).value;
      NextRowIsFresh(b, d, rows);
      InsertOneSound(d, Draft(inputs[n], rows[n]));
    }
  }

  /** A batch leaves the histories of accounts it does not name. */
  lemma {:induction false} InsertInputsElsewhere(b: Book, inputs: seq<OperationInput>, rows: seq<RowStamp>, a: Id)
    requires |inputs| == |rows| && InsertInputs(b, inputs, rows).Ok? && a !in Accounts(inputs)
    ensures History(InsertInputs(b, inputs, rows).value.ops, a) == History(b.ops, a)
  {
    if inputs != [] {
      var n := |inputs| - 1;
      assert Accounts(inputs)[n] == inputs[n].account;
      assert Accounts(inputs[..n]) == Accounts(inputs)[..n];
      InsertInputsElsewhere(b, inputs[..n], rows[..n], a);
      HistoryOfInsert(InsertInputs(b, inputs[..n], rows[..n]).value.ops, Stored(Draft(inputs[n], rows[n])), a);
    }
  }

  /** A row that passes the checks is sound once stored. */
  lemma JudgedRowSound(b: Book, op: Operation)
    requires CatalogueSound(b) && RowJudgement(b, op).None? && op.transfer.None? && op.origin.Manual?
    ensures RowSound(b, Stored(op)) && Stored(op).transfer.None? && Stored(op).id == op.id && Stored(op).account == op.account
  {
  }

  lemma InsertOneSound(b: Book, op: Operation)
    requires CatalogueSound(b) && RowsSound(b) && TransfersAtomic(b) && LinksSound(b)
    requires FreshRow(b, op.id) && RowJudgement(b, op).None? && op.transfer.None? && op.origin.Manual?
    ensures var c := b.(ops := InsertRow(b.ops, Stored(op)));
            && RowsSound(c) && TransfersAtomic(c) && LinksSound(c)
            && forall o :: o in c.ops <==> o == Stored(op) || o in b.ops
  {
    JudgedRowSound(b, op);
    InsertRowOrdered(b.ops, Stored(op));
    AddRowSound(b, Stored(op));
    PlainInsertKeepsPairs(b, Stored(op));
    var c := b.(ops := InsertRow(b.ops, Stored(op)));
    forall o | o in c.ops ensures RowSound(c, o) {
      assert RowSound(b, o) || o == Stored(op);
    }
  }

  /** A link on a named operation changes nothing but the links. */
  lemma NamedLinkTouchesLinksOnly(b: Book, input: LinkInput, stamp: LinkStamp)
    requires input.operation != EMPTY && CreateLink(b, input, stamp).Ok?
    ensures var c := CreateLink(b, input, stamp).value; c == b.(links := c.links)
  {
  }

  lemma CreateOperationsSound(b: Book, inputs: seq<OperationInput>, link: Option<LinkInput>, rows: seq<RowStamp>, stamp: LinkStamp)
    requires BookSound(b) && |inputs| == |rows| && FreshFor(b, CreateOperations(inputs, link, rows, stamp))
    requires CreateOperationsIn(b, inputs, link, rows, stamp).Ok?
    ensures BookSound(CreateOperationsIn(b, inputs, link, rows, stamp).value)
  {
    InsertInputsSound(b, inputs, rows);
    var c := InsertInputs(b, inputs, rows).value;
    assert FreshRow(c, stamp.pivot);
    assert CatalogueSound(c);
    var d := CreateOperationsIn(b, inputs, link, rows, stamp).value;
    if link.Some? {
      var input := link.value.(operation := rows[0].id);
      NamedLinkTouchesLinksOnly(c, input, stamp);
      CreateLinkSound(c, input, stamp);
      assert d == CreateLink(c, input, stamp).value;
    }
    assert d == c.(links := d.links) && LinksSound(d);
    forall a: Id | a !in Accounts(inputs) ensures History(d.ops, a) == History(b.ops, a) {
      InsertInputsElsewhere(b, inputs, rows, a);
    }
    CommitKeepsHistories(b, d, Accounts(inputs));
    LinksOnlyKeepsRows(c, d);
  }

  /** Rows, pairs and catalogue do not look at the links or the bank lines. */
  lemma LinksOnlyKeepsRows(b: Book, c: Book)
    requires CatalogueSound(b) && RowsSound(b) && TransfersAtomic(b)
    requires c.custodies == b.custodies && c.accounts == b.accounts && c.positions == b.positions
    requires c.movements == b.movements && c.ops == b.ops
    ensures CatalogueSound(c) && RowsSound(c) && TransfersAtomic(c)
  {
    assert CatalogueSound(c);
    forall op | op in c.ops ensures RowSound(c, op) {
      assert RowSound(b, op);
    }
  }

  // ---- editing and deleting operations ----

  /** Rewriting a plain row keeps rows, pairs and the other accounts' histories. */
  lemma ReplacePlainRow(b: Book, current: Operation, updated: Operation)
    requires CatalogueSound(b) && RowsSound(b) && TransfersAtomic(b) && LinksSound(b)
    requires current in b.ops && current.id == updated.id && current.transfer.None?
    requires RowSound(b, updated) && updated.transfer.None?
    ensures var c := b.(ops := ReplaceRow(b.ops, updated));
            && CatalogueSound(c) && RowsSound(c) && TransfersAtomic(c)
            && forall a: Id | a != current.account && a != updated.account :: History(c.ops, a) == History(b.ops, a)
  {
    var rest := WithoutRow(b.ops, updated.id);
    var c := b.(ops := ReplaceRow(b.ops, updated));
    ReplaceRowMembers(b.ops, updated);
    forall op | op in b.ops && op.id == updated.id ensures op == current {
    }
    forall op | op in c.ops ensures RowSound(c, op) {
      assert RowSound(b, op);
    }
    forall a: Id | a != current.account && a != updated.account ensures History(c.ops, a) == History(b.ops, a) {
      HistoryOfFilter(b.ops, OtherThan(updated.id), a);
      HistoryOfInsert(rest, updated, a);
    }
    forall t: Id ensures TransferRows(c.ops, t) == TransferRows(b.ops, t) {
      PlainFilterKeepsPairs(b.ops, OtherThan(updated.id), t);
      TransferRowsOfInsert(rest, updated, t);
    }
  }

  /** An accepted edit: a plain row rewritten by one that is sound beside the links it carries. */
  lemma UpdateIsReplacement(b: Book, id: Id, input: OperationInput)
    requires BookSound(b) && UpdateOperationIn(b, id, input).Ok?
    ensures CurrentEditable(b, id).Ok?
    ensures var current := CurrentEditable(b, id).value;
            var updated := Stored(Draft(input, RowStamp(id, current.createdAt)));
            && current in b.ops && current.id == id && current.transfer.None? && updated.transfer.None?
            && RowSound(b, updated) && LinksJudgement(b, updated).None?
            && Commit(b.(ops := ReplaceRow(b.ops, updated)), [input.account, current.account]) == UpdateOperationIn(b, id, input)
  {
    var current := CurrentEditable(b, id).value;
    JudgedRowSound(b, Draft(input, RowStamp(id, current.createdAt)));
    LinksJudgementOfStored(b, Draft(input, RowStamp(id, current.createdAt)));
  }

  lemma UpdateOperationSound(b: Book, id: Id, input: OperationInput)
    requires BookSound(b) && UpdateOperationIn(b, id, input).Ok?
    ensures BookSound(UpdateOperationIn(b, id, input).value)
  {
    var current := CurrentEditable(b, id).value;
    var updated := Stored(Draft(input, RowStamp(id, current.createdAt)));
    var c := b.(ops := ReplaceRow(b.ops, updated));
    UpdateIsReplacement(b, id, input);
    ReplacePlainRow(b, current, updated);
    EditSound(b, updated);
    CommitKeepsHistories(b, c, [input.account, current.account]);
  }

  /** The link check does not look at the position. */
  lemma LinksJudgementOfStored(b: Book, op: Operation)
    ensures LinksJudgement(b, Stored(op)) == LinksJudgement(b, op)
  {
    MisfitsOfStored(b, op, Filter(b.links, LinksOn(OfOperation(op.id))));
  }

  lemma {:induction false} MisfitsOfStored(b: Book, op: Operation, links: seq<Link>)
    ensures FirstMisfit(b, Stored(op), links) == FirstMisfit(b, op, links)
  {
    if links != [] {
      MisfitsOfStored(b, op, links[..|links| - 1]);
    }
  }

  /** Dropping some rows keeps what is said of each remaining row. */
  lemma FilterKeepsRows(b: Book, keep: Operation -> bool)
    requires CatalogueSound(b) && RowsSound(b)
    ensures CatalogueSound(b.(ops := Filter(b.ops, keep))) && RowsSound(b.(ops := Filter(b.ops, keep)))
  {
    var c := b.(ops := Filter(b.ops, keep));
    FilterMembers(b.ops, keep);
    assert CatalogueSound(c);
    forall op | op in c.ops ensures RowSound(c, op) {
      assert RowSound(b, op);
    }
  }

  lemma DeleteOperationSound(b: Book, id: Id)
    requires BookSound(b) && DeleteOperationIn(b, id).Ok?
    ensures BookSound(DeleteOperationIn(b, id).value)
  {
    var current := CurrentEditable(b, id).value;
    var c := b.(ops := WithoutRow(b.ops, id));
    forall op | op in b.ops && op.id == id ensures op == current {
    }
    FilterKeepsRows(b, OtherThan(id));
    DropRowSound(b, id);
    forall a: Id | a !in [current.account] ensures History(c.ops, a) == History(b.ops, a) {
      assert current.account in [current.account];
      HistoryOfFilter(b.ops, OtherThan(id), a);
    }
    forall t: Id ensures TransferRows(c.ops, t) == TransferRows(b.ops, t) {
      PlainFilterKeepsPairs(b.ops, OtherThan(id), t);
    }
    CommitKeepsHistories(b, c, [current.account]);
  }

  // ---- creating and deleting transfers ----

  /** The two rows a transfer writes. */
  lemma TransferRowsAreAPair(b: Book, move: TransferInput, held: Holding, transfer: Id, outId: Id, inId: Id, at: Instant)
    requires CatalogueSound(b) && TransferJudgement(b, move).None? && Sound(held)
    ensures var out := TransferRow(b, move, held, TransferOut, transfer, outId, at);
            var into := TransferRow(b, move, held, TransferIn, transfer, inId, at);
            PairOf(b, out, into) && RowSound(b, out) && RowSound(b, into) && out.amount >= 0.0
  {
    CostOfNonNegative(held, move.quantity);
  }

  /** Two new halves make one new pair and disturb no other. */
  lemma PairInserted(b: Book, out: Operation, into: Operation, transfer: Id)
    requires TransfersAtomic(b) && PairOf(b, out, into)
    requires out.transfer == Some(transfer) == into.transfer && TransferRows(b.ops, transfer) == []
    ensures TransfersAtomic(b.(ops := InsertRow(InsertRow(b.ops, out), into)))
  {
    var c := b.(ops := InsertRow(InsertRow(b.ops, out), into));
    forall t: Id ensures TransferRows(c.ops, t) == [] || IsPair(c, TransferRows(c.ops, t)) {
      TransferRowsOfInsert(b.ops, out, t);
      TransferRowsOfInsert(InsertRow(b.ops, out), into, t);
      assert TransferRows(b.ops, t) == [] || IsPair(b, TransferRows(b.ops, t));
    }
  }

  /** Two new halves leave all else sound, and the other accounts' histories alone. */
  lemma PairAdded(b: Book, out: Operation, into: Operation, transfer: Id)
    requires BookSound(b) && PairOf(b, out, into) && RowSound(b, out) && RowSound(b, into)
    requires out.transfer == Some(transfer) == into.transfer && TransferRows(b.ops, transfer) == []
    requires FreshRow(b, out.id) && FreshRow(b, into.id) && out.id != into.id && out.amount >= 0.0 && into.amount >= 0.0
    ensures var d := b.(ops := InsertRow(InsertRow(b.ops, out), into));
            && CatalogueSound(d) && RowsSound(d) && TransfersAtomic(d) && LinksSound(d)
            && forall a: Id | a !in [out.account, into.account] :: History(d.ops, a) == History(b.ops, a)
  {
    var c := b.(ops := InsertRow(b.ops, out));
    var d := b.(ops := InsertRow(c.ops, into));
    InsertRowOrdered(b.ops, out);
    AddRowSound(b, out);
    InsertRowOrdered(c.ops, into);
    AddRowSound(c, into);
    PairInserted(b, out, into, transfer);
    TwoRowsSound(b, out, into, d);
    forall a: Id | a !in [out.account, into.account] ensures History(d.ops, a) == History(b.ops, a) {
      assert [out.account, into.account][0] == out.account && [out.account, into.account][1] == into.account;
      HistoryOfInsert(b.ops, out, a);
      HistoryOfInsert(c.ops, into, a);
    }
  }

  lemma CreateTransferSound(b: Book, move: TransferInput, transfer: Id, outId: Id, inId: Id, at: Instant)
    requires BookSound(b) && FreshFor(b, CreateTransfer(move, transfer, outId, inId, at))
    requires CreateTransferIn(b, move, transfer, outId, inId, at).Ok?
    ensures BookSound(CreateTransferIn(b, move, transfer, outId, inId, at).value)
  {
    var held := SourceOn(b, move).value;
    var past := History(Through(b.ops, move.occurredOn), b.positions[move.source].account);
    ReplayedHoldingsSound(past, move.source);
    var out := TransferRow(b, move, held, TransferOut, transfer, outId, at);
    var into := TransferRow(b, move, held, TransferIn, transfer, inId, at);
    TransferRowsAreAPair(b, move, held, transfer, outId, inId, at);
    PairAdded(b, out, into, transfer);
    CommitKeepsHistories(b, b.(ops := InsertRow(InsertRow(b.ops, out), into)), [out.account, into.account]);
  }

  lemma TwoRowsSound(b: Book, x: Operation, y: Operation, c: Book)
    requires CatalogueSound(b) && RowsSound(b) && RowSound(b, x) && RowSound(b, y)
    requires c == b.(ops := c.ops) && forall op | op in c.ops :: op == x || op == y || op in b.ops
    ensures CatalogueSound(c) && RowsSound(c)
  {
    assert CatalogueSound(c);
    forall op | op in c.ops ensures RowSound(c, op) {
      assert RowSound(b, op);
    }
  }

  lemma DropTransferSound(b: Book, transfer: Id)
    requires LinksSound(b) && RowsSound(b)
    ensures LinksSound(b.(ops := Filter(b.ops, NotInTransfer(transfer))))
  {
    var c := b.(ops := Filter(b.ops, NotInTransfer(transfer)));
    FilterMembers(b.ops, NotInTransfer(transfer));
    FilterOrdered(b.ops, NotInTransfer(transfer));
    forall l | l in c.links ensures LinkSound(c, l) {
      assert LinkSound(b, l);
      var op :| op in b.ops && Fits(b, op, l);
      if op.transfer.Some? {
      }
      assert op in c.ops && Fits(c, op, l);
    }
    forall line: Id | LineValue(c, line).Ok? ensures Allocated(c.links, OfLine(line)) <= Abs(LineValue(c, line).value) {
      assert LineValue(b, line) == LineValue(c, line);
    }
  }

  lemma DeleteTransferSound(b: Book, transfer: Id)
    requires BookSound(b) && DeleteTransferIn(b, transfer).Ok?
    ensures BookSound(DeleteTransferIn(b, transfer).value)
  {
    var keep, rows := NotInTransfer(transfer), TransferRows(b.ops, transfer);
    var c := b.(ops := Filter(b.ops, keep));
    FilterKeepsRows(b, keep);
    DropTransferSound(b, transfer);
    forall a: Id | a !in [rows[0].account, rows[1].account] ensures History(c.ops, a) == History(b.ops, a) {
      assert [rows[0].account, rows[1].account][0] == rows[0].account && [rows[0].account, rows[1].account][1] == rows[1].account;
      forall op | op in b.ops && op.account == a ensures keep(op) {
        FilterMember(b.ops, InTransfer(transfer), op);
      }
      HistoryOfFilter(b.ops, keep, a);
    }
    forall t: Id ensures TransferRows(c.ops, t) == [] || IsPair(c, TransferRows(c.ops, t)) {
      RemainingPairs(b, transfer, t);
    }
    CommitKeepsHistories(b, c, [rows[0].account, rows[1].account]);
  }

  lemma RemainingPairs(b: Book, transfer: Id, t: Id)
    requires TransfersAtomic(b)
    ensures var c := b.(ops := Filter(b.ops, NotInTransfer(transfer)));
            TransferRows(c.ops, t) == [] || IsPair(c, TransferRows(c.ops, t))
  {
    var keep := NotInTransfer(transfer);
    if t == transfer {
      FilterMembers(b.ops, keep);
      FilterNone(Filter(b.ops, keep), InTransfer(t));
    } else {
      PlainFilterKeepsPairs(b.ops, keep, t);
      assert TransferRows(b.ops, t) == [] || IsPair(b, TransferRows(b.ops, t));
    }
  }

  // ---- creating positions ----

  lemma NewPositionKeepsPairs(b: Book, position: Id, row: PositionRow)
    requires TransfersAtomic(b) && position !in b.positions
    ensures TransfersAtomic(b.(positions := b.positions[position := row]))
  {
    var c := b.(positions := b.positions[position := row]);
    forall t: Id ensures TransferRows(c.ops, t) == [] || IsPair(c, TransferRows(c.ops, t)) {
      assert TransferRows(b.ops, t) == [] || IsPair(b, TransferRows(b.ops, t));
    }
  }

  lemma NewPositionKeepsRows(b: Book, position: Id, row: PositionRow)
    requires CatalogueSound(b) && RowsSound(b) && position !in b.positions && position != EMPTY && IsManual(b, row.account)
    ensures CatalogueSound(b.(positions := b.positions[position := row]))
    ensures RowsSound(b.(positions := b.positions[position := row]))
  {
    var c := b.(positions := b.positions[position := row]);
    forall op | op in c.ops ensures RowSound(c, op) {
      assert RowSound(b, op);
    }
  }

  lemma NewPositionKeeps(b: Book, position: Id, row: PositionRow)
    requires BookSound(b) && position !in b.positions && position != EMPTY && IsManual(b, row.account)
    ensures BookSound(b.(positions := b.positions[position := row]))
  {
    var c := b.(positions := b.positions[position := row]);
    NewPositionKeepsRows(b, position, row);
    NewPositionKeepsPairs(b, position, row);
    CatalogueDoesNotMatter(b, c);
    forall a | IsManual(c, a) ensures Admissible(History(c.ops, a)) {
      assert IsManual(b, a);
    }
  }

  lemma CreatePositionSound(b: Book, input: PositionInput, position: Id, row: RowStamp, today: Day)
    requires BookSound(b) && FreshFor(b, CreatePosition(input, position, row, today))
    requires CreatePositionIn(b, input, position, row, today).Ok?
    ensures BookSound(CreatePositionIn(b, input, position, row, today).value)
  {
    var c := b.(positions := b.positions[position := PositionRow(input.account, input.asset)]);
    NewPositionKeeps(b, position, PositionRow(input.account, input.asset));
    var opening := OpeningHolding(input);
    if opening.quantity > 0.0 && opening.total > 0.0 {
      var op := OpeningRow(input, position, row, today);
      var d := c.(ops := InsertRow(c.ops, op));
      InsertRowOrdered(c.ops, op);
      AddRowSound(c, op);
      PlainInsertKeepsPairs(c, op);
      TwoRowsSound(c, op, op, d);
      forall a: Id | a !in [input.account] ensures History(d.ops, a) == History(c.ops, a) {
        assert input.account in [input.account];
        HistoryOfInsert(c.ops, op, a);
      }
      CommitKeepsHistories(c, d, [input.account]);
    }
  }
}
