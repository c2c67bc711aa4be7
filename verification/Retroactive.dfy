/** Backdated requests against the whole book: exactly when the mutation commits, read off the
    balances the account already has. */
module Retroactive {
  import opened Wrappers
  import opened Sequences
  import opened Domain
  import opened Ledger
  import opened Acceptance
  import opened Tables
  import opened Reconciliation
  import opened LinkInvariants
  import opened Mutations
  import opened BookInvariants

  predicate Outflow(kind: Kind) {
    kind.Withdrawal? || kind.Fee? || kind.Tax?
  }

  predicate Inflow(kind: Kind) {
    kind.Deposit? || kind.Income?
  }

  /** Where a new row falls in its account's history: after the rows that precede it in replay
      order, before the others. */
  function SlotInHistory(ops: seq<Operation>, op: Operation): nat {
    |History(ops[..Slot(ops, op)], op.account)|
  }

  lemma EarlierRows(ops: seq<Operation>, op: Operation, o: Operation)
    requires Ordered(ops) && forall x | x in ops :: x.id != op.id
    requires o in History(ops[..Slot(ops, op)], op.account)
    ensures Before(o, op)
  {
    var k := Slot(ops, op);
    FilterMember(ops[..k], InAccount(op.account), o);
    var i :| 0 <= i < k && ops[i] == o;
    assert o in ops && !Before(op, ops[i]);
  }

  lemma LaterRows(ops: seq<Operation>, op: Operation, o: Operation)
    requires Ordered(ops) && o in History(ops[Slot(ops, op)..], op.account)
    ensures Before(op, o)
  {
    var k := Slot(ops, op);
    FilterMember(ops[k..], InAccount(op.account), o);
    var i :| k <= i < |ops| && ops[i] == o;
    assert i > k ==> Before(ops[k], ops[i]);
  }

  /** An account's history is what it has before a new row's slot and what it has from there on. */
  lemma HistoryAtSlot(ops: seq<Operation>, op: Operation)
    ensures History(ops, op.account)
            == History(ops[..Slot(ops, op)], op.account) + History(ops[Slot(ops, op)..], op.account)
  {
    assert ops == ops[..Slot(ops, op)] + ops[Slot(ops, op)..];
    FilterConcat(ops[..Slot(ops, op)], ops[Slot(ops, op)..], InAccount(op.account));
  }

  lemma EarlierInHistory(ops: seq<Operation>, op: Operation, i: nat)
    requires Ordered(ops) && (forall o | o in ops :: o.id != op.id) && i < SlotInHistory(ops, op)
    ensures i < |History(ops, op.account)| && Before(History(ops, op.account)[i], op)
  {
    HistoryAtSlot(ops, op);
    EarlierRows(ops, op, History(ops[..Slot(ops, op)], op.account)[i]);
  }

  lemma LaterInHistory(ops: seq<Operation>, op: Operation, i: nat)
    requires Ordered(ops) && SlotInHistory(ops, op) <= i < |History(ops, op.account)|
    ensures Before(op, History(ops, op.account)[i])
  {
    HistoryAtSlot(ops, op);
    LaterRows(ops, op, History(ops[Slot(ops, op)..], op.account)[i - SlotInHistory(ops, op)]);
  }

  /** A new row enters its account's history after the rows that precede it in replay order and
      before the others. */
  lemma SlotSplitsHistory(ops: seq<Operation>, op: Operation)
    requires Ordered(ops) && forall o | o in ops :: o.id != op.id
    ensures var h, s := History(ops, op.account), SlotInHistory(ops, op);
            && s <= |h|
            && (forall i | 0 <= i < s :: Before(h[i], op))
            && (forall i | s <= i < |h| :: Before(op, h[i]))
            && History(InsertRow(ops, op), op.account) == Splice(h, s, op)
  {
    HistoryOfInsert(ops, op, op.account);
    forall i | 0 <= i < SlotInHistory(ops, op) ensures Before(History(ops, op.account)[i], op) {
      EarlierInHistory(ops, op, i);
    }
    forall i | SlotInHistory(ops, op) <= i < |History(ops, op.account)| ensures Before(op, History(ops, op.account)[i]) {
      LaterInHistory(ops, op, i);
    }
  }

  /** A single unlinked input commits exactly when it is complete and its account replays. */
  lemma SingleInput(b: Book, input: OperationInput, row: RowStamp, stamp: LinkStamp)
    requires IsManual(b, input.account)
    ensures var op := Draft(input, row);
            Perform(b, CreateOperations([input], None, [row], stamp)).Ok? <==>
            RowJudgement(b, op).None? && Replay(History(InsertRow(b.ops, Stored(op)), input.account)).Ok?
  {
    var op := Draft(input, row);
    assert [input][..0] == [] && [row][..0] == [];
    assert InsertInputs(b, [input][..0], [row][..0]) == Ok(b);
    if RowJudgement(b, op).None? {
      var c := b.(ops := InsertRow(b.ops, Stored(op)));
      assert InsertInputs(b, [input], [row]) == Ok(c);
      assert Accounts([input]) == [input.account];
      OneTouched(c, input.account);
    }
  }

  /** A single input that is complete in itself commits exactly when its row, spliced into its account's
      history, replays. */
  lemma BackdatedReplays(b: Book, input: OperationInput, row: RowStamp, stamp: LinkStamp)
    requires BookSound(b) && IsManual(b, input.account) && FreshRow(b, row.id) && RowJudgement(b, Draft(input, row)).None?
    ensures var op, h := Stored(Draft(input, row)), History(b.ops, input.account);
            && WellFormed(op) && Admissible(h) && SlotInHistory(b.ops, op) <= |h|
            && (Perform(b, CreateOperations([input], None, [row], stamp)).Ok? <==>
                Replay(Splice(h, SlotInHistory(b.ops, op), op)).Ok?)
  {
    SlotSplitsHistory(b.ops, Stored(Draft(input, row)));
    SingleInput(b, input, row, stamp);
  }

  /** It commits, whatever its kind and however far back it is dated, if and only if the account's own
      past and future take it. */
  lemma BackdatedExactly(b: Book, input: OperationInput, row: RowStamp, stamp: LinkStamp)
    requires BookSound(b) && IsManual(b, input.account) && FreshRow(b, row.id) && RowJudgement(b, Draft(input, row)).None?
    ensures var op, h := Stored(Draft(input, row)), History(b.ops, input.account);
            && SlotInHistory(b.ops, op) <= |h|
            && (Perform(b, CreateOperations([input], None, [row], stamp)).Ok? <==>
                Placed(h[..SlotInHistory(b.ops, op)], op) && Absorbs(h, SlotInHistory(b.ops, op), op))
  {
    var op, h := Stored(Draft(input, row)), History(b.ops, input.account);
    BackdatedReplays(b, input, row, stamp);
    SpliceExactly(h, SlotInHistory(b.ops, op), op);
    ReplayAcceptsExactlyAdmissible(Splice(h, SlotInHistory(b.ops, op), op));
  }

  /** A backdated withdrawal, fee or tax commits if and only if every balance the account had from
      that moment on, the one at that moment included, is at least its amount. */
  lemma BackdatedOutflow(b: Book, input: OperationInput, row: RowStamp, stamp: LinkStamp)
    requires BookSound(b) && IsManual(b, input.account) && FreshRow(b, row.id)
    requires Outflow(input.kind) && RowJudgement(b, Draft(input, row)).None?
    ensures var op, h := Stored(Draft(input, row)), History(b.ops, input.account);
            && SlotInHistory(b.ops, op) <= |h|
            && (Perform(b, CreateOperations([input], None, [row], stamp)).Ok? <==>
                forall k | SlotInHistory(b.ops, op) <= k <= |h| :: Balance(h, k) >= input.amount)
  {
    var op, h := Stored(Draft(input, row)), History(b.ops, input.account);
    BackdatedReplays(b, input, row, stamp);
    RetroactiveOutflow(h, SlotInHistory(b.ops, op), op);
  }

  /** A backdated deposit or income always commits. */
  lemma BackdatedInflow(b: Book, input: OperationInput, row: RowStamp, stamp: LinkStamp)
    requires BookSound(b) && IsManual(b, input.account) && FreshRow(b, row.id)
    requires Inflow(input.kind) && RowJudgement(b, Draft(input, row)).None?
    ensures Perform(b, CreateOperations([input], None, [row], stamp)).Ok?
  {
    var op, h := Stored(Draft(input, row)), History(b.ops, input.account);
    BackdatedReplays(b, input, row, stamp);
    RetroactiveInflow(h, SlotInHistory(b.ops, op), op);
  }

  /** A backdated sale commits if and only if from its moment on the units are there, every balance
      takes its net proceeds, and every valuation of the position keeps some units. */
  lemma BackdatedSale(b: Book, input: OperationInput, row: RowStamp, stamp: LinkStamp)
    requires BookSound(b) && IsManual(b, input.account) && FreshRow(b, row.id)
    requires input.kind.Sell? && RowJudgement(b, Draft(input, row)).None?
    ensures HasPosition(Draft(input, row)) && input.quantity.Some?
    ensures var op, h := Stored(Draft(input, row)), History(b.ops, input.account);
            && SlotInHistory(b.ops, op) <= |h|
            && (Perform(b, CreateOperations([input], None, [row], stamp)).Ok? <==>
                && (forall k | SlotInHistory(b.ops, op) <= k <= |h| ::
                      Balance(h, k) + (input.amount - input.fees - input.taxes) >= 0.0)
                && UnitsCanLeave(h, SlotInHistory(b.ops, op), input.position.value, input.quantity.value))
  {
    var op, h := Stored(Draft(input, row)), History(b.ops, input.account);
    BackdatedReplays(b, input, row, stamp);
    RetroactiveSale(h, SlotInHistory(b.ops, op), op);
  }

  /** A backdated purchase commits if and only if every balance from its moment on covers its cost. */
  lemma BackdatedPurchase(b: Book, input: OperationInput, row: RowStamp, stamp: LinkStamp)
    requires BookSound(b) && IsManual(b, input.account) && FreshRow(b, row.id)
    requires input.kind.Buy? && RowJudgement(b, Draft(input, row)).None?
    ensures var op, h := Stored(Draft(input, row)), History(b.ops, input.account);
            && SlotInHistory(b.ops, op) <= |h|
            && (Perform(b, CreateOperations([input], None, [row], stamp)).Ok? <==>
                forall k | SlotInHistory(b.ops, op) <= k <= |h| :: Balance(h, k) >= input.amount + input.fees + input.taxes)
  {
    var op, h := Stored(Draft(input, row)), History(b.ops, input.account);
    BackdatedReplays(b, input, row, stamp);
    RetroactivePurchase(h, SlotInHistory(b.ops, op), op);
  }

  // ---- deletions ----

  /** Taking one row out of its account's history. */
  lemma {:induction false} HistoryWithout(ops: seq<Operation>, op: Operation) returns (s: nat)
    requires DistinctRows(ops) && op in ops
    ensures s < |History(ops, op.account)| && History(ops, op.account)[s] == op
    ensures History(WithoutRow(ops, op.id), op.account) == Without(History(ops, op.account), s)
  {
    var k :| 0 <= k < |ops| && ops[k] == op;
    var early, late := ops[..k], ops[k + 1..];
    assert ops == early + [op] + late;
    RowSplit(ops, k);
    FilterConcat(early, late, InAccount(op.account));
    FilterSplice(early, op, late, InAccount(op.account));
    s := |History(early, op.account)|;
  }

  lemma RowSplit(ops: seq<Operation>, k: nat)
    requires DistinctRows(ops) && k < |ops|
    ensures WithoutRow(ops, ops[k].id) == ops[..k] + ops[k + 1..]
  {
    var early, op, late := ops[..k], ops[k], ops[k + 1..];
    var keep := OtherThan(op.id);
    forall i | 0 <= i < |ops| && i != k ensures keep(ops[i]) {
      assert i < k ==> DifferentRows(ops[i], ops[k]);
      assert k < i ==> DifferentRows(ops[k], ops[i]);
    }
    FilterAll(early, keep);
    FilterAll(late, keep);
    assert ops == early + [op] + late;
    FilterSplice(early, op, late, keep);
  }

  /** Deleting an unlinked manual operation commits if and only if every later moment of its account
      survives without it. */
  lemma DeletingExactly(b: Book, op: Operation) returns (s: nat)
    requires BookSound(b) && op in b.ops && op.origin.Manual? && op.transfer.None? && IsManual(b, op.account)
    requires forall l | l in b.links :: l.operation != op.id
    ensures s < |History(b.ops, op.account)| && History(b.ops, op.account)[s] == op
    ensures Perform(b, DeleteOperation(op.id)).Ok? <==> Survives(History(b.ops, op.account), s)
  {
    s := HistoryWithout(b.ops, op);
    assert Admissible(History(b.ops, op.account));
    RemovalExactly(History(b.ops, op.account), s);
    ReplayAcceptsExactlyAdmissible(Without(History(b.ops, op.account), s));
    DeleteCommits(b, op);
  }

  /** Deleting an unlinked manual operation that only moves cash: a withdrawal, fee or tax always
      goes; a deposit or income goes if and only if every later balance survives without it. */
  lemma DeletingCash(b: Book, op: Operation) returns (s: nat)
    requires BookSound(b) && op in b.ops && op.origin.Manual? && IsManual(b, op.account)
    requires (Outflow(op.kind) || Inflow(op.kind)) && forall l | l in b.links :: l.operation != op.id
    ensures s < |History(b.ops, op.account)| && History(b.ops, op.account)[s] == op
    ensures Outflow(op.kind) ==> Perform(b, DeleteOperation(op.id)).Ok?
    ensures Inflow(op.kind) ==>
              (Perform(b, DeleteOperation(op.id)).Ok? <==>
               forall k | s < k <= |History(b.ops, op.account)| :: Balance(History(b.ops, op.account), k) >= op.amount)
  {
    s := HistoryWithout(b.ops, op);
    assert Admissible(History(b.ops, op.account));
    RetroactiveRemoval(History(b.ops, op.account), s);
    assert RowSound(b, op);
    DeleteCommits(b, op);
  }

  lemma DeleteCommits(b: Book, op: Operation)
    requires BookSound(b) && op in b.ops && op.origin.Manual? && op.transfer.None? && IsManual(b, op.account)
    requires forall l | l in b.links :: l.operation != op.id
    ensures Perform(b, DeleteOperation(op.id)).Ok? <==> Replay(History(WithoutRow(b.ops, op.id), op.account)).Ok?
  {
    var c := b.(ops := WithoutRow(b.ops, op.id));
    OneTouched(c, op.account);
  }
}
