/** Which requests about operations and positions commit: exactly those the book can take
    (internal/investments/operations.go, positions.go). */
module Accepted {
  import opened Wrappers
  import opened Domain
  import opened Acceptance
  import opened Tables
  import opened Reconciliation
  import opened LinkInvariants
  import opened LinkEffects
  import opened BulkUnlink
  import opened Mutations
  import opened BookInvariants
  import opened Committed
  import opened Retroactive
  import opened Openings

  // ---- the replay as judge ----

  /** An account is there and, unless it is integrated, its whole history stands. */
  ghost predicate Stands(b: Book, account: Id) {
    account in b.accounts && (b.accounts[account].kind.ManualAccount? ==> Admissible(History(b.ops, account)))
  }

  lemma JudgedExactly(b: Book, account: Id)
    ensures ReplayJudgement(b, account).None? <==> Stands(b, account)
  {
    ReplayAcceptsExactlyAdmissible(History(b.ops, account));
  }

  /** A write commits if and only if every account it touched stands with it. */
  lemma {:induction false} CommitsExactly(b: Book, touched: seq<Id>)
    ensures FirstFailure(b, touched).None? <==> forall a | a in touched :: Stands(b, a)
    ensures Commit(b, touched).Ok? <==> forall a | a in touched :: Stands(b, a)
    ensures Commit(b, touched).Ok? ==> Commit(b, touched).value == b
  {
    if touched != [] {
      var rest, last := touched[..|touched| - 1], touched[|touched| - 1];
      assert touched == rest + [last];
      CommitsExactly(b, rest);
      JudgedExactly(b, last);
    }
  }

  // ---- operations ----

  /** Everything about an input that does not depend on the account's history. */
  predicate Acceptable(b: Book, input: OperationInput) {
    AccountTakes(b, input) && Complete(input) && PositionFits(b, input)
  }

  predicate AllAcceptable(b: Book, inputs: seq<OperationInput>) {
    forall i | 0 <= i < |inputs| :: Acceptable(b, inputs[i])
  }

  lemma AllAcceptablePush(b: Book, inputs: seq<OperationInput>)
    requires inputs != []
    ensures AllAcceptable(b, inputs) <==> AllAcceptable(b, inputs[..|inputs| - 1]) && Acceptable(b, inputs[|inputs| - 1])
  {
    var rest := inputs[..|inputs| - 1];
    assert forall i | 0 <= i < |rest| :: rest[i] == inputs[i];
  }

  lemma OneMoreRow(b: Book, inputs: seq<OperationInput>, rows: seq<RowStamp>)
    requires |inputs| == |rows| > 0
    ensures var n := |inputs| - 1;
            InsertInputs(b, inputs, rows).Ok? <==> InsertInputs(b, inputs[..n], rows[..n]).Ok? && Acceptable(b, inputs[n])
  {
    var n := |inputs| - 1;
    if InsertInputs(b, inputs[..n], rows[..n]).Ok? {
      var c := InsertInputs(b, inputs[..n], rows[..n]).value;
      BatchGainsRows(b, inputs[..n], rows[..n]);
      RowAcceptedExactly(c, inputs[n], rows[n]);
      assert Acceptable(c, inputs[n]) == Acceptable(b, inputs[n]);
    }
  }

  lemma {:induction false} BatchRowsExactly(b: Book, inputs: seq<OperationInput>, rows: seq<RowStamp>)
    requires |inputs| == |rows|
    ensures InsertInputs(b, inputs, rows).Ok? <==> AllAcceptable(b, inputs)
  {
    if inputs != [] {
      var n := |inputs| - 1;
      BatchRowsExactly(b, inputs[..n], rows[..n]);
      OneMoreRow(b, inputs, rows);
      AllAcceptablePush(b, inputs);
    }
  }

  /** A batch commits if and only if it has one to a hundred inputs, each acceptable; the link asked
      for, if any, is accepted on the first of them; and every account it names stands with them. */
  lemma CreationCommitsExactly(b: Book, inputs: seq<OperationInput>, link: Option<LinkInput>, rows: seq<RowStamp>, stamp: LinkStamp)
    requires |inputs| == |rows| && FreshRows(b, rows)
    ensures CreateOperationsIn(b, inputs, link, rows, stamp).Ok? <==>
            && 1 <= |inputs| <= 100
            && AllAcceptable(b, inputs)
            && InsertInputs(b, inputs, rows).Ok?
            && var c := InsertInputs(b, inputs, rows).value;
               && (link.Some? ==> CreateLink(c, link.value.(operation := rows[0].id), stamp).Ok?)
               && forall i | 0 <= i < |inputs| :: Stands(c, inputs[i].account)
  {
    BatchRowsExactly(b, inputs, rows);
    if 1 <= |inputs| <= 100 && InsertInputs(b, inputs, rows).Ok? {
      var c := InsertInputs(b, inputs, rows).value;
      var linked := if link.None? then Ok(c) else CreateLink(c, link.value.(operation := rows[0].id), stamp);
      if linked.Ok? {
        if link.Some? {
          NamedLinkTouchesLinksOnly(c, link.value.(operation := rows[0].id), stamp);
        }
        CommitsExactly(linked.value, Accounts(inputs));
        AccountsStand(c, linked.value, inputs);
      }
    }
  }

  lemma AccountsStand(c: Book, d: Book, inputs: seq<OperationInput>)
    requires d.accounts == c.accounts && d.ops == c.ops
    ensures (forall a | a in Accounts(inputs) :: Stands(d, a)) <==> forall i | 0 <= i < |inputs| :: Stands(c, inputs[i].account)
  {
    forall i | 0 <= i < |inputs| ensures inputs[i].account in Accounts(inputs) {
      assert Accounts(inputs)[i] == inputs[i].account;
    }
    assert forall a: Id :: Stands(d, a) == Stands(c, a);
  }

  /** The manual row outside every transfer an id names. */
  predicate Editable(b: Book, id: Id, was: Operation) {
    was in b.ops && was.id == id && was.origin.Manual? && was.transfer.None?
  }

  lemma EditableIsFound(b: Book, id: Id)
    requires DistinctRows(b.ops)
    ensures CurrentEditable(b, id).Ok? <==> exists was :: Editable(b, id, was)
    ensures forall was | Editable(b, id, was) :: CurrentEditable(b, id) == Ok(was)
  {
    forall was | Editable(b, id, was) ensures CurrentEditable(b, id) == Ok(was) {
      FoundIsIt(b.ops, was);
    }
    assert CurrentEditable(b, id).Ok? ==> Editable(b, id, CurrentEditable(b, id).value);
  }

  /** An edit commits if and only if the new figures are acceptable, the links the operation carries
      allow them, and both the account it leaves and the account it joins stand with it. */
  lemma EditCommitsExactly(b: Book, id: Id, input: OperationInput, was: Operation, now: Operation)
    requires LinksSound(b) && Editable(b, id, was)
    requires now.id == id && now.createdAt == was.createdAt && AskedFor(now, input)
    ensures UpdateOperationIn(b, id, input).Ok? <==>
            && Acceptable(b, input) && LinksJudgement(b, now).None?
            && Stands(b.(ops := ReplaceRow(b.ops, now)), input.account)
            && Stands(b.(ops := ReplaceRow(b.ops, now)), was.account)
  {
    EditableIsFound(b, id);
    var draft := Draft(input, RowStamp(id, was.createdAt));
    assert Stored(draft) == now;
    RowAcceptedExactly(b, input, RowStamp(id, was.createdAt));
    LinksJudgementOfStored(b, draft);
    TwoTouched(b.(ops := ReplaceRow(b.ops, now)), input.account, was.account);
  }

  lemma TwoTouched(b: Book, x: Id, y: Id)
    ensures Commit(b, [x, y]).Ok? <==> Stands(b, x) && Stands(b, y)
  {
    CommitsExactly(b, [x, y]);
    assert [x, y][0] == x && [x, y][1] == y;
  }

  /** An edit of anything but a manual row outside every transfer is refused. */
  lemma OnlyManualRowsAreEdited(b: Book, id: Id, input: OperationInput)
    requires DistinctRows(b.ops) && forall was :: !Editable(b, id, was)
    ensures UpdateOperationIn(b, id, input).Err? && DeleteOperationIn(b, id).Err?
  {
    EditableIsFound(b, id);
  }

  /** A deletion commits if and only if nothing links the row and its account stands without it. */
  lemma DeletionCommitsExactly(b: Book, id: Id, was: Operation)
    requires DistinctRows(b.ops) && Editable(b, id, was)
    ensures DeleteOperationIn(b, id).Ok? <==>
            (forall l | l in b.links :: l.operation != id) && Stands(b.(ops := WithoutRow(b.ops, id)), was.account)
  {
    EditableIsFound(b, id);
    CommitsExactly(b.(ops := WithoutRow(b.ops, id)), [was.account]);
  }

  // ---- positions ----

  /** A position can be asked for: no negative figure, a stated quantity or unit cost with a worth,
      a manual account, and no position of that asset in it yet. */
  predicate Openable(b: Book, input: PositionInput) {
    && input.initialQuantity >= 0.0 && input.initialUnitCost >= 0.0
    && (input.initialValue.Some? ==> input.initialValue.value >= 0.0)
    && (input.initialQuantity > 0.0 || input.initialUnitCost > 0.0 ==> StatesOpening(input))
    && input.account in b.accounts && b.accounts[input.account].kind.ManualAccount?
    && forall p | p in b.positions :: !(b.positions[p].account == input.account && b.positions[p].asset == input.asset)
  }

  lemma OpenableExactly(b: Book, input: PositionInput)
    ensures OpeningJudgement(b, input).None? <==> Openable(b, input)
  {
    var o := OpeningHolding(input);
    assert o.quantity > 0.0 <==> StatesOpening(input);
  }

  /** Units of a new position never stand in the way of anything. */
  lemma OpeningReplays(b: Book, input: PositionInput, op: Operation)
    requires BookSound(b) && IsManual(b, input.account) && FreshRow(b, op.id)
    requires op.account == input.account && op.kind.InitialBalance? && WellFormed(op) && HasPosition(op)
    ensures Admissible(History(InsertRow(b.ops, op), input.account))
  {
    var h, s := History(b.ops, input.account), SlotInHistory(b.ops, op);
    SlotSplitsHistory(b.ops, op);
    assert Admissible(h);
    UnitsComeIn(h, s, op);
    forall k | s <= k <= |h| ensures Balance(h, k) >= 0.0 {
      assert Solvent(h[..k]);
    }
    SpliceExactly(h, s, op);
  }

  /** A position is created if and only if it can be asked for: its opening always replays. */
  lemma OpeningCommitsExactly(b: Book, input: PositionInput, position: Id, row: RowStamp, today: Day)
    requires BookSound(b) && FreshFor(b, CreatePosition(input, position, row, today)) && today != ZERO_DAY
    ensures CreatePositionIn(b, input, position, row, today).Ok? <==> Openable(b, input)
  {
    OpenableExactly(b, input);
    if Openable(b, input) && StatesOpening(input) {
      OpeningMeaning(input);
      OpeningRowOpens(input, position, row, today);
      var op := OpeningRow(input, position, row, today);
      OpeningReplays(b, input, op);
      OpeningTouches(b, input, position, op);
    }
  }

  lemma OpeningTouches(b: Book, input: PositionInput, position: Id, op: Operation)
    requires IsManual(b, input.account) && Admissible(History(InsertRow(b.ops, op), input.account))
    ensures Commit(b.(positions := b.positions[position := PositionRow(input.account, input.asset)], ops := InsertRow(b.ops, op)),
                   [input.account]).Ok?
  {
    CommitsExactly(b.(positions := b.positions[position := PositionRow(input.account, input.asset)], ops := InsertRow(b.ops, op)),
                   [input.account]);
  }
}
