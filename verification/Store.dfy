/** The database the mutations run against: its tables as fields, each request a transaction that
    writes step by step and puts the tables back when it is refused. Queries are the functions of
    the tables; the loops are the program's own. */
module Store {
  import opened Wrappers
  import opened Decimals
  import opened Sequences
  import opened Domain
  import opened Ledger
  import opened Tables
  import opened Reconciliation
  import opened LinkInvariants
  import opened BulkUnlink
  import opened Mutations
  import opened BookInvariants
  import opened Runs

  /** The outcome of a request: committed, with its book, or refused, with nothing changed. */
  predicate Outcome(before: Book, request: Request, r: Option<Error>, after: Book)
    requires WellTyped(request)
  {
    match Perform(before, request)
    case Ok(c) => r == None && after == c
    case Err(e) => r == Some(e) && after == before
  }

  /** Whatever a method of the database answers, a sound book stays sound, and a refusal leaves it
      as it was. */
  lemma OutcomeKeepsSound(before: Book, request: Request, r: Option<Error>, after: Book)
    requires BookSound(before) && FreshFor(before, request) && Outcome(before, request, r, after)
    ensures BookSound(after) && (r.Some? ==> after == before)
    ensures PivotsSound(before) ==> (PivotsSound(after) <==> !BreaksPivot(before, request))
  {
    NextKeepsBookSound(before, request);
    if PivotsSound(before) {
      NextKeepsPivotsExactly(before, request);
    }
  }

  class Database {
    var custodies: map<Id, Id>
    var accounts: map<Id, AccountRow>
    var positions: map<Id, PositionRow>
    var syncedHoldings: set<Id>
    var lines: map<Id, BankLine>
    var movements: map<Id, Movement>
    var ops: seq<Operation>
    var links: seq<Link>

    function Contents(): Book
      reads this
    {
      Book(custodies, accounts, positions, syncedHoldings, lines, movements, ops, links)
    }

    constructor (b: Book)
      ensures Contents() == b
    {
      custodies, accounts, positions, syncedHoldings := b.custodies, b.accounts, b.positions, b.syncedHoldings;
      lines, movements, ops, links := b.lines, b.movements, b.ops, b.links;
    }

    // ---- the replay as judge ----

    method ReplayAccount(account: Id) returns (r: Option<Error>)
      ensures r == ReplayJudgement(Contents(), account)
    {
      if account !in accounts {
        return Some(AccountNotFound);
      }
      if accounts[account].kind.IntegratedAccount? {
        return None;
      }
      var replayed := ReplayRows(History(ops, account));
      r := if replayed.Err? then Some(replayed.error) else None;
    }

    /** Each touched account is replayed once. */
    method ReplayTouched(touched: seq<Id>) returns (r: Option<Error>)
      ensures r == FirstFailure(Contents(), touched)
    {
      var replayed: set<Id> := {};
      var i := 0;
      while i < |touched|
        invariant 0 <= i <= |touched|
        invariant FirstFailure(Contents(), touched[..i]).None?
        invariant forall a | a in replayed :: ReplayJudgement(Contents(), a).None?
      {
        assert touched[..i + 1][..i] == touched[..i];
        if touched[i] !in replayed {
          replayed := replayed + {touched[i]};
          r := ReplayAccount(touched[i]);
          if r.Some? {
            FailureStands(Contents(), touched, i + 1);
            return;
          }
        }
        i := i + 1;
      }
      assert touched[..i] == touched;
      r := None;
    }

    // ---- reconciliations ----

    /** Adding up the links on a column, row by row. */
    method SumReconciliations(column: Column) returns (total: real)
      ensures total == Allocated(links, column)
    {
      total := 0.0;
      var i := 0;
      while i < |links|
        invariant 0 <= i <= |links|
        invariant total == Allocated(links[..i], column)
      {
        SumTake(links, i, Parcel(column));
        if OnColumn(links[i], column) {
          total := total + links[i].amount;
        }
        i := i + 1;
      }
      assert links[..i] == links;
    }

    /** An edited operation against the links it already carries. */
    method ValidateOperationLinks(op: Operation) returns (r: Option<Error>)
      ensures r == LinksJudgement(Contents(), op)
    {
      var own := Filter(links, LinksOn(OfOperation(op.id)));
      if own == [] {
        return None;
      }
      if !ReconcilableKind(op.kind) {
        return Some(InvalidReconciliationLink);
      }
      var total := 0.0;
      var i := 0;
      while i < |own|
        invariant 0 <= i <= |own|
        invariant FirstMisfit(Contents(), op, own[..i]).None?
        invariant total == Sum(own[..i], LinkAmount)
      {
        assert own[..i + 1][..i] == own[..i];
        total := total + own[i].amount;
        r := Misfit(Contents(), op, own[i]);
        if r.Some? {
          MisfitStands(Contents(), op, own, i + 1);
          return;
        }
        i := i + 1;
      }
      assert own[..i] == own;
      OwnLinksTotal(links, op.id);
      r := if total > op.amount then Some(ReconciliationConflict) else None;
    }

    /** Every source with imported holdings gets its integrated account; the statement inserts, it
        never rewrites. */
    method EnsureIntegratedAccounts()
      modifies this`accounts
      ensures Contents() == WithCustodies(old(Contents()))
    {
      accounts := MissingCustodies(Contents()) + accounts;
    }

    /** The movement's pivot, inserted with its account when the movement has none yet. */
    method EnsureSyncedPivot(movement: Id, stamp: LinkStamp) returns (r: Result<(Id, bool), Error>)
      modifies this`accounts, this`ops
      ensures match EnsurePivot(old(Contents()), movement, stamp)
              case Ok(p) => r == Ok((p.operation, p.reused)) && Contents() == p.book
              case Err(e) => r == Err(e) && Contents() == old(Contents())
    {
      var found := PivotOf(Contents(), movement);
      if found.Some? {
        return Ok((found.value.id, true));
      }
      if movement !in movements || !Pivotable(movements[movement]) {
        return Err(InvalidReconciliationLink);
      }
      EnsureIntegratedAccounts();
      ops := InsertRow(ops, PivotRow(movements[movement], stamp));
      r := Ok((stamp.pivot, false));
    }

    /** The parcel's own checks and its row. */
    method InsertParcel(operation: Id, line: Option<Id>, movement: Option<Id>, amount: real, stamp: LinkStamp)
      returns (r: Option<Error>)
      modifies this`links
      ensures match AddParcel(old(Contents()), operation, line, movement, amount, stamp)
              case Ok(c) => r == None && Contents() == c
              case Err(e) => r == Some(e) && Contents() == old(Contents())
    {
      var row := FindRow(ops, operation);
      if row.None? {
        return Some(OperationNotFound);
      }
      if !ReconcilableKind(row.value.kind) {
        return Some(InvalidReconciliationLink);
      }
      if AlreadyPaired(links, operation, line, movement) {
        return Some(ReconciliationDuplicate);
      }
      var linked := SumReconciliations(OfOperation(operation));
      if linked + amount > row.value.amount {
        return Some(ReconciliationConflict);
      }
      if line.Some? {
        var value := LineValue(Contents(), line.value);
        if value.Err? {
          return Some(value.error);
        }
        if (value.value < 0.0) != BankOutflowKind(row.value.kind) {
          return Some(InvalidReconciliationLink);
        }
        var spent := SumReconciliations(OfLine(line.value));
        if spent + amount > Abs(value.value) {
          return Some(ReconciliationConflict);
        }
      }
      if movement.Some? {
        var value := MovementValue(Contents(), row.value, movement.value);
        if value.Err? {
          return Some(value.error);
        }
        var spent := SumReconciliations(OfMovement(movement.value));
        if spent + amount > value.value {
          return Some(ReconciliationConflict);
        }
      }
      links := InsertLink(links, Link(stamp.link, operation, line, movement, amount, stamp.linkedAt));
      r := None;
    }

    /** Inside a transaction: a refusal may leave a new pivot behind for the rollback. */
    method LinkInTransaction(input: LinkInput, stamp: LinkStamp) returns (r: Option<Error>)
      modifies this`accounts, this`ops, this`links
      ensures match CreateLink(old(Contents()), input, stamp)
              case Ok(c) => r == None && Contents() == c
              case Err(e) => r == Some(e)
    {
      var line, movement := Trimmed(input.line), Trimmed(input.movement);
      if input.amount <= 0.0 {
        return Some(InvalidInput);
      }
      if line.None? && movement.None? {
        return Some(InvalidReconciliationLink);
      }
      var operation := input.operation;
      if operation == EMPTY {
        if movement.None? {
          return Some(InvalidReconciliationLink);
        }
        var pivot := EnsureSyncedPivot(movement.value, stamp);
        if pivot.Err? {
          return Some(pivot.error);
        }
        operation := pivot.value.0;
        if pivot.value.1 {
          if line.None? {
            return Some(ReconciliationDuplicate);
          }
          movement := None;
        }
      }
      r := InsertParcel(operation, line, movement, input.amount, stamp);
    }

    method CreateReconciliation(input: LinkInput, stamp: LinkStamp) returns (r: Option<Error>)
      modifies this`accounts, this`ops, this`links
      ensures Outcome(old(Contents()), Request.CreateReconciliation(input, stamp), r, Contents())
    {
      ghost var before := Contents();
      var savedAccounts, savedOps, savedLinks := accounts, ops, links;
      r := LinkInTransaction(input, stamp);
      if r.Some? {
        accounts, ops, links := savedAccounts, savedOps, savedLinks;
        assert Contents() == before;
      }
      assert Perform(before, Request.CreateReconciliation(input, stamp)) == CreateLink(before, input, stamp);
    }

    method KeepPivotReachable(gone: Link)
      modifies this`links
      ensures links == HandOff(old(links), ops, gone)
    {
      if gone.movement.None? {
        return;
      }
      var k := OldestPlain(links, gone.operation);
      if IsSyncedRow(ops, gone.operation) && k < |links| {
        links := links[k := links[k].(movement := gone.movement)];
      }
    }

    method RemoveLinkRow(link: Link)
      modifies this`ops, this`links
      ensures Contents() == RemoveLink(old(Contents()), link)
    {
      links := WithoutLink(links, link.id);
      KeepPivotReachable(link);
      if IsSyncedRow(ops, link.operation) && !(exists l | l in links :: l.operation == link.operation) {
        ops := WithoutRow(ops, link.operation);
      }
    }

    method DeleteReconciliation(id: Id) returns (r: Option<Error>)
      modifies this`ops, this`links
      ensures Outcome(old(Contents()), Request.DeleteReconciliation(id), r, Contents())
    {
      var link := FindLink(links, id);
      if link.None? {
        return Some(ReconciliationNotFound);
      }
      RemoveLinkRow(link.value);
      r := None;
    }

    /** Every link of a bank line goes, in the order of one reading. */
    method UnlinkTransactionIfPresent(line: Id)
      modifies this`ops, this`links
      ensures Contents() == UnlinkLine(old(Contents()), line)
      ensures LinksSound(old(Contents())) ==> LinksSound(Contents()) && forall l | l in links :: l.line != Some(line)
      ensures LinksSound(old(Contents())) && PivotsSound(old(Contents())) ==> PivotsSound(Contents())
    {
      ghost var before := Contents();
      var read := Filter(links, LinksOn(OfLine(line)));
      var i := 0;
      while i < |read|
        invariant 0 <= i <= |read|
        invariant Contents() == RemoveAsRead(before, read[..i])
      {
        RemoveAsReadPush(before, read, i + 1);
        RemoveLinkRow(read[i]);
        i := i + 1;
      }
      assert read[..i] == read;
      if LinksSound(before) {
        UnlinkLineSound(before, line);
      }
    }

    method IgnoreTransaction(line: Id) returns (r: Option<Error>)
      modifies this`lines, this`ops, this`links
      ensures Outcome(old(Contents()), Request.IgnoreTransaction(line), r, Contents())
    {
      if line !in lines {
        return Some(TransactionNotFound);
      }
      if !lines[line].ignored {
        lines := lines[line := lines[line].(ignored := true)];
        UnlinkTransactionIfPresent(line);
      }
      r := None;
    }

    method ConsiderTransaction(line: Id) returns (r: Option<Error>)
      modifies this`lines
      ensures Outcome(old(Contents()), Request.ConsiderTransaction(line), r, Contents())
    {
      if line !in lines {
        return Some(TransactionNotFound);
      }
      lines := lines[line := lines[line].(ignored := false)];
      r := None;
    }

    // ---- operations ----

    /** One row of a batch: judged against the tables as they stand, then inserted. */
    method InsertRowJudged(op: Operation) returns (r: Option<Error>)
      modifies this`ops
      ensures r == RowJudgement(old(Contents()), op)
      ensures Contents() == if r.Some? then old(Contents()) else old(Contents()).(ops := InsertRow(old(ops), Stored(op)))
    {
      r := RowJudgement(Contents(), op);
      if r.None? {
        ops := InsertRow(ops, Stored(op));
      }
    }

    /** Inserting a batch, row by row; a refusal part way is left to the rollback. */
    method InsertBatch(inputs: seq<OperationInput>, rows: seq<RowStamp>) returns (r: Option<Error>, touched: seq<Id>)
      requires |inputs| == |rows|
      modifies this`ops
      ensures match InsertInputs(old(Contents()), inputs, rows)
              case Ok(c) => r == None && Contents() == c && touched == Accounts(inputs)
              case Err(e) => r == Some(e)
    {
      touched := [];
      var i := 0;
      assert inputs[..0] == [] && rows[..0] == [];
      while i < |inputs|
        invariant 0 <= i <= |inputs|
        invariant Inserted(old(Contents()), inputs, rows, i, Contents())
        invariant touched == Accounts(inputs[..i])
      {
        InsertedStep(old(Contents()), inputs, rows, i, Contents());
        r := InsertRowJudged(Draft(inputs[i], rows[i]));
        if r.Some? {
          return;
        }
        AccountsPush(inputs, i);
        touched := touched + [inputs[i].account];
        i := i + 1;
      }
      assert inputs[..i] == inputs && rows[..i] == rows;
      r := None;
    }

    method CreateOperations(inputs: seq<OperationInput>, link: Option<LinkInput>, rows: seq<RowStamp>, stamp: LinkStamp)
      returns (r: Option<Error>)
      requires |inputs| == |rows|
      modifies this`accounts, this`ops, this`links
      ensures Outcome(old(Contents()), Request.CreateOperations(inputs, link, rows, stamp), r, Contents())
    {
      if |inputs| == 0 || |inputs| > 100 {
        return Some(InvalidInput);
      }
      var savedAccounts, savedOps, savedLinks := accounts, ops, links;
      var touched;
      r, touched := InsertBatch(inputs, rows);
      if r.None? && link.Some? {
        r := LinkInTransaction(link.value.(operation := rows[0].id), stamp);
      }
      if r.None? {
        r := ReplayTouched(touched);
      }
      if r.Some? {
        accounts, ops, links := savedAccounts, savedOps, savedLinks;
      }
    }

    method UpdateOperation(id: Id, input: OperationInput) returns (r: Option<Error>)
      modifies this`ops
      ensures Outcome(old(Contents()), Request.UpdateOperation(id, input), r, Contents())
    {
      if input.kind.UnknownKind? {
        return Some(InvalidInput);
      }
      var current := CurrentEditable(Contents(), id);
      if current.Err? {
        return Some(current.error);
      }
      var updated := Draft(input, RowStamp(id, current.value.createdAt));
      r := RowJudgement(Contents(), updated);
      if r.Some? {
        return;
      }
      r := ValidateOperationLinks(updated);
      if r.Some? {
        return;
      }
      var saved := ops;
      ops := ReplaceRow(ops, Stored(updated));
      r := ReplayTouched([input.account, current.value.account]);
      if r.Some? {
        ops := saved;
      }
    }

    method DeleteOperation(id: Id) returns (r: Option<Error>)
      modifies this`ops
      ensures Outcome(old(Contents()), Request.DeleteOperation(id), r, Contents())
    {
      var current := CurrentEditable(Contents(), id);
      if current.Err? {
        return Some(current.error);
      }
      if exists l | l in links :: l.operation == id {
        return Some(OperationHasReconciliations);
      }
      var saved := ops;
      ops := WithoutRow(ops, id);
      r := ReplayTouched([current.value.account]);
      if r.Some? {
        ops := saved;
      }
    }

    /** The source holding as the book stood on the transfer's own day. */
    method SourceHolding(move: TransferInput) returns (r: Result<Holding, Error>)
      requires move.source in positions
      ensures r == SourceOn(Contents(), move)
    {
      var past := ReplayRows(History(Through(ops, move.occurredOn), positions[move.source].account));
      if past.Err? {
        return Err(past.error);
      }
      var state := past.value.Position(move.source);
      r := Ok(state.View());
    }

    method CreateTransfer(move: TransferInput, transfer: Id, outId: Id, inId: Id, at: Instant) returns (r: Option<Error>)
      modifies this`ops
      ensures Outcome(old(Contents()), Request.CreateTransfer(move, transfer, outId, inId, at), r, Contents())
    {
      r := TransferJudgement(Contents(), move);
      if r.Some? {
        return;
      }
      var state := SourceHolding(move);
      if state.Err? {
        return Some(state.error);
      }
      var held := state.value;
      if held.quantity < move.quantity {
        return Some(NegativePosition);
      }
      var out := TransferRow(Contents(), move, held, TransferOut, transfer, outId, at);
      var into := TransferRow(Contents(), move, held, TransferIn, transfer, inId, at);
      var saved := ops;
      ops := InsertRow(ops, out);
      ops := InsertRow(ops, into);
      r := ReplayTouched([out.account, into.account]);
      if r.Some? {
        ops := saved;
      }
    }

    method DeleteTransfer(transfer: Id) returns (r: Option<Error>)
      modifies this`ops
      ensures Outcome(old(Contents()), Request.DeleteTransfer(transfer), r, Contents())
    {
      if transfer == EMPTY {
        return Some(InvalidInput);
      }
      var rows := TransferRows(ops, transfer);
      var touched: seq<Id> := [];
      var i := 0;
      while i < |rows|
        invariant 0 <= i <= |rows| && |touched| == i
        invariant forall j | 0 <= j < i :: touched[j] == rows[j].account
      {
        touched := touched + [rows[i].account];
        i := i + 1;
      }
      if |touched| != 2 {
        return Some(OperationNotFound);
      }
      var saved := ops;
      ops := Filter(ops, NotInTransfer(transfer));
      assert touched == [rows[0].account, rows[1].account];
      r := ReplayTouched(touched);
      if r.Some? {
        ops := saved;
      }
    }

    method CreatePosition(input: PositionInput, position: Id, row: RowStamp, today: Day) returns (r: Option<Error>)
      modifies this`positions, this`ops
      ensures Outcome(old(Contents()), Request.CreatePosition(input, position, row, today), r, Contents())
    {
      r := OpeningJudgement(Contents(), input);
      if r.Some? {
        return;
      }
      var savedPositions, savedOps := positions, ops;
      positions := positions[position := PositionRow(input.account, input.asset)];
      var opening := OpeningHolding(input);
      if opening.quantity > 0.0 && opening.total > 0.0 {
        ops := InsertRow(ops, OpeningRow(input, position, row, today));
        r := ReplayAccount(input.account);
        OneTouched(Contents(), input.account);
        if r.Some? {
          positions, ops := savedPositions, savedOps;
        }
      }
    }
  }

  // ---- what the loops rely on ----

  function LinkAmount(link: Link): real {
    link.amount
  }

  lemma {:induction false} FailureStands(b: Book, touched: seq<Id>, k: nat)
    requires k <= |touched| && FirstFailure(b, touched[..k]).Some?
    ensures FirstFailure(b, touched) == FirstFailure(b, touched[..k])
  {
    if k == |touched| {
      assert touched[..k] == touched;
    } else {
      var rest := touched[..|touched| - 1];
      assert rest[..k] == touched[..k];
      FailureStands(b, rest, k);
    }
  }

  lemma {:induction false} MisfitStands(b: Book, op: Operation, own: seq<Link>, k: nat)
    requires k <= |own| && FirstMisfit(b, op, own[..k]).Some?
    ensures FirstMisfit(b, op, own) == FirstMisfit(b, op, own[..k])
  {
    if k == |own| {
      assert own[..k] == own;
    } else {
      var rest := own[..|own| - 1];
      assert rest[..k] == own[..k];
      MisfitStands(b, op, rest, k);
    }
  }

  /** The amounts of an operation's own links are what its column adds up to. */
  lemma {:induction false} OwnLinksTotal(links: seq<Link>, operation: Id)
    ensures Sum(Filter(links, LinksOn(OfOperation(operation))), LinkAmount) == Allocated(links, OfOperation(operation))
  {
    if links != [] {
      var rest, last := links[..|links| - 1], links[|links| - 1];
      OwnLinksTotal(rest, operation);
      SumConcat(Filter(rest, LinksOn(OfOperation(operation))), [last], LinkAmount);
      SumOne(last, LinkAmount);
    }
  }

  lemma AccountsPush(inputs: seq<OperationInput>, i: nat)
    requires i < |inputs|
    ensures Accounts(inputs[..i + 1]) == Accounts(inputs[..i]) + [inputs[i].account]
  {
  }

  /** The first k inputs are in, with nothing refused so far. */
  predicate Inserted(b: Book, inputs: seq<OperationInput>, rows: seq<RowStamp>, k: nat, c: Book)
    requires |inputs| == |rows| && k <= |inputs|
  {
    InsertInputs(b, inputs[..k], rows[..k]) == Ok(c)
  }

  lemma InsertedStep(b: Book, inputs: seq<OperationInput>, rows: seq<RowStamp>, k: nat, c: Book)
    requires |inputs| == |rows| && k < |inputs| && Inserted(b, inputs, rows, k, c)
    ensures match RowJudgement(c, Draft(inputs[k], rows[k]))
            case Some(e) => InsertInputs(b, inputs, rows) == Err(e)
            case None => Inserted(b, inputs, rows, k + 1, c.(ops := InsertRow(c.ops, Stored(Draft(inputs[k], rows[k])))))
  {
    assert inputs[..k + 1][..k] == inputs[..k] && rows[..k + 1][..k] == rows[..k];
    if RowJudgement(c, Draft(inputs[k], rows[k])).Some? {
      InsertFailureStands(b, inputs, rows, k + 1);
    }
  }

  lemma {:induction false} InsertFailureStands(b: Book, inputs: seq<OperationInput>, rows: seq<RowStamp>, k: nat)
    requires |inputs| == |rows| && k <= |inputs| && InsertInputs(b, inputs[..k], rows[..k]).Err?
    ensures InsertInputs(b, inputs, rows) == InsertInputs(b, inputs[..k], rows[..k])
  {
    if k == |inputs| {
      assert inputs[..k] == inputs && rows[..k] == rows;
    } else {
      var n := |inputs| - 1;
      assert inputs[..n][..k] == inputs[..k] && rows[..n][..k] == rows[..k];
      InsertFailureStands(b, inputs[..n], rows[..n], k);
    }
  }
}
