/** What each refusal means: an error is given only for the reason it names
    (internal/investments/ledger.go, operations.go, reconciliations.go). */
module Refusals {
  import opened Wrappers
  import opened Decimals
  import opened Domain
  import opened Ledger
  import opened Acceptance
  import opened Tables
  import opened Reconciliation
  import opened LinkEffects
  import opened Mutations
  import opened Committed

  // ---- the replay ----

  /** Why a row cannot follow the rows before it. */
  ghost predicate Explains(e: Error, before: seq<Operation>, op: Operation) {
    match e
    case NegativePosition => op.kind in {Sell, TransferOut} && HasPosition(op) && PositionUnits(before, op.position.value) < Units(op)
    case NegativeCash => WellFormed(op) && Cash(before + [op]) < 0.0
    case InvalidInput => !WellFormed(op) || (op.kind.Valuation? && PositionUnits(before, op.position.value) <= 0.0)
    case _ => false
  }

  lemma StepExplained(before: seq<Operation>, op: Operation)
    requires Admissible(before) && Replay(before).Ok? && Apply(Replay(before).value, op).Err?
    ensures Explains(Apply(Replay(before).value, op).error, before, op)
  {
    ReplayAcceptsExactlyAdmissible(before);
    CashPush(before, op);
  }

  /** A history that does not replay has a first row that cannot stand, and the error is its reason. */
  lemma {:induction false} ReplayRefusal(history: seq<Operation>) returns (k: nat)
    requires Replay(history).Err?
    ensures k < |history| && Admissible(history[..k]) && Explains(Replay(history).error, history[..k], history[k])
  {
    var rest, last := history[..|history| - 1], history[|history| - 1];
    if Replay(rest).Err? {
      k := ReplayRefusal(rest);
      assert rest[..k] == history[..k];
    } else {
      k := |rest|;
      ReplayAcceptsExactlyAdmissible(rest);
      StepExplained(rest, last);
    }
  }

  // ---- rows ----

  /** Why an input is not accepted for insertion. */
  ghost predicate RowRefused(b: Book, input: OperationInput, e: Error) {
    match e
    case AccountNotFound => input.account !in b.accounts
    case IntegratedReadOnly =>
      input.account in b.accounts && b.accounts[input.account].kind.IntegratedAccount?
      && (input.kind !in {Deposit, Withdrawal, Income, Fee, Tax} || input.position.Some?)
    case NotManual =>
      input.position.Some? && input.position.value !in b.positions && input.position.value in b.syncedHoldings
    case InvalidInput => !Complete(input) || (input.position.Some? && !PositionFits(b, input))
    case _ => false
  }

  lemma RowRefusal(b: Book, input: OperationInput, stamp: RowStamp)
    requires RowJudgement(b, Draft(input, stamp)).Some?
    ensures RowRefused(b, input, RowJudgement(b, Draft(input, stamp)).value)
  {
  }

  /** Why a row cannot be edited or deleted at all. */
  lemma EditRefusal(b: Book, id: Id)
    requires CurrentEditable(b, id).Err?
    ensures match CurrentEditable(b, id).error
            case OperationNotFound => forall op | op in b.ops :: op.id != id
            case TransferAtomic => exists op | op in b.ops :: op.id == id && op.transfer.Some?
            case NotManual => exists op | op in b.ops :: op.id == id && op.transfer.None? && op.origin.Synced?
            case _ => false
  {
  }

  /** Why a transfer is not considered. */
  lemma TransferRefusal(b: Book, move: TransferInput)
    requires TransferJudgement(b, move).Some?
    ensures match TransferJudgement(b, move).value
            case PositionNotFound => move.source !in b.positions || move.destination !in b.positions
            case AccountNotFound =>
              move.source in b.positions && move.destination in b.positions
              && (b.positions[move.source].account !in b.accounts || b.positions[move.destination].account !in b.accounts)
            case IntegratedReadOnly =>
              move.source in b.positions && move.destination in b.positions
              && (!IsManual(b, b.positions[move.source].account) || !IsManual(b, b.positions[move.destination].account))
            case InvalidInput =>
              || move.source == EMPTY || move.destination == EMPTY || move.source == move.destination
              || move.quantity <= 0.0 || move.occurredOn == ZERO_DAY
              || (move.source in b.positions && move.destination in b.positions
                  && (b.positions[move.source].asset != b.positions[move.destination].asset
                      || b.positions[move.source].account == b.positions[move.destination].account))
            case _ => false
  {
  }

  /** Why a position cannot be asked for. */
  lemma OpeningRefusal(b: Book, input: PositionInput)
    requires OpeningJudgement(b, input).Some?
    ensures match OpeningJudgement(b, input).value
            case InvalidInput =>
              || input.initialQuantity < 0.0 || input.initialUnitCost < 0.0
              || (input.initialValue.Some? && input.initialValue.value < 0.0)
              || ((input.initialQuantity > 0.0 || input.initialUnitCost > 0.0) && !StatesOpening(input))
            case AccountNotFound => input.account !in b.accounts
            case IntegratedReadOnly => input.account in b.accounts && b.accounts[input.account].kind.IntegratedAccount?
            case PositionAlreadyExists => exists p | p in b.positions :: b.positions[p] == PositionRow(input.account, input.asset)
            case _ => false
  {
  }

  // ---- links ----

  /** Why a parcel is not taken by its operation. */
  ghost predicate ParcelRefused(b: Book, operation: Id, line: Option<Id>, movement: Option<Id>, amount: real, e: Error) {
    match e
    case OperationNotFound => forall op | op in b.ops :: op.id != operation
    case ReconciliationDuplicate =>
      exists l | l in b.links :: l.operation == operation && ((line.Some? && l.line == line) || (movement.Some? && l.movement == movement))
    case ReconciliationConflict =>
      || (exists op | op in b.ops :: op.id == operation && Allocated(b.links, OfOperation(operation)) + amount > op.amount)
      || (line.Some? && line.value in b.lines && b.lines[line.value].value.Some?
          && Allocated(b.links, OfLine(line.value)) + amount > Abs(b.lines[line.value].value.value))
      || (movement.Some? && movement.value in b.movements && b.movements[movement.value].amount.Some?
          && Allocated(b.links, OfMovement(movement.value)) + amount > Abs(b.movements[movement.value].amount.value))
    case InvalidReconciliationLink =>
      exists op | op in b.ops :: op.id == operation
        && (op.kind !in {Deposit, Withdrawal, Income, Fee, Tax}
            || (line.Some? && !FacesLine(b, op.kind, line.value))
            || (movement.Some? && !FacesMovement(b, op, movement.value)))
    case AccountNotFound => exists op | op in b.ops :: op.id == operation && op.account !in b.accounts
    case _ => false
  }

  lemma ParcelRefusal(b: Book, operation: Id, line: Option<Id>, movement: Option<Id>, amount: real, stamp: LinkStamp)
    requires AddParcel(b, operation, line, movement, amount, stamp).Err?
    ensures ParcelRefused(b, operation, line, movement, amount, AddParcel(b, operation, line, movement, amount, stamp).error)
  {
    if FindRow(b.ops, operation).Some? {
      var op := FindRow(b.ops, operation).value;
      if line.Some? {
        LineTaken(b, op, line.value, amount);
      }
      if movement.Some? {
        MovementTaken(b, op, movement.value, amount);
      }
    }
  }
}
