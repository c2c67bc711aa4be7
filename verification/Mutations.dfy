/** Every mutation of the book as a function of the book and the ids and times it draws
    (internal/investments/operations.go, positions.go): the book a committed transaction leaves,
    or the error it rolls back with. */
module Mutations {
  import opened Wrappers
  import opened Decimals
  import opened Sequences
  import opened Domain
  import opened Ledger
  import opened Tables
  import opened Reconciliation
  import opened BulkUnlink

  datatype OperationInput = OperationInput(
    account: Id, position: Option<Id>, kind: Kind, occurredOn: Day, amount: real,
    quantity: Option<real>, unitPrice: Option<real>, fees: real, taxes: real)

  datatype TransferInput = TransferInput(source: Id, destination: Id, quantity: real, occurredOn: Day)

  /** The asset is the catalogue entry the request resolves to. */
  datatype PositionInput = PositionInput(
    account: Id, asset: Id, initialQuantity: real, initialUnitCost: real, initialValue: Option<real>, occurredOn: Day)

  /** A drawn row id and the clock when the row was written. */
  datatype RowStamp = RowStamp(id: Id, at: Instant)

  datatype Request =
    | CreateOperations(inputs: seq<OperationInput>, link: Option<LinkInput>, rows: seq<RowStamp>, stamp: LinkStamp)
    | UpdateOperation(id: Id, input: OperationInput)
    | DeleteOperation(id: Id)
    | CreateTransfer(move: TransferInput, transfer: Id, outId: Id, inId: Id, at: Instant)
    | DeleteTransfer(transfer: Id)
    | CreatePosition(opening: PositionInput, position: Id, row: RowStamp, today: Day)
    | CreateReconciliation(reconcile: LinkInput, stamp: LinkStamp)
    | DeleteReconciliation(id: Id)
    | IgnoreTransaction(line: Id)
    | ConsiderTransaction(line: Id)

  /** An input as an operation, its position as typed. */
  function Draft(input: OperationInput, stamp: RowStamp): Operation {
    Operation(stamp.id, input.account, input.position, None, input.kind, input.occurredOn, input.amount,
              input.quantity, input.unitPrice, input.fees, input.taxes, Manual, stamp.at)
  }

  /** The stored row: an empty position id is stored as none. */
  function Stored(op: Operation): Operation {
    op.(position := Trimmed(op.position))
  }

  predicate IsManual(b: Book, account: Id) {
    account in b.accounts && b.accounts[account].kind.ManualAccount?
  }

  function AccountJudgement(b: Book, op: Operation): Option<Error> {
    if op.account !in b.accounts then Some(AccountNotFound)
    else if b.accounts[op.account].kind.IntegratedAccount? && (!ReconcilableKind(op.kind) || op.position.Some?) then
      Some(IntegratedReadOnly)
    else if !ValidShape(op) then Some(InvalidInput)
    else None
  }

  function PositionJudgement(b: Book, op: Operation): Option<Error> {
    if !HasPosition(op) then None
    else if op.position.value !in b.positions then
      Some(if op.position.value in b.syncedHoldings then NotManual else InvalidInput)
    else if b.positions[op.position.value].account != op.account then Some(InvalidInput)
    else None
  }

  function RowJudgement(b: Book, op: Operation): Option<Error> {
    var account := AccountJudgement(b, op);
    if account.Some? then account else PositionJudgement(b, op)
  }

  // ---- the replay as judge ----

  function ReplayJudgement(b: Book, account: Id): Option<Error> {
    if account !in b.accounts then Some(AccountNotFound)
    else if b.accounts[account].kind.IntegratedAccount? then None
    else match Replay(History(b.ops, account)) case Err(e) => Some(e) case Ok(_) => None
  }

  /** The first failure among the touched accounts, in the order they were touched. */
  function FirstFailure(b: Book, touched: seq<Id>): Option<Error> {
    if touched == [] then None
    else
      var earlier := FirstFailure(b, touched[..|touched| - 1]);
      if earlier.Some? then earlier else ReplayJudgement(b, touched[|touched| - 1])
  }

  lemma OneTouched(b: Book, account: Id)
    ensures FirstFailure(b, [account]) == ReplayJudgement(b, account)
  {
    assert [account][..0] == [];
  }

  /** A write commits only if every account it touched still replays. */
  function Commit(b: Book, touched: seq<Id>): Result<Book, Error> {
    match FirstFailure(b, touched) case Some(e) => Err(e) case None => Ok(b)
  }

  // ---- operations ----

  function InsertInputs(b: Book, inputs: seq<OperationInput>, rows: seq<RowStamp>): Result<Book, Error>
    requires |inputs| == |rows|
  {
    if inputs == [] then Ok(b)
    else
      var n := |inputs| - 1;
      match InsertInputs(b, inputs[..n], rows[..n])
      case Err(e) => Err(e)
      case Ok(c) =>
        var op := Draft(inputs[n], rows[n]);
        match RowJudgement(c, op)
        case Some(e) => Err(e)
        case None => Ok(c.(ops := InsertRow(c.ops, Stored(op))))
  }

  function Accounts(inputs: seq<OperationInput>): seq<Id> {
    seq(|inputs|, i requires 0 <= i < |inputs| => inputs[i].account)
  }

  function CreateOperationsIn(b: Book, inputs: seq<OperationInput>, link: Option<LinkInput>, rows: seq<RowStamp>, stamp: LinkStamp):
      Result<Book, Error>
    requires |inputs| == |rows|
  {
    if |inputs| == 0 || |inputs| > 100 then Err(InvalidInput)
    else
      match InsertInputs(b, inputs, rows)
      case Err(e) => Err(e)
      case Ok(c) =>
        match (if link.None? then Ok(c) else CreateLink(c, link.value.(operation := rows[0].id), stamp))
        case Err(e) => Err(e)
        case Ok(d) => Commit(d, Accounts(inputs))
  }

  function CurrentEditable(b: Book, id: Id): Result<Operation, Error> {
    match FindRow(b.ops, id)
    case None => Err(OperationNotFound)
    case Some(op) =>
      if op.transfer.Some? then Err(TransferAtomic) else if !op.origin.Manual? then Err(NotManual) else Ok(op)
  }

  function UpdateOperationIn(b: Book, id: Id, input: OperationInput): Result<Book, Error> {
    if input.kind.UnknownKind? then Err(InvalidInput)
    else
      match CurrentEditable(b, id)
      case Err(e) => Err(e)
      case Ok(current) =>
        var updated := Draft(input, RowStamp(id, current.createdAt));
        match RowJudgement(b, updated)
        case Some(e) => Err(e)
        case None =>
          match LinksJudgement(b, updated)
          case Some(e) => Err(e)
          case None => Commit(b.(ops := ReplaceRow(b.ops, Stored(updated))), [input.account, current.account])
  }

  function DeleteOperationIn(b: Book, id: Id): Result<Book, Error> {
    match CurrentEditable(b, id)
    case Err(e) => Err(e)
    case Ok(current) =>
      if exists l | l in b.links :: l.operation == id then Err(OperationHasReconciliations)
      else Commit(b.(ops := WithoutRow(b.ops, id)), [current.account])
  }

  // ---- transfers ----

  predicate TransferInputValid(move: TransferInput) {
    move.source != EMPTY && move.destination != EMPTY && move.source != move.destination
    && move.quantity > 0.0 && move.occurredOn != ZERO_DAY
  }

  function TransferJudgement(b: Book, move: TransferInput): Option<Error> {
    if !TransferInputValid(move) then Some(InvalidInput)
    else if move.source !in b.positions || move.destination !in b.positions then Some(PositionNotFound)
    else
      var from, to := b.positions[move.source], b.positions[move.destination];
      if from.asset != to.asset || from.account == to.account then Some(InvalidInput)
      else if from.account !in b.accounts then Some(AccountNotFound)
      else if !IsManual(b, from.account) then Some(IntegratedReadOnly)
      else if to.account !in b.accounts then Some(AccountNotFound)
      else if !IsManual(b, to.account) then Some(IntegratedReadOnly)
      else None
  }

  /** The source holding as the book stood on the transfer's own day. */
  function SourceOn(b: Book, move: TransferInput): Result<Holding, Error>
    requires move.source in b.positions
  {
    match Replay(History(Through(b.ops, move.occurredOn), b.positions[move.source].account))
    case Err(e) => Err(e)
    case Ok(l) => Ok(l.At(move.source))
  }

  function TransferRow(b: Book, move: TransferInput, held: Holding, kind: Kind, transfer: Id, id: Id, at: Instant): Operation
    requires move.source in b.positions && move.destination in b.positions
  {
    var position := if kind.TransferOut? then move.source else move.destination;
    Operation(id, b.positions[position].account, Some(position), Some(transfer), kind, move.occurredOn,
              held.CostOf(move.quantity), Some(move.quantity), Some(held.AverageCost()), 0.0, 0.0, Manual, at)
  }

  function CreateTransferIn(b: Book, move: TransferInput, transfer: Id, outId: Id, inId: Id, at: Instant): Result<Book, Error> {
    var judged := TransferJudgement(b, move);
    if judged.Some? then Err(judged.value)
    else
      match SourceOn(b, move)
      case Err(e) => Err(e)
      case Ok(held) =>
        if held.quantity < move.quantity then Err(NegativePosition)
        else
          var out := TransferRow(b, move, held, TransferOut, transfer, outId, at);
          var into := TransferRow(b, move, held, TransferIn, transfer, inId, at);
          Commit(b.(ops := InsertRow(InsertRow(b.ops, out), into)), [out.account, into.account])
  }

  function TransferRows(ops: seq<Operation>, transfer: Id): seq<Operation> {
    Filter(ops, InTransfer(transfer))
  }

  function DeleteTransferIn(b: Book, transfer: Id): Result<Book, Error> {
    var rows := TransferRows(b.ops, transfer);
    if transfer == EMPTY then Err(InvalidInput)
    else if |rows| != 2 then Err(OperationNotFound)
    else Commit(b.(ops := Filter(b.ops, NotInTransfer(transfer))), [rows[0].account, rows[1].account])
  }

  // ---- positions ----

  datatype Opening = Opening(quantity: real, total: real, unitPrice: real)

  /** The opening fields as one quantity and cost: a bare amount opens a single unit. */
  function OpeningHolding(input: PositionInput): Opening {
    var quantity := input.initialQuantity;
    if quantity > 0.0 && input.initialUnitCost > 0.0 then
      Opening(quantity, quantity * input.initialUnitCost, input.initialUnitCost)
    else if input.initialValue.None? || input.initialValue.value <= 0.0 then Opening(0.0, 0.0, 0.0)
    else if quantity > 0.0 then Opening(quantity, input.initialValue.value, Div(input.initialValue.value, quantity))
    else Opening(1.0, input.initialValue.value, input.initialValue.value)
  }

  function OpeningRow(input: PositionInput, position: Id, row: RowStamp, today: Day): Operation {
    var opening := OpeningHolding(input);
    Operation(row.id, input.account, Some(position), None, InitialBalance,
              if input.occurredOn == ZERO_DAY then today else input.occurredOn, opening.total,
              Some(opening.quantity), Some(opening.unitPrice), 0.0, 0.0, Manual, row.at)
  }

  function OpeningJudgement(b: Book, input: PositionInput): Option<Error> {
    if input.initialQuantity < 0.0 || input.initialUnitCost < 0.0 || (input.initialValue.Some? && input.initialValue.value < 0.0) then
      Some(InvalidInput)
    else if (input.initialQuantity > 0.0 || input.initialUnitCost > 0.0) && OpeningHolding(input).quantity <= 0.0 then
      Some(InvalidInput)
    else if input.account !in b.accounts then Some(AccountNotFound)
    else if !IsManual(b, input.account) then Some(IntegratedReadOnly)
    else if exists p | p in b.positions :: b.positions[p] == PositionRow(input.account, input.asset) then
      Some(PositionAlreadyExists)
    else None
  }

  function CreatePositionIn(b: Book, input: PositionInput, position: Id, row: RowStamp, today: Day): Result<Book, Error> {
    var judged := OpeningJudgement(b, input);
    if judged.Some? then Err(judged.value)
    else
      var c := b.(positions := b.positions[position := PositionRow(input.account, input.asset)]);
      var opening := OpeningHolding(input);
      if opening.quantity > 0.0 && opening.total > 0.0 then
        Commit(c.(ops := InsertRow(c.ops, OpeningRow(input, position, row, today))), [input.account])
      else Ok(c)
  }

  // ---- requests ----

  predicate WellTyped(request: Request) {
    request.CreateOperations? ==> |request.inputs| == |request.rows|
  }

  /** A line already left out is left as it is. */
  function IgnoreIn(b: Book, line: Id): Result<Book, Error> {
    if line !in b.lines then Err(TransactionNotFound)
    else if b.lines[line].ignored then Ok(b)
    else Ok(IgnoreLine(b, line))
  }

  function Perform(b: Book, request: Request): Result<Book, Error>
    requires WellTyped(request)
  {
    match request
    case CreateOperations(inputs, link, rows, stamp) => CreateOperationsIn(b, inputs, link, rows, stamp)
    case UpdateOperation(id, input) => UpdateOperationIn(b, id, input)
    case DeleteOperation(id) => DeleteOperationIn(b, id)
    case CreateTransfer(move, transfer, outId, inId, at) => CreateTransferIn(b, move, transfer, outId, inId, at)
    case DeleteTransfer(transfer) => DeleteTransferIn(b, transfer)
    case CreatePosition(opening, position, row, today) => CreatePositionIn(b, opening, position, row, today)
    case CreateReconciliation(reconcile, stamp) => CreateLink(b, reconcile, stamp)
    case DeleteReconciliation(id) => DeleteLink(b, id)
    case IgnoreTransaction(line) => IgnoreIn(b, line)
    case ConsiderTransaction(line) => if line in b.lines then Ok(ConsiderLine(b, line)) else Err(TransactionNotFound)
  }

  /** A refused request leaves the book as it was. */
  function Next(b: Book, request: Request): Book
    requires WellTyped(request)
  {
    match Perform(b, request) case Ok(c) => c case Err(_) => b
  }
}
