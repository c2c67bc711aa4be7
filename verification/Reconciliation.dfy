/** The link mutations as functions on the book (internal/investments/reconciliations.go): what a
    committed transaction leaves behind, or the error it is refused with. */
module Reconciliation {
  import opened Wrappers
  import opened Decimals
  import opened Sequences
  import opened Domain
  import opened Tables

  /** An empty operation id asks for the movement's own derived operation, its pivot. */
  datatype LinkInput = LinkInput(operation: Id, line: Option<Id>, movement: Option<Id>, amount: real)

  /** The ids and times one link transaction draws. */
  datatype LinkStamp = LinkStamp(link: Id, linkedAt: Instant, pivot: Id, pivotAt: Instant)

  function Trimmed(id: Option<Id>): Option<Id> {
    if id == Some(EMPTY) then None else id
  }

  predicate ReconcilableKind(kind: Kind) {
    kind.Deposit? || kind.Withdrawal? || kind.Income? || kind.Fee? || kind.Tax?
  }

  predicate BankOutflowKind(kind: Kind) {
    kind.Deposit? || kind.Fee? || kind.Tax?
  }

  /** A bank line's usable value: present, in reais, considered and not zero. */
  function LineValue(b: Book, line: Id): Result<real, Error> {
    if line !in b.lines then Err(InvalidReconciliationLink)
    else
      var row := b.lines[line];
      if row.value.None? || !row.brl || row.ignored || row.value.value == 0.0 then Err(InvalidReconciliationLink)
      else Ok(row.value.value)
  }

  /** A movement's capacity as evidence for an operation. */
  function MovementValue(b: Book, op: Operation, movement: Id): Result<real, Error> {
    if movement !in b.movements then Err(InvalidReconciliationLink)
    else
      var row := b.movements[movement];
      var expected := if op.kind.Deposit? then Inflow else Outflow;
      if row.amount.None? || !row.brl || row.direction != expected then Err(InvalidReconciliationLink)
      else if op.account !in b.accounts then Err(AccountNotFound)
      else if b.accounts[op.account].source.Some? && b.accounts[op.account].source.value != row.source then
        Err(InvalidReconciliationLink)
      else if row.amount.value == 0.0 then Err(InvalidReconciliationLink)
      else Ok(Abs(row.amount.value))
  }

  predicate Carries(link: Link, operation: Id, movement: Id) {
    link.operation == operation && link.movement == Some(movement)
  }

  function IsPivotOf(links: seq<Link>, movement: Id): Operation -> bool {
    (op: Operation) => op.origin.Synced? && exists l | l in links :: Carries(l, op.id, movement)
  }

  /** Created earlier, or together and with no larger id. */
  predicate NotLater(a: Operation, b: Operation) {
    a.createdAt < b.createdAt || (a.createdAt == b.createdAt && a.id <= b.id)
  }

  /** The earliest-created of some rows. */
  function Earliest(ops: seq<Operation>): (r: Option<Operation>)
    ensures r.None? <==> ops == []
    ensures r.Some? ==> r.value in ops
  {
    if ops == [] then None
    else
      var rest := Earliest(ops[1..]);
      if rest.Some? && (rest.value.createdAt < ops[0].createdAt
                        || (rest.value.createdAt == ops[0].createdAt && rest.value.id < ops[0].id))
      then rest else Some(ops[0])
  }

  lemma {:induction false} EarliestIsFirst(ops: seq<Operation>, op: Operation)
    requires op in ops
    ensures Earliest(ops).Some? && NotLater(Earliest(ops).value, op)
  {
    if op != ops[0] {
      assert op in ops[1..];
    }
    if |ops| > 1 {
      EarliestIsFirst(ops[1..], if op in ops[1..] then op else ops[1]);
    }
  }

  function PivotOf(b: Book, movement: Id): Option<Operation> {
    Earliest(Filter(b.ops, IsPivotOf(b.links, movement)))
  }

  function PivotKind(row: Movement): Kind
    requires !row.direction.UnknownDirection?
  {
    if row.direction.Inflow? then Deposit else if row.interest then Income else Withdrawal
  }

  /** Whether a movement can stand as a local operation. */
  predicate Pivotable(row: Movement) {
    row.amount.Some? && row.brl && row.amount.value != 0.0 && !row.direction.UnknownDirection? && row.day.Some?
  }

  function PivotRow(row: Movement, stamp: LinkStamp): Operation
    requires Pivotable(row)
  {
    Operation(stamp.pivot, row.custody, None, None, PivotKind(row), row.day.value, Abs(row.amount.value),
              None, None, 0.0, 0.0, Synced, stamp.pivotAt)
  }

  predicate HasAccount(accounts: map<Id, AccountRow>, source: Id) {
    exists a | a in accounts :: accounts[a].source == Some(source)
  }

  /** The integrated accounts of the sources that have none yet. */
  function MissingCustodies(b: Book): map<Id, AccountRow> {
    map c | c in b.custodies && !HasAccount(b.accounts, b.custodies[c]) :: AccountRow(IntegratedAccount, Some(b.custodies[c]))
  }

  /** Every source with imported holdings gets its account; accounts there are stay as they are. */
  function WithCustodies(b: Book): Book {
    b.(accounts := MissingCustodies(b) + b.accounts)
  }

  datatype Pivot = Pivot(book: Book, operation: Id, reused: bool)

  /** The movement's pivot: the one already linked, or a new synced row. */
  function EnsurePivot(b: Book, movement: Id, stamp: LinkStamp): Result<Pivot, Error> {
    var found := PivotOf(b, movement);
    if found.Some? then Ok(Pivot(b, found.value.id, true))
    else if movement !in b.movements || !Pivotable(b.movements[movement]) then Err(InvalidReconciliationLink)
    else Ok(Pivot(WithCustodies(b).(ops := InsertRow(b.ops, PivotRow(b.movements[movement], stamp))), stamp.pivot, false))
  }

  predicate AlreadyPaired(links: seq<Link>, operation: Id, line: Option<Id>, movement: Option<Id>) {
    exists l | l in links ::
      l.operation == operation && ((line.Some? && l.line == line) || (movement.Some? && l.movement == movement))
  }

  /** A parcel of an existing operation, once the pivot question is settled. */
  function AddParcel(b: Book, operation: Id, line: Option<Id>, movement: Option<Id>, amount: real, stamp: LinkStamp):
      Result<Book, Error>
  {
    match FindRow(b.ops, operation)
    case None => Err(OperationNotFound)
    case Some(op) =>
      if !ReconcilableKind(op.kind) then Err(InvalidReconciliationLink)
      else if AlreadyPaired(b.links, operation, line, movement) then Err(ReconciliationDuplicate)
      else if Allocated(b.links, OfOperation(operation)) + amount > op.amount then Err(ReconciliationConflict)
      else
        match LineJudgement(b, op, line, amount)
        case Some(e) => Err(e)
        case None =>
          match MovementJudgement(b, op, movement, amount)
          case Some(e) => Err(e)
          case None =>
            Ok(b.(links := InsertLink(b.links, Link(stamp.link, operation, line, movement, amount, stamp.linkedAt))))
  }

  function LineJudgement(b: Book, op: Operation, line: Option<Id>, amount: real): Option<Error> {
    if line.None? then None
    else
      match LineValue(b, line.value)
      case Err(e) => Some(e)
      case Ok(value) =>
        if (value < 0.0) != BankOutflowKind(op.kind) then Some(InvalidReconciliationLink)
        else if Allocated(b.links, OfLine(line.value)) + amount > Abs(value) then Some(ReconciliationConflict)
        else None
  }

  function MovementJudgement(b: Book, op: Operation, movement: Option<Id>, amount: real): Option<Error> {
    if movement.None? then None
    else
      match MovementValue(b, op, movement.value)
      case Err(e) => Some(e)
      case Ok(value) =>
        if Allocated(b.links, OfMovement(movement.value)) + amount > value then Some(ReconciliationConflict) else None
  }

  /** Recording that a bank line, a movement or both are one event with an operation. */
  function CreateLink(b: Book, input: LinkInput, stamp: LinkStamp): Result<Book, Error> {
    var line, movement := Trimmed(input.line), Trimmed(input.movement);
    if input.amount <= 0.0 then Err(InvalidInput)
    else if line.None? && movement.None? then Err(InvalidReconciliationLink)
    else if input.operation != EMPTY then AddParcel(b, input.operation, line, movement, input.amount, stamp)
    else if movement.None? then Err(InvalidReconciliationLink)
    else
      match EnsurePivot(b, movement.value, stamp)
      case Err(e) => Err(e)
      case Ok(p) =>
        if p.reused && line.None? then Err(ReconciliationDuplicate)
        else AddParcel(p.book, p.operation, line, if p.reused then None else movement, input.amount, stamp)
  }

  /** The oldest parcel of an operation that carries no movement id; past the end if there is none. */
  function OldestPlain(links: seq<Link>, operation: Id): (k: nat)
    ensures k <= |links|
    ensures forall i | 0 <= i < k :: !(links[i].operation == operation && links[i].movement.None?)
    ensures k < |links| ==> links[k].operation == operation && links[k].movement.None?
  {
    if links == [] || (links[0].operation == operation && links[0].movement.None?) then 0
    else 1 + OldestPlain(links[1..], operation)
  }

  predicate IsSyncedRow(ops: seq<Operation>, id: Id) {
    exists op | op in ops :: op.id == id && op.origin.Synced?
  }

  /** A deleted parcel's movement id passes to the oldest plain sibling on the same pivot. */
  function HandOff(links: seq<Link>, ops: seq<Operation>, gone: Link): seq<Link> {
    var k := OldestPlain(links, gone.operation);
    if gone.movement.Some? && IsSyncedRow(ops, gone.operation) && k < |links|
    then links[k := links[k].(movement := gone.movement)]
    else links
  }

  /** A synced row left without a parcel goes with its last one. */
  function DropOrphan(ops: seq<Operation>, links: seq<Link>, operation: Id): seq<Operation> {
    if IsSyncedRow(ops, operation) && !(exists l | l in links :: l.operation == operation)
    then WithoutRow(ops, operation)
    else ops
  }

  function RemoveLink(b: Book, link: Link): Book {
    var links := HandOff(WithoutLink(b.links, link.id), b.ops, link);
    b.(links := links, ops := DropOrphan(b.ops, links, link.operation))
  }

  function DeleteLink(b: Book, id: Id): Result<Book, Error> {
    match FindLink(b.links, id)
    case None => Err(ReconciliationNotFound)
    case Some(link) => Ok(RemoveLink(b, link))
  }

  /** Removing links one by one as they were read beforehand. */
  function RemoveAsRead(b: Book, read: seq<Link>): Book {
    if read == [] then b else RemoveLink(RemoveAsRead(b, read[..|read| - 1]), read[|read| - 1])
  }

  /** Every link of a bank line goes, in the order of one reading. */
  function UnlinkLine(b: Book, line: Id): Book {
    RemoveAsRead(b, Filter(b.links, LinksOn(OfLine(line))))
  }

  /** The user excludes a bank line from the totals. */
  function IgnoreLine(b: Book, line: Id): Book
    requires line in b.lines
  {
    UnlinkLine(b.(lines := b.lines[line := b.lines[line].(ignored := true)]), line)
  }

  /** The user takes a bank line back into the totals. */
  function ConsiderLine(b: Book, line: Id): Book
    requires line in b.lines
  {
    b.(lines := b.lines[line := b.lines[line].(ignored := false)])
  }

  /** An edited operation against the links it already carries. */
  function LinksJudgement(b: Book, op: Operation): Option<Error> {
    var links := Filter(b.links, LinksOn(OfOperation(op.id)));
    if links == [] then None
    else if !ReconcilableKind(op.kind) then Some(InvalidReconciliationLink)
    else
      match FirstMisfit(b, op, links)
      case Some(e) => Some(e)
      case None => if Allocated(b.links, OfOperation(op.id)) > op.amount then Some(ReconciliationConflict) else None
  }

  function Misfit(b: Book, op: Operation, link: Link): Option<Error> {
    var movement := if link.movement.None? then None else
      match MovementValue(b, op, link.movement.value) case Err(e) => Some(e) case Ok(_) => None;
    if movement.Some? then movement
    else if link.line.None? then None
    else
      match LineValue(b, link.line.value)
      case Err(e) => Some(e)
      case Ok(value) => if (value < 0.0) != BankOutflowKind(op.kind) then Some(InvalidReconciliationLink) else None
  }

  function FirstMisfit(b: Book, op: Operation, links: seq<Link>): Option<Error> {
    if links == [] then None
    else
      var earlier := FirstMisfit(b, op, links[..|links| - 1]);
      if earlier.Some? then earlier else Misfit(b, op, links[|links| - 1])
  }
}
