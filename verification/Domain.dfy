/** The investment book's vocabulary. Identifiers are naturals; zero stands for the empty string.
    Days count from the calendar's zero value, which the program uses for "no date given". */
module Domain {
  import opened Wrappers

  type Id = nat
  type Day = int
  type Instant = int

  const EMPTY: Id := 0
  const ZERO_DAY: Day := 0

  datatype Kind =
    | InitialBalance | Deposit | Withdrawal | Buy | Sell | Income | Fee | Tax
    | Valuation | TransferOut | TransferIn
    | UnknownKind

  datatype Origin = Manual | Synced

  datatype Error =
    | InvalidInput | NegativeCash | NegativePosition | IntegratedReadOnly | NotManual
    | TransferAtomic | AccountNotFound | PositionNotFound | OperationNotFound | PositionAlreadyExists
    | OperationHasReconciliations | ReconciliationNotFound | InvalidReconciliationLink
    | ReconciliationConflict | ReconciliationDuplicate | TransactionNotFound

  /** One row of the operations table. */
  datatype Operation = Operation(
    id: Id,
    account: Id,
    position: Option<Id>,
    transfer: Option<Id>,
    kind: Kind,
    occurredOn: Day,
    amount: real,
    quantity: Option<real>,
    unitPrice: Option<real>,
    fees: real,
    taxes: real,
    origin: Origin,
    createdAt: Instant)

  predicate HasPosition(op: Operation) {
    op.position.Some? && op.position.value != EMPTY
  }

  /** The units an operation names; zero when it names none. */
  function Units(op: Operation): real {
    if op.quantity.Some? then op.quantity.value else 0.0
  }

  /** What an operation of each kind must and must not carry. */
  predicate ValidShape(op: Operation) {
    var noExtras := op.quantity.None? && op.unitPrice.None? && op.fees == 0.0 && op.taxes == 0.0;
    && !op.kind.UnknownKind? && op.account != EMPTY && op.occurredOn != ZERO_DAY
    && op.amount >= 0.0 && op.fees >= 0.0 && op.taxes >= 0.0
    && (op.quantity.Some? ==> op.quantity.value > 0.0)
    && (op.unitPrice.Some? ==> op.unitPrice.value >= 0.0)
    && match op.kind
       case InitialBalance =>
         if HasPosition(op) then op.quantity.Some? else noExtras && op.amount > 0.0
       case Deposit | Withdrawal | Income | Fee | Tax => !HasPosition(op) && op.amount > 0.0 && noExtras
       case Buy | Sell => HasPosition(op) && op.quantity.Some? && op.amount > 0.0
       case TransferOut | TransferIn =>
         HasPosition(op) && op.quantity.Some? && op.transfer.Some? && op.fees == 0.0 && op.taxes == 0.0
       case Valuation => HasPosition(op) && noExtras
       case UnknownKind => false
  }

  /** The replay order of the operations table: day, then creation, then id. */
  predicate Before(a: Operation, b: Operation) {
    || a.occurredOn < b.occurredOn
    || (a.occurredOn == b.occurredOn && a.createdAt < b.createdAt)
    || (a.occurredOn == b.occurredOn && a.createdAt == b.createdAt && a.id < b.id)
  }
}
