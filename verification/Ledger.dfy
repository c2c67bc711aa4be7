/** The derived state of one custody account and the replay that derives it
    (internal/investments/ledger.go). The values describe the replay; the classes at the end are
    the mutable form the program runs, proved to compute the same state. */
module Ledger {
  import opened Wrappers
  import opened Decimals
  import opened Domain

  /** What is held of one position. Totals are kept, never unit figures. */
  datatype Holding = Holding(
    quantity: real,
    totalCost: real,
    valuationTotal: Option<real>,
    valuedQuantity: real,
    valuedOn: Option<Day>)
  {
    function AverageCost(): real {
      if quantity <= 0.0 then 0.0 else Div(totalCost, quantity)
    }

    /** The cost basis carried by units of the holding: all of it for all units, a share otherwise. */
    function CostOf(units: real): real {
      if quantity <= 0.0 || units == 0.0 then 0.0
      else if units == quantity then totalCost
      else Prorate(totalCost, units, quantity)
    }

    /** The current quantity at the last typed valuation. */
    function ValuedValue(): real {
      if valuationTotal.None? || valuedQuantity <= 0.0 then 0.0
      else if quantity == valuedQuantity then valuationTotal.value
      else Prorate(valuationTotal.value, quantity, valuedQuantity)
    }

    function Add(units: real, cost: real): Holding {
      this.(quantity := quantity + units, totalCost := totalCost + cost)
    }

    function Remove(units: real): Holding {
      var remaining := quantity - units;
      this.(quantity := remaining, totalCost := if remaining == 0.0 then 0.0 else CostOf(remaining))
    }
  }

  const NOTHING_HELD := Holding(0.0, 0.0, None, 0.0, None)

  datatype Account = Account(cash: real, holdings: map<Id, Holding>) {
    function At(position: Id): Holding {
      if position in holdings then holdings[position] else NOTHING_HELD
    }
  }

  const EMPTY_ACCOUNT := Account(0.0, map[])

  /** The signed effect of an operation on the custody's cash. */
  function CashDelta(op: Operation): real {
    match op.kind
    case InitialBalance => if op.position.None? then op.amount else 0.0
    case Deposit | Income => op.amount
    case Withdrawal | Fee | Tax => -op.amount
    case Buy => -(op.amount + op.fees + op.taxes)
    case Sell => op.amount - op.fees - op.taxes
    case _ => 0.0
  }

  /** The signed effect of an operation on the units of its own position. */
  function SignedUnits(op: Operation): real {
    match op.kind
    case InitialBalance | Buy | TransferIn => Units(op)
    case Sell | TransferOut => -Units(op)
    case _ => 0.0
  }

  function Revalue(h: Holding, op: Operation): Holding
    requires HasPosition(op) && ValidShape(op)
  {
    match op.kind
    case InitialBalance | Buy => h.Add(Units(op), op.amount + op.fees + op.taxes)
    case TransferIn => h.Add(Units(op), op.amount)
    case Sell | TransferOut => h.Remove(Units(op))
    case Valuation => h.(valuationTotal := Some(op.amount), valuedQuantity := h.quantity, valuedOn := Some(op.occurredOn))
    case _ => h
  }

  /** One operation on the ledger, or the reason it cannot stand. */
  function Apply(l: Account, op: Operation): Result<Account, Error> {
    if !ValidShape(op) then Err(InvalidInput)
    else if op.kind.InitialBalance? && op.position == Some(EMPTY) then Err(InvalidInput)
    else
      var held := if HasPosition(op) then l.At(op.position.value) else NOTHING_HELD;
      if (op.kind.Sell? || op.kind.TransferOut?) && held.quantity < Units(op) then Err(NegativePosition)
      else if op.kind.Valuation? && held.quantity <= 0.0 then Err(InvalidInput)
      else
        var holdings := if HasPosition(op) then l.holdings[op.position.value := Revalue(held, op)] else l.holdings;
        var cash := l.cash + CashDelta(op);
        if cash < 0.0 then Err(NegativeCash) else Ok(Account(cash, holdings))
  }

  /** The whole history, oldest first. The first failure ends it. */
  function Replay(history: seq<Operation>): Result<Account, Error> {
    if history == [] then Ok(EMPTY_ACCOUNT)
    else
      match Replay(history[..|history| - 1])
      case Err(e) => Err(e)
      case Ok(l) => Apply(l, history[|history| - 1])
  }

  /** A failed prefix fails the whole history with the same error. */
  lemma {:induction false} ReplayPrefix(history: seq<Operation>, k: nat)
    requires k <= |history|
    ensures Replay(history[..k]).Err? ==> Replay(history) == Replay(history[..k])
  {
    if k == |history| {
      assert history[..k] == history;
    } else {
      var rest := history[..|history| - 1];
      assert rest[..k] == history[..k];
      ReplayPrefix(rest, k);
    }
  }

  lemma ReplayPush(history: seq<Operation>, op: Operation)
    ensures Replay(history).Ok? ==> Replay(history + [op]) == Apply(Replay(history).value, op)
    ensures Replay(history).Err? ==> Replay(history + [op]) == Replay(history)
  {
    assert (history + [op])[..|history|] == history;
  }

  /** The mutable holding. */
  class PositionLedger {
    var quantity: real
    var totalCost: real
    var valuationTotal: Option<real>
    var valuedQuantity: real
    var valuedOn: Option<Day>

    function View(): Holding
      reads this
    {
      Holding(quantity, totalCost, valuationTotal, valuedQuantity, valuedOn)
    }

    constructor ()
      ensures View() == NOTHING_HELD
    {
      quantity, totalCost, valuationTotal, valuedQuantity, valuedOn := 0.0, 0.0, None, 0.0, None;
    }

    method AddCost(units: real, cost: real)
      modifies this
      ensures View() == old(View()).Add(units, cost)
    {
      quantity := quantity + units;
      totalCost := totalCost + cost;
    }

    method RemoveUnits(units: real)
      modifies this
      ensures View() == old(View()).Remove(units)
    {
      var remaining := quantity - units;
      totalCost := View().CostOf(remaining);
      quantity := remaining;
      if quantity == 0.0 {
        totalCost := 0.0;
      }
    }

    method Value(total: real, day: Day)
      modifies this
      ensures View() == old(View()).(valuationTotal := Some(total), valuedQuantity := old(quantity), valuedOn := Some(day))
    {
      valuationTotal := Some(total);
      valuedQuantity := quantity;
      valuedOn := Some(day);
    }
  }

  /** The mutable account: cash and one holding object per position seen so far. */
  class AccountLedger {
    var cash: real
    var positions: map<Id, PositionLedger>

    ghost predicate Valid()
      reads this`positions
    {
      forall p, q :: p in positions && q in positions && p != q ==> positions[p] != positions[q]
    }

    ghost function Holdings(): map<Id, Holding>
      reads this`positions, positions.Values
    {
      map p | p in positions :: positions[p].View()
    }

    ghost function View(): Account
      reads this, positions.Values
    {
      Account(cash, Holdings())
    }

    constructor ()
      ensures Valid() && View() == EMPTY_ACCOUNT
      ensures positions == map[]
    {
      cash := 0.0;
      positions := map[];
    }

    /** The holding object of a position, created empty on first use. */
    method Position(id: Id) returns (p: PositionLedger)
      requires Valid()
      modifies this`positions
      ensures Valid()
      ensures id in positions && positions[id] == p
      ensures cash == old(cash) && p.View() == old(View()).At(id)
      ensures forall q :: q in positions && q != id ==> q in old(positions) && positions[q] == old(positions[q])
      ensures forall q :: q in old(positions) ==> q in positions && positions[q] == old(positions[q])
      ensures fresh(positions.Values - old(positions.Values))
      ensures positions[id].View() == p.View()
    {
      if id in positions {
        p := positions[id];
      } else {
        p := new PositionLedger();
        assert forall q :: q in positions ==> positions[q] in positions.Values;
        positions := positions[id := p];
      }
    }

    /** A holding object changed alone: the account's view changes at that position only. */
    method AddCost(id: Id, units: real, cost: real)
      requires Valid()
      modifies this`positions, positions.Values
      ensures Valid() && fresh(positions.Values - old(positions.Values))
      ensures Holdings() == old(Holdings())[id := old(View()).At(id).Add(units, cost)]
    {
      var p := Position(id);
      p.AddCost(units, cost);
    }

    method RemoveUnits(id: Id, units: real) returns (enough: bool)
      requires Valid()
      modifies this`positions, positions.Values
      ensures Valid() && fresh(positions.Values - old(positions.Values))
      ensures enough == (old(View()).At(id).quantity >= units)
      ensures enough ==> Holdings() == old(Holdings())[id := old(View()).At(id).Remove(units)]
    {
      var p := Position(id);
      enough := p.quantity >= units;
      if enough {
        p.RemoveUnits(units);
      }
    }

    method Value(id: Id, total: real, day: Day) returns (held: bool)
      requires Valid()
      modifies this`positions, positions.Values
      ensures Valid() && fresh(positions.Values - old(positions.Values))
      ensures held == (old(View()).At(id).quantity > 0.0)
      ensures held ==> Holdings() == old(Holdings())[id := old(View()).At(id).(
                valuationTotal := Some(total), valuedQuantity := old(View()).At(id).quantity, valuedOn := Some(day))]
    {
      var p := Position(id);
      held := p.quantity > 0.0;
      if held {
        p.Value(total, day);
      }
    }

    method MoveCash(op: Operation)
      modifies this`cash
      ensures cash == old(cash) + CashDelta(op)
    {
      match op.kind {
        case InitialBalance =>
          if op.position.None? {
            cash := cash + op.amount;
          }
        case Deposit | Income =>
          cash := cash + op.amount;
        case Withdrawal | Fee | Tax =>
          cash := cash - op.amount;
        case Buy =>
          cash := cash - (op.amount + op.fees + op.taxes);
        case Sell =>
          cash := cash + (op.amount - op.fees - op.taxes);
        case _ =>
      }
    }

    /** What the operation does to the units, cost and valuation of its own position. */
    method MoveUnits(op: Operation) returns (r: Option<Error>)
      requires Valid() && ValidShape(op) && HasPosition(op)
      modifies this`positions, positions.Values
      ensures Valid() && fresh(positions.Values - old(positions.Values))
      ensures var held := old(View()).At(op.position.value);
              r == if (op.kind.Sell? || op.kind.TransferOut?) && held.quantity < Units(op) then Some(NegativePosition)
                   else if op.kind.Valuation? && held.quantity <= 0.0 then Some(InvalidInput)
                   else None
      ensures r == None ==> Holdings() == old(Holdings())[op.position.value := Revalue(old(View()).At(op.position.value), op)]
    {
      var id := op.position.value;
      match op.kind {
        case InitialBalance | Buy =>
          AddCost(id, Units(op), op.amount + op.fees + op.taxes);
        case TransferIn =>
          AddCost(id, Units(op), op.amount);
        case Sell | TransferOut =>
          var enough := RemoveUnits(id, Units(op));
          if !enough {
            return Some(NegativePosition);
          }
        case Valuation =>
          var held := Value(id, op.amount, op.occurredOn);
          if !held {
            return Some(InvalidInput);
          }
        case _ =>
      }
      return None;
    }

    /** One operation in place. After a failure the caller discards the ledger. */
    method ApplyOperation(op: Operation) returns (r: Option<Error>)
      requires Valid()
      modifies this, positions.Values
      ensures Valid() && fresh(positions.Values - old(positions.Values))
      ensures match Apply(old(View()), op)
              case Ok(l) => r == None && View() == l
              case Err(e) => r == Some(e)
    {
      if !ValidShape(op) {
        return Some(InvalidInput);
      }
      if op.kind.InitialBalance? && op.position == Some(EMPTY) {
        return Some(InvalidInput);
      }
      if HasPosition(op) {
        r := MoveUnits(op);
        if r.Some? {
          return;
        }
      }
      MoveCash(op);
      if cash < 0.0 {
        return Some(NegativeCash);
      }
      return None;
    }
  }

  /** The rows of an account in replay order, folded into a fresh ledger. */
  method ReplayRows(rows: seq<Operation>) returns (r: Result<AccountLedger, Error>)
    ensures match Replay(rows)
            case Ok(l) => r.Ok? && fresh(r.value) && r.value.Valid() && r.value.View() == l
            case Err(e) => r == Err(e)
  {
    var ledger := new AccountLedger();
    var i := 0;
    while i < |rows|
      invariant 0 <= i <= |rows|
      invariant fresh(ledger) && ledger.Valid() && fresh(ledger.positions.Values)
      invariant Replay(rows[..i]) == Ok(ledger.View())
    {
      assert rows[..i + 1][..i] == rows[..i];
      var failed := ledger.ApplyOperation(rows[i]);
      if failed.Some? {
        ReplayPrefix(rows, i + 1);
        return Err(failed.value);
      }
      i := i + 1;
    }
    assert rows[..i] == rows;
    r := Ok(ledger);
  }
}
