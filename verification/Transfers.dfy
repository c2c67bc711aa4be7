/** What a custody move conserves: the units of the asset always, its cost within two half-units. */
module Transfers {
  import opened Wrappers
  import opened Decimals
  import opened Sequences
  import opened Domain
  import opened Ledger
  import opened Acceptance
  import opened CostBasis
  import opened Tables
  import opened LinkInvariants
  import opened Mutations
  import opened BookInvariants

  // ---- units ----

  /** The units of an asset an operation moves, if it happened by a given day. */
  function AssetUnits(positions: map<Id, PositionRow>, asset: Id, day: Day): Operation -> real {
    (op: Operation) =>
      if op.position.Some? && op.position.value in positions && positions[op.position.value].asset == asset && op.occurredOn <= day
      then SignedUnits(op) else 0.0
  }

  function HalfUnits(positions: map<Id, PositionRow>, asset: Id, day: Day): Operation -> real {
    (op: Operation) => if op.transfer.Some? then AssetUnits(positions, asset, day)(op) else 0.0
  }

  predicate OutsideTransfers(op: Operation) {
    op.transfer.None?
  }

  lemma HalvesOpposite(b: Book, out: Operation, into: Operation, asset: Id, day: Day)
    requires PairOf(b, out, into)
    ensures AssetUnits(b.positions, asset, day)(out) == -AssetUnits(b.positions, asset, day)(into)
  {
    assert SignedUnits(out) == -SignedUnits(into);
  }

  lemma PairCancels(b: Book, rows: seq<Operation>, asset: Id, day: Day)
    requires IsPair(b, rows) && forall op | op in rows :: op.transfer.Some?
    ensures Sum(rows, HalfUnits(b.positions, asset, day)) == 0.0
  {
    var f := HalfUnits(b.positions, asset, day);
    assert rows == [rows[0]] + [rows[1]] && rows[0] in rows && rows[1] in rows;
    SumConcat([rows[0]], [rows[1]], f);
    SumOne(rows[0], f);
    SumOne(rows[1], f);
    if PairOf(b, rows[0], rows[1]) {
      HalvesOpposite(b, rows[0], rows[1], asset, day);
    } else {
      HalvesOpposite(b, rows[1], rows[0], asset, day);
    }
  }

  lemma {:induction false} HalvesCancel(b: Book, ops: seq<Operation>, asset: Id, day: Day)
    requires forall t: Id :: TransferRows(ops, t) == [] || IsPair(b, TransferRows(ops, t))
    ensures Sum(ops, HalfUnits(b.positions, asset, day)) == 0.0
    decreases |ops|
  {
    var f := HalfUnits(b.positions, asset, day);
    if op :| op in ops && op.transfer.Some? {
      var t := op.transfer.value;
      var rows, rest := TransferRows(ops, t), Filter(ops, NotInTransfer(t));
      FilterMembers(ops, InTransfer(t));
      assert op in rows;
      PairCancels(b, rows, asset, day);
      FilterShorter(ops, NotInTransfer(t), op);
      forall u: Id ensures TransferRows(rest, u) == [] || IsPair(b, TransferRows(rest, u)) {
        RemainingPairs(b.(ops := ops), t, u);
      }
      HalvesCancel(b, rest, asset, day);
      SumPartition(ops, InTransfer(t), NotInTransfer(t), f);
    } else {
      SumZero(ops, f);
    }
  }

  /** As of any day, the units of an asset over all accounts are what the operations outside
      transfers add up to: a transfer neither makes units nor loses them. */
  lemma TransfersConserveUnits(b: Book, asset: Id, day: Day)
    requires TransfersAtomic(b)
    ensures Sum(b.ops, AssetUnits(b.positions, asset, day))
            == Sum(Filter(b.ops, OutsideTransfers), AssetUnits(b.positions, asset, day))
  {
    var f, g := AssetUnits(b.positions, asset, day), HalfUnits(b.positions, asset, day);
    var inside := (op: Operation) => op.transfer.Some?;
    HalvesCancel(b, b.ops, asset, day);
    SumPartition(b.ops, OutsideTransfers, inside, f);
    SumPartition(b.ops, OutsideTransfers, inside, g);
    FilterMembers(b.ops, OutsideTransfers);
    FilterMembers(b.ops, inside);
    SumZero(Filter(b.ops, OutsideTransfers), g);
    SumSame(Filter(b.ops, inside), f, g);
  }

  /** Every transfer id names exactly one outgoing and one incoming half, equal in units, cost and
      day, between two accounts holding one asset; nothing else has a transfer kind. */
  lemma TransferIsOnePair(b: Book, op: Operation)
    requires BookSound(b) && op in b.ops
    ensures op.kind.TransferOut? || op.kind.TransferIn? <==> op.transfer.Some?
    ensures op.transfer.Some? ==>
              exists out, into :: PairOf(b, out, into) && (op == out || op == into)
                                  && forall o :: o in b.ops && o.transfer == op.transfer <==> o == out || o == into
  {
    assert RowSound(b, op);
    if op.transfer.Some? {
      var t := op.transfer.value;
      var rows := TransferRows(b.ops, t);
      FilterMembers(b.ops, InTransfer(t));
      assert op in rows && IsPair(b, rows);
      var out, into := if PairOf(b, rows[0], rows[1]) then rows[0] else rows[1],
                       if PairOf(b, rows[0], rows[1]) then rows[1] else rows[0];
      assert PairOf(b, out, into);
      forall o ensures o in b.ops && o.transfer == op.transfer <==> o == out || o == into {
        assert o in rows <==> o == rows[0] || o == rows[1];
      }
    }
  }

  // ---- cost ----

  /** An account as the book stands at the end of a day. */
  function HistoryThrough(ops: seq<Operation>, day: Day, account: Id): seq<Operation> {
    History(Through(ops, day), account)
  }

  function HoldingOn(ops: seq<Operation>, day: Day, account: Id, position: Id): Result<Holding, Error> {
    match Replay(HistoryThrough(ops, day, account)) case Err(e) => Err(e) case Ok(l) => Ok(l.At(position))
  }

  /** In replay order, what happened through a day is a prefix. */
  lemma {:induction false} ThroughIsPrefix(ops: seq<Operation>, day: Day)
    requires Ordered(ops)
    ensures |Through(ops, day)| <= |ops| && Through(ops, day) == ops[..|Through(ops, day)|]
    ensures forall i | 0 <= i < |ops| :: ops[i].occurredOn <= day <==> i < |Through(ops, day)|
  {
    if ops != [] {
      var rest, last := ops[..|ops| - 1], ops[|ops| - 1];
      ThroughIsPrefix(rest, day);
      forall i | 0 <= i < |rest| ensures ops[i].occurredOn <= last.occurredOn {
        assert Before(ops[i], last);
      }
      assert forall i | 0 <= i < |rest| :: rest[i] == ops[i];
    }
  }

  /** A sound book replays as of every day. */
  lemma DayReplays(b: Book, day: Day, account: Id)
    requires BookSound(b) && IsManual(b, account)
    ensures Replay(HistoryThrough(b.ops, day, account)).Ok?
  {
    var h := History(b.ops, account);
    FilterCommutes(b.ops, DatedThrough(day), InAccount(account));
    FilterOrdered(b.ops, InAccount(account));
    ThroughIsPrefix(h, day);
    AdmissiblePrefix(h, |Through(h, day)|);
    ReplayAcceptsExactlyAdmissible(HistoryThrough(b.ops, day, account));
  }

  /** Rows after the slot of a row that is last of its day are other accounts' or later days'. */
  lemma NothingLateSameDay(ops: seq<Operation>, op: Operation)
    requires Ordered(ops)
    requires forall o | o in ops && o.account == op.account && o.occurredOn == op.occurredOn :: Before(o, op)
    ensures HistoryThrough(ops[Slot(ops, op)..], op.occurredOn, op.account) == []
  {
    var k, day := Slot(ops, op), op.occurredOn;
    var late := ops[k..];
    FilterMembers(late, DatedThrough(day));
    forall o | o in Through(late, day) ensures !InAccount(op.account)(o) {
      var i :| k <= i < |ops| && ops[i] == o;
      assert i > k ==> Before(ops[k], ops[i]);
      assert Before(op, o) && o in ops;
    }
    FilterNone(Through(late, day), InAccount(op.account));
  }

  /** A row written last of its day ends its account's history through that day. */
  lemma LastOfItsDay(ops: seq<Operation>, op: Operation)
    requires Ordered(ops)
    requires forall o | o in ops && o.account == op.account && o.occurredOn == op.occurredOn :: Before(o, op)
    ensures HistoryThrough(InsertRow(ops, op), op.occurredOn, op.account)
            == HistoryThrough(ops, op.occurredOn, op.account) + [op]
  {
    var k, day := Slot(ops, op), op.occurredOn;
    var early, late := ops[..k], ops[k..];
    assert ops == early + late;
    NothingLateSameDay(ops, op);
    ThroughSplit(early, late, day, op.account);
    ThroughSplice(early, op, late, day, op.account);
  }

  lemma ThroughSplice(a: seq<Operation>, op: Operation, b: seq<Operation>, day: Day, account: Id)
    ensures HistoryThrough(a + [op] + b, day, account)
            == HistoryThrough(a, day, account) + (if op.occurredOn <= day && op.account == account then [op] else [])
               + HistoryThrough(b, day, account)
  {
    ThroughSplit(a + [op], b, day, account);
    ThroughSplit(a, [op], day, account);
    FilterOne(op, DatedThrough(day));
    FilterOne(op, InAccount(account));
  }

  lemma ThroughSplit(a: seq<Operation>, b: seq<Operation>, day: Day, account: Id)
    ensures HistoryThrough(a + b, day, account) == HistoryThrough(a, day, account) + HistoryThrough(b, day, account)
  {
    FilterConcat(a, b, DatedThrough(day));
    FilterConcat(Through(a, day), Through(b, day), InAccount(account));
  }

  /** A row of another account does not show. */
  lemma OtherAccountsRow(ops: seq<Operation>, op: Operation, day: Day, account: Id)
    requires op.account != account
    ensures HistoryThrough(InsertRow(ops, op), day, account) == HistoryThrough(ops, day, account)
  {
    var k := Slot(ops, op);
    assert ops == ops[..k] + ops[k..];
    ThroughSplit(ops[..k], ops[k..], day, account);
    ThroughSplice(ops[..k], op, ops[k..], day, account);
  }

  /** The account's holding at the end of the day, before and after its half of the transfer. */
  lemma HalfApplied(ops: seq<Operation>, half: Operation, position: Id)
    requires Ordered(ops)
    requires forall o | o in ops && o.account == half.account && o.occurredOn == half.occurredOn :: Before(o, half)
    requires HoldingOn(ops, half.occurredOn, half.account, position).Ok?
    requires HoldingOn(InsertRow(ops, half), half.occurredOn, half.account, position).Ok?
    requires half.position == Some(position) && position != EMPTY
    ensures ValidShape(half)
    ensures HoldingOn(InsertRow(ops, half), half.occurredOn, half.account, position).value
            == Revalue(HoldingOn(ops, half.occurredOn, half.account, position).value, half)
  {
    LastOfItsDay(ops, half);
    ReplayPush(HistoryThrough(ops, half.occurredOn, half.account), half);
  }

  /** Units went from one holding to another, and the two cost together what they did: within two
      half-units of the division's last place, and exactly when the whole holding went. */
  predicate Moved(s0: Holding, s1: Holding, d0: Holding, d1: Holding, units: real) {
    && s1.quantity == s0.quantity - units && d1.quantity == d0.quantity + units
    && Distance(s1.totalCost + d1.totalCost, s0.totalCost + d0.totalCost) <= 2.0 * HALF_UNIT
    && (units == s0.quantity ==> s1.totalCost + d1.totalCost == s0.totalCost + d0.totalCost)
  }

  lemma MovedWhole(source: Holding, dest: Holding, units: real)
    requires 0.0 < units <= source.quantity
    ensures Moved(source, source.Remove(units), dest, dest.Add(units, source.CostOf(units)), units)
  {
    SplitConserves(source, units);
    RemoveCost(source, units, source.quantity - units);
  }

  /** The accounts' rows of a day are all older than an instant. */
  ghost predicate QuietSince(ops: seq<Operation>, day: Day, one: Id, other: Id, at: Instant) {
    forall op | op in ops && op.occurredOn == day && (op.account == one || op.account == other) :: op.createdAt < at
  }

  /** A committed transfer that comes last on its day in its two accounts moves exactly its units,
      and what the two holdings cost together is what they cost before, within two half-units of the
      division's last place; exactly, when the whole holding moves. */
  lemma TransferConservesCost(b: Book, move: TransferInput, transfer: Id, outId: Id, inId: Id, at: Instant)
    requires BookSound(b) && FreshFor(b, CreateTransfer(move, transfer, outId, inId, at))
    requires CreateTransferIn(b, move, transfer, outId, inId, at).Ok?
    requires QuietSince(b.ops, move.occurredOn, b.positions[move.source].account, b.positions[move.destination].account, at)
    ensures var c := CreateTransferIn(b, move, transfer, outId, inId, at).value;
            var from, to := b.positions[move.source].account, b.positions[move.destination].account;
            var s0, s1 := HoldingOn(b.ops, move.occurredOn, from, move.source), HoldingOn(c.ops, move.occurredOn, from, move.source);
            var d0, d1 := HoldingOn(b.ops, move.occurredOn, to, move.destination), HoldingOn(c.ops, move.occurredOn, to, move.destination);
            && s0.Ok? && s1.Ok? && d0.Ok? && d1.Ok?
            && Moved(s0.value, s1.value, d0.value, d1.value, move.quantity)
  {
    var c := CreateTransferIn(b, move, transfer, outId, inId, at).value;
    var from, to := b.positions[move.source].account, b.positions[move.destination].account;
    TransferReplays(b, move, transfer, outId, inId, at);
    var held := SourceOn(b, move).value;
    var out := TransferRow(b, move, held, TransferOut, transfer, outId, at);
    var into := TransferRow(b, move, held, TransferIn, transfer, inId, at);
    assert CatalogueSound(b) && move.source != EMPTY && move.destination != EMPTY;
    BothHalves(b, c, move, out, into);
    var dest := HoldingOn(b.ops, move.occurredOn, to, move.destination).value;
    MovedWhole(held, dest, move.quantity);
    assert Revalue(held, out) == held.Remove(move.quantity);
    assert Revalue(dest, into) == dest.Add(move.quantity, held.CostOf(move.quantity));
  }

  lemma TransferReplays(b: Book, move: TransferInput, transfer: Id, outId: Id, inId: Id, at: Instant)
    requires BookSound(b) && FreshFor(b, CreateTransfer(move, transfer, outId, inId, at))
    requires CreateTransferIn(b, move, transfer, outId, inId, at).Ok?
    ensures var c := CreateTransferIn(b, move, transfer, outId, inId, at).value;
            var from, to := b.positions[move.source].account, b.positions[move.destination].account;
            && HoldingOn(b.ops, move.occurredOn, from, move.source).Ok?
            && HoldingOn(c.ops, move.occurredOn, from, move.source).Ok?
            && HoldingOn(b.ops, move.occurredOn, to, move.destination).Ok?
            && HoldingOn(c.ops, move.occurredOn, to, move.destination).Ok?
  {
    var c := CreateTransferIn(b, move, transfer, outId, inId, at).value;
    var from, to := b.positions[move.source].account, b.positions[move.destination].account;
    CreateTransferSound(b, move, transfer, outId, inId, at);
    DayReplays(b, move.occurredOn, from);
    DayReplays(b, move.occurredOn, to);
    DayReplays(c, move.occurredOn, from);
    DayReplays(c, move.occurredOn, to);
  }

  lemma BothHalves(b: Book, c: Book, move: TransferInput, out: Operation, into: Operation)
    requires Ordered(b.ops) && DistinctRows(b.ops) && FreshRow(b, out.id) && FreshRow(b, into.id) && out.id != into.id
    requires c.ops == InsertRow(InsertRow(b.ops, out), into) && out.account != into.account
    requires out.occurredOn == into.occurredOn == move.occurredOn && out.createdAt == into.createdAt
    requires QuietSince(b.ops, move.occurredOn, out.account, into.account, out.createdAt)
    requires out.position == Some(move.source) && into.position == Some(move.destination)
    requires move.source != EMPTY && move.destination != EMPTY
    requires HoldingOn(b.ops, move.occurredOn, out.account, move.source).Ok?
    requires HoldingOn(c.ops, move.occurredOn, out.account, move.source).Ok?
    requires HoldingOn(b.ops, move.occurredOn, into.account, move.destination).Ok?
    requires HoldingOn(c.ops, move.occurredOn, into.account, move.destination).Ok?
    ensures ValidShape(out) && ValidShape(into)
    ensures HoldingOn(c.ops, move.occurredOn, out.account, move.source).value
            == Revalue(HoldingOn(b.ops, move.occurredOn, out.account, move.source).value, out)
    ensures HoldingOn(c.ops, move.occurredOn, into.account, move.destination).value
            == Revalue(HoldingOn(b.ops, move.occurredOn, into.account, move.destination).value, into)
  {
    var day, mid := move.occurredOn, InsertRow(b.ops, out);
    InsertRowOrdered(b.ops, out);
    OtherAccountsRow(mid, into, day, out.account);
    OtherAccountsRow(b.ops, out, day, into.account);
    HalfApplied(b.ops, out, move.source);
    HalfApplied(mid, into, move.destination);
  }
}
