/** Exactly when a custody move commits, and exactly when it can be undone. */
module CustodyMoves {
  import opened Wrappers
  import opened Decimals
  import opened Sequences
  import opened Domain
  import opened Ledger
  import opened Acceptance
  import opened CostBasis
  import opened Tables
  import opened LinkInvariants
  import opened Mutations
  import opened BookInvariants
  import opened Transfers
  import opened Retroactive

  /** A row of another account's is not seen; one of the account's own is spliced in somewhere. */
  lemma SecondRowSplices(ops: seq<Operation>, op: Operation, account: Id) returns (s: nat)
    ensures s <= |History(ops, account)|
    ensures op.account == account ==> History(InsertRow(ops, op), account) == Splice(History(ops, account), s, op)
    ensures op.account != account ==> History(InsertRow(ops, op), account) == History(ops, account)
  {
    HistoryOfInsert(ops, op, account);
    s := if op.account == account then |History(ops[..Slot(ops, op)], account)| else 0;
  }

  lemma BothReplay(b: Book, x: Id, y: Id)
    requires IsManual(b, x) && IsManual(b, y)
    ensures FirstFailure(b, [x, y]).None? <==> Replay(History(b.ops, x)).Ok? && Replay(History(b.ops, y)).Ok?
  {
    assert [x, y][..1] == [x];
    OneTouched(b, x);
  }

  /** The incoming half never stands in the way: only the source account's replay decides. */
  lemma HalvesReplay(b: Book, out: Operation, into: Operation)
    requires BookSound(b) && IsManual(b, out.account) && IsManual(b, into.account) && out.account != into.account
    requires FreshRow(b, out.id) && WellFormed(out) && WellFormed(into) && out.kind.TransferOut? && into.kind.TransferIn?
    ensures SlotInHistory(b.ops, out) <= |History(b.ops, out.account)|
    ensures var c := b.(ops := InsertRow(InsertRow(b.ops, out), into));
            Replay(History(c.ops, out.account)).Ok? && Replay(History(c.ops, into.account)).Ok? <==>
            UnitsCanLeave(History(b.ops, out.account), SlotInHistory(b.ops, out), out.position.value, Units(out))
  {
    var mid := InsertRow(b.ops, out);
    var unseen := SecondRowSplices(mid, into, out.account);
    var unmoved := SecondRowSplices(b.ops, out, into.account);
    var t := SecondRowSplices(mid, into, into.account);
    assert Admissible(History(b.ops, into.account)) && Admissible(History(b.ops, out.account));
    RetroactiveTransferIn(History(b.ops, into.account), t, into);
    SlotSplitsHistory(b.ops, out);
    RetroactiveTransferOut(History(b.ops, out.account), SlotInHistory(b.ops, out), out);
  }

  /** A transfer between two acceptable positions commits if and only if the units were held at the
      end of its day and can leave the source from its moment on. */
  lemma TransferExactly(b: Book, move: TransferInput, transfer: Id, outId: Id, inId: Id, at: Instant)
    requires BookSound(b) && FreshFor(b, CreateTransfer(move, transfer, outId, inId, at)) && TransferJudgement(b, move).None?
    ensures SourceOn(b, move).Ok?
    ensures var held := SourceOn(b, move).value;
            var out := TransferRow(b, move, held, TransferOut, transfer, outId, at);
            var h, s := History(b.ops, out.account), SlotInHistory(b.ops, out);
            && s <= |h|
            && (Perform(b, CreateTransfer(move, transfer, outId, inId, at)).Ok? <==>
                held.quantity >= move.quantity && UnitsCanLeave(h, s, move.source, move.quantity))
  {
    var from := b.positions[move.source].account;
    DayReplays(b, move.occurredOn, from);
    var past := History(Through(b.ops, move.occurredOn), from);
    ReplayedHoldingsSound(past, move.source);
    var held := SourceOn(b, move).value;
    var out := TransferRow(b, move, held, TransferOut, transfer, outId, at);
    var into := TransferRow(b, move, held, TransferIn, transfer, inId, at);
    HalvesWellFormed(b, move, held, transfer, outId, inId, at);
    HalvesReplay(b, out, into);
    BothReplay(b.(ops := InsertRow(InsertRow(b.ops, out), into)), out.account, into.account);
  }

  lemma HalvesWellFormed(b: Book, move: TransferInput, held: Holding, transfer: Id, outId: Id, inId: Id, at: Instant)
    requires CatalogueSound(b) && TransferJudgement(b, move).None? && Sound(held)
    ensures WellFormed(TransferRow(b, move, held, TransferOut, transfer, outId, at))
    ensures WellFormed(TransferRow(b, move, held, TransferIn, transfer, inId, at))
  {
    CostOfNonNegative(held, move.quantity);
    AverageNonNegative(held);
  }

  lemma AverageNonNegative(h: Holding)
    requires Sound(h)
    ensures h.AverageCost() >= 0.0
  {
    if h.quantity > 0.0 {
      DivNonNegative(h.totalCost, h.quantity);
    }
  }

  // ---- undoing ----

  /** Of an account's rows, dropping a transfer drops the one half the account has of it. */
  lemma HalfIsOneRow(b: Book, half: Operation, transfer: Id, o: Operation)
    requires DistinctRows(b.ops) && half in b.ops && half.transfer == Some(transfer)
    requires forall x | x in b.ops && x.transfer == Some(transfer) && x.account == half.account :: x == half
    requires o in History(b.ops, half.account)
    ensures NotInTransfer(transfer)(o) <==> OtherThan(half.id)(o)
  {
    FilterMember(b.ops, InAccount(half.account), o);
  }

  /** With a transfer gone, an account of one of its halves has the history it had without that half. */
  lemma HistoryWithoutHalf(b: Book, half: Operation, transfer: Id) returns (s: nat)
    requires DistinctRows(b.ops) && half in b.ops && half.transfer == Some(transfer)
    requires forall x | x in b.ops && x.transfer == Some(transfer) && x.account == half.account :: x == half
    ensures s < |History(b.ops, half.account)| && History(b.ops, half.account)[s] == half
    ensures History(Filter(b.ops, NotInTransfer(transfer)), half.account) == Without(History(b.ops, half.account), s)
  {
    s := HistoryWithout(b.ops, half);
    FilterCommutes(b.ops, NotInTransfer(transfer), InAccount(half.account));
    FilterCommutes(b.ops, OtherThan(half.id), InAccount(half.account));
    forall o | o in History(b.ops, half.account) ensures NotInTransfer(transfer)(o) <==> OtherThan(half.id)(o) {
      HalfIsOneRow(b, half, transfer, o);
    }
    FilterSame(History(b.ops, half.account), NotInTransfer(transfer), OtherThan(half.id));
  }

  /** Units that left come back without harm. */
  lemma OutgoingHalfGoes(history: seq<Operation>, s: nat)
    requires s < |history| && Admissible(history) && history[s].kind.TransferOut?
    ensures Replay(Without(history, s)).Ok?
  {
    assert Placed(history[..s], history[s]);
    forall k | s < k <= |history| ensures SurvivesAt(history, s, k) {
      assert Solvent(history[..k]);
    }
    RemovalExactly(history, s);
    ReplayAcceptsExactlyAdmissible(Without(history, s));
  }

  /** Units that came in can go again exactly when nothing later needed them. */
  lemma IncomingHalfGoes(history: seq<Operation>, s: nat)
    requires s < |history| && Admissible(history) && history[s].kind.TransferIn?
    ensures HasPosition(history[s])
    ensures Replay(Without(history, s)).Ok? <==> UnitsCanLeave(history, s + 1, history[s].position.value, Units(history[s]))
  {
    assert Placed(history[..s], history[s]);
    var p, units := history[s].position.value, Units(history[s]);
    RemovalExactly(history, s);
    ReplayAcceptsExactlyAdmissible(Without(history, s));
    forall k | s < k <= |history|
      ensures SurvivesAt(history, s, k) <==>
              UnitsAt(history, k, p) >= units && (k < |history| && Values(history[k], p) ==> UnitsAt(history, k, p) > units)
    {
      assert Solvent(history[..k]);
    }
    if Survives(history, s) {
      forall k | s < k <= |history| ensures UnitsAt(history, k, p) >= units && (k < |history| && Values(history[k], p) ==> UnitsAt(history, k, p) > units) {
        assert SurvivesAt(history, s, k);
      }
    }
  }

  /** The two rows of a transfer, told apart. */
  lemma HalvesOf(b: Book, transfer: Id) returns (out: Operation, into: Operation)
    requires BookSound(b) && TransferRows(b.ops, transfer) != []
    ensures PairOf(b, out, into) && out in b.ops && into in b.ops
    ensures out.transfer == Some(transfer) && into.transfer == Some(transfer)
    ensures TransferRows(b.ops, transfer) == [out, into] || TransferRows(b.ops, transfer) == [into, out]
    ensures forall o | o in b.ops && o.transfer == Some(transfer) :: o == out || o == into
    ensures IsManual(b, out.account) && IsManual(b, into.account)
  {
    var rows := TransferRows(b.ops, transfer);
    FilterMembers(b.ops, InTransfer(transfer));
    assert IsPair(b, rows) && rows[0] in rows && rows[1] in rows && rows == [rows[0], rows[1]];
    out, into := if PairOf(b, rows[0], rows[1]) then rows[0] else rows[1], if PairOf(b, rows[0], rows[1]) then rows[1] else rows[0];
    assert RowSound(b, out) && RowSound(b, into);
  }

  lemma DeleteTransferReplays(b: Book, transfer: Id, out: Operation, into: Operation)
    requires transfer != EMPTY && IsManual(b, out.account) && IsManual(b, into.account)
    requires TransferRows(b.ops, transfer) == [out, into] || TransferRows(b.ops, transfer) == [into, out]
    ensures Perform(b, DeleteTransfer(transfer)).Ok? <==>
            var ops := Filter(b.ops, NotInTransfer(transfer));
            Replay(History(ops, out.account)).Ok? && Replay(History(ops, into.account)).Ok?
  {
    var c := b.(ops := Filter(b.ops, NotInTransfer(transfer)));
    BothReplay(c, out.account, into.account);
    BothReplay(c, into.account, out.account);
  }

  /** A transfer can be deleted if and only if what it brought can leave the destination again. */
  lemma DeletingTransferExactly(b: Book, transfer: Id) returns (into: Operation, s: nat)
    requires BookSound(b) && transfer != EMPTY && TransferRows(b.ops, transfer) != []
    ensures into in b.ops && into.transfer == Some(transfer) && into.kind.TransferIn? && HasPosition(into)
    ensures s < |History(b.ops, into.account)| && History(b.ops, into.account)[s] == into
    ensures Perform(b, DeleteTransfer(transfer)).Ok? <==>
            UnitsCanLeave(History(b.ops, into.account), s + 1, into.position.value, Units(into))
  {
    var out;
    out, into := HalvesOf(b, transfer);
    var r := HistoryWithoutHalf(b, out, transfer);
    s := HistoryWithoutHalf(b, into, transfer);
    AccountsAdmissible(b, out.account, into.account);
    OutgoingHalfGoes(History(b.ops, out.account), r);
    IncomingHalfGoes(History(b.ops, into.account), s);
    DeleteTransferReplays(b, transfer, out, into);
  }

  lemma AccountsAdmissible(b: Book, x: Id, y: Id)
    requires BookSound(b) && IsManual(b, x) && IsManual(b, y)
    ensures Admissible(History(b.ops, x)) && Admissible(History(b.ops, y))
  {
  }
}
