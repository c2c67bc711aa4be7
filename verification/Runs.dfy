/** Safety over whole runs: any sequence of requests from any sound book. */
module Runs {
  import opened Wrappers
  import opened Decimals
  import opened Sequences
  import opened Domain
  import opened Ledger
  import opened Acceptance
  import opened Tables
  import opened Reconciliation
  import opened LinkInvariants
  import opened LinkEffects
  import opened BulkUnlink
  import opened Mutations
  import opened BookInvariants
  import opened Committed

  // ---- link requests and the ledger side of the book ----

  /** The ledger side of a book: catalogue, rows, pairs and manual histories. */
  ghost predicate LedgerSound(b: Book) {
    CatalogueSound(b) && RowsSound(b) && TransfersAtomic(b) && HistoriesSound(b)
  }

  /** A synced row enters or leaves integrated custody without touching a manual history. */
  lemma PivotRowInvisible(b: Book, row: Operation)
    requires LedgerSound(b) && RowSound(b, row) && row.origin.Synced?
    requires LinksSound(b) && FreshRow(b, row.id)
    ensures LedgerSound(b.(ops := InsertRow(b.ops, row)))
  {
    var c := b.(ops := InsertRow(b.ops, row));
    InsertRowOrdered(b.ops, row);
    TwoRowsSound(b, row, row, c);
    PlainInsertKeepsPairs(b, row);
    forall a | IsManual(c, a) ensures Admissible(History(c.ops, a)) {
      HistoryOfInsert(b.ops, row, a);
      assert IsManual(b, a);
    }
  }

  lemma DropSyncedRowInvisible(b: Book, id: Id)
    requires LedgerSound(b) && LinksSound(b) && IsSyncedRow(b.ops, id)
    ensures LedgerSound(b.(ops := WithoutRow(b.ops, id)))
  {
    var c := b.(ops := WithoutRow(b.ops, id));
    var row :| row in b.ops && row.id == id && row.origin.Synced?;
    forall op | op in b.ops && op.id == id ensures op == row {
    }
    assert RowSound(b, row);
    FilterKeepsRows(b, OtherThan(id));
    forall a | IsManual(c, a) ensures Admissible(History(c.ops, a)) {
      HistoryOfFilter(b.ops, OtherThan(id), a);
      assert IsManual(b, a);
    }
    forall t: Id ensures TransferRows(c.ops, t) == TransferRows(b.ops, t) {
      PlainFilterKeepsPairs(b.ops, OtherThan(id), t);
    }
  }

  /** Changing links or bank lines alone does not reach the ledger side. */
  lemma LedgerLooksPastLinks(b: Book, c: Book)
    requires LedgerSound(b)
    requires c.custodies == b.custodies && c.accounts == b.accounts && c.positions == b.positions
    requires c.movements == b.movements && c.ops == b.ops
    ensures LedgerSound(c)
  {
    LinksOnlyKeepsRows(b, c);
    forall a | IsManual(c, a) ensures Admissible(History(c.ops, a)) {
      assert IsManual(b, a);
    }
  }

  lemma RemoveLinkKeepsLedger(b: Book, gone: Link)
    requires LedgerSound(b) && LinksSound(b)
    ensures LedgerSound(RemoveLink(b, gone))
  {
    var c := RemoveLink(b, gone);
    if c.ops != b.ops {
      DropSyncedRowInvisible(b, gone.operation);
      LedgerLooksPastLinks(b.(ops := c.ops), c);
    } else {
      LedgerLooksPastLinks(b, c);
    }
  }

  lemma {:induction false} RemovalsKeepLedger(b: Book, read: seq<Link>)
    requires LedgerSound(b)
    requires forall k | 0 <= k <= |read| :: LinksSound(RemoveAsRead(b, read[..k]))
    ensures LedgerSound(RemoveAsRead(b, read))
  {
    if read != [] {
      var rest := read[..|read| - 1];
      assert forall k | 0 <= k <= |rest| :: rest[..k] == read[..k];
      RemovalsKeepLedger(b, rest);
      assert rest[..|rest|] == rest;
      RemoveLinkKeepsLedger(RemoveAsRead(b, rest), read[|read| - 1]);
    }
  }

  lemma RemoveAsReadKeepsLedger(b: Book, line: Id)
    requires LedgerSound(b) && LinksSound(b)
    ensures LedgerSound(RemoveAsRead(b, LinesRead(b, line)))
  {
    var read := LinesRead(b, line);
    forall k | 0 <= k <= |read| ensures LinksSound(RemoveAsRead(b, read[..k])) {
      ReadOnceIsEnough(b, line, k);
    }
    RemovalsKeepLedger(b, read);
  }

  /** Giving sources their accounts adds integrated accounts only: every source of a movement then
      has its own, and no manual account or history changes. */
  lemma WithCustodiesSound(b: Book)
    requires LedgerSound(b)
    ensures LedgerSound(WithCustodies(b))
    ensures forall a | a in b.accounts :: a in WithCustodies(b).accounts && WithCustodies(b).accounts[a] == b.accounts[a]
    ensures forall a | a in WithCustodies(b).accounts && a !in b.accounts :: WithCustodies(b).accounts[a].kind.IntegratedAccount?
    ensures forall m | m in b.movements ::
              && b.movements[m].custody in WithCustodies(b).accounts
              && WithCustodies(b).accounts[b.movements[m].custody] == AccountRow(IntegratedAccount, Some(b.movements[m].source))
  {
    var c := WithCustodies(b);
    CustodiesAdded(b);
    forall a ensures IsManual(c, a) <==> IsManual(b, a) {
    }
    forall op | op in c.ops ensures RowSound(c, op) {
      assert RowSound(b, op);
    }
    forall t: Id ensures TransferRows(c.ops, t) == [] || IsPair(c, TransferRows(c.ops, t)) {
      assert TransferRows(b.ops, t) == [] || IsPair(b, TransferRows(b.ops, t));
    }
    forall a | IsManual(c, a) ensures Admissible(History(c.ops, a)) {
      assert IsManual(b, a);
    }
  }

  lemma CustodiesAdded(b: Book)
    requires CustodiesSound(b)
    ensures CustodiesSound(WithCustodies(b))
    ensures forall c | c in b.custodies :: c in WithCustodies(b).accounts
  {
    forall c | c in b.custodies ensures c in WithCustodies(b).accounts {
      if HasAccount(b.accounts, b.custodies[c]) {
        var a :| a in b.accounts && b.accounts[a].source == Some(b.custodies[c]);
        assert a == c;
      } else {
        assert c in MissingCustodies(b);
      }
    }
  }

  predicate DerivesPivot(b: Book, input: LinkInput, stamp: LinkStamp) {
    input.operation == EMPTY && Trimmed(input.movement).Some?
    && match EnsurePivot(b, Trimmed(input.movement).value, stamp) case Ok(p) => !p.reused case Err(_) => false
  }

  /** An accepted link request adds a link and, when it derives a pivot, one synced row. */
  lemma CreateLinkShape(b: Book, input: LinkInput, stamp: LinkStamp)
    requires CreateLink(b, input, stamp).Ok?
    ensures var c := CreateLink(b, input, stamp).value;
            if DerivesPivot(b, input, stamp) then
              && Trimmed(input.movement).value in b.movements && Pivotable(b.movements[Trimmed(input.movement).value])
              && c == WithCustodies(b).(links := c.links, ops := InsertRow(b.ops, PivotRow(b.movements[Trimmed(input.movement).value], stamp)))
            else c == b.(links := c.links)
  {
  }

  lemma CreateReconciliationSound(b: Book, input: LinkInput, stamp: LinkStamp)
    requires BookSound(b) && FreshStamp(b, stamp) && CreateLink(b, input, stamp).Ok?
    ensures BookSound(CreateLink(b, input, stamp).value)
  {
    CreateLinkSound(b, input, stamp);
    CreateLinkShape(b, input, stamp);
    var c := CreateLink(b, input, stamp).value;
    if DerivesPivot(b, input, stamp) {
      var d, row := WithCustodies(b), PivotRow(b.movements[Trimmed(input.movement).value], stamp);
      WithCustodiesSound(b);
      CatalogueDoesNotMatter(b, d);
      PivotRowInvisible(d, row);
      LedgerLooksPastLinks(d.(ops := InsertRow(d.ops, row)), c);
    } else {
      LedgerLooksPastLinks(b, c);
    }
  }

  lemma IgnoreTransactionSound(b: Book, line: Id)
    requires BookSound(b) && line in b.lines
    ensures BookSound(IgnoreLine(b, line))
  {
    var row := b.lines[line].(ignored := true);
    var read := LinesRead(b, line);
    IgnoreLineSound(b, line);
    RemoveAsReadKeepsLedger(b, line);
    RemoveAsReadFrame(b, b.lines[line := row], read);
    LedgerLooksPastLinks(UnlinkLine(b, line), IgnoreLine(b, line));
  }

  lemma ConsiderTransactionSound(b: Book, line: Id)
    requires BookSound(b) && line in b.lines
    ensures BookSound(ConsiderLine(b, line))
  {
    ConsiderLineSound(b, line);
    LedgerLooksPastLinks(b, ConsiderLine(b, line));
  }

  // ---- one request ----

  /** Every request keeps the book sound, accepted or refused. */
  lemma NextKeepsBookSound(b: Book, request: Request)
    requires BookSound(b) && FreshFor(b, request)
    ensures BookSound(Next(b, request))
  {
    if Perform(b, request).Ok? {
      match request {
        case CreateOperations(inputs, link, rows, stamp) => CreateOperationsSound(b, inputs, link, rows, stamp);
        case UpdateOperation(id, input) => UpdateOperationSound(b, id, input);
        case DeleteOperation(id) => DeleteOperationSound(b, id);
        case CreateTransfer(move, transfer, outId, inId, at) => CreateTransferSound(b, move, transfer, outId, inId, at);
        case DeleteTransfer(transfer) => DeleteTransferSound(b, transfer);
        case CreatePosition(opening, position, row, today) => CreatePositionSound(b, opening, position, row, today);
        case CreateReconciliation(reconcile, stamp) => CreateReconciliationSound(b, reconcile, stamp);
        case DeleteReconciliation(id) =>
          var link := FindLink(b.links, id).value;
          RemoveLinkSound(b, link);
          RemoveLinkKeepsLedger(b, link);
        case IgnoreTransaction(line) => IgnoreTransactionSound(b, line);
        case ConsiderTransaction(line) => ConsiderTransactionSound(b, line);
      }
    }
  }

  /** The one request that can leave a pivot with two movements: attaching a movement to an
      operation by name when that operation is a synced one. */
  predicate AttachesToPivot(b: Book, request: Request) {
    request.CreateReconciliation? && request.reconcile.operation != EMPTY
    && Trimmed(request.reconcile.movement).Some? && IsSyncedRow(b.ops, request.reconcile.operation)
  }

  lemma CreateOperationsKeepsPivots(b: Book, inputs: seq<OperationInput>, link: Option<LinkInput>, rows: seq<RowStamp>, stamp: LinkStamp)
    requires BookSound(b) && PivotsSound(b) && |inputs| == |rows| && FreshFor(b, CreateOperations(inputs, link, rows, stamp))
    requires CreateOperationsIn(b, inputs, link, rows, stamp).Ok?
    ensures PivotsSound(CreateOperationsIn(b, inputs, link, rows, stamp).value)
  {
    InsertInputsSound(b, inputs, rows);
    var c := InsertInputs(b, inputs, rows).value;
    SamePivots(b, c);
    if link.Some? {
      var input := link.value.(operation := rows[0].id);
      forall op | op in c.ops && op.id == rows[0].id ensures op.origin.Manual? {
        assert FreshRow(b, rows[0].id);
      }
      assert FreshRow(c, stamp.pivot);
      CreateLinkKeepsPivotsExactly(c, input, stamp);
    }
  }

  lemma FilterKeepsPivots(b: Book, keep: Operation -> bool)
    requires PivotsSound(b)
    ensures PivotsSound(b.(ops := Filter(b.ops, keep)))
  {
    FilterMembers(b.ops, keep);
    SamePivots(b, b.(ops := Filter(b.ops, keep)));
  }

  lemma ManualRowKeepsPivots(b: Book, op: Operation)
    requires PivotsSound(b) && op.origin.Manual?
    ensures PivotsSound(b.(ops := InsertRow(b.ops, op)))
  {
    InsertRowMembers(b.ops, op);
    SamePivots(b, b.(ops := InsertRow(b.ops, op)));
  }

  lemma UpdateKeepsPivots(b: Book, id: Id, input: OperationInput)
    requires BookSound(b) && PivotsSound(b) && UpdateOperationIn(b, id, input).Ok?
    ensures PivotsSound(UpdateOperationIn(b, id, input).value)
  {
    UpdateIsReplacement(b, id, input);
    EditKeepsPivots(b, Stored(Draft(input, RowStamp(id, CurrentEditable(b, id).value.createdAt))));
  }

  lemma PositionKeepsPivots(b: Book, input: PositionInput, position: Id, row: RowStamp, today: Day)
    requires LinksSound(b) && PivotsSound(b) && FreshRow(b, row.id)
    requires CreatePositionIn(b, input, position, row, today).Ok?
    ensures PivotsSound(CreatePositionIn(b, input, position, row, today).value)
  {
    var c := b.(positions := b.positions[position := PositionRow(input.account, input.asset)]);
    SamePivots(b, c);
    ManualRowKeepsPivots(c, OpeningRow(input, position, row, today));
  }

  lemma TransferKeepsPivots(b: Book, move: TransferInput, transfer: Id, outId: Id, inId: Id, at: Instant)
    requires BookSound(b) && PivotsSound(b) && FreshFor(b, CreateTransfer(move, transfer, outId, inId, at))
    requires CreateTransferIn(b, move, transfer, outId, inId, at).Ok?
    ensures PivotsSound(CreateTransferIn(b, move, transfer, outId, inId, at).value)
  {
    var held := SourceOn(b, move).value;
    var out := TransferRow(b, move, held, TransferOut, transfer, outId, at);
    var into := TransferRow(b, move, held, TransferIn, transfer, inId, at);
    ManualRowKeepsPivots(b, out);
    ManualRowKeepsPivots(b.(ops := InsertRow(b.ops, out)), into);
  }

  /** An accepted attachment of that kind. */
  predicate BreaksPivot(b: Book, request: Request)
    requires WellTyped(request)
  {
    AttachesToPivot(b, request) && Perform(b, request).Ok?
  }

  /** Requests about operations and positions. */
  lemma RowRequestsKeepPivots(b: Book, request: Request)
    requires BookSound(b) && PivotsSound(b) && FreshFor(b, request) && Perform(b, request).Ok?
    requires request.CreateOperations? || request.UpdateOperation? || request.DeleteOperation?
             || request.CreateTransfer? || request.DeleteTransfer? || request.CreatePosition?
    ensures PivotsSound(Perform(b, request).value)
  {
    match request {
      case CreateOperations(inputs, link, rows, stamp) => CreateOperationsKeepsPivots(b, inputs, link, rows, stamp);
      case UpdateOperation(id, input) => UpdateKeepsPivots(b, id, input);
      case DeleteOperation(id) => FilterKeepsPivots(b, OtherThan(id));
      case CreateTransfer(move, transfer, outId, inId, at) => TransferKeepsPivots(b, move, transfer, outId, inId, at);
      case DeleteTransfer(transfer) => FilterKeepsPivots(b, NotInTransfer(transfer));
      case CreatePosition(opening, position, row, today) => PositionKeepsPivots(b, opening, position, row, today);
    }
  }

  /** One request keeps one pivot per movement and one marked parcel per pivot if and only if it
      is not an accepted attachment of a movement to a named synced operation. */
  lemma NextKeepsPivotsExactly(b: Book, request: Request)
    requires BookSound(b) && PivotsSound(b) && FreshFor(b, request)
    ensures PivotsSound(Next(b, request)) <==> !BreaksPivot(b, request)
  {
    if Perform(b, request).Ok? {
      match request {
        case CreateReconciliation(reconcile, stamp) => CreateLinkKeepsPivotsExactly(b, reconcile, stamp);
        case DeleteReconciliation(id) => RemoveLinkKeepsPivots(b, FindLink(b.links, id).value);
        case IgnoreTransaction(line) => IgnoreLineSound(b, line);
        case ConsiderTransaction(line) => ConsiderLineSound(b, line);
        case _ => RowRequestsKeepPivots(b, request);
      }
    }
  }

  // ---- runs ----

  /** The books a sequence of requests goes through, each request drawing new ids. */
  ghost predicate IsRun(books: seq<Book>, requests: seq<Request>) {
    && |books| == |requests| + 1
    && forall i | 0 <= i < |requests| :: FreshFor(books[i], requests[i]) && books[i + 1] == Next(books[i], requests[i])
  }

  lemma {:induction false} RunStaysSound(books: seq<Book>, requests: seq<Request>, n: nat)
    requires IsRun(books, requests) && BookSound(books[0]) && n <= |requests|
    ensures BookSound(books[n])
  {
    if n > 0 {
      RunStaysSound(books, requests, n - 1);
      NextKeepsBookSound(books[n - 1], requests[n - 1]);
    }
  }

  /** In every book of every run, no prefix of any manual account's history overdraws its cash or
      a position, and every valuation in it falls on units held at that moment. */
  lemma NoPrefixEverOverdrawn(books: seq<Book>, requests: seq<Request>, n: nat, account: Id, k: nat)
    requires IsRun(books, requests) && BookSound(books[0]) && n <= |requests|
    requires IsManual(books[n], account) && k <= |History(books[n].ops, account)|
    ensures Replay(History(books[n].ops, account)[..k]).Ok?
    ensures Cash(History(books[n].ops, account)[..k]) >= 0.0
    ensures forall p: Id :: PositionUnits(History(books[n].ops, account)[..k], p) >= 0.0
    ensures k > 0 && History(books[n].ops, account)[k - 1].kind.Valuation? ==>
              PositionUnits(History(books[n].ops, account)[..k - 1], History(books[n].ops, account)[k - 1].position.value) > 0.0
  {
    RunStaysSound(books, requests, n);
    var h := History(books[n].ops, account);
    assert Admissible(h) && Solvent(h[..k]);
    assert k > 0 ==> Placed(h[..k - 1], h[k - 1]);
    AdmissiblePrefix(h, k);
    ReplayAcceptsExactlyAdmissible(h[..k]);
  }

  /** In every book of every run, the links of an operation total at most its amount, the links of
      a bank line at most its value, and every linked line points the way its operation does. */
  lemma CapsHoldOverEveryRun(books: seq<Book>, requests: seq<Request>, n: nat)
    requires IsRun(books, requests) && BookSound(books[0]) && n <= |requests|
    ensures forall op | op in books[n].ops :: Allocated(books[n].links, OfOperation(op.id)) <= op.amount
    ensures forall line: Id | LineValue(books[n], line).Ok? ::
              Allocated(books[n].links, OfLine(line)) <= Abs(LineValue(books[n], line).value)
    ensures forall l | l in books[n].links && l.line.Some? ::
              exists op | op in books[n].ops :: op.id == l.operation && PointsRight(books[n], op, l.line.value)
  {
    RunStaysSound(books, requests, n);
    var b := books[n];
    forall l | l in b.links && l.line.Some? ensures exists op | op in b.ops :: op.id == l.operation && PointsRight(b, op, l.line.value) {
      assert LinkSound(b, l);
      var op :| op in b.ops && Fits(b, op, l);
    }
  }

  /** In every book of every run, every link holds some money of an operation that moves cash, and
      the bank line it names is in reais, in the totals, and paid out for a deposit, a fee or a tax
      and paid in for a withdrawal or income. */
  lemma EvidenceFacesOverEveryRun(books: seq<Book>, requests: seq<Request>, n: nat, l: Link) returns (op: Operation)
    requires IsRun(books, requests) && BookSound(books[0]) && n <= |requests| && l in books[n].links
    ensures op in books[n].ops && op.id == l.operation && op.kind in {Deposit, Withdrawal, Income, Fee, Tax}
    ensures 0.0 < l.amount <= op.amount && (l.line.Some? || l.movement.Some?)
    ensures l.line.Some? ==> FacesLine(books[n], op.kind, l.line.value) && l.amount <= Abs(books[n].lines[l.line.value].value.value)
  {
    RunStaysSound(books, requests, n);
    var b := books[n];
    assert LinkSound(b, l);
    op :| op in b.ops && Fits(b, op, l);
    OneWithinAll(b, l, OfOperation(op.id));
    if l.line.Some? {
      OneWithinAll(b, l, OfLine(l.line.value));
    }
  }

  lemma OneWithinAll(b: Book, l: Link, c: Column)
    requires LinksSound(b) && l in b.links && OnColumn(l, c)
    ensures l.amount <= Allocated(b.links, c)
  {
    forall x | x in b.links ensures Parcel(c)(x) >= 0.0 {
      assert LinkSound(b, x);
    }
    SumAtLeast(b.links, l, Parcel(c));
  }

  /** In every book of every run, an account's history goes by day, then by creation, then by id. */
  lemma HistoriesInOrderOverEveryRun(books: seq<Book>, requests: seq<Request>, n: nat, account: Id, i: nat, j: nat)
    requires IsRun(books, requests) && BookSound(books[0]) && n <= |requests|
    requires i < j < |History(books[n].ops, account)|
    ensures var a, c := History(books[n].ops, account)[i], History(books[n].ops, account)[j];
            && a.occurredOn <= c.occurredOn
            && (a.occurredOn == c.occurredOn ==> a.createdAt <= c.createdAt)
            && (a.occurredOn == c.occurredOn && a.createdAt == c.createdAt ==> a.id < c.id)
  {
    RunStaysSound(books, requests, n);
    FilterOrdered(books[n].ops, InAccount(account));
    assert Before(History(books[n].ops, account)[i], History(books[n].ops, account)[j]);
  }

  /** In every book of every run, every row of a manual account is complete for its kind. */
  lemma RowsCompleteOverEveryRun(books: seq<Book>, requests: seq<Request>, n: nat, op: Operation)
    requires IsRun(books, requests) && BookSound(books[0]) && n <= |requests|
    requires op in books[n].ops && IsManual(books[n], op.account)
    ensures CompleteRow(op)
  {
    RunStaysSound(books, requests, n);
    RowOfManualAccountComplete(books[n], op);
  }

  lemma {:induction false} PivotsReach(books: seq<Book>, requests: seq<Request>, n: nat)
    requires IsRun(books, requests) && BookSound(books[0]) && PivotsSound(books[0]) && n <= |requests|
    requires forall i | 0 <= i < n :: !BreaksPivot(books[i], requests[i])
    ensures PivotsSound(books[n])
  {
    if n > 0 {
      PivotsReach(books, requests, n - 1);
      RunStaysSound(books, requests, n - 1);
      NextKeepsPivotsExactly(books[n - 1], requests[n - 1]);
    }
  }

  /** Over every run, while no movement has been attached to a named synced operation, each
      movement has at most one pivot, each pivot exactly one parcel carrying the movement, and its
      parcels never total more than the movement. */
  lemma PivotsHoldOverEveryRun(books: seq<Book>, requests: seq<Request>, n: nat)
    requires IsRun(books, requests) && BookSound(books[0]) && PivotsSound(books[0]) && n <= |requests|
    requires forall i | 0 <= i < n :: !BreaksPivot(books[i], requests[i])
    ensures forall op, m: Id | PivotFor(books[n], op, m) ::
              && (forall p | PivotFor(books[n], p, m) :: p == op)
              && (exists l | l in books[n].links :: Carries(l, op.id, m) && forall k | k in books[n].links && Marked(k, op.id) :: k == l)
              && m in books[n].movements && books[n].movements[m].amount.Some?
              && Allocated(books[n].links, OfOperation(op.id)) <= Abs(books[n].movements[m].amount.value)
  {
    PivotsReach(books, requests, n);
    RunStaysSound(books, requests, n);
    forall op, m: Id | PivotFor(books[n], op, m)
      ensures forall p | PivotFor(books[n], p, m) :: p == op
      ensures exists l | l in books[n].links :: Carries(l, op.id, m) && forall k | k in books[n].links && Marked(k, op.id) :: k == l
      ensures m in books[n].movements && books[n].movements[m].amount.Some?
      ensures Allocated(books[n].links, OfOperation(op.id)) <= Abs(books[n].movements[m].amount.value)
    {
      PivotNeverExceedsItsMovement(books[n], op, m);
    }
  }

  /** The pivots stay sound throughout a run if and only if no request of it is an accepted
      attachment of a movement to a named synced operation. */
  lemma PivotsStaySoundExactly(books: seq<Book>, requests: seq<Request>)
    requires IsRun(books, requests) && BookSound(books[0]) && PivotsSound(books[0])
    ensures (forall n | 0 <= n <= |requests| :: PivotsSound(books[n])) <==>
            (forall i | 0 <= i < |requests| :: !BreaksPivot(books[i], requests[i]))
  {
    if forall i | 0 <= i < |requests| :: !BreaksPivot(books[i], requests[i]) {
      forall n | 0 <= n <= |requests| ensures PivotsSound(books[n]) {
        PivotsReach(books, requests, n);
      }
    }
    if forall n | 0 <= n <= |requests| :: PivotsSound(books[n]) {
      forall i | 0 <= i < |requests| ensures !BreaksPivot(books[i], requests[i]) {
        RunStaysSound(books, requests, i);
        assert PivotsSound(books[i + 1]);
        NextKeepsPivotsExactly(books[i], requests[i]);
      }
    }
  }

  // ---- the run that breaks a pivot ----

  const CUSTODY: Movement := Movement(Some(100.0), true, Inflow, false, Some(20000), 9, 1)
  const PROVIDER_BOOK: Book :=
    Book(map[1 := 9], map[], map[], {}, map[], map[5 := CUSTODY, 6 := CUSTODY], [], [])
  const DERIVE: Request := CreateReconciliation(LinkInput(EMPTY, None, Some(5), 40.0), LinkStamp(11, 1, 21, 1))
  const ATTACH: Request := CreateReconciliation(LinkInput(21, None, Some(6), 30.0), LinkStamp(12, 2, 22, 2))
  const DERIVED: Book := PROVIDER_BOOK.(
    accounts := map[1 := AccountRow(IntegratedAccount, Some(9))],
    ops := [PivotRow(CUSTODY, LinkStamp(11, 1, 21, 1))],
    links := [Link(11, 21, None, Some(5), 40.0, 1)])

  const OPENED: Book := DERIVED.(links := [])

  /** Without operations, a movement that can stand as one gets a new pivot. */
  lemma FirstPivot(b: Book, m: Id, stamp: LinkStamp)
    requires b.ops == [] && m in b.movements && Pivotable(b.movements[m])
    ensures EnsurePivot(b, m, stamp)
            == Ok(Pivot(WithCustodies(b).(ops := [PivotRow(b.movements[m], stamp)]), stamp.pivot, false))
  {
    assert PivotOf(b, m) == None;
    assert InsertRow(b.ops, PivotRow(b.movements[m], stamp)) == [PivotRow(b.movements[m], stamp)];
  }

  lemma CustodyOpened()
    ensures WithCustodies(PROVIDER_BOOK) == PROVIDER_BOOK.(accounts := OPENED.accounts)
  {
    assert MissingCustodies(PROVIDER_BOOK) == OPENED.accounts;
  }

  lemma PivotOpened()
    ensures EnsurePivot(PROVIDER_BOOK, 5, DERIVE.stamp) == Ok(Pivot(OPENED, 21, false))
  {
    CustodyOpened();
    FirstPivot(PROVIDER_BOOK, 5, DERIVE.stamp);
  }

  lemma DeriveAccepted()
    ensures Perform(PROVIDER_BOOK, DERIVE) == Ok(DERIVED)
  {
    PivotOpened();
    assert InsertLink([], DERIVED.links[0]) == DERIVED.links;
    assert AddParcel(OPENED, 21, None, Some(5), 40.0, DERIVE.stamp) == Ok(DERIVED);
  }

  lemma AttachAccepted()
    ensures Perform(DERIVED, ATTACH).Ok? && BreaksPivot(DERIVED, ATTACH)
  {
    var l := DERIVED.links[0];
    SumOne(l, Parcel(OfOperation(21)));
    SumOne(l, Parcel(OfMovement(6)));
    assert DERIVED.links == [l] && DERIVED.ops[0] in DERIVED.ops;
  }

  lemma DerivedSound()
    ensures FreshFor(PROVIDER_BOOK, DERIVE) && DERIVED == Next(PROVIDER_BOOK, DERIVE)
    ensures BookSound(PROVIDER_BOOK) && PivotsSound(PROVIDER_BOOK)
    ensures BookSound(DERIVED) && PivotsSound(DERIVED)
  {
    EmptyBookSound(PROVIDER_BOOK);
    DeriveAccepted();
    NextKeepsBookSound(PROVIDER_BOOK, DERIVE);
    NextKeepsPivotsExactly(PROVIDER_BOOK, DERIVE);
  }

  lemma AttachFresh()
    ensures FreshFor(DERIVED, ATTACH)
  {
  }

  /** Two accepted requests, from an empty book, leave one pivot carrying two movements. */
  lemma NamedAttachmentBreaksPivots()
    ensures IsRun([PROVIDER_BOOK, DERIVED, Next(DERIVED, ATTACH)], [DERIVE, ATTACH])
    ensures BookSound(PROVIDER_BOOK) && PivotsSound(PROVIDER_BOOK)
    ensures !PivotsSound(Next(DERIVED, ATTACH))
  {
    DerivedSound();
    AttachFresh();
    AttachAccepted();
    NextKeepsPivotsExactly(DERIVED, ATTACH);
    IsTwoStepRun(PROVIDER_BOOK, DERIVE, DERIVED, ATTACH);
  }

  lemma IsTwoStepRun(a: Book, first: Request, b: Book, second: Request)
    requires FreshFor(a, first) && b == Next(a, first) && FreshFor(b, second)
    ensures IsRun([a, b, Next(b, second)], [first, second])
  {
  }

  /** A book with no operations and no links is sound, so the guarantees start somewhere. */
  lemma EmptyBookSound(b: Book)
    requires CatalogueSound(b) && b.ops == [] && b.links == []
    ensures BookSound(b) && PivotsSound(b)
  {
    forall a | IsManual(b, a) ensures Admissible(History(b.ops, a)) {
      SumsOfEmpty();
    }
  }
}
