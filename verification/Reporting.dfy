/** What reporting shows of the manual book next to the bank (internal/investments/reporting.go):
    the part of each cash operation no bank line explains yet, and the part of each bank line that
    is a transfer into or out of custody. */
module Reporting {
  import opened Wrappers
  import opened Decimals
  import opened Sequences
  import opened Domain
  import opened Tables
  import opened Reconciliation
  import opened LinkInvariants
  import opened Sorting

  datatype EntryId = Whole(operation: Id) | FeeOf(operation: Id) | TaxOf(operation: Id)
  datatype Entry = Entry(id: EntryId, account: Id, kind: Kind, occurredOn: Day, amount: real)

  /** One row of the operations table joined with one of its links, or with none. */
  datatype JoinRow = JoinRow(op: Operation, line: Option<Id>, linked: real)

  function Joined(op: Operation, links: seq<Link>): (r: seq<JoinRow>)
    ensures |r| == |links|
  {
    if links == [] then [] else Joined(op, links[..|links| - 1]) + [JoinRow(op, links[|links| - 1].line, links[|links| - 1].amount)]
  }

  function RowsOf(op: Operation, links: seq<Link>): seq<JoinRow> {
    var own := Filter(links, LinksOn(OfOperation(op.id)));
    if own == [] then [JoinRow(op, None, 0.0)] else Joined(op, own)
  }

  predicate IsManualRow(op: Operation) {
    op.origin.Manual?
  }

  function RowsShown(op: Operation, links: seq<Link>): seq<JoinRow> {
    if op.origin.Manual? then RowsOf(op, links) else []
  }

  /** The manual operations, each joined with its links. */
  function JoinAll(ops: seq<Operation>, links: seq<Link>): seq<JoinRow> {
    if ops == [] then []
    else
      var last := ops[|ops| - 1];
      JoinAll(ops[..|ops| - 1], links) + RowsShown(last, links)
  }

  /** The amount of an operation its bank-line links explain. */
  function BankParcel(operation: Id): Link -> real {
    (l: Link) => if l.operation == operation && l.line.Some? then l.amount else 0.0
  }

  function BankLinked(links: seq<Link>, operation: Id): real {
    Sum(links, BankParcel(operation))
  }

  predicate ComesIn(kind: Kind) {
    kind.Deposit? || kind.Income?
  }

  predicate GoesOut(kind: Kind) {
    kind.Withdrawal? || kind.Fee? || kind.Tax?
  }

  function NonZero(id: EntryId, op: Operation, kind: Kind, amount: real): seq<Entry> {
    if amount == 0.0 then [] else [Entry(id, op.account, kind, op.occurredOn, amount)]
  }

  /** The reporting entries of one operation, given how much of it is linked. */
  function EntriesOf(op: Operation, linked: real): seq<Entry> {
    if ComesIn(op.kind) then
      if op.amount - linked > 0.0 then NonZero(Whole(op.id), op, op.kind, op.amount - linked) else []
    else if GoesOut(op.kind) then
      if op.amount - linked > 0.0 then NonZero(Whole(op.id), op, op.kind, -(op.amount - linked)) else []
    else if op.kind.Buy? || op.kind.Sell? then
      NonZero(FeeOf(op.id), op, Fee, -op.fees) + NonZero(TaxOf(op.id), op, Tax, -op.taxes)
    else []
  }

  function AllEntries(ops: seq<Operation>, links: seq<Link>): seq<Entry> {
    if ops == [] then []
    else AllEntries(ops[..|ops| - 1], links) + EntriesOf(ops[|ops| - 1], BankLinked(links, ops[|ops| - 1].id))
  }

  function DayOf(): Entry -> int {
    (e: Entry) => e.occurredOn
  }

  /** Where an entry's identifier falls: an operation's fee comes just before its tax. */
  function Rank(): Entry -> int {
    (e: Entry) => 3 * e.id.operation + match e.id case Whole(_) => 0 case FeeOf(_) => 1 case TaxOf(_) => 2
  }

  /** The report: the entries of every manual operation, by day and then by identifier. */
  function Reported(b: Book): seq<Entry> {
    SortBy(SortBy(AllEntries(Filter(b.ops, IsManualRow), b.links), Rank()), DayOf())
  }

  // ---- the loop's bookkeeping ----

  predicate Listed(ops: seq<Operation>, id: Id) {
    exists op | op in ops :: op.id == id
  }

  /** The operations of some joined rows, each listed once, in order of first appearance. */
  function Operations(rows: seq<JoinRow>): seq<Operation> {
    if rows == [] then []
    else
      var earlier, last := Operations(rows[..|rows| - 1]), rows[|rows| - 1];
      if Listed(earlier, last.op.id) then earlier else earlier + [last.op]
  }

  function RowParcel(operation: Id): JoinRow -> real {
    (row: JoinRow) => if row.op.id == operation && row.line.Some? then row.linked else 0.0
  }

  lemma {:induction false} OperationsOfOne(rows: seq<JoinRow>, more: seq<JoinRow>, op: Operation)
    requires forall row | row in more :: row.op == op
    requires !Listed(Operations(rows), op.id) && more != []
    ensures Operations(rows + more) == Operations(rows) + [op]
  {
    var rest, last := more[..|more| - 1], more[|more| - 1];
    assert last in more;
    assert (rows + more)[..|rows + more| - 1] == rows + rest;
    if rest == [] {
      assert rows + rest == rows;
    } else {
      OperationsOfOne(rows, rest, op);
      assert op in Operations(rows) + [op];
    }
  }

  lemma {:induction false} JoinedAllOfOne(op: Operation, links: seq<Link>)
    ensures forall row | row in Joined(op, links) :: row.op == op
    ensures Sum(Joined(op, links), RowParcel(op.id)) == Sum(links, LineAmount)
    ensures forall other: Id | other != op.id :: Sum(Joined(op, links), RowParcel(other)) == 0.0
  {
    if links != [] {
      JoinedAllOfOne(op, links[..|links| - 1]);
    }
  }

  function LineAmount(l: Link): real {
    if l.line.Some? then l.amount else 0.0
  }

  lemma {:induction false} OwnBankParcels(links: seq<Link>, operation: Id)
    ensures Sum(Filter(links, LinksOn(OfOperation(operation))), LineAmount) == BankLinked(links, operation)
  {
    if links != [] {
      var rest, last := links[..|links| - 1], links[|links| - 1];
      OwnBankParcels(rest, operation);
      SumConcat(Filter(rest, LinksOn(OfOperation(operation))), [last], LineAmount);
      SumOne(last, LineAmount);
    }
  }

  lemma RowsOfOne(op: Operation, links: seq<Link>)
    ensures RowsOf(op, links) != [] && forall row | row in RowsOf(op, links) :: row.op == op
    ensures Sum(RowsOf(op, links), RowParcel(op.id)) == BankLinked(links, op.id)
    ensures forall other: Id | other != op.id :: Sum(RowsOf(op, links), RowParcel(other)) == 0.0
  {
    var own := Filter(links, LinksOn(OfOperation(op.id)));
    JoinedAllOfOne(op, own);
    OwnBankParcels(links, op.id);
    if own == [] {
      SumOne(JoinRow(op, None, 0.0), RowParcel(op.id));
      forall other: Id | other != op.id ensures Sum(RowsOf(op, links), RowParcel(other)) == 0.0 {
        SumOne(JoinRow(op, None, 0.0), RowParcel(other));
      }
    }
  }

  /** Joining loses no manual operation and repeats none. */
  lemma {:induction false} JoinListsOperations(ops: seq<Operation>, links: seq<Link>)
    requires DistinctRows(ops)
    ensures Operations(JoinAll(ops, links)) == Filter(ops, IsManualRow)
  {
    if ops != [] {
      var rest, last := ops[..|ops| - 1], ops[|ops| - 1];
      JoinListsOperations(rest, links);
      if last.origin.Manual? {
        RowsOfOne(last, links);
        FilterMembers(rest, IsManualRow);
        OperationsOfOne(JoinAll(rest, links), RowsOf(last, links), last);
      } else {
        assert JoinAll(ops, links) == JoinAll(rest, links);
      }
    }
  }

  lemma {:induction false} JoinCountsElsewhere(ops: seq<Operation>, links: seq<Link>, id: Id)
    requires forall op | op in ops :: op.id != id
    ensures Sum(JoinAll(ops, links), RowParcel(id)) == 0.0
  {
    if ops != [] {
      var rest, last := ops[..|ops| - 1], ops[|ops| - 1];
      assert last in ops;
      JoinCountsElsewhere(rest, links, id);
      SumConcat(JoinAll(rest, links), RowsShown(last, links), RowParcel(id));
      RowsOfOne(last, links);
    }
  }

  /** Joining counts each link of a manual operation once. */
  lemma {:induction false} JoinCountsLinks(ops: seq<Operation>, links: seq<Link>, op: Operation)
    requires DistinctRows(ops) && op in ops && op.origin.Manual?
    ensures Sum(JoinAll(ops, links), RowParcel(op.id)) == BankLinked(links, op.id)
  {
    var rest, last := ops[..|ops| - 1], ops[|ops| - 1];
    assert ops == rest + [last];
    SumConcat(JoinAll(rest, links), RowsShown(last, links), RowParcel(op.id));
    RowsOfOne(last, links);
    if op in rest {
      JoinCountsLinks(rest, links, op);
    } else {
      JoinCountsElsewhere(rest, links, op.id);
    }
  }

  function Linked(totals: map<Id, real>, id: Id): real {
    if id in totals then totals[id] else 0.0
  }

  /** The pass over the joined rows: each operation once, with its bank-linked total. */
  method CollectOperations(rows: seq<JoinRow>) returns (operations: seq<Operation>, linkedByOperation: map<Id, real>)
    ensures operations == Operations(rows)
    ensures forall id: Id :: Linked(linkedByOperation, id) == Sum(rows, RowParcel(id))
  {
    operations := [];
    linkedByOperation := map[];
    var seen: set<Id> := {};
    var i := 0;
    while i < |rows|
      invariant 0 <= i <= |rows|
      invariant operations == Operations(rows[..i])
      invariant forall id: Id :: id in seen <==> Listed(operations, id)
      invariant forall id: Id :: Linked(linkedByOperation, id) == Sum(rows[..i], RowParcel(id))
    {
      assert rows[..i + 1][..i] == rows[..i];
      var row := rows[i];
      if row.op.id !in seen {
        operations := operations + [row.op];
        seen := seen + {row.op.id};
      }
      if row.line.Some? {
        linkedByOperation := linkedByOperation[row.op.id := Linked(linkedByOperation, row.op.id) + row.linked];
      }
      i := i + 1;
    }
    assert rows[..i] == rows;
  }

  /** One pass over the joined rows, one over the operations it found, then a stable sort. */
  method ManualReportingEntries(b: Book) returns (entries: seq<Entry>)
    requires DistinctRows(b.ops)
    ensures entries == Reported(b)
    ensures Pairwise(entries, Lex(DayOf(), Rank()))
  {
    var operations, linkedByOperation := CollectOperations(JoinAll(b.ops, b.links));
    JoinListsOperations(b.ops, b.links);
    FilterMembers(b.ops, IsManualRow);
    entries := [];
    var j := 0;
    while j < |operations|
      invariant 0 <= j <= |operations|
      invariant entries == AllEntries(operations[..j], b.links)
    {
      assert operations[..j + 1][..j] == operations[..j];
      var op := operations[j];
      assert op in operations;
      JoinCountsLinks(b.ops, b.links, op);
      entries := entries + EntriesOf(op, Linked(linkedByOperation, op.id));
      j := j + 1;
    }
    assert operations[..j] == operations;
    SortSorts(entries, Rank());
    SortLex(SortBy(entries, Rank()), DayOf(), Rank());
    entries := SortBy(SortBy(entries, Rank()), DayOf());
  }

  // ---- what the report promises ----

  function Magnitude(e: Entry): real {
    Abs(e.amount)
  }

  /** No operation's bank links exceed it. */
  lemma BankLinkedCapped(b: Book, op: Operation)
    requires LinksSound(b) && op in b.ops
    ensures 0.0 <= BankLinked(b.links, op.id) <= op.amount
  {
    var own := OfOperation(op.id);
    forall l | l in b.links ensures 0.0 <= BankParcel(op.id)(l) <= Parcel(own)(l) {
    }
    SumNonNegative(b.links, BankParcel(op.id));
    SumDominated(b.links, BankParcel(op.id), Parcel(own));
    assert Allocated(b.links, own) <= op.amount;
  }

  lemma {:induction false} SumDominated(links: seq<Link>, f: Link -> real, g: Link -> real)
    requires forall l | l in links :: f(l) <= g(l)
    ensures Sum(links, f) <= Sum(links, g)
  {
    if links != [] {
      SumDominated(links[..|links| - 1], f, g);
      assert links[|links| - 1] in links;
    }
  }

  /** The entries of one operation. */
  function Of(operation: Id): Entry -> bool {
    (e: Entry) => e.id.operation == operation
  }

  lemma ShownElsewhere(op: Operation, linked: real, operation: Id)
    requires op.id != operation
    ensures Filter(EntriesOf(op, linked), Of(operation)) == []
  {
    FilterNone(EntriesOf(op, linked), Of(operation));
  }

  lemma OwnShown(op: Operation, linked: real)
    ensures Filter(EntriesOf(op, linked), Of(op.id)) == EntriesOf(op, linked)
  {
    FilterAll(EntriesOf(op, linked), Of(op.id));
  }

  lemma {:induction false} NothingShown(ops: seq<Operation>, links: seq<Link>, operation: Id)
    requires forall op | op in ops :: op.id != operation
    ensures Filter(AllEntries(ops, links), Of(operation)) == []
  {
    if ops != [] {
      var rest, last := ops[..|ops| - 1], ops[|ops| - 1];
      assert last in ops;
      NothingShown(rest, links, operation);
      ShownElsewhere(last, BankLinked(links, last.id), operation);
      FilterConcat(AllEntries(rest, links), EntriesOf(last, BankLinked(links, last.id)), Of(operation));
    }
  }

  lemma {:induction false} ShownOnce(ops: seq<Operation>, links: seq<Link>, op: Operation)
    requires DistinctRows(ops) && op in ops
    ensures Filter(AllEntries(ops, links), Of(op.id)) == EntriesOf(op, BankLinked(links, op.id))
  {
    var rest, last := ops[..|ops| - 1], ops[|ops| - 1];
    assert ops == rest + [last];
    var own := Of(op.id);
    FilterConcat(AllEntries(rest, links), EntriesOf(last, BankLinked(links, last.id)), own);
    if op in rest {
      ShownOnce(rest, links, op);
      ShownElsewhere(last, BankLinked(links, last.id), op.id);
    } else {
      NothingShown(rest, links, op.id);
      OwnShown(op, BankLinked(links, op.id));
    }
  }

  lemma EntriesShareTheDay(op: Operation, linked: real)
    ensures Ascending(EntriesOf(op, linked), DayOf())
  {
    forall e | e in EntriesOf(op, linked) ensures e.occurredOn == op.occurredOn {
    }
  }

  lemma FeeBeforeTax(op: Operation, linked: real)
    ensures Ascending(EntriesOf(op, linked), Rank())
  {
    if op.kind.Buy? || op.kind.Sell? {
      var fee, tax := NonZero(FeeOf(op.id), op, Fee, -op.fees), NonZero(TaxOf(op.id), op, Tax, -op.taxes);
      assert EntriesOf(op, linked) == fee + tax;
    } else {
      assert |EntriesOf(op, linked)| <= 1;
    }
  }

  /** The entries of one operation are already in the report's order. */
  lemma OneIsInOrder(op: Operation, linked: real)
    ensures SortBy(SortBy(EntriesOf(op, linked), Rank()), DayOf()) == EntriesOf(op, linked)
  {
    FeeBeforeTax(op, linked);
    EntriesShareTheDay(op, linked);
    SortedStays(EntriesOf(op, linked), Rank());
    SortedStays(EntriesOf(op, linked), DayOf());
  }

  /** The report shows each manual operation's own entries against its own links, and no others. */
  lemma ReportShowsEach(b: Book, op: Operation)
    requires DistinctRows(b.ops) && op in b.ops && op.origin.Manual?
    ensures Filter(Reported(b), Of(op.id)) == EntriesOf(op, BankLinked(b.links, op.id))
  {
    var manual, own := Filter(b.ops, IsManualRow), Of(op.id);
    var all := AllEntries(manual, b.links);
    FilterMembers(b.ops, IsManualRow);
    FilterPairwise(b.ops, IsManualRow, DifferentRows);
    ShownOnce(manual, b.links, op);
    SortFilter(SortBy(all, Rank()), DayOf(), own);
    SortFilter(all, Rank(), own);
    OneIsInOrder(op, BankLinked(b.links, op.id));
  }

  lemma {:induction false} EntriesComeFrom(ops: seq<Operation>, links: seq<Link>, e: Entry)
    requires e in AllEntries(ops, links)
    ensures exists op | op in ops :: e in EntriesOf(op, BankLinked(links, op.id))
  {
    var rest, last := ops[..|ops| - 1], ops[|ops| - 1];
    assert last in ops;
    if e in AllEntries(rest, links) {
      EntriesComeFrom(rest, links, e);
    }
  }

  /** Every entry of the report is one of a manual operation's. */
  lemma ReportShowsManualOnly(b: Book, e: Entry)
    requires e in Reported(b)
    ensures exists op | op in b.ops && op.origin.Manual? :: e in EntriesOf(op, BankLinked(b.links, op.id))
  {
    var all := AllEntries(Filter(b.ops, IsManualRow), b.links);
    SortSorts(all, Rank());
    SortSorts(SortBy(all, Rank()), DayOf());
    assert e in multiset(Reported(b));
    assert e in multiset(all);
    EntriesComeFrom(Filter(b.ops, IsManualRow), b.links, e);
    FilterMembers(b.ops, IsManualRow);
  }

  /** For a deposit, withdrawal, income, fee or tax, what the report shows and what bank lines
      explain add up to the operation exactly, with the sign of its direction. */
  lemma RemainderIsExact(b: Book, op: Operation)
    requires LinksSound(b) && DistinctRows(b.ops) && op in b.ops && op.origin.Manual? && ReconcilableKind(op.kind)
    ensures var shown := Filter(Reported(b), Of(op.id));
            && Sum(shown, Magnitude) + BankLinked(b.links, op.id) == op.amount
            && forall e | e in shown :: e.id == Whole(op.id) && e.kind == op.kind && (ComesIn(op.kind) <==> e.amount > 0.0)
  {
    ReportShowsEach(b, op);
    BankLinkedCapped(b, op);
    var entries := EntriesOf(op, BankLinked(b.links, op.id));
    if entries != [] {
      SumOne(entries[0], Magnitude);
      assert entries == [entries[0]];
    }
  }

  /** The sign of a cash operation as reporting counts it: money earned or brought in, or spent. */
  function Directed(kind: Kind, amount: real): real {
    if kind in {Deposit, Income} then amount else -amount
  }

  /** What is left of a cash operation, if anything is. */
  function LeftShown(op: Operation, left: real): seq<Entry> {
    if left > 0.0 then [Entry(Whole(op.id), op.account, op.kind, op.occurredOn, Directed(op.kind, left))] else []
  }

  lemma CashEntries(op: Operation, linked: real)
    requires op.kind in {Deposit, Withdrawal, Income, Fee, Tax}
    ensures EntriesOf(op, linked) == LeftShown(op, op.amount - linked)
  {
  }

  /** An explicit cost of a trade, as a cost of its day. */
  function TradeCost(id: EntryId, op: Operation, kind: Kind, cost: real): seq<Entry> {
    if cost != 0.0 then [Entry(id, op.account, kind, op.occurredOn, -cost)] else []
  }

  lemma TradeEntries(op: Operation, linked: real)
    requires op.kind in {Buy, Sell}
    ensures EntriesOf(op, linked) == TradeCost(FeeOf(op.id), op, Fee, op.fees) + TradeCost(TaxOf(op.id), op, Tax, op.taxes)
  {
  }

  /** Of a manual cash operation the report shows exactly the part no bank line explains, if any is
      left, in its own account, kind, day and direction. */
  lemma CashReported(b: Book, op: Operation)
    requires DistinctRows(b.ops) && op in b.ops && op.origin.Manual? && op.kind in {Deposit, Withdrawal, Income, Fee, Tax}
    ensures Filter(Reported(b), Of(op.id)) == LeftShown(op, op.amount - BankLinked(b.links, op.id))
  {
    ReportShowsEach(b, op);
    CashEntries(op, BankLinked(b.links, op.id));
  }

  /** Of a manual trade, exactly its fees and its taxes, as costs of its day, when there are any. */
  lemma TradeReported(b: Book, op: Operation)
    requires DistinctRows(b.ops) && op in b.ops && op.origin.Manual? && op.kind in {Buy, Sell}
    ensures Filter(Reported(b), Of(op.id)) == TradeCost(FeeOf(op.id), op, Fee, op.fees) + TradeCost(TaxOf(op.id), op, Tax, op.taxes)
  {
    ReportShowsEach(b, op);
    TradeEntries(op, BankLinked(b.links, op.id));
  }

  /** Of an opening, a valuation or a transfer, nothing. */
  lemma NothingReported(b: Book, op: Operation)
    requires DistinctRows(b.ops) && op in b.ops && op.origin.Manual?
    requires op.kind in {InitialBalance, Valuation, TransferIn, TransferOut}
    ensures Filter(Reported(b), Of(op.id)) == []
  {
    ReportShowsEach(b, op);
  }

  /** The links of an operation that carry no bank line. */
  function Unbanked(operation: Id): Link -> real {
    (l: Link) => if l.operation == operation && l.line.None? then l.amount else 0.0
  }

  /** What bank lines explain of an operation is all its links but those without a line. */
  lemma {:induction false} BankLinkedIsTheRest(links: seq<Link>, operation: Id)
    ensures BankLinked(links, operation) == Allocated(links, OfOperation(operation)) - Sum(links, Unbanked(operation))
  {
    if links != [] {
      BankLinkedIsTheRest(links[..|links| - 1], operation);
    }
  }

  // ---- bank lines ----

  predicate IsCustodyTransfer(ops: seq<Operation>, operation: Id) {
    exists op | op in ops :: op.id == operation && (op.kind.Deposit? || op.kind.Withdrawal?)
  }

  /** The part of a bank line that moved money into or out of custody. */
  function TransferParcel(ops: seq<Operation>, line: Id): Link -> real {
    (l: Link) => if l.line == Some(line) && IsCustodyTransfer(ops, l.operation) then Abs(l.amount) else 0.0
  }

  function TransferPart(b: Book, line: Id): real {
    Sum(b.links, TransferParcel(b.ops, line))
  }

  /** All bank lines at once. */
  method ReconciledTransactionAmounts(b: Book) returns (result: map<Id, real>)
    ensures forall line: Id :: (if line in result then result[line] else 0.0) == TransferPart(b, line)
  {
    result := map[];
    var i := 0;
    while i < |b.links|
      invariant 0 <= i <= |b.links|
      invariant forall line: Id ::
                  (if line in result then result[line] else 0.0) == Sum(b.links[..i], TransferParcel(b.ops, line))
    {
      assert b.links[..i + 1][..i] == b.links[..i];
      var l := b.links[i];
      if l.line.Some? && IsCustodyTransfer(b.ops, l.operation) {
        var id := l.line.value;
        result := result[id := (if id in result then result[id] else 0.0) + Abs(l.amount)];
      }
      i := i + 1;
    }
    assert b.links[..i] == b.links;
  }

  /** One known bank line. */
  method ReconciledTransactionAmount(b: Book, line: Id) returns (total: real)
    ensures total == TransferPart(b, line)
    ensures LinksSound(b) && LineValue(b, line).Ok? ==> 0.0 <= total <= Abs(LineValue(b, line).value)
  {
    total := 0.0;
    var i := 0;
    while i < |b.links|
      invariant 0 <= i <= |b.links|
      invariant total == Sum(b.links[..i], TransferParcel(b.ops, line))
    {
      SumTake(b.links, i, TransferParcel(b.ops, line));
      var l := b.links[i];
      if l.line == Some(line) && IsCustodyTransfer(b.ops, l.operation) {
        total := total + Abs(l.amount);
      }
      i := i + 1;
    }
    assert b.links[..i] == b.links;
    if LinksSound(b) && LineValue(b, line).Ok? {
      TransferPartCapped(b, line);
    }
  }

  /** Never more than the line is worth is hidden from ordinary reporting. */
  lemma TransferPartCapped(b: Book, line: Id)
    requires LinksSound(b) && LineValue(b, line).Ok?
    ensures 0.0 <= TransferPart(b, line) <= Abs(LineValue(b, line).value)
  {
    var column := OfLine(line);
    forall l | l in b.links ensures 0.0 <= TransferParcel(b.ops, line)(l) <= Parcel(column)(l) {
      assert LinkSound(b, l);
    }
    SumNonNegative(b.links, TransferParcel(b.ops, line));
    SumDominated(b.links, TransferParcel(b.ops, line), Parcel(column));
    assert Allocated(b.links, column) <= Abs(LineValue(b, line).value);
  }

  /** One more link takes its amount out of ordinary reporting of its own line, if its operation is
      a deposit or a withdrawal, and out of what is left of its operation, if it has a line. */
  lemma LinkMovesReports(b: Book, l: Link, line: Id, op: Operation)
    requires DistinctRows(b.ops) && op in b.ops && l.amount > 0.0
    ensures var c := b.(links := InsertLink(b.links, l));
            && BankLinked(c.links, op.id) == BankLinked(b.links, op.id) + (if l.operation == op.id && l.line.Some? then l.amount else 0.0)
            && (l.operation == op.id ==>
                  TransferPart(c, line)
                  == TransferPart(b, line) + if l.line == Some(line) && op.kind in {Deposit, Withdrawal} then l.amount else 0.0)
  {
    var k := LinkSlot(b.links, l);
    assert b.links == b.links[..k] + b.links[k..];
    SumSplice(b.links[..k], l, b.links[k..], BankParcel(op.id));
    SumSplice(b.links[..k], l, b.links[k..], TransferParcel(b.ops, line));
    CustodyTransferIsItsKind(b.ops, op);
  }

  lemma CustodyTransferIsItsKind(ops: seq<Operation>, op: Operation)
    requires DistinctRows(ops) && op in ops
    ensures IsCustodyTransfer(ops, op.id) <==> op.kind in {Deposit, Withdrawal}
  {
    var i :| 0 <= i < |ops| && ops[i] == op;
    forall x | x in ops && x.id == op.id ensures x == op {
      var j :| 0 <= j < |ops| && ops[j] == x;
      assert i < j ==> DifferentRows(ops[i], ops[j]);
      assert j < i ==> DifferentRows(ops[j], ops[i]);
    }
  }
}
