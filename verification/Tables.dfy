/** The tables an investment mutation reads and writes. The operations table is kept in replay
    order and the links table in creation order, so a query's ORDER BY is the order of the rows. */
module Tables {
  import opened Wrappers
  import opened Sequences
  import opened Domain

  datatype AccountKind = ManualAccount | IntegratedAccount
  datatype AccountRow = AccountRow(kind: AccountKind, source: Option<Id>)
  datatype PositionRow = PositionRow(account: Id, asset: Id)

  /** A bank line as reporting sees it: its value in account currency, and whether the user
      excluded it from the totals. */
  datatype BankLine = BankLine(value: Option<real>, brl: bool, ignored: bool)

  datatype Direction = Inflow | Outflow | UnknownDirection

  /** An imported provider movement; custody is its connection's integrated account. */
  datatype Movement = Movement(
    amount: Option<real>, brl: bool, direction: Direction, interest: bool, day: Option<Day>, source: Id, custody: Id)

  datatype Link = Link(
    id: Id, operation: Id, line: Option<Id>, movement: Option<Id>, amount: real, createdAt: Instant)

  /** Custodies name, for every data source with imported holdings, the id its integrated account
      has or will have. */
  datatype Book = Book(
    custodies: map<Id, Id>,
    accounts: map<Id, AccountRow>,
    positions: map<Id, PositionRow>,
    syncedHoldings: set<Id>,
    lines: map<Id, BankLine>,
    movements: map<Id, Movement>,
    ops: seq<Operation>,
    links: seq<Link>)

  // ---- the operations table ----

  /** How many rows precede an operation in replay order. */
  function Slot(ops: seq<Operation>, op: Operation): (k: nat)
    ensures k <= |ops|
    ensures forall i | 0 <= i < k :: !Before(op, ops[i])
    ensures k < |ops| ==> Before(op, ops[k])
  {
    if ops == [] || Before(op, ops[0]) then 0 else 1 + Slot(ops[1..], op)
  }

  function InsertRow(ops: seq<Operation>, op: Operation): seq<Operation> {
    Splice(ops, Slot(ops, op), op)
  }

  function InAccount(account: Id): Operation -> bool {
    (op: Operation) => op.account == account
  }

  /** The rows of one account, in replay order. */
  function History(ops: seq<Operation>, account: Id): seq<Operation> {
    Filter(ops, InAccount(account))
  }

  function DatedThrough(day: Day): Operation -> bool {
    (op: Operation) => op.occurredOn <= day
  }

  function Through(ops: seq<Operation>, day: Day): seq<Operation> {
    Filter(ops, DatedThrough(day))
  }

  function OtherThan(id: Id): Operation -> bool {
    (op: Operation) => op.id != id
  }

  function WithoutRow(ops: seq<Operation>, id: Id): seq<Operation> {
    Filter(ops, OtherThan(id))
  }

  function InTransfer(transfer: Id): Operation -> bool {
    (op: Operation) => op.transfer == Some(transfer)
  }

  function NotInTransfer(transfer: Id): Operation -> bool {
    (op: Operation) => op.transfer != Some(transfer)
  }

  /** The row with a given id, if there is one. */
  function FindRow(ops: seq<Operation>, id: Id): (r: Option<Operation>)
    ensures r.Some? ==> r.value in ops && r.value.id == id
    ensures r.None? ==> forall op | op in ops :: op.id != id
  {
    if ops == [] then None
    else if ops[0].id == id then Some(ops[0])
    else FindRow(ops[1..], id)
  }

  predicate DifferentRows(a: Operation, b: Operation) {
    a.id != b.id
  }

  ghost predicate Ordered(ops: seq<Operation>) {
    Pairwise(ops, Before)
  }

  ghost predicate DistinctRows(ops: seq<Operation>) {
    Pairwise(ops, DifferentRows)
  }

  lemma InsertRowMembers(ops: seq<Operation>, op: Operation)
    ensures forall o :: o in InsertRow(ops, op) <==> o == op || o in ops
  {
    assert ops == ops[..Slot(ops, op)] + ops[Slot(ops, op)..];
  }

  /** A new row takes its place without disturbing the others. */
  lemma InsertRowOrdered(ops: seq<Operation>, op: Operation)
    requires Ordered(ops) && DistinctRows(ops) && forall o | o in ops :: o.id != op.id
    ensures Ordered(InsertRow(ops, op)) && DistinctRows(InsertRow(ops, op))
    ensures forall o :: o in InsertRow(ops, op) <==> o == op || o in ops
  {
    var k := Slot(ops, op);
    forall i | 0 <= i < |ops| ensures if i < k then Before(ops[i], op) else Before(op, ops[i]) {
      assert ops[i] in ops;
      if i > k {
        assert Before(ops[k], ops[i]);
      }
    }
    SplicePairwise(ops, k, op, Before);
    SplicePairwise(ops, k, op, DifferentRows);
  }

  /** The replay order leaves no freedom: two ordered listings of the same rows are equal. */
  lemma {:induction false} OrderedListingIsUnique(a: seq<Operation>, b: seq<Operation>)
    requires Ordered(a) && Ordered(b)
    requires forall o :: o in a <==> o in b
    ensures a == b
  {
    EmptyTogether(a, b);
    if |a| > 0 {
      FirstIsFirst(a, b);
      forall o ensures o in a[1..] <==> o in b[1..] {
        if o in a[1..] {
          TailMember(a, o);
        }
        if o in b[1..] {
          TailMember(b, o);
        }
      }
      OrderedListingIsUnique(a[1..], b[1..]);
      assert a == [a[0]] + a[1..] && b == [b[0]] + b[1..];
    }
  }

  lemma EmptyTogether(a: seq<Operation>, b: seq<Operation>)
    requires forall o :: o in a <==> o in b
    ensures |a| > 0 <==> |b| > 0
  {
    if |a| > 0 {
      assert a[0] in b;
    }
    if |b| > 0 {
      assert b[0] in a;
    }
  }

  lemma FirstIsFirst(a: seq<Operation>, b: seq<Operation>)
    requires Ordered(a) && Ordered(b) && |a| > 0 && |b| > 0
    requires forall o :: o in a <==> o in b
    ensures a[0] == b[0]
  {
    assert a[0] in b && b[0] in a;
    var i :| 0 <= i < |b| && b[i] == a[0];
    var j :| 0 <= j < |a| && a[j] == b[0];
    assert i > 0 ==> Before(b[0], b[i]);
    assert j > 0 ==> Before(a[0], a[j]);
  }

  lemma TailMember(a: seq<Operation>, o: Operation)
    requires Ordered(a) && a != [] && o in a[1..]
    ensures o in a && o != a[0] && Before(a[0], o)
  {
    var i :| 0 <= i < |a[1..]| && a[1..][i] == o;
    assert a[i + 1] == o;
  }

  /** A selection of an ordered table is ordered, and its rows stay distinct. */
  lemma FilterOrdered(ops: seq<Operation>, p: Operation -> bool)
    requires Ordered(ops) && DistinctRows(ops)
    ensures Ordered(Filter(ops, p)) && DistinctRows(Filter(ops, p))
  {
    FilterPairwise(ops, p, Before);
    FilterPairwise(ops, p, DifferentRows);
  }

  /** One new row changes the history of its own account only, and there it is spliced in at the
      slot its order gives it. */
  lemma HistoryOfInsert(ops: seq<Operation>, op: Operation, account: Id)
    ensures op.account != account ==> History(InsertRow(ops, op), account) == History(ops, account)
    ensures op.account == account ==>
              var before := History(ops[..Slot(ops, op)], account);
              && |before| <= |History(ops, account)|
              && History(ops, account)[..|before|] == before
              && History(InsertRow(ops, op), account) == Splice(History(ops, account), |before|, op)
  {
    var k := Slot(ops, op);
    var p := InAccount(account);
    assert ops == ops[..k] + ops[k..];
    FilterConcat(ops[..k], ops[k..], p);
    FilterConcat(ops[..k] + [op], ops[k..], p);
    FilterConcat(ops[..k], [op], p);
    FilterOne(op, p);
  }

  /** Rows of other accounts do not show in an account's history. */
  lemma {:induction false} HistoryOfFilter(ops: seq<Operation>, keep: Operation -> bool, account: Id)
    requires forall op | op in ops && op.account == account :: keep(op)
    ensures History(Filter(ops, keep), account) == History(ops, account)
  {
    if ops != [] {
      var rest, last := ops[..|ops| - 1], ops[|ops| - 1];
      assert last in ops;
      HistoryOfFilter(rest, keep, account);
      FilterConcat(Filter(rest, keep), [last], InAccount(account));
      FilterOne(last, InAccount(account));
    }
  }

  // ---- the links table ----

  predicate LinkBefore(a: Link, b: Link) {
    a.createdAt < b.createdAt || (a.createdAt == b.createdAt && a.id < b.id)
  }

  function LinkSlot(links: seq<Link>, link: Link): (k: nat)
    ensures k <= |links|
    ensures forall i | 0 <= i < k :: !LinkBefore(link, links[i])
    ensures k < |links| ==> LinkBefore(link, links[k])
  {
    if links == [] || LinkBefore(link, links[0]) then 0 else 1 + LinkSlot(links[1..], link)
  }

  function InsertLink(links: seq<Link>, link: Link): seq<Link> {
    Splice(links, LinkSlot(links, link), link)
  }

  datatype Column = OfOperation(operation: Id) | OfLine(line: Id) | OfMovement(movement: Id)

  predicate OnColumn(link: Link, column: Column) {
    match column
    case OfOperation(id) => link.operation == id
    case OfLine(id) => link.line == Some(id)
    case OfMovement(id) => link.movement == Some(id)
  }

  function Parcel(column: Column): Link -> real {
    (link: Link) => if OnColumn(link, column) then link.amount else 0.0
  }

  /** The total of the links carrying an id in a column. */
  function Allocated(links: seq<Link>, column: Column): real {
    Sum(links, Parcel(column))
  }

  function LinksOn(column: Column): Link -> bool {
    (link: Link) => OnColumn(link, column)
  }

  function OtherLink(id: Id): Link -> bool {
    (link: Link) => link.id != id
  }

  function WithoutLink(links: seq<Link>, id: Id): seq<Link> {
    Filter(links, OtherLink(id))
  }

  function FindLink(links: seq<Link>, id: Id): (r: Option<Link>)
    ensures r.Some? ==> r.value in links && r.value.id == id
    ensures r.None? ==> forall l | l in links :: l.id != id
  {
    if links == [] then None
    else if links[0].id == id then Some(links[0])
    else FindLink(links[1..], id)
  }

  predicate DifferentLinks(a: Link, b: Link) {
    a.id != b.id
  }

  ghost predicate DistinctLinks(links: seq<Link>) {
    Pairwise(links, DifferentLinks)
  }

  ghost predicate LinksOrdered(links: seq<Link>) {
    Pairwise(links, LinkBefore)
  }

  lemma InsertLinkOrdered(links: seq<Link>, link: Link)
    requires LinksOrdered(links) && DistinctLinks(links) && forall l | l in links :: l.id != link.id
    ensures LinksOrdered(InsertLink(links, link)) && DistinctLinks(InsertLink(links, link))
    ensures forall l :: l in InsertLink(links, link) <==> l == link || l in links
  {
    var k := LinkSlot(links, link);
    forall i | 0 <= i < |links| ensures if i < k then LinkBefore(links[i], link) else LinkBefore(link, links[i]) {
      assert links[i] in links;
      if i > k {
        assert LinkBefore(links[k], links[i]);
      }
    }
    SplicePairwise(links, k, link, LinkBefore);
    SplicePairwise(links, k, link, DifferentLinks);
  }

  lemma InsertLinkAllocated(links: seq<Link>, link: Link, c: Column)
    ensures Allocated(InsertLink(links, link), c) == Allocated(links, c) + (if OnColumn(link, c) then link.amount else 0.0)
  {
    var k := LinkSlot(links, link);
    SumSplice(links[..k], link, links[k..], Parcel(c));
    assert links == links[..k] + links[k..];
  }

  lemma FilterLinksOrdered(links: seq<Link>, p: Link -> bool)
    requires LinksOrdered(links) && DistinctLinks(links)
    ensures LinksOrdered(Filter(links, p)) && DistinctLinks(Filter(links, p))
  {
    FilterPairwise(links, p, LinkBefore);
    FilterPairwise(links, p, DifferentLinks);
  }
}
