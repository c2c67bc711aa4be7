/** What an accepted link request records and what a removal takes away
    (internal/investments/reconciliations.go): one link more or less, and every total with it. */
module LinkEffects {
  import opened Wrappers
  import opened Decimals
  import opened Sequences
  import opened Domain
  import opened Tables
  import opened Reconciliation
  import opened LinkInvariants
  import opened BulkUnlink

  // ---- one link more ----

  /** The links there were and one more; every total it belongs to grows by its amount, and no
      other. */
  ghost predicate GainsLink(before: seq<Link>, after: seq<Link>, l: Link) {
    && multiset(after) == multiset(before) + multiset{l}
    && (forall o: Id :: Allocated(after, OfOperation(o)) == Allocated(before, OfOperation(o)) + if o == l.operation then l.amount else 0.0)
    && (forall b: Id :: Allocated(after, OfLine(b)) == Allocated(before, OfLine(b)) + if Some(b) == l.line then l.amount else 0.0)
    && (forall m: Id :: Allocated(after, OfMovement(m)) == Allocated(before, OfMovement(m)) + if Some(m) == l.movement then l.amount else 0.0)
  }

  lemma InsertGains(links: seq<Link>, l: Link)
    ensures GainsLink(links, InsertLink(links, l), l)
  {
    SpliceGains(links, LinkSlot(links, l), l);
    forall o: Id ensures Allocated(InsertLink(links, l), OfOperation(o))
                         == Allocated(links, OfOperation(o)) + if o == l.operation then l.amount else 0.0 {
      InsertLinkAllocated(links, l, OfOperation(o));
    }
    forall b: Id ensures Allocated(InsertLink(links, l), OfLine(b))
                         == Allocated(links, OfLine(b)) + if Some(b) == l.line then l.amount else 0.0 {
      InsertLinkAllocated(links, l, OfLine(b));
    }
    forall m: Id ensures Allocated(InsertLink(links, l), OfMovement(m))
                         == Allocated(links, OfMovement(m)) + if Some(m) == l.movement then l.amount else 0.0 {
      InsertLinkAllocated(links, l, OfMovement(m));
    }
  }

  lemma ParcelRecorded(b: Book, operation: Id, line: Option<Id>, movement: Option<Id>, amount: real, stamp: LinkStamp)
    requires AddParcel(b, operation, line, movement, amount, stamp).Ok?
    ensures var c := AddParcel(b, operation, line, movement, amount, stamp).value;
            && c == b.(links := c.links)
            && GainsLink(b.links, c.links, Link(stamp.link, operation, line, movement, amount, stamp.linkedAt))
  {
    InsertGains(b.links, Link(stamp.link, operation, line, movement, amount, stamp.linkedAt));
  }

  /** An id as it is stored: the empty one is none. */
  predicate StoredAs(asked: Option<Id>, stored: Option<Id>) {
    if asked.None? || asked.value == EMPTY then stored.None? else stored == asked
  }

  /** A request that names its operation records one link, on that operation, with exactly the line,
      movement and amount it asked for, and changes nothing else. */
  lemma NamedLinkRecorded(b: Book, input: LinkInput, stamp: LinkStamp) returns (l: Link)
    requires input.operation != EMPTY && CreateLink(b, input, stamp).Ok?
    ensures var c := CreateLink(b, input, stamp).value;
            c == b.(links := c.links) && GainsLink(b.links, c.links, l)
    ensures l.id == stamp.link && l.createdAt == stamp.linkedAt && l.operation == input.operation
    ensures l.amount == input.amount > 0.0
    ensures StoredAs(input.line, l.line) && StoredAs(input.movement, l.movement) && (l.line.Some? || l.movement.Some?)
  {
    var line, movement := Trimmed(input.line), Trimmed(input.movement);
    ParcelRecorded(b, input.operation, line, movement, input.amount, stamp);
    l := Link(stamp.link, input.operation, line, movement, input.amount, stamp.linkedAt);
  }

  /** The movement as an operation of its own: its day, its amount without sign, the kind its
      direction gives it, in its connection's custody. */
  predicate StandsAs(row: Movement, op: Operation, stamp: LinkStamp) {
    && row.amount.Some? && row.day.Some? && !row.direction.UnknownDirection?
    && op.id == stamp.pivot && op.createdAt == stamp.pivotAt && op.origin.Synced?
    && op.account == row.custody && op.position.None? && op.transfer.None?
    && op.occurredOn == row.day.value
    && op.amount == (if row.amount.value < 0.0 then -row.amount.value else row.amount.value) && op.amount > 0.0
    && (op.kind.Deposit? <==> row.direction.Inflow?)
    && (op.kind.Income? <==> row.direction.Outflow? && row.interest)
    && (op.kind.Withdrawal? <==> row.direction.Outflow? && !row.interest)
    && op.quantity.None? && op.unitPrice.None? && op.fees == 0.0 && op.taxes == 0.0
  }

  /** A synced operation one of whose links carries the movement. */
  ghost predicate AlreadyStands(b: Book, op: Operation, movement: Id) {
    op in b.ops && op.origin.Synced? && exists l | l in b.links :: l.operation == op.id && l.movement == Some(movement)
  }

  /** A request on a movement alone, whose pivot exists: one plain parcel of the earliest pivot. */
  lemma ReusedLinkRecorded(b: Book, input: LinkInput, stamp: LinkStamp) returns (l: Link, pivot: Operation)
    requires input.operation == EMPTY && CreateLink(b, input, stamp).Ok?
    requires input.movement.Some? && exists op :: AlreadyStands(b, op, input.movement.value)
    ensures AlreadyStands(b, pivot, input.movement.value)
    ensures forall op | AlreadyStands(b, op, input.movement.value) :: NotLater(pivot, op)
    ensures var c := CreateLink(b, input, stamp).value;
            c == b.(links := c.links) && GainsLink(b.links, c.links, l)
    ensures l.id == stamp.link && l.createdAt == stamp.linkedAt && l.operation == pivot.id
    ensures l.amount == input.amount > 0.0
    ensures StoredAs(input.line, l.line) && l.line.Some? && l.movement.None?
  {
    var m := input.movement.value;
    FilterMembers(b.ops, IsPivotOf(b.links, m));
    var op :| AlreadyStands(b, op, m);
    assert op in Filter(b.ops, IsPivotOf(b.links, m));
    pivot := PivotOf(b, m).value;
    forall other | AlreadyStands(b, other, m) ensures NotLater(pivot, other) {
      EarliestIsFirst(Filter(b.ops, IsPivotOf(b.links, m)), other);
    }
    ParcelRecorded(b, pivot.id, Trimmed(input.line), None, input.amount, stamp);
    l := Link(stamp.link, pivot.id, Trimmed(input.line), None, input.amount, stamp.linkedAt);
  }

  /** A request on a movement alone that has no pivot: the movement becomes an operation, and the one
      new link sits on it, carries the movement, and the line if one was named. */
  lemma DerivedLinkRecorded(b: Book, input: LinkInput, stamp: LinkStamp) returns (l: Link, pivot: Operation)
    requires input.operation == EMPTY && CreateLink(b, input, stamp).Ok?
    requires input.movement.Some? ==> forall op :: !AlreadyStands(b, op, input.movement.value)
    ensures input.movement.Some? && input.movement.value in b.movements
    ensures StandsAs(b.movements[input.movement.value], pivot, stamp)
    ensures var c := CreateLink(b, input, stamp).value;
            && c == b.(accounts := c.accounts, ops := c.ops, links := c.links)
            && GainsLink(b.links, c.links, l) && multiset(c.ops) == multiset(b.ops) + multiset{pivot}
    ensures l.id == stamp.link && l.createdAt == stamp.linkedAt && l.operation == pivot.id
    ensures l.amount == input.amount > 0.0
    ensures StoredAs(input.line, l.line) && l.movement == input.movement
  {
    var m := input.movement.value;
    FilterMembers(b.ops, IsPivotOf(b.links, m));
    assert PivotOf(b, m).Some? ==> AlreadyStands(b, PivotOf(b, m).value, m);
    pivot := PivotRow(b.movements[m], stamp);
    SpliceGains(b.ops, Slot(b.ops, pivot), pivot);
    ParcelRecorded(EnsurePivot(b, m, stamp).value.book, pivot.id, Trimmed(input.line), Some(m), input.amount, stamp);
    l := Link(stamp.link, pivot.id, Trimmed(input.line), Some(m), input.amount, stamp.linkedAt);
  }

  // ---- what is accepted ----

  /** Money that left a bank account explains these; money that reached one explains the others. */
  predicate PaidFromBank(kind: Kind) {
    kind.Deposit? || kind.Fee? || kind.Tax?
  }

  /** The line is in reais, in the totals, and points the way the operation's money went. */
  predicate FacesLine(b: Book, kind: Kind, line: Id) {
    && line in b.lines && b.lines[line].value.Some? && b.lines[line].brl && !b.lines[line].ignored
    && if PaidFromBank(kind) then b.lines[line].value.value < 0.0 else b.lines[line].value.value > 0.0
  }

  /** The movement is in reais, comes from the account's own connection if it has one, and runs into
      custody for a deposit and out of it otherwise. */
  predicate FacesMovement(b: Book, op: Operation, movement: Id) {
    && movement in b.movements && b.movements[movement].amount.Some? && b.movements[movement].brl
    && b.movements[movement].amount.value != 0.0
    && (if op.kind.Deposit? then b.movements[movement].direction.Inflow? else b.movements[movement].direction.Outflow?)
    && op.account in b.accounts
    && (b.accounts[op.account].source.Some? ==> b.accounts[op.account].source == Some(b.movements[movement].source))
  }

  predicate TakesLine(b: Book, kind: Kind, line: Id, amount: real) {
    FacesLine(b, kind, line) && Allocated(b.links, OfLine(line)) + amount <= Abs(b.lines[line].value.value)
  }

  predicate TakesMovement(b: Book, op: Operation, movement: Id, amount: real) {
    FacesMovement(b, op, movement) && Allocated(b.links, OfMovement(movement)) + amount <= Abs(b.movements[movement].amount.value)
  }

  /** The operation moves cash and has room, neither the line nor the movement is on it already, and
      each of them takes the parcel. */
  ghost predicate Takes(b: Book, op: Operation, line: Option<Id>, movement: Option<Id>, amount: real) {
    && op.kind in {Deposit, Withdrawal, Income, Fee, Tax}
    && (forall l | l in b.links && l.operation == op.id ::
          (line.Some? ==> l.line != line) && (movement.Some? ==> l.movement != movement))
    && Allocated(b.links, OfOperation(op.id)) + amount <= op.amount
    && (line.Some? ==> TakesLine(b, op.kind, line.value, amount))
    && (movement.Some? ==> TakesMovement(b, op, movement.value, amount))
  }

  lemma ParcelAcceptedExactly(b: Book, op: Operation, line: Option<Id>, movement: Option<Id>, amount: real, stamp: LinkStamp)
    requires DistinctRows(b.ops) && op in b.ops
    ensures AddParcel(b, op.id, line, movement, amount, stamp).Ok? <==> Takes(b, op, line, movement, amount)
  {
    FoundIsIt(b.ops, op);
    if line.Some? {
      LineTaken(b, op, line.value, amount);
    }
    if movement.Some? {
      MovementTaken(b, op, movement.value, amount);
    }
  }

  lemma FoundIsIt(ops: seq<Operation>, op: Operation)
    requires DistinctRows(ops) && op in ops
    ensures FindRow(ops, op.id) == Some(op)
  {
    var found := FindRow(ops, op.id).value;
    var i :| 0 <= i < |ops| && ops[i] == op;
    var j :| 0 <= j < |ops| && ops[j] == found;
    assert i < j ==> DifferentRows(ops[i], ops[j]);
    assert j < i ==> DifferentRows(ops[j], ops[i]);
  }

  lemma LineTaken(b: Book, op: Operation, line: Id, amount: real)
    ensures LineJudgement(b, op, Some(line), amount).None? <==> TakesLine(b, op.kind, line, amount)
  {
  }

  lemma MovementTaken(b: Book, op: Operation, movement: Id, amount: real)
    ensures MovementJudgement(b, op, Some(movement), amount).None? <==> TakesMovement(b, op, movement, amount)
  {
  }

  /** A request that names its operation commits if and only if it has an amount, a line or a
      movement, and its operation exists and takes the parcel. */
  lemma NamedLinkAcceptedExactly(b: Book, input: LinkInput, stamp: LinkStamp, line: Option<Id>, movement: Option<Id>)
    requires DistinctRows(b.ops) && input.operation != EMPTY
    requires StoredAs(input.line, line) && StoredAs(input.movement, movement)
    ensures CreateLink(b, input, stamp).Ok? <==>
            && input.amount > 0.0 && (line.Some? || movement.Some?)
            && exists op :: op in b.ops && op.id == input.operation && Takes(b, op, line, movement, input.amount)
  {
    if FindRow(b.ops, input.operation).Some? {
      var found := FindRow(b.ops, input.operation).value;
      ParcelAcceptedExactly(b, found, line, movement, input.amount, stamp);
      forall op | op in b.ops && op.id == input.operation ensures op == found {
        FoundIsIt(b.ops, op);
      }
    }
  }

  /** A request on a movement whose pivot exists commits if and only if it has an amount and a line,
      and the pivot takes the line. */
  lemma ReusedLinkAcceptedExactly(b: Book, input: LinkInput, stamp: LinkStamp, line: Option<Id>, pivot: Operation)
    requires DistinctRows(b.ops) && input.operation == EMPTY && StoredAs(input.line, line)
    requires input.movement.Some? && input.movement.value != EMPTY && AlreadyStands(b, pivot, input.movement.value)
    requires forall op | AlreadyStands(b, op, input.movement.value) :: op == pivot
    ensures CreateLink(b, input, stamp).Ok? <==>
            input.amount > 0.0 && line.Some? && Takes(b, pivot, line, None, input.amount)
  {
    var m := input.movement.value;
    FilterMembers(b.ops, IsPivotOf(b.links, m));
    assert pivot in Filter(b.ops, IsPivotOf(b.links, m));
    assert AlreadyStands(b, PivotOf(b, m).value, m);
    ParcelAcceptedExactly(b, pivot, line, None, input.amount, stamp);
  }

  /** The movement can stand as an operation and has the amount left. */
  predicate CanStand(b: Book, movement: Id, amount: real) {
    && movement in b.movements
    && var row := b.movements[movement];
       && row.amount.Some? && row.brl && row.amount.value != 0.0 && (row.direction.Inflow? || row.direction.Outflow?) && row.day.Some?
       && Allocated(b.links, OfMovement(movement)) + amount <= Abs(row.amount.value) && amount <= Abs(row.amount.value)
  }

  /** The integrated account of the movement's connection, opened if it was missing. */
  predicate HasCustody(b: Book, row: Movement) {
    var accounts := WithCustodies(b).accounts;
    row.custody in accounts && (accounts[row.custody].source.Some? ==> accounts[row.custody].source == Some(row.source))
  }

  /** A request on a movement without a pivot commits if and only if it has an amount, the movement
      can stand as an operation of its connection's account with that much left, and a line that was
      named takes it. */
  lemma DerivedLinkAcceptedExactly(b: Book, input: LinkInput, stamp: LinkStamp, line: Option<Id>)
    requires LinksSound(b) && FreshRow(b, stamp.pivot) && input.operation == EMPTY && StoredAs(input.line, line)
    requires input.movement.Some? && input.movement.value != EMPTY
    requires forall op :: !AlreadyStands(b, op, input.movement.value)
    ensures CreateLink(b, input, stamp).Ok? <==>
            && input.amount > 0.0 && CanStand(b, input.movement.value, input.amount)
            && var row := b.movements[input.movement.value];
               HasCustody(b, row)
               && (line.Some? ==> TakesLine(b, if row.direction.Inflow? then Deposit else Withdrawal, line.value, input.amount))
  {
    var m := input.movement.value;
    FilterMembers(b.ops, IsPivotOf(b.links, m));
    assert PivotOf(b, m).Some? ==> AlreadyStands(b, PivotOf(b, m).value, m);
    if m in b.movements && Pivotable(b.movements[m]) {
      NewPivotTakes(b, m, stamp, line, input.amount);
    }
  }

  lemma NewPivotTakes(b: Book, m: Id, stamp: LinkStamp, line: Option<Id>, amount: real)
    requires LinksSound(b) && FreshRow(b, stamp.pivot) && m in b.movements && Pivotable(b.movements[m])
    ensures var pivot := PivotRow(b.movements[m], stamp);
            var c := WithCustodies(b).(ops := InsertRow(b.ops, pivot));
            AddParcel(c, stamp.pivot, line, Some(m), amount, stamp).Ok? <==>
            && CanStand(b, m, amount) && HasCustody(b, b.movements[m])
            && (line.Some? ==> TakesLine(b, pivot.kind, line.value, amount))
  {
    var pivot := PivotRow(b.movements[m], stamp);
    var c := WithCustodies(b).(ops := InsertRow(b.ops, pivot));
    InsertRowOrdered(b.ops, pivot);
    forall l | l in b.links ensures l.operation != stamp.pivot {
      assert LinkSound(b, l);
    }
    UnlinkedIsEmpty(b.links, OfOperation(stamp.pivot));
    ParcelAcceptedExactly(c, pivot, line, Some(m), amount, stamp);
  }

  // ---- an edited operation ----

  /** A link is still good evidence for its operation as edited. */
  predicate StillFaces(b: Book, op: Operation, l: Link) {
    (l.line.Some? ==> FacesLine(b, op.kind, l.line.value)) && (l.movement.Some? ==> FacesMovement(b, op, l.movement.value))
  }

  lemma {:induction false} NoMisfitExactly(b: Book, op: Operation, links: seq<Link>)
    ensures FirstMisfit(b, op, links).None? <==> forall l | l in links :: StillFaces(b, op, l)
  {
    if links != [] {
      var rest, last := links[..|links| - 1], links[|links| - 1];
      assert links == rest + [last];
      NoMisfitExactly(b, op, rest);
      OneMisfit(b, op, last);
    }
  }

  lemma OneMisfit(b: Book, op: Operation, l: Link)
    ensures Misfit(b, op, l).None? <==> StillFaces(b, op, l)
  {
  }

  /** The links an operation carries allow an edit if and only if there are none, or it still moves
      cash, still faces each of them, and still has room for them all. */
  lemma EditAllowedExactly(b: Book, op: Operation)
    ensures LinksJudgement(b, op).None? <==>
            || (forall l | l in b.links :: l.operation != op.id)
            || (&& op.kind in {Deposit, Withdrawal, Income, Fee, Tax}
                && (forall l | l in b.links && l.operation == op.id :: StillFaces(b, op, l))
                && Allocated(b.links, OfOperation(op.id)) <= op.amount)
  {
    var own := Filter(b.links, LinksOn(OfOperation(op.id)));
    FilterMembers(b.links, LinksOn(OfOperation(op.id)));
    NoMisfitExactly(b, op, own);
    assert own != [] ==> own[0] in own;
  }

  // ---- one link less ----

  /** The same parcel of money: all but the movement id, which may have been handed on. */
  predicate SameParcel(a: Link, c: Link) {
    a.id == c.id && a.operation == c.operation && a.line == c.line && a.amount == c.amount && a.createdAt == c.createdAt
  }

  /** The parcel that takes over a movement id: the oldest of its operation's that has none. */
  ghost predicate Heir(links: seq<Link>, gone: Link, l: Link) {
    && l in links && l != gone && l.operation == gone.operation && l.movement.None?
    && forall x | x in links && x != gone && x.operation == gone.operation && x.movement.None? ::
         x == l || l.createdAt < x.createdAt || (l.createdAt == x.createdAt && l.id < x.id)
  }

  /** What one removal leaves of a remaining link: itself, but for the heir of a pivot's mark. */
  ghost predicate LeftAs(b: Book, gone: Link, l: Link, after: Link) {
    && SameParcel(l, after)
    && after.movement == if gone.movement.Some? && IsSyncedRow(b.ops, gone.operation) && Heir(b.links, gone, l)
                         then gone.movement else l.movement
  }

  lemma HeirIsFirstPlain(links: seq<Link>, gone: Link, i: nat)
    requires LinksOrdered(links) && DistinctLinks(links) && gone in links && i < |WithoutLink(links, gone.id)|
    ensures var rest := WithoutLink(links, gone.id);
            Heir(links, gone, rest[i]) <==> OldestPlain(rest, gone.operation) == i
  {
    var rest := WithoutLink(links, gone.id);
    WithoutLinkMembers(links, gone);
    FilterLinksOrdered(links, OtherLink(gone.id));
    var k := OldestPlain(rest, gone.operation);
    assert rest[i] in rest;
    if k < i {
      assert rest[k] in rest && LinkBefore(rest[k], rest[i]);
    }
    if k == i {
      forall x | x in links && x != gone && x.operation == gone.operation && x.movement.None? ensures x == rest[i] || LinkBefore(rest[i], x) {
        assert x in rest;
        var j :| 0 <= j < |rest| && rest[j] == x;
        assert i < j ==> LinkBefore(rest[i], rest[j]);
      }
    }
  }

  lemma LinkAfterRemoval(b: Book, gone: Link, i: nat)
    requires LinksSound(b) && gone in b.links && i < |WithoutLink(b.links, gone.id)|
    ensures |RemoveLink(b, gone).links| == |WithoutLink(b.links, gone.id)|
    ensures LeftAs(b, gone, WithoutLink(b.links, gone.id)[i], RemoveLink(b, gone).links[i])
  {
    HeirIsFirstPlain(b.links, gone, i);
  }

  /** A removal takes exactly the one link; every other stays the same parcel, in its place, and only
      the heir of a pivot's mark takes the movement id over. */
  lemma OnlyOneLinkGoes(b: Book, gone: Link)
    requires LinksSound(b) && gone in b.links
    ensures forall l | l in b.links && l != gone :: exists after | after in RemoveLink(b, gone).links :: LeftAs(b, gone, l, after)
    ensures forall after | after in RemoveLink(b, gone).links :: exists l | l in b.links && l != gone :: LeftAs(b, gone, l, after)
    ensures |RemoveLink(b, gone).links| == |b.links| - 1
  {
    var rest, c := WithoutLink(b.links, gone.id), RemoveLink(b, gone).links;
    WithoutLinkMembers(b.links, gone);
    forall l | l in b.links && l != gone ensures exists after | after in c :: LeftAs(b, gone, l, after) {
      var i :| 0 <= i < |rest| && rest[i] == l;
      LinkAfterRemoval(b, gone, i);
      assert c[i] in c;
    }
    forall after | after in c ensures exists l | l in b.links && l != gone :: LeftAs(b, gone, l, after) {
      var i :| 0 <= i < |c| && c[i] == after;
      LinkAfterRemoval(b, gone, i);
      assert rest[i] in rest;
    }
    WithoutIsOneLess(b.links, gone);
  }

  lemma {:induction false} WithoutIsOneLess(links: seq<Link>, gone: Link)
    requires DistinctLinks(links) && gone in links
    ensures |WithoutLink(links, gone.id)| == |links| - 1
    ensures multiset(links) == multiset(WithoutLink(links, gone.id)) + multiset{gone}
  {
    var rest, last := links[..|links| - 1], links[|links| - 1];
    assert links == rest + [last];
    if last == gone {
      LastGoesAlone(rest, gone);
    } else {
      assert gone in rest;
      var i :| 0 <= i < |rest| && rest[i] == gone;
      assert DifferentLinks(links[i], links[|links| - 1]);
      WithoutIsOneLess(rest, gone);
    }
  }

  /** The totals of its operation and of its line fall by exactly its amount, and no other does. */
  lemma TotalsAfterRemoval(b: Book, gone: Link)
    requires LinksSound(b) && gone in b.links
    ensures forall o: Id :: Allocated(RemoveLink(b, gone).links, OfOperation(o))
                            == Allocated(b.links, OfOperation(o)) - if o == gone.operation then gone.amount else 0.0
    ensures forall line: Id :: Allocated(RemoveLink(b, gone).links, OfLine(line))
                               == Allocated(b.links, OfLine(line)) - if Some(line) == gone.line then gone.amount else 0.0
  {
    forall c: Column | !c.OfMovement? ensures Allocated(RemoveLink(b, gone).links, c) == Allocated(b.links, c) - Parcel(c)(gone) {
      WithoutTotals(b.links, gone, c);
      var rest := WithoutLink(b.links, gone.id);
      var k := OldestPlain(rest, gone.operation);
      if k < |rest| {
        SumUpdate(rest, k, rest[k].(movement := gone.movement), Parcel(c));
      }
    }
    forall o: Id ensures Allocated(RemoveLink(b, gone).links, OfOperation(o))
                         == Allocated(b.links, OfOperation(o)) - if o == gone.operation then gone.amount else 0.0 {
      assert OfOperation(o).OfOperation?;
    }
    forall line: Id ensures Allocated(RemoveLink(b, gone).links, OfLine(line))
                            == Allocated(b.links, OfLine(line)) - if Some(line) == gone.line then gone.amount else 0.0 {
      assert OfLine(line).OfLine?;
    }
  }

  lemma TotalAfterRemoval(b: Book, gone: Link, o: Id)
    requires LinksSound(b) && gone in b.links
    ensures Allocated(RemoveLink(b, gone).links, OfOperation(o)) == Allocated(b.links, OfOperation(o)) - Parcel(OfOperation(o))(gone)
  {
    TotalsAfterRemoval(b, gone);
  }

  lemma {:induction false} WithoutTotals(links: seq<Link>, gone: Link, c: Column)
    requires DistinctLinks(links) && gone in links
    ensures Allocated(WithoutLink(links, gone.id), c) == Allocated(links, c) - Parcel(c)(gone)
  {
    var rest, last := links[..|links| - 1], links[|links| - 1];
    assert links == rest + [last];
    if last == gone {
      LastGoesAlone(rest, gone);
    } else {
      assert gone in rest;
      var i :| 0 <= i < |rest| && rest[i] == gone;
      assert DifferentLinks(links[i], links[|links| - 1]);
      WithoutTotals(rest, gone, c);
      SumPush(WithoutLink(rest, gone.id), last, Parcel(c));
    }
  }

  lemma LastGoesAlone(rest: seq<Link>, gone: Link)
    requires DistinctLinks(rest + [gone])
    ensures WithoutLink(rest, gone.id) == rest
  {
    var links := rest + [gone];
    forall l | l in rest ensures l.id != gone.id {
      var i :| 0 <= i < |rest| && rest[i] == l;
      assert DifferentLinks(links[i], links[|rest|]);
    }
    FilterAll(rest, OtherLink(gone.id));
  }

  /** The rows stay, but for a synced one that lost its last link. */
  lemma OnlyAnOrphanGoes(b: Book, gone: Link)
    ensures forall op :: op in RemoveLink(b, gone).ops <==>
              op in b.ops
              && !(op.id == gone.operation && IsSyncedRow(b.ops, gone.operation)
                   && forall l | l in RemoveLink(b, gone).links :: l.operation != gone.operation)
    ensures RemoveLink(b, gone) == b.(ops := RemoveLink(b, gone).ops, links := RemoveLink(b, gone).links)
  {
    FilterMembers(b.ops, OtherThan(gone.operation));
  }

  // ---- a whole line less ----

  /** Some links hold a parcel, whatever became of its movement id. */
  ghost predicate Holds(links: seq<Link>, l: Link) {
    exists x | x in links :: SameParcel(l, x)
  }

  /** The parcels of other lines are all there, and nothing is new. */
  ghost predicate OthersStand(before: seq<Link>, after: seq<Link>, line: Id) {
    && (forall l | l in before && l.line != Some(line) :: Holds(after, l))
    && (forall x | x in after :: Holds(before, x))
  }

  /** No row is new, and none is gone but synced ones without a link. */
  ghost predicate RowsStand(b: Book, c: Book) {
    && (forall op | op in c.ops :: op in b.ops)
    && (forall op | op in b.ops && op !in c.ops :: op.origin.Synced? && Unlinked(c.links, op.id))
  }

  predicate Unlinked(links: seq<Link>, id: Id) {
    forall x | x in links :: x.operation != id
  }

  lemma HeldOnwards(c: Book, gone: Link, l: Link)
    requires LinksSound(c) && gone in c.links && l.line != gone.line && Holds(c.links, l)
    ensures Holds(RemoveLink(c, gone).links, l)
  {
    OnlyOneLinkGoes(c, gone);
    var x :| x in c.links && SameParcel(l, x);
    var y :| y in RemoveLink(c, gone).links && LeftAs(c, gone, x, y);
    assert SameParcel(l, y);
  }

  lemma HeldBefore(c: Book, gone: Link, y: Link) returns (x: Link)
    requires LinksSound(c) && gone in c.links && y in RemoveLink(c, gone).links
    ensures x in c.links && SameParcel(y, x)
  {
    OnlyOneLinkGoes(c, gone);
    x :| x in c.links && x != gone && LeftAs(c, gone, x, y);
  }

  lemma OthersStandStep(before: seq<Link>, c: Book, line: Id, gone: Link)
    requires LinksSound(c) && gone in c.links && gone.line == Some(line) && OthersStand(before, c.links, line)
    ensures OthersStand(before, RemoveLink(c, gone).links, line)
  {
    forall l | l in before && l.line != Some(line) ensures Holds(RemoveLink(c, gone).links, l) {
      HeldOnwards(c, gone, l);
    }
    forall y | y in RemoveLink(c, gone).links ensures Holds(before, y) {
      var x := HeldBefore(c, gone, y);
      var l :| l in before && SameParcel(x, l);
      assert SameParcel(y, l);
    }
  }

  lemma StaysUnlinked(c: Book, gone: Link, id: Id)
    requires LinksSound(c) && gone in c.links && Unlinked(c.links, id)
    ensures Unlinked(RemoveLink(c, gone).links, id)
  {
    forall y | y in RemoveLink(c, gone).links ensures y.operation != id {
      var x := HeldBefore(c, gone, y);
    }
  }

  lemma RowsStandStep(b: Book, c: Book, gone: Link)
    requires LinksSound(c) && gone in c.links && RowsStand(b, c)
    ensures RowsStand(b, RemoveLink(c, gone))
  {
    var d := RemoveLink(c, gone);
    OnlyAnOrphanGoes(c, gone);
    forall op | op in b.ops && op !in d.ops ensures op.origin.Synced? && Unlinked(d.links, op.id) {
      if op in c.ops {
        var row :| row in c.ops && row.id == gone.operation && row.origin.Synced?;
        FoundIsIt(c.ops, op);
        FoundIsIt(c.ops, row);
      } else {
        StaysUnlinked(c, gone, op.id);
      }
    }
  }

  /** The k-th link of the reading is still there when its turn comes. */
  lemma TurnComes(b: Book, line: Id, k: nat)
    requires LinksSound(b) && 0 < k <= |LinesRead(b, line)|
    ensures var read := LinesRead(b, line);
            var c := RemoveAsRead(b, read[..k - 1]);
            && LinksSound(c) && read[k - 1] in c.links && read[k - 1].line == Some(line)
            && RemoveAsRead(b, read[..k]) == RemoveLink(c, read[k - 1])
  {
    ReadOnceIsEnough(b, line, k - 1);
    ReadingStarts(b, line);
    RemoveAsReadPush(b, LinesRead(b, line), k);
  }

  lemma {:induction false} OthersStandThroughout(b: Book, line: Id, k: nat)
    requires LinksSound(b) && k <= |LinesRead(b, line)|
    ensures OthersStand(b.links, RemoveAsRead(b, LinesRead(b, line)[..k]).links, line)
    ensures RowsStand(b, RemoveAsRead(b, LinesRead(b, line)[..k]))
    decreases k
  {
    var read := LinesRead(b, line);
    if k == 0 {
      assert read[..0] == [];
      forall l | l in b.links ensures Holds(b.links, l) {
        assert SameParcel(l, l);
      }
    } else {
      OthersStandThroughout(b, line, k - 1);
      TurnComes(b, line, k);
      OthersStandStep(b.links, RemoveAsRead(b, read[..k - 1]), line, read[k - 1]);
      RowsStandStep(b, RemoveAsRead(b, read[..k - 1]), read[k - 1]);
    }
  }

  lemma TotalsStep(b: Book, line: Id, k: nat, o: Id)
    requires LinksSound(b) && 0 < k <= |LinesRead(b, line)|
    ensures var read := LinesRead(b, line);
            Allocated(RemoveAsRead(b, read[..k]).links, OfOperation(o))
            == Allocated(RemoveAsRead(b, read[..k - 1]).links, OfOperation(o)) - Parcel(OfOperation(o))(read[k - 1])
  {
    TurnComes(b, line, k);
    TotalAfterRemoval(RemoveAsRead(b, LinesRead(b, line)[..k - 1]), LinesRead(b, line)[k - 1], o);
  }

  lemma {:induction false} TotalsThroughout(b: Book, line: Id, k: nat, o: Id)
    requires LinksSound(b) && k <= |LinesRead(b, line)|
    ensures Allocated(RemoveAsRead(b, LinesRead(b, line)[..k]).links, OfOperation(o))
            == Allocated(b.links, OfOperation(o)) - Allocated(LinesRead(b, line)[..k], OfOperation(o))
    decreases k
  {
    var read := LinesRead(b, line);
    if k == 0 {
      assert read[..0] == [];
    } else {
      TotalsThroughout(b, line, k - 1, o);
      TotalsStep(b, line, k, o);
      SumTake(read, k - 1, Parcel(OfOperation(o)));
    }
  }

  /** A bulk unlink takes exactly the line's links: every other parcel is still there, none is new,
      manual rows all stay, and an operation's total falls by exactly what the line gave it. */
  lemma UnlinkTakesOnlyTheLine(b: Book, line: Id)
    requires LinksSound(b)
    ensures OthersStand(b.links, UnlinkLine(b, line).links, line) && RowsStand(b, UnlinkLine(b, line))
    ensures forall x | x in UnlinkLine(b, line).links :: x.line != Some(line)
    ensures forall o: Id :: Allocated(UnlinkLine(b, line).links, OfOperation(o))
                            == Allocated(b.links, OfOperation(o)) - Allocated(LinesRead(b, line), OfOperation(o))
    ensures forall l :: l in LinesRead(b, line) <==> l in b.links && l.line == Some(line)
  {
    var read := LinesRead(b, line);
    assert read[..|read|] == read;
    OthersStandThroughout(b, line, |read|);
    forall o: Id ensures Allocated(UnlinkLine(b, line).links, OfOperation(o))
                         == Allocated(b.links, OfOperation(o)) - Allocated(read, OfOperation(o)) {
      TotalsThroughout(b, line, |read|, o);
    }
    UnlinkLineSound(b, line);
    FilterMembers(b.links, LinksOn(OfLine(line)));
  }
}
