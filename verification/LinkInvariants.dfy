/** What every link mutation keeps: allocation caps and matching signs for all links, and for
    derived pivots one pivot per movement with exactly one parcel carrying the movement id. */
module LinkInvariants {
  import opened Wrappers
  import opened Decimals
  import opened Sequences
  import opened Domain
  import opened Tables
  import opened Reconciliation

  // ---- the invariants ----

  ghost predicate TablesSound(b: Book) {
    && Ordered(b.ops) && DistinctRows(b.ops)
    && LinksOrdered(b.links) && DistinctLinks(b.links)
    && forall op | op in b.ops :: op.amount >= 0.0
  }

  /** The bank line a link names points the way the operation's money moves. */
  predicate PointsRight(b: Book, op: Operation, line: Id) {
    LineValue(b, line).Ok? && (LineValue(b, line).value < 0.0) == BankOutflowKind(op.kind)
  }

  predicate Fits(b: Book, op: Operation, l: Link) {
    && op.id == l.operation && ReconcilableKind(op.kind)
    && (l.line.Some? ==> PointsRight(b, op, l.line.value))
  }

  ghost predicate LinkSound(b: Book, l: Link) {
    && l.amount > 0.0 && (l.line.Some? || l.movement.Some?)
    && exists op | op in b.ops :: Fits(b, op, l)
  }

  ghost predicate AllLinksSound(b: Book) {
    forall l | l in b.links :: LinkSound(b, l)
  }

  ghost predicate OperationsCapped(b: Book) {
    forall op | op in b.ops :: Allocated(b.links, OfOperation(op.id)) <= op.amount
  }

  ghost predicate LinesCapped(b: Book) {
    forall line: Id | LineValue(b, line).Ok? :: Allocated(b.links, OfLine(line)) <= Abs(LineValue(b, line).value)
  }

  predicate Collide(a: Link, c: Link) {
    a.operation == c.operation
    && ((a.line.Some? && a.line == c.line) || (a.movement.Some? && a.movement == c.movement))
  }

  ghost predicate PairsDistinct(links: seq<Link>) {
    forall a, c | a in links && c in links && Collide(a, c) :: a == c
  }

  ghost predicate LinksSound(b: Book) {
    TablesSound(b) && AllLinksSound(b) && OperationsCapped(b) && LinesCapped(b) && PairsDistinct(b.links)
  }

  predicate Marked(l: Link, operation: Id) {
    l.operation == operation && l.movement.Some?
  }

  /** What a pivot takes from the movement it stands for. */
  predicate StandsFor(b: Book, op: Operation, movement: Id) {
    && movement in b.movements && Pivotable(b.movements[movement])
    && op.amount == Abs(b.movements[movement].amount.value)
    && op.kind == PivotKind(b.movements[movement])
    && op.account == b.movements[movement].custody
  }

  ghost predicate PivotSound(b: Book, op: Operation) {
    && (exists l | l in b.links :: Marked(l, op.id))
    && (forall l, m | l in b.links && m in b.links && Marked(l, op.id) && Marked(m, op.id) :: l == m)
    && (forall l | l in b.links && Marked(l, op.id) :: StandsFor(b, op, l.movement.value))
  }

  /** The operation is a synced row holding the movement's id on one of its links. */
  ghost predicate PivotFor(b: Book, op: Operation, movement: Id) {
    op in b.ops && IsPivotOf(b.links, movement)(op)
  }

  ghost predicate OnePivotPerMovement(b: Book) {
    forall movement: Id, o, p | PivotFor(b, o, movement) && PivotFor(b, p, movement) :: o == p
  }

  ghost predicate PivotsSound(b: Book) {
    (forall op | op in b.ops && op.origin.Synced? :: PivotSound(b, op)) && OnePivotPerMovement(b)
  }

  /** What soundness says about one movement: it has at most one pivot, whose parcels include
      exactly one carrying the movement id and never exceed the movement's amount. */
  lemma PivotNeverExceedsItsMovement(b: Book, op: Operation, movement: Id)
    requires LinksSound(b) && PivotsSound(b) && PivotFor(b, op, movement)
    ensures forall p | PivotFor(b, p, movement) :: p == op
    ensures exists l | l in b.links :: Carries(l, op.id, movement) && forall m | m in b.links && Marked(m, op.id) :: m == l
    ensures movement in b.movements && b.movements[movement].amount.Some?
    ensures Allocated(b.links, OfOperation(op.id)) <= Abs(b.movements[movement].amount.value)
  {
    assert PivotSound(b, op);
    var l :| l in b.links && Carries(l, op.id, movement);
    assert Marked(l, op.id) && StandsFor(b, op, movement);
  }

  // ---- rows and links by id ----

  /** An operation nobody links carries no allocation. */
  lemma UnlinkedIsEmpty(links: seq<Link>, c: Column)
    requires forall l | l in links :: !OnColumn(l, c)
    ensures Allocated(links, c) == 0.0
  {
    forall l | l in links ensures Parcel(c)(l) == 0.0 {
    }
    SumZero(links, Parcel(c));
  }

  // ---- removing a link ----

  lemma WithoutLinkMembers(links: seq<Link>, gone: Link)
    requires DistinctLinks(links) && gone in links
    ensures forall l :: l in WithoutLink(links, gone.id) <==> l in links && l != gone
  {
    forall l ensures l in WithoutLink(links, gone.id) <==> l in links && l != gone {
      FilterMember(links, OtherLink(gone.id), l);
      if l in links && l.id == gone.id {
      }
    }
  }

  lemma WithoutLinkSound(b: Book, gone: Link)
    requires LinksSound(b) && gone in b.links
    ensures LinksSound(b.(links := WithoutLink(b.links, gone.id)))
  {
    var c := b.(links := WithoutLink(b.links, gone.id));
    WithoutLinkMembers(b.links, gone);
    FilterLinksOrdered(b.links, OtherLink(gone.id));
    forall l | l in c.links ensures LinkSound(c, l) {
      assert LinkSound(b, l);
      var op :| op in b.ops && Fits(b, op, l);
      assert Fits(c, op, l);
    }
    forall k: Column ensures Allocated(c.links, k) <= Allocated(b.links, k) {
      SumOfFilterAtMost(b.links, OtherLink(gone.id), Parcel(k));
    }
    forall op | op in c.ops ensures Allocated(c.links, OfOperation(op.id)) <= op.amount {
      assert Allocated(b.links, OfOperation(op.id)) <= op.amount;
    }
    forall line: Id | LineValue(c, line).Ok? ensures Allocated(c.links, OfLine(line)) <= Abs(LineValue(c, line).value) {
      assert LineValue(b, line) == LineValue(c, line);
    }
  }

  /** Marking a plain parcel with a movement its operation does not carry disturbs nothing. */
  lemma MarkSound(b: Book, k: nat, movement: Id)
    requires LinksSound(b) && k < |b.links| && b.links[k].movement.None?
    requires forall l | l in b.links && l.operation == b.links[k].operation :: l.movement != Some(movement)
    ensures LinksSound(b.(links := b.links[k := b.links[k].(movement := Some(movement))]))
  {
    var marked := b.links[k].(movement := Some(movement));
    var c := b.(links := b.links[k := marked]);
    assert forall i | 0 <= i < |c.links| :: c.links[i].id == b.links[i].id && c.links[i].createdAt == b.links[i].createdAt;
    forall i, j | 0 <= i < j < |c.links| ensures LinkBefore(c.links[i], c.links[j]) && DifferentLinks(c.links[i], c.links[j]) {
      assert LinkBefore(b.links[i], b.links[j]) && DifferentLinks(b.links[i], b.links[j]);
    }
    assert b.links[k] in b.links;
    forall l | l in c.links ensures LinkSound(c, l) {
      var plain := if l == marked then b.links[k] else l;
      assert plain in b.links && LinkSound(b, plain);
      var op :| op in b.ops && Fits(b, op, plain);
      assert Fits(c, op, l);
    }
    MarkCapped(b, c, k, marked);
    forall x, y | x in c.links && y in c.links && Collide(x, y) ensures x == y {
      MarkCollision(b, k, movement, x, y);
    }
  }

  lemma MarkCapped(b: Book, c: Book, k: nat, marked: Link)
    requires k < |b.links| && marked == b.links[k].(movement := marked.movement)
    requires c == b.(links := b.links[k := marked])
    requires OperationsCapped(b) && LinesCapped(b)
    ensures OperationsCapped(c) && LinesCapped(c)
  {
    forall op | op in c.ops ensures Allocated(c.links, OfOperation(op.id)) <= op.amount {
      SumUpdate(b.links, k, marked, Parcel(OfOperation(op.id)));
      assert Allocated(b.links, OfOperation(op.id)) <= op.amount;
    }
    forall line: Id | LineValue(c, line).Ok? ensures Allocated(c.links, OfLine(line)) <= Abs(LineValue(c, line).value) {
      SumUpdate(b.links, k, marked, Parcel(OfLine(line)));
      assert LineValue(b, line) == LineValue(c, line);
    }
  }

  lemma MarkCollision(b: Book, k: nat, movement: Id, x: Link, y: Link)
    requires PairsDistinct(b.links) && DistinctLinks(b.links)
    requires k < |b.links| && b.links[k].movement.None?
    requires forall l | l in b.links && l.operation == b.links[k].operation :: l.movement != Some(movement)
    requires x in b.links[k := b.links[k].(movement := Some(movement))]
    requires y in b.links[k := b.links[k].(movement := Some(movement))]
    requires Collide(x, y)
    ensures x == y
  {
    var marked := b.links[k].(movement := Some(movement));
    var x0 := if x == marked then b.links[k] else x;
    var y0 := if y == marked then b.links[k] else y;
    assert b.links[k] in b.links && x0 in b.links && y0 in b.links;
    assert x0 != y0 ==> !Collide(x0, y0);
  }

  lemma HandOffSound(b: Book, gone: Link)
    requires LinksSound(b)
    requires forall l | l in b.links :: !Collide(gone, l)
    ensures LinksSound(b.(links := HandOff(b.links, b.ops, gone)))
  {
    var k := OldestPlain(b.links, gone.operation);
    if gone.movement.Some? && IsSyncedRow(b.ops, gone.operation) && k < |b.links| {
      forall l | l in b.links && l.operation == b.links[k].operation ensures l.movement != gone.movement {
        assert !Collide(gone, l);
      }
      MarkSound(b, k, gone.movement.value);
    }
  }

  /** Taking out a row nobody links leaves every link where it stood. */
  lemma DropRowSound(b: Book, id: Id)
    requires LinksSound(b) && forall l | l in b.links :: l.operation != id
    ensures LinksSound(b.(ops := WithoutRow(b.ops, id)))
  {
    var c := b.(ops := WithoutRow(b.ops, id));
    FilterMembers(b.ops, OtherThan(id));
    FilterOrdered(b.ops, OtherThan(id));
    forall l | l in c.links ensures LinkSound(c, l) {
      assert LinkSound(b, l);
      var op :| op in b.ops && Fits(b, op, l);
      assert op in c.ops && Fits(c, op, l);
    }
    forall line: Id | LineValue(c, line).Ok? ensures Allocated(c.links, OfLine(line)) <= Abs(LineValue(c, line).value) {
      assert LineValue(b, line) == LineValue(c, line);
    }
  }

  /** Undoing a link keeps caps, signs and distinct pairs. */
  lemma RemoveLinkSound(b: Book, gone: Link)
    requires LinksSound(b) && gone in b.links
    ensures LinksSound(RemoveLink(b, gone))
  {
    var c := b.(links := WithoutLink(b.links, gone.id));
    WithoutLinkSound(b, gone);
    WithoutLinkMembers(b.links, gone);
    HandOffSound(c, gone);
    var d := c.(links := HandOff(c.links, c.ops, gone));
    if IsSyncedRow(d.ops, gone.operation) && !(exists l | l in d.links :: l.operation == gone.operation) {
      DropRowSound(d, gone.operation);
    }
  }

  // ---- removing a link keeps pivots ----

  /** What is left of an operation's links after one of them goes and its mark is handed on. */
  lemma AfterRemoval(b: Book, gone: Link, l: Link)
    requires LinksSound(b) && gone in b.links && l in RemoveLink(b, gone).links
    ensures l.operation != gone.operation ==> l in b.links
    ensures gone.movement.None? || !IsSyncedRow(b.ops, gone.operation) ==> l in b.links && l != gone
    ensures Marked(l, gone.operation) && l !in b.links ==> l.movement == gone.movement
    ensures l in b.links ==> l != gone
  {
    var rest := WithoutLink(b.links, gone.id);
    WithoutLinkMembers(b.links, gone);
    WithoutLinkSound(b, gone);
    var k := OldestPlain(rest, gone.operation);
    if gone.movement.Some? && IsSyncedRow(b.ops, gone.operation) && k < |rest| {
      assert rest[k] in rest;
      var marked := rest[k].(movement := gone.movement);
      assert l == marked || l in rest;
      assert Collide(marked, gone);
    }
  }

  /** A link of another operation stays as it was. */
  lemma KeptElsewhere(b: Book, gone: Link, l: Link)
    requires LinksSound(b) && gone in b.links && l in b.links && l.operation != gone.operation
    ensures l in RemoveLink(b, gone).links
  {
    var rest := WithoutLink(b.links, gone.id);
    WithoutLinkMembers(b.links, gone);
    var k := OldestPlain(rest, gone.operation);
    var i :| 0 <= i < |rest| && rest[i] == l;
    assert HandOff(rest, b.ops, gone)[i] == l;
  }

  /** Rows after a removal are rows from before it. */
  lemma RowsAfterRemoval(b: Book, gone: Link, op: Operation)
    requires op in RemoveLink(b, gone).ops
    ensures op in b.ops
    ensures op.id == gone.operation && op.origin.Synced? ==>
              exists l | l in RemoveLink(b, gone).links :: l.operation == gone.operation
  {
    FilterMembers(b.ops, OtherThan(gone.operation));
  }

  /** A plain parcel goes: the marked one of its pivot is untouched. */
  lemma PlainParcelGoes(b: Book, gone: Link, op: Operation)
    requires LinksSound(b) && PivotSound(b, op) && gone in b.links && gone.movement.None?
    ensures PivotSound(RemoveLink(b, gone), op)
  {
    var c := RemoveLink(b, gone);
    WithoutLinkMembers(b.links, gone);
    assert c.links == WithoutLink(b.links, gone.id);
    var l :| l in b.links && Marked(l, op.id);
    assert l in c.links;
    forall x | x in c.links && Marked(x, op.id) ensures StandsFor(c, op, x.movement.value) {
      assert StandsFor(b, op, x.movement.value);
    }
  }

  /** With no marked sibling left, the hand-off marks exactly one parcel. */
  lemma HandOffMarksOne(rest: seq<Link>, ops: seq<Operation>, gone: Link)
    requires gone.movement.Some? && IsSyncedRow(ops, gone.operation)
    requires forall l | l in rest && l.operation == gone.operation :: l.movement.None?
    requires exists l | l in HandOff(rest, ops, gone) :: l.operation == gone.operation
    ensures exists l | l in HandOff(rest, ops, gone) :: Marked(l, gone.operation)
    ensures forall l | l in HandOff(rest, ops, gone) && Marked(l, gone.operation) :: l.movement == gone.movement
    ensures forall l, m | l in HandOff(rest, ops, gone) && m in HandOff(rest, ops, gone)
                          && Marked(l, gone.operation) && Marked(m, gone.operation) :: l == m
  {
    var h, k := HandOff(rest, ops, gone), OldestPlain(rest, gone.operation);
    var l :| l in h && l.operation == gone.operation;
    if l in rest {
    }
    var marked := rest[k].(movement := gone.movement);
    assert h == rest[k := marked] && h[k] == marked;
    assert marked in h && Marked(marked, gone.operation);
    assert forall x | x in h :: x == marked || x in rest;
  }

  /** When the marked parcel goes, the oldest plain sibling is the one marked parcel left. */
  lemma MarkedParcelGoes(b: Book, gone: Link, op: Operation)
    requires LinksSound(b) && PivotSound(b, op) && gone in b.links && Marked(gone, op.id)
    requires IsSyncedRow(b.ops, gone.operation)
    requires exists l | l in RemoveLink(b, gone).links :: l.operation == op.id
    ensures PivotSound(RemoveLink(b, gone), op)
  {
    var c := RemoveLink(b, gone);
    var rest := WithoutLink(b.links, gone.id);
    WithoutLinkMembers(b.links, gone);
    forall l | l in rest && l.operation == op.id ensures l.movement.None? {
      assert l in b.links;
    }
    HandOffMarksOne(rest, b.ops, gone);
    assert StandsFor(b, op, gone.movement.value);
    forall l | l in c.links && Marked(l, op.id) ensures StandsFor(c, op, l.movement.value) {
      assert l.movement == gone.movement;
    }
  }

  /** The pivot that lost a parcel still has exactly one marked parcel, for the same movement. */
  lemma OwnPivotSurvives(b: Book, gone: Link, op: Operation)
    requires LinksSound(b) && PivotsSound(b) && gone in b.links
    requires op in RemoveLink(b, gone).ops && op.origin.Synced? && op.id == gone.operation
    ensures PivotSound(RemoveLink(b, gone), op)
  {
    RowsAfterRemoval(b, gone, op);
    assert PivotSound(b, op) && IsSyncedRow(b.ops, gone.operation);
    if gone.movement.None? {
      PlainParcelGoes(b, gone, op);
    } else {
      MarkedParcelGoes(b, gone, op);
    }
  }

  lemma OtherPivotSurvives(b: Book, gone: Link, op: Operation)
    requires LinksSound(b) && PivotSound(b, op) && gone in b.links && op.id != gone.operation
    ensures PivotSound(RemoveLink(b, gone), op)
  {
    var c := RemoveLink(b, gone);
    var l :| l in b.links && Marked(l, op.id);
    KeptElsewhere(b, gone, l);
    forall x | x in c.links && Marked(x, op.id) ensures x == l && StandsFor(c, op, x.movement.value) {
      AfterRemoval(b, gone, x);
      assert StandsFor(b, op, x.movement.value);
    }
  }

  /** A surviving pivot was its movement's pivot before, perhaps through the link that went. */
  lemma PivotBefore(b: Book, gone: Link, op: Operation, movement: Id)
    requires LinksSound(b) && gone in b.links && PivotFor(RemoveLink(b, gone), op, movement)
    ensures PivotFor(b, op, movement)
  {
    RowsAfterRemoval(b, gone, op);
    var l :| l in RemoveLink(b, gone).links && Carries(l, op.id, movement);
    AfterRemoval(b, gone, l);
    var l0 := if l in b.links then l else gone;
    assert l0 in b.links && Carries(l0, op.id, movement);
  }

  lemma StillOnePivotPerMovement(b: Book, gone: Link)
    requires LinksSound(b) && OnePivotPerMovement(b) && gone in b.links
    ensures OnePivotPerMovement(RemoveLink(b, gone))
  {
    var c := RemoveLink(b, gone);
    forall movement: Id, o, p | PivotFor(c, o, movement) && PivotFor(c, p, movement) ensures o == p {
      PivotBefore(b, gone, o, movement);
      PivotBefore(b, gone, p, movement);
    }
  }

  /** Undoing a link keeps every surviving pivot findable, alone on its movement, and within it. */
  lemma RemoveLinkKeepsPivots(b: Book, gone: Link)
    requires LinksSound(b) && PivotsSound(b) && gone in b.links
    ensures PivotsSound(RemoveLink(b, gone))
  {
    var c := RemoveLink(b, gone);
    forall op | op in c.ops && op.origin.Synced? ensures PivotSound(c, op) {
      RowsAfterRemoval(b, gone, op);
      if op.id == gone.operation {
        OwnPivotSurvives(b, gone, op);
      } else {
        assert PivotSound(b, op);
        OtherPivotSurvives(b, gone, op);
      }
    }
    StillOnePivotPerMovement(b, gone);
  }

  // ---- adding a link ----

  ghost predicate FreshRow(b: Book, id: Id) {
    forall op | op in b.ops :: op.id != id
  }

  ghost predicate FreshLink(b: Book, id: Id) {
    forall l | l in b.links :: l.id != id
  }

  /** A new row nobody links yet leaves every link where it stood. */
  lemma AddRowSound(b: Book, op: Operation)
    requires LinksSound(b) && FreshRow(b, op.id) && op.amount >= 0.0
    ensures LinksSound(b.(ops := InsertRow(b.ops, op)))
  {
    var c := b.(ops := InsertRow(b.ops, op));
    InsertRowOrdered(b.ops, op);
    forall l | l in c.links ensures LinkSound(c, l) {
      assert LinkSound(b, l);
      var o :| o in b.ops && Fits(b, o, l);
      assert o in c.ops && Fits(c, o, l);
    }
    UnlinkedIsEmpty(b.links, OfOperation(op.id));
    forall line: Id | LineValue(c, line).Ok? ensures Allocated(c.links, OfLine(line)) <= Abs(LineValue(c, line).value) {
      assert LineValue(b, line) == LineValue(c, line);
    }
  }

  lemma OldLinkStillFits(b: Book, c: Book, l: Link)
    requires LinksSound(b) && l in b.links && c == b.(links := c.links)
    ensures LinkSound(c, l)
  {
    assert LinkSound(b, l);
    var o :| o in b.ops && Fits(b, o, l);
    assert Fits(c, o, l);
  }

  /** An accepted parcel keeps caps, signs and distinct pairs. */
  lemma AddParcelSound(b: Book, operation: Id, line: Option<Id>, movement: Option<Id>, amount: real, stamp: LinkStamp)
    requires LinksSound(b) && FreshLink(b, stamp.link) && amount > 0.0 && (line.Some? || movement.Some?)
    requires AddParcel(b, operation, line, movement, amount, stamp).Ok?
    ensures LinksSound(AddParcel(b, operation, line, movement, amount, stamp).value)
  {
    var op := FindRow(b.ops, operation).value;
    var link := Link(stamp.link, operation, line, movement, amount, stamp.linkedAt);
    var c := b.(links := InsertLink(b.links, link));
    InsertLinkOrdered(b.links, link);
    assert Fits(c, op, link);
    forall l | l in c.links ensures LinkSound(c, l) {
      if l != link {
        OldLinkStillFits(b, c, l);
      }
    }
    AddParcelCapped(b, op, link);
    forall x, y | x in c.links && y in c.links && Collide(x, y) ensures x == y {
      assert !(x == link && y in b.links) && !(y == link && x in b.links);
    }
  }

  lemma AddParcelCapped(b: Book, op: Operation, link: Link)
    requires LinksSound(b) && op in b.ops && op.id == link.operation
    requires Allocated(b.links, OfOperation(op.id)) + link.amount <= op.amount
    requires LineJudgement(b, op, link.line, link.amount).None?
    ensures OperationsCapped(b.(links := InsertLink(b.links, link)))
    ensures LinesCapped(b.(links := InsertLink(b.links, link)))
  {
    var c := b.(links := InsertLink(b.links, link));
    forall o | o in c.ops ensures Allocated(c.links, OfOperation(o.id)) <= o.amount {
      InsertLinkAllocated(b.links, link, OfOperation(o.id));
      assert Allocated(b.links, OfOperation(o.id)) <= o.amount;
      if o.id == op.id {
      }
    }
    forall line: Id | LineValue(c, line).Ok? ensures Allocated(c.links, OfLine(line)) <= Abs(LineValue(c, line).value) {
      InsertLinkAllocated(b.links, link, OfLine(line));
      assert LineValue(b, line) == LineValue(c, line);
    }
  }

  /** Accounts play no part in what links and pivots keep. */
  lemma CatalogueDoesNotMatter(b: Book, c: Book)
    requires c == b.(accounts := c.accounts, positions := c.positions) && LinksSound(b)
    ensures LinksSound(c) && (PivotsSound(b) ==> PivotsSound(c))
  {
    forall l | l in c.links ensures LinkSound(c, l) {
      assert LinkSound(b, l);
      var op :| op in b.ops && Fits(b, op, l);
      assert Fits(c, op, l);
    }
    forall line: Id | LineValue(c, line).Ok? ensures Allocated(c.links, OfLine(line)) <= Abs(LineValue(c, line).value) {
      assert LineValue(b, line) == LineValue(c, line);
    }
    if PivotsSound(b) {
      forall op | op in c.ops && op.origin.Synced? ensures PivotSound(c, op) {
        assert PivotSound(b, op);
        forall l | l in c.links && Marked(l, op.id) ensures StandsFor(c, op, l.movement.value) {
          assert StandsFor(b, op, l.movement.value);
        }
      }
      forall movement: Id, o, p | PivotFor(c, o, movement) && PivotFor(c, p, movement) ensures o == p {
        assert PivotFor(b, o, movement) && PivotFor(b, p, movement);
      }
    }
  }

  /** Every accepted request keeps caps, signs and distinct pairs. */
  lemma CreateLinkSound(b: Book, input: LinkInput, stamp: LinkStamp)
    requires LinksSound(b) && FreshLink(b, stamp.link) && FreshRow(b, stamp.pivot)
    requires CreateLink(b, input, stamp).Ok?
    ensures LinksSound(CreateLink(b, input, stamp).value)
  {
    var line, movement := Trimmed(input.line), Trimmed(input.movement);
    if input.operation != EMPTY {
      AddParcelSound(b, input.operation, line, movement, input.amount, stamp);
    } else {
      var p := EnsurePivot(b, movement.value, stamp).value;
      if !p.reused {
        CatalogueDoesNotMatter(b, WithCustodies(b));
        AddRowSound(WithCustodies(b), PivotRow(b.movements[movement.value], stamp));
      }
      AddParcelSound(p.book, p.operation, line, if p.reused then None else movement, input.amount, stamp);
    }
  }

  /** A plain parcel changes no pivot; a marked one is harmless on a manual operation. */
  lemma ParcelKeepsPivots(b: Book, link: Link)
    requires LinksSound(b) && PivotsSound(b) && FreshLink(b, link.id)
    requires link.movement.None? || !IsSyncedRow(b.ops, link.operation)
    ensures PivotsSound(b.(links := InsertLink(b.links, link)))
  {
    var c := b.(links := InsertLink(b.links, link));
    InsertLinkOrdered(b.links, link);
    forall op | op in c.ops && op.origin.Synced? ensures PivotSound(c, op) {
      assert PivotSound(b, op);
      assert !Marked(link, op.id);
      forall l | l in c.links && Marked(l, op.id) ensures StandsFor(c, op, l.movement.value) {
        assert StandsFor(b, op, l.movement.value);
      }
    }
    forall movement: Id, o, p | PivotFor(c, o, movement) && PivotFor(c, p, movement) ensures o == p {
      PivotForWithout(b, link, o, movement);
      PivotForWithout(b, link, p, movement);
    }
  }

  lemma PivotForWithout(b: Book, link: Link, op: Operation, movement: Id)
    requires LinksOrdered(b.links) && DistinctLinks(b.links) && FreshLink(b, link.id)
    requires PivotFor(b.(links := InsertLink(b.links, link)), op, movement)
    ensures PivotFor(b, op, movement) || Carries(link, op.id, movement)
  {
    InsertLinkOrdered(b.links, link);
    var l :| l in InsertLink(b.links, link) && Carries(l, op.id, movement);
  }

  /** A second mark on a pivot leaves it with two movements. */
  lemma SecondMarkBreaksPivot(b: Book, op: Operation, link: Link)
    requires LinksSound(b) && PivotsSound(b) && FreshLink(b, link.id)
    requires op in b.ops && op.origin.Synced? && Marked(link, op.id)
    ensures !PivotsSound(b.(links := InsertLink(b.links, link)))
  {
    var c := b.(links := InsertLink(b.links, link));
    InsertLinkOrdered(b.links, link);
    assert PivotSound(b, op);
    var l :| l in b.links && Marked(l, op.id);
    assert l in c.links && link in c.links && l != link;
    assert !PivotSound(c, op);
  }

  /** The pivots there were do not notice a new row and its first parcel. */
  lemma OldPivotKept(b: Book, c: Book, op: Operation, link: Link)
    requires PivotSound(b, op) && c.movements == b.movements && !Marked(link, op.id)
    requires forall l :: l in c.links <==> l == link || l in b.links
    ensures PivotSound(c, op)
  {
    var l :| l in b.links && Marked(l, op.id);
    assert l in c.links;
    forall x | x in c.links && Marked(x, op.id) ensures StandsFor(c, op, x.movement.value) {
      assert StandsFor(b, op, x.movement.value);
    }
  }

  /** The first parcel of a new pivot marks it. */
  lemma NewPivotSound(b: Book, row: Operation, movement: Id, link: Link)
    requires LinksSound(b) && PivotsSound(b) && FreshLink(b, link.id) && FreshRow(b, row.id)
    requires row.origin.Synced? && row.amount >= 0.0 && Carries(link, row.id, movement) && StandsFor(b, row, movement)
    requires PivotOf(b, movement).None?
    ensures PivotsSound(b.(ops := InsertRow(b.ops, row), links := InsertLink(b.links, link)))
  {
    var c := b.(ops := InsertRow(b.ops, row), links := InsertLink(b.links, link));
    InsertRowOrdered(b.ops, row);
    InsertLinkOrdered(b.links, link);
    forall op | op in c.ops && op.origin.Synced? ensures PivotSound(c, op) {
      if op == row {
        assert link in c.links && Marked(link, row.id);
      } else {
        assert op in b.ops && op.id != row.id;
        OldPivotKept(b, c, op, link);
      }
    }
    forall m: Id, o, p | PivotFor(c, o, m) && PivotFor(c, p, m) ensures o == p {
      PivotForOldOrNew(b, row, movement, link, o, m);
      PivotForOldOrNew(b, row, movement, link, p, m);
    }
  }

  lemma PivotForOldOrNew(b: Book, row: Operation, movement: Id, link: Link, op: Operation, m: Id)
    requires LinksSound(b) && FreshLink(b, link.id) && FreshRow(b, row.id) && Carries(link, row.id, movement)
    requires PivotOf(b, movement).None?
    requires PivotFor(b.(ops := InsertRow(b.ops, row), links := InsertLink(b.links, link)), op, m)
    ensures if m == movement then op == row else op != row && PivotFor(b, op, m)
  {
    InsertRowOrdered(b.ops, row);
    InsertLinkOrdered(b.links, link);
    var l :| l in InsertLink(b.links, link) && Carries(l, op.id, m);
    if op != row {
      FilterMember(b.ops, IsPivotOf(b.links, m), op);
    }
  }

  /** On a named operation: exactly when that operation is not a synced one given a movement. */
  lemma NamedLinkKeepsPivotsExactly(b: Book, input: LinkInput, stamp: LinkStamp)
    requires LinksSound(b) && PivotsSound(b) && FreshLink(b, stamp.link) && input.operation != EMPTY
    requires CreateLink(b, input, stamp).Ok?
    ensures PivotsSound(CreateLink(b, input, stamp).value) <==>
            !(IsSyncedRow(b.ops, input.operation) && Trimmed(input.movement).Some?)
  {
    var line, movement := Trimmed(input.line), Trimmed(input.movement);
    var link := Link(stamp.link, input.operation, line, movement, input.amount, stamp.linkedAt);
    if movement.Some? && IsSyncedRow(b.ops, input.operation) {
      var op :| op in b.ops && op.id == input.operation && op.origin.Synced?;
      SecondMarkBreaksPivot(b, op, link);
    } else {
      ParcelKeepsPivots(b, link);
    }
  }

  /** On a movement alone: always. */
  lemma DerivedLinkKeepsPivots(b: Book, input: LinkInput, stamp: LinkStamp)
    requires LinksSound(b) && PivotsSound(b) && FreshLink(b, stamp.link) && FreshRow(b, stamp.pivot)
    requires input.operation == EMPTY && CreateLink(b, input, stamp).Ok?
    ensures PivotsSound(CreateLink(b, input, stamp).value)
  {
    var line, movement := Trimmed(input.line), Trimmed(input.movement);
    var p := EnsurePivot(b, movement.value, stamp).value;
    var link := Link(stamp.link, p.operation, line, if p.reused then None else movement, input.amount, stamp.linkedAt);
    if p.reused {
      ParcelKeepsPivots(b, link);
    } else {
      CatalogueDoesNotMatter(b, WithCustodies(b));
      NewPivotSound(WithCustodies(b), PivotRow(b.movements[movement.value], stamp), movement.value, link);
    }
  }

  /** An accepted request keeps the pivots if and only if it does not put a movement on a named
      synced operation. */
  lemma CreateLinkKeepsPivotsExactly(b: Book, input: LinkInput, stamp: LinkStamp)
    requires LinksSound(b) && PivotsSound(b) && FreshLink(b, stamp.link) && FreshRow(b, stamp.pivot)
    requires CreateLink(b, input, stamp).Ok?
    ensures PivotsSound(CreateLink(b, input, stamp).value) <==>
            !(IsSyncedRow(b.ops, input.operation) && input.operation != EMPTY && Trimmed(input.movement).Some?)
  {
    if input.operation != EMPTY {
      NamedLinkKeepsPivotsExactly(b, input, stamp);
    } else {
      DerivedLinkKeepsPivots(b, input, stamp);
    }
  }

  /** A new pivot faces its movement: the movement is good evidence for it up to its whole amount,
      and the bank line that explains it runs the other way. */
  lemma PivotFacesItsMovement(b: Book, movement: Id, stamp: LinkStamp)
    requires movement in b.movements && Pivotable(b.movements[movement])
    requires var row := b.movements[movement];
             row.custody in b.accounts && (b.accounts[row.custody].source.Some? ==> b.accounts[row.custody].source.value == row.source)
    ensures var row := b.movements[movement];
            var pivot := PivotRow(row, stamp);
            && MovementValue(b, pivot, movement) == Ok(pivot.amount) && pivot.amount == Abs(row.amount.value) > 0.0
            && ReconcilableKind(pivot.kind) && (BankOutflowKind(pivot.kind) <==> row.direction.Inflow?)
            && (pivot.kind.Income? <==> row.direction.Outflow? && row.interest)
  {
  }
}
