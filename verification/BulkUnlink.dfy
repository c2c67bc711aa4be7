/** Unlinking a whole bank line from one reading, ignoring the line, and editing a linked
    operation: each keeps the link and pivot invariants. */
module BulkUnlink {
  import opened Wrappers
  import opened Decimals
  import opened Sequences
  import opened Domain
  import opened Tables
  import opened Reconciliation
  import opened LinkInvariants

  function LinesRead(b: Book, line: Id): seq<Link> {
    Filter(b.links, LinksOn(OfLine(line)))
  }

  lemma RemoveAsReadPush(b: Book, read: seq<Link>, k: nat)
    requires 0 < k <= |read|
    ensures RemoveAsRead(b, read[..k]) == RemoveLink(RemoveAsRead(b, read[..k - 1]), read[k - 1])
  {
    assert read[..k][..k - 1] == read[..k - 1];
  }

  /** After the first k of the links read beforehand are gone, the others are still in the table
      exactly as they were read, and the line carries nothing else. */
  ghost predicate ReadingHolds(c: Book, line: Id, read: seq<Link>, k: nat)
    requires k <= |read|
  {
    && (forall i | k <= i < |read| :: read[i] in c.links)
    && (forall l | l in c.links && l.line == Some(line) :: l in read[k..])
  }

  /** Handing a movement on never rewrites a link of the same bank line. */
  lemma SameLineUntouched(b: Book, gone: Link, l: Link, line: Id)
    requires LinksSound(b) && gone in b.links && l in b.links && l != gone
    requires gone.line == Some(line) && l.line == Some(line)
    ensures l in RemoveLink(b, gone).links
  {
    assert !Collide(gone, l);
    KeptElsewhere(b, gone, l);
  }

  /** No new link appears on the line. */
  lemma NoneAppears(b: Book, gone: Link, l: Link, line: Id)
    requires LinksSound(b) && gone in b.links && gone.line == Some(line)
    requires l in RemoveLink(b, gone).links && l.line == Some(line)
    ensures l in b.links && l != gone
  {
    AfterRemoval(b, gone, l);
    if l !in b.links {
      var rest := WithoutLink(b.links, gone.id);
      var k := OldestPlain(rest, gone.operation);
      WithoutLinkMembers(b.links, gone);
      assert rest[k] in rest;
      assert Collide(rest[k], gone);
    }
  }

  /** The reading: distinct links of the table, all of the line, and all of them. */
  lemma ReadingStarts(b: Book, line: Id)
    requires LinksSound(b)
    ensures DistinctLinks(LinesRead(b, line))
    ensures forall i | 0 <= i < |LinesRead(b, line)| :: LinesRead(b, line)[i].line == Some(line)
    ensures ReadingHolds(b, line, LinesRead(b, line), 0)
  {
    var read := LinesRead(b, line);
    FilterLinksOrdered(b.links, LinksOn(OfLine(line)));
    forall i | 0 <= i < |read| ensures read[i].line == Some(line) && read[i] in b.links {
      FilterMember(b.links, LinksOn(OfLine(line)), read[i]);
    }
    forall l | l in b.links && l.line == Some(line) ensures l in read[0..] {
      FilterMember(b.links, LinksOn(OfLine(line)), l);
      assert read[0..] == read;
    }
  }

  /** One link of the reading removed: the rest stays sound and as it was read. */
  lemma OneReadRemoved(c: Book, line: Id, read: seq<Link>, k: nat)
    requires LinksSound(c) && 0 < k <= |read| && DistinctLinks(read)
    requires forall i | 0 <= i < |read| :: read[i].line == Some(line)
    requires ReadingHolds(c, line, read, k - 1)
    ensures LinksSound(RemoveLink(c, read[k - 1])) && ReadingHolds(RemoveLink(c, read[k - 1]), line, read, k)
    ensures PivotsSound(c) ==> PivotsSound(RemoveLink(c, read[k - 1]))
  {
    RemoveLinkSound(c, read[k - 1]);
    if PivotsSound(c) {
      RemoveLinkKeepsPivots(c, read[k - 1]);
    }
    ReadingAdvances(c, line, read, k);
  }

  lemma {:induction false} ReadOnceIsEnough(b: Book, line: Id, k: nat)
    requires LinksSound(b) && k <= |LinesRead(b, line)|
    ensures LinksSound(RemoveAsRead(b, LinesRead(b, line)[..k]))
    ensures ReadingHolds(RemoveAsRead(b, LinesRead(b, line)[..k]), line, LinesRead(b, line), k)
    ensures PivotsSound(b) ==> PivotsSound(RemoveAsRead(b, LinesRead(b, line)[..k]))
    decreases k
  {
    var read := LinesRead(b, line);
    ReadingStarts(b, line);
    if k == 0 {
      assert read[..0] == [];
    } else {
      ReadOnceIsEnough(b, line, k - 1);
      RemoveAsReadPush(b, read, k);
      OneReadRemoved(RemoveAsRead(b, read[..k - 1]), line, read, k);
    }
  }

  lemma OthersStillRead(c: Book, line: Id, read: seq<Link>, k: nat, i: nat)
    requires LinksSound(c) && 0 < k <= i < |read| && DistinctLinks(read)
    requires read[k - 1].line == Some(line) && read[i].line == Some(line)
    requires read[k - 1] in c.links && read[i] in c.links
    ensures read[i] in RemoveLink(c, read[k - 1]).links
  {
    assert DifferentLinks(read[k - 1], read[i]);
    SameLineUntouched(c, read[k - 1], read[i], line);
  }

  lemma NothingElseRead(c: Book, line: Id, read: seq<Link>, k: nat, l: Link)
    requires LinksSound(c) && 0 < k <= |read| && read[k - 1] in c.links && read[k - 1].line == Some(line)
    requires l in RemoveLink(c, read[k - 1]).links && l.line == Some(line)
    requires forall x | x in c.links && x.line == Some(line) :: x in read[k - 1..]
    ensures l in read[k..]
  {
    NoneAppears(c, read[k - 1], l, line);
    assert read[k - 1..] == [read[k - 1]] + read[k..];
  }

  lemma ReadingAdvances(c: Book, line: Id, read: seq<Link>, k: nat)
    requires LinksSound(c) && 0 < k <= |read| && DistinctLinks(read)
    requires forall i | 0 <= i < |read| :: read[i].line == Some(line)
    requires ReadingHolds(c, line, read, k - 1)
    ensures ReadingHolds(RemoveLink(c, read[k - 1]), line, read, k)
  {
    forall i | k <= i < |read| ensures read[i] in RemoveLink(c, read[k - 1]).links {
      OthersStillRead(c, line, read, k, i);
    }
    forall l | l in RemoveLink(c, read[k - 1]).links && l.line == Some(line) ensures l in read[k..] {
      NothingElseRead(c, line, read, k, l);
    }
  }

  /** A bulk unlink from one reading leaves the line free and everything else sound. */
  lemma UnlinkLineSound(b: Book, line: Id)
    requires LinksSound(b)
    ensures LinksSound(UnlinkLine(b, line))
    ensures PivotsSound(b) ==> PivotsSound(UnlinkLine(b, line))
    ensures forall l | l in UnlinkLine(b, line).links :: l.line != Some(line)
  {
    var read := LinesRead(b, line);
    assert read[..|read|] == read && read[|read|..] == [];
    ReadOnceIsEnough(b, line, |read|);
  }

  // ---- ignoring a line ----

  /** Removals never look at the bank lines. */
  lemma {:induction false} RemoveAsReadFrame(b: Book, lines: map<Id, BankLine>, read: seq<Link>)
    ensures RemoveAsRead(b.(lines := lines), read) == RemoveAsRead(b, read).(lines := lines)
    ensures RemoveAsRead(b, read).lines == b.lines && RemoveAsRead(b, read).movements == b.movements
    ensures RemoveAsRead(b, read).accounts == b.accounts && RemoveAsRead(b, read).positions == b.positions
    ensures RemoveAsRead(b, read).syncedHoldings == b.syncedHoldings && RemoveAsRead(b, read).custodies == b.custodies
  {
    if read != [] {
      RemoveAsReadFrame(b, lines, read[..|read| - 1]);
    }
  }

  /** Changing one bank line nobody links leaves the others' links sound. */
  lemma FreeLineSound(b: Book, line: Id, row: BankLine)
    requires LinksSound(b) && forall l | l in b.links :: l.line != Some(line)
    ensures LinksSound(b.(lines := b.lines[line := row]))
    ensures PivotsSound(b) ==> PivotsSound(b.(lines := b.lines[line := row]))
  {
    var c := b.(lines := b.lines[line := row]);
    forall l | l in c.links ensures LinkSound(c, l) {
      assert LinkSound(b, l);
      var op :| op in b.ops && Fits(b, op, l);
      assert Fits(c, op, l);
    }
    UnlinkedIsEmpty(b.links, OfLine(line));
    forall k: Id | LineValue(c, k).Ok? ensures Allocated(c.links, OfLine(k)) <= Abs(LineValue(c, k).value) {
      assert k != line ==> LineValue(b, k) == LineValue(c, k);
    }
    if PivotsSound(b) {
      SamePivots(b, c);
    }
  }

  /** An ignored line carries no link, so taking it back disturbs nothing. */
  lemma ConsiderLineSound(b: Book, line: Id)
    requires LinksSound(b) && line in b.lines
    ensures LinksSound(ConsiderLine(b, line))
    ensures PivotsSound(b) ==> PivotsSound(ConsiderLine(b, line))
  {
    if b.lines[line].ignored {
      forall l | l in b.links ensures l.line != Some(line) {
        assert LinkSound(b, l);
      }
      FreeLineSound(b, line, b.lines[line].(ignored := false));
    } else {
      assert b.lines[line := b.lines[line].(ignored := false)] == b.lines;
    }
  }

  /** Pivots depend on operations, links and movements only. */
  lemma SamePivots(b: Book, c: Book)
    requires PivotsSound(b) && c.links == b.links && c.movements == b.movements
    requires forall op | op in c.ops && op.origin.Synced? :: op in b.ops
    ensures PivotsSound(c)
  {
    forall op | op in c.ops && op.origin.Synced? ensures PivotSound(c, op) {
      assert PivotSound(b, op);
      forall l | l in c.links && Marked(l, op.id) ensures StandsFor(c, op, l.movement.value) {
        assert StandsFor(b, op, l.movement.value);
      }
    }
    forall m: Id, o, p | PivotFor(c, o, m) && PivotFor(c, p, m) ensures o == p {
      assert PivotFor(b, o, m) && PivotFor(b, p, m);
    }
  }

  /** Ignoring a bank line frees it and keeps every other invariant. */
  lemma IgnoreLineSound(b: Book, line: Id)
    requires LinksSound(b) && line in b.lines
    ensures LinksSound(IgnoreLine(b, line))
    ensures PivotsSound(b) ==> PivotsSound(IgnoreLine(b, line))
    ensures forall l | l in IgnoreLine(b, line).links :: l.line != Some(line)
  {
    var row := b.lines[line].(ignored := true);
    var c := UnlinkLine(b, line);
    UnlinkLineSound(b, line);
    RemoveAsReadFrame(b, b.lines[line := row], LinesRead(b, line));
    assert IgnoreLine(b, line) == c.(lines := c.lines[line := row]);
    FreeLineSound(c, line, row);
  }

  // ---- editing a linked operation ----

  /** An operation rewritten in place, keeping its id. */
  function ReplaceRow(ops: seq<Operation>, updated: Operation): seq<Operation> {
    InsertRow(WithoutRow(ops, updated.id), updated)
  }

  lemma ReplaceRowMembers(ops: seq<Operation>, updated: Operation)
    requires Ordered(ops) && DistinctRows(ops)
    ensures Ordered(ReplaceRow(ops, updated)) && DistinctRows(ReplaceRow(ops, updated))
    ensures forall o :: o in ReplaceRow(ops, updated) <==> o == updated || (o in ops && o.id != updated.id)
  {
    FilterMembers(ops, OtherThan(updated.id));
    FilterOrdered(ops, OtherThan(updated.id));
    InsertRowOrdered(WithoutRow(ops, updated.id), updated);
  }

  lemma {:induction false} NoMisfit(b: Book, op: Operation, links: seq<Link>, l: Link)
    requires FirstMisfit(b, op, links).None? && l in links
    ensures Misfit(b, op, l).None?
  {
    var rest, last := links[..|links| - 1], links[|links| - 1];
    assert links == rest + [last];
    if l in rest {
      NoMisfit(b, op, rest, l);
    }
  }

  /** An edit the link check lets through keeps caps, signs and distinct pairs. */
  lemma EditSound(b: Book, updated: Operation)
    requires LinksSound(b) && updated.amount >= 0.0 && LinksJudgement(b, updated).None?
    ensures LinksSound(b.(ops := ReplaceRow(b.ops, updated)))
  {
    var c := b.(ops := ReplaceRow(b.ops, updated));
    var own := Filter(b.links, LinksOn(OfOperation(updated.id)));
    ReplaceRowMembers(b.ops, updated);
    FilterMembers(b.links, LinksOn(OfOperation(updated.id)));
    forall l | l in c.links ensures LinkSound(c, l) {
      assert LinkSound(b, l);
      if l.operation == updated.id {
        assert l in own;
        NoMisfit(b, updated, own, l);
        assert Fits(c, updated, l);
      } else {
        var op :| op in b.ops && Fits(b, op, l);
        assert op in c.ops && Fits(c, op, l);
      }
    }
    EditCapped(b, updated);
  }

  lemma EditCapped(b: Book, updated: Operation)
    requires LinksSound(b) && updated.amount >= 0.0 && LinksJudgement(b, updated).None?
    ensures OperationsCapped(b.(ops := ReplaceRow(b.ops, updated)))
    ensures LinesCapped(b.(ops := ReplaceRow(b.ops, updated)))
  {
    var c := b.(ops := ReplaceRow(b.ops, updated));
    ReplaceRowMembers(b.ops, updated);
    if Filter(b.links, LinksOn(OfOperation(updated.id))) == [] {
      forall l | l in b.links ensures !OnColumn(l, OfOperation(updated.id)) {
        FilterMember(b.links, LinksOn(OfOperation(updated.id)), l);
      }
      UnlinkedIsEmpty(b.links, OfOperation(updated.id));
    }
    forall line: Id | LineValue(c, line).Ok? ensures Allocated(c.links, OfLine(line)) <= Abs(LineValue(c, line).value) {
      assert LineValue(b, line) == LineValue(c, line);
    }
  }

  /** Editing a manual operation leaves every pivot alone. */
  lemma EditKeepsPivots(b: Book, updated: Operation)
    requires LinksSound(b) && PivotsSound(b) && updated.origin.Manual?
    ensures PivotsSound(b.(ops := ReplaceRow(b.ops, updated)))
  {
    ReplaceRowMembers(b.ops, updated);
    SamePivots(b, b.(ops := ReplaceRow(b.ops, updated)));
  }
}
