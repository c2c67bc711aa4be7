/** The order in which tables are copied to the new database (cmd/migrate-to-postgres/main.go): a
    depth-first walk of the foreign keys that lists a table after the tables it references. */
module TableOrder {
  import opened Sequences

  type Table = nat

  /** The tables each table references, itself excluded; a table that is not listed references none. */
  type Deps = map<Table, seq<Table>>

  function DepsOf(deps: Deps, t: Table): seq<Table> {
    if t in deps then deps[t] else []
  }

  function Other(t: Table): Table -> bool {
    (x: Table) => x != t
  }

  function DepsIn(all: seq<Table>, keys: map<Table, seq<Table>>): Deps {
    map t | t in all :: Filter(DepsOf(keys, t), Other(t))
  }

  method ReadDeps(all: seq<Table>, keys: map<Table, seq<Table>>) returns (deps: Deps)
    ensures deps == DepsIn(all, keys)
  {
    deps := map[];
    var i := 0;
    while i < |all|
      invariant 0 <= i <= |all|
      invariant forall t :: t in deps <==> t in all[..i]
      invariant forall t | t in deps :: deps[t] == Filter(DepsOf(keys, t), Other(t))
    {
      assert all[..i + 1] == all[..i] + [all[i]];
      var rows := DepsOf(keys, all[i]);
      var refs: seq<Table> := [];
      var j := 0;
      while j < |rows|
        invariant 0 <= j <= |rows| && refs == Filter(rows[..j], Other(all[i]))
      {
        FilterTake(rows, j, Other(all[i]));
        if rows[j] != all[i] {
          refs := refs + [rows[j]];
        }
        j := j + 1;
      }
      assert rows[..j] == rows;
      deps := deps[all[i] := refs];
      i := i + 1;
    }
    assert all[..i] == all;
    assert deps.Keys == DepsIn(all, keys).Keys;
  }

  // ---- graphs ----

  /** Every step goes from a table to one it references. */
  ghost predicate IsChain(deps: Deps, path: seq<Table>) {
    forall i | 0 <= i < |path| - 1 :: Follows(deps, path, i)
  }

  predicate Follows(deps: Deps, path: seq<Table>, i: nat)
    requires i + 1 < |path|
  {
    path[i + 1] in DepsOf(deps, path[i])
  }

  ghost predicate IsCycle(deps: Deps, path: seq<Table>) {
    |path| > 1 && IsChain(deps, path) && path[0] == path[|path| - 1]
  }

  ghost predicate Cyclic(deps: Deps) {
    exists path :: IsCycle(deps, path)
  }

  predicate DepsBefore(deps: Deps, ordered: seq<Table>, j: nat)
    requires j < |ordered|
  {
    forall d | d in DepsOf(deps, ordered[j]) :: d in ordered[..j]
  }

  /** Every listed table comes after all it references. */
  ghost predicate DepsFirst(deps: Deps, ordered: seq<Table>) {
    forall j | 0 <= j < |ordered| :: DepsBefore(deps, ordered, j)
  }

  ghost predicate NoDuplicates(s: seq<Table>) {
    forall i, j | 0 <= i < j < |s| :: s[i] != s[j]
  }

  /** The tables listed, and every table one of them references. */
  function Nodes(all: seq<Table>, deps: Deps): set<Table> {
    (set t | t in all) + set t, d | t in deps && d in deps[t] :: d
  }

  lemma ChainPush(deps: Deps, path: seq<Table>, t: Table)
    requires IsChain(deps, path) && (path != [] ==> t in DepsOf(deps, path[|path| - 1]))
    ensures IsChain(deps, path + [t])
  {
    forall i | 0 <= i < |path + [t]| - 1 ensures Follows(deps, path + [t], i) {
      assert i < |path| - 1 ==> Follows(deps, path, i);
    }
  }

  lemma ChainDrop(deps: Deps, path: seq<Table>, k: nat)
    requires IsChain(deps, path) && k < |path|
    ensures IsChain(deps, path[k..])
  {
    forall i | 0 <= i < |path[k..]| - 1 ensures Follows(deps, path[k..], i) {
      assert Follows(deps, path, i + k);
    }
  }

  /** A reference back to a table still being visited closes a cycle. */
  lemma BackReference(deps: Deps, path: seq<Table>, d: Table)
    requires IsChain(deps, path) && path != [] && d in path && d in DepsOf(deps, path[|path| - 1])
    ensures Cyclic(deps)
  {
    var k :| 0 <= k < |path| && path[k] == d;
    ChainDrop(deps, path, k);
    ChainPush(deps, path[k..], d);
    assert IsCycle(deps, path[k..] + [d]);
  }

  lemma DepsFirstPush(deps: Deps, ordered: seq<Table>, t: Table)
    requires DepsFirst(deps, ordered) && forall d | d in DepsOf(deps, t) :: d in ordered
    ensures DepsFirst(deps, ordered + [t])
  {
    var next := ordered + [t];
    forall j | 0 <= j < |next| ensures DepsBefore(deps, next, j) {
      assert next[..j] == ordered[..j];
      if j < |ordered| {
        assert DepsBefore(deps, ordered, j);
      } else {
        assert ordered[..j] == ordered;
      }
    }
  }

  // ---- the walk ----

  /** Where a walk stands: the visited tables are those listed and those on the path. */
  ghost predicate Sound(deps: Deps, nodes: set<Table>, visited: set<Table>, ordered: seq<Table>, path: seq<Table>) {
    && visited <= nodes
    && (forall t :: t in visited <==> t in ordered || t in path)
    && (forall t | t in path :: t !in ordered)
    && NoDuplicates(ordered) && IsChain(deps, path)
    && (forall t | t in ordered :: RefsIn(deps, t, visited))
    && (Cyclic(deps) || DepsFirst(deps, ordered))
  }

  predicate RefsIn(deps: Deps, t: Table, visited: set<Table>) {
    forall d | d in DepsOf(deps, t) :: d in visited
  }

  lemma EnterSound(deps: Deps, nodes: set<Table>, visited: set<Table>, ordered: seq<Table>, path: seq<Table>, t: Table)
    requires Sound(deps, nodes, visited, ordered, path) && t in nodes && t !in visited
    requires path != [] ==> t in DepsOf(deps, path[|path| - 1])
    ensures Sound(deps, nodes, visited + {t}, ordered, path + [t])
  {
    ChainPush(deps, path, t);
    forall x | x in ordered ensures RefsIn(deps, x, visited + {t}) {
      assert RefsIn(deps, x, visited);
    }
  }

  /** A table whose references were all visited is listed; one of them still on the path would be a
      cycle. */
  lemma ListSound(deps: Deps, nodes: set<Table>, visited: set<Table>, ordered: seq<Table>, path: seq<Table>, t: Table)
    requires Sound(deps, nodes, visited, ordered, path + [t]) && t !in path && RefsIn(deps, t, visited)
    ensures Sound(deps, nodes, visited, ordered + [t], path)
  {
    var below := path + [t];
    assert t in below && below[|below| - 1] == t;
    if !Cyclic(deps) {
      forall d | d in DepsOf(deps, t) ensures d in ordered {
        if d in below {
          BackReference(deps, below, d);
        }
      }
      DepsFirstPush(deps, ordered, t);
    }
    forall k | 0 <= k < |path| - 1 ensures Follows(deps, path, k) {
      assert Follows(deps, below, k);
    }
  }

  class Walk {
    const deps: Deps
    ghost const nodes: set<Table>
    var visited: set<Table>
    var ordered: seq<Table>

    ghost predicate Valid(path: seq<Table>)
      reads this
    {
      Sound(deps, nodes, visited, ordered, path)
    }

    constructor (all: seq<Table>, deps: Deps)
      ensures this.deps == deps && nodes == Nodes(all, deps)
      ensures Valid([]) && ordered == []
    {
      this.deps := deps;
      nodes := Nodes(all, deps);
      visited := {};
      ordered := [];
    }

    method Visit(table: Table, ghost path: seq<Table>)
      requires Valid(path) && table in nodes && forall t | t in deps :: RefsIn(deps, t, nodes)
      requires path != [] ==> table in DepsOf(deps, path[|path| - 1])
      modifies this
      ensures Valid(path) && table in visited
      ensures old(visited) <= visited && old(ordered) <= ordered
      decreases nodes - visited, 0
    {
      if table in visited {
        return;
      }
      EnterSound(deps, nodes, visited, ordered, path, table);
      assert table !in path;
      visited := visited + {table};
      VisitAll(table, DepsOf(deps, table), path + [table]);
      ListSound(deps, nodes, visited, ordered, path, table);
      ordered := ordered + [table];
    }

    /** The references of a table just entered, one after the other. */
    method VisitAll(table: Table, refs: seq<Table>, ghost path: seq<Table>)
      requires Valid(path) && path != [] && path[|path| - 1] == table && refs == DepsOf(deps, table)
      requires forall t | t in deps :: RefsIn(deps, t, nodes)
      modifies this
      ensures Valid(path) && RefsIn(deps, table, visited)
      ensures old(visited) <= visited && old(ordered) <= ordered
      decreases nodes - visited, 1
    {
      var i := 0;
      while i < |refs|
        invariant 0 <= i <= |refs| && Valid(path)
        invariant old(visited) <= visited && old(ordered) <= ordered
        invariant forall k | 0 <= k < i :: refs[k] in visited
      {
        assert RefsIn(deps, table, nodes) && refs[i] in refs;
        Visit(refs[i], path);
        i := i + 1;
      }
    }
  }

  // ---- the order ----

  /** What the order promises, for any graph. */
  ghost predicate IsOrder(all: seq<Table>, deps: Deps, ordered: seq<Table>) {
    && NoDuplicates(ordered)
    && (forall t :: t in ordered <==> t in Nodes(all, deps))
    && (Cyclic(deps) || DepsFirst(deps, ordered))
  }

  lemma FinishedWalk(all: seq<Table>, deps: Deps, visited: set<Table>, ordered: seq<Table>)
    requires Sound(deps, Nodes(all, deps), visited, ordered, []) && forall k | 0 <= k < |all| :: all[k] in visited
    requires forall t | t in deps :: t in all
    ensures IsOrder(all, deps, ordered)
  {
    forall t, d | t in deps && d in deps[t] ensures d in visited {
      assert RefsIn(deps, t, visited);
    }
  }

  /** Terminates and lists every table, referenced ones included, exactly once; references first
      unless the keys form a cycle. */
  method OrderedTables(all: seq<Table>, keys: map<Table, seq<Table>>) returns (ordered: seq<Table>)
    ensures IsOrder(all, DepsIn(all, keys), ordered)
  {
    var deps := ReadDeps(all, keys);
    var walk := new Walk(all, deps);
    var i := 0;
    while i < |all|
      invariant 0 <= i <= |all| && fresh(walk) && walk.Valid([]) && walk.deps == deps && walk.nodes == Nodes(all, deps)
      invariant forall k | 0 <= k < i :: all[k] in walk.visited
    {
      walk.Visit(all[i], []);
      i := i + 1;
    }
    ordered := walk.ordered;
    FinishedWalk(all, deps, walk.visited, ordered);
  }

  // ---- references first, exactly when there is no cycle ----

  function Position(ordered: seq<Table>, t: Table): (i: nat)
    requires t in ordered
    ensures i < |ordered| && ordered[i] == t
  {
    if ordered[0] == t then 0 else 1 + Position(ordered[1..], t)
  }

  /** Where references come first, each step of a chain goes to an earlier position. */
  lemma StepGoesBack(deps: Deps, ordered: seq<Table>, t: Table, d: Table)
    requires NoDuplicates(ordered) && DepsFirst(deps, ordered) && t in ordered && d in DepsOf(deps, t)
    ensures d in ordered && Position(ordered, d) < Position(ordered, t)
  {
    var j := Position(ordered, t);
    assert DepsBefore(deps, ordered, j);
    var i :| 0 <= i < j && ordered[i] == d;
    assert Position(ordered, d) == i;
  }

  lemma {:induction false} ChainGoesBack(deps: Deps, ordered: seq<Table>, path: seq<Table>, k: nat)
    requires NoDuplicates(ordered) && DepsFirst(deps, ordered) && IsChain(deps, path) && 0 < k < |path|
    requires path[0] in ordered
    ensures path[k] in ordered && Position(ordered, path[k]) < Position(ordered, path[0])
  {
    assert Follows(deps, path, k - 1);
    if k == 1 {
      StepGoesBack(deps, ordered, path[0], path[1]);
    } else {
      ChainGoesBack(deps, ordered, path, k - 1);
      StepGoesBack(deps, ordered, path[k - 1], path[k]);
    }
  }

  /** The order lists every referenced table before its referrers if and only if no chain of
      references leads from a table back to itself. */
  lemma ReferencesFirstExactly(all: seq<Table>, keys: map<Table, seq<Table>>, ordered: seq<Table>)
    requires IsOrder(all, DepsIn(all, keys), ordered)
    ensures DepsFirst(DepsIn(all, keys), ordered) <==> !Cyclic(DepsIn(all, keys))
  {
    var deps := DepsIn(all, keys);
    if DepsFirst(deps, ordered) {
      forall path ensures !IsCycle(deps, path) {
        if IsCycle(deps, path) {
          assert Follows(deps, path, 0) && path[0] in Nodes(all, deps);
          ChainGoesBack(deps, ordered, path, |path| - 1);
          assert false;
        }
      }
    }
  }

  /** A table that references only itself is no obstacle: self references never enter the graph. */
  lemma SelfReferencesDoNotCount(all: seq<Table>, keys: map<Table, seq<Table>>, t: Table)
    ensures t !in DepsOf(DepsIn(all, keys), t)
    ensures forall d | d != t :: d in DepsOf(DepsIn(all, keys), t) <==> t in all && d in DepsOf(keys, t)
  {
    FilterMembers(DepsOf(keys, t), Other(t));
  }
}
