/** Which histories the replay accepts, said without replaying: by prefix sums alone. From that,
    exactly which retroactive insertions and removals an accepted history survives. */
module Acceptance {
  import opened Wrappers
  import opened Sequences
  import opened Domain
  import opened Ledger

  function Cash(history: seq<Operation>): real {
    Sum(history, CashDelta)
  }

  function UnitsIn(position: Id): Operation -> real {
    (op: Operation) => if HasPosition(op) && op.position.value == position then SignedUnits(op) else 0.0
  }

  function PositionUnits(history: seq<Operation>, position: Id): real {
    Sum(history, UnitsIn(position))
  }

  predicate WellFormed(op: Operation) {
    ValidShape(op) && !(op.kind.InitialBalance? && op.position == Some(EMPTY))
  }

  /** No prefix of the history overdraws the cash or any position. */
  ghost predicate Solvent(history: seq<Operation>) {
    && Cash(history) >= 0.0
    && forall p: Id :: PositionUnits(history, p) >= 0.0
  }

  /** The operation is complete, and if it is a valuation it falls on units held just before it. */
  ghost predicate Placed(before: seq<Operation>, op: Operation) {
    && WellFormed(op)
    && (op.kind.Valuation? ==> PositionUnits(before, op.position.value) > 0.0)
  }

  ghost predicate AllPlaced(history: seq<Operation>) {
    forall k | 0 <= k < |history| :: Placed(history[..k], history[k])
  }

  ghost predicate AllSolvent(history: seq<Operation>) {
    forall k | 0 <= k <= |history| :: Solvent(history[..k])
  }

  /** The prefix-sum account of a history that can stand. */
  ghost predicate Admissible(history: seq<Operation>) {
    AllPlaced(history) && AllSolvent(history)
  }

  lemma SumsOfEmpty()
    ensures Solvent([])
    ensures Cash([]) == 0.0 && forall p: Id :: PositionUnits([], p) == 0.0
  {
  }

  lemma CashPush(history: seq<Operation>, op: Operation)
    ensures Cash(history + [op]) == Cash(history) + CashDelta(op)
  {
    SumConcat(history, [op], CashDelta);
    SumOne(op, CashDelta);
  }

  lemma UnitsPush(history: seq<Operation>, op: Operation, p: Id)
    ensures PositionUnits(history + [op], p) == PositionUnits(history, p) + UnitsIn(p)(op)
  {
    SumConcat(history, [op], UnitsIn(p));
    SumOne(op, UnitsIn(p));
  }

  lemma AdmissiblePrefix(history: seq<Operation>, k: nat)
    requires Admissible(history) && k <= |history|
    ensures Admissible(history[..k])
  {
    forall j | 0 <= j < k ensures Placed(history[..k][..j], history[..k][j]) {
      assert history[..k][..j] == history[..j] && Placed(history[..j], history[j]);
    }
    forall j | 0 <= j <= k ensures Solvent(history[..k][..j]) {
      assert history[..k][..j] == history[..j] && Solvent(history[..j]);
    }
  }

  lemma AdmissibleGrows(history: seq<Operation>, op: Operation)
    requires Admissible(history) && Placed(history, op) && Solvent(history + [op])
    ensures Admissible(history + [op])
  {
    var h, n := history + [op], |history|;
    forall k | 0 <= k < |h| ensures Placed(h[..k], h[k]) {
      assert h[..k] == history[..k];
      assert k == n ==> history[..k] == history;
      assert k < n ==> Placed(history[..k], history[k]);
    }
    forall k | 0 <= k <= |h| ensures Solvent(h[..k]) {
      if k <= n {
        assert h[..k] == history[..k] && Solvent(history[..k]);
      } else {
        assert h[..k] == h;
      }
    }
  }

  /** Admissibility grows one operation at a time. */
  lemma AdmissiblePush(history: seq<Operation>, op: Operation)
    ensures Admissible(history + [op]) <==> Admissible(history) && Placed(history, op) && Solvent(history + [op])
  {
    var h, n := history + [op], |history|;
    if Admissible(h) {
      AdmissiblePrefix(h, n);
      assert h[..n] == history && h[..n + 1] == h;
      assert Placed(h[..n], h[n]) && Solvent(h[..n + 1]);
    }
    if Admissible(history) && Placed(history, op) && Solvent(h) {
      AdmissibleGrows(history, op);
    }
  }

  /** The ledger a replay reaches says what the prefix sums say. */
  ghost predicate Agrees(l: Account, history: seq<Operation>) {
    && l.cash == Cash(history)
    && forall p: Id :: l.At(p).quantity == PositionUnits(history, p)
  }

  /** What one operation demands of the ledger it meets, and what it makes of the sums. */
  lemma ApplyEffect(l: Account, op: Operation)
    requires l.cash >= 0.0
    ensures Apply(l, op).Ok? <==>
            && WellFormed(op)
            && (op.kind.Valuation? ==> l.At(op.position.value).quantity > 0.0)
            && (op.kind.Sell? || op.kind.TransferOut? ==> l.At(op.position.value).quantity + SignedUnits(op) >= 0.0)
            && l.cash + CashDelta(op) >= 0.0
    ensures Apply(l, op).Ok? ==> Apply(l, op).value.cash == l.cash + CashDelta(op)
    ensures Apply(l, op).Ok? ==>
              forall p: Id :: Apply(l, op).value.At(p).quantity == l.At(p).quantity + UnitsIn(p)(op)
  {
    if WellFormed(op) && HasPosition(op) {
    }
  }

  /** What is left of each sum after one more operation, read off the ledger before it. */
  lemma SumsAfter(l: Account, history: seq<Operation>, op: Operation)
    requires Agrees(l, history)
    ensures Cash(history + [op]) == l.cash + CashDelta(op)
    ensures forall p: Id :: PositionUnits(history + [op], p) == l.At(p).quantity + UnitsIn(p)(op)
  {
    CashPush(history, op);
    forall p: Id
      ensures PositionUnits(history + [op], p) == l.At(p).quantity + UnitsIn(p)(op)
    {
      UnitsPush(history, op, p);
    }
  }

  /** Only the operation's own position can fall below zero, and only when units leave it. */
  lemma SolventAfter(l: Account, history: seq<Operation>, op: Operation)
    requires Agrees(l, history) && Solvent(history) && WellFormed(op)
    ensures Solvent(history + [op]) <==>
            && l.cash + CashDelta(op) >= 0.0
            && (op.kind.Sell? || op.kind.TransferOut? ==> l.At(op.position.value).quantity + SignedUnits(op) >= 0.0)
  {
    SumsAfter(l, history, op);
    forall p: Id
      ensures PositionUnits(history + [op], p) >= 0.0
              || ((op.kind.Sell? || op.kind.TransferOut?) && p == op.position.value)
    {
      assert PositionUnits(history, p) >= 0.0;
    }
    if op.kind.Sell? || op.kind.TransferOut? {
      var p := op.position.value;
      assert PositionUnits(history + [op], p) == l.At(p).quantity + SignedUnits(op);
    }
  }

  lemma ApplyAgrees(l: Account, history: seq<Operation>, op: Operation)
    requires Agrees(l, history) && Solvent(history)
    ensures Apply(l, op).Ok? <==> Placed(history, op) && Solvent(history + [op])
    ensures Apply(l, op).Ok? ==> Agrees(Apply(l, op).value, history + [op])
  {
    ApplyEffect(l, op);
    SumsAfter(l, history, op);
    if WellFormed(op) {
      SolventAfter(l, history, op);
    }
  }

  /** The replay accepts a history if and only if no prefix sum of cash or of any position is
      negative and every valuation meets units; what it then reports are those sums. */
  lemma {:induction false} ReplayAcceptsExactlyAdmissible(history: seq<Operation>)
    ensures Replay(history).Ok? <==> Admissible(history)
    ensures Replay(history).Ok? ==> Agrees(Replay(history).value, history)
  {
    if history == [] {
      SumsOfEmpty();
    } else {
      var rest, op := history[..|history| - 1], history[|history| - 1];
      assert history == rest + [op];
      ReplayAcceptsExactlyAdmissible(rest);
      AdmissiblePush(rest, op);
      if Admissible(rest) {
        assert rest[..|rest|] == rest;
        ApplyAgrees(Replay(rest).value, rest, op);
      }
    }
  }

  // ---- one operation more, one operation less ----

  /** Cash after the first k operations. */
  function Balance(history: seq<Operation>, k: nat): real
    requires k <= |history|
  {
    Cash(history[..k])
  }

  /** Units of a position after the first k operations. */
  function UnitsAt(history: seq<Operation>, k: nat, p: Id): real
    requires k <= |history|
  {
    PositionUnits(history[..k], p)
  }

  predicate Values(op: Operation, p: Id) {
    op.kind.Valuation? && op.position == Some(p)
  }

  /** From a slot on, every balance takes the operation's cash, every quantity of its position takes
      its units, and every valuation of that position still meets some. */
  ghost predicate Absorbs(base: seq<Operation>, slot: nat, op: Operation) {
    && (forall k | slot <= k <= |base| :: Balance(base, k) + CashDelta(op) >= 0.0)
    && (HasPosition(op) ==>
          && (forall k | slot <= k <= |base| :: UnitsAt(base, k, op.position.value) + SignedUnits(op) >= 0.0)
          && (forall k | slot <= k < |base| && Values(base[k], op.position.value) ::
                UnitsAt(base, k, op.position.value) + SignedUnits(op) > 0.0))
  }

  /** The balance after k operations does without the cash of an earlier one, the quantity of its
      position without its units, and a valuation of that position coming next still meets some. */
  predicate SurvivesAt(history: seq<Operation>, slot: nat, k: nat)
    requires slot < k <= |history|
  {
    var op := history[slot];
    && Balance(history, k) >= CashDelta(op)
    && (HasPosition(op) ==>
          && UnitsAt(history, k, op.position.value) >= SignedUnits(op)
          && (k < |history| && Values(history[k], op.position.value) ==>
                UnitsAt(history, k, op.position.value) > SignedUnits(op)))
  }

  ghost predicate Survives(history: seq<Operation>, slot: nat)
    requires slot < |history|
  {
    forall k | slot < k <= |history| :: SurvivesAt(history, slot, k)
  }

  function Without(history: seq<Operation>, slot: nat): seq<Operation>
    requires slot < |history|
  {
    history[..slot] + history[slot + 1..]
  }

  /** A prefix reaching past a spliced operation, against the same prefix without it. */
  lemma SplicedAt(base: seq<Operation>, slot: nat, op: Operation, k: nat)
    requires slot <= k <= |base|
    ensures Cash(Splice(base, slot, op)[..k + 1]) == Cash(base[..k]) + CashDelta(op)
    ensures forall p: Id :: PositionUnits(Splice(base, slot, op)[..k + 1], p) == PositionUnits(base[..k], p) + UnitsIn(p)(op)
  {
    var a, b := base[..slot], base[slot..k];
    var h := Splice(base, slot, op)[..k + 1];
    assert h == a + [op] + b && base[..k] == a + b;
    SumSplice(a, op, b, CashDelta);
    forall p: Id ensures PositionUnits(h, p) == PositionUnits(base[..k], p) + UnitsIn(p)(op) {
      SumSplice(a, op, b, UnitsIn(p));
    }
  }

  lemma SplicedEarlier(base: seq<Operation>, slot: nat, op: Operation, k: nat)
    requires k <= slot <= |base|
    ensures Splice(base, slot, op)[..k] == base[..k]
    ensures k < slot ==> Splice(base, slot, op)[k] == base[k]
  {
  }

  lemma SplicedSolvent(base: seq<Operation>, slot: nat, op: Operation, k: nat)
    requires slot <= k <= |base|
    ensures Solvent(base[..k]) ==>
              (Solvent(Splice(base, slot, op)[..k + 1]) <==>
               && Balance(base, k) + CashDelta(op) >= 0.0
               && (HasPosition(op) ==> UnitsAt(base, k, op.position.value) + SignedUnits(op) >= 0.0))
    ensures Solvent(Splice(base, slot, op)[..k + 1]) ==>
              (Solvent(base[..k]) <==>
               && Balance(Splice(base, slot, op), k + 1) >= CashDelta(op)
               && (HasPosition(op) ==> UnitsAt(Splice(base, slot, op), k + 1, op.position.value) >= SignedUnits(op)))
  {
    SplicedAt(base, slot, op, k);
    var h := Splice(base, slot, op)[..k + 1];
    forall p: Id | !HasPosition(op) || p != op.position.value ensures PositionUnits(h, p) == PositionUnits(base[..k], p) {
      assert UnitsIn(p)(op) == 0.0;
    }
    if HasPosition(op) {
      assert UnitsIn(op.position.value)(op) == SignedUnits(op);
    }
  }

  /** An operation after the slot stands with the spliced one before it exactly as it stood without,
      unless it is a valuation of the position whose units the spliced one moves. */
  lemma SplicedPlaced(base: seq<Operation>, slot: nat, op: Operation, k: nat)
    requires slot <= k < |base|
    ensures Placed(base[..k], base[k]) ==>
              (Placed(Splice(base, slot, op)[..k + 1], base[k]) <==>
               (HasPosition(op) && Values(base[k], op.position.value) ==> UnitsAt(base, k, op.position.value) + SignedUnits(op) > 0.0))
    ensures Placed(Splice(base, slot, op)[..k + 1], base[k]) ==>
              (Placed(base[..k], base[k]) <==>
               (HasPosition(op) && Values(base[k], op.position.value) ==>
                UnitsAt(Splice(base, slot, op), k + 1, op.position.value) > SignedUnits(op)))
  {
    SplicedAt(base, slot, op, k);
    if base[k].kind.Valuation? && WellFormed(base[k]) {
      var p := base[k].position.value;
      assert UnitsIn(p)(op) == if HasPosition(op) && op.position.value == p then SignedUnits(op) else 0.0;
    }
  }

  lemma SpliceStandsAt(base: seq<Operation>, slot: nat, op: Operation, k: nat)
    requires slot < k <= |base| + 1 && Absorbs(base, slot, op)
    requires Solvent(base[..k - 1]) && (k <= |base| ==> Placed(base[..k - 1], base[k - 1]))
    ensures Solvent(Splice(base, slot, op)[..k])
    ensures k <= |base| ==> Placed(Splice(base, slot, op)[..k], Splice(base, slot, op)[k])
  {
    assert Balance(base, k - 1) + CashDelta(op) >= 0.0;
    SplicedSolvent(base, slot, op, k - 1);
    if k <= |base| {
      assert Splice(base, slot, op)[k] == base[k - 1];
      SplicedPlaced(base, slot, op, k - 1);
    }
  }

  lemma SpliceStands(base: seq<Operation>, slot: nat, op: Operation)
    requires slot <= |base| && Admissible(base) && Placed(base[..slot], op) && Absorbs(base, slot, op)
    ensures Admissible(Splice(base, slot, op))
  {
    var h := Splice(base, slot, op);
    forall k | 0 <= k <= |h| ensures Solvent(h[..k]) && (k < |h| ==> Placed(h[..k], h[k])) {
      if k <= slot {
        SplicedEarlier(base, slot, op, k);
        assert Solvent(base[..k]) && (k < slot ==> Placed(base[..k], base[k]));
      } else {
        assert Solvent(base[..k - 1]) && (k <= |base| ==> Placed(base[..k - 1], base[k - 1]));
        SpliceStandsAt(base, slot, op, k);
      }
    }
  }

  lemma SplicedAbsorbs(base: seq<Operation>, slot: nat, op: Operation)
    requires slot <= |base| && Admissible(base) && Admissible(Splice(base, slot, op))
    ensures Placed(base[..slot], op) && Absorbs(base, slot, op)
  {
    var h := Splice(base, slot, op);
    SplicedEarlier(base, slot, op, slot);
    assert Placed(h[..slot], h[slot]);
    forall k | slot <= k <= |base|
      ensures Balance(base, k) + CashDelta(op) >= 0.0
      ensures HasPosition(op) ==> UnitsAt(base, k, op.position.value) + SignedUnits(op) >= 0.0
    {
      assert Solvent(base[..k]) && Solvent(h[..k + 1]);
      SplicedSolvent(base, slot, op, k);
    }
    forall k | slot <= k < |base|
      ensures HasPosition(op) && Values(base[k], op.position.value) ==> UnitsAt(base, k, op.position.value) + SignedUnits(op) > 0.0
    {
      assert Placed(base[..k], base[k]) && h[k + 1] == base[k] && Placed(h[..k + 1], h[k + 1]);
      SplicedPlaced(base, slot, op, k);
    }
  }

  /** An operation spliced into an accepted history at any slot stands if and only if it could stand
      there last and every later moment absorbs it. */
  lemma SpliceExactly(base: seq<Operation>, slot: nat, op: Operation)
    requires slot <= |base| && Admissible(base)
    ensures Admissible(Splice(base, slot, op)) <==> Placed(base[..slot], op) && Absorbs(base, slot, op)
  {
    if Admissible(Splice(base, slot, op)) {
      SplicedAbsorbs(base, slot, op);
    }
    if Placed(base[..slot], op) && Absorbs(base, slot, op) {
      SpliceStands(base, slot, op);
    }
  }

  lemma RemovalStandsAt(base: seq<Operation>, slot: nat, op: Operation, k: nat)
    requires slot <= k <= |base| && Admissible(Splice(base, slot, op)) && SurvivesAt(Splice(base, slot, op), slot, k + 1)
    ensures Solvent(base[..k]) && (k < |base| ==> Placed(base[..k], base[k]))
  {
    var h := Splice(base, slot, op);
    assert Solvent(h[..k + 1]);
    SplicedSolvent(base, slot, op, k);
    if k < |base| {
      assert h[k + 1] == base[k] && Placed(h[..k + 1], h[k + 1]);
      SplicedPlaced(base, slot, op, k);
    }
  }

  lemma RemovalStands(base: seq<Operation>, slot: nat, op: Operation)
    requires slot <= |base| && Admissible(Splice(base, slot, op)) && Survives(Splice(base, slot, op), slot)
    ensures Admissible(base)
  {
    var h := Splice(base, slot, op);
    forall k | 0 <= k <= |base| ensures Solvent(base[..k]) && (k < |base| ==> Placed(base[..k], base[k])) {
      if k < slot {
        SplicedEarlier(base, slot, op, k);
        assert Solvent(h[..k]) && Placed(h[..k], h[k]);
      } else {
        assert SurvivesAt(h, slot, k + 1);
        RemovalStandsAt(base, slot, op, k);
      }
    }
  }

  lemma RemovedSurvivesAt(base: seq<Operation>, slot: nat, op: Operation, k: nat)
    requires slot < k <= |base| + 1
    requires Solvent(base[..k - 1]) && Solvent(Splice(base, slot, op)[..k])
    requires k <= |base| ==> Placed(base[..k - 1], base[k - 1]) && Placed(Splice(base, slot, op)[..k], base[k - 1])
    ensures SurvivesAt(Splice(base, slot, op), slot, k)
  {
    SplicedSolvent(base, slot, op, k - 1);
    if k <= |base| {
      assert Splice(base, slot, op)[k] == base[k - 1];
      SplicedPlaced(base, slot, op, k - 1);
    }
  }

  lemma RemovedSurvives(base: seq<Operation>, slot: nat, op: Operation)
    requires slot <= |base| && Admissible(base) && Admissible(Splice(base, slot, op))
    ensures Survives(Splice(base, slot, op), slot)
  {
    var h := Splice(base, slot, op);
    forall k | slot < k <= |base| + 1 ensures SurvivesAt(h, slot, k) {
      assert Solvent(base[..k - 1]) && Solvent(h[..k]);
      if k <= |base| {
        assert h[k] == base[k - 1] && Placed(base[..k - 1], base[k - 1]) && Placed(h[..k], h[k]);
      }
      RemovedSurvivesAt(base, slot, op, k);
    }
  }

  /** Any operation taken out of an accepted history leaves it standing if and only if every later
      moment survives without it. */
  lemma RemovalExactly(history: seq<Operation>, slot: nat)
    requires slot < |history| && Admissible(history)
    ensures Admissible(Without(history, slot)) <==> Survives(history, slot)
  {
    var base, op := Without(history, slot), history[slot];
    assert Splice(base, slot, op) == history;
    if Admissible(base) {
      RemovedSurvives(base, slot, op);
    }
    if Survives(history, slot) {
      RemovalStands(base, slot, op);
    }
  }

  // ---- operations that move cash alone ----

  predicate CashOnly(op: Operation) {
    op.kind.Deposit? || op.kind.Income? || op.kind.Withdrawal? || op.kind.Fee? || op.kind.Tax?
  }

  lemma SpliceCash(base: seq<Operation>, slot: nat, op: Operation)
    requires CashOnly(op) && WellFormed(op) && slot <= |base| && Admissible(base)
    ensures Admissible(Splice(base, slot, op)) <==>
            forall k | slot <= k <= |base| :: Balance(base, k) + CashDelta(op) >= 0.0
  {
    SpliceExactly(base, slot, op);
  }

  lemma UnspliceCash(history: seq<Operation>, slot: nat)
    requires slot < |history| && Admissible(history) && CashOnly(history[slot])
    ensures Admissible(Without(history, slot)) <==>
            forall k | slot < k <= |history| :: Balance(history, k) >= CashDelta(history[slot])
  {
    assert Placed(history[..slot], history[slot]);
    RemovalExactly(history, slot);
    forall k | slot < k <= |history| ensures SurvivesAt(history, slot, k) <==> Balance(history, k) >= CashDelta(history[slot]) {
    }
  }

  /** A retroactive withdrawal, fee or tax of a stands exactly when every cash balance from its
      slot to today is at least a. */
  lemma RetroactiveOutflow(history: seq<Operation>, slot: nat, op: Operation)
    requires slot <= |history| && Admissible(history)
    requires (op.kind.Withdrawal? || op.kind.Fee? || op.kind.Tax?) && WellFormed(op)
    ensures Replay(Splice(history, slot, op)).Ok? <==>
            forall k | slot <= k <= |history| :: Balance(history, k) >= op.amount
  {
    SpliceCash(history, slot, op);
    ReplayAcceptsExactlyAdmissible(Splice(history, slot, op));
  }

  /** A retroactive deposit or income always stands. */
  lemma RetroactiveInflow(history: seq<Operation>, slot: nat, op: Operation)
    requires slot <= |history| && Admissible(history)
    requires (op.kind.Deposit? || op.kind.Income?) && WellFormed(op)
    ensures Replay(Splice(history, slot, op)).Ok?
  {
    SpliceCash(history, slot, op);
    forall k | slot <= k <= |history| ensures Balance(history, k) + CashDelta(op) >= 0.0 {
      assert Solvent(history[..k]);
    }
    ReplayAcceptsExactlyAdmissible(Splice(history, slot, op));
  }

  /** Dropping a withdrawal, fee or tax always stands; dropping a deposit or income of a stands
      exactly when every balance after it is at least a. */
  lemma RetroactiveRemoval(history: seq<Operation>, slot: nat)
    requires slot < |history| && Admissible(history) && CashOnly(history[slot])
    ensures history[slot].kind.Withdrawal? || history[slot].kind.Fee? || history[slot].kind.Tax? ==>
              Replay(Without(history, slot)).Ok?
    ensures history[slot].kind.Deposit? || history[slot].kind.Income? ==>
              (Replay(Without(history, slot)).Ok? <==>
               forall k | slot < k <= |history| :: Balance(history, k) >= history[slot].amount)
  {
    UnspliceCash(history, slot);
    ReplayAcceptsExactlyAdmissible(Without(history, slot));
    assert Placed(history[..slot], history[slot]);
    if history[slot].kind.Withdrawal? || history[slot].kind.Fee? || history[slot].kind.Tax? {
      forall k | slot < k <= |history| ensures Balance(history, k) >= CashDelta(history[slot]) {
        assert Solvent(history[..k]);
      }
    }
  }

  // ---- trades and custody moves ----

  /** Whether units can leave a position from a moment on: they are there at every later moment, and
      every later valuation of it keeps some. */
  ghost predicate UnitsCanLeave(history: seq<Operation>, slot: nat, p: Id, units: real) {
    && (forall k | slot <= k <= |history| :: UnitsAt(history, k, p) >= units)
    && (forall k | slot <= k < |history| && Values(history[k], p) :: UnitsAt(history, k, p) > units)
  }

  /** A retroactive sale stands exactly when from its slot on the units are there, every balance
      takes its net proceeds, and every valuation of the position keeps some units. */
  lemma RetroactiveSale(history: seq<Operation>, slot: nat, op: Operation)
    requires slot <= |history| && Admissible(history) && op.kind.Sell? && WellFormed(op)
    ensures Replay(Splice(history, slot, op)).Ok? <==>
            && (forall k | slot <= k <= |history| :: Balance(history, k) + (op.amount - op.fees - op.taxes) >= 0.0)
            && UnitsCanLeave(history, slot, op.position.value, Units(op))
  {
    SpliceExactly(history, slot, op);
    ReplayAcceptsExactlyAdmissible(Splice(history, slot, op));
  }

  /** A retroactive purchase stands exactly when every balance from its slot on covers its cost. */
  lemma RetroactivePurchase(history: seq<Operation>, slot: nat, op: Operation)
    requires slot <= |history| && Admissible(history) && op.kind.Buy? && WellFormed(op)
    ensures Replay(Splice(history, slot, op)).Ok? <==>
            forall k | slot <= k <= |history| :: Balance(history, k) >= op.amount + op.fees + op.taxes
  {
    SpliceExactly(history, slot, op);
    ReplayAcceptsExactlyAdmissible(Splice(history, slot, op));
    UnitsComeIn(history, slot, op);
  }

  /** More units are never too many. */
  lemma UnitsComeIn(history: seq<Operation>, slot: nat, op: Operation)
    requires slot <= |history| && Admissible(history) && WellFormed(op) && HasPosition(op) && SignedUnits(op) > 0.0
    ensures forall k | slot <= k <= |history| :: UnitsAt(history, k, op.position.value) + SignedUnits(op) > 0.0
  {
    forall k | slot <= k <= |history| ensures UnitsAt(history, k, op.position.value) + SignedUnits(op) > 0.0 {
      assert Solvent(history[..k]);
    }
  }

  /** A retroactive outgoing transfer stands exactly when from its slot on the units are there and
      every valuation of the position keeps some. */
  lemma RetroactiveTransferOut(history: seq<Operation>, slot: nat, op: Operation)
    requires slot <= |history| && Admissible(history) && op.kind.TransferOut? && WellFormed(op)
    ensures Replay(Splice(history, slot, op)).Ok? <==>
            UnitsCanLeave(history, slot, op.position.value, Units(op))
  {
    SpliceExactly(history, slot, op);
    ReplayAcceptsExactlyAdmissible(Splice(history, slot, op));
    forall k | slot <= k <= |history| ensures Balance(history, k) >= 0.0 {
      assert Solvent(history[..k]);
    }
  }

  /** A retroactive incoming transfer always stands. */
  lemma RetroactiveTransferIn(history: seq<Operation>, slot: nat, op: Operation)
    requires slot <= |history| && Admissible(history) && op.kind.TransferIn? && WellFormed(op)
    ensures Replay(Splice(history, slot, op)).Ok?
  {
    SpliceExactly(history, slot, op);
    ReplayAcceptsExactlyAdmissible(Splice(history, slot, op));
    UnitsComeIn(history, slot, op);
    forall k | slot <= k <= |history| ensures Balance(history, k) >= 0.0 {
      assert Solvent(history[..k]);
    }
  }
}
