/** How far the stored cost basis can drift from the exact share, over any accepted history. */
module CostBasis {
  import opened Wrappers
  import opened Decimals
  import opened Domain
  import opened Ledger

  function Distance(a: real, b: real): (d: real)
    ensures d >= 0.0
  {
    if a >= b then a - b else b - a
  }

  /** What a holding derived by a replay always satisfies. */
  ghost predicate Sound(h: Holding) {
    && h.quantity >= 0.0 && h.totalCost >= 0.0
    && (h.quantity == 0.0 ==> h.totalCost == 0.0)
    && (h.valuationTotal.Some? <==> h.valuedOn.Some?)
    && (h.valuationTotal.Some? ==> h.valuationTotal.value >= 0.0 && h.valuedQuantity > 0.0)
  }

  lemma CostOfNonNegative(h: Holding, units: real)
    requires Sound(h) && units >= 0.0
    ensures h.CostOf(units) >= 0.0
  {
  }

  lemma RevalueSound(h: Holding, op: Operation)
    requires Sound(h) && HasPosition(op) && ValidShape(op)
    requires op.kind.Sell? || op.kind.TransferOut? ==> h.quantity >= Units(op)
    requires op.kind.Valuation? ==> h.quantity > 0.0
    ensures Sound(Revalue(h, op))
  {
    if op.kind.Sell? || op.kind.TransferOut? {
      CostOfNonNegative(h, h.quantity - Units(op));
    }
  }

  /** No accepted history leaves a negative cost, or a cost on an empty holding. */
  lemma {:induction false} ReplayedHoldingsSound(history: seq<Operation>, p: Id)
    requires Replay(history).Ok?
    ensures Sound(Replay(history).value.At(p))
  {
    if history != [] {
      var rest, op := history[..|history| - 1], history[|history| - 1];
      ReplayedHoldingsSound(rest, p);
      if HasPosition(op) && op.position.value == p {
        RevalueSound(Replay(rest).value.At(p), op);
      }
    }
  }

  lemma ShareOfWhole(cost: real, whole: real)
    requires whole > 0.0
    ensures Share(cost, whole, whole) == cost && Share(cost, 0.0, whole) == 0.0
  {
  }

  lemma SharesAddUp(cost: real, part: real, rest: real, whole: real)
    requires whole > 0.0 && part + rest == whole
    ensures Share(cost, part, whole) + Share(cost, rest, whole) == cost
  {
    assert cost * part + cost * rest == cost * whole;
  }

  lemma ScaledDown(e: real, r: real, gap: real)
    requires -gap <= e <= gap && 0.0 <= r <= 1.0
    ensures -gap <= e * r <= gap
  {
    ProductNonNegative(gap - e, r);
    ProductNonNegative(gap + e, r);
    ProductNonNegative(gap, 1.0 - r);
    assert (gap - e) * r == gap * r - e * r;
    assert (gap + e) * r == gap * r + e * r;
    assert gap * (1.0 - r) == gap - gap * r;
  }

  /** Scaling both a cost and its exact share by the same fraction does not widen the gap. */
  lemma ShareGap(c: real, t: real, q: real, remaining: real, whole: real, gap: real)
    requires 0.0 <= remaining <= q && q > 0.0 && whole > 0.0 && gap >= 0.0
    requires Distance(c, Share(t, q, whole)) <= gap
    ensures Distance(Share(c, remaining, q), Share(t, remaining, whole)) <= gap
  {
    var r := Fraction(remaining, q);
    ShareIsScaled(c, q, remaining, r);
    ShareIsNested(t, q, remaining, whole, r);
    var e := c - Share(t, q, whole);
    assert c * r - Share(t, q, whole) * r == e * r;
    ScaledDown(e, r, gap);
  }

  function Fraction(part: real, q: real): (r: real)
    requires 0.0 <= part <= q && q > 0.0
    ensures 0.0 <= r <= 1.0 && r * q == part
  {
    QuotientMonotone(0.0, part, q);
    QuotientMonotone(part, q, q);
    part / q
  }

  lemma ShareIsScaled(c: real, q: real, remaining: real, r: real)
    requires q > 0.0 && r * q == remaining
    ensures Share(c, remaining, q) == c * r
  {
    assert c * remaining == (c * r) * q;
    assert (c * r) * q / q == c * r;
  }

  lemma ShareIsNested(t: real, q: real, remaining: real, whole: real, r: real)
    requires whole > 0.0 && r * q == remaining
    ensures Share(t, remaining, whole) == Share(t, q, whole) * r
  {
    var s := t / whole;
    assert Share(t, q, whole) == s * q && Share(t, remaining, whole) == s * remaining;
    assert s * (r * q) == (s * q) * r;
  }

  lemma CostOfShare(h: Holding, units: real)
    requires 0.0 < units <= h.quantity
    ensures Distance(h.CostOf(units), Share(h.totalCost, units, h.quantity)) <= HALF_UNIT
  {
    if units == h.quantity {
      ShareOfWhole(h.totalCost, h.quantity);
    }
  }

  /** What remains of a holding carries its exact share of the cost, within half a unit. */
  lemma RemoveCost(h: Holding, units: real, remaining: real)
    requires 0.0 < units <= h.quantity && remaining == h.quantity - units
    ensures Distance(h.Remove(units).totalCost, Share(h.totalCost, remaining, h.quantity)) <= HALF_UNIT
  {
    if remaining == 0.0 {
      ShareOfWhole(h.totalCost, h.quantity);
    } else {
      CostOfShare(h, remaining);
    }
  }

  /** One removal adds at most half a unit of the division's last place to the drift. */
  lemma RemovalDrift(h: Holding, units: real, whole: real, t: real, gap: real)
    requires 0.0 < units <= h.quantity && whole > 0.0 && gap >= 0.0
    requires Distance(h.totalCost, Share(t, h.quantity, whole)) <= gap
    ensures h.Remove(units).quantity == h.quantity - units
    ensures Distance(h.Remove(units).totalCost, Share(t, h.quantity - units, whole)) <= gap + HALF_UNIT
  {
    RemoveCost(h, units, h.quantity - units);
    ShareGap(h.totalCost, t, h.quantity, h.quantity - units, whole, gap);
  }

  predicate Touches(op: Operation, p: Id) {
    HasPosition(op) && op.position.value == p
  }

  predicate Removes(op: Operation, p: Id) {
    Touches(op, p) && (op.kind.Sell? || op.kind.TransferOut?)
  }

  function Removals(ops: seq<Operation>, p: Id): nat {
    if ops == [] then 0 else Removals(ops[..|ops| - 1], p) + (if Removes(ops[|ops| - 1], p) then 1 else 0)
  }

  /** The stored cost is within n half-units of the exact share of what was held before. */
  ghost predicate WithinUnits(after: Holding, before: Holding, n: nat)
    requires before.quantity > 0.0
  {
    Distance(after.totalCost, Share(before.totalCost, after.quantity, before.quantity)) <= n as real * HALF_UNIT
  }

  /** After any accepted stretch of history in which a held position is only sold, transferred out
      or valued, its stored cost is within one half-unit per removal of the exact share. */
  lemma {:induction false} CostDrift(history: seq<Operation>, tail: seq<Operation>, p: Id)
    requires Replay(history + tail).Ok? && Replay(history).Ok?
    requires Replay(history).value.At(p).quantity > 0.0
    requires forall op | op in tail && Touches(op, p) :: Removes(op, p) || op.kind.Valuation?
    ensures WithinUnits(Replay(history + tail).value.At(p), Replay(history).value.At(p), Removals(tail, p))
  {
    var before := Replay(history).value.At(p);
    if tail == [] {
      assert history + tail == history;
      NoDriftYet(before);
    } else {
      var rest, op := tail[..|tail| - 1], tail[|tail| - 1];
      assert op in tail && forall o | o in rest :: o in tail;
      assert history + tail == (history + rest) + [op];
      ReplayPush(history + rest, op);
      CostDrift(history, rest, p);
      CostDriftPush(history + rest, op, p, before, Removals(rest, p));
    }
  }

  lemma NoDriftYet(before: Holding)
    requires before.quantity > 0.0
    ensures WithinUnits(before, before, 0)
  {
    ShareOfWhole(before.totalCost, before.quantity);
  }

  lemma CostDriftPush(history: seq<Operation>, op: Operation, p: Id, before: Holding, n: nat)
    requires Replay(history).Ok? && Replay(history + [op]).Ok? && before.quantity > 0.0
    requires Touches(op, p) ==> Removes(op, p) || op.kind.Valuation?
    requires WithinUnits(Replay(history).value.At(p), before, n)
    ensures WithinUnits(Replay(history + [op]).value.At(p), before, if Removes(op, p) then n + 1 else n)
  {
    ReplayPush(history, op);
    CostDriftStep(Replay(history).value, op, p, before, n);
  }

  lemma OneMoreRemoval(h: Holding, units: real, before: Holding, n: nat)
    requires before.quantity > 0.0 && 0.0 < units <= h.quantity && WithinUnits(h, before, n)
    ensures WithinUnits(h.Remove(units), before, n + 1)
  {
    var gap := n as real * HALF_UNIT;
    assert gap >= 0.0 && (n + 1) as real * HALF_UNIT == gap + HALF_UNIT;
    RemovalDrift(h, units, before.quantity, before.totalCost, gap);
  }

  lemma RemovalApplied(l: Account, op: Operation, p: Id)
    requires Apply(l, op).Ok? && Removes(op, p)
    ensures 0.0 < Units(op) <= l.At(p).quantity && Apply(l, op).value.At(p) == l.At(p).Remove(Units(op))
  {
  }

  lemma NothingRemoved(l: Account, op: Operation, p: Id)
    requires Apply(l, op).Ok? && (Touches(op, p) ==> op.kind.Valuation?)
    ensures Apply(l, op).value.At(p).quantity == l.At(p).quantity
    ensures Apply(l, op).value.At(p).totalCost == l.At(p).totalCost
  {
  }

  lemma CostDriftStep(l: Account, op: Operation, p: Id, before: Holding, n: nat)
    requires Apply(l, op).Ok? && before.quantity > 0.0
    requires Touches(op, p) ==> Removes(op, p) || op.kind.Valuation?
    requires WithinUnits(l.At(p), before, n)
    ensures WithinUnits(Apply(l, op).value.At(p), before, if Removes(op, p) then n + 1 else n)
  {
    if Removes(op, p) {
      RemovalApplied(l, op, p);
      OneMoreRemoval(l.At(p), Units(op), before, n);
    } else {
      NothingRemoved(l, op, p);
    }
  }

  // ---- one more row ----

  /** What one more accepted row does to cash: money brought in or earned adds, money taken out or
      spent takes, a trade its amount and its costs, an opening balance adds itself; nothing else
      touches it. */
  lemma NextRowMovesCash(history: seq<Operation>, op: Operation)
    requires Replay(history).Ok? && Replay(history + [op]).Ok?
    ensures var moved := Replay(history + [op]).value.cash - Replay(history).value.cash;
            && (op.kind in {Deposit, Income} ==> moved == op.amount)
            && (op.kind in {Withdrawal, Fee, Tax} ==> moved == -op.amount)
            && (op.kind.Buy? ==> moved == -op.amount - op.fees - op.taxes)
            && (op.kind.Sell? ==> moved == op.amount - op.fees - op.taxes)
            && (op.kind.InitialBalance? ==> moved == if op.position.None? then op.amount else 0.0)
            && (op.kind in {Valuation, TransferIn, TransferOut} ==> moved == 0.0)
  {
    ReplayPush(history, op);
  }

  /** What it does to its own position, and to no other: an opening or a purchase adds its units at
      all it cost, an incoming transfer at the cost carried; a sale or outgoing transfer takes its
      units and leaves the rest their share of the cost; a valuation moves neither. */
  lemma NextRowMovesHolding(history: seq<Operation>, op: Operation, p: Id)
    requires Replay(history).Ok? && Replay(history + [op]).Ok?
    ensures var h, n := Replay(history).value.At(p), Replay(history + [op]).value.At(p);
            && (op.position != Some(p) || p == EMPTY ==> n == h)
            && (op.position == Some(p) && p != EMPTY ==>
                  && (op.kind in {InitialBalance, Buy} ==>
                        n.quantity == h.quantity + Units(op) && n.totalCost == h.totalCost + op.amount + op.fees + op.taxes)
                  && (op.kind.TransferIn? ==> n.quantity == h.quantity + Units(op) && n.totalCost == h.totalCost + op.amount)
                  && (op.kind in {Sell, TransferOut} ==> h.quantity >= Units(op) > 0.0 && n.quantity == h.quantity - Units(op) && KeepsShare(h, n))
                  && (op.kind.Valuation? ==> n.quantity == h.quantity > 0.0 && n.totalCost == h.totalCost))
  {
    ReplayPush(history, op);
    if Removes(op, p) {
      RemovalApplied(Replay(history).value, op, p);
      RemovalKeepsShare(Replay(history).value.At(p), Units(op));
    }
  }

  /** What is left costs its share of what there was, within half a unit of the division's last
      place; nothing when nothing is left. */
  predicate KeepsShare(h: Holding, n: Holding)
    requires h.quantity > 0.0
  {
    Distance(n.totalCost, Share(h.totalCost, n.quantity, h.quantity)) <= HALF_UNIT && (n.quantity == 0.0 ==> n.totalCost == 0.0)
  }

  lemma RemovalKeepsShare(h: Holding, units: real)
    requires 0.0 < units <= h.quantity
    ensures KeepsShare(h, h.Remove(units))
  {
    RemoveCost(h, units, h.quantity - units);
  }

  /** Splitting a holding's cost between what leaves and what stays loses at most two half-units,
      and nothing at all when everything leaves. */
  lemma SplitConserves(h: Holding, units: real)
    requires 0.0 < units <= h.quantity
    ensures Distance(h.Remove(units).totalCost + h.CostOf(units), h.totalCost) <= 2.0 * HALF_UNIT
    ensures units == h.quantity ==> h.Remove(units).totalCost + h.CostOf(units) == h.totalCost
  {
    RemoveCost(h, units, h.quantity - units);
    CostOfShare(h, units);
    SharesAddUp(h.totalCost, units, h.quantity - units, h.quantity);
  }
}
