/** What a payable still owes, now and as of past days (internal/payables/model.go, summary.go). */
module Payables {
  import opened Wrappers
  import opened Sequences
  import opened Domain

  datatype Status = Open | Settled

  /** A link of a payable, with what was read off the transaction behind it. */
  datatype LinkSummary = LinkSummary(transaction: Id, effective: real, counts: bool, occurredAt: Option<Instant>)

  datatype Payable = Payable(id: Id, total: real, startingSettled: real, createdAt: Instant)

  datatype Summary = Summary(settled: real, remaining: real, status: Status, links: seq<LinkSummary>)

  // ---- one payable ----

  function SettlementOf(ls: LinkSummary): real {
    if ls.counts then ls.effective else 0.0
  }

  function RemainingAmount(total: real, settled: real): real {
    if total - settled < 0.0 then 0.0
    else if total - settled > total then total
    else total - settled
  }

  function StatusFor(remaining: real): Status {
    if remaining == 0.0 then Settled else Open
  }

  predicate CountsAsOf(ls: LinkSummary, dayEnd: Instant) {
    ls.occurredAt.Some? && ls.occurredAt.value < dayEnd
  }

  function CountsBy(dayEnd: Option<Instant>): LinkSummary -> bool {
    (ls: LinkSummary) => dayEnd.None? || CountsAsOf(ls, dayEnd.value)
  }

  /** A payable from its links: those that count, what they settle, what remains. */
  function SummaryOf(p: Payable, all: seq<LinkSummary>, dayEnd: Option<Instant>): Summary {
    var counted := Filter(all, CountsBy(dayEnd));
    var settled := p.startingSettled + Sum(counted, SettlementOf);
    var remaining := RemainingAmount(p.total, settled);
    Summary(settled, remaining, StatusFor(remaining), counted)
  }

  lemma SummaryOfSettled(p: Payable, all: seq<LinkSummary>, dayEnd: Option<Instant>, settled: real)
    requires settled == p.startingSettled + Sum(Filter(all, CountsBy(dayEnd)), SettlementOf)
    ensures var remaining := RemainingAmount(p.total, settled);
            SummaryOf(p, all, dayEnd) == Summary(settled, remaining, StatusFor(remaining), Filter(all, CountsBy(dayEnd)))
  {
  }

  function Amount(x: real): real {
    x
  }

  method SettledAmount(startingSettled: real, amounts: seq<real>) returns (total: real)
    ensures total == startingSettled + Sum(amounts, Amount)
  {
    total := startingSettled;
    var i := 0;
    while i < |amounts|
      invariant 0 <= i <= |amounts| && total == startingSettled + Sum(amounts[..i], Amount)
    {
      SumTake(amounts, i, Amount);
      total := total + amounts[i];
      i := i + 1;
    }
    assert amounts[..i] == amounts;
  }

  /** The links that count by a day, and the amounts of those that settle. */
  method CountLinks(all: seq<LinkSummary>, dayEnd: Option<Instant>) returns (counted: seq<LinkSummary>, amounts: seq<real>)
    ensures counted == Filter(all, CountsBy(dayEnd))
    ensures Sum(amounts, Amount) == Sum(counted, SettlementOf)
  {
    counted, amounts := [], [];
    var i := 0;
    while i < |all|
      invariant 0 <= i <= |all| && counted == Filter(all[..i], CountsBy(dayEnd))
      invariant Sum(amounts, Amount) == Sum(counted, SettlementOf)
    {
      FilterTake(all, i, CountsBy(dayEnd));
      var ls := all[i];
      i := i + 1;
      if dayEnd.Some? && !CountsAsOf(ls, dayEnd.value) {
        continue;
      }
      SumPush(counted, ls, SettlementOf);
      counted := counted + [ls];
      if ls.counts {
        SumPush(amounts, ls.effective, Amount);
        amounts := amounts + [ls.effective];
      }
    }
    assert all[..i] == all;
  }

  method SummaryFrom(p: Payable, all: seq<LinkSummary>, dayEnd: Option<Instant>) returns (r: Summary)
    ensures r == SummaryOf(p, all, dayEnd)
  {
    var counted, amounts := CountLinks(all, dayEnd);
    var settled := SettledAmount(p.startingSettled, amounts);
    SummaryOfSettled(p, all, dayEnd, settled);
    var remaining := RemainingAmount(p.total, settled);
    r := Summary(settled, remaining, StatusFor(remaining), counted);
  }

  /** What remains is never negative nor more than the whole; with the settled part it makes up the
      whole unless the settled part is out of range; and the status says settled exactly when
      nothing remains. */
  lemma RemainingMeaning(p: Payable, all: seq<LinkSummary>, dayEnd: Option<Instant>)
    requires p.total >= 0.0
    ensures var s := SummaryOf(p, all, dayEnd);
            && 0.0 <= s.remaining <= p.total
            && (s.settled + s.remaining == p.total <==> 0.0 <= s.settled <= p.total)
            && (s.status == Settled <==> s.settled >= p.total || p.total == 0.0)
  {
  }

  // ---- over time ----

  lemma {:induction false} MoreSettledLater(all: seq<LinkSummary>, early: Instant, late: Instant)
    requires early <= late && forall ls | ls in all :: SettlementOf(ls) >= 0.0
    ensures Sum(Filter(all, CountsBy(Some(early))), SettlementOf) <= Sum(Filter(all, CountsBy(Some(late))), SettlementOf)
  {
    if all != [] {
      var rest, last := all[..|all| - 1], all[|all| - 1];
      assert last in all;
      MoreSettledLater(rest, early, late);
      SumConcat(Filter(rest, CountsBy(Some(early))), [last], SettlementOf);
      SumConcat(Filter(rest, CountsBy(Some(late))), [last], SettlementOf);
      SumOne(last, SettlementOf);
    }
  }

  /** A debt only shrinks from one day to a later one, while no settlement is negative. */
  lemma RemainingShrinks(p: Payable, all: seq<LinkSummary>, early: Instant, late: Instant)
    requires early <= late && p.total >= 0.0 && forall ls | ls in all :: SettlementOf(ls) >= 0.0
    ensures SummaryOf(p, all, Some(late)).remaining <= SummaryOf(p, all, Some(early)).remaining
  {
    MoreSettledLater(all, early, late);
  }

  /** As of a day after every link's transaction, a payable is as it is now. */
  lemma AsOfCatchesUp(p: Payable, all: seq<LinkSummary>, dayEnd: Instant)
    requires forall ls | ls in all :: CountsAsOf(ls, dayEnd)
    ensures SummaryOf(p, all, Some(dayEnd)) == SummaryOf(p, all, None)
  {
    FilterAll(all, CountsBy(Some(dayEnd)));
    FilterAll(all, CountsBy(None));
  }

  // ---- all payables, one load ----

  datatype StoredLink = StoredLink(payable: Id, transaction: Id, counts: bool)
  datatype Snapshot = Snapshot(effective: real, occurredAt: Option<Instant>)

  /** The payables of a kind, their links, and the transactions behind them. */
  datatype Tables = Tables(list: seq<Payable>, links: seq<StoredLink>, transactions: map<Id, Snapshot>)

  function OfPayable(id: Id): StoredLink -> bool {
    (l: StoredLink) => l.payable == id
  }

  /** A link whose transaction row is gone contributes nothing and has no day. */
  function Summarized(l: StoredLink, transactions: map<Id, Snapshot>): LinkSummary {
    if l.transaction in transactions
    then LinkSummary(l.transaction, transactions[l.transaction].effective, l.counts, transactions[l.transaction].occurredAt)
    else LinkSummary(l.transaction, 0.0, l.counts, None)
  }

  function AllSummarized(links: seq<StoredLink>, transactions: map<Id, Snapshot>): seq<LinkSummary> {
    if links == [] then []
    else AllSummarized(links[..|links| - 1], transactions) + [Summarized(links[|links| - 1], transactions)]
  }

  /** One payable's links, each with its own transaction row. */
  function LinksOf(db: Tables, id: Id): seq<LinkSummary> {
    AllSummarized(Filter(db.links, OfPayable(id)), db.transactions)
  }

  /** The rows of some transactions, loaded together. */
  function LoadTransactions(db: Tables, ids: set<Id>): map<Id, Snapshot> {
    map id | id in ids && id in db.transactions :: db.transactions[id]
  }

  lemma {:induction false} LoadedIsEnough(links: seq<StoredLink>, db: Tables, ids: set<Id>)
    requires forall l | l in links :: l.transaction in ids
    ensures AllSummarized(links, LoadTransactions(db, ids)) == AllSummarized(links, db.transactions)
  {
    if links != [] {
      LoadedIsEnough(links[..|links| - 1], db, ids);
      assert links[|links| - 1] in links;
    }
  }

  /** Each transaction behind the links is asked for once. */
  method TransactionsBehind(links: seq<StoredLink>) returns (ids: seq<Id>)
    ensures forall id :: id in ids <==> exists l | l in links :: l.transaction == id
    ensures forall i, j | 0 <= i < j < |ids| :: ids[i] != ids[j]
  {
    ids := [];
    var i := 0;
    while i < |links|
      invariant 0 <= i <= |links|
      invariant forall id :: id in ids <==> exists k | 0 <= k < i :: links[k].transaction == id
      invariant forall a, b | 0 <= a < b < |ids| :: ids[a] != ids[b]
    {
      if links[i].transaction !in ids {
        ids := ids + [links[i].transaction];
      }
      i := i + 1;
    }
    assert forall id :: id in ids ==> exists l | l in links :: l.transaction == id;
  }

  predicate Wanted(list: seq<Payable>, id: Id) {
    exists p | p in list :: p.id == id
  }

  function WantedLinks(db: Tables): seq<StoredLink> {
    Filter(db.links, (l: StoredLink) => Wanted(db.list, l.payable))
  }

  /** The links of every payable, from one load of the links and one of the transactions. */
  method AllLinkSummaries(db: Tables) returns (out: map<Id, seq<LinkSummary>>)
    ensures forall p | p in db.list :: p.id in out && out[p.id] == LinksOf(db, p.id)
  {
    var ids := TransactionsBehind(WantedLinks(db));
    var snapshots := LoadTransactions(db, set id | id in ids);
    out := map[];
    var i := 0;
    while i < |db.list|
      invariant 0 <= i <= |db.list|
      invariant forall k | 0 <= k < i :: db.list[k].id in out
      invariant forall id | id in out :: out[id] == LinksOf(db, id)
    {
      var p := db.list[i];
      var links := Filter(db.links, OfPayable(p.id));
      forall l | l in links ensures l.transaction in ids {
        FilterMember(db.links, OfPayable(p.id), l);
        assert p in db.list && Wanted(db.list, l.payable);
        FilterMember(db.links, (l: StoredLink) => Wanted(db.list, l.payable), l);
      }
      LoadedIsEnough(links, db, set id | id in ids);
      out := out[p.id := AllSummarized(links, snapshots)];
      i := i + 1;
    }
  }

  // ---- many days at once ----

  /** One payable on one day: nothing before it was created. */
  function RemainingOn(db: Tables, dayEnd: Instant): Payable -> real {
    (p: Payable) => if p.createdAt < dayEnd then SummaryOf(p, LinksOf(db, p.id), Some(dayEnd)).remaining else 0.0
  }

  /** The total on one day, answered on its own. */
  function RemainingTotalOn(db: Tables, dayEnd: Instant): real {
    Sum(db.list, RemainingOn(db, dayEnd))
  }

  /** One payable added to every day's running total. */
  method AddPayable(db: Tables, p: Payable, all: seq<LinkSummary>, dayEnds: seq<Instant>, totals: array<real>)
    requires totals.Length == |dayEnds| && all == LinksOf(db, p.id)
    modifies totals
    ensures forall i | 0 <= i < |dayEnds| :: totals[i] == old(totals[i]) + RemainingOn(db, dayEnds[i])(p)
  {
    var i := 0;
    while i < |dayEnds|
      invariant 0 <= i <= |dayEnds|
      invariant forall k | 0 <= k < i :: totals[k] == old(totals[k]) + RemainingOn(db, dayEnds[k])(p)
      invariant forall k | i <= k < |dayEnds| :: totals[k] == old(totals[k])
    {
      if p.createdAt < dayEnds[i] {
        var summary := SummaryFrom(p, all, Some(dayEnds[i]));
        totals[i] := totals[i] + summary.remaining;
      }
      i := i + 1;
    }
  }

  /** Every day's total from one load, whatever the order of the days: each is what that day alone
      would have been answered. */
  method RemainingTotalsAsOf(db: Tables, dayEnds: seq<Instant>) returns (result: seq<real>)
    ensures |result| == |dayEnds|
    ensures forall i | 0 <= i < |dayEnds| :: result[i] == RemainingTotalOn(db, dayEnds[i])
  {
    var totals := new real[|dayEnds|](_ => 0.0);
    if |dayEnds| == 0 {
      return [];
    }
    var linksByPayable := AllLinkSummaries(db);
    var j := 0;
    while j < |db.list|
      invariant 0 <= j <= |db.list|
      invariant forall i | 0 <= i < |dayEnds| :: totals[i] == Sum(db.list[..j], RemainingOn(db, dayEnds[i]))
    {
      forall i | 0 <= i < |dayEnds|
        ensures Sum(db.list[..j + 1], RemainingOn(db, dayEnds[i]))
                == Sum(db.list[..j], RemainingOn(db, dayEnds[i])) + RemainingOn(db, dayEnds[i])(db.list[j])
      {
        SumTake(db.list, j, RemainingOn(db, dayEnds[i]));
      }
      assert db.list[j] in db.list;
      AddPayable(db, db.list[j], linksByPayable[db.list[j].id], dayEnds, totals);
      j := j + 1;
    }
    assert db.list[..j] == db.list;
    return totals[..];
  }

  // ---- from the stored rows ----

  /** What a stored link settles of a payable by some instant, or by now: the effective amount of its
      transaction, if the link counts, the transaction is there, and it had happened. */
  function Settles(db: Tables, id: Id, dayEnd: Option<Instant>): StoredLink -> real {
    (l: StoredLink) =>
      if l.payable != id || !l.counts || l.transaction !in db.transactions then 0.0
      else
        var row := db.transactions[l.transaction];
        if dayEnd.None? || (row.occurredAt.Some? && row.occurredAt.value < dayEnd.value) then row.effective else 0.0
  }

  function CountedSettlement(dayEnd: Option<Instant>): LinkSummary -> real {
    (ls: LinkSummary) => if CountsBy(dayEnd)(ls) then SettlementOf(ls) else 0.0
  }

  lemma {:induction false} CountedSums(all: seq<LinkSummary>, dayEnd: Option<Instant>)
    ensures Sum(Filter(all, CountsBy(dayEnd)), SettlementOf) == Sum(all, CountedSettlement(dayEnd))
  {
    if all != [] {
      var rest, last := all[..|all| - 1], all[|all| - 1];
      CountedSums(rest, dayEnd);
      if CountsBy(dayEnd)(last) {
        SumPush(Filter(rest, CountsBy(dayEnd)), last, SettlementOf);
      }
    }
  }

  lemma OneSettles(db: Tables, l: StoredLink, id: Id, dayEnd: Option<Instant>)
    ensures Settles(db, id, dayEnd)(l)
            == if l.payable == id then CountedSettlement(dayEnd)(Summarized(l, db.transactions)) else 0.0
  {
    var ls := Summarized(l, db.transactions);
    assert CountsBy(dayEnd)(ls) <==> dayEnd.None? || CountsAsOf(ls, dayEnd.value);
    assert CountedSettlement(dayEnd)(ls) == if CountsBy(dayEnd)(ls) then SettlementOf(ls) else 0.0;
  }

  lemma {:induction false} SummarizedSums(db: Tables, links: seq<StoredLink>, id: Id, dayEnd: Option<Instant>)
    ensures Sum(AllSummarized(Filter(links, OfPayable(id)), db.transactions), CountedSettlement(dayEnd)) == Sum(links, Settles(db, id, dayEnd))
  {
    if links != [] {
      var rest, last := links[..|links| - 1], links[|links| - 1];
      SummarizedSums(db, rest, id, dayEnd);
      OneSettles(db, last, id, dayEnd);
      if last.payable == id {
        var own := Filter(rest, OfPayable(id));
        assert Filter(links, OfPayable(id)) == own + [last] && (own + [last])[..|own|] == own;
        SumPush(AllSummarized(own, db.transactions), Summarized(last, db.transactions), CountedSettlement(dayEnd));
      }
    }
  }

  /** What is left of an amount after another is taken off, no less than nothing and no more than it. */
  function LeftOf(total: real, settled: real): real {
    if settled >= total && total >= 0.0 then 0.0 else if settled <= 0.0 && total >= 0.0 then total else total - settled
  }

  /** At any moment, a payable's settled part is its baseline and what its own counting links
      settled by then; what remains is the rest, between nothing and the whole; and it is settled
      when nothing remains. */
  lemma SummaryFromRows(db: Tables, p: Payable, dayEnd: Option<Instant>)
    requires p.total >= 0.0
    ensures var s := SummaryOf(p, LinksOf(db, p.id), dayEnd);
            && s.settled == p.startingSettled + Sum(db.links, Settles(db, p.id, dayEnd))
            && s.remaining == LeftOf(p.total, s.settled)
            && (s.status.Settled? <==> s.remaining == 0.0)
  {
    CountedSums(LinksOf(db, p.id), dayEnd);
    SummarizedSums(db, db.links, p.id, dayEnd);
  }

  /** What a payable owed at the end of a day: nothing before it existed. */
  function Owed(db: Tables, dayEnd: Instant): Payable -> real {
    (p: Payable) =>
      if p.createdAt >= dayEnd then 0.0
      else LeftOf(p.total, p.startingSettled + Sum(db.links, Settles(db, p.id, Some(dayEnd))))
  }

  /** The total debt of a day, from the stored rows. */
  lemma TotalFromRows(db: Tables, dayEnd: Instant)
    requires forall p | p in db.list :: p.total >= 0.0
    ensures RemainingTotalOn(db, dayEnd) == Sum(db.list, Owed(db, dayEnd))
  {
    forall p | p in db.list ensures RemainingOn(db, dayEnd)(p) == Owed(db, dayEnd)(p) {
      SummaryFromRows(db, p, Some(dayEnd));
    }
    SumSame(db.list, RemainingOn(db, dayEnd), Owed(db, dayEnd));
  }
}
