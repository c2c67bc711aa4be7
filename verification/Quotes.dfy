/** An asset's price series: dated quotes, oldest first, and the searches over them
    (internal/investments/quotes.go, yield.go, yield_cache.go). */
module Quotes {
  import opened Wrappers
  import opened Decimals
  import opened Sequences
  import opened Sorting
  import opened Domain

  datatype Quote = Quote(on: Day, price: real)

  function QuotedOn(q: Quote): Day {
    q.on
  }

  /** Binary search for the first element dated after d. */
  function FirstAfter<T>(s: seq<T>, day: T -> Day, d: Day, lo: nat, hi: nat): (k: nat)
    requires lo <= hi <= |s|
    ensures lo <= k <= hi
    ensures Ascending(s, day) ==> forall i | lo <= i < hi :: day(s[i]) <= d <==> i < k
    decreases hi - lo
  {
    if lo == hi then lo
    else
      var mid := (lo + hi) / 2;
      if day(s[mid]) > d then FirstAfter(s, day, d, lo, mid) else FirstAfter(s, day, d, mid + 1, hi)
  }

  function CountThrough<T>(s: seq<T>, day: T -> Day, d: Day): (k: nat)
    ensures k <= |s|
    ensures Ascending(s, day) ==> forall i | 0 <= i < |s| :: day(s[i]) <= d <==> i < k
  {
    FirstAfter(s, day, d, 0, |s|)
  }

  /** Whatever the search's path, a cut with nothing late before it and nothing early after it is
      the one it finds. */
  lemma {:induction false} CutIsFound<T>(s: seq<T>, day: T -> Day, d: Day, lo: nat, hi: nat, k: nat)
    requires lo <= k <= hi <= |s|
    requires forall i | lo <= i < hi :: day(s[i]) <= d <==> i < k
    ensures FirstAfter(s, day, d, lo, hi) == k
    decreases hi - lo
  {
    if lo != hi {
      var mid := (lo + hi) / 2;
      if day(s[mid]) > d {
        CutIsFound(s, day, d, lo, mid, k);
      } else {
        CutIsFound(s, day, d, mid + 1, hi, k);
      }
    }
  }

  lemma CutIsCount<T>(s: seq<T>, day: T -> Day, d: Day, k: nat)
    requires k <= |s|
    requires forall i | 0 <= i < |s| :: day(s[i]) <= d <==> i < k
    ensures CountThrough(s, day, d) == k
  {
    CutIsFound(s, day, d, 0, |s|, k);
  }

  /** Quotes carry distinct days and come oldest first. */
  ghost predicate IsPriceSeries(quotes: seq<Quote>) {
    forall i, j | 0 <= i < j < |quotes| :: quotes[i].on < quotes[j].on
  }

  const MAX_QUOTE_AGE := 10

  /** The last quote on or before a day, however old. */
  function LatestQuoteOn(quotes: seq<Quote>, d: Day): (r: Option<Quote>)
    ensures r.Some? ==> r.value in quotes
    ensures Ascending(quotes, QuotedOn) && r.Some? ==>
              r.value.on <= d && forall q | q in quotes && q.on <= d :: q.on <= r.value.on
    ensures Ascending(quotes, QuotedOn) && r.None? ==> forall q | q in quotes :: q.on > d
  {
    var k := CountThrough(quotes, QuotedOn, d);
    assert Ascending(quotes, QuotedOn) ==> forall i | 0 <= i < |quotes| :: QuotedOn(quotes[i]) <= d <==> i < k;
    if k == 0 then None else Some(quotes[k - 1])
  }

  /** That quote, if recent enough to price the day. */
  function QuoteOn(quotes: seq<Quote>, d: Day): Option<Quote> {
    match LatestQuoteOn(quotes, d)
    case None => None
    case Some(q) => if d - q.on > MAX_QUOTE_AGE then None else Some(q)
  }

  function PriceOn(quotes: seq<Quote>, d: Day): Option<real> {
    match QuoteOn(quotes, d) case None => None case Some(q) => Some(q.price)
  }

  /** Units at a price, in whole cents. */
  function MarketValue(units: real, price: real): (r: real)
    ensures Priced(r, units, price)
  {
    Round2(units * price)
  }

  /** The latest of some quotes on or before a day. */
  ghost predicate IsLatest(quotes: seq<Quote>, quote: Quote, d: Day) {
    quote in quotes && quote.on <= d && forall q | q in quotes && q.on <= d :: q.on <= quote.on
  }

  lemma LatestIsFound(quotes: seq<Quote>, quote: Quote, d: Day)
    requires IsPriceSeries(quotes) && IsLatest(quotes, quote, d)
    ensures Ascending(quotes, QuotedOn) && LatestQuoteOn(quotes, d) == Some(quote)
  {
    var i :| 0 <= i < |quotes| && quotes[i] == quote;
    var found := LatestQuoteOn(quotes, d).value;
    var j :| 0 <= j < |quotes| && quotes[j] == found;
    OneQuoteADay(quotes, i, j);
  }

  lemma OneQuoteADay(quotes: seq<Quote>, i: nat, j: nat)
    requires IsPriceSeries(quotes) && i < |quotes| && j < |quotes| && quotes[i].on == quotes[j].on
    ensures i == j
  {
  }

  /** Units at a price, in whole cents. */
  predicate Priced(value: real, units: real, price: real) {
    -0.005 <= value - units * price <= 0.005 && WholeCents(value)
  }

  /** The most recent quote of a series, however old. */
  function LatestQuote(quotes: seq<Quote>): Option<Quote> {
    if quotes == [] then None else Some(quotes[|quotes| - 1])
  }

  /** From the last quote's day on, the latest quote is the one in force. */
  lemma LatestIsInForce(quotes: seq<Quote>, d: Day)
    requires Ascending(quotes, QuotedOn) && (quotes != [] ==> quotes[|quotes| - 1].on <= d)
    ensures LatestQuoteOn(quotes, d) == LatestQuote(quotes)
  {
    forall i | 0 <= i < |quotes| ensures QuotedOn(quotes[i]) <= d {
      assert i < |quotes| - 1 ==> QuotedOn(quotes[i]) <= QuotedOn(quotes[|quotes| - 1]);
    }
    CutIsCount(quotes, QuotedOn, d, |quotes|);
  }

  // ---- the query and its per-request cache ----

  /** The quotes table: each asset's series. */
  type QuoteTable = map<Id, seq<Quote>>

  function SeriesOf(table: QuoteTable, asset: Id): seq<Quote> {
    if asset in table then table[asset] else []
  }

  function QuotedBy(until: Day): Quote -> bool {
    (q: Quote) => q.on <= until
  }

  /** What the database answers: the rows through a day, oldest first. */
  function ListAssetQuotes(table: QuoteTable, asset: Id, until: Day): seq<Quote> {
    Filter(SeriesOf(table, asset), QuotedBy(until))
  }

  ghost predicate TableSound(table: QuoteTable) {
    forall a | a in table :: IsPriceSeries(table[a])
  }

  datatype CachedQuotes = CachedQuotes(until: Day, quotes: seq<Quote>)
  type CacheState = map<Id, CachedQuotes>

  /** One lookup, and whether the database would answer it. */
  datatype Call = Call(asset: Id, until: Day, reachable: bool)

  predicate Hit(held: CacheState, call: Call) {
    call.asset in held && call.until <= held[call.asset].until
  }

  function CacheAnswer(held: CacheState, table: QuoteTable, call: Call): Option<seq<Quote>> {
    if Hit(held, call) then
      var entry := held[call.asset].quotes;
      Some(entry[..CountThrough(entry, QuotedOn, call.until)])
    else if call.reachable then Some(ListAssetQuotes(table, call.asset, call.until))
    else None
  }

  function CacheAfter(held: CacheState, table: QuoteTable, call: Call): CacheState {
    if !Hit(held, call) && call.reachable
    then held[call.asset := CachedQuotes(call.until, ListAssetQuotes(table, call.asset, call.until))]
    else held
  }

  class YieldCache {
    var quotes: CacheState

    constructor ()
      ensures quotes == map[]
    {
      quotes := map[];
    }

    method AssetQuotes(table: QuoteTable, call: Call) returns (r: Option<seq<Quote>>)
      modifies this
      ensures r == CacheAnswer(old(quotes), table, call)
      ensures quotes == CacheAfter(old(quotes), table, call)
    {
      if call.asset in quotes && call.until <= quotes[call.asset].until {
        var held := quotes[call.asset];
        var n := CountThrough(held.quotes, QuotedOn, call.until);
        return Some(held.quotes[..n]);
      }
      if !call.reachable {
        return None;
      }
      var loaded := ListAssetQuotes(table, call.asset, call.until);
      quotes := quotes[call.asset := CachedQuotes(call.until, loaded)];
      return Some(loaded);
    }
  }

  /** A missing cache loads every time. */
  method AssetQuotes(cache: YieldCache?, table: QuoteTable, call: Call) returns (r: Option<seq<Quote>>)
    modifies cache
    ensures cache == null ==> r == if call.reachable then Some(ListAssetQuotes(table, call.asset, call.until)) else None
    ensures cache != null ==>
              r == CacheAnswer(old(cache.quotes), table, call) && cache.quotes == CacheAfter(old(cache.quotes), table, call)
  {
    if cache == null {
      return if call.reachable then Some(ListAssetQuotes(table, call.asset, call.until)) else None;
    }
    r := cache.AssetQuotes(table, call);
  }

  /** Every entry is the asset's full series through the day it was loaded for. */
  ghost predicate CacheSound(held: CacheState, table: QuoteTable) {
    forall a | a in held :: held[a].quotes == ListAssetQuotes(table, a, held[a].until)
  }

  /** Selecting rows through a day and then through an earlier one is selecting once. */
  lemma {:induction false} EarlierSelection(quotes: seq<Quote>, late: Day, early: Day)
    requires early <= late
    ensures Filter(Filter(quotes, QuotedBy(late)), QuotedBy(early)) == Filter(quotes, QuotedBy(early))
  {
    if quotes != [] {
      var rest, last := quotes[..|quotes| - 1], quotes[|quotes| - 1];
      EarlierSelection(rest, late, early);
      FilterConcat(Filter(rest, QuotedBy(late)), [last], QuotedBy(early));
      FilterOne(last, QuotedBy(early));
    }
  }

  /** Of a dated series, the rows through a day are the prefix the search cuts. */
  lemma SelectionIsPrefix(quotes: seq<Quote>, d: Day)
    requires Ascending(quotes, QuotedOn)
    ensures Filter(quotes, QuotedBy(d)) == quotes[..CountThrough(quotes, QuotedOn, d)]
  {
    SelectionIsCut(quotes, d, CountThrough(quotes, QuotedOn, d));
  }

  lemma {:induction false} SelectionIsCut(quotes: seq<Quote>, d: Day, k: nat)
    requires k <= |quotes|
    requires forall i | 0 <= i < |quotes| :: QuotedOn(quotes[i]) <= d <==> i < k
    ensures Filter(quotes, QuotedBy(d)) == quotes[..k]
  {
    if quotes != [] {
      var rest, last := quotes[..|quotes| - 1], quotes[|quotes| - 1];
      assert QuotedOn(last) <= d <==> k == |quotes|;
      assert forall i | 0 <= i < |rest| :: rest[i] == quotes[i];
      SelectionIsCut(rest, d, if k == |quotes| then k - 1 else k);
    }
  }

  lemma SelectionDated(quotes: seq<Quote>, d: Day)
    requires IsPriceSeries(quotes)
    ensures Ascending(Filter(quotes, QuotedBy(d)), QuotedOn)
  {
    var order := (a: Quote, b: Quote) => a.on < b.on;
    assert Pairwise(quotes, order);
    FilterPairwise(quotes, QuotedBy(d), order);
    var s := Filter(quotes, QuotedBy(d));
    forall i, j | 0 <= i < j < |s| ensures QuotedOn(s[i]) <= QuotedOn(s[j]) {
      assert order(s[i], s[j]);
    }
  }

  /** One lookup through a sound cache answers what the database would, and leaves it sound. */
  lemma LookupTransparent(held: CacheState, table: QuoteTable, call: Call)
    requires TableSound(table) && CacheSound(held, table)
    ensures CacheSound(CacheAfter(held, table, call), table)
    ensures CacheAnswer(held, table, call).Some? <==> call.reachable || Hit(held, call)
    ensures CacheAnswer(held, table, call).Some? ==>
              CacheAnswer(held, table, call).value == ListAssetQuotes(table, call.asset, call.until)
  {
    if Hit(held, call) {
      var entry, series := held[call.asset], SeriesOf(table, call.asset);
      SelectionDated(series, entry.until);
      SelectionIsPrefix(entry.quotes, call.until);
      EarlierSelection(series, entry.until, call.until);
    }
  }

  /** The cache after a sequence of lookups. */
  function CacheOver(table: QuoteTable, calls: seq<Call>): CacheState {
    if calls == [] then map[] else CacheAfter(CacheOver(table, calls[..|calls| - 1]), table, calls[|calls| - 1])
  }

  /** Whatever was asked before, in whatever order of days, the next answer is the uncached one. */
  lemma {:induction false} CacheTransparent(table: QuoteTable, calls: seq<Call>, next: Call)
    requires TableSound(table)
    ensures CacheSound(CacheOver(table, calls), table)
    ensures next.reachable ==>
              CacheAnswer(CacheOver(table, calls), table, next) == Some(ListAssetQuotes(table, next.asset, next.until))
    ensures CacheAnswer(CacheOver(table, calls), table, next).Some? ==>
              CacheAnswer(CacheOver(table, calls), table, next).value == ListAssetQuotes(table, next.asset, next.until)
  {
    if calls != [] {
      var last := calls[|calls| - 1];
      CacheTransparent(table, calls[..|calls| - 1], last);
      LookupTransparent(CacheOver(table, calls[..|calls| - 1]), table, last);
    }
    LookupTransparent(CacheOver(table, calls), table, next);
  }
}
