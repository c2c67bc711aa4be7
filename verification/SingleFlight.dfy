/** Concurrent quote lookups (internal/marketdata/service.go) as a machine whose steps are the
    program's own atomic ones: each critical section, each provider's answer, the leader's closing
    of the channel, each waiter's waking. Any interleaving of the steps is a run. */
module SingleFlight {
  import opened Wrappers
  import opened Domain

  type Thread = nat

  /** Ten minutes, in the clock's seconds. */
  const QUOTE_TTL := 600

  datatype Quote = Quote(instrument: Id, price: real, brl: bool, provider: nat, at: Instant)

  /** A chain of failures may or may not wrap the caller's own cancellation. */
  datatype Failure = Cancellation | NoProvider | ChainFailed(wrapsCancellation: bool)
  datatype Outcome = Got(quote: Quote) | Failed(failure: Failure)

  /** What one provider says: a price in some currency, or an error. */
  datatype Reply = Priced(price: real, brl: bool) | Refused

  /** A lookup in progress; done is its channel, closed. Until its leader writes it, the outcome
      reads as the zero quote without an error. */
  datatype Fetch = Fetch(instrument: Id, leader: Thread, outcome: Outcome, abandoned: bool, done: bool)

  const UNWRITTEN := Got(Quote(EMPTY, 0.0, false, 0, 0))

  predicate CheckQuote(reply: Reply) {
    reply.Priced? && reply.price > 0.0 && reply.brl
  }

  predicate WrapsCancellation(outcome: Outcome) {
    outcome.Failed? && (outcome.failure.Cancellation? || (outcome.failure.ChainFailed? && outcome.failure.wrapsCancellation))
  }

  /** What the mutex guards, and the lookups the entries point to. */
  datatype Shared = Shared(cached: map<Id, Quote>, inflight: map<Id, nat>, fetches: seq<Fetch>)

  datatype Found = FromCache(quote: Quote) | Join(fetch: nat) | Lead(fetch: nat)

  // ---- the critical sections ----

  function Entered(sh: Shared, t: Thread, instrument: Id, now: Instant): (r: (Shared, Found)) {
    if instrument in sh.cached && now - sh.cached[instrument].at < QUOTE_TTL then (sh, FromCache(sh.cached[instrument]))
    else if instrument in sh.inflight then (sh, Join(sh.inflight[instrument]))
    else
      var f := |sh.fetches|;
      (Shared(sh.cached, sh.inflight[instrument := f], sh.fetches + [Fetch(instrument, t, UNWRITTEN, true, false)]), Lead(f))
  }

  function Recorded(sh: Shared, f: nat, outcome: Outcome): Shared
    requires f < |sh.fetches|
  {
    sh.(fetches := sh.fetches[f := sh.fetches[f].(outcome := outcome)])
  }

  function Judged(sh: Shared, f: nat, cancelled: bool): Shared
    requires f < |sh.fetches|
  {
    sh.(fetches := sh.fetches[f := sh.fetches[f].(abandoned := cancelled && WrapsCancellation(sh.fetches[f].outcome))])
  }

  predicate Successful(x: Fetch) {
    !x.abandoned && x.outcome.Got?
  }

  function Published(sh: Shared, f: nat): Shared
    requires f < |sh.fetches|
  {
    var x := sh.fetches[f];
    sh.(inflight := sh.inflight - {x.instrument},
        cached := if Successful(x) then sh.cached[x.instrument := x.outcome.quote] else sh.cached)
  }

  function Closed(sh: Shared, f: nat): Shared
    requires f < |sh.fetches|
  {
    sh.(fetches := sh.fetches[f := sh.fetches[f].(done := true)])
  }

  /** The service's own mutable fields; each method is one critical section, or the writes a leader
      makes to the lookup it leads. */
  class Service {
    var quotes: map<Id, Quote>
    var inflight: map<Id, nat>
    var fetches: seq<Fetch>

    function View(): Shared
      reads this
    {
      Shared(quotes, inflight, fetches)
    }

    constructor ()
      ensures View() == Shared(map[], map[], [])
    {
      quotes, inflight, fetches := map[], map[], [];
    }

    method Enter(t: Thread, instrument: Id, now: Instant) returns (found: Found)
      modifies this
      ensures (View(), found) == Entered(old(View()), t, instrument, now)
    {
      if instrument in quotes {
        var cached := quotes[instrument];
        if now - cached.at < QUOTE_TTL {
          return FromCache(cached);
        }
      }
      if instrument in inflight {
        return Join(inflight[instrument]);
      }
      var pending := |fetches|;
      fetches := fetches + [Fetch(instrument, t, UNWRITTEN, true, false)];
      inflight := inflight[instrument := pending];
      return Lead(pending);
    }

    /** The leader's own writes once the providers have answered. */
    method Settle(f: nat, outcome: Outcome, cancelled: bool)
      requires f < |fetches|
      modifies this`fetches
      ensures View() == Judged(Recorded(old(View()), f, outcome), f, cancelled)
      ensures fetches[f].outcome == outcome
      ensures fetches[f].abandoned <==> cancelled && (outcome == Failed(Cancellation) || outcome == Failed(ChainFailed(true)))
      ensures outcome.Got? ==> !fetches[f].abandoned
    {
      fetches := fetches[f := fetches[f].(outcome := outcome)];
      fetches := fetches[f := fetches[f].(abandoned := cancelled && WrapsCancellation(outcome))];
    }

    /** The outcome reaches the cache as the entry leaves the in-flight table. */
    method Publish(f: nat)
      requires f < |fetches|
      modifies this
      ensures View() == Published(old(View()), f)
      ensures old(fetches[f].outcome.Got? && !fetches[f].abandoned) ==>
                quotes == old(quotes)[fetches[f].instrument := fetches[f].outcome.quote]
      ensures old(fetches[f].outcome.Failed? || fetches[f].abandoned) ==> quotes == old(quotes)
    {
      var fetch := fetches[f];
      inflight := inflight - {fetch.instrument};
      if !fetch.abandoned && fetch.outcome.Got? {
        quotes := quotes[fetch.instrument := fetch.outcome.quote];
      }
    }

    method CloseDone(f: nat)
      requires f < |fetches|
      modifies this`fetches
      ensures View() == Closed(old(View()), f)
    {
      fetches := fetches[f := fetches[f].(done := true)];
    }
  }

  // ---- asking the providers ----

  /** What a leader meets at one provider: its reply, whether the caller's context is found
      cancelled after it, the clock then, and whether the chain's failure here would wrap it. */
  datatype Answer = Answer(reply: Reply, cancelled: bool, at: Instant, wraps: bool)

  /** Whether one answer settles a lookup, as the next in a chain of that many providers. */
  function Decide(instrument: Id, a: Answer, next: nat, chain: nat): Option<Outcome> {
    if CheckQuote(a.reply) then Some(Got(Quote(instrument, a.reply.price, a.reply.brl, next, a.at)))
    else if a.cancelled then Some(Failed(Cancellation))
    else if next + 1 >= chain then Some(Failed(ChainFailed(a.wraps)))
    else None
  }

  /** How far the answers so far have settled a lookup: the first decision stands. */
  function Scan(instrument: Id, answers: seq<Answer>, chain: nat): Option<Outcome> {
    if |answers| == 0 then if chain == 0 then Some(Failed(NoProvider)) else None
    else
      var earlier := Scan(instrument, answers[..|answers| - 1], chain);
      if earlier.Some? then earlier else Decide(instrument, answers[|answers| - 1], |answers| - 1, chain)
  }

  lemma ScanPush(instrument: Id, answers: seq<Answer>, a: Answer, chain: nat)
    ensures var earlier := Scan(instrument, answers, chain);
            Scan(instrument, answers + [a], chain) == if earlier.Some? then earlier else Decide(instrument, a, |answers|, chain)
  {
    assert (answers + [a])[..|answers|] == answers;
  }

  lemma {:induction false} DecisionStands(instrument: Id, answers: seq<Answer>, n: nat, chain: nat)
    requires n <= |answers| && Scan(instrument, answers[..n], chain).Some?
    ensures Scan(instrument, answers, chain) == Scan(instrument, answers[..n], chain)
    decreases |answers|
  {
    if n == |answers| {
      assert answers[..n] == answers;
    } else {
      var shorter := answers[..|answers| - 1];
      assert shorter[..n] == answers[..n];
      DecisionStands(instrument, shorter, n, chain);
    }
  }

  /** The providers are asked in order, given what would be met at each. The first good answer wins;
      a cancellation ends the asking at the failure it follows; the chain fails only after every
      provider has. */
  method FetchQuote(instrument: Id, answers: seq<Answer>) returns (outcome: Outcome)
    ensures Scan(instrument, answers, |answers|) == Some(outcome)
    ensures outcome.Got? ==>
              var k := outcome.quote.provider;
              && k < |answers| && answers[k].reply.Priced? && answers[k].reply.price > 0.0 && answers[k].reply.brl
              && outcome.quote == Quote(instrument, answers[k].reply.price, true, k, answers[k].at)
              && forall j | 0 <= j < k :: !CheckQuote(answers[j].reply) && !answers[j].cancelled
    ensures outcome.Failed? ==>
              forall k | 0 <= k < |answers| && answers[k].reply.Priced? && answers[k].reply.price > 0.0 && answers[k].reply.brl ::
                exists j | 0 <= j < k :: answers[j].cancelled
    ensures outcome == Failed(Cancellation) <==>
            exists k | 0 <= k < |answers| ::
              && answers[k].cancelled
              && forall j | 0 <= j <= k :: !CheckQuote(answers[j].reply) && (answers[j].cancelled ==> j == k)
    ensures outcome.Failed? && outcome.failure.ChainFailed? <==>
            |answers| > 0 && forall j | 0 <= j < |answers| :: !CheckQuote(answers[j].reply) && !answers[j].cancelled
    ensures outcome == Failed(NoProvider) <==> |answers| == 0
  {
    if |answers| == 0 {
      return Failed(NoProvider);
    }
    var i := 0;
    while i < |answers|
      invariant 0 <= i <= |answers|
      invariant forall j | 0 <= j < i :: !CheckQuote(answers[j].reply) && !answers[j].cancelled
      invariant Scan(instrument, answers[..i], |answers|)
                == if i < |answers| then None else Some(Failed(ChainFailed(answers[|answers| - 1].wraps)))
    {
      var answer := answers[i];
      assert answers[..i + 1] == answers[..i] + [answer];
      ScanPush(instrument, answers[..i], answer, |answers|);
      if CheckQuote(answer.reply) {
        DecisionStands(instrument, answers, i + 1, |answers|);
        return Got(Quote(instrument, answer.reply.price, answer.reply.brl, i, answer.at));
      }
      if answer.cancelled {
        DecisionStands(instrument, answers, i + 1, |answers|);
        return Failed(Cancellation);
      }
      i := i + 1;
    }
    assert answers[..i] == answers;
    return Failed(ChainFailed(answers[|answers| - 1].wraps));
  }

  // ---- the machine ----

  datatype Source = Cache(servedAt: Instant) | Led(fetch: nat) | Waited(fetch: nat) | Own

  /** Where a caller stands. */
  datatype Pc =
    | Idle
    | Entering(instrument: Id)
    | Asking(fetch: nat, next: nat)
    | Judging(fetch: nat)
    | Publishing(fetch: nat, panicked: bool)
    | Closing(fetch: nat, panicked: bool)
    | Waiting(fetch: nat)
    | Returned(instrument: Id, answer: Outcome, source: Source)
    | Crashed

  datatype State = State(
    now: Instant, cancelled: set<Thread>, shared: Shared, threads: map<Thread, Pc>, providers: map<Id, nat>)
  {
    function At(t: Thread): Pc {
      if t in threads then threads[t] else Idle
    }

    function Move(t: Thread, pc: Pc): State {
      this.(threads := threads[t := pc])
    }

    /** How many providers serve an instrument's market. */
    function Chain(instrument: Id): nat {
      if instrument in providers then providers[instrument] else 0
    }
  }

  datatype Event =
    | Call(t: Thread, instrument: Id)
    | Lock(t: Thread)
    | Ask(t: Thread, reply: Reply, wraps: bool)
    | Judge(t: Thread)
    | Panic(t: Thread)
    | Publish(t: Thread)
    | Close(t: Thread)
    | Wake(t: Thread)
    | GiveUp(t: Thread)
    | Cancel(t: Thread)
    | Tick(seconds: nat)

  predicate Resting(pc: Pc) {
    pc.Idle? || pc.Returned? || pc.Crashed?
  }

  function Locked(s: State, t: Thread, instrument: Id): State {
    var (shared, found) := Entered(s.shared, t, instrument, s.now);
    s.(shared := shared).Move(t,
      match found
      case FromCache(quote) => Returned(instrument, Got(quote), Cache(s.now))
      case Join(f) => Waiting(f)
      case Lead(f) => Asking(f, 0))
  }

  /** What a leader meets at the provider it is asking. */
  function Met(s: State, t: Thread, reply: Reply, wraps: bool): Answer {
    Answer(reply, t in s.cancelled, s.now, wraps)
  }

  /** The outcome of the lookup if one more provider answers so; none when the next is to be asked. */
  function AfterReply(s: State, t: Thread, f: nat, next: nat, reply: Reply, wraps: bool): Option<Outcome>
    requires f < |s.shared.fetches|
  {
    var instrument := s.shared.fetches[f].instrument;
    var chain := s.Chain(instrument);
    if chain == 0 then Some(Failed(NoProvider)) else Decide(instrument, Met(s, t, reply, wraps), next, chain)
  }

  function Asked(s: State, t: Thread, f: nat, next: nat, reply: Reply, wraps: bool): State
    requires f < |s.shared.fetches|
  {
    match AfterReply(s, t, f, next, reply, wraps)
    case Some(outcome) => s.(shared := Recorded(s.shared, f, outcome)).Move(t, Judging(f))
    case None => s.Move(t, Asking(f, next + 1))
  }

  function Finished(s: State, t: Thread, f: nat, panicked: bool): State
    requires f < |s.shared.fetches|
  {
    var x := s.shared.fetches[f];
    s.(shared := Closed(s.shared, f)).Move(t,
      if panicked then Crashed else Returned(x.instrument, x.outcome, Led(f)))
  }

  /** A waiter that finds its lookup abandoned asks again unless its own context is gone. */
  function Woken(s: State, t: Thread, f: nat): State
    requires f < |s.shared.fetches|
  {
    var x := s.shared.fetches[f];
    s.Move(t,
      if x.abandoned then
        if t in s.cancelled then Returned(x.instrument, Failed(Cancellation), Own) else Entering(x.instrument)
      else Returned(x.instrument, x.outcome, Waited(f)))
  }

  predicate IsFetch(s: State, f: nat) {
    f < |s.shared.fetches|
  }

  /** One step; an event that is not enabled changes nothing. */
  function Next(s: State, e: Event): State {
    match e
    case Call(t, instrument) =>
      if Resting(s.At(t)) then s.(cancelled := s.cancelled - {t}).Move(t, Entering(instrument)) else s
    case Lock(t) => if s.At(t).Entering? then Locked(s, t, s.At(t).instrument) else s
    case Ask(t, reply, wraps) =>
      if s.At(t).Asking? && IsFetch(s, s.At(t).fetch) then Asked(s, t, s.At(t).fetch, s.At(t).next, reply, wraps) else s
    case Judge(t) =>
      if s.At(t).Judging? && IsFetch(s, s.At(t).fetch) then
        s.(shared := Judged(s.shared, s.At(t).fetch, t in s.cancelled)).Move(t, Publishing(s.At(t).fetch, false))
      else s
    case Panic(t) => if s.At(t).Asking? then s.Move(t, Publishing(s.At(t).fetch, true)) else s
    case Publish(t) =>
      if s.At(t).Publishing? && IsFetch(s, s.At(t).fetch) then
        s.(shared := Published(s.shared, s.At(t).fetch)).Move(t, Closing(s.At(t).fetch, s.At(t).panicked))
      else s
    case Close(t) =>
      if s.At(t).Closing? && IsFetch(s, s.At(t).fetch) then Finished(s, t, s.At(t).fetch, s.At(t).panicked) else s
    case Wake(t) =>
      if s.At(t).Waiting? && IsFetch(s, s.At(t).fetch) && s.shared.fetches[s.At(t).fetch].done
      then Woken(s, t, s.At(t).fetch) else s
    case GiveUp(t) =>
      if s.At(t).Waiting? && IsFetch(s, s.At(t).fetch) && t in s.cancelled
      then s.Move(t, Returned(s.shared.fetches[s.At(t).fetch].instrument, Failed(Cancellation), Own)) else s
    case Cancel(t) => s.(cancelled := s.cancelled + {t})
    case Tick(seconds) => s.(now := s.now + seconds)
  }

  // ---- the invariant ----

  predicate GoodQuote(q: Quote, instrument: Id, now: Instant) {
    q.instrument == instrument && q.price > 0.0 && q.brl && q.at <= now
  }

  /** The lookup a caller must still finish. */
  function Leads(pc: Pc): Option<nat> {
    match pc
    case Asking(f, _) => Some(f)
    case Judging(f) => Some(f)
    case Publishing(f, _) => Some(f)
    case Closing(f, _) => Some(f)
    case _ => None
  }

  predicate InFlight(s: State, f: nat)
    requires IsFetch(s, f)
  {
    s.shared.fetches[f].instrument in s.shared.inflight && s.shared.inflight[s.shared.fetches[f].instrument] == f
  }

  predicate Covered(s: State, f: nat)
    requires IsFetch(s, f) && Successful(s.shared.fetches[f])
  {
    var x := s.shared.fetches[f];
    InFlight(s, f) || (x.instrument in s.shared.cached && s.shared.cached[x.instrument].at >= x.outcome.quote.at)
  }

  predicate FetchOk(s: State, f: nat)
    requires IsFetch(s, f)
  {
    var x := s.shared.fetches[f];
    && (x.outcome.Got? && x.outcome != UNWRITTEN ==> GoodQuote(x.outcome.quote, x.instrument, s.now))
    && (!x.abandoned ==> x.outcome != UNWRITTEN && x.outcome != Failed(Cancellation))
    && (x.done || Leads(s.At(x.leader)) == Some(f))
    && (Successful(x) ==> Covered(s, f))
  }

  /** A leader before publication owns the in-flight entry; after it, nobody does. */
  predicate LeaderOk(s: State, t: Thread, f: nat, listed: bool) {
    && IsFetch(s, f)
    && s.shared.fetches[f].leader == t && !s.shared.fetches[f].done
    && InFlight(s, f) == listed
  }

  /** A leader's lookup that failed by cancellation failed by the leader's own. */
  predicate OwnCancellation(s: State, t: Thread, outcome: Outcome) {
    outcome == Failed(Cancellation) ==> t in s.cancelled
  }

  predicate Settled(x: Fetch, panicked: bool) {
    if panicked then x.abandoned && x.outcome == UNWRITTEN else x.outcome != UNWRITTEN
  }

  predicate AnswerOk(s: State, t: Thread, instrument: Id, answer: Outcome, source: Source) {
    && (answer.Got? ==> GoodQuote(answer.quote, instrument, s.now))
    && OwnCancellation(s, t, answer)
    && match source
       case Cache(servedAt) => answer.Got? && servedAt - answer.quote.at < QUOTE_TTL
       case Led(f) => IsFetch(s, f) && s.shared.fetches[f].leader == t && s.shared.fetches[f].outcome == answer
       case Waited(f) =>
         IsFetch(s, f) && s.shared.fetches[f].done && !s.shared.fetches[f].abandoned && s.shared.fetches[f].outcome == answer
       case Own => answer == Failed(Cancellation)
  }

  predicate ThreadOk(s: State, t: Thread) {
    match s.At(t)
    case Asking(f, _) => LeaderOk(s, t, f, true) && Settled(s.shared.fetches[f], true)
    case Judging(f) =>
      && LeaderOk(s, t, f, true) && Settled(s.shared.fetches[f], false) && s.shared.fetches[f].abandoned
      && OwnCancellation(s, t, s.shared.fetches[f].outcome)
    case Publishing(f, panicked) =>
      LeaderOk(s, t, f, true) && Settled(s.shared.fetches[f], panicked) && OwnCancellation(s, t, s.shared.fetches[f].outcome)
    case Closing(f, panicked) =>
      LeaderOk(s, t, f, false) && Settled(s.shared.fetches[f], panicked) && OwnCancellation(s, t, s.shared.fetches[f].outcome)
    case Waiting(f) => IsFetch(s, f)
    case Returned(instrument, answer, source) => AnswerOk(s, t, instrument, answer, source)
    case _ => true
  }

  predicate InstrumentOk(s: State, i: Id) {
    && (i in s.shared.cached ==> GoodQuote(s.shared.cached[i], i, s.now))
    && (i in s.shared.inflight ==>
          && IsFetch(s, s.shared.inflight[i])
          && var x := s.shared.fetches[s.shared.inflight[i]];
             && x.instrument == i && !x.done
             && (i in s.shared.cached && x.outcome.Got? && x.outcome != UNWRITTEN ==>
                   s.shared.cached[i].at <= x.outcome.quote.at))
  }

  ghost predicate Inv(s: State) {
    && (forall f | 0 <= f < |s.shared.fetches| :: FetchOk(s, f))
    && (forall t: Thread :: ThreadOk(s, t))
    && (forall i: Id :: InstrumentOk(s, i))
  }

  // ---- every step keeps the invariant ----

  /** Starting a lookup: the one new entry is its caller's. */
  lemma LeadKeeps(s: State, t: Thread, i: Id)
    requires Inv(s) && s.At(t) == Entering(i) && Entered(s.shared, t, i, s.now).1.Lead?
    ensures Inv(Locked(s, t, i))
  {
    var n := Locked(s, t, i);
    assert InstrumentOk(s, i) && ThreadOk(s, t);
    forall f | 0 <= f < |n.shared.fetches| ensures FetchOk(n, f) {
      assert f < |s.shared.fetches| ==> FetchOk(s, f);
    }
    forall u: Thread ensures ThreadOk(n, u) {
      assert ThreadOk(s, u);
    }
    forall j: Id ensures InstrumentOk(n, j) {
      assert InstrumentOk(s, j);
    }
  }

  lemma LockKeeps(s: State, t: Thread, i: Id)
    requires Inv(s) && s.At(t) == Entering(i)
    ensures Inv(Locked(s, t, i))
  {
    if Entered(s.shared, t, i, s.now).1.Lead? {
      LeadKeeps(s, t, i);
    } else {
      assert InstrumentOk(s, i);
      AloneKeeps(s, Locked(s, t, i), t);
    }
  }

  /** A leader that writes to its own lookup, and moves on, disturbs nobody. */
  predicate OwnWrite(s: State, n: State, t: Thread, f: nat) {
    && IsFetch(s, f) && LeaderOk(s, t, f, true) && Leads(s.At(t)) == Some(f)
    && n.now == s.now && n.cancelled == s.cancelled && n.providers == s.providers
    && n.shared.cached == s.shared.cached && n.shared.inflight == s.shared.inflight
    && n.threads == s.threads[t := n.At(t)]
    && |n.shared.fetches| == |s.shared.fetches|
    && n.shared.fetches == s.shared.fetches[f := n.shared.fetches[f]]
    && n.shared.fetches[f].instrument == s.shared.fetches[f].instrument
    && n.shared.fetches[f].leader == t && !n.shared.fetches[f].done
  }

  lemma OwnWriteKeeps(s: State, n: State, t: Thread, f: nat)
    requires Inv(s) && OwnWrite(s, n, t, f) && Leads(n.At(t)) == Some(f)
    requires ThreadOk(n, t) && FetchOk(n, f)
    requires n.shared.fetches[f].outcome.Got? && n.shared.fetches[f].outcome != UNWRITTEN ==>
               (s.shared.fetches[f].outcome == n.shared.fetches[f].outcome || n.shared.fetches[f].outcome.quote.at == s.now)
    ensures Inv(n)
  {
    forall g | 0 <= g < |n.shared.fetches| ensures FetchOk(n, g) {
      assert FetchOk(s, g);
    }
    forall u: Thread ensures ThreadOk(n, u) {
      assert ThreadOk(s, u);
    }
    forall j: Id ensures InstrumentOk(n, j) {
      assert InstrumentOk(s, j);
    }
  }

  lemma AskKeeps(s: State, t: Thread, reply: Reply, wraps: bool)
    requires Inv(s) && s.At(t).Asking?
    ensures Inv(Next(s, Ask(t, reply, wraps)))
  {
    var f := s.At(t).fetch;
    assert ThreadOk(s, t);
    assert FetchOk(s, f);
    OwnWriteKeeps(s, Asked(s, t, f, s.At(t).next, reply, wraps), t, f);
  }

  lemma JudgeKeeps(s: State, t: Thread)
    requires Inv(s) && s.At(t).Judging?
    ensures Inv(Next(s, Judge(t)))
  {
    var f := s.At(t).fetch;
    assert ThreadOk(s, t);
    assert FetchOk(s, f);
    OwnWriteKeeps(s, Next(s, Judge(t)), t, f);
  }

  lemma PanicKeeps(s: State, t: Thread)
    requires Inv(s) && s.At(t).Asking?
    ensures Inv(Next(s, Panic(t)))
  {
    var f := s.At(t).fetch;
    assert ThreadOk(s, t);
    assert FetchOk(s, f);
    OwnWriteKeeps(s, Next(s, Panic(t)), t, f);
  }

  lemma PublishKeeps(s: State, t: Thread)
    requires Inv(s) && s.At(t).Publishing?
    ensures Inv(Next(s, Publish(t)))
  {
    var f, n := s.At(t).fetch, Next(s, Publish(t));
    assert ThreadOk(s, t);
    assert FetchOk(s, f);
    var i := s.shared.fetches[f].instrument;
    assert InstrumentOk(s, i);
    forall g | 0 <= g < |n.shared.fetches| ensures FetchOk(n, g) {
      assert FetchOk(s, g);
    }
    forall u: Thread ensures ThreadOk(n, u) {
      assert ThreadOk(s, u);
    }
    forall j: Id ensures InstrumentOk(n, j) {
      assert InstrumentOk(s, j);
    }
  }

  lemma CloseKeeps(s: State, t: Thread)
    requires Inv(s) && s.At(t).Closing?
    ensures Inv(Next(s, Close(t)))
  {
    var f, n := s.At(t).fetch, Next(s, Close(t));
    assert ThreadOk(s, t);
    assert FetchOk(s, f);
    forall g | 0 <= g < |n.shared.fetches| ensures FetchOk(n, g) {
      assert FetchOk(s, g);
    }
    forall u: Thread ensures ThreadOk(n, u) {
      assert ThreadOk(s, u);
    }
    forall j: Id ensures InstrumentOk(n, j) {
      assert InstrumentOk(s, j);
    }
  }

  /** Steps of a caller that leads nothing, touching nothing shared. */
  lemma AloneKeeps(s: State, n: State, t: Thread)
    requires Inv(s) && Leads(s.At(t)).None? && n == s.(threads := n.threads, cancelled := n.cancelled)
    requires n.threads == s.threads[t := n.At(t)] && Leads(n.At(t)).None? && ThreadOk(n, t)
    requires forall u: Thread | u != t :: u in s.cancelled <==> u in n.cancelled
    ensures Inv(n)
  {
    forall g | 0 <= g < |n.shared.fetches| ensures FetchOk(n, g) {
      assert FetchOk(s, g);
    }
    forall u: Thread ensures ThreadOk(n, u) {
      assert ThreadOk(s, u);
    }
    forall j: Id ensures InstrumentOk(n, j) {
      assert InstrumentOk(s, j);
    }
  }

  lemma WakeKeeps(s: State, t: Thread)
    requires Inv(s)
    ensures Inv(Next(s, Wake(t)))
  {
    var n := Next(s, Wake(t));
    if n != s {
      assert FetchOk(s, s.At(t).fetch);
      AloneKeeps(s, n, t);
    }
  }

  lemma GiveUpKeeps(s: State, t: Thread)
    requires Inv(s)
    ensures Inv(Next(s, GiveUp(t)))
  {
    var n := Next(s, GiveUp(t));
    if n != s {
      AloneKeeps(s, n, t);
    }
  }

  lemma CallKeeps(s: State, t: Thread, instrument: Id)
    requires Inv(s)
    ensures Inv(Next(s, Call(t, instrument)))
  {
    if Resting(s.At(t)) {
      AloneKeeps(s, Next(s, Call(t, instrument)), t);
    }
  }

  lemma ClockAndContextKeep(s: State, e: Event)
    requires Inv(s) && (e.Cancel? || e.Tick?)
    ensures Inv(Next(s, e))
  {
    var n := Next(s, e);
    forall g | 0 <= g < |n.shared.fetches| ensures FetchOk(n, g) {
      assert FetchOk(s, g);
    }
    forall u: Thread ensures ThreadOk(n, u) {
      assert ThreadOk(s, u);
    }
    forall j: Id ensures InstrumentOk(n, j) {
      assert InstrumentOk(s, j);
    }
  }

  lemma NextKeepsInv(s: State, e: Event)
    requires Inv(s)
    ensures Inv(Next(s, e))
  {
    match e {
      case Call(t, instrument) => CallKeeps(s, t, instrument);
      case Lock(t) =>
        if s.At(t).Entering? {
          LockKeeps(s, t, s.At(t).instrument);
        }
      case Ask(t, reply, wraps) =>
        if s.At(t).Asking? {
          AskKeeps(s, t, reply, wraps);
        }
      case Judge(t) =>
        if s.At(t).Judging? {
          JudgeKeeps(s, t);
        }
      case Panic(t) =>
        if s.At(t).Asking? {
          PanicKeeps(s, t);
        }
      case Publish(t) =>
        if s.At(t).Publishing? {
          PublishKeeps(s, t);
        }
      case Close(t) =>
        if s.At(t).Closing? {
          CloseKeeps(s, t);
        }
      case Wake(t) => WakeKeeps(s, t);
      case GiveUp(t) => GiveUpKeeps(s, t);
      case Cancel(_) => ClockAndContextKeep(s, e);
      case Tick(_) => ClockAndContextKeep(s, e);
    }
  }
}
