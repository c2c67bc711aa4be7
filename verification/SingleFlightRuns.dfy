/** What concurrent quote lookups promise over any interleaving of the machine's steps. */
module SingleFlightRuns {
  import opened Wrappers
  import opened Domain
  import opened SingleFlight

  predicate Fresh(s: State) {
    s.shared == Shared(map[], map[], []) && s.threads == map[]
  }

  ghost predicate IsRun(states: seq<State>, events: seq<Event>) {
    && |states| == |events| + 1 && Fresh(states[0])
    && forall i | 0 <= i < |events| :: states[i + 1] == Next(states[i], events[i])
  }

  lemma {:induction false} RunKeepsInv(states: seq<State>, events: seq<Event>, n: nat)
    requires IsRun(states, events) && n <= |events|
    ensures Inv(states[n])
  {
    if n > 0 {
      RunKeepsInv(states, events, n - 1);
      NextKeepsInv(states[n - 1], events[n - 1]);
    }
  }

  /** A caller between taking the lead and publishing. */
  predicate IsLeading(s: State, t: Thread, i: Id) {
    var f := Leads(s.At(t));
    f.Some? && !s.At(t).Closing? && IsFetch(s, f.value) && s.shared.fetches[f.value].instrument == i
  }

  /** In any interleaving, an instrument has at most one leader at a time. */
  lemma AtMostOneLeader(states: seq<State>, events: seq<Event>, n: nat, t: Thread, u: Thread, i: Id)
    requires IsRun(states, events) && n <= |events|
    requires IsLeading(states[n], t, i) && IsLeading(states[n], u, i)
    ensures t == u
  {
    RunKeepsInv(states, events, n);
    assert ThreadOk(states[n], t) && ThreadOk(states[n], u);
  }

  /** Where a good answer came from: a quote cached less than ten minutes before it was served, or
      the quote of the successful lookup waited for, or that of the lookup the caller led. */
  predicate ComesFrom(s: State, t: Thread, quote: Quote, source: Source) {
    match source
    case Cache(servedAt) => servedAt - quote.at < QUOTE_TTL
    case Led(f) => IsFetch(s, f) && s.shared.fetches[f].leader == t && s.shared.fetches[f].outcome == Got(quote)
    case Waited(f) => IsFetch(s, f) && Successful(s.shared.fetches[f]) && s.shared.fetches[f].outcome == Got(quote)
    case Own => false
  }

  /** Every answer without an error is a positive price in reais for the instrument asked, no newer
      than the clock, from one of those sources. */
  lemma AnswersAreGood(states: seq<State>, events: seq<Event>, n: nat, t: Thread, instrument: Id, quote: Quote, source: Source)
    requires IsRun(states, events) && n <= |events| && states[n].At(t) == Returned(instrument, Got(quote), source)
    ensures quote.instrument == instrument && quote.price > 0.0 && quote.brl && quote.at <= states[n].now
    ensures ComesFrom(states[n], t, quote, source)
  {
    RunKeepsInv(states, events, n);
    assert ThreadOk(states[n], t);
  }

  /** No waiter returns an abandoned lookup's outcome, and nobody is told of a cancellation that is
      not its own. */
  lemma CancellationStaysHome(states: seq<State>, events: seq<Event>, n: nat, t: Thread, instrument: Id, answer: Outcome, source: Source)
    requires IsRun(states, events) && n <= |events| && states[n].At(t) == Returned(instrument, answer, source)
    ensures source.Waited? ==> IsFetch(states[n], source.fetch) && !states[n].shared.fetches[source.fetch].abandoned
    ensures source.Waited? ==> answer != Failed(Cancellation)
    ensures answer == Failed(Cancellation) ==> t in states[n].cancelled
  {
    RunKeepsInv(states, events, n);
    assert ThreadOk(states[n], t);
    if source.Waited? {
      assert FetchOk(states[n], source.fetch);
    }
  }

  /** A closed lookup stays closed, and nobody starts waiting for it. */
  lemma ClosedStaysBehind(s: State, e: Event, t: Thread, f: nat)
    requires Inv(s) && IsFetch(s, f) && s.shared.fetches[f].done && s.At(t) != Waiting(f)
    ensures IsFetch(Next(s, e), f) && Next(s, e).shared.fetches[f].done && Next(s, e).At(t) != Waiting(f)
  {
    if e.Lock? && s.At(e.t).Entering? {
      assert InstrumentOk(s, s.At(e.t).instrument);
    }
  }

  /** A waiter that found its lookup abandoned and asks again never waits for that lookup again. */
  lemma {:induction false} NeverMeetsAgain(states: seq<State>, events: seq<Event>, i: nat, n: nat, t: Thread, f: nat)
    requires IsRun(states, events) && i < n <= |events|
    requires states[i].At(t) == Waiting(f) && states[i + 1].At(t).Entering?
    ensures IsFetch(states[n], f) && states[n].shared.fetches[f].done && states[n].At(t) != Waiting(f)
    decreases n
  {
    RunKeepsInv(states, events, n - 1);
    if n == i + 1 {
      assert states[n] == Next(states[i], events[i]);
      assert events[i] == Wake(t);
    } else {
      NeverMeetsAgain(states, events, i, n - 1, t, f);
      ClosedStaysBehind(states[n - 1], events[n - 1], t, f);
    }
  }

  /** After a successful lookup its entry is still in flight or a quote at least as recent is
      cached; so whoever takes the lock within ten minutes of the quote starts no other lookup. */
  lemma NeverNeither(states: seq<State>, events: seq<Event>, n: nat, f: nat, instrument: Id, quote: Quote, t: Thread)
    requires IsRun(states, events) && n <= |events| && IsFetch(states[n], f) && Successful(states[n].shared.fetches[f])
    requires states[n].shared.fetches[f].instrument == instrument && states[n].shared.fetches[f].outcome == Got(quote)
    ensures InFlight(states[n], f)
            || (instrument in states[n].shared.cached && states[n].shared.cached[instrument].at >= quote.at)
    ensures states[n].now - quote.at < QUOTE_TTL ==> !Entered(states[n].shared, t, instrument, states[n].now).1.Lead?
  {
    RunKeepsInv(states, events, n);
    assert FetchOk(states[n], f);
  }

  /** Nobody waits for a lookup that no one is left to close. */
  lemma EveryWaitHasALeader(states: seq<State>, events: seq<Event>, n: nat, t: Thread, f: nat)
    requires IsRun(states, events) && n <= |events| && states[n].At(t) == Waiting(f)
    ensures IsFetch(states[n], f)
    ensures states[n].shared.fetches[f].done || Leads(states[n].At(states[n].shared.fetches[f].leader)) == Some(f)
  {
    RunKeepsInv(states, events, n);
    assert ThreadOk(states[n], t);
    assert FetchOk(states[n], f);
  }

  // ---- a leader's asking is one call of FetchQuote ----

  /** What a step lets leader t hear. */
  function HeardAt(s: State, e: Event, t: Thread): seq<Answer> {
    if e.Ask? && e.t == t then [Met(s, t, e.reply, e.wraps)] else []
  }

  /** What leader t met between two moments of a run, in order. */
  ghost function Heard(states: seq<State>, events: seq<Event>, t: Thread, i: nat, j: nat): seq<Answer>
    requires IsRun(states, events) && j <= |events|
  {
    if j <= i then [] else Heard(states, events, t, i, j - 1) + HeardAt(states[j - 1], events[j - 1], t)
  }

  predicate AsksFor(s: State, t: Thread, f: nat) {
    s.At(t).Asking? && s.At(t).fetch == f
  }

  /** How far a leader's lookup has come is what its answers so far say. */
  predicate AskedSoFar(s: State, t: Thread, f: nat, heard: seq<Answer>) {
    && IsFetch(s, f)
    && var instrument := s.shared.fetches[f].instrument;
       var scan := Scan(instrument, heard, s.Chain(instrument));
       match s.At(t)
       case Asking(g, next) => g == f ==> next == |heard| && (scan.None? || |heard| == s.Chain(instrument) == 0)
       case Judging(g) => g == f ==> scan == Some(s.shared.fetches[f].outcome)
       case _ => true
  }

  /** A lookup keeps its instrument and its chain. */
  lemma LookupsKeepTheirNames(s: State, e: Event, f: nat)
    requires IsFetch(s, f)
    ensures IsFetch(Next(s, e), f) && Next(s, e).shared.fetches[f].instrument == s.shared.fetches[f].instrument
    ensures Next(s, e).providers == s.providers
  {
  }

  lemma LeaderHears(s: State, t: Thread, f: nat, heard: seq<Answer>, reply: Reply, wraps: bool)
    requires AsksFor(s, t, f) && AskedSoFar(s, t, f, heard)
    ensures AskedSoFar(Next(s, Ask(t, reply, wraps)), t, f, heard + [Met(s, t, reply, wraps)])
  {
    var instrument := s.shared.fetches[f].instrument;
    LookupsKeepTheirNames(s, Ask(t, reply, wraps), f);
    ScanPush(instrument, heard, Met(s, t, reply, wraps), s.Chain(instrument));
  }

  lemma NothingHeard(s: State, e: Event, t: Thread, f: nat, heard: seq<Answer>)
    requires AsksFor(s, t, f) && AskedSoFar(s, t, f, heard) && !(e.Ask? && e.t == t)
    ensures AskedSoFar(Next(s, e), t, f, heard)
  {
    LookupsKeepTheirNames(s, e, f);
  }

  /** One step of anybody moves a lookup on by its leader's answers only. */
  lemma StepHears(s: State, e: Event, t: Thread, f: nat, heard: seq<Answer>)
    requires AsksFor(s, t, f) && AskedSoFar(s, t, f, heard)
    ensures AskedSoFar(Next(s, e), t, f, heard + HeardAt(s, e, t))
  {
    if e.Ask? && e.t == t {
      LeaderHears(s, t, f, heard, e.reply, e.wraps);
    } else {
      NothingHeard(s, e, t, f, heard);
      assert heard + HeardAt(s, e, t) == heard;
    }
  }

  /** Whatever the others do meanwhile, a lookup stands where its leader's answers put it. */
  lemma {:induction false} AskingHears(states: seq<State>, events: seq<Event>, t: Thread, f: nat, i: nat, j: nat)
    requires IsRun(states, events) && i <= j <= |events| && states[i].At(t) == Asking(f, 0)
    requires forall k | i <= k < j :: AsksFor(states[k], t, f)
    ensures AskedSoFar(states[j], t, f, Heard(states, events, t, i, j))
    decreases j
  {
    if i == j {
      RunKeepsInv(states, events, i);
      assert ThreadOk(states[i], t);
    } else {
      AskingHears(states, events, t, f, i, j - 1);
      assert AsksFor(states[j - 1], t, f);
      StepHears(states[j - 1], events[j - 1], t, f, Heard(states, events, t, i, j - 1));
    }
  }

  /** In any interleaving, the outcome a leader judges is the one FetchQuote returns for the answers
      it met, whatever the providers not asked would have said. */
  lemma LeaderRunsFetchQuote(states: seq<State>, events: seq<Event>, t: Thread, f: nat, i: nat, j: nat, answers: seq<Answer>)
    requires IsRun(states, events) && i < j <= |events| && states[i].At(t) == Asking(f, 0)
    requires forall k | i <= k < j :: AsksFor(states[k], t, f)
    requires states[j].At(t) == Judging(f)
    requires IsFetch(states[j], f) && |answers| == states[j].Chain(states[j].shared.fetches[f].instrument)
    requires |answers| == 0 || Heard(states, events, t, i, j) <= answers
    ensures Scan(states[j].shared.fetches[f].instrument, answers, |answers|) == Some(states[j].shared.fetches[f].outcome)
  {
    AskingHears(states, events, t, f, i, j);
    var instrument, heard := states[j].shared.fetches[f].instrument, Heard(states, events, t, i, j);
    if |answers| == 0 {
      DecisionStands(instrument, heard, 0, 0);
    } else {
      assert answers[..|heard|] == heard;
      DecisionStands(instrument, answers, |heard|, |answers|);
    }
  }

  // ---- what becomes of a lookup once its leader has judged it ----

  /** A lookup its leader is done asking about. */
  predicate Decided(s: State, f: nat) {
    IsFetch(s, f) && var pc := s.At(s.shared.fetches[f].leader); !(pc.Asking? && pc.fetch == f) && pc != Judging(f)
  }

  lemma OthersLeaveIt(s: State, e: Event, f: nat)
    requires Inv(s) && Decided(s, f) && !e.Ask? && !e.Judge? && !e.Close?
    ensures Decided(Next(s, e), f) && Next(s, e).shared.fetches[f] == s.shared.fetches[f]
  {
  }

  lemma LeadersLeaveIt(s: State, e: Event, f: nat)
    requires Inv(s) && Decided(s, f) && (e.Ask? || e.Judge? || e.Close?)
    ensures Decided(Next(s, e), f)
    ensures Next(s, e).shared.fetches[f] == s.shared.fetches[f].(done := Next(s, e).shared.fetches[f].done)
  {
    if Leads(s.At(e.t)).Some? {
      assert ThreadOk(s, e.t);
    }
  }

  /** Nobody writes to a decided lookup again. */
  lemma DecidedStays(s: State, e: Event, f: nat)
    requires Inv(s) && Decided(s, f)
    ensures var n := Next(s, e);
            && Decided(n, f)
            && n.shared.fetches[f] == s.shared.fetches[f].(done := n.shared.fetches[f].done)
  {
    if e.Ask? || e.Judge? || e.Close? {
      LeadersLeaveIt(s, e, f);
    } else {
      OthersLeaveIt(s, e, f);
    }
  }

  lemma {:induction false} DecidedOverRuns(states: seq<State>, events: seq<Event>, i: nat, n: nat, f: nat)
    requires IsRun(states, events) && i <= n <= |events| && Decided(states[i], f)
    ensures Decided(states[n], f)
    ensures states[n].shared.fetches[f] == states[i].shared.fetches[f].(done := states[n].shared.fetches[f].done)
    decreases n
  {
    if i < n {
      DecidedOverRuns(states, events, i, n - 1, f);
      RunKeepsInv(states, events, n - 1);
      DecidedStays(states[n - 1], events[n - 1], f);
    }
  }

  /** In any interleaving, once its leader has judged it, a lookup is abandoned if and only if the
      leader was found cancelled and the outcome is that cancellation or a failure wrapping it. */
  lemma AbandonedExactly(states: seq<State>, events: seq<Event>, i: nat, n: nat, t: Thread, f: nat)
    requires IsRun(states, events) && i < n <= |events| && states[i].At(t) == Judging(f) && events[i] == Judge(t)
    ensures IsFetch(states[i], f) && Decided(states[n], f)
    ensures states[n].shared.fetches[f].outcome == states[i].shared.fetches[f].outcome
    ensures states[n].shared.fetches[f].instrument == states[i].shared.fetches[f].instrument
    ensures states[n].shared.fetches[f].abandoned <==>
            && t in states[i].cancelled
            && (states[i].shared.fetches[f].outcome == Failed(Cancellation)
                || states[i].shared.fetches[f].outcome == Failed(ChainFailed(true)))
  {
    RunKeepsInv(states, events, i);
    assert ThreadOk(states[i], t);
    assert states[i + 1] == Next(states[i], events[i]);
    DecidedOverRuns(states, events, i + 1, n, f);
  }

  /** A good quote is published even if its leader's context is gone by then: the section that takes
      the lookup out of the in-flight table leaves exactly that quote cached. */
  lemma GoodQuoteIsCached(states: seq<State>, events: seq<Event>, i: nat, j: nat, t: Thread, f: nat, quote: Quote)
    requires IsRun(states, events) && i < j < |events| && states[i].At(t) == Judging(f) && events[i] == Judge(t)
    requires IsFetch(states[i], f) && states[i].shared.fetches[f].outcome == Got(quote)
    requires states[j].At(t) == Publishing(f, false) && events[j] == Publish(t)
    ensures quote.instrument == states[i].shared.fetches[f].instrument
    ensures states[j + 1].shared.cached == states[j].shared.cached[quote.instrument := quote]
    ensures states[j + 1].shared.inflight == states[j].shared.inflight - {quote.instrument}
  {
    AbandonedExactly(states, events, i, j, t, f);
    RunKeepsInv(states, events, i);
    assert ThreadOk(states[i], t) && FetchOk(states[i], f);
    assert states[j + 1] == Next(states[j], events[j]);
  }

  /** A failure leaves the cache as it was. */
  lemma FailuresAreNotCached(states: seq<State>, events: seq<Event>, i: nat, j: nat, t: Thread, f: nat)
    requires IsRun(states, events) && i < j < |events| && states[i].At(t) == Judging(f) && events[i] == Judge(t)
    requires IsFetch(states[i], f) && states[i].shared.fetches[f].outcome.Failed?
    requires states[j].At(t) == Publishing(f, false) && events[j] == Publish(t)
    ensures states[j + 1].shared.cached == states[j].shared.cached
  {
    AbandonedExactly(states, events, i, j, t, f);
    assert states[j + 1] == Next(states[j], events[j]);
  }

  /** A waiter woken on a judged lookup answers its outcome, unless the outcome was the leader's own
      cancellation: then it asks again, or reports its own. */
  lemma WaiterAnswers(states: seq<State>, events: seq<Event>, i: nat, k: nat, t: Thread, u: Thread, f: nat)
    requires IsRun(states, events) && i < k < |events| && states[i].At(t) == Judging(f) && events[i] == Judge(t)
    requires states[k].At(u) == Waiting(f) && events[k] == Wake(u)
    requires IsFetch(states[i], f) && IsFetch(states[k], f) && states[k].shared.fetches[f].done
    ensures var x := states[i].shared.fetches[f];
            states[k + 1].At(u)
            == if t !in states[i].cancelled || (x.outcome != Failed(Cancellation) && x.outcome != Failed(ChainFailed(true)))
               then Returned(x.instrument, x.outcome, Waited(f))
               else if u in states[k].cancelled then Returned(x.instrument, Failed(Cancellation), Own)
               else Entering(x.instrument)
  {
    AbandonedExactly(states, events, i, k, t, f);
    assert states[k + 1] == Next(states[k], events[k]);
  }

  /** In particular a good quote reaches every waiter, whatever became of its leader's context. */
  lemma GoodQuoteReachesWaiters(states: seq<State>, events: seq<Event>, i: nat, k: nat, t: Thread, u: Thread, f: nat, quote: Quote)
    requires IsRun(states, events) && i < k < |events| && states[i].At(t) == Judging(f) && events[i] == Judge(t)
    requires IsFetch(states[i], f) && states[i].shared.fetches[f].outcome == Got(quote)
    requires states[k].At(u) == Waiting(f) && events[k] == Wake(u)
    requires IsFetch(states[k], f) && states[k].shared.fetches[f].done
    ensures !states[k].shared.fetches[f].abandoned
    ensures states[k + 1].At(u) == Returned(states[i].shared.fetches[f].instrument, Got(quote), Waited(f))
  {
    AbandonedExactly(states, events, i, k, t, f);
    WaiterAnswers(states, events, i, k, t, u, f);
  }

  /** A leader that panics leaves its waiters asking again, never a zero quote. */
  lemma PanicSendsWaitersBack(states: seq<State>, events: seq<Event>, i: nat, k: nat, t: Thread, u: Thread, f: nat)
    requires IsRun(states, events) && i < k < |events| && AsksFor(states[i], t, f) && events[i] == Panic(t)
    requires states[k].At(u) == Waiting(f) && events[k] == Wake(u)
    requires IsFetch(states[k], f) && states[k].shared.fetches[f].done
    ensures IsFetch(states[i], f)
    ensures states[k + 1].At(u)
            == if u in states[k].cancelled then Returned(states[i].shared.fetches[f].instrument, Failed(Cancellation), Own)
               else Entering(states[i].shared.fetches[f].instrument)
  {
    RunKeepsInv(states, events, i);
    assert ThreadOk(states[i], t);
    assert states[i + 1] == Next(states[i], events[i]);
    DecidedOverRuns(states, events, i + 1, k, f);
    assert states[k + 1] == Next(states[k], events[k]);
  }

  // ---- the answer is to the question ----

  /** The instrument a caller is after. */
  function Wanted(s: State, t: Thread): Option<Id> {
    match s.At(t)
    case Entering(instrument) => Some(instrument)
    case Returned(instrument, _, _) => Some(instrument)
    case Waiting(f) => if IsFetch(s, f) then Some(s.shared.fetches[f].instrument) else None
    case _ => var f := Leads(s.At(t)); if f.Some? && IsFetch(s, f.value) then Some(s.shared.fetches[f.value].instrument) else None
  }

  lemma StepKeepsWanted(s: State, e: Event, t: Thread)
    requires Inv(s) && !(e.Call? && e.t == t)
    ensures Next(s, e).At(t).Crashed? || Wanted(Next(s, e), t) == Wanted(s, t)
  {
    assert ThreadOk(s, t);
    if e.Lock? && e.t == t && s.At(t).Entering? {
      assert InstrumentOk(s, s.At(t).instrument);
    } else {
      var f := if s.At(t).Waiting? then Some(s.At(t).fetch) else Leads(s.At(t));
      if f.Some? {
        LookupsKeepTheirNames(s, e, f.value);
      }
    }
  }

  lemma {:induction false} WantedOverRuns(states: seq<State>, events: seq<Event>, i: nat, n: nat, t: Thread)
    requires IsRun(states, events) && i <= n <= |events| && Wanted(states[i], t).Some?
    requires forall k | i <= k < n :: !(events[k].Call? && events[k].t == t)
    ensures states[n].At(t).Crashed? || Wanted(states[n], t) == Wanted(states[i], t)
    decreases n
  {
    if i < n {
      WantedOverRuns(states, events, i, n - 1, t);
      RunKeepsInv(states, events, n - 1);
      StepKeepsWanted(states[n - 1], events[n - 1], t);
    }
  }

  /** Whatever a caller joined, led or retried meanwhile, its answer is about the instrument it
      asked for. */
  lemma AnswersTheQuestion(states: seq<State>, events: seq<Event>, i: nat, n: nat, t: Thread, asked: Id,
                           instrument: Id, answer: Outcome, source: Source)
    requires IsRun(states, events) && i < n <= |events| && Resting(states[i].At(t)) && events[i] == Call(t, asked)
    requires forall k | i < k < n :: !(events[k].Call? && events[k].t == t)
    requires states[n].At(t) == Returned(instrument, answer, source)
    ensures instrument == asked
  {
    assert states[i + 1] == Next(states[i], events[i]);
    WantedOverRuns(states, events, i + 1, n, t);
  }

  /** Under the lock a caller is served a quote cached less than ten minutes ago, or else waits for
      the instrument's lookup in flight, or else leads a new one that is then the one in flight. */
  lemma EntersExactly(states: seq<State>, events: seq<Event>, i: nat, t: Thread, instrument: Id)
    requires IsRun(states, events) && i < |events| && states[i].At(t) == Entering(instrument) && events[i] == Lock(t)
    ensures var s, n := states[i], states[i + 1];
            if instrument in s.shared.cached && s.now - s.shared.cached[instrument].at < 600 then
              n.At(t) == Returned(instrument, Got(s.shared.cached[instrument]), Cache(s.now)) && n.shared == s.shared
            else if instrument in s.shared.inflight then
              n.At(t) == Waiting(s.shared.inflight[instrument]) && n.shared == s.shared
              && IsFetch(s, s.shared.inflight[instrument]) && s.shared.fetches[s.shared.inflight[instrument]].instrument == instrument
            else
              && n.At(t) == Asking(|s.shared.fetches|, 0) && n.shared.cached == s.shared.cached
              && n.shared.inflight == s.shared.inflight[instrument := |s.shared.fetches|]
              && |n.shared.fetches| == |s.shared.fetches| + 1
              && n.shared.fetches[|s.shared.fetches|].instrument == instrument && n.shared.fetches[|s.shared.fetches|].leader == t
              && n.shared.fetches[|s.shared.fetches|].abandoned && !n.shared.fetches[|s.shared.fetches|].done
  {
    RunKeepsInv(states, events, i);
    assert states[i + 1] == Next(states[i], events[i]);
    assert InstrumentOk(states[i], instrument);
  }

  /** A leader that closes its lookup answers its outcome, unless it panicked; and the lookup is done. */
  lemma LeaderAnswers(states: seq<State>, events: seq<Event>, i: nat, t: Thread, f: nat, panicked: bool)
    requires IsRun(states, events) && i < |events| && states[i].At(t) == Closing(f, panicked) && events[i] == Close(t)
    ensures IsFetch(states[i], f) && IsFetch(states[i + 1], f) && states[i + 1].shared.fetches[f].done
    ensures var x := states[i].shared.fetches[f];
            states[i + 1].At(t) == if panicked then Crashed else Returned(x.instrument, x.outcome, Led(f))
  {
    RunKeepsInv(states, events, i);
    assert ThreadOk(states[i], t);
    assert states[i + 1] == Next(states[i], events[i]);
  }

  /** A waiter whose own context is gone may leave with its own cancellation, lookup done or not. */
  lemma CancelledWaiterLeaves(states: seq<State>, events: seq<Event>, i: nat, t: Thread, f: nat)
    requires IsRun(states, events) && i < |events| && states[i].At(t) == Waiting(f) && events[i] == GiveUp(t)
    ensures IsFetch(states[i], f)
    ensures states[i + 1].At(t)
            == if t in states[i].cancelled then Returned(states[i].shared.fetches[f].instrument, Failed(Cancellation), Own)
               else Waiting(f)
  {
    RunKeepsInv(states, events, i);
    assert ThreadOk(states[i], t);
    assert states[i + 1] == Next(states[i], events[i]);
  }
}
