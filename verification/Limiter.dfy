/** The spacing of requests to one provider (internal/marketdata/limiter.go). Time is in
    nanoseconds; durations are 64-bit, so a product with the second can wrap around. */
module Limiter {
  import opened Wrappers
  import opened Domain

  type Thread = nat
  type Duration = int

  const SECOND := 1_000_000_000
  const MAX_INT64 := 0x7fff_ffff_ffff_ffff
  const TWO_64 := 0x1_0000_0000_0000_0000
  const MAX_INLINE_WAIT := 30 * SECOND
  const DEFAULT_PENALTY := 60 * SECOND

  // ---- reading what a response says ----

  predicate IsInt64(x: int) {
    -MAX_INT64 - 1 <= x <= MAX_INT64
  }

  /** 64-bit two's complement. */
  function Wrap(x: int): (r: int)
    ensures IsInt64(r) && (IsInt64(x) <==> r == x)
  {
    (x + MAX_INT64 + 1) % TWO_64 - MAX_INT64 - 1
  }

  /** The distance between two instants, cut at the longest duration there is. */
  function Until(at: Instant, now: Instant): (d: Duration)
    ensures IsInt64(d) && (IsInt64(at - now) ==> d == at - now)
  {
    if at - now > MAX_INT64 then MAX_INT64 else if at - now < -MAX_INT64 - 1 then -MAX_INT64 - 1 else at - now
  }

  datatype HeaderValue = Absent | Number(n: int) | HttpDate(at: Instant) | Unreadable

  function Readable(value: HeaderValue): Option<int> {
    if value.Number? && IsInt64(value.n) then Some(value.n) else None
  }

  /** The first of some spellings of a header that reads as a number. */
  function HeaderInt(values: seq<HeaderValue>): Option<int> {
    if values == [] then None
    else if Readable(values[0]).Some? then Readable(values[0])
    else HeaderInt(values[1..])
  }

  /** Retry-After (section 10.2.3 of RFC 9110): delta-seconds or a date; zero when it says nothing. */
  function ParseRetryAfter(value: HeaderValue, now: Instant): (d: Duration)
    ensures IsInt64(d)
  {
    match value
    case Number(n) => if !IsInt64(n) || n < 0 then 0 else Wrap(n * SECOND)
    case HttpDate(at) => if Until(at, now) > 0 then Until(at, now) else 0
    case _ => 0
  }

  /** A reset header: delta-seconds, or an epoch second past a thousand million. */
  function ResetToDuration(reset: int, now: Instant): Duration {
    if reset > 1_000_000_000 then
      if Until(reset * SECOND, now) > 0 then Until(reset * SECOND, now) else 0
    else if reset <= 0 then SECOND
    else Wrap(reset * SECOND)
  }

  const TOO_MANY_REQUESTS := 429

  datatype Response = Response(status: int, retryAfter: HeaderValue, remaining: seq<HeaderValue>, reset: seq<HeaderValue>)

  /** How long a response asks its provider to be left alone. */
  function Penalty(r: Response, now: Instant): Duration {
    if r.status == TOO_MANY_REQUESTS then ParseRetryAfter(r.retryAfter, now)
    else
      match HeaderInt(r.remaining)
      case None => 0
      case Some(remaining) =>
        if remaining > 0 then 0
        else match HeaderInt(r.reset) case None => DEFAULT_PENALTY case Some(reset) => ResetToDuration(reset, now)
  }

  /** A Retry-After in seconds is honoured to the second if and only if it does not overflow the
      64-bit duration. */
  lemma RetryAfterExactly(n: int, now: Instant)
    requires 0 <= n && IsInt64(n)
    ensures ParseRetryAfter(Number(n), now) == n * SECOND <==> n <= 9_223_372_036
  {
  }

  /** The first Retry-After past that bound reads as no pause at all. */
  lemma LongRetryAfterIsLost(now: Instant)
    ensures ParseRetryAfter(Number(9_223_372_037), now) < 0
  {
    assert Wrap(9_223_372_037 * SECOND) == 9_223_372_037 * SECOND - TWO_64;
  }

  /** A header says the number of its first spelling that reads as one. */
  lemma {:induction false} FirstReadableCounts(values: seq<HeaderValue>, k: nat)
    requires k < |values| && values[k].Number? && IsInt64(values[k].n)
    requires forall i | 0 <= i < k :: !(values[i].Number? && IsInt64(values[i].n))
    ensures HeaderInt(values) == Some(values[k].n)
  {
    if k > 0 {
      FirstReadableCounts(values[1..], k - 1);
    }
  }

  lemma {:induction false} NoneReadable(values: seq<HeaderValue>)
    requires forall v | v in values :: !(v.Number? && IsInt64(v.n))
    ensures HeaderInt(values) == None
  {
    if values != [] {
      NoneReadable(values[1..]);
    }
  }

  /** Too many requests: as long as Retry-After says, by seconds or by a date still to come; a header
      that is missing, unreadable or past asks for nothing. */
  lemma PenaltyOfTooMany(r: Response, now: Instant)
    requires r.status == 429
    ensures match r.retryAfter
            case Number(n) => if 0 <= n <= 9_223_372_036 then Penalty(r, now) == n * 1_000_000_000
                              else n < 0 ==> Penalty(r, now) == 0
            case HttpDate(at) => if at <= now then Penalty(r, now) == 0
                                 else Penalty(r, now) == if at - now <= MAX_INT64 then at - now else MAX_INT64
            case _ => Penalty(r, now) == 0
  {
  }

  /** Any other answer asks for nothing while requests remain or it does not say how many; once none
      remain, until the reset it names: within so many seconds up to a thousand million, at that
      second of the clock beyond, in one second if the reset is not ahead, in a minute if unnamed. */
  lemma PenaltyOfSpentBudget(r: Response, now: Instant)
    requires r.status != 429
    ensures HeaderInt(r.remaining).None? || HeaderInt(r.remaining).value > 0 ==> Penalty(r, now) == 0
    ensures HeaderInt(r.remaining).Some? && HeaderInt(r.remaining).value <= 0 ==>
              match HeaderInt(r.reset)
              case None => Penalty(r, now) == 60 * 1_000_000_000
              case Some(reset) =>
                if reset <= 0 then Penalty(r, now) == 1_000_000_000
                else if reset <= 1_000_000_000 then Penalty(r, now) == reset * 1_000_000_000
                else
                  var at := reset * 1_000_000_000;
                  if at <= now then Penalty(r, now) == 0
                  else Penalty(r, now) == if at - now <= MAX_INT64 then at - now else MAX_INT64
  {
  }

  // ---- the gate ----

  datatype Verdict = Granted | TooLong(retryAfter: Duration) | Sleep(wait: Duration)

  datatype Gate = Gate(next: Instant, pausedUntil: Instant) {
    function Ready(): Instant {
      if pausedUntil > next then pausedUntil else next
    }

    function Try(now: Instant, minInterval: Duration): (Gate, Verdict) {
      if Ready() <= now then (this.(next := now + minInterval), Granted)
      else if Ready() - now > MAX_INLINE_WAIT then (this, TooLong(Ready() - now))
      else (this, Sleep(Ready() - now))
    }

    function Pause(d: Duration, now: Instant): Gate {
      if d <= 0 || now + d <= pausedUntil then this else this.(pausedUntil := now + d)
    }
  }

  /** The limiter's own mutable fields; each method is one critical section. */
  class Limiter {
    const minInterval: Duration
    const concurrency: nat
    var next: Instant
    var pausedUntil: Instant
    var slots: nat

    function View(): Gate
      reads this
    {
      Gate(next, pausedUntil)
    }

    constructor (minInterval: Duration, concurrency: nat)
      ensures this.minInterval == minInterval && this.concurrency == concurrency
      ensures View() == Gate(0, 0) && slots == 0
    {
      this.minInterval, this.concurrency := minInterval, concurrency;
      next, pausedUntil, slots := 0, 0, 0;
    }

    method Try(now: Instant) returns (verdict: Verdict)
      modifies this`next
      ensures (View(), verdict) == old(View()).Try(now, minInterval)
    {
      var ready := next;
      if pausedUntil > ready {
        ready := pausedUntil;
      }
      if !(ready > now) {
        next := now + minInterval;
        return Granted;
      }
      var wait := ready - now;
      if wait > MAX_INLINE_WAIT {
        return TooLong(wait);
      }
      return Sleep(wait);
    }

    method TakeSlot() returns (taken: bool)
      modifies this`slots
      ensures taken == (old(slots) < concurrency)
      ensures slots == if taken then old(slots) + 1 else old(slots)
    {
      taken := slots < concurrency;
      if taken {
        slots := slots + 1;
      }
    }

    method Release()
      requires slots > 0
      modifies this`slots
      ensures slots == old(slots) - 1
    {
      slots := slots - 1;
    }

    method Pause(d: Duration, now: Instant)
      modifies this`pausedUntil
      ensures View() == old(View()).Pause(d, now)
    {
      if d <= 0 {
        return;
      }
      var resume := now + d;
      if resume > pausedUntil {
        pausedUntil := resume;
      }
    }

    /** The clock is read once for the headers and once more for the pause. */
    method Observe(r: Response, now: Instant, later: Instant)
      modifies this`pausedUntil
      ensures View() == old(View()).Pause(Penalty(r, now), later)
    {
      if r.status == TOO_MANY_REQUESTS {
        var d := ParseRetryAfter(r.retryAfter, now);
        if d > 0 {
          Pause(d, later);
        }
        return;
      }
      var remaining := HeaderInt(r.remaining);
      if remaining.Some? && remaining.value <= 0 {
        var reset := HeaderInt(r.reset);
        if reset.Some? {
          Pause(ResetToDuration(reset.value, now), later);
        } else {
          Pause(DEFAULT_PENALTY, later);
        }
      }
    }
  }

  // ---- the machine ----

  /** Where a caller stands: outside, waiting its turn, past the gate, or holding a slot. */
  datatype Pc = Outside | Trying | Passed | Holding

  function HoldersOf(threads: map<Thread, Pc>): set<Thread> {
    set t | t in threads && threads[t].Holding?
  }

  datatype State = State(
    minInterval: Duration, concurrency: nat, gate: Gate, slots: nat, threads: map<Thread, Pc>, grants: seq<Instant>)
  {
    function At(t: Thread): Pc {
      if t in threads then threads[t] else Outside
    }

    function Move(t: Thread, pc: Pc): State {
      this.(threads := threads[t := pc])
    }

    function Holders(): set<Thread> {
      HoldersOf(threads)
    }
  }

  /** Each event carries what its caller read off the clock, in the order it was read. */
  datatype Event =
    | Arrive(t: Thread)
    | Attempt(t: Thread, now: Instant)
    | Leave(t: Thread)
    | Take(t: Thread)
    | Release(t: Thread)
    | Pauses(d: Duration, now: Instant)
    | Observes(response: Response, now: Instant, later: Instant)

  function Next(s: State, e: Event): State {
    match e
    case Arrive(t) => if s.At(t).Outside? then s.Move(t, Trying) else s
    case Attempt(t, now) =>
      if !s.At(t).Trying? then s
      else
        var (gate, verdict) := s.gate.Try(now, s.minInterval);
        (match verdict
         case Granted => s.(gate := gate, grants := s.grants + [now]).Move(t, Passed)
         case TooLong(_) => s.Move(t, Outside)
         case Sleep(_) => s)
    case Leave(t) => if s.At(t).Trying? || s.At(t).Passed? then s.Move(t, Outside) else s
    case Take(t) =>
      if s.At(t).Passed? && s.slots < s.concurrency then s.(slots := s.slots + 1).Move(t, Holding) else s
    case Release(t) => if s.At(t).Holding? && s.slots > 0 then s.(slots := s.slots - 1).Move(t, Outside) else s
    case Pauses(d, now) => s.(gate := s.gate.Pause(d, now))
    case Observes(response, now, later) => s.(gate := s.gate.Pause(Penalty(response, now), later))
  }

  // ---- the invariant ----

  predicate Spaced(grants: seq<Instant>, minInterval: Duration) {
    forall i | 0 < i < |grants| :: grants[i] - grants[i - 1] >= minInterval
  }

  predicate Inv(s: State) {
    && Spaced(s.grants, s.minInterval)
    && (s.grants != [] ==> s.gate.next == s.grants[|s.grants| - 1] + s.minInterval)
    && |s.Holders()| == s.slots <= s.concurrency
  }

  function Weight(pc: Pc): nat {
    if pc.Holding? then 1 else 0
  }

  /** One caller's move changes the number of holders by its own part. */
  lemma HoldersAfter(s: State, t: Thread, pc: Pc)
    ensures |s.Move(t, pc).Holders()| == |s.Holders()| - Weight(s.At(t)) + Weight(pc)
  {
    var before, after := s.Holders(), s.Move(t, pc).Holders();
    if pc.Holding? {
      assert after == before + {t};
    } else {
      assert after == before - {t};
    }
  }

  /** What no step undoes. */
  predicate Onward(s: State, n: State) {
    n.gate.pausedUntil >= s.gate.pausedUntil && n.minInterval == s.minInterval && n.concurrency == s.concurrency
  }

  lemma AttemptKeeps(s: State, t: Thread, now: Instant)
    requires Inv(s) && s.At(t).Trying?
    ensures Inv(Next(s, Attempt(t, now))) && Onward(s, Next(s, Attempt(t, now)))
  {
    HoldersAfter(s, t, Passed);
    HoldersAfter(s, t, Outside);
  }

  lemma SlotsKeep(s: State, e: Event)
    requires Inv(s) && (e.Arrive? || e.Leave? || e.Take? || e.Release?)
    ensures Inv(Next(s, e)) && Onward(s, Next(s, e))
  {
    HoldersAfter(s, e.t, if e.Arrive? then Trying else if e.Take? then Holding else Outside);
  }

  lemma NextKeepsInv(s: State, e: Event)
    requires Inv(s)
    ensures Inv(Next(s, e)) && Onward(s, Next(s, e))
  {
    match e {
      case Attempt(t, now) =>
        if s.At(t).Trying? {
          AttemptKeeps(s, t, now);
        }
      case Pauses(d, now) =>
      case Observes(response, now, later) =>
      case Arrive(_) => SlotsKeep(s, e);
      case Leave(_) => SlotsKeep(s, e);
      case Take(_) => SlotsKeep(s, e);
      case Release(_) => SlotsKeep(s, e);
    }
  }

  /** Where each step leaves its caller: through the gate exactly when it is due, away when the wait
      is more than thirty seconds, holding a slot exactly when fewer hold one than may. */
  lemma CallersMoveOn(s: State, t: Thread, now: Instant)
    requires Inv(s)
    ensures s.At(t).Outside? ==> Next(s, Arrive(t)).At(t).Trying?
    ensures s.At(t).Trying? ==>
              var due := if s.gate.pausedUntil > s.gate.next then s.gate.pausedUntil else s.gate.next;
              Next(s, Attempt(t, now)).At(t)
              == if due <= now then Passed else if due - now > 30 * 1_000_000_000 then Outside else Trying
    ensures s.At(t).Passed? ==> Next(s, Take(t)).At(t) == if |s.Holders()| < s.concurrency then Holding else Passed
    ensures s.At(t).Holding? ==> Next(s, Release(t)).At(t).Outside? && |Next(s, Release(t)).Holders()| == |s.Holders()| - 1
    ensures s.At(t).Trying? || s.At(t).Passed? ==> Next(s, Leave(t)).At(t).Outside?
  {
    if s.At(t).Holding? {
      assert t in s.Holders();
      HoldersAfter(s, t, Outside);
    }
  }

  predicate Fresh(s: State) {
    s.gate == Gate(0, 0) && s.slots == 0 && s.threads == map[] && s.grants == []
  }

  ghost predicate IsRun(states: seq<State>, events: seq<Event>) {
    && |states| == |events| + 1 && Fresh(states[0])
    && forall i | 0 <= i < |events| :: states[i + 1] == Next(states[i], events[i])
  }

  lemma {:induction false} RunKeepsInv(states: seq<State>, events: seq<Event>, n: nat)
    requires IsRun(states, events) && n <= |events|
    ensures Inv(states[n])
    ensures states[n].minInterval == states[0].minInterval && states[n].concurrency == states[0].concurrency
  {
    if n > 0 {
      RunKeepsInv(states, events, n - 1);
      NextKeepsInv(states[n - 1], events[n - 1]);
    }
  }

  lemma {:induction false} SpacingAddsUp(grants: seq<Instant>, minInterval: Duration, i: nat, j: nat)
    requires Spaced(grants, minInterval) && i <= j < |grants|
    ensures grants[j] - grants[i] >= (j - i) * minInterval
    decreases j
  {
    if i < j {
      SpacingAddsUp(grants, minInterval, i, j - 1);
      assert (j - i) * minInterval == (j - 1 - i) * minInterval + minInterval;
    }
  }

  /** Over any interleaving, any n consecutive grants span at least n - 1 intervals. */
  lemma GrantsAreSpaced(states: seq<State>, events: seq<Event>, n: nat, i: nat, j: nat)
    requires IsRun(states, events) && n <= |events| && i <= j < |states[n].grants|
    ensures states[n].grants[j] - states[n].grants[i] >= (j - i) * states[0].minInterval
  {
    RunKeepsInv(states, events, n);
    SpacingAddsUp(states[n].grants, states[n].minInterval, i, j);
  }

  /** Over any interleaving, no more callers hold a slot than the provider's concurrency. */
  lemma NeverTooManyHolders(states: seq<State>, events: seq<Event>, n: nat)
    requires IsRun(states, events) && n <= |events|
    ensures |states[n].Holders()| <= states[0].concurrency
  {
    RunKeepsInv(states, events, n);
  }

  /** The pause only moves forward. */
  lemma {:induction false} PausesNeverShrink(states: seq<State>, events: seq<Event>, i: nat, n: nat)
    requires IsRun(states, events) && i <= n <= |events|
    ensures states[n].gate.pausedUntil >= states[i].gate.pausedUntil
    decreases n
  {
    if i < n {
      PausesNeverShrink(states, events, i, n - 1);
      RunKeepsInv(states, events, n - 1);
      NextKeepsInv(states[n - 1], events[n - 1]);
    }
  }

  /** The pause an event asks for: until when. */
  function AskedUntil(e: Event): Option<Instant> {
    match e
    case Pauses(d, now) => if d > 0 then Some(now + d) else None
    case Observes(response, now, later) => if Penalty(response, now) > 0 then Some(later + Penalty(response, now)) else None
    case _ => None
  }

  /** A pause asked for among the first n events, as the latest of them. */
  ghost predicate LatestAsked(events: seq<Event>, n: nat, until: Instant)
    requires n <= |events|
  {
    && (forall i | 0 <= i < n && AskedUntil(events[i]).Some? :: AskedUntil(events[i]).value <= until)
    && (until == 0 || exists i | 0 <= i < n :: AskedUntil(events[i]) == Some(until))
  }

  /** Over any run, the pause ends exactly when the latest of the pauses asked for does. */
  lemma {:induction false} PausedUntilLatestAsked(states: seq<State>, events: seq<Event>, n: nat)
    requires IsRun(states, events) && n <= |events|
    ensures LatestAsked(events, n, states[n].gate.pausedUntil)
  {
    if n > 0 {
      PausedUntilLatestAsked(states, events, n - 1);
      assert states[n] == Next(states[n - 1], events[n - 1]);
    }
  }

  predicate Grants(s: State, e: Event) {
    e.Attempt? && s.At(e.t).Trying? && s.gate.Try(e.now, s.minInterval).1.Granted?
  }

  /** Once a pause has been asked for, no later attempt is granted at a time before its end. */
  lemma NoGrantDuringPause(states: seq<State>, events: seq<Event>, i: nat, j: nat)
    requires IsRun(states, events) && i < j < |events|
    requires AskedUntil(events[i]).Some? && Grants(states[j], events[j])
    ensures events[j].now >= AskedUntil(events[i]).value
    ensures states[j + 1].grants == states[j].grants + [events[j].now]
  {
    PausesNeverShrink(states, events, i + 1, j);
    assert states[i + 1] == Next(states[i], events[i]);
    assert states[j + 1] == Next(states[j], events[j]);
  }

  /** A provider that answers too many requests with a date is left alone until that date, although
      the clock has moved on between reading the header and starting the pause. */
  lemma NoGrantBeforeDate(states: seq<State>, events: seq<Event>, i: nat, j: nat, at: Instant)
    requires IsRun(states, events) && i < j < |events|
    requires events[i].Observes? && events[i].now <= events[i].later
    requires events[i].response.status == TOO_MANY_REQUESTS && events[i].response.retryAfter == HttpDate(at)
    requires 0 < at - events[i].now <= MAX_INT64
    requires Grants(states[j], events[j])
    ensures events[j].now >= at
  {
    NoGrantDuringPause(states, events, i, j);
  }

  /** A refusal tells the exact wait, and only when it is more than thirty seconds; a shorter one is
      slept, and an attempt made after it with nothing changed in between is granted. */
  lemma WaitIsEnough(g: Gate, now: Instant, later: Instant, minInterval: Duration)
    ensures match g.Try(now, minInterval).1
            case Granted => g.Ready() <= now
            case TooLong(wait) => wait > 30 * 1_000_000_000 && g.Ready() == now + wait
            case Sleep(wait) =>
              0 < wait <= 30 * 1_000_000_000 && (g.Try(later, minInterval).1.Granted? <==> later >= now + wait)
  {
  }
}
