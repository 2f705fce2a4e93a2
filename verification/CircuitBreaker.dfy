/** A three-state circuit breaker for one channel, with calls that may overlap. */
module CircuitBreaker {
  import opened Results

  datatype State = Closed | Open | HalfOpen
  datatype Breaker = Breaker(state: State, failCount: nat, openedAt: real)
  datatype Config = Config(failMax: nat, reset: real) {
    predicate Valid() { failMax > 0 && reset > 0.0 }
  }

  const FRESH := Breaker(Closed, 0, 0.0)

  /** How the wrapped function ended: an excluded exception is passed on without being counted. */
  datatype Ending = Success | Failure | Excluded

  function Recovered(b: Breaker, cfg: Config, now: real): Breaker {
    if b.state.Open? && now - b.openedAt >= cfg.reset then b.(state := HalfOpen) else b
  }

  function Opened(b: Breaker, now: real): Breaker {
    b.(state := Open, openedAt := now)
  }

  function Failed(b: Breaker, cfg: Config, now: real): Breaker {
    if b.state.HalfOpen? then Opened(b, now)
    else
      var counted := b.(failCount := b.failCount + 1);
      if counted.failCount >= cfg.failMax then Opened(counted, now) else counted
  }

  function Succeeded(b: Breaker): Breaker {
    b.(state := Closed, failCount := 0)
  }

  function Ended(b: Breaker, cfg: Config, ending: Ending, now: real): Breaker {
    match ending
    case Success => Succeeded(b)
    case Failure => Failed(b, cfg, now)
    case Excluded => b
  }

  predicate Admits(b: Breaker, cfg: Config, now: real) {
    !Recovered(b, cfg, now).state.Open?
  }

  /**
   A call is one admission and, when it was admitted, one ending; between the two other calls run.
   */
  class CircuitBreaker {
    const cfg: Config
    var state: State
    var failCount: nat
    var openedAt: real

    function View(): Breaker
      reads this
    {
      Breaker(state, failCount, openedAt)
    }

    constructor (cfg: Config)
      requires cfg.Valid()
      ensures View() == FRESH && this.cfg == cfg
    {
      this.cfg, state, failCount, openedAt := cfg, Closed, 0, 0.0;
    }

    method MaybeRecover(now: real)
      modifies this
      ensures View() == Recovered(old(View()), cfg, now)
    {
      if state.Open? && now - openedAt >= cfg.reset { state := HalfOpen; }
    }

    method Trip(now: real)
      modifies this
      ensures View() == Opened(old(View()), now)
    {
      state := Open;
      openedAt := now;
    }

    method RecordFailure(now: real)
      modifies this
      ensures View() == Failed(old(View()), cfg, now)
    {
      if state.HalfOpen? {
        Trip(now);
        return;
      }
      failCount := failCount + 1;
      if failCount >= cfg.failMax {
        Trip(now);
      }
    }

    method RecordSuccess()
      modifies this
      ensures View() == Succeeded(old(View()))
    {
      state := Closed;
      failCount := 0;
    }

    /** The part of a call before the wrapped function starts; false is the open-breaker error. */
    method Begin(now: real) returns (admitted: bool)
      modifies this
      ensures View() == Recovered(old(View()), cfg, now)
      ensures admitted <==> !(old(state).Open? && now - old(openedAt) < cfg.reset)
      ensures admitted <==> Admits(old(View()), cfg, now)
    {
      MaybeRecover(now);
      admitted := !state.Open?;
    }

    /** The part of an admitted call after the wrapped function ended. */
    method Finish(ending: Ending, now: real)
      modifies this
      ensures View() == Ended(old(View()), cfg, ending, now)
    {
      match ending {
        case Success => RecordSuccess();
        case Failure => RecordFailure(now);
        case Excluded =>
      }
    }
  }

  /** A refused configuration raises; an accepted one gives a closed breaker. */
  method NewBreaker(failMax: int, reset: real) returns (r: Option<CircuitBreaker>)
    ensures r.None? <==> failMax <= 0 || reset <= 0.0
    ensures r.Some? ==> fresh(r.value) && r.value.View() == FRESH && r.value.cfg == Config(failMax, reset)
  {
    if failMax <= 0 { return None; }
    if reset <= 0.0 { return None; }
    var b := new CircuitBreaker(Config(failMax, reset));
    return Some(b);
  }

  // ---------------------------------------------------------------- overlapping calls

  datatype Event = Began(now: real) | Finished(ending: Ending, now: real)

  function Step(b: Breaker, cfg: Config, e: Event): Breaker {
    match e
    case Began(now) => Recovered(b, cfg, now)
    case Finished(ending, now) => Ended(b, cfg, ending, now)
  }

  function After(b: Breaker, cfg: Config, events: seq<Event>): Breaker {
    if events == [] then b else Step(After(b, cfg, events[..|events| - 1]), cfg, events[|events| - 1])
  }

  /** The counted failures since the last success. */
  function Streak(events: seq<Event>): nat {
    if events == [] then 0
    else
      match events[|events| - 1]
      case Finished(Success, _) => 0
      case Finished(Failure, _) => Streak(events[..|events| - 1]) + 1
      case _ => Streak(events[..|events| - 1])
  }

  function LastFailure(events: seq<Event>): real {
    if events == [] then 0.0
    else
      match events[|events| - 1]
      case Finished(Failure, now) => now
      case _ => LastFailure(events[..|events| - 1])
  }

  /** A call was tried at least the reset time after the last counted failure. */
  predicate Rested(cfg: Config, events: seq<Event>) {
    events != []
    && var before := events[..|events| - 1];
       match events[|events| - 1]
       case Began(now) => Rested(cfg, before) || now - LastFailure(before) >= cfg.reset
       case Finished(Excluded, _) => Rested(cfg, before)
       case _ => false
  }

  /**
   The whole state is a function of the history, in any interleaving: closed while the streak is below the limit;
   otherwise the cooldown runs from the last counted failure, and the first call after it makes the breaker half-open.
   */
  lemma {:induction false} StateFromHistory(cfg: Config, events: seq<Event>)
    requires cfg.Valid()
    ensures var b := After(FRESH, cfg, events);
            && b.state == (if Streak(events) < cfg.failMax then Closed
                           else if Rested(cfg, events) then HalfOpen else Open)
            && (b.state.Closed? <==> b.failCount < cfg.failMax)
            && (b.state.Closed? ==> b.failCount == Streak(events))
            && (!b.state.Closed? ==> b.openedAt == LastFailure(events))
  {
    if events != [] {
      StateFromHistory(cfg, events[..|events| - 1]);
    }
  }

  /** So a call at `now` is let through exactly when one of these holds. */
  lemma AdmittedExactlyWhen(cfg: Config, events: seq<Event>, now: real)
    requires cfg.Valid()
    ensures Admits(After(FRESH, cfg, events), cfg, now)
       <==> Streak(events) < cfg.failMax || Rested(cfg, events) || now - LastFailure(events) >= cfg.reset
  {
    StateFromHistory(cfg, events);
  }

  // ---------------------------------------------------------------- half-open trials

  function Begins(events: seq<Event>): nat {
    if events == [] then 0
    else Begins(events[..|events| - 1]) + if events[|events| - 1].Began? then 1 else 0
  }

  /** How many calls were let through along the way. */
  function Let(b: Breaker, cfg: Config, events: seq<Event>): nat {
    if events == [] then 0
    else
      var before, e := events[..|events| - 1], events[|events| - 1];
      Let(b, cfg, before) + if e.Began? && Admits(After(b, cfg, before), cfg, e.now) then 1 else 0
  }

  predicate Undecided(events: seq<Event>) {
    forall e <- events :: e.Began? || e.ending.Excluded?
  }

  /**
   Until a counted ending the breaker stays half-open and lets every call through.  So besides the call that made it
   half-open no other gets in exactly when none begins before that ending.
   */
  lemma {:induction false} HalfOpenLetsEveryCallThrough(b: Breaker, cfg: Config, events: seq<Event>)
    requires b.state.HalfOpen? && Undecided(events)
    ensures After(b, cfg, events) == b && Let(b, cfg, events) == Begins(events)
    ensures Let(b, cfg, events) == 0 <==> forall e <- events :: !e.Began?
  {
    if events != [] {
      var n := |events| - 1;
      assert forall e <- events[..n] :: e in events;
      assert events[n] in events;
      HalfOpenLetsEveryCallThrough(b, cfg, events[..n]);
      assert forall e <- events :: e in events[..n] || e == events[n];
    }
  }

  /** The counted ending of any trial leaves the half-open state: a success closes, a failure restarts the cooldown. */
  lemma TrialDecides(b: Breaker, cfg: Config, ending: Ending, now: real, later: real)
    requires cfg.Valid() && b.state.HalfOpen? && !ending.Excluded?
    ensures ending.Success? ==> Ended(b, cfg, ending, now).state.Closed? && Ended(b, cfg, ending, now).failCount == 0
    ensures ending.Failure? ==> (Admits(Ended(b, cfg, ending, now), cfg, later) <==> later >= now + cfg.reset)
  {
  }

  /** n calls that fail at once. */
  function Failures(n: nat): seq<Event> {
    if n == 0 then [] else Failures(n - 1) + [Finished(Failure, 0.0)]
  }

  lemma {:induction false} FailuresTrip(cfg: Config, n: nat)
    ensures Streak(Failures(n)) == n && LastFailure(Failures(n)) == 0.0 && (n > 0 ==> !Rested(cfg, Failures(n)))
  {
    if n > 0 {
      FailuresTrip(cfg, n - 1);
      assert Failures(n)[..|Failures(n)| - 1] == Failures(n - 1);
    }
  }

  /**
   In every configuration two overlapping calls, or one after an excluded error, both get in as trials once the breaker
   tripped.
   */
  lemma TwoTrials(cfg: Config)
    requires cfg.Valid()
    ensures var tripped := After(FRESH, cfg, Failures(cfg.failMax));
            && tripped.state.Open?
            && Let(tripped, cfg, [Began(cfg.reset)] + [Began(cfg.reset)]) == 2
            && Let(tripped, cfg, [Began(cfg.reset)] + [Finished(Excluded, cfg.reset)] + [Began(cfg.reset)]) == 2
  {
    FailuresTrip(cfg, cfg.failMax);
    StateFromHistory(cfg, Failures(cfg.failMax));
    var tripped, begun := After(FRESH, cfg, Failures(cfg.failMax)), [Began(cfg.reset)];
    assert begun[..0] == [] && (begun + begun)[..1] == begun;
    assert After(tripped, cfg, begun).state.HalfOpen? && Let(tripped, cfg, begun) == 1;
    var excluded := begun + [Finished(Excluded, cfg.reset)];
    assert excluded[..1] == begun && (excluded + begun)[..2] == excluded;
  }

  // ---------------------------------------------------------------- failing calls, one after another

  datatype Call = Call(begin: real, end: real)

  function Called(b: Breaker, cfg: Config, call: Call): Breaker {
    var b' := Recovered(b, cfg, call.begin);
    if b'.state.Open? then b' else Failed(b', cfg, call.end)
  }

  function AfterCalls(cfg: Config, calls: seq<Call>): Breaker {
    if calls == [] then FRESH else Called(AfterCalls(cfg, calls[..|calls| - 1]), cfg, calls[|calls| - 1])
  }

  /** How often the wrapped function ran. */
  function Runs(cfg: Config, calls: seq<Call>): nat {
    if calls == [] then 0
    else
      var before, call := calls[..|calls| - 1], calls[|calls| - 1];
      Runs(cfg, before) + if Admits(AfterCalls(cfg, before), cfg, call.begin) then 1 else 0
  }

  function LastEnd(calls: seq<Call>, start: real): real {
    if calls == [] then start else calls[|calls| - 1].end
  }

  predicate OneByOne(calls: seq<Call>, start: real) {
    calls == []
    || (var before, call := calls[..|calls| - 1], calls[|calls| - 1];
        OneByOne(before, start) && LastEnd(before, start) <= call.begin <= call.end)
  }

  /** The length of k cooldowns. */
  function Cooldowns(k: int, reset: real): real {
    if k <= 0 then 0.0 else Cooldowns(k - 1, reset) + reset
  }

  lemma {:induction false} CooldownsPass(cfg: Config, calls: seq<Call>, start: real)
    requires cfg.Valid() && OneByOne(calls, start)
    ensures var b, r := AfterCalls(cfg, calls), Runs(cfg, calls);
            && (r < cfg.failMax ==> b.state.Closed? && b.failCount == r)
            && (r >= cfg.failMax ==>
                  && b.state.Open? && b.failCount >= cfg.failMax
                  && start + Cooldowns(r - cfg.failMax, cfg.reset) <= b.openedAt <= LastEnd(calls, start))
    ensures LastEnd(calls, start) >= start
    ensures Runs(cfg, calls) > cfg.failMax ==>
              calls != [] && start + Cooldowns(Runs(cfg, calls) - cfg.failMax, cfg.reset) <= calls[|calls| - 1].begin
  {
    if calls != [] {
      var before, call := calls[..|calls| - 1], calls[|calls| - 1];
      CooldownsPass(cfg, before, start);
    }
  }

  lemma MoreCooldowns(k: nat, reset: real)
    ensures (k + 1) as real * reset == k as real * reset + reset
  {
    assert (k + 1) as real == k as real + 1.0;
  }

  lemma {:induction false} CooldownsAre(k: nat, reset: real)
    ensures Cooldowns(k, reset) == k as real * reset
  {
    if k > 0 {
      CooldownsAre(k - 1, reset);
      MoreCooldowns(k - 1, reset);
    }
  }

  lemma Quotient(x: real, span: real, reset: real)
    requires reset > 0.0
    ensures x * reset <= span <==> x <= span / reset
  {
    var q := span / reset;
    assert q * reset == span;
    assert (x - q) * reset == x * reset - span;
    if x > q { assert (x - q) * reset > 0.0; }
  }

  /** k cooldowns fit into a span exactly when k is at most the whole quotient. */
  lemma CooldownsFit(k: nat, span: real, reset: real)
    requires reset > 0.0
    ensures Cooldowns(k, reset) <= span <==> k <= (span / reset).Floor
  {
    CooldownsAre(k, reset);
    Quotient(k as real, span, reset);
  }

  /**
   In time T from a fresh breaker, calls that come one after another and all fail run at most failMax + floor(T /
   reset) times.
   */
  lemma FailingRunsAreBounded(cfg: Config, calls: seq<Call>, start: real, span: real)
    requires cfg.Valid() && OneByOne(calls, start) && span >= 0.0
    requires forall c <- calls :: c.begin <= start + span
    ensures Runs(cfg, calls) <= cfg.failMax + (span / cfg.reset).Floor
  {
    CooldownsPass(cfg, calls, start);
    var r := Runs(cfg, calls);
    if r > cfg.failMax {
      assert calls[|calls| - 1] in calls;
      CooldownsFit(r - cfg.failMax, span, cfg.reset);
    } else {
      CooldownsFit(0, span, cfg.reset);
    }
  }

  // ---------------------------------------------------------------- the bound is reached

  /** failMax failures at once, then one trial at the end of every cooldown. */
  function Hammer(cfg: Config, start: real, n: nat): seq<Call> {
    if n == 0 then []
    else
      var t := start + Cooldowns(n - cfg.failMax, cfg.reset);
      Hammer(cfg, start, n - 1) + [Call(t, t)]
  }

  lemma CooldownsGrow(k: int, reset: real)
    requires reset > 0.0
    ensures Cooldowns(k, reset) == Cooldowns(k - 1, reset) + if k <= 0 then 0.0 else reset
  {
  }

  lemma {:induction false} HammerShape(cfg: Config, start: real, n: nat)
    requires cfg.Valid()
    ensures |Hammer(cfg, start, n)| == n && OneByOne(Hammer(cfg, start, n), start)
    ensures LastEnd(Hammer(cfg, start, n), start) == start + Cooldowns(n - cfg.failMax, cfg.reset)
  {
    if n > 0 {
      HammerShape(cfg, start, n - 1);
      CooldownsGrow(n - cfg.failMax, cfg.reset);
      assert Hammer(cfg, start, n)[..n - 1] == Hammer(cfg, start, n - 1);
    }
  }

  /** The breaker after n hammer calls, the last of which ended at t. */
  predicate Hammered(b: Breaker, cfg: Config, n: nat, t: real) {
    if n < cfg.failMax then b.state.Closed? && b.failCount == n else b.state.Open? && b.openedAt == t
  }

  lemma HammerCall(cfg: Config, b: Breaker, start: real, n: nat)
    requires cfg.Valid() && n > 0 && Hammered(b, cfg, n - 1, start + Cooldowns(n - 1 - cfg.failMax, cfg.reset))
    ensures var t := start + Cooldowns(n - cfg.failMax, cfg.reset);
            Admits(b, cfg, t) && Hammered(Called(b, cfg, Call(t, t)), cfg, n, t)
  {
    CooldownsGrow(n - cfg.failMax, cfg.reset);
  }

  lemma OneMoreCall(cfg: Config, calls: seq<Call>, call: Call)
    ensures AfterCalls(cfg, calls + [call]) == Called(AfterCalls(cfg, calls), cfg, call)
    ensures Runs(cfg, calls + [call])
            == Runs(cfg, calls) + if Admits(AfterCalls(cfg, calls), cfg, call.begin) then 1 else 0
  {
    assert (calls + [call])[..|calls|] == calls;
  }

  lemma {:induction false} EveryCallRuns(cfg: Config, start: real, n: nat)
    requires cfg.Valid()
    ensures Runs(cfg, Hammer(cfg, start, n)) == n
    ensures Hammered(AfterCalls(cfg, Hammer(cfg, start, n)), cfg, n, start + Cooldowns(n - cfg.failMax, cfg.reset))
  {
    if n > 0 {
      var before, t := Hammer(cfg, start, n - 1), start + Cooldowns(n - cfg.failMax, cfg.reset);
      EveryCallRuns(cfg, start, n - 1);
      HammerCall(cfg, AfterCalls(cfg, before), start, n);
      OneMoreCall(cfg, before, Call(t, t));
    }
  }

  /** No smaller bound holds: for every T some calls run that often. */
  lemma BoundIsReached(cfg: Config, start: real, span: real) returns (calls: seq<Call>)
    requires cfg.Valid() && span >= 0.0
    ensures OneByOne(calls, start) && (forall c <- calls :: c.begin <= start + span)
    ensures Runs(cfg, calls) == cfg.failMax + (span / cfg.reset).Floor
  {
    var k := (span / cfg.reset).Floor;
    CooldownsFit(0, span, cfg.reset);
    CooldownsFit(k, span, cfg.reset);
    calls := Hammer(cfg, start, cfg.failMax + k);
    EveryCallRuns(cfg, start, cfg.failMax + k);
    HammerShape(cfg, start, cfg.failMax + k);
    NoneAfterLast(calls, start);
  }

  lemma {:induction false} NoneAfterLast(calls: seq<Call>, start: real)
    requires OneByOne(calls, start)
    ensures LastEnd(calls, start) >= start && forall c <- calls :: c.begin <= LastEnd(calls, start)
  {
    if calls != [] {
      NoneAfterLast(calls[..|calls| - 1], start);
    }
  }
}
