/** A token bucket over a monotonic clock, in exact arithmetic. */
module RateLimit {
  import opened Results

  /** The fields a refill and a take change. */
  datatype Bucket = Bucket(tokens: real, lastRefill: real)

  function MinReal(a: real, b: real): real {
    if a <= b then a else b
  }

  /** A bucket that `flow` tokens ran into, up to its brim. */
  function Filled(b: Bucket, flow: real, capacity: nat, now: real): Bucket {
    Bucket(MinReal(capacity as real, b.tokens + flow), now)
  }

  function Refilled(b: Bucket, rps: real, capacity: nat, now: real): Bucket {
    if now <= b.lastRefill then b else Filled(b, (now - b.lastRefill) * rps, capacity, now)
  }

  /** How an acquire ends, and when. */
  datatype Outcome = Granted(at: real) | TimedOut

  // ---------------------------------------------------------------- the grant budget

  /** The time k tokens take to flow in, at one every `gap` seconds. */
  function Span(k: int, gap: real): real {
    if k <= 0 then 0.0 else Span(k - 1, gap) + gap
  }

  predicate Ordered(grants: seq<real>) {
    forall i, j :: 0 <= i < j < |grants| ==> grants[i] <= grants[j]
  }

  /** No stretch of grants is worth more than a full bucket and the time from its first to its last grant. */
  predicate Spaced(grants: seq<real>, full: real, gap: real) {
    forall i, j :: 0 <= i <= j < |grants| ==> Span(j + 1 - i, gap) <= full + (grants[j] - grants[i])
  }

  /** The same up to the last refill, and what is left in the bucket was not granted. */
  predicate Saved(grants: seq<real>, credit: real, last: real, full: real, gap: real) {
    forall i :: 0 <= i < |grants| ==> Span(|grants| - i, gap) <= full - credit + (last - grants[i])
  }

  /** The budget is kept in seconds: `credit` is the time that what is in the bucket took to flow in. */
  predicate Budgeted(grants: seq<real>, credit: real, last: real, full: real, gap: real) {
    && 0.0 <= credit <= full
    && Ordered(grants)
    && (forall i :: 0 <= i < |grants| ==> grants[i] <= last)
    && Saved(grants, credit, last, full, gap)
    && Spaced(grants, full, gap)
  }

  lemma FlowKeepsBudget(grants: seq<real>, credit: real, last: real, full: real, gap: real, elapsed: real)
    requires Budgeted(grants, credit, last, full, gap) && elapsed >= 0.0
    ensures Budgeted(grants, MinReal(full, credit + elapsed), last + elapsed, full, gap)
  {
    var credit' := MinReal(full, credit + elapsed);
    forall i | 0 <= i < |grants|
      ensures Span(|grants| - i, gap) <= full - credit' + (last + elapsed - grants[i])
    {
      assert Span(|grants| - i, gap) <= full - credit + (last - grants[i]);
    }
  }

  lemma TakeKeepsSaved(grants: seq<real>, credit: real, last: real, full: real, gap: real)
    requires Saved(grants, credit, last, full, gap) && credit <= full
    ensures Saved(grants + [last], credit - gap, last, full, gap)
  {
    var grants' := grants + [last];
    forall i | 0 <= i < |grants'|
      ensures Span(|grants'| - i, gap) <= full - (credit - gap) + (last - grants'[i])
    {
      if i < |grants| {
        assert Span(|grants| - i, gap) <= full - credit + (last - grants[i]);
      } else {
        assert Span(1, gap) == Span(0, gap) + gap;
      }
    }
  }

  lemma TakeKeepsSpaced(grants: seq<real>, credit: real, last: real, full: real, gap: real)
    requires Spaced(grants, full, gap) && Saved(grants + [last], credit, last, full, gap) && credit >= 0.0
    ensures Spaced(grants + [last], full, gap)
  {
    var grants' := grants + [last];
    forall i, j | 0 <= i <= j < |grants'|
      ensures Span(j + 1 - i, gap) <= full + (grants'[j] - grants'[i])
    {
      if j == |grants| {
        assert Span(|grants'| - i, gap) <= full - credit + (last - grants'[i]);
      }
    }
  }

  lemma TakeKeepsBudget(grants: seq<real>, credit: real, last: real, full: real, gap: real)
    requires Budgeted(grants, credit, last, full, gap) && credit >= gap >= 0.0
    ensures Budgeted(grants + [last], credit - gap, last, full, gap)
  {
    TakeKeepsSaved(grants, credit, last, full, gap);
    TakeKeepsSpaced(grants, credit - gap, last, full, gap);
  }

  // ---------------------------------------------------------------- seconds and tokens

  lemma Grow(a: real, b: real, w: real)
    ensures (a + b) * w == a * w + b * w
    ensures a >= 0.0 && w >= 0.0 ==> a * w >= 0.0
  {
  }

  lemma Scale(s: real, t: real, rps: real)
    requires rps > 0.0
    ensures s <= t <==> s * rps <= t * rps
  {
    Grow(t - s, s, rps);
    Grow(s - t, t, rps);
    Grow(t - s, 0.0, rps);
    if s > t { assert (s - t) * rps > 0.0; }
  }

  lemma {:induction false} SpanInTokens(k: nat, gap: real, rps: real)
    requires gap * rps == 1.0
    ensures Span(k, gap) * rps == k as real
  {
    if k > 0 {
      SpanInTokens(k - 1, gap, rps);
      Grow(Span(k - 1, gap), gap, rps);
    }
  }

  lemma RefillCredit(credit: real, tokens: real, elapsed: real, full: real, brim: real, rps: real)
    requires rps > 0.0 && credit * rps == tokens && full * rps == brim
    ensures MinReal(full, credit + elapsed) * rps == MinReal(brim, tokens + elapsed * rps)
  {
    Grow(credit, elapsed, rps);
    Scale(full, credit + elapsed, rps);
  }

  lemma TakeCredit(credit: real, tokens: real, gap: real, rps: real)
    requires rps > 0.0 && credit * rps == tokens && gap * rps == 1.0
    ensures (credit - gap) * rps == tokens - 1.0 && (tokens >= 1.0 ==> credit >= gap) && gap >= 0.0
  {
    Grow(credit - gap, gap, rps);
    Scale(gap, credit, rps);
    Scale(0.0, gap, rps);
  }

  /** How long the code sleeps before it looks again. */
  function Wait(b: Bucket, rps: real): real
    requires rps > 0.0
  {
    (1.0 - b.tokens) / rps
  }

  lemma WaitIsPositive(b: Bucket, rps: real)
    requires rps > 0.0 && b.tokens < 1.0
    ensures Wait(b, rps) > 0.0 && Wait(b, rps) * rps == 1.0 - b.tokens
  {
    var wait := Wait(b, rps);
    assert wait * rps == 1.0 - b.tokens;
    if wait <= 0.0 { Grow(-wait, 0.0, rps); }
  }

  lemma FilledReaches(b: Bucket, flow: real, capacity: nat, now: real)
    requires capacity > 0 && b.tokens + flow >= 1.0
    ensures Filled(b, flow, capacity, now).tokens >= 1.0
  {
  }

  /** Sleeping the computed wait, or longer, always refills to a whole token. */
  lemma WaitSuffices(b: Bucket, rps: real, capacity: nat, late: real)
    requires rps > 0.0 && capacity > 0 && b.tokens < 1.0 && late >= 0.0
    ensures Wait(b, rps) > 0.0 && Refilled(b, rps, capacity, b.lastRefill + Wait(b, rps) + late).tokens >= 1.0
  {
    WaitIsPositive(b, rps);
    Grow(Wait(b, rps), late, rps);
    Grow(late, 0.0, rps);
    var now := b.lastRefill + Wait(b, rps) + late;
    assert now - b.lastRefill == Wait(b, rps) + late;
    FilledReaches(b, (now - b.lastRefill) * rps, capacity, now);
  }

  // ---------------------------------------------------------------- windows

  /** The number of grants between times a and b, both included. */
  function CountIn(grants: seq<real>, a: real, b: real): nat {
    if grants == [] then 0
    else
      var t := grants[|grants| - 1];
      CountIn(grants[..|grants| - 1], a, b) + if a <= t <= b then 1 else 0
  }

  lemma {:induction false} NoneIn(grants: seq<real>, a: real, b: real)
    requires forall k :: 0 <= k < |grants| ==> grants[k] < a
    ensures CountIn(grants, a, b) == 0
  {
    if grants != [] {
      NoneIn(grants[..|grants| - 1], a, b);
    }
  }

  /** Grants no later than b: the ones in the window are a final stretch. */
  lemma {:induction false} CountSuffix(grants: seq<real>, a: real, b: real) returns (i: nat)
    requires Ordered(grants) && forall k :: 0 <= k < |grants| ==> grants[k] <= b
    ensures i <= |grants| && CountIn(grants, a, b) == |grants| - i
    ensures i < |grants| ==> a <= grants[i]
  {
    i := |grants|;
    if grants != [] {
      var n := |grants| - 1;
      if grants[n] < a {
        NoneIn(grants, a, b);
      } else {
        i := CountSuffix(grants[..n], a, b);
      }
    }
  }

  lemma {:induction false} AnyWindow(grants: seq<real>, full: real, gap: real, a: real, b: real)
    requires Ordered(grants) && Spaced(grants, full, gap) && a <= b && full >= 0.0
    ensures Span(CountIn(grants, a, b), gap) <= full + (b - a)
  {
    if grants != [] {
      var n := |grants| - 1;
      if grants[n] > b {
        AnyWindow(grants[..n], full, gap, a, b);
      } else {
        var i := CountSuffix(grants, a, b);
        if i <= n {
          assert Span(n + 1 - i, gap) <= full + (grants[n] - grants[i]);
        }
      }
    }
  }

  lemma InTokens(used: real, full: real, span: real, rps: real, usedTokens: real, fullTokens: real)
    requires rps > 0.0 && used <= full + span && used * rps == usedTokens && full * rps == fullTokens
    ensures usedTokens <= fullTokens + span * rps
  {
    Scale(used, full + span, rps);
    Grow(full, span, rps);
  }

  // ---------------------------------------------------------------- refills and takes

  function Took(b: Bucket): Bucket {
    b.(tokens := b.tokens - 1.0)
  }

  ghost predicate Credited(grants: seq<real>, b: Bucket, rps: real, capacity: nat, credit: real, gap: real) {
    gap * rps == 1.0 && credit * rps == b.tokens && Budgeted(grants, credit, b.lastRefill, Span(capacity, gap), gap)
  }

  /** The bucket's grants keep to its budget. */
  ghost predicate InBudget(grants: seq<real>, b: Bucket, rps: real, capacity: nat) {
    exists credit, gap :: Credited(grants, b, rps, capacity, credit, gap)
  }

  lemma FullIsInBudget(first: Bucket, rps: real, capacity: nat)
    requires first.tokens == capacity as real && rps > 0.0
    ensures InBudget([], first, rps, capacity)
  {
    var gap := 1.0 / rps;
    var full := Span(capacity, gap);
    SpanInTokens(capacity, gap, rps);
    Scale(0.0, full, rps);
    assert Credited([], first, rps, capacity, full, gap);
  }

  lemma RefillInTokens(credit: real, tokens: real, elapsed: real, gap: real, rps: real, capacity: nat)
    requires rps > 0.0 && gap * rps == 1.0 && credit * rps == tokens
    ensures MinReal(Span(capacity, gap), credit + elapsed) * rps == MinReal(capacity as real, tokens + elapsed * rps)
  {
    SpanInTokens(capacity, gap, rps);
    RefillCredit(credit, tokens, elapsed, Span(capacity, gap), capacity as real, rps);
  }

  lemma FilledHasCredit(grants: seq<real>, b: Bucket, flow: real, rps: real, capacity: nat, now: real, credit: real,
      gap: real)
    requires gap * rps == 1.0 && credit * rps == MinReal(capacity as real, b.tokens + flow)
    requires Budgeted(grants, credit, now, Span(capacity, gap), gap)
    ensures InBudget(grants, Filled(b, flow, capacity, now), rps, capacity)
  {
    assert Credited(grants, Filled(b, flow, capacity, now), rps, capacity, credit, gap);
  }

  /** Time that passes is credited up to the brim, as the refill counts it. */
  lemma FlowStaysInBudget(grants: seq<real>, b: Bucket, rps: real, capacity: nat, elapsed: real)
    requires InBudget(grants, b, rps, capacity) && rps > 0.0 && elapsed >= 0.0
    ensures InBudget(grants, Filled(b, elapsed * rps, capacity, b.lastRefill + elapsed), rps, capacity)
  {
    var credit, gap :| Credited(grants, b, rps, capacity, credit, gap);
    FlowKeepsBudget(grants, credit, b.lastRefill, Span(capacity, gap), gap, elapsed);
    RefillInTokens(credit, b.tokens, elapsed, gap, rps, capacity);
    FilledHasCredit(grants, b, elapsed * rps, rps, capacity, b.lastRefill + elapsed,
                    MinReal(Span(capacity, gap), credit + elapsed), gap);
  }

  lemma RefillStaysInBudget(grants: seq<real>, b: Bucket, rps: real, capacity: nat, now: real)
    requires InBudget(grants, b, rps, capacity) && rps > 0.0
    ensures InBudget(grants, Refilled(b, rps, capacity, now), rps, capacity)
  {
    if now > b.lastRefill {
      var elapsed := now - b.lastRefill;
      FlowStaysInBudget(grants, b, rps, capacity, elapsed);
      assert Refilled(b, rps, capacity, now) == Filled(b, elapsed * rps, capacity, b.lastRefill + elapsed);
    }
  }

  /** A grant is dated by the refill just before it. */
  lemma TakeStaysInBudget(grants: seq<real>, b: Bucket, rps: real, capacity: nat)
    requires InBudget(grants, b, rps, capacity) && b.tokens >= 1.0 && rps > 0.0
    ensures InBudget(grants + [b.lastRefill], Took(b), rps, capacity)
  {
    var credit, gap :| Credited(grants, b, rps, capacity, credit, gap);
    TakeCredit(credit, b.tokens, gap, rps);
    TakeKeepsBudget(grants, credit, b.lastRefill, Span(capacity, gap), gap);
    assert Credited(grants + [b.lastRefill], Took(b), rps, capacity, credit - gap, gap);
  }

  // ---------------------------------------------------------------- acquires

  /**
   What the environment decides for one acquire: it is called at `start` and holds the lock from `locked` on; a sleep
   ends late, by `late`; a timeout that falls due before a late sleep ends may win over it, by `cut`.
   */
  datatype Moment = Moment(start: real, locked: real, late: real, cut: bool) {
    /** The clock never runs backwards. */
    predicate Forward(lastRefill: real) { start <= locked && lastRefill <= locked && late >= 0.0 }
  }

  /** A timeout cancels a sleep that would end after it. */
  predicate CutShort(b: Bucket, rps: real, m: Moment, timeout: Option<real>)
    requires rps > 0.0
  {
    && timeout.Some?
    && var due := m.start + timeout.value;
       due < m.locked + Wait(b, rps) || (m.cut && due <= m.locked + Wait(b, rps) + m.late)
  }

  /** One acquire: at most one sleep. */
  function Acquired(b: Bucket, rps: real, capacity: nat, m: Moment, timeout: Option<real>): (Bucket, Outcome)
    requires rps > 0.0
  {
    var refilled := Refilled(b, rps, capacity, m.locked);
    var woken := m.locked + Wait(refilled, rps) + m.late;
    if timeout.Some? && m.start < m.locked && m.start + timeout.value < m.locked then (b, TimedOut)
    else if refilled.tokens >= 1.0 then (Took(refilled), Granted(m.locked))
    else if CutShort(refilled, rps, m, timeout) then (refilled, TimedOut)
    else (Took(Refilled(refilled, rps, capacity, woken)), Granted(woken))
  }

  /** An acquire that is granted takes a token that a refill left there. */
  lemma AcquireStaysInBudget(grants: seq<real>, b: Bucket, rps: real, capacity: nat, m: Moment, timeout: Option<real>)
    requires InBudget(grants, b, rps, capacity) && rps > 0.0 && capacity > 0 && m.Forward(b.lastRefill)
    ensures var (b', outcome) := Acquired(b, rps, capacity, m, timeout);
            InBudget(grants + Dates(outcome), b', rps, capacity)
  {
    assert grants + [] == grants;
    var refilled := Refilled(b, rps, capacity, m.locked);
    RefillStaysInBudget(grants, b, rps, capacity, m.locked);
    if refilled.tokens >= 1.0 {
      TakeStaysInBudget(grants, refilled, rps, capacity);
    } else {
      WaitSuffices(refilled, rps, capacity, m.late);
      var woken := m.locked + Wait(refilled, rps) + m.late;
      RefillStaysInBudget(grants, refilled, rps, capacity, woken);
      TakeStaysInBudget(grants, Refilled(refilled, rps, capacity, woken), rps, capacity);
    }
  }

  /** By time t a whole token is there, counting what flowed in since the last refill. */
  predicate Whole(b: Bucket, rps: real, t: real) {
    b.tokens + (t - b.lastRefill) * rps >= 1.0
  }

  /** The first such time from `from` on. */
  ghost predicate FirstWhole(b: Bucket, rps: real, from: real, ready: real) {
    from <= ready && Whole(b, rps, ready) && forall t :: from <= t < ready ==> !Whole(b, rps, t)
  }

  /** The caller got the lock before its time was up. */
  predicate InTime(m: Moment, timeout: Option<real>) {
    timeout.None? || m.locked <= m.start || m.locked <= m.start + timeout.value
  }

  /** The sleep until `ready` fits into the caller's time. */
  predicate Awaited(m: Moment, timeout: Option<real>, ready: real) {
    timeout.None? || (ready <= m.start + timeout.value && !(m.cut && m.start + timeout.value <= ready + m.late))
  }

  lemma WholeFrom(b: Bucket, rps: real, from: real, t: real, x: real, wait: real)
    requires rps > 0.0 && from <= t && x == b.tokens + (from - b.lastRefill) * rps && wait * rps == 1.0 - x
    ensures Whole(b, rps, t) <==> wait <= t - from
  {
    Grow(from - b.lastRefill, t - from, rps);
    assert (from - b.lastRefill) + (t - from) == t - b.lastRefill;
    Scale(wait, t - from, rps);
  }

  lemma WholeTime(b: Bucket, rps: real, capacity: nat, from: real) returns (ready: real)
    requires rps > 0.0 && capacity > 0 && b.tokens <= capacity as real && b.lastRefill <= from
    ensures FirstWhole(b, rps, from, ready)
    ensures var refilled := Refilled(b, rps, capacity, from);
            ready == if refilled.tokens >= 1.0 then from else from + Wait(refilled, rps)
  {
    var refilled := Refilled(b, rps, capacity, from);
    ready := if refilled.tokens >= 1.0 then from else from + Wait(refilled, rps);
    if refilled.tokens < 1.0 {
      WaitIsPositive(refilled, rps);
      forall t | from <= t ensures Whole(b, rps, t) <==> ready <= t {
        WholeFrom(b, rps, from, t, refilled.tokens, Wait(refilled, rps));
      }
    }
  }

  /** What is in the bucket at time t if nothing is taken. */
  function Untouched(b: Bucket, rps: real, capacity: nat, t: real): real {
    MinReal(capacity as real, b.tokens + (t - b.lastRefill) * rps)
  }

  lemma RefillTwice(b: Bucket, rps: real, capacity: nat, mid: real, now: real)
    requires rps > 0.0 && b.tokens <= capacity as real && b.lastRefill <= mid <= now
    ensures Refilled(Refilled(b, rps, capacity, mid), rps, capacity, now)
            == Bucket(Untouched(b, rps, capacity, now), now)
  {
    Grow(mid - b.lastRefill, now - mid, rps);
    Grow(now - mid, 0.0, rps);
    assert (mid - b.lastRefill) + (now - mid) == now - b.lastRefill;
  }

  /**
   An acquire is granted exactly when its caller gets the lock in time and a token is there by then, or flows in before
   the caller's time is up; the grant is dated accordingly.
   */
  lemma GrantedExactlyWhen(b: Bucket, rps: real, capacity: nat, m: Moment, timeout: Option<real>) returns (ready: real)
    requires rps > 0.0 && capacity > 0 && b.tokens <= capacity as real && m.Forward(b.lastRefill)
    ensures FirstWhole(b, rps, m.locked, ready)
    ensures var outcome := Acquired(b, rps, capacity, m, timeout).1;
            && (outcome.Granted? <==> InTime(m, timeout) && (ready == m.locked || Awaited(m, timeout, ready)))
            && (outcome.Granted? ==> outcome.at == if ready == m.locked then m.locked else ready + m.late)
  {
    ready := WholeTime(b, rps, capacity, m.locked);
    var refilled := Refilled(b, rps, capacity, m.locked);
    if refilled.tokens < 1.0 {
      WaitIsPositive(refilled, rps);
    }
  }

  /** A grant takes one token out of what is there at its date; a timeout takes none. */
  lemma GrantTakesOne(b: Bucket, rps: real, capacity: nat, m: Moment, timeout: Option<real>)
    requires rps > 0.0 && capacity > 0 && b.tokens <= capacity as real && m.Forward(b.lastRefill)
    ensures var (b', outcome) := Acquired(b, rps, capacity, m, timeout);
            match outcome
            case Granted(at) => b' == Bucket(Untouched(b, rps, capacity, at) - 1.0, at)
            case TimedOut => b' == b || b' == Bucket(Untouched(b, rps, capacity, m.locked), m.locked)
  {
    var refilled := Refilled(b, rps, capacity, m.locked);
    RefillTwice(b, rps, capacity, b.lastRefill, m.locked);
    if refilled.tokens < 1.0 {
      WaitIsPositive(refilled, rps);
      RefillTwice(b, rps, capacity, m.locked, m.locked + Wait(refilled, rps) + m.late);
    }
  }

  /** Any mix of acquires, waits and timeouts. */
  datatype Request = Request(m: Moment, timeout: Option<real>)

  function Dates(outcome: Outcome): seq<real> {
    if outcome.Granted? then [outcome.at] else []
  }

  function After(first: Bucket, requests: seq<Request>, rps: real, capacity: nat): Bucket
    requires rps > 0.0
  {
    if requests == [] then first
    else
      var n := |requests| - 1;
      Acquired(After(first, requests[..n], rps, capacity), rps, capacity, requests[n].m, requests[n].timeout).0
  }

  function Grants(first: Bucket, requests: seq<Request>, rps: real, capacity: nat): seq<real>
    requires rps > 0.0
  {
    if requests == [] then []
    else
      var n := |requests| - 1;
      Grants(first, requests[..n], rps, capacity)
      + Dates(Acquired(After(first, requests[..n], rps, capacity), rps, capacity, requests[n].m, requests[n].timeout).1)
  }

  predicate Timely(first: Bucket, requests: seq<Request>, rps: real, capacity: nat)
    requires rps > 0.0
  {
    requests == []
    || (var n := |requests| - 1;
        Timely(first, requests[..n], rps, capacity)
          && requests[n].m.Forward(After(first, requests[..n], rps, capacity).lastRefill))
  }

  lemma {:induction false} RequestsStayInBudget(first: Bucket, requests: seq<Request>, rps: real, capacity: nat)
    requires rps > 0.0 && capacity > 0 && first.tokens == capacity as real && Timely(first, requests, rps, capacity)
    ensures InBudget(Grants(first, requests, rps, capacity), After(first, requests, rps, capacity), rps, capacity)
  {
    if requests == [] {
      FullIsInBudget(first, rps, capacity);
    } else {
      var n := |requests| - 1;
      RequestsStayInBudget(first, requests[..n], rps, capacity);
      AcquireStaysInBudget(Grants(first, requests[..n], rps, capacity), After(first, requests[..n], rps, capacity),
        rps, capacity, requests[n].m, requests[n].timeout);
    }
  }

  lemma CountInTokens(count: nat, span: real, gap: real, rps: real, capacity: nat)
    requires rps > 0.0 && gap * rps == 1.0 && Span(count, gap) <= Span(capacity, gap) + span
    ensures count as real <= capacity as real + span * rps
  {
    SpanInTokens(count, gap, rps);
    SpanInTokens(capacity, gap, rps);
    InTokens(Span(count, gap), Span(capacity, gap), span, rps, count as real, capacity as real);
  }

  lemma CreditInTokens(credit: real, tokens: real, gap: real, rps: real, capacity: nat)
    requires rps > 0.0 && gap * rps == 1.0 && credit * rps == tokens && 0.0 <= credit <= Span(capacity, gap)
    ensures 0.0 <= tokens <= capacity as real
  {
    SpanInTokens(capacity, gap, rps);
    Scale(0.0, credit, rps);
    Scale(credit, Span(capacity, gap), rps);
  }

  lemma BudgetBoundsSpans(grants: seq<real>, bucket: Bucket, rps: real, capacity: nat, a: real, span: real)
    returns (gap: real)
    requires InBudget(grants, bucket, rps, capacity) && span >= 0.0
    ensures gap * rps == 1.0 && Span(CountIn(grants, a, a + span), gap) <= Span(capacity, gap) + span
  {
    var credit;
    credit, gap :| Credited(grants, bucket, rps, capacity, credit, gap);
    AnyWindow(grants, Span(capacity, gap), gap, a, a + span);
  }

  lemma BudgetBoundsWindows(grants: seq<real>, bucket: Bucket, rps: real, capacity: nat, a: real, span: real)
    requires InBudget(grants, bucket, rps, capacity) && rps > 0.0 && span >= 0.0
    ensures CountIn(grants, a, a + span) as real <= capacity as real + span * rps
  {
    var gap := BudgetBoundsSpans(grants, bucket, rps, capacity, a, span);
    CountInTokens(CountIn(grants, a, a + span), span, gap, rps, capacity);
  }

  lemma BudgetBoundsTokens(grants: seq<real>, bucket: Bucket, rps: real, capacity: nat)
    requires InBudget(grants, bucket, rps, capacity) && rps > 0.0
    ensures 0.0 <= bucket.tokens <= capacity as real
  {
    var credit, gap :| Credited(grants, bucket, rps, capacity, credit, gap);
    CreditInTokens(credit, bucket.tokens, gap, rps, capacity);
  }

  /**
   A full bucket grants at most capacity + span * rps tokens in any window of that length; it never holds more than
   its capacity or less than none.
   */
  lemma WindowBound(first: Bucket, requests: seq<Request>, rps: real, capacity: nat, a: real, span: real)
    requires rps > 0.0 && capacity > 0 && first.tokens == capacity as real && Timely(first, requests, rps, capacity)
             && span >= 0.0
    ensures CountIn(Grants(first, requests, rps, capacity), a, a + span) as real <= capacity as real + span * rps
    ensures 0.0 <= After(first, requests, rps, capacity).tokens <= capacity as real
  {
    RequestsStayInBudget(first, requests, rps, capacity);
    BudgetBoundsWindows(Grants(first, requests, rps, capacity), After(first, requests, rps, capacity), rps, capacity,
      a, span);
    BudgetBoundsTokens(Grants(first, requests, rps, capacity), After(first, requests, rps, capacity), rps, capacity);
  }

  // ---------------------------------------------------------------- the bucket

  class TokenBucket {
    const rps: real
    const capacity: nat
    var tokens: real
    var lastRefill: real

    function View(): Bucket
      reads this
    {
      Bucket(tokens, lastRefill)
    }

    ghost predicate Valid() {
      rps > 0.0 && capacity > 0
    }

    /** Full at the start. */
    constructor (rps: real, capacity: nat, now: real)
      requires rps > 0.0 && capacity > 0
      ensures Valid() && this.rps == rps && this.capacity == capacity
      ensures View() == Bucket(capacity as real, now)
    {
      this.rps, this.capacity := rps, capacity;
      tokens, lastRefill := capacity as real, now;
    }

    method Refill(now: real)
      requires Valid()
      modifies this
      ensures Valid() && View() == Refilled(old(View()), rps, capacity, now)
    {
      var elapsed := now - lastRefill;
      if elapsed <= 0.0 { return; }
      tokens := MinReal(capacity as real, tokens + elapsed * rps);
      lastRefill := now;
    }

    method Acquire(m: Moment, timeout: Option<real>) returns (outcome: Outcome, ghost sleeps: nat)
      requires Valid() && m.Forward(lastRefill)
      modifies this
      ensures Valid() && sleeps <= 1
      ensures (View(), outcome) == Acquired(old(View()), rps, capacity, m, timeout)
      ensures old(lastRefill) <= lastRefill
      ensures outcome.Granted? && sleeps == 0 ==> outcome.at == m.locked
    {
      sleeps := 0;
      if timeout.Some? && m.start < m.locked && m.start + timeout.value < m.locked { return TimedOut, sleeps; }
      var now := m.locked;
      ghost var refilled := Refilled(View(), rps, capacity, m.locked);
      while true
        invariant Valid() && sleeps <= 1 && lastRefill <= now && old(lastRefill) <= lastRefill
        invariant sleeps == 0 ==> now == m.locked && View() == old(View())
        invariant sleeps == 1 ==>
            && refilled.tokens < 1.0 && View() == refilled && now == m.locked + Wait(refilled, rps) + m.late
            && Refilled(refilled, rps, capacity, now).tokens >= 1.0
            && !CutShort(refilled, rps, m, timeout)
        decreases 1 - sleeps
      {
        Refill(now);
        if tokens >= 1.0 {
          tokens := tokens - 1.0;
          return Granted(now), sleeps;
        }
        WaitSuffices(View(), rps, capacity, m.late);
        var wait := (1.0 - tokens) / rps;
        var woken := now + wait + m.late;
        if timeout.Some? && (m.start + timeout.value < now + wait || (m.cut && m.start + timeout.value <= woken)) {
          return TimedOut, sleeps;
        }
        now := woken;
        sleeps := sleeps + 1;
      }
    }
  }

  /** A refused configuration raises; an accepted one gives a full bucket. */
  method NewBucket(rps: real, capacity: int, now: real) returns (r: Option<TokenBucket>)
    ensures r.None? <==> rps <= 0.0 || capacity <= 0
    ensures r.Some? ==> fresh(r.value) && r.value.Valid() && r.value.rps == rps && r.value.capacity == capacity
    ensures r.Some? ==> r.value.View() == Bucket(capacity as real, now)
  {
    if rps <= 0.0 { return None; }
    if capacity <= 0 { return None; }
    var b := new TokenBucket(rps, capacity, now);
    return Some(b);
  }
}
