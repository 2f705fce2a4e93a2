/** The per-channel guard: every adapter call first takes a token, then passes the circuit breaker. */
module Guard {
  import opened Results
  import opened RateLimit
  import CB = CircuitBreaker

  type Channel = nat

  datatype GuardConfig = GuardConfig(rps: real, burst: int, timeout: real, failMax: int, reset: real) {
    predicate LimiterFits() { rps > 0.0 && burst > 0 }
    predicate BreakerFits() { failMax > 0 && reset > 0.0 }
    function Breaker(): CB.Config
      requires BreakerFits()
    {
      CB.Config(failMax, reset)
    }
  }

  /** How the part of a guarded call before the adapter runs can end. */
  datatype Admission = Started(at: real) | RateTimeout | BreakerOpen | Misconfigured

  type Limiters = map<Channel, Bucket>
  type Breakers = map<Channel, CB.Breaker>

  /** A bucket or breaker that is not there yet is made on first use. */
  function LimiterOf(limiters: Limiters, c: Channel, cfg: GuardConfig, now: real): Bucket {
    if c in limiters then limiters[c] else Bucket(cfg.burst as real, now)
  }

  function BreakerOf(breakers: Breakers, c: Channel): CB.Breaker {
    if c in breakers then breakers[c] else CB.FRESH
  }

  /** The token comes from the channel's own bucket; none when no bucket can be made. */
  function Token(limiters: Limiters, cfg: GuardConfig, c: Channel, m: Moment): (Limiters, Option<Outcome>) {
    if !cfg.LimiterFits() then (limiters, None)
    else
      var (b, outcome) := Acquired(LimiterOf(limiters, c, cfg, m.start), cfg.rps, cfg.burst, m, Some(cfg.timeout));
      (limiters[c := b], Some(outcome))
  }

  /** With a token in hand the breaker is asked. */
  function Asked(breakers: Breakers, cfg: GuardConfig, c: Channel, token: Option<Outcome>): (Breakers, Admission) {
    if token.None? then (breakers, Misconfigured)
    else if token.value.TimedOut? then (breakers, RateTimeout)
    else if !cfg.BreakerFits() then (breakers, Misconfigured)
    else
      var b, at := BreakerOf(breakers, c), token.value.at;
      (breakers[c := CB.Recovered(b, cfg.Breaker(), at)],
       if CB.Admits(b, cfg.Breaker(), at) then Started(at) else BreakerOpen)
  }

  /** The guard's two dictionaries, by value. */
  datatype Books = Books(limiters: Limiters, breakers: Breakers)

  /** A bad rate is reported before anything happens, a bad breaker limit only after the token is spent. */
  function Begun(g: Books, cfg: GuardConfig, c: Channel, m: Moment): (Books, Admission) {
    var (limiters, token) := Token(g.limiters, cfg, c, m);
    var (breakers, r) := Asked(g.breakers, cfg, c, token);
    (Books(limiters, breakers), r)
  }

  function Over(g: Books, cfg: GuardConfig, c: Channel, ending: CB.Ending, now: real): Books
    requires cfg.BreakerFits()
  {
    g.(breakers := g.breakers[c := CB.Ended(BreakerOf(g.breakers, c), cfg.Breaker(), ending, now)])
  }

  // ---------------------------------------------------------------- what a call is answered

  /** A guarded call as two events; between them other calls run, on any channel. */
  datatype Use = Start(c: Channel, m: Moment) | End(c: Channel, ending: CB.Ending, now: real)

  const EMPTY := Books(map[], map[])

  function Used(g: Books, cfg: GuardConfig, use: Use): Books {
    match use
    case Start(c, m) => Begun(g, cfg, c, m).0
    case End(c, ending, now) => if cfg.BreakerFits() && c in g.breakers then Over(g, cfg, c, ending, now) else g
  }

  function BooksAfter(cfg: GuardConfig, uses: seq<Use>): Books {
    if uses == [] then EMPTY else Used(BooksAfter(cfg, uses[..|uses| - 1]), cfg, uses[|uses| - 1])
  }

  /** The channel's own bucket: made full at its first call, and drawn on by each of its calls. */
  function OwnBucket(cfg: GuardConfig, uses: seq<Use>, c: Channel, now: real): Bucket
    requires cfg.LimiterFits()
  {
    if uses == [] then Bucket(cfg.burst as real, now)
    else
      var before, use := uses[..|uses| - 1], uses[|uses| - 1];
      if use.Start? && use.c == c
      then Acquired(OwnBucket(cfg, before, c, use.m.start), cfg.rps, cfg.burst, use.m, Some(cfg.timeout)).0
      else OwnBucket(cfg, before, c, now)
  }

  /** The answer of that bucket to the next call. */
  function OwnToken(cfg: GuardConfig, uses: seq<Use>, c: Channel, m: Moment): Outcome
    requires cfg.LimiterFits()
  {
    Acquired(OwnBucket(cfg, uses, c, m.start), cfg.rps, cfg.burst, m, Some(cfg.timeout)).1
  }

  /** The channel's own breaker events: a call that was granted a token is one, dated by the grant; so is an ending. */
  function Events(cfg: GuardConfig, uses: seq<Use>, c: Channel): seq<CB.Event>
    requires cfg.LimiterFits()
  {
    if uses == [] then []
    else
      var before, use := uses[..|uses| - 1], uses[|uses| - 1];
      Events(cfg, before, c)
        + if use.c != c then []
          else match use
               case Start(_, m) => (match OwnToken(cfg, before, c, m) case Granted(at) => [CB.Began(at)] case _ => [])
               case End(_, ending, now) => if Events(cfg, before, c) == [] then [] else [CB.Finished(ending, now)]
  }

  /** What the history lets through: few failures since the last success, or a cooldown that is over. */
  predicate LetsThrough(cfg: GuardConfig, events: seq<CB.Event>, at: real)
    requires cfg.BreakerFits()
  {
    || CB.Streak(events) < cfg.failMax
    || CB.Rested(cfg.Breaker(), events)
    || at - CB.LastFailure(events) >= cfg.reset
  }

  /** The answer to a call, each with its own condition. */
  predicate Verdict(cfg: GuardConfig, uses: seq<Use>, c: Channel, m: Moment, r: Admission) {
    if !cfg.LimiterFits() then r.Misconfigured?
    else
      var token := OwnToken(cfg, uses, c, m);
      && (r.RateTimeout? <==> token.TimedOut?)
      && (r.Misconfigured? <==> token.Granted? && !cfg.BreakerFits())
      && (r.Started? <==>
            token.Granted? && cfg.BreakerFits() && LetsThrough(cfg, Events(cfg, uses, c), token.at))
      && (r.Started? ==> r.at == token.at)
  }

  lemma {:induction false} BucketFromHistory(cfg: GuardConfig, uses: seq<Use>, c: Channel, now: real)
    requires cfg.LimiterFits()
    ensures LimiterOf(BooksAfter(cfg, uses).limiters, c, cfg, now) == OwnBucket(cfg, uses, c, now)
  {
    if uses != [] {
      var before, use := uses[..|uses| - 1], uses[|uses| - 1];
      BucketFromHistory(cfg, before, c, now);
      if use.Start? {
        BucketFromHistory(cfg, before, c, use.m.start);
      }
    }
  }

  lemma BreakerAfter(cfg: GuardConfig, events: seq<CB.Event>, e: CB.Event)
    requires cfg.BreakerFits()
    ensures CB.After(CB.FRESH, cfg.Breaker(), events + [e])
            == CB.Step(CB.After(CB.FRESH, cfg.Breaker(), events), cfg.Breaker(), e)
  {
    assert (events + [e])[..|events|] == events;
  }

  lemma {:induction false} BreakerFromHistory(cfg: GuardConfig, uses: seq<Use>, c: Channel)
    requires cfg.LimiterFits() && cfg.BreakerFits()
    ensures var breakers, events := BooksAfter(cfg, uses).breakers, Events(cfg, uses, c);
            && (c in breakers <==> events != [])
            && BreakerOf(breakers, c) == CB.After(CB.FRESH, cfg.Breaker(), events)
  {
    if uses != [] {
      var before, use := uses[..|uses| - 1], uses[|uses| - 1];
      BreakerFromHistory(cfg, before, c);
      var events := Events(cfg, before, c);
      assert events + [] == events;
      match use
      case Start(d, m) =>
        if d == c {
          BucketFromHistory(cfg, before, c, m.start);
          var token := OwnToken(cfg, before, c, m);
          if token.Granted? { BreakerAfter(cfg, events, CB.Began(token.at)); }
        }
      case End(d, ending, now) =>
        BreakerAfter(cfg, events, CB.Finished(ending, now));
    }
  }

  /** Whatever ran before on any channel, the answer to a call follows from its own channel's history. */
  lemma AnswerFromHistory(cfg: GuardConfig, uses: seq<Use>, c: Channel, m: Moment)
    ensures Verdict(cfg, uses, c, m, Begun(BooksAfter(cfg, uses), cfg, c, m).1)
  {
    if cfg.LimiterFits() {
      BucketFromHistory(cfg, uses, c, m.start);
      if cfg.BreakerFits() {
        BreakerFromHistory(cfg, uses, c);
        var token := OwnToken(cfg, uses, c, m);
        if token.Granted? {
          CB.AdmittedExactlyWhen(cfg.Breaker(), Events(cfg, uses, c), token.at);
        }
      }
    }
  }

  // ---------------------------------------------------------------- the guard

  class ChannelGuard {
    const cfg: GuardConfig
    var limiters: map<Channel, TokenBucket>
    var breakers: map<Channel, CB.CircuitBreaker>

    ghost function Buckets(): set<object>
      reads `limiters
    {
      set c | c in limiters :: limiters[c] as object
    }

    ghost function Switches(): set<object>
      reads `breakers
    {
      set c | c in breakers :: breakers[c] as object
    }

    ghost function LimiterViews(): Limiters
      reads `limiters, Buckets()
    {
      map c | c in limiters :: limiters[c].View()
    }

    ghost function BreakerViews(): Breakers
      reads `breakers, Switches()
    {
      map c | c in breakers :: breakers[c].View()
    }

    ghost predicate LimiterOk(c: Channel)
      requires c in limiters
      reads `limiters, limiters[c]
    {
      limiters[c].Valid() && limiters[c].rps == cfg.rps && limiters[c].capacity == cfg.burst
    }

    ghost predicate LimitersOk()
      reads `limiters, Buckets()
    {
      && (forall c <- limiters :: LimiterOk(c))
      && (forall c, d | c in limiters && d in limiters && c != d :: limiters[c] != limiters[d])
    }

    ghost predicate BreakersOk()
      reads `breakers, Switches()
    {
      && (forall c <- breakers :: cfg.BreakerFits() && breakers[c].cfg == cfg.Breaker())
      && (forall c, d | c in breakers && d in breakers && c != d :: breakers[c] != breakers[d])
    }

    ghost predicate Valid()
      reads this, Buckets(), Switches()
    {
      LimitersOk() && BreakersOk()
    }

    ghost function View(): Books
      reads this, Buckets(), Switches()
    {
      Books(LimiterViews(), BreakerViews())
    }

    constructor (cfg: GuardConfig)
      ensures Valid() && View() == Books(map[], map[]) && this.cfg == cfg
    {
      this.cfg, limiters, breakers := cfg, map[], map[];
    }

    method LimiterFor(channel: Channel, now: real) returns (r: Option<TokenBucket>)
      requires LimitersOk()
      modifies `limiters
      ensures LimitersOk()
      ensures r.None? <==> !cfg.LimiterFits()
      ensures r.None? ==> limiters == old(limiters)
      ensures r.Some? ==> limiters == old(limiters)[channel := r.value]
      ensures r.Some? ==> r.value.View() == LimiterOf(old(LimiterViews()), channel, cfg, now)
      ensures r.Some? ==> if channel in old(limiters) then r.value == old(limiters[channel]) else fresh(r.value)
    {
      if channel in limiters {
        assert LimiterOk(channel);
        return Some(limiters[channel]);
      }
      r := NewBucket(cfg.rps, cfg.burst, now);
      if r.Some? {
        limiters := limiters[channel := r.value];
      }
    }

    method BreakerFor(channel: Channel) returns (r: Option<CB.CircuitBreaker>)
      requires BreakersOk()
      modifies `breakers
      ensures BreakersOk()
      ensures r.None? <==> !cfg.BreakerFits()
      ensures r.None? ==> breakers == old(breakers)
      ensures r.Some? ==> breakers == old(breakers)[channel := r.value]
      ensures r.Some? ==> r.value.View() == BreakerOf(old(BreakerViews()), channel)
      ensures r.Some? ==> if channel in old(breakers) then r.value == old(breakers[channel]) else fresh(r.value)
    {
      if channel in breakers { return Some(breakers[channel]); }
      r := CB.NewBreaker(cfg.failMax, cfg.reset);
      if r.Some? {
        breakers := breakers[channel := r.value];
      }
    }

    method TakeToken(channel: Channel, m: Moment) returns (o: Option<Outcome>)
      requires LimitersOk() && m.Forward(LimiterOf(LimiterViews(), channel, cfg, m.start).lastRefill)
      modifies `limiters, Buckets()
      ensures LimitersOk()
      ensures fresh(Buckets() - old(Buckets()))
      ensures (LimiterViews(), o) == Token(old(LimiterViews()), cfg, channel, m)
    {
      var limiter := LimiterFor(channel, m.start);
      if limiter.None? { return None; }
      assert LimiterOk(channel);
      label made:
      var outcome, sleeps := limiter.value.Acquire(m, Some(cfg.timeout));
      forall c | c in limiters
        ensures LimiterOk(c)
      {
        if c != channel {
          assert old@made(LimiterOk(c));
        }
      }
      assert LimiterViews() == old(LimiterViews())[channel := limiter.value.View()];
      return Some(outcome);
    }

    method AskBreaker(channel: Channel, token: Option<Outcome>) returns (r: Admission)
      requires BreakersOk()
      modifies `breakers, Switches()
      ensures BreakersOk() && fresh(Switches() - old(Switches()))
      ensures (BreakerViews(), r) == Asked(old(BreakerViews()), cfg, channel, token)
    {
      if token.None? { return Misconfigured; }
      if token.value.TimedOut? { return RateTimeout; }
      var breaker := BreakerFor(channel);
      if breaker.None? { return Misconfigured; }
      var admitted := breaker.value.Begin(token.value.at);
      assert BreakerViews() == old(BreakerViews())[channel := breaker.value.View()];
      if !admitted { return BreakerOpen; }
      return Started(token.value.at);
    }

    twostate lemma LimitersUntouched()
      requires old(LimitersOk()) && limiters == old(limiters)
      requires forall c <- old(limiters) :: unchanged(old(limiters[c]))
      ensures LimitersOk() && LimiterViews() == old(LimiterViews()) && Buckets() == old(Buckets())
    {
      forall c <- limiters ensures LimiterOk(c) { assert old(LimiterOk(c)); }
    }

    twostate lemma BreakersUntouched()
      requires old(BreakersOk()) && breakers == old(breakers)
      requires forall c <- old(breakers) :: unchanged(old(breakers[c]))
      ensures BreakersOk() && BreakerViews() == old(BreakerViews()) && Switches() == old(Switches())
    {
    }

    /** A guarded call up to the point where the adapter starts. */
    method Begin(channel: Channel, m: Moment) returns (r: Admission)
      requires Valid() && m.Forward(LimiterOf(LimiterViews(), channel, cfg, m.start).lastRefill)
      modifies this, Buckets(), Switches()
      ensures Valid()
      ensures fresh(Buckets() - old(Buckets())) && fresh(Switches() - old(Switches()))
      ensures LimiterViews() == Token(old(LimiterViews()), cfg, channel, m).0
      ensures (BreakerViews(), r)
              == Asked(old(BreakerViews()), cfg, channel, Token(old(LimiterViews()), cfg, channel, m).1)
      ensures forall uses :: BooksAfter(cfg, uses) == old(View()) ==> Verdict(cfg, uses, channel, m, r)
    {
      forall uses | BooksAfter(cfg, uses) == View()
        ensures Verdict(cfg, uses, channel, m, Begun(View(), cfg, channel, m).1)
      {
        AnswerFromHistory(cfg, uses, channel, m);
      }
      var token := TakeToken(channel, m);
      BreakersUntouched();
      label taken:
      r := AskBreaker(channel, token);
      LimitersUntouched@taken();
    }

    /** The end of a call whose adapter ran. */
    method Finish(channel: Channel, ending: CB.Ending, now: real)
      requires Valid() && channel in breakers
      modifies breakers[channel]
      ensures Valid() && cfg.BreakerFits()
      ensures View() == Over(old(View()), cfg, channel, ending, now)
    {
      breakers[channel].Finish(ending, now);
      assert BreakerViews() == old(BreakerViews())[channel := breakers[channel].View()];
    }
  }

  // ---------------------------------------------------------------- any interleaving of channels

  function StartOf(r: Admission): seq<real> {
    if r.Started? then [r.at] else []
  }

  /** When the adapter calls of channel c started. */
  function Starts(cfg: GuardConfig, uses: seq<Use>, c: Channel): seq<real> {
    if uses == [] then []
    else
      var before, use := uses[..|uses| - 1], uses[|uses| - 1];
      Starts(cfg, before, c)
        + if use.Start? && use.c == c then StartOf(Begun(BooksAfter(cfg, before), cfg, c, use.m).1) else []
  }

  /**
   An adapter call starts exactly when its token was granted and its channel's history lets it through, and at the date
   of the grant.
   */
  lemma StartsExactlyWhen(cfg: GuardConfig, uses: seq<Use>, c: Channel, m: Moment)
    ensures Starts(cfg, uses + [Start(c, m)], c)
            == Starts(cfg, uses, c)
               + if cfg.LimiterFits() && cfg.BreakerFits() && OwnToken(cfg, uses, c, m).Granted?
                    && LetsThrough(cfg, Events(cfg, uses, c), OwnToken(cfg, uses, c, m).at)
                 then [OwnToken(cfg, uses, c, m).at] else []
  {
    assert (uses + [Start(c, m)])[..|uses|] == uses;
    AnswerFromHistory(cfg, uses, c, m);
  }

  /** The clock never runs backwards for any bucket. */
  predicate Timely(cfg: GuardConfig, uses: seq<Use>) {
    uses == []
    || (var before, use := uses[..|uses| - 1], uses[|uses| - 1];
        && Timely(cfg, before)
        && (use.Start? ==>
              use.m.Forward(LimiterOf(BooksAfter(cfg, before).limiters, use.c, cfg, use.m.start).lastRefill)))
  }

  /** `some` is `all` with some entries left out. */
  predicate Thinned(some: seq<real>, all: seq<real>) {
    if all == [] then some == []
    else
      || Thinned(some, all[..|all| - 1])
      || (some != [] && some[|some| - 1] == all[|all| - 1] && Thinned(some[..|some| - 1], all[..|all| - 1]))
  }

  lemma {:induction false} ThinnedCount(some: seq<real>, all: seq<real>, a: real, b: real)
    requires Thinned(some, all)
    ensures CountIn(some, a, b) <= CountIn(all, a, b)
  {
    if all != [] {
      var n := |all| - 1;
      if Thinned(some, all[..n]) {
        ThinnedCount(some, all[..n], a, b);
      } else {
        ThinnedCount(some[..|some| - 1], all[..n], a, b);
      }
    }
  }

  lemma ThinnedMore(some: seq<real>, all: seq<real>, at: real)
    requires Thinned(some, all)
    ensures Thinned(some, all + [at]) && Thinned(some + [at], all + [at])
  {
    assert (all + [at])[..|all|] == all && (some + [at])[..|some|] == some;
  }

  lemma TokenBacks(g: Books, cfg: GuardConfig, c: Channel, m: Moment, grants: seq<real>)
    requires cfg.LimiterFits() && m.Forward(LimiterOf(g.limiters, c, cfg, m.start).lastRefill)
             && Backed(grants, g, cfg, c)
    ensures var (limiters, token) := Token(g.limiters, cfg, c, m);
            token.Some? && c in limiters && InBudget(grants + Dates(token.value), limiters[c], cfg.rps, cfg.burst)
  {
    var b := LimiterOf(g.limiters, c, cfg, m.start);
    if c !in g.limiters {
      FullIsInBudget(b, cfg.rps, cfg.burst);
    }
    AcquireStaysInBudget(grants, b, cfg.rps, cfg.burst, m, Some(cfg.timeout));
  }

  lemma StartTakesAToken(g: Books, cfg: GuardConfig, c: Channel, m: Moment, starts: seq<real>,
      grants: seq<real>) returns (grants': seq<real>)
    requires cfg.LimiterFits() && m.Forward(LimiterOf(g.limiters, c, cfg, m.start).lastRefill)
    requires Thinned(starts, grants) && Backed(grants, g, cfg, c)
    ensures var (g', r) := Begun(g, cfg, c, m);
            Backed(grants', g', cfg, c) && Thinned(starts + StartOf(r), grants')
  {
    TokenBacks(g, cfg, c, m, grants);
    var token := Token(g.limiters, cfg, c, m).1.value;
    grants' := grants + Dates(token);
    StartIsAGrant(g.breakers, cfg, c, token, starts, grants);
  }

  lemma StartIsAGrant(breakers: Breakers, cfg: GuardConfig, c: Channel, token: Outcome, starts: seq<real>,
      grants: seq<real>)
    requires Thinned(starts, grants)
    ensures Thinned(starts + StartOf(Asked(breakers, cfg, c, Some(token)).1), grants + Dates(token))
  {
    assert grants + [] == grants && starts + [] == starts;
    if token.Granted? {
      ThinnedMore(starts, grants, token.at);
    }
  }

  /** The grants of the channel's bucket, if it has one yet. */
  ghost predicate Backed(grants: seq<real>, g: Books, cfg: GuardConfig, c: Channel)
    requires cfg.LimiterFits()
  {
    if c in g.limiters then InBudget(grants, g.limiters[c], cfg.rps, cfg.burst) else grants == []
  }

  lemma {:induction false} StartsTakeTokens(cfg: GuardConfig, uses: seq<Use>, c: Channel) returns (grants: seq<real>)
    requires cfg.LimiterFits() && Timely(cfg, uses)
    ensures Thinned(Starts(cfg, uses, c), grants) && Backed(grants, BooksAfter(cfg, uses), cfg, c)
  {
    if uses == [] {
      grants := [];
    } else {
      var before, use := uses[..|uses| - 1], uses[|uses| - 1];
      grants := StartsTakeTokens(cfg, before, c);
      if use.Start? && use.c == c {
        grants := StartTakesAToken(BooksAfter(cfg, before), cfg, c, use.m, Starts(cfg, before, c), grants);
      } else {
        assert Starts(cfg, uses, c) == Starts(cfg, before, c);
      }
    }
  }

  lemma BackedWindows(grants: seq<real>, g: Books, cfg: GuardConfig, c: Channel, a: real, span: real)
    requires cfg.LimiterFits() && Backed(grants, g, cfg, c) && span >= 0.0
    ensures CountIn(grants, a, a + span) as real <= cfg.burst as real + span * cfg.rps
  {
    if c in g.limiters {
      BudgetBoundsWindows(grants, g.limiters[c], cfg.rps, cfg.burst, a, span);
    } else {
      var full := Bucket(cfg.burst as real, a);
      FullIsInBudget(full, cfg.rps, cfg.burst);
      BudgetBoundsWindows(grants, full, cfg.rps, cfg.burst, a, span);
    }
  }

  /**
   However the channels' calls interleave and end, a channel's adapter calls start at most burst + span * rps times in
   any window of that length.
   */
  lemma StartsAreRateLimited(cfg: GuardConfig, uses: seq<Use>, c: Channel, a: real, span: real)
    requires cfg.LimiterFits() && Timely(cfg, uses) && span >= 0.0
    ensures CountIn(Starts(cfg, uses, c), a, a + span) as real <= cfg.burst as real + span * cfg.rps
  {
    var grants := StartsTakeTokens(cfg, uses, c);
    ThinnedCount(Starts(cfg, uses, c), grants, a, a + span);
    BackedWindows(grants, BooksAfter(cfg, uses), cfg, c, a, span);
  }

  // ---------------------------------------------------------------- channels do not disturb each other

  function Only(uses: seq<Use>, c: Channel): seq<Use> {
    if uses == [] then []
    else Only(uses[..|uses| - 1], c) + if uses[|uses| - 1].c == c then [uses[|uses| - 1]] else []
  }

  predicate SameFor(g: Books, h: Books, c: Channel) {
    && (c in g.limiters <==> c in h.limiters) && (c in g.limiters ==> g.limiters[c] == h.limiters[c])
    && (c in g.breakers <==> c in h.breakers) && (c in g.breakers ==> g.breakers[c] == h.breakers[c])
  }

  lemma SameUse(g: Books, h: Books, cfg: GuardConfig, use: Use)
    requires SameFor(g, h, use.c)
    ensures SameFor(Used(g, cfg, use), Used(h, cfg, use), use.c)
    ensures use.Start? ==> Begun(g, cfg, use.c, use.m).1 == Begun(h, cfg, use.c, use.m).1
  {
  }

  lemma OtherUse(g: Books, cfg: GuardConfig, use: Use, c: Channel)
    requires use.c != c
    ensures SameFor(Used(g, cfg, use), g, c)
  {
  }

  lemma {:induction false} ChannelsAreIndependent(cfg: GuardConfig, uses: seq<Use>, c: Channel)
    ensures SameFor(BooksAfter(cfg, uses), BooksAfter(cfg, Only(uses, c)), c)
    ensures Starts(cfg, uses, c) == Starts(cfg, Only(uses, c), c)
  {
    if uses != [] {
      var before, use := uses[..|uses| - 1], uses[|uses| - 1];
      ChannelsAreIndependent(cfg, before, c);
      if use.c == c {
        assert Only(uses, c)[..|Only(uses, c)| - 1] == Only(before, c);
        SameUse(BooksAfter(cfg, before), BooksAfter(cfg, Only(before, c)), cfg, use);
      } else {
        OtherUse(BooksAfter(cfg, before), cfg, use, c);
        assert Only(uses, c) == Only(before, c);
        assert Starts(cfg, uses, c) == Starts(cfg, before, c);
      }
    }
  }
}
