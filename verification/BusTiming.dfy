/** When a message can be read: its visibility timeout, the backoff after a failure, the time to a dead letter. */
module BusTiming {
  import opened Results
  import opened EventBus
  import opened BusProtocol
  import opened BusDelivery
  import opened BusBackoff

  /** How often message m was read. */
  function ReadsOf(steps: seq<Step>, m: MsgId): nat {
    if steps == [] then 0
    else
      var step := steps[|steps| - 1];
      ReadsOf(steps[..|steps| - 1], m) + if step.Read? && step.m == m then 1 else 0
  }

  /** The clock when step i is taken. */
  function TimeAt(cfg: Config, steps: seq<Step>, i: nat): int
    requires Run(cfg, START, steps).Some? && i <= |steps|
  {
    PrefixRuns(cfg, steps, i);
    Run(cfg, START, steps[..i]).value.now
  }

  lemma {:induction false} PrefixRuns(cfg: Config, steps: seq<Step>, i: nat)
    requires Run(cfg, START, steps).Some? && i <= |steps|
    ensures Run(cfg, START, steps[..i]).Some?
    decreases |steps|
  {
    if i < |steps| {
      PrefixRuns(cfg, steps[..|steps| - 1], i);
      assert steps[..|steps| - 1][..i] == steps[..i];
    } else {
      assert steps[..i] == steps;
    }
  }

  /** The delay the n-th read is followed by when it failed. */
  function DelayAfter(cfg: Config, n: nat): int {
    Min(Power(cfg.base, Max(n, 1)), cfg.cap)
  }

  /**
   The time from which m can be read, told from the steps: its publication, then after each read the visibility
   timeout, and after each failed read that is to be retried the delay.
   */
  function ReadyFrom(cfg: Config, steps: seq<Step>, m: MsgId): int
    requires Run(cfg, START, steps).Some?
  {
    if steps == [] then 0
    else
      var before, step := steps[..|steps| - 1], steps[|steps| - 1];
      var s := Run(cfg, START, before).value;
      match step
      case RelayCommit(r) => if m in s.relays[r].sent then s.now else ReadyFrom(cfg, before, m)
      case Read(_, k) => if k == m then s.now + cfg.visibility else ReadyFrom(cfg, before, m)
      case SettleFailure(c) =>
        var job := s.consumers[c].job;
        if job.msg == m && job.readCt < cfg.maxRetries then s.now + DelayAfter(cfg, job.readCt)
        else ReadyFrom(cfg, before, m)
      case _ => ReadyFrom(cfg, before, m)
  }

  // ---------------------------------------------------------------- any number of workers

  /** What a relay's commit does to one message. */
  lemma PublishMessage(db: Db, b: Batch, now: int, m: MsgId)
    requires BatchOk(db, b) && |b.sent| == |b.rows|
    ensures var db' := PublishTx(db, b.rows, b.sent, now);
            && db'.archive == db.archive
            && (m in db'.live <==> m in db.live || m in b.sent)
            && (m in b.sent ==>
                  m !in db.live && m !in db.archive && db'.live[m].readCt == 0 && db'.live[m].visibleAt == now)
            && (m in db.live ==> db'.live[m] == db.live[m])
  {
    EnqueuedFacts(db.live, b.rows, b.sent, now);
  }

  /** What a step does to one queued message. */
  lemma StepMessage(cfg: Config, s: State, step: Step, m: MsgId)
    requires RelaysOk(s) && Enabled(cfg, s, step) && m in Next(cfg, s, step).db.live
    ensures var k := Next(cfg, s, step).db.live[m];
            match step
            case RelayCommit(r) =>
              if m in s.relays[r].sent
              then m !in s.db.live && m !in s.db.archive && k.readCt == 0 && k.visibleAt == s.now
              else m in s.db.live && k == s.db.live[m]
            case Read(_, n) =>
              && m in s.db.live
              && k == if n == m then Message(s.db.live[m].event, s.db.live[m].readCt + 1, s.now + cfg.visibility)
                      else s.db.live[m]
            case SettleFailure(c) =>
              && m in s.db.live
              && var job := s.consumers[c].job;
                 k == if job.msg == m && job.readCt < cfg.maxRetries
                      then s.db.live[m].(visibleAt := s.now + DelayAfter(cfg, job.readCt)) else s.db.live[m]
            case _ => m in s.db.live && k == s.db.live[m]
  {
    if step.RelayCommit? {
      assert BatchOk(s.db, s.relays[step.r]);
      PublishMessage(s.db, s.relays[step.r], s.now, m);
    }
  }

  /** A message, once there, stays queued or archived. */
  lemma StepKeepsMessage(cfg: Config, s: State, step: Step, m: MsgId)
    requires RelaysOk(s) && Enabled(cfg, s, step) && (m in s.db.live || m in s.db.archive)
    ensures var db' := Next(cfg, s, step).db; m in db'.live || m in db'.archive
  {
    if step.RelayCommit? {
      assert BatchOk(s.db, s.relays[step.r]);
      PublishMessage(s.db, s.relays[step.r], s.now, m);
    }
  }

  lemma {:induction false} UnsentIsUnread(cfg: Config, steps: seq<Step>, m: MsgId)
    requires Run(cfg, START, steps).Some?
    requires m !in Run(cfg, START, steps).value.db.live && m !in Run(cfg, START, steps).value.db.archive
    ensures ReadsOf(steps, m) == 0
  {
    if steps != [] {
      var before, step := steps[..|steps| - 1], steps[|steps| - 1];
      var s := Run(cfg, START, before).value;
      RunKeepsInv(cfg, START, before);
      assert RelaysOk(s);
      if m in s.db.live || m in s.db.archive {
        StepKeepsMessage(cfg, s, step, m);
      } else {
        UnsentIsUnread(cfg, before, m);
      }
    }
  }

  /** A step's share of the history: how often m was read and from when it can be. */
  lemma HistoryStep(cfg: Config, steps: seq<Step>, m: MsgId)
    requires Run(cfg, START, steps).Some? && steps != []
    ensures var before, step := steps[..|steps| - 1], steps[|steps| - 1];
            var s := Run(cfg, START, before).value;
            && ReadsOf(steps, m) == ReadsOf(before, m) + (if step.Read? && step.m == m then 1 else 0)
            && ReadyFrom(cfg, steps, m)
               == match step
                  case RelayCommit(r) => if m in s.relays[r].sent then s.now else ReadyFrom(cfg, before, m)
                  case Read(_, k) => if k == m then s.now + cfg.visibility else ReadyFrom(cfg, before, m)
                  case SettleFailure(c) =>
                    if s.consumers[c].job.msg == m && s.consumers[c].job.readCt < cfg.maxRetries
                    then s.now + DelayAfter(cfg, s.consumers[c].job.readCt)
                    else ReadyFrom(cfg, before, m)
                  case _ => ReadyFrom(cfg, before, m)
  {
  }

  /** The history up to here explains message m. */
  ghost predicate Told(cfg: Config, steps: seq<Step>, s: State, m: MsgId)
    requires Run(cfg, START, steps).Some?
  {
    m in s.db.live ==>
      s.db.live[m].readCt == ReadsOf(steps, m) && s.db.live[m].visibleAt == ReadyFrom(cfg, steps, m)
  }

  lemma StepTells(cfg: Config, steps: seq<Step>, m: MsgId)
    requires Run(cfg, START, steps).Some? && steps != []
    requires var before := steps[..|steps| - 1];
             var s := Run(cfg, START, before).value;
             && RelaysOk(s) && Told(cfg, before, s, m)
             && (m !in s.db.live && m !in s.db.archive ==> ReadsOf(before, m) == 0)
    ensures Told(cfg, steps, Run(cfg, START, steps).value, m)
  {
    if m in Run(cfg, START, steps).value.db.live {
      HistoryStep(cfg, steps, m);
      StepMessage(cfg, Run(cfg, START, steps[..|steps| - 1]).value, steps[|steps| - 1], m);
    }
  }

  lemma {:induction false} MessageFromHistory(cfg: Config, steps: seq<Step>, m: MsgId)
    requires Run(cfg, START, steps).Some?
    ensures Told(cfg, steps, Run(cfg, START, steps).value, m)
  {
    if steps != [] {
      var before := steps[..|steps| - 1];
      var s := Run(cfg, START, before).value;
      RunKeepsInv(cfg, START, before);
      MessageFromHistory(cfg, before, m);
      if m !in s.db.live && m !in s.db.archive {
        UnsentIsUnread(cfg, before, m);
      }
      StepTells(cfg, steps, m);
    }
  }

  /**
   However many workers interleave and crash, a queued message counts its reads and is visible exactly from the time
   its history gives.
   */
  lemma VisibleExactlyFrom(cfg: Config, steps: seq<Step>, m: MsgId)
    requires Run(cfg, START, steps).Some? && m in Run(cfg, START, steps).value.db.live
    ensures var s := Run(cfg, START, steps).value;
            && s.db.live[m].readCt == ReadsOf(steps, m)
            && forall t :: IsVisible(s.db, m, t) <==> t >= ReadyFrom(cfg, steps, m)
  {
    MessageFromHistory(cfg, steps, m);
  }

  lemma StepTime(cfg: Config, s: State, step: Step)
    requires Enabled(cfg, s, step)
    ensures Next(cfg, s, step).now == s.now + if step.Tick? then step.d else 0
  {
  }

  lemma {:induction false} TimePasses(cfg: Config, steps: seq<Step>, i: nat, j: nat)
    requires Run(cfg, START, steps).Some? && i <= j <= |steps|
    ensures TimeAt(cfg, steps, i) <= TimeAt(cfg, steps, j)
    decreases j
  {
    if i < j {
      TimePasses(cfg, steps, i, j - 1);
      PrefixRuns(cfg, steps, j);
      assert steps[..j][..j - 1] == steps[..j - 1];
      StepTime(cfg, Run(cfg, START, steps[..j - 1]).value, steps[j - 1]);
    }
  }

  // ---------------------------------------------------------------- one consumer: a retry waits

  /** Step i settles the failure of the last read of m, with a retry left. */
  predicate RetriedAt(cfg: Config, steps: seq<Step>, i: nat, m: MsgId)
    requires Run(cfg, START, steps).Some? && i < |steps|
  {
    PrefixRuns(cfg, steps, i);
    && steps[i].SettleFailure? && ReadsOf(steps[..i], m) < cfg.maxRetries
    && var s := Run(cfg, START, steps[..i]).value;
       steps[i].c in s.consumers && s.consumers[steps[i].c].job.msg == m
  }

  /** m waits in the queue until `ready`, in nobody's hands. */
  predicate WaitsUntil(s: State, m: MsgId, ready: int) {
    m in s.db.live && !InHand(s, m) && s.db.live[m].visibleAt == ready
  }

  lemma StepKeepsWaiting(cfg: Config, s: State, step: Step, m: MsgId, ready: int)
    requires RelaysOk(s) && JobOk(s) && WaitsUntil(s, m, ready) && Enabled(cfg, s, step)
    requires OneConsumer(step) && !(step.Read? && step.m == m)
    ensures WaitsUntil(Next(cfg, s, step), m, ready)
  {
    if step.RelayCommit? {
      assert BatchOk(s.db, s.relays[step.r]);
      PublishMessage(s.db, s.relays[step.r], s.now, m);
    }
  }

  lemma RetryWaits(cfg: Config, s: State, c: WorkerId, m: MsgId)
    requires QueueOk(s.db) && JobOk(s) && Enabled(cfg, s, SettleFailure(c))
    requires s.consumers[c].job.msg == m && s.db.live[m].readCt < cfg.maxRetries
    ensures WaitsUntil(Next(cfg, s, SettleFailure(c)), m, s.now + DelayAfter(cfg, s.db.live[m].readCt))
  {
  }

  lemma RetriedNow(cfg: Config, steps: seq<Step>, m: MsgId)
    requires Run(cfg, START, steps).Some? && forall step <- steps :: OneConsumer(step)
    requires steps != [] && RetriedAt(cfg, steps, |steps| - 1, m)
    ensures var n := |steps| - 1;
            WaitsUntil(Run(cfg, START, steps).value, m,
                       TimeAt(cfg, steps, n) + DelayAfter(cfg, ReadsOf(steps[..n], m)))
  {
    var before := steps[..|steps| - 1];
    assert forall x <- before :: x in steps;
    RunKeepsOne(cfg, before);
    MessageFromHistory(cfg, before, m);
    RetryWaits(cfg, Run(cfg, START, before).value, steps[|steps| - 1].c, m);
  }

  lemma {:induction false} RetriedWaits(cfg: Config, steps: seq<Step>, i: nat, m: MsgId)
    requires Run(cfg, START, steps).Some? && forall step <- steps :: OneConsumer(step)
    requires i < |steps| && RetriedAt(cfg, steps, i, m) && ReadsOf(steps, m) == ReadsOf(steps[..i], m)
    ensures WaitsUntil(Run(cfg, START, steps).value, m,
                       TimeAt(cfg, steps, i) + DelayAfter(cfg, ReadsOf(steps[..i], m)))
  {
    var n := |steps| - 1;
    if i == n {
      RetriedNow(cfg, steps, m);
    } else {
      var before := steps[..n];
      assert steps[n] in steps && forall x <- before :: x in steps;
      assert before[..i] == steps[..i];
      ReadsGrow(before, i, m);
      RetriedWaits(cfg, before, i, m);
      RunKeepsOne(cfg, before);
      StepKeepsWaiting(cfg, Run(cfg, START, before).value, steps[n], m,
        TimeAt(cfg, steps, i) + DelayAfter(cfg, ReadsOf(steps[..i], m)));
    }
  }

  lemma {:induction false} ReadsGrow(steps: seq<Step>, i: nat, m: MsgId)
    requires i <= |steps|
    ensures ReadsOf(steps[..i], m) <= ReadsOf(steps, m)
    decreases |steps|
  {
    if i < |steps| {
      ReadsGrow(steps[..|steps| - 1], i, m);
      assert steps[..|steps| - 1][..i] == steps[..i];
    } else {
      assert steps[..i] == steps;
    }
  }

  /**
   When the n-th read of m settles as a retry at time t, then until m is read again it stays queued, no read of it is
   possible before t + min(base ^ max(n, 1), cap), and from that time on it is visible.
   */
  lemma RetryHidesExactlyUntil(cfg: Config, steps: seq<Step>, i: nat, m: MsgId)
    requires Run(cfg, START, steps).Some? && forall step <- steps :: OneConsumer(step)
    requires i < |steps| && RetriedAt(cfg, steps, i, m) && ReadsOf(steps, m) == ReadsOf(steps[..i], m)
    ensures var s, n := Run(cfg, START, steps).value, ReadsOf(steps[..i], m);
            var ready := TimeAt(cfg, steps, i) + Min(Power(cfg.base, Max(n, 1)), cfg.cap);
            && m in s.db.live
            && (IsVisible(s.db, m, s.now) <==> s.now >= ready)
            && (s.now < ready ==> forall w :: !Enabled(cfg, s, Read(w, m)))
  {
    RetriedWaits(cfg, steps, i, m);
  }

  lemma {:induction false} ReadBetween(steps: seq<Step>, i: nat, m: MsgId) returns (k: nat)
    requires i < |steps| && ReadsOf(steps[..i], m) != ReadsOf(steps, m)
    ensures i <= k < |steps| && steps[k].Read? && steps[k].m == m
  {
    k := |steps| - 1;
    if !(steps[k].Read? && steps[k].m == m) {
      assert steps[..k][..i] == steps[..i];
      k := ReadBetween(steps[..k], i, m);
    }
  }

  lemma ReadIsVisible(cfg: Config, steps: seq<Step>, j: nat, m: MsgId)
    requires Run(cfg, START, steps).Some? && j < |steps| && steps[j].Read? && steps[j].m == m
    ensures Run(cfg, START, steps[..j]).Some?
    ensures IsVisible(Run(cfg, START, steps[..j]).value.db, m, TimeAt(cfg, steps, j))
  {
    PrefixRuns(cfg, steps, j);
    PrefixRuns(cfg, steps, j + 1);
    assert steps[..j + 1][..j] == steps[..j];
  }

  /** The first read of m after the retry. */
  lemma NextReadWaits(cfg: Config, steps: seq<Step>, i: nat, j: nat, m: MsgId)
    requires Run(cfg, START, steps).Some? && forall step <- steps :: OneConsumer(step)
    requires i < j < |steps| && RetriedAt(cfg, steps, i, m) && steps[j].Read? && steps[j].m == m
    requires ReadsOf(steps[..j], m) == ReadsOf(steps[..i], m)
    ensures TimeAt(cfg, steps, j) >= TimeAt(cfg, steps, i) + DelayAfter(cfg, ReadsOf(steps[..i], m))
  {
    assert steps[..j][..i] == steps[..i] && forall x <- steps[..j] :: x in steps;
    ReadIsVisible(cfg, steps, j, m);
    RetriedWaits(cfg, steps[..j], i, m);
  }

  /** So every later read of m comes at least that much later. */
  lemma {:induction false} LaterReadsWait(cfg: Config, steps: seq<Step>, i: nat, j: nat, m: MsgId)
    requires Run(cfg, START, steps).Some? && forall step <- steps :: OneConsumer(step)
    requires i < j < |steps| && RetriedAt(cfg, steps, i, m) && steps[j].Read? && steps[j].m == m
    ensures TimeAt(cfg, steps, j)
            >= TimeAt(cfg, steps, i) + Min(Power(cfg.base, Max(ReadsOf(steps[..i], m), 1)), cfg.cap)
    decreases j
  {
    if ReadsOf(steps[..j], m) == ReadsOf(steps[..i], m) {
      NextReadWaits(cfg, steps, i, j, m);
    } else {
      assert steps[..j][..i] == steps[..i];
      var k := ReadBetween(steps[..j], i, m);
      LaterReadsWait(cfg, steps, i, k, m);
      TimePasses(cfg, steps, k, j);
    }
  }

  // ---------------------------------------------------------------- one consumer: a dead letter takes its time

  /** When m was read first. */
  function FirstRead(cfg: Config, steps: seq<Step>, m: MsgId): Option<int>
    requires Run(cfg, START, steps).Some?
  {
    if steps == [] then None
    else
      var before, step := steps[..|steps| - 1], steps[|steps| - 1];
      var first := FirstRead(cfg, before, m);
      if first.None? && step.Read? && step.m == m then Some(Run(cfg, START, before).value.now) else first
  }

  lemma {:induction false} FirstReadIsARead(cfg: Config, steps: seq<Step>, m: MsgId)
    requires Run(cfg, START, steps).Some?
    ensures FirstRead(cfg, steps, m).None? <==> ReadsOf(steps, m) == 0
  {
    if steps != [] {
      FirstReadIsARead(cfg, steps[..|steps| - 1], m);
    }
  }

  /** The time the delays after reads 1 to n take has passed since `first`. */
  predicate Past(cfg: Config, first: Option<int>, n: int, now: int) {
    first.Some? && now >= first.value + BackoffTotal(cfg, n)
  }

  /** An undisturbed message in hand has waited after every read but this one; a waiting one is to wait after all. */
  predicate WaitedSince(cfg: Config, s: State, m: MsgId, first: Option<int>) {
    Undisturbed(s, m) ==>
      && (m in s.db.live && s.db.live[m].readCt > 0 ==>
            Past(cfg, first, Spent(s, m), if InHand(s, m) then s.now else s.db.live[m].visibleAt))
      && (m in s.db.archive ==> Past(cfg, first, s.db.archive[m].readCt - 1, s.now))
  }

  lemma ReadKeepsWaited(cfg: Config, s: State, c: WorkerId, m: MsgId, first: Option<int>)
    requires QueueOk(s.db) && JobOk(s) && Enabled(cfg, s, Read(c, m)) && OneConsumer(Read(c, m))
    requires WaitedSince(cfg, s, m, first) && (first.None? <==> s.db.live[m].readCt == 0)
    ensures WaitedSince(cfg, Next(cfg, s, Read(c, m)), m, if first.None? then Some(s.now) else first)
  {
  }

  lemma SettleKeepsWaited(cfg: Config, s: State, c: WorkerId, m: MsgId, first: Option<int>)
    requires QueueOk(s.db) && JobOk(s) && Enabled(cfg, s, SettleFailure(c)) && WaitedSince(cfg, s, m, first)
    ensures WaitedSince(cfg, Next(cfg, s, SettleFailure(c)), m, first)
  {
    var job := s.consumers[c].job;
    if job.readCt < cfg.maxRetries {
      if job.msg == m {
        RetryWaits(cfg, s, c, m);
        NextDelay(cfg, job.readCt);
      }
    }
  }

  lemma NextDelay(cfg: Config, n: nat)
    requires n > 0
    ensures BackoffTotal(cfg, n) == BackoffTotal(cfg, n - 1) + DelayAfter(cfg, n)
  {
  }

  lemma PublishKeepsWaited(cfg: Config, s: State, r: WorkerId, m: MsgId, first: Option<int>)
    requires RelaysOk(s) && JobOk(s) && Enabled(cfg, s, RelayCommit(r)) && WaitedSince(cfg, s, m, first)
    ensures WaitedSince(cfg, Next(cfg, s, RelayCommit(r)), m, first)
  {
    assert BatchOk(s.db, s.relays[r]);
    PublishMessage(s.db, s.relays[r], s.now, m);
  }

  lemma OtherStepKeepsWaited(cfg: Config, s: State, step: Step, m: MsgId, first: Option<int>)
    requires QueueOk(s.db) && JobOk(s) && Enabled(cfg, s, step) && OneConsumer(step) && WaitedSince(cfg, s, m, first)
    requires !step.RelayCommit? && !step.SettleFailure? && !(step.Read? && step.m == m)
    ensures WaitedSince(cfg, Next(cfg, s, step), m, first)
  {
  }

  lemma {:induction false} RunKeepsWaited(cfg: Config, steps: seq<Step>, m: MsgId)
    requires Run(cfg, START, steps).Some? && forall step <- steps :: OneConsumer(step)
    ensures WaitedSince(cfg, Run(cfg, START, steps).value, m, FirstRead(cfg, steps, m))
  {
    if steps != [] {
      var before, step := steps[..|steps| - 1], steps[|steps| - 1];
      assert step in steps && forall x <- before :: x in steps;
      RunKeepsOne(cfg, before);
      RunKeepsWaited(cfg, before, m);
      var s, first := Run(cfg, START, before).value, FirstRead(cfg, before, m);
      assert QueueOk(s.db) && JobOk(s) && RelaysOk(s);
      if step.Read? && step.m == m {
        VisibleExactlyFrom(cfg, before, m);
        FirstReadIsARead(cfg, before, m);
        ReadKeepsWaited(cfg, s, step.c, m, first);
      } else if step.SettleFailure? {
        SettleKeepsWaited(cfg, s, step.c, m, first);
      } else if step.RelayCommit? {
        PublishKeepsWaited(cfg, s, step.r, m, first);
      } else {
        OtherStepKeepsWaited(cfg, s, step, m, first);
      }
    }
  }

  lemma LetterWaited(cfg: Config, s: State, d: DeadLetter, first: Option<int>)
    requires DeadExact(cfg, s) && d in s.db.dlq && Undisturbed(s, d.msg) && WaitedSince(cfg, s, d.msg, first)
    ensures Past(cfg, first, Attempts(cfg) - 1, s.now)
  {
    assert LetterExact(cfg, s, d);
  }

  /**
   A message that no crash touched is dead-lettered no sooner than all the delays but the last after its first read:
   that much clock time has passed in every state that holds its dead letter.
   */
  lemma DeadLetterTakesItsTime(cfg: Config, steps: seq<Step>, d: DeadLetter)
    requires Run(cfg, START, steps).Some? && forall step <- steps :: OneConsumer(step)
    requires d in Run(cfg, START, steps).value.db.dlq && Undisturbed(Run(cfg, START, steps).value, d.msg)
    ensures var first := FirstRead(cfg, steps, d.msg);
            first.Some? && Run(cfg, START, steps).value.now >= first.value + BackoffTotal(cfg, Attempts(cfg) - 1)
  {
    RunKeepsExact(cfg, steps);
    RunKeepsWaited(cfg, steps, d.msg);
    LetterWaited(cfg, Run(cfg, START, steps).value, d, FirstRead(cfg, steps, d.msg));
  }
}
