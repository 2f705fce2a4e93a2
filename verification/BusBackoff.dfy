/** What a message that no crash touched has waited, exactly. */
module BusBackoff {
  import opened EventBus
  import opened BusProtocol
  import opened BusDelivery

  predicate Undisturbed(s: State, m: MsgId) {
    Count(s.crashes, m) == 0
  }

  /** A queued message has waited the delay after each of its failed reads. */
  ghost predicate LiveExact(cfg: Config, s: State) {
    forall m <- s.db.live :: Undisturbed(s, m) ==> Count(s.backoff, m) == BackoffTotal(cfg, Spent(s, m))
  }

  /** An archived one has waited after each read but its last. */
  ghost predicate ArchiveExact(cfg: Config, s: State) {
    forall m <- s.db.archive ::
      Undisturbed(s, m) ==> Count(s.backoff, m) == BackoffTotal(cfg, s.db.archive[m].readCt - 1)
  }

  predicate LetterExact(cfg: Config, s: State, d: DeadLetter) {
    d.msg in s.db.archive && s.db.archive[d.msg].readCt == d.readCt
      && (Undisturbed(s, d.msg) ==> d.readCt == Attempts(cfg))
  }

  ghost predicate DeadExact(cfg: Config, s: State) {
    forall d <- s.db.dlq :: LetterExact(cfg, s, d)
  }

  ghost predicate Exact(cfg: Config, s: State) {
    LiveExact(cfg, s) && ArchiveExact(cfg, s) && DeadExact(cfg, s)
  }

  lemma QuietKeepsExact(cfg: Config, s: State, step: Step)
    requires One(cfg, s) && Exact(cfg, s) && Enabled(cfg, s, step) && OneConsumer(step)
    requires !step.RelayCommit? && !step.CommitHandle? && !step.SettleFailure? && !step.ConsumerCrash?
    ensures Exact(cfg, Next(cfg, s, step))
  {
    var s' := Next(cfg, s, step);
    QuietSpent(cfg, s, step);
    SameExact(cfg, s, s');
  }

  lemma SameExact(cfg: Config, s: State, s': State)
    requires Exact(cfg, s) && s'.crashes == s.crashes && s'.backoff == s.backoff && s'.db.archive == s.db.archive
             && s'.db.dlq == s.db.dlq
    requires forall m <- s'.db.live ::
             if m in s.db.live then Spent(s', m) == Spent(s, m) else m !in s.backoff && Spent(s', m) == 0
    ensures Exact(cfg, s')
  {
    forall m <- s'.db.live | Undisturbed(s', m) ensures Count(s'.backoff, m) == BackoffTotal(cfg, Spent(s', m)) {
      assert m in s.db.live ==> Undisturbed(s, m);
    }
    forall m <- s'.db.archive | Undisturbed(s', m)
      ensures Count(s'.backoff, m) == BackoffTotal(cfg, s'.db.archive[m].readCt - 1)
    {
      assert Undisturbed(s, m);
    }
    forall d <- s'.db.dlq ensures LetterExact(cfg, s', d) {
      assert LetterExact(cfg, s, d);
    }
  }

  lemma PublishKeepsExact(cfg: Config, s: State, r: WorkerId)
    requires Inv(s) && One(cfg, s) && Exact(cfg, s) && Enabled(cfg, s, RelayCommit(r))
    ensures Exact(cfg, Next(cfg, s, RelayCommit(r)))
  {
    var s', b := Next(cfg, s, RelayCommit(r)), s.relays[r];
    assert BatchOk(s.db, b) && JobOk(s) && ReadsOk(cfg, s);
    NewMessages(s, b);
    forall m <- s'.db.live
      ensures if m in s.db.live then Spent(s', m) == Spent(s, m) else m !in s.backoff && Spent(s', m) == 0
    {
    }
    SameExact(cfg, s, s');
  }

  /** Whatever was exact for the message in hand no longer has to be. */
  lemma CrashKeepsExact(cfg: Config, s: State, c: WorkerId)
    requires JobOk(s) && Exact(cfg, s) && Enabled(cfg, s, ConsumerCrash(c))
    ensures Exact(cfg, Next(cfg, s, ConsumerCrash(c)))
  {
    var s', m := Next(cfg, s, ConsumerCrash(c)), s.consumers[c].job.msg;
    assert forall k: MsgId :: Undisturbed(s', k) ==> k != m && Undisturbed(s, k);
    assert forall k <- s'.db.live :: k != m ==> Spent(s', k) == Spent(s, k);
    forall d <- s'.db.dlq ensures LetterExact(cfg, s', d) {
      assert LetterExact(cfg, s, d);
    }
  }

  /** Taking the message in hand out of the queue, perhaps with a dead letter. */
  lemma ArchiveKeepsExact(cfg: Config, s: State, s': State, m: MsgId)
    requires JobOk(s) && Exact(cfg, s) && InHand(s, m) && m !in s.db.archive
    requires s'.db.live == s.db.live - {m} && s'.db.archive == s.db.archive[m := s.db.live[m]]
    requires s'.consumers == s.consumers - {WORKER} && s'.crashes == s.crashes && s'.backoff == s.backoff
    requires forall d <- s'.db.dlq :: d in s.db.dlq || LetterExact(cfg, s', d)
    ensures Exact(cfg, s')
  {
    assert forall k: MsgId :: Undisturbed(s', k) <==> Undisturbed(s, k);
    assert forall k <- s'.db.live :: Spent(s', k) == Spent(s, k);
    assert Spent(s, m) == s.db.live[m].readCt - 1;
    forall d <- s'.db.dlq ensures LetterExact(cfg, s', d) {
      if d in s.db.dlq { assert LetterExact(cfg, s, d); }
    }
  }

  lemma CommitKeepsExact(cfg: Config, s: State, c: WorkerId)
    requires QueueOk(s.db) && JobOk(s) && Exact(cfg, s) && Enabled(cfg, s, CommitHandle(c))
    ensures Exact(cfg, Next(cfg, s, CommitHandle(c)))
  {
    ArchiveKeepsExact(cfg, s, Next(cfg, s, CommitHandle(c)), s.consumers[c].job.msg);
  }

  /** Undisturbed, a message is dead-lettered on its last allowed attempt. */
  lemma DeadLetterKeepsExact(cfg: Config, s: State, c: WorkerId)
    requires QueueOk(s.db) && JobOk(s) && ReadsOk(cfg, s) && Exact(cfg, s)
    requires Enabled(cfg, s, SettleFailure(c)) && s.consumers[c].job.readCt >= cfg.maxRetries
    ensures Exact(cfg, Next(cfg, s, SettleFailure(c)))
  {
    var s', job := Next(cfg, s, SettleFailure(c)), s.consumers[c].job;
    var d := DeadLetter(job.event, job.msg, job.readCt);
    assert Spent(s, job.msg) <= Attempts(cfg) - 1 + Count(s.crashes, job.msg);
    assert LetterExact(cfg, s', d);
    ArchiveKeepsExact(cfg, s, s', job.msg);
  }

  lemma RetryKeepsExact(cfg: Config, s: State, c: WorkerId)
    requires QueueOk(s.db) && JobOk(s) && Exact(cfg, s)
    requires Enabled(cfg, s, SettleFailure(c)) && s.consumers[c].job.readCt < cfg.maxRetries
    ensures Exact(cfg, Next(cfg, s, SettleFailure(c)))
  {
    RetryShape(cfg, s, c);
    OneMoreDelay(cfg, s, Next(cfg, s, SettleFailure(c)), s.consumers[c].job.msg, s.consumers[c].job.readCt);
  }

  lemma OneMoreDelay(cfg: Config, s: State, s': State, m: MsgId, readCt: nat)
    requires QueueOk(s.db) && Exact(cfg, s) && m in s.db.live && m !in s.db.archive && Spent(s, m) == readCt - 1
             && readCt > 0
    requires s'.db == s.db.(live := s'.db.live) && s'.crashes == s.crashes && s'.db.live.Keys == s.db.live.Keys
    requires forall k <- s.db.live :: Spent(s', k) == Spent(s, k) + if k == m then 1 else 0
    requires s'.backoff == s.backoff[m := Count(s.backoff, m) + Backoff(cfg, readCt)]
    ensures Exact(cfg, s')
  {
    assert BackoffTotal(cfg, readCt) == BackoffTotal(cfg, readCt - 1) + Backoff(cfg, readCt);
    forall k <- s'.db.live | Undisturbed(s', k) ensures Count(s'.backoff, k) == BackoffTotal(cfg, Spent(s', k)) {
      assert Undisturbed(s, k);
    }
    forall k <- s'.db.archive | Undisturbed(s', k)
      ensures Count(s'.backoff, k) == BackoffTotal(cfg, s'.db.archive[k].readCt - 1)
    {
      assert Undisturbed(s, k);
    }
    forall d <- s'.db.dlq ensures LetterExact(cfg, s', d) {
      assert LetterExact(cfg, s, d);
    }
  }

  lemma StepKeepsExact(cfg: Config, s: State, step: Step)
    requires Inv(s) && One(cfg, s) && Exact(cfg, s) && Enabled(cfg, s, step) && OneConsumer(step)
    ensures Exact(cfg, Next(cfg, s, step))
  {
    match step
    case RelayCommit(r) => PublishKeepsExact(cfg, s, r);
    case CommitHandle(c) => CommitKeepsExact(cfg, s, c);
    case ConsumerCrash(c) => CrashKeepsExact(cfg, s, c);
    case SettleFailure(c) =>
      if s.consumers[c].job.readCt >= cfg.maxRetries {
        DeadLetterKeepsExact(cfg, s, c);
      } else {
        RetryKeepsExact(cfg, s, c);
      }
    case _ => QuietKeepsExact(cfg, s, step);
  }

  lemma {:induction false} RunKeepsExact(cfg: Config, steps: seq<Step>)
    requires Run(cfg, START, steps).Some? && forall step <- steps :: OneConsumer(step)
    ensures Exact(cfg, Run(cfg, START, steps).value)
  {
    if steps != [] {
      var n := |steps| - 1;
      assert steps[n] in steps && forall step <- steps[..n] :: step in steps;
      RunKeepsExact(cfg, steps[..n]);
      RunKeepsOne(cfg, steps[..n]);
      StepKeepsExact(cfg, Run(cfg, START, steps[..n]).value, steps[n]);
    }
  }

  /**
   A message that no crash touched reaches the dead-letter queue after exactly max(max_retries, 1) reads and exactly
   the delays after all but the last.
   */
  lemma DeadLetteredAfterExactlyTheRetries(cfg: Config, steps: seq<Step>, d: DeadLetter)
    requires Run(cfg, START, steps).Some? && forall step <- steps :: OneConsumer(step)
    requires d in Run(cfg, START, steps).value.db.dlq && Undisturbed(Run(cfg, START, steps).value, d.msg)
    ensures d.readCt == Attempts(cfg)
            && Count(Run(cfg, START, steps).value.backoff, d.msg) == BackoffTotal(cfg, Attempts(cfg) - 1)
  {
    RunKeepsExact(cfg, steps);
    var s := Run(cfg, START, steps).value;
    assert LetterExact(cfg, s, d);
  }
}
