/** The bus as the application runs it: one consumer, one relay, crashes at any step. */
module BusDelivery {
  import opened Results
  import opened EventBus
  import opened BusProtocol

  /** The deployed consumer and relay. */
  const WORKER: WorkerId := 0

  predicate OneConsumer(step: Step) {
    step.Read? ==> step.c == WORKER
  }

  predicate OneRelay(step: Step) {
    step.Select? ==> step.r == WORKER
  }

  /**
   Attempts before a failing message is dead-lettered; the first failure is already too many when no retry is allowed.
   */
  function Attempts(cfg: Config): nat {
    Max(cfg.maxRetries, 1)
  }

  predicate InHand(s: State, m: MsgId) {
    WORKER in s.consumers && s.consumers[WORKER].job.msg == m
  }

  // ---------------------------------------------------------------- the invariant with one consumer

  /** A queued event is neither handled nor dead; an archived one is exactly one of the two. */
  ghost predicate SettledOk(db: Db) {
    && (forall m <- db.live :: db.live[m].event !in db.keys && !Dead(db, db.live[m].event))
    && (forall m <- db.archive :: db.archive[m].event in db.keys <==> !Dead(db, db.archive[m].event))
    && (forall i, j :: 0 <= i < j < |db.dlq| ==> db.dlq[i].event != db.dlq[j].event)
  }

  ghost predicate JobOk(s: State) {
    && (forall c <- s.consumers :: c == WORKER)
    && (WORKER in s.consumers ==>
          var p := s.consumers[WORKER];
          && p.job.msg in s.db.live
          && s.db.live[p.job.msg].event == p.job.event && s.db.live[p.job.msg].readCt == p.job.readCt
             && p.job.readCt > 0
          && (p.Handling? ==> !p.duplicate))
  }

  /** Failed reads of a queued message: all its reads, less the one in hand. */
  function Spent(s: State, m: MsgId): int
    requires m in s.db.live
  {
    s.db.live[m].readCt - if InHand(s, m) then 1 else 0
  }

  ghost predicate ReadsOk(cfg: Config, s: State) {
    && (forall m <- s.db.live :: Spent(s, m) <= Attempts(cfg) - 1 + Count(s.crashes, m))
    && (forall m <- s.db.archive :: s.db.archive[m].readCt <= Attempts(cfg) + Count(s.crashes, m))
    && (forall m: MsgId :: m in s.crashes || m in s.backoff ==> m in s.db.live || m in s.db.archive)
  }

  ghost predicate BackoffOk(cfg: Config, s: State) {
    && (forall m <- s.db.live :: Count(s.backoff, m) <= BackoffTotal(cfg, Min(Spent(s, m), cfg.maxRetries - 1)))
    && (forall m <- s.db.archive :: Count(s.backoff, m) <= BackoffTotal(cfg, cfg.maxRetries - 1))
  }

  ghost predicate One(cfg: Config, s: State) {
    SettledOk(s.db) && JobOk(s) && ReadsOk(cfg, s) && BackoffOk(cfg, s)
  }

  // ---------------------------------------------------------------- the steps keep it

  lemma KeepSettled(db: Db, db': Db)
    requires SettledOk(db) && db'.keys == db.keys && db'.dlq == db.dlq && db'.archive == db.archive
    requires forall m <- db'.live :: m in db.live && db'.live[m].event == db.live[m].event
    ensures SettledOk(db')
  {
    assert forall e :: Dead(db', e) <==> Dead(db, e);
  }

  lemma KeepReads(cfg: Config, s: State, s': State)
    requires ReadsOk(cfg, s) && s'.crashes == s.crashes && s'.backoff == s.backoff && s'.db.archive == s.db.archive
    requires s'.db.live.Keys == s.db.live.Keys && forall m <- s.db.live :: Spent(s', m) == Spent(s, m)
    ensures ReadsOk(cfg, s')
  {
  }

  lemma KeepBackoff(cfg: Config, s: State, s': State)
    requires BackoffOk(cfg, s) && s'.backoff == s.backoff && s'.db.archive == s.db.archive
    requires s'.db.live.Keys == s.db.live.Keys && forall m <- s.db.live :: Spent(s', m) == Spent(s, m)
    ensures BackoffOk(cfg, s')
  {
  }

  /** Steps that change no message's failed reads. */
  lemma QuietStep(cfg: Config, s: State, step: Step)
    requires One(cfg, s) && Enabled(cfg, s, step) && OneConsumer(step)
    requires !step.RelayCommit? && !step.CommitHandle? && !step.SettleFailure? && !step.ConsumerCrash?
    ensures One(cfg, Next(cfg, s, step))
  {
    var s' := Next(cfg, s, step);
    QuietSpent(cfg, s, step);
    KeepSettled(s.db, s'.db);
    KeepReads(cfg, s, s');
    KeepBackoff(cfg, s, s');
  }

  lemma QuietSpent(cfg: Config, s: State, step: Step)
    requires JobOk(s) && SettledOk(s.db) && Enabled(cfg, s, step) && OneConsumer(step)
    requires !step.RelayCommit? && !step.CommitHandle? && !step.SettleFailure? && !step.ConsumerCrash?
    ensures var s' := Next(cfg, s, step);
            && JobOk(s') && s'.db.live.Keys == s.db.live.Keys
            && forall m <- s.db.live :: Spent(s', m) == Spent(s, m)
  {
  }

  lemma RelayCommitStep(cfg: Config, s: State, r: WorkerId)
    requires Inv(s) && One(cfg, s) && Enabled(cfg, s, RelayCommit(r))
    ensures One(cfg, Next(cfg, s, RelayCommit(r)))
  {
    var s', b := Next(cfg, s, RelayCommit(r)), s.relays[r];
    assert BatchOk(s.db, b);
    EnqueuedFacts(s.db.live, b.rows, b.sent, s.now);
    NewMessages(s, b);
    RelayCommitSettled(s.db, b, s.now);
    RelayCommitBounds(cfg, s, s');
  }

  lemma NewMessages(s: State, b: Batch)
    requires BatchOk(s.db, b) && |b.sent| == |b.rows|
    ensures var live' := Enqueued(s.db.live, b.rows, b.sent, s.now);
            && (forall m <- s.db.live :: m in live' && live'[m] == s.db.live[m])
            && (forall m <- live' ::
                m !in s.db.live ==> m in b.sent && live'[m].readCt == 0 && live'[m].event in b.rows)
  {
    EnqueuedFacts(s.db.live, b.rows, b.sent, s.now);
    var live' := Enqueued(s.db.live, b.rows, b.sent, s.now);
    forall m <- live' | m !in s.db.live ensures live'[m].readCt == 0 && live'[m].event in b.rows {
      var i :| 0 <= i < |b.sent| && b.sent[i] == m;
    }
  }

  lemma RelayCommitSettled(db: Db, b: Batch, now: int)
    requires QueueOk(db) && KeysOk(db) && SettledOk(db) && BatchOk(db, b) && |b.sent| == |b.rows|
    requires var live' := Enqueued(db.live, b.rows, b.sent, now);
             forall m <- live' :: if m in db.live then live'[m] == db.live[m] else live'[m].event in b.rows
    ensures SettledOk(PublishTx(db, b.rows, b.sent, now))
  {
    var db' := PublishTx(db, b.rows, b.sent, now);
    assert forall e :: Dead(db', e) <==> Dead(db, e);
    forall e <- b.rows ensures e !in db.keys && !Dead(db, e) {
      assert !db.outbox[e];
      forall i | 0 <= i < |db.dlq| ensures db.dlq[i].event != e {
        assert db.dlq[i] in db.dlq && Carries(db, db.dlq[i].msg, db.dlq[i].event);
      }
    }
  }

  lemma RelayCommitBounds(cfg: Config, s: State, s': State)
    requires JobOk(s) && ReadsOk(cfg, s) && BackoffOk(cfg, s)
    requires s'.crashes == s.crashes && s'.backoff == s.backoff && s'.db.archive == s.db.archive
             && s'.consumers == s.consumers
    requires forall m <- s.db.live :: m in s'.db.live && s'.db.live[m] == s.db.live[m]
    requires forall m <- s'.db.live :: m !in s.db.live ==> s'.db.live[m].readCt == 0 && m !in s.db.archive
    ensures JobOk(s') && ReadsOk(cfg, s') && BackoffOk(cfg, s')
  {
    assert forall m <- s'.db.live :: Spent(s', m) == if m in s.db.live then Spent(s, m) else 0;
  }

  lemma CrashShape(cfg: Config, s: State, c: WorkerId)
    requires JobOk(s) && Enabled(cfg, s, ConsumerCrash(c))
    ensures var s', m := Next(cfg, s, ConsumerCrash(c)), s.consumers[c].job.msg;
            && JobOk(s') && m in s.db.live && s'.db == s.db && s'.backoff == s.backoff
            && s'.crashes == s.crashes[m := Count(s.crashes, m) + 1]
            && forall k <- s.db.live :: Spent(s', k) == Spent(s, k) + if k == m then 1 else 0
  {
  }

  lemma CrashStep(cfg: Config, s: State, c: WorkerId)
    requires One(cfg, s) && Enabled(cfg, s, ConsumerCrash(c))
    ensures One(cfg, Next(cfg, s, ConsumerCrash(c)))
  {
    var s', m := Next(cfg, s, ConsumerCrash(c)), s.consumers[c].job.msg;
    CrashShape(cfg, s, c);
    CrashReads(cfg, s, s', m);
    CrashBackoff(cfg, s, s', m);
  }

  /** The crash pays for the read it wasted. */
  lemma CrashReads(cfg: Config, s: State, s': State, m: MsgId)
    requires ReadsOk(cfg, s) && m in s.db.live && s'.db == s.db && s'.backoff == s.backoff
    requires s'.crashes == s.crashes[m := Count(s.crashes, m) + 1]
    requires forall k <- s.db.live :: Spent(s', k) == Spent(s, k) + if k == m then 1 else 0
    ensures ReadsOk(cfg, s')
  {
  }

  /** The message in hand counts one more failed read; the delays scheduled for it are still within its total. */
  lemma CrashBackoff(cfg: Config, s: State, s': State, m: MsgId)
    requires BackoffOk(cfg, s) && s'.backoff == s.backoff && s'.db == s.db && m in s.db.live
    requires forall k <- s.db.live :: Spent(s', k) == Spent(s, k) + if k == m then 1 else 0
    ensures BackoffOk(cfg, s')
  {
    BackoffTotalMonotone(cfg, Min(Spent(s, m), cfg.maxRetries - 1), Min(Spent(s', m), cfg.maxRetries - 1));
  }

  /** Taking a message out of the queue: what remains is untouched. */
  lemma ArchiveStep(cfg: Config, s: State, s': State, m: MsgId)
    requires ReadsOk(cfg, s) && BackoffOk(cfg, s) && JobOk(s) && InHand(s, m)
    requires s'.db.live == s.db.live - {m} && s'.db.archive == s.db.archive[m := s.db.live[m]]
    requires s'.consumers == s.consumers - {WORKER} && s'.crashes == s.crashes && s'.backoff == s.backoff
    ensures JobOk(s') && ReadsOk(cfg, s') && BackoffOk(cfg, s')
  {
    forall k <- s'.db.live ensures Spent(s', k) == Spent(s, k) { }
    ArchiveReads(cfg, s, s', m);
    ArchiveBackoff(cfg, s, s', m);
  }

  lemma ArchiveReads(cfg: Config, s: State, s': State, m: MsgId)
    requires ReadsOk(cfg, s) && InHand(s, m) && m in s.db.live && s'.crashes == s.crashes && s'.backoff == s.backoff
    requires s'.db.live == s.db.live - {m} && s'.db.archive == s.db.archive[m := s.db.live[m]]
    requires forall k <- s'.db.live :: Spent(s', k) == Spent(s, k)
    ensures ReadsOk(cfg, s')
  {
    assert Spent(s, m) == s.db.live[m].readCt - 1;
  }

  lemma ArchiveBackoff(cfg: Config, s: State, s': State, m: MsgId)
    requires BackoffOk(cfg, s) && m in s.db.live && s'.backoff == s.backoff
    requires s'.db.live == s.db.live - {m} && s'.db.archive == s.db.archive[m := s.db.live[m]]
    requires forall k <- s'.db.live :: Spent(s', k) == Spent(s, k)
    ensures BackoffOk(cfg, s')
  {
    BackoffTotalMonotone(cfg, Min(Spent(s, m), cfg.maxRetries - 1), cfg.maxRetries - 1);
  }

  /** Only one message carries the event of the message in hand. */
  lemma OthersCarryOthers(s: State, m: MsgId)
    requires QueueOk(s.db) && m in s.db.live
    ensures forall k <- s.db.live :: k != m ==> s.db.live[k].event != s.db.live[m].event
    ensures forall k <- s.db.archive :: k != m && s.db.archive[k].event != s.db.live[m].event
  {
    var e := s.db.live[m].event;
    assert Carries(s.db, m, e);
    forall k <- s.db.live | k != m
      ensures s.db.live[k].event != e
    {
      assert s.db.live[k].event == e ==> Carries(s.db, k, e);
    }
    forall k <- s.db.archive ensures k != m && s.db.archive[k].event != e {
      assert s.db.archive[k].event == e ==> Carries(s.db, k, e);
    }
  }

  lemma CommitShape(cfg: Config, s: State, c: WorkerId)
    requires JobOk(s) && Enabled(cfg, s, CommitHandle(c))
    ensures var s', m := Next(cfg, s, CommitHandle(c)), s.consumers[c].job.msg;
            && m in s.db.live && InHand(s, m)
            && s'.db.live == s.db.live - {m} && s'.db.archive == s.db.archive[m := s.db.live[m]]
            && s'.consumers == s.consumers - {WORKER} && s'.crashes == s.crashes && s'.backoff == s.backoff
            && s'.db.keys == s.db.keys + {s.db.live[m].event} && s'.db.dlq == s.db.dlq
  {
  }

  lemma CommitStep(cfg: Config, s: State, c: WorkerId)
    requires QueueOk(s.db) && One(cfg, s) && Enabled(cfg, s, CommitHandle(c))
    ensures One(cfg, Next(cfg, s, CommitHandle(c)))
  {
    var s', m := Next(cfg, s, CommitHandle(c)), s.consumers[c].job.msg;
    CommitShape(cfg, s, c);
    OthersCarryOthers(s, m);
    ArchiveStep(cfg, s, s', m);
    CommitSettles(s.db, s'.db, m);
  }

  /** The message in hand is archived with its key; the others carry other events. */
  lemma CommitSettles(db: Db, db': Db, m: MsgId)
    requires SettledOk(db) && m in db.live
    requires db'.live == db.live - {m} && db'.archive == db.archive[m := db.live[m]]
    requires db'.keys == db.keys + {db.live[m].event} && db'.dlq == db.dlq
    requires forall k <- db.live :: k != m ==> db.live[k].event != db.live[m].event
    requires forall k <- db.archive :: k != m && db.archive[k].event != db.live[m].event
    ensures SettledOk(db')
  {
    assert forall e :: Dead(db', e) <==> Dead(db, e);
  }

  lemma DeadLetterStep(cfg: Config, s: State, c: WorkerId)
    requires QueueOk(s.db) && One(cfg, s) && Enabled(cfg, s, SettleFailure(c))
             && s.consumers[c].job.readCt >= cfg.maxRetries
    ensures One(cfg, Next(cfg, s, SettleFailure(c)))
  {
    var s', job := Next(cfg, s, SettleFailure(c)), s.consumers[c].job;
    OthersCarryOthers(s, job.msg);
    ArchiveStep(cfg, s, s', job.msg);
    var n := |s.db.dlq|;
    assert s'.db.dlq[n].event == job.event;
    forall e ensures Dead(s'.db, e) <==> Dead(s.db, e) || e == job.event {
      if Dead(s.db, e) {
        var i :| 0 <= i < n && s.db.dlq[i].event == e;
        assert s'.db.dlq[i].event == e;
      }
    }
    forall i, j | 0 <= i < j < |s'.db.dlq| ensures s'.db.dlq[i].event != s'.db.dlq[j].event {
      assert !Dead(s.db, job.event);
      assert i < n && s.db.dlq[i] == s'.db.dlq[i];
    }
  }

  lemma RetryShape(cfg: Config, s: State, c: WorkerId)
    requires QueueOk(s.db) && JobOk(s) && Enabled(cfg, s, SettleFailure(c))
             && s.consumers[c].job.readCt < cfg.maxRetries
    ensures var s', m := Next(cfg, s, SettleFailure(c)), s.consumers[c].job.msg;
            && JobOk(s') && m in s.db.live && m !in s.db.archive && 0 <= Spent(s, m) < cfg.maxRetries - 1
            && s'.db.live.Keys == s.db.live.Keys
            && (forall k <- s.db.live :: s'.db.live[k].event == s.db.live[k].event)
            && (forall k <- s.db.live :: Spent(s', k) == Spent(s, k) + if k == m then 1 else 0)
            && s'.db == s.db.(live := s'.db.live) && s'.crashes == s.crashes
            && s'.backoff == s.backoff[m := Count(s.backoff, m) + Backoff(cfg, Spent(s, m) + 1)]
  {
  }

  lemma RetryStep(cfg: Config, s: State, c: WorkerId)
    requires QueueOk(s.db) && One(cfg, s) && Enabled(cfg, s, SettleFailure(c))
             && s.consumers[c].job.readCt < cfg.maxRetries
    ensures One(cfg, Next(cfg, s, SettleFailure(c)))
  {
    RetryShape(cfg, s, c);
    RetryKeeps(cfg, s, Next(cfg, s, SettleFailure(c)), s.consumers[c].job.msg);
  }

  lemma RetryKeeps(cfg: Config, s: State, s': State, m: MsgId)
    requires SettledOk(s.db) && ReadsOk(cfg, s) && BackoffOk(cfg, s)
    requires m in s.db.live && m !in s.db.archive && 0 <= Spent(s, m) < cfg.maxRetries - 1
    requires s'.db == s.db.(live := s'.db.live) && s'.crashes == s.crashes && s'.db.live.Keys == s.db.live.Keys
    requires forall k <- s.db.live :: s'.db.live[k].event == s.db.live[k].event
    requires forall k <- s.db.live :: Spent(s', k) == Spent(s, k) + if k == m then 1 else 0
    requires s'.backoff == s.backoff[m := Count(s.backoff, m) + Backoff(cfg, Spent(s, m) + 1)]
    ensures SettledOk(s'.db) && ReadsOk(cfg, s') && BackoffOk(cfg, s')
  {
    KeepSettled(s.db, s'.db);
    RetryReads(cfg, s, s', m);
    RetryBackoff(cfg, s, s', m);
  }

  lemma RetryReads(cfg: Config, s: State, s': State, m: MsgId)
    requires ReadsOk(cfg, s) && s'.crashes == s.crashes && m in s.db.live && s'.db.archive == s.db.archive
    requires s'.db.live.Keys == s.db.live.Keys && s'.backoff.Keys == s.backoff.Keys + {m}
    requires forall k <- s.db.live :: Spent(s', k) == Spent(s, k) + if k == m then 1 else 0
    requires Spent(s, m) + 1 < cfg.maxRetries
    ensures ReadsOk(cfg, s')
  {
    assert forall k: MsgId :: k in s'.backoff <==> k in s'.backoff.Keys;
  }

  /** The delay scheduled after the n-th failed read is the n-th term of the total. */
  lemma RetryBackoff(cfg: Config, s: State, s': State, m: MsgId)
    requires BackoffOk(cfg, s) && m in s.db.live && m !in s.db.archive && s'.db.archive == s.db.archive
             && s'.db.live.Keys == s.db.live.Keys
    requires forall k <- s.db.live :: Spent(s', k) == Spent(s, k) + if k == m then 1 else 0
    requires 0 <= Spent(s, m) < cfg.maxRetries - 1
    requires s'.backoff == s.backoff[m := Count(s.backoff, m) + Backoff(cfg, Spent(s, m) + 1)]
    ensures BackoffOk(cfg, s')
  {
    var n := Spent(s, m);
    assert BackoffTotal(cfg, n + 1) == BackoffTotal(cfg, n) + Backoff(cfg, n + 1);
    forall k <- s'.db.live ensures Count(s'.backoff, k) <= BackoffTotal(cfg, Min(Spent(s', k), cfg.maxRetries - 1)) {
      if k == m {
        assert Min(n, cfg.maxRetries - 1) == n && Min(n + 1, cfg.maxRetries - 1) == n + 1;
      } else {
        assert Count(s'.backoff, k) == Count(s.backoff, k) && Spent(s', k) == Spent(s, k);
      }
    }
    forall k <- s'.db.archive ensures Count(s'.backoff, k) == Count(s.backoff, k) {
      assert k != m;
    }
  }

  lemma OneKept(cfg: Config, s: State, step: Step)
    requires Inv(s) && One(cfg, s) && Enabled(cfg, s, step) && OneConsumer(step)
    ensures One(cfg, Next(cfg, s, step))
  {
    match step
    case RelayCommit(r) => RelayCommitStep(cfg, s, r);
    case CommitHandle(c) => CommitStep(cfg, s, c);
    case ConsumerCrash(c) => CrashStep(cfg, s, c);
    case SettleFailure(c) =>
      assert QueueOk(s.db);
      if s.consumers[c].job.readCt >= cfg.maxRetries { DeadLetterStep(cfg, s, c); } else { RetryStep(cfg, s, c); }
    case _ => QuietStep(cfg, s, step);
  }

  lemma {:induction false} RunKeepsOne(cfg: Config, steps: seq<Step>)
    requires forall step <- steps :: OneConsumer(step)
    ensures Run(cfg, START, steps).Some? ==> Inv(Run(cfg, START, steps).value) && One(cfg, Run(cfg, START, steps).value)
  {
    if steps != [] {
      var prior := steps[..|steps| - 1];
      RunKeepsOne(cfg, prior);
      if Run(cfg, START, steps).Some? {
        NextKeepsInv(cfg, Run(cfg, START, prior).value, steps[|steps| - 1]);
        OneKept(cfg, Run(cfg, START, prior).value, steps[|steps| - 1]);
      }
    }
  }

  // ---------------------------------------------------------------- where an event is

  predicate Queued(db: Db, e: EventId) {
    exists m <- db.live :: db.live[m].event == e
  }

  predicate ArchivedFor(db: Db, e: EventId) {
    exists m <- db.archive :: db.archive[m].event == e
  }

  function Ones(a: bool, b: bool, c: bool, d: bool): nat {
    (if a then 1 else 0) + (if b then 1 else 0) + (if c then 1 else 0) + (if d then 1 else 0)
  }

  /**
   With one consumer, any number of relays and crashes at any step, each committed event is in exactly one place:
   unpublished, queued, archived with its key present, or archived with a dead letter.
   */
  lemma ExactlyOnePlace(cfg: Config, steps: seq<Step>, e: EventId)
    requires forall step <- steps :: OneConsumer(step)
    requires Run(cfg, START, steps).Some? && e in Run(cfg, START, steps).value.db.outbox
    ensures var db := Run(cfg, START, steps).value.db;
            Ones(!db.outbox[e], Queued(db, e), ArchivedFor(db, e) && e in db.keys,
                 ArchivedFor(db, e) && Dead(db, e)) == 1
  {
    RunKeepsOne(cfg, steps);
    var db := Run(cfg, START, steps).value.db;
    assert QueueOk(db) && SettledOk(db);
    if db.outbox[e] {
      var m :| Carries(db, m, e);
      if m in db.live {
        forall k <- db.archive
          ensures db.archive[k].event != e
        {
          assert db.archive[k].event == e ==> Carries(db, k, e);
        }
      } else {
        forall k <- db.live ensures db.live[k].event != e { assert db.live[k].event == e ==> Carries(db, k, e); }
      }
    } else {
      forall k <- db.live ensures db.live[k].event != e { assert db.live[k].event == e ==> Carries(db, k, e); }
      forall k <- db.archive ensures db.archive[k].event != e { assert db.archive[k].event == e ==> Carries(db, k, e); }
    }
  }

  lemma ReadsAreBounded(cfg: Config, s: State, m: MsgId)
    requires ReadsOk(cfg, s)
    ensures m in s.db.live ==> s.db.live[m].readCt <= Attempts(cfg) + Count(s.crashes, m)
    ensures m in s.db.archive ==> s.db.archive[m].readCt <= Attempts(cfg) + Count(s.crashes, m)
  {
    assert m in s.db.live ==> Spent(s, m) <= Attempts(cfg) - 1 + Count(s.crashes, m);
  }

  lemma BackoffIsBounded(cfg: Config, s: State, m: MsgId)
    requires BackoffOk(cfg, s) && (m in s.backoff ==> m in s.db.live || m in s.db.archive)
    ensures Count(s.backoff, m) <= Min(Geometric(cfg.base, Attempts(cfg) - 1), (Attempts(cfg) - 1) * cfg.cap)
  {
    var n := Attempts(cfg) - 1;
    var spent := if m in s.db.live then Min(Spent(s, m), cfg.maxRetries - 1) else cfg.maxRetries - 1;
    BackoffTotalMonotone(cfg, Min(spent, n), n);
    BackoffTotalBound(cfg, n);
    assert Count(s.backoff, m) <= BackoffTotal(cfg, n);
  }

  /** A message whose consumer crashed c times is read at most max(max_retries, 1) + c times. */
  lemma RunsBoundReads(cfg: Config, steps: seq<Step>, m: MsgId)
    requires forall step <- steps :: OneConsumer(step)
    requires Run(cfg, START, steps).Some?
    ensures var s := Run(cfg, START, steps).value;
            && (m in s.db.live ==> s.db.live[m].readCt <= Attempts(cfg) + Count(s.crashes, m))
            && (m in s.db.archive ==> s.db.archive[m].readCt <= Attempts(cfg) + Count(s.crashes, m))
  {
    RunKeepsOne(cfg, steps);
    var s := Run(cfg, START, steps).value;
    assert ReadsOk(cfg, s);
    ReadsAreBounded(cfg, s, m);
  }

  /** However often consumers crash, a message waits a bounded time in all. */
  lemma RunsBoundBackoff(cfg: Config, steps: seq<Step>, m: MsgId)
    requires forall step <- steps :: OneConsumer(step)
    requires Run(cfg, START, steps).Some?
    ensures Count(Run(cfg, START, steps).value.backoff, m)
            <= Min(Geometric(cfg.base, Attempts(cfg) - 1), (Attempts(cfg) - 1) * cfg.cap)
  {
    RunKeepsOne(cfg, steps);
    var s := Run(cfg, START, steps).value;
    assert ReadsOk(cfg, s) && BackoffOk(cfg, s);
    BackoffIsBounded(cfg, s, m);
  }

  // ---------------------------------------------------------------- draining

  /** Weight of one message: four for each read it can still have, plus one. */
  function Weight(cfg: Config, live: map<MsgId, Message>, crashes: map<MsgId, nat>, m: MsgId): nat {
    if m in live then 4 * Max(Attempts(cfg) + 1 + Count(crashes, m) - live[m].readCt, 0) else 0
  }

  function LiveWeight(cfg: Config, live: map<MsgId, Message>, crashes: map<MsgId, nat>, n: nat): nat {
    if n == 0 then 0 else LiveWeight(cfg, live, crashes, n - 1) + Weight(cfg, live, crashes, n - 1)
  }

  function NewWeight(cfg: Config): nat {
    4 * (Attempts(cfg) + 1)
  }

  function Pending(outbox: map<EventId, bool>): set<EventId> {
    set e <- outbox | !outbox[e]
  }

  function PhaseWeight(s: State): nat {
    if WORKER !in s.consumers then 0
    else match s.consumers[WORKER]
         case Holding(_) => 3
         case Handling(_, _) => 2
         case Failing(_) => 1
  }

  function RelayProgress(s: State): nat {
    if WORKER in s.relays then |s.relays[WORKER].rows| + |s.relays[WORKER].sent| else 0
  }

  /** What is left to do. */
  function Measure(cfg: Config, s: State): int {
    LiveWeight(cfg, s.db.live, s.crashes, s.db.nextMsg) + PhaseWeight(s)
      + |Pending(s.db.outbox)| * (NewWeight(cfg) + 3) - RelayProgress(s)
  }

  predicate Works(step: Step) {
    step.Select? || step.Send? || step.RelayCommit? || step.Read? || step.BeginHandle? || step.CommitHandle?
    || step.HandlerFails? || step.SettleFailure?
  }

  predicate Faults(step: Step) {
    step.RelayAbort? || step.ConsumerCrash?
  }

  /** What one fault can undo. */
  function FaultCost(cfg: Config): nat {
    3 + 2 * cfg.batch
  }

  ghost predicate Deployed(cfg: Config, s: State) {
    && Inv(s) && One(cfg, s)
    && (forall r <- s.relays :: r == WORKER)
    && (WORKER in s.relays ==> 0 < |s.relays[WORKER].rows| <= cfg.batch)
  }

  lemma {:induction false} SameWeights(cfg: Config, a: map<MsgId, Message>, ca: map<MsgId, nat>, b: map<MsgId,
      Message>, cb: map<MsgId, nat>, n: nat)
    requires forall m: MsgId :: m < n ==> Weight(cfg, a, ca, m) == Weight(cfg, b, cb, m)
    ensures LiveWeight(cfg, a, ca, n) == LiveWeight(cfg, b, cb, n)
  {
    if n > 0 { SameWeights(cfg, a, ca, b, cb, n - 1); }
  }

  /** One message's change shifts the sum by that change. */
  lemma {:induction false} OneWeight(cfg: Config, a: map<MsgId, Message>, ca: map<MsgId, nat>, b: map<MsgId,
      Message>, cb: map<MsgId, nat>, n: nat, m: MsgId)
    requires m < n && forall k: MsgId :: k != m ==> Weight(cfg, a, ca, k) == Weight(cfg, b, cb, k)
    ensures LiveWeight(cfg, b, cb, n) == LiveWeight(cfg, a, ca, n) + Weight(cfg, b, cb, m) - Weight(cfg, a, ca, m)
  {
    if m == n - 1 { SameWeights(cfg, a, ca, b, cb, n - 1); } else { OneWeight(cfg, a, ca, b, cb, n - 1, m); }
  }

  lemma TimesSucc(k: int, w: int)
    ensures (k + 1) * w == k * w + w
  {
  }

  lemma LastIsFresh(live: map<MsgId, Message>, rows: seq<EventId>, sent: seq<MsgId>, now: int)
    requires rows != [] && |rows| == |sent| && NoDuplicates(sent) && forall m <- sent :: m !in live
    ensures var k := |rows| - 1;
            && NoDuplicates(sent[..k]) && (forall m <- sent[..k] :: m in sent) && sent[k] in sent
            && sent[k] !in Enqueued(live, rows[..k], sent[..k], now)
  {
    var k := |rows| - 1;
    EnqueuedFacts(live, rows[..k], sent[..k], now);
    assert forall i :: 0 <= i < k ==> sent[..k][i] != sent[k];
  }

  lemma {:induction false} EnqueuedWeight(cfg: Config, live: map<MsgId, Message>, crashes: map<MsgId, nat>,
      rows: seq<EventId>, sent: seq<MsgId>, now: int, n: nat)
    requires |rows| == |sent| && NoDuplicates(sent)
    requires forall m <- sent :: m < n && m !in live && m !in crashes
    ensures LiveWeight(cfg, Enqueued(live, rows, sent, now), crashes, n)
            == LiveWeight(cfg, live, crashes, n) + |rows| * NewWeight(cfg)
  {
    if rows != [] {
      var k := |rows| - 1;
      LastIsFresh(live, rows, sent, now);
      EnqueuedWeight(cfg, live, crashes, rows[..k], sent[..k], now, n);
      EnqueuedOne(cfg, Enqueued(live, rows[..k], sent[..k], now), crashes, rows[k], sent[k], now, n);
      TimesSucc(k, NewWeight(cfg));
    }
  }

  lemma EnqueuedOne(cfg: Config, live: map<MsgId, Message>, crashes: map<MsgId, nat>, e: EventId, m: MsgId,
      now: int, n: nat)
    requires m < n && m !in live && m !in crashes
    ensures LiveWeight(cfg, live[m := Message(e, 0, now)], crashes, n)
            == LiveWeight(cfg, live, crashes, n) + NewWeight(cfg)
  {
    OneWeight(cfg, live, crashes, live[m := Message(e, 0, now)], crashes, n, m);
  }

  lemma {:induction false} DistinctCount<T>(s: seq<T>, within: set<T>)
    requires NoDuplicates(s) && forall x <- s :: x in within
    ensures |within - (set x <- s)| == |within| - |s|
  {
    if s == [] {
      assert within - (set x <- s) == within;
    } else {
      var n := |s| - 1;
      assert s == s[..n] + [s[n]];
      DistinctCount(s[..n], within);
      assert within - (set x <- s) == (within - (set x <- s[..n])) - {s[n]};
      assert s[n] in within - (set x <- s[..n]);
    }
  }

  lemma Expand(p: int, n: int, w: int)
    ensures (p - n) * w == p * w - n * w
  {
  }

  lemma CommitPaysOff(live: int, live': int, p: int, n: int, w: int)
    requires live' == live + n * w && n > 0
    ensures live' + (p - n) * (w + 3) < live + p * (w + 3) - (n + n)
  {
    Expand(p, n, w + 3);
    Distribute(n, w, 3);
  }

  lemma PendingAfter(outbox: map<EventId, bool>, rows: seq<EventId>)
    requires NoDuplicates(rows) && forall e <- rows :: e in outbox && !outbox[e]
    ensures |Pending(Published(outbox, rows))| == |Pending(outbox)| - |rows|
  {
    DistinctCount(rows, Pending(outbox));
    assert Pending(Published(outbox, rows)) == Pending(outbox) - (set e <- rows);
  }

  lemma RelayCommitMeasure(cfg: Config, s: State, b: Batch)
    requires WORKER in s.relays && s.relays[WORKER] == b && BatchOk(s.db, b) && b.rows != [] && |b.sent| == |b.rows|
    requires forall m <- b.sent :: m !in s.crashes
    ensures Measure(cfg, Next(cfg, s, RelayCommit(WORKER))) < Measure(cfg, s)
  {
    var s' := Next(cfg, s, RelayCommit(WORKER));
    EnqueuedWeight(cfg, s.db.live, s.crashes, b.rows, b.sent, s.now, s.db.nextMsg);
    PendingAfter(s.db.outbox, b.rows);
    CommitPaysOff(LiveWeight(cfg, s.db.live, s.crashes, s.db.nextMsg),
                  LiveWeight(cfg, s'.db.live, s.crashes, s.db.nextMsg),
                  |Pending(s.db.outbox)|, |b.rows|, NewWeight(cfg));
  }

  lemma SelectMeasure(cfg: Config, s: State)
    requires Enabled(cfg, s, Select(WORKER))
    ensures Measure(cfg, Next(cfg, s, Select(WORKER))) < Measure(cfg, s)
  {
  }

  lemma SendMeasure(cfg: Config, s: State)
    requires QueueOk(s.db) && Enabled(cfg, s, Send(WORKER))
    ensures Measure(cfg, Next(cfg, s, Send(WORKER))) < Measure(cfg, s)
  {
    NextMsgIsNew(s.db);
    assert LiveWeight(cfg, s.db.live, s.crashes, s.db.nextMsg + 1)
           == LiveWeight(cfg, s.db.live, s.crashes, s.db.nextMsg);
  }

  /** One message's weight and the phase pay for a step that touches nothing else. */
  lemma MeasureDrops(cfg: Config, s: State, s': State, m: MsgId)
    requires s'.db.outbox == s.db.outbox && s'.relays == s.relays && s'.db.nextMsg == s.db.nextMsg && m < s.db.nextMsg
    requires forall k: MsgId ::
             k != m ==> Weight(cfg, s.db.live, s.crashes, k) == Weight(cfg, s'.db.live, s'.crashes, k)
    requires Weight(cfg, s'.db.live, s'.crashes, m) + PhaseWeight(s')
             < Weight(cfg, s.db.live, s.crashes, m) + PhaseWeight(s)
    ensures Measure(cfg, s') < Measure(cfg, s)
  {
    OneWeight(cfg, s.db.live, s.crashes, s'.db.live, s'.crashes, s.db.nextMsg, m);
  }

  lemma InHandIsKnown(cfg: Config, s: State)
    requires Deployed(cfg, s) && WORKER in s.consumers
    ensures s.consumers[WORKER].job.msg in s.db.live && s.consumers[WORKER].job.msg < s.db.nextMsg
  {
    var m := s.consumers[WORKER].job.msg;
    assert JobOk(s);
    assert Carries(s.db, m, s.db.live[m].event);
  }

  lemma ReadMeasure(cfg: Config, s: State, m: MsgId)
    requires Deployed(cfg, s) && Enabled(cfg, s, Read(WORKER, m))
    ensures Measure(cfg, Next(cfg, s, Read(WORKER, m))) < Measure(cfg, s)
  {
    assert Carries(s.db, m, s.db.live[m].event);
    assert Spent(s, m) <= Attempts(cfg) - 1 + Count(s.crashes, m);
    ReadPays(cfg, s, m);
  }

  /** The read was still allowed, and it lightens its message by more than the phase weighs. */
  lemma ReadPays(cfg: Config, s: State, m: MsgId)
    requires Enabled(cfg, s, Read(WORKER, m)) && m < s.db.nextMsg
    requires Spent(s, m) <= Attempts(cfg) - 1 + Count(s.crashes, m)
    ensures Measure(cfg, Next(cfg, s, Read(WORKER, m))) < Measure(cfg, s)
  {
    var s' := Next(cfg, s, Read(WORKER, m));
    assert Weight(cfg, s'.db.live, s'.crashes, m) == Weight(cfg, s.db.live, s.crashes, m) - 4;
    MeasureDrops(cfg, s, s', m);
  }

  lemma CommitMeasure(cfg: Config, s: State)
    requires Deployed(cfg, s) && Enabled(cfg, s, CommitHandle(WORKER))
    ensures Measure(cfg, Next(cfg, s, CommitHandle(WORKER))) < Measure(cfg, s)
  {
    InHandIsKnown(cfg, s);
    MeasureDrops(cfg, s, Next(cfg, s, CommitHandle(WORKER)), s.consumers[WORKER].job.msg);
  }

  /** Settling a failure never makes a message heavier. */
  lemma FailureWeights(cfg: Config, s: State, m: MsgId)
    requires Enabled(cfg, s, SettleFailure(WORKER)) && m == s.consumers[WORKER].job.msg && m in s.db.live
    ensures var s' := Next(cfg, s, SettleFailure(WORKER));
            && s'.db.outbox == s.db.outbox && s'.relays == s.relays && s'.db.nextMsg == s.db.nextMsg
               && s'.crashes == s.crashes
            && s'.consumers == s.consumers - {WORKER}
            && (m in s'.db.live ==> s'.db.live[m].readCt == s.db.live[m].readCt)
            && (forall k: MsgId :: k != m ==>
                (k in s'.db.live <==> k in s.db.live) && (k in s.db.live ==> s'.db.live[k] == s.db.live[k]))
  {
  }

  lemma FailureMeasure(cfg: Config, s: State)
    requires Deployed(cfg, s) && Enabled(cfg, s, SettleFailure(WORKER))
    ensures Measure(cfg, Next(cfg, s, SettleFailure(WORKER))) < Measure(cfg, s)
  {
    var m := s.consumers[WORKER].job.msg;
    InHandIsKnown(cfg, s);
    FailureWeights(cfg, s, m);
    MeasureDrops(cfg, s, Next(cfg, s, SettleFailure(WORKER)), m);
  }

  lemma PhaseMeasure(cfg: Config, s: State, step: Step)
    requires Enabled(cfg, s, step) && (step.BeginHandle? || step.HandlerFails?) && step.c == WORKER
    ensures Measure(cfg, Next(cfg, s, step)) < Measure(cfg, s)
  {
  }

  lemma CrashCosts(cfg: Config, s: State)
    requires Enabled(cfg, s, ConsumerCrash(WORKER)) && s.consumers[WORKER].job.msg < s.db.nextMsg
    ensures Measure(cfg, Next(cfg, s, ConsumerCrash(WORKER))) <= Measure(cfg, s) + FaultCost(cfg)
  {
    var s', m := Next(cfg, s, ConsumerCrash(WORKER)), s.consumers[WORKER].job.msg;
    OneWeight(cfg, s.db.live, s.crashes, s'.db.live, s'.crashes, s.db.nextMsg, m);
  }

  lemma CrashMeasure(cfg: Config, s: State)
    requires Deployed(cfg, s) && Enabled(cfg, s, ConsumerCrash(WORKER))
    ensures Measure(cfg, Next(cfg, s, ConsumerCrash(WORKER))) <= Measure(cfg, s) + FaultCost(cfg)
  {
    InHandIsKnown(cfg, s);
    CrashCosts(cfg, s);
  }

  lemma AbortMeasure(cfg: Config, s: State)
    requires Enabled(cfg, s, RelayAbort(WORKER)) && BatchOk(s.db, s.relays[WORKER])
             && |s.relays[WORKER].rows| <= cfg.batch
    ensures Measure(cfg, Next(cfg, s, RelayAbort(WORKER))) <= Measure(cfg, s) + FaultCost(cfg)
  {
  }

  lemma SameMeasure(cfg: Config, s: State, s': State)
    requires s'.db == s.db && s'.crashes == s.crashes && s'.consumers == s.consumers && s'.relays == s.relays
    ensures Measure(cfg, s') == Measure(cfg, s)
  {
  }

  lemma QuietMeasure(cfg: Config, s: State, step: Step)
    requires Enabled(cfg, s, step) && (step.Write? || step.UndoTo? || step.WriterAbort? || step.Tick?)
    ensures Measure(cfg, Next(cfg, s, step)) == Measure(cfg, s)
  {
    SameMeasure(cfg, s, Next(cfg, s, step));
  }

  ghost predicate OneBatch(cfg: Config, s: State) {
    && (forall r <- s.relays :: r == WORKER)
    && (WORKER in s.relays ==> 0 < |s.relays[WORKER].rows| <= cfg.batch)
  }

  lemma OneBatchKept(cfg: Config, s: State, step: Step)
    requires OneBatch(cfg, s) && Enabled(cfg, s, step) && OneRelay(step)
    ensures OneBatch(cfg, Next(cfg, s, step))
  {
    UnpublishedFacts(s.db.outbox, LockedRows(s), cfg.batch, s.nextEvent);
  }

  lemma DeployedKept(cfg: Config, s: State, step: Step)
    requires Deployed(cfg, s) && Enabled(cfg, s, step) && OneConsumer(step) && OneRelay(step)
    ensures Deployed(cfg, Next(cfg, s, step))
  {
    NextKeepsInv(cfg, s, step);
    OneKept(cfg, s, step);
    OneBatchKept(cfg, s, step);
  }

  lemma OnlyWorker(cfg: Config, s: State)
    requires Deployed(cfg, s)
    ensures (forall c <- s.consumers :: c == WORKER) && (forall r <- s.relays :: r == WORKER)
    ensures forall r <- s.relays :: BatchOk(s.db, s.relays[r]) && s.relays[r].rows != []
    ensures forall m: MsgId :: m in s.crashes ==> m in s.db.live || m in s.db.archive
  {
    assert JobOk(s) && ReadsOk(cfg, s);
  }

  /** Every step of work lowers the measure. */
  lemma WorkMeasure(cfg: Config, s: State, step: Step)
    requires Deployed(cfg, s) && Enabled(cfg, s, step) && OneConsumer(step) && OneRelay(step) && Works(step)
    ensures Measure(cfg, Next(cfg, s, step)) < Measure(cfg, s)
  {
    OnlyWorker(cfg, s);
    match step
    case Select(_) => SelectMeasure(cfg, s);
    case Send(_) => SendMeasure(cfg, s);
    case RelayCommit(r) => RelayCommitMeasure(cfg, s, s.relays[r]);
    case Read(c, m) => ReadMeasure(cfg, s, m);
    case CommitHandle(_) => CommitMeasure(cfg, s);
    case SettleFailure(_) => FailureMeasure(cfg, s);
    case _ => PhaseMeasure(cfg, s, step);
  }

  /** A fault raises it by a bounded amount; nothing else moves it. */
  lemma StepMeasure(cfg: Config, s: State, step: Step)
    requires Deployed(cfg, s) && Enabled(cfg, s, step) && OneConsumer(step) && OneRelay(step) && !step.WriterCommit?
    ensures Measure(cfg, Next(cfg, s, step)) + (if Works(step) then 1 else 0)
            <= Measure(cfg, s) + if Faults(step) then FaultCost(cfg) else 0
  {
    if Works(step) {
      WorkMeasure(cfg, s, step);
    } else if step.ConsumerCrash? {
      OnlyWorker(cfg, s);
      CrashMeasure(cfg, s);
    } else if step.RelayAbort? {
      OnlyWorker(cfg, s);
      AbortMeasure(cfg, s);
    } else {
      QuietMeasure(cfg, s, step);
    }
  }

  function Counted(steps: seq<Step>, what: Step -> bool): nat {
    if steps == [] then 0 else Counted(steps[..|steps| - 1], what) + if what(steps[|steps| - 1]) then 1 else 0
  }

  lemma RoomForProgress(p: nat, w: nat, progress: nat)
    requires progress <= 2 * p
    ensures p * (w + 3) >= progress
  {
    Distribute(p, w, 3);
    assert p * w >= 0;
  }

  lemma MeasureIsNatural(cfg: Config, s: State)
    requires Deployed(cfg, s)
    ensures Measure(cfg, s) >= 0
  {
    if WORKER in s.relays {
      var b := s.relays[WORKER];
      assert BatchOk(s.db, b);
      DistinctCount(b.rows, Pending(s.db.outbox));
    }
    RoomForProgress(|Pending(s.db.outbox)|, NewWeight(cfg), RelayProgress(s));
  }

  function Allowance(cfg: Config, steps: seq<Step>): nat {
    if steps == [] then 0
    else Allowance(cfg, steps[..|steps| - 1]) + if Faults(steps[|steps| - 1]) then FaultCost(cfg) else 0
  }

  lemma {:induction false} AllowanceIsProduct(cfg: Config, steps: seq<Step>)
    ensures Allowance(cfg, steps) == Counted(steps, Faults) * FaultCost(cfg)
  {
    if steps != [] {
      AllowanceIsProduct(cfg, steps[..|steps| - 1]);
      TimesSucc(Counted(steps[..|steps| - 1], Faults), FaultCost(cfg));
    }
  }

  /** The measure pays for every step of work; each fault adds to it once. */
  lemma {:induction false} WorkIsPaidFor(cfg: Config, s: State, steps: seq<Step>)
    requires Deployed(cfg, s) && Run(cfg, s, steps).Some?
    requires forall step <- steps :: OneConsumer(step) && OneRelay(step) && !step.WriterCommit?
    ensures Deployed(cfg, Run(cfg, s, steps).value)
    ensures Counted(steps, Works) + Measure(cfg, Run(cfg, s, steps).value) <= Measure(cfg, s) + Allowance(cfg, steps)
  {
    if steps != [] {
      var prior, last := steps[..|steps| - 1], steps[|steps| - 1];
      WorkIsPaidFor(cfg, s, prior);
      StepMeasure(cfg, Run(cfg, s, prior).value, last);
      DeployedKept(cfg, Run(cfg, s, prior).value, last);
    }
  }

  /**
   Once the writers are done, a run with k faults takes at most Measure + k * FaultCost steps of work: the outbox
   and the queue drain, whatever fails.
   */
  lemma WorkIsFinite(cfg: Config, s: State, steps: seq<Step>)
    requires Deployed(cfg, s) && Run(cfg, s, steps).Some?
    requires forall step <- steps :: OneConsumer(step) && OneRelay(step) && !step.WriterCommit?
    ensures Counted(steps, Works) <= Measure(cfg, s) + Counted(steps, Faults) * FaultCost(cfg)
  {
    WorkIsPaidFor(cfg, s, steps);
    MeasureIsNatural(cfg, Run(cfg, s, steps).value);
    AllowanceIsProduct(cfg, steps);
  }

  /**
   The work never stops early: with anything unpublished, queued or in hand, some step of work is enabled, perhaps
   after a wait.
   */
  lemma WorkIsEnabled(cfg: Config, s: State)
    requires Deployed(cfg, s) && cfg.batch > 0
    requires Pending(s.db.outbox) != {} || s.db.live != map[]
    ensures exists d: nat, step: Step :: Works(step) && Enabled(cfg, Next(cfg, s, Tick(d)), step)
  {
    var d: nat := 0;
    if WORKER in s.consumers {
      var p := s.consumers[WORKER];
      var step := if p.Holding? then BeginHandle(WORKER) else if p.Handling? then CommitHandle(WORKER)
        else SettleFailure(WORKER);
      assert JobOk(s);
      assert Works(step) && Enabled(cfg, Next(cfg, s, Tick(d)), step);
    } else if s.db.live != map[] {
      ReadIsEnabled(cfg, s);
    } else if WORKER in s.relays {
      assert BatchOk(s.db, s.relays[WORKER]);
      var step := if |s.relays[WORKER].sent| < |s.relays[WORKER].rows| then Send(WORKER) else RelayCommit(WORKER);
      assert Works(step) && Enabled(cfg, Next(cfg, s, Tick(d)), step);
    } else {
      UnpublishedFacts(s.db.outbox, LockedRows(s), cfg.batch, s.nextEvent);
      var e :| e in Pending(s.db.outbox);
      assert LockedRows(s) == {};
      assert BatchFor(cfg, s) != [];
      var step := Select(WORKER);
      assert Works(step) && Enabled(cfg, Next(cfg, s, Tick(d)), step);
    }
  }

  lemma {:induction false} LowestVisible(db: Db, now: int, n: nat)
    requires exists m <- db.live :: m < n && IsVisible(db, m, now)
    ensures exists m <- db.live ::
              IsVisible(db, m, now) && forall k <- db.live :: k < n && IsVisible(db, k, now) ==> m <= k
  {
    if exists m <- db.live :: m < n - 1 && IsVisible(db, m, now) {
      LowestVisible(db, now, n - 1);
      var m :| m in db.live && IsVisible(db, m, now)
        && forall k <- db.live :: k < n - 1 && IsVisible(db, k, now) ==> m <= k;
      var k :| k in db.live && k < n - 1 && IsVisible(db, k, now);
      assert m <= n - 1;
    }
  }

  lemma ReadIsEnabled(cfg: Config, s: State)
    requires Inv(s) && WORKER !in s.consumers && s.db.live != map[]
    ensures exists d: nat, step: Step :: Works(step) && Enabled(cfg, Next(cfg, s, Tick(d)), step)
  {
    var m :| m in s.db.live;
    var d: nat := Max(s.db.live[m].visibleAt - s.now, 0);
    var s' := Next(cfg, s, Tick(d));
    assert IsVisible(s'.db, m, s'.now) && Carries(s.db, m, s.db.live[m].event);
    LowestVisible(s'.db, s'.now, s.db.nextMsg);
    var k :| k in s'.db.live && IsVisible(s'.db, k, s'.now)
      && forall j <- s'.db.live :: j < s.db.nextMsg && IsVisible(s'.db, j, s'.now) ==> k <= j;
    forall j <- s'.db.live ensures j < s.db.nextMsg { assert Carries(s.db, j, s.db.live[j].event); }
    var step := Read(WORKER, k);
    assert Works(step) && Enabled(cfg, Next(cfg, s, Tick(d)), step);
  }
}
