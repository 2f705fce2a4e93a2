/**
 With one relay and one consumer, and as long as no consumer crashes and no handler fails, events are
 handled in the order in which they were published.
 */
module BusOrder {
  import opened Results
  import opened EventBus
  import opened BusProtocol
  import opened BusDelivery
  import opened BusWorkers

  /** A step of the deployed application in which nothing goes wrong on the consumer's side. */
  predicate Calm(step: Step) {
    OneConsumer(step) && OneRelay(step) && !step.ConsumerCrash? && !step.HandlerFails?
  }

  // ---------------------------------------------------------------- the publishing order

  /** The events of the messages below id n, by id. */
  function EventsBelow(messages: map<MsgId, Message>, n: nat): seq<EventId> {
    if n == 0 then []
    else EventsBelow(messages, n - 1) + if n - 1 in messages then [messages[n - 1].event] else []
  }

  /** Every event that was ever published, in the order of its message. */
  function PublishOrder(db: Db): seq<EventId> {
    EventsBelow(db.archive + db.live, db.nextMsg)
  }

  lemma {:induction false} SameEvents(a: map<MsgId, Message>, b: map<MsgId, Message>, n: nat)
    requires forall m: MsgId :: m < n ==> (m in a <==> m in b) && (m in a ==> a[m].event == b[m].event)
    ensures EventsBelow(a, n) == EventsBelow(b, n)
  {
    if n > 0 { SameEvents(a, b, n - 1); }
  }

  lemma {:induction false} NoEventsAbove(a: map<MsgId, Message>, k: nat, n: nat)
    requires k <= n && forall m <- a :: m < k
    ensures EventsBelow(a, n) == EventsBelow(a, k)
    decreases n
  {
    if k < n { NoEventsAbove(a, k, n - 1); }
  }

  lemma {:induction false} NoEventsYet(a: map<MsgId, Message>, n: nat)
    requires forall m <- a :: n <= m
    ensures EventsBelow(a, n) == []
  {
    if n > 0 { NoEventsYet(a, n - 1); }
  }

  /** Messages with higher ids come after. */
  lemma {:induction false} LaterEvents(a: map<MsgId, Message>, b: map<MsgId, Message>, n: nat)
    requires forall k <- a, m <- b :: k < m
    ensures EventsBelow(a + b, n) == EventsBelow(a, n) + EventsBelow(b, n)
  {
    if n > 0 {
      LaterEvents(a, b, n - 1);
      if n - 1 in a {
        NoEventsYet(b, n - 1);
        assert n - 1 !in b;
      } else if n - 1 in b {
        var last := [b[n - 1].event];
        assert (EventsBelow(a, n - 1) + EventsBelow(b, n - 1)) + last
               == EventsBelow(a, n - 1) + (EventsBelow(b, n - 1) + last);
      }
    }
  }

  /** The highest id's event comes last. */
  lemma LastEvent(a: map<MsgId, Message>, m: MsgId, message: Message, n: nat)
    requires m < n && forall k <- a :: k < m
    ensures EventsBelow(a[m := message], n) == EventsBelow(a, n) + [message.event]
  {
    var b := map[m := message];
    assert a[m := message] == a + b;
    LaterEvents(a, b, n);
    NoEventsAbove(b, m + 1, n);
    NoEventsYet(b, m);
  }

  // ---------------------------------------------------------------- the invariant

  /** Whatever is queued and not in hand can be read now. */
  ghost predicate AllVisible(s: State) {
    forall m <- s.db.live :: !InHand(s, m) ==> s.db.live[m].visibleAt <= s.now
  }

  /** Archived messages precede queued ones, and the message in hand precedes every other. */
  ghost predicate LowestFirst(s: State) {
    && (forall a <- s.db.archive, m <- s.db.live :: a < m)
    && (forall m <- s.db.live, k <- s.db.live :: InHand(s, m) ==> m <= k)
  }

  predicate Climbing(sent: seq<MsgId>) {
    forall i, j :: 0 <= i < j < |sent| ==> sent[i] < sent[j]
  }

  /** The messages of the open batch follow everything published. */
  ghost predicate BatchLast(s: State) {
    WORKER in s.relays ==>
      var sent := s.relays[WORKER].sent;
      && (forall m <- sent, k: MsgId :: k in s.db.live || k in s.db.archive ==> k < m)
      && Climbing(sent)
      && (forall m <- sent :: m < s.db.nextMsg)
  }

  ghost predicate NothingFails(s: State) {
    forall c <- s.consumers :: !s.consumers[c].Failing?
  }

  ghost predicate HandledInOrder(db: Db) {
    db.effects == EventsBelow(db.archive, db.nextMsg)
  }

  ghost predicate Fifo(s: State) {
    AllVisible(s) && LowestFirst(s) && BatchLast(s) && NothingFails(s) && HandledInOrder(s.db)
  }

  ghost predicate KnownIds(db: Db) {
    forall m: MsgId :: m in db.live || m in db.archive ==> m < db.nextMsg
  }

  lemma QueueIdsAreKnown(db: Db)
    requires QueueOk(db)
    ensures KnownIds(db)
  {
    forall m: MsgId | m in db.live || m in db.archive ensures m < db.nextMsg {
      assert Carries(db, m, if m in db.live then db.live[m].event else db.archive[m].event);
    }
  }

  // ---------------------------------------------------------------- the steps keep it

  /** Steps that touch neither messages nor consumers; the clock may advance. */
  lemma TablesKept(s: State, s': State)
    requires Fifo(s) && s'.consumers == s.consumers && s'.now >= s.now && KnownIds(s.db)
    requires s'.db.live == s.db.live && s'.db.archive == s.db.archive && s'.db.effects == s.db.effects
    requires s'.db.nextMsg >= s.db.nextMsg && BatchLast(s')
    ensures Fifo(s')
  {
    NoEventsAbove(s.db.archive, s.db.nextMsg, s'.db.nextMsg);
    assert forall m <- s'.db.live :: InHand(s', m) <==> InHand(s, m);
  }

  lemma SendKeepsOrder(cfg: Config, s: State)
    requires Fifo(s) && KnownIds(s.db) && Enabled(cfg, s, Send(WORKER))
    ensures Fifo(Next(cfg, s, Send(WORKER)))
  {
    var sent := s.relays[WORKER].sent;
    assert forall i :: 0 <= i < |sent| ==> sent[i] in sent;
    TablesKept(s, Next(cfg, s, Send(WORKER)));
  }

  /** The batch's messages are new, can be read at once, and come last. */
  lemma BatchArrives(db: Db, b: Batch, now: int)
    requires |b.sent| == |b.rows| && NoDuplicates(b.sent) && forall m <- b.sent :: m !in db.live
    ensures var live' := Enqueued(db.live, b.rows, b.sent, now);
            && (forall m <- live' :: m in db.live || m in b.sent)
            && (forall m <- db.live :: m in live' && live'[m] == db.live[m])
            && (forall m <- b.sent :: m in live' && live'[m].visibleAt == now)
  {
    EnqueuedFacts(db.live, b.rows, b.sent, now);
    forall m <- b.sent ensures Enqueued(db.live, b.rows, b.sent, now)[m].visibleAt == now {
      var i :| 0 <= i < |b.sent| && b.sent[i] == m;
    }
  }

  lemma PublishKeepsOrder(cfg: Config, s: State)
    requires Fifo(s) && JobOk(s) && Enabled(cfg, s, RelayCommit(WORKER)) && BatchOk(s.db, s.relays[WORKER])
    requires forall r <- s.relays :: r == WORKER
    ensures Fifo(Next(cfg, s, RelayCommit(WORKER)))
  {
    assert s.relays - {WORKER} == map[];
    BatchArrives(s.db, s.relays[WORKER], s.now);
    ArrivalsKeepOrder(s, Next(cfg, s, RelayCommit(WORKER)), s.relays[WORKER]);
  }

  lemma ArrivalsKeepOrder(s: State, s': State, b: Batch)
    requires Fifo(s) && JobOk(s) && WORKER in s.relays && s.relays[WORKER] == b && s'.relays == map[]
    requires s'.consumers == s.consumers && s'.now == s.now && s'.db.archive == s.db.archive
    requires s'.db.effects == s.db.effects && s'.db.nextMsg == s.db.nextMsg
    requires forall m <- s'.db.live :: m in s.db.live || m in b.sent
    requires forall m <- s.db.live :: m in s'.db.live && s'.db.live[m] == s.db.live[m]
    requires forall m <- b.sent :: m in s'.db.live && s'.db.live[m].visibleAt == s.now
    ensures Fifo(s')
  {
    assert forall m <- s'.db.live :: InHand(s', m) <==> InHand(s, m);
  }

  /** The lowest queued message is the next one. */
  lemma ReadKeepsOrder(cfg: Config, s: State, m: MsgId)
    requires Fifo(s) && Enabled(cfg, s, Read(WORKER, m)) && forall c <- s.consumers :: c == WORKER
    ensures Fifo(Next(cfg, s, Read(WORKER, m)))
  {
    var s' := Next(cfg, s, Read(WORKER, m));
    assert forall k <- s.db.live :: IsVisible(s.db, k, s.now);
    assert forall k <- s'.db.live :: InHand(s', k) <==> k == m;
  }

  lemma HandleKeepsOrder(cfg: Config, s: State)
    requires Fifo(s) && JobOk(s) && KnownIds(s.db) && Enabled(cfg, s, CommitHandle(WORKER))
             && s.db.live.Keys !! s.db.archive.Keys
    ensures Fifo(Next(cfg, s, CommitHandle(WORKER)))
  {
    var s', m := Next(cfg, s, CommitHandle(WORKER)), s.consumers[WORKER].job.msg;
    assert s'.db.live == s.db.live - {m} && s'.db.archive == s.db.archive[m := s.db.live[m]];
    LastEvent(s.db.archive, m, s.db.live[m], s.db.nextMsg);
    assert InHand(s, m);
  }

  lemma BeginKeepsOrder(cfg: Config, s: State)
    requires Fifo(s) && Enabled(cfg, s, BeginHandle(WORKER))
    ensures Fifo(Next(cfg, s, BeginHandle(WORKER)))
  {
    var s' := Next(cfg, s, BeginHandle(WORKER));
    assert forall m <- s'.db.live :: InHand(s', m) <==> InHand(s, m);
  }

  lemma QuietKeepsOrder(cfg: Config, s: State, step: Step)
    requires Fifo(s) && KnownIds(s.db) && Enabled(cfg, s, step) && OneRelay(step)
    requires step.Write? || step.UndoTo? || step.WriterCommit? || step.WriterAbort? || step.Select? || step.RelayAbort?
             || step.Tick?
    ensures Fifo(Next(cfg, s, step))
  {
    TablesKept(s, Next(cfg, s, step));
  }

  lemma StepKeepsOrder(cfg: Config, s: State, step: Step)
    requires Deployed(cfg, s) && Fifo(s) && Enabled(cfg, s, step) && Calm(step)
    ensures Fifo(Next(cfg, s, step))
  {
    QueueIdsAreKnown(s.db);
    OnlyWorker(cfg, s);
    assert JobOk(s) && QueueOk(s.db);
    match step
    case Send(_) => SendKeepsOrder(cfg, s);
    case RelayCommit(_) => PublishKeepsOrder(cfg, s);
    case Read(_, m) => ReadKeepsOrder(cfg, s, m);
    case BeginHandle(_) => BeginKeepsOrder(cfg, s);
    case CommitHandle(_) => HandleKeepsOrder(cfg, s);
    case SettleFailure(_) => assert false;
    case ConsumerCrash(_) => assert false;
    case HandlerFails(_) => assert false;
    case _ => QuietKeepsOrder(cfg, s, step);
  }

  lemma {:induction false} CalmRunsKeepOrder(cfg: Config, steps: seq<Step>)
    requires Run(cfg, START, steps).Some? && forall step <- steps :: Calm(step)
    ensures Deployed(cfg, Run(cfg, START, steps).value) && Fifo(Run(cfg, START, steps).value)
  {
    if steps != [] {
      var n := |steps| - 1;
      assert steps[n] in steps && forall step <- steps[..n] :: step in steps;
      CalmRunsKeepOrder(cfg, steps[..n]);
      StepKeepsOrder(cfg, Run(cfg, START, steps[..n]).value, steps[n]);
      DeployedKept(cfg, Run(cfg, START, steps[..n]).value, steps[n]);
    }
  }

  // ---------------------------------------------------------------- first in, first out

  /** What was handled, then what is queued, is what was published. */
  lemma HandledThenQueued(s: State)
    requires Fifo(s) && KnownIds(s.db)
    ensures PublishOrder(s.db) == s.db.effects + EventsBelow(s.db.live, s.db.nextMsg)
  {
    LaterEvents(s.db.archive, s.db.live, s.db.nextMsg);
  }

  /**
   In every calm run the handled events are an initial part of the published ones, and all of them once the queue is
   empty.
   */
  lemma FirstInFirstOut(cfg: Config, steps: seq<Step>)
    requires Run(cfg, START, steps).Some? && forall step <- steps :: Calm(step)
    ensures var db := Run(cfg, START, steps).value.db;
            db.effects <= PublishOrder(db) && (db.live == map[] ==> db.effects == PublishOrder(db))
  {
    CalmRunsKeepOrder(cfg, steps);
    var s := Run(cfg, START, steps).value;
    assert QueueOk(s.db);
    QueueIdsAreKnown(s.db);
    HandledThenQueued(s);
    if s.db.live == map[] { NoEventsYet(s.db.live, s.db.nextMsg); }
  }

  lemma {:induction false} EnqueuedKeys(messages: map<MsgId, Message>, rows: seq<EventId>, sent: seq<MsgId>, now: int)
    requires |rows| == |sent|
    ensures forall m <- Enqueued(messages, rows, sent, now) :: m in messages || m in sent
  {
    if rows != [] { EnqueuedKeys(messages, rows[..|rows| - 1], sent[..|rows| - 1], now); }
  }

  lemma LastIsHighest(sent: seq<MsgId>)
    requires Climbing(sent) && sent != []
    ensures var k := |sent| - 1;
            Climbing(sent[..k]) && sent[k] in sent && forall m <- sent[..k] :: m in sent && m < sent[k]
  {
  }

  lemma LastIsAbove(messages: map<MsgId, Message>, rows: seq<EventId>, sent: seq<MsgId>, now: int)
    requires |rows| == |sent| && sent != [] && Climbing(sent) && forall k <- messages, m <- sent :: k < m
    ensures var k := |sent| - 1; forall m <- Enqueued(messages, rows[..k], sent[..k], now) :: m < sent[k]
  {
    var k := |sent| - 1;
    LastIsHighest(sent);
    EnqueuedKeys(messages, rows[..k], sent[..k], now);
  }

  /** The messages of a batch with ascending new ids. */
  lemma {:induction false} BatchEvents(messages: map<MsgId, Message>, rows: seq<EventId>, sent: seq<MsgId>,
      now: int, n: nat)
    requires |rows| == |sent| && Climbing(sent)
    requires (forall k <- messages, m <- sent :: k < m) && (forall m <- sent :: m < n)
    ensures EventsBelow(Enqueued(messages, rows, sent, now), n) == EventsBelow(messages, n) + rows
  {
    if rows != [] {
      var k := |rows| - 1;
      LastIsHighest(sent);
      BatchEvents(messages, rows[..k], sent[..k], now, n);
      LastIsAbove(messages, rows, sent, now);
      LastEvent(Enqueued(messages, rows[..k], sent[..k], now), sent[k], Message(rows[k], 0, now), n);
      assert rows == rows[..k] + [rows[k]];
    }
  }

  lemma {:induction false} EnqueuedOver(archive: map<MsgId, Message>, live: map<MsgId, Message>, rows: seq<EventId>,
      sent: seq<MsgId>, now: int)
    requires |rows| == |sent|
    ensures archive + Enqueued(live, rows, sent, now) == Enqueued(archive + live, rows, sent, now)
  {
    if rows != [] {
      EnqueuedOver(archive, live, rows[..|rows| - 1], sent[..|rows| - 1], now);
    }
  }

  lemma BatchIsAppended(db: Db, b: Batch, now: int)
    requires |b.sent| == |b.rows| && Climbing(b.sent)
    requires forall m <- b.sent, k: MsgId :: k in db.live || k in db.archive ==> k < m
    requires forall m <- b.sent :: m < db.nextMsg
    ensures PublishOrder(PublishTx(db, b.rows, b.sent, now)) == PublishOrder(db) + b.rows
  {
    EnqueuedOver(db.archive, db.live, b.rows, b.sent, now);
    BatchEvents(db.archive + db.live, b.rows, b.sent, now, db.nextMsg);
  }

  lemma SamePublished(db: Db, db': Db)
    requires db'.nextMsg >= db.nextMsg && KnownIds(db)
    requires forall m: MsgId :: m in db'.live || m in db'.archive <==> m in db.live || m in db.archive
    requires forall m: MsgId ::
             m in db.live || m in db.archive ==> (db'.archive + db'.live)[m].event == (db.archive + db.live)[m].event
    ensures PublishOrder(db') == PublishOrder(db)
  {
    SameEvents(db.archive + db.live, db'.archive + db'.live, db.nextMsg);
    NoEventsAbove(db'.archive + db'.live, db.nextMsg, db'.nextMsg);
  }

  lemma HandlingPublishesNothing(cfg: Config, s: State)
    requires JobOk(s) && KnownIds(s.db) && s.db.live.Keys !! s.db.archive.Keys && Enabled(cfg, s, CommitHandle(WORKER))
    ensures PublishOrder(Next(cfg, s, CommitHandle(WORKER)).db) == PublishOrder(s.db)
  {
    var db', m := Next(cfg, s, CommitHandle(WORKER)).db, s.consumers[WORKER].job.msg;
    assert db'.live == s.db.live - {m} && db'.archive == s.db.archive[m := s.db.live[m]];
    SamePublished(s.db, db');
  }

  lemma OthersPublishNothing(cfg: Config, s: State, step: Step)
    requires KnownIds(s.db) && s.db.live.Keys !! s.db.archive.Keys && Enabled(cfg, s, step)
    requires !step.RelayCommit? && !step.CommitHandle? && !step.SettleFailure?
    ensures PublishOrder(Next(cfg, s, step).db) == PublishOrder(s.db)
  {
    SamePublished(s.db, Next(cfg, s, step).db);
  }

  lemma SettlingPublishesNothing(cfg: Config, s: State)
    requires JobOk(s) && KnownIds(s.db) && s.db.live.Keys !! s.db.archive.Keys && Enabled(cfg, s, SettleFailure(WORKER))
    ensures PublishOrder(Next(cfg, s, SettleFailure(WORKER)).db) == PublishOrder(s.db)
  {
    var db', job := Next(cfg, s, SettleFailure(WORKER)).db, s.consumers[WORKER].job;
    if job.readCt >= cfg.maxRetries {
      assert db'.live == s.db.live - {job.msg} && db'.archive == s.db.archive[job.msg := s.db.live[job.msg]];
    } else {
      assert db'.archive == s.db.archive && db'.live.Keys == s.db.live.Keys;
    }
    SamePublished(s.db, db');
  }

  /** With one relay publishing appends the batch's rows, and nothing else adds to the published events. */
  lemma PublishingAppends(cfg: Config, s: State, step: Step)
    requires Deployed(cfg, s) && BatchLast(s) && Enabled(cfg, s, step) && OneRelay(step)
    ensures PublishOrder(Next(cfg, s, step).db)
            == PublishOrder(s.db) + if step.RelayCommit? then s.relays[WORKER].rows else []
  {
    QueueIdsAreKnown(s.db);
    OnlyWorker(cfg, s);
    assert JobOk(s) && QueueOk(s.db);
    match step
    case RelayCommit(_) => BatchIsAppended(s.db, s.relays[WORKER], s.now);
    case CommitHandle(_) => HandlingPublishesNothing(cfg, s);
    case SettleFailure(_) => SettlingPublishesNothing(cfg, s);
    case _ => OthersPublishNothing(cfg, s, step);
  }

  lemma SendKeepsBatchLast(cfg: Config, s: State)
    requires BatchLast(s) && KnownIds(s.db) && Enabled(cfg, s, Send(WORKER))
    ensures BatchLast(Next(cfg, s, Send(WORKER)))
  {
    var sent := s.relays[WORKER].sent;
    assert forall i :: 0 <= i < |sent| ==> sent[i] in sent;
  }

  /** A step that publishes nothing leaves the open batch last. */
  lemma SameIdsBatchLast(s: State, s': State)
    requires BatchLast(s) && (WORKER in s'.relays ==> WORKER in s.relays && s'.relays[WORKER] == s.relays[WORKER])
    requires forall m: MsgId :: m in s'.db.live || m in s'.db.archive ==> m in s.db.live || m in s.db.archive
    requires s'.db.nextMsg >= s.db.nextMsg
    ensures BatchLast(s')
  {
  }

  lemma SettleKeepsIds(cfg: Config, s: State)
    requires JobOk(s) && Enabled(cfg, s, SettleFailure(WORKER))
    ensures var s' := Next(cfg, s, SettleFailure(WORKER));
            && s'.relays == s.relays && s'.db.nextMsg == s.db.nextMsg
            && forall m: MsgId :: m in s'.db.live || m in s'.db.archive ==> m in s.db.live || m in s.db.archive
  {
  }

  /** Whatever crashes or fails, the messages of the open batch follow everything published. */
  lemma BatchStaysLast(cfg: Config, s: State, step: Step)
    requires Deployed(cfg, s) && BatchLast(s) && Enabled(cfg, s, step) && OneRelay(step)
    ensures BatchLast(Next(cfg, s, step))
  {
    QueueIdsAreKnown(s.db);
    OnlyWorker(cfg, s);
    assert JobOk(s);
    match step
    case Send(_) => SendKeepsBatchLast(cfg, s);
    case RelayCommit(_) => assert WORKER !in Next(cfg, s, step).relays;
    case Select(_) => assert Next(cfg, s, step).db == s.db && Next(cfg, s, step).relays[WORKER].sent == [];
    case SettleFailure(_) =>
      SettleKeepsIds(cfg, s);
      SameIdsBatchLast(s, Next(cfg, s, step));
    case _ => SameIdsBatchLast(s, Next(cfg, s, step));
  }

  // ---------------------------------------------------------------- a crash breaks the order

  lemma {:induction false} RunConcat(cfg: Config, s: State, a: seq<Step>, b: seq<Step>)
    requires Run(cfg, s, a).Some?
    ensures Run(cfg, s, a + b) == Run(cfg, Run(cfg, s, a).value, b)
  {
    if b == [] {
      assert a + b == a;
    } else {
      assert (a + b)[..|a + b| - 1] == a + b[..|b| - 1];
      RunConcat(cfg, s, a, b[..|b| - 1]);
    }
  }

  /** Two events of one transaction. */
  const WRITES := [Write(0)] + [Write(0)] + [WriterCommit(0)]
  const WRITTEN := START.(db := START.db.(outbox := map[0 := false, 1 := false]), nextEvent := 2)

  lemma BothAreWritten(cfg: Config)
    ensures Run(cfg, START, WRITES) == Some(WRITTEN)
  {
    var none: seq<Step> := [];
    RunSnoc(cfg, START, none, Write(0));
    assert none + [Write(0)] == [Write(0)];
    var one: set<EventId> := {};
    assert one + {0} == {0} && {0} + {1} == {0, 1};
    assert Next(cfg, START, Write(0)) == START.(writers := map[0 := {0}], nextEvent := 1);
    RunSnoc(cfg, START, [Write(0)], Write(0));
    var s1, s2 := START.(writers := map[0 := {0}], nextEvent := 1), START.(writers := map[0 := {0, 1}], nextEvent := 2);
    assert Next(cfg, s1, Write(0)).writers == s2.writers;
    assert Next(cfg, s1, Write(0)) == s2;
    RunSnoc(cfg, START, [Write(0)] + [Write(0)], WriterCommit(0));
    assert Next(cfg, s2, WriterCommit(0)).db.outbox == WRITTEN.db.outbox;
    assert s2.writers - {0} == map[];
  }

  /** Both messages in the queue. */
  const SENT := WRITTEN.(
    db := Db(map[0 := true, 1 := true], map[0 := Message(0, 0, 0), 1 := Message(1, 0, 0)], map[], [], {}, [], 2))

  lemma SentTables()
    ensures Enqueued(map[], [0, 1], [0, 1], 0) == SENT.db.live
    ensures EventBus.Published(WRITTEN.db.outbox, [0, 1]) == SENT.db.outbox
  {
    var one := Enqueued(map[], [0], [0], 0);
    assert Enqueued(map[], [], [], 0) == map[] && one == map[0 := Message(0, 0, 0)];
    assert [0, 1][..1] == [0];
  }

  lemma BothAreNext(cfg: Config)
    requires cfg.batch >= 2
    ensures Unpublished(WRITTEN.db.outbox, {}, cfg.batch, 2) == [0, 1]
  {
    assert Unpublished(WRITTEN.db.outbox, {}, cfg.batch, 0) == [];
    assert Unpublished(WRITTEN.db.outbox, {}, cfg.batch, 1) == [0];
  }

  lemma BothAreSent(cfg: Config)
    requires cfg.batch >= 2
    ensures Run(cfg, WRITTEN, SendSteps(WORKER, 2) + [RelayCommit(WORKER)]) == Some(SENT)
  {
    BothAreNext(cfg);
    assert LockedRows(WRITTEN) == {};
    RelayCallIsARun(cfg, WRITTEN, WORKER);
    assert Ids(0, 2) == [0, 1];
    SentTables();
  }

  /** The first message is read once and hidden, its consumer gone. */
  function Crashed(cfg: Config): State {
    SENT.(db := SENT.db.(live := SENT.db.live[0 := Message(0, 1, cfg.visibility)]), crashes := map[0 := 1])
  }

  lemma FirstIsLost(cfg: Config)
    ensures Run(cfg, SENT, [Read(WORKER, 0)] + [ConsumerCrash(WORKER)]) == Some(Crashed(cfg))
  {
    var none: seq<Step> := [];
    RunSnoc(cfg, SENT, none, Read(WORKER, 0));
    assert none + [Read(WORKER, 0)] == [Read(WORKER, 0)];
    RunSnoc(cfg, SENT, [Read(WORKER, 0)], ConsumerCrash(WORKER));
    var held := Next(cfg, SENT, Read(WORKER, 0));
    assert held.consumers - {WORKER} == map[];
    assert held.db.live == Crashed(cfg).db.live;
  }

  /** Then the second is handled, and the first after its visibility timeout. */
  function OneCrash(cfg: Config): seq<Step> {
    WRITES + (SendSteps(WORKER, 2) + [RelayCommit(WORKER)]) + ([Read(WORKER, 0)] + [ConsumerCrash(WORKER)])
    + ConsumerSteps(Crashed(cfg), WORKER, 1, Succeeds) + [Tick(cfg.visibility)]
    + ([Read(WORKER, 0)] + [BeginHandle(WORKER)] + [CommitHandle(WORKER)])
  }

  lemma SecondIsFirst(cfg: Config) returns (s: State)
    requires cfg.visibility > 0
    ensures Run(cfg, Crashed(cfg), ConsumerSteps(Crashed(cfg), WORKER, 1, Succeeds)) == Some(s)
    ensures s == Crashed(cfg).(db := s.db)
    ensures s.db.live == map[0 := Message(0, 1, cfg.visibility)] && s.db.effects == [1] && s.db.keys == {1}
    ensures s.db.outbox == SENT.db.outbox && s.db.archive.Keys == {1} && s.db.archive[1].event == 1 && s.db.nextMsg == 2
  {
    var c := Crashed(cfg);
    assert IsNext(c.db, 1, c.now);
    ConsumerCallIsARun(cfg, c, WORKER, 1, Succeeds);
    s := Run(cfg, c, ConsumerSteps(c, WORKER, 1, Succeeds)).value;
    assert {} + {1} == {1};
  }

  /**
   One crash is enough: the second event's effect is committed before the first one's, and the queue drains that way.
   */
  lemma OneCrashReorders(cfg: Config)
    requires cfg.batch >= 2 && cfg.visibility > 0
    ensures var s := Run(cfg, START, OneCrash(cfg));
            && s.Some? && s.value.db.live == map[] && s.value.db.effects == [1, 0] && PublishOrder(s.value.db) == [0, 1]
  {
    BothAreWritten(cfg);
    BothAreSent(cfg);
    FirstIsLost(cfg);
    var s := SecondIsFirst(cfg);
    var a := WRITES + (SendSteps(WORKER, 2) + [RelayCommit(WORKER)]);
    RunConcat(cfg, START, WRITES, SendSteps(WORKER, 2) + [RelayCommit(WORKER)]);
    var b := a + ([Read(WORKER, 0)] + [ConsumerCrash(WORKER)]);
    RunConcat(cfg, START, a, [Read(WORKER, 0)] + [ConsumerCrash(WORKER)]);
    var c := b + ConsumerSteps(Crashed(cfg), WORKER, 1, Succeeds);
    RunConcat(cfg, START, b, ConsumerSteps(Crashed(cfg), WORKER, 1, Succeeds));
    RunSnoc(cfg, START, c, Tick(cfg.visibility));
    RunConcat(cfg, START, c + [Tick(cfg.visibility)],
              [Read(WORKER, 0)] + [BeginHandle(WORKER)] + [CommitHandle(WORKER)]);
    FirstIsSecond(cfg, Next(cfg, s, Tick(cfg.visibility)));
  }

  lemma FirstIsSecond(cfg: Config, s: State)
    requires s.consumers == map[] && s.now == cfg.visibility
    requires s.db.live == map[0 := Message(0, 1, cfg.visibility)] && s.db.effects == [1] && s.db.keys == {1}
    requires s.db.archive.Keys == {1} && s.db.archive[1].event == 1 && s.db.nextMsg == 2
    ensures var s' := Run(cfg, s, [Read(WORKER, 0)] + [BeginHandle(WORKER)] + [CommitHandle(WORKER)]);
            && s'.Some? && s'.value.db.live == map[] && s'.value.db.effects == [1, 0]
               && PublishOrder(s'.value.db) == [0, 1]
  {
    assert IsNext(s.db, 0, s.now);
    ConsumerCallIsARun(cfg, s, WORKER, 0, Succeeds);
    assert ConsumerSteps(s, WORKER, 0, Succeeds) == [Read(WORKER, 0)] + [BeginHandle(WORKER)] + [CommitHandle(WORKER)];
    var db := Run(cfg, s, ConsumerSteps(s, WORKER, 0, Succeeds)).value.db;
    assert db.live == map[];
    var messages := db.archive + db.live;
    assert EventsBelow(messages, 0) == [] && EventsBelow(messages, 1) == [0];
  }
}
