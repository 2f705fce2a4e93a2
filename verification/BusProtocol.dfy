/** The event bus as a protocol: writers, relays and consumers take steps in any interleaving. */
module BusProtocol {
  import opened Results
  import opened EventBus

  type TxId = nat

  /** What a consumer remembers of the message it read. */
  datatype Job = Job(msg: MsgId, event: EventId, readCt: nat)

  /** A busy consumer: between its transactions, inside the handler's transaction, or about to settle a failure. */
  datatype Phase =
    | Holding(job: Job)
    | Handling(job: Job, duplicate: bool)
    | Failing(job: Job)

  /** A relay's open transaction: the rows it locked and the messages it has sent for the first of them. */
  datatype Batch = Batch(rows: seq<EventId>, sent: seq<MsgId>)

  /** `writers` holds the uncommitted outbox rows; `crashes` and `backoff` record, per message, what happened to it. */
  datatype State = State(
    db: Db,
    nextEvent: EventId,
    writers: map<TxId, set<EventId>>,
    relays: map<WorkerId, Batch>,
    consumers: map<WorkerId, Phase>,
    now: int,
    crashes: map<MsgId, nat>,
    backoff: map<MsgId, nat>)

  const START := State(Db(map[], map[], map[], [], {}, [], 0), 0, map[], map[], map[], 0, map[], map[])

  datatype Step =
    | Write(t: TxId)
    | UndoTo(t: TxId, kept: set<EventId>)
    | WriterCommit(t: TxId)
    | WriterAbort(t: TxId)
    | Select(r: WorkerId)
    | Send(r: WorkerId)
    | RelayCommit(r: WorkerId)
    | RelayAbort(r: WorkerId)
    | Read(c: WorkerId, m: MsgId)
    | BeginHandle(c: WorkerId)
    | CommitHandle(c: WorkerId)
    | HandlerFails(c: WorkerId)
    | SettleFailure(c: WorkerId)
    | ConsumerCrash(c: WorkerId)
    | Tick(d: nat)

  function Count(m: map<MsgId, nat>, k: MsgId): nat {
    if k in m then m[k] else 0
  }

  function LockedRows(s: State): set<EventId> {
    set r <- s.relays, e <- s.relays[r].rows :: e
  }

  function BatchFor(cfg: Config, s: State): seq<EventId> {
    Unpublished(s.db.outbox, LockedRows(s), cfg.batch, s.nextEvent)
  }

  /** The consumer has inserted the event's key in its open transaction. */
  predicate HoldsKey(p: Phase) {
    p.Handling? && !p.duplicate
  }

  /** Another consumer holds the event's key in an open transaction, so an insert of the key waits. */
  predicate KeyInFlight(s: State, e: EventId) {
    exists c <- s.consumers :: HoldsKey(s.consumers[c]) && s.consumers[c].job.event == e
  }

  predicate Enabled(cfg: Config, s: State, step: Step) {
    match step
    case Write(t) => true
    case UndoTo(t, kept) => t in s.writers && kept <= s.writers[t]
    case WriterCommit(t) => t in s.writers
    case WriterAbort(t) => t in s.writers
    case Select(r) => r !in s.relays && BatchFor(cfg, s) != []
    case Send(r) => r in s.relays && |s.relays[r].sent| < |s.relays[r].rows|
    case RelayCommit(r) => r in s.relays && |s.relays[r].sent| == |s.relays[r].rows|
    case RelayAbort(r) => r in s.relays
    case Read(c, m) => c !in s.consumers && IsNext(s.db, m, s.now)
    case BeginHandle(c) => c in s.consumers && s.consumers[c].Holding? && !KeyInFlight(s, s.consumers[c].job.event)
    case CommitHandle(c) => c in s.consumers && s.consumers[c].Handling?
    case HandlerFails(c) => c in s.consumers && s.consumers[c].Handling?
    case SettleFailure(c) => c in s.consumers && s.consumers[c].Failing?
    case ConsumerCrash(c) => c in s.consumers
    case Tick(_) => true
  }

  function Next(cfg: Config, s: State, step: Step): State
    requires Enabled(cfg, s, step)
  {
    match step
    case Write(t) =>
      var pending := if t in s.writers then s.writers[t] else {};
      s.(writers := s.writers[t := pending + {s.nextEvent}], nextEvent := s.nextEvent + 1)
    case UndoTo(t, kept) => s.(writers := s.writers[t := kept])
    case WriterCommit(t) =>
      s.(db := s.db.(outbox := s.db.outbox + map e <- s.writers[t] :: false), writers := s.writers - {t})
    case WriterAbort(t) => s.(writers := s.writers - {t})
    case Select(r) => s.(relays := s.relays[r := Batch(BatchFor(cfg, s), [])])
    case Send(r) =>
      s.(relays := s.relays[r := s.relays[r].(sent := s.relays[r].sent + [s.db.nextMsg])],
         db := s.db.(nextMsg := s.db.nextMsg + 1))
    case RelayCommit(r) =>
      s.(db := PublishTx(s.db, s.relays[r].rows, s.relays[r].sent, s.now), relays := s.relays - {r})
    case RelayAbort(r) => s.(relays := s.relays - {r})
    case Read(c, m) =>
      var db := ReadTx(cfg, s.db, m, s.now);
      s.(db := db, consumers := s.consumers[c := Holding(Job(m, db.live[m].event, db.live[m].readCt))])
    case BeginHandle(c) =>
      var job := s.consumers[c].job;
      s.(consumers := s.consumers[c := Handling(job, job.event in s.db.keys)])
    case CommitHandle(c) =>
      var job := s.consumers[c].job;
      s.(db := HandleTx(s.db, job.msg, job.event, s.consumers[c].duplicate), consumers := s.consumers - {c})
    case HandlerFails(c) => s.(consumers := s.consumers[c := Failing(s.consumers[c].job)])
    case SettleFailure(c) =>
      var job := s.consumers[c].job;
      var retried := job.readCt < cfg.maxRetries && job.msg in s.db.live;
      s.(db := FailTx(cfg, s.db, job.msg, job.event, job.readCt, s.now), consumers := s.consumers - {c},
         backoff := if retried then s.backoff[job.msg := Count(s.backoff, job.msg) + Backoff(cfg, job.readCt)]
           else s.backoff)
    case ConsumerCrash(c) =>
      var m := s.consumers[c].job.msg;
      s.(consumers := s.consumers - {c}, crashes := s.crashes[m := Count(s.crashes, m) + 1])
    case Tick(d) => s.(now := s.now + d)
  }

  function Run(cfg: Config, s: State, steps: seq<Step>): Option<State> {
    if steps == [] then Some(s)
    else
      var before := Run(cfg, s, steps[..|steps| - 1]);
      if before.Some? && Enabled(cfg, before.value, steps[|steps| - 1])
      then Some(Next(cfg, before.value, steps[|steps| - 1]))
      else None
  }

  // ---------------------------------------------------------------- the invariant for any number of workers

  /** Message m, queued or archived, carries event e. */
  predicate Carries(db: Db, m: MsgId, e: EventId) {
    (m in db.live && db.live[m].event == e) || (m in db.archive && db.archive[m].event == e)
  }

  predicate Dead(db: Db, e: EventId) {
    exists i :: 0 <= i < |db.dlq| && db.dlq[i].event == e
  }

  predicate NoDuplicates<T(==)>(s: seq<T>) {
    forall i, j :: 0 <= i < j < |s| ==> s[i] != s[j]
  }

  /** Published rows and messages correspond one to one. */
  ghost predicate QueueOk(db: Db) {
    && db.live.Keys !! db.archive.Keys
    && (forall m: MsgId, e: EventId :: Carries(db, m, e) ==> m < db.nextMsg && e in db.outbox && db.outbox[e])
    && (forall m: MsgId, k: MsgId, e: EventId :: Carries(db, m, e) && Carries(db, k, e) ==> m == k)
    && (forall e <- db.outbox :: db.outbox[e] ==> exists m :: Carries(db, m, e))
  }

  /** A key exists exactly for a committed handler run, each once; an archived message is keyed or dead-lettered. */
  ghost predicate KeysOk(db: Db) {
    && NoDuplicates(db.effects) && (forall e :: e in db.effects <==> e in db.keys)
    && (forall e <- db.keys :: e in db.outbox && db.outbox[e])
    && (forall m <- db.archive :: db.archive[m].event in db.keys || Dead(db, db.archive[m].event))
    && (forall d <- db.dlq :: Carries(db, d.msg, d.event))
  }

  /** Transaction t holds the uncommitted row e. */
  predicate Pends(writers: map<TxId, set<EventId>>, t: TxId, e: EventId) {
    t in writers && e in writers[t]
  }

  ghost predicate WritersOk(s: State) {
    && (forall e <- s.db.outbox :: e < s.nextEvent)
    && (forall t: TxId, e: EventId :: Pends(s.writers, t, e) ==> e < s.nextEvent && e !in s.db.outbox)
    && (forall t: TxId, u: TxId, e: EventId :: Pends(s.writers, t, e) && Pends(s.writers, u, e) ==> t == u)
  }

  ghost predicate BatchOk(db: Db, b: Batch) {
    && |b.sent| <= |b.rows| && NoDuplicates(b.rows) && NoDuplicates(b.sent)
    && (forall e <- b.rows :: e in db.outbox && !db.outbox[e])
    && (forall m <- b.sent :: m < db.nextMsg && m !in db.live && m !in db.archive)
  }

  ghost predicate RelaysOk(s: State) {
    && (forall r <- s.relays :: BatchOk(s.db, s.relays[r]))
    && (forall r <- s.relays, q <- s.relays, e :: r != q && e in s.relays[r].rows ==> e !in s.relays[q].rows)
    && (forall r <- s.relays, q <- s.relays, m :: r != q && m in s.relays[r].sent ==> m !in s.relays[q].sent)
  }

  ghost predicate ConsumersOk(s: State) {
    && (forall c <- s.consumers :: Carries(s.db, s.consumers[c].job.msg, s.consumers[c].job.event))
    && (forall c <- s.consumers :: s.consumers[c].Handling? ==>
          (s.consumers[c].duplicate <==> s.consumers[c].job.event in s.db.keys))
    && (forall c <- s.consumers, d <- s.consumers :: c != d && HoldsKey(s.consumers[c]) && HoldsKey(s.consumers[d]) ==>
          s.consumers[c].job.event != s.consumers[d].job.event)
  }

  ghost predicate Inv(s: State) {
    QueueOk(s.db) && KeysOk(s.db) && WritersOk(s) && RelaysOk(s) && ConsumersOk(s)
  }

  // ---------------------------------------------------------------- what a step leaves alone

  ghost predicate SameCarriers(db: Db, db': Db) {
    && (forall m: MsgId, e: EventId :: Carries(db', m, e) <==> Carries(db, m, e))
    && (forall m: MsgId :: m in db'.live || m in db'.archive <==> m in db.live || m in db.archive)
    && db'.live.Keys !! db'.archive.Keys
  }

  lemma KeepQueue(db: Db, db': Db)
    requires QueueOk(db) && SameCarriers(db, db') && db'.nextMsg >= db.nextMsg
    requires forall e <- db.outbox :: e in db'.outbox && db'.outbox[e] == db.outbox[e]
    requires forall e <- db'.outbox :: db'.outbox[e] ==> e in db.outbox
    ensures QueueOk(db')
  {
    forall e <- db'.outbox | db'.outbox[e] ensures exists m :: Carries(db', m, e) {
      var m :| Carries(db, m, e);
      assert Carries(db', m, e);
    }
  }

  lemma KeepKeys(db: Db, db': Db)
    requires KeysOk(db) && db'.keys == db.keys && db'.effects == db.effects && db'.dlq == db.dlq
             && db'.archive == db.archive
    requires forall m: MsgId, e: EventId :: Carries(db', m, e) <==> Carries(db, m, e)
    requires forall e <- db.outbox :: e in db'.outbox && db'.outbox[e] == db.outbox[e]
    ensures KeysOk(db')
  {
    assert forall e :: Dead(db', e) <==> Dead(db, e);
  }

  lemma KeepWriters(s: State, s': State)
    requires WritersOk(s) && s'.writers == s.writers && s'.nextEvent == s.nextEvent
             && s'.db.outbox.Keys == s.db.outbox.Keys
    ensures WritersOk(s')
  {
    assert forall e :: e in s'.db.outbox <==> e in s'.db.outbox.Keys;
    assert forall e :: e in s.db.outbox <==> e in s.db.outbox.Keys;
  }

  lemma KeepRelays(s: State, s': State)
    requires RelaysOk(s) && s'.relays == s.relays && s'.db.nextMsg >= s.db.nextMsg
    requires forall m: MsgId :: m in s'.db.live || m in s'.db.archive <==> m in s.db.live || m in s.db.archive
    requires forall e <- s.db.outbox :: e in s'.db.outbox && s'.db.outbox[e] == s.db.outbox[e]
    ensures RelaysOk(s')
  {
    forall r <- s'.relays ensures BatchOk(s'.db, s'.relays[r]) {
      assert BatchOk(s.db, s.relays[r]);
    }
  }

  lemma KeepConsumers(s: State, s': State)
    requires ConsumersOk(s) && s'.consumers == s.consumers && s'.db.keys == s.db.keys
    requires forall m: MsgId, e: EventId :: Carries(s.db, m, e) ==> Carries(s'.db, m, e)
    ensures ConsumersOk(s')
  {
  }

  // ---------------------------------------------------------------- writers

  lemma PendingRowsAreNew(s: State, t: TxId)
    requires WritersOk(s) && t in s.writers
    ensures forall e <- s.writers[t] :: e < s.nextEvent && e !in s.db.outbox
  {
    forall e <- s.writers[t] ensures e < s.nextEvent && e !in s.db.outbox {
      assert Pends(s.writers, t, e);
    }
  }

  lemma PendingRowsAreApart(s: State, t: TxId)
    requires WritersOk(s) && t in s.writers
    ensures forall u: TxId, e: EventId :: Pends(s.writers - {t}, u, e) ==> Pends(s.writers, u, e) && e !in s.writers[t]
  {
    forall u: TxId, e: EventId | Pends(s.writers - {t}, u, e) ensures Pends(s.writers, u, e) && e !in s.writers[t] {
      assert Pends(s.writers, u, e);
      assert e in s.writers[t] ==> Pends(s.writers, t, e);
    }
  }

  lemma WritersStep(cfg: Config, s: State, step: Step)
    requires WritersOk(s) && Enabled(cfg, s, step)
    requires step.Write? || step.UndoTo? || step.WriterCommit? || step.WriterAbort? || step.Tick?
    ensures WritersOk(Next(cfg, s, step))
  {
    var s' := Next(cfg, s, step);
    if step.WriterCommit? {
      PendingRowsAreNew(s, step.t);
      PendingRowsAreApart(s, step.t);
    }
    forall u: TxId, e: EventId | Pends(s'.writers, u, e)
      ensures Pends(s.writers, u, e) || (step.Write? && u == step.t && e == s.nextEvent)
    {
    }
  }

  lemma WriterStepKeepsInv(cfg: Config, s: State, step: Step)
    requires Inv(s) && Enabled(cfg, s, step)
    requires step.Write? || step.UndoTo? || step.WriterCommit? || step.WriterAbort? || step.Tick?
    ensures Inv(Next(cfg, s, step))
  {
    var s' := Next(cfg, s, step);
    WritersStep(cfg, s, step);
    if step.WriterCommit? { PendingRowsAreNew(s, step.t); }
    assert forall m: MsgId, e: EventId :: Carries(s'.db, m, e) <==> Carries(s.db, m, e);
    KeepQueue(s.db, s'.db);
    KeepKeys(s.db, s'.db);
    KeepRelays(s, s');
    KeepConsumers(s, s');
  }

  // ---------------------------------------------------------------- relays

  lemma {:induction false} UnpublishedFacts(outbox: map<EventId, bool>, locked: set<EventId>, limit: nat, n: nat)
    ensures var rows := Unpublished(outbox, locked, limit, n);
            && |rows| <= limit
            && (forall i, j :: 0 <= i < j < |rows| ==> rows[i] < rows[j])
            && (forall e <- rows :: e < n && e in outbox && !outbox[e] && e !in locked)
            && (forall e <- outbox :: e < n && !outbox[e] && e !in locked && e !in rows ==>
                  |rows| == limit && forall x <- rows :: x < e)
  {
    if n > 0 {
      UnpublishedFacts(outbox, locked, limit, n - 1);
      var prior := Unpublished(outbox, locked, limit, n - 1);
      assert forall i :: 0 <= i < |prior| ==> prior[i] in prior;
    }
  }

  lemma {:induction false} EnqueuedFacts(live: map<MsgId, Message>, rows: seq<EventId>, sent: seq<MsgId>, now: int)
    requires |rows| == |sent| && NoDuplicates(sent)
    ensures var live' := Enqueued(live, rows, sent, now);
            && (forall m: MsgId :: m in live' <==> m in live || m in sent)
            && (forall m <- live :: m !in sent ==> live'[m] == live[m])
            && (forall i :: 0 <= i < |sent| ==> live'[sent[i]] == Message(rows[i], 0, now))
  {
    if rows != [] {
      var n := |rows| - 1;
      EnqueuedFacts(live, rows[..n], sent[..n], now);
      assert sent == sent[..n] + [sent[n]];
      var live' := Enqueued(live, rows, sent, now);
      forall i | 0 <= i < |sent| ensures live'[sent[i]] == Message(rows[i], 0, now) {
        assert i < n ==> sent[..n][i] == sent[i] && rows[..n][i] == rows[i];
      }
    }
  }

  lemma RelaysSelect(cfg: Config, s: State, r: WorkerId)
    requires RelaysOk(s) && Enabled(cfg, s, Select(r))
    ensures RelaysOk(Next(cfg, s, Select(r)))
  {
    UnpublishedFacts(s.db.outbox, LockedRows(s), cfg.batch, s.nextEvent);
    forall q <- s.relays, e <- s.relays[q].rows ensures e in LockedRows(s) { }
  }

  lemma NextMsgIsNew(db: Db)
    requires QueueOk(db)
    ensures db.nextMsg !in db.live && db.nextMsg !in db.archive
  {
    assert db.nextMsg in db.live ==> Carries(db, db.nextMsg, db.live[db.nextMsg].event);
    assert db.nextMsg in db.archive ==> Carries(db, db.nextMsg, db.archive[db.nextMsg].event);
  }

  lemma BatchSend(db: Db, b: Batch)
    requires BatchOk(db, b) && |b.sent| < |b.rows| && db.nextMsg !in db.live && db.nextMsg !in db.archive
    ensures BatchOk(db.(nextMsg := db.nextMsg + 1), b.(sent := b.sent + [db.nextMsg]))
  {
    assert forall i :: 0 <= i < |b.sent| ==> b.sent[i] in b.sent;
  }

  lemma RelaysSend(cfg: Config, s: State, r: WorkerId)
    requires RelaysOk(s) && QueueOk(s.db) && Enabled(cfg, s, Send(r))
    ensures RelaysOk(Next(cfg, s, Send(r)))
  {
    var s' := Next(cfg, s, Send(r));
    NextMsgIsNew(s.db);
    forall q <- s'.relays ensures BatchOk(s'.db, s'.relays[q]) {
      assert BatchOk(s.db, s.relays[q]);
      if q == r { BatchSend(s.db, s.relays[r]); }
    }
    forall q <- s'.relays, p <- s'.relays, m | q != p && m in s'.relays[q].sent ensures m !in s'.relays[p].sent {
      assert BatchOk(s.db, s.relays[q]) && BatchOk(s.db, s.relays[p]);
    }
  }

  lemma RelayStepKeepsInv(cfg: Config, s: State, step: Step)
    requires Inv(s) && Enabled(cfg, s, step) && (step.Select? || step.Send?)
    ensures Inv(Next(cfg, s, step))
  {
    var s' := Next(cfg, s, step);
    if step.Select? { RelaysSelect(cfg, s, step.r); } else { RelaysSend(cfg, s, step.r); }
    assert forall m: MsgId, e: EventId :: Carries(s'.db, m, e) <==> Carries(s.db, m, e);
    KeepQueue(s.db, s'.db);
    KeepKeys(s.db, s'.db);
    KeepWriters(s, s');
    KeepConsumers(s, s');
  }

  /** After the commit the new messages carry exactly the batch's rows. */
  lemma PublishCarries(db: Db, b: Batch, now: int)
    requires QueueOk(db) && BatchOk(db, b) && |b.sent| == |b.rows|
    ensures var db' := PublishTx(db, b.rows, b.sent, now);
            && (forall m: MsgId, e: EventId :: Carries(db, m, e) ==> Carries(db', m, e))
            && (forall m: MsgId, e: EventId :: Carries(db', m, e) ==>
                  Carries(db, m, e) || exists i :: 0 <= i < |b.sent| && b.sent[i] == m && b.rows[i] == e)
            && (forall i :: 0 <= i < |b.sent| ==> Carries(db', b.sent[i], b.rows[i]))
            && db'.live.Keys !! db'.archive.Keys
            && (forall m: MsgId :: m in db'.live <==> m in db.live || m in b.sent)
  {
    EnqueuedFacts(db.live, b.rows, b.sent, now);
  }

  /** A row of the batch had no message before, and its own position in the batch tells its message. */
  lemma PublishOneMessage(db: Db, b: Batch, now: int, m: MsgId, k: MsgId, e: EventId)
    requires QueueOk(db) && BatchOk(db, b) && |b.sent| == |b.rows|
    requires var db' := PublishTx(db, b.rows, b.sent, now); Carries(db', m, e) && Carries(db', k, e)
    ensures m == k
  {
    PublishCarries(db, b, now);
    if e in b.rows {
      assert !db.outbox[e];
      var i := MessageOfRow(db, b, now, m, e);
      var j := MessageOfRow(db, b, now, k, e);
    }
  }

  lemma MessageOfRow(db: Db, b: Batch, now: int, m: MsgId, e: EventId) returns (i: nat)
    requires QueueOk(db) && |b.sent| == |b.rows| && NoDuplicates(b.sent)
    requires Carries(PublishTx(db, b.rows, b.sent, now), m, e) && e in db.outbox && !db.outbox[e]
    ensures i < |b.sent| && b.sent[i] == m && b.rows[i] == e
  {
    EnqueuedFacts(db.live, b.rows, b.sent, now);
    assert !Carries(db, m, e);
    i :| 0 <= i < |b.sent| && b.sent[i] == m && b.rows[i] == e;
  }

  lemma PublishKeepsQueueOk(db: Db, b: Batch, now: int)
    requires QueueOk(db) && BatchOk(db, b) && |b.sent| == |b.rows|
    ensures QueueOk(PublishTx(db, b.rows, b.sent, now))
  {
    var db' := PublishTx(db, b.rows, b.sent, now);
    PublishCarries(db, b, now);
    forall e <- db'.outbox | db'.outbox[e] ensures exists m :: Carries(db', m, e) {
      if db.outbox[e] {
        var m :| Carries(db, m, e);
        assert Carries(db', m, e);
      } else {
        var i :| 0 <= i < |b.rows| && b.rows[i] == e;
        assert Carries(db', b.sent[i], e);
      }
    }
    forall m: MsgId, e: EventId | Carries(db', m, e) ensures m < db'.nextMsg && e in db'.outbox && db'.outbox[e] {
      if !Carries(db, m, e) {
        var i :| 0 <= i < |b.sent| && b.sent[i] == m && b.rows[i] == e;
        assert e in b.rows && m in b.sent;
      }
    }
    forall m: MsgId, k: MsgId, e: EventId | Carries(db', m, e) && Carries(db', k, e) ensures m == k {
      PublishOneMessage(db, b, now, m, k, e);
    }
  }

  lemma RelaysCommit(cfg: Config, s: State, r: WorkerId)
    requires QueueOk(s.db) && RelaysOk(s) && Enabled(cfg, s, RelayCommit(r))
    ensures RelaysOk(Next(cfg, s, RelayCommit(r)))
  {
    var s', b := Next(cfg, s, RelayCommit(r)), s.relays[r];
    assert BatchOk(s.db, b);
    PublishCarries(s.db, b, s.now);
    forall q <- s'.relays ensures BatchOk(s'.db, s'.relays[q]) {
      assert BatchOk(s.db, s.relays[q]);
    }
  }

  lemma RelayCommitKeepsInv(cfg: Config, s: State, r: WorkerId)
    requires Inv(s) && Enabled(cfg, s, RelayCommit(r))
    ensures Inv(Next(cfg, s, RelayCommit(r)))
  {
    var s', b := Next(cfg, s, RelayCommit(r)), s.relays[r];
    RelaysCommit(cfg, s, r);
    assert BatchOk(s.db, b);
    PublishKeepsQueueOk(s.db, b, s.now);
    PublishCarries(s.db, b, s.now);
    PublishKeepsKeys(s.db, b, s.now);
    KeepWriters(s, s');
    KeepConsumers(s, s');
  }

  lemma PublishKeepsKeys(db: Db, b: Batch, now: int)
    requires QueueOk(db) && KeysOk(db) && BatchOk(db, b) && |b.sent| == |b.rows|
    ensures KeysOk(PublishTx(db, b.rows, b.sent, now))
  {
    PublishCarries(db, b, now);
    assert forall e :: Dead(PublishTx(db, b.rows, b.sent, now), e) <==> Dead(db, e);
  }

  // ---------------------------------------------------------------- consumers

  lemma ReadCarries(cfg: Config, db: Db, m: MsgId, now: int)
    requires m in db.live && db.live.Keys !! db.archive.Keys
    ensures SameCarriers(db, ReadTx(cfg, db, m, now))
  {
  }

  lemma ReadKeepsInv(cfg: Config, s: State, c: WorkerId, m: MsgId)
    requires Inv(s) && Enabled(cfg, s, Read(c, m))
    ensures Inv(Next(cfg, s, Read(c, m)))
  {
    var s' := Next(cfg, s, Read(c, m));
    ReadCarries(cfg, s.db, m, s.now);
    KeepQueue(s.db, s'.db);
    KeepKeys(s.db, s'.db);
    KeepWriters(s, s');
    KeepRelays(s, s');
    ConsumersRead(cfg, s, c, m);
  }

  lemma ConsumersRead(cfg: Config, s: State, c: WorkerId, m: MsgId)
    requires QueueOk(s.db) && ConsumersOk(s) && Enabled(cfg, s, Read(c, m))
    ensures ConsumersOk(Next(cfg, s, Read(c, m)))
  {
    var s' := Next(cfg, s, Read(c, m));
    var mid := s.(db := s'.db);
    ReadCarries(cfg, s.db, m, s.now);
    KeepConsumers(s, mid);
    ConsumersStep(mid, s', c);
  }

  /** A consumer's phase changes; nobody else's does. */
  lemma ConsumersStep(s: State, s': State, c: WorkerId)
    requires ConsumersOk(s) && s'.db == s.db
    requires forall d <- s'.consumers :: d != c ==> d in s.consumers && s'.consumers[d] == s.consumers[d]
    requires c in s'.consumers ==>
               var p := s'.consumers[c];
               && Carries(s.db, p.job.msg, p.job.event)
               && (p.Handling? ==> (p.duplicate <==> p.job.event in s.db.keys))
               && (HoldsKey(p) ==> !KeyInFlight(s, p.job.event))
    ensures ConsumersOk(s')
  {
  }

  lemma PhaseKeepsInv(cfg: Config, s: State, step: Step)
    requires Inv(s) && Enabled(cfg, s, step)
    requires step.BeginHandle? || step.HandlerFails? || step.ConsumerCrash? || step.RelayAbort?
    ensures Inv(Next(cfg, s, step))
  {
    var s' := Next(cfg, s, step);
    KeepWriters(s, s');
    if step.RelayAbort? {
      KeepConsumers(s, s');
    } else {
      KeepRelays(s, s');
      ConsumersStep(s, s', step.c);
    }
  }

  lemma ArchiveCarries(db: Db, m: MsgId)
    requires db.live.Keys !! db.archive.Keys
    ensures var db' := Archived(db, m);
            && SameCarriers(db, db')
            && (forall k <- db'.archive ::
                (k in db.archive && db'.archive[k] == db.archive[k]) || (k == m && m in db.live))
            && db'.(live := db.live, archive := db.archive) == db
  {
  }

  lemma HandleCarries(db: Db, m: MsgId, e: EventId, duplicate: bool)
    requires QueueOk(db)
    ensures SameCarriers(db, HandleTx(db, m, e, duplicate))
  {
    var handled := if duplicate then db else db.(keys := db.keys + {e}, effects := db.effects + [e]);
    ArchiveCarries(handled, m);
    assert forall k: MsgId, x: EventId :: Carries(handled, k, x) <==> Carries(db, k, x);
  }

  lemma HandleKeepsKeys(db: Db, m: MsgId, e: EventId, duplicate: bool)
    requires QueueOk(db) && KeysOk(db) && Carries(db, m, e) && (duplicate <==> e in db.keys)
    ensures KeysOk(HandleTx(db, m, e, duplicate))
  {
    var db' := HandleTx(db, m, e, duplicate);
    HandleCarries(db, m, e, duplicate);
    assert forall x :: Dead(db', x) <==> Dead(db, x);
    forall k <- db'.archive ensures db'.archive[k].event in db'.keys || Dead(db', db'.archive[k].event) {
      if k !in db.archive { assert k == m && Carries(db', m, db'.archive[m].event); }
    }
  }

  lemma CommitHandleKeepsInv(cfg: Config, s: State, c: WorkerId)
    requires Inv(s) && Enabled(cfg, s, CommitHandle(c))
    ensures Inv(Next(cfg, s, CommitHandle(c)))
  {
    var s', job, duplicate := Next(cfg, s, CommitHandle(c)), s.consumers[c].job, s.consumers[c].duplicate;
    HandleKeepsKeys(s.db, job.msg, job.event, duplicate);
    HandleCarries(s.db, job.msg, job.event, duplicate);
    KeepQueue(s.db, s'.db);
    KeepWriters(s, s');
    KeepRelays(s, s');
    ConsumersCommit(cfg, s, c);
  }

  /** The key comes with its holder's departure; nobody else holds it. */
  lemma ConsumersCommit(cfg: Config, s: State, c: WorkerId)
    requires QueueOk(s.db) && ConsumersOk(s) && Enabled(cfg, s, CommitHandle(c))
    ensures ConsumersOk(Next(cfg, s, CommitHandle(c)))
  {
    var s', p := Next(cfg, s, CommitHandle(c)), s.consumers[c];
    HandleCarries(s.db, p.job.msg, p.job.event, p.duplicate);
    ConsumerLeaves(s, s', c);
  }

  lemma ConsumerLeaves(s: State, s': State, c: WorkerId)
    requires ConsumersOk(s) && c in s.consumers && s.consumers[c].Handling? && s'.consumers == s.consumers - {c}
    requires SameCarriers(s.db, s'.db)
    requires s'.db.keys == s.db.keys + if s.consumers[c].duplicate then {} else {s.consumers[c].job.event}
    ensures ConsumersOk(s')
  {
    forall d <- s'.consumers | s'.consumers[d].Handling?
      ensures s'.consumers[d].duplicate <==> s'.consumers[d].job.event in s'.db.keys
    {
      assert d in s.consumers && d != c;
    }
  }

  lemma FailCarries(cfg: Config, db: Db, m: MsgId, e: EventId, readCt: nat, now: int)
    requires QueueOk(db)
    ensures var db' := FailTx(cfg, db, m, e, readCt, now);
            && SameCarriers(db, db')
            && db'.keys == db.keys && db'.outbox == db.outbox && db'.nextMsg == db.nextMsg && db'.effects == db.effects
  {
    var dead := db.(dlq := db.dlq + [DeadLetter(e, m, readCt)]);
    assert forall k: MsgId, x: EventId :: Carries(dead, k, x) <==> Carries(db, k, x);
    ArchiveCarries(dead, m);
  }

  lemma FailKeepsKeys(cfg: Config, db: Db, m: MsgId, e: EventId, readCt: nat, now: int)
    requires QueueOk(db) && KeysOk(db) && Carries(db, m, e)
    ensures KeysOk(FailTx(cfg, db, m, e, readCt, now))
  {
    var db' := FailTx(cfg, db, m, e, readCt, now);
    FailCarries(cfg, db, m, e, readCt, now);
    if readCt >= cfg.maxRetries {
      assert db'.dlq[|db.dlq|].event == e;
      forall x | Dead(db, x) ensures Dead(db', x) {
        var i :| 0 <= i < |db.dlq| && db.dlq[i].event == x;
        assert db'.dlq[i].event == x;
      }
      forall k <- db'.archive ensures db'.archive[k].event in db'.keys || Dead(db', db'.archive[k].event) {
        if k !in db.archive { assert k == m && Carries(db', m, db'.archive[m].event); }
      }
    } else {
      assert forall x :: Dead(db', x) <==> Dead(db, x);
    }
  }

  lemma SettleKeepsInv(cfg: Config, s: State, c: WorkerId)
    requires Inv(s) && Enabled(cfg, s, SettleFailure(c))
    ensures Inv(Next(cfg, s, SettleFailure(c)))
  {
    var s', job := Next(cfg, s, SettleFailure(c)), s.consumers[c].job;
    var mid := s.(db := s'.db);
    FailKeepsKeys(cfg, s.db, job.msg, job.event, job.readCt, s.now);
    FailCarries(cfg, s.db, job.msg, job.event, job.readCt, s.now);
    KeepQueue(s.db, s'.db);
    KeepWriters(s, s');
    KeepRelays(s, s');
    KeepConsumers(s, mid);
    ConsumersStep(mid, s', c);
  }

  lemma NextKeepsInv(cfg: Config, s: State, step: Step)
    requires Inv(s) && Enabled(cfg, s, step)
    ensures Inv(Next(cfg, s, step))
  {
    match step
    case Select(_) => RelayStepKeepsInv(cfg, s, step);
    case Send(_) => RelayStepKeepsInv(cfg, s, step);
    case RelayCommit(r) => RelayCommitKeepsInv(cfg, s, r);
    case Read(c, m) => ReadKeepsInv(cfg, s, c, m);
    case CommitHandle(c) => CommitHandleKeepsInv(cfg, s, c);
    case SettleFailure(c) => SettleKeepsInv(cfg, s, c);
    case RelayAbort(_) => PhaseKeepsInv(cfg, s, step);
    case BeginHandle(_) => PhaseKeepsInv(cfg, s, step);
    case HandlerFails(_) => PhaseKeepsInv(cfg, s, step);
    case ConsumerCrash(_) => PhaseKeepsInv(cfg, s, step);
    case _ => WriterStepKeepsInv(cfg, s, step);
  }

  lemma {:induction false} RunKeepsInv(cfg: Config, s: State, steps: seq<Step>)
    requires Inv(s)
    ensures Run(cfg, s, steps).Some? ==> Inv(Run(cfg, s, steps).value)
  {
    if steps != [] {
      RunKeepsInv(cfg, s, steps[..|steps| - 1]);
      if Run(cfg, s, steps).Some? {
        NextKeepsInv(cfg, Run(cfg, s, steps[..|steps| - 1]).value, steps[|steps| - 1]);
      }
    }
  }

  /**
   With any number of workers and crashes at any step a handler's effect commits at most once per event, and the key
   is present exactly when it did.
   */
  lemma AtMostOnce(cfg: Config, steps: seq<Step>, e: EventId)
    requires Run(cfg, START, steps).Some?
    ensures var db := Run(cfg, START, steps).value.db;
            NoDuplicates(db.effects) && (e in db.effects <==> e in db.keys)
  {
    RunKeepsInv(cfg, START, steps);
    assert KeysOk(Run(cfg, START, steps).value.db);
  }

  /** A row is published exactly when it has a message, and it never has two. */
  lemma OneMessagePerPublishedRow(cfg: Config, steps: seq<Step>, e: EventId)
    requires Run(cfg, START, steps).Some? && e in Run(cfg, START, steps).value.db.outbox
    ensures var db := Run(cfg, START, steps).value.db;
            && (db.outbox[e] <==> exists m :: Carries(db, m, e))
            && (forall m: MsgId, k: MsgId :: Carries(db, m, e) && Carries(db, k, e) ==> m == k)
  {
    RunKeepsInv(cfg, START, steps);
    assert QueueOk(Run(cfg, START, steps).value.db);
  }

  /** A message leaves the queue only if its event's key is present or it was dead-lettered. */
  lemma NothingIsLost(cfg: Config, steps: seq<Step>, m: MsgId)
    requires Run(cfg, START, steps).Some? && m in Run(cfg, START, steps).value.db.archive
    ensures var db := Run(cfg, START, steps).value.db;
            db.archive[m].event in db.keys || Dead(db, db.archive[m].event)
  {
    RunKeepsInv(cfg, START, steps);
    assert KeysOk(Run(cfg, START, steps).value.db);
  }
}
