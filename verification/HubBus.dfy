/**
 The transactions' outbox is the bus's outbox: a step of the hub is a step of the bus, or none, on the same rows.

 So what the transactions guarantee about the order of the queue, and what the bus guarantees about the
 order of handling, are about the same messages.
 */
module HubBus {
  import opened Results
  import opened EventBus
  import opened BusDelivery
  import opened BusOrder
  import B = BusProtocol
  import I = Interleaving

  function Numbers(es: seq<I.Entry>): seq<EventId> {
    seq(|es|, i requires 0 <= i < |es| => es[i].seqno)
  }

  /** The uncommitted rows of a transaction, as the bus knows them. */
  function Pending(b: B.State, t: B.TxId): set<EventId> {
    if t in b.writers then b.writers[t] else {}
  }

  function Uncommitted(h: I.Hub, t: I.TxId): set<EventId> {
    if t in h.txs then I.SeqNos(h.txs[t].work.log) else {}
  }

  // ---------------------------------------------------------------- one system, seen twice

  ghost predicate WritersMirrored(h: I.Hub, b: B.State) {
    b.nextEvent == h.nextSeq && forall t: nat :: Pending(b, t) == Uncommitted(h, t)
  }

  ghost predicate OutboxMirrored(h: I.Hub, b: B.State) {
    Holds(b.db.outbox, I.SeqNos(h.log), h.published)
  }

  ghost predicate BatchMirrored(h: I.Hub, b: B.State) {
    match h.batch
    case None => b.relays == map[]
    case Some(rows) => b.relays.Keys == {WORKER} && b.relays[WORKER].rows == Numbers(rows)
  }

  ghost predicate QueueMirrored(h: I.Hub, b: B.State) {
    PublishOrder(b.db) == Numbers(h.queue)
  }

  ghost predicate Mirrors(h: I.Hub, b: B.State) {
    WritersMirrored(h, b) && OutboxMirrored(h, b) && BatchMirrored(h, b) && QueueMirrored(h, b)
  }

  /** What the bus sees of a step of the hub. */
  function Echo(h: I.Hub, b: B.State, step: I.Step): Option<B.Step>
    requires I.Enabled(h, step)
  {
    match step
    case Post(t, _, _, _, _) => Some(B.Write(t))
    case Announce(t, _) => Some(B.Write(t))
    case RollbackTo(t) =>
      var saved := h.txs[t].savepoints;
      if t in b.writers then Some(B.UndoTo(t, I.SeqNos(saved[|saved| - 1].log))) else None
    case Commit(t) => if t in b.writers then Some(B.WriterCommit(t)) else None
    case Abort(t) => if t in b.writers then Some(B.WriterAbort(t)) else None
    case SelectBatch(_, _) => Some(B.Select(WORKER))
    case Publish => Some(B.RelayCommit(WORKER))
    case RelayCrash => Some(B.RelayAbort(WORKER))
    case _ => None
  }

  /** The relay's batch size is the configured one, and it commits once every row is sent. */
  predicate Relayed(cfg: Config, b: B.State, step: I.Step) {
    && (step.SelectBatch? ==> step.limit == cfg.batch)
    && (step.Publish? ==> WORKER in b.relays && |b.relays[WORKER].sent| == |b.relays[WORKER].rows|)
  }

  function Echoed(cfg: Config, b: B.State, echo: Option<B.Step>): B.State
    requires echo.Some? ==> B.Enabled(cfg, b, echo.value)
  {
    if echo.Some? then B.Next(cfg, b, echo.value) else b
  }

  // ---------------------------------------------------------------- writers

  lemma SeqNosSnoc(es: seq<I.Entry>, e: I.Entry)
    ensures I.SeqNos(es + [e]) == I.SeqNos(es) + {e.seqno}
  {
    assert forall x <- es :: x in es + [e];
    assert e in es + [e];
  }

  lemma SeqNosConcat(a: seq<I.Entry>, b: seq<I.Entry>)
    ensures I.SeqNos(a + b) == I.SeqNos(a) + I.SeqNos(b)
  {
    assert forall x :: x in a + b <==> x in a || x in b;
  }

  lemma RollbackIsEnabled(cfg: Config, h: I.Hub, b: B.State, t: nat)
    requires I.TxsOk(h) && WritersMirrored(h, b) && I.Enabled(h, I.RollbackTo(t)) && t in b.writers
    ensures B.Enabled(cfg, b, Echo(h, b, I.RollbackTo(t)).value)
  {
    var tx := h.txs[t];
    var saved := tx.savepoints[|tx.savepoints| - 1];
    assert I.TxOk(h, tx) && saved in tx.savepoints;
    I.WorkIsOk(h, tx);
    assert forall e <- saved.log :: e in tx.work.log;
    assert Pending(b, t) == Uncommitted(h, t);
  }

  /** A transaction that wrote nothing needs no step of the bus. */
  lemma NothingPending(h: I.Hub, b: B.State, t: nat)
    requires WritersMirrored(h, b) && t in h.txs && t !in b.writers
    ensures h.txs[t].work.log == []
  {
    assert Pending(b, t) == Uncommitted(h, t);
    NoNumbers(h.txs[t].work.log);
  }

  lemma NoNumbers(es: seq<I.Entry>)
    ensures es != [] ==> I.SeqNos(es) != {}
  {
    if es != [] { assert es[0].seqno in I.SeqNos(es); }
  }

  lemma WriteMirrored(cfg: Config, h: I.Hub, b: B.State, step: I.Step)
    requires WritersMirrored(h, b) && I.Enabled(h, step) && (step.Post? || step.Announce?)
    ensures WritersMirrored(I.Next(h, step), B.Next(cfg, b, B.Write(step.t)))
  {
    var h', b' := I.Next(h, step), B.Next(cfg, b, B.Write(step.t));
    I.WriteShape(h, step);
    SeqNosSnoc(h.txs[step.t].work.log, I.EntryOf(h, step));
    forall t: nat ensures Pending(b', t) == Uncommitted(h', t) {
      assert Pending(b, t) == Uncommitted(h, t);
    }
  }

  lemma WritersStepMirrored(cfg: Config, h: I.Hub, b: B.State, step: I.Step)
    requires I.TxsOk(h) && WritersMirrored(h, b) && I.Enabled(h, step) && !step.SelectBatch? && !step.Publish?
             && !step.RelayCrash?
    requires var echo := Echo(h, b, step); echo.Some? ==> B.Enabled(cfg, b, echo.value)
    ensures WritersMirrored(I.Next(h, step), Echoed(cfg, b, Echo(h, b, step)))
  {
    if step.Post? || step.Announce? {
      WriteMirrored(cfg, h, b, step);
    } else {
      UndoMirrored(cfg, h, b, step);
    }
  }

  lemma UndoMirrored(cfg: Config, h: I.Hub, b: B.State, step: I.Step)
    requires I.TxsOk(h) && WritersMirrored(h, b) && I.Enabled(h, step) && !step.SelectBatch? && !step.Publish?
             && !step.RelayCrash? && !step.Post? && !step.Announce?
    requires var echo := Echo(h, b, step); echo.Some? ==> B.Enabled(cfg, b, echo.value)
    ensures WritersMirrored(I.Next(h, step), Echoed(cfg, b, Echo(h, b, step)))
  {
    var h', b' := I.Next(h, step), Echoed(cfg, b, Echo(h, b, step));
    forall t: nat ensures Pending(b', t) == Uncommitted(h', t) {
      assert Pending(b, t) == Uncommitted(h, t);
      if step.RollbackTo? && step.t == t && t !in b.writers {
        NothingPending(h, b, t);
        SavedIsEmpty(h, t);
      }
    }
  }

  lemma SavedIsEmpty(h: I.Hub, t: nat)
    requires I.TxsOk(h) && I.Enabled(h, I.RollbackTo(t)) && h.txs[t].work.log == []
    ensures I.Next(h, I.RollbackTo(t)).txs[t].work.log == []
  {
    var tx := h.txs[t];
    assert I.TxOk(h, tx) && tx.savepoints[|tx.savepoints| - 1] in tx.savepoints;
    I.WorkIsOk(h, tx);
  }

  /** The outbox table holds the rows with these numbers, and marks those that are published. */
  ghost predicate Holds(outbox: map<EventId, bool>, rows: set<EventId>, published: set<EventId>) {
    outbox.Keys == rows && forall e <- outbox :: outbox[e] <==> e in published
  }

  lemma MoreRows(outbox: map<EventId, bool>, rows: set<EventId>, published: set<EventId>, more: set<EventId>)
    requires Holds(outbox, rows, published) && more !! published && more !! rows
    ensures Holds(outbox + map e <- more :: false, rows + more, published)
  {
  }

  /** A commit adds the transaction's rows, unpublished. */
  lemma CommitMirrored(cfg: Config, h: I.Hub, b: B.State, t: nat)
    requires I.Inv(h) && WritersMirrored(h, b) && OutboxMirrored(h, b) && I.Enabled(h, I.Commit(t))
    ensures OutboxMirrored(I.Next(h, I.Commit(t)), Echoed(cfg, b, Echo(h, b, I.Commit(t))))
  {
    var work := h.txs[t].work;
    SeqNosConcat(h.log, work.log);
    assert Pending(b, t) == Uncommitted(h, t);
    if t !in b.writers {
      NothingPending(h, b, t);
    } else {
      NewRowsAreUnpublished(h, t);
      MoreRows(b.db.outbox, I.SeqNos(h.log), h.published, I.SeqNos(work.log));
    }
  }

  lemma NewRowsAreUnpublished(h: I.Hub, t: nat)
    requires I.Inv(h) && t in h.txs
    ensures forall e <- I.SeqNos(h.txs[t].work.log) :: e !in h.published && e !in I.SeqNos(h.log)
  {
    var work := h.txs[t].work;
    assert I.TxOk(h, h.txs[t]);
    I.WorkIsOk(h, h.txs[t]);
    forall x <- work.log, y <- h.log ensures x.seqno != y.seqno {
      var i :| 0 <= i < |work.log| && work.log[i] == x;
      var j :| 0 <= j < |h.log| && h.log[j] == y;
      var all := h.log + work.log;
      assert all[j] == y && all[|h.log| + i] == x;
    }
    assert forall q <- h.queue :: q in h.log;
  }

  // ---------------------------------------------------------------- the relay

  /** At most `limit` of the rows `all`, in order, leaving out a row only when full of lower ones. */
  predicate Lowest(rows: seq<EventId>, all: set<EventId>, limit: nat) {
    && |rows| <= limit
    && (forall i, j :: 0 <= i < j < |rows| ==> rows[i] < rows[j])
    && (forall e <- rows :: e in all)
    && (forall e <- all :: e !in rows ==> |rows| == limit && forall x <- rows :: x < e)
  }

  lemma {:induction false} LowestAgree(a: seq<EventId>, b: seq<EventId>, all: set<EventId>, limit: nat, i: nat)
    requires Lowest(a, all, limit) && Lowest(b, all, limit) && i <= |a| && i <= |b|
    ensures a[..i] == b[..i]
  {
    if i > 0 {
      LowestAgree(a, b, all, limit, i - 1);
      var k := i - 1;
      NotSkipped(a, b, all, limit, k);
      NotSkipped(b, a, all, limit, k);
      assert a[..i] == a[..k] + [a[k]] && b[..i] == b[..k] + [b[k]];
    }
  }

  lemma NotSkipped(a: seq<EventId>, b: seq<EventId>, all: set<EventId>, limit: nat, k: nat)
    requires Lowest(a, all, limit) && Lowest(b, all, limit) && k < |a| && k < |b| && a[..k] == b[..k]
    ensures a[k] >= b[k]
  {
    assert a[k] in a && b[k] in b;
    forall j | 0 <= j < k ensures a[j] == b[j] {
      assert a[..k][j] == b[..k][j];
    }
  }

  lemma LowestIsUnique(a: seq<EventId>, b: seq<EventId>, all: set<EventId>, limit: nat)
    requires Lowest(a, all, limit) && Lowest(b, all, limit)
    ensures a == b
  {
    var n := if |a| <= |b| then |a| else |b|;
    LowestAgree(a, b, all, limit, n);
    NotLonger(a, b, all, limit);
    NotLonger(b, a, all, limit);
    assert a[..n] == a && b[..n] == b;
  }

  lemma NotLonger(a: seq<EventId>, b: seq<EventId>, all: set<EventId>, limit: nat)
    requires Lowest(a, all, limit) && Lowest(b, all, limit)
    ensures |a| <= |b|
  {
    if |b| < limit {
      DistinctCount(b, set x <- b);
      DistinctCount(a, set x <- b);
    }
  }

  /** The unpublished committed rows. */
  function Waiting(h: I.Hub): set<EventId> {
    I.SeqNos(h.log) - h.published
  }

  lemma HubBatchIsLowest(h: I.Hub, rows: seq<I.Entry>, limit: nat)
    requires I.DistinctNumbers(h.log) && I.IsBatch(h, rows, limit)
    ensures Lowest(Numbers(rows), Waiting(h), limit)
  {
    forall y <- rows ensures y.seqno in Numbers(rows) {
      var i :| 0 <= i < |rows| && rows[i] == y;
      assert Numbers(rows)[i] == y.seqno;
    }
    forall e <- Numbers(rows) ensures e in Waiting(h) {
      var i :| 0 <= i < |rows| && rows[i].seqno == e;
      assert rows[i] in rows;
    }
    forall e <- Waiting(h) | e !in Numbers(rows) ensures |rows| == limit && forall x <- Numbers(rows) :: x < e {
      var y :| y in h.log && y.seqno == e;
      assert y !in rows;
      forall x <- Numbers(rows) ensures x < e {
        var i :| 0 <= i < |rows| && rows[i].seqno == x;
      }
    }
  }

  lemma BusBatchIsLowest(cfg: Config, h: I.Hub, b: B.State)
    requires OutboxMirrored(h, b) && h.nextSeq == b.nextEvent && b.relays == map[]
    requires forall e <- h.log :: e.seqno < h.nextSeq
    ensures Lowest(B.BatchFor(cfg, b), Waiting(h), cfg.batch)
  {
    assert B.LockedRows(b) == {};
    B.UnpublishedFacts(b.db.outbox, {}, cfg.batch, b.nextEvent);
    forall e <- Waiting(h) ensures e < b.nextEvent && e in b.db.outbox && !b.db.outbox[e] {
    }
  }

  lemma SelectMirrored(cfg: Config, h: I.Hub, b: B.State, rows: seq<I.Entry>)
    requires I.TablesOk(h) && Mirrors(h, b) && I.Enabled(h, I.SelectBatch(rows, cfg.batch))
    ensures B.Enabled(cfg, b, B.Select(WORKER))
    ensures BatchMirrored(I.Next(h, I.SelectBatch(rows, cfg.batch)), B.Next(cfg, b, B.Select(WORKER)))
  {
    HubBatchIsLowest(h, rows, cfg.batch);
    BusBatchIsLowest(cfg, h, b);
    LowestIsUnique(Numbers(rows), B.BatchFor(cfg, b), Waiting(h), cfg.batch);
    assert |Numbers(rows)| == |rows|;
  }

  lemma SameWriters(h: I.Hub, b: B.State, h': I.Hub, b': B.State)
    requires WritersMirrored(h, b) && h'.txs == h.txs && h'.nextSeq == h.nextSeq
    requires b'.writers == b.writers && b'.nextEvent == b.nextEvent
    ensures WritersMirrored(h', b')
  {
    forall t: nat ensures Pending(b', t) == Uncommitted(h', t) {
      assert Pending(b, t) == Uncommitted(h, t);
    }
  }

  lemma PublishedRowsMirrored(h: I.Hub, b: B.State)
    requires OutboxMirrored(h, b) && h.batch.Some? && WORKER in b.relays
             && b.relays[WORKER].rows == Numbers(h.batch.value)
    ensures Holds(EventBus.Published(b.db.outbox, b.relays[WORKER].rows), I.SeqNos(h.log),
                  h.published + I.SeqNos(h.batch.value))
  {
    NumbersAreSeqNos(h.batch.value);
  }

  /** The relay's commit publishes the batch's rows on both sides. */
  lemma PublishMirrored(cfg: Config, h: I.Hub, b: B.State)
    requires Mirrors(h, b) && I.Enabled(h, I.Publish) && Relayed(cfg, b, I.Publish)
    requires PublishOrder(B.Next(cfg, b, B.RelayCommit(WORKER)).db) == PublishOrder(b.db) + b.relays[WORKER].rows
    ensures Mirrors(I.Next(h, I.Publish), B.Next(cfg, b, B.RelayCommit(WORKER)))
  {
    SameWriters(h, b, I.Next(h, I.Publish), B.Next(cfg, b, B.RelayCommit(WORKER)));
    PublishedRowsMirrored(h, b);
    assert Numbers(h.queue + h.batch.value) == Numbers(h.queue) + Numbers(h.batch.value);
  }

  lemma NumbersAreSeqNos(es: seq<I.Entry>)
    ensures forall e: EventId :: e in Numbers(es) <==> e in I.SeqNos(es)
  {
    forall x <- es ensures x.seqno in Numbers(es) {
      var i :| 0 <= i < |es| && es[i] == x;
      assert Numbers(es)[i] == x.seqno;
    }
    forall e <- Numbers(es) ensures e in I.SeqNos(es) {
      var i :| 0 <= i < |es| && Numbers(es)[i] == e;
      assert es[i] in es;
    }
  }

  // ---------------------------------------------------------------- every step

  lemma EchoIsEnabled(cfg: Config, h: I.Hub, b: B.State, step: I.Step)
    requires I.Inv(h) && Mirrors(h, b) && I.Enabled(h, step) && Relayed(cfg, b, step)
    ensures var echo := Echo(h, b, step); echo.Some? ==> B.Enabled(cfg, b, echo.value) && Calm(echo.value)
  {
    match step
    case RollbackTo(t) => if t in b.writers { RollbackIsEnabled(cfg, h, b, t); }
    case SelectBatch(rows, _) => SelectMirrored(cfg, h, b, rows);
    case _ =>
  }

  lemma WriterStepMirrored(cfg: Config, h: I.Hub, b: B.State, step: I.Step)
    requires I.Inv(h) && Deployed(cfg, b) && BatchLast(b) && Mirrors(h, b) && I.Enabled(h, step)
    requires !step.SelectBatch? && !step.Publish? && !step.RelayCrash?
    requires var echo := Echo(h, b, step); echo.Some? ==> B.Enabled(cfg, b, echo.value)
    ensures Mirrors(I.Next(h, step), Echoed(cfg, b, Echo(h, b, step)))
  {
    WritersStepMirrored(cfg, h, b, step);
    if step.Commit? { CommitMirrored(cfg, h, b, step.t); }
    if Echo(h, b, step).Some? { PublishingAppends(cfg, b, Echo(h, b, step).value); }
  }

  lemma BatchStepMirrored(cfg: Config, h: I.Hub, b: B.State, step: I.Step)
    requires I.TablesOk(h) && Mirrors(h, b) && I.Enabled(h, step) && Relayed(cfg, b, step)
    requires step.SelectBatch? || step.RelayCrash?
    requires B.Enabled(cfg, b, Echo(h, b, step).value)
    ensures Mirrors(I.Next(h, step), Echoed(cfg, b, Echo(h, b, step)))
  {
    var b' := Echoed(cfg, b, Echo(h, b, step));
    SameWriters(h, b, I.Next(h, step), b');
    assert b'.db == b.db;
    if step.SelectBatch? { SelectMirrored(cfg, h, b, step.rows); }
  }

  /** A step of the hub keeps the two sides one. */
  lemma HubStepMirrored(cfg: Config, h: I.Hub, b: B.State, step: I.Step)
    requires I.Inv(h) && Deployed(cfg, b) && BatchLast(b) && Mirrors(h, b) && I.Enabled(h, step)
             && Relayed(cfg, b, step)
    ensures var echo := Echo(h, b, step); echo.Some? ==> B.Enabled(cfg, b, echo.value) && Calm(echo.value)
    ensures Mirrors(I.Next(h, step), Echoed(cfg, b, Echo(h, b, step)))
  {
    EchoIsEnabled(cfg, h, b, step);
    if step.Publish? {
      PublishingAppends(cfg, b, B.RelayCommit(WORKER));
      PublishMirrored(cfg, h, b);
    } else if step.SelectBatch? || step.RelayCrash? {
      BatchStepMirrored(cfg, h, b, step);
    } else {
      WriterStepMirrored(cfg, h, b, step);
    }
  }

  /** A step of the bus that is no echo: sending a row, the consumer's steps, its crash and failure, or waiting. */
  predicate Alone(step: B.Step) {
    step.Send? || step.Read? || step.BeginHandle? || step.CommitHandle? || step.Tick?
    || step.ConsumerCrash? || step.HandlerFails? || step.SettleFailure?
  }

  lemma AloneLeavesRows(cfg: Config, b: B.State, step: B.Step)
    requires B.Enabled(cfg, b, step) && Alone(step)
    ensures var b' := B.Next(cfg, b, step);
            && b'.writers == b.writers && b'.nextEvent == b.nextEvent && b'.db.outbox == b.db.outbox
            && b'.relays.Keys == b.relays.Keys && forall r <- b.relays :: b'.relays[r].rows == b.relays[r].rows
  {
  }

  lemma SameRowsMirrored(h: I.Hub, b: B.State, b': B.State)
    requires Mirrors(h, b) && PublishOrder(b'.db) == PublishOrder(b.db)
    requires b'.writers == b.writers && b'.nextEvent == b.nextEvent && b'.db.outbox == b.db.outbox
    requires b'.relays.Keys == b.relays.Keys && forall r <- b.relays :: b'.relays[r].rows == b.relays[r].rows
    ensures Mirrors(h, b')
  {
    SameWriters(h, b, h, b');
  }

  lemma BusStepMirrored(cfg: Config, h: I.Hub, b: B.State, step: B.Step)
    requires Deployed(cfg, b) && BatchLast(b) && Mirrors(h, b) && B.Enabled(cfg, b, step) && Alone(step)
    ensures Mirrors(h, B.Next(cfg, b, step))
  {
    PublishingAppends(cfg, b, step);
    AloneLeavesRows(cfg, b, step);
    SameRowsMirrored(h, b, B.Next(cfg, b, step));
  }

  /** What is handled is an initial part of the hub's queue, and all of it once no message is left. */
  lemma HandledIsAPrefix(cfg: Config, h: I.Hub, b: B.State)
    requires Deployed(cfg, b) && Fifo(b) && Mirrors(h, b)
    ensures b.db.effects <= Numbers(h.queue)
    ensures b.db.live == map[] ==> b.db.effects == Numbers(h.queue)
  {
    assert B.QueueOk(b.db);
    QueueIdsAreKnown(b.db);
    HandledThenQueued(b);
    if b.db.live == map[] { NoEventsYet(b.db.live, b.db.nextMsg); }
  }

  /**
   Whatever crashed or failed on the way: once no message is left and none was dead-lettered, every published event of
   the hub was handled.
   */
  lemma AllPublishedIsHandled(cfg: Config, h: I.Hub, b: B.State, x: I.Entry)
    requires Deployed(cfg, b) && Mirrors(h, b) && b.db.live == map[] && b.db.dlq == []
    requires x in h.log && x.seqno in h.published
    ensures x.seqno in b.db.effects
  {
    var e := x.seqno;
    assert e in I.SeqNos(h.log);
    assert e in b.db.outbox && b.db.outbox[e];
    assert B.QueueOk(b.db) && B.KeysOk(b.db) && SettledOk(b.db);
    var m :| B.Carries(b.db, m, e);
    assert !B.Dead(b.db, e);
  }

  lemma {:induction false} FirstEvent(messages: map<MsgId, Message>, m: MsgId, n: nat)
    requires m in messages && m < n && forall k <- messages :: m <= k
    ensures EventsBelow(messages, n) != [] && EventsBelow(messages, n)[0] == messages[m].event
  {
    if m == n - 1 {
      NoEventsYet(messages, m);
    } else {
      FirstEvent(messages, m, n - 1);
    }
  }

  /** The message in hand is the next entry of the hub's queue. */
  lemma InHandIsNext(cfg: Config, h: I.Hub, b: B.State)
    requires Deployed(cfg, b) && Fifo(b) && Mirrors(h, b) && WORKER in b.consumers
    ensures |b.db.effects| < |h.queue| && b.consumers[WORKER].job.event == h.queue[|b.db.effects|].seqno
  {
    assert B.QueueOk(b.db) && JobOk(b);
    QueueIdsAreKnown(b.db);
    HandledThenQueued(b);
    var m := b.consumers[WORKER].job.msg;
    assert InHand(b, m);
    FirstEvent(b.db.live, m, b.db.nextMsg);
    assert Numbers(h.queue)[|b.db.effects|] == EventsBelow(b.db.live, b.db.nextMsg)[0];
  }

  /** The row an event was written as. */
  function BodyOf(log: seq<I.Entry>, e: EventId): Option<I.Body> {
    if log == [] then None
    else if log[|log| - 1].seqno == e then Some(log[|log| - 1].body)
    else BodyOf(log[..|log| - 1], e)
  }

  lemma {:induction false} BodyOfEntry(log: seq<I.Entry>, x: I.Entry)
    requires I.DistinctNumbers(log) && x in log
    ensures BodyOf(log, x.seqno) == Some(x.body)
  {
    var n := |log| - 1;
    var i :| 0 <= i < |log| && log[i] == x;
    if i < n {
      assert x in log[..n] by { assert log[..n][i] == x; }
      BodyOfEntry(log[..n], x);
    }
  }
}
