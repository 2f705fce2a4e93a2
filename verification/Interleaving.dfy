/**
 Concurrent business transactions over the inventory, journal and outbox tables, and one
 outbox relay.

 A transaction changes a row only while it holds the row's lock.  Locks are kept until
 commit, abort, or rollback to a savepoint older than the lock.  An outbox sequence number
 is drawn when the event is written, so the numbers do not follow the commit order; a
 number drawn by a transaction that rolls back is never seen.

 A transaction may hold an entity of a row, loaded without a lock.  While it does, a locked read of
 the row hands back that entity and not the row as it is now; a movement is then judged on it.
 */
module Interleaving {
  import opened Results
  import opened Inventory

  type TxId = nat

  /** An outbox row: a movement together with its journal row, or a re-published variant. */
  datatype Body =
    | Moved(row: Row, kind: Kind, qty: int, reference: Option<string>, level: Level)
    | Announced(variant: VariantId)

  datatype Entry = Entry(seqno: nat, body: Body)

  /**
   The uncommitted part of a transaction: row locks, row versions, rows appended to journal and outbox.  `stale` marks
   the rows whose first movement was judged on an entity of another version than the committed row's.
   */
  datatype Work = Work(locks: set<Row>, levels: map<Row, Level>, log: seq<Entry>, stale: set<Row>)

  const NO_WORK := Work({}, map[], [], {})

  /** An open transaction, the state saved by each open savepoint, innermost last, and the entities it loaded. */
  datatype Tx = Tx(work: Work, savepoints: seq<Work>, cache: map<Row, Level>)

  /** The committed tables (`log` in commit order), the open transactions, the relay and the queue. */
  datatype Hub = Hub(
    levels: map<Row, Level>,
    log: seq<Entry>,
    txs: map<TxId, Tx>,
    nextSeq: nat,
    published: set<nat>,
    queue: seq<Entry>,
    batch: Option<seq<Entry>>)

  const EMPTY_HUB := Hub(map[], [], map[], 0, {}, [], None)

  datatype Step =
    | Begin(t: TxId)
    | Load(t: TxId, row: Row)
    | Forget(t: TxId, row: Row)
    | Lock(t: TxId, row: Row)
    | Post(t: TxId, row: Row, kind: Kind, qty: int, reference: Option<string>)
    | Announce(t: TxId, variant: VariantId)
    | Savepoint(t: TxId)
    | RollbackTo(t: TxId)
    | Release(t: TxId)
    | Commit(t: TxId)
    | Abort(t: TxId)
    | SelectBatch(rows: seq<Entry>, limit: nat)
    | Publish
    | RelayCrash

  // ---------------------------------------------------------------- the steps

  predicate LockedByOther(h: Hub, t: TxId, row: Row) {
    exists u <- h.txs :: u != t && row in h.txs[u].work.locks
  }

  /** The row as transaction `t` has it in the tables: its own version, else the committed one. */
  function View(h: Hub, t: TxId, row: Row): Option<Level>
    requires t in h.txs
  {
    if row in h.txs[t].work.levels then Some(h.txs[t].work.levels[row])
    else if row in h.levels then Some(h.levels[row])
    else None
  }

  /** The row as a movement of `t` sees it: an entity loaded before is handed back as it was loaded. */
  function Seen(h: Hub, t: TxId, row: Row): Option<Level>
    requires t in h.txs
  {
    if row !in h.txs[t].work.levels && row in h.txs[t].cache then Some(h.txs[t].cache[row]) else View(h, t, row)
  }

  function Current(view: Option<Level>): Level {
    if view.Some? then view.value else EMPTY
  }

  predicate Ascending(es: seq<Entry>) {
    forall i, j :: 0 <= i < j < |es| ==> es[i].seqno < es[j].seqno
  }

  /** The unpublished committed rows of lowest sequence number, at most `limit` of them. */
  predicate IsBatch(h: Hub, rows: seq<Entry>, limit: nat) {
    && rows != [] && |rows| <= limit && Ascending(rows)
    && (forall e <- rows :: e in h.log && e.seqno !in h.published)
    && (forall e <- h.log ::
        e.seqno !in h.published && (|rows| < limit || e.seqno <= rows[|rows| - 1].seqno) ==> e in rows)
  }

  /** What the code and the locks let through; the CHECK constraints of the tables are not asked. */
  predicate Guarded(h: Hub, step: Step) {
    match step
    case Begin(t) => t !in h.txs
    case Load(t, row) => t in h.txs
    case Forget(t, row) => t in h.txs
    case Lock(t, row) => t in h.txs && !LockedByOther(h, t, row)
    case Post(t, row, kind, qty, _) =>
      && t in h.txs && row in h.txs[t].work.locks
      && (Seen(h, t, row).None? ==> kind == In || kind == Adjust)
      && var seen := Current(Seen(h, t, row));
         Effect(kind, qty, seen.qty, seen.reserved).Ok?
    case Announce(t, _) => t in h.txs
    case Savepoint(t) => t in h.txs
    case RollbackTo(t) => t in h.txs && h.txs[t].savepoints != []
    case Release(t) => t in h.txs && h.txs[t].savepoints != []
    case Commit(t) => t in h.txs
    case Abort(t) => t in h.txs
    case SelectBatch(rows, limit) => h.batch.None? && IsBatch(h, rows, limit)
    case Publish => h.batch.Some?
    case RelayCrash => h.batch.Some?
  }

  /** The level a movement leaves in the row. */
  function LevelAfter(h: Hub, t: TxId, row: Row, kind: Kind, qty: int): Level
    requires t in h.txs
    requires var seen := Current(Seen(h, t, row)); Effect(kind, qty, seen.qty, seen.reserved).Ok?
  {
    Merged(Current(Seen(h, t, row)), Current(View(h, t, row)), kind, qty)
  }

  predicate Enabled(h: Hub, step: Step) {
    Guarded(h, step) && (step.Post? ==> LevelAfter(h, step.t, step.row, step.kind, step.qty).Sound())
  }

  function SeqNos(es: seq<Entry>): set<nat> {
    set e <- es :: e.seqno
  }

  /** Appends one outbox row to the transaction's work and draws the next sequence number. */
  function Append(h: Hub, t: TxId, work: Work, body: Body): Hub
    requires t in h.txs
  {
    h.(txs := h.txs[t := h.txs[t].(work := work.(log := work.log + [Entry(h.nextSeq, body)]))],
      nextSeq := h.nextSeq + 1)
  }

  /**
   The first movement of a row marks it when the entity it is judged on has another version than the committed row.
   */
  function StaleAfter(h: Hub, t: TxId, row: Row): set<Row>
    requires t in h.txs
  {
    var work, seen, stored := h.txs[t].work, Current(Seen(h, t, row)), Current(View(h, t, row));
    if seen.version != stored.version then work.stale + {row} else work.stale
  }

  function Next(h: Hub, step: Step): Hub
    requires Guarded(h, step)
  {
    match step
    case Begin(t) => h.(txs := h.txs[t := Tx(NO_WORK, [], map[])])
    case Load(t, row) =>
      var tx := h.txs[t];
      h.(txs := h.txs[t := if row in h.levels then tx.(cache := tx.cache[row := h.levels[row]]) else tx])
    case Forget(t, row) =>
      var tx := h.txs[t];
      h.(txs := h.txs[t := tx.(cache := tx.cache - {row})])
    case Lock(t, row) =>
      var tx := h.txs[t];
      h.(txs := h.txs[t := tx.(work := tx.work.(locks := tx.work.locks + {row}))])
    case Post(t, row, kind, qty, reference) =>
      var work, level := h.txs[t].work, LevelAfter(h, t, row, kind, qty);
      Append(h, t, work.(levels := work.levels[row := level], stale := StaleAfter(h, t, row)),
             Moved(row, kind, qty, reference, level))
    case Announce(t, v) => Append(h, t, h.txs[t].work, Announced(v))
    case Savepoint(t) =>
      var tx := h.txs[t];
      h.(txs := h.txs[t := tx.(savepoints := tx.savepoints + [tx.work])])
    case RollbackTo(t) => // entities changed since the savepoint expire
      var tx, saved := h.txs[t], h.txs[t].savepoints;
      h.(txs := h.txs[t := Tx(saved[|saved| - 1], saved[..|saved| - 1], tx.cache - tx.work.levels.Keys)])
    case Release(t) =>
      var tx := h.txs[t];
      h.(txs := h.txs[t := tx.(savepoints := tx.savepoints[..|tx.savepoints| - 1])])
    case Commit(t) =>
      var work := h.txs[t].work;
      h.(levels := h.levels + work.levels, log := h.log + work.log, txs := h.txs - {t})
    case Abort(t) => h.(txs := h.txs - {t})
    case SelectBatch(rows, _) => h.(batch := Some(rows))
    case Publish =>
      h.(queue := h.queue + h.batch.value, published := h.published + SeqNos(h.batch.value), batch := None)
    case RelayCrash => h.(batch := None)
  }

  /** The hub after a run, provided each step is enabled when it is taken. */
  function Run(h: Hub, steps: seq<Step>): Option<Hub> {
    if steps == [] then Some(h)
    else
      var before := Run(h, steps[..|steps| - 1]);
      if before.Some? && Enabled(before.value, steps[|steps| - 1]) then Some(Next(before.value, steps[|steps| - 1]))
        else None
  }

  // ---------------------------------------------------------------- one row's part of a log

  function RowLog(log: seq<Entry>, row: Row): seq<Entry> {
    if log == [] then []
    else
      var e := log[|log| - 1];
      RowLog(log[..|log| - 1], row) + if e.body.Moved? && e.body.row == row then [e] else []
  }

  /** The level the last entry of a row's log left. */
  function Tip(es: seq<Entry>): Level {
    if es != [] && es[|es| - 1].body.Moved? then es[|es| - 1].body.level else EMPTY
  }

  /** The movement of `body`, applied to `before`, is accepted and gives the level `body` carries. */
  predicate Follows(before: Level, body: Body) {
    body.Moved? && Apply(before, body.kind, body.qty) == Ok(body.level)
  }

  /** Each entry applies its movement to the level the one before it left. */
  ghost predicate Chain(es: seq<Entry>) {
    es == [] ||
    var n := |es| - 1;
    Chain(es[..n]) && Follows(Tip(es[..n]), es[n].body)
  }

  /** The last version is lower than the number of movements. */
  predicate Behind(es: seq<Entry>) {
    es != [] && Tip(es).version < |es|
  }

  /** A row's movements: their numbers ascend, they leave sound levels, and no version runs ahead of its count. */
  ghost predicate RowOk(es: seq<Entry>) {
    && Ascending(es)
    && forall i :: 0 <= i < |es| ==>
         es[i].body.Moved? && es[i].body.level.Sound() && es[i].body.level.version <= i + 1
  }

  lemma {:induction false} RowLogConcat(a: seq<Entry>, b: seq<Entry>, row: Row)
    ensures RowLog(a + b, row) == RowLog(a, row) + RowLog(b, row)
  {
    if b == [] {
      assert a + b == a;
    } else {
      assert (a + b)[..|a + b| - 1] == a + b[..|b| - 1];
      RowLogConcat(a, b[..|b| - 1], row);
    }
  }

  lemma {:induction false} RowLogSelects(log: seq<Entry>, row: Row)
    ensures forall e :: e in RowLog(log, row) <==> e in log && e.body.Moved? && e.body.row == row
  {
    if log != [] {
      RowLogSelects(log[..|log| - 1], row);
      assert log == log[..|log| - 1] + [log[|log| - 1]];
    }
  }

  lemma LastAscends(log: seq<Entry>)
    requires Ascending(log) && log != []
    ensures Ascending(log[..|log| - 1]) && forall e <- log[..|log| - 1] :: e.seqno < log[|log| - 1].seqno
  {
  }

  lemma AscendsSnoc(log: seq<Entry>, e: Entry)
    requires Ascending(log) && forall x <- log :: x.seqno < e.seqno
    ensures Ascending(log + [e])
  {
    assert forall i :: 0 <= i < |log| ==> log[i] in log;
  }

  lemma {:induction false} RowLogAscends(log: seq<Entry>, row: Row)
    requires Ascending(log)
    ensures Ascending(RowLog(log, row))
  {
    if log != [] {
      var prior, e := log[..|log| - 1], log[|log| - 1];
      LastAscends(log);
      RowLogAscends(prior, row);
      RowLogSelects(prior, row);
      if e.body.Moved? && e.body.row == row {
        AscendsSnoc(RowLog(prior, row), e);
      } else {
        assert RowLog(log, row) == RowLog(prior, row);
      }
    }
  }

  lemma RowLogMembers(log: seq<Entry>, row: Row)
    ensures forall e :: e in RowLog(log, row) <==> e in log && e.body.Moved? && e.body.row == row
    ensures Ascending(log) ==> Ascending(RowLog(log, row))
  {
    RowLogSelects(log, row);
    if Ascending(log) {
      RowLogAscends(log, row);
    }
  }

  /** In a chain versions count the entries: the i-th entry of a row carries version i + 1. */
  lemma {:induction false} ChainVersions(es: seq<Entry>, i: nat)
    requires Chain(es) && i < |es|
    ensures es[i].body.Moved? && es[i].body.level.version == i + 1 && es[i].body.level.Sound()
  {
    var n := |es| - 1;
    if i < n {
      ChainVersions(es[..n], i);
    } else if n > 0 {
      ChainVersions(es[..n], n - 1);
    }
  }

  lemma ChainIsNotBehind(es: seq<Entry>)
    requires Chain(es)
    ensures Tip(es).version == |es| && !Behind(es)
  {
    if es != [] { ChainVersions(es, |es| - 1); }
  }

  // ---------------------------------------------------------------- the invariant

  /** The stored row versions are the tips of the row's log. */
  ghost predicate Tips(levels: map<Row, Level>, log: seq<Entry>) {
    forall row ::
      var es := RowLog(log, row);
      && (row in levels <==> es != [])
      && (row in levels ==> Tip(es) == levels[row])
  }

  ghost predicate DistinctNumbers(log: seq<Entry>) {
    forall i, j :: 0 <= i < j < |log| ==> log[i].seqno != log[j].seqno
  }

  /**
   The row's movements, the transaction's own included, are a chain, unless one of them was judged on an entity of
   another version: then the versions are behind.
   */
  ghost predicate Told(h: Hub, w: Work, row: Row) {
    var es := RowLog(h.log + w.log, row);
    if Behind(RowLog(h.log, row)) || row in w.stale then Behind(es) else Chain(es)
  }

  /** A transaction's work continues the committed movements of every row it wrote, all under its locks. */
  ghost predicate WorkOk(h: Hub, w: Work) {
    && (forall row :: RowOk(RowLog(h.log + w.log, row)) && Told(h, w, row))
    && (forall row :: RowLog(w.log, row) != [] ==> row in w.locks)
    && (forall row <- w.stale :: row in w.levels)
    && Tips(w.levels, w.log)
    && (forall e <- w.log :: e.seqno < h.nextSeq)
    && DistinctNumbers(h.log + w.log)
  }

  /** The level is one the row had in the committed tables. */
  ghost predicate WasCommitted(log: seq<Entry>, row: Row, level: Level) {
    exists e <- RowLog(log, row) :: e.body.Moved? && e.body.level == level
  }

  function Stack(tx: Tx): seq<Work> {
    tx.savepoints + [tx.work]
  }

  /** Later savepoints hold more locks and longer logs; entities were loaded from the committed tables. */
  ghost predicate TxOk(h: Hub, tx: Tx) {
    && (forall row <- tx.cache :: WasCommitted(h.log, row, tx.cache[row]))
    && (forall i :: 0 <= i < |Stack(tx)| ==> WorkOk(h, Stack(tx)[i]))
    && (forall i, j :: 0 <= i < j < |Stack(tx)| ==>
        Stack(tx)[i].locks <= Stack(tx)[j].locks && Stack(tx)[i].log <= Stack(tx)[j].log)
  }

  ghost predicate Separate(a: Tx, b: Tx) {
    && a.work.locks !! b.work.locks
    && (forall e <- a.work.log, f <- b.work.log :: e.seqno != f.seqno)
  }

  ghost predicate TablesOk(h: Hub) {
    && (forall row :: RowOk(RowLog(h.log, row)) && (Behind(RowLog(h.log, row)) || Chain(RowLog(h.log, row))))
    && Tips(h.levels, h.log)
    && (forall e <- h.log :: e.seqno < h.nextSeq)
    && DistinctNumbers(h.log)
  }

  ghost predicate TxsOk(h: Hub) {
    && (forall t <- h.txs :: TxOk(h, h.txs[t]))
    && (forall t <- h.txs, u <- h.txs :: t != u ==> Separate(h.txs[t], h.txs[u]))
  }

  /** The queue holds, row by row, an initial part of the committed log; `published` marks exactly the queued rows. */
  ghost predicate QueueOk(h: Hub) {
    && (forall row :: RowLog(h.queue, row) <= RowLog(h.log, row))
    && (forall e <- h.queue :: e in h.log)
    && h.published == SeqNos(h.queue)
  }

  /** The batch in flight is unpublished, in order, and row by row leaves no gap behind it. */
  ghost predicate BatchOk(h: Hub) {
    h.batch.Some? ==>
      var b := h.batch.value;
      && Ascending(b)
      && (forall e <- b :: e in h.log && e !in h.queue)
      && (forall row, i, j ::
            0 <= i < j < |RowLog(h.log, row)| && RowLog(h.log, row)[j] in b && RowLog(h.log, row)[i] !in h.queue ==>
            RowLog(h.log, row)[i] in b)
  }

  ghost predicate Inv(h: Hub) {
    TablesOk(h) && TxsOk(h) && QueueOk(h) && BatchOk(h)
  }

  // ---------------------------------------------------------------- the transaction steps keep it

  /** Work depends on the committed log alone. */
  lemma SameLogWork(h: Hub, h': Hub, w: Work)
    requires WorkOk(h, w) && h'.log == h.log && h'.nextSeq >= h.nextSeq
    ensures WorkOk(h', w)
  {
    assert forall row :: Told(h, w, row) ==> Told(h', w, row);
  }

  lemma SameLogTx(h: Hub, h': Hub, tx: Tx)
    requires TxOk(h, tx) && h'.log == h.log && h'.nextSeq >= h.nextSeq
    ensures TxOk(h', tx)
  {
    forall i | 0 <= i < |Stack(tx)| ensures WorkOk(h', Stack(tx)[i]) {
      SameLogWork(h, h', Stack(tx)[i]);
    }
  }

  lemma ReplaceTxKeepsInv(h: Hub, t: TxId, tx: Tx)
    requires Inv(h) && TxOk(h, tx)
    requires forall u <- h.txs :: u != t ==> Separate(tx, h.txs[u])
    ensures Inv(h.(txs := h.txs[t := tx]))
  {
    var h' := h.(txs := h.txs[t := tx]);
    forall u <- h'.txs ensures TxOk(h', h'.txs[u]) {
      assert TxOk(h, h'.txs[u]);
      SameLogTx(h, h', h'.txs[u]);
    }
    forall u <- h'.txs, w <- h'.txs | u != w ensures Separate(h'.txs[u], h'.txs[w]) {
      if u != t && w == t { assert Separate(tx, h.txs[u]); }
    }
    QueueUnchanged(h, h');
  }

  lemma DropTxKeepsInv(h: Hub, t: TxId)
    requires Inv(h)
    ensures Inv(h.(txs := h.txs - {t}))
  {
    var h' := h.(txs := h.txs - {t});
    forall u <- h'.txs ensures TxOk(h', h'.txs[u]) {
      assert TxOk(h, h'.txs[u]);
      SameLogTx(h, h', h'.txs[u]);
    }
    QueueUnchanged(h, h');
  }

  lemma QueueUnchanged(h: Hub, h': Hub)
    requires QueueOk(h) && BatchOk(h)
    requires h'.log == h.log && h'.queue == h.queue && h'.published == h.published && h'.batch == h.batch
    ensures QueueOk(h') && BatchOk(h')
  {
  }

  lemma WorkIsOk(h: Hub, tx: Tx)
    requires TxOk(h, tx)
    ensures WorkOk(h, tx.work)
    ensures forall w <- tx.savepoints :: WorkOk(h, w) && w.locks <= tx.work.locks && w.log <= tx.work.log
  {
    assert Stack(tx)[|tx.savepoints|] == tx.work;
    forall w <- tx.savepoints ensures WorkOk(h, w) && w.locks <= tx.work.locks && w.log <= tx.work.log {
      var i :| 0 <= i < |tx.savepoints| && tx.savepoints[i] == w;
      assert Stack(tx)[i] == w;
    }
  }

  lemma EmptyLogWritesNothing(h: Hub, t: TxId)
    requires TxsOk(h) && t in h.txs && h.txs[t].work.log == []
    ensures h.txs[t].work.levels == map[]
  {
    assert TxOk(h, h.txs[t]);
    WorkIsOk(h, h.txs[t]);
    assert forall row :: row in h.txs[t].work.levels ==> RowLog([], row) != [];
  }

  /** Replacing the work on top by an extension of it. */
  lemma ExtendTx(h: Hub, tx: Tx, work: Work)
    requires TxOk(h, tx) && WorkOk(h, work) && tx.work.locks <= work.locks && tx.work.log <= work.log
    ensures TxOk(h, tx.(work := work))
  {
    var tx' := tx.(work := work);
    var n := |tx.savepoints|;
    assert forall i :: 0 <= i < n ==> Stack(tx')[i] == Stack(tx)[i];
    assert Stack(tx)[n] == tx.work && Stack(tx')[n] == work;
    forall i, j | 0 <= i < j < |Stack(tx')|
      ensures Stack(tx')[i].locks <= Stack(tx')[j].locks && Stack(tx')[i].log <= Stack(tx')[j].log
    {
      assert Stack(tx)[i].locks <= Stack(tx)[j].locks && Stack(tx)[i].log <= Stack(tx)[j].log;
    }
  }

  lemma SavepointTx(h: Hub, tx: Tx)
    requires TxOk(h, tx)
    ensures TxOk(h, tx.(savepoints := tx.savepoints + [tx.work]))
  {
    var tx' := tx.(savepoints := tx.savepoints + [tx.work]);
    assert Stack(tx') == Stack(tx) + [tx.work];
    assert Stack(tx)[|tx.savepoints|] == tx.work;
  }

  lemma RollbackTx(h: Hub, tx: Tx)
    requires TxOk(h, tx) && tx.savepoints != []
    ensures TxOk(h, Tx(tx.savepoints[|tx.savepoints| - 1], tx.savepoints[..|tx.savepoints| - 1],
                       tx.cache - tx.work.levels.Keys))
  {
    var n := |tx.savepoints| - 1;
    var tx' := Tx(tx.savepoints[n], tx.savepoints[..n], tx.cache - tx.work.levels.Keys);
    assert Stack(tx') == tx.savepoints;
    assert forall i :: 0 <= i <= n ==> Stack(tx')[i] == Stack(tx)[i];
  }

  lemma ReleaseTx(h: Hub, tx: Tx)
    requires TxOk(h, tx) && tx.savepoints != []
    ensures TxOk(h, tx.(savepoints := tx.savepoints[..|tx.savepoints| - 1]))
  {
    var n := |tx.savepoints| - 1;
    var tx' := tx.(savepoints := tx.savepoints[..n]);
    assert forall i :: 0 <= i < n ==> Stack(tx')[i] == Stack(tx)[i];
    assert Stack(tx')[n] == Stack(tx)[n + 1] == tx.work;
    forall i, j | 0 <= i < j <= n
      ensures Stack(tx')[i].locks <= Stack(tx')[j].locks && Stack(tx')[i].log <= Stack(tx')[j].log
    {
      assert Stack(tx)[i].log <= Stack(tx)[if j == n then n + 1 else j].log;
      assert Stack(tx)[i].locks <= Stack(tx)[if j == n then n + 1 else j].locks;
    }
  }

  /** A transaction whose log and locks shrink, or gain a lock nobody holds, stays apart from the others. */
  lemma StaysSeparate(h: Hub, t: TxId, tx: Tx)
    requires Inv(h) && t in h.txs && tx.work.log <= h.txs[t].work.log
    requires forall row <- tx.work.locks :: row in h.txs[t].work.locks || !LockedByOther(h, t, row)
    ensures forall u <- h.txs :: u != t ==> Separate(tx, h.txs[u])
  {
    forall u <- h.txs | u != t ensures Separate(tx, h.txs[u]) {
      assert Separate(h.txs[t], h.txs[u]);
      forall row <- tx.work.locks ensures row !in h.txs[u].work.locks { }
      assert forall e <- tx.work.log :: e in h.txs[t].work.log;
    }
  }

  lemma LoadTx(h: Hub, tx: Tx, row: Row)
    requires TablesOk(h) && TxOk(h, tx)
    ensures TxOk(h, if row in h.levels then tx.(cache := tx.cache[row := h.levels[row]]) else tx)
  {
    if row in h.levels {
      var es, tx' := RowLog(h.log, row), tx.(cache := tx.cache[row := h.levels[row]]);
      assert es != [] && Tip(es) == h.levels[row] && RowOk(es);
      assert es[|es| - 1] in es;
      assert Stack(tx') == Stack(tx);
    }
  }

  lemma ForgetTx(h: Hub, tx: Tx, row: Row)
    requires TxOk(h, tx)
    ensures TxOk(h, tx.(cache := tx.cache - {row}))
  {
    assert Stack(tx.(cache := tx.cache - {row})) == Stack(tx);
  }

  /** What a transaction does on its own keeps it well formed, within what it held. */
  lemma LocalTx(h: Hub, step: Step)
    requires TablesOk(h) && TxsOk(h) && Enabled(h, step)
    requires step.Load? || step.Forget? || step.Lock? || step.Savepoint? || step.RollbackTo? || step.Release?
    ensures var was, tx := h.txs[step.t], Next(h, step).txs[step.t];
            && TxOk(h, tx) && tx.work.log <= was.work.log
            && (forall row <- tx.work.locks :: row in was.work.locks || !LockedByOther(h, step.t, row))
            && Next(h, step) == h.(txs := h.txs[step.t := tx])
  {
    var was := h.txs[step.t];
    assert TxOk(h, was);
    WorkIsOk(h, was);
    match step {
      case Load(t, row) => LoadTx(h, was, row);
      case Forget(t, row) => ForgetTx(h, was, row);
      case Lock(t, row) => ExtendTx(h, was, was.work.(locks := was.work.locks + {row}));
      case Savepoint(t) => SavepointTx(h, was);
      case RollbackTo(t) => RollbackTx(h, was);
      case Release(t) => ReleaseTx(h, was);
    }
    assert step.RollbackTo? ==> Next(h, step).txs[step.t].work in was.savepoints;
  }

  lemma LocalStepKeepsInv(h: Hub, step: Step)
    requires Inv(h) && Enabled(h, step)
    requires step.Begin? || step.Load? || step.Forget? || step.Lock? || step.Savepoint? || step.RollbackTo?
             || step.Release? || step.Abort?
    ensures Inv(Next(h, step))
  {
    if step.Abort? {
      DropTxKeepsInv(h, step.t);
    } else if step.Begin? {
      assert h.log + [] == h.log;
      assert WorkOk(h, NO_WORK);
      ReplaceTxKeepsInv(h, step.t, Tx(NO_WORK, [], map[]));
    } else {
      LocalTx(h, step);
      StaysSeparate(h, step.t, Next(h, step).txs[step.t]);
      ReplaceTxKeepsInv(h, step.t, Next(h, step).txs[step.t]);
    }
  }

  lemma NumberDrawnKeepsInv(h: Hub)
    requires Inv(h)
    ensures Inv(h.(nextSeq := h.nextSeq + 1))
  {
    var h' := h.(nextSeq := h.nextSeq + 1);
    forall u <- h'.txs ensures TxOk(h', h'.txs[u]) {
      SameLogTx(h, h', h.txs[u]);
    }
    QueueUnchanged(h, h');
  }

  /** The tables give a transaction the tip of the committed log continued by its own. */
  lemma ViewIsTip(h: Hub, t: TxId, row: Row)
    requires TablesOk(h) && TxsOk(h) && t in h.txs
    ensures var es := RowLog(h.log + h.txs[t].work.log, row);
            && RowOk(es)
            && (View(h, t, row).None? <==> es == [])
            && Current(View(h, t, row)) == Tip(es)
  {
    var tx := h.txs[t];
    assert TxOk(h, tx);
    WorkIsOk(h, tx);
    RowLogConcat(h.log, tx.work.log, row);
  }

  lemma RowOkSnoc(es: seq<Entry>, e: Entry)
    requires RowOk(es) && forall x <- es :: x.seqno < e.seqno
    requires e.body.Moved? && e.body.level.Sound() && e.body.level.version <= |es| + 1
    ensures RowOk(es + [e])
  {
    AscendsSnoc(es, e);
  }

  lemma AppendRow(log: seq<Entry>, e: Entry, row: Row)
    requires RowOk(RowLog(log, row)) && forall x <- log :: x.seqno < e.seqno
    requires e.body.Moved? && e.body.row == row ==>
               e.body.level.Sound() && e.body.level.version <= |RowLog(log, row)| + 1
    ensures RowOk(RowLog(log + [e], row))
  {
    RowLogSnoc(log, e, row);
    RowLogSelects(log, row);
    if e.body.Moved? && e.body.row == row { RowOkSnoc(RowLog(log, row), e); }
  }

  lemma AppendTold(es: seq<Entry>, e: Entry)
    requires e.body.Moved?
    ensures Chain(es) && Follows(Tip(es), e.body) ==> Chain(es + [e])
    ensures e.body.level.version <= |es| ==> Behind(es + [e])
  {
    assert (es + [e])[..|es|] == es;
  }

  lemma RowLogSnoc(log: seq<Entry>, e: Entry, row: Row)
    ensures RowLog(log + [e], row)
            == if e.body.Moved? && e.body.row == row then RowLog(log, row) + [e] else RowLog(log, row)
  {
    assert (log + [e])[..|log|] == log;
  }

  lemma AppendTips(w: Work, e: Entry)
    requires Tips(w.levels, w.log)
    ensures Tips(if e.body.Moved? then w.levels[e.body.row := e.body.level] else w.levels, w.log + [e])
  {
    var levels := if e.body.Moved? then w.levels[e.body.row := e.body.level] else w.levels;
    forall row
      ensures row in levels <==> RowLog(w.log + [e], row) != []
      ensures row in levels ==> Tip(RowLog(w.log + [e], row)) == levels[row]
    {
      RowLogSnoc(w.log, e, row);
      var es := RowLog(w.log, row);
      assert row in w.levels <==> es != [];
    }
  }

  lemma AppendDistinct(log: seq<Entry>, e: Entry)
    requires DistinctNumbers(log) && forall x <- log :: x.seqno < e.seqno
    ensures DistinctNumbers(log + [e])
  {
    assert forall i :: 0 <= i < |log| ==> (log + [e])[i] == log[i] && log[i] in log;
  }

  /** A transaction's work with one more entry. */
  function Written(w: Work, e: Entry, stale: set<Row>): Work {
    Work(w.locks, if e.body.Moved? then w.levels[e.body.row := e.body.level] else w.levels, w.log + [e], stale)
  }

  /** What the movement of an entry must be for its row's versions to be told by `stale`. */
  ghost predicate Continues(h: Hub, w: Work, e: Entry, stale: set<Row>) {
    if !e.body.Moved? then stale == w.stale
    else
      var row, es := e.body.row, RowLog(h.log + w.log, e.body.row);
      && row in w.locks && w.stale <= stale <= w.stale + {row}
      && e.body.level.Sound() && e.body.level.version <= |es| + 1
      && if Behind(RowLog(h.log, row)) || row in stale then e.body.level.version <= |es|
         else Follows(Tip(es), e.body)
  }

  lemma AppendOneRow(h: Hub, h1: Hub, w: Work, e: Entry, stale: set<Row>, row: Row)
    requires RowOk(RowLog(h.log + w.log, row)) && Told(h, w, row)
    requires forall x <- h.log + w.log :: x.seqno < e.seqno
    requires Continues(h, w, e, stale) && h1.log == h.log
    ensures RowOk(RowLog(h1.log + (w.log + [e]), row)) && Told(h1, Written(w, e, stale), row)
  {
    assert h.log + (w.log + [e]) == (h.log + w.log) + [e];
    AppendRow(h.log + w.log, e, row);
    RowLogSnoc(h.log + w.log, e, row);
    if e.body.Moved? && e.body.row == row { AppendTold(RowLog(h.log + w.log, row), e); }
  }

  lemma AppendRows(h: Hub, h1: Hub, w: Work, e: Entry, stale: set<Row>)
    requires forall row :: RowOk(RowLog(h.log + w.log, row)) && Told(h, w, row)
    requires forall x <- h.log + w.log :: x.seqno < e.seqno
    requires Continues(h, w, e, stale) && h1.log == h.log
    ensures forall row :: RowOk(RowLog(h1.log + (w.log + [e]), row)) && Told(h1, Written(w, e, stale), row)
  {
    forall row ensures RowOk(RowLog(h1.log + (w.log + [e]), row)) && Told(h1, Written(w, e, stale), row) {
      AppendOneRow(h, h1, w, e, stale, row);
    }
  }

  lemma AppendLocked(w: Work, e: Entry)
    requires forall row :: RowLog(w.log, row) != [] ==> row in w.locks
    requires e.body.Moved? ==> e.body.row in w.locks
    ensures forall row :: RowLog(w.log + [e], row) != [] ==> row in w.locks
  {
    forall row | RowLog(w.log + [e], row) != [] ensures row in w.locks {
      RowLogSnoc(w.log, e, row);
    }
  }

  lemma AppendNumbers(log: seq<Entry>, more: seq<Entry>, e: Entry)
    requires DistinctNumbers(log + more) && forall x <- log + more :: x.seqno < e.seqno
    ensures DistinctNumbers(log + (more + [e])) && forall x <- more + [e] :: x.seqno <= e.seqno
  {
    assert log + (more + [e]) == (log + more) + [e];
    AppendDistinct(log + more, e);
    forall x <- more ensures x.seqno < e.seqno { assert x in log + more; }
  }

  lemma AppendWorkOk(h: Hub, w: Work, e: Entry, stale: set<Row>)
    requires WorkOk(h, w) && (forall x <- h.log :: x.seqno < h.nextSeq) && e.seqno == h.nextSeq
    requires Continues(h, w, e, stale)
    ensures WorkOk(h.(nextSeq := h.nextSeq + 1), Written(w, e, stale))
  {
    AppendRows(h, h.(nextSeq := h.nextSeq + 1), w, e, stale);
    AppendLocked(w, e);
    AppendTips(w, e);
    AppendNumbers(h.log, w.log, e);
  }

  lemma WriterStaysSeparate(h: Hub, t: TxId, tx: Tx, e: Entry)
    requires Inv(h) && t in h.txs && e.seqno == h.nextSeq
    requires tx.work.locks == h.txs[t].work.locks && tx.work.log == h.txs[t].work.log + [e]
    ensures forall u <- h.txs :: u != t ==> Separate(tx, h.txs[u])
  {
    forall u <- h.txs | u != t ensures Separate(tx, h.txs[u]) {
      assert Separate(h.txs[t], h.txs[u]);
      assert TxOk(h, h.txs[u]);
      WorkIsOk(h, h.txs[u]);
    }
  }

  /** The event a write logs. */
  function EntryOf(h: Hub, step: Step): Entry
    requires Guarded(h, step) && (step.Post? || step.Announce?)
  {
    var log := Next(h, step).txs[step.t].work.log;
    log[|log| - 1]
  }

  function StaleOf(h: Hub, step: Step): set<Row>
    requires Guarded(h, step) && (step.Post? || step.Announce?)
  {
    if step.Post? then StaleAfter(h, step.t, step.row) else h.txs[step.t].work.stale
  }

  /** A write appends one entry with the number just drawn. */
  lemma WriteShape(h: Hub, step: Step)
    requires Guarded(h, step) && (step.Post? || step.Announce?)
    ensures var was, tx, e := h.txs[step.t].work, Next(h, step).txs[step.t], EntryOf(h, step);
            && Next(h, step) == h.(nextSeq := h.nextSeq + 1, txs := h.txs[step.t := tx])
            && tx.savepoints == h.txs[step.t].savepoints && tx.cache == h.txs[step.t].cache
            && tx.work == Written(was, e, StaleOf(h, step))
            && e.seqno == h.nextSeq
    ensures step.Post? <==> EntryOf(h, step).body.Moved?
    ensures step.Post? ==>
              EntryOf(h, step).body == Moved(step.row, step.kind, step.qty, step.reference,
                                             LevelAfter(h, step.t, step.row, step.kind, step.qty))
  {
  }

  /** Judged on the row as it is, a movement follows it. */
  lemma FreshFollows(level: Level, kind: Kind, qty: int)
    requires Effect(kind, qty, level.qty, level.reserved).Ok? && Merged(level, level, kind, qty).Sound()
    ensures Apply(level, kind, qty) == Ok(Merged(level, level, kind, qty))
  {
  }

  /**
   An entity is one of the row's committed levels, so its version is at most the row's count; it reaches the count only
   in the last one.
   */
  lemma EntityVersions(h: Hub, row: Row, level: Level)
    requires TablesOk(h) && WasCommitted(h.log, row, level)
    ensures var es := RowLog(h.log, row);
            && es != [] && level.version <= |es|
            && (level.version == |es| ==> level == Tip(es))
  {
    var es := RowLog(h.log, row);
    assert RowOk(es);
    var e :| e in es && e.body.Moved? && e.body.level == level;
    var i :| 0 <= i < |es| && es[i] == e;
  }

  lemma UnwrittenLog(h: Hub, w: Work, row: Row)
    requires Tips(h.levels, h.log) && Tips(w.levels, w.log) && row !in w.levels
    ensures RowLog(h.log + w.log, row) == RowLog(h.log, row)
    ensures (if row in h.levels then h.levels[row] else EMPTY) == Tip(RowLog(h.log, row))
  {
    RowLogConcat(h.log, w.log, row);
    assert RowLog(w.log, row) == [] && RowLog(h.log, row) + [] == RowLog(h.log, row);
    assert row in h.levels <==> RowLog(h.log, row) != [];
  }

  /** A row the transaction has not written: the tables give it the tip of the committed movements. */
  lemma UnwrittenRow(h: Hub, t: TxId, row: Row)
    requires TablesOk(h) && TxsOk(h) && t in h.txs && row !in h.txs[t].work.levels
    ensures var c := RowLog(h.log, row);
            && RowLog(h.log + h.txs[t].work.log, row) == c && Current(View(h, t, row)) == Tip(c)
            && row !in h.txs[t].work.stale && (Behind(c) || Chain(c))
    ensures row in h.txs[t].cache ==> WasCommitted(h.log, row, h.txs[t].cache[row])
  {
    assert TxOk(h, h.txs[t]);
    WorkIsOk(h, h.txs[t]);
    UnwrittenLog(h, h.txs[t].work, row);
  }

  /** Judged on one of the row's levels that is not the last, a movement does not reach the row's count. */
  lemma EntityFollows(c: seq<Entry>, seen: Level, kind: Kind, qty: int)
    requires Behind(c) || Chain(c)
    requires seen.version <= |c| && (seen.version == |c| ==> seen == Tip(c))
    requires Effect(kind, qty, seen.qty, seen.reserved).Ok? && Merged(seen, Tip(c), kind, qty).Sound()
    ensures var level := Merged(seen, Tip(c), kind, qty);
            && level.version <= |c| + 1
            && if Behind(c) || seen.version != Tip(c).version then level.version <= |c|
               else Apply(Tip(c), kind, qty) == Ok(level)
  {
    if Chain(c) { ChainIsNotBehind(c); }
    if seen == Tip(c) { FreshFollows(seen, kind, qty); }
  }

  /** A movement judged on a loaded entity. */
  lemma EntityContinues(h: Hub, t: TxId, row: Row, kind: Kind, qty: int)
    requires TablesOk(h) && TxsOk(h) && t in h.txs && row !in h.txs[t].work.levels && row in h.txs[t].cache
    requires var seen := h.txs[t].cache[row]; Effect(kind, qty, seen.qty, seen.reserved).Ok?
    requires LevelAfter(h, t, row, kind, qty).Sound()
    ensures var level, c := LevelAfter(h, t, row, kind, qty), RowLog(h.log, row);
            && RowLog(h.log + h.txs[t].work.log, row) == c && level.version <= |c| + 1
            && if Behind(c) || row in StaleAfter(h, t, row) then level.version <= |c|
               else Apply(Tip(c), kind, qty) == Ok(level)
  {
    var seen := h.txs[t].cache[row];
    UnwrittenRow(h, t, row);
    EntityVersions(h, row, seen);
    EntityFollows(RowLog(h.log, row), seen, kind, qty);
  }

  /** A movement judged on the row as the tables have it. */
  lemma ViewContinues(h: Hub, t: TxId, row: Row, kind: Kind, qty: int)
    requires TablesOk(h) && TxsOk(h) && t in h.txs && Seen(h, t, row) == View(h, t, row)
    requires var seen := Current(Seen(h, t, row)); Effect(kind, qty, seen.qty, seen.reserved).Ok?
    requires LevelAfter(h, t, row, kind, qty).Sound()
    ensures var level, es := LevelAfter(h, t, row, kind, qty), RowLog(h.log + h.txs[t].work.log, row);
            && level.version <= |es| + 1 && StaleAfter(h, t, row) == h.txs[t].work.stale
            && Apply(Tip(es), kind, qty) == Ok(level)
            && (Behind(es) ==> level.version <= |es|)
  {
    ViewIsTip(h, t, row);
    FreshFollows(Current(View(h, t, row)), kind, qty);
  }

  lemma PostContinues(h: Hub, step: Step)
    requires TablesOk(h) && TxsOk(h) && Enabled(h, step) && step.Post?
    ensures Continues(h, h.txs[step.t].work, EntryOf(h, step), StaleAfter(h, step.t, step.row))
  {
    var tx := h.txs[step.t];
    assert TxOk(h, tx);
    WorkIsOk(h, tx);
    assert Told(h, tx.work, step.row);
    WriteShape(h, step);
    if step.row !in tx.work.levels && step.row in tx.cache {
      assert step.row !in tx.work.stale;
      EntityContinues(h, step.t, step.row, step.kind, step.qty);
    } else {
      ViewContinues(h, step.t, step.row, step.kind, step.qty);
    }
  }

  lemma WrittenTx(h: Hub, step: Step)
    requires Inv(h) && Enabled(h, step) && (step.Post? || step.Announce?)
    ensures TxOk(h.(nextSeq := h.nextSeq + 1), Next(h, step).txs[step.t])
  {
    WriteShape(h, step);
    if step.Post? { PostContinues(h, step); }
    AppendTx(h, h.txs[step.t], EntryOf(h, step), StaleOf(h, step));
  }

  lemma AppendTx(h: Hub, tx: Tx, e: Entry, stale: set<Row>)
    requires TablesOk(h) && TxOk(h, tx) && e.seqno == h.nextSeq && Continues(h, tx.work, e, stale)
    ensures TxOk(h.(nextSeq := h.nextSeq + 1), tx.(work := Written(tx.work, e, stale)))
  {
    var h1 := h.(nextSeq := h.nextSeq + 1);
    WorkIsOk(h, tx);
    AppendWorkOk(h, tx.work, e, stale);
    SameLogTx(h, h1, tx);
    ExtendTx(h1, tx, Written(tx.work, e, stale));
  }

  lemma WriteStepKeepsInv(h: Hub, step: Step)
    requires Inv(h) && Enabled(h, step) && (step.Post? || step.Announce?)
    ensures Inv(Next(h, step))
  {
    var t, tx := step.t, Next(h, step).txs[step.t];
    WriteShape(h, step);
    WrittenTx(h, step);
    NumberDrawnKeepsInv(h);
    WriterStaysSeparate(h, t, tx, EntryOf(h, step));
    ReplaceTxKeepsInv(h.(nextSeq := h.nextSeq + 1), t, tx);
  }

  // ---------------------------------------------------------------- commit

  /** A row's tip after the commit is the transaction's, where it wrote the row. */
  lemma CommitTip(levels: map<Row, Level>, log: seq<Entry>, w: Work, row: Row)
    requires Tips(levels, log) && Tips(w.levels, w.log)
    ensures row in levels + w.levels <==> RowLog(log + w.log, row) != []
    ensures row in levels + w.levels ==> Tip(RowLog(log + w.log, row)) == (levels + w.levels)[row]
  {
    var before, own := RowLog(log, row), RowLog(w.log, row);
    RowLogConcat(log, w.log, row);
    if row in w.levels {
      assert own != [] && Tip(before + own) == Tip(own) == w.levels[row];
    } else {
      assert own == [] && before + own == before;
    }
  }

  lemma CommitTables(h: Hub, w: Work)
    requires TablesOk(h) && WorkOk(h, w)
    ensures TablesOk(h.(levels := h.levels + w.levels, log := h.log + w.log))
  {
    assert Tips(h.levels + w.levels, h.log + w.log) by {
      forall row
        ensures row in h.levels + w.levels <==> RowLog(h.log + w.log, row) != []
        ensures row in h.levels + w.levels ==> Tip(RowLog(h.log + w.log, row)) == (h.levels + w.levels)[row]
      {
        CommitTip(h.levels, h.log, w, row);
      }
    }
    assert forall row :: Told(h, w, row) ==> Behind(RowLog(h.log + w.log, row)) || Chain(RowLog(h.log + w.log, row));
  }

  /** A row that is not the transaction's own: its movements are the committed ones. */
  lemma OthersRow(h: Hub, w: Work, row: Row)
    requires WorkOk(h, w) && row !in w.locks
    ensures RowLog(h.log + w.log, row) == RowLog(h.log, row) && row !in w.stale
  {
    RowLogConcat(h.log, w.log, row);
    assert RowLog(h.log, row) + [] == RowLog(h.log, row);
    assert row in w.levels <==> RowLog(w.log, row) != [];
  }

  lemma CommitLeavesRow(h: Hub, h': Hub, w: Work, x: Work, row: Row)
    requires WorkOk(h, w) && WorkOk(h, x) && w.locks !! x.locks && h'.log == h.log + w.log
    ensures RowOk(RowLog(h'.log + x.log, row)) && Told(h', x, row)
  {
    RowLogConcat(h.log + w.log, x.log, row);
    RowLogConcat(h.log, x.log, row);
    assert RowOk(RowLog(h.log + x.log, row)) && Told(h, x, row);
    assert RowOk(RowLog(h.log + w.log, row)) && Told(h, w, row);
    if row in x.locks {
      OthersRow(h, w, row);
    } else {
      OthersRow(h, x, row);
      assert RowLog(x.log, row) == [];
      assert RowLog(h'.log, row) + [] == RowLog(h'.log, row);
    }
  }

  /** Another transaction's work continues the tables after the commit as it did before it. */
  lemma CommitLeavesWorkOk(h: Hub, h': Hub, w: Work, x: Work)
    requires WorkOk(h, w) && WorkOk(h, x) && w.locks !! x.locks
    requires forall e <- w.log, f <- x.log :: e.seqno != f.seqno
    requires h'.log == h.log + w.log && h'.nextSeq == h.nextSeq
    ensures WorkOk(h', x)
  {
    forall row ensures RowOk(RowLog(h'.log + x.log, row)) && Told(h', x, row) {
      CommitLeavesRow(h, h', w, x, row);
    }
    CommitLeavesDistinct(h.log, w.log, x.log);
  }

  lemma CommitLeavesDistinct(log: seq<Entry>, w: seq<Entry>, x: seq<Entry>)
    requires DistinctNumbers(log + w) && DistinctNumbers(log + x)
    requires forall e <- w, f <- x :: e.seqno != f.seqno
    ensures DistinctNumbers(log + w + x)
  {
    var n, m, all := |log|, |w|, log + w + x;
    forall i, j | 0 <= i < j < |all| ensures all[i].seqno != all[j].seqno {
      if j < n + m {
        assert (log + w)[i].seqno != (log + w)[j].seqno;
      } else if i < n {
        assert (log + x)[i].seqno != (log + x)[j - m].seqno;
      } else if i < n + m {
        assert w[i - n] in w && x[j - n - m] in x;
      } else {
        assert (log + x)[i - m].seqno != (log + x)[j - m].seqno;
      }
    }
  }

  lemma CommitLeavesCache(h: Hub, w: Work, cache: map<Row, Level>)
    requires forall row <- cache :: WasCommitted(h.log, row, cache[row])
    ensures forall row <- cache :: WasCommitted(h.log + w.log, row, cache[row])
  {
    forall row <- cache ensures WasCommitted(h.log + w.log, row, cache[row]) {
      var e :| e in RowLog(h.log, row) && e.body.Moved? && e.body.level == cache[row];
      RowLogConcat(h.log, w.log, row);
      assert e in RowLog(h.log + w.log, row);
    }
  }

  /** What the relay and the queue hold was committed before, so a commit does not disturb them. */
  lemma CommitLeavesQueueOk(h: Hub, h': Hub, w: Work)
    requires QueueOk(h) && BatchOk(h) && WorkOk(h, w)
    requires h'.log == h.log + w.log && h'.queue == h.queue && h'.published == h.published && h'.batch == h.batch
    ensures QueueOk(h') && BatchOk(h')
  {
    forall row ensures RowLog(h'.queue, row) <= RowLog(h'.log, row) {
      RowLogConcat(h.log, w.log, row);
    }
    if h'.batch.Some? {
      forall row, i, j | 0 <= i < j < |RowLog(h'.log, row)| && RowLog(h'.log, row)[j] in h.batch.value
        && RowLog(h'.log, row)[i] !in h'.queue
        ensures RowLog(h'.log, row)[i] in h.batch.value
      {
        RowLogConcat(h.log, w.log, row);
        NewRowEntriesAreNew(h, w, row);
        if j < |RowLog(h.log, row)| {
          assert RowLog(h.log, row)[j] in h.batch.value && RowLog(h.log, row)[i] !in h.queue;
        }
      }
    }
  }

  lemma NewRowEntriesAreNew(h: Hub, w: Work, row: Row)
    requires WorkOk(h, w)
    ensures forall j :: |RowLog(h.log, row)| <= j < |RowLog(h.log + w.log, row)| ==>
            RowLog(h.log + w.log, row)[j] !in h.log
  {
    LogsDisjoint(h, w);
    RowLogConcat(h.log, w.log, row);
    RowLogMembers(w.log, row);
    forall j | |RowLog(h.log, row)| <= j < |RowLog(h.log + w.log, row)|
      ensures RowLog(h.log + w.log, row)[j] !in h.log
    {
      assert RowLog(h.log + w.log, row)[j] in RowLog(w.log, row);
    }
  }

  lemma LogsDisjoint(h: Hub, w: Work)
    requires WorkOk(h, w)
    ensures forall e <- w.log :: e !in h.log
  {
    forall a, b | 0 <= a < |w.log| && 0 <= b < |h.log| ensures w.log[a] != h.log[b] {
      assert (h.log + w.log)[b] == h.log[b] && (h.log + w.log)[|h.log| + a] == w.log[a];
    }
  }

  lemma CommitKeepsInv(h: Hub, t: TxId)
    requires Inv(h) && t in h.txs
    ensures Inv(Next(h, Commit(t)))
  {
    var w, h' := h.txs[t].work, Next(h, Commit(t));
    assert TxOk(h, h.txs[t]);
    WorkIsOk(h, h.txs[t]);
    CommitTables(h, w);
    CommitLeavesQueueOk(h, h', w);
    forall u <- h'.txs ensures TxOk(h', h'.txs[u]) {
      var tx := h.txs[u];
      assert TxOk(h, tx) && Separate(h.txs[t], tx);
      WorkIsOk(h, tx);
      forall i | 0 <= i < |Stack(tx)| ensures WorkOk(h', Stack(tx)[i]) {
        var x := Stack(tx)[i];
        assert x == tx.work || x in tx.savepoints;
        assert forall f <- x.log :: f in tx.work.log;
        CommitLeavesWorkOk(h, h', w, x);
      }
      CommitLeavesCache(h, w, tx.cache);
    }
  }

  // ---------------------------------------------------------------- the relay

  /** By number, two entries of a log are the same entry. */
  lemma SameNumberSameEntry(log: seq<Entry>, a: Entry, b: Entry)
    requires DistinctNumbers(log) && a in log && b in log && a.seqno == b.seqno
    ensures a == b
  {
    var i :| 0 <= i < |log| && log[i] == a;
    var j :| 0 <= j < |log| && log[j] == b;
  }

  lemma PublishedIsQueued(h: Hub, e: Entry)
    requires TablesOk(h) && QueueOk(h) && e in h.log
    ensures e.seqno in h.published <==> e in h.queue
  {
    if e.seqno in h.published {
      var q :| q in h.queue && q.seqno == e.seqno;
      SameNumberSameEntry(h.log, e, q);
    }
  }

  lemma SelectLeavesNoGap(h: Hub, rows: seq<Entry>, limit: nat, row: Row, i: nat, j: nat)
    requires Inv(h) && IsBatch(h, rows, limit)
    requires i < j < |RowLog(h.log, row)| && RowLog(h.log, row)[j] in rows && RowLog(h.log, row)[i] !in h.queue
    ensures RowLog(h.log, row)[i] in rows
  {
    var es := RowLog(h.log, row);
    RowLogMembers(h.log, row);
    assert es[i] in es && es[j] in es;
    PublishedIsQueued(h, es[i]);
    assert RowOk(es);
    var k :| 0 <= k < |rows| && rows[k] == es[j];
    assert rows[k].seqno <= rows[|rows| - 1].seqno;
  }

  lemma SelectKeepsInv(h: Hub, rows: seq<Entry>, limit: nat)
    requires Inv(h) && Enabled(h, SelectBatch(rows, limit))
    ensures Inv(Next(h, SelectBatch(rows, limit)))
  {
    forall e <- rows ensures e in h.log && e !in h.queue {
      PublishedIsQueued(h, e);
    }
    forall row, i, j | 0 <= i < j < |RowLog(h.log, row)| && RowLog(h.log, row)[j] in rows
      && RowLog(h.log, row)[i] !in h.queue
      ensures RowLog(h.log, row)[i] in rows
    {
      SelectLeavesNoGap(h, rows, limit, row, i, j);
    }
    TxsUnchanged(h, Next(h, SelectBatch(rows, limit)));
  }

  lemma TxsUnchanged(h: Hub, h': Hub)
    requires TxsOk(h) && h'.txs == h.txs && h'.log == h.log && h'.nextSeq == h.nextSeq
    ensures TxsOk(h')
  {
    forall u <- h'.txs ensures TxOk(h', h'.txs[u]) {
      assert TxOk(h, h'.txs[u]);
      SameLogTx(h, h', h'.txs[u]);
    }
  }

  /** An ascending selection that leaves no gap after the first k entries is the next stretch of them. */
  lemma {:induction false} NoGapIsPrefix(es: seq<Entry>, k: nat, b: seq<Entry>, i: nat)
    requires Ascending(es) && Ascending(b) && k <= |es| && i < |b|
    requires forall e <- b :: e in es[k..]
    requires forall p, q :: k <= p < q < |es| && es[q] in b ==> es[p] in b
    ensures k + i < |es| && b[i] == es[k + i]
  {
    assert b[i] in b;
    var j :| 0 <= j < |es[k..]| && es[k..][j] == b[i];
    if i > 0 { NoGapIsPrefix(es, k, b, i - 1); }
    assert j >= i && es[k + j] in b;
    var l :| 0 <= l < |b| && b[l] == es[k + i];
    assert i <= l <= i;
  }

  lemma QueuedOnlyBefore(es: seq<Entry>, q: seq<Entry>, i: nat)
    requires Ascending(es) && q <= es && |q| <= i < |es|
    ensures es[i] !in q
  {
    forall l | 0 <= l < |q| ensures q[l] != es[i] {
      assert q[l] == es[l] && es[l].seqno < es[i].seqno;
    }
  }

  /** A batch that leaves no gap after the queued prefix extends that prefix. */
  lemma PrefixThenBatch(es: seq<Entry>, q: seq<Entry>, b: seq<Entry>)
    requires Ascending(es) && Ascending(b) && q <= es
    requires forall e <- b :: e in es && e !in q
    requires forall i, j :: 0 <= i < j < |es| && es[j] in b && es[i] !in q ==> es[i] in b
    ensures q + b <= es
  {
    var k := |q|;
    forall e <- b ensures e in es[k..] {
      assert es == q + es[k..];
    }
    forall i, j | k <= i < j < |es| && es[j] in b ensures es[i] in b {
      QueuedOnlyBefore(es, q, i);
    }
    BatchFollows(es, k, b);
    assert es[..k] == q;
  }

  lemma BatchFollows(es: seq<Entry>, k: nat, b: seq<Entry>)
    requires Ascending(es) && Ascending(b) && k <= |es|
    requires forall e <- b :: e in es[k..]
    requires forall p, q :: k <= p < q < |es| && es[q] in b ==> es[p] in b
    ensures es[..k] + b <= es
  {
    forall i | 0 <= i < |b| ensures k + i < |es| && b[i] == es[k + i] {
      NoGapIsPrefix(es, k, b, i);
    }
    if b != [] { NoGapIsPrefix(es, k, b, |b| - 1); }
  }

  lemma PublishExtendsRow(h: Hub, row: Row)
    requires Inv(h) && h.batch.Some?
    ensures RowLog(h.queue + h.batch.value, row) <= RowLog(h.log, row)
  {
    var b, es, q := RowLog(h.batch.value, row), RowLog(h.log, row), RowLog(h.queue, row);
    RowLogConcat(h.queue, h.batch.value, row);
    RowLogMembers(h.batch.value, row);
    RowLogMembers(h.log, row);
    RowLogMembers(h.queue, row);
    assert RowOk(es);
    forall i, j | 0 <= i < j < |es| && es[j] in b && es[i] !in q ensures es[i] in b {
      assert es[i] in es && es[j] in h.batch.value;
    }
    PrefixThenBatch(es, q, b);
  }

  lemma PublishKeepsInv(h: Hub)
    requires Inv(h) && h.batch.Some?
    ensures Inv(Next(h, Publish))
  {
    var h' := Next(h, Publish);
    forall row ensures RowLog(h'.queue, row) <= RowLog(h'.log, row) { PublishExtendsRow(h, row); }
    TxsUnchanged(h, h');
  }

  lemma NextKeepsInv(h: Hub, step: Step)
    requires Inv(h) && Enabled(h, step)
    ensures Inv(Next(h, step))
  {
    match step
    case Post(_, _, _, _, _) => WriteStepKeepsInv(h, step);
    case Announce(_, _) => WriteStepKeepsInv(h, step);
    case Commit(t) => CommitKeepsInv(h, t);
    case SelectBatch(rows, limit) => SelectKeepsInv(h, rows, limit);
    case Publish => PublishKeepsInv(h);
    case RelayCrash => TxsUnchanged(h, Next(h, step));
    case _ => LocalStepKeepsInv(h, step);
  }

  lemma EmptyHubInv()
    ensures Inv(EMPTY_HUB)
  {
  }

  lemma {:induction false} RunKeepsInv(steps: seq<Step>)
    ensures Run(EMPTY_HUB, steps).Some? ==> Inv(Run(EMPTY_HUB, steps).value)
  {
    if steps == [] {
      EmptyHubInv();
    } else {
      RunKeepsInv(steps[..|steps| - 1]);
      if Run(EMPTY_HUB, steps).Some? {
        NextKeepsInv(Run(EMPTY_HUB, steps[..|steps| - 1]).value, steps[|steps| - 1]);
      }
    }
  }

  // ---------------------------------------------------------------- what every interleaving guarantees

  lemma QueueGrows(h: Hub, step: Step)
    requires Guarded(h, step)
    ensures h.queue <= Next(h, step).queue
  {
  }

  lemma SilentWork(levels: map<Row, Level>, log: seq<Entry>, w: Work, row: Row)
    requires Tips(w.levels, w.log)
    ensures |RowLog(log, row)| <= |RowLog(log + w.log, row)|
    ensures |RowLog(log, row)| == |RowLog(log + w.log, row)| ==>
              (row in levels + w.levels <==> row in levels)
              && (row in levels ==> (levels + w.levels)[row] == levels[row])
  {
    RowLogConcat(log, w.log, row);
    assert row in w.levels <==> RowLog(w.log, row) != [];
  }

  /** A commit that logs no movement of the row leaves it as it was. */
  lemma CommitOnRow(h: Hub, t: TxId, row: Row)
    requires TxsOk(h) && t in h.txs
    ensures var h' := Next(h, Commit(t));
            && |RowLog(h.log, row)| <= |RowLog(h'.log, row)|
            && (|RowLog(h.log, row)| == |RowLog(h'.log, row)| ==>
                  (row in h'.levels <==> row in h.levels) && (row in h.levels ==> h'.levels[row] == h.levels[row]))
  {
    var tx := h.txs[t];
    assert TxOk(h, tx);
    assert Tips(tx.work.levels, tx.work.log) by { WorkIsOk(h, tx); }
    SilentWork(h.levels, h.log, tx.work, row);
  }

  /** Row by row the queue follows the commit order, whatever the entities the movements were judged on. */
  lemma QueueFollowsCommits(steps: seq<Step>, row: Row)
    requires Run(EMPTY_HUB, steps).Some?
    ensures var h := Run(EMPTY_HUB, steps).value; RowLog(h.queue, row) <= RowLog(h.log, row)
  {
    RunKeepsInv(steps);
  }

  /** Every commit wrote the row from the version it then had. */
  predicate CommitsFresh(steps: seq<Step>, row: Row)
    requires Run(EMPTY_HUB, steps).Some?
  {
    steps == []
    || (var before, last := steps[..|steps| - 1], steps[|steps| - 1];
        && CommitsFresh(before, row)
        && (last.Commit? ==> row !in Run(EMPTY_HUB, before).value.txs[last.t].work.stale))
  }

  lemma CommitBehind(h: Hub, t: TxId, row: Row)
    requires Inv(h) && t in h.txs
    ensures var h' := Next(h, Commit(t));
            Behind(RowLog(h'.log, row)) <==> Behind(RowLog(h.log, row)) || row in h.txs[t].work.stale
  {
    assert TxOk(h, h.txs[t]);
    WorkIsOk(h, h.txs[t]);
    assert Told(h, h.txs[t].work, row);
    if Chain(RowLog(h.log + h.txs[t].work.log, row)) { ChainIsNotBehind(RowLog(h.log + h.txs[t].work.log, row)); }
  }

  lemma OnlyCommitsLog(h: Hub, step: Step)
    requires Guarded(h, step) && !step.Commit?
    ensures Next(h, step).log == h.log && Next(h, step).levels == h.levels
  {
  }

  /** A row falls behind by a commit that wrote it from another version, and never catches up. */
  lemma {:induction false} BehindExactlyWhen(steps: seq<Step>, row: Row)
    requires Run(EMPTY_HUB, steps).Some?
    ensures Behind(RowLog(Run(EMPTY_HUB, steps).value.log, row)) <==> !CommitsFresh(steps, row)
  {
    if steps != [] {
      var before, last := steps[..|steps| - 1], steps[|steps| - 1];
      BehindExactlyWhen(before, row);
      RunKeepsInv(before);
      var h := Run(EMPTY_HUB, before).value;
      if last.Commit? { CommitBehind(h, last.t, row); } else { OnlyCommitsLog(h, last); }
    }
  }

  /** The versions are exactly 1, 2, 3, ... */
  predicate Counted(es: seq<Entry>) {
    forall i :: 0 <= i < |es| ==> es[i].body.Moved? && es[i].body.level.version == i + 1
  }

  lemma CountedExactlyWhen(h: Hub, row: Row)
    requires TablesOk(h)
    ensures Counted(RowLog(h.log, row)) <==> !Behind(RowLog(h.log, row))
    ensures !Behind(RowLog(h.log, row)) <==> Chain(RowLog(h.log, row))
    ensures row in h.levels ==> (h.levels[row].version == |RowLog(h.log, row)| <==> !Behind(RowLog(h.log, row)))
  {
    var es := RowLog(h.log, row);
    assert RowOk(es);
    if Chain(es) {
      ChainIsNotBehind(es);
      forall i | 0 <= i < |es| ensures es[i].body.Moved? && es[i].body.level.version == i + 1 { ChainVersions(es, i); }
    }
  }

  /**
   The committed events of a row carry the versions 1, 2, 3, ... in order, and its row the number of its journal rows,
   exactly when no commit wrote the row from an entity of another version than the committed one.
   */
  lemma VersionsCountExactlyWhen(steps: seq<Step>, row: Row)
    requires Run(EMPTY_HUB, steps).Some?
    ensures var h := Run(EMPTY_HUB, steps).value;
            && (Counted(RowLog(h.log, row)) <==> CommitsFresh(steps, row))
            && (row in h.levels ==> (h.levels[row].version == |RowLog(h.log, row)| <==> CommitsFresh(steps, row)))
  {
    RunKeepsInv(steps);
    BehindExactlyWhen(steps, row);
    CountedExactlyWhen(Run(EMPTY_HUB, steps).value, row);
  }

  /** Then the queue carries the row's events with versions 1, 2, 3, ... in order, however much of them is published. */
  lemma QueueVersionsInOrder(steps: seq<Step>, row: Row)
    requires Run(EMPTY_HUB, steps).Some? && CommitsFresh(steps, row)
    ensures Counted(RowLog(Run(EMPTY_HUB, steps).value.queue, row))
  {
    VersionsCountExactlyWhen(steps, row);
    QueueFollowsCommits(steps, row);
    var h := Run(EMPTY_HUB, steps).value;
    forall i | 0 <= i < |RowLog(h.queue, row)| ensures RowLog(h.queue, row)[i] == RowLog(h.log, row)[i] { }
  }

  /**
   Once every committed event is published, the queue has all of a row's events and the last one is its level; there
   are as many as the level's version says exactly when every commit wrote the row from the version it then had.
   */
  lemma DrainedQueueIsComplete(steps: seq<Step>, row: Row)
    requires Run(EMPTY_HUB, steps).Some?
    requires var h := Run(EMPTY_HUB, steps).value;
             row in h.levels && forall e <- h.log :: e.seqno in h.published
    ensures var h := Run(EMPTY_HUB, steps).value;
            var es := RowLog(h.queue, row);
            && es == RowLog(h.log, row) && es != []
            && es[|es| - 1].body.Moved? && es[|es| - 1].body.level == h.levels[row]
            && (Counted(es) <==> CommitsFresh(steps, row))
            && (|es| == h.levels[row].version <==> CommitsFresh(steps, row))
  {
    RunKeepsInv(steps);
    DrainedRow(Run(EMPTY_HUB, steps).value, row);
    VersionsCountExactlyWhen(steps, row);
  }

  /** A prefix of an ascending log that holds its last entry is the whole log. */
  lemma PrefixWithTip(q: seq<Entry>, es: seq<Entry>)
    requires Ascending(es) && q <= es && es != [] && es[|es| - 1] in q
    ensures q == es
  {
    var l :| 0 <= l < |q| && q[l] == es[|es| - 1];
  }

  /** A row's log ends with its level. */
  lemma TipIsLevel(h: Hub, row: Row)
    requires TablesOk(h) && row in h.levels
    ensures var es := RowLog(h.log, row);
            es != [] && es[|es| - 1].body.Moved? && es[|es| - 1].body.level == h.levels[row]
  {
    var es := RowLog(h.log, row);
    assert RowOk(es) && es != [] && Tip(es) == h.levels[row];
  }

  /** The last entry of a row's log is in the queue's log of the row as soon as it is published. */
  lemma TipIsQueued(h: Hub, row: Row, e: Entry)
    requires TablesOk(h) && QueueOk(h) && e in RowLog(h.log, row) && e.seqno in h.published
    ensures e in RowLog(h.queue, row)
  {
    RowLogMembers(h.log, row);
    PublishedIsQueued(h, e);
    RowLogMembers(h.queue, row);
  }

  lemma WholeRowIsQueued(h: Hub, row: Row, e: Entry)
    requires TablesOk(h) && QueueOk(h) && RowLog(h.log, row) != []
    requires e == RowLog(h.log, row)[|RowLog(h.log, row)| - 1] && e.seqno in h.published
    ensures RowLog(h.queue, row) == RowLog(h.log, row)
  {
    TipIsQueued(h, row, e);
    assert RowOk(RowLog(h.log, row));
    PrefixWithTip(RowLog(h.queue, row), RowLog(h.log, row));
  }

  lemma DrainedRow(h: Hub, row: Row)
    requires TablesOk(h) && QueueOk(h) && row in h.levels && forall e <- h.log :: e.seqno in h.published
    ensures var es := RowLog(h.queue, row);
            && es == RowLog(h.log, row) && es != []
            && es[|es| - 1].body.Moved? && es[|es| - 1].body.level == h.levels[row]
  {
    TipIsLevel(h, row);
    var e := RowLog(h.log, row)[|RowLog(h.log, row)| - 1];
    assert e in h.log by { RowLogMembers(h.log, row); }
    WholeRowIsQueued(h, row, e);
  }

  /** Committed rows, and rows as any open transaction sees them, are sound. */
  ghost predicate NothingOversold(h: Hub) {
    && (forall row <- h.levels :: h.levels[row].Sound())
    && (forall t, row :: t in h.txs && View(h, t, row).Some? ==> View(h, t, row).value.Sound())
    && (forall v, ws :: TotalReserved(h.levels, v, ws) <= TotalQty(h.levels, v, ws))
  }

  lemma {:induction false} TotalsFromRows(levels: map<Row, Level>, v: VariantId, ws: seq<WarehouseId>)
    requires forall row <- levels :: levels[row].Sound()
    ensures TotalReserved(levels, v, ws) <= TotalQty(levels, v, ws)
  {
    if ws != [] { TotalsFromRows(levels, v, ws[1..]); }
  }

  lemma InvForbidsOversell(h: Hub)
    requires Inv(h)
    ensures NothingOversold(h)
  {
    forall row <- h.levels ensures h.levels[row].Sound() {
      var es := RowLog(h.log, row);
      assert RowOk(es) && es != [] && Tip(es) == h.levels[row];
    }
    forall t, row | t in h.txs && View(h, t, row).Some? ensures View(h, t, row).value.Sound() {
      ViewIsTip(h, t, row);
    }
    forall v, ws ensures TotalReserved(h.levels, v, ws) <= TotalQty(h.levels, v, ws) {
      TotalsFromRows(h.levels, v, ws);
    }
  }

  /** No interleaving oversells, in any row or over any list of warehouses. */
  lemma NoInterleavingOversells(steps: seq<Step>)
    requires Run(EMPTY_HUB, steps).Some?
    ensures NothingOversold(Run(EMPTY_HUB, steps).value)
  {
    RunKeepsInv(steps);
    InvForbidsOversell(Run(EMPTY_HUB, steps).value);
  }

  /** A signed movement, judged on the row as the tables have it. */
  predicate SignedAndFresh(h: Hub, step: Step) {
    step.Post? ==>
      && Signed(step.kind, step.qty)
      && (step.t in h.txs ==> Seen(h, step.t, step.row) == View(h, step.t, step.row))
  }

  /** The hub after a run of such movements that the guard alone lets through; the CHECK constraints are not asked. */
  function Unchecked(h: Hub, steps: seq<Step>): Option<Hub> {
    if steps == [] then Some(h)
    else
      var before, last := Unchecked(h, steps[..|steps| - 1]), steps[|steps| - 1];
      if before.Some? && Guarded(before.value, last) && SignedAndFresh(before.value, last)
      then Some(Next(before.value, last)) else None
  }

  /** The guard that `Effect` is lets nothing through on a sound row that the CHECK would refuse. */
  lemma GuardIsCheck(level: Level, kind: Kind, qty: int)
    requires level.Sound() && Signed(kind, qty) && Effect(kind, qty, level.qty, level.reserved).Ok?
    ensures Merged(level, level, kind, qty).Sound()
  {
    GuardSubsumesCheck(level, kind, qty);
  }

  lemma GuardedIsEnabled(h: Hub, step: Step)
    requires Inv(h) && Guarded(h, step) && SignedAndFresh(h, step)
    ensures Enabled(h, step)
  {
    if step.Post? {
      InvForbidsOversell(h);
      GuardIsCheck(Current(View(h, step.t, step.row)), step.kind, step.qty);
    }
  }

  /**
   In every run of signed movements judged on the rows as they are, the guard under the lock alone keeps every reachable
   row sound: no CHECK constraint ever refuses one, so the run is the same without them.
   */
  lemma {:induction false} GuardAloneSuffices(steps: seq<Step>)
    requires Unchecked(EMPTY_HUB, steps).Some?
    ensures Run(EMPTY_HUB, steps) == Unchecked(EMPTY_HUB, steps)
    ensures NothingOversold(Unchecked(EMPTY_HUB, steps).value)
  {
    if steps == [] {
      NoInterleavingOversells(steps);
    } else {
      GuardAloneSuffices(steps[..|steps| - 1]);
      RunKeepsInv(steps[..|steps| - 1]);
      GuardedIsEnabled(Unchecked(EMPTY_HUB, steps[..|steps| - 1]).value, steps[|steps| - 1]);
      NoInterleavingOversells(steps);
    }
  }

  /** The journal rows of a log, in its order. */
  function JournalOf(log: seq<Entry>): seq<Movement> {
    if log == [] then []
    else
      var e := log[|log| - 1];
      JournalOf(log[..|log| - 1])
        + if e.body.Moved? then [Movement(e.body.row, e.body.kind, e.body.qty, e.body.reference)] else []
  }

  lemma JournalSnoc(log: seq<Entry>, e: Entry)
    ensures JournalOf(log + [e])
            == JournalOf(log)
               + if e.body.Moved? then [Movement(e.body.row, e.body.kind, e.body.qty, e.body.reference)] else []
  {
    assert (log + [e])[..|log|] == log;
  }

  lemma ReplaySnoc(journal: seq<Movement>, m: Movement, row: Row)
    ensures var before := Replay(journal, row);
            Replay(journal + [m], row)
            == if before.Err? || m.row != row then before else Apply(before.value, m.kind, m.qty)
  {
    assert (journal + [m])[..|journal|] == journal;
  }

  /** One more entry, in the row's log, the journal and its replay. */
  lemma EntrySnoc(log: seq<Entry>, e: Entry, row: Row)
    ensures var before := Replay(JournalOf(log), row);
            if e.body.Moved? && e.body.row == row then
              && RowLog(log + [e], row) == RowLog(log, row) + [e]
              && Replay(JournalOf(log + [e]), row)
                 == if before.Err? then before else Apply(before.value, e.body.kind, e.body.qty)
            else
              RowLog(log + [e], row) == RowLog(log, row) && Replay(JournalOf(log + [e]), row) == before
  {
    RowLogSnoc(log, e, row);
    JournalSnoc(log, e);
    if e.body.Moved? {
      ReplaySnoc(JournalOf(log), Movement(e.body.row, e.body.kind, e.body.qty, e.body.reference), row);
    } else {
      assert JournalOf(log) + [] == JournalOf(log);
    }
  }

  lemma {:induction false} JournalReplaysChain(log: seq<Entry>, row: Row)
    requires Chain(RowLog(log, row))
    ensures Replay(JournalOf(log), row) == Ok(Tip(RowLog(log, row)))
  {
    if log != [] {
      var e, prior := log[|log| - 1], log[..|log| - 1];
      assert log == prior + [e];
      EntrySnoc(prior, e, row);
      if e.body.Moved? && e.body.row == row { assert RowLog(log, row)[..|RowLog(log, row)| - 1] == RowLog(prior, row); }
      JournalReplaysChain(prior, row);
    }
  }

  /** A replay counts its journal rows. */
  lemma {:induction false} ReplayVersion(log: seq<Entry>, row: Row)
    requires Replay(JournalOf(log), row).Ok?
    ensures Replay(JournalOf(log), row).value.version == |RowLog(log, row)|
  {
    if log != [] {
      var e, prior := log[|log| - 1], log[..|log| - 1];
      assert log == prior + [e];
      EntrySnoc(prior, e, row);
      ReplayVersion(prior, row);
    }
  }

  lemma ReplaysExactlyWhen(h: Hub, row: Row)
    requires TablesOk(h)
    ensures Replay(JournalOf(h.log), row) == Ok(if row in h.levels then h.levels[row] else EMPTY)
            <==> !Behind(RowLog(h.log, row))
  {
    var es := RowLog(h.log, row);
    assert row in h.levels <==> es != [];
    if Behind(es) {
      if Replay(JournalOf(h.log), row).Ok? { ReplayVersion(h.log, row); }
    } else {
      JournalReplaysChain(h.log, row);
    }
  }

  /**
   Serializability: replaying the committed journal one movement at a time, in commit order, gives the stored row
   exactly when no commit wrote the row from an entity of another version than the committed one.
   */
  lemma CommittedJournalReplays(steps: seq<Step>, row: Row)
    requires Run(EMPTY_HUB, steps).Some?
    ensures var h := Run(EMPTY_HUB, steps).value;
            Replay(JournalOf(h.log), row) == Ok(if row in h.levels then h.levels[row] else EMPTY)
            <==> CommitsFresh(steps, row)
  {
    RunKeepsInv(steps);
    BehindExactlyWhen(steps, row);
    ReplaysExactlyWhen(Run(EMPTY_HUB, steps).value, row);
  }
}
