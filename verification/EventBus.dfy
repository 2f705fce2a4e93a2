/**
 The event bus: transactional outbox, relay workers, a pgmq queue, consumers with an
 idempotency key per event, retry with backoff, and a dead-letter queue.

 Any number of writers, relays and consumers interleave; each may crash at any step, which
 aborts its open transaction.  Handlers' pushes to channels are external and not modelled
 here; a handler's effect on the database is.
 */
module EventBus {
  import opened Results

  /** An outbox row's id, which is also the event's idempotency key; rows are drained in this order. */
  type EventId = nat
  type MsgId = nat
  type WorkerId = nat

  datatype Config = Config(batch: nat, visibility: nat, maxRetries: nat, base: nat, cap: nat)

  datatype Message = Message(event: EventId, readCt: nat, visibleAt: int)

  datatype DeadLetter = DeadLetter(event: EventId, msg: MsgId, readCt: nat)

  /** The committed tables: `outbox` maps a row to its published flag; `effects` lists the committed handler runs. */
  datatype Db = Db(
    outbox: map<EventId, bool>,
    live: map<MsgId, Message>,
    archive: map<MsgId, Message>,
    dlq: seq<DeadLetter>,
    keys: set<EventId>,
    effects: seq<EventId>,
    nextMsg: MsgId)

  // ---------------------------------------------------------------- backoff

  function Power(base: nat, n: nat): nat {
    if n == 0 then 1 else base * Power(base, n - 1)
  }

  /** The delay after the `readCt`-th read failed. */
  function Backoff(cfg: Config, readCt: nat): nat {
    Min(Power(cfg.base, Max(readCt, 1)), cfg.cap)
  }

  /** The delays scheduled after reads 1 to n. */
  function BackoffTotal(cfg: Config, n: int): nat {
    if n <= 0 then 0 else BackoffTotal(cfg, n - 1) + Backoff(cfg, n)
  }

  function Geometric(base: nat, n: nat): nat {
    if n == 0 then 0 else Geometric(base, n - 1) + Power(base, n)
  }

  lemma {:induction false} GeometricStep(base: nat, n: nat)
    ensures base * Geometric(base, n) == Geometric(base, n) + Power(base, n + 1) - base
  {
    if n == 0 {
      assert Power(base, 1) == base * Power(base, 0);
    } else {
      GeometricStep(base, n - 1);
      Distribute(base, Geometric(base, n - 1), Power(base, n));
    }
  }

  lemma Distribute(a: int, b: int, c: int)
    ensures a * (b + c) == a * b + a * c
  {
  }

  lemma GeometricClosedForm(base: nat, n: nat)
    ensures (base - 1) * Geometric(base, n) == Power(base, n + 1) - base
  {
    GeometricStep(base, n);
    var g := Geometric(base, n);
    assert (base - 1) * g == base * g - g;
  }

  lemma {:induction false} BackoffTotalBound(cfg: Config, n: nat)
    ensures BackoffTotal(cfg, n) <= Min(Geometric(cfg.base, n), n * cfg.cap)
  {
    if n > 0 {
      BackoffTotalBound(cfg, n - 1);
      assert n * cfg.cap == (n - 1) * cfg.cap + cfg.cap;
    }
  }

  lemma {:induction false} BackoffTotalMonotone(cfg: Config, a: int, b: int)
    requires a <= b
    ensures BackoffTotal(cfg, a) <= BackoffTotal(cfg, b)
    decreases b - a
  {
    if a < b { BackoffTotalMonotone(cfg, a, b - 1); }
  }

  lemma TimesAtLeast(base: nat, p: nat)
    requires base > 0
    ensures base * p >= p
  {
  }

  lemma {:induction false} PowerGrows(base: nat, a: nat, b: nat)
    requires base > 0 && a <= b
    ensures 0 < Power(base, a) <= Power(base, b)
    decreases b
  {
    if a < b {
      PowerGrows(base, a, b - 1);
      TimesAtLeast(base, Power(base, b - 1));
    } else if b > 0 {
      PowerGrows(base, b - 1, b - 1);
      TimesAtLeast(base, Power(base, b - 1));
    }
  }

  lemma MoreTimes(k: int, w: int)
    ensures (k + 1) * w == k * w + w
  {
  }

  /** The total exactly: the powers as long as they stay under the cap, then the cap each time. */
  lemma {:induction false} BackoffTotalClosedForm(cfg: Config, m: nat, n: nat)
    requires cfg.base > 0 && m <= n && (m > 0 ==> Power(cfg.base, m) <= cfg.cap)
             && (m < n ==> Power(cfg.base, m + 1) >= cfg.cap)
    ensures BackoffTotal(cfg, n) == Geometric(cfg.base, m) + (n - m) * cfg.cap
  {
    if n > m {
      BackoffTotalClosedForm(cfg, m, n - 1);
      PowerGrows(cfg.base, m + 1, n);
      MoreTimes(n - 1 - m, cfg.cap);
    } else if n > 0 {
      PowerGrows(cfg.base, n - 1, n);
      BackoffTotalClosedForm(cfg, n - 1, n - 1);
    }
  }

  // ---------------------------------------------------------------- the transactions

  /** SELECT ... WHERE NOT published ORDER BY id FOR UPDATE SKIP LOCKED LIMIT limit, over the ids below `n`. */
  function Unpublished(outbox: map<EventId, bool>, locked: set<EventId>, limit: nat, n: nat): seq<EventId> {
    if n == 0 then []
    else
      var prior := Unpublished(outbox, locked, limit, n - 1);
      var e := n - 1;
      if |prior| < limit && e in outbox && !outbox[e] && e !in locked then prior + [e] else prior
  }

  /** The queue with message `sent[i]` for event `rows[i]` added, visible at once. */
  function Enqueued(live: map<MsgId, Message>, rows: seq<EventId>, sent: seq<MsgId>, now: int): map<MsgId, Message>
    requires |rows| == |sent|
  {
    if rows == [] then live
    else
      var n := |rows| - 1;
      Enqueued(live, rows[..n], sent[..n], now)[sent[n] := Message(rows[n], 0, now)]
  }

  function Published(outbox: map<EventId, bool>, rows: seq<EventId>): map<EventId, bool> {
    map e <- outbox :: outbox[e] || e in rows
  }

  /** The commit of a relay's batch. */
  function PublishTx(db: Db, rows: seq<EventId>, sent: seq<MsgId>, now: int): Db
    requires |rows| == |sent|
  {
    db.(outbox := Published(db.outbox, rows), live := Enqueued(db.live, rows, sent, now))
  }

  predicate IsVisible(db: Db, m: MsgId, now: int) {
    m in db.live && db.live[m].visibleAt <= now
  }

  /** The message a read returns: the visible one of lowest id. */
  predicate IsNext(db: Db, m: MsgId, now: int) {
    IsVisible(db, m, now) && forall k <- db.live :: IsVisible(db, k, now) ==> m <= k
  }

  /** The read bumps the counter and hides the message for the visibility timeout. */
  function ReadTx(cfg: Config, db: Db, m: MsgId, now: int): Db
    requires m in db.live
  {
    db.(live := db.live[m := Message(db.live[m].event, db.live[m].readCt + 1, now + cfg.visibility)])
  }

  /** Archiving a message that is no longer in the queue does nothing. */
  function Archived(db: Db, m: MsgId): Db {
    if m in db.live then db.(live := db.live - {m}, archive := db.archive[m := db.live[m]]) else db
  }

  /** Key, handler effect and archive commit together; on a duplicate only the archive is left to do. */
  function HandleTx(db: Db, m: MsgId, e: EventId, duplicate: bool): Db {
    var handled := if duplicate then db else db.(keys := db.keys + {e}, effects := db.effects + [e]);
    Archived(handled, m)
  }

  /** Dead-letter and archive once the retries are used up, else reschedule. */
  function FailTx(cfg: Config, db: Db, m: MsgId, e: EventId, readCt: nat, now: int): Db {
    if readCt >= cfg.maxRetries then Archived(db.(dlq := db.dlq + [DeadLetter(e, m, readCt)]), m)
    else if m in db.live then db.(live := db.live[m := db.live[m].(visibleAt := now + Backoff(cfg, readCt))])
    else db
  }

  // ---------------------------------------------------------------- the workers, one call at a time

  /** The tables, as the workers' transactions update them. */
  class Database {
    var outbox: map<EventId, bool>
    var nextEvent: EventId
    var live: map<MsgId, Message>
    var archive: map<MsgId, Message>
    var dlq: seq<DeadLetter>
    var keys: set<EventId>
    var effects: seq<EventId>
    var nextMsg: MsgId

    constructor (db: Db, nextEvent: EventId)
      ensures Contents() == db && this.nextEvent == nextEvent
    {
      outbox, live, archive, dlq := db.outbox, db.live, db.archive, db.dlq;
      keys, effects, nextMsg := db.keys, db.effects, db.nextMsg;
      this.nextEvent := nextEvent;
    }

    ghost function Contents(): Db
      reads this
    {
      Db(outbox, live, archive, dlq, keys, effects, nextMsg)
    }

    method Send(event: EventId, now: int) returns (m: MsgId)
      modifies this`live, this`nextMsg
      ensures m == old(nextMsg) && nextMsg == m + 1 && live == old(live)[m := Message(event, 0, now)]
    {
      m := nextMsg;
      live := live[m := Message(event, 0, now)];
      nextMsg := nextMsg + 1;
    }

    method Archive(m: MsgId)
      modifies this`live, this`archive
      ensures Contents() == Archived(old(Contents()), m)
    {
      if m in live {
        archive := archive[m := live[m]];
        live := live - {m};
      }
    }
  }

  function Ids(first: MsgId, n: nat): seq<MsgId> {
    seq(n, i requires 0 <= i => first + i)
  }

  class OutboxRelay {
    const cfg: Config

    constructor (cfg: Config)
      ensures this.cfg == cfg
    {
      this.cfg := cfg;
    }

    method SelectBatch(db: Database) returns (rows: seq<EventId>)
      ensures rows == Unpublished(db.outbox, {}, cfg.batch, db.nextEvent)
    {
      rows := [];
      for e := 0 to db.nextEvent
        invariant rows == Unpublished(db.outbox, {}, cfg.batch, e)
      {
        if |rows| < cfg.batch && e in db.outbox && !db.outbox[e] { rows := rows + [e]; }
      }
    }

    /** One batch: every row is sent and marked in the same transaction. */
    method RunOnce(db: Database, now: int) returns (n: nat)
      modifies db
      ensures var rows := Unpublished(old(db.outbox), {}, cfg.batch, old(db.nextEvent));
              && n == |rows|
              && db.Contents()
                 == PublishTx(old(db.Contents()), rows, Ids(old(db.nextMsg), n), now).(nextMsg := old(db.nextMsg) + n)
              && db.nextEvent == old(db.nextEvent)
    {
      var rows := SelectBatch(db);
      if rows == [] {
        assert Published(db.outbox, rows) == db.outbox;
        return 0;
      }
      ghost var first := db.nextMsg;
      for i := 0 to |rows|
        invariant db.nextMsg == first + i
        invariant db.live == Enqueued(old(db.live), rows[..i], Ids(first, i), now)
        invariant db.Contents() == old(db.Contents()).(live := db.live, nextMsg := db.nextMsg)
        invariant db.nextEvent == old(db.nextEvent)
      {
        var m := db.Send(rows[i], now);
        assert rows[..i + 1][..i] == rows[..i];
        assert Ids(first, i + 1)[..i] == Ids(first, i);
      }
      assert rows[..|rows|] == rows;
      db.outbox := map e <- db.outbox :: db.outbox[e] || e in rows;
      return |rows|;
    }
  }

  /** The outcome of one attempt of the wrapped handler. */
  datatype Attempt = Succeeds | Raises

  class Consumer {
    const cfg: Config

    constructor (cfg: Config)
      ensures this.cfg == cfg
    {
      this.cfg := cfg;
    }

    /** The visible message of lowest id. */
    method FindNext(db: Database, now: int) returns (found: Option<MsgId>)
      requires forall m <- db.live :: m < db.nextMsg
      ensures match found
              case Some(m) => IsNext(db.Contents(), m, now)
              case None => forall m <- db.live :: !IsVisible(db.Contents(), m, now)
    {
      for m := 0 to db.nextMsg
        invariant forall k <- db.live :: k < m ==> !IsVisible(db.Contents(), k, now)
      {
        if m in db.live && db.live[m].visibleAt <= now { return Some(m); }
      }
      return None;
    }

    /** At most one message: read, then handle and archive, or retry or dead-letter; each in its own transaction. */
    method RunOnce(db: Database, attempt: Attempt, now: int) returns (m: Option<MsgId>)
      requires forall k <- db.live :: k < db.nextMsg
      modifies db
      ensures var was := old(db.Contents());
              match m
              case None => db.Contents() == was && forall k <- was.live :: !IsVisible(was, k, now)
              case Some(id) =>
                && IsNext(was, id, now)
                && var e, read := was.live[id].event, ReadTx(cfg, was, id, now);
                   db.Contents() == if e in was.keys || attempt == Succeeds then HandleTx(read, id, e, e in was.keys)
                                    else FailTx(cfg, read, id, e, read.live[id].readCt, now)
      ensures db.nextEvent == old(db.nextEvent)
    {
      m := FindNext(db, now);
      if m.None? { return; }
      var id := m.value;
      var message := Message(db.live[id].event, db.live[id].readCt + 1, now + cfg.visibility);
      db.live := db.live[id := message];
      if message.event in db.keys {
        db.Archive(id);
      } else if attempt == Succeeds {
        db.keys := db.keys + {message.event};
        db.effects := db.effects + [message.event];
        db.Archive(id);
      } else if message.readCt >= cfg.maxRetries {
        db.dlq := db.dlq + [DeadLetter(message.event, id, message.readCt)];
        db.Archive(id);
      } else {
        db.live := db.live[id := message.(visibleAt := now + Backoff(cfg, message.readCt))];
      }
    }
  }
}
