/**
 Any number of order-ingest transactions among other business transactions.

 A worker plans a line from an unlocked read.  By the time it holds a row's lock the plan
 may be stale; the movement is judged on the locked row, and one refusal rejects the order.
 */
module OrderWorkers {
  import opened Results
  import opened Inventory
  import O = OrderIngest
  import I = Interleaving

  /** The line being reserved: what is still wanted, and the planned rows not yet visited. */
  datatype Alloc = Alloc(variant: VariantId, remaining: int, plan: seq<O.Slot>)

  datatype Phase = Reserving(line: nat, alloc: Option<Alloc>) | Settling(status: O.Status)

  datatype Worker = Worker(channel: O.ChannelId, order: O.Order, phase: Phase)

  /**
   The hub, the committed order table, the deliveries in flight with their transactions, and the committed rows of
   every other transaction.
   */
  datatype State = State(hub: I.Hub, orders: seq<O.OrderRow>, workers: map<I.TxId, Worker>, others: seq<I.Entry>)

  const START := State(I.EMPTY_HUB, [], map[], [])

  datatype Step =
    | Receive(t: I.TxId, channel: O.ChannelId, order: O.Order)
    | PlanLine(t: I.TxId)
    | SkipSlot(t: I.TxId)
    | LockSlot(t: I.TxId)
    | TakeSlot(t: I.TxId)
    | EndLine(t: I.TxId)
    | Reject(t: I.TxId)
    | Accept(t: I.TxId)
    | CommitOrder(t: I.TxId)
    | Crash(t: I.TxId)
    | Other(step: I.Step)

  // ---------------------------------------------------------------- the steps

  /** A step of another transaction or of the relay; its movements carry any reference the caller likes. */
  predicate Foreign(s: State, step: I.Step) {
    match step
    case SelectBatch(_, _) => true
    case Publish => true
    case RelayCrash => true
    case _ => step.t !in s.workers
  }

  predicate InFlight(s: State, channel: O.ChannelId, id: O.OrderId) {
    exists t <- s.workers :: s.workers[t].channel == channel && s.workers[t].order.id == id
  }

  /** The rows a worker's unlocked read sees. */
  function Visible(h: I.Hub, t: I.TxId): map<Row, Level>
    requires t in h.txs
  {
    h.levels + h.txs[t].work.levels
  }

  predicate Working(s: State, t: I.TxId) {
    t in s.workers && t in s.hub.txs && s.workers[t].phase.Reserving?
  }

  /** The worker looks at the next planned row and still wants units. */
  predicate AtSlot(s: State, t: I.TxId) {
    && Working(s, t) && s.workers[t].phase.alloc.Some?
    && s.workers[t].phase.alloc.value.plan != [] && s.workers[t].phase.alloc.value.remaining != 0
  }

  function SlotTake(s: State, t: I.TxId): int
    requires AtSlot(s, t)
  {
    var a := s.workers[t].phase.alloc.value;
    Min(a.plan[0].available, a.remaining)
  }

  function SlotRow(s: State, t: I.TxId): Row
    requires AtSlot(s, t)
  {
    var a := s.workers[t].phase.alloc.value;
    Row(a.variant, a.plan[0].warehouse)
  }

  function TakeStep(s: State, t: I.TxId): I.Step
    requires AtSlot(s, t)
  {
    I.Post(t, SlotRow(s, t), Reserve, SlotTake(s, t), Some(O.Tag(s.workers[t].order.id)))
  }

  predicate LineOver(s: State, t: I.TxId) {
    && Working(s, t) && s.workers[t].phase.alloc.Some?
    && (s.workers[t].phase.alloc.value.plan == [] || s.workers[t].phase.alloc.value.remaining == 0)
  }

  /** An unknown SKU, a refusal under the lock, or a short line. */
  predicate Fails(cat: Catalog, s: State, t: I.TxId) {
    && Working(s, t)
    && var w := s.workers[t];
       || (w.phase.alloc.None? && w.phase.line < |w.order.lines| && w.order.lines[w.phase.line].sku !in cat.skus)
       || (AtSlot(s, t) && SlotTake(s, t) > 0 && SlotRow(s, t) in s.hub.txs[t].work.locks
           && !I.Enabled(s.hub, TakeStep(s, t)))
       || (LineOver(s, t) && w.phase.alloc.value.remaining > 0)
  }

  predicate Enabled(cat: Catalog, s: State, step: Step) {
    match step
    case Receive(t, channel, order) =>
      t !in s.hub.txs && !O.OnRecord(s.orders, channel, order.id) && !InFlight(s, channel, order.id)
    case PlanLine(t) =>
      && Working(s, t)
      && var w := s.workers[t];
         w.phase.alloc.None? && w.phase.line < |w.order.lines| && w.order.lines[w.phase.line].sku in cat.skus
    case SkipSlot(t) => AtSlot(s, t) && SlotTake(s, t) <= 0
    case LockSlot(t) => AtSlot(s, t) && SlotTake(s, t) > 0 && I.Enabled(s.hub, I.Lock(t, SlotRow(s, t)))
    case TakeSlot(t) => AtSlot(s, t) && SlotTake(s, t) > 0 && I.Enabled(s.hub, TakeStep(s, t))
    case EndLine(t) => LineOver(s, t) && s.workers[t].phase.alloc.value.remaining <= 0
    case Reject(t) => Fails(cat, s, t) && s.hub.txs[t].savepoints != []
    case Accept(t) =>
      && Working(s, t) && s.workers[t].phase.alloc.None? && s.workers[t].phase.line == |s.workers[t].order.lines|
      && s.hub.txs[t].savepoints != []
    case CommitOrder(t) => t in s.workers && t in s.hub.txs && s.workers[t].phase.Settling?
    case Crash(t) => t in s.workers && t in s.hub.txs
    case Other(step) => Foreign(s, step) && I.Enabled(s.hub, step)
  }

  function WithPhase(s: State, t: I.TxId, phase: Phase): State
    requires t in s.workers
  {
    s.(workers := s.workers[t := s.workers[t].(phase := phase)])
  }

  function Next(cat: Catalog, s: State, step: Step): State
    requires Enabled(cat, s, step)
  {
    match step
    case Receive(t, channel, order) =>
      var hub := I.Next(I.Next(s.hub, I.Begin(t)), I.Savepoint(t));
      s.(hub := hub, workers := s.workers[t := Worker(channel, order, Reserving(0, None))])
    case PlanLine(t) =>
      var w := s.workers[t];
      var v := cat.skus[w.order.lines[w.phase.line].sku];
      var plan := O.Planned(Visible(s.hub, t), v, O.Online(cat.warehouses));
      WithPhase(s, t, Reserving(w.phase.line, Some(Alloc(v, w.order.lines[w.phase.line].qty, plan))))
    case SkipSlot(t) =>
      var a := s.workers[t].phase.alloc.value;
      WithPhase(s, t, Reserving(s.workers[t].phase.line, Some(a.(plan := a.plan[1..]))))
    case LockSlot(t) => s.(hub := I.Next(s.hub, I.Lock(t, SlotRow(s, t))))
    case TakeSlot(t) =>
      var a := s.workers[t].phase.alloc.value;
      WithPhase(s.(hub := I.Next(s.hub, TakeStep(s, t))), t,
                Reserving(s.workers[t].phase.line,
                  Some(a.(plan := a.plan[1..], remaining := a.remaining - SlotTake(s, t)))))
    case EndLine(t) => WithPhase(s, t, Reserving(s.workers[t].phase.line + 1, None))
    case Reject(t) => WithPhase(s.(hub := I.Next(s.hub, I.RollbackTo(t))), t, Settling(O.Rejected))
    case Accept(t) => WithPhase(s.(hub := I.Next(s.hub, I.Release(t))), t, Settling(O.Reserved))
    case CommitOrder(t) =>
      var w := s.workers[t];
      s.(hub := I.Next(s.hub, I.Commit(t)), orders := s.orders + [O.OrderRow(w.channel, w.order, w.phase.status)],
         workers := s.workers - {t})
    case Crash(t) => s.(hub := I.Next(s.hub, I.Abort(t)), workers := s.workers - {t})
    case Other(step) =>
      s.(hub := I.Next(s.hub, step), others := if step.Commit? then s.others + s.hub.txs[step.t].work.log else s.others)
  }

  function Run(cat: Catalog, steps: seq<Step>): Option<State> {
    if steps == [] then Some(START)
    else
      var before := Run(cat, steps[..|steps| - 1]);
      if before.Some? && Enabled(cat, before.value, steps[|steps| - 1])
      then Some(Next(cat, before.value, steps[|steps| - 1]))
      else None
  }

  // ---------------------------------------------------------------- units booked in a log

  function Units(log: seq<I.Entry>, tag: string, v: VariantId): int {
    if log == [] then 0
    else
      var b := log[|log| - 1].body;
      Units(log[..|log| - 1], tag, v) + if b.Moved? && b.reference == Some(tag) && b.row.variant == v then b.qty else 0
  }

  lemma {:induction false} UnitsConcat(a: seq<I.Entry>, b: seq<I.Entry>, tag: string, v: VariantId)
    ensures Units(a + b, tag, v) == Units(a, tag, v) + Units(b, tag, v)
  {
    if b == [] {
      assert a + b == a;
    } else {
      assert (a + b)[..|a + b| - 1] == a + b[..|b| - 1];
      UnitsConcat(a, b[..|b| - 1], tag, v);
    }
  }

  lemma {:induction false} NoUnits(log: seq<I.Entry>, tag: string, v: VariantId)
    requires forall e <- log :: e.body.Moved? ==> e.body.reference != Some(tag)
    ensures Units(log, tag, v) == 0
  {
    if log != [] {
      assert log[|log| - 1] in log;
      NoUnits(log[..|log| - 1], tag, v);
    }
  }

  lemma {:induction false} UnitsAreTagged(log: seq<I.Entry>, tag: string, v: VariantId)
    ensures O.Tagged(I.JournalOf(log), tag, v) == Units(log, tag, v)
  {
    if log != [] {
      var e, prior := log[|log| - 1], log[..|log| - 1];
      UnitsAreTagged(prior, tag, v);
      var js := I.JournalOf(log);
      if e.body.Moved? {
        assert js[..|js| - 1] == I.JournalOf(prior);
      } else {
        assert js == I.JournalOf(prior);
      }
    }
  }

  // ---------------------------------------------------------------- the invariant

  /** A worker's log holds only its own positive reservations, in online warehouses. */
  ghost predicate OwnEntries(cat: Catalog, log: seq<I.Entry>, id: O.OrderId) {
    forall e <- log ::
      && e.body.Moved? && e.body.kind == Reserve && e.body.qty > 0
      && e.body.reference == Some(O.Tag(id))
      && e.body.row.warehouse in O.Online(cat.warehouses)
  }

  ghost predicate AllocOk(cat: Catalog, order: O.Order, line: nat, a: Alloc) {
    && line < |order.lines| && order.lines[line].sku in cat.skus && cat.skus[order.lines[line].sku] == a.variant
    && (forall slot <- a.plan :: slot.warehouse in O.Online(cat.warehouses))
    && (if order.lines[line].qty <= 0 then a.remaining == order.lines[line].qty
        else 0 <= a.remaining <= order.lines[line].qty)
  }

  /** What a worker has booked so far: the finished lines, and the part taken of the current one. */
  function BookedSoFar(cat: Catalog, w: Worker, v: VariantId): int
    requires w.phase.Reserving? && w.phase.line <= |w.order.lines|
    requires w.phase.alloc.Some? ==> w.phase.line < |w.order.lines|
  {
    O.Need(cat, w.order.lines[..w.phase.line], v)
      + if w.phase.alloc.Some? && w.phase.alloc.value.variant == v
        then w.order.lines[w.phase.line].qty - w.phase.alloc.value.remaining else 0
  }

  ghost predicate WorkerOk(cat: Catalog, w: Worker, tx: I.Tx) {
    && OwnEntries(cat, tx.work.log, w.order.id)
    && match w.phase
       case Reserving(line, alloc) =>
         && line <= |w.order.lines| && O.AllKnown(cat, w.order.lines[..line])
         && (alloc.Some? ==> AllocOk(cat, w.order, line, alloc.value))
         && tx.savepoints == [I.NO_WORK]
         && forall v :: Units(tx.work.log, O.Tag(w.order.id), v) == BookedSoFar(cat, w, v)
       case Settling(status) =>
         && tx.savepoints == [] && status != O.Received
         && (status == O.Rejected ==> tx.work.log == [])
         && (status == O.Reserved ==>
               O.AllKnown(cat, w.order.lines) &&
               forall v :: Units(tx.work.log, O.Tag(w.order.id), v) == O.Need(cat, w.order.lines, v))
  }

  ghost predicate WorkersOk(cat: Catalog, s: State) {
    forall t <- s.workers :: t in s.hub.txs && WorkerOk(cat, s.workers[t], s.hub.txs[t])
  }

  ghost predicate KeysOk(s: State) {
    && (forall i, j :: 0 <= i < j < |s.orders| ==>
          s.orders[i].channel != s.orders[j].channel || s.orders[i].order.id != s.orders[j].order.id)
    && (forall t <- s.workers :: !O.OnRecord(s.orders, s.workers[t].channel, s.workers[t].order.id))
    && (forall t <- s.workers, u <- s.workers :: t != u ==>
          s.workers[t].channel != s.workers[u].channel || s.workers[t].order.id != s.workers[u].order.id)
  }

  /** A committed row of a delivery: a positive reservation in an online warehouse. */
  predicate IsDelivery(cat: Catalog, e: I.Entry) {
    e.body.Moved? && e.body.kind == Reserve && e.body.qty > 0 && e.body.row.warehouse in O.Online(cat.warehouses)
  }

  /** The committed journal books exactly the committed reserved orders, beside what other transactions book. */
  ghost predicate BooksOk(cat: Catalog, s: State) {
    && (forall id, v ::
          Units(s.hub.log, O.Tag(id), v) == O.Promised(cat, s.orders, id, v) + Units(s.others, O.Tag(id), v))
    && (forall e <- s.hub.log :: e in s.others || IsDelivery(cat, e))
    && (forall row <- s.orders :: row.status != O.Received)
  }

  ghost predicate Local(cat: Catalog, s: State) {
    WorkersOk(cat, s) && KeysOk(s) && BooksOk(cat, s)
  }

  ghost predicate Inv(cat: Catalog, s: State) {
    I.Inv(s.hub) && Local(cat, s)
  }

  // ---------------------------------------------------------------- the steps keep it

  /** A step of one worker that leaves the committed tables and the other transactions alone. */
  lemma OneWorkerStep(cat: Catalog, s: State, s': State, t: I.TxId)
    requires Local(cat, s) && t in s.workers && t in s.hub.txs
    requires s'.orders == s.orders && s'.others == s.others && s'.hub.log == s.hub.log
    requires s'.workers.Keys == s.workers.Keys && s'.hub.txs.Keys == s.hub.txs.Keys
    requires s'.workers[t].order == s.workers[t].order && s'.workers[t].channel == s.workers[t].channel
    requires forall u <- s.workers :: u != t ==> s'.workers[u] == s.workers[u]
    requires forall u <- s.hub.txs :: u != t ==> s'.hub.txs[u] == s.hub.txs[u]
    requires WorkerOk(cat, s'.workers[t], s'.hub.txs[t])
    ensures Local(cat, s')
  {
    forall u <- s'.workers ensures WorkerOk(cat, s'.workers[u], s'.hub.txs[u]) {
      if u != t { assert WorkerOk(cat, s.workers[u], s.hub.txs[u]); }
    }
  }

  lemma PlannedOnline(levels: map<Row, Level>, v: VariantId, ws: seq<WarehouseId>)
    ensures forall slot <- O.Planned(levels, v, ws) :: slot.warehouse in ws
  {
  }

  lemma PlanKeepsLocal(cat: Catalog, s: State, t: I.TxId)
    requires Local(cat, s) && Enabled(cat, s, PlanLine(t))
    ensures Local(cat, Next(cat, s, PlanLine(t)))
  {
    var s' := Next(cat, s, PlanLine(t));
    var w := s.workers[t];
    PlannedOnline(Visible(s.hub, t), cat.skus[w.order.lines[w.phase.line].sku], O.Online(cat.warehouses));
    assert forall v :: BookedSoFar(cat, s'.workers[t], v) == BookedSoFar(cat, w, v);
    OneWorkerStep(cat, s, s', t);
  }

  lemma SkipKeepsLocal(cat: Catalog, s: State, t: I.TxId)
    requires Local(cat, s) && Enabled(cat, s, SkipSlot(t))
    ensures Local(cat, Next(cat, s, SkipSlot(t)))
  {
    var s' := Next(cat, s, SkipSlot(t));
    assert forall v :: BookedSoFar(cat, s'.workers[t], v) == BookedSoFar(cat, s.workers[t], v);
    OneWorkerStep(cat, s, s', t);
  }

  lemma LockKeepsLocal(cat: Catalog, s: State, t: I.TxId)
    requires Local(cat, s) && Enabled(cat, s, LockSlot(t))
    ensures Local(cat, Next(cat, s, LockSlot(t)))
  {
    OneWorkerStep(cat, s, Next(cat, s, LockSlot(t)), t);
  }

  lemma TakeKeepsLocal(cat: Catalog, s: State, t: I.TxId)
    requires Local(cat, s) && Enabled(cat, s, TakeSlot(t))
    ensures Local(cat, Next(cat, s, TakeSlot(t)))
  {
    var s' := Next(cat, s, TakeSlot(t));
    var w, w', log, log' := s.workers[t], s'.workers[t], s.hub.txs[t].work.log, s'.hub.txs[t].work.log;
    var a, tag := w.phase.alloc.value, O.Tag(w.order.id);
    assert log'[..|log|] == log;
    assert a.plan[0] in a.plan;
    forall v ensures Units(log', tag, v) == BookedSoFar(cat, w', v) {
      assert Units(log, tag, v) == BookedSoFar(cat, w, v);
    }
    OneWorkerStep(cat, s, s', t);
  }

  lemma EndLineKeepsLocal(cat: Catalog, s: State, t: I.TxId)
    requires Local(cat, s) && Enabled(cat, s, EndLine(t))
    ensures Local(cat, Next(cat, s, EndLine(t)))
  {
    var s' := Next(cat, s, EndLine(t));
    var w, w' := s.workers[t], s'.workers[t];
    var line, lines := w.phase.line, w.order.lines;
    assert lines[..line + 1] == lines[..line] + [lines[line]];
    forall v ensures BookedSoFar(cat, w', v) == BookedSoFar(cat, w, v) {
      O.NeedConcat(cat, lines[..line], [lines[line]], v);
    }
    OneWorkerStep(cat, s, s', t);
  }

  lemma AcceptKeepsLocal(cat: Catalog, s: State, t: I.TxId)
    requires Local(cat, s) && Enabled(cat, s, Accept(t))
    ensures Local(cat, Next(cat, s, Accept(t)))
  {
    var w := s.workers[t];
    assert WorkerOk(cat, w, s.hub.txs[t]);
    assert w.order.lines[..|w.order.lines|] == w.order.lines;
    assert forall v :: Units(s.hub.txs[t].work.log, O.Tag(w.order.id), v) == BookedSoFar(cat, w, v);
    OneWorkerStep(cat, s, Next(cat, s, Accept(t)), t);
  }

  lemma RejectKeepsLocal(cat: Catalog, s: State, t: I.TxId)
    requires Local(cat, s) && Enabled(cat, s, Reject(t))
    ensures Local(cat, Next(cat, s, Reject(t)))
  {
    assert WorkerOk(cat, s.workers[t], s.hub.txs[t]);
    OneWorkerStep(cat, s, Next(cat, s, Reject(t)), t);
  }

  lemma ReceiveKeepsLocal(cat: Catalog, s: State, t: I.TxId, channel: O.ChannelId, order: O.Order)
    requires Local(cat, s) && Enabled(cat, s, Receive(t, channel, order))
    ensures Local(cat, Next(cat, s, Receive(t, channel, order)))
  {
    var s' := Next(cat, s, Receive(t, channel, order));
    assert order.lines[..0] == [];
    forall u <- s'.workers ensures WorkerOk(cat, s'.workers[u], s'.hub.txs[u]) {
      if u != t { assert WorkerOk(cat, s.workers[u], s.hub.txs[u]); }
    }
  }

  lemma CrashKeepsLocal(cat: Catalog, s: State, t: I.TxId)
    requires Local(cat, s) && Enabled(cat, s, Crash(t))
    ensures Local(cat, Next(cat, s, Crash(t)))
  {
    var s' := Next(cat, s, Crash(t));
    forall u <- s'.workers ensures WorkerOk(cat, s'.workers[u], s'.hub.txs[u]) {
      assert WorkerOk(cat, s.workers[u], s.hub.txs[u]);
    }
  }

  lemma CommitBooksUnits(cat: Catalog, s: State, t: I.TxId, id: O.OrderId, v: VariantId)
    requires Local(cat, s) && Enabled(cat, s, CommitOrder(t))
    ensures var w := s.workers[t];
            Units(s.hub.txs[t].work.log, O.Tag(id), v)
            == if id == w.order.id && w.phase.status == O.Reserved then O.Need(cat, w.order.lines, v) else 0
  {
    var w, log := s.workers[t], s.hub.txs[t].work.log;
    assert WorkerOk(cat, w, s.hub.txs[t]);
    if id != w.order.id {
      if O.Tag(id) == O.Tag(w.order.id) { O.TagsDiffer(id, w.order.id); }
      NoUnits(log, O.Tag(id), v);
    }
  }

  lemma CommitBooks(cat: Catalog, s: State, t: I.TxId)
    requires Local(cat, s) && Enabled(cat, s, CommitOrder(t))
    ensures BooksOk(cat, Next(cat, s, CommitOrder(t)))
  {
    var s' := Next(cat, s, CommitOrder(t));
    CommitBooksOnline(cat, s, t);
    forall id, v
      ensures Units(s'.hub.log, O.Tag(id), v) == O.Promised(cat, s'.orders, id, v) + Units(s'.others, O.Tag(id), v)
    {
      CommitBooksPromised(cat, s, t, id, v);
    }
  }

  lemma CommitBooksPromised(cat: Catalog, s: State, t: I.TxId, id: O.OrderId, v: VariantId)
    requires Local(cat, s) && Enabled(cat, s, CommitOrder(t))
    ensures var s' := Next(cat, s, CommitOrder(t));
            Units(s'.hub.log, O.Tag(id), v) == O.Promised(cat, s'.orders, id, v) + Units(s'.others, O.Tag(id), v)
  {
    var s' := Next(cat, s, CommitOrder(t));
    assert s'.orders[..|s.orders|] == s.orders;
    UnitsConcat(s.hub.log, s.hub.txs[t].work.log, O.Tag(id), v);
    CommitBooksUnits(cat, s, t, id, v);
  }

  lemma CommitBooksOnline(cat: Catalog, s: State, t: I.TxId)
    requires WorkersOk(cat, s) && BooksOk(cat, s) && Enabled(cat, s, CommitOrder(t))
    ensures var s' := Next(cat, s, CommitOrder(t));
            && (forall e <- s'.hub.log :: e in s'.others || IsDelivery(cat, e))
            && (forall row <- s'.orders :: row.status != O.Received)
  {
    assert WorkerOk(cat, s.workers[t], s.hub.txs[t]);
  }

  lemma CommitKeys(cat: Catalog, s: State, t: I.TxId)
    requires Local(cat, s) && Enabled(cat, s, CommitOrder(t))
    ensures KeysOk(Next(cat, s, CommitOrder(t)))
  {
    var s' := Next(cat, s, CommitOrder(t));
    forall u <- s'.workers ensures !O.OnRecord(s'.orders, s'.workers[u].channel, s'.workers[u].order.id) {
      assert !O.OnRecord(s.orders, s.workers[u].channel, s.workers[u].order.id);
    }
    assert !O.OnRecord(s.orders, s.workers[t].channel, s.workers[t].order.id);
  }

  lemma CommitKeepsLocal(cat: Catalog, s: State, t: I.TxId)
    requires Local(cat, s) && Enabled(cat, s, CommitOrder(t))
    ensures Local(cat, Next(cat, s, CommitOrder(t)))
  {
    var s' := Next(cat, s, CommitOrder(t));
    CommitBooks(cat, s, t);
    CommitKeys(cat, s, t);
    forall u <- s'.workers ensures WorkerOk(cat, s'.workers[u], s'.hub.txs[u]) {
      assert WorkerOk(cat, s.workers[u], s.hub.txs[u]);
    }
  }

  /** Steps of other transactions and of the relay touch no worker, and commit only their own rows. */
  lemma ForeignTxs(cat: Catalog, s: State, step: I.Step)
    requires WorkersOk(cat, s) && Enabled(cat, s, Other(step))
    ensures forall u <- s.workers :: u in I.Next(s.hub, step).txs && I.Next(s.hub, step).txs[u] == s.hub.txs[u]
  {
  }

  lemma ForeignLog(cat: Catalog, s: State, step: I.Step)
    requires Enabled(cat, s, Other(step))
    ensures var s' := Next(cat, s, Other(step));
            var more := if step.Commit? then s.hub.txs[step.t].work.log else [];
            s'.hub.log == s.hub.log + more && s'.others == s.others + more
  {
  }

  lemma OtherKeepsLocal(cat: Catalog, s: State, step: I.Step)
    requires Local(cat, s) && Enabled(cat, s, Other(step))
    ensures Local(cat, Next(cat, s, Other(step)))
  {
    var s' := Next(cat, s, Other(step));
    ForeignTxs(cat, s, step);
    ForeignLog(cat, s, step);
    forall u <- s'.workers ensures WorkerOk(cat, s'.workers[u], s'.hub.txs[u]) {
      assert WorkerOk(cat, s.workers[u], s.hub.txs[u]);
    }
    var more := if step.Commit? then s.hub.txs[step.t].work.log else [];
    forall id, v
      ensures Units(s'.hub.log, O.Tag(id), v) == O.Promised(cat, s'.orders, id, v) + Units(s'.others, O.Tag(id), v)
    {
      UnitsConcat(s.hub.log, more, O.Tag(id), v);
      UnitsConcat(s.others, more, O.Tag(id), v);
    }
  }

  /** Every step is one or two steps of the hub, or none. */
  lemma HubKeepsInv(cat: Catalog, s: State, step: Step)
    requires I.Inv(s.hub) && Enabled(cat, s, step)
    ensures I.Inv(Next(cat, s, step).hub)
  {
    match step
    case Receive(t, channel, order) =>
      I.NextKeepsInv(s.hub, I.Begin(t));
      I.NextKeepsInv(I.Next(s.hub, I.Begin(t)), I.Savepoint(t));
    case LockSlot(t) => I.NextKeepsInv(s.hub, I.Lock(t, SlotRow(s, t)));
    case TakeSlot(t) => I.NextKeepsInv(s.hub, TakeStep(s, t));
    case Reject(t) => I.NextKeepsInv(s.hub, I.RollbackTo(t));
    case Accept(t) => I.NextKeepsInv(s.hub, I.Release(t));
    case CommitOrder(t) => I.NextKeepsInv(s.hub, I.Commit(t));
    case Crash(t) => I.NextKeepsInv(s.hub, I.Abort(t));
    case Other(step) => I.NextKeepsInv(s.hub, step);
    case _ =>
  }

  lemma NextKeepsInv(cat: Catalog, s: State, step: Step)
    requires Inv(cat, s) && Enabled(cat, s, step)
    ensures Inv(cat, Next(cat, s, step))
  {
    HubKeepsInv(cat, s, step);
    NextKeepsLocal(cat, s, step);
  }

  /** The steps within one line. */
  predicate OnLine(step: Step) {
    step.PlanLine? || step.SkipSlot? || step.LockSlot? || step.TakeSlot? || step.EndLine?
  }

  lemma LineKeepsLocal(cat: Catalog, s: State, step: Step)
    requires Local(cat, s) && Enabled(cat, s, step) && OnLine(step)
    ensures Local(cat, Next(cat, s, step))
  {
    match step
    case PlanLine(t) => PlanKeepsLocal(cat, s, t);
    case SkipSlot(t) => SkipKeepsLocal(cat, s, t);
    case LockSlot(t) => LockKeepsLocal(cat, s, t);
    case TakeSlot(t) => TakeKeepsLocal(cat, s, t);
    case EndLine(t) => EndLineKeepsLocal(cat, s, t);
  }

  lemma NextKeepsLocal(cat: Catalog, s: State, step: Step)
    requires Local(cat, s) && Enabled(cat, s, step)
    ensures Local(cat, Next(cat, s, step))
  {
    if OnLine(step) {
      LineKeepsLocal(cat, s, step);
    } else {
      match step
      case Receive(t, channel, order) => ReceiveKeepsLocal(cat, s, t, channel, order);
      case Reject(t) => RejectKeepsLocal(cat, s, t);
      case Accept(t) => AcceptKeepsLocal(cat, s, t);
      case CommitOrder(t) => CommitKeepsLocal(cat, s, t);
      case Crash(t) => CrashKeepsLocal(cat, s, t);
      case Other(step) => OtherKeepsLocal(cat, s, step);
    }
  }

  lemma {:induction false} RunKeepsInv(cat: Catalog, steps: seq<Step>)
    ensures Run(cat, steps).Some? ==> Inv(cat, Run(cat, steps).value)
  {
    if steps == [] {
      I.EmptyHubInv();
    } else {
      RunKeepsInv(cat, steps[..|steps| - 1]);
      if Run(cat, steps).Some? {
        NextKeepsInv(cat, Run(cat, steps[..|steps| - 1]).value, steps[|steps| - 1]);
      }
    }
  }

  // ---------------------------------------------------------------- what every interleaving guarantees

  /**
   However stale the plans and however the transactions interleave: nothing is oversold, a delivery is on
   record at most once, and deliveries book exactly the reserved orders, in online warehouses only.  The units
   under an order's reference are those of the order and those other transactions booked under the same one.
   */
  lemma StalePlansNeverOversell(cat: Catalog, steps: seq<Step>)
    requires Run(cat, steps).Some?
    ensures var s := Run(cat, steps).value;
            && I.NothingOversold(s.hub)
            && (forall i, j :: 0 <= i < j < |s.orders| ==>
                  s.orders[i].channel != s.orders[j].channel || s.orders[i].order.id != s.orders[j].order.id)
            && (forall id, v :: O.Tagged(I.JournalOf(s.hub.log), O.Tag(id), v)
                                == O.Promised(cat, s.orders, id, v) + O.Tagged(I.JournalOf(s.others), O.Tag(id), v))
            && (forall e <- s.hub.log :: e in s.others || IsDelivery(cat, e))
  {
    var s := Run(cat, steps).value;
    RunKeepsInv(cat, steps);
    I.InvForbidsOversell(s.hub);
    forall id, v
      ensures O.Tagged(I.JournalOf(s.hub.log), O.Tag(id), v)
              == O.Promised(cat, s.orders, id, v) + O.Tagged(I.JournalOf(s.others), O.Tag(id), v)
    {
      UnitsAreTagged(s.hub.log, O.Tag(id), v);
      UnitsAreTagged(s.others, O.Tag(id), v);
    }
  }

  /** All deliveries are of one channel. */
  predicate FromChannel(step: Step, channel: O.ChannelId) {
    step.Receive? ==> step.channel == channel
  }

  ghost predicate ChannelOnly(s: State, channel: O.ChannelId) {
    && (forall row <- s.orders :: row.channel == channel)
    && (forall t <- s.workers :: s.workers[t].channel == channel)
  }

  lemma {:induction false} OneChannelRuns(cat: Catalog, steps: seq<Step>, channel: O.ChannelId)
    requires Run(cat, steps).Some? && forall step <- steps :: FromChannel(step, channel)
    ensures ChannelOnly(Run(cat, steps).value, channel)
  {
    if steps != [] {
      var n := |steps| - 1;
      assert steps[n] in steps && forall step <- steps[..n] :: step in steps;
      OneChannelRuns(cat, steps[..n], channel);
    }
  }

  /**
   With deliveries of one channel, in any interleaving, a reserved order is booked in full and a rejected one not at
   all.
   */
  lemma OneChannelBooksEachOrder(cat: Catalog, steps: seq<Step>, channel: O.ChannelId, k: nat, v: VariantId)
    requires Run(cat, steps).Some? && forall step <- steps :: FromChannel(step, channel)
    requires k < |Run(cat, steps).value.orders|
    ensures var s := Run(cat, steps).value;
            var row := s.orders[k];
            O.Tagged(I.JournalOf(s.hub.log), O.Tag(row.order.id), v)
            == (if row.status == O.Reserved then O.Need(cat, row.order.lines, v) else 0)
               + O.Tagged(I.JournalOf(s.others), O.Tag(row.order.id), v)
  {
    var s := Run(cat, steps).value;
    StalePlansNeverOversell(cat, steps);
    OneChannelRuns(cat, steps, channel);
    forall i | 0 <= i < |s.orders| && i != k ensures s.orders[i].order.id != s.orders[k].order.id {
      assert s.orders[i] in s.orders && s.orders[k] in s.orders;
    }
    O.PromisedByOneRow(cat, s.orders, k, v);
  }

  lemma RejectedCommit(cat: Catalog, s: State, t: I.TxId)
    requires I.TxsOk(s.hub) && WorkersOk(cat, s) && Enabled(cat, s, CommitOrder(t))
    requires s.workers[t].phase.status == O.Rejected
    ensures Next(cat, s, CommitOrder(t)).hub.levels == s.hub.levels
    ensures Next(cat, s, CommitOrder(t)).hub.log == s.hub.log
  {
    assert WorkerOk(cat, s.workers[t], s.hub.txs[t]);
    I.EmptyLogWritesNothing(s.hub, t);
  }

  /** The commit of a rejected order changes no level and adds nothing to journal or outbox. */
  lemma RejectedOrderLeavesNoTrace(cat: Catalog, steps: seq<Step>, t: I.TxId)
    requires Run(cat, steps).Some? && Enabled(cat, Run(cat, steps).value, CommitOrder(t))
    requires Run(cat, steps).value.workers[t].phase.status == O.Rejected
    ensures var s := Run(cat, steps).value;
            var s' := Next(cat, s, CommitOrder(t));
            s'.hub.levels == s.hub.levels && s'.hub.log == s.hub.log
  {
    RunKeepsInv(cat, steps);
    RejectedCommit(cat, Run(cat, steps).value, t);
  }
}
