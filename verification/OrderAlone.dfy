/**
 What a delivery's worker does step by step, against the ingest done in one go.

 Whatever others commit in between, each step of a worker leaves what the rest of the reservation would
 come to on the tables it sees.  So a worker that is left alone does exactly what the ingest does; and the
 order table is made of the deliveries that committed, with the verdict of each.
 */
module OrderAlone {
  import opened Results
  import opened Inventory
  import opened OrderWorkers
  import O = OrderIngest
  import I = Interleaving

  // ---------------------------------------------------------------- the tables a worker sees

  /** The movement events of a log, in its order. */
  function EventsOf(log: seq<I.Entry>): seq<Event> {
    if log == [] then []
    else
      var e := log[|log| - 1];
      EventsOf(log[..|log| - 1])
        + if e.body.Moved? then [MovementApplied(e.body.row, e.body.kind, e.body.qty, e.body.level)] else []
  }

  function TablesOf(levels: map<Row, Level>, log: seq<I.Entry>): Store {
    Store(levels, I.JournalOf(log), EventsOf(log))
  }

  /** The committed tables together with the transaction's own work. */
  function SeenBy(h: I.Hub, t: I.TxId): Store
    requires t in h.txs
  {
    TablesOf(Visible(h, t), h.log + h.txs[t].work.log)
  }

  function Seen(s: State, t: I.TxId): Store
    requires t in s.hub.txs
  {
    SeenBy(s.hub, t)
  }

  /** The committed tables, as the ingest in one go has them. */
  function Sequential(s: State): O.Hub {
    O.Hub(TablesOf(s.hub.levels, s.hub.log), s.orders)
  }

  predicate InLines(w: Worker) {
    && w.phase.Reserving? && w.phase.line <= |w.order.lines|
    && (w.phase.alloc.Some? ==> w.phase.line < |w.order.lines|)
  }

  /** What the rest of a worker's reservation comes to on these tables. */
  function RestOf(cat: Catalog, store: Store, w: Worker): Result<Store>
    requires cat.Valid() && InLines(w)
  {
    var tag := O.Tag(w.order.id);
    match w.phase.alloc
    case None => O.ReserveLines(cat, store, w.order.lines[w.phase.line..], tag)
    case Some(a) =>
      match O.TakePlanned(cat, store, a.variant, a.plan, a.remaining, tag)
      case Err(e) => Err(e)
      case Ok((s, remaining)) =>
        if remaining > 0 then Err(Conflict) else O.ReserveLines(cat, s, w.order.lines[w.phase.line + 1..], tag)
  }

  function Rest(cat: Catalog, s: State, t: I.TxId): Result<Store>
    requires cat.Valid() && t in s.hub.txs && t in s.workers && InLines(s.workers[t])
  {
    RestOf(cat, Seen(s, t), s.workers[t])
  }

  /** The worker at work, with no entity loaded: every movement is judged on the row as it is. */
  ghost predicate AtWork(cat: Catalog, s: State, t: I.TxId) {
    && cat.Valid() && Working(s, t)
    && s.hub.txs[t].cache == map[] && s.hub.txs[t].savepoints == [I.NO_WORK]
    && var w := s.workers[t];
       && w.phase.line <= |w.order.lines|
       && (w.phase.alloc.Some? ==> AllocOk(cat, w.order, w.phase.line, w.phase.alloc.value))
  }

  // ---------------------------------------------------------------- a step under a lock is the movement in one go

  lemma LogSnoc(log: seq<I.Entry>, work: seq<I.Entry>, e: I.Entry)
    requires e.body.Moved?
    ensures I.JournalOf(log + (work + [e]))
            == I.JournalOf(log + work) + [Movement(e.body.row, e.body.kind, e.body.qty, e.body.reference)]
    ensures EventsOf(log + (work + [e]))
            == EventsOf(log + work) + [MovementApplied(e.body.row, e.body.kind, e.body.qty, e.body.level)]
  {
    var all := log + (work + [e]);
    assert all[..|all| - 1] == log + work;
  }

  lemma JudgedOnItself(level: Level, kind: Kind, qty: int)
    ensures Apply(level, kind, qty).Ok? <==>
            Effect(kind, qty, level.qty, level.reserved).Ok? && Merged(level, level, kind, qty).Sound()
    ensures Apply(level, kind, qty).Ok? ==> Apply(level, kind, qty).value == Merged(level, level, kind, qty)
  {
  }

  function PostOf(t: I.TxId, m: Movement): I.Step {
    I.Post(t, m.row, m.kind, m.qty, m.reference)
  }

  /** The lock is held and no entity of the row was loaded before. */
  predicate Holds(h: I.Hub, t: I.TxId, row: Row) {
    t in h.txs && row in h.txs[t].work.locks && row !in h.txs[t].cache
  }

  lemma PostIsJudged(h: I.Hub, t: I.TxId, m: Movement)
    requires Holds(h, t, m.row)
    ensures var seen := LevelAt(SeenBy(h, t), m.row);
            && (I.Enabled(h, PostOf(t, m)) <==>
                  && (m.row in SeenBy(h, t).levels || m.kind.In? || m.kind.Adjust?)
                  && Apply(seen, m.kind, m.qty).Ok?)
            && (I.Enabled(h, PostOf(t, m)) ==>
                  I.LevelAfter(h, t, m.row, m.kind, m.qty) == Apply(seen, m.kind, m.qty).value)
  {
    var rows := Visible(h, t);
    assert I.View(h, t, m.row) == if m.row in rows then Some(rows[m.row]) else None;
    assert I.Seen(h, t, m.row) == I.View(h, t, m.row);
    JudgedOnItself(LevelAt(SeenBy(h, t), m.row), m.kind, m.qty);
  }

  lemma MoveIsJudged(cat: Catalog, store: Store, m: Movement)
    requires m.row.variant in cat.variants && cat.HasWarehouse(m.row.warehouse)
    ensures var seen := LevelAt(store, m.row);
            && (Move(cat, store, m, None).Ok? <==>
                  (m.row in store.levels || m.kind.In? || m.kind.Adjust?) && Apply(seen, m.kind, m.qty).Ok?)
            && (Move(cat, store, m, None).Ok? ==>
                  Move(cat, store, m, None).value == Posted(store, m, Apply(seen, m.kind, m.qty).value))
  {
  }

  lemma PostIsPosted(h: I.Hub, t: I.TxId, m: Movement)
    requires Holds(h, t, m.row) && I.Enabled(h, PostOf(t, m))
    ensures SeenBy(I.Next(h, PostOf(t, m)), t)
            == Posted(SeenBy(h, t), m, I.LevelAfter(h, t, m.row, m.kind, m.qty))
  {
    var work, level, h' := h.txs[t].work, I.LevelAfter(h, t, m.row, m.kind, m.qty), I.Next(h, PostOf(t, m));
    var e := I.Entry(h.nextSeq, I.Moved(m.row, m.kind, m.qty, m.reference, level));
    assert h'.txs[t].work.log == work.log + [e] && h'.log == h.log;
    LogSnoc(h.log, work.log, e);
    assert h'.levels + h'.txs[t].work.levels == (h.levels + work.levels)[m.row := level];
  }

  /**
   Under the row's lock a movement is let through exactly when the movement in one go is accepted on the tables the
   transaction sees, and it leaves the same tables.
   */
  lemma PostIsTheMove(cat: Catalog, h: I.Hub, t: I.TxId, m: Movement)
    requires Holds(h, t, m.row) && m.row.variant in cat.variants && cat.HasWarehouse(m.row.warehouse)
    ensures I.Enabled(h, PostOf(t, m)) <==> Move(cat, SeenBy(h, t), m, None).Ok?
    ensures I.Enabled(h, PostOf(t, m)) ==>
              Move(cat, SeenBy(h, t), m, None) == Ok(SeenBy(I.Next(h, PostOf(t, m)), t))
  {
    PostIsJudged(h, t, m);
    MoveIsJudged(cat, SeenBy(h, t), m);
    if I.Enabled(h, PostOf(t, m)) { PostIsPosted(h, t, m); }
  }

  // ---------------------------------------------------------------- each step follows the ingest

  lemma PlanKeepsRest(cat: Catalog, s: State, t: I.TxId)
    requires AtWork(cat, s, t) && Enabled(cat, s, PlanLine(t))
    ensures InLines(Next(cat, s, PlanLine(t)).workers[t])
    ensures Rest(cat, Next(cat, s, PlanLine(t)), t) == Rest(cat, s, t)
  {
    var w := s.workers[t];
    var rest := w.order.lines[w.phase.line..];
    assert rest[0] == w.order.lines[w.phase.line] && rest[1..] == w.order.lines[w.phase.line + 1..];
  }

  lemma SkipKeepsRest(cat: Catalog, s: State, t: I.TxId)
    requires AtWork(cat, s, t) && Enabled(cat, s, SkipSlot(t))
    ensures Rest(cat, Next(cat, s, SkipSlot(t)), t) == Rest(cat, s, t)
  {
  }

  lemma LockShape(cat: Catalog, s: State, t: I.TxId)
    requires Working(s, t) && Enabled(cat, s, LockSlot(t))
    ensures var s' := Next(cat, s, LockSlot(t));
            && s'.workers == s.workers && s'.hub.levels == s.hub.levels && s'.hub.log == s.hub.log
            && t in s'.hub.txs && s'.hub.txs[t].work.log == s.hub.txs[t].work.log
            && s'.hub.txs[t].work.levels == s.hub.txs[t].work.levels
  {
  }

  lemma LockKeepsRest(cat: Catalog, s: State, t: I.TxId)
    requires AtWork(cat, s, t) && Enabled(cat, s, LockSlot(t))
    ensures t in Next(cat, s, LockSlot(t)).hub.txs && Next(cat, s, LockSlot(t)).workers == s.workers
    ensures Rest(cat, Next(cat, s, LockSlot(t)), t) == Rest(cat, s, t)
  {
    LockShape(cat, s, t);
  }

  lemma EndLineKeepsRest(cat: Catalog, s: State, t: I.TxId)
    requires AtWork(cat, s, t) && Enabled(cat, s, EndLine(t))
    ensures Rest(cat, Next(cat, s, EndLine(t)), t) == Rest(cat, s, t)
  {
  }

  function SlotMove(s: State, t: I.TxId): Movement
    requires AtSlot(s, t)
  {
    Movement(SlotRow(s, t), Reserve, SlotTake(s, t), Some(O.Tag(s.workers[t].order.id)))
  }

  lemma SlotIsPlaced(cat: Catalog, s: State, t: I.TxId)
    requires AtWork(cat, s, t) && AtSlot(s, t)
    ensures SlotRow(s, t).variant in cat.variants && cat.HasWarehouse(SlotRow(s, t).warehouse)
  {
    var a := s.workers[t].phase.alloc.value;
    O.OnlineMembers(cat.warehouses);
    assert a.plan[0] in a.plan;
  }

  /** Under the lock the worker's movement is let through exactly when it is accepted on the tables it sees. */
  lemma TakeIsTheMove(cat: Catalog, s: State, t: I.TxId)
    requires AtWork(cat, s, t) && AtSlot(s, t) && SlotTake(s, t) > 0 && SlotRow(s, t) in s.hub.txs[t].work.locks
    ensures I.Enabled(s.hub, TakeStep(s, t)) <==> Move(cat, Seen(s, t), SlotMove(s, t), None).Ok?
    ensures I.Enabled(s.hub, TakeStep(s, t)) ==>
              && t in I.Next(s.hub, TakeStep(s, t)).txs
              && Move(cat, Seen(s, t), SlotMove(s, t), None) == Ok(SeenBy(I.Next(s.hub, TakeStep(s, t)), t))
  {
    SlotIsPlaced(cat, s, t);
    PostIsTheMove(cat, s.hub, t, SlotMove(s, t));
    assert TakeStep(s, t) == PostOf(t, SlotMove(s, t));
  }

  /** The worker once it has taken from the slot it was at. */
  function Taken(w: Worker, take: int): Worker
    requires w.phase.Reserving? && w.phase.alloc.Some? && w.phase.alloc.value.plan != []
  {
    var a := w.phase.alloc.value;
    w.(phase := Reserving(w.phase.line, Some(a.(plan := a.plan[1..], remaining := a.remaining - take))))
  }

  lemma TakeShape(cat: Catalog, s: State, t: I.TxId)
    requires Enabled(cat, s, TakeSlot(t))
    ensures var s' := Next(cat, s, TakeSlot(t));
            && s'.hub == I.Next(s.hub, TakeStep(s, t)) && t in s'.hub.txs
            && t in s'.workers && s'.workers[t] == Taken(s.workers[t], SlotTake(s, t))
  {
  }

  /** A line's next slot, in one go and step by step. */
  lemma TakeUnfolds(cat: Catalog, store: Store, store': Store, w: Worker, take: int)
    requires cat.Valid() && InLines(w) && w.phase.alloc.Some? && w.phase.alloc.value.plan != []
    requires var a := w.phase.alloc.value;
             && a.remaining != 0 && take == Min(a.plan[0].available, a.remaining) && take > 0
             && Move(cat, store, Movement(Row(a.variant, a.plan[0].warehouse), Reserve, take, Some(O.Tag(w.order.id))),
                  None) == Ok(store')
    ensures RestOf(cat, store, w) == RestOf(cat, store', Taken(w, take))
  {
  }

  lemma TakeKeepsRest(cat: Catalog, s: State, t: I.TxId)
    requires AtWork(cat, s, t) && Enabled(cat, s, TakeSlot(t))
    ensures t in Next(cat, s, TakeSlot(t)).hub.txs && t in Next(cat, s, TakeSlot(t)).workers
    ensures InLines(Next(cat, s, TakeSlot(t)).workers[t])
    ensures Rest(cat, Next(cat, s, TakeSlot(t)), t) == Rest(cat, s, t)
  {
    TakeShape(cat, s, t);
    TakeIsTheMove(cat, s, t);
    TakeUnfolds(cat, Seen(s, t), Seen(Next(cat, s, TakeSlot(t)), t), s.workers[t], SlotTake(s, t));
  }

  lemma AcceptEndsTheRest(cat: Catalog, s: State, t: I.TxId)
    requires AtWork(cat, s, t) && Enabled(cat, s, Accept(t))
    ensures Rest(cat, s, t) == Ok(Seen(s, t)) && Seen(Next(cat, s, Accept(t)), t) == Seen(s, t)
  {
  }

  lemma RejectEndsTheRest(cat: Catalog, s: State, t: I.TxId)
    requires AtWork(cat, s, t) && Enabled(cat, s, Reject(t))
    ensures Rest(cat, s, t).Err? && Seen(Next(cat, s, Reject(t)), t) == Sequential(s).store
  {
    if AtSlot(s, t) && SlotTake(s, t) > 0 && SlotRow(s, t) in s.hub.txs[t].work.locks
       && !I.Enabled(s.hub, TakeStep(s, t)) {
      TakeIsTheMove(cat, s, t);
    }
    assert s.hub.levels + map[] == s.hub.levels;
    assert s.hub.log + [] == s.hub.log;
  }

  // ---------------------------------------------------------------- a worker left alone

  /** A worker's own steps between its receipt and its commit. */
  predicate Own(step: Step, t: I.TxId) {
    match step
    case PlanLine(u) => u == t
    case SkipSlot(u) => u == t
    case LockSlot(u) => u == t
    case TakeSlot(u) => u == t
    case EndLine(u) => u == t
    case Reject(u) => u == t
    case Accept(u) => u == t
    case _ => false
  }

  function RunFrom(cat: Catalog, s: State, steps: seq<Step>): Option<State> {
    if steps == [] then Some(s)
    else
      var before := RunFrom(cat, s, steps[..|steps| - 1]);
      if before.Some? && Enabled(cat, before.value, steps[|steps| - 1])
      then Some(Next(cat, before.value, steps[|steps| - 1]))
      else None
  }

  /** The worker is on its way to what the ingest in one go comes to, `goal`, and the committed tables are as before. */
  ghost predicate OnTheWay(cat: Catalog, before: O.Hub, s: State, t: I.TxId, goal: Result<Store>) {
    && cat.Valid() && t in s.workers && t in s.hub.txs && WorkerOk(cat, s.workers[t], s.hub.txs[t])
    && s.hub.txs[t].cache == map[] && Sequential(s) == before
    && match s.workers[t].phase
       case Reserving(_, _) => Rest(cat, s, t) == goal
       case Settling(status) =>
         if status == O.Reserved then goal == Ok(Seen(s, t))
         else status == O.Rejected && goal.Err? && Seen(s, t) == before.store
  }

  lemma ReceiveSetsOut(cat: Catalog, s: State, t: I.TxId, channel: O.ChannelId, order: O.Order)
    requires cat.Valid() && Inv(cat, s) && Enabled(cat, s, Receive(t, channel, order))
    ensures var goal := O.ReserveLines(cat, Sequential(s).store, order.lines, O.Tag(order.id));
            OnTheWay(cat, Sequential(s), Next(cat, s, Receive(t, channel, order)), t, goal)
  {
    var s' := Next(cat, s, Receive(t, channel, order));
    ReceiveKeepsLocal(cat, s, t, channel, order);
    assert WorkerOk(cat, s'.workers[t], s'.hub.txs[t]);
    assert order.lines[0..] == order.lines;
    assert s.hub.levels + map[] == s.hub.levels && s.hub.log + [] == s.hub.log;
  }

  /** What none of a worker's own steps touches. */
  lemma OwnStepFrame(cat: Catalog, s: State, t: I.TxId, step: Step)
    requires Own(step, t) && Enabled(cat, s, step) && s.hub.txs[t].cache == map[]
    ensures var s' := Next(cat, s, step);
            && t in s'.workers && t in s'.hub.txs && s'.hub.txs[t].cache == map[]
            && s'.hub.levels == s.hub.levels && s'.hub.log == s.hub.log && s'.orders == s.orders
  {
  }

  lemma StillReserving(cat: Catalog, before: O.Hub, s: State, s': State, t: I.TxId, goal: Result<Store>)
    requires OnTheWay(cat, before, s, t, goal) && Working(s, t) && Working(s', t)
    requires WorkersOk(cat, s') && s'.hub.txs[t].cache == map[]
    requires s'.hub.levels == s.hub.levels && s'.hub.log == s.hub.log && s'.orders == s.orders
    requires InLines(s'.workers[t]) ==> Rest(cat, s', t) == Rest(cat, s, t)
    ensures OnTheWay(cat, before, s', t, goal)
  {
    assert WorkerOk(cat, s'.workers[t], s'.hub.txs[t]);
  }

  lemma ReservingGoesOn(cat: Catalog, before: O.Hub, s: State, t: I.TxId, goal: Result<Store>, step: Step)
    requires Local(cat, s) && OnTheWay(cat, before, s, t, goal) && Own(step, t) && Enabled(cat, s, step)
    requires !step.Accept? && !step.Reject?
    ensures OnTheWay(cat, before, Next(cat, s, step), t, goal) && Local(cat, Next(cat, s, step))
  {
    OwnStepFrame(cat, s, t, step);
    match step {
      case PlanLine(_) => PlanKeepsRest(cat, s, t); PlanKeepsLocal(cat, s, t);
      case SkipSlot(_) => SkipKeepsRest(cat, s, t); SkipKeepsLocal(cat, s, t);
      case LockSlot(_) => LockKeepsRest(cat, s, t); LockKeepsLocal(cat, s, t);
      case TakeSlot(_) => TakeKeepsRest(cat, s, t); TakeKeepsLocal(cat, s, t);
      case EndLine(_) => EndLineKeepsRest(cat, s, t); EndLineKeepsLocal(cat, s, t);
    }
    StillReserving(cat, before, s, Next(cat, s, step), t, goal);
  }

  lemma OwnStepGoesOn(cat: Catalog, before: O.Hub, s: State, t: I.TxId, goal: Result<Store>, step: Step)
    requires Local(cat, s) && OnTheWay(cat, before, s, t, goal) && Own(step, t) && Enabled(cat, s, step)
    ensures OnTheWay(cat, before, Next(cat, s, step), t, goal) && Local(cat, Next(cat, s, step))
  {
    if step.Accept? {
      OwnStepFrame(cat, s, t, step);
      AcceptEndsTheRest(cat, s, t);
      AcceptKeepsLocal(cat, s, t);
      assert WorkersOk(cat, Next(cat, s, step));
    } else if step.Reject? {
      OwnStepFrame(cat, s, t, step);
      RejectEndsTheRest(cat, s, t);
      RejectKeepsLocal(cat, s, t);
      assert WorkersOk(cat, Next(cat, s, step));
    } else {
      ReservingGoesOn(cat, before, s, t, goal, step);
    }
  }

  lemma {:induction false} OwnRunGoesOn(cat: Catalog, before: O.Hub, s: State, t: I.TxId, goal: Result<Store>,
      steps: seq<Step>)
    requires Local(cat, s) && OnTheWay(cat, before, s, t, goal)
    requires RunFrom(cat, s, steps).Some? && forall step <- steps :: Own(step, t)
    ensures Local(cat, RunFrom(cat, s, steps).value) && OnTheWay(cat, before, RunFrom(cat, s, steps).value, t, goal)
  {
    if steps != [] {
      var n := |steps| - 1;
      assert steps[n] in steps && forall step <- steps[..n] :: step in steps;
      OwnRunGoesOn(cat, before, s, t, goal, steps[..n]);
      OwnStepGoesOn(cat, before, RunFrom(cat, s, steps[..n]).value, t, goal, steps[n]);
    }
  }

  lemma RowsAreSound(h: I.Hub)
    requires I.Inv(h)
    ensures O.AllSound(h.levels)
  {
    forall row <- h.levels ensures h.levels[row].Sound() {
      var es := I.RowLog(h.log, row);
      assert I.RowOk(es) && es != [] && I.Tip(es) == h.levels[row];
    }
  }

  /**
   From any reachable state: a delivery whose worker is the only one to step between its receipt and its commit leaves
   the committed tables, journal, events and order table that the ingest in one go leaves.
   */
  lemma LeftAloneIsTheIngest(cat: Catalog, prior: seq<Step>, t: I.TxId, channel: O.ChannelId, order: O.Order,
      own: seq<Step>)
    requires cat.Valid() && Run(cat, prior).Some?
    requires var s := Run(cat, prior).value;
             && Enabled(cat, s, Receive(t, channel, order))
             && (forall step <- own :: Own(step, t))
             && var settled := RunFrom(cat, Next(cat, s, Receive(t, channel, order)), own);
                settled.Some? && Enabled(cat, settled.value, CommitOrder(t))
    ensures var s := Run(cat, prior).value;
            var settled := RunFrom(cat, Next(cat, s, Receive(t, channel, order)), own).value;
            Sequential(Next(cat, settled, CommitOrder(t))) == O.Ingest(cat, Sequential(s), channel, order).0
  {
    var s := Run(cat, prior).value;
    RunKeepsInv(cat, prior);
    RowsAreSound(s.hub);
    var goal := O.ReserveLines(cat, Sequential(s).store, order.lines, O.Tag(order.id));
    O.ReserveSucceedsExactlyWhen(cat, Sequential(s).store, order.lines, O.Tag(order.id));
    ReceiveSetsOut(cat, s, t, channel, order);
    ReceiveKeepsLocal(cat, s, t, channel, order);
    var begun := Next(cat, s, Receive(t, channel, order));
    OwnRunGoesOn(cat, Sequential(s), begun, t, goal, own);
    OwnRunKeepsOrder(cat, begun, t, own);
    CommitIsTheIngest(cat, s, RunFrom(cat, begun, own).value, t, channel, order, goal);
  }

  lemma {:induction false} OwnRunKeepsOrder(cat: Catalog, s: State, t: I.TxId, steps: seq<Step>)
    requires t in s.workers && RunFrom(cat, s, steps).Some? && forall step <- steps :: Own(step, t)
    ensures var s' := RunFrom(cat, s, steps).value;
            && t in s'.workers
            && s'.workers[t].channel == s.workers[t].channel && s'.workers[t].order == s.workers[t].order
  {
    if steps != [] {
      var n := |steps| - 1;
      assert steps[n] in steps && forall step <- steps[..n] :: step in steps;
      OwnRunKeepsOrder(cat, s, t, steps[..n]);
    }
  }

  lemma CommitIsTheIngest(cat: Catalog, s: State, settled: State, t: I.TxId, channel: O.ChannelId, order: O.Order,
      goal: Result<Store>)
    requires OnTheWay(cat, Sequential(s), settled, t, goal) && Enabled(cat, settled, CommitOrder(t))
    requires settled.workers[t].channel == channel && settled.workers[t].order == order
    requires goal == O.ReserveLines(cat, Sequential(s).store, order.lines, O.Tag(order.id))
    requires goal.Err? ==> goal.error in {NotFound, Conflict}
    requires !O.OnRecord(s.orders, channel, order.id)
    ensures Sequential(Next(cat, settled, CommitOrder(t))) == O.Ingest(cat, Sequential(s), channel, order).0
  {
    assert Seen(settled, t) == Sequential(Next(cat, settled, CommitOrder(t))).store;
  }

  /** A worker can always go on, unless another transaction has the row it wants to take from. */
  lemma CanGoOn(cat: Catalog, s: State, t: I.TxId) returns (step: Step)
    requires AtWork(cat, s, t) && (AtSlot(s, t) ==> !I.LockedByOther(s.hub, t, SlotRow(s, t)))
    ensures Own(step, t) && Enabled(cat, s, step)
  {
    var w := s.workers[t];
    if w.phase.alloc.None? {
      if w.phase.line == |w.order.lines| {
        step := Accept(t);
      } else if w.order.lines[w.phase.line].sku in cat.skus {
        step := PlanLine(t);
      } else {
        step := Reject(t);
      }
    } else if LineOver(s, t) {
      step := if w.phase.alloc.value.remaining > 0 then Reject(t) else EndLine(t);
    } else if SlotTake(s, t) <= 0 {
      step := SkipSlot(t);
    } else if SlotRow(s, t) !in s.hub.txs[t].work.locks {
      step := LockSlot(t);
    } else {
      step := if I.Enabled(s.hub, TakeStep(s, t)) then TakeSlot(t) else Reject(t);
    }
  }

  // ---------------------------------------------------------------- the order table

  /** The order row transaction t is about to leave, told from its last receipt and verdict. */
  function Leaves(steps: seq<Step>, t: I.TxId): Option<O.OrderRow> {
    if steps == [] then None
    else
      var before, last := Leaves(steps[..|steps| - 1], t), steps[|steps| - 1];
      match last
      case Receive(u, channel, order) => if u == t then Some(O.OrderRow(channel, order, O.Received)) else before
      case Accept(u) => if u == t && before.Some? then Some(before.value.(status := O.Reserved)) else before
      case Reject(u) => if u == t && before.Some? then Some(before.value.(status := O.Rejected)) else before
      case _ => before
  }

  /** The rows of the deliveries that committed, in commit order. */
  function CommittedRows(steps: seq<Step>): seq<O.OrderRow> {
    if steps == [] then []
    else
      var prior, last := steps[..|steps| - 1], steps[|steps| - 1];
      CommittedRows(prior)
        + if last.CommitOrder? && Leaves(prior, last.t).Some? then [Leaves(prior, last.t).value] else []
  }

  predicate Told(w: Worker, row: Option<O.OrderRow>) {
    && row.Some? && row.value.channel == w.channel && row.value.order == w.order
    && row.value.status == if w.phase.Settling? then w.phase.status else O.Received
  }

  lemma StepTells(cat: Catalog, s: State, steps: seq<Step>, t: I.TxId)
    requires steps != [] && Enabled(cat, s, steps[|steps| - 1]) && t in Next(cat, s, steps[|steps| - 1]).workers
    requires t in s.workers ==> Told(s.workers[t], Leaves(steps[..|steps| - 1], t))
    ensures Told(Next(cat, s, steps[|steps| - 1]).workers[t], Leaves(steps, t))
  {
  }

  /**
   In every run the order table holds exactly the deliveries that committed, in order and with their verdict; one that
   crashed leaves no row, so it can be delivered again.
   */
  lemma {:induction false} OrdersAreTheCommitted(cat: Catalog, steps: seq<Step>)
    requires Run(cat, steps).Some?
    ensures var s := Run(cat, steps).value;
            && s.orders == CommittedRows(steps)
            && forall t <- s.workers :: Told(s.workers[t], Leaves(steps, t))
  {
    if steps != [] {
      var prior, last := steps[..|steps| - 1], steps[|steps| - 1];
      OrdersAreTheCommitted(cat, prior);
      var s := Run(cat, prior).value;
      assert CommittedRows(prior) + [] == CommittedRows(prior);
      if last.CommitOrder? { assert Told(s.workers[last.t], Leaves(prior, last.t)); }
      var s' := Next(cat, s, last);
      forall t <- s'.workers ensures Told(s'.workers[t], Leaves(steps, t)) {
        StepTells(cat, s, steps, t);
      }
    }
  }
}
