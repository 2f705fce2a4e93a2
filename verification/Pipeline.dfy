/**
 From a committed movement to the stock a channel shows: transactions, relay, queue, consumer and
 dispatcher together.

 The consumer is the bus's: it reads, handles and archives messages with their visibility timeouts, its
 pushes may land, be skipped or raise, its handler may fail and it may crash.  What is said of every run
 is said of these.  That the channels agree with the committed row once everything is drained is said
 first of the runs in which nothing of this goes wrong, and then exactly of all.

 One variant is followed, stocked in one online warehouse.  Its row changes and its listing is
 re-published in any mix; other variants are unrestricted.
 */
module Pipeline {
  import opened Results
  import opened Inventory
  import opened OrderIngest
  import opened HubBus
  import C = Canonical
  import D = Dispatcher
  import I = Interleaving
  import B = BusProtocol
  import BusOrder
  import BusDelivery
  import EventBus

  const WORKER := BusDelivery.WORKER

  /** The catalog, the active channels, the one row of the variant that is followed, and the bus's settings. */
  datatype Config = Config(cat: Catalog, channels: seq<D.Channel>, row: Row, bus: EventBus.Config) {
    ghost predicate Valid() {
      && cat.Valid() && D.DistinctChannels(channels)
      && row.warehouse in Online(cat.warehouses)
    }
  }

  /**
   How far the handler is with the event in hand: it may have read the tables, and it may have pushed, up to the first
   push that raised.  `listings` are the rows as they were before, should its transaction roll back.
   */
  datatype Stage = Fresh | Looked(stock: Option<nat>) | Pushed(listings: map<D.Key, D.Listing>, raised: bool)

  /** `online` holds the variants whose product is published. */
  datatype State = State(hub: I.Hub, bus: B.State, online: set<VariantId>, sync: D.Sync, stage: Stage)

  const START := State(I.EMPTY_HUB, B.START, {}, D.Sync(map[], map[]), Fresh)

  /** Movements may commit between a look at the tables and the push that follows it. */
  datatype Step =
    | HubStep(step: I.Step)
    | BusStep(act: B.Step)
    | SetOnline(variant: VariantId, on: bool)
    | Look
    | Push(answers: map<ChannelId, D.Push>, now: int)
    | Finish

  function Answer(answers: map<ChannelId, D.Push>): ChannelId -> D.Push {
    (c: ChannelId) => if c in answers then answers[c] else D.Landed(None)
  }

  predicate AllLand(answers: map<ChannelId, D.Push>) {
    forall c <- answers :: answers[c].Landed?
  }

  /** The consumer is inside the handler's transaction, and the event is no duplicate. */
  predicate Handling(s: State) {
    WORKER in s.bus.consumers && s.bus.consumers[WORKER].Handling? && !s.bus.consumers[WORKER].duplicate
  }

  function InHand(s: State): Option<I.Body> {
    if WORKER in s.bus.consumers then BodyOf(s.hub.log, s.bus.consumers[WORKER].job.event) else None
  }

  /** A re-published variant is looked up before it is pushed; a movement carries its own level. */
  predicate MayPush(s: State) {
    && Handling(s) && InHand(s).Some?
    && (if InHand(s).value.Announced? then s.stage.Looked? else s.stage.Fresh?)
  }

  predicate Enabled(cfg: Config, s: State, step: Step) {
    match step
    case HubStep(step) =>
      && I.Enabled(s.hub, step) && Relayed(cfg.bus, s.bus, step)
      && (var echo := Echo(s.hub, s.bus, step); echo.Some? ==> B.Enabled(cfg.bus, s.bus, echo.value))
      && (step.Post? && step.row.variant == cfg.row.variant ==> step.row == cfg.row)
    case BusStep(act) =>
      && B.Enabled(cfg.bus, s.bus, act) && BusDelivery.OneConsumer(act)
      && (act.Send? || act.Read? || act.BeginHandle? || act.Tick? || act.ConsumerCrash? || act.HandlerFails?
          || act.SettleFailure?)
    case SetOnline(_, _) => true
    case Look => Handling(s) && InHand(s).Some? && InHand(s).value.Announced? && s.stage.Fresh?
    case Push(_, _) => MayPush(s)
    case Finish =>
      && B.Enabled(cfg.bus, s.bus, B.CommitHandle(WORKER))
      && (Handling(s) ==> s.stage.Pushed? && !s.stage.raised)
  }

  /** What `build_canonical_product` says of the variant's stock; nothing for an unpublished product. */
  function StockNow(cfg: Config, s: State, v: VariantId): Option<nat> {
    if v in s.online then Some(C.HubStock(cfg.cat, s.hub.levels, v)) else None
  }

  /** The dispatcher's pushes for one event, and whether one of them raised. */
  function Dispatched(cfg: Config, sync: D.Sync, body: I.Body, stock: Option<nat>, push: ChannelId -> D.Push,
      now: int): (D.Sync, bool)
  {
    match body
    case Moved(row, _, _, _, level) => D.StockAll(sync, cfg.channels, row.variant, level.Available(), push, now)
    case Announced(v) => if stock.Some? then D.ListAll(sync, cfg.channels, v, stock.value, push, now) else (sync, false)
  }

  /** The handler's transaction rolls back: its listing rows are as before, what the channels show stays. */
  function RolledBack(sync: D.Sync, stage: Stage): D.Sync {
    if stage.Pushed? then sync.(listings := stage.listings) else sync
  }

  predicate Undoes(act: B.Step) {
    act.ConsumerCrash? || act.HandlerFails?
  }

  function LookedUp(stage: Stage): Option<nat> {
    if stage.Looked? then stage.stock else None
  }

  function Next(cfg: Config, s: State, step: Step): State
    requires Enabled(cfg, s, step)
  {
    match step
    case HubStep(step) => s.(hub := I.Next(s.hub, step), bus := Echoed(cfg.bus, s.bus, Echo(s.hub, s.bus, step)))
    case BusStep(act) =>
      if Undoes(act) then s.(bus := B.Next(cfg.bus, s.bus, act), sync := RolledBack(s.sync, s.stage), stage := Fresh)
      else s.(bus := B.Next(cfg.bus, s.bus, act))
    case SetOnline(v, on) => s.(online := if on then s.online + {v} else s.online - {v})
    case Look => s.(stage := Looked(StockNow(cfg, s, InHand(s).value.variant)))
    case Push(answers, now) =>
      var (sync, raised) := Dispatched(cfg, s.sync, InHand(s).value, LookedUp(s.stage), Answer(answers), now);
      s.(sync := sync, stage := Pushed(s.sync.listings, raised))
    case Finish => s.(bus := B.Next(cfg.bus, s.bus, B.CommitHandle(WORKER)), stage := Fresh)
  }

  function Run(cfg: Config, steps: seq<Step>): Option<State> {
    if steps == [] then Some(START)
    else
      var before := Run(cfg, steps[..|steps| - 1]);
      if before.Some? && Enabled(cfg, before.value, steps[|steps| - 1])
      then Some(Next(cfg, before.value, steps[|steps| - 1]))
      else None
  }

  /** No consumer crashes, no handler fails and every push lands. */
  predicate Calm(step: Step) {
    (step.BusStep? ==> !Undoes(step.act)) && (step.Push? ==> AllLand(step.answers))
  }

  // ---------------------------------------------------------------- what was pushed so far

  /** The hub, the number of its queue's entries whose pushes are done, and what the channels show. */
  datatype Track = Track(hub: I.Hub, handled: nat, sync: D.Sync)

  function Tracked(s: State): Track {
    Track(s.hub, |s.bus.db.effects| + if s.stage.Pushed? then 1 else 0, s.sync)
  }

  ghost predicate OnlyRow(log: seq<I.Entry>, row: Row) {
    forall e <- log :: e.body.Moved? && e.body.row.variant == row.variant ==> e.body.row == row
  }

  ghost predicate SingleRow(h: I.Hub, row: Row) {
    && OnlyRow(h.log, row)
    && forall t <- h.txs :: OnlyRow(h.txs[t].work.log, row)
  }

  function LevelOf(h: I.Hub, row: Row): Level {
    if row in h.levels then h.levels[row] else EMPTY
  }

  /** The channel's listing of v, if active, shows this stock with the channel's safety stock held back. */
  predicate Shows(sync: D.Sync, c: D.Channel, v: VariantId, stock: int) {
    D.Listed(sync, c, v) ==>
      D.Key(c.id, v) in sync.shown && sync.shown[D.Key(c.id, v)] == D.Figure(stock, c.safety)
  }

  /** Every active listing of the variant shows the committed level. */
  ghost predicate Agrees(cfg: Config, s: Track) {
    forall c <- cfg.channels :: Shows(s.sync, c, cfg.row.variant, LevelOf(s.hub, cfg.row).Available())
  }

  /** The movements of the row that have been consumed. */
  function Handled(s: Track, row: Row): seq<I.Entry>
    requires s.handled <= |s.hub.queue|
  {
    I.RowLog(s.hub.queue[..s.handled], row)
  }

  predicate Reached(s: Track, row: Row)
    requires s.handled <= |s.hub.queue|
  {
    |Handled(s, row)| == |I.RowLog(s.hub.log, row)|
  }

  /** When no movement of the row is on its way, the channels agree. */
  ghost predicate Followed(cfg: Config, s: Track) {
    && SingleRow(s.hub, cfg.row) && s.handled <= |s.hub.queue|
    && (Reached(s, cfg.row) ==> Agrees(cfg, s))
  }

  /** When no movement of the row is on its way, a figure looked up for it is the committed one. */
  ghost predicate LookIsFresh(cfg: Config, s: Track, stage: Stage, body: Option<I.Body>)
    requires s.handled <= |s.hub.queue|
  {
    stage.Looked? && stage.stock.Some? && body == Some(I.Announced(cfg.row.variant)) && Reached(s, cfg.row) ==>
      stage.stock.value == LevelOf(s.hub, cfg.row).Available()
  }

  // ---------------------------------------------------------------- the hub's part

  lemma SingleRowWritten(h: I.Hub, step: I.Step, row: Row)
    requires SingleRow(h, row) && I.Enabled(h, step) && (step.Post? || step.Announce?)
    requires step.Post? && step.row.variant == row.variant ==> step.row == row
    ensures SingleRow(I.Next(h, step), row)
  {
    I.WriteShape(h, step);
  }

  lemma SingleRowUndone(h: I.Hub, t: I.TxId, row: Row)
    requires I.TxsOk(h) && SingleRow(h, row) && I.Enabled(h, I.RollbackTo(t))
    ensures SingleRow(I.Next(h, I.RollbackTo(t)), row)
  {
    var tx := h.txs[t];
    assert I.TxOk(h, tx);
    I.WorkIsOk(h, tx);
    var saved := tx.savepoints[|tx.savepoints| - 1];
    assert saved in tx.savepoints && forall e <- saved.log :: e in tx.work.log;
  }

  lemma SingleRowKept(h: I.Hub, step: I.Step, row: Row)
    requires I.TxsOk(h) && SingleRow(h, row) && I.Enabled(h, step)
    requires step.Post? && step.row.variant == row.variant ==> step.row == row
    ensures SingleRow(I.Next(h, step), row)
  {
    if step.Post? || step.Announce? {
      SingleRowWritten(h, step, row);
    } else if step.RollbackTo? {
      SingleRowUndone(h, step.t, row);
    }
  }

  /** A hub step either leaves the row as it was or commits movements of it that nobody has consumed yet. */
  lemma HubStepOnRow(h: I.Hub, step: I.Step, row: Row)
    requires I.Inv(h) && I.Enabled(h, step)
    ensures var h' := I.Next(h, step);
            && h.queue <= h'.queue
            && |I.RowLog(h.log, row)| <= |I.RowLog(h'.log, row)|
            && (|I.RowLog(h.log, row)| == |I.RowLog(h'.log, row)| ==> LevelOf(h, row) == LevelOf(h', row))
  {
    I.QueueGrows(h, step);
    if step.Commit? { I.CommitOnRow(h, step.t, row); } else { I.OnlyCommitsLog(h, step); }
  }

  lemma HandledIsBehind(s: Track, row: Row)
    requires I.Inv(s.hub) && s.handled <= |s.hub.queue|
    ensures Handled(s, row) <= I.RowLog(s.hub.queue, row) <= I.RowLog(s.hub.log, row)
  {
    I.RowLogConcat(s.hub.queue[..s.handled], s.hub.queue[s.handled..], row);
    assert s.hub.queue == s.hub.queue[..s.handled] + s.hub.queue[s.handled..];
  }

  lemma HubStepKeepsFollowed(cfg: Config, s: Track, step: I.Step, stage: Stage, body: Option<I.Body>)
    requires I.Inv(s.hub) && Followed(cfg, s) && LookIsFresh(cfg, s, stage, body) && I.Enabled(s.hub, step)
    requires step.Post? && step.row.variant == cfg.row.variant ==> step.row == cfg.row
    ensures Followed(cfg, s.(hub := I.Next(s.hub, step)))
            && LookIsFresh(cfg, s.(hub := I.Next(s.hub, step)), stage, body)
  {
    var s' := s.(hub := I.Next(s.hub, step));
    I.NextKeepsInv(s.hub, step);
    SingleRowKept(s.hub, step, cfg.row);
    HubStepOnRow(s.hub, step, cfg.row);
    assert s'.hub.queue[..s.handled] == s.hub.queue[..s.handled];
    HandledIsBehind(s, cfg.row);
    HandledIsBehind(s', cfg.row);
  }

  // ---------------------------------------------------------------- the dispatcher's part

  /** With a single row the aggregated figure is that row's. */
  lemma {:induction false} SingleRowTotal(levels: map<Row, Level>, row: Row, ws: seq<WarehouseId>)
    requires Distinct(ws)
    requires forall r <- levels :: r.variant == row.variant ==> r == row
    ensures TotalAvail(levels, row.variant, ws)
            == if row.warehouse in ws then Avail(levels, row.variant, row.warehouse) else 0
  {
    if ws != [] {
      SingleRowTotal(levels, row, ws[1..]);
      assert ws == [ws[0]] + ws[1..];
      assert Row(row.variant, ws[0]) in levels ==> ws[0] == row.warehouse;
    }
  }

  lemma HubStockIsRowStock(cfg: Config, h: I.Hub)
    requires cfg.Valid() && I.Inv(h) && SingleRow(h, cfg.row)
    ensures C.HubStock(cfg.cat, h.levels, cfg.row.variant) == LevelOf(h, cfg.row).Available()
  {
    I.InvForbidsOversell(h);
    forall r <- h.levels | r.variant == cfg.row.variant ensures r == cfg.row {
      var es := I.RowLog(h.log, r);
      I.RowLogMembers(h.log, r);
      assert es[0] in es;
    }
    OnlineFacts(cfg.cat.warehouses);
    C.OfferedIsReservable(cfg.cat, h.levels, cfg.row.variant);
    SingleRowTotal(h.levels, cfg.row, Online(cfg.cat.warehouses));
  }

  lemma ConsumeOneMore(s: Track, s': Track, row: Row)
    requires s.handled < |s.hub.queue| && s'.handled == s.handled + 1 && s'.hub == s.hub
    ensures var body := s.hub.queue[s.handled].body;
            Handled(s', row)
            == Handled(s, row) + if body.Moved? && body.row == row then [s.hub.queue[s.handled]] else []
  {
    assert s.hub.queue[..s'.handled][..s.handled] == s.hub.queue[..s.handled];
  }

  /** The last movement of the row to be consumed carries the committed level. */
  lemma LastMovementIsCommitted(s: Track, row: Row)
    requires I.Inv(s.hub) && s.handled < |s.hub.queue|
    requires s.hub.queue[s.handled].body.Moved? && s.hub.queue[s.handled].body.row == row
    requires |Handled(s, row)| + 1 == |I.RowLog(s.hub.log, row)|
    ensures s.hub.queue[s.handled].body.level == LevelOf(s.hub, row)
  {
    var s', e, log := s.(handled := s.handled + 1), s.hub.queue[s.handled], I.RowLog(s.hub.log, row);
    ConsumeOneMore(s, s', row);
    HandledIsBehind(s', row);
    assert log[|Handled(s, row)|] == Handled(s', row)[|Handled(s, row)|] == e;
    assert I.Tip(log) == e.body.level;
  }

  /** After a movement push that lands everywhere, every active listing shows the event's level. */
  lemma ShownAfterMovement(cfg: Config, sync: D.Sync, level: Level, push: ChannelId -> D.Push, now: int)
    requires D.DistinctChannels(cfg.channels) && forall c <- cfg.channels :: push(c.id).Landed?
    ensures var v := cfg.row.variant;
            var sync' := D.StockAll(sync, cfg.channels, v, level.Available(), push, now).0;
            forall c <- cfg.channels :: Shows(sync', c, v, level.Available())
  {
    D.StampedExactlyWhereLanded(sync, cfg.channels, cfg.row.variant, level.Available(), push, now);
  }

  /** One more entry of the queue is pushed. */
  function OneMore(cfg: Config, s: Track, stock: Option<nat>, answers: map<ChannelId, D.Push>,
      now: int): Track
    requires s.handled < |s.hub.queue|
  {
    Track(s.hub, s.handled + 1, Dispatched(cfg, s.sync, s.hub.queue[s.handled].body, stock, Answer(answers), now).0)
  }

  lemma MovementAgrees(cfg: Config, s: Track, s': Track, answers: map<ChannelId, D.Push>, now: int)
    requires D.DistinctChannels(cfg.channels) && s'.hub == s.hub && AllLand(answers)
    requires s'.sync == D.StockAll(s.sync, cfg.channels, cfg.row.variant, LevelOf(s.hub, cfg.row).Available(),
             Answer(answers), now).0
    ensures Agrees(cfg, s')
  {
    ShownAfterMovement(cfg, s.sync, LevelOf(s.hub, cfg.row), Answer(answers), now);
  }

  /** A movement of the row: either more are on their way, or it carries the committed level. */
  lemma PushMovement(cfg: Config, s: Track, answers: map<ChannelId, D.Push>, now: int)
    requires AllLand(answers)
    requires cfg.Valid() && I.Inv(s.hub) && Followed(cfg, s) && s.handled < |s.hub.queue|
    requires s.hub.queue[s.handled].body.Moved? && s.hub.queue[s.handled].body.row == cfg.row
    ensures Followed(cfg, OneMore(cfg, s, None, answers, now))
  {
    var s' := OneMore(cfg, s, None, answers, now);
    ConsumeOneMore(s, s', cfg.row);
    if Reached(s', cfg.row) {
      LastMovementIsCommitted(s, cfg.row);
      MovementAgrees(cfg, s, s', answers, now);
    }
  }

  /** An event of another variant leaves the followed listings alone. */
  lemma PushUnrelated(cfg: Config, s: Track, stock: Option<nat>, answers: map<ChannelId, D.Push>,
      now: int)
    requires AllLand(answers)
    requires cfg.Valid() && Followed(cfg, s) && s.handled < |s.hub.queue|
    requires match s.hub.queue[s.handled].body
             case Moved(row, _, _, _, _) => row.variant != cfg.row.variant
             case Announced(v) => v != cfg.row.variant || stock.None?
    ensures Followed(cfg, OneMore(cfg, s, stock, answers, now))
  {
    var s', e := OneMore(cfg, s, stock, answers, now), s.hub.queue[s.handled];
    ConsumeOneMore(s, s', cfg.row);
    match e.body {
      case Moved(row, _, _, _, level) =>
        D.StampedExactlyWhereLanded(s.sync, cfg.channels, row.variant, level.Available(), Answer(answers), now);
      case Announced(v) =>
        if stock.Some? {
          D.ListedWhereLanded(s.sync, cfg.channels, v, stock.value, Answer(answers), now);
        }
    }
    var v := cfg.row.variant;
    forall c <- cfg.channels ensures D.SameAt(s.sync, s'.sync, D.Key(c.id, v)) {
    }
    assert forall c <- cfg.channels :: D.Listed(s'.sync, c, v) <==> D.Listed(s.sync, c, v);
  }

  /** After a listing push every active listing shows the pushed stock, or is as it was. */
  lemma ShownAfterListing(cfg: Config, sync: D.Sync, stock: nat, answers: map<ChannelId, D.Push>,
      now: int, c: D.Channel)
    requires AllLand(answers)
    requires D.DistinctChannels(cfg.channels) && c in cfg.channels
    ensures var v := cfg.row.variant;
            var sync' := D.ListAll(sync, cfg.channels, v, stock, Answer(answers), now).0;
            Shows(sync', c, v, stock) || D.SameAt(sync, sync', D.Key(c.id, v))
  {
    var v := cfg.row.variant;
    D.ListedWhereLanded(sync, cfg.channels, v, stock, Answer(answers), now);
    assert D.ListedAs(sync, D.ListAll(sync, cfg.channels, v, stock, Answer(answers), now).0, c, v, stock,
           Answer(answers)(c.id), now);
  }

  lemma ListingAgrees(cfg: Config, s: Track, s': Track, stock: nat, answers: map<ChannelId, D.Push>,
      now: int)
    requires AllLand(answers)
    requires D.DistinctChannels(cfg.channels) && Agrees(cfg, s) && stock == LevelOf(s.hub, cfg.row).Available()
             && s'.hub == s.hub
    requires s'.sync == D.ListAll(s.sync, cfg.channels, cfg.row.variant, stock, Answer(answers), now).0
    ensures Agrees(cfg, s')
  {
    forall c <- cfg.channels ensures Shows(s'.sync, c, cfg.row.variant, stock) {
      ShownAfterListing(cfg, s.sync, stock, answers, now, c);
      assert Shows(s.sync, c, cfg.row.variant, stock);
    }
  }

  /** A re-publish pushes what was looked up: the committed level, unless a movement is on its way that will push it. */
  lemma PushAnnouncement(cfg: Config, s: Track, stock: nat, answers: map<ChannelId, D.Push>,
      now: int)
    requires AllLand(answers)
    requires D.DistinctChannels(cfg.channels) && Followed(cfg, s) && s.handled < |s.hub.queue|
    requires s.hub.queue[s.handled].body == I.Announced(cfg.row.variant)
    requires Reached(s, cfg.row) ==> stock == LevelOf(s.hub, cfg.row).Available()
    ensures Followed(cfg, OneMore(cfg, s, Some(stock), answers, now))
  {
    var s' := OneMore(cfg, s, Some(stock), answers, now);
    ConsumeOneMore(s, s', cfg.row);
    assert Handled(s', cfg.row) == Handled(s, cfg.row);
    if Reached(s', cfg.row) {
      ListingAgrees(cfg, s, s', stock, answers, now);
    }
  }

  lemma QueueHoldsSingleRow(cfg: Config, h: I.Hub, e: I.Entry)
    requires I.QueueOk(h) && SingleRow(h, cfg.row) && e in h.queue
    ensures e.body.Moved? && e.body.row.variant == cfg.row.variant ==> e.body.row == cfg.row
  {
    assert e in h.log;
  }

  lemma PushKeepsFollowed(cfg: Config, s: Track, stock: Option<nat>,
      answers: map<ChannelId, D.Push>, now: int)
    requires AllLand(answers)
    requires cfg.Valid() && I.Inv(s.hub) && Followed(cfg, s) && s.handled < |s.hub.queue|
    requires var body := s.hub.queue[s.handled].body;
             && (body.Moved? ==> stock == None)
             && (body == I.Announced(cfg.row.variant) && stock.Some? && Reached(s, cfg.row) ==>
                   stock.value == LevelOf(s.hub, cfg.row).Available())
    ensures Followed(cfg, OneMore(cfg, s, stock, answers, now))
  {
    var e := s.hub.queue[s.handled];
    QueueHoldsSingleRow(cfg, s.hub, e);
    match e.body
    case Moved(row, _, _, _, _) =>
      if row == cfg.row { PushMovement(cfg, s, answers, now); } else { PushUnrelated(cfg, s, stock, answers, now); }
    case Announced(v) =>
      if v == cfg.row.variant && stock.Some? {
        PushAnnouncement(cfg, s, stock.value, answers, now);
      } else {
        PushUnrelated(cfg, s, stock, answers, now);
      }
  }

  // ---------------------------------------------------------------- the whole system

  /** Hub and bus are one system. */
  ghost predicate Joined(cfg: Config, s: State) {
    && I.Inv(s.hub) && BusDelivery.Deployed(cfg.bus, s.bus) && BusOrder.BatchLast(s.bus) && Mirrors(s.hub, s.bus)
    && (!s.stage.Fresh? ==> Handling(s))
  }

  /** And the bus handles in order. */
  ghost predicate InStep(cfg: Config, s: State) {
    Joined(cfg, s) && BusOrder.Fifo(s.bus)
  }

  ghost predicate Inv(cfg: Config, s: State) {
    InStep(cfg, s) && Followed(cfg, Tracked(s)) && LookIsFresh(cfg, Tracked(s), s.stage, InHand(s))
  }

  /** The event in hand is the next entry of the hub's queue. */
  lemma InHandBody(cfg: Config, s: State)
    requires InStep(cfg, s) && WORKER in s.bus.consumers
    ensures |s.bus.db.effects| < |s.hub.queue| && InHand(s) == Some(s.hub.queue[|s.bus.db.effects|].body)
  {
    InHandIsNext(cfg.bus, s.hub, s.bus);
    var x := s.hub.queue[|s.bus.db.effects|];
    assert x in s.hub.queue && x in s.hub.log;
    BodyOfEntry(s.hub.log, x);
  }

  lemma CalmBusStep(cfg: EventBus.Config, b: B.State, act: B.Step)
    requires BusDelivery.Deployed(cfg, b) && BusOrder.Fifo(b) && B.Enabled(cfg, b, act) && BusOrder.Calm(act)
    ensures BusDelivery.Deployed(cfg, B.Next(cfg, b, act)) && BusOrder.Fifo(B.Next(cfg, b, act))
  {
    BusOrder.StepKeepsOrder(cfg, b, act);
    BusDelivery.DeployedKept(cfg, b, act);
  }

  lemma OutboxStepLeavesConsumers(cfg: EventBus.Config, b: B.State, act: B.Step)
    requires B.Enabled(cfg, b, act)
    requires act.Write? || act.UndoTo? || act.WriterCommit? || act.WriterAbort?
             || act.Select? || act.RelayCommit? || act.RelayAbort?
    ensures B.Next(cfg, b, act).consumers == b.consumers && B.Next(cfg, b, act).db.effects == b.db.effects
  {
  }

  lemma EchoLeavesConsumers(cfg: EventBus.Config, h: I.Hub, b: B.State, step: I.Step)
    requires I.Enabled(h, step) && (Echo(h, b, step).Some? ==> B.Enabled(cfg, b, Echo(h, b, step).value))
    ensures var b' := Echoed(cfg, b, Echo(h, b, step)); b'.consumers == b.consumers && b'.db.effects == b.db.effects
  {
    if Echo(h, b, step).Some? { OutboxStepLeavesConsumers(cfg, b, Echo(h, b, step).value); }
  }

  lemma HubStepInStep(cfg: Config, s: State, step: I.Step)
    requires InStep(cfg, s) && Enabled(cfg, s, HubStep(step))
    ensures InStep(cfg, Next(cfg, s, HubStep(step)))
  {
    I.NextKeepsInv(s.hub, step);
    HubStepMirrored(cfg.bus, s.hub, s.bus, step);
    EchoLeavesConsumers(cfg.bus, s.hub, s.bus, step);
    var echo := Echo(s.hub, s.bus, step);
    if echo.Some? { CalmBusStep(cfg.bus, s.bus, echo.value); }
  }

  /** In a calm run the bus never holds a step of the hub back. */
  lemma HubStepsAreNotHeldBack(cfg: Config, s: State, step: I.Step)
    requires InStep(cfg, s) && I.Enabled(s.hub, step) && Relayed(cfg.bus, s.bus, step)
    requires step.Post? && step.row.variant == cfg.row.variant ==> step.row == cfg.row
    ensures Enabled(cfg, s, HubStep(step))
  {
    EchoIsEnabled(cfg.bus, s.hub, s.bus, step);
  }

  lemma HubStepKeepsInv(cfg: Config, s: State, step: I.Step)
    requires Inv(cfg, s) && Enabled(cfg, s, HubStep(step))
    ensures Inv(cfg, Next(cfg, s, HubStep(step)))
  {
    var s' := Next(cfg, s, HubStep(step));
    HubStepInStep(cfg, s, step);
    EchoLeavesConsumers(cfg.bus, s.hub, s.bus, step);
    HubStepKeepsFollowed(cfg, Tracked(s), step, s.stage, InHand(s));
    HubStepOnRow(s.hub, step, cfg.row);
    if WORKER in s.bus.consumers {
      InHandBody(cfg, s);
      InHandBody(cfg, s');
    }
    assert Tracked(s') == Tracked(s).(hub := s'.hub);
  }

  /** Reading, beginning and waiting push nothing and handle nothing. */
  lemma BusStepLeavesTrack(cfg: Config, s: State, act: B.Step)
    requires BusOrder.NothingFails(s.bus) && (!s.stage.Fresh? ==> Handling(s))
    requires Enabled(cfg, s, BusStep(act)) && Calm(BusStep(act))
    ensures var s' := Next(cfg, s, BusStep(act));
            && !act.SettleFailure? && Tracked(s') == Tracked(s) && s'.stage == s.stage
            && (!s.stage.Fresh? ==> Handling(s') && InHand(s') == InHand(s))
  {
  }

  lemma BusStepKeepsInv(cfg: Config, s: State, act: B.Step)
    requires Inv(cfg, s) && Enabled(cfg, s, BusStep(act)) && Calm(BusStep(act))
    ensures Inv(cfg, Next(cfg, s, BusStep(act)))
  {
    assert BusOrder.NothingFails(s.bus);
    BusStepLeavesTrack(cfg, s, act);
    assert BusOrder.Calm(act) by { BusDelivery.OnlyWorker(cfg.bus, s.bus); }
    CalmBusStep(cfg.bus, s.bus, act);
    BusStepMirrored(cfg.bus, s.hub, s.bus, act);
  }

  /** The handler moves on; hub and bus stay. */
  lemma StageInStep(cfg: Config, s: State, s': State)
    requires InStep(cfg, s) && s'.hub == s.hub && s'.bus == s.bus && Handling(s)
    ensures InStep(cfg, s')
  {
  }

  lemma StockNowIsCommitted(cfg: Config, s: State)
    requires cfg.Valid() && I.Inv(s.hub) && SingleRow(s.hub, cfg.row)
    ensures StockNow(cfg, s, cfg.row.variant).Some? ==>
              StockNow(cfg, s, cfg.row.variant).value == LevelOf(s.hub, cfg.row).Available()
  {
    HubStockIsRowStock(cfg, s.hub);
  }

  lemma LookKeepsInv(cfg: Config, s: State)
    requires cfg.Valid() && Inv(cfg, s) && Enabled(cfg, s, Look)
    ensures Inv(cfg, Next(cfg, s, Look))
  {
    var s' := Next(cfg, s, Look);
    StageInStep(cfg, s, s');
    StockNowIsCommitted(cfg, s);
    assert Tracked(s') == Tracked(s) && InHand(s') == InHand(s);
  }

  lemma PushTracked(cfg: Config, s: State, answers: map<ChannelId, D.Push>, now: int)
    requires InStep(cfg, s) && Enabled(cfg, s, Push(answers, now))
    ensures var stock := LookedUp(s.stage);
            && |s.bus.db.effects| < |s.hub.queue| && InHand(s) == Some(s.hub.queue[|s.bus.db.effects|].body)
            && Tracked(s).handled == |s.bus.db.effects| && (InHand(s).value.Moved? ==> stock == None)
            && Tracked(Next(cfg, s, Push(answers, now))) == OneMore(cfg, Tracked(s), stock, answers, now)
  {
    InHandBody(cfg, s);
  }

  lemma PushKeepsInv(cfg: Config, s: State, answers: map<ChannelId, D.Push>, now: int)
    requires cfg.Valid() && Inv(cfg, s) && Enabled(cfg, s, Push(answers, now)) && AllLand(answers)
    ensures Inv(cfg, Next(cfg, s, Push(answers, now)))
  {
    PushTracked(cfg, s, answers, now);
    StageInStep(cfg, s, Next(cfg, s, Push(answers, now)));
    PushKeepsFollowed(cfg, Tracked(s), LookedUp(s.stage), answers, now);
  }

  lemma FinishInStep(cfg: Config, s: State)
    requires InStep(cfg, s) && Enabled(cfg, s, Finish)
    ensures InStep(cfg, Next(cfg, s, Finish))
  {
    CalmBusStep(cfg.bus, s.bus, B.CommitHandle(WORKER));
    BusStepMirrored(cfg.bus, s.hub, s.bus, B.CommitHandle(WORKER));
  }

  /** The commit counts as handled what was pushed. */
  lemma FinishTracked(cfg: Config, s: State)
    requires BusDelivery.JobOk(s.bus) && Enabled(cfg, s, Finish)
    ensures Tracked(Next(cfg, s, Finish)) == Tracked(s)
  {
    assert Next(cfg, s, Finish).bus.db.effects == s.bus.db.effects + [s.bus.consumers[WORKER].job.event];
  }

  lemma FinishKeepsInv(cfg: Config, s: State)
    requires Inv(cfg, s) && Enabled(cfg, s, Finish)
    ensures Inv(cfg, Next(cfg, s, Finish))
  {
    assert BusDelivery.JobOk(s.bus);
    FinishInStep(cfg, s);
    FinishTracked(cfg, s);
  }

  lemma OnlineKeepsInv(cfg: Config, s: State, s': State)
    requires Inv(cfg, s) && s' == s.(online := s'.online)
    ensures Inv(cfg, s')
  {
    assert Tracked(s') == Tracked(s) && InHand(s') == InHand(s);
  }

  lemma NextKeepsInv(cfg: Config, s: State, step: Step)
    requires cfg.Valid() && Inv(cfg, s) && Enabled(cfg, s, step) && Calm(step)
    ensures Inv(cfg, Next(cfg, s, step))
  {
    match step
    case HubStep(step) => HubStepKeepsInv(cfg, s, step);
    case BusStep(act) => BusStepKeepsInv(cfg, s, act);
    case SetOnline(v, on) => OnlineKeepsInv(cfg, s, Next(cfg, s, step));
    case Look => LookKeepsInv(cfg, s);
    case Push(answers, now) => PushKeepsInv(cfg, s, answers, now);
    case Finish => FinishKeepsInv(cfg, s);
  }

  lemma StartIsInStep(cfg: Config)
    ensures Inv(cfg, START)
  {
    I.EmptyHubInv();
    assert B.Run(cfg.bus, B.START, []) == Some(B.START);
    BusOrder.CalmRunsKeepOrder(cfg.bus, []);
    assert BusOrder.PublishOrder(B.START.db) == [];
  }

  lemma {:induction false} RunKeepsInv(cfg: Config, steps: seq<Step>)
    requires cfg.Valid() && forall step <- steps :: Calm(step)
    ensures Run(cfg, steps).Some? ==> Inv(cfg, Run(cfg, steps).value)
  {
    if steps == [] {
      StartIsInStep(cfg);
    } else {
      var n := |steps| - 1;
      assert steps[n] in steps && forall step <- steps[..n] :: step in steps;
      RunKeepsInv(cfg, steps[..n]);
      if Run(cfg, steps).Some? {
        NextKeepsInv(cfg, Run(cfg, steps[..n]).value, steps[n]);
      }
    }
  }

  // ---------------------------------------------------------------- the result

  /** Outbox and queue are drained: every committed event is published, and no message is left. */
  ghost predicate Drained(s: State) {
    (forall e <- s.hub.log :: e.seqno in s.hub.published) && s.bus.db.live == map[]
  }

  lemma DrainedIsHandled(cfg: Config, s: State)
    requires InStep(cfg, s) && Drained(s)
    ensures Tracked(s).handled == |s.hub.queue|
  {
    HandledIsAPrefix(cfg.bus, s.hub, s.bus);
    assert BusDelivery.JobOk(s.bus);
  }

  /** Everything is pushed: the row's movements are all handled. */
  lemma AllReached(cfg: Config, s: Track)
    requires I.Inv(s.hub) && s.handled == |s.hub.queue| && forall e <- s.hub.log :: e.seqno in s.hub.published
    ensures Reached(s, cfg.row)
  {
    assert s.hub.queue[..s.handled] == s.hub.queue;
    if cfg.row in s.hub.levels {
      I.DrainedRow(s.hub, cfg.row);
    } else {
      HandledIsBehind(s, cfg.row);
    }
  }

  lemma ShownFigure(sync: D.Sync, c: D.Channel, v: VariantId, level: Level)
    requires Shows(sync, c, v, level.Available())
    ensures D.Listed(sync, c, v) ==>
              D.Key(c.id, v) in sync.shown
                && sync.shown[D.Key(c.id, v)] == Max(level.qty - level.reserved - c.safety, 0)
  {
  }

  lemma DrainedAgrees(cfg: Config, s: State)
    requires Inv(cfg, s) && Drained(s)
    ensures Agrees(cfg, Tracked(s))
  {
    DrainedIsHandled(cfg, s);
    AllReached(cfg, Tracked(s));
  }

  /** Every active listing of v shows max(qty - reserved - safety stock, 0). */
  ghost predicate ChannelsShow(channels: seq<D.Channel>, sync: D.Sync, v: VariantId, level: Level) {
    forall c <- channels :: D.Listed(sync, c, v) ==>
      D.Key(c.id, v) in sync.shown && sync.shown[D.Key(c.id, v)] == Max(level.qty - level.reserved - c.safety, 0)
  }

  lemma AgreeingChannelsShow(cfg: Config, s: Track)
    requires Agrees(cfg, s)
    ensures ChannelsShow(cfg.channels, s.sync, cfg.row.variant, LevelOf(s.hub, cfg.row))
  {
    forall c <- cfg.channels {
      ShownFigure(s.sync, c, cfg.row.variant, LevelOf(s.hub, cfg.row));
    }
  }

  /**
   In a run in which no push fails, no handler fails and no consumer crashes, once outbox and queue are drained
   the channels show the committed row.
   */
  lemma DrainedChannelsAgree(cfg: Config, steps: seq<Step>)
    requires cfg.Valid() && Run(cfg, steps).Some? && Drained(Run(cfg, steps).value)
    requires forall step <- steps :: Calm(step)
    ensures var s := Run(cfg, steps).value;
            ChannelsShow(cfg.channels, s.sync, cfg.row.variant, LevelOf(s.hub, cfg.row))
  {
    RunKeepsInv(cfg, steps);
    DrainedAgrees(cfg, Run(cfg, steps).value);
    AgreeingChannelsShow(cfg, Tracked(Run(cfg, steps).value));
  }
}
