/** One consumer crash, and the channel ends at a figure that is no longer the row's. */
module PipelineCrash {
  import opened Results
  import opened Inventory
  import opened OrderIngest
  import opened HubBus
  import opened Pipeline
  import C = Canonical
  import D = Dispatcher
  import I = Interleaving
  import B = BusProtocol
  import EventBus

  const SHOP := D.Channel(1, 0)
  const SHELF := Row(0, 7)

  /** One online warehouse, one channel without safety stock, batches of three, thirty seconds of visibility. */
  const SETUP := Config(Catalog(map[], {0}, [Warehouse(7, true)]), [SHOP], SHELF, EventBus.Config(3, 30, 5, 2, 60))

  lemma OneMoreStep(steps: seq<Step>, step: Step, s: State, s': State)
    requires Run(SETUP, steps) == Some(s) && Enabled(SETUP, s, step) && Next(SETUP, s, step) == s'
    ensures Run(SETUP, steps + [step]) == Some(s')
  {
    assert (steps + [step])[..|steps|] == steps;
  }

  // ---------------------------------------------------------------- the transaction

  const E0 := I.Entry(0, I.Announced(0))
  const E1 := I.Entry(1, I.Moved(SHELF, In, 5, None, Level(5, 0, 1)))
  const E2 := I.Entry(2, I.Moved(SHELF, In, 3, None, Level(8, 0, 2)))

  /** The variant is re-published, five units come in, then three more. */
  const WRITES := [HubStep(I.Begin(0))] + [HubStep(I.Lock(0, SHELF))] + [HubStep(I.Announce(0, 0))]
    + [HubStep(I.Post(0, SHELF, In, 5, None))] + [HubStep(I.Post(0, SHELF, In, 3, None))] + [HubStep(I.Commit(0))]

  function Writing(work: I.Work, n: nat, rows: set<EventBus.EventId>): State {
    START.(hub := I.EMPTY_HUB.(txs := map[0 := I.Tx(work, [], map[])], nextSeq := n),
           bus := if n == 0 then B.START else B.START.(writers := map[0 := rows], nextEvent := n))
  }

  const HUB := I.Hub(map[SHELF := Level(8, 0, 2)], [E0] + [E1] + [E2], map[], 3, {}, [], None)
  const BUS := B.START.(db := B.START.db.(outbox := map[0 := false, 1 := false, 2 := false]), nextEvent := 3)
  const WRITTEN := START.(hub := HUB, bus := BUS)

  lemma Begins()
    ensures Run(SETUP, [HubStep(I.Begin(0))] + [HubStep(I.Lock(0, SHELF))])
            == Some(Writing(I.Work({SHELF}, map[], [], {}), 0, {}))
  {
    var none: seq<Step> := [];
    var s1 := Writing(I.NO_WORK, 0, {});
    assert I.Next(I.EMPTY_HUB, I.Begin(0)).txs == s1.hub.txs;
    OneMoreStep(none, HubStep(I.Begin(0)), START, s1);
    assert none + [HubStep(I.Begin(0))] == [HubStep(I.Begin(0))];
    var s2 := Writing(I.Work({SHELF}, map[], [], {}), 0, {});
    assert I.Next(s1.hub, I.Lock(0, SHELF)).txs[0].work.locks == {SHELF};
    assert I.Next(s1.hub, I.Lock(0, SHELF)).txs == s2.hub.txs;
    OneMoreStep([HubStep(I.Begin(0))], HubStep(I.Lock(0, SHELF)), s1, s2);
  }

  const LOCKED := I.Work({SHELF}, map[], [], {})
  const NAMED := I.Work({SHELF}, map[], [E0], {})
  const FIVE := I.Work({SHELF}, map[SHELF := Level(5, 0, 1)], [E0] + [E1], {})
  const EIGHT := I.Work({SHELF}, map[SHELF := Level(8, 0, 2)], [E0] + [E1] + [E2], {})

  lemma Announces()
    ensures var s := Writing(LOCKED, 0, {});
            && Enabled(SETUP, s, HubStep(I.Announce(0, 0)))
            && Next(SETUP, s, HubStep(I.Announce(0, 0))) == Writing(NAMED, 1, {0})
  {
    var s, s' := Writing(LOCKED, 0, {}), Writing(NAMED, 1, {0});
    var step, none: set<EventBus.EventId> := I.Announce(0, 0), {};
    assert I.Next(s.hub, step).txs[0].work.log == NAMED.log;
    assert I.Next(s.hub, step).txs == s'.hub.txs;
    assert none + {0} == {0};
    assert B.Next(SETUP.bus, s.bus, B.Write(0)) == s'.bus;
  }

  lemma PostsFive()
    ensures var s, step := Writing(NAMED, 1, {0}), HubStep(I.Post(0, SHELF, In, 5, None));
            Enabled(SETUP, s, step) && Next(SETUP, s, step) == Writing(FIVE, 2, {0, 1})
  {
    var s, s', step := Writing(NAMED, 1, {0}), Writing(FIVE, 2, {0, 1}), I.Post(0, SHELF, In, 5, None);
    assert I.Seen(s.hub, 0, SHELF) == I.View(s.hub, 0, SHELF) == None;
    assert I.LevelAfter(s.hub, 0, SHELF, In, 5) == Level(5, 0, 1) && I.StaleAfter(s.hub, 0, SHELF) == {};
    assert I.Next(s.hub, step).txs[0].work == FIVE;
    assert I.Next(s.hub, step).txs == s'.hub.txs;
    assert {0} + {1} == {0, 1};
    assert B.Next(SETUP.bus, s.bus, B.Write(0)).writers == s'.bus.writers;
  }

  lemma PostsThree()
    ensures var s, step := Writing(FIVE, 2, {0, 1}), HubStep(I.Post(0, SHELF, In, 3, None));
            Enabled(SETUP, s, step) && Next(SETUP, s, step) == Writing(EIGHT, 3, {0, 1, 2})
  {
    var s, s', step := Writing(FIVE, 2, {0, 1}), Writing(EIGHT, 3, {0, 1, 2}), I.Post(0, SHELF, In, 3, None);
    assert I.Seen(s.hub, 0, SHELF) == I.View(s.hub, 0, SHELF) == Some(Level(5, 0, 1));
    assert I.LevelAfter(s.hub, 0, SHELF, In, 3) == Level(8, 0, 2) && I.StaleAfter(s.hub, 0, SHELF) == {};
    assert I.Next(s.hub, step).txs[0].work == EIGHT;
    assert I.Next(s.hub, step).txs == s'.hub.txs;
    assert {0, 1} + {2} == {0, 1, 2};
    assert B.Next(SETUP.bus, s.bus, B.Write(0)).writers == s'.bus.writers;
  }

  lemma Commits()
    ensures var s := Writing(EIGHT, 3, {0, 1, 2});
            Enabled(SETUP, s, HubStep(I.Commit(0))) && Next(SETUP, s, HubStep(I.Commit(0))) == WRITTEN
  {
    var s := Writing(EIGHT, 3, {0, 1, 2});
    assert s.hub.txs - {0} == map[] && s.bus.writers - {0} == map[];
    assert I.Next(s.hub, I.Commit(0)) == HUB;
    assert B.Next(SETUP.bus, s.bus, B.WriterCommit(0)).db.outbox == BUS.db.outbox;
  }

  lemma Writes()
    ensures Run(SETUP, WRITES) == Some(WRITTEN)
  {
    Begins();
    var steps := [HubStep(I.Begin(0))] + [HubStep(I.Lock(0, SHELF))];
    Announces();
    OneMoreStep(steps, HubStep(I.Announce(0, 0)), Writing(LOCKED, 0, {}), Writing(NAMED, 1, {0}));
    steps := steps + [HubStep(I.Announce(0, 0))];
    PostsFive();
    OneMoreStep(steps, HubStep(I.Post(0, SHELF, In, 5, None)), Writing(NAMED, 1, {0}), Writing(FIVE, 2, {0, 1}));
    steps := steps + [HubStep(I.Post(0, SHELF, In, 5, None))];
    PostsThree();
    OneMoreStep(steps, HubStep(I.Post(0, SHELF, In, 3, None)), Writing(FIVE, 2, {0, 1}), Writing(EIGHT, 3, {0, 1, 2}));
    steps := steps + [HubStep(I.Post(0, SHELF, In, 3, None))];
    Commits();
    OneMoreStep(steps, HubStep(I.Commit(0)), Writing(EIGHT, 3, {0, 1, 2}), WRITTEN);
  }

  // ---------------------------------------------------------------- the relay

  const SELECT := HubStep(I.SelectBatch(HUB.log, 3))
  const SENDS := WRITES + [SELECT] + [BusStep(B.Send(0))] + [BusStep(B.Send(0))] + [BusStep(B.Send(0))]
  const PUBLISHES := SENDS + [HubStep(I.Publish)]

  function Sending(sent: seq<EventBus.MsgId>): State {
    WRITTEN.(hub := HUB.(batch := Some(HUB.log)),
             bus := BUS.(relays := map[0 := B.Batch([0, 1, 2], sent)], db := BUS.db.(nextMsg := |sent|)))
  }

  const SENT := WRITTEN.(
    hub := HUB.(published := {0, 1, 2}, queue := HUB.log),
    bus := BUS.(db := EventBus.Db(map[0 := true, 1 := true, 2 := true],
                                  map[0 := EventBus.Message(0, 0, 0), 1 := EventBus.Message(1, 0, 0),
                                      2 := EventBus.Message(2, 0, 0)], map[], [], {}, [], 3)))

  lemma AllAreUnpublished()
    ensures B.BatchFor(SETUP.bus, BUS) == [0, 1, 2]
  {
    assert B.LockedRows(BUS) == {};
    assert EventBus.Unpublished(BUS.db.outbox, {}, 3, 0) == [];
    assert EventBus.Unpublished(BUS.db.outbox, {}, 3, 1) == [0];
    assert EventBus.Unpublished(BUS.db.outbox, {}, 3, 2) == [0, 1];
    assert EventBus.Unpublished(BUS.db.outbox, {}, 3, 3) == [0, 1, 2];
  }

  lemma AllAreABatch()
    ensures I.IsBatch(HUB, HUB.log, 3)
  {
    assert HUB.log == [E0, E1, E2];
  }

  lemma Selects()
    ensures Enabled(SETUP, WRITTEN, SELECT) && Next(SETUP, WRITTEN, SELECT) == Sending([])
  {
    AllAreUnpublished();
    AllAreABatch();
    assert B.Next(SETUP.bus, BUS, B.Select(0)).relays == Sending([]).bus.relays;
  }

  lemma Sends(sent: seq<EventBus.MsgId>)
    requires |sent| < 3
    ensures Enabled(SETUP, Sending(sent), BusStep(B.Send(0)))
    ensures Next(SETUP, Sending(sent), BusStep(B.Send(0))) == Sending(sent + [|sent|])
  {
    var s, s' := Sending(sent), Sending(sent + [|sent|]);
    assert B.Next(SETUP.bus, s.bus, B.Send(0)).relays == s'.bus.relays;
  }

  lemma SentTables()
    ensures EventBus.Enqueued(map[], [0, 1, 2], [0, 1, 2], 0) == SENT.bus.db.live
    ensures EventBus.Published(BUS.db.outbox, [0, 1, 2]) == SENT.bus.db.outbox
  {
    assert [0, 1, 2][..2] == [0, 1] && [0, 1][..1] == [0] && [0][..0] == [];
    assert EventBus.Enqueued(map[], [], [], 0) == map[];
    assert EventBus.Enqueued(map[], [0], [0], 0) == map[0 := EventBus.Message(0, 0, 0)];
    assert EventBus.Enqueued(map[], [0, 1], [0, 1], 0)
           == map[0 := EventBus.Message(0, 0, 0), 1 := EventBus.Message(1, 0, 0)];
  }

  lemma BusPublishes()
    ensures B.Enabled(SETUP.bus, Sending([0, 1, 2]).bus, B.RelayCommit(0))
    ensures B.Next(SETUP.bus, Sending([0, 1, 2]).bus, B.RelayCommit(0)) == SENT.bus
  {
    SentTables();
    assert Sending([0, 1, 2]).bus.relays - {0} == map[];
  }

  lemma ThreeNumbers()
    ensures I.SeqNos(HUB.log) == {0, 1, 2}
  {
    var none: seq<I.Entry> := [];
    assert I.SeqNos(none) == {} && none + [E0] == [E0];
    SeqNosSnoc(none, E0);
    SeqNosSnoc([E0], E1);
    SeqNosSnoc([E0] + [E1], E2);
    assert {} + {0} + {1} + {2} == {0, 1, 2};
  }

  lemma HubPublishes()
    ensures I.Enabled(Sending([0, 1, 2]).hub, I.Publish)
    ensures I.Next(Sending([0, 1, 2]).hub, I.Publish) == SENT.hub
  {
    ThreeNumbers();
    var none: set<nat> := {};
    assert none + {0, 1, 2} == {0, 1, 2} && [] + HUB.log == HUB.log;
  }

  lemma PublishesAll()
    ensures var s := Sending([0, 1, 2]);
            Enabled(SETUP, s, HubStep(I.Publish)) && Next(SETUP, s, HubStep(I.Publish)) == SENT
  {
    BusPublishes();
    HubPublishes();
  }

  lemma SendsAll()
    ensures Run(SETUP, SENDS) == Some(Sending([0, 1, 2]))
  {
    Writes();
    Selects();
    OneMoreStep(WRITES, SELECT, WRITTEN, Sending([]));
    SendsOne(WRITES + [SELECT], [], [0]);
    SendsOne(WRITES + [SELECT] + [BusStep(B.Send(0))], [0], [0, 1]);
    SendsOne(WRITES + [SELECT] + [BusStep(B.Send(0))] + [BusStep(B.Send(0))], [0, 1], [0, 1, 2]);
  }

  lemma SendsOne(steps: seq<Step>, sent: seq<EventBus.MsgId>, sent': seq<EventBus.MsgId>)
    requires Run(SETUP, steps) == Some(Sending(sent)) && |sent| < 3 && sent' == sent + [|sent|]
    ensures Run(SETUP, steps + [BusStep(B.Send(0))]) == Some(Sending(sent'))
  {
    Sends(sent);
    OneMoreStep(steps, BusStep(B.Send(0)), Sending(sent), Sending(sent'));
  }

  lemma Publishes()
    ensures Run(SETUP, PUBLISHES) == Some(SENT)
  {
    SendsAll();
    PublishesAll();
    OneMoreStep(SENDS, HubStep(I.Publish), Sending([0, 1, 2]), SENT);
  }

  // ---------------------------------------------------------------- the consumer

  /** The message m was read, counted and hidden; its reader is in this phase. */
  function Reader(s: State, m: EventBus.MsgId, phase: B.Phase): State
    requires m in s.bus.db.live
  {
    var message := s.bus.db.live[m];
    var live := s.bus.db.live[m := EventBus.Message(message.event, message.readCt + 1, s.bus.now + 30)];
    s.(bus := s.bus.(db := s.bus.db.(live := live), consumers := map[0 := phase]))
  }

  function JobOf(s: State, m: EventBus.MsgId): B.Job
    requires m in s.bus.db.live
  {
    B.Job(m, s.bus.db.live[m].event, s.bus.db.live[m].readCt + 1)
  }

  function Reading(s: State, m: EventBus.MsgId): State
    requires m in s.bus.db.live
  {
    Reader(s, m, B.Handling(JobOf(s, m), false))
  }

  predicate Readable(s: State, m: EventBus.MsgId) {
    s.bus.consumers == map[] && m in s.bus.db.live && EventBus.IsNext(s.bus.db, m, s.bus.now)
  }

  lemma Holds(steps: seq<Step>, s: State, m: EventBus.MsgId)
    requires Run(SETUP, steps) == Some(s) && Readable(s, m)
    ensures Run(SETUP, steps + [BusStep(B.Read(0, m))]) == Some(Reader(s, m, B.Holding(JobOf(s, m))))
  {
    var held := Next(SETUP, s, BusStep(B.Read(0, m)));
    OneMoreStep(steps, BusStep(B.Read(0, m)), s, held);
    assert held.bus.consumers == map[0 := B.Holding(JobOf(s, m))];
  }

  /** The lowest visible message of an event not yet handled is read and its handler begins. */
  lemma Reads(steps: seq<Step>, s: State, m: EventBus.MsgId)
    requires Run(SETUP, steps) == Some(s) && Readable(s, m) && s.bus.db.live[m].event !in s.bus.db.keys
    ensures Run(SETUP, steps + [BusStep(B.Read(0, m))] + [BusStep(B.BeginHandle(0))]) == Some(Reading(s, m))
  {
    Holds(steps, s, m);
    var held := Reader(s, m, B.Holding(JobOf(s, m)));
    assert Next(SETUP, held, BusStep(B.BeginHandle(0))).bus.consumers == Reading(s, m).bus.consumers;
    OneMoreStep(steps + [BusStep(B.Read(0, m))], BusStep(B.BeginHandle(0)), held, Reading(s, m));
  }

  /** The message m is handled: its event keyed and its effect committed, the message archived. */
  function Done(s: State, m: EventBus.MsgId, sync: D.Sync): State
    requires m in s.bus.db.live
  {
    var db, message := s.bus.db, s.bus.db.live[m];
    s.(sync := sync, stage := Fresh,
       bus := s.bus.(consumers := map[],
                     db := db.(live := db.live - {m}, archive := db.archive[m := message],
                               keys := db.keys + {message.event}, effects := db.effects + [message.event])))
  }

  /** The handler pushes, nothing raises, and everything commits. */
  lemma Handles(steps: seq<Step>, s: State, m: EventBus.MsgId, answers: map<ChannelId, D.Push>, sync: D.Sync)
    requires Run(SETUP, steps) == Some(s) && m in s.bus.db.live
    requires var message := s.bus.db.live[m];
             s.bus.consumers == map[0 := B.Handling(B.Job(m, message.event, message.readCt), false)]
    requires MayPush(s) && Dispatched(SETUP, s.sync, InHand(s).value, LookedUp(s.stage), Answer(answers), 0)
             == (sync, false)
    ensures Run(SETUP, steps + [Push(answers, 0)] + [Finish]) == Some(Done(s, m, sync))
  {
    var pushed := Next(SETUP, s, Push(answers, 0));
    OneMoreStep(steps, Push(answers, 0), s, pushed);
    var done := Next(SETUP, pushed, Finish);
    OneMoreStep(steps + [Push(answers, 0)], Finish, pushed, done);
    assert s.bus.consumers - {0} == map[];
  }

  const KEY := D.Key(1, 0)

  /** The channel's active listing at the figure n. */
  function At(n: nat): D.Sync {
    D.Sync(map[KEY := D.Listing(D.Active, Some("x"), Some(0))], map[KEY := n])
  }

  const ACCEPTS: map<ChannelId, D.Push> := map[1 := D.Landed(Some(("x", D.Active)))]
  const TAKES: map<ChannelId, D.Push> := map[]

  const ONLINE := SENT.(online := {0})
  const LOOKED := Reading(ONLINE, 0).(stage := Looked(Some(8)))
  const LISTED := Done(LOOKED, 0, At(8))

  const READS_FIRST := PUBLISHES + [SetOnline(0, true)] + [BusStep(B.Read(0, 0))] + [BusStep(B.BeginHandle(0))]
  const LISTS := READS_FIRST + [Look] + [Push(ACCEPTS, 0)] + [Finish]

  lemma ShelfHoldsEight()
    ensures C.HubStock(SETUP.cat, HUB.levels, 0) == 8
  {
    assert SETUP.cat.warehouses[1..] == [];
    assert Online(SETUP.cat.warehouses) == [7];
    C.OfferedIsReservable(SETUP.cat, HUB.levels, 0);
    assert [7][1..] == [];
    assert TotalAvail(HUB.levels, 0, []) == 0 && Avail(HUB.levels, 0, 7) == 8;
  }

  lemma Bodies()
    ensures BodyOf(HUB.log, 0) == Some(E0.body) && BodyOf(HUB.log, 1) == Some(E1.body)
    ensures BodyOf(HUB.log, 2) == Some(E2.body)
  {
    var one, two, log := [E0], [E0] + [E1], HUB.log;
    assert log[..2] == two && two[..1] == one;
    assert BodyOf(one, 0) == Some(E0.body);
    assert BodyOf(two, 0) == BodyOf(two[..1], 0) && BodyOf(two, 1) == Some(E1.body);
    assert BodyOf(log, 0) == BodyOf(log[..2], 0) && BodyOf(log, 1) == BodyOf(log[..2], 1);
  }

  lemma ReadsFirst()
    ensures Run(SETUP, READS_FIRST) == Some(Reading(ONLINE, 0))
  {
    Publishes();
    var none: set<VariantId> := {};
    assert none + {0} == {0};
    OneMoreStep(PUBLISHES, SetOnline(0, true), SENT, ONLINE);
    Reads(PUBLISHES + [SetOnline(0, true)], ONLINE, 0);
  }

  lemma ListingPush()
    ensures MayPush(LOOKED)
    ensures Dispatched(SETUP, LOOKED.sync, InHand(LOOKED).value, LookedUp(LOOKED.stage), Answer(ACCEPTS), 0)
            == (At(8), false)
  {
    Bodies();
    assert InHand(LOOKED) == Some(E0.body) && LookedUp(LOOKED.stage) == Some(8);
    OneChannelList(LOOKED.sync, 8, Answer(ACCEPTS));
    assert D.ListOn(LOOKED.sync, SHOP, 0, 8, Answer(ACCEPTS)(1), 0) == At(8);
  }

  lemma OneChannelList(sync: D.Sync, stock: nat, push: ChannelId -> D.Push)
    ensures D.ListAll(sync, [SHOP], 0, stock, push, 0) == (D.ListOn(sync, SHOP, 0, stock, push(1), 0), push(1).Raised?)
  {
    assert [SHOP][..0] == [];
    assert D.ListAll(sync, [], 0, stock, push, 0) == (sync, false);
  }

  lemma OneChannelStock(sync: D.Sync, available: int, push: ChannelId -> D.Push)
    requires push(1).Landed?
    ensures D.StockAll(sync, [SHOP], 0, available, push, 0) == (D.StockOn(sync, SHOP, 0, available, push(1), 0), false)
  {
    assert [SHOP][..0] == [];
    assert D.StockAll(sync, [], 0, available, push, 0) == (sync, false);
  }

  lemma Lists()
    ensures Run(SETUP, LISTS) == Some(LISTED)
  {
    ReadsFirst();
    ShelfHoldsEight();
    Bodies();
    OneMoreStep(READS_FIRST, Look, Reading(ONLINE, 0), LOOKED);
    ListingPush();
    Handles(READS_FIRST + [Look], LOOKED, 0, ACCEPTS, At(8));
  }

  // ---------------------------------------------------------------- the crash

  /** The first movement's message was read, and its consumer is gone. */
  const LOST := LISTED.(bus := LISTED.bus.(
    db := LISTED.bus.db.(live := map[1 := EventBus.Message(1, 1, 30), 2 := EventBus.Message(2, 0, 0)]),
    crashes := map[1 := 1]))

  const CRASHES := LISTS + [BusStep(B.Read(0, 1))] + [BusStep(B.ConsumerCrash(0))]

  lemma ReadAndCrash(steps: seq<Step>, s: State, m: EventBus.MsgId, s': State)
    requires Run(SETUP, steps) == Some(s) && Readable(s, m) && s.bus.crashes == map[] && s.stage.Fresh?
    requires var held := Reader(s, m, B.Holding(JobOf(s, m)));
             s' == held.(bus := held.bus.(consumers := map[], crashes := map[m := 1]))
    ensures Run(SETUP, steps + [BusStep(B.Read(0, m))] + [BusStep(B.ConsumerCrash(0))]) == Some(s')
  {
    Holds(steps, s, m);
    var held := Reader(s, m, B.Holding(JobOf(s, m)));
    assert held.bus.consumers - {0} == map[] && s.bus.crashes[m := 1] == map[m := 1];
    assert Next(SETUP, held, BusStep(B.ConsumerCrash(0))) == s';
    OneMoreStep(steps + [BusStep(B.Read(0, m))], BusStep(B.ConsumerCrash(0)), held, s');
  }

  lemma ListedTables()
    ensures LISTED.bus.db.live == map[1 := EventBus.Message(1, 0, 0), 2 := EventBus.Message(2, 0, 0)]
    ensures LISTED.bus.db.keys == {0} && LISTED.bus.consumers == map[] && LISTED.bus.now == 0
    ensures LISTED.bus.crashes == map[] && LISTED.stage.Fresh?
  {
  }

  lemma LostTables()
    ensures 1 in LISTED.bus.db.live
    ensures var held := Reader(LISTED, 1, B.Holding(JobOf(LISTED, 1)));
            LOST == held.(bus := held.bus.(consumers := map[], crashes := map[1 := 1]))
  {
    ListedTables();
    assert LISTED.bus.db.live[1 := EventBus.Message(1, 1, 30)] == LOST.bus.db.live;
  }

  lemma Crashes()
    ensures Run(SETUP, CRASHES) == Some(LOST)
  {
    Lists();
    ListedTables();
    LostTables();
    ReadAndCrash(LISTS, LISTED, 1, LOST);
  }

  const AHEAD := Done(Reading(LOST, 2), 2, At(8))
  const OVERTAKES := CRASHES + [BusStep(B.Read(0, 2))] + [BusStep(B.BeginHandle(0))] + [Push(TAKES, 0)] + [Finish]

  lemma MovementPush(s: State, n: nat, level: Level)
    requires s.sync == At(n) && s.stage.Fresh? && Handling(s)
    requires InHand(s).Some? && InHand(s).value.Moved? && InHand(s).value.row == SHELF && InHand(s).value.level == level
    requires level.reserved == 0 && level.qty >= 0
    ensures MayPush(s)
    ensures Dispatched(SETUP, s.sync, InHand(s).value, LookedUp(s.stage), Answer(TAKES), 0) == (At(level.qty), false)
  {
    OneChannelStock(s.sync, level.qty, Answer(TAKES));
    assert D.StockOn(s.sync, SHOP, 0, level.qty, Answer(TAKES)(1), 0) == At(level.qty);
  }

  lemma Overtakes()
    ensures Run(SETUP, OVERTAKES) == Some(AHEAD)
  {
    Crashes();
    Bodies();
    Reads(CRASHES, LOST, 2);
    MovementPush(Reading(LOST, 2), 8, Level(8, 0, 2));
    Handles(CRASHES + [BusStep(B.Read(0, 2))] + [BusStep(B.BeginHandle(0))], Reading(LOST, 2), 2, TAKES, At(8));
  }

  const WAITED := AHEAD.(bus := AHEAD.bus.(now := 30))
  const BEHIND := Done(Reading(WAITED, 1), 1, At(5))
  const ONE_CRASH := OVERTAKES + [BusStep(B.Tick(30))] + [BusStep(B.Read(0, 1))] + [BusStep(B.BeginHandle(0))]
    + [Push(TAKES, 0)] + [Finish]

  lemma AheadTables()
    ensures AHEAD.bus.db.live == map[1 := EventBus.Message(1, 1, 30)] && AHEAD.bus.db.keys == {0, 2}
    ensures AHEAD.bus.consumers == map[] && AHEAD.sync == At(8) && AHEAD.stage.Fresh? && AHEAD.hub == SENT.hub
    ensures AHEAD.bus.now == 0 && AHEAD.bus.db.dlq == []
  {
    ListedTables();
    assert Reading(LOST, 2).bus.db.live - {2} == map[1 := EventBus.Message(1, 1, 30)];
    assert LOST.bus.db.keys + {2} == {0, 2};
  }

  lemma Ticks(s: State)
    ensures Enabled(SETUP, s, BusStep(B.Tick(30)))
    ensures Next(SETUP, s, BusStep(B.Tick(30))) == s.(bus := s.bus.(now := s.bus.now + 30))
  {
  }

  lemma Waits()
    ensures Run(SETUP, OVERTAKES + [BusStep(B.Tick(30))]) == Some(WAITED)
  {
    Overtakes();
    assert AHEAD.bus.now == 0;
    Ticks(AHEAD);
    OneMoreStep(OVERTAKES, BusStep(B.Tick(30)), AHEAD, WAITED);
  }

  lemma ComesBack()
    ensures Run(SETUP, ONE_CRASH) == Some(BEHIND)
  {
    Waits();
    AheadTables();
    Bodies();
    Reads(OVERTAKES + [BusStep(B.Tick(30))], WAITED, 1);
    MovementPush(Reading(WAITED, 1), 8, Level(5, 0, 1));
    Handles(OVERTAKES + [BusStep(B.Tick(30))] + [BusStep(B.Read(0, 1))] + [BusStep(B.BeginHandle(0))],
            Reading(WAITED, 1), 1, TAKES, At(5));
  }

  lemma BehindTables()
    ensures BEHIND.bus.db.live == map[] && BEHIND.bus.db.dlq == [] && BEHIND.sync == At(5) && BEHIND.hub == SENT.hub
  {
    AheadTables();
    assert Reading(WAITED, 1).bus.db.live - {1} == map[];
  }

  predicate CalmButCrash(step: Step) {
    Calm(step) || step == BusStep(B.ConsumerCrash(0))
  }

  lemma CalmAfterWrites()
    ensures forall step <- PUBLISHES :: CalmButCrash(step)
  {
    assert forall step <- WRITES :: Calm(step);
  }

  lemma OnlyTheCrash()
    ensures forall step <- ONE_CRASH :: CalmButCrash(step)
  {
    CalmAfterWrites();
    assert forall step <- LISTS :: CalmButCrash(step);
    assert forall step <- OVERTAKES :: CalmButCrash(step);
  }

  /**
   A run in which nothing but one consumer crash goes wrong: everything is drained and nothing dead-lettered, the row
   holds eight units, and the channel's active listing shows five.
   */
  lemma OneCrashLeavesTheOlderFigure()
    ensures Run(SETUP, ONE_CRASH) == Some(BEHIND) && Drained(BEHIND) && BEHIND.bus.db.dlq == []
    ensures forall step <- ONE_CRASH :: CalmButCrash(step)
    ensures D.Listed(BEHIND.sync, SHOP, 0) && BEHIND.sync.shown[D.Key(SHOP.id, 0)] == 5
    ensures LevelOf(BEHIND.hub, SHELF) == Level(8, 0, 2) && !Shows(BEHIND.sync, SHOP, 0, 8)
  {
    ComesBack();
    BehindTables();
    OnlyTheCrash();
    BehindIsDrained();
  }

  lemma BehindIsDrained()
    ensures Drained(BEHIND) && LevelOf(BEHIND.hub, SHELF) == Level(8, 0, 2)
    ensures D.Listed(BEHIND.sync, SHOP, 0) && BEHIND.sync.shown[D.Key(SHOP.id, 0)] == 5
    ensures !Shows(BEHIND.sync, SHOP, 0, 8)
  {
    BehindTables();
  }
}
