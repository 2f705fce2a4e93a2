/**
 What every run of the whole system keeps, whatever is skipped, raises, fails or crashes.

 A push is not undone when the handler's transaction rolls back, and a message whose consumer crashed
 comes back after others were handled.  So a channel shows the stock of the last push that landed
 there, and this need not be the newest one.
 */
module PipelineFaults {
  import opened Results
  import opened Inventory
  import opened OrderIngest
  import opened HubBus
  import opened Pipeline
  import D = Dispatcher
  import I = Interleaving
  import B = BusProtocol
  import BusOrder
  import BusDelivery
  import EventBus

  // ---------------------------------------------------------------- hub and bus stay one system

  lemma HubStepJoined(cfg: Config, s: State, step: I.Step)
    requires Joined(cfg, s) && Enabled(cfg, s, HubStep(step))
    ensures Joined(cfg, Next(cfg, s, HubStep(step)))
  {
    I.NextKeepsInv(s.hub, step);
    HubStepMirrored(cfg.bus, s.hub, s.bus, step);
    EchoLeavesConsumers(cfg.bus, s.hub, s.bus, step);
    var echo := Echo(s.hub, s.bus, step);
    if echo.Some? {
      BusDelivery.DeployedKept(cfg.bus, s.bus, echo.value);
      BusOrder.BatchStaysLast(cfg.bus, s.bus, echo.value);
    }
  }

  /** The consumer's steps that undo nothing leave a running handler alone. */
  lemma HandlerGoesOn(cfg: Config, s: State, act: B.Step)
    requires BusDelivery.JobOk(s.bus) && Enabled(cfg, s, BusStep(act)) && !Undoes(act) && Handling(s)
    ensures Handling(Next(cfg, s, BusStep(act)))
    ensures Next(cfg, s, BusStep(act)).bus.consumers == s.bus.consumers
  {
  }

  lemma BusStepJoined(cfg: Config, s: State, act: B.Step)
    requires Joined(cfg, s) && Enabled(cfg, s, BusStep(act))
    ensures Joined(cfg, Next(cfg, s, BusStep(act)))
  {
    BusDelivery.DeployedKept(cfg.bus, s.bus, act);
    BusOrder.BatchStaysLast(cfg.bus, s.bus, act);
    BusStepMirrored(cfg.bus, s.hub, s.bus, act);
    if !Undoes(act) && Handling(s) {
      assert BusDelivery.JobOk(s.bus);
      HandlerGoesOn(cfg, s, act);
    }
  }

  lemma FinishJoined(cfg: Config, s: State)
    requires Joined(cfg, s) && Enabled(cfg, s, Finish)
    ensures Joined(cfg, Next(cfg, s, Finish))
  {
    BusDelivery.DeployedKept(cfg.bus, s.bus, B.CommitHandle(WORKER));
    BusOrder.BatchStaysLast(cfg.bus, s.bus, B.CommitHandle(WORKER));
    BusStepMirrored(cfg.bus, s.hub, s.bus, B.CommitHandle(WORKER));
  }

  lemma HandlerStepJoined(cfg: Config, s: State, step: Step)
    requires Joined(cfg, s) && Enabled(cfg, s, step) && (step.SetOnline? || step.Look? || step.Push?)
    ensures Joined(cfg, Next(cfg, s, step))
  {
    var s' := Next(cfg, s, step);
    assert s'.hub == s.hub && s'.bus == s.bus;
  }

  lemma NextIsJoined(cfg: Config, s: State, step: Step)
    requires Joined(cfg, s) && Enabled(cfg, s, step)
    ensures Joined(cfg, Next(cfg, s, step))
  {
    match step
    case HubStep(step) => HubStepJoined(cfg, s, step);
    case BusStep(act) => BusStepJoined(cfg, s, act);
    case Finish => FinishJoined(cfg, s);
    case _ => HandlerStepJoined(cfg, s, step);
  }

  lemma {:induction false} RunIsJoined(cfg: Config, steps: seq<Step>)
    requires Run(cfg, steps).Some?
    ensures Joined(cfg, Run(cfg, steps).value)
  {
    if steps == [] {
      StartIsInStep(cfg);
    } else {
      RunIsJoined(cfg, steps[..|steps| - 1]);
      NextIsJoined(cfg, Run(cfg, steps[..|steps| - 1]).value, steps[|steps| - 1]);
    }
  }

  // ---------------------------------------------------------------- the last push that landed

  /** A push of the followed variant that landed: the event it was made for, and the stock before the buffer. */
  datatype Landing = Landing(event: EventBus.EventId, stock: int)

  /** What a fan-out lands at channel c. */
  function Landed(cfg: Config, s: State, answers: map<ChannelId, D.Push>, c: D.Channel): Option<Landing>
    requires MayPush(s)
  {
    var event, v := s.bus.consumers[WORKER].job.event, cfg.row.variant;
    match InHand(s).value
    case Moved(row, _, _, _, level) =>
      if row.variant == v && D.StockLands(s.sync, cfg.channels, v, Answer(answers), c)
      then Some(Landing(event, level.Available())) else None
    case Announced(u) =>
      if u == v && LookedUp(s.stage).Some? && D.ListLands(cfg.channels, Answer(answers), c)
      then Some(Landing(event, LookedUp(s.stage).value)) else None
  }

  function LastLanding(cfg: Config, steps: seq<Step>, c: D.Channel): Option<Landing>
    requires Run(cfg, steps).Some?
  {
    if steps == [] then None
    else
      var prior, last := steps[..|steps| - 1], steps[|steps| - 1];
      if !last.Push? then LastLanding(cfg, prior, c)
      else
        var landed := Landed(cfg, Run(cfg, prior).value, last.answers, c);
        if landed.Some? then landed else LastLanding(cfg, prior, c)
  }

  /** The channel shows the figure of that landing, and nothing if there was none. */
  predicate ShowsLanding(cfg: Config, sync: D.Sync, c: D.Channel, last: Option<Landing>) {
    var key := D.Key(c.id, cfg.row.variant);
    && (key in sync.shown <==> last.Some?)
    && (last.Some? ==> sync.shown[key] == D.Figure(last.value.stock, c.safety))
  }

  lemma PushShowsLanding(cfg: Config, s: State, answers: map<ChannelId, D.Push>, now: int, c: D.Channel,
      last: Option<Landing>)
    requires D.DistinctChannels(cfg.channels) && c in cfg.channels && Enabled(cfg, s, Push(answers, now))
    requires ShowsLanding(cfg, s.sync, c, last)
    ensures var landed := Landed(cfg, s, answers, c);
            ShowsLanding(cfg, Next(cfg, s, Push(answers, now)).sync, c, if landed.Some? then landed else last)
  {
    match InHand(s).value {
      case Moved(row, _, _, _, level) =>
        D.StockShownWhereLanded(s.sync, cfg.channels, row.variant, level.Available(), Answer(answers), now);
        assert row.variant != cfg.row.variant ==>
                 D.ShownSame(s.sync, Next(cfg, s, Push(answers, now)).sync, D.Key(c.id, cfg.row.variant));
      case Announced(u) =>
        if LookedUp(s.stage).Some? {
          D.ListShownWhereLanded(s.sync, cfg.channels, u, LookedUp(s.stage).value, Answer(answers), now);
          assert u != cfg.row.variant ==>
                   D.ShownSame(s.sync, Next(cfg, s, Push(answers, now)).sync, D.Key(c.id, cfg.row.variant));
        }
    }
  }

  lemma OthersShowNothing(cfg: Config, s: State, step: Step)
    requires Enabled(cfg, s, step) && !step.Push?
    ensures Next(cfg, s, step).sync.shown == s.sync.shown
  {
  }

  /** In every run each channel shows the figure of the last push that landed there. */
  lemma {:induction false} ChannelsShowTheLastLanding(cfg: Config, steps: seq<Step>, c: D.Channel)
    requires D.DistinctChannels(cfg.channels) && c in cfg.channels && Run(cfg, steps).Some?
    ensures ShowsLanding(cfg, Run(cfg, steps).value.sync, c, LastLanding(cfg, steps, c))
  {
    if steps != [] {
      var prior, last := steps[..|steps| - 1], steps[|steps| - 1];
      ChannelsShowTheLastLanding(cfg, prior, c);
      var s := Run(cfg, prior).value;
      if last.Push? {
        PushShowsLanding(cfg, s, last.answers, last.now, c, LastLanding(cfg, prior, c));
      } else {
        OthersShowNothing(cfg, s, last);
      }
    }
  }

  /** An active listing's channel shows something, also once the handler has rolled back. */
  ghost predicate ListingsShown(s: State) {
    && D.ActiveShown(s.sync.listings, s.sync.shown)
    && (s.stage.Pushed? ==> D.ActiveShown(s.stage.listings, s.sync.shown))
  }

  lemma StepKeepsListingsShown(cfg: Config, s: State, step: Step)
    requires Enabled(cfg, s, step) && ListingsShown(s)
    ensures ListingsShown(Next(cfg, s, step))
  {
    if step.Push? {
      match InHand(s).value {
        case Moved(row, _, _, _, level) =>
          D.StockKeepsActiveShown(s.sync, cfg.channels, row.variant, level.Available(), Answer(step.answers), step.now);
        case Announced(u) =>
          if LookedUp(s.stage).Some? {
            var stock := LookedUp(s.stage).value;
            D.ListKeepsActiveShown(s.sync, cfg.channels, u, stock, Answer(step.answers), step.now);
          }
      }
    }
  }

  lemma {:induction false} RunKeepsListingsShown(cfg: Config, steps: seq<Step>)
    requires Run(cfg, steps).Some?
    ensures ListingsShown(Run(cfg, steps).value)
  {
    if steps != [] {
      RunKeepsListingsShown(cfg, steps[..|steps| - 1]);
      StepKeepsListingsShown(cfg, Run(cfg, steps[..|steps| - 1]).value, steps[|steps| - 1]);
    }
  }

  // ---------------------------------------------------------------- which event the last push was for

  /** The committed event with this number: a movement of the variant carries the stock, a re-publish names it. */
  ghost predicate CarriedBy(cfg: Config, x: I.Entry, landing: Landing) {
    && x.seqno == landing.event
    && match x.body
       case Moved(row, _, _, _, level) => row.variant == cfg.row.variant && landing.stock == level.Available()
       case Announced(u) => u == cfg.row.variant
  }

  ghost predicate Logged(cfg: Config, log: seq<I.Entry>, landing: Landing) {
    exists x <- log :: CarriedBy(cfg, x, landing)
  }

  lemma {:induction false} BodyIsLogged(log: seq<I.Entry>, e: EventBus.EventId)
    requires BodyOf(log, e).Some?
    ensures exists x <- log :: x.seqno == e && x.body == BodyOf(log, e).value
  {
    var x := log[|log| - 1];
    if x.seqno == e {
      assert x in log;
    } else {
      BodyIsLogged(log[..|log| - 1], e);
    }
  }

  lemma LandedIsLogged(cfg: Config, s: State, answers: map<ChannelId, D.Push>, c: D.Channel)
    requires MayPush(s) && Landed(cfg, s, answers, c).Some?
    ensures Logged(cfg, s.hub.log, Landed(cfg, s, answers, c).value)
  {
    var e := s.bus.consumers[WORKER].job.event;
    BodyIsLogged(s.hub.log, e);
    var x :| x in s.hub.log && x.seqno == e && x.body == BodyOf(s.hub.log, e).value;
    assert CarriedBy(cfg, x, Landed(cfg, s, answers, c).value);
  }

  lemma LogGrows(cfg: Config, s: State, step: Step)
    requires Enabled(cfg, s, step)
    ensures s.hub.log <= Next(cfg, s, step).hub.log
  {
    if step.HubStep? && !step.step.Commit? { I.OnlyCommitsLog(s.hub, step.step); }
  }

  lemma {:induction false} LastLandingIsLogged(cfg: Config, steps: seq<Step>, c: D.Channel)
    requires Run(cfg, steps).Some? && LastLanding(cfg, steps, c).Some?
    ensures Logged(cfg, Run(cfg, steps).value.hub.log, LastLanding(cfg, steps, c).value)
  {
    var prior, last := steps[..|steps| - 1], steps[|steps| - 1];
    var s, landing := Run(cfg, prior).value, LastLanding(cfg, steps, c).value;
    if last.Push? && Landed(cfg, s, last.answers, c).Some? {
      LandedIsLogged(cfg, s, last.answers, c);
    } else {
      LastLandingIsLogged(cfg, prior, c);
    }
    LogGrows(cfg, s, last);
    var x :| x in s.hub.log && CarriedBy(cfg, x, landing);
    assert x in Run(cfg, steps).value.hub.log;
  }

  // ---------------------------------------------------------------- every event's fan-out

  /** The events whose fan-out went through all channels at least once. */
  function FannedOut(cfg: Config, steps: seq<Step>): set<EventBus.EventId>
    requires Run(cfg, steps).Some?
  {
    if steps == [] then {}
    else
      var prior, last := steps[..|steps| - 1], steps[|steps| - 1];
      FannedOut(cfg, prior)
        + if last.Push? && !Run(cfg, steps).value.stage.raised
          then {Run(cfg, prior).value.bus.consumers[WORKER].job.event} else {}
  }

  /** A handled event was fanned out, and so is the one in hand once its pushes are through. */
  ghost predicate HandledFanned(s: State, fanned: set<EventBus.EventId>) {
    && (forall e <- s.bus.db.effects :: e in fanned)
    && (s.stage.Pushed? ==> WORKER in s.bus.consumers)
    && (s.stage.Pushed? && !s.stage.raised ==> s.bus.consumers[WORKER].job.event in fanned)
  }

  lemma HubStepHandledFanned(cfg: Config, s: State, step: I.Step, fanned: set<EventBus.EventId>)
    requires Enabled(cfg, s, HubStep(step)) && HandledFanned(s, fanned)
    ensures HandledFanned(Next(cfg, s, HubStep(step)), fanned)
  {
    EchoLeavesConsumers(cfg.bus, s.hub, s.bus, step);
  }

  lemma EffectsKept(cfg: EventBus.Config, b: B.State, act: B.Step)
    requires B.Enabled(cfg, b, act) && !act.CommitHandle? && !act.RelayCommit?
    ensures B.Next(cfg, b, act).db.effects == b.db.effects
  {
  }

  lemma BusStepHandledFanned(cfg: Config, s: State, act: B.Step, fanned: set<EventBus.EventId>)
    requires Joined(cfg, s) && Enabled(cfg, s, BusStep(act)) && HandledFanned(s, fanned)
    ensures HandledFanned(Next(cfg, s, BusStep(act)), fanned)
  {
    EffectsKept(cfg.bus, s.bus, act);
    if !Undoes(act) && s.stage.Pushed? {
      assert BusDelivery.JobOk(s.bus);
      HandlerGoesOn(cfg, s, act);
    }
  }

  lemma FinishHandledFanned(cfg: Config, s: State, fanned: set<EventBus.EventId>)
    requires Enabled(cfg, s, Finish) && HandledFanned(s, fanned)
    ensures HandledFanned(Next(cfg, s, Finish), fanned)
  {
  }

  lemma {:induction false} HandledWasFannedOut(cfg: Config, steps: seq<Step>)
    requires Run(cfg, steps).Some?
    ensures HandledFanned(Run(cfg, steps).value, FannedOut(cfg, steps))
  {
    if steps != [] {
      var prior, last := steps[..|steps| - 1], steps[|steps| - 1];
      HandledWasFannedOut(cfg, prior);
      RunIsJoined(cfg, prior);
      var s, fanned := Run(cfg, prior).value, FannedOut(cfg, prior);
      match last {
        case HubStep(step) => HubStepHandledFanned(cfg, s, step, fanned);
        case BusStep(act) => BusStepHandledFanned(cfg, s, act, fanned);
        case Finish => FinishHandledFanned(cfg, s, fanned);
        case _ =>
      }
    }
  }

  // ---------------------------------------------------------------- the result

  /** The row's newest committed movement has this number. */
  ghost predicate IsNewest(h: I.Hub, row: Row, e: EventBus.EventId) {
    var es := I.RowLog(h.log, row);
    es != [] && es[|es| - 1].seqno == e
  }

  lemma TipIsTheRow(h: I.Hub, row: Row)
    requires I.Tips(h.levels, h.log)
    ensures I.Tip(I.RowLog(h.log, row)) == LevelOf(h, row)
  {
    assert row in h.levels <==> I.RowLog(h.log, row) != [];
  }

  lemma LastOfRow(log: seq<I.Entry>, row: Row)
    requires I.RowLog(log, row) != []
    ensures var es := I.RowLog(log, row); es[|es| - 1] in log && es[|es| - 1].body.Moved?
  {
    var es := I.RowLog(log, row);
    I.RowLogSelects(log, row);
    assert es[|es| - 1] in es;
  }

  lemma NewestIsTheEntry(h: I.Hub, row: Row, x: I.Entry)
    requires I.DistinctNumbers(h.log) && x in h.log && IsNewest(h, row, x.seqno)
    ensures var es := I.RowLog(h.log, row); x == es[|es| - 1] && x.body.Moved?
  {
    var es := I.RowLog(h.log, row);
    LastOfRow(h.log, row);
    I.SameNumberSameEntry(h.log, x, es[|es| - 1]);
  }

  lemma NewestCarriesTheRow(cfg: Config, h: I.Hub, landing: Landing)
    requires I.TablesOk(h) && Logged(cfg, h.log, landing) && IsNewest(h, cfg.row, landing.event)
    ensures landing.stock == LevelOf(h, cfg.row).Available()
  {
    var x :| x in h.log && CarriedBy(cfg, x, landing);
    NewestIsTheEntry(h, cfg.row, x);
    TipIsTheRow(h, cfg.row);
  }

  lemma FiguresAgree(a: int, b: int, safety: nat)
    ensures D.Figure(a, safety) == D.Figure(b, safety) <==> a == b || (a <= safety && b <= safety)
  {
  }

  lemma LandingTells(cfg: Config, sync: D.Sync, c: D.Channel, last: Option<Landing>, committed: int)
    requires ShowsLanding(cfg, sync, c, last) && D.ActiveShown(sync.listings, sync.shown)
    requires D.Listed(sync, c, cfg.row.variant)
    ensures last.Some?
    ensures Shows(sync, c, cfg.row.variant, committed)
            <==> last.value.stock == committed || (last.value.stock <= c.safety && committed <= c.safety)
  {
    FiguresAgree(last.value.stock, committed, c.safety);
  }

  lemma NewestIsCommitted(cfg: Config, steps: seq<Step>, landing: Landing)
    requires Run(cfg, steps).Some?
    requires Logged(cfg, Run(cfg, steps).value.hub.log, landing)
    requires IsNewest(Run(cfg, steps).value.hub, cfg.row, landing.event)
    ensures landing.stock == LevelOf(Run(cfg, steps).value.hub, cfg.row).Available()
  {
    RunIsJoined(cfg, steps);
    NewestCarriesTheRow(cfg, Run(cfg, steps).value.hub, landing);
  }

  /**
   In every run, whatever is skipped, raises, fails or crashes: an active listing of the variant agrees with the
   committed row exactly when the last push that landed at its channel carried the same figure. It does when that push
   was the newest movement's.
   */
  lemma ListingAgreesExactlyWhen(cfg: Config, steps: seq<Step>, c: D.Channel)
    requires cfg.Valid() && Run(cfg, steps).Some? && c in cfg.channels
    requires D.Listed(Run(cfg, steps).value.sync, c, cfg.row.variant)
    ensures var s, last := Run(cfg, steps).value, LastLanding(cfg, steps, c);
            var committed := LevelOf(s.hub, cfg.row).Available();
            && last.Some? && Logged(cfg, s.hub.log, last.value)
            && (Shows(s.sync, c, cfg.row.variant, committed)
                <==> last.value.stock == committed || (last.value.stock <= c.safety && committed <= c.safety))
            && (IsNewest(s.hub, cfg.row, last.value.event) ==> last.value.stock == committed)
  {
    var s, last := Run(cfg, steps).value, LastLanding(cfg, steps, c);
    assert ListingsShown(s) by { RunKeepsListingsShown(cfg, steps); }
    ChannelsShowTheLastLanding(cfg, steps, c);
    LandingTells(cfg, s.sync, c, last, LevelOf(s.hub, cfg.row).Available());
    LastLandingIsLogged(cfg, steps, c);
    if IsNewest(s.hub, cfg.row, last.value.event) { NewestIsCommitted(cfg, steps, last.value); }
  }

  /**
   Nothing is left out: once outbox and queue are drained and no event was dead-lettered, every committed event went
   through all channels.  So a listing is then wrong only by the order of the pushes, or by one that was skipped.
   */
  lemma DrainedWasFannedOut(cfg: Config, steps: seq<Step>, x: I.Entry)
    requires Run(cfg, steps).Some? && Drained(Run(cfg, steps).value) && Run(cfg, steps).value.bus.db.dlq == []
    requires x in Run(cfg, steps).value.hub.log
    ensures x.seqno in FannedOut(cfg, steps)
  {
    var s := Run(cfg, steps).value;
    RunIsJoined(cfg, steps);
    AllPublishedIsHandled(cfg.bus, s.hub, s.bus, x);
    HandledWasFannedOut(cfg, steps);
  }
}
