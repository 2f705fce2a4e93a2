/** What a handler's transaction leaves: the listing rows when it rolls back, and the figures it looked up. */
module PipelineTables {
  import opened Results
  import opened Inventory
  import opened HubBus
  import opened Pipeline
  import opened PipelineFaults
  import C = Canonical
  import D = Dispatcher
  import I = Interleaving
  import B = BusProtocol
  import BusDelivery

  lemma {:induction false} PrefixRuns(cfg: Config, steps: seq<Step>, i: nat)
    requires Run(cfg, steps).Some? && i <= |steps|
    ensures Run(cfg, steps[..i]).Some?
    decreases |steps|
  {
    if i < |steps| {
      PrefixRuns(cfg, steps[..|steps| - 1], i);
      assert steps[..|steps| - 1][..i] == steps[..i];
    } else {
      assert steps[..i] == steps;
    }
  }

  // ---------------------------------------------------------------- the listing rows

  /** The committed listing rows: what an unfinished handler wrote is not among them. */
  function CommittedListings(s: State): map<D.Key, D.Listing> {
    if s.stage.Pushed? then s.stage.listings else s.sync.listings
  }

  lemma OnlyFinishCommits(cfg: Config, s: State, step: Step)
    requires Enabled(cfg, s, step) && !step.Finish?
    ensures CommittedListings(Next(cfg, s, step)) == CommittedListings(s)
    ensures step.BusStep? && Undoes(step.act) ==> Next(cfg, s, step).sync.listings == CommittedListings(s)
  {
  }

  /**
   Until a handler finishes, its pushes change no committed listing row; when it raised, failed or crashed the table is
   what it was at any time since the last handler finished, while what the channels show stays.
   */
  lemma {:induction false} UnfinishedLeavesTheListings(cfg: Config, steps: seq<Step>, i: nat)
    requires Run(cfg, steps).Some? && i <= |steps| && forall k :: i <= k < |steps| ==> !steps[k].Finish?
    ensures Run(cfg, steps[..i]).Some?
    ensures CommittedListings(Run(cfg, steps).value) == CommittedListings(Run(cfg, steps[..i]).value)
    ensures i < |steps| && steps[|steps| - 1].BusStep? && Undoes(steps[|steps| - 1].act) ==>
              Run(cfg, steps).value.sync.listings == CommittedListings(Run(cfg, steps[..i]).value)
    decreases |steps|
  {
    if i < |steps| {
      var prior := steps[..|steps| - 1];
      assert prior[..i] == steps[..i];
      UnfinishedLeavesTheListings(cfg, prior, i);
      OnlyFinishCommits(cfg, Run(cfg, prior).value, steps[|steps| - 1]);
    } else {
      assert steps[..i] == steps;
    }
  }

  // ---------------------------------------------------------------- what was looked up

  /** The variant's product was published last, not withdrawn. */
  predicate PublishedBy(steps: seq<Step>, v: VariantId) {
    steps != []
    && var last := steps[|steps| - 1];
       if last.SetOnline? && last.variant == v then last.on else PublishedBy(steps[..|steps| - 1], v)
  }

  lemma {:induction false} OnlineIsPublished(cfg: Config, steps: seq<Step>, v: VariantId)
    requires Run(cfg, steps).Some?
    ensures v in Run(cfg, steps).value.online <==> PublishedBy(steps, v)
  {
    if steps != [] {
      OnlineIsPublished(cfg, steps[..|steps| - 1], v);
    }
  }

  /** A look at the tables under the event that is in hand still. */
  ghost predicate LookedAt(cfg: Config, steps: seq<Step>, i: nat)
    requires Run(cfg, steps).Some? && i < |steps|
  {
    PrefixRuns(cfg, steps, i);
    var s, now := Run(cfg, steps[..i]).value, Run(cfg, steps).value;
    && steps[i].Look? && InHand(s).Some? && InHand(s).value.Announced?
    && WORKER in s.bus.consumers && WORKER in now.bus.consumers
    && now.bus.consumers[WORKER].job == s.bus.consumers[WORKER].job
    && now.stage.Looked?
    && var v := InHand(s).value.variant;
       now.stage.stock
       == if PublishedBy(steps[..i], v) then Some(C.HubStock(cfg.cat, s.hub.levels, v)) else None
  }

  lemma LookNow(cfg: Config, steps: seq<Step>)
    requires Run(cfg, steps).Some? && steps != [] && steps[|steps| - 1].Look?
    ensures LookedAt(cfg, steps, |steps| - 1)
  {
    var prior := steps[..|steps| - 1];
    OnlineIsPublished(cfg, prior, InHand(Run(cfg, prior).value).value.variant);
  }

  lemma StillLooked(cfg: Config, s: State, step: Step)
    requires Joined(cfg, s) && Enabled(cfg, s, step) && !step.Look? && Next(cfg, s, step).stage.Looked?
    ensures s.stage == Next(cfg, s, step).stage
    ensures WORKER in s.bus.consumers && Next(cfg, s, step).bus.consumers == s.bus.consumers
  {
    assert Handling(s);
    if step.HubStep? {
      EchoLeavesConsumers(cfg.bus, s.hub, s.bus, step.step);
    } else if step.BusStep? {
      assert BusDelivery.JobOk(s.bus);
      HandlerGoesOn(cfg, s, step.act);
    }
  }

  /**
   What a handler is about to push for a re-published variant is what the hub offered when it looked, for the event in
   hand; nothing if the product was not published then.
   */
  lemma {:induction false} LookedUpThen(cfg: Config, steps: seq<Step>) returns (i: nat)
    requires Run(cfg, steps).Some? && Run(cfg, steps).value.stage.Looked?
    ensures i < |steps| && LookedAt(cfg, steps, i)
  {
    var n := |steps| - 1;
    var prior := steps[..n];
    if steps[n].Look? {
      LookNow(cfg, steps);
      i := n;
    } else {
      var s := Run(cfg, prior).value;
      RunIsJoined(cfg, prior);
      StillLooked(cfg, s, steps[n]);
      i := LookedUpThen(cfg, prior);
      assert prior[..i] == steps[..i];
    }
  }
}
