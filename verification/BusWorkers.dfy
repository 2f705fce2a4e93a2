/** The workers' methods are runs of the protocol, so what holds of every run holds of them. */
module BusWorkers {
  import opened Results
  import opened EventBus
  import opened BusProtocol
  import opened BusDelivery

  lemma RunSnoc(cfg: Config, s: State, steps: seq<Step>, step: Step)
    requires Run(cfg, s, steps).Some? && Enabled(cfg, Run(cfg, s, steps).value, step)
    ensures Run(cfg, s, steps + [step]) == Some(Next(cfg, Run(cfg, s, steps).value, step))
  {
    assert (steps + [step])[..|steps|] == steps;
  }

  /** The steps of one consumer call. */
  function ConsumerSteps(s: State, c: WorkerId, m: MsgId, attempt: Attempt): seq<Step>
    requires m in s.db.live
  {
    [Read(c, m)] + [BeginHandle(c)]
    + if s.db.live[m].event in s.db.keys || attempt == Succeeds then [CommitHandle(c)]
      else [HandlerFails(c)] + [SettleFailure(c)]
  }

  /** The state once the consumer is inside the handler's transaction. */
  function Begun(cfg: Config, s: State, c: WorkerId, m: MsgId): State
    requires m in s.db.live
  {
    var e := s.db.live[m].event;
    s.(db := ReadTx(cfg, s.db, m, s.now),
      consumers := s.consumers[c := Handling(Job(m, e, s.db.live[m].readCt + 1), e in s.db.keys)])
  }

  lemma ReadThenBegin(cfg: Config, s: State, c: WorkerId, m: MsgId)
    requires c !in s.consumers && IsNext(s.db, m, s.now) && !KeyInFlight(s, s.db.live[m].event)
    ensures Run(cfg, s, [Read(c, m)] + [BeginHandle(c)]) == Some(Begun(cfg, s, c, m))
  {
    var none: seq<Step> := [];
    RunSnoc(cfg, s, none, Read(c, m));
    assert none + [Read(c, m)] == [Read(c, m)];
    var s1 := Next(cfg, s, Read(c, m));
    assert !KeyInFlight(s1, s.db.live[m].event) by {
      forall d <- s1.consumers | HoldsKey(s1.consumers[d]) ensures s1.consumers[d].job.event != s.db.live[m].event {
        assert d in s.consumers && HoldsKey(s.consumers[d]);
      }
    }
    RunSnoc(cfg, s, [Read(c, m)], BeginHandle(c));
    assert Next(cfg, s1, BeginHandle(c)).consumers == Begun(cfg, s, c, m).consumers;
  }

  lemma HandledThere(cfg: Config, s: State, c: WorkerId, m: MsgId)
    requires c !in s.consumers && m in s.db.live
    ensures var s2, e := Begun(cfg, s, c, m), s.db.live[m].event;
            var s' := Next(cfg, s2, CommitHandle(c));
            s' == s.(db := HandleTx(s2.db, m, e, e in s.db.keys))
  {
    assert Next(cfg, Begun(cfg, s, c, m), CommitHandle(c)).consumers == s.consumers;
  }

  lemma FailedThere(cfg: Config, s: State, c: WorkerId, m: MsgId)
    requires c !in s.consumers && m in s.db.live
    ensures var s2, e := Begun(cfg, s, c, m), s.db.live[m].event;
            var s' := Next(cfg, Next(cfg, s2, HandlerFails(c)), SettleFailure(c));
            s'.consumers == s.consumers && s'.db == FailTx(cfg, s2.db, m, e, s2.db.live[m].readCt, s.now)
  {
  }

  /**
   What `Consumer.RunOnce` does to the tables is what its steps do, when no other consumer is inside the same event's
   handler.
   */
  lemma ConsumerCallIsARun(cfg: Config, s: State, c: WorkerId, m: MsgId, attempt: Attempt)
    requires c !in s.consumers && IsNext(s.db, m, s.now) && !KeyInFlight(s, s.db.live[m].event)
    ensures var e, read := s.db.live[m].event, ReadTx(cfg, s.db, m, s.now);
            var s' := Run(cfg, s, ConsumerSteps(s, c, m, attempt));
            && s'.Some? && s'.value.consumers == s.consumers
            && (e in s.db.keys || attempt == Succeeds ==> s'.value == s.(db := HandleTx(read, m, e, e in s.db.keys)))
            && (e !in s.db.keys && attempt == Raises ==>
                s'.value.db == FailTx(cfg, read, m, e, read.live[m].readCt, s.now))
  {
    ReadThenBegin(cfg, s, c, m);
    var steps := [Read(c, m)] + [BeginHandle(c)];
    if s.db.live[m].event in s.db.keys || attempt == Succeeds {
      RunSnoc(cfg, s, steps, CommitHandle(c));
      HandledThere(cfg, s, c, m);
    } else {
      RunSnoc(cfg, s, steps, HandlerFails(c));
      RunSnoc(cfg, s, steps + [HandlerFails(c)], SettleFailure(c));
      assert steps + [HandlerFails(c)] + [SettleFailure(c)] == ConsumerSteps(s, c, m, attempt);
      FailedThere(cfg, s, c, m);
    }
  }

  /** Opening a batch and sending its first k rows. */
  function SendSteps(r: WorkerId, k: nat): seq<Step> {
    if k == 0 then [Select(r)] else SendSteps(r, k - 1) + [Send(r)]
  }

  /** The state with the batch open and k of its messages sent. */
  function Sent(s: State, r: WorkerId, rows: seq<EventId>, k: nat): State {
    s.(relays := s.relays[r := Batch(rows, Ids(s.db.nextMsg, k))], db := s.db.(nextMsg := s.db.nextMsg + k))
  }

  lemma OneSend(cfg: Config, s: State, r: WorkerId, rows: seq<EventId>, k: nat)
    requires k < |rows|
    ensures Enabled(cfg, Sent(s, r, rows, k), Send(r))
            && Next(cfg, Sent(s, r, rows, k), Send(r)) == Sent(s, r, rows, k + 1)
  {
    assert Ids(s.db.nextMsg, k + 1) == Ids(s.db.nextMsg, k) + [s.db.nextMsg + k];
    assert Next(cfg, Sent(s, r, rows, k), Send(r)).relays == Sent(s, r, rows, k + 1).relays;
  }

  lemma {:induction false} SendsAreARun(cfg: Config, s: State, r: WorkerId, k: nat)
    requires r !in s.relays && BatchFor(cfg, s) != [] && k <= |BatchFor(cfg, s)|
    ensures Run(cfg, s, SendSteps(r, k)) == Some(Sent(s, r, BatchFor(cfg, s), k))
  {
    if k == 0 {
      var none: seq<Step> := [];
      RunSnoc(cfg, s, none, Select(r));
      assert none + [Select(r)] == SendSteps(r, 0) && Ids(s.db.nextMsg, 0) == [];
    } else {
      SendsAreARun(cfg, s, r, k - 1);
      OneSend(cfg, s, r, BatchFor(cfg, s), k - 1);
      RunSnoc(cfg, s, SendSteps(r, k - 1), Send(r));
    }
  }

  /** What `OutboxRelay.RunOnce` does to the tables is what its steps do, when no other relay has rows locked. */
  lemma RelayCallIsARun(cfg: Config, s: State, r: WorkerId)
    requires s.relays == map[] && BatchFor(cfg, s) != []
    ensures var rows := Unpublished(s.db.outbox, {}, cfg.batch, s.nextEvent);
            var s' := Run(cfg, s, SendSteps(r, |rows|) + [RelayCommit(r)]);
            && s'.Some? && s'.value.relays == map[]
            && s'.value.db == PublishTx(s.db, rows, Ids(s.db.nextMsg, |rows|), s.now).(nextMsg := s.db.nextMsg + |rows|)
            && s'.value == s.(db := s'.value.db)
  {
    assert LockedRows(s) == {};
    var rows := BatchFor(cfg, s);
    SendsAreARun(cfg, s, r, |rows|);
    RunSnoc(cfg, s, SendSteps(r, |rows|), RelayCommit(r));
  }

  /** Every run of the deployed application keeps to one consumer and one relay, so the drain bound applies to it. */
  lemma {:induction false} RunsAreDeployed(cfg: Config, steps: seq<Step>)
    requires Run(cfg, START, steps).Some? && forall step <- steps :: OneConsumer(step) && OneRelay(step)
    ensures Deployed(cfg, Run(cfg, START, steps).value)
  {
    if steps != [] {
      var n := |steps| - 1;
      assert steps[n] in steps && forall step <- steps[..n] :: step in steps;
      RunsAreDeployed(cfg, steps[..n]);
      DeployedKept(cfg, Run(cfg, START, steps[..n]).value, steps[n]);
    }
  }
}
