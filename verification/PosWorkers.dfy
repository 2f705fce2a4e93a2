/**
 The stock correction of a catalog pull among other transactions.

 The pull loads the row without a lock, decides on the movement, and only then locks the row.  The
 locked read hands back the entity it holds, so what others committed in between is not seen.
 */
module PosWorkers {
  import opened Results
  import opened Inventory
  import opened Interleaving
  import PosIngest

  /** A step of another transaction, or of the relay. */
  predicate Elsewhere(step: Step, t: TxId) {
    step.SelectBatch? || step.Publish? || step.RelayCrash? || step.t != t
  }

  /** Others leave a transaction alone. */
  lemma {:induction false} OthersLeaveTx(h: Hub, steps: seq<Step>, t: TxId)
    requires t in h.txs && Run(h, steps).Some? && forall step <- steps :: Elsewhere(step, t)
    ensures t in Run(h, steps).value.txs && Run(h, steps).value.txs[t] == h.txs[t]
  {
    if steps != [] {
      var n := |steps| - 1;
      assert steps[n] in steps && forall step <- steps[..n] :: step in steps;
      OthersLeaveTx(h, steps[..n], t);
    }
  }

  lemma {:induction false} RunsKeepInv(h: Hub, steps: seq<Step>)
    requires Inv(h)
    ensures Run(h, steps).Some? ==> Inv(Run(h, steps).value)
  {
    if steps != [] {
      RunsKeepInv(h, steps[..|steps| - 1]);
      if Run(h, steps).Some? { NextKeepsInv(Run(h, steps[..|steps| - 1]).value, steps[|steps| - 1]); }
    }
  }

  /** Committed movements stay committed. */
  lemma {:induction false} LogGrows(h: Hub, steps: seq<Step>, row: Row)
    requires Run(h, steps).Some?
    ensures RowLog(h.log, row) <= RowLog(Run(h, steps).value.log, row)
  {
    if steps != [] {
      var before, last := Run(h, steps[..|steps| - 1]).value, steps[|steps| - 1];
      LogGrows(h, steps[..|steps| - 1], row);
      if last.Commit? {
        RowLogConcat(before.log, before.txs[last.t].work.log, row);
      } else {
        OnlyCommitsLog(before, last);
      }
    }
  }

  /** The pull has looked at a row it has not written, others ran, and it holds the lock now. */
  ghost predicate Looked(h0: Hub, t: TxId, row: Row, others: seq<Step>) {
    && Inv(h0) && Guarded(h0, Load(t, row)) && row !in h0.txs[t].work.levels && row !in h0.txs[t].cache
    && Run(Next(h0, Load(t, row)), others).Some? && (forall step <- others :: Elsewhere(step, t))
    && Guarded(Run(Next(h0, Load(t, row)), others).value, Lock(t, row))
  }

  /** The hub when the lock is taken. */
  function Locked(h0: Hub, t: TxId, row: Row, others: seq<Step>): Hub
    requires Looked(h0, t, row, others)
  {
    Next(Run(Next(h0, Load(t, row)), others).value, Lock(t, row))
  }

  /** The row as the pull loaded it. */
  function Loaded(h0: Hub, row: Row): Option<Level> {
    if row in h0.levels then Some(h0.levels[row]) else None
  }

  /** Under the lock a movement of the row is judged on what was loaded, or on the stored row if nothing was. */
  ghost predicate Sees(h: Hub, t: TxId, row: Row, loaded: Option<Level>) {
    && t in h.txs && row in h.txs[t].work.locks && row !in h.txs[t].work.levels
    && View(h, t, row) == Loaded(h, row)
    && Seen(h, t, row) == (if loaded.Some? then loaded else Loaded(h, row))
  }

  lemma LoadSees(h0: Hub, t: TxId, row: Row)
    requires Guarded(h0, Load(t, row)) && row !in h0.txs[t].work.levels && row !in h0.txs[t].cache
    ensures var h1 := Next(h0, Load(t, row));
            && t in h1.txs && row !in h1.txs[t].work.levels && h1.log == h0.log
            && (if row in h0.levels then row in h1.txs[t].cache && h1.txs[t].cache[row] == h0.levels[row]
                else row !in h1.txs[t].cache)
  {
  }

  lemma LockSees(h2: Hub, t: TxId, row: Row, loaded: Option<Level>)
    requires Inv(h2) && Guarded(h2, Lock(t, row)) && row !in h2.txs[t].work.levels
    requires if loaded.Some? then row in h2.txs[t].cache && h2.txs[t].cache[row] == loaded.value
             else row !in h2.txs[t].cache
    ensures Inv(Next(h2, Lock(t, row))) && Sees(Next(h2, Lock(t, row)), t, row, loaded)
    ensures Next(h2, Lock(t, row)).log == h2.log && Next(h2, Lock(t, row)).levels == h2.levels
  {
    NextKeepsInv(h2, Lock(t, row));
  }

  lemma LockedSees(h0: Hub, t: TxId, row: Row, others: seq<Step>)
    requires Looked(h0, t, row, others)
    ensures Inv(Locked(h0, t, row, others)) && Sees(Locked(h0, t, row, others), t, row, Loaded(h0, row))
    ensures RowLog(h0.log, row) <= RowLog(Locked(h0, t, row, others).log, row)
  {
    var h1 := Next(h0, Load(t, row));
    NextKeepsInv(h0, Load(t, row));
    LoadSees(h0, t, row);
    RunsKeepInv(h1, others);
    OthersLeaveTx(h1, others, t);
    LogGrows(h1, others, row);
    LockSees(Run(h1, others).value, t, row, Loaded(h0, row));
  }

  lemma StoredTip(h: Hub, row: Row)
    requires TablesOk(h)
    ensures row in h.levels <==> RowLog(h.log, row) != []
    ensures row in h.levels ==> Tip(RowLog(h.log, row)) == h.levels[row] && h.levels[row].Sound()
    ensures Behind(RowLog(h.log, row)) || Chain(RowLog(h.log, row))
  {
    var es := RowLog(h.log, row);
    assert row in h.levels <==> es != [];
    assert RowOk(es);
  }

  lemma StillStored(h0: Hub, h: Hub, row: Row)
    requires TablesOk(h0) && TablesOk(h) && RowLog(h0.log, row) <= RowLog(h.log, row) && row in h0.levels
    ensures row in h.levels
  {
    StoredTip(h0, row);
    StoredTip(h, row);
  }

  /**
   The entity is still the committed row exactly when nobody committed a movement of it since the load, as long as the
   row's versions count its movements.
   */
  lemma EntityIsCurrentExactlyWhen(h0: Hub, t: TxId, row: Row, others: seq<Step>)
    requires Looked(h0, t, row, others) && row in h0.levels
    requires !Behind(RowLog(Locked(h0, t, row, others).log, row))
    ensures var h := Locked(h0, t, row, others);
            row in h.levels
            && (h0.levels[row].version == h.levels[row].version <==> RowLog(h.log, row) == RowLog(h0.log, row))
  {
    LockedSees(h0, t, row, others);
    VersionsTell(h0, Locked(h0, t, row, others), row);
  }

  lemma VersionsTell(h0: Hub, h: Hub, row: Row)
    requires TablesOk(h0) && TablesOk(h) && RowLog(h0.log, row) <= RowLog(h.log, row) && row in h0.levels
    requires !Behind(RowLog(h.log, row))
    ensures row in h.levels
    ensures h0.levels[row].version == h.levels[row].version <==> RowLog(h.log, row) == RowLog(h0.log, row)
  {
    StoredTip(h0, row);
    StoredTip(h, row);
    SameVersion(RowLog(h0.log, row), RowLog(h.log, row));
  }

  lemma SameVersion(c0: seq<Entry>, c: seq<Entry>)
    requires Chain(c) && c0 <= c && c0 != []
    ensures Tip(c0).version == Tip(c).version <==> c == c0
  {
    ChainIsNotBehind(c);
    ChainVersions(c, |c0| - 1);
    assert c0[|c0| - 1] == c[|c0| - 1];
  }

  lemma AdjustedTo(seen: Level, stored: Level, target: int)
    requires seen.Sound() && stored.Sound() && target != seen.qty
    ensures Effect(Adjust, target - seen.qty, seen.qty, seen.reserved).Ok? <==> seen.reserved <= target
    ensures (Effect(Adjust, target - seen.qty, seen.qty, seen.reserved).Ok?
             && Merged(seen, stored, Adjust, target - seen.qty).Sound())
            <==> seen.reserved <= target && stored.reserved <= target
    ensures Effect(Adjust, target - seen.qty, seen.qty, seen.reserved).Ok? ==>
              Merged(seen, stored, Adjust, target - seen.qty) == Level(target, stored.reserved, seen.version + 1)
  {
  }

  lemma PostedView(h: Hub, step: Step)
    requires Enabled(h, step) && step.Post?
    ensures step.t in Next(h, step).txs
    ensures View(Next(h, step), step.t, step.row) == Some(LevelAfter(h, step.t, step.row, step.kind, step.qty))
  {
  }

  /** The step for a correction decided on the loaded row. */
  function Correct(t: TxId, row: Row, loaded: Option<Level>, target: int): Step
    requires PosIngest.Correction(loaded, target).Some?
  {
    var (kind, qty) := PosIngest.Correction(loaded, target).value;
    Post(t, row, kind, qty, Some("posnet-sync"))
  }

  /**
   A correction judged on the entity `seen` leaves the quantity at its target and keeps the units reserved meanwhile.
   It fails exactly when the target is below the units reserved at the load, which the guard refuses, or below those at
   the lock, which the CHECK constraint refuses.
   */
  ghost predicate DrivenTo(h: Hub, t: TxId, row: Row, seen: Level, target: int)
    requires target != seen.qty
  {
    var step := Correct(t, row, Some(seen), target);
    && row in h.levels
    && (Guarded(h, step) <==> seen.reserved <= target)
    && (Enabled(h, step) <==> seen.reserved <= target && h.levels[row].reserved <= target)
    && (Enabled(h, step) ==>
          t in Next(h, step).txs
          && View(Next(h, step), t, row) == Some(Level(target, h.levels[row].reserved, seen.version + 1)))
  }

  /** With no entity loaded, the target is added to what the row holds by now, and never refused. */
  ghost predicate AddedTo(h: Hub, t: TxId, row: Row, target: int)
    requires target > 0
  {
    var step, stored := Correct(t, row, None, target), Current(Loaded(h, row));
    && Enabled(h, step) && t in Next(h, step).txs
    && View(Next(h, step), t, row) == Some(Level(stored.qty + target, stored.reserved, stored.version + 1))
  }

  lemma AdjustUnderLock(h: Hub, t: TxId, row: Row, seen: Level, target: int)
    requires Sees(h, t, row, Some(seen)) && row in h.levels && seen.Sound() && h.levels[row].Sound()
             && target != seen.qty
    ensures DrivenTo(h, t, row, seen, target)
  {
    AdjustedTo(seen, h.levels[row], target);
    var step := Correct(t, row, Some(seen), target);
    if Enabled(h, step) { PostedView(h, step); }
  }

  lemma InUnderLock(h: Hub, t: TxId, row: Row, target: int)
    requires Sees(h, t, row, None) && (row in h.levels ==> h.levels[row].Sound()) && target > 0
    ensures AddedTo(h, t, row, target)
  {
    PostedView(h, Correct(t, row, None, target));
  }

  /** Whatever others committed in between, the correction of a row that existed reaches its target. */
  lemma PullReachesItsTarget(h0: Hub, t: TxId, row: Row, others: seq<Step>, target: int)
    requires Looked(h0, t, row, others) && row in h0.levels && target != h0.levels[row].qty
    ensures DrivenTo(Locked(h0, t, row, others), t, row, h0.levels[row], target)
  {
    var h := Locked(h0, t, row, others);
    LockedSees(h0, t, row, others);
    StillStored(h0, h, row);
    StoredTip(h0, row);
    StoredTip(h, row);
    AdjustUnderLock(h, t, row, h0.levels[row], target);
  }

  /** A row that did not exist at the load gets the target on top of what others stocked meanwhile. */
  lemma FirstPullAddsItsTarget(h0: Hub, t: TxId, row: Row, others: seq<Step>, target: int)
    requires Looked(h0, t, row, others) && row !in h0.levels && target > 0
    ensures AddedTo(Locked(h0, t, row, others), t, row, target)
  {
    var h := Locked(h0, t, row, others);
    LockedSees(h0, t, row, others);
    StoredTip(h, row);
    InUnderLock(h, t, row, target);
  }

  /** The hub after the correction and the pull's commit. */
  function Corrected(h0: Hub, t: TxId, row: Row, others: seq<Step>, target: int): Hub
    requires Looked(h0, t, row, others) && PosIngest.Correction(Loaded(h0, row), target).Some?
    requires Enabled(Locked(h0, t, row, others), Correct(t, row, Loaded(h0, row), target))
  {
    Next(Next(Locked(h0, t, row, others), Correct(t, row, Loaded(h0, row), target)), Commit(t))
  }

  /**
   The pull's commit keeps versions and journal in step with the row exactly when it found no row, or nobody committed a
   movement of it between the load and the lock.
   */
  lemma PullKeepsCountExactlyWhen(h0: Hub, t: TxId, row: Row, others: seq<Step>, target: int)
    requires Looked(h0, t, row, others) && PosIngest.Correction(Loaded(h0, row), target).Some?
    requires !Behind(RowLog(Locked(h0, t, row, others).log, row))
    requires Enabled(Locked(h0, t, row, others), Correct(t, row, Loaded(h0, row), target))
    ensures var h, done := Locked(h0, t, row, others), Corrected(h0, t, row, others, target);
            var apart := row !in h0.levels || RowLog(h.log, row) == RowLog(h0.log, row);
            && row in done.levels
            && (Counted(RowLog(done.log, row)) <==> apart)
            && (Replay(JournalOf(done.log), row) == Ok(done.levels[row]) <==> apart)
  {
    var h, step := Locked(h0, t, row, others), Correct(t, row, Loaded(h0, row), target);
    var h1 := Next(h, step);
    LockedSees(h0, t, row, others);
    UnwrittenRow(h, t, row);
    if row in h0.levels { EntityIsCurrentExactlyWhen(h0, t, row, others); }
    NextKeepsInv(h, step);
    CommitBehind(h1, t, row);
    NextKeepsInv(h1, Commit(t));
    CountedExactlyWhen(Next(h1, Commit(t)), row);
    ReplaysExactlyWhen(Next(h1, Commit(t)), row);
  }

  // ---------------------------------------------------------------- a pull that read too early

  lemma OneMoreStep(h: Hub, steps: seq<Step>, step: Step)
    requires Run(h, steps).Some? && Enabled(Run(h, steps).value, step)
    ensures Run(h, steps + [step]) == Some(Next(Run(h, steps).value, step))
  {
    assert (steps + [step])[..|steps|] == steps;
  }

  lemma {:induction false} RunConcat(h: Hub, a: seq<Step>, b: seq<Step>)
    requires Run(h, a).Some?
    ensures Run(h, a + b) == Run(Run(h, a).value, b)
  {
    if b == [] {
      assert a + b == a;
    } else {
      assert (a + b)[..|a + b| - 1] == a + b[..|b| - 1];
      RunConcat(h, a, b[..|b| - 1]);
    }
  }

  /** A transaction of one movement. */
  function Alone(t: TxId, row: Row, kind: Kind, qty: int): seq<Step> {
    [Begin(t)] + [Lock(t, row)] + [Post(t, row, kind, qty, None)] + [Commit(t)]
  }

  function AfterAlone(h: Hub, row: Row, kind: Kind, qty: int, level: Level): Hub {
    h.(levels := h.levels[row := level], log := h.log + [Entry(h.nextSeq, Moved(row, kind, qty, None, level))],
       nextSeq := h.nextSeq + 1)
  }

  lemma AloneRuns(h: Hub, t: TxId, row: Row, kind: Kind, qty: int, level: Level)
    requires t !in h.txs && forall u <- h.txs :: row !in h.txs[u].work.locks
    requires row in h.levels || kind == In
    requires Apply(Current(Loaded(h, row)), kind, qty) == Ok(level)
    ensures Run(h, Alone(t, row, kind, qty)) == Some(AfterAlone(h, row, kind, qty, level))
  {
    LockAlone(h, t, row);
    var h2, begun := h.(txs := h.txs[t := Tx(Work({row}, map[], [], {}), [], map[])]), [Begin(t)] + [Lock(t, row)];
    PostAlone(h2, t, row, kind, qty, level);
    OneMoreStep(h, begun, Post(t, row, kind, qty, None));
    var h3 := Next(h2, Post(t, row, kind, qty, None));
    CommitAlone(h, h3, t, row, kind, qty, level);
    OneMoreStep(h, begun + [Post(t, row, kind, qty, None)], Commit(t));
  }

  lemma CommitAlone(h: Hub, h3: Hub, t: TxId, row: Row, kind: Kind, qty: int, level: Level)
    requires t !in h.txs && t in h3.txs && h3 == h.(nextSeq := h.nextSeq + 1, txs := h.txs[t := h3.txs[t]])
    requires h3.txs[t].work.levels == map[row := level]
    requires h3.txs[t].work.log == [Entry(h.nextSeq, Moved(row, kind, qty, None, level))]
    ensures Next(h3, Commit(t)) == AfterAlone(h, row, kind, qty, level)
  {
    assert h3.txs - {t} == h.txs;
    assert h.levels + map[row := level] == h.levels[row := level];
  }

  lemma LockAlone(h: Hub, t: TxId, row: Row)
    requires t !in h.txs && forall u <- h.txs :: row !in h.txs[u].work.locks
    ensures Run(h, [Begin(t)] + [Lock(t, row)])
            == Some(h.(txs := h.txs[t := Tx(Work({row}, map[], [], {}), [], map[])]))
  {
    OneMoreStep(h, [], Begin(t));
    OneMoreStep(h, [Begin(t)], Lock(t, row));
    var h1 := Next(h, Begin(t));
    assert Next(h1, Lock(t, row)).txs[t].work.locks == {row};
    assert Next(h1, Lock(t, row)).txs == h.txs[t := Tx(Work({row}, map[], [], {}), [], map[])];
  }

  lemma PostAlone(h: Hub, t: TxId, row: Row, kind: Kind, qty: int, level: Level)
    requires t in h.txs && h.txs[t] == Tx(Work({row}, map[], [], {}), [], map[])
    requires row in h.levels || kind == In
    requires Apply(Current(Loaded(h, row)), kind, qty) == Ok(level)
    ensures var step := Post(t, row, kind, qty, None);
            var work := Work({row}, map[row := level], [Entry(h.nextSeq, Moved(row, kind, qty, None, level))], {});
            && Enabled(h, step)
            && Next(h, step) == h.(nextSeq := h.nextSeq + 1, txs := h.txs[t := Tx(work, [], map[])])
  {
    var stored := Current(Loaded(h, row));
    var tx := Next(h, Post(t, row, kind, qty, None)).txs[t];
    assert Seen(h, t, row) == View(h, t, row) == Loaded(h, row) && Merged(stored, stored, kind, qty) == level;
    assert tx.work.levels == map[row := level] && tx.work.log == [Entry(h.nextSeq, Moved(row, kind, qty, None, level))];
  }

  const SHELF := Row(0, 7)

  /** Ten units; a pull that wants twelve loads the row; four units go out; the pull locks, corrects and commits. */
  const LATE_PULL := Alone(0, SHELF, In, 10) + ([Begin(1)] + [Load(1, SHELF)]) + Alone(2, SHELF, Out, 4)
    + ([Lock(1, SHELF)] + [Post(1, SHELF, Adjust, 2, Some("posnet-sync"))] + [Commit(1)])

  const TEN := AfterAlone(EMPTY_HUB, SHELF, In, 10, Level(10, 0, 1))

  const PULLING := TEN.(txs := map[1 := Tx(NO_WORK, [], map[SHELF := Level(10, 0, 1)])])

  const SIX := AfterAlone(PULLING, SHELF, Out, 4, Level(6, 0, 2))

  const TWELVE := SIX.(
    levels := map[SHELF := Level(12, 0, 2)],
    log := SIX.log + [Entry(2, Moved(SHELF, Adjust, 2, Some("posnet-sync"), Level(12, 0, 2)))], txs := map[],
    nextSeq := 3)

  lemma PullLoads()
    ensures Run(TEN, [Begin(1)] + [Load(1, SHELF)]) == Some(PULLING)
  {
    OneMoreStep(TEN, [], Begin(1));
    OneMoreStep(TEN, [Begin(1)], Load(1, SHELF));
    assert TEN.txs == map[] && Next(Next(TEN, Begin(1)), Load(1, SHELF)).txs == PULLING.txs;
  }

  lemma PullCorrects()
    ensures Run(SIX, [Lock(1, SHELF)] + [Post(1, SHELF, Adjust, 2, Some("posnet-sync"))] + [Commit(1)]) == Some(TWELVE)
  {
    OneMoreStep(SIX, [], Lock(1, SHELF));
    var h1 := Next(SIX, Lock(1, SHELF));
    var step := Post(1, SHELF, Adjust, 2, Some("posnet-sync"));
    assert Enabled(h1, step) && LevelAfter(h1, 1, SHELF, Adjust, 2) == Level(12, 0, 2);
    OneMoreStep(SIX, [Lock(1, SHELF)], step);
    OneMoreStep(SIX, [Lock(1, SHELF)] + [step], Commit(1));
    assert Next(Next(h1, step), Commit(1)) == TWELVE;
  }

  /** The late pull queues version two twice, and its row is not the replay of its journal. */
  lemma LatePullMiscounts()
    ensures Run(EMPTY_HUB, LATE_PULL) == Some(TWELVE) && !CommitsFresh(LATE_PULL, SHELF)
    ensures RowLog(TWELVE.log, SHELF) == TWELVE.log
    ensures TWELVE.log[1].body.level == Level(6, 0, 2) && TWELVE.log[2].body.level == Level(12, 0, 2)
    ensures TWELVE.levels[SHELF] == Level(12, 0, 2) && Replay(JournalOf(TWELVE.log), SHELF) == Ok(Level(8, 0, 3))
  {
    AloneRuns(EMPTY_HUB, 0, SHELF, In, 10, Level(10, 0, 1));
    PullLoads();
    AloneRuns(PULLING, 2, SHELF, Out, 4, Level(6, 0, 2));
    PullCorrects();
    var a, b, c := Alone(0, SHELF, In, 10), [Begin(1)] + [Load(1, SHELF)], Alone(2, SHELF, Out, 4);
    RunConcat(EMPTY_HUB, a, b);
    RunConcat(EMPTY_HUB, a + b, c);
    RunConcat(EMPTY_HUB, a + b + c, [Lock(1, SHELF)] + [Post(1, SHELF, Adjust, 2, Some("posnet-sync"))] + [Commit(1)]);
    LatePullLog();
    CommittedJournalReplays(LATE_PULL, SHELF);
  }

  lemma TenReplays()
    ensures RowLog(TEN.log, SHELF) == TEN.log && Replay(JournalOf(TEN.log), SHELF) == Ok(Level(10, 0, 1))
  {
    EntrySnoc([], TEN.log[0], SHELF);
    assert TEN.log == [] + [TEN.log[0]];
  }

  lemma SixReplays()
    ensures RowLog(SIX.log, SHELF) == SIX.log && Replay(JournalOf(SIX.log), SHELF) == Ok(Level(6, 0, 2))
  {
    TenReplays();
    EntrySnoc(TEN.log, Entry(1, Moved(SHELF, Out, 4, None, Level(6, 0, 2))), SHELF);
  }

  lemma LatePullLog()
    ensures RowLog(TWELVE.log, SHELF) == TWELVE.log && Replay(JournalOf(TWELVE.log), SHELF) == Ok(Level(8, 0, 3))
  {
    SixReplays();
    EntrySnoc(SIX.log, Entry(2, Moved(SHELF, Adjust, 2, Some("posnet-sync"), Level(12, 0, 2))), SHELF);
  }
}
