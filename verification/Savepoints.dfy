/** What a savepoint promises, whatever the transaction nests inside it and whatever others do meanwhile. */
module Savepoints {
  import opened Results
  import opened Inventory
  import opened Interleaving

  /** Savepoints of t opened in these steps, less those closed. */
  function Depth(steps: seq<Step>, t: TxId): int {
    if steps == [] then 0
    else
      var last := steps[|steps| - 1];
      Depth(steps[..|steps| - 1], t)
        + if last == Savepoint(t) then 1 else if last == RollbackTo(t) || last == Release(t) then -1 else 0
  }

  predicate Ends(step: Step, t: TxId) {
    step == Begin(t) || step == Commit(t) || step == Abort(t)
  }

  /** The transaction stays open, and every savepoint it closes it opened in these steps. */
  predicate Inside(steps: seq<Step>, t: TxId) {
    steps == []
    || (Inside(steps[..|steps| - 1], t) && !Ends(steps[|steps| - 1], t) && Depth(steps, t) >= 0)
  }

  lemma StepOnStack(h: Hub, step: Step, t: TxId)
    requires t in h.txs && Enabled(h, step) && !Ends(step, t)
    ensures var h' := Next(h, step);
            && t in h'.txs
            && h'.txs[t].savepoints
               == if step == Savepoint(t) then h.txs[t].savepoints + [h.txs[t].work]
                  else if step == RollbackTo(t) || step == Release(t)
                  then h.txs[t].savepoints[..|h.txs[t].savepoints| - 1]
                  else h.txs[t].savepoints
  {
  }

  lemma {:induction false} OuterSavepointsStay(h: Hub, steps: seq<Step>, t: TxId)
    requires t in h.txs && Run(h, steps).Some? && Inside(steps, t)
    ensures var h' := Run(h, steps).value;
            && t in h'.txs
            && |h'.txs[t].savepoints| == |h.txs[t].savepoints| + Depth(steps, t)
            && h.txs[t].savepoints <= h'.txs[t].savepoints
  {
    if steps != [] {
      OuterSavepointsStay(h, steps[..|steps| - 1], t);
      StepOnStack(Run(h, steps[..|steps| - 1]).value, steps[|steps| - 1], t);
    }
  }

  /**
   Once everything opened inside a savepoint is closed, rolling back to it restores the transaction's locks, rows and
   log to what they were when it was taken, and releasing it keeps them; either way the outer savepoints are as before.
   */
  lemma SavepointRestores(h: Hub, t: TxId, steps: seq<Step>)
    requires Enabled(h, Savepoint(t)) && Run(Next(h, Savepoint(t)), steps).Some?
    requires Inside(steps, t) && Depth(steps, t) == 0
    ensures var after := Run(Next(h, Savepoint(t)), steps).value;
            && Enabled(after, RollbackTo(t)) && Enabled(after, Release(t))
            && Next(after, RollbackTo(t)).txs[t].work == h.txs[t].work
            && Next(after, RollbackTo(t)).txs[t].savepoints == h.txs[t].savepoints
            && Next(after, Release(t)).txs[t].work == after.txs[t].work
            && Next(after, Release(t)).txs[t].savepoints == h.txs[t].savepoints
  {
    var taken := Next(h, Savepoint(t));
    OuterSavepointsStay(taken, steps, t);
    assert Run(taken, steps).value.txs[t].savepoints == taken.txs[t].savepoints;
  }

  /** After a rollback the next locked read of a row that was changed sees the row as the tables have it. */
  lemma RolledBackRowsAreReread(h: Hub, t: TxId, row: Row)
    requires Enabled(h, RollbackTo(t)) && row in h.txs[t].work.levels
    ensures var h' := Next(h, RollbackTo(t)); Seen(h', t, row) == View(h', t, row)
  {
  }
}
