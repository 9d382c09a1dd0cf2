/** A Run's callback log says whether it waits for a person, or has waited and not started again. */
module Waiting {
  import opened Options
  import opened RunRecords
  import opened Lifecycle
  import opened LifecycleTheorems
  import opened Callbacks

  /** In every reachable state a Run is waiting, or has waited and not started again, exactly when the last event of its
      log that is not about a step says so. */
  lemma WaitingIsMarked(w: World, id: string)
    requires Reachable(w) && id in w.records
    ensures w.records[id].run.status == WaitingHuman <==> LastMark(w.records[id].log) == Some(AwaitingHuman)
  {
    hide Reachable, LastMark;
    ReachableTold(w, id);
  }

  // ----- What happened since an earlier look -----

  lemma {:induction false} LastMarkSplits(earlier: seq<CallbackEvent>, since: seq<CallbackEvent>)
    ensures LastMark(earlier + since) == if LastMark(since).Some? then LastMark(since) else LastMark(earlier)
    decreases |since|
  {
    if since == [] {
      assert earlier + since == earlier;
    } else {
      var all, front := earlier + since, since[..|since| - 1];
      assert all[..|all| - 1] == earlier + front;
      LastMarkSplits(earlier, front);
    }
  }

  /** The events a Run's log got since an earlier one. */
  function Since(earlier: seq<CallbackEvent>, log: seq<CallbackEvent>): seq<CallbackEvent>
    requires earlier <= log
  {
    log[|earlier|..]
  }

  /** A Run not waiting before waits now exactly when the last mark since says so; one waiting before has stopped
      exactly when there is another mark since. */
  lemma WaitingSince(w: World, steps: seq<Step>, id: string)
    requires Reachable(w) && id in w.records
    ensures var later := Execute(w, steps);
            && id in later.records && w.records[id].log <= later.records[id].log
            && var mark := LastMark(Since(w.records[id].log, later.records[id].log));
               later.records[id].run.status == WaitingHuman
               <==> mark == Some(AwaitingHuman) || (mark == None && w.records[id].run.status == WaitingHuman)
  {
    hide Reachable, Execute, LastMark;
    var later := Execute(w, steps);
    StepsReachable(w, steps);
    LogExact(w, steps, id);
    WaitingIsMarked(w, id);
    WaitingIsMarked(later, id);
    var log := later.records[id].log;
    assert log == w.records[id].log + Since(w.records[id].log, log);
    LastMarkSplits(w.records[id].log, Since(w.records[id].log, log));
  }
}
