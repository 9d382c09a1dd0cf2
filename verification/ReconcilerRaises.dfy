/** Exactly when a repair, a sweep or a whole pass raises: a queue that is full by the reconciler's own limits. */
module ReconcilerRaises {
  import opened Options
  import opened RunRecords
  import opened Admission
  import opened Lifecycle
  import opened LifecycleSafety
  import opened LifecycleTheorems
  import opened Reconciliation

  /** The decision puts the Run back into the queue: a fallback, or the reap of a Run with an executable package. */
  predicate Requeues(phase: Phase, rec: Record, env: Env) {
    match Decide(phase, rec, env)
    case Some(Requeue(_, _)) => true
    case Some(Reap(_, _, packageSeen)) => packageSeen
    case _ => false
  }

  /** The Run after the phase's decision, if there is one. */
  function Repaired(phase: Phase, rec: Record, env: Env): Record {
    match Decide(phase, rec, env)
    case None => rec
    case Some(a) => var out := Act(rec, a, env); if out.Committed? then out.rec else rec
  }

  /** What a decision's move looks like: into the queue, out of everything, or none. */
  ghost predicate MoveShape(phase: Phase, rec: Record, env: Env)
    requires Decide(phase, rec, env).Some?
  {
    var out := Act(rec, Decide(phase, rec, env).value, env);
    && out.Committed? && ScopeSet(out.rec.run) == ScopeSet(rec.run)
    && if Requeues(phase, rec, env) then
         rec.run.dispatch != Queued && out.rec.run.dispatch == Queued
         && out.move == Some(Move(rec.run.dispatch, Queued, false))
       else if out.move.Some? then
         out.rec.run.dispatch == Finished && out.move == Some(Move(rec.run.dispatch, Finished, false))
       else out.rec.run.dispatch == rec.run.dispatch
  }

  lemma TerminateSeen(phase: Phase, rec: Record, env: Env)
    requires Decide(phase, rec, env).Some? && Decide(phase, rec, env).value.Terminate?
    ensures var a := Decide(phase, rec, env).value;
            a.run == rec.run && Unheld(rec.run) && (a.status == Failed || a.status == Cancelled)
  {
    hide NeedsDispatch, HasDeadLetter;
  }

  lemma TerminateShape(phase: Phase, rec: Record, env: Env)
    requires Joint(rec.run) && Decide(phase, rec, env).Some? && Decide(phase, rec, env).value.Terminate?
    ensures MoveShape(phase, rec, env)
  {
    TerminateSeen(phase, rec, env);
    hide Decide, Joint;
  }

  lemma ReapShape(phase: Phase, rec: Record, env: Env)
    requires Joint(rec.run) && Decide(phase, rec, env).Some? && Decide(phase, rec, env).value.Reap?
    ensures MoveShape(phase, rec, env)
  {
    hide NeedsDispatch, HasDeadLetter;
  }

  lemma RequeueShape(phase: Phase, rec: Record, env: Env)
    requires Joint(rec.run) && Decide(phase, rec, env).Some? && Decide(phase, rec, env).value.Requeue?
    ensures MoveShape(phase, rec, env)
  {
    hide NeedsDispatch, HasDeadLetter;
  }

  lemma OtherShape(phase: Phase, rec: Record, env: Env)
    requires Joint(rec.run) && Decide(phase, rec, env).Some?
    requires var a := Decide(phase, rec, env).value; a.RequestStop? || a.Redispatch? || a.FinishPurge?
    ensures MoveShape(phase, rec, env)
  {
    hide NeedsDispatch, HasDeadLetter;
  }

  lemma DecisionShape(phase: Phase, rec: Record, env: Env)
    requires Joint(rec.run) && Decide(phase, rec, env).Some?
    ensures MoveShape(phase, rec, env)
  {
    hide MoveShape, Joint, NeedsDispatch, HasDeadLetter;
    match Decide(phase, rec, env).value
    case Terminate(_, _) => TerminateShape(phase, rec, env);
    case Reap(_, _, _) => ReapShape(phase, rec, env);
    case Requeue(_, _) => RequeueShape(phase, rec, env);
    case _ => OtherShape(phase, rec, env);
  }

  // ----- One Run -----

  lemma QueueAdmits(buckets: map<Scope, Bucket>, run: Run, from: DispatchState)
    requires from != Queued
    ensures Transition(buckets, run, from, Queued, DEFAULT_LIMITS).None?
            <==> exists s :: s in ScopeSet(run) && Get(buckets, s).queued >= DEFAULT_LIMITS.maxQueued
    ensures Transition(buckets, run, from, Finished, DEFAULT_LIMITS).Some?
  {
    hide ScopeSet;
    assert forall s :: Fits(Get(buckets, s), from, Queued, DEFAULT_LIMITS)
                       <==> Get(buckets, s).queued < DEFAULT_LIMITS.maxQueued;
  }

  ghost predicate QueueFull(w: World, id: string) {
    id in w.records
    && exists s :: s in ScopeSet(w.records[id].run) && |Members(w.records, s, Queued)| >= DEFAULT_LIMITS.maxQueued
  }

  /** A visit raises if and only if it would queue the Run while one of its scopes has a full default queue. */
  lemma VisitRaises(w: World, phase: Phase, id: string)
    requires WorldInv(w)
    ensures Visit(w, phase, id).None?
            <==> id in w.records && Requeues(phase, w.records[id], EnvOf(w, w.records[id].run)) && QueueFull(w, id)
  {
    hide RecordInv, CapsHold, Act, Decide, CountsAgree, Transition, ScopeSet, Members;
    if id in w.records && Decide(phase, w.records[id], EnvOf(w, w.records[id].run)).Some? {
      var rec, env := w.records[id], EnvOf(w, w.records[id].run);
      JointOf(rec);
      DecisionShape(phase, rec, env);
      var out := Act(rec, Decide(phase, rec, env).value, env);
      if out.move.Some? {
        FullByCount(w, id, out.rec.run, out.move.value.from, out.move.value.to);
      }
    }
  }

  lemma FullByCount(w: World, id: string, run: Run, from: DispatchState, to: DispatchState)
    requires WorldInv(w) && id in w.records && ScopeSet(run) == ScopeSet(w.records[id].run)
    requires from != Queued || to == Finished
    requires to == Queued || to == Finished
    ensures Transition(w.buckets, run, from, to, DEFAULT_LIMITS).None? <==> to == Queued && QueueFull(w, id)
  {
    hide RecordInv, CapsHold, CountsAgree, Transition, ScopeSet, Members;
    forall s ensures Get(w.buckets, s).queued == |Members(w.records, s, Queued)| {
      CountOf(w, s);
    }
    if to == Queued {
      QueueAdmits(w.buckets, run, from);
    } else {
      FinishAdmits(w.buckets, run, from);
    }
  }

  lemma FinishAdmits(buckets: map<Scope, Bucket>, run: Run, from: DispatchState)
    ensures Transition(buckets, run, from, Finished, DEFAULT_LIMITS).Some?
  {
  }

  // ----- A sweep -----

  function Entered(rec: Record, after: Record, s: Scope): int {
    if s !in ScopeSet(rec.run) then 0
    else (if after.run.dispatch == Queued then 1 else 0) - (if rec.run.dispatch == Queued then 1 else 0)
  }

  /** The queue of `s` after the Runs of `order` were visited, reckoned from the state before: what it held, plus the
      Runs the phase puts back, less the queued ones it ends. */
  ghost function QueueAfter(w: World, phase: Phase, order: seq<string>, s: Scope): int {
    if order == [] then |Members(w.records, s, Queued)|
    else
      var id := order[|order| - 1];
      QueueAfter(w, phase, order[..|order| - 1], s)
      + if id in w.records then
          Entered(w.records[id], Repaired(phase, w.records[id], EnvOf(w, w.records[id].run)), s)
        else 0
  }

  /** Checked on the state before the sweep: Run `i` is to be queued where those before it leave a full queue. */
  ghost predicate RaisesAt(w: World, phase: Phase, order: seq<string>, i: nat) {
    && i < |order| && order[i] in w.records
    && Requeues(phase, w.records[order[i]], EnvOf(w, w.records[order[i]].run))
    && exists s :: s in ScopeSet(w.records[order[i]].run)
                   && QueueAfter(w, phase, order[..i], s) >= DEFAULT_LIMITS.maxQueued
  }

  ghost predicate SweepRaises(w: World, phase: Phase, order: seq<string>) {
    exists i: nat :: RaisesAt(w, phase, order, i)
  }

  ghost predicate Once(order: seq<string>) {
    forall i, j :: 0 <= i < j < |order| ==> order[i] != order[j]
  }

  /** The Runs after a phase that does not raise: those of `order` repaired, each by its own decision. */
  function AfterPhase(w: World, phase: Phase, order: seq<string>): map<string, Record> {
    map id | id in w.records ::
      if id in order then Repaired(phase, w.records[id], EnvOf(w, w.records[id].run)) else w.records[id]
  }

  /** What a sweep that does not raise leaves: the Runs repaired, and the queues as reckoned. */
  ghost predicate Tracks(w: World, mid: World, phase: Phase, order: seq<string>) {
    && WorldInv(mid) && mid.now == w.now && mid.definitions == w.definitions
    && mid.records == AfterPhase(w, phase, order)
    && (forall s :: |Members(mid.records, s, Queued)| == QueueAfter(w, phase, order, s))
  }

  lemma AfterOneMore(w: World, phase: Phase, front: seq<string>, id: string)
    requires id in w.records && id !in front
    ensures AfterPhase(w, phase, front + [id])
            == AfterPhase(w, phase, front)[id := Repaired(phase, w.records[id], EnvOf(w, w.records[id].run))]
    ensures AfterPhase(w, phase, front)[id] == w.records[id]
  {
    hide Repaired, EnvOf;
    assert forall other :: other in front + [id] <==> other in front || other == id;
  }

  lemma AfterAbsent(w: World, phase: Phase, front: seq<string>, id: string)
    requires id !in w.records
    ensures AfterPhase(w, phase, front + [id]) == AfterPhase(w, phase, front)
  {
    hide Repaired, EnvOf;
    assert forall other :: other in front + [id] <==> other in front || other == id;
  }

  lemma QueueOneMore(w: World, phase: Phase, front: seq<string>, id: string, s: Scope)
    ensures QueueAfter(w, phase, front + [id], s)
            == QueueAfter(w, phase, front, s)
               + if id in w.records then
                   Entered(w.records[id], Repaired(phase, w.records[id], EnvOf(w, w.records[id].run)), s)
                 else 0
  {
    hide Repaired, EnvOf, Entered, Members;
    assert (front + [id])[..|front|] == front;
  }

  lemma EnteredCounts(records: map<string, Record>, id: string, after: Record, s: Scope)
    requires id in records && ScopeSet(after.run) == ScopeSet(records[id].run)
    ensures |Members(records[id := after], s, Queued)| == |Members(records, s, Queued)| + Entered(records[id], after, s)
  {
    hide Members, ScopeSet;
    MembersUpdate(records, id, after, s, Queued);
  }

  lemma VisitTracks(w: World, mid: World, phase: Phase, front: seq<string>, id: string)
    requires Tracks(w, mid, phase, front) && id !in front && Visit(mid, phase, id).Some?
    ensures Tracks(w, Visit(mid, phase, id).value, phase, front + [id])
  {
    hide WorldInv, Visit, AfterPhase, QueueAfter, Members, Repaired, Entered, EnvOf, ScopeSet, Rank;
    VisitProgress(mid, phase, id, [id]);
    var next := Visit(mid, phase, id).value;
    if id in w.records {
      var rec, env := w.records[id], EnvOf(w, w.records[id].run);
      AfterOneMore(w, phase, front, id);
      AfterKeys(w, phase, front);
      SameEnv(w, mid, rec.run);
      VisitRecord(mid, phase, id);
      forall s ensures |Members(next.records, s, Queued)| == QueueAfter(w, phase, front + [id], s) {
        QueueOneMore(w, phase, front, id, s);
        EnteredCounts(mid.records, id, Repaired(phase, rec, env), s);
      }
    } else {
      AfterAbsent(w, phase, front, id);
      AfterKeys(w, phase, front);
      VisitAbsent(mid, phase, id);
      forall s ensures |Members(next.records, s, Queued)| == QueueAfter(w, phase, front + [id], s) {
        QueueOneMore(w, phase, front, id, s);
      }
    }
  }

  lemma SameEnv(w: World, mid: World, run: Run)
    requires mid.now == w.now && mid.definitions == w.definitions
    ensures EnvOf(mid, run) == EnvOf(w, run)
  {
  }

  lemma AfterKeys(w: World, phase: Phase, order: seq<string>)
    ensures AfterPhase(w, phase, order).Keys == w.records.Keys
  {
  }

  lemma VisitAbsent(w: World, phase: Phase, id: string)
    requires id !in w.records
    ensures Visit(w, phase, id) == Some(w)
  {
  }

  /** A visit that does not raise replaces just its own Run by the repaired one. */
  lemma VisitRecord(w: World, phase: Phase, id: string)
    requires WorldInv(w) && id in w.records && Visit(w, phase, id).Some?
    ensures var after := Repaired(phase, w.records[id], EnvOf(w, w.records[id].run));
            && Visit(w, phase, id).value.records == w.records[id := after]
            && ScopeSet(after.run) == ScopeSet(w.records[id].run)
  {
    hide RecordInv, CapsHold, Act, Decide, CountsAgree, Transition, ScopeSet;
    var rec, env := w.records[id], EnvOf(w, w.records[id].run);
    if Decide(phase, rec, env).Some? {
      JointOf(rec);
      DecisionShape(phase, rec, env);
    } else {
      assert w.records[id := rec] == w.records;
    }
  }

  lemma {:induction false} SweepTracks(w: World, phase: Phase, order: seq<string>)
    requires WorldInv(w) && Once(order) && Sweep(w, phase, order).Some?
    ensures Tracks(w, Sweep(w, phase, order).value, phase, order)
  {
    hide WorldInv, Tracks, Visit;
    if order == [] {
      TracksNothing(w, phase);
    } else {
      var front, id := order[..|order| - 1], order[|order| - 1];
      SweepTracks(w, phase, front);
      VisitTracks(w, Sweep(w, phase, front).value, phase, front, id);
      assert order == front + [id];
    }
  }

  lemma TracksNothing(w: World, phase: Phase)
    requires WorldInv(w)
    ensures Tracks(w, w, phase, [])
  {
    hide WorldInv, Members, Repaired, EnvOf;
    assert AfterPhase(w, phase, []) == w.records;
  }

  /** A sweep raises if and only if, reckoned from the state before it, some Run is to be queued into a full queue. */
  lemma {:induction false} SweepRaisesExactly(w: World, phase: Phase, order: seq<string>)
    requires WorldInv(w) && Once(order)
    ensures Sweep(w, phase, order).None? <==> SweepRaises(w, phase, order)
  {
    hide WorldInv, Visit, RaisesAt, Tracks;
    if order != [] {
      var n := |order| - 1;
      var front := order[..n];
      SweepRaisesExactly(w, phase, front);
      forall i: nat | i < n ensures RaisesAt(w, phase, front, i) <==> RaisesAt(w, phase, order, i) {
        RaisesPrefix(w, phase, order, i);
      }
      RaisesWithin(w, phase, order);
      RaisesWithin(w, phase, front);
      if Sweep(w, phase, front).Some? {
        SweepTracks(w, phase, front);
        LastRaises(w, Sweep(w, phase, front).value, phase, order);
      }
    } else {
      RaisesWithin(w, phase, order);
    }
  }

  lemma RaisesWithin(w: World, phase: Phase, order: seq<string>)
    ensures forall i: nat :: RaisesAt(w, phase, order, i) ==> i < |order|
  {
  }

  lemma RaisesPrefix(w: World, phase: Phase, order: seq<string>, i: nat)
    requires i < |order| - 1
    ensures RaisesAt(w, phase, order[..|order| - 1], i) <==> RaisesAt(w, phase, order, i)
  {
    assert order[..|order| - 1][..i] == order[..i];
  }

  lemma LastRaises(w: World, mid: World, phase: Phase, order: seq<string>)
    requires order != [] && Once(order) && Tracks(w, mid, phase, order[..|order| - 1])
    ensures Visit(mid, phase, order[|order| - 1]).None? <==> RaisesAt(w, phase, order, |order| - 1)
  {
    hide WorldInv, ScopeSet, Members, Requeues, Visit, QueueAfter, AfterPhase, EnvOf;
    var front, id := order[..|order| - 1], order[|order| - 1];
    VisitRaises(mid, phase, id);
    AfterKeys(w, phase, front);
    if id in w.records {
      AfterOneMore(w, phase, front, id);
      SameEnv(w, mid, w.records[id].run);
    }
  }

  lemma BuryingNeverRaises(w: World, order: seq<string>)
    ensures !SweepRaises(w, Burying, order)
  {
  }

  // ----- A pass -----

  /** The state before the pass with every lapsed lease of `order` taken back, as if the queues had no limits. */
  function Reaped(w: World, order: seq<string>): World {
    w.(records := AfterPhase(w, Reaping, order))
  }

  lemma {:induction false} QueueAfterSame(a: World, b: World, phase: Phase, order: seq<string>, s: Scope)
    requires a.records == b.records && a.now == b.now && a.definitions == b.definitions
    ensures QueueAfter(a, phase, order, s) == QueueAfter(b, phase, order, s)
  {
    hide Repaired, Entered, Members;
    if order != [] {
      QueueAfterSame(a, b, phase, order[..|order| - 1], s);
    }
  }

  lemma RaisesSame(a: World, b: World, phase: Phase, order: seq<string>)
    requires a.records == b.records && a.now == b.now && a.definitions == b.definitions
    ensures SweepRaises(a, phase, order) <==> SweepRaises(b, phase, order)
  {
    hide Requeues, QueueAfter, ScopeSet;
    forall i: nat ensures RaisesAt(a, phase, order, i) <==> RaisesAt(b, phase, order, i) {
      if i < |order| {
        forall s ensures QueueAfter(a, phase, order[..i], s) == QueueAfter(b, phase, order[..i], s) {
          QueueAfterSame(a, b, phase, order[..i], s);
        }
      }
    }
  }

  /** A pass raises if and only if, both reckoned from the state before it, some lapsed Run is to be queued into a full
      queue, or, with all of those taken back, some Run that waited too long is. */
  lemma PassRaisesExactly(w: World, resolved: map<string, int>, order: seq<string>)
    requires WorldInv(w) && Once(order)
    ensures Pass(w, resolved, order).None?
            <==> SweepRaises(w, Reaping, order) || SweepRaises(Reaped(w, order), Repairing(resolved), order)
  {
    hide WorldInv, Sweep, SweepRaises, RecountBuckets, AfterPhase;
    SweepRaisesExactly(w, Reaping, order);
    if Sweep(w, Reaping, order).Some? {
      var reaped := Sweep(w, Reaping, order).value;
      SweepTracks(w, Reaping, order);
      RaisesSame(reaped, Reaped(w, order), Repairing(resolved), order);
      Recheck(reaped);
      SweepRaisesExactly(reaped, Repairing(resolved), order);
      if Sweep(reaped, Repairing(resolved), order).Some? {
        SweepProgress(reaped, Repairing(resolved), order, order);
        SweepRaisesExactly(Sweep(reaped, Repairing(resolved), order).value, Burying, order);
        BuryingNeverRaises(Sweep(reaped, Repairing(resolved), order).value, order);
      }
    }
  }
}
