/** The reconciler's scan over a session: reap, recount, repair each Run, bury dead dispatches. */
module ReconcilerService {
  import opened Options
  import opened RunRecords
  import opened Admission
  import opened Lifecycle
  import opened LifecycleSafety
  import opened LifecycleTheorems
  import opened Reconciliation
  import opened ReconcilerEffects
  import opened Services

  datatype ScanResult = Done | Aborted | Raised

  /** What building the expected counts has seen after some of the rows. */
  function Tally(records: map<string, Record>, seen: set<string>, s: Scope, d: DispatchState): set<string> {
    set id | id in seen && id in records && records[id].run.dispatch == d && s in ScopeSet(records[id].run)
  }

  ghost predicate Counts(records: map<string, Record>, seen: set<string>, expected: map<Scope, Bucket>) {
    forall s ::
      && Get(expected, s).held == |Tally(records, seen, s, Held)|
      && Get(expected, s).queued == |Tally(records, seen, s, Queued)|
      && Get(expected, s).running == |Tally(records, seen, s, Claimed)|
  }

  lemma ReapActs(rec: Record, packageSeen: bool, env: Env)
    ensures Act(rec, Action.Reap(rec.run.status, env.now, packageSeen), env)
            == ReapRun(rec, rec.run.status, env.now, packageSeen)
  {
  }

  lemma LeavingAlwaysFits(buckets: map<Scope, Bucket>, run: Run, from: DispatchState, limits: Limits)
    ensures Transition(buckets, run, from, Finished, limits).Some?
  {
  }

  lemma TallyGrows(records: map<string, Record>, seen: set<string>, id: string, s: Scope, d: DispatchState)
    requires id in records && id !in seen
    ensures |Tally(records, seen + {id}, s, d)|
            == |Tally(records, seen, s, d)|
               + if records[id].run.dispatch == d && s in ScopeSet(records[id].run) then 1 else 0
  {
    var before, after := Tally(records, seen, s, d), Tally(records, seen + {id}, s, d);
    forall other
      ensures other in before - {id} <==> other in after - {id}
    {
    }
    SwapOne(before, after, id);
  }

  class ReconciliationService {
    const session: Session

    constructor (session: Session)
      ensures this.session == session
    {
      this.session := session;
    }

    /** Ends a Run no worker holds, giving up its slot and appending its callback. */
    method Terminate(id: string, status: Status) returns (admitted: bool)
      requires id in session.records && Unheld(session.records[id].run)
      requires status == Failed || status == Cancelled
      modifies session`records, session`buckets
      ensures var a := Action.Terminate(old(session.records)[id].run, status);
              Attempt(old(session.State()), id, old(session.Outcome(id, a)))
              == if admitted then Some(session.State()) else None
      ensures !admitted ==> session.State() == old(session.State())
    {
      hide Attempt, Transition, AppendCallback, TerminalCallback;
      var previous := session.records[id].run.dispatch;
      var run := session.records[id].run.(status := status, dispatch := Finished);
      run := run.(statusVersion := run.statusVersion + 1);
      admitted := EndRow(id, run, previous, status);
    }

    method EndRow(id: string, run: Run, from: DispatchState, status: Status) returns (admitted: bool)
      requires id in session.records && Terminal(status)
      modifies session`records, session`buckets
      ensures Attempt(old(session.State()), id,
                      Committed(AppendCallback(old(session.records)[id].(run := run), TerminalCallback(status)),
                                Some(Move(from, Finished, false))))
              == if admitted then Some(session.State()) else None
      ensures !admitted ==> session.State() == old(session.State())
    {
      hide Transition;
      var was := session.records;
      session.Stage(id, run);
      var admission := new AdmissionService(session, DEFAULT_LIMITS);
      SameScopesMove(session.buckets, run, AppendCallback(session.records[id], TerminalCallback(status)).run,
                     from, Finished, DEFAULT_LIMITS);
      admitted := admission.TransitionRun(run, from, Finished);
      if !admitted {
        session.records := was;
        return;
      }
      var outbox := new OutboxService(session);
      outbox.AppendTerminal(id, status);
      assert session.records == was[id := session.records[id]];
    }

    /** Sends a timed-out waiting Run back to the queue for its fallback node. */
    method RequeueTimeoutFallback(id: string) returns (admitted: bool)
      requires id in session.records && Parked(session.records[id].run)
      modifies session`records, session`buckets
      ensures var a := Action.Requeue(old(session.records)[id].run, session.now);
              Attempt(old(session.State()), id, old(session.Outcome(id, a)))
              == if admitted then Some(session.State()) else None
      ensures !admitted ==> session.State() == old(session.State())
    {
      hide Attempt, Transition, AppendDispatch;
      var run := session.records[id].run.(dispatch := Queued, queuedAt := Some(session.now));
      run := run.(waitingExpiresAt := None, statusVersion := run.statusVersion + 1);
      admitted := Requeue(id, run, Finished);
    }

    /** Rewrites the row, moves its slot to queued under the default limits and queues a dispatch. */
    method Requeue(id: string, run: Run, from: DispatchState) returns (admitted: bool)
      requires id in session.records
      modifies session`records, session`buckets
      ensures Attempt(old(session.State()), id,
                      Committed(AppendDispatch(old(session.records)[id].(run := run)), Some(Move(from, Queued, false))))
              == if admitted then Some(session.State()) else None
      ensures !admitted ==> session.State() == old(session.State())
    {
      hide Transition;
      var was := session.records;
      session.Stage(id, run);
      var admission := new AdmissionService(session, DEFAULT_LIMITS);
      admitted := admission.TransitionRun(run, from, Queued);
      if !admitted {
        session.records := was;
        return;
      }
      var outbox := new OutboxService(session);
      outbox.AppendRunDispatch(id);
      assert session.records == was[id := session.records[id]];
    }

    /** Takes an expired lease back: requeue the Run, or cancel it when its package is gone. */
    method ReapRun(id: string) returns (admitted: bool)
      requires id in session.records
      requires ReapDecision(session.records[id], session.now, session.PackageExecutable(session.records[id].run)).Some?
      modifies session`records, session`buckets
      ensures var a := Action.Reap(old(session.records)[id].run.status, session.now,
                                   old(session.PackageExecutable(session.records[id].run)));
              Attempt(old(session.State()), id, old(session.Outcome(id, a)))
              == if admitted then Some(session.State()) else None
      ensures !admitted ==> session.State() == old(session.State())
    {
      hide Transition, Act, PackageOk;
      var run := session.records[id].run;
      ReapActs(session.records[id], session.PackageExecutable(run), EnvOf(session.State(), run));
      if !session.PackageExecutable(run) {
        var leases := new LeaseService(session, 90);
        ghost var ended := AppendCallback(session.records[id].(run := Released(run, Cancelled)), RunCancelled);
        LeavingAlwaysFits(session.buckets, ended.run, Claimed, DEFAULT_LIMITS);
        admitted := leases.EndLease(id, Cancelled);
      } else {
        var next := if run.status == Planning || run.status == Running || run.status == Evaluating
                    then Pending else run.status;
        if next != run.status {
          run := run.(statusVersion := run.statusVersion + 1);
        }
        run := run.(status := next, dispatch := Queued, queuedAt := Some(session.now));
        run := run.(leaseOwner := None, leaseExpiresAt := None);
        admitted := Requeue(id, run, Claimed);
      }
    }

    method RepairDispatch(id: string)
      requires id in session.records
      modifies session`records
      ensures Attempt(old(session.State()), id, old(session.Outcome(id, Action.Redispatch))) == Some(session.State())
    {
      var rec := session.records[id];
      if rec.dispatches == [] {
        var outbox := new OutboxService(session);
        outbox.AppendRunDispatch(id);
      } else {
        var last := |rec.dispatches| - 1;
        var replayed := rec.dispatches[last].(status := DispatchPending, leaseExpiresAt := None);
        session.records := session.records[id := rec.(dispatches := rec.dispatches[last := replayed])];
      }
    }

    method RequestStop(id: string)
      requires id in session.records
      requires session.records[id].run.dispatch == Claimed && session.records[id].run.cancelRequestedAt == None
      modifies session`records
      ensures var a := Action.RequestStop(old(session.records)[id].run, session.now);
              Attempt(old(session.State()), id, old(session.Outcome(id, a))) == Some(session.State())
    {
      session.Stage(id, session.records[id].run.(cancelRequestedAt := Some(session.now)));
    }

    /** Does for one Run whatever the phase decides; false when admission raised. */
    method VisitRun(id: string, phase: Phase) returns (admitted: bool)
      requires id in session.records && Joint(session.records[id].run)
      modifies session`records, session`buckets
      ensures Visit(old(session.State()), phase, id) == if admitted then Some(session.State()) else None
      ensures !admitted ==> session.State() == old(session.State())
    {
      hide Attempt, Act, Joint;
      var rec, env := session.records[id], EnvOf(session.State(), session.records[id].run);
      admitted := true;
      match Decide(phase, rec, env)
      case None =>
      case Some(a) =>
        Sound(phase, rec, env);
        match a {
          case Terminate(_, status) => admitted := Terminate(id, status);
          case RequestStop(_, _) => RequestStop(id);
          case Requeue(_, _) => admitted := RequeueTimeoutFallback(id);
          case Redispatch => RepairDispatch(id);
          case FinishPurge =>
            var runs := new AgentRunService(session);
            var purged := runs.CompletePurge(id);
            QuietAttempt(old(session.State()), id, old(session.Outcome(id, a)));
          case Reap(_, _, _) => admitted := ReapRun(id);
        }
    }

    /** Visits every Run of `order`; false when admission raised on the way. */
    method SweepRuns(order: seq<string>, phase: Phase) returns (swept: bool)
      requires WorldInv(session.State()) && forall id :: id in order ==> id in session.records
      modifies session`records, session`buckets
      ensures swept ==> Sweep(old(session.State()), phase, order) == Some(session.State())
      ensures !swept ==> Sweep(old(session.State()), phase, order) == None
      ensures swept ==> Progress(old(session.State()), session.State(), order)
    {
      hide WorldInv, Sweep, Visit, Rank;
      ghost var start := session.State();
      SweepNothing(start, phase, order);
      for i := 0 to |order|
        invariant Sweep(start, phase, order[..i]) == Some(session.State())
        invariant Progress(start, session.State(), order)
      {
        JointHere(session.State(), order[i]);
        SweepOne(start, phase, order, i);
        swept := VisitRun(order[i], phase);
        if !swept {
          SweepStops(start, phase, order, i + 1);
          return;
        }
        SweepProgress(start, phase, order[..i + 1], order);
      }
      assert order[..|order|] == order;
      swept := true;
    }

    /** The same, checking the reconciler lease before each Run that the phase looks at. */
    method GuardedSweep(order: seq<string>, phase: Phase, guard: nat -> bool, before: nat)
      returns (result: ScanResult, checks: nat)
      requires WorldInv(session.State()) && forall id :: id in order ==> id in session.records
      modifies session`records, session`buckets
      ensures before <= checks
      ensures result == Done ==> Sweep(old(session.State()), phase, order) == Some(session.State())
      ensures result == Done ==> Progress(old(session.State()), session.State(), order)
      ensures result == Raised ==> Sweep(old(session.State()), phase, order) == None
      ensures result == Aborted ==> before < checks && !guard(checks - 1)
      ensures forall k :: before <= k < checks && (result != Aborted || k < checks - 1) ==> guard(k)
    {
      hide WorldInv, Sweep, Visit, Rank, HasDeadLetter;
      ghost var start := session.State();
      checks := before;
      SweepNothing(start, phase, order);
      for i := 0 to |order|
        invariant before <= checks && forall k :: before <= k < checks ==> guard(k)
        invariant Sweep(start, phase, order[..i]) == Some(session.State())
        invariant Progress(start, session.State(), order)
      {
        if phase != Burying || HasDeadLetter(session.records[order[i]].dispatches) {
          checks := checks + 1;
          if !guard(checks - 1) {
            return Aborted, checks;
          }
        }
        JointHere(session.State(), order[i]);
        SweepOne(start, phase, order, i);
        var visited := VisitRun(order[i], phase);
        if !visited {
          SweepStops(start, phase, order, i + 1);
          return Raised, checks;
        }
        SweepProgress(start, phase, order[..i + 1], order);
      }
      assert order[..|order|] == order;
      result := Done;
    }

    /** One whole scan.  `guard(k)` is what the k-th check of the reconciler lease answers. */
    method RunOnce(order: seq<string>, resolved: map<string, int>, guard: nat -> bool)
      returns (result: ScanResult, checks: nat)
      requires WorldInv(session.State()) && Lists(order, session.records)
      modifies session`records, session`buckets
      ensures result == Done ==> Pass(old(session.State()), resolved, order) == Some(session.State())
      ensures result == Done ==> AllFulfilled(old(session.State()), session.State(), resolved)
      ensures result == Raised ==> Pass(old(session.State()), resolved, order) == None
      ensures result != Done ==> session.State() == old(session.State())
      ensures result == Aborted <==> exists k :: 0 <= k < checks && !guard(k)
    {
      hide WorldInv, Sweep, RecountBuckets, AllFulfilled;
      checks := 1;
      if !guard(0) {
        return Aborted, checks;
      }
      ghost var start := session.State();
      var records, buckets := session.records, session.buckets;
      var swept := SweepRuns(order, Reaping);
      if !swept {
        session.records, session.buckets := records, buckets;
        return Raised, checks;
      }
      ghost var reaped := session.State();
      ReconcileAdmissionBuckets(order);
      Recheck(reaped);
      result, checks := GuardedSweep(order, Repairing(resolved), guard, checks);
      if result != Done {
        session.records, session.buckets := records, buckets;
        return;
      }
      ghost var repaired := session.State();
      result, checks := GuardedSweep(order, Burying, guard, checks);
      if result != Done {
        session.records, session.buckets := records, buckets;
        return;
      }
      checks := checks + 1;
      if !guard(checks - 1) {
        session.records, session.buckets := records, buckets;
        result := Aborted;
        return;
      }
      PassFulfils(start, resolved, order);
    }

    /** Counts one Run under its four scopes. */
    method CountRun(expected: map<Scope, Bucket>, run: Run) returns (more: map<Scope, Bucket>)
      requires Counted(run.dispatch)
      ensures forall s :: Get(more, s)
                == if s in ScopeSet(run) then AddOne(Get(expected, s), run.dispatch) else Get(expected, s)
    {
      var scopes := ScopesOf(run);
      ScopesListed(run);
      hide AddOne, ScopesOf, ScopeSet;
      more := expected;
      for i := 0 to |scopes|
        invariant forall s :: Get(more, s)
                    == if s in scopes[..i] then AddOne(Get(expected, s), run.dispatch) else Get(expected, s)
      {
        assert scopes[i] !in scopes[..i];
        assert scopes[..i + 1] == scopes[..i] + [scopes[i]];
        more := more[scopes[i] := AddOne(Get(more, scopes[i]), run.dispatch)];
      }
      assert scopes[..|scopes|] == scopes;
    }

    /** Counts every Run afresh. */
    method ExpectedCounts(order: seq<string>) returns (expected: map<Scope, Bucket>)
      requires Lists(order, session.records)
      ensures CountsAgree(session.records, expected)
    {
      hide AddOne, ScopeSet;
      expected := map[];
      NothingCounted(session.records);
      for i := 0 to |order|
        invariant Counts(session.records, Elements(order[..i]), expected)
      {
        var run := session.records[order[i]].run;
        ghost var before := expected;
        if Counted(run.dispatch) {
          expected := CountRun(expected, run);
        }
        CountedOneMore(session.records, order, i, before, expected);
      }
      assert order[..|order|] == order;
      assert Elements(order) == session.records.Keys;
      AllCounted(session.records, expected);
    }

    /** Rewrites each bucket row that differs from the fresh counts, bumping its version. */
    method ReconcileAdmissionBuckets(order: seq<string>)
      requires Lists(order, session.records)
      modifies session`buckets
      ensures session.State() == RecountBuckets(old(session.State()))
    {
      var expected := ExpectedCounts(order);
      session.buckets := RewriteBuckets(session.records, expected, session.buckets);
    }

    method RewriteBuckets(ghost records: map<string, Record>, expected: map<Scope, Bucket>,
                          buckets: map<Scope, Bucket>)
      returns (rewritten: map<Scope, Bucket>)
      requires CountsAgree(records, expected)
      ensures rewritten == map s | s in buckets :: Recounted(records, s, buckets[s])
    {
      hide CountsAgree, Recounted;
      rewritten := buckets;
      var todo := buckets.Keys;
      while todo != {}
        invariant todo <= buckets.Keys == rewritten.Keys
        invariant forall s :: s in todo ==> rewritten[s] == buckets[s]
        invariant forall s :: s in buckets && s !in todo ==> rewritten[s] == Recounted(records, s, buckets[s])
        decreases todo
      {
        var s :| s in todo;
        RecountedAt(records, expected, s, buckets[s]);
        var bucket, counts := rewritten[s], Get(expected, s);
        if (bucket.held, bucket.queued, bucket.running) != (counts.held, counts.queued, counts.running) {
          rewritten := rewritten[s := counts.(version := bucket.version + 1)];
        }
        todo := todo - {s};
      }
    }
  }

  lemma JointHere(w: World, id: string)
    requires WorldInv(w) && id in w.records
    ensures Joint(w.records[id].run)
  {
    hide LogShape, LeaseInv, TerminalBalance, Blank, CountsAgree, CapsHold;
  }

  lemma SweepNothing(w: World, phase: Phase, order: seq<string>)
    requires WorldInv(w)
    ensures Sweep(w, phase, order[..0]) == Some(w)
    ensures Progress(w, w, order)
  {
    hide WorldInv;
  }

  lemma RecountedAt(records: map<string, Record>, expected: map<Scope, Bucket>, s: Scope, b: Bucket)
    requires CountsAgree(records, expected)
    ensures var counts := Get(expected, s);
            Recounted(records, s, b)
            == if (b.held, b.queued, b.running) == (counts.held, counts.queued, counts.running) then b
               else counts.(version := b.version + 1)
  {
    assert BucketAgrees(records, expected, s);
  }

  lemma AllCounted(records: map<string, Record>, expected: map<Scope, Bucket>)
    requires Counts(records, records.Keys, expected)
    ensures CountsAgree(records, expected)
  {
    hide ScopeSet;
    forall s
      ensures BucketAgrees(records, expected, s)
    {
      assert Tally(records, records.Keys, s, Held) == Members(records, s, Held);
      assert Tally(records, records.Keys, s, Queued) == Members(records, s, Queued);
      assert Tally(records, records.Keys, s, Claimed) == Members(records, s, Claimed);
    }
  }

  function AddOne(b: Bucket, d: DispatchState): Bucket
    requires Counted(d)
  {
    WithCount(b, d, Count(b, d) + 1)
  }

  function Elements(order: seq<string>): set<string> {
    set id | id in order
  }

  /** `order` is the table read once: every Run, once. */
  ghost predicate Lists(order: seq<string>, records: map<string, Record>) {
    && (forall id :: id in order <==> id in records)
    && (forall i, j :: 0 <= i < j < |order| ==> order[i] != order[j])
  }

  lemma NothingCounted(records: map<string, Record>)
    ensures Counts(records, Elements([]), map[])
  {
    forall s
      ensures Tally(records, {}, s, Held) == Tally(records, {}, s, Queued) == Tally(records, {}, s, Claimed) == {}
    {
    }
    assert Elements([]) == {};
  }

  lemma CountedOneMore(records: map<string, Record>, order: seq<string>, i: nat,
                       before: map<Scope, Bucket>, after: map<Scope, Bucket>)
    requires Lists(order, records) && i < |order|
    requires Counts(records, Elements(order[..i]), before)
    requires var run := records[order[i]].run;
             if Counted(run.dispatch) then
               forall s :: Get(after, s)
                 == if s in ScopeSet(run) then AddOne(Get(before, s), run.dispatch) else Get(before, s)
             else after == before
    ensures Counts(records, Elements(order[..i + 1]), after)
  {
    hide ScopeSet;
    var id := order[i];
    assert Elements(order[..i + 1]) == Elements(order[..i]) + {id};
    forall s
      ensures Get(after, s).held == |Tally(records, Elements(order[..i + 1]), s, Held)|
      ensures Get(after, s).queued == |Tally(records, Elements(order[..i + 1]), s, Queued)|
      ensures Get(after, s).running == |Tally(records, Elements(order[..i + 1]), s, Claimed)|
    {
      TallyGrows(records, Elements(order[..i]), id, s, Held);
      TallyGrows(records, Elements(order[..i]), id, s, Queued);
      TallyGrows(records, Elements(order[..i]), id, s, Claimed);
    }
  }

  /** The decisions are about the Run as it stands, and within what each write demands. */
  lemma Sound(phase: Phase, rec: Record, env: Env)
    requires Decide(phase, rec, env).Some?
    ensures match Decide(phase, rec, env).value
            case Terminate(seen, status) =>
              seen == rec.run && Unheld(rec.run) && (status == Failed || status == Cancelled)
            case RequestStop(seen, at) =>
              seen == rec.run && at == env.now && rec.run.dispatch == Claimed && rec.run.cancelRequestedAt == None
            case Requeue(seen, at) => seen == rec.run && at == env.now && Parked(rec.run)
            case Redispatch => true
            case FinishPurge => !Act(rec, FinishPurge, env).Committed? || Act(rec, FinishPurge, env).move.None?
            case Reap(seen, at, packageSeen) =>
              && seen == rec.run.status && at == env.now && packageSeen == env.packageOk
              && ReapDecision(rec, env.now, env.packageOk).Some?
            case _ => false
  {
    hide NeedsDispatch, HasDeadLetter;
  }

  lemma QuietAttempt(w: World, id: string, out: Outcome)
    requires !out.Committed? || out.move.None?
    ensures Attempt(w, id, out) == Some(Apply(w, id, out))
  {
  }
}
