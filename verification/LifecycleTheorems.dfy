/** What holds in every state that any interleaving of the lifecycle transactions can reach. */
module LifecycleTheorems {
  import opened Options
  import opened RunRecords
  import opened Admission
  import opened Lifecycle
  import opened LifecycleSafety

  ghost predicate RecordsInv(records: map<string, Record>) {
    forall id :: id in records ==> RecordInv(records[id]) && records[id].run.runId == id
  }

  ghost predicate WorldInv(w: World) {
    && RecordsInv(w.records)
    && CountsAgree(w.records, w.buckets)
    && CapsHold(w.buckets, w.api)
  }

  ghost predicate WorldEvolves(w: World, later: World) {
    && later.api == w.api
    && w.now <= later.now
    && forall id :: id in w.records ==>
         id in later.records && Evolves(w.records[id], w.now, later.records[id], later.now)
  }

  lemma Standstill(rec: Record, t: int, u: int)
    requires RecordInv(rec) && t <= u
    ensures Evolves(rec, t, rec, u)
  {
    hide LogShape, LeaseInv, TerminalBalance, Blank;
  }

  lemma ReplaceEvolves(w: World, id: string, after: Record, buckets: map<Scope, Bucket>)
    requires RecordsInv(w.records)
    requires id in w.records ==> Evolves(w.records[id], w.now, after, w.now)
    ensures WorldEvolves(w, w.(records := w.records[id := after], buckets := buckets))
  {
    hide RecordInv, Evolves;
    forall other | other in w.records && other != id
      ensures Evolves(w.records[other], w.now, w.records[other], w.now)
    {
      Standstill(w.records[other], w.now, w.now);
    }
  }

  /** Admission commits with the Record: counts stay the recount, caps stay met. */
  lemma MoveKeepsLedger(w: World, id: string, after: Record, m: Move)
    requires CountsAgree(w.records, w.buckets) && CapsHold(w.buckets, w.api)
    requires SameScopes(w.records, id, after)
    requires MoveMatches(DispatchOf(w.records, id), after.run, Some(m))
    requires Transition(w.buckets, after.run, m.from, m.to, LimitsOf(w, m)).Some?
    ensures var moved := Transition(w.buckets, after.run, m.from, m.to, LimitsOf(w, m)).value;
            CountsAgree(w.records[id := after], moved) && CapsHold(moved, w.api)
  {
    hide Transition, CountsAgree, CapsHold;
    TransitionKeepsCounts(w.records, w.buckets, id, after, m.from, LimitsOf(w, m));
    TransitionKeepsCaps(w.buckets, after.run, m.from, m.to, w.api, LimitsOf(w, m));
  }

  /** Committing a safe Record keeps the whole database consistent. */
  lemma ApplySafe(w: World, id: string, after: Record, move: Option<Move>)
    requires WorldInv(w)
    requires RecordInv(after) && after.run.runId == id
    requires id in w.records ==> Evolves(w.records[id], w.now, after, w.now)
    requires MoveMatches(DispatchOf(w.records, id), after.run, move)
    ensures WorldInv(Apply(w, id, Committed(after, move)))
    ensures WorldEvolves(w, Apply(w, id, Committed(after, move)))
  {
    hide RecordInv, Transition, CountsAgree, CapsHold, MoveMatches, WorldEvolves;
    assert SameScopes(w.records, id, after) by {
      if id in w.records {
        assert SameIdentity(w.records[id].run, after.run);
      }
    }
    WorldStandstill(w);
    match move
    case None =>
      NoMove(w, id, after);
      UpdateKeepsCounts(w.records, w.buckets, id, after);
      ReplaceEvolves(w, id, after, w.buckets);
    case Some(m) =>
      var moved := Transition(w.buckets, after.run, m.from, m.to, LimitsOf(w, m));
      if moved.Some? {
        MoveKeepsLedger(w, id, after, m);
        ReplaceEvolves(w, id, after, moved.value);
      }
  }

  lemma NoMove(w: World, id: string, after: Record)
    requires RecordInv(after)
    requires MoveMatches(DispatchOf(w.records, id), after.run, None)
    ensures id in w.records && after.run.dispatch == w.records[id].run.dispatch
  {
    hide LogShape, LeaseInv, TerminalBalance, Blank;
  }

  lemma WorldStandstill(w: World)
    requires RecordsInv(w.records)
    ensures WorldEvolves(w, w)
  {
    hide RecordInv, Evolves;
    forall id | id in w.records
      ensures Evolves(w.records[id], w.now, w.records[id], w.now)
    {
      Standstill(w.records[id], w.now, w.now);
    }
  }

  lemma CreatedSafe(id: string, q: Request, definitions: map<(string, string), Definition>, now: int)
    ensures var out := CreateRun(id, q, definitions, now);
            out.Committed? ==>
              RecordInv(out.rec) && out.rec.run.runId == id && MoveMatches(Unborn, out.rec.run, out.move)
  {
  }

  lemma TickSafe(w: World, elapsed: nat)
    requires WorldInv(w)
    ensures WorldEvolves(w, w.(now := w.now + elapsed))
  {
    hide RecordInv, Evolves;
    forall id | id in w.records
      ensures Evolves(w.records[id], w.now, w.records[id], w.now + elapsed)
    {
      Standstill(w.records[id], w.now, w.now + elapsed);
    }
  }

  /** One step of anyone keeps the invariant, and every Record only moves forward. */
  lemma NextSafe(w: World, step: Step)
    requires WorldInv(w)
    ensures WorldInv(Next(w, step))
    ensures WorldEvolves(w, Next(w, step))
  {
    hide RecordInv, CountsAgree, CapsHold, Evolves, Act, CreateRun, Apply, MoveMatches;
    WorldStandstill(w);
    match step
    case Tick(elapsed) => TickSafe(w, elapsed);
    case Define(_, _) =>
    case Create(id, q) =>
      if id !in w.records {
        CreatedSafe(id, q, w.definitions, w.now);
        CommitSafe(w, id, CreateRun(id, q, w.definitions, w.now));
      }
    case Do(id, a) =>
      if id in w.records {
        ActCommits(w, id, a);
      }
  }

  lemma CommitSafe(w: World, id: string, out: Outcome)
    requires WorldInv(w)
    requires out.Committed? ==>
               && RecordInv(out.rec) && out.rec.run.runId == id
               && (id in w.records ==> Evolves(w.records[id], w.now, out.rec, w.now))
               && MoveMatches(DispatchOf(w.records, id), out.rec.run, out.move)
    ensures WorldInv(Apply(w, id, out))
    ensures WorldEvolves(w, Apply(w, id, out))
  {
    hide RecordInv, CountsAgree, CapsHold, Evolves, MoveMatches;
    WorldStandstill(w);
    if out.Committed? {
      ApplySafe(w, id, out.rec, out.move);
    }
  }

  lemma ActCommits(w: World, id: string, a: Action)
    requires WorldInv(w) && id in w.records
    ensures var w' := Apply(w, id, Act(w.records[id], a, EnvOf(w, w.records[id].run)));
            WorldInv(w') && WorldEvolves(w, w')
  {
    hide RecordInv, CountsAgree, CapsHold, Act, MoveMatches, Apply;
    var rec := w.records[id];
    var out := Act(rec, a, EnvOf(w, rec.run));
    ActSafe(rec, w.now, a, EnvOf(w, rec.run));
    CommitSafe(w, id, out);
  }

  // ----- Over whole runs -----

  lemma {:induction false} ExecuteSafe(w: World, steps: seq<Step>)
    requires WorldInv(w)
    ensures WorldInv(Execute(w, steps))
    ensures WorldEvolves(w, Execute(w, steps))
  {
    hide RecordInv, CountsAgree, CapsHold, Evolves, Next;
    if steps == [] {
      WorldStandstill(w);
    } else {
      var mid := Execute(w, steps[..|steps| - 1]);
      ExecuteSafe(w, steps[..|steps| - 1]);
      NextSafe(mid, steps[|steps| - 1]);
      Compose(w, mid, Execute(w, steps));
    }
  }

  lemma Compose(a: World, b: World, c: World)
    requires WorldEvolves(a, b) && WorldEvolves(b, c)
    ensures WorldEvolves(a, c)
  {
    hide Evolves;
    forall id | id in a.records
      ensures Evolves(a.records[id], a.now, c.records[id], c.now)
    {
      EvolvesTransitive(a.records[id], a.now, b.records[id], b.now, c.records[id], c.now);
    }
  }

  /** A state some sequence of steps reaches from an empty database. */
  ghost predicate Reachable(w: World) {
    exists now, api, steps :: w == Execute(Init(now, api), steps)
  }

  lemma StepReachable(w: World, step: Step)
    requires Reachable(w)
    ensures Reachable(Next(w, step))
  {
    hide Next;
    var now, api, steps :| w == Execute(Init(now, api), steps);
    assert (steps + [step])[..|steps|] == steps;
    assert Next(w, step) == Execute(Init(now, api), steps + [step]);
  }

  lemma {:induction false} StepsReachable(w: World, steps: seq<Step>)
    requires Reachable(w)
    ensures Reachable(Execute(w, steps))
    decreases |steps|
  {
    hide Reachable, Next;
    if steps != [] {
      StepsReachable(w, steps[..|steps| - 1]);
      StepReachable(Execute(w, steps[..|steps| - 1]), steps[|steps| - 1]);
    }
  }

  lemma {:induction false} ExecuteApi(w: World, steps: seq<Step>)
    ensures Execute(w, steps).api == w.api
    decreases |steps|
  {
    if steps != [] {
      ExecuteApi(w, steps[..|steps| - 1]);
      NextApi(Execute(w, steps[..|steps| - 1]), steps[|steps| - 1]);
      hide Next;
    }
  }

  lemma NextApi(w: World, step: Step)
    ensures Next(w, step).api == w.api
  {
    hide Act, Transition, CreateRun;
  }

  lemma ReachableInv(w: World)
    requires Reachable(w)
    ensures WorldInv(w)
  {
    hide Execute;
    var now, api, steps :| w == Execute(Init(now, api), steps);
    assert CountsAgree(map[], map[]) by {
      forall s
        ensures BucketAgrees(map[], map[], s)
      {
        assert Members(map[], s, Held) == Members(map[], s, Queued) == Members(map[], s, Claimed) == {};
      }
    }
    ExecuteSafe(Init(now, api), steps);
  }

  function Max(a: int, b: int): int {
    if a < b then b else a
  }

  /** Every bucket, in every reachable state, is the recount of the Runs it stands for, and no count
      passes the limits it is admitted under.
   */
  lemma AdmissionExact(w: World, s: Scope)
    requires Reachable(w)
    ensures Get(w.buckets, s).held == |Members(w.records, s, Held)| <= Max(0, w.api.maxHeld)
    ensures Get(w.buckets, s).running == |Members(w.records, s, Claimed)| <= DEFAULT_LIMITS.maxRunning
    ensures Get(w.buckets, s).queued == |Members(w.records, s, Queued)|
            <= Max(w.api.maxQueued, DEFAULT_LIMITS.maxQueued)
  {
    ReachableInv(w);
    assert BucketAgrees(w.records, w.buckets, s);
    assert Capped(Get(w.buckets, s), w.api);
  }

  /** What the four kinds of scope stand for: all Runs, a caller's, a tenant's and an agent's. */
  lemma AdmissionByScope(w: World, key: string, d: DispatchState)
    requires Reachable(w) && Counted(d)
    ensures Count(Get(w.buckets, Global), d) == |set id | id in w.records && w.records[id].run.dispatch == d|
    ensures Count(Get(w.buckets, CallerScope(key)), d)
            == |set id | id in w.records && w.records[id].run.dispatch == d && w.records[id].run.caller == key|
    ensures Count(Get(w.buckets, TenantScope(key)), d)
            == |set id | id in w.records && w.records[id].run.dispatch == d && w.records[id].run.tenant == key|
    ensures Count(Get(w.buckets, AgentScope(key)), d)
            == |set id | id in w.records && w.records[id].run.dispatch == d && w.records[id].run.agent == key|
  {
    hide Reachable, WorldInv, CapsHold, RecordInv, CountsAgree, Members, Count, Get;
    ReachableInv(w);
    assert CountsAgree(w.records, w.buckets) by { WorldCounts(w); }
    ScopeMembers(w.records, key, d);
    ScopeCount(w.records, w.buckets, Global, d);
    ScopeCount(w.records, w.buckets, CallerScope(key), d);
    ScopeCount(w.records, w.buckets, TenantScope(key), d);
    ScopeCount(w.records, w.buckets, AgentScope(key), d);
  }

  lemma WorldCounts(w: World)
    requires WorldInv(w)
    ensures CountsAgree(w.records, w.buckets)
  {
  }

  lemma ScopeCount(records: map<string, Record>, buckets: map<Scope, Bucket>, s: Scope, d: DispatchState)
    requires CountsAgree(records, buckets) && Counted(d)
    ensures Count(Get(buckets, s), d) == |Members(records, s, d)|
  {
    assert BucketAgrees(records, buckets, s);
  }

  lemma ScopeMembers(records: map<string, Record>, key: string, d: DispatchState)
    ensures Members(records, Global, d) == set id | id in records && records[id].run.dispatch == d
    ensures Members(records, CallerScope(key), d)
            == set id | id in records && records[id].run.dispatch == d && records[id].run.caller == key
    ensures Members(records, TenantScope(key), d)
            == set id | id in records && records[id].run.dispatch == d && records[id].run.tenant == key
    ensures Members(records, AgentScope(key), d)
            == set id | id in records && records[id].run.dispatch == d && records[id].run.agent == key
  {
  }

  /** Whatever a transaction asks of admission, it names the state the Run is really in, and the
      counter it leaves is at least one: the clamp at zero is dead code.
   */
  lemma AdmissionTold(w: World, id: string, a: Action)
    requires Reachable(w) && id in w.records
    ensures var out := Act(w.records[id], a, EnvOf(w, w.records[id].run));
            out.Committed? && out.move.Some? ==>
              && out.move.value.from == w.records[id].run.dispatch
              && out.move.value.to == out.rec.run.dispatch
              && forall s :: s in ScopeSet(w.records[id].run) && Counted(out.move.value.from) ==>
                   Count(Get(w.buckets, s), out.move.value.from) >= 1
  {
    hide Act;
    ReachableInv(w);
    var rec := w.records[id];
    var out := Act(rec, a, EnvOf(w, rec.run));
    ActSafe(rec, w.now, a, EnvOf(w, rec.run));
    if out.Committed? && out.move.Some? && Counted(out.move.value.from) {
      forall s | s in ScopeSet(rec.run)
        ensures Count(Get(w.buckets, s), out.move.value.from) >= 1
      {
        ClampNeverFires(w.records, w.buckets, id, s);
      }
    }
  }

  /** At most one issued context may write at any moment, and it is the latest. */
  lemma OneWriter(w: World, id: string, j: nat, k: nat)
    requires Reachable(w) && id in w.records
    requires j in w.records[id].issued && k in w.records[id].issued
    requires Writable(w.records[id].run, w.records[id].issued[j], w.now)
    requires Writable(w.records[id].run, w.records[id].issued[k], w.now)
    ensures j == k == w.records[id].run.fencingToken
  {
    ReachableInv(w);
  }

  /** Fencing is absorbing: a context refused for any reason but its package is refused ever after. */
  lemma FencedForever(w: World, steps: seq<Step>, id: string, k: nat)
    requires Reachable(w) && id in w.records && k in w.records[id].issued
    requires !Writable(w.records[id].run, w.records[id].issued[k], w.now)
    ensures var later := Execute(w, steps);
            && id in later.records && k in later.records[id].issued
            && !Writable(later.records[id].run, later.records[id].issued[k], later.now)
  {
    ReachableInv(w);
    ExecuteSafe(w, steps);
  }

  /** The write gate omits the execution attempt; the fencing token already decides it. */
  lemma TokenDecidesAttempt(w: World, id: string, k: nat)
    requires Reachable(w) && id in w.records && k in w.records[id].issued
    ensures w.records[id].run.fencingToken == w.records[id].issued[k].fencingToken
            <==> w.records[id].run.executionAttempt == w.records[id].issued[k].executionAttempt
  {
    ReachableInv(w);
  }

  /** Heartbeat and write gate test different columns yet agree, but for the package, which a heartbeat does not look
      at: a lease can be renewed exactly while its holder passes every other test of the write gate, and then lets it
      pass them up to the new expiry or the deadline, whichever comes first.  Under a revoked package a heartbeat
      succeeds while the gate refuses. */
  lemma HeartbeatIsWriteGate(w: World, id: string, k: nat, secs: int, t: int)
    requires Reachable(w) && id in w.records && k in w.records[id].issued
    ensures var rec := w.records[id];
            var out := HeartbeatRun(rec, k, secs, EnvOf(w, rec.run));
            && (out.Committed? <==> Writable(rec.run, rec.issued[k], w.now))
            && (TokenCanWrite(rec, k, EnvOf(w, rec.run)) <==> out.Committed? && PackageOk(w.definitions, rec.run))
            && (out.Committed? ==>
                  && k in out.rec.issued
                  && (Writable(out.rec.run, out.rec.issued[k], t)
                      <==> t < w.now + secs * SECOND && t < rec.run.deadline))
  {
    hide LogShape, TerminalBalance, Blank, CountsAgree, CapsHold, Reachable;
    ReachableInv(w);
    assert RecordInv(w.records[id]);
  }

  /** What no single service checks but all rely on: how dispatch state, status, lease and privacy go together. */
  lemma StatesAgree(w: World, id: string)
    requires Reachable(w) && id in w.records
    ensures var run := w.records[id].run;
            && (run.dispatch == Held ==> run.status == Pending)
            && (run.dispatch == Queued ==> run.status == Pending || run.status == WaitingHuman)
            && (run.dispatch == Finished ==> Terminal(run.status) || run.status == WaitingHuman)
            && (Terminal(run.status) ==> run.dispatch == Finished)
            && (run.dispatch == Claimed <==> run.leaseOwner.Some?)
            && (run.privacy != Active ==> run.cancelRequestedAt.Some?)
            && run.executionAttempt == run.fencingToken
  {
    hide LogShape, LeaseInv, TerminalBalance, Blank, CountsAgree, CapsHold, Reachable;
    ReachableInv(w);
    assert RecordInv(w.records[id]);
  }

  /** A queued Run can be claimed exactly when nobody asked to cancel it: no repair, approval or
      retry leaves it queued in a status that a claim refuses.
   */
  lemma QueuedIsClaimable(w: World, id: string, owner: string, secs: int)
    requires Reachable(w) && id in w.records && w.records[id].run.dispatch == Queued
    ensures ClaimRun(w.records[id], owner, secs, EnvOf(w, w.records[id].run)).Committed?
            <==> w.records[id].run.cancelRequestedAt == None
  {
    ReachableInv(w);
  }

  /** Retry does not look at the cancel request: it strands the Run exactly when there is one. */
  lemma RetryStrands(w: World, id: string, a: Action, owner: string, secs: int)
    requires Reachable(w) && id in w.records && a.Retry?
    requires Act(w.records[id], a, EnvOf(w, w.records[id].run)).Committed?
    ensures var out := Act(w.records[id], a, EnvOf(w, w.records[id].run));
            && out.rec.run.dispatch == Queued
            && (ClaimRun(out.rec, owner, secs, EnvOf(w, out.rec.run)).Committed?
                <==> w.records[id].run.cancelRequestedAt == None)
  {
  }

  /** Exactly one terminal callback per way of ending: at most four over a Run's life. */
  lemma TerminalConservation(w: World, id: string)
    requires Reachable(w) && id in w.records
    ensures TerminalEvents(w.records[id].log)
            == w.records[id].run.manualRetries + (if Terminal(w.records[id].run.status) then 1 else 0)
            <= 4
  {
    ReachableInv(w);
  }

  /** Success and cancellation are final, whatever happens next. */
  lemma SealedForever(w: World, steps: seq<Step>, id: string)
    requires Reachable(w) && id in w.records
    requires w.records[id].run.status == Succeeded || w.records[id].run.status == Cancelled
    ensures var later := Execute(w, steps);
            && id in later.records
            && later.records[id].run.status == w.records[id].run.status
            && later.records[id].run.dispatch == Finished
            && TerminalEvents(later.records[id].log) == TerminalEvents(w.records[id].log)
  {
    hide LogShape, LeaseInv, Blank, StaysFenced, NothingAdded, SameIdentity, TerminalEvents, Execute, Reachable;
    ReachableInv(w);
    ExecuteSafe(w, steps);
    var later := Execute(w, steps);
    assert RecordInv(w.records[id]) && RecordInv(later.records[id]);
  }

  /** The log is numbered 1, 2, ..., last_event_seq in version order, it is append-only, and a status
      never changes without a new version.
   */
  lemma LogExact(w: World, steps: seq<Step>, id: string)
    requires Reachable(w) && id in w.records
    ensures var rec := w.records[id];
            && |rec.log| == rec.run.lastEventSeq
            && (forall i :: 0 <= i < |rec.log| ==> rec.log[i].eventSeq == i + 1)
            && (forall i, j :: 0 <= i < j < |rec.log| ==> rec.log[i].statusVersion <= rec.log[j].statusVersion)
    ensures var later := Execute(w, steps);
            && id in later.records
            && w.records[id].log <= later.records[id].log
            && w.records[id].run.statusVersion <= later.records[id].run.statusVersion
            && (w.records[id].run.status != later.records[id].run.status ==>
                  w.records[id].run.statusVersion < later.records[id].run.statusVersion)
  {
    ReachableInv(w);
    ExecuteSafe(w, steps);
    var rec := w.records[id];
    forall i | 0 <= i < |rec.log|
      ensures rec.log[i].eventSeq == i + 1
    {
      assert EntryOk(rec.run, rec.log[i], i);
    }
  }

  /** The stored event an outbox row names. */
  predicate Names(row: CallbackOutbox, e: CallbackEvent) {
    e.eventId == row.eventId
  }

  /** Every callback outbox row names exactly one event, of its own Run, that delivery accepts. */
  lemma OutboxDeliverable(w: World, id: string, i: nat)
    requires Reachable(w) && id in w.records && i < |w.records[id].outbox|
    ensures var rec := w.records[id];
            && i < |rec.log|
            && Names(rec.outbox[i], rec.log[i])
            && rec.log[i].runId == rec.outbox[i].aggregate == id
            && rec.outbox[i].target == rec.run.target
            && MatchesCallback(rec.log[i])
            && forall j :: 0 <= j < |rec.log| && Names(rec.outbox[i], rec.log[j]) ==> j == i
  {
    ReachableInv(w);
    var rec := w.records[id];
    assert EntryOk(rec.run, rec.log[i], i);
    forall j | 0 <= j < |rec.log| && Names(rec.outbox[i], rec.log[j])
      ensures j == i
    {
      assert EntryOk(rec.run, rec.log[j], j);
    }
  }

  /** Once privacy leaves active, no worker adds a checkpoint or artifact, however late. */
  lemma PurgeBarrier(w: World, steps: seq<Step>, id: string)
    requires Reachable(w) && id in w.records && w.records[id].run.privacy != Active
    ensures var later := Execute(w, steps);
            && id in later.records
            && later.records[id].run.privacy != Active
            && NothingAdded(w.records[id], later.records[id])
  {
    ReachableInv(w);
    ExecuteSafe(w, steps);
  }

  /** A completed purge is complete for good. */
  lemma PurgedForever(w: World, steps: seq<Step>, id: string)
    requires Reachable(w) && id in w.records && w.records[id].run.privacy == Purged
    ensures var later := Execute(w, steps);
            && id in later.records
            && later.records[id].run.privacy == Purged
            && Blank(later.records[id])
  {
    ReachableInv(w);
    ExecuteSafe(w, steps);
    var later := Execute(w, steps);
    assert RecordInv(later.records[id]);
  }
}
