/** Runs of the protocol that show its failed properties to be real, each from the empty database on. */
module Strandings {
  import opened Options
  import opened RunRecords
  import opened Admission
  import opened Lifecycle
  import opened LifecycleTheorems
  import opened QueueLimits

  ghost predicate Leads(w: World, later: World) {
    exists steps :: later == Execute(w, steps)
  }

  lemma LeadsHere(w: World)
    ensures Leads(w, w)
  {
    assert w == Execute(w, []);
  }

  lemma LeadsOn(w: World, mid: World, step: Step)
    requires Leads(w, mid)
    ensures Leads(w, Next(mid, step))
  {
    hide Next;
    var steps :| mid == Execute(w, steps);
    assert (steps + [step])[..|steps|] == steps;
    assert Next(mid, step) == Execute(w, steps + [step]);
  }

  const WORKER: Action := Action.Claim("worker", 90)

  /** The only Run, at its worker, with or without a checkpoint. */
  ghost predicate AtWorker(w: World, api: Limits) {
    && Alone(w, api, "r") && w.now == 0
    && var rec := w.records["r"];
       && TokenCanWrite(rec, 1, EnvOf(w, rec.run))
       && rec.run.status == Pending && rec.run.caller == "caller" && rec.run.manualRetries == 0
       && !rec.run.plan.rejectFallback && PackageOk(w.definitions, rec.run)
  }

  /** Where every story starts: one Run, queued. */
  ghost predicate JustQueued(w: World, api: Limits) {
    && Alone(w, api, "r") && w.now == 0
    && w.records["r"] == CreateRun("r", ORDER, map[AGENT := PACKAGE], 0).rec
  }

  lemma Beginning(api: Limits)
    requires 1 <= api.maxQueued
    ensures exists w: World :: JustQueued(w, api)
  {
    FirstRun(api);
    hide Alone;
    assert JustQueued(Next(Opened(api), Create("r", ORDER)), api);
  }

  lemma Claimed(w: World, api: Limits)
    requires JustQueued(w, api)
    ensures AtWorker(Next(w, Do("r", WORKER)), api)
  {
    hide Reachable, Next, ScopeSet;
    AloneStep(w, api, "r", WORKER);
  }

  const SAVE: Action := Action.WriteCheckpoint(1, "key", "state")

  lemma Saved(w: World, api: Limits)
    requires AtWorker(w, api)
    ensures var next := Next(w, Do("r", SAVE)); AtWorker(next, api) && next.records["r"].checkpoints != map[]
  {
    hide Reachable, Next, ScopeSet;
    AloneStep(w, api, "r", SAVE);
    assert "key" in Next(w, Do("r", SAVE)).records["r"].checkpoints;
  }

  // ----- Retry after cancel -----

  const RETRY: Action := Retry(true, true, None, false)

  /** The only Run has failed, with a checkpoint to retry from. */
  ghost predicate FailedRun(w: World, api: Limits) {
    && Alone(w, api, "r")
    && var rec := w.records["r"];
       && rec.run.status == Failed && rec.run.dispatch == Finished && rec.run.privacy == Active
       && rec.run.manualRetries == 0 && rec.checkpoints != map[] && rec.run.caller == "caller"
       && PackageOk(w.definitions, rec.run)
  }

  lemma Fails(w: World, api: Limits)
    requires AtWorker(w, api) && w.records["r"].checkpoints != map[]
    ensures FailedRun(Next(w, Do("r", Action.Finish(1, Failed))), api)
  {
    hide Reachable, Next, ScopeSet;
    AloneStep(w, api, "r", Action.Finish(1, Failed));
  }

  lemma CancelLeavesFailed(w: World, api: Limits)
    requires FailedRun(w, api)
    ensures var next := Next(w, Do("r", Action.Cancel("caller")));
            FailedRun(next, api) && next.records["r"].run.cancelRequestedAt.Some?
  {
    hide Reachable, Next, ScopeSet;
    AloneStep(w, api, "r", Action.Cancel("caller"));
  }

  lemma FailedIsRetryable(w: World, api: Limits)
    requires FailedRun(w, api)
    ensures Act(w.records["r"], RETRY, EnvOf(w, w.records["r"].run)).Committed?
    ensures w.records["r"].run.cancelRequestedAt == None ==> Claimable(Next(w, Do("r", RETRY)), Pending)
  {
    hide Reachable, Next, ScopeSet;
    AloneStep(w, api, "r", RETRY);
  }

  /** Under every API limit that admits anything there is a reachable state in which a retry commits on a Run with a
      cancel request, and so strands it. */
  lemma StrandingReachable(api: Limits)
    requires 1 <= api.maxQueued
    ensures exists w: World ::
              && Reachable(w) && w.api == api && "r" in w.records && w.records["r"].run.cancelRequestedAt.Some?
              && Act(w.records["r"], RETRY, EnvOf(w, w.records["r"].run)).Committed?
  {
    hide Reachable, Next, Act, JustQueued, AtWorker;
    Beginning(api);
    var w0: World :| JustQueued(w0, api);
    Claimed(w0, api);
    var w1 := Next(w0, Do("r", WORKER));
    Saved(w1, api);
    var w2 := Next(w1, Do("r", SAVE));
    Fails(w2, api);
    var w3 := Next(w2, Do("r", Action.Finish(1, Failed)));
    CancelLeavesFailed(w3, api);
    FailedIsRetryable(Next(w3, Do("r", Action.Cancel("caller"))), api);
  }

  // ----- A status read before the claim -----

  /** A worker may claim the Run, and finds it in `status`. */
  predicate Claimable(w: World, status: Status) {
    && "r" in w.records && w.records["r"].run.dispatch == Queued && w.records["r"].run.status == status
    && w.records["r"].run.cancelRequestedAt == None
  }

  const PARK: Action := Action.Pause(1, 60)

  lemma Parks(w: World, api: Limits)
    requires AtWorker(w, api)
    ensures var next := Next(w, Do("r", PARK));
            && Alone(next, api, "r")
            && var rec := next.records["r"];
               && Parked(rec.run) && rec.run.caller == "caller" && rec.run.cancelRequestedAt == None
               && rec.run.privacy == Active && rec.run.manualRetries == 0 && !rec.run.plan.rejectFallback
               && PackageOk(next.definitions, rec.run) && rec.checkpoints == w.records["r"].checkpoints
  {
    hide Reachable, Next, ScopeSet;
    AloneStep(w, api, "r", PARK);
  }

  /** A status read as pending can be stale by the claim: the Run waited for a person and was approved in between. */
  lemma StalePending(api: Limits)
    requires 1 <= api.maxQueued
    ensures exists w: World, later: World ::
              Reachable(w) && w.api == api && Claimable(w, Pending) && Leads(w, later) && Claimable(later, WaitingHuman)
  {
    hide Reachable, Next, AtWorker, Leads;
    Beginning(api);
    var w0: World :| JustQueued(w0, api);
    Claimed(w0, api);
    var w1 := Next(w0, Do("r", WORKER));
    Parks(w1, api);
    var w2 := Next(w1, Do("r", PARK));
    var approve := Approve("caller", true, w2.records["r"].run.statusVersion);
    Approved(w2, api, approve);
    LeadsHere(w0);
    LeadsOn(w0, w0, Do("r", WORKER));
    LeadsOn(w0, w1, Do("r", PARK));
    LeadsOn(w0, w2, Do("r", approve));
    assert Claimable(w0, Pending);
  }

  lemma Approved(w: World, api: Limits, a: Action)
    requires Alone(w, api, "r") && Parked(w.records["r"].run) && w.records["r"].run.cancelRequestedAt == None
    requires w.records["r"].run.caller == "caller" && PackageOk(w.definitions, w.records["r"].run)
    requires a == Approve("caller", true, w.records["r"].run.statusVersion)
    ensures Claimable(Next(w, Do("r", a)), WaitingHuman)
  {
    hide Reachable, Next, ScopeSet;
    AloneStep(w, api, "r", a);
  }

  /** A status read as waiting for a person can be stale too: the Run was rejected and retried in between. */
  lemma StaleWaiting(api: Limits)
    requires 1 <= api.maxQueued
    ensures exists w: World, later: World ::
              && Reachable(w) && w.api == api && "r" in w.records && w.records["r"].run.status == WaitingHuman
              && Leads(w, later) && Claimable(later, Pending)
  {
    hide Reachable, Next, AtWorker, Leads, JustQueued;
    Beginning(api);
    var w0: World :| JustQueued(w0, api);
    Claimed(w0, api);
    var w1 := Next(w0, Do("r", WORKER));
    Saved(w1, api);
    var w2 := Next(w1, Do("r", SAVE));
    Parks(w2, api);
    var w3 := Next(w2, Do("r", PARK));
    var reject := Approve("caller", false, w3.records["r"].run.statusVersion);
    Rejected(w3, api, reject);
    FailedIsRetryable(Next(w3, Do("r", reject)), api);
    LeadsHere(w3);
    LeadsOn(w3, w3, Do("r", reject));
    LeadsOn(w3, Next(w3, Do("r", reject)), Do("r", RETRY));
  }

  lemma Rejected(w: World, api: Limits, a: Action)
    requires Alone(w, api, "r")
    requires var rec := w.records["r"];
             && Parked(rec.run) && rec.run.cancelRequestedAt == None && rec.run.privacy == Active
             && rec.run.manualRetries == 0 && !rec.run.plan.rejectFallback && rec.checkpoints != map[]
             && rec.run.caller == "caller" && PackageOk(w.definitions, rec.run)
    requires a == Approve("caller", false, w.records["r"].run.statusVersion)
    ensures var next := Next(w, Do("r", a)); FailedRun(next, api) && next.records["r"].run.cancelRequestedAt == None
  {
    hide Reachable, Next, ScopeSet;
    AloneStep(w, api, "r", a);
  }
}
