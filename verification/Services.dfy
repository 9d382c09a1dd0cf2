/** The services that write Runs, working on one shared session step by step.

    A session stages the writes of a transaction; a rejected admission raises, and the raise rolls
    every staged write back.  Each method is proved equal to its transaction in `Lifecycle`.
 */
module Services {
  import opened Options
  import opened RunRecords
  import opened Admission
  import opened Lifecycle

  lemma ApplyRefused(w: World, id: string)
    ensures Apply(w, id, Refused) == w
  {
  }

  lemma ApplyUnchanged(w: World, id: string)
    ensures Apply(w, id, Unchanged) == w
  {
  }

  lemma StartActs(rec: Record, caller: string, authorized: bool, expected: Option<int>, env: Env)
    ensures Act(rec, Action.Start(caller, authorized, expected), env)
            == StartRun(rec, caller, authorized, expected, env)
  {
  }

  lemma RetryActs(rec: Record, owned: bool, authorized: bool, expected: Option<int>, optionalOnly: bool, env: Env)
    ensures Act(rec, Action.Retry(owned, authorized, expected, optionalOnly), env)
            == RetryRun(rec, owned, authorized, expected, optionalOnly, env)
  {
  }

  class Session {
    var now: int
    const api: Limits
    var definitions: map<(string, string), Definition>
    var records: map<string, Record>
    var buckets: map<Scope, Bucket>

    constructor (now: int, api: Limits)
      ensures State() == Init(now, api)
    {
      this.now, this.api := now, api;
      definitions, records, buckets := map[], map[], map[];
    }

    function State(): World
      reads this
    {
      World(now, api, definitions, records, buckets)
    }

    /** The outcome of a transaction on `id`, or a refusal when there is no such Run. */
    function Outcome(id: string, a: Action): Outcome
      reads this
    {
      if id in records then Act(records[id], a, EnvOf(State(), records[id].run)) else Refused
    }

    predicate PackageExecutable(run: Run)
      reads this
    {
      PackageOk(definitions, run)
    }

    /** The lease, privacy, authorization, cancellation, deadline and package checks before a write. */
    predicate CanWriteNow(id: string, token: nat)
      reads this
    {
      && id in records
      && token in records[id].issued
      && CanWrite(records[id].run, records[id].issued[token], now, PackageExecutable(records[id].run))
    }

    method Stage(id: string, run: Run)
      requires id in records
      modifies this`records
      ensures records == old(records)[id := old(records)[id].(run := run)]
    {
      records := records[id := records[id].(run := run)];
    }
  }

  class OutboxService {
    const session: Session

    constructor (session: Session)
      ensures this.session == session
    {
      this.session := session;
    }

    method AppendRunDispatch(id: string)
      requires id in session.records
      modifies session`records
      ensures session.records == old(session.records)[id := AppendDispatch(old(session.records)[id])]
    {
      var rec := session.records[id];
      var event := DispatchEvent(DispatchPending, None);
      session.records := session.records[id := rec.(dispatches := rec.dispatches + [event])];
    }

    method AppendCallbackEvent(id: string, kind: CallbackKind)
      requires id in session.records
      modifies session`records
      ensures session.records == old(session.records)[id := AppendCallback(old(session.records)[id], kind)]
    {
      var rec := session.records[id];
      var run := rec.run.(lastEventSeq := rec.run.lastEventSeq + 1);
      var version := if run.statusVersion == 0 then 1 else run.statusVersion;
      var eventId := EventId(run.runId, run.lastEventSeq);
      var payload := Payload(eventId, run.runId, run.lastEventSeq, version, kind, run.status);
      var callback := CallbackEvent(eventId, run.runId, run.lastEventSeq, version, kind, payload);
      var event := CallbackOutbox(run.runId, eventId, kind, run.target);
      rec := rec.(run := run, log := rec.log + [callback], outbox := rec.outbox + [event]);
      session.records := session.records[id := rec];
    }

    method AppendTerminal(id: string, status: Status)
      requires id in session.records && Terminal(status)
      modifies session`records
      ensures session.records
              == old(session.records)[id := AppendCallback(old(session.records)[id], TerminalCallback(status))]
    {
      AppendCallbackEvent(id, TerminalCallback(status));
    }
  }

  class AdmissionService {
    const session: Session
    const limits: Limits

    constructor (session: Session, limits: Limits)
      ensures this.session == session && this.limits == limits
    {
      this.session, this.limits := session, limits;
    }

    /** One bucket: give up a `from` slot, then take a `to` slot if one is free. */
    method ShiftBucket(bucket: Bucket, from: DispatchState, to: DispatchState)
      returns (fits: bool, shifted: Bucket)
      ensures fits == Fits(bucket, from, to, limits)
      ensures fits ==> shifted == Shift(bucket, from, to)
    {
      shifted := bucket;
      if Counted(from) {
        var left := Count(shifted, from) - 1;
        shifted := WithCount(shifted, from, if left > 0 then left else 0);
      }
      if Counted(to) {
        if Count(shifted, to) >= Limit(limits, to) {
          return false, shifted;
        }
        shifted := WithCount(shifted, to, Count(shifted, to) + 1);
      }
      return true, shifted.(version := bucket.version + 1);
    }

    /** Moves one Run's slot in all four scopes, in order; a full scope undoes the scopes before it. */
    method TransitionRun(run: Run, from: DispatchState, to: DispatchState) returns (admitted: bool)
      modifies session`buckets
      ensures var moved := Transition(old(session.buckets), run, from, to, limits);
              admitted == moved.Some?
              && session.buckets == if moved.Some? then moved.value else old(session.buckets)
    {
      MoveEachIsTransition(session.buckets, run, from, to, limits);
      hide Transition, ScopesOf, MoveEach, Fits, Shift;
      var scopes := ScopesOf(run);
      var was := session.buckets;
      MoveNone(was, scopes, from, to, limits);
      for i := 0 to |scopes|
        invariant MoveEach(was, scopes[..i], from, to, limits) == Some(session.buckets)
      {
        MoveOne(was, scopes, i, from, to, limits);
        var bucket := if scopes[i] in session.buckets then session.buckets[scopes[i]] else EMPTY_BUCKET;
        var fits, shifted := ShiftBucket(bucket, from, to);
        if !fits {
          session.buckets := was;
          StopsAt(was, scopes, i + 1, from, to, limits);
          return false;
        }
        session.buckets := session.buckets[scopes[i] := shifted];
      }
      assert scopes[..|scopes|] == scopes;
      return true;
    }
  }

  class LeaseService {
    const session: Session
    const leaseSeconds: int

    constructor (session: Session, leaseSeconds: int)
      ensures this.session == session && this.leaseSeconds == leaseSeconds
    {
      this.session, this.leaseSeconds := session, leaseSeconds;
    }

    /** Takes the Run for `owner`, or finds it not claimable. */
    method Claim(id: string, owner: string) returns (ctx: Option<LeaseContext>)
      modifies session
      ensures session.State() == Apply(old(session.State()), id,
                                       old(session.Outcome(id, Action.Claim(owner, leaseSeconds))))
      ensures ctx.None? ==> session.State() == old(session.State())
      ensures ctx.Some? ==> old(session.Outcome(id, Action.Claim(owner, leaseSeconds))).Committed?
      ensures ctx.Some? ==>
                && id in session.records
                && session.records[id].run.fencingToken in session.records[id].issued
                && ctx.value == session.records[id].issued[session.records[id].run.fencingToken]
    {
      hide Transition;
      if !(id in session.records && session.records[id].run.dispatch == Queued
           && (session.records[id].run.status == Pending || session.records[id].run.status == WaitingHuman)
           && session.records[id].run.cancelRequestedAt == None)
      {
        return None;
      }
      var was := session.records;
      var run := session.records[id].run;
      run := run.(dispatch := Claimed, leaseOwner := Some(owner));
      run := run.(executionAttempt := run.executionAttempt + 1, fencingToken := run.fencingToken + 1);
      run := run.(leaseExpiresAt := Some(session.now + leaseSeconds * SECOND));
      session.Stage(id, run);
      var admission := new AdmissionService(session, DEFAULT_LIMITS);
      var admitted := admission.TransitionRun(run, Queued, Claimed);
      if !admitted {
        session.records := was;
        return None;
      }
      var context := LeaseContext(run.executionAttempt, owner, run.fencingToken, run.leaseExpiresAt.value,
                                  run.privacyVersion, run.authorizationVersion);
      var rec := session.records[id];
      session.records := was[id := rec.(issued := rec.issued[run.fencingToken := context])];
      return Some(context);
    }

    /** Renews the lease of the context holding `token`, and the context with it. */
    method Heartbeat(id: string, token: nat) returns (renewed: bool)
      modifies session
      ensures session.State() == Apply(old(session.State()), id,
                                       old(session.Outcome(id, Action.Heartbeat(token, leaseSeconds))))
      ensures renewed == old(session.Outcome(id, Action.Heartbeat(token, leaseSeconds))).Committed?
    {
      if !(id in session.records && token in session.records[id].issued
           && HeartbeatHolds(session.records[id].run, session.records[id].issued[token], session.now))
      {
        return false;
      }
      var was := session.records;
      var renewedUntil := session.now + leaseSeconds * SECOND;
      session.Stage(id, session.records[id].run.(leaseExpiresAt := Some(renewedUntil)));
      var rec := session.records[id];
      session.records := was[id := rec.(issued := rec.issued[token := rec.issued[token].(expiresAt := renewedUntil)])];
      return true;
    }

    /** Only a context that may write can end the Run; the slot and the callback go with the status. */
    method Finish(id: string, token: nat, status: Status) returns (finished: bool)
      modifies session
      ensures session.State() == Apply(old(session.State()), id,
                                       old(session.Outcome(id, Action.Finish(token, status))))
      ensures !finished ==> session.State() == old(session.State())
      ensures finished ==> old(session.CanWriteNow(id, token))
      ensures finished ==> id in session.records && session.records[id].run.status == status
    {
      hide Transition;
      if !Terminal(status) || !session.CanWriteNow(id, token) {
        return false;
      }
      finished := EndLease(id, status);
    }

    /** The end of a lease: release the row, free the running slot, append the terminal callback. */
    method EndLease(id: string, status: Status) returns (admitted: bool)
      requires id in session.records && Terminal(status)
      modifies session`records, session`buckets
      ensures var rec := old(session.records)[id];
              var ended := AppendCallback(rec.(run := Released(rec.run, status)), TerminalCallback(status));
              session.State() == Apply(old(session.State()), id,
                                       Committed(ended, Some(Move(Claimed, Finished, false))))
      ensures admitted == (session.State() != old(session.State()))
      ensures admitted ==> id in session.records && session.records[id].run.status == status
    {
      hide Transition;
      var was := session.records;
      var run := session.records[id].run;
      run := run.(status := status, dispatch := Finished);
      run := run.(leaseOwner := None, leaseExpiresAt := None);
      run := run.(statusVersion := run.statusVersion + 1);
      session.Stage(id, run);
      var admission := new AdmissionService(session, DEFAULT_LIMITS);
      SameScopesMove(session.buckets, run, AppendCallback(session.records[id], TerminalCallback(status)).run,
                     Claimed, Finished, DEFAULT_LIMITS);
      admitted := admission.TransitionRun(run, Claimed, Finished);
      if !admitted {
        session.records := was;
        return;
      }
      var outbox := new OutboxService(session);
      outbox.AppendTerminal(id, status);
      assert session.records[id].log != was[id].log;
      assert session.records == was[id := session.records[id]];
    }

    /** A draining worker lets its lease run out now, for the reaper to take over. */
    method ReleaseForDrain(id: string, token: nat) returns (released: bool)
      modifies session
      ensures session.State() == Apply(old(session.State()), id, old(session.Outcome(id, Action.Drain(token))))
      ensures released == old(session.Outcome(id, Action.Drain(token))).Committed?
    {
      if !session.CanWriteNow(id, token) {
        return false;
      }
      session.Stage(id, session.records[id].run.(leaseExpiresAt := Some(session.now)));
      return true;
    }

    /** After a cancel or purge, the matching lease may still give the Run up, as cancelled. */
    method FinishAfterInvalidBoundary(id: string, token: nat) returns (released: bool)
      modifies session
      ensures session.State() == Apply(old(session.State()), id, old(session.Outcome(id, Action.FinishInvalid(token))))
      ensures !released ==> session.State() == old(session.State())
    {
      hide Transition;
      if id !in session.records || token !in session.records[id].issued {
        return false;
      }
      var run, context := session.records[id].run, session.records[id].issued[token];
      if run.dispatch != Claimed || run.leaseOwner != Some(context.owner)
         || run.fencingToken != context.fencingToken || run.executionAttempt != context.executionAttempt
         || (run.cancelRequestedAt == None && run.privacy == Active)
      {
        return false;
      }
      released := EndLease(id, Cancelled);
    }

    /** Parks the Run for a person, freeing its worker and its running slot. */
    method PauseForHuman(id: string, token: nat, timeoutSeconds: int) returns (paused: bool)
      modifies session
      ensures session.State() == Apply(old(session.State()), id,
                                       old(session.Outcome(id, Action.Pause(token, timeoutSeconds))))
      ensures !paused ==> session.State() == old(session.State())
    {
      hide Transition;
      if timeoutSeconds <= 0 || !session.CanWriteNow(id, token) {
        return false;
      }
      var was := session.records;
      var run := session.records[id].run;
      run := run.(status := WaitingHuman, dispatch := Finished);
      run := run.(waitingExpiresAt := Some(session.now + timeoutSeconds * SECOND));
      run := run.(leaseOwner := None, leaseExpiresAt := None, statusVersion := run.statusVersion + 1);
      session.Stage(id, run);
      var admission := new AdmissionService(session, DEFAULT_LIMITS);
      SameScopesMove(session.buckets, run, AppendCallback(session.records[id], AwaitingHuman).run,
                     Claimed, Finished, DEFAULT_LIMITS);
      paused := admission.TransitionRun(run, Claimed, Finished);
      if !paused {
        session.records := was;
        return;
      }
      var outbox := new OutboxService(session);
      outbox.AppendCallbackEvent(id, AwaitingHuman);
      assert session.records == was[id := session.records[id]];
    }
  }

  class AgentRunService {
    const session: Session

    constructor (session: Session)
      ensures this.session == session
    {
      this.session := session;
    }

    /** Admits a new Run, held or queued, with everything it freezes; false when it is refused. */
    method Create(id: string, q: Request) returns (created: bool)
      requires id !in session.records
      modifies session
      ensures session.State() == Next(old(session.State()), Step.Create(id, q))
      ensures created <==> id in session.records
    {
      hide Transition;
      var key := (q.agent, q.agentVersion);
      if key !in session.definitions || !session.definitions[key].active || !q.accepted
         || q.authorizationVersion < 1
      {
        return false;
      }
      var was := session.records;
      var run := NewRun(id, q, session.definitions[key].digest, session.now);
      session.records := session.records[id := Record(run, [], [], [], map[], [], map[])];
      var admission := new AdmissionService(session, session.api);
      created := admission.TransitionRun(run, Unborn, run.dispatch);
      if !created {
        session.records := was;
        return;
      }
      if !q.startHeld {
        var outbox := new OutboxService(session);
        outbox.AppendRunDispatch(id);
      }
      assert session.records == was[id := session.records[id]];
    }

    /** Rewrites the row, moves its slot under the API's limits and queues a dispatch. */
    method Enqueue(id: string, run: Run, from: DispatchState) returns (admitted: bool)
      requires id in session.records && run.dispatch == Queued
      modifies session`records, session`buckets
      ensures session.State()
              == Apply(old(session.State()), id,
                       Committed(AppendDispatch(old(session.records)[id].(run := run)), Some(Move(from, Queued, true))))
    {
      hide Transition;
      var was := session.records;
      session.Stage(id, run);
      var admission := new AdmissionService(session, session.api);
      admitted := admission.TransitionRun(run, from, Queued);
      if !admitted {
        session.records := was;
        return;
      }
      var outbox := new OutboxService(session);
      outbox.AppendRunDispatch(id);
      assert session.records == was[id := session.records[id]];
    }

    method Start(id: string, caller: string, authorized: bool, expected: Option<int>) returns (ok: bool)
      modifies session
      ensures session.State() == Apply(old(session.State()), id,
                                       old(session.Outcome(id, Action.Start(caller, authorized, expected))))
      ensures old(session.Outcome(id, Action.Start(caller, authorized, expected))).Refused? ==> !ok
    {
      hide Transition, Apply, Act, AppendDispatch, PackageOk;
      ApplyRefused(session.State(), id);
      if id !in session.records || session.records[id].run.caller != caller || !authorized {
        if id in session.records {
          StartActs(session.records[id], caller, authorized, expected, EnvOf(session.State(), session.records[id].run));
        }
        return false;
      }
      StartActs(session.records[id], caller, authorized, expected, EnvOf(session.State(), session.records[id].run));
      var run := session.records[id].run;
      if expected.Some? && run.statusVersion != expected.value {
        return false;
      }
      if !session.PackageExecutable(run) || run.privacy != Active || run.cancelRequestedAt != None {
        return false;
      }
      if run.dispatch == Queued || run.dispatch == Claimed {
        ApplyUnchanged(session.State(), id);
        return true;
      }
      if run.dispatch != Held || run.status != Pending
         || (run.heldExpiresAt.Some? && run.heldExpiresAt.value < session.now)
      {
        return false;
      }
      ok := Enqueue(id, run.(dispatch := Queued, queuedAt := Some(session.now)), Held);
    }

    method Cancel(id: string, caller: string) returns (ok: bool)
      modifies session
      ensures session.State() == Apply(old(session.State()), id, old(session.Outcome(id, Action.Cancel(caller))))
      ensures old(session.Outcome(id, Action.Cancel(caller))).Refused? ==> !ok
    {
      hide Transition;
      if id !in session.records || session.records[id].run.caller != caller {
        return false;
      }
      var run := session.records[id].run.(cancelRequestedAt := Some(session.now));
      if run.dispatch == Held || run.dispatch == Queued
         || (run.status == WaitingHuman && run.dispatch == Finished)
      {
        ok := EndUnheld(id, run);
      } else {
        session.Stage(id, run);
        return true;
      }
    }

    /** Ends a Run no worker holds as cancelled, giving up whichever slot it had. */
    method EndUnheld(id: string, asked: Run) returns (admitted: bool)
      requires id in session.records
      modifies session`records, session`buckets
      ensures var ended := old(session.records)[id].(run := Terminated(asked, Cancelled));
              session.State() == Apply(old(session.State()), id,
                                       Committed(AppendCallback(ended, RunCancelled),
                                                 Some(Move(asked.dispatch, Finished, true))))
    {
      hide Transition;
      var was, previous := session.records, asked.dispatch;
      var run := asked.(status := Cancelled, dispatch := Finished);
      run := run.(statusVersion := run.statusVersion + 1);
      session.Stage(id, run);
      var admission := new AdmissionService(session, session.api);
      SameScopesMove(session.buckets, run, AppendCallback(session.records[id], RunCancelled).run,
                     previous, Finished, session.api);
      admitted := admission.TransitionRun(run, previous, Finished);
      if !admitted {
        session.records := was;
        return;
      }
      var outbox := new OutboxService(session);
      outbox.AppendTerminal(id, Cancelled);
      assert session.records == was[id := session.records[id]];
    }

    /** Raises the privacy barrier once; a repeated request changes nothing. */
    method Purge(id: string, caller: string) returns (ok: bool)
      modifies session
      ensures session.State() == Apply(old(session.State()), id, old(session.Outcome(id, Action.Purge(caller))))
      ensures ok <==> !old(session.Outcome(id, Action.Purge(caller))).Refused?
    {
      if id !in session.records || session.records[id].run.caller != caller {
        return false;
      }
      var run := session.records[id].run;
      if run.privacy == Active {
        run := run.(privacy := PurgeRequested);
        run := run.(privacyVersion := run.privacyVersion + 1);
        run := run.(cancelRequestedAt := Some(session.now));
        session.Stage(id, run);
      }
      return true;
    }

    /** Deletes checkpoints, blanks artifacts and input, and keeps the barrier up. */
    method CompletePurge(id: string) returns (purged: bool)
      requires id in session.records
      modifies session`records
      ensures session.State() == Apply(old(session.State()), id, old(session.Outcome(id, Action.FinishPurge)))
      ensures purged == old(session.Outcome(id, Action.FinishPurge)).Committed?
    {
      var rec := session.records[id];
      if rec.run.privacy != PurgeRequested {
        return false;
      }
      rec := rec.(checkpoints := map[]);
      var blanked: seq<Artifact> := [];
      for i := 0 to |rec.artifacts|
        invariant blanked == seq(i, _ => Artifact(None))
      {
        blanked := blanked + [rec.artifacts[i].(summary := None)];
      }
      rec := rec.(artifacts := blanked);
      rec := rec.(run := rec.run.(input := map[], privacy := Purged));
      assert rec.artifacts == seq(|rec.artifacts|, i => Artifact(None));
      session.records := session.records[id := rec];
      return true;
    }

    method Retry(id: string, caller: string, auditor: bool, authorized: bool, expected: Option<int>, optionalOnly: bool)
      returns (ok: bool)
      modifies session
      ensures var owned := id in old(session.records)
                           && (old(session.records)[id].run.caller == caller || auditor);
              var a := Action.Retry(owned, authorized, expected, optionalOnly);
              session.State() == Apply(old(session.State()), id, old(session.Outcome(id, a)))
    {
      hide Transition, Apply, Act, AppendDispatch, PackageOk;
      ApplyRefused(session.State(), id);
      if id !in session.records {
        return false;
      }
      var run := session.records[id].run;
      RetryActs(session.records[id], run.caller == caller || auditor, authorized, expected, optionalOnly,
                EnvOf(session.State(), run));
      if (run.caller != caller && !auditor) || !authorized {
        return false;
      }
      if expected.Some? && run.statusVersion != expected.value {
        return false;
      }
      if (run.status != Failed && run.status != Partial) || run.manualRetries >= 3 || run.privacy != Active
         || session.records[id].checkpoints == map[] || (run.status == Partial && !optionalOnly)
         || !session.PackageExecutable(run)
      {
        return false;
      }
      run := run.(manualRetries := run.manualRetries + 1);
      run := run.(status := Pending, dispatch := Queued, queuedAt := Some(session.now));
      run := run.(statusVersion := run.statusVersion + 1);
      ok := Enqueue(id, run, Finished);
    }

    /** A person's decision on a parked Run, valid only for the version they saw. */
    method Approve(id: string, caller: string, approve: bool, version: int) returns (ok: bool)
      modifies session
      ensures session.State() == Apply(old(session.State()), id,
                                       old(session.Outcome(id, Action.Approve(caller, approve, version))))
    {
      hide Transition, Apply, AppendDispatch, AppendCallback;
      ApplyRefused(session.State(), id);
      if id !in session.records || session.records[id].run.caller != caller {
        return false;
      }
      var run := session.records[id].run;
      if run.status != WaitingHuman || run.dispatch != Finished || run.statusVersion != version
         || !session.PackageExecutable(run)
      {
        return false;
      }
      run := run.(statusVersion := run.statusVersion + 1);
      if approve || run.plan.rejectFallback {
        ok := Enqueue(id, run.(dispatch := Queued, queuedAt := Some(session.now)), Finished);
      } else {
        Reject(id, run.(status := Failed, dispatch := Finished));
        ok := true;
      }
    }

    method Reject(id: string, run: Run)
      requires id in session.records
      modifies session`records
      ensures var ended := AppendCallback(old(session.records)[id].(run := run), RunFailed);
              session.State() == Apply(old(session.State()), id, Committed(ended, None))
    {
      ghost var was := session.records;
      session.Stage(id, run);
      var outbox := new OutboxService(session);
      outbox.AppendTerminal(id, Failed);
      assert session.records == was[id := session.records[id]];
    }
  }

  /** Checkpoints and artifacts: both written only through the lease gate. */
  class NodeStore {
    const session: Session

    constructor (session: Session)
      ensures this.session == session
    {
      this.session := session;
    }

    method SaveCheckpoint(id: string, token: nat, key: string, state: string) returns (saved: bool)
      modifies session`records
      ensures session.State() == Apply(old(session.State()), id,
                                       old(session.Outcome(id, Action.WriteCheckpoint(token, key, state))))
      ensures saved == old(session.CanWriteNow(id, token))
    {
      if !session.CanWriteNow(id, token) {
        return false;
      }
      var rec := session.records[id];
      var checkpoint := Checkpoint(rec.issued[token].privacyVersion, rec.run.deadline, state);
      session.records := session.records[id := rec.(checkpoints := rec.checkpoints[key := checkpoint])];
      return true;
    }

    method SaveNodeResult(id: string, token: nat, node: string) returns (saved: bool)
      modifies session`records
      ensures session.State() == Apply(old(session.State()), id,
                                       old(session.Outcome(id, Action.WriteArtifact(token, node))))
      ensures saved == (old(session.CanWriteNow(id, token)) && node != "")
    {
      if !session.CanWriteNow(id, token) || node == "" {
        return false;
      }
      var rec := session.records[id];
      session.records := session.records[id := rec.(artifacts := rec.artifacts + [Artifact(Some(node))])];
      return true;
    }
  }
}
