/** What a caller, a worker or the reconciler can rely on after each transaction: what the next one will then do. */
module LifecycleLaws {
  import opened Options
  import opened RunRecords
  import opened Lifecycle
  import opened LifecycleSafety
  import opened ReconcilerEffects

  /** No context handed out so far passes the write gate, now or at any other time. */
  ghost predicate Closed(rec: Record) {
    forall k, t :: k in rec.issued ==> !Writable(rec.run, rec.issued[k], t)
  }

  // ----- Leases -----

  /** A claim hands out one new context, which may write for as long as was asked, the deadline and privacy permitting,
      and no other may. */
  lemma ClaimGivesWrite(rec: Record, owner: string, secs: int, env: Env, t: int)
    requires RecordInv(rec) && ClaimRun(rec, owner, secs, env).Committed?
    ensures var claimed := ClaimRun(rec, owner, secs, env).rec;
            var k := claimed.run.fencingToken;
            && k !in rec.issued && claimed.issued == rec.issued[k := claimed.issued[k]]
            && claimed.issued[k].owner == owner
            && (Writable(claimed.run, claimed.issued[k], t)
                <==> t < env.now + secs * SECOND && t < rec.run.deadline && rec.run.privacy == Active)
            && forall j :: j in rec.issued ==> !Writable(claimed.run, claimed.issued[j], t)
  {
    hide LogShape, TerminalBalance, Blank;
  }

  /** A drained lease is over at once, and the reaper's from the next moment on. */
  lemma DrainFrees(rec: Record, token: nat, env: Env, t: int)
    requires RecordInv(rec) && DrainRun(rec, token, env).Committed? && env.now < t
    ensures var drained := DrainRun(rec, token, env).rec;
            && (forall k :: k in drained.issued ==> !Writable(drained.run, drained.issued[k], t))
            && LeaseLapsed(drained.run, t) && drained.run.status == rec.run.status
  {
    hide LogShape, TerminalBalance, Blank;
  }

  /** The holder of the gate ends its Run in the status it reports, with the callback of that status, and for good. */
  lemma FinishEnds(rec: Record, token: nat, status: Status, env: Env)
    requires RecordInv(rec)
    ensures FinishRun(rec, token, status, env).Committed? <==> Terminal(status) && TokenCanWrite(rec, token, env)
    ensures FinishRun(rec, token, status, env).Committed? ==>
              EndedAs(rec, FinishRun(rec, token, status, env).rec, status)
  {
    hide LogShape, TerminalBalance, Blank, LeaseInv;
  }

  /** The current holder can end its Run as cancelled exactly when it was asked to, or the Run's privacy is no longer
      active; nobody else can. */
  lemma InvalidEnds(rec: Record, token: nat)
    requires RecordInv(rec)
    ensures FinishInvalidRun(rec, token).Committed?
            <==> && token in rec.issued && rec.run.dispatch == Claimed && token == rec.run.fencingToken
                 && (rec.run.cancelRequestedAt.Some? || rec.run.privacy != Active)
    ensures FinishInvalidRun(rec, token).Committed? ==> EndedAs(rec, FinishInvalidRun(rec, token).rec, Cancelled)
  {
    hide LogShape, TerminalBalance, Blank;
  }

  /** A pause gives the lease up, and the Run then waits for exactly as long as was asked: the reconciler lets it be
      until then, the Run's other terms permitting. */
  lemma PauseWaits(rec: Record, token: nat, secs: int, env: Env, t: int)
    requires RecordInv(rec)
    ensures PauseRun(rec, token, secs, env).Committed? <==> secs > 0 && TokenCanWrite(rec, token, env)
    ensures PauseRun(rec, token, secs, env).Committed? ==>
              var paused := PauseRun(rec, token, secs, env).rec;
              && Parked(paused.run) && Closed(paused)
              && (!Late(paused.run, t) ==>
                    (FateOf(paused, t, true, None) == Stays <==> t < env.now + secs * SECOND))
  {
    hide LogShape, TerminalBalance, Blank, LeaseInv, Late;
  }

  /** Of two reservations guarded by the same version at most one commits. */
  lemma GuardOnce(rec: Record, token: nat, other: nat, seen: int)
    requires GuardReservation(rec, token, seen).Committed?
    ensures rec.run.statusVersion == seen
    ensures var guarded := GuardReservation(rec, token, seen).rec;
            && guarded == rec.(run := rec.run.(statusVersion := seen + 1))
            && GuardReservation(guarded, other, seen) == Refused
  {
  }

  /** Time worked adds up, and is up when it reaches what the plan allows. */
  lemma ElapseAdds(rec: Record, a: nat, b: nat, env: Env)
    ensures var once := RecordElapsed(rec, a).rec;
            && RecordElapsed(once, b) == RecordElapsed(rec, a + b)
            && (rec.run.plan.maxRunSeconds.Some? && 0 <= rec.run.plan.maxRunSeconds.value
                && rec.run.plan.maxRunSeconds.value * 1000 - rec.run.activeElapsedMs <= a ==>
                  Late(once.run, env.now))
  {
  }

  /** A worker or reconciler that asks a Run to stop closes the gate for good. */
  lemma StopCloses(rec: Record, at: int, env: Env)
    requires rec.run.dispatch == Claimed && rec.run.cancelRequestedAt == None
    ensures var asked := RequestCancel(rec, rec.run, at); asked.Committed? && Closed(asked.rec)
    ensures var asked := WorkerCancel(rec, env); asked.Committed? && Closed(asked.rec)
  {
  }

  /** A checkpoint is kept until the Run's deadline, and is what a retry asks for. */
  lemma CheckpointKept(rec: Record, token: nat, key: string, state: string, env: Env)
    requires SaveCheckpoint(rec, token, key, state, env).Committed?
    ensures var saved := SaveCheckpoint(rec, token, key, state, env).rec;
            && saved.checkpoints == rec.checkpoints[key := Checkpoint(rec.run.privacyVersion, rec.run.deadline, state)]
            && saved.checkpoints != map[]
  {
    assert key in SaveCheckpoint(rec, token, key, state, env).rec.checkpoints;
  }

  /** A node's result is kept under its name, after all earlier ones; checkpoints can be dropped again, all at once. */
  lemma ResultKept(rec: Record, token: nat, node: string, env: Env)
    requires TokenCanWrite(rec, token, env)
    ensures SaveArtifact(rec, token, node, env).Committed? <==> |node| > 0
    ensures node != "" ==> SaveArtifact(rec, token, node, env).rec.artifacts == rec.artifacts + [Artifact(Some(node))]
    ensures PurgeCheckpoints(rec, token, env).Committed? && |PurgeCheckpoints(rec, token, env).rec.checkpoints| == 0
  {
  }

  // ----- Callers -----

  /** A new Run is the caller's to start for ten minutes, and is out of time after a day. */
  lemma CreateWaits(id: string, q: Request, definitions: map<(string, string), Definition>, now: int, t: int)
    ensures CreateRun(id, q, definitions, now).Committed?
            <==> && q.accepted && q.authorizationVersion >= 1 && (q.agent, q.agentVersion) in definitions
                 && definitions[(q.agent, q.agentVersion)].active
    ensures CreateRun(id, q, definitions, now).Committed? && q.startHeld
            && (q.plan.maxRunSeconds.Some? ==> q.plan.maxRunSeconds.value > 0) ==>
              var rec := CreateRun(id, q, definitions, now).rec;
              && FateOf(rec, t, true, Some(q.authorizationVersion))
                 == (if t >= now + 24 * 3600 * 1_000_000 then Ends(Failed)
                     else if t >= now + 10 * 60 * 1_000_000 then Ends(Cancelled) else Stays)
              && (StartRun(rec, q.caller, true, None, Env(t, true)).Committed? <==> t <= now + 10 * 60 * 1_000_000)
    ensures CreateRun(id, q, definitions, now).Committed? && !q.startHeld ==>
              var rec := CreateRun(id, q, definitions, now).rec;
              rec.run.dispatch == Queued && rec.run.queuedAt == Some(now) && OnItsWay(rec.dispatches, t)
  {
    if CreateRun(id, q, definitions, now).Committed? && !q.startHeld {
      var rec := CreateRun(id, q, definitions, now).rec;
      assert rec.dispatches[0].status == DispatchPending;
    }
  }

  /** A held Run is started by its caller, once; starting it again changes nothing. */
  lemma StartOnce(rec: Record, caller: string, authorized: bool, expected: Option<int>, env: Env)
    requires Joint(rec.run)
    ensures StartRun(rec, caller, authorized, expected, env).Committed? ==>
              && rec.run.dispatch == Held && rec.run.caller == caller && authorized && env.packageOk
              && rec.run.privacy == Active && rec.run.cancelRequestedAt == None
              && (expected == None || expected == Some(rec.run.statusVersion))
    ensures StartRun(rec, caller, authorized, expected, env).Committed? ==>
              var started := StartRun(rec, caller, authorized, expected, env).rec;
              && QueuedAgain(rec, started, env.now)
              && StartRun(started, caller, authorized, expected, env) == Unchanged
              && ClaimRun(started, caller, 1, env).Committed?
  {
  }

  /** A cancel by the caller ends a Run nobody holds, and closes the gate of one a worker holds, who can then only end
      it as cancelled; anyone else is refused. */
  lemma CancelEnds(rec: Record, caller: string, env: Env)
    requires RecordInv(rec)
    ensures caller != rec.run.caller ==> CancelRun(rec, caller, env) == Refused
    ensures caller == rec.run.caller ==>
              && CancelRun(rec, caller, env).Committed?
              && var after := CancelRun(rec, caller, env).rec;
                 && Closed(after)
                 && if rec.run.dispatch == Held || rec.run.dispatch == Queued || Parked(rec.run) then
                      EndedAs(rec, after, Cancelled)
                    else
                      && after.run.status == rec.run.status && after.log == rec.log
                      && (rec.run.dispatch == Claimed ==> FinishInvalidRun(after, rec.run.fencingToken).Committed?)
  {
    hide LogShape, TerminalBalance, Blank;
  }

  /** A purge closes the gate, lets nothing start the Run again, and once complete leaves nothing private behind. */
  lemma PurgeCloses(rec: Record, caller: string, env: Env, owned: bool, authorized: bool, expected: Option<int>,
                    optionalOnly: bool)
    requires rec.run.caller == caller && rec.run.privacy == Active
    ensures PurgeRun(rec, caller, env).Committed?
    ensures var asked := PurgeRun(rec, caller, env).rec;
            && Closed(asked) && PurgeRun(asked, caller, env) == Unchanged
            && StartRun(asked, caller, authorized, expected, env) == Refused
            && RetryRun(asked, owned, authorized, expected, optionalOnly, env) == Refused
            && CompletePurge(asked).Committed? && Blank(CompletePurge(asked).rec)
            && CompletePurge(asked).rec.run.privacy == Purged
  {
  }

  /** A Run that failed, or is partial for optional steps only, can be retried three times, and goes to the queue. */
  lemma RetryThrice(rec: Record, expected: Option<int>, optionalOnly: bool, env: Env)
    requires Joint(rec.run) && rec.run.privacy == Active && rec.checkpoints != map[] && env.packageOk
    requires expected == None || expected == Some(rec.run.statusVersion)
    ensures RetryRun(rec, true, true, expected, optionalOnly, env).Committed?
            <==> && (rec.run.status == Failed || (rec.run.status == Partial && optionalOnly))
                 && rec.run.manualRetries <= 2
    ensures RetryRun(rec, true, true, expected, optionalOnly, env).Committed? ==>
              var again := RetryRun(rec, true, true, expected, optionalOnly, env).rec;
              QueuedAgain(rec, again, env.now) && again.run.manualRetries == rec.run.manualRetries + 1
    ensures RetryRun(rec.(checkpoints := map[]), true, true, expected, optionalOnly, env) == Refused
    ensures RetryRun(rec, false, true, expected, optionalOnly, env) == Refused
    ensures RetryRun(rec, true, false, expected, optionalOnly, env) == Refused
  {
  }

  /** The answer of a person decides a parked Run: approved it goes to the queue to be resumed, rejected it fails,
      unless its plan has a fallback for that; a late or foreign answer changes nothing. */
  lemma ApprovalDecides(rec: Record, caller: string, approve: bool, version: int, env: Env)
    requires RecordInv(rec)
    ensures ApproveRun(rec, caller, approve, version, env).Committed?
            <==> Parked(rec.run) && rec.run.caller == caller && rec.run.statusVersion == version && env.packageOk
    ensures ApproveRun(rec, caller, approve, version, env).Committed? ==>
              var after := ApproveRun(rec, caller, approve, version, env).rec;
              && (approve || rec.run.plan.rejectFallback ==>
                    QueuedAgain(rec, after, env.now) && after.run.status == WaitingHuman)
              && (!approve && !rec.run.plan.rejectFallback ==> EndedAs(rec, after, Failed))
              && ApproveRun(after, caller, approve, version, env) == Refused
  {
    hide LogShape, TerminalBalance, Blank, LeaseInv;
  }
}
