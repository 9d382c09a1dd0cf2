/** What every lifecycle transaction keeps, and how a Record may change over time. */
module LifecycleSafety {
  import opened Options
  import opened RunRecords
  import opened Lifecycle

  // ----- The joint invariant of one Record -----

  /** Status, dispatch state, lease, cancellation and privacy agree with one another. */
  predicate Joint(run: Run) {
    && run.dispatch != Unborn
    && (run.dispatch == Held ==> run.status == Pending)
    && (run.dispatch == Queued ==> run.status == Pending || run.status == WaitingHuman)
    && (run.dispatch == Claimed ==>
          run.status == Pending || run.status == WaitingHuman || run.status == Running)
    && (run.dispatch == Finished ==> Terminal(run.status) || run.status == WaitingHuman)
    && (run.dispatch == Claimed <==> run.leaseOwner.Some?)
    && (run.dispatch == Claimed <==> run.leaseExpiresAt.Some?)
    && (Parked(run) ==> run.waitingExpiresAt.Some?)
    && (run.privacy != Active ==> run.cancelRequestedAt.Some?)
    && run.privacyVersion == (if run.privacy == Active then 1 else 2)
    && run.executionAttempt == run.fencingToken
    && run.statusVersion >= 1
    && run.manualRetries <= 3
  }

  /** Entry `i` of a log of `run`. */
  predicate EntryOk(run: Run, e: CallbackEvent, i: nat) {
    && e.eventSeq == i + 1
    && e.runId == run.runId
    && e.eventId == EventId(run.runId, i + 1)
    && e.statusVersion <= run.statusVersion
    && MatchesCallback(e)
  }

  /** The callback log is numbered without gaps, ordered by version, and mirrored by the outbox. */
  ghost predicate LogShape(rec: Record) {
    && |rec.log| == rec.run.lastEventSeq
    && |rec.outbox| == |rec.log|
    && (forall i {:trigger rec.log[i]} :: 0 <= i < |rec.log| ==> EntryOk(rec.run, rec.log[i], i))
    && (forall i, j {:trigger rec.log[i], rec.log[j]} :: 0 <= i < j < |rec.log| ==>
          rec.log[i].statusVersion <= rec.log[j].statusVersion)
    && (forall i {:trigger rec.outbox[i]} :: 0 <= i < |rec.outbox| ==>
          rec.outbox[i] == CallbackOutbox(rec.run.runId, rec.log[i].eventId, rec.log[i].kind, rec.run.target))
  }

  /** One terminal event for every retry, and one more while the Run is terminal. */
  predicate TerminalBalance(rec: Record) {
    TerminalEvents(rec.log) == rec.run.manualRetries + if Terminal(rec.run.status) then 1 else 0
  }

  /** Issued contexts carry their own token, and the current one matches the lease. */
  ghost predicate LeaseInv(rec: Record) {
    && (forall k {:trigger k in rec.issued} :: k in rec.issued ==>
          && 1 <= k <= rec.run.fencingToken
          && rec.issued[k].fencingToken == k
          && rec.issued[k].executionAttempt == k)
    && (rec.run.dispatch == Claimed ==>
          && rec.run.fencingToken in rec.issued
          && rec.run.leaseOwner == Some(rec.issued[rec.run.fencingToken].owner)
          && rec.run.leaseExpiresAt.Some?
          && rec.issued[rec.run.fencingToken].expiresAt >= rec.run.leaseExpiresAt.value)
  }

  predicate Blank(rec: Record) {
    && rec.checkpoints == map[]
    && rec.run.input == map[]
    && forall i :: 0 <= i < |rec.artifacts| ==> rec.artifacts[i] == Artifact(None)
  }

  ghost predicate RecordInv(rec: Record) {
    && Joint(rec.run)
    && LogShape(rec)
    && TerminalBalance(rec)
    && LeaseInv(rec)
    && (rec.run.privacy == Purged ==> Blank(rec))
  }

  // ----- How a Record may change -----

  function PrivacyRank(p: Privacy): nat {
    match p case Active => 0 case PurgeRequested => 1 case Purged => 2
  }

  predicate SameIdentity(a: Run, b: Run) {
    && a.runId == b.runId && a.agent == b.agent && a.agentVersion == b.agentVersion && a.digest == b.digest
    && a.caller == b.caller && a.tenant == b.tenant && a.target == b.target && a.plan == b.plan
    && a.authorizationVersion == b.authorizationVersion && a.deadline == b.deadline
  }

  predicate RunEvolves(a: Run, b: Run) {
    && SameIdentity(a, b)
    && a.statusVersion <= b.statusVersion
    && (a.status != b.status ==> a.statusVersion < b.statusVersion)
    && a.fencingToken <= b.fencingToken
    && a.manualRetries <= b.manualRetries
    && (a.cancelRequestedAt.Some? ==> b.cancelRequestedAt.Some?)
    && PrivacyRank(a.privacy) <= PrivacyRank(b.privacy)
    && (a.status == Succeeded || a.status == Cancelled ==>
          b.status == a.status && b.dispatch == Finished && b.manualRetries == a.manualRetries)
  }

  /** Behind the privacy barrier nothing is added: checkpoints only disappear. */
  predicate NothingAdded(a: Record, b: Record) {
    && (forall k :: k in b.checkpoints ==> k in a.checkpoints && b.checkpoints[k] == a.checkpoints[k])
    && |b.artifacts| == |a.artifacts|
  }

  /** A context that may not write at `t` may not write at `u`. */
  ghost predicate StaysFenced(a: Record, t: int, b: Record, u: int) {
    forall k {:trigger k in a.issued} :: k in a.issued ==>
      && k in b.issued
      && (Writable(b.run, b.issued[k], u) ==> Writable(a.run, a.issued[k], t))
  }

  ghost predicate Evolves(a: Record, t: int, b: Record, u: int) {
    && RunEvolves(a.run, b.run)
    && a.log <= b.log
    && (a.run.privacy != Active ==> NothingAdded(a, b))
    && StaysFenced(a, t, b, u)
  }

  lemma EvolvesTransitive(a: Record, t: int, b: Record, u: int, c: Record, v: int)
    requires Evolves(a, t, b, u) && Evolves(b, u, c, v)
    ensures Evolves(a, t, c, v)
  {
  }

  /** The move told to admission is the move the Run makes, under limits the caps allow for. */
  predicate MoveMatches(before: DispatchState, after: Run, move: Option<Move>) {
    match move
    case None => after.dispatch == before
    case Some(m) =>
      && m.from == before && m.to == after.dispatch
      && (m.to == Held ==> m.api) && (m.to == Claimed ==> !m.api)
  }

  ghost predicate Safe(rec: Record, t: int, after: Record, move: Option<Move>, u: int) {
    && RecordInv(after)
    && MoveMatches(rec.run.dispatch, after.run, move)
    && Evolves(rec, t, after, u)
  }

  ghost predicate OutcomeSafe(rec: Record, t: int, outcome: Outcome, u: int) {
    outcome.Committed? ==> Safe(rec, t, outcome.rec, outcome.move, u)
  }

  // ----- Each transaction, one at a time -----

  lemma AppendKeepsLog(rec: Record, run: Run, kind: CallbackKind)
    requires LogShape(rec)
    requires run.runId == rec.run.runId && run.target == rec.run.target
    requires run.lastEventSeq == rec.run.lastEventSeq
    requires 1 <= rec.run.statusVersion <= run.statusVersion
    ensures var after := AppendCallback(rec.(run := run), kind);
            && LogShape(after)
            && rec.log <= after.log
            && TerminalEvents(after.log) == TerminalEvents(rec.log) + if TerminalKind(kind) then 1 else 0
  {
    var after := AppendCallback(rec.(run := run), kind);
    TerminalEventsAppend(rec.log, after.log[|rec.log|]);
  }

  lemma QuietKeepsLog(rec: Record, after: Record)
    requires LogShape(rec)
    requires after.log == rec.log && after.outbox == rec.outbox
    requires after.run.runId == rec.run.runId && after.run.target == rec.run.target
    requires after.run.lastEventSeq == rec.run.lastEventSeq
    requires rec.run.statusVersion <= after.run.statusVersion
    ensures LogShape(after)
  {
    forall i {:trigger after.log[i]} | 0 <= i < |after.log|
      ensures EntryOk(after.run, after.log[i], i)
    {
      assert EntryOk(rec.run, rec.log[i], i);
    }
  }

  /** The row's lease is given up, or kept with no gate opened. */
  predicate NoGateOpened(a: Run, b: Run) {
    b.dispatch == Claimed ==>
      && a.dispatch == Claimed
      && b.leaseOwner == a.leaseOwner
      && a.leaseExpiresAt.Some? && b.leaseExpiresAt.Some?
      && b.leaseExpiresAt.value <= a.leaseExpiresAt.value
      && (b.cancelRequestedAt == None ==> a.cancelRequestedAt == None)
      && (b.privacy == Active ==> a.privacy == Active && b.privacyVersion == a.privacyVersion)
  }

  lemma ClosedGateKeepsFence(rec: Record, t: int, after: Record, u: int)
    requires LeaseInv(rec) && t <= u
    requires SameIdentity(rec.run, after.run) && rec.run.fencingToken == after.run.fencingToken
    requires after.issued == rec.issued
    requires NoGateOpened(rec.run, after.run)
    ensures LeaseInv(after) && StaysFenced(rec, t, after, u)
  {
  }

  function Ended(run: Run): int {
    if Terminal(run.status) then 1 else 0
  }

  /** All that is asked of a rewritten row: `events` is how many terminal callbacks go with it. */
  predicate RowOk(a: Run, b: Run, move: Option<Move>, events: int) {
    && Joint(b) && RunEvolves(a, b) && NoGateOpened(a, b)
    && MoveMatches(a.dispatch, b, move)
    && b.lastEventSeq == a.lastEventSeq && b.fencingToken == a.fencingToken
    && b.manualRetries + Ended(b) == a.manualRetries + Ended(a) + events
  }

  /** A commit that appends no callback and hands out no lease. */
  lemma QuietSafe(rec: Record, t: int, after: Record, move: Option<Move>, u: int)
    requires RecordInv(rec) && t <= u
    requires RowOk(rec.run, after.run, move, 0)
    requires after.log == rec.log && after.outbox == rec.outbox && after.issued == rec.issued
    requires rec.run.privacy != Active ==> NothingAdded(rec, after)
    requires after.run.privacy == Purged ==> Blank(after)
    ensures Safe(rec, t, after, move, u)
  {
    QuietKeepsLog(rec, after);
    ClosedGateKeepsFence(rec, t, after, u);
  }

  /** A commit that rewrites the row and appends one callback. */
  lemma CallbackSafe(rec: Record, t: int, run: Run, kind: CallbackKind, move: Option<Move>, u: int)
    requires RecordInv(rec) && t <= u
    requires RowOk(rec.run, run, move, if TerminalKind(kind) then 1 else 0)
    requires run.privacy == rec.run.privacy && run.input == rec.run.input
    ensures Safe(rec, t, AppendCallback(rec.(run := run), kind), move, u)
  {
    AppendKeepsLog(rec, run, kind);
    ClosedGateKeepsFence(rec, t, AppendCallback(rec.(run := run), kind), u);
  }

  // ----- The rows, one transaction at a time -----

  lemma ReleasedRow(run: Run, status: Status)
    requires Joint(run) && run.dispatch == Claimed && Terminal(status)
    ensures RowOk(run, Released(run, status), Some(Move(Claimed, Finished, false)), 1)
  {
  }

  lemma PausedRow(run: Run, until: int)
    requires Joint(run) && run.dispatch == Claimed
    ensures RowOk(run, Released(run, WaitingHuman).(waitingExpiresAt := Some(until)),
                  Some(Move(Claimed, Finished, false)), 0)
  {
  }

  lemma BegunRow(run: Run)
    requires Joint(run) && run.dispatch == Claimed && run.status != Running
    ensures RowOk(run, run.(status := Running, statusVersion := run.statusVersion + 1), None, 0)
  {
  }

  lemma SameRow(run: Run)
    requires Joint(run)
    ensures RowOk(run, run, None, 0)
  {
  }

  lemma DrainedRow(run: Run, at: int)
    requires Joint(run) && run.dispatch == Claimed && run.leaseExpiresAt.Some?
    requires at <= run.leaseExpiresAt.value
    ensures RowOk(run, run.(leaseExpiresAt := Some(at)), None, 0)
  {
  }

  lemma CountedRow(run: Run, ms: int)
    requires Joint(run)
    ensures RowOk(run, run.(statusVersion := run.statusVersion + 1), None, 0)
    ensures RowOk(run, run.(activeElapsedMs := ms), None, 0)
  {
  }

  lemma CancelledRow(run: Run, at: int, api: bool)
    requires Joint(run)
    ensures RowOk(run, run.(cancelRequestedAt := Some(at)), None, 0)
    ensures Unheld(run) ==>
              RowOk(run, Terminated(run.(cancelRequestedAt := Some(at)), Cancelled),
                    Some(Move(run.dispatch, Finished, api)), 1)
  {
  }

  lemma TerminatedRow(run: Run, status: Status, api: bool)
    requires Joint(run) && Unheld(run) && (status == Failed || status == Cancelled)
    ensures RowOk(run, Terminated(run, status), Some(Move(run.dispatch, Finished, api)), 1)
    ensures Parked(run) ==> RowOk(run, Terminated(run, status), None, 1)
  {
  }

  lemma RequeuedRow(run: Run, at: int, api: bool)
    requires Joint(run) && Parked(run)
    ensures RowOk(run, Requeued(run, at), Some(Move(Finished, Queued, api)), 0)
    ensures RowOk(run, Requeued(run, at).(waitingExpiresAt := None), Some(Move(Finished, Queued, api)), 0)
  {
  }

  lemma ReapedRow(rec: Record, seen: Status, at: int)
    requires Joint(rec.run)
    ensures var out := ReapRun(rec, seen, at, true);
            out.Committed? ==> RowOk(rec.run, out.rec.run, out.move, 0)
  {
  }

  // ----- The transactions -----

  lemma ClaimSafe(rec: Record, t: int, owner: string, secs: int, env: Env)
    requires RecordInv(rec) && t <= env.now
    ensures OutcomeSafe(rec, t, ClaimRun(rec, owner, secs, env), env.now)
  {
    var out := ClaimRun(rec, owner, secs, env);
    if out.Committed? {
      QuietKeepsLog(rec, out.rec);
    }
  }

  lemma HeartbeatSafe(rec: Record, t: int, token: nat, secs: int, env: Env)
    requires RecordInv(rec) && t <= env.now
    ensures OutcomeSafe(rec, t, HeartbeatRun(rec, token, secs, env), env.now)
  {
    var out := HeartbeatRun(rec, token, secs, env);
    if out.Committed? {
      QuietKeepsLog(rec, out.rec);
    }
  }

  lemma ReleaseSafe(rec: Record, t: int, status: Status, u: int)
    requires RecordInv(rec) && t <= u
    requires rec.run.dispatch == Claimed && Terminal(status)
    ensures Safe(rec, t, AppendCallback(rec.(run := Released(rec.run, status)), TerminalCallback(status)),
                 Some(Move(Claimed, Finished, false)), u)
  {
    hide RowOk, Safe, Joint, Blank, LogShape, LeaseInv, TerminalBalance, AppendCallback;
    ReleasedRow(rec.run, status);
    CallbackSafe(rec, t, Released(rec.run, status), TerminalCallback(status),
                 Some(Move(Claimed, Finished, false)), u);
  }

  lemma PauseSafe(rec: Record, t: int, token: nat, secs: int, env: Env)
    requires RecordInv(rec) && t <= env.now
    ensures OutcomeSafe(rec, t, PauseRun(rec, token, secs, env), env.now)
  {
    hide RowOk, Safe, Joint, Blank, LogShape, LeaseInv, TerminalBalance, AppendCallback;
    if PauseRun(rec, token, secs, env).Committed? {
      var until := env.now + secs * SECOND;
      PausedRow(rec.run, until);
      CallbackSafe(rec, t, Released(rec.run, WaitingHuman).(waitingExpiresAt := Some(until)), AwaitingHuman,
                   Some(Move(Claimed, Finished, false)), env.now);
    }
  }

  lemma ReapSafe(rec: Record, t: int, seen: Status, at: int, packageSeen: bool, u: int)
    requires RecordInv(rec) && t <= u
    ensures OutcomeSafe(rec, t, ReapRun(rec, seen, at, packageSeen), u)
  {
    hide RowOk, Safe, Joint, LogShape, LeaseInv, TerminalBalance, AppendCallback;
    var out := ReapRun(rec, seen, at, packageSeen);
    if out.Committed? {
      if packageSeen {
        ReapedRow(rec, seen, at);
        QuietSafe(rec, t, out.rec, out.move, u);
      } else {
        ReleaseSafe(rec, t, Cancelled, u);
      }
    }
  }

  lemma ReportSafe(rec: Record, t: int, token: nat, env: Env)
    requires RecordInv(rec) && t <= env.now
    ensures OutcomeSafe(rec, t, MarkRunning(rec, token, env), env.now)
    ensures OutcomeSafe(rec, t, ReportStep(rec, token, env), env.now)
  {
    hide RowOk, Safe, Joint, Blank, LogShape, LeaseInv, TerminalBalance, AppendCallback;
    if MarkRunning(rec, token, env).Committed? {
      BegunRow(rec.run);
      CallbackSafe(rec, t, rec.run.(status := Running, statusVersion := rec.run.statusVersion + 1), RunStarted,
                   None, env.now);
    }
    SameRow(rec.run);
    CallbackSafe(rec, t, rec.run, StepChanged, None, env.now);
    assert rec.(run := rec.run) == rec;
  }

  lemma CancelSafe(rec: Record, t: int, caller: string, env: Env)
    requires RecordInv(rec) && t <= env.now
    ensures OutcomeSafe(rec, t, CancelRun(rec, caller, env), env.now)
  {
    hide RowOk, Safe, Joint, LogShape, LeaseInv, TerminalBalance, AppendCallback;
    var out := CancelRun(rec, caller, env);
    var asked := rec.run.(cancelRequestedAt := Some(env.now));
    CancelledRow(rec.run, env.now, true);
    if Unheld(rec.run) {
      CallbackSafe(rec, t, Terminated(asked, Cancelled), RunCancelled,
                   Some(Move(rec.run.dispatch, Finished, true)), env.now);
    } else {
      QuietSafe(rec, t, rec.(run := asked), None, env.now);
    }
  }

  lemma ApproveSafe(rec: Record, t: int, caller: string, approve: bool, version: int, env: Env)
    requires RecordInv(rec) && t <= env.now
    ensures OutcomeSafe(rec, t, ApproveRun(rec, caller, approve, version, env), env.now)
  {
    hide RowOk, Safe, Joint, LogShape, LeaseInv, TerminalBalance, AppendCallback;
    var out := ApproveRun(rec, caller, approve, version, env);
    if out.Committed? {
      if approve || rec.run.plan.rejectFallback {
        RequeuedRow(rec.run, env.now, true);
        QuietSafe(rec, t, out.rec, out.move, env.now);
      } else {
        TerminatedRow(rec.run, Failed, true);
        CallbackSafe(rec, t, Terminated(rec.run, Failed), RunFailed, None, env.now);
      }
    }
  }

  lemma TerminateSafe(rec: Record, t: int, seen: Run, status: Status, u: int)
    requires RecordInv(rec) && t <= u
    ensures OutcomeSafe(rec, t, TerminateRun(rec, seen, status), u)
  {
    hide RowOk, Safe, Joint, Blank, LogShape, LeaseInv, TerminalBalance, AppendCallback;
    var out := TerminateRun(rec, seen, status);
    if out.Committed? {
      TerminatedRow(rec.run, status, false);
      CallbackSafe(rec, t, Terminated(rec.run, status), TerminalCallback(status), out.move, u);
    }
  }

  lemma RequeueSafe(rec: Record, t: int, seen: Run, at: int, u: int)
    requires RecordInv(rec) && t <= u
    ensures OutcomeSafe(rec, t, RequeueFallback(rec, seen, at), u)
  {
    hide RowOk, Safe, Joint, LogShape, LeaseInv, TerminalBalance, AppendCallback;
    var out := RequeueFallback(rec, seen, at);
    if out.Committed? {
      RequeuedRow(rec.run, at, false);
      QuietSafe(rec, t, out.rec, out.move, u);
    }
  }

  /** Writes that leave status and dispatch state alone. */
  predicate StillAction(a: Action) {
    a.Drain? || a.WriteCheckpoint? || a.DropCheckpoints? || a.WriteArtifact? || a.Guard? || a.AskCancel?
    || a.Elapse? || a.RequestStop? || a.Redispatch? || a.Dispatcher?
  }

  lemma StillRow(rec: Record, a: Action, env: Env)
    requires Joint(rec.run) && StillAction(a)
    ensures var out := Act(rec, a, env);
            out.Committed? ==> RowOk(rec.run, out.rec.run, out.move, 0)
  {
    hide RowOk, Joint;
    SameRow(rec.run);
    if a.AskCancel? || a.RequestStop? {
      CancelledRow(rec.run, if a.AskCancel? then env.now else a.at, true);
    } else if a.Drain? && TokenCanWrite(rec, a.token, env) {
      DrainedRow(rec.run, env.now);
    } else if a.Guard? || a.Elapse? {
      CountedRow(rec.run, if a.Elapse? then rec.run.activeElapsedMs + a.ms else 0);
    }
  }

  lemma StillSafe(rec: Record, t: int, a: Action, env: Env)
    requires RecordInv(rec) && t <= env.now && StillAction(a)
    ensures OutcomeSafe(rec, t, Act(rec, a, env), env.now)
  {
    hide RowOk, Safe, Joint, LogShape, LeaseInv, TerminalBalance, AppendCallback;
    StillRow(rec, a, env);
    var out := Act(rec, a, env);
    if out.Committed? {
      QuietSafe(rec, t, out.rec, out.move, env.now);
    }
  }

  lemma RestartRow(rec: Record, a: Action, env: Env)
    requires Joint(rec.run) && (a.Start? || a.Retry?)
    ensures var out := Act(rec, a, env);
            out.Committed? ==> RowOk(rec.run, out.rec.run, out.move, 0)
  {
  }

  lemma PurgeRow(rec: Record, a: Action, env: Env)
    requires Joint(rec.run) && (a.Purge? || a.FinishPurge?)
    ensures var out := Act(rec, a, env);
            out.Committed? ==> RowOk(rec.run, out.rec.run, out.move, 0)
  {
  }

  /** Start, retry and the two purge steps. */
  lemma AdvanceSafe(rec: Record, t: int, a: Action, env: Env)
    requires RecordInv(rec) && t <= env.now && (a.Start? || a.Retry? || a.Purge? || a.FinishPurge?)
    ensures OutcomeSafe(rec, t, Act(rec, a, env), env.now)
  {
    hide RowOk, Safe, Joint, LogShape, LeaseInv, TerminalBalance, AppendCallback;
    if a.Start? || a.Retry? {
      RestartRow(rec, a, env);
    } else {
      PurgeRow(rec, a, env);
    }
    var out := Act(rec, a, env);
    if out.Committed? {
      QuietSafe(rec, t, out.rec, out.move, env.now);
    }
  }

  /** Every transaction keeps the joint invariant, tells admission the truth, and only moves forward. */
  lemma ActSafe(rec: Record, t: int, a: Action, env: Env)
    requires RecordInv(rec) && t <= env.now
    ensures OutcomeSafe(rec, t, Act(rec, a, env), env.now)
  {
    hide Safe, Joint, Blank, LogShape, LeaseInv, TerminalBalance, AppendCallback;
    match a
    case Claim(owner, secs) => ClaimSafe(rec, t, owner, secs, env);
    case Heartbeat(token, secs) => HeartbeatSafe(rec, t, token, secs, env);
    case Finish(token, status) =>
      if FinishRun(rec, token, status, env).Committed? {
        ReleaseSafe(rec, t, status, env.now);
      }
    case FinishInvalid(token) =>
      if FinishInvalidRun(rec, token).Committed? {
        ReleaseSafe(rec, t, Cancelled, env.now);
      }
    case Pause(token, secs) => PauseSafe(rec, t, token, secs, env);
    case Reap(seen, at, packageSeen) => ReapSafe(rec, t, seen, at, packageSeen, env.now);
    case WriteRunning(token) => ReportSafe(rec, t, token, env);
    case WriteStep(token) => ReportSafe(rec, t, token, env);
    case Cancel(caller) => CancelSafe(rec, t, caller, env);
    case Approve(caller, approve, version) => ApproveSafe(rec, t, caller, approve, version, env);
    case Terminate(seen, status) => TerminateSafe(rec, t, seen, status, env.now);
    case Requeue(seen, at) => RequeueSafe(rec, t, seen, at, env.now);
    case _ =>
      if StillAction(a) {
        StillSafe(rec, t, a, env);
      } else {
        AdvanceSafe(rec, t, a, env);
      }
  }
}
