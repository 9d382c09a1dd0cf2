/** Every transaction of the Run lifecycle, as a function of one Record.

    An operation either refuses, succeeds without changing anything, or commits a new Record,
    possibly moving the Run between admission states.  Conditional UPDATEs that are decided on an
    earlier read take that read as a parameter, so a stale decision is an ordinary input here.
 */
module Lifecycle {
  import opened Options
  import opened RunRecords
  import opened Admission

  /** A call of transition_run: the states it is told, and whose limits it uses. */
  datatype Move = Move(from: DispatchState, to: DispatchState, api: bool)

  datatype Outcome = Refused | Unchanged | Committed(rec: Record, move: Option<Move>)

  /** What an operation reads outside its own Record. */
  datatype Env = Env(now: int, packageOk: bool)

  // ----- Worker lease operations -----

  function ClaimRun(rec: Record, owner: string, leaseSeconds: int, env: Env): Outcome {
    var run := rec.run;
    if run.dispatch == Queued && (run.status == Pending || run.status == WaitingHuman)
       && run.cancelRequestedAt == None
    then
      var expires := env.now + leaseSeconds * SECOND;
      var token, attempt := run.fencingToken + 1, run.executionAttempt + 1;
      var ctx := LeaseContext(attempt, owner, token, expires, run.privacyVersion, run.authorizationVersion);
      Committed(rec.(run := run.(dispatch := Claimed, leaseOwner := Some(owner),
                                 executionAttempt := attempt, fencingToken := token,
                                 leaseExpiresAt := Some(expires)),
                     issued := rec.issued[token := ctx]),
                Some(Move(Queued, Claimed, false)))
    else Refused
  }

  /** The condition of the heartbeat UPDATE. */
  predicate HeartbeatHolds(run: Run, ctx: LeaseContext, now: int) {
    && run.dispatch == Claimed
    && run.leaseOwner == Some(ctx.owner)
    && run.fencingToken == ctx.fencingToken
    && run.executionAttempt == ctx.executionAttempt
    && run.cancelRequestedAt == None
    && run.privacy == Active
    && run.privacyVersion == ctx.privacyVersion
    && run.authorizationVersion == ctx.authorizationVersion
    && run.leaseExpiresAt.Some? && run.leaseExpiresAt.value > now
    && run.deadline > now
  }

  function HeartbeatRun(rec: Record, token: nat, leaseSeconds: int, env: Env): Outcome {
    if token in rec.issued && HeartbeatHolds(rec.run, rec.issued[token], env.now) then
      var expires := env.now + leaseSeconds * SECOND;
      Committed(rec.(run := rec.run.(leaseExpiresAt := Some(expires)),
                     issued := rec.issued[token := rec.issued[token].(expiresAt := expires)]),
                None)
    else Refused
  }

  predicate TokenCanWrite(rec: Record, token: nat, env: Env) {
    token in rec.issued && CanWrite(rec.run, rec.issued[token], env.now, env.packageOk)
  }

  /** The Run leaves its lease and comes to rest in `status`. */
  function Released(run: Run, status: Status): Run {
    run.(status := status, dispatch := Finished, leaseOwner := None, leaseExpiresAt := None,
         statusVersion := run.statusVersion + 1)
  }

  /** A Run nobody holds comes to rest in `status`. */
  function Terminated(run: Run, status: Status): Run {
    run.(status := status, dispatch := Finished, statusVersion := run.statusVersion + 1)
  }

  /** A waiting Run goes back to the queue, still waiting_human so that a worker resumes it. */
  function Requeued(run: Run, at: int): Run {
    run.(dispatch := Queued, queuedAt := Some(at), statusVersion := run.statusVersion + 1)
  }

  function FinishRun(rec: Record, token: nat, status: Status, env: Env): Outcome {
    if Terminal(status) && TokenCanWrite(rec, token, env) then
      Committed(AppendCallback(rec.(run := Released(rec.run, status)), TerminalCallback(status)),
                Some(Move(Claimed, Finished, false)))
    else Refused
  }

  function DrainRun(rec: Record, token: nat, env: Env): Outcome {
    if TokenCanWrite(rec, token, env) then
      Committed(rec.(run := rec.run.(leaseExpiresAt := Some(env.now))), None)
    else Refused
  }

  function FinishInvalidRun(rec: Record, token: nat): Outcome {
    var run := rec.run;
    if token !in rec.issued then Refused
    else
      var ctx := rec.issued[token];
      if run.dispatch != Claimed || run.leaseOwner != Some(ctx.owner)
         || run.fencingToken != ctx.fencingToken || run.executionAttempt != ctx.executionAttempt
         || (run.cancelRequestedAt == None && run.privacy == Active)
      then Refused
      else
        Committed(AppendCallback(rec.(run := Released(run, Cancelled)), RunCancelled),
                  Some(Move(Claimed, Finished, false)))
  }

  function PauseRun(rec: Record, token: nat, timeoutSeconds: int, env: Env): Outcome {
    if timeoutSeconds > 0 && TokenCanWrite(rec, token, env) then
      var paused := Released(rec.run, WaitingHuman)
                    .(waitingExpiresAt := Some(env.now + timeoutSeconds * SECOND));
      Committed(AppendCallback(rec.(run := paused), AwaitingHuman),
                Some(Move(Claimed, Finished, false)))
    else Refused
  }

  /** One iteration of the reaper: `seen`, `at` and `packageSeen` are what its scan read. */
  function ReapRun(rec: Record, seen: Status, at: int, packageSeen: bool): Outcome {
    var run := rec.run;
    if !(run.status == seen && run.dispatch == Claimed
         && run.leaseExpiresAt.Some? && run.leaseExpiresAt.value < at)
    then Refused
    else if !packageSeen then
      Committed(AppendCallback(rec.(run := Released(run, Cancelled)), RunCancelled),
                Some(Move(Claimed, Finished, false)))
    else
      var next := if seen == Planning || seen == Running || seen == Evaluating then Pending else seen;
      var requeued := run.(status := next, dispatch := Queued, leaseOwner := None,
                           leaseExpiresAt := None, queuedAt := Some(at),
                           statusVersion := run.statusVersion + if next != seen then 1 else 0);
      Committed(AppendDispatch(rec.(run := requeued)), Some(Move(Claimed, Queued, false)))
  }

  // ----- Writes a worker makes while it executes -----

  function MarkRunning(rec: Record, token: nat, env: Env): Outcome {
    if !TokenCanWrite(rec, token, env) then Refused
    else if rec.run.status == Running then Unchanged
    else
      var started := rec.run.(status := Running, statusVersion := rec.run.statusVersion + 1);
      Committed(AppendCallback(rec.(run := started), RunStarted), None)
  }

  function ReportStep(rec: Record, token: nat, env: Env): Outcome {
    if TokenCanWrite(rec, token, env) then Committed(AppendCallback(rec, StepChanged), None) else Refused
  }

  function SaveCheckpoint(rec: Record, token: nat, key: string, state: string, env: Env): Outcome {
    if TokenCanWrite(rec, token, env) then
      var saved := Checkpoint(rec.issued[token].privacyVersion, rec.run.deadline, state);
      Committed(rec.(checkpoints := rec.checkpoints[key := saved]), None)
    else Refused
  }

  function PurgeCheckpoints(rec: Record, token: nat, env: Env): Outcome {
    if TokenCanWrite(rec, token, env) then Committed(rec.(checkpoints := map[]), None) else Refused
  }

  function SaveArtifact(rec: Record, token: nat, node: string, env: Env): Outcome {
    if TokenCanWrite(rec, token, env) && node != "" then
      Committed(rec.(artifacts := rec.artifacts + [Artifact(Some(node))]), None)
    else Refused
  }

  /** The version guard of a model-usage reservation decided on an earlier read of the Run. */
  function GuardReservation(rec: Record, token: nat, seenVersion: int): Outcome {
    var run := rec.run;
    if token in rec.issued
       && run.statusVersion == seenVersion && run.dispatch == Claimed
       && run.cancelRequestedAt == None && run.privacy == Active
       && run.privacyVersion == rec.issued[token].privacyVersion
       && run.authorizationVersion == rec.issued[token].authorizationVersion
       && run.executionAttempt == rec.issued[token].executionAttempt
       && run.leaseOwner == Some(rec.issued[token].owner)
       && run.fencingToken == rec.issued[token].fencingToken
    then Committed(rec.(run := run.(statusVersion := run.statusVersion + 1)), None)
    else Refused
  }

  /** The executor asks for cancellation on a revoked package or authorization, without a lease check. */
  function WorkerCancel(rec: Record, env: Env): Outcome {
    Committed(rec.(run := rec.run.(cancelRequestedAt := Some(env.now))), None)
  }

  function RecordElapsed(rec: Record, ms: nat): Outcome {
    Committed(rec.(run := rec.run.(activeElapsedMs := rec.run.activeElapsedMs + ms)), None)
  }

  // ----- Caller operations -----

  function StartRun(rec: Record, caller: string, authorized: bool, expected: Option<int>, env: Env): Outcome {
    var run := rec.run;
    if run.caller != caller || !authorized || (expected.Some? && run.statusVersion != expected.value)
       || !env.packageOk || run.privacy != Active || run.cancelRequestedAt != None
    then Refused
    else if run.dispatch == Queued || run.dispatch == Claimed then Unchanged
    else if run.dispatch != Held || run.status != Pending
            || (run.heldExpiresAt.Some? && run.heldExpiresAt.value < env.now)
    then Refused
    else
      Committed(AppendDispatch(rec.(run := run.(dispatch := Queued, queuedAt := Some(env.now)))),
                Some(Move(Held, Queued, true)))
  }

  /** Waiting for a person, with neither lease nor queue slot. */
  predicate Parked(run: Run) {
    run.status == WaitingHuman && run.dispatch == Finished
  }

  function CancelRun(rec: Record, caller: string, env: Env): Outcome {
    if rec.run.caller != caller then Refused
    else
      var run := rec.run.(cancelRequestedAt := Some(env.now));
      if run.dispatch == Held || run.dispatch == Queued || Parked(run) then
        Committed(AppendCallback(rec.(run := Terminated(run, Cancelled)), RunCancelled),
                  Some(Move(run.dispatch, Finished, true)))
      else Committed(rec.(run := run), None)
  }

  function PurgeRun(rec: Record, caller: string, env: Env): Outcome {
    if rec.run.caller != caller then Refused
    else if rec.run.privacy != Active then Unchanged
    else
      Committed(rec.(run := rec.run.(privacy := PurgeRequested,
                                     privacyVersion := rec.run.privacyVersion + 1,
                                     cancelRequestedAt := Some(env.now))), None)
  }

  function CompletePurge(rec: Record): Outcome {
    if rec.run.privacy == Purged then Unchanged
    else if rec.run.privacy != PurgeRequested then Refused
    else
      Committed(rec.(run := rec.run.(input := map[], privacy := Purged),
                     checkpoints := map[],
                     artifacts := seq(|rec.artifacts|, i => Artifact(None))), None)
  }

  /** `owned`, `authorized` and `optionalOnly` are the caller, authorization and partial-retry checks. */
  function RetryRun(rec: Record, owned: bool, authorized: bool, expected: Option<int>, optionalOnly: bool,
                    env: Env): Outcome
  {
    var run := rec.run;
    if !owned || !authorized || (expected.Some? && run.statusVersion != expected.value)
       || (run.status != Failed && run.status != Partial) || run.manualRetries >= 3
       || run.privacy != Active || rec.checkpoints == map[]
       || (run.status == Partial && !optionalOnly) || !env.packageOk
    then Refused
    else
      var again := run.(manualRetries := run.manualRetries + 1, status := Pending, dispatch := Queued,
                        queuedAt := Some(env.now), statusVersion := run.statusVersion + 1);
      Committed(AppendDispatch(rec.(run := again)), Some(Move(Finished, Queued, true)))
  }

  function ApproveRun(rec: Record, caller: string, approve: bool, expected: int, env: Env): Outcome {
    var run := rec.run;
    if run.caller != caller || !Parked(run) || run.statusVersion != expected || !env.packageOk then Refused
    else if approve || run.plan.rejectFallback then
      Committed(AppendDispatch(rec.(run := Requeued(run, env.now))), Some(Move(Finished, Queued, true)))
    else
      Committed(AppendCallback(rec.(run := Terminated(run, Failed)), RunFailed), None)
  }

  // ----- Reconciler writes, each conditional on the row its scan read -----

  predicate SameSnapshot(run: Run, seen: Run) {
    run.status == seen.status && run.dispatch == seen.dispatch && run.statusVersion == seen.statusVersion
  }

  /** The reconciler terminates only Runs no worker holds. */
  predicate Unheld(run: Run) {
    run.dispatch == Held || run.dispatch == Queued || Parked(run)
  }

  function TerminateRun(rec: Record, seen: Run, status: Status): Outcome {
    if Unheld(seen) && (status == Failed || status == Cancelled) && SameSnapshot(rec.run, seen) then
      Committed(AppendCallback(rec.(run := Terminated(rec.run, status)), TerminalCallback(status)),
                Some(Move(seen.dispatch, Finished, false)))
    else Refused
  }

  function RequestCancel(rec: Record, seen: Run, at: int): Outcome {
    if rec.run.dispatch == Claimed && rec.run.statusVersion == seen.statusVersion
       && rec.run.cancelRequestedAt == None
    then Committed(rec.(run := rec.run.(cancelRequestedAt := Some(at))), None)
    else Refused
  }

  function RequeueFallback(rec: Record, seen: Run, at: int): Outcome {
    if Parked(seen) && SameSnapshot(rec.run, seen) then
      Committed(AppendDispatch(rec.(run := Requeued(rec.run, at).(waitingExpiresAt := None))),
                Some(Move(Finished, Queued, false)))
    else Refused
  }

  /** Puts the dispatch gap right: a first event when there is none, else the last one again. */
  function RepairDispatch(rec: Record): Outcome {
    if rec.dispatches == [] then Committed(AppendDispatch(rec), None)
    else
      Committed(rec.(dispatches := rec.dispatches[|rec.dispatches| - 1 := DispatchEvent(DispatchPending, None)]),
                None)
  }

  /** Any progress of the outbox dispatcher on one event. */
  function DispatcherUpdate(rec: Record, i: nat, e: DispatchEvent): Outcome {
    if i < |rec.dispatches| then Committed(rec.(dispatches := rec.dispatches[i := e]), None) else Refused
  }

  datatype Action =
    | Claim(owner: string, leaseSeconds: int)
    | Heartbeat(token: nat, leaseSeconds: int)
    | Finish(token: nat, status: Status)
    | Drain(token: nat)
    | FinishInvalid(token: nat)
    | Pause(token: nat, timeoutSeconds: int)
    | Reap(seen: Status, at: int, packageSeen: bool)
    | WriteRunning(token: nat)
    | WriteStep(token: nat)
    | WriteCheckpoint(token: nat, key: string, state: string)
    | DropCheckpoints(token: nat)
    | WriteArtifact(token: nat, node: string)
    | Guard(token: nat, seenVersion: int)
    | AskCancel
    | Elapse(ms: nat)
    | Start(caller: string, authorized: bool, expected: Option<int>)
    | Cancel(caller: string)
    | Purge(caller: string)
    | FinishPurge
    | Retry(owned: bool, authorized: bool, expected: Option<int>, optionalOnly: bool)
    | Approve(caller: string, approve: bool, version: int)
    | Terminate(run: Run, status: Status)
    | RequestStop(run: Run, at: int)
    | Requeue(run: Run, at: int)
    | Redispatch
    | Dispatcher(i: nat, event: DispatchEvent)

  function Act(rec: Record, a: Action, env: Env): Outcome {
    match a
    case Claim(owner, secs) => ClaimRun(rec, owner, secs, env)
    case Heartbeat(token, secs) => HeartbeatRun(rec, token, secs, env)
    case Finish(token, status) => FinishRun(rec, token, status, env)
    case Drain(token) => DrainRun(rec, token, env)
    case FinishInvalid(token) => FinishInvalidRun(rec, token)
    case Pause(token, secs) => PauseRun(rec, token, secs, env)
    case Reap(seen, at, packageSeen) =>
      if at <= env.now then ReapRun(rec, seen, at, packageSeen) else Refused
    case WriteRunning(token) => MarkRunning(rec, token, env)
    case WriteStep(token) => ReportStep(rec, token, env)
    case WriteCheckpoint(token, key, state) => SaveCheckpoint(rec, token, key, state, env)
    case DropCheckpoints(token) => PurgeCheckpoints(rec, token, env)
    case WriteArtifact(token, node) => SaveArtifact(rec, token, node, env)
    case Guard(token, version) => GuardReservation(rec, token, version)
    case AskCancel => WorkerCancel(rec, env)
    case Elapse(ms) => RecordElapsed(rec, ms)
    case Start(caller, authorized, expected) => StartRun(rec, caller, authorized, expected, env)
    case Cancel(caller) => CancelRun(rec, caller, env)
    case Purge(caller) => PurgeRun(rec, caller, env)
    case FinishPurge => CompletePurge(rec)
    case Retry(owned, authorized, expected, optionalOnly) =>
      RetryRun(rec, owned, authorized, expected, optionalOnly, env)
    case Approve(caller, approve, version) => ApproveRun(rec, caller, approve, version, env)
    case Terminate(seen, status) => TerminateRun(rec, seen, status)
    case RequestStop(seen, at) => RequestCancel(rec, seen, at)
    case Requeue(seen, at) => RequeueFallback(rec, seen, at)
    case Redispatch => RepairDispatch(rec)
    case Dispatcher(i, e) => DispatcherUpdate(rec, i, e)
  }

  // ----- The database as a whole -----

  datatype Definition = Definition(active: bool, digest: string)

  datatype World = World(
    now: int,
    api: Limits,
    definitions: map<(string, string), Definition>,
    records: map<string, Record>,
    buckets: map<Scope, Bucket>)

  predicate PackageOk(definitions: map<(string, string), Definition>, run: Run) {
    var key := (run.agent, run.agentVersion);
    key in definitions && definitions[key].active && definitions[key].digest == run.digest
  }

  function EnvOf(w: World, run: Run): Env {
    Env(w.now, PackageOk(w.definitions, run))
  }

  function LimitsOf(w: World, move: Move): Limits {
    if move.api then w.api else DEFAULT_LIMITS
  }

  /** A transaction commits the Record and the buckets together, or rolls both back. */
  function Apply(w: World, id: string, outcome: Outcome): World {
    match outcome
    case Refused => w
    case Unchanged => w
    case Committed(rec, None) => w.(records := w.records[id := rec])
    case Committed(rec, Some(move)) =>
      match Transition(w.buckets, rec.run, move.from, move.to, LimitsOf(w, move))
      case None => w
      case Some(moved) => w.(records := w.records[id := rec], buckets := moved)
  }

  /** What create validates and freezes; `accepted` is the input-schema and business-type check. */
  datatype Request = Request(
    agent: string, agentVersion: string, caller: string, tenant: string, target: string,
    plan: Plan, input: map<string, string>, startHeld: bool, authorizationVersion: int, accepted: bool)

  function NewRun(id: string, q: Request, digest: string, now: int): Run {
    Run(id, q.agent, q.agentVersion, digest, q.caller, q.tenant, q.target, q.plan, q.input,
        q.authorizationVersion, now + 86400 * SECOND,
        Pending, if q.startHeld then Held else Queued, 1, 0, 0, 0, 0, None, None, None, Active, 1,
        if q.startHeld then Some(now + 600 * SECOND) else None,
        if q.startHeld then None else Some(now), None, 0)
  }

  function CreateRun(id: string, q: Request, definitions: map<(string, string), Definition>, now: int): Outcome {
    var key := (q.agent, q.agentVersion);
    if key !in definitions || !definitions[key].active || !q.accepted || q.authorizationVersion < 1 then Refused
    else
      var run := NewRun(id, q, definitions[key].digest, now);
      var rec := Record(run, [], [], [], map[], [], map[]);
      Committed(if q.startHeld then rec else AppendDispatch(rec),
                Some(Move(Unborn, run.dispatch, true)))
  }

  datatype Step =
    | Tick(elapsed: nat)
    | Define(key: (string, string), definition: Option<Definition>)
    | Create(id: string, request: Request)
    | Do(run: string, action: Action)

  function Next(w: World, step: Step): World {
    match step
    case Tick(elapsed) => w.(now := w.now + elapsed)
    case Define(key, None) => w.(definitions := w.definitions - {key})
    case Define(key, Some(d)) => w.(definitions := w.definitions[key := d])
    case Create(id, q) =>
      if id in w.records then w else Apply(w, id, CreateRun(id, q, w.definitions, w.now))
    case Do(id, a) =>
      if id in w.records then Apply(w, id, Act(w.records[id], a, EnvOf(w, w.records[id].run))) else w
  }

  function Execute(w: World, steps: seq<Step>): World {
    if steps == [] then w else Next(Execute(w, steps[..|steps| - 1]), steps[|steps| - 1])
  }

  function Init(now: int, api: Limits): World {
    World(now, api, map[], map[], map[])
  }
}
