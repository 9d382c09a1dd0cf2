/** The Run row and the table rows that hang off one Run.

    A `Record` groups, for one run id, the `agent_runs` row with its callback events, callback
    outbox rows, run-dispatch outbox rows, checkpoints, artifacts and the lease contexts that
    workers obtained by claiming it.  Times are whole microseconds.
 */
module RunRecords {
  import opened Options

  const SECOND: int := 1_000_000

  datatype Status =
    | Pending | Planning | Running | Evaluating | WaitingHuman
    | Succeeded | Partial | Failed | Cancelled

  predicate Terminal(s: Status) {
    s == Succeeded || s == Partial || s == Failed || s == Cancelled
  }

  /** `Unborn` is the source's "none", passed to admission by create alone. */
  datatype DispatchState = Unborn | Held | Queued | Claimed | Finished

  datatype Privacy = Active | PurgeRequested | Purged

  datatype TimeoutAction = ActionUnset | ActionFallback | ActionCancelled | ActionFailed

  /** The part of the frozen plan that control decisions read. */
  datatype Plan = Plan(
    maxRunSeconds: Option<int>,
    queueTtlSeconds: Option<int>,
    timeoutAction: TimeoutAction,
    fallbackTargetValid: bool,
    rejectFallback: bool)

  datatype Run = Run(
    runId: string,
    agent: string, agentVersion: string, digest: string,
    caller: string, tenant: string, target: string,
    plan: Plan,
    input: map<string, string>,
    authorizationVersion: int,
    deadline: int,
    status: Status,
    dispatch: DispatchState,
    statusVersion: int,
    lastEventSeq: nat,
    manualRetries: nat,
    executionAttempt: nat,
    fencingToken: nat,
    leaseOwner: Option<string>,
    leaseExpiresAt: Option<int>,
    cancelRequestedAt: Option<int>,
    privacy: Privacy,
    privacyVersion: int,
    heldExpiresAt: Option<int>,
    queuedAt: Option<int>,
    waitingExpiresAt: Option<int>,
    activeElapsedMs: int)

  datatype LeaseContext = LeaseContext(
    executionAttempt: nat,
    owner: string,
    fencingToken: nat,
    expiresAt: int,
    privacyVersion: int,
    authorizationVersion: int)

  datatype CallbackKind =
    | RunStarted | StepChanged | AwaitingHuman
    | PartialSucceeded | RunSucceeded | RunFailed | RunCancelled

  predicate TerminalKind(k: CallbackKind) {
    k == PartialSucceeded || k == RunSucceeded || k == RunFailed || k == RunCancelled
  }

  /** The callback name frozen for each terminal status. */
  function TerminalCallback(s: Status): (k: CallbackKind)
    requires Terminal(s)
    ensures TerminalKind(k)
  {
    match s
    case Succeeded => RunSucceeded
    case Partial => PartialSucceeded
    case Failed => RunFailed
    case Cancelled => RunCancelled
  }

  /** A callback event id is a fresh identity; it is modelled by its run and position. */
  datatype EventId = EventId(run: string, serial: nat)

  datatype Payload = Payload(
    eventId: EventId, runId: string, eventSeq: nat, statusVersion: int,
    kind: CallbackKind, status: Status)

  datatype CallbackEvent = CallbackEvent(
    eventId: EventId, runId: string, eventSeq: nat, statusVersion: int,
    kind: CallbackKind, payload: Payload)

  datatype CallbackOutbox = CallbackOutbox(
    aggregate: string, eventId: EventId, kind: CallbackKind, target: string)

  datatype DispatchStatus = DispatchPending | Delivering | Delivered | DeadLetter

  datatype DispatchEvent = DispatchEvent(status: DispatchStatus, leaseExpiresAt: Option<int>)

  datatype Checkpoint = Checkpoint(privacyVersion: int, expiresAt: int, state: string)

  datatype Artifact = Artifact(summary: Option<string>)

  datatype Record = Record(
    run: Run,
    log: seq<CallbackEvent>,
    outbox: seq<CallbackOutbox>,
    dispatches: seq<DispatchEvent>,
    checkpoints: map<string, Checkpoint>,
    artifacts: seq<Artifact>,
    issued: map<nat, LeaseContext>)

  /** Appends a callback event and its outbox row, numbering it from the Run row. */
  function AppendCallback(rec: Record, kind: CallbackKind): Record {
    var number := rec.run.lastEventSeq + 1;
    var version := if rec.run.statusVersion == 0 then 1 else rec.run.statusVersion;
    var id := EventId(rec.run.runId, number);
    var payload := Payload(id, rec.run.runId, number, version, kind, rec.run.status);
    rec.(run := rec.run.(lastEventSeq := number),
         log := rec.log + [CallbackEvent(id, rec.run.runId, number, version, kind, payload)],
         outbox := rec.outbox + [CallbackOutbox(rec.run.runId, id, kind, rec.run.target)])
  }

  /** Appends a pending run-dispatch outbox row. */
  function AppendDispatch(rec: Record): Record {
    rec.(dispatches := rec.dispatches + [DispatchEvent(DispatchPending, None)])
  }

  /** Where a log holds terminal callback events. */
  function TerminalPositions(log: seq<CallbackEvent>): set<int> {
    set i | 0 <= i < |log| && TerminalKind(log[i].kind)
  }

  function TerminalEvents(log: seq<CallbackEvent>): nat {
    |TerminalPositions(log)|
  }

  lemma TerminalEventsAppend(log: seq<CallbackEvent>, e: CallbackEvent)
    ensures TerminalEvents(log + [e]) == TerminalEvents(log) + if TerminalKind(e.kind) then 1 else 0
  {
    var before, after := TerminalPositions(log), TerminalPositions(log + [e]);
    assert after == if TerminalKind(e.kind) then before + {|log|} else before;
  }

  /** What delivery checks of a stored event before sending it. */
  predicate MatchesCallback(e: CallbackEvent) {
    && e.payload.eventId == e.eventId
    && e.payload.runId == e.runId
    && e.payload.eventSeq == e.eventSeq
    && e.payload.statusVersion == e.statusVersion
    && e.payload.kind == e.kind
  }

  /** Every write gate except package executability. */
  predicate Writable(run: Run, ctx: LeaseContext, now: int) {
    && run.dispatch == Claimed
    && run.leaseOwner == Some(ctx.owner)
    && run.fencingToken == ctx.fencingToken
    && run.privacy == Active
    && run.privacyVersion == ctx.privacyVersion
    && run.authorizationVersion == ctx.authorizationVersion
    && run.cancelRequestedAt == None
    && run.leaseExpiresAt.Some?
    && run.leaseExpiresAt.value > now
    && ctx.expiresAt > now
    && run.deadline > now
  }

  predicate CanWrite(run: Run, ctx: LeaseContext, now: int, packageOk: bool) {
    Writable(run, ctx, now) && packageOk
  }
}
