/** What a Run's callbacks say: each tells the status it was sent under, and together they tell the Run's. */
module Callbacks {
  import opened Options
  import opened RunRecords
  import opened Admission
  import opened Lifecycle
  import opened LifecycleSafety
  import opened LifecycleTheorems

  /** The last event that is not about a single step. */
  function LastMark(log: seq<CallbackEvent>): Option<CallbackKind> {
    if log == [] then None
    else if log[|log| - 1].kind != StepChanged then Some(log[|log| - 1].kind)
    else LastMark(log[..|log| - 1])
  }

  /** An event ends the Run in its name exactly if it does in its payload, and in the same way. */
  predicate TellsTruth(e: CallbackEvent) {
    && (e.kind == RunSucceeded <==> e.payload.status == Succeeded)
    && (e.kind == PartialSucceeded <==> e.payload.status == Partial)
    && (e.kind == RunFailed <==> e.payload.status == Failed)
    && (e.kind == RunCancelled <==> e.payload.status == Cancelled)
    && (e.kind == RunStarted ==> e.payload.status == Running)
    && (e.kind == AwaitingHuman ==> e.payload.status == WaitingHuman)
  }

  /** What a Run's status and the last mark of its log say of each other; only a retry takes a mark's status back. */
  predicate Announced(status: Status, mark: Option<CallbackKind>) {
    && (status == WaitingHuman <==> mark == Some(AwaitingHuman))
    && (status == Succeeded <==> mark == Some(RunSucceeded))
    && (status == Cancelled <==> mark == Some(RunCancelled))
    && (status == Failed ==> mark == Some(RunFailed))
    && (status == Partial ==> mark == Some(PartialSucceeded))
    && (status == Running ==> mark == Some(RunStarted))
  }

  ghost predicate Told(rec: Record) {
    Announced(rec.run.status, LastMark(rec.log)) && forall e :: e in rec.log ==> TellsTruth(e)
  }

  /** The kind of event that goes with reaching each status. */
  predicate Suits(kind: CallbackKind, status: Status) {
    match kind
    case RunStarted => status == Running
    case AwaitingHuman => status == WaitingHuman
    case RunSucceeded => status == Succeeded
    case PartialSucceeded => status == Partial
    case RunFailed => status == Failed
    case RunCancelled => status == Cancelled
    case StepChanged => false
  }

  lemma Appended(rec: Record, kind: CallbackKind)
    ensures var after := AppendCallback(rec, kind);
            && LastMark(after.log) == (if kind != StepChanged then Some(kind) else LastMark(rec.log))
            && after.run.status == rec.run.status && |after.log| == |rec.log| + 1 && after.log[..|rec.log|] == rec.log
            && var e := after.log[|rec.log|]; e.kind == kind && e.payload.status == rec.run.status
  {
    var log := AppendCallback(rec, kind).log;
    assert log[..|log| - 1] == rec.log;
  }

  /** An event that suits the status it is appended under, or a step's under the same live status, keeps all true. */
  lemma AppendTold(rec: Record, run: Run, kind: CallbackKind)
    requires Told(rec)
    requires Suits(kind, run.status) || (kind == StepChanged && run.status == rec.run.status && !Terminal(run.status))
    ensures Told(AppendCallback(rec.(run := run), kind))
  {
    hide AppendCallback, LastMark;
    Appended(rec.(run := run), kind);
    var log := AppendCallback(rec.(run := run), kind).log;
    forall e | e in log ensures TellsTruth(e) {
      if e in log[..|rec.log|] {
        assert e in rec.log;
      } else {
        assert e == log[|rec.log|];
      }
    }
  }

  /** An action that appends no event. */
  predicate Silent(a: Action) {
    || a.Claim? || a.Heartbeat? || a.Drain? || a.WriteCheckpoint? || a.DropCheckpoints? || a.WriteArtifact? || a.Guard?
    || a.AskCancel? || a.Elapse? || a.Start? || a.Purge? || a.FinishPurge? || a.Retry? || a.RequestStop? || a.Requeue?
    || a.Redispatch? || a.Dispatcher?
  }

  /** Of those only a retry changes the status, and it takes back a failure or a partial success. */
  lemma SilentStatus(rec: Record, a: Action, env: Env)
    requires Silent(a)
    ensures var out := Act(rec, a, env);
            out.Committed? ==>
              && out.rec.log == rec.log
              && (|| out.rec.run.status == rec.run.status
                  || (out.rec.run.status == Pending && (rec.run.status == Failed || rec.run.status == Partial)))
  {
  }

  lemma SilentTold(rec: Record, a: Action, env: Env)
    requires Told(rec) && Silent(a)
    ensures var out := Act(rec, a, env); out.Committed? ==> Told(out.rec)
  {
    hide LastMark, Act, TellsTruth;
    SilentStatus(rec, a, env);
  }

  lemma FinishTold(rec: Record, token: nat, status: Status, env: Env)
    requires Told(rec)
    ensures var out := FinishRun(rec, token, status, env); out.Committed? ==> Told(out.rec)
    ensures var out := FinishInvalidRun(rec, token); out.Committed? ==> Told(out.rec)
  {
    hide AppendCallback, Told;
    if Terminal(status) {
      AppendTold(rec, Released(rec.run, status), TerminalCallback(status));
    }
    AppendTold(rec, Released(rec.run, Cancelled), RunCancelled);
  }

  lemma TerminateTold(rec: Record, seen: Run, status: Status)
    requires Told(rec)
    ensures var out := TerminateRun(rec, seen, status); out.Committed? ==> Told(out.rec)
  {
    hide AppendCallback, Told;
    if Terminal(status) {
      AppendTold(rec, Terminated(rec.run, status), TerminalCallback(status));
    }
  }

  lemma PauseTold(rec: Record, token: nat, secs: int, env: Env)
    requires Told(rec)
    ensures var out := PauseRun(rec, token, secs, env); out.Committed? ==> Told(out.rec)
  {
    hide AppendCallback, Told;
    AppendTold(rec, Released(rec.run, WaitingHuman).(waitingExpiresAt := Some(env.now + secs * SECOND)), AwaitingHuman);
  }

  lemma CancelTold(rec: Record, caller: string, env: Env)
    requires Told(rec)
    ensures var out := CancelRun(rec, caller, env); out.Committed? ==> Told(out.rec)
  {
    AppendTold(rec, Terminated(rec.run.(cancelRequestedAt := Some(env.now)), Cancelled), RunCancelled);
    hide AppendCallback, LastMark, TellsTruth;
  }

  lemma ApproveTold(rec: Record, caller: string, approve: bool, version: int, env: Env)
    requires Told(rec)
    ensures var out := ApproveRun(rec, caller, approve, version, env); out.Committed? ==> Told(out.rec)
  {
    AppendTold(rec, Terminated(rec.run, Failed), RunFailed);
    hide AppendCallback, LastMark, TellsTruth;
  }

  lemma ReapTold(rec: Record, seen: Status, at: int, packageSeen: bool)
    requires Told(rec)
    ensures var out := ReapRun(rec, seen, at, packageSeen); out.Committed? ==> Told(out.rec)
  {
    AppendTold(rec, Released(rec.run, Cancelled), RunCancelled);
    hide AppendCallback, LastMark, TellsTruth;
  }

  lemma WriteTold(rec: Record, token: nat, env: Env)
    requires Told(rec) && Joint(rec.run)
    ensures var out := MarkRunning(rec, token, env); out.Committed? ==> Told(out.rec)
    ensures var out := ReportStep(rec, token, env); out.Committed? ==> Told(out.rec)
  {
    hide AppendCallback, Told;
    AppendTold(rec, rec.run.(status := Running, statusVersion := rec.run.statusVersion + 1), RunStarted);
    assert rec.(run := rec.run) == rec;
    if TokenCanWrite(rec, token, env) {
      AppendTold(rec, rec.run, StepChanged);
    }
  }

  lemma ActTold(rec: Record, a: Action, env: Env)
    requires Told(rec) && Joint(rec.run)
    ensures var out := Act(rec, a, env); out.Committed? ==> Told(out.rec)
  {
    hide Told, Joint;
    if Silent(a) {
      SilentTold(rec, a, env);
    } else {
      match a
      case Finish(token, status) => FinishTold(rec, token, status, env);
      case FinishInvalid(token) => FinishTold(rec, token, Failed, env);
      case Terminate(seen, status) => TerminateTold(rec, seen, status);
      case Pause(token, secs) => PauseTold(rec, token, secs, env);
      case Cancel(caller) => CancelTold(rec, caller, env);
      case Approve(caller, approve, version) => ApproveTold(rec, caller, approve, version, env);
      case Reap(seen, at, packageSeen) => ReapTold(rec, seen, at, packageSeen);
      case WriteRunning(token) => WriteTold(rec, token, env);
      case WriteStep(token) => WriteTold(rec, token, env);
    }
  }

  ghost predicate AllTold(w: World) {
    forall id :: id in w.records ==> Told(w.records[id])
  }

  lemma ApplyTold(w: World, id: string, out: Outcome)
    requires AllTold(w) && (out.Committed? ==> Told(out.rec))
    ensures AllTold(Apply(w, id, out))
  {
    hide Told, Transition;
  }

  lemma JointIn(w: World, id: string)
    requires WorldInv(w) && id in w.records
    ensures Joint(w.records[id].run)
  {
    assert RecordInv(w.records[id]);
  }

  lemma NextTold(w: World, step: Step)
    requires AllTold(w) && WorldInv(w)
    ensures AllTold(Next(w, step))
  {
    hide WorldInv;
    match step
    case Create(id, q) =>
      if id !in w.records {
        ApplyTold(w, id, CreateRun(id, q, w.definitions, w.now));
        hide Apply;
      }
    case Do(id, a) =>
      if id in w.records {
        hide Act, Apply, Told;
        JointIn(w, id);
        ActTold(w.records[id], a, EnvOf(w, w.records[id].run));
        ApplyTold(w, id, Act(w.records[id], a, EnvOf(w, w.records[id].run)));
      }
    case _ =>
  }

  lemma {:induction false} ExecuteTold(w: World, steps: seq<Step>)
    requires AllTold(w) && WorldInv(w)
    ensures AllTold(Execute(w, steps)) && WorldInv(Execute(w, steps))
    decreases |steps|
  {
    hide AllTold, Next, WorldInv;
    if steps != [] {
      ExecuteTold(w, steps[..|steps| - 1]);
      NextTold(Execute(w, steps[..|steps| - 1]), steps[|steps| - 1]);
      NextSafe(Execute(w, steps[..|steps| - 1]), steps[|steps| - 1]);
    }
  }

  lemma ReachableTold(w: World, id: string)
    requires Reachable(w) && id in w.records
    ensures Told(w.records[id])
  {
    hide Execute, Told, WorldInv;
    var now, api, steps :| w == Execute(Init(now, api), steps);
    NoSteps(Init(now, api));
    assert Init(now, api) == Execute(Init(now, api), []);
    ReachableInv(Init(now, api));
    ExecuteTold(Init(now, api), steps);
  }

  lemma NoSteps(w: World)
    ensures Execute(w, []) == w
  {
  }

  /** The payload status of the last event that ends a Run. */
  function LastEnd(log: seq<CallbackEvent>): Option<Status> {
    if log == [] then None
    else if TerminalKind(log[|log| - 1].kind) then Some(log[|log| - 1].payload.status)
    else LastEnd(log[..|log| - 1])
  }

  lemma {:induction false} MarkIsEnd(log: seq<CallbackEvent>)
    requires LastMark(log).Some? && TerminalKind(LastMark(log).value) && forall e :: e in log ==> TellsTruth(e)
    ensures LastEnd(log).Some? && Suits(LastMark(log).value, LastEnd(log).value)
    decreases |log|
  {
    var last := log[|log| - 1];
    assert last in log && TellsTruth(last);
    if last.kind == StepChanged {
      MarkIsEnd(log[..|log| - 1]);
    }
  }

  /** Callbacks tell the truth: in every reachable state each event of a Run's log names the way of ending, if any, that
      its payload shows, and a Run that has ended shows, in the last event that ends one, the status it is in. */
  lemma CallbacksTrue(w: World, id: string)
    requires Reachable(w) && id in w.records
    ensures var rec := w.records[id];
            && (forall e :: e in rec.log ==>
                  && (e.kind == RunSucceeded <==> e.payload.status == Succeeded)
                  && (e.kind == PartialSucceeded <==> e.payload.status == Partial)
                  && (e.kind == RunFailed <==> e.payload.status == Failed)
                  && (e.kind == RunCancelled <==> e.payload.status == Cancelled))
            && (Terminal(rec.run.status) ==> LastEnd(rec.log) == Some(rec.run.status))
  {
    hide Reachable, LastMark, LastEnd;
    ReachableTold(w, id);
    var rec := w.records[id];
    forall e | e in rec.log
      ensures && (e.kind == RunSucceeded <==> e.payload.status == Succeeded)
              && (e.kind == PartialSucceeded <==> e.payload.status == Partial)
              && (e.kind == RunFailed <==> e.payload.status == Failed)
              && (e.kind == RunCancelled <==> e.payload.status == Cancelled)
    {
      assert TellsTruth(e);
    }
    if Terminal(rec.run.status) {
      MarkIsEnd(rec.log);
    }
  }
}
