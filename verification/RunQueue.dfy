/** The worker's side of the queue: claim a Run, execute it, give it back. */
module RunQueue {
  import opened Options
  import opened RunRecords
  import opened Admission
  import opened Lifecycle
  import opened LifecycleSafety
  import opened LifecycleTheorems
  import opened Services
  import opened Callbacks
  import opened Waiting

  predicate HeldBy(w: World, id: string, token: nat) {
    id in w.records && w.records[id].run.dispatch == Claimed && w.records[id].run.fencingToken == token
  }

  /** The Run stays with a worker that can no longer write: only its lease, its deadline, its authorization or its
      package is over, none of which lets the worker itself end the Run. */
  predicate LeftToReaper(rec: Record, token: nat, env: Env) {
    rec.run.cancelRequestedAt == None && rec.run.privacy == Active && !TokenCanWrite(rec, token, env)
  }

  lemma LeavingIsAdmitted(w: World, id: string, rec: Record)
    ensures Apply(w, id, Committed(rec, Some(Move(Claimed, Finished, false)))).records == w.records[id := rec]
  {
  }

  function Ended(w: World, id: string, token: nat, status: Status): World {
    var once := Next(w, Do(id, Action.Finish(token, status)));
    if once != w then once else Next(w, Do(id, Action.FinishInvalid(token)))
  }

  lemma HeldIsIssued(w: World, id: string, token: nat)
    requires Reachable(w) && HeldBy(w, id, token)
    ensures var rec := w.records[id];
            && token in rec.issued && rec.issued[token].fencingToken == token == rec.issued[token].executionAttempt
            && rec.run.leaseOwner == Some(rec.issued[token].owner)
    ensures w.records[id].run.executionAttempt == token
  {
    ReachableInv(w);
    hide Reachable, LogShape, TerminalBalance, Blank, CountsAgree, CapsHold;
    assert RecordInv(w.records[id]);
  }

  lemma FinishLetsGo(w: World, id: string, token: nat, status: Status)
    requires id in w.records && Terminal(status)
    ensures var rec, later := w.records[id], Next(w, Do(id, Action.Finish(token, status)));
            if TokenCanWrite(rec, token, EnvOf(w, rec.run)) then !HeldBy(later, id, token) else later == w
  {
    var rec := w.records[id];
    var out := FinishRun(rec, token, status, EnvOf(w, rec.run));
    if out.Committed? {
      LeavingIsAdmitted(w, id, out.rec);
      hide Transition;
    }
  }

  lemma InvalidLetsGo(w: World, id: string, token: nat)
    requires Reachable(w) && HeldBy(w, id, token)
    ensures var rec, later := w.records[id], Next(w, Do(id, Action.FinishInvalid(token)));
            if rec.run.cancelRequestedAt == None && rec.run.privacy == Active then later == w
            else !HeldBy(later, id, token)
  {
    HeldIsIssued(w, id, token);
    var rec := w.records[id];
    var out := FinishInvalidRun(rec, token);
    if out.Committed? {
      LeavingIsAdmitted(w, id, out.rec);
      hide Transition;
    }
  }

  /** A worker with a terminal result ends its hold on the Run, unless exactly the reaper's cases apply. */
  lemma WorkerLetsGo(w: World, id: string, token: nat, status: Status)
    requires Reachable(w) && HeldBy(w, id, token) && Terminal(status)
    ensures HeldBy(Ended(w, id, token, status), id, token)
            <==> LeftToReaper(w.records[id], token, EnvOf(w, w.records[id].run))
  {
    hide Reachable, Next, TokenCanWrite;
    FinishLetsGo(w, id, token, status);
    InvalidLetsGo(w, id, token);
    WriterNotCancelled(w.records[id], token, EnvOf(w, w.records[id].run));
  }

  lemma WriterNotCancelled(rec: Record, token: nat, env: Env)
    ensures TokenCanWrite(rec, token, env) ==> rec.run.cancelRequestedAt == None && rec.run.privacy == Active
  {
  }

  /** The stranding family of `RetryStrands` is entered by a cancel on a failed Run, which changes nothing else:
      the retry that follows queues a Run that no worker can claim. */
  lemma CancelledFailureStrands(rec: Record, env: Env, owner: string, secs: int)
    requires RecordInv(rec) && rec.run.status == Failed && rec.run.privacy == Active && rec.run.manualRetries < 3
    requires rec.checkpoints != map[] && env.packageOk
    ensures var cancelled := Act(rec, Action.Cancel(rec.run.caller), env);
            && cancelled.Committed? && cancelled.rec.run.status == Failed
            && var retried := Act(cancelled.rec, Action.Retry(true, true, None, false), env);
               && retried.Committed? && retried.rec.run.dispatch == Queued
               && Act(retried.rec, Action.Claim(owner, secs), env) == Refused
  {
    hide LogShape, TerminalBalance, LeaseInv, Blank;
    assert Joint(rec.run);
  }

  /** What the executor hands back. */
  datatype Result = Ended(status: Status) | Waiting

  class RunQueueService {
    const session: Session
    const lease: LeaseService
    const workerId: string

    constructor (session: Session, lease: LeaseService, workerId: string)
      requires lease.session == session
      ensures this.session == session && this.lease == lease && this.workerId == workerId
    {
      this.session, this.lease, this.workerId := session, lease, workerId;
    }

    /** Everything that this execution and all other actors commit while the executor runs. */
    method Meantime(steps: seq<Step>)
      modifies session
      ensures session.State() == Execute(old(session.State()), steps)
    {
      ExecuteApi(session.State(), steps);
      hide Execute;
      var later := Execute(session.State(), steps);
      session.now, session.definitions := later.now, later.definitions;
      session.records, session.buckets := later.records, later.buckets;
    }

    /** Consumes one queue message.  The status that chooses between resuming and starting over is read before the
        claim, with `between` in between; `claimed` is the Run as the claim found it. */
    method Consume(id: string, draining: bool, between: seq<Step>, meantime: seq<Step>, result: Result,
                   drainingAfter: bool)
      returns (consumed: bool, resumed: bool, token: nat, claimed: Option<Record>)
      requires lease.session == session && Reachable(session.State())
      requires result.Ended? ==> Terminal(result.status)
      modifies session
      ensures Reachable(session.State())
      ensures consumed ==> !draining
      ensures !consumed ==> session.State() == if draining then old(session.State())
                                               else Execute(old(session.State()), between)
      // Resumes by the status read; the Run claimed is pending or has waited for a person.
      ensures consumed ==>
                && resumed == (id in old(session.records)
                               && (old(session.records)[id].run.status == WaitingHuman
                                   || old(session.records)[id].run.status == Partial))
                && claimed.Some?
                && (claimed.value.run.status == Pending || claimed.value.run.status == WaitingHuman)
      // Which is the wrong choice exactly when the events since the read say so: the last one that is not about a step.
      ensures consumed && id in old(session.records) ==>
                && old(session.records)[id].log <= claimed.value.log
                && var mark := LastMark(Since(old(session.records)[id].log, claimed.value.log));
                   resumed != (claimed.value.run.status == WaitingHuman)
                   <==> match old(session.records)[id].run.status
                        case WaitingHuman => mark.Some? && mark != Some(AwaitingHuman)
                        case Partial => mark != Some(AwaitingHuman)
                        case _ => mark == Some(AwaitingHuman)
      // Never while the Run's version did not move.
      ensures consumed && id in old(session.records)
                && claimed.value.run.statusVersion == old(session.records)[id].run.statusVersion ==>
                resumed == (claimed.value.run.status == WaitingHuman)
      // With a terminal result the worker is off the Run, or the Run is the reaper's.
      ensures consumed && result.Ended? && HeldBy(session.State(), id, token) ==>
                LeftToReaper(session.records[id], token, EnvOf(session.State(), session.records[id].run))
    {
      hide Reachable, Execute, Next, TokenCanWrite, LastMark;
      token, claimed := 0, None;
      if draining {
        return false, false, token, claimed;
      }
      resumed := id in session.records
                 && (session.records[id].run.status == WaitingHuman || session.records[id].run.status == Partial);
      ghost var read := session.State();
      StepsReachable(read, between);
      Meantime(between);
      ghost var before := session.State();
      SameVersionSameStatus(read, between, id);
      if id in read.records {
        WaitingSince(read, between, id);
      }
      if id in session.records {
        claimed := Some(session.records[id]);
      }
      var context := lease.Claim(id, workerId);
      if context.None? {
        return false, resumed, token, claimed;
      }
      DoIsStep(before, id, Action.Claim(workerId, lease.leaseSeconds));
      ClaimedFrom(before.records[id], workerId, lease.leaseSeconds, EnvOf(before, before.records[id].run));
      StepReachable(before, Do(id, Action.Claim(workerId, lease.leaseSeconds)));
      token := session.records[id].run.fencingToken;
      StepsReachable(session.State(), meantime);
      Meantime(meantime);
      consumed := true;
      if result.Ended? {
        Conclude(id, token, result.status);
      } else if drainingAfter {
        DoIsStep(session.State(), id, Action.Drain(token));
        StepReachable(session.State(), Do(id, Action.Drain(token)));
        var _ := lease.ReleaseForDrain(id, token);
      }
    }

    /** Reports a terminal result; when it comes too late, the worker still gives up a cancelled or purged Run. */
    method Conclude(id: string, token: nat, status: Status)
      requires lease.session == session && Reachable(session.State()) && Terminal(status)
      modifies session
      ensures Reachable(session.State())
      ensures HeldBy(session.State(), id, token) ==>
                LeftToReaper(session.records[id], token, EnvOf(session.State(), session.records[id].run))
    {
      hide Reachable, Next;
      ghost var before := session.State();
      DoIsStep(before, id, Action.Finish(token, status));
      StepReachable(before, Do(id, Action.Finish(token, status)));
      if HeldBy(before, id, token) {
        FinishLetsGo(before, id, token, status);
        WorkerLetsGo(before, id, token, status);
      } else {
        NoNewHold(before, id, token, status);
      }
      var finished := lease.Finish(id, token, status);
      if !finished {
        DoIsStep(session.State(), id, Action.FinishInvalid(token));
        StepReachable(session.State(), Do(id, Action.FinishInvalid(token)));
        var _ := lease.FinishAfterInvalidBoundary(id, token);
      }
    }
  }

  lemma SameVersionSameStatus(w: World, steps: seq<Step>, id: string)
    requires Reachable(w)
    ensures var later := Execute(w, steps);
            id in w.records ==>
              && id in later.records
              && (later.records[id].run.statusVersion == w.records[id].run.statusVersion ==>
                    later.records[id].run.status == w.records[id].run.status)
  {
    hide Reachable, Execute;
    if id in w.records {
      LogExact(w, steps, id);
    }
  }

  lemma DoIsStep(w: World, id: string, a: Action)
    ensures Next(w, Do(id, a))
            == Apply(w, id, if id in w.records then Act(w.records[id], a, EnvOf(w, w.records[id].run)) else Refused)
  {
    hide Act;
  }

  /** A claim succeeds only on a pending Run or on one that had waited for a person. */
  lemma ClaimedFrom(rec: Record, owner: string, secs: int, env: Env)
    requires Act(rec, Action.Claim(owner, secs), env).Committed?
    ensures rec.run.status == Pending || rec.run.status == WaitingHuman
  {
  }

  /** Neither way of ending a hold creates one. */
  lemma NoNewHold(w: World, id: string, token: nat, status: Status)
    requires Terminal(status) && !HeldBy(w, id, token)
    ensures !HeldBy(Next(w, Do(id, Action.Finish(token, status))), id, token)
    ensures !HeldBy(Next(w, Do(id, Action.FinishInvalid(token))), id, token)
  {
    hide Transition;
  }
}
