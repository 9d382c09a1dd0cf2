/** What one pass of the reconciler does to each Run, as one table over the Run's own fields. */
module ReconcilerEffects {
  import opened Options
  import opened RunRecords
  import opened Admission
  import opened Lifecycle
  import opened LifecycleSafety
  import opened LifecycleTheorems
  import opened Callbacks
  import opened Reconciliation
  import opened ReconcilerRaises

  // ----- The table -----

  datatype Fate = Stays | AskedToStop | Redispatched | BackToQueue | Ends(status: Status)

  /** Out of time: past the deadline, or worked as long as the plan allows. */
  predicate Late(run: Run, now: int) {
    || run.deadline <= now
    || (&& run.plan.maxRunSeconds.Some? && 0 <= run.plan.maxRunSeconds.value
        && run.plan.maxRunSeconds.value * 1000 <= run.activeElapsedMs)
  }

  predicate Unauthorized(run: Run, resolved: Option<int>) {
    resolved.Some? && resolved.value != run.authorizationVersion
  }

  predicate LeaseLapsed(run: Run, now: int) {
    run.dispatch == Claimed && run.leaseExpiresAt.Some? && run.leaseExpiresAt.value < now
  }

  predicate Due(at: Option<int>, now: int) {
    at.Some? && at.value <= now
  }

  predicate QueuedTooLong(run: Run, now: int) {
    && run.queuedAt.Some? && run.plan.queueTtlSeconds.Some? && 0 < run.plan.queueTtlSeconds.value
    && run.plan.queueTtlSeconds.value * 1_000_000 <= now - run.queuedAt.value
  }

  /** Some dispatch event is on its way: pending, or being delivered under a lease that is not over. */
  predicate OnItsWay(events: seq<DispatchEvent>, now: int) {
    exists e :: e in events
      && (e.status == DispatchPending
          || (e.status == Delivering && e.leaseExpiresAt.Some? && now < e.leaseExpiresAt.value))
  }

  predicate Dead(events: seq<DispatchEvent>) {
    exists e :: e in events && e.status == DeadLetter
  }

  /** A purge is completed once nothing runs any more, as it does not when the reaper ends the Run. */
  predicate PurgeDue(run: Run, now: int, packageOk: bool) {
    run.privacy == PurgeRequested && (run.dispatch == Finished || (LeaseLapsed(run, now) && !packageOk))
  }

  function QueuedFate(rec: Record, now: int): Fate {
    if rec.run.status != Pending then Stays
    else if QueuedTooLong(rec.run, now) || Dead(rec.dispatches) then Ends(Failed)
    else if OnItsWay(rec.dispatches, now) then Stays
    else Redispatched
  }

  function ParkedFate(run: Run, now: int): Fate {
    if !Due(run.waitingExpiresAt, now) then Stays
    else
      match run.plan.timeoutAction
      case ActionFallback => if run.plan.fallbackTargetValid then BackToQueue else Ends(Failed)
      case ActionCancelled => Ends(Cancelled)
      case _ => Ends(Failed)
  }

  /** The table: what becomes of a Run in a pass at `now`. */
  function FateOf(rec: Record, now: int, packageOk: bool, resolved: Option<int>): Fate {
    var run := rec.run;
    var barred := Unauthorized(run, resolved) || !packageOk;
    if LeaseLapsed(run, now) then
      if !packageOk then Ends(Cancelled)
      else if Late(run, now) then Ends(Failed)
      else if barred then Ends(Cancelled)
      else if run.status != WaitingHuman && Dead(rec.dispatches) then Ends(Failed)
      else BackToQueue
    else if run.dispatch == Claimed then
      if (Late(run, now) || barred) && run.cancelRequestedAt == None then AskedToStop else Stays
    else if Terminal(run.status) || (run.dispatch == Finished && run.privacy == PurgeRequested) then Stays
    else if Late(run, now) then Ends(Failed)
    else if barred then Ends(Cancelled)
    else
      match run.dispatch
      case Held => if Due(run.heldExpiresAt, now) then Ends(Cancelled) else Stays
      case Queued => QueuedFate(rec, now)
      case _ => ParkedFate(run, now)
  }

  predicate ToBeSent(events: seq<DispatchEvent>) {
    exists e :: e in events && e.status == DispatchPending
  }

  /** The Run left the queue, the worker or the waiting room for good, with one callback that says how. */
  predicate EndedAs(rec: Record, after: Record, status: Status) {
    && after.run.status == status && after.run.dispatch == Finished
    && after.run.leaseOwner == None && after.run.leaseExpiresAt == None
    && after.run.statusVersion > rec.run.statusVersion
    && |after.log| == |rec.log| + 1 && after.log[..|rec.log|] == rec.log
    && Suits(after.log[|rec.log|].kind, status) && after.log[|rec.log|].payload.status == status
  }

  /** The Run is in the queue again, to be resumed if it had waited for a person, and to be dispatched. */
  predicate QueuedAgain(rec: Record, after: Record, now: int) {
    && after.run.dispatch == Queued && after.run.queuedAt == Some(now)
    && after.run.status == (if rec.run.status == WaitingHuman then WaitingHuman else Pending)
    && after.run.leaseOwner == None && after.run.leaseExpiresAt == None
    && after.dispatches == rec.dispatches + [DispatchEvent(DispatchPending, None)] && after.log == rec.log
  }

  predicate Meets(rec: Record, after: Record, fate: Fate, now: int) {
    match fate
    case Stays => after == rec
    case AskedToStop => after == rec.(run := rec.run.(cancelRequestedAt := Some(now)))
    case Redispatched => after == rec.(dispatches := after.dispatches) && ToBeSent(after.dispatches)
    case BackToQueue => QueuedAgain(rec, after, now) && (Parked(rec.run) ==> after.run.waitingExpiresAt == None)
    case Ends(status) => EndedAs(rec, after, status)
  }

  /** As `rec`, with everything private emptied. */
  function Emptied(rec: Record): Record {
    rec.(run := rec.run.(input := map[], privacy := Purged), checkpoints := map[],
         artifacts := seq(|rec.artifacts|, i => Artifact(None)))
  }

  /** The Run met its fate, and lost its content if its purge was due. */
  predicate Fulfils(rec: Record, after: Record, now: int, packageOk: bool, resolved: Option<int>) {
    var fate := FateOf(rec, now, packageOk, resolved);
    if PurgeDue(rec.run, now, packageOk) then
      && after.run.privacy == Purged && Blank(after)
      && (if fate.Ends? then EndedAs(rec, after, fate.status) else fate == Stays && after == Emptied(rec))
    else Meets(rec, after, fate, now)
  }

  // ----- One Run through the three phases -----

  /** The Run after all three phases, each by its own decision. */
  function ThreePhases(rec: Record, env: Env, resolved: map<string, int>): Record {
    Repaired(Burying, Repaired(Repairing(resolved), Repaired(Reaping, rec, env), env), env)
  }

  function Resolved(run: Run, resolved: map<string, int>): Option<int> {
    if run.runId in resolved then Some(resolved[run.runId]) else None
  }

  lemma TerminatedEnds(rec: Record, status: Status)
    requires Joint(rec.run) && Unheld(rec.run) && (status == Failed || status == Cancelled)
    ensures var out := TerminateRun(rec, rec.run, status); out.Committed? && EndedAs(rec, out.rec, status)
  {
  }

  lemma DispatchGap(events: seq<DispatchEvent>, now: int)
    ensures NeedsDispatch(events, now) <==> !OnItsWay(events, now) && !Dead(events)
    ensures HasDeadLetter(events) <==> Dead(events)
  {
  }

  lemma SameClocks(run: Run, now: int)
    ensures Late(run, now) <==> run.deadline <= now || ActiveTimeSpent(run)
    ensures QueuedTooLong(run, now) <==> QueueTimeSpent(run, now)
  {
  }

  /** What the repairing phase decides for a Run whose lease, if any, has not lapsed. */
  lemma RepairExact(rec: Record, now: int, packageOk: bool, resolved: Option<int>)
    requires Joint(rec.run) && !LeaseLapsed(rec.run, now)
    ensures var run, d := rec.run, Repair(rec, now, packageOk, resolved);
            if PurgeDue(run, now, packageOk) then d == Some(FinishPurge)
            else
              match FateOf(rec, now, packageOk, resolved)
              case Stays => d == None && !(run.status == Pending && run.dispatch == Queued && Dead(rec.dispatches))
              case AskedToStop => d == Some(RequestStop(run, now)) && run.dispatch == Claimed
              case Redispatched => d == Some(Redispatch) && run.dispatch == Queued && !Dead(rec.dispatches)
              case BackToQueue => d == Some(Requeue(run, now)) && Parked(run)
              case Ends(status) =>
                && Unheld(run) && (status == Failed || status == Cancelled)
                && (|| d == Some(Terminate(run, status))
                    || (&& d == None && status == Failed
                        && run.status == Pending && run.dispatch == Queued && Dead(rec.dispatches)))
  {
    DispatchGap(rec.dispatches, now);
    SameClocks(rec.run, now);
    hide NeedsDispatch, OnItsWay, Dead, Late, ActiveTimeSpent, QueueTimeSpent, QueuedTooLong;
  }

  lemma Redispatches(rec: Record, now: int)
    requires !Dead(rec.dispatches)
    ensures var after := RepairDispatch(rec).rec;
            && after == rec.(dispatches := after.dispatches) && ToBeSent(after.dispatches) && !Dead(after.dispatches)
  {
    var after := RepairDispatch(rec).rec;
    if rec.dispatches == [] {
      assert after.dispatches[0].status == DispatchPending;
    } else {
      assert after.dispatches[|rec.dispatches| - 1].status == DispatchPending;
    }
  }

  /** A phase carries out what it decides. */
  lemma PhaseActs(phase: Phase, rec: Record, env: Env)
    ensures var d, after := Decide(phase, rec, env), Repaired(phase, rec, env);
            && (d == None ==> after == rec)
            && (d.Some? && Act(rec, d.value, env).Committed? ==> after == Act(rec, d.value, env).rec)
  {
    hide Decide, Act;
  }

  /** Nothing for the burying phase to do. */
  lemma Unburied(rec: Record, env: Env)
    requires rec.run.status != Pending || rec.run.dispatch != Queued || !Dead(rec.dispatches)
    ensures Repaired(Burying, rec, env) == rec
  {
    DispatchGap(rec.dispatches, env.now);
    hide HasDeadLetter, Dead;
  }

  lemma BuriedEnds(rec: Record, env: Env)
    requires Joint(rec.run) && rec.run.status == Pending && rec.run.dispatch == Queued && Dead(rec.dispatches)
    ensures EndedAs(rec, Repaired(Burying, rec, env), Failed)
  {
    DispatchGap(rec.dispatches, env.now);
    hide HasDeadLetter, Dead, EndedAs, TerminateRun;
    TerminatedEnds(rec, Failed);
    PhaseActs(Burying, rec, env);
    hide Repaired;
  }

  lemma StopActs(rec: Record, env: Env)
    requires rec.run.dispatch == Claimed && rec.run.cancelRequestedAt == None
    ensures Act(rec, RequestStop(rec.run, env.now), env)
            == Committed(rec.(run := rec.run.(cancelRequestedAt := Some(env.now))), None)
  {
  }

  lemma RequeueActs(rec: Record, env: Env)
    requires Joint(rec.run) && Parked(rec.run)
    ensures var out := Act(rec, Requeue(rec.run, env.now), env);
            out.Committed? && QueuedAgain(rec, out.rec, env.now) && out.rec.run.waitingExpiresAt == None
  {
  }

  lemma PurgeActs(rec: Record, env: Env)
    requires rec.run.privacy == PurgeRequested
    ensures Act(rec, FinishPurge, env) == Committed(Emptied(rec), None) && Blank(Emptied(rec))
  {
  }

  /** What the repairing phase leaves of a Run whose lease has not lapsed, burying still to come. */
  lemma RepairedMeets(rec: Record, env: Env, resolved: map<string, int>)
    requires Joint(rec.run) && !LeaseLapsed(rec.run, env.now) && !PurgeDue(rec.run, env.now, env.packageOk)
    ensures var fate := FateOf(rec, env.now, env.packageOk, Resolved(rec.run, resolved));
            var after := Repaired(Repairing(resolved), rec, env);
            || (&& Meets(rec, after, fate, env.now)
                && (after.run.status != Pending || after.run.dispatch != Queued || !Dead(after.dispatches)))
            || (&& after == rec && fate == Ends(Failed)
                && rec.run.status == Pending && rec.run.dispatch == Queued && Dead(rec.dispatches))
  {
    var given := Resolved(rec.run, resolved);
    RepairExact(rec, env.now, env.packageOk, given);
    assert Decide(Repairing(resolved), rec, env) == Repair(rec, env.now, env.packageOk, given);
    hide Repair, FateOf, Dead, ToBeSent, LeaseLapsed, PurgeDue, Joint, Repaired, Decide, Act, EndedAs, QueuedAgain;
    PhaseActs(Repairing(resolved), rec, env);
    match FateOf(rec, env.now, env.packageOk, given)
    case Stays =>
    case AskedToStop => StopActs(rec, env);
    case Redispatched => RedispatchActs(rec, env);
    case BackToQueue => RequeueActs(rec, env);
    case Ends(status) => EndActs(rec, status, env);
  }

  lemma RedispatchActs(rec: Record, env: Env)
    requires !Dead(rec.dispatches)
    ensures var out := Act(rec, Redispatch, env);
            && out.Committed? && out.rec == rec.(dispatches := out.rec.dispatches)
            && ToBeSent(out.rec.dispatches) && !Dead(out.rec.dispatches)
  {
    Redispatches(rec, env.now);
  }

  lemma EndActs(rec: Record, status: Status, env: Env)
    requires Joint(rec.run) && Unheld(rec.run) && (status == Failed || status == Cancelled)
    ensures var out := Act(rec, Terminate(rec.run, status), env); out.Committed? && EndedAs(rec, out.rec, status)
  {
    hide TerminateRun, EndedAs;
    TerminatedEnds(rec, status);
  }

  /** A Run whose lease has not lapsed goes through the repairing and the burying phase as the table says. */
  lemma UnlapsedFulfils(rec: Record, env: Env, resolved: map<string, int>)
    requires Joint(rec.run) && !LeaseLapsed(rec.run, env.now)
    ensures Fulfils(rec, Repaired(Burying, Repaired(Repairing(resolved), rec, env), env), env.now, env.packageOk,
                    Resolved(rec.run, resolved))
  {
    hide Repair, Dead, LeaseLapsed, Joint, Repaired, Act, EndedAs, QueuedAgain, ToBeSent, Blank;
    var after := Repaired(Repairing(resolved), rec, env);
    if PurgeDue(rec.run, env.now, env.packageOk) {
      RepairExact(rec, env.now, env.packageOk, Resolved(rec.run, resolved));
      PhaseActs(Repairing(resolved), rec, env);
      PurgeActs(rec, env);
      Unburied(after, env);
    } else {
      RepairedMeets(rec, env, resolved);
      hide FateOf;
      if after.run.status != Pending || after.run.dispatch != Queued || !Dead(after.dispatches) {
        Unburied(after, env);
      } else {
        BuriedEnds(rec, env);
      }
    }
  }

  /** What no phase touches: the plan, the clocks and the authority the table reads. */
  predicate SameTerms(a: Run, b: Run) {
    && b.plan == a.plan && b.deadline == a.deadline && b.activeElapsedMs == a.activeElapsedMs
    && b.authorizationVersion == a.authorizationVersion && b.privacy == a.privacy && b.runId == a.runId
    && b.agent == a.agent && b.agentVersion == a.agentVersion && b.digest == a.digest
  }

  lemma ReapPhase(rec: Record, env: Env)
    requires Joint(rec.run) && LeaseLapsed(rec.run, env.now)
    ensures var mid := Repaired(Reaping, rec, env);
            && Joint(mid.run) && SameTerms(rec.run, mid.run) && mid.run.statusVersion >= rec.run.statusVersion
            && (if env.packageOk then QueuedAgain(rec, mid, env.now) else EndedAs(rec, mid, Cancelled))
  {
    hide Joint, QueuedAgain, EndedAs, ReapRun;
    PhaseActs(Reaping, rec, env);
    if env.packageOk {
      TakenBack(rec, env.now);
    } else {
      TakenAway(rec, env.now);
    }
  }

  lemma TakenBack(rec: Record, now: int)
    requires Joint(rec.run) && LeaseLapsed(rec.run, now)
    ensures var out := ReapRun(rec, rec.run.status, now, true);
            && out.Committed? && QueuedAgain(rec, out.rec, now) && Joint(out.rec.run)
            && SameTerms(rec.run, out.rec.run) && out.rec.run.statusVersion >= rec.run.statusVersion
  {
  }

  lemma TakenAway(rec: Record, now: int)
    requires Joint(rec.run) && LeaseLapsed(rec.run, now)
    ensures var out := ReapRun(rec, rec.run.status, now, false);
            && out.Committed? && EndedAs(rec, out.rec, Cancelled) && Joint(out.rec.run)
            && SameTerms(rec.run, out.rec.run) && out.rec.run.statusVersion >= rec.run.statusVersion
  {
  }

  lemma RequeuedWaits(rec: Record, mid: Record, now: int)
    requires QueuedAgain(rec, mid, now)
    ensures OnItsWay(mid.dispatches, now) && (Dead(mid.dispatches) <==> Dead(rec.dispatches))
    ensures !QueuedTooLong(mid.run, now)
  {
    var n := |rec.dispatches|;
    assert mid.dispatches[n].status == DispatchPending;
    assert forall e :: e in mid.dispatches <==> e in rec.dispatches || e == mid.dispatches[n];
  }

  /** A Run whose lease has lapsed: the reaping phase takes it back or ends it, the others see what that left. */
  lemma LapsedFate(rec: Record, mid: Record, env: Env, resolved: Option<int>)
    requires Joint(rec.run) && LeaseLapsed(rec.run, env.now) && SameTerms(rec.run, mid.run) && Joint(mid.run)
    requires if env.packageOk then QueuedAgain(rec, mid, env.now) else EndedAs(rec, mid, Cancelled)
    ensures var fate := FateOf(mid, env.now, env.packageOk, resolved);
            if fate == Stays then
              FateOf(rec, env.now, env.packageOk, resolved) == if env.packageOk then BackToQueue else Ends(Cancelled)
            else fate.Ends? && env.packageOk && FateOf(rec, env.now, env.packageOk, resolved) == fate
    ensures !LeaseLapsed(mid.run, env.now) && !Parked(rec.run)
    ensures PurgeDue(mid.run, env.now, env.packageOk) <==> PurgeDue(rec.run, env.now, env.packageOk)
    ensures PurgeDue(rec.run, env.now, env.packageOk) ==> !env.packageOk
  {
    if env.packageOk {
      RequeuedWaits(rec, mid, env.now);
    }
    hide Dead, OnItsWay, QueuedTooLong;
  }

  lemma EndsAfter(rec: Record, mid: Record, after: Record, status: Status)
    requires EndedAs(mid, after, status) && mid.log == rec.log && mid.run.statusVersion >= rec.run.statusVersion
    ensures EndedAs(rec, after, status)
  {
  }

  lemma EmptiedEnds(rec: Record, mid: Record, status: Status)
    requires EndedAs(rec, mid, status)
    ensures EndedAs(rec, Emptied(mid), status) && Blank(Emptied(mid)) && Emptied(mid).run.privacy == Purged
  {
  }

  lemma LapsedFulfils(rec: Record, env: Env, resolved: map<string, int>)
    requires Joint(rec.run) && LeaseLapsed(rec.run, env.now)
    ensures Fulfils(rec, ThreePhases(rec, env, resolved), env.now, env.packageOk, Resolved(rec.run, resolved))
  {
    hide Joint, LeaseLapsed, Repaired, FateOf, PurgeDue, EndedAs, Blank;
    var mid := Repaired(Reaping, rec, env);
    ReapPhase(rec, env);
    var given, after := Resolved(rec.run, resolved), ThreePhases(rec, env, resolved);
    LapsedFate(rec, mid, env, given);
    UnlapsedFulfils(mid, env, resolved);
    if !env.packageOk {
      EmptiedEnds(rec, mid, Cancelled);
    } else if FateOf(mid, env.now, env.packageOk, given).Ends? {
      assert EndedAs(mid, after, FateOf(mid, env.now, env.packageOk, given).status);
      EndsAfter(rec, mid, after, FateOf(mid, env.now, env.packageOk, given).status);
    }
  }

  lemma PhasesFulfil(rec: Record, env: Env, resolved: map<string, int>)
    requires Joint(rec.run)
    ensures Fulfils(rec, ThreePhases(rec, env, resolved), env.now, env.packageOk, Resolved(rec.run, resolved))
  {
    if LeaseLapsed(rec.run, env.now) {
      hide Joint, LeaseLapsed, Repaired, Fulfils;
      LapsedFulfils(rec, env, resolved);
    } else {
      assert Repaired(Reaping, rec, env) == rec;
      hide Joint, LeaseLapsed, Repaired, Fulfils;
      UnlapsedFulfils(rec, env, resolved);
    }
  }

  // ----- A whole pass -----

  lemma PhaseKeeps(phase: Phase, rec: Record, env: Env)
    requires RecordInv(rec)
    ensures var after := Repaired(phase, rec, env); SameIdentity(rec.run, after.run) && RecordInv(after)
  {
    hide Joint, LogShape, LeaseInv, TerminalBalance, Blank, Decide, Act;
    if Decide(phase, rec, env).Some? {
      ActSafe(rec, env.now, Decide(phase, rec, env).value, env);
    }
  }

  lemma SweepRecord(w: World, phase: Phase, order: seq<string>, id: string)
    requires WorldInv(w) && Once(order) && Sweep(w, phase, order).Some? && id in w.records
    ensures var next := Sweep(w, phase, order).value;
            && WorldInv(next) && next.now == w.now && next.definitions == w.definitions && id in next.records
            && EnvOf(next, next.records[id].run) == EnvOf(w, w.records[id].run)
            && next.records[id] == if id in order then Repaired(phase, w.records[id], EnvOf(w, w.records[id].run))
                                   else w.records[id]
  {
    hide Sweep, Repaired, RecordInv, CountsAgree, CapsHold, Members;
    SweepTracks(w, phase, order);
    PhaseKeeps(phase, w.records[id], EnvOf(w, w.records[id].run));
  }

  /** A pass that does not raise does to every Run what the table says, and nothing to any other. */
  lemma PassExact(w: World, resolved: map<string, int>, order: seq<string>, id: string)
    requires WorldInv(w) && Once(order) && Pass(w, resolved, order).Some? && id in w.records
    ensures var rec, next := w.records[id], Pass(w, resolved, order).value;
            && id in next.records
            && if id in order then
                 Fulfils(rec, next.records[id], w.now, PackageOk(w.definitions, rec.run), Resolved(rec.run, resolved))
               else next.records[id] == rec
  {
    hide WorldInv, Sweep, Repaired, RecountBuckets, Fulfils;
    SweepRecord(w, Reaping, order, id);
    var reaped := Sweep(w, Reaping, order).value;
    Recheck(reaped);
    SweepRecord(reaped, Repairing(resolved), order, id);
    var repaired := Sweep(reaped, Repairing(resolved), order).value;
    SweepRecord(repaired, Burying, order, id);
    if id in order {
      JointIn(w, id);
      PhasesFulfil(w.records[id], EnvOf(w, w.records[id].run), resolved);
    }
  }

  /** Every Run met its fate, by the table and its state before. */
  ghost predicate AllFulfilled(w: World, next: World, resolved: map<string, int>) {
    forall id :: id in w.records ==>
      && id in next.records
      && Fulfils(w.records[id], next.records[id], w.now, PackageOk(w.definitions, w.records[id].run),
                 Resolved(w.records[id].run, resolved))
  }

  lemma PassFulfils(w: World, resolved: map<string, int>, order: seq<string>)
    requires WorldInv(w) && Once(order) && (forall id :: id in w.records ==> id in order)
    requires Pass(w, resolved, order).Some?
    ensures AllFulfilled(w, Pass(w, resolved, order).value, resolved)
  {
    hide WorldInv, Once, Pass, Fulfils;
    forall id | id in w.records
      ensures var next := Pass(w, resolved, order).value;
              && id in next.records
              && Fulfils(w.records[id], next.records[id], w.now, PackageOk(w.definitions, w.records[id].run),
                         Resolved(w.records[id].run, resolved))
    {
      PassExact(w, resolved, order, id);
    }
  }

  lemma JointIn(w: World, id: string)
    requires WorldInv(w) && id in w.records
    ensures Joint(w.records[id].run)
  {
    assert RecordInv(w.records[id]);
  }

  /** Nothing is wrong with the Run that a pass would put right. */
  predicate InOrder(rec: Record, now: int, packageOk: bool, resolved: Option<int>) {
    var run := rec.run;
    && !LeaseLapsed(run, now)
    && !(run.privacy == PurgeRequested && run.dispatch == Finished)
    && (Late(run, now) || Unauthorized(run, resolved) || !packageOk ==>
          Terminal(run.status) || (run.dispatch == Claimed && run.cancelRequestedAt.Some?))
    && (run.dispatch == Held ==> !Due(run.heldExpiresAt, now))
    && (run.dispatch == Queued && run.status == Pending ==>
          !QueuedTooLong(run, now) && !Dead(rec.dispatches) && OnItsWay(rec.dispatches, now))
    && (Parked(run) ==> !Due(run.waitingExpiresAt, now))
  }

  /** The table leaves a Run alone exactly if it is in order. */
  lemma OrderExact(rec: Record, after: Record, now: int, packageOk: bool, resolved: Option<int>)
    requires Joint(rec.run) && Fulfils(rec, after, now, packageOk, resolved)
    ensures after == rec <==> InOrder(rec, now, packageOk, resolved)
  {
    hide Dead, OnItsWay, QueuedTooLong, Late, Due;
    if FateOf(rec, now, packageOk, resolved) == Redispatched && after == rec {
      PendingIsOnItsWay(rec.dispatches, now);
    }
    hide ToBeSent;
  }

  lemma PendingIsOnItsWay(events: seq<DispatchEvent>, now: int)
    ensures ToBeSent(events) ==> OnItsWay(events, now)
  {
  }

  /** A pass leaves a Run of its list as it was exactly if the Run is in order. */
  lemma UntouchedExactly(w: World, resolved: map<string, int>, order: seq<string>, id: string)
    requires WorldInv(w) && Once(order) && Pass(w, resolved, order).Some? && id in w.records && id in order
    ensures var rec, next := w.records[id], Pass(w, resolved, order).value;
            && id in next.records
            && (next.records[id] == rec
                <==> InOrder(rec, w.now, PackageOk(w.definitions, rec.run), Resolved(rec.run, resolved)))
  {
    hide WorldInv, Pass, Fulfils, InOrder;
    PassExact(w, resolved, order, id);
    JointIn(w, id);
    OrderExact(w.records[id], Pass(w, resolved, order).value.records[id], w.now,
               PackageOk(w.definitions, w.records[id].run), Resolved(w.records[id].run, resolved));
  }

  /** At rest without a raise every Run of the list is in order. */
  lemma RestMeansDone(w: World, resolved: map<string, int>, order: seq<string>, id: string)
    requires WorldInv(w) && Pass(w, resolved, order) == Some(w) && id in order && id in w.records
    ensures var rec := w.records[id];
            InOrder(rec, w.now, PackageOk(w.definitions, rec.run), Resolved(rec.run, resolved))
  {
    hide WorldInv, Pass, Fulfils, InOrder, Decide;
    var rec, env := w.records[id], EnvOf(w, w.records[id].run);
    PassProgress(w, resolved, order);
    assert Idle(w, Reaping, id) && Idle(w, Repairing(resolved), id) && Idle(w, Burying, id);
    assert ThreePhases(rec, env, resolved) == rec;
    JointIn(w, id);
    PhasesFulfil(rec, env, resolved);
    OrderExact(rec, rec, env.now, env.packageOk, Resolved(rec.run, resolved));
  }

  /** With no more live Runs than a default queue holds, at most Rank(w) passes leave every Run of the list in order. */
  lemma AllInOrder(w: World, resolved: map<string, int>, order: seq<string>, n: nat, id: string)
    requires WorldInv(w) && |Live(w.records)| <= DEFAULT_LIMITS.maxQueued && n >= Rank(w.records, order, w.now)
    requires id in order && id in w.records
    ensures var done := Passes(w, resolved, order, n);
            && id in done.records
            && var rec := done.records[id];
               InOrder(rec, w.now, PackageOk(w.definitions, rec.run), Resolved(rec.run, resolved))
  {
    hide WorldInv, Pass, InOrder, Rank, Live;
    ReconcilerFinishes(w, resolved, order, n);
    PassesProgress(w, resolved, order, n);
    RestMeansDone(Passes(w, resolved, order, n), resolved, order, id);
  }

  lemma {:induction false} PassesProgress(w: World, resolved: map<string, int>, order: seq<string>, n: nat)
    requires WorldInv(w)
    ensures var done := Passes(w, resolved, order, n);
            && WorldInv(done) && done.now == w.now && done.definitions == w.definitions
            && done.records.Keys == w.records.Keys
    decreases n
  {
    hide WorldInv, Pass, Rank;
    if n > 0 && Pass(w, resolved, order).Some? {
      PassProgress(w, resolved, order);
      PassesProgress(Pass(w, resolved, order).value, resolved, order, n - 1);
    }
  }
}
