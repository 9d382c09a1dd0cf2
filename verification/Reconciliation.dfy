/** The reconciler: what it decides for each Run, one whole pass, and why passes stop changing things. */
module Reconciliation {
  import opened Options
  import opened Collections
  import opened RunRecords
  import opened Admission
  import opened Lifecycle
  import opened LifecycleSafety
  import opened LifecycleTheorems

  // ----- Decisions, in the order the scan tries them -----

  /** A Run out of time is failed when nobody holds it, and asked to stop when a worker does. */
  function OutOfTime(run: Run, now: int): Option<Action> {
    if Terminal(run.status) then None
    else if run.dispatch == Claimed then
      if run.cancelRequestedAt == None then Some(RequestStop(run, now)) else None
    else if Unheld(run) then Some(Terminate(run, Failed))
    else None
  }

  /** A Run no longer allowed is cancelled when nobody holds it, and asked to stop when a worker does. */
  function NoLongerAllowed(run: Run, now: int): Option<Action> {
    if Unheld(run) then Some(Terminate(run, Cancelled))
    else if run.dispatch == Claimed && run.cancelRequestedAt == None then Some(RequestStop(run, now))
    else None
  }

  predicate ActiveTimeSpent(run: Run) {
    && run.plan.maxRunSeconds.Some?
    && run.plan.maxRunSeconds.value >= 0
    && run.activeElapsedMs >= run.plan.maxRunSeconds.value * 1000
  }

  predicate Reached(at: Option<int>, now: int) {
    at.Some? && at.value <= now
  }

  predicate QueueTimeSpent(run: Run, now: int) {
    && run.plan.queueTtlSeconds.Some? && run.plan.queueTtlSeconds.value > 0
    && run.queuedAt.Some? && run.queuedAt.value + run.plan.queueTtlSeconds.value * SECOND <= now
  }

  /** No dispatch event is pending, dead or under a live delivery lease. */
  predicate NeedsDispatch(events: seq<DispatchEvent>, now: int) {
    forall e | e in events ::
      && e.status != DispatchPending && e.status != DeadLetter
      && !(e.status == Delivering && e.leaseExpiresAt.Some? && e.leaseExpiresAt.value > now)
  }

  function WaitedTooLong(run: Run, now: int): Action {
    if run.plan.timeoutAction == ActionFallback && run.plan.fallbackTargetValid then Requeue(run, now)
    else Terminate(run, if run.plan.timeoutAction == ActionCancelled then Cancelled else Failed)
  }

  /** `resolved` is the authorization version the resolver reports, if there is one. */
  function Repair(rec: Record, now: int, packageOk: bool, resolved: Option<int>): Option<Action> {
    var run := rec.run;
    var late := if run.deadline <= now then OutOfTime(run, now) else None;
    var spent := if ActiveTimeSpent(run) then OutOfTime(run, now) else None;
    var unauthorized := if resolved.Some? && resolved.value != run.authorizationVersion
                        then NoLongerAllowed(run, now) else None;
    var revoked := if !packageOk then NoLongerAllowed(run, now) else None;
    if run.privacy == PurgeRequested && run.dispatch == Finished then Some(FinishPurge)
    else if late.Some? then late
    else if spent.Some? then spent
    else if unauthorized.Some? then unauthorized
    else if revoked.Some? then revoked
    else if run.status == Pending && run.dispatch == Held && Reached(run.heldExpiresAt, now) then
      Some(Terminate(run, Cancelled))
    else if run.status == Pending && run.dispatch == Queued && QueueTimeSpent(run, now) then
      Some(Terminate(run, Failed))
    else if run.status == Pending && run.dispatch == Queued && NeedsDispatch(rec.dispatches, now) then
      Some(Redispatch)
    else if Parked(run) && Reached(run.waitingExpiresAt, now) then Some(WaitedTooLong(run, now))
    else None
  }

  function ReapDecision(rec: Record, now: int, packageOk: bool): Option<Action> {
    var run := rec.run;
    if run.dispatch == Claimed && run.leaseExpiresAt.Some? && run.leaseExpiresAt.value < now
    then Some(Reap(run.status, now, packageOk))
    else None
  }

  predicate HasDeadLetter(events: seq<DispatchEvent>) {
    exists e | e in events :: e.status == DeadLetter
  }

  function DeadLetterDecision(rec: Record): Option<Action> {
    if HasDeadLetter(rec.dispatches) && rec.run.status == Pending && rec.run.dispatch == Queued
    then Some(Terminate(rec.run, Failed))
    else None
  }

  // ----- One pass -----

  datatype Phase = Reaping | Repairing(resolved: map<string, int>) | Burying

  function Decide(phase: Phase, rec: Record, env: Env): Option<Action> {
    match phase
    case Reaping => ReapDecision(rec, env.now, env.packageOk)
    case Repairing(resolved) =>
      Repair(rec, env.now, env.packageOk,
             if rec.run.runId in resolved then Some(resolved[rec.run.runId]) else None)
    case Burying => DeadLetterDecision(rec)
  }

  /** A committed outcome, or None when admission raises. */
  function Attempt(w: World, id: string, outcome: Outcome): Option<World> {
    if outcome.Committed? && outcome.move.Some?
       && Transition(w.buckets, outcome.rec.run, outcome.move.value.from, outcome.move.value.to,
                     LimitsOf(w, outcome.move.value)).None?
    then None
    else Some(Apply(w, id, outcome))
  }

  function Visit(w: World, phase: Phase, id: string): Option<World> {
    if id !in w.records then Some(w)
    else
      var rec := w.records[id];
      var env := EnvOf(w, rec.run);
      match Decide(phase, rec, env)
      case None => Some(w)
      case Some(a) => Attempt(w, id, Act(rec, a, env))
  }

  /** Visits the Runs of `order` one after another; a raise ends the sweep. */
  function Sweep(w: World, phase: Phase, order: seq<string>): Option<World> {
    if order == [] then Some(w)
    else
      match Sweep(w, phase, order[..|order| - 1])
      case None => None
      case Some(mid) => Visit(mid, phase, order[|order| - 1])
  }

  function Recounted(records: map<string, Record>, s: Scope, b: Bucket): Bucket {
    var exact := Bucket(|Members(records, s, Held)|, |Members(records, s, Queued)|,
                        |Members(records, s, Claimed)|, b.version);
    if exact == b then b else exact.(version := b.version + 1)
  }

  /** Rewrites every bucket row that differs from the recount. */
  function RecountBuckets(w: World): World {
    w.(buckets := map s | s in w.buckets :: Recounted(w.records, s, w.buckets[s]))
  }

  /** A pass of the reconciler with its lease held throughout; None when admission raises. */
  function Pass(w: World, resolved: map<string, int>, order: seq<string>): Option<World> {
    match Sweep(w, Reaping, order)
    case None => None
    case Some(reaped) =>
      match Sweep(RecountBuckets(reaped), Repairing(resolved), order)
      case None => None
      case Some(repaired) => Sweep(repaired, Burying, order)
  }

  // ----- The recount finds nothing, and heals anything -----

  lemma RecountFindsNothing(w: World)
    requires CountsAgree(w.records, w.buckets)
    ensures RecountBuckets(w) == w
  {
    forall s | s in w.buckets
      ensures Recounted(w.records, s, w.buckets[s]) == w.buckets[s]
    {
      assert BucketAgrees(w.records, w.buckets, s);
    }
    assert RecountBuckets(w).buckets == w.buckets;
  }

  /** A Run that counts is counted in rows that exist. */
  predicate HasRows(w: World, id: string)
    requires id in w.records
  {
    Counted(w.records[id].run.dispatch) ==> forall s :: s in ScopeSet(w.records[id].run) ==> s in w.buckets
  }

  /** The recount rewrites rows and creates none: from whatever counts it restores the whole ledger if and only if no
      Run is held, queued or claimed under a scope without a row. */
  lemma RecountHeals(w: World)
    ensures CountsAgree(w.records, RecountBuckets(w).buckets) <==> forall id :: id in w.records ==> HasRows(w, id)
  {
    hide ScopeSet;
    var healed := RecountBuckets(w).buckets;
    if CountsAgree(w.records, healed) {
      forall id | id in w.records ensures HasRows(w, id) {
        forall s | s in ScopeSet(w.records[id].run) && Counted(w.records[id].run.dispatch) ensures s in w.buckets {
          assert BucketAgrees(w.records, healed, s);
          assert id in Members(w.records, s, w.records[id].run.dispatch);
        }
      }
    }
    if forall id :: id in w.records ==> HasRows(w, id) {
      forall s ensures BucketAgrees(w.records, healed, s) {
        if s !in w.buckets {
          assert Members(w.records, s, Held) == Members(w.records, s, Queued) == Members(w.records, s, Claimed) == {};
        }
      }
    }
  }

  // ----- Every repair lowers a rank -----

  function RunRank(rec: Record, now: int): nat {
    (if rec.run.privacy == PurgeRequested then 10 else 0)
    + match rec.run.dispatch
      case Claimed => if rec.run.cancelRequestedAt == None then 6 else 5
      case Finished => if rec.run.status == WaitingHuman then 4 else 0
      case Queued => if NeedsDispatch(rec.dispatches, now) then 3 else 2
      case Held => 1
      case Unborn => 0
  }

  function Rank(records: map<string, Record>, order: seq<string>, now: int): nat {
    if order == [] then 0
    else
      var id := order[|order| - 1];
      Rank(records, order[..|order| - 1], now) + if id in records then RunRank(records[id], now) else 0
  }

  lemma PendingCovers(rec: Record, now: int)
    ensures !NeedsDispatch(AppendDispatch(rec).dispatches, now)
    ensures RepairDispatch(rec).Committed? && !NeedsDispatch(RepairDispatch(rec).rec.dispatches, now)
  {
    var pending := DispatchEvent(DispatchPending, None);
    assert AppendDispatch(rec).dispatches[|rec.dispatches|] == pending;
    if rec.dispatches != [] {
      assert RepairDispatch(rec).rec.dispatches[|rec.dispatches| - 1] == pending;
    }
  }

  /** The action commits, and leaves the Run ranked lower than before. */
  predicate Lowers(rec: Record, a: Action, env: Env) {
    var out := Act(rec, a, env);
    out.Committed? && RunRank(out.rec, env.now) < RunRank(rec, env.now)
  }

  lemma TerminateLowers(rec: Record, status: Status, env: Env)
    requires Joint(rec.run) && Unheld(rec.run) && (status == Failed || status == Cancelled)
    ensures Lowers(rec, Terminate(rec.run, status), env)
  {
    hide NeedsDispatch;
  }

  lemma StopLowers(rec: Record, env: Env)
    requires rec.run.dispatch == Claimed && rec.run.cancelRequestedAt == None
    ensures Lowers(rec, RequestStop(rec.run, env.now), env)
  {
    hide NeedsDispatch;
  }

  lemma RequeueLowers(rec: Record, env: Env)
    requires Parked(rec.run)
    ensures Lowers(rec, Requeue(rec.run, env.now), env)
  {
    hide NeedsDispatch;
    PendingCovers(rec, env.now);
  }

  lemma RedispatchLowers(rec: Record, env: Env)
    requires rec.run.dispatch == Queued && NeedsDispatch(rec.dispatches, env.now)
    ensures Lowers(rec, Redispatch, env)
  {
    hide NeedsDispatch;
    PendingCovers(rec, env.now);
  }

  lemma PurgeLowers(rec: Record, env: Env)
    requires rec.run.privacy == PurgeRequested && rec.run.dispatch == Finished
    ensures Lowers(rec, FinishPurge, env)
  {
    hide NeedsDispatch;
  }

  lemma ReapLowers(rec: Record, env: Env)
    requires Joint(rec.run) && ReapDecision(rec, env.now, env.packageOk).Some?
    ensures Lowers(rec, Reap(rec.run.status, env.now, env.packageOk), env)
  {
    hide NeedsDispatch;
    PendingCovers(rec, env.now);
  }

  lemma DecisionLowers(phase: Phase, rec: Record, env: Env)
    requires Joint(rec.run)
    requires Decide(phase, rec, env).Some?
    ensures Lowers(rec, Decide(phase, rec, env).value, env)
  {
    hide Lowers, Joint, NeedsDispatch;
    var a := Decide(phase, rec, env).value;
    match a
    case Terminate(_, status) => TerminateLowers(rec, status, env);
    case RequestStop(_, _) => StopLowers(rec, env);
    case Requeue(_, _) => RequeueLowers(rec, env);
    case Redispatch => RedispatchLowers(rec, env);
    case FinishPurge => PurgeLowers(rec, env);
    case Reap(_, _, _) => ReapLowers(rec, env);
  }

  // ----- Passes stop changing things -----

  lemma {:induction false} RankUpdate(records: map<string, Record>, order: seq<string>, id: string, rec: Record,
                                      now: int)
    requires id in records && RunRank(rec, now) < RunRank(records[id], now)
    ensures Rank(records[id := rec], order, now) <= Rank(records, order, now)
    ensures id in order ==> Rank(records[id := rec], order, now) < Rank(records, order, now)
  {
    hide RunRank;
    if order != [] {
      RankUpdate(records, order[..|order| - 1], id, rec, now);
      assert order == order[..|order| - 1] + [order[|order| - 1]];
    }
  }

  /** Nothing to do for `id` in this phase. */
  predicate Idle(w: World, phase: Phase, id: string) {
    id in w.records ==> Decide(phase, w.records[id], EnvOf(w, w.records[id].run)).None?
  }

  /** A stretch of a pass keeps the database consistent; if it changed anything, the rank fell. */
  ghost predicate Progress(w: World, next: World, order: seq<string>) {
    && WorldInv(next)
    && next.now == w.now && next.api == w.api && next.definitions == w.definitions
    && next.records.Keys == w.records.Keys
    && (next == w || Rank(next.records, order, w.now) < Rank(w.records, order, w.now))
  }

  /** A visit with something to do that does not raise commits its decision. */
  lemma VisitCommits(w: World, phase: Phase, id: string)
    requires id in w.records && Decide(phase, w.records[id], EnvOf(w, w.records[id].run)).Some?
    requires Visit(w, phase, id).Some?
    requires Act(w.records[id], Decide(phase, w.records[id], EnvOf(w, w.records[id].run)).value,
                 EnvOf(w, w.records[id].run)).Committed?
    ensures var env := EnvOf(w, w.records[id].run);
            var out := Act(w.records[id], Decide(phase, w.records[id], env).value, env);
            var next := Visit(w, phase, id).value;
            && next == Apply(w, id, out) && next.records == w.records[id := out.rec]
            && next.now == w.now && next.api == w.api && next.definitions == w.definitions
  {
    hide Act, Decide, Transition, EnvOf;
  }

  lemma LoweredProgress(w: World, next: World, id: string, rec: Record, order: seq<string>)
    requires id in w.records && id in order && WorldInv(next) && next.records == w.records[id := rec]
    requires next.now == w.now && next.api == w.api && next.definitions == w.definitions
    requires RunRank(rec, w.now) < RunRank(w.records[id], w.now)
    ensures Progress(w, next, order) && next != w
  {
    hide WorldInv, RunRank, Rank;
    RankUpdate(w.records, order, id, rec, w.now);
  }

  lemma DecisionRank(phase: Phase, rec: Record, env: Env)
    requires RecordInv(rec) && Decide(phase, rec, env).Some?
    ensures var out := Act(rec, Decide(phase, rec, env).value, env);
            out.Committed? && RunRank(out.rec, env.now) < RunRank(rec, env.now)
  {
    JointOf(rec);
    hide RecordInv, Act, Decide, RunRank;
    DecisionLowers(phase, rec, env);
  }

  lemma VisitProgress(w: World, phase: Phase, id: string, order: seq<string>)
    requires WorldInv(w) && id in order && Visit(w, phase, id).Some?
    ensures var next := Visit(w, phase, id).value;
            Progress(w, next, order) && (next == w ==> Idle(w, phase, id))
  {
    hide RecordInv, CountsAgree, CapsHold, Act, Decide, RunRank, Rank, Apply, Attempt;
    if !Idle(w, phase, id) {
      var rec, env := w.records[id], EnvOf(w, w.records[id].run);
      DecisionRank(phase, rec, env);
      var a := Decide(phase, rec, env).value;
      ActCommits(w, id, a);
      VisitCommits(w, phase, id);
      LoweredProgress(w, Visit(w, phase, id).value, id, Act(rec, a, env).rec, order);
    }
  }

  lemma JointOf(rec: Record)
    requires RecordInv(rec)
    ensures Joint(rec.run)
  {
  }

  lemma {:induction false} SweepProgress(w: World, phase: Phase, part: seq<string>, order: seq<string>)
    requires WorldInv(w) && Sweep(w, phase, part).Some?
    requires forall id :: id in part ==> id in order
    ensures var next := Sweep(w, phase, part).value;
            Progress(w, next, order) && (next == w ==> forall id :: id in part ==> Idle(w, phase, id))
  {
    hide WorldInv, Visit, Idle, Rank;
    if part != [] {
      var front := part[..|part| - 1];
      SweepProgress(w, phase, front, order);
      VisitProgress(Sweep(w, phase, front).value, phase, part[|part| - 1], order);
      assert part == front + [part[|part| - 1]];
    }
  }

  lemma {:induction false} SweepStops(w: World, phase: Phase, order: seq<string>, n: nat)
    requires n <= |order| && Sweep(w, phase, order[..n]).None?
    ensures Sweep(w, phase, order).None?
  {
    hide Visit;
    if n < |order| {
      assert order[..|order| - 1][..n] == order[..n];
      SweepStops(w, phase, order[..|order| - 1], n);
    } else {
      assert order[..n] == order;
    }
  }

  lemma SweepOne(w: World, phase: Phase, order: seq<string>, i: nat)
    requires i < |order| && Sweep(w, phase, order[..i]).Some?
    ensures Sweep(w, phase, order[..i + 1]) == Visit(Sweep(w, phase, order[..i]).value, phase, order[i])
  {
    hide Visit;
    assert order[..i + 1][..i] == order[..i];
  }

  /** A pass that commits either changes nothing, and then had nothing to do, or lowers the rank. */
  lemma PassProgress(w: World, resolved: map<string, int>, order: seq<string>)
    requires WorldInv(w) && Pass(w, resolved, order).Some?
    ensures var next := Pass(w, resolved, order).value;
            && Progress(w, next, order)
            && (next == w ==> forall id :: id in order ==>
                  Idle(w, Reaping, id) && Idle(w, Repairing(resolved), id) && Idle(w, Burying, id))
  {
    hide WorldInv, Sweep, Idle, Rank, RecountBuckets;
    SweepProgress(w, Reaping, order, order);
    var reaped := Sweep(w, Reaping, order).value;
    Recheck(reaped);
    SweepProgress(reaped, Repairing(resolved), order, order);
    var repaired := Sweep(reaped, Repairing(resolved), order).value;
    SweepProgress(repaired, Burying, order, order);
  }

  lemma Recheck(w: World)
    requires WorldInv(w)
    ensures RecountBuckets(w) == w
  {
    RecountFindsNothing(w);
  }

  /** `n` passes at a standstill clock with no other actor; a pass that raises is rolled back. */
  function Passes(w: World, resolved: map<string, int>, order: seq<string>, n: nat): World
    decreases n
  {
    if n == 0 then w
    else
      match Pass(w, resolved, order)
      case None => w
      case Some(next) => Passes(next, resolved, order, n - 1)
  }

  /** A further pass would raise, or would change nothing. */
  predicate AtRest(w: World, resolved: map<string, int>, order: seq<string>) {
    Pass(w, resolved, order) == None || Pass(w, resolved, order) == Some(w)
  }

  lemma {:induction false} RestLasts(w: World, resolved: map<string, int>, order: seq<string>, n: nat)
    requires AtRest(w, resolved, order)
    ensures Passes(w, resolved, order, n) == w
  {
    hide Pass;
    if n > 0 {
      RestLasts(w, resolved, order, n - 1);
    }
  }

  /** The reconciler quiesces: after at most Rank(w) passes the database is at rest, for good. */
  lemma {:induction false} Quiesces(w: World, resolved: map<string, int>, order: seq<string>, n: nat)
    requires WorldInv(w) && n >= Rank(w.records, order, w.now)
    ensures AtRest(Passes(w, resolved, order, n), resolved, order)
    decreases Rank(w.records, order, w.now)
  {
    hide WorldInv, Pass, Rank, RunRank;
    if AtRest(w, resolved, order) {
      RestLasts(w, resolved, order, n);
    } else {
      PassProgress(w, resolved, order);
      Quiesces(Pass(w, resolved, order).value, resolved, order, n - 1);
    }
  }

  /** The rank starts at no more than sixteen for each Run. */
  lemma {:induction false} RankBound(records: map<string, Record>, order: seq<string>, now: int)
    ensures Rank(records, order, now) <= 16 * |order|
  {
    hide NeedsDispatch;
    if order != [] {
      RankBound(records, order[..|order| - 1], now);
    }
  }

  // ----- When a pass can raise -----

  /** The Runs that have not ended. */
  function Live(records: map<string, Record>): set<string> {
    set id | id in records && !Terminal(records[id].run.status)
  }

  /** The Run moves out of everything, or from outside the queue, not ended, into it; an ended one stays ended. */
  predicate ReconcilerMove(rec: Record, out: Outcome) {
    && out.Committed?
    && (Terminal(rec.run.status) ==> Terminal(out.rec.run.status))
    && (out.move.Some? ==>
          || out.move.value.to == Finished
          || (out.move.value == Move(rec.run.dispatch, Queued, false)
              && rec.run.dispatch != Queued && !Terminal(rec.run.status)))
  }

  lemma ReapMoves(rec: Record, env: Env)
    requires Joint(rec.run) && ReapDecision(rec, env.now, env.packageOk).Some?
    ensures ReconcilerMove(rec, Act(rec, ReapDecision(rec, env.now, env.packageOk).value, env))
  {
  }

  lemma BurialMoves(rec: Record, env: Env)
    requires Joint(rec.run) && DeadLetterDecision(rec).Some?
    ensures ReconcilerMove(rec, Act(rec, DeadLetterDecision(rec).value, env))
  {
    hide HasDeadLetter;
  }

  lemma RepairMoves(rec: Record, env: Env, resolved: Option<int>)
    requires Joint(rec.run) && Repair(rec, env.now, env.packageOk, resolved).Some?
    ensures ReconcilerMove(rec, Act(rec, Repair(rec, env.now, env.packageOk, resolved).value, env))
  {
    hide NeedsDispatch;
  }

  /** What the reconciler's own moves look like. */
  lemma ReconcilerMoves(phase: Phase, rec: Record, env: Env)
    requires Joint(rec.run) && Decide(phase, rec, env).Some?
    ensures ReconcilerMove(rec, Act(rec, Decide(phase, rec, env).value, env))
  {
    hide Repair, ReapDecision, DeadLetterDecision, Act, Joint, ReconcilerMove;
    match phase
    case Reaping => ReapMoves(rec, env);
    case Repairing(resolved) =>
      RepairMoves(rec, env, if rec.run.runId in resolved then Some(resolved[rec.run.runId]) else None);
    case Burying => BurialMoves(rec, env);
  }

  lemma QueuedIsLive(rec: Record)
    requires RecordInv(rec) && rec.run.dispatch == Queued
    ensures !Terminal(rec.run.status)
  {
    JointOf(rec);
    hide RecordInv;
  }

  lemma QueuedAreLive(records: map<string, Record>, s: Scope, id: string)
    requires RecordsInv(records)
    requires id in records && records[id].run.dispatch != Queued && !Terminal(records[id].run.status)
    ensures |Members(records, s, Queued)| < |Live(records)|
  {
    hide RecordInv, Terminal;
    var queued, live := Members(records, s, Queued), Live(records);
    forall other | other in queued
      ensures other in live - {id}
    {
      QueuedIsLive(records[other]);
    }
    hide Members, Live;
    Smaller(queued, live - {id});
    assert |live - {id}| < |live|;
  }

  /** Every visit succeeds while no more Runs are live than one default queue holds. */
  lemma VisitCannotRaise(w: World, phase: Phase, id: string)
    requires WorldInv(w) && |Live(w.records)| <= DEFAULT_LIMITS.maxQueued
    ensures Visit(w, phase, id).Some?
  {
    hide RecordInv, CapsHold, Act, Decide, CountsAgree, Live;
    if Visit(w, phase, id).None? {
      var rec, env := w.records[id], EnvOf(w, w.records[id].run);
      JointOf(rec);
      ReconcilerMoves(phase, rec, env);
      var out := Act(rec, Decide(phase, rec, env).value, env);
      var m := out.move.value;
      var s :| s in ScopeSet(out.rec.run) && !Fits(Get(w.buckets, s), m.from, m.to, LimitsOf(w, m));
      QueuedAreLive(w.records, s, id);
      CountOf(w, s);
    }
  }

  lemma CountOf(w: World, s: Scope)
    requires WorldInv(w)
    ensures Get(w.buckets, s).queued == |Members(w.records, s, Queued)|
  {
    assert BucketAgrees(w.records, w.buckets, s);
  }

  lemma VisitKeepsLive(w: World, phase: Phase, id: string)
    requires WorldInv(w) && Visit(w, phase, id).Some?
    ensures Live(Visit(w, phase, id).value.records) <= Live(w.records)
  {
    hide RecordInv, CapsHold, Act, Decide, CountsAgree, Transition;
    if !Idle(w, phase, id) {
      JointOf(w.records[id]);
      ReconcilerMoves(phase, w.records[id], EnvOf(w, w.records[id].run));
    }
  }

  lemma {:induction false} SweepCannotRaise(w: World, phase: Phase, part: seq<string>)
    requires WorldInv(w) && |Live(w.records)| <= DEFAULT_LIMITS.maxQueued
    ensures Sweep(w, phase, part).Some?
    ensures WorldInv(Sweep(w, phase, part).value)
    ensures |Live(Sweep(w, phase, part).value.records)| <= DEFAULT_LIMITS.maxQueued
  {
    hide WorldInv, Visit, Live;
    if part != [] {
      var front, id := part[..|part| - 1], part[|part| - 1];
      SweepCannotRaise(w, phase, front);
      var mid := Sweep(w, phase, front).value;
      VisitCannotRaise(mid, phase, id);
      VisitProgress(mid, phase, id, part);
      VisitKeepsLive(mid, phase, id);
      Smaller(Live(Visit(mid, phase, id).value.records), Live(mid.records));
    }
  }

  lemma PassCannotRaise(w: World, resolved: map<string, int>, order: seq<string>)
    requires WorldInv(w) && |Live(w.records)| <= DEFAULT_LIMITS.maxQueued
    ensures Pass(w, resolved, order).Some?
    ensures WorldInv(Pass(w, resolved, order).value)
    ensures |Live(Pass(w, resolved, order).value.records)| <= DEFAULT_LIMITS.maxQueued
  {
    hide WorldInv, Sweep, Live, RecountBuckets;
    SweepCannotRaise(w, Reaping, order);
    var reaped := Sweep(w, Reaping, order).value;
    Recheck(reaped);
    SweepCannotRaise(reaped, Repairing(resolved), order);
    SweepCannotRaise(Sweep(reaped, Repairing(resolved), order).value, Burying, order);
  }

  /** With no more live Runs than a default queue holds, the reconciler never raises and finishes its
      work: after at most Rank(w) passes a further pass finds nothing to do for any Run.
   */
  lemma {:induction false} ReconcilerFinishes(w: World, resolved: map<string, int>, order: seq<string>, n: nat)
    requires WorldInv(w) && |Live(w.records)| <= DEFAULT_LIMITS.maxQueued
    requires n >= Rank(w.records, order, w.now)
    ensures var done := Passes(w, resolved, order, n);
            Pass(done, resolved, order) == Some(done)
    decreases Rank(w.records, order, w.now)
  {
    hide WorldInv, Pass, Rank, Live;
    PassCannotRaise(w, resolved, order);
    if Pass(w, resolved, order) == Some(w) {
      RestLasts(w, resolved, order, n);
    } else {
      PassProgress(w, resolved, order);
      ReconcilerFinishes(Pass(w, resolved, order).value, resolved, order, n - 1);
    }
  }
}
