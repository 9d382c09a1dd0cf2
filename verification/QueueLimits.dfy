/** How far a queue can fill: exactly which API limits hold in every reachable state, and a reachable raising pass. */
module QueueLimits {
  import opened Options
  import opened Collections
  import opened RunRecords
  import opened Admission
  import opened Lifecycle
  import opened LifecycleSafety
  import opened LifecycleTheorems
  import opened Reconciliation
  import opened ReconcilerRaises

  /** In every state reachable under `api`, no queue is longer than the API's own limit. */
  ghost predicate ApiLimitHolds(api: Limits) {
    forall w: World, s: Scope :: Reachable(w) && w.api == api ==> Get(w.buckets, s).queued <= Max(0, api.maxQueued)
  }

  // ----- Nothing is ever queued under a limit of nothing -----

  predicate Dormant(run: Run) {
    run.dispatch == Held || (run.dispatch == Finished && Terminal(run.status))
  }

  ghost predicate AllDormant(w: World) {
    forall id :: id in w.records ==> Dormant(w.records[id].run)
  }

  predicate ApiQueue(out: Outcome) {
    out.Committed? && out.move.Some? && out.move.value.to == Queued && out.move.value.api
  }

  /** Whoever acts on a dormant Run leaves it dormant, or asks the API's queue for a place. */
  lemma DormantAct(rec: Record, a: Action, env: Env)
    requires Joint(rec.run) && Dormant(rec.run)
    ensures var out := Act(rec, a, env); out.Committed? ==> Dormant(out.rec.run) || ApiQueue(out)
  {
  }

  lemma ApiQueueFull(w: World, run: Run, from: DispatchState)
    requires WorldInv(w) && w.api.maxQueued <= 0
    ensures Transition(w.buckets, run, from, Queued, w.api).None?
  {
    hide RecordInv, CountsAgree;
    assert Capped(Get(w.buckets, Global), w.api);
    assert Global in ScopeSet(run) && !Fits(Get(w.buckets, Global), from, Queued, w.api);
  }

  lemma DormantApply(w: World, id: string, out: Outcome)
    requires WorldInv(w) && AllDormant(w) && w.api.maxQueued <= 0
    requires out.Committed? ==> Dormant(out.rec.run) || ApiQueue(out)
    ensures AllDormant(Apply(w, id, out))
  {
    hide WorldInv, Transition;
    if ApiQueue(out) {
      ApiQueueFull(w, out.rec.run, out.move.value.from);
    }
  }

  lemma DormantStep(w: World, step: Step)
    requires WorldInv(w) && AllDormant(w) && w.api.maxQueued <= 0
    ensures AllDormant(Next(w, step)) && Next(w, step).api == w.api
  {
    match step
    case Tick(_) =>
    case Define(_, _) =>
    case Create(id, q) =>
      if id !in w.records {
        hide RecordInv, CountsAgree, CapsHold, Apply;
        DormantApply(w, id, CreateRun(id, q, w.definitions, w.now));
        ApplyApi(w, id, CreateRun(id, q, w.definitions, w.now));
      }
    case Do(id, a) =>
      if id in w.records {
        hide RecordInv, CountsAgree, CapsHold, Act, Apply;
        var rec := w.records[id];
        JointOf(rec);
        DormantAct(rec, a, EnvOf(w, rec.run));
        DormantApply(w, id, Act(rec, a, EnvOf(w, rec.run)));
        ApplyApi(w, id, Act(rec, a, EnvOf(w, rec.run)));
      }
  }

  lemma ApplyApi(w: World, id: string, out: Outcome)
    ensures Apply(w, id, out).api == w.api
  {
    hide Transition;
  }

  lemma {:induction false} DormantRun(now: int, api: Limits, steps: seq<Step>)
    requires api.maxQueued <= 0
    ensures var w := Execute(Init(now, api), steps); AllDormant(w) && w.api == api
    decreases |steps|
  {
    hide WorldInv, AllDormant, Next;
    if steps == [] {
      assert AllDormant(Init(now, api)) by { NothingDormant(now, api); }
    } else {
      var front := steps[..|steps| - 1];
      DormantRun(now, api, front);
      assert Reachable(Execute(Init(now, api), front));
      ReachableInv(Execute(Init(now, api), front));
      DormantStep(Execute(Init(now, api), front), steps[|steps| - 1]);
    }
  }

  lemma NothingDormant(now: int, api: Limits)
    ensures AllDormant(Init(now, api))
  {
  }

  lemma ReachableDormant(w: World)
    requires Reachable(w) && w.api.maxQueued <= 0
    ensures AllDormant(w)
  {
    hide AllDormant, Execute;
    var now, api, steps :| w == Execute(Init(now, api), steps);
    ExecuteApi(Init(now, api), steps);
    DormantRun(now, api, steps);
  }

  lemma NoQueueWithoutLimit(w: World, s: Scope)
    requires Reachable(w) && w.api.maxQueued <= 0
    ensures Get(w.buckets, s).queued == 0
  {
    hide Reachable, Members, Get, AllDormant;
    ReachableDormant(w);
    AdmissionExact(w, s);
    DormantNotQueued(w, s);
  }

  lemma DormantNotQueued(w: World, s: Scope)
    requires AllDormant(w)
    ensures Members(w.records, s, Queued) == {}
  {
  }

  // ----- A queue as long as one likes, and a lease that ran out -----

  const AGENT: (string, string) := ("agent", "1")

  const PACKAGE: Definition := Definition(true, "digest")

  const ORDER: Request := Request("agent", "1", "caller", "tenant", "target",
                                  Plan(None, None, ActionFallback, true, false), map[], false, 1, true)

  const SCOPES: set<Scope> := {Global, CallerScope("caller"), TenantScope("tenant"), AgentScope("agent")}

  /** The n-th queued Run's id; the one whose lease runs out is "r". */
  function Name(n: nat): string {
    seq(n + 2, i => 'q')
  }

  /** The places of a state `d` are free in every scope of a Run about to enter it. */
  ghost predicate Room(w: World, run: Run, d: DispatchState, limits: Limits) {
    Counted(d) ==> forall s :: s in ScopeSet(run) ==> |Members(w.records, s, d)| < Limit(limits, d)
  }

  lemma RoomAdmits(w: World, run: Run, from: DispatchState, to: DispatchState, limits: Limits)
    requires WorldInv(w) && from != to && Room(w, run, to, limits)
    ensures Transition(w.buckets, run, from, to, limits).Some?
  {
    hide RecordInv, CapsHold, ScopeSet, Members;
    forall s | s in ScopeSet(run) ensures Fits(Get(w.buckets, s), from, to, limits) {
      assert BucketAgrees(w.records, w.buckets, s);
    }
  }

  /** A committed outcome with room for its move is applied. */
  lemma RoomApplies(w: World, id: string, out: Outcome)
    requires WorldInv(w) && out.Committed?
    requires out.move.Some? ==>
               var m := out.move.value;
               m.from != m.to && Room(w, out.rec.run, m.to, LimitsOf(w, m))
    ensures var next := Apply(w, id, out);
            next.records == w.records[id := out.rec] && next.now == w.now && next.api == w.api
            && next.definitions == w.definitions
  {
    hide WorldInv, Transition, Room;
    if out.move.Some? {
      RoomAdmits(w, out.rec.run, out.move.value.from, out.move.value.to, LimitsOf(w, out.move.value));
    }
  }

  /** A Run under an executable package whose lease has run out. */
  predicate Lapsed(w: World, id: string) {
    && id in w.records && w.records[id].run.dispatch == Claimed && ScopeSet(w.records[id].run) == SCOPES
    && w.records[id].run.leaseExpiresAt.Some? && w.records[id].run.leaseExpiresAt.value < w.now
    && PackageOk(w.definitions, w.records[id].run)
  }

  /** A lease has run out while `n` other Runs, and no more, are queued. */
  ghost predicate Stage(w: World, api: Limits, n: nat) {
    && Reachable(w) && w.api == api
    && Lapsed(w, "r")
    && (forall s :: s in SCOPES ==> |Members(w.records, s, Queued)| == n)
    && (forall id :: id in w.records && id != "r" ==> w.records[id].run.dispatch == Queued)
  }

  lemma NamesDiffer(m: nat, n: nat)
    ensures Name(m) != "r" && (m != n ==> Name(m) != Name(n))
  {
    assert |Name(m)| == m + 2 && |Name(n)| == n + 2;
  }

  lemma OrderCommits(id: string, definitions: map<(string, string), Definition>, now: int)
    requires AGENT in definitions && definitions[AGENT] == PACKAGE
    ensures var out := CreateRun(id, ORDER, definitions, now);
            && out.Committed? && out.move == Some(Move(Unborn, Queued, true))
            && out.rec.run.dispatch == Queued && ScopeSet(out.rec.run) == SCOPES
  {
  }

  // ----- The first Run: created, claimed, and its lease gone by -----

  function Opened(api: Limits): World {
    Next(Init(0, api), Define(AGENT, Some(PACKAGE)))
  }

  /** The only Run of the database. */
  ghost predicate Alone(w: World, api: Limits, id: string) {
    && Reachable(w) && w.api == api && 1 <= api.maxQueued
    && w.definitions == map[AGENT := PACKAGE] && w.records.Keys == {id}
  }

  lemma OpenedReachable(api: Limits)
    ensures Reachable(Opened(api)) && Opened(api) == World(0, api, map[AGENT := PACKAGE], map[], map[])
  {
    assert Init(0, api) == Execute(Init(0, api), []);
    hide Execute;
    StepReachable(Init(0, api), Define(AGENT, Some(PACKAGE)));
    assert map[][AGENT := PACKAGE] == map[AGENT := PACKAGE];
  }

  lemma FirstRun(api: Limits)
    requires 1 <= api.maxQueued
    ensures var w := Next(Opened(api), Create("r", ORDER));
            Alone(w, api, "r") && w.records["r"] == CreateRun("r", ORDER, map[AGENT := PACKAGE], 0).rec && w.now == 0
  {
    OpenedReachable(api);
    var w := Opened(api);
    OrderCommits("r", w.definitions, 0);
    hide Reachable, WorldInv, CreateRun, Apply, Opened;
    ReachableInv(w);
    StepReachable(w, Create("r", ORDER));
    var out := CreateRun("r", ORDER, w.definitions, 0);
    forall s ensures Members(w.records, s, Queued) == {} {}
    RoomApplies(w, "r", out);
    assert Next(w, Create("r", ORDER)) == Apply(w, "r", out);
  }

  /** An only Run finds room for every move under positive limits. */
  lemma AloneStep(w: World, api: Limits, id: string, a: Action)
    requires Alone(w, api, id) && Act(w.records[id], a, EnvOf(w, w.records[id].run)).Committed?
    requires var out := Act(w.records[id], a, EnvOf(w, w.records[id].run));
             out.move.Some? ==>
               && out.rec.run.dispatch != w.records[id].run.dispatch
               && (|| out.move.value.to == Queued || out.move.value.to == Finished
                   || (out.move.value.to == Claimed && !out.move.value.api))
    ensures var next := Next(w, Do(id, a));
            && Alone(next, api, id) && next.now == w.now
            && next.records[id] == Act(w.records[id], a, EnvOf(w, w.records[id].run)).rec
  {
    hide Reachable, CountsAgree, CapsHold, Act, Apply, ScopeSet;
    ReachableInv(w);
    StepReachable(w, Do(id, a));
    var rec := w.records[id];
    var out := Act(rec, a, EnvOf(w, rec.run));
    MoveFrom(w, id, a);
    if out.move.Some? {
      forall s ensures Members(w.records, s, out.move.value.to) == {} {}
    }
    RoomApplies(w, id, out);
    DoApplies(w, id, a);
  }

  lemma MoveFrom(w: World, id: string, a: Action)
    requires WorldInv(w) && id in w.records
    ensures var out := Act(w.records[id], a, EnvOf(w, w.records[id].run));
            out.Committed? && out.move.Some? ==>
              out.move.value.from == w.records[id].run.dispatch && out.move.value.to == out.rec.run.dispatch
  {
    hide Act, RecordInv, CountsAgree, CapsHold, Evolves;
    ActSafe(w.records[id], w.now, a, EnvOf(w, w.records[id].run));
  }

  // ----- Runs that wait for a person, as many as one likes -----

  /** A Run that waits for a person, to be queued again when its time is up. */
  predicate Waits(run: Run) {
    && Parked(run) && ScopeSet(run) == SCOPES && run.waitingExpiresAt == Some(60 * SECOND)
    && run.plan.timeoutAction == ActionFallback && run.plan.fallbackTargetValid
  }

  /** At time zero "r" is at its worker and `n` further Runs wait for a person. */
  ghost predicate Parking(w: World, api: Limits, n: nat) {
    && Reachable(w) && w.api == api && w.now == 0 && 1 <= api.maxQueued
    && AGENT in w.definitions && w.definitions[AGENT] == PACKAGE
    && "r" in w.records && AtWorker(w.records["r"].run) && PackageOk(w.definitions, w.records["r"].run)
    && (forall id :: id in w.records && id != "r" ==> exists k: nat :: k < n && id == Name(k))
    && (forall k: nat :: k < n ==> Name(k) in w.records && Waits(w.records[Name(k)].run))
    && (forall k: nat :: n <= k ==> Name(k) !in w.records)
  }

  predicate AtWorker(run: Run) {
    run.dispatch == Claimed && ScopeSet(run) == SCOPES && run.leaseExpiresAt == Some(90 * SECOND)
  }

  lemma ParkingCounts(w: World, api: Limits, n: nat, s: Scope)
    requires Parking(w, api, n)
    ensures Members(w.records, s, Queued) == {}
    ensures Members(w.records, s, Claimed) <= {"r"}
  {
    hide Reachable, ScopeSet, Name;
    forall id | id in w.records && id != "r" ensures w.records[id].run.dispatch == Finished {
      var k: nat :| k < n && id == Name(k);
    }
  }

  const CLAIM: Action := Action.Claim("worker", 90)

  const PAUSE: Action := Action.Pause(1, 60)

  /** The three transactions that park a new Run, on its own record. */
  lemma ParkRecord(id: string, definitions: map<(string, string), Definition>)
    requires AGENT in definitions && definitions[AGENT] == PACKAGE
    ensures var created := CreateRun(id, ORDER, definitions, 0);
            && created.Committed? && PackageOk(definitions, created.rec.run)
            && var claimed := Act(created.rec, CLAIM, Env(0, true));
               && claimed.Committed? && claimed.move == Some(Move(Queued, Claimed, false))
               && AtWorker(claimed.rec.run) && PackageOk(definitions, claimed.rec.run)
               && var paused := Act(claimed.rec, PAUSE, Env(0, true));
                  && paused.Committed? && paused.move == Some(Move(Claimed, Finished, false)) && Waits(paused.rec.run)
  {
  }

  lemma CreateApplies(w: World, api: Limits, n: nat)
    requires Parking(w, api, n)
    ensures var next := Next(w, Create(Name(n), ORDER));
            && Reachable(next) && next.now == 0 && next.api == api && next.definitions == w.definitions
            && next.records == w.records[Name(n) := CreateRun(Name(n), ORDER, w.definitions, 0).rec]
  {
    var id, step := Name(n), Create(Name(n), ORDER);
    OrderCommits(id, w.definitions, 0);
    forall s ensures Members(w.records, s, Queued) == {} {
      ParkingCounts(w, api, n, s);
    }
    hide Reachable, WorldInv, CreateRun, Apply, Members, ScopeSet, Name;
    ReachableInv(w);
    StepReachable(w, step);
    var out := CreateRun(id, ORDER, w.definitions, 0);
    RoomApplies(w, id, out);
    assert Next(w, step) == Apply(w, id, out);
  }

  /** A move with room, by an action on one Run. */
  lemma DoMoves(w: World, id: string, a: Action, env: Env)
    requires Reachable(w) && id in w.records && env == EnvOf(w, w.records[id].run)
    requires var out := Act(w.records[id], a, env);
             && out.Committed?
             && (out.move.Some? ==>
                   var m := out.move.value;
                   m.from != m.to && Room(w, out.rec.run, m.to, LimitsOf(w, m)))
    ensures var next := Next(w, Do(id, a));
            && Reachable(next) && next.now == w.now && next.api == w.api && next.definitions == w.definitions
            && next.records == w.records[id := Act(w.records[id], a, env).rec]
  {
    hide Reachable, WorldInv, Act, Apply, Room, EnvOf, Next;
    ReachableInv(w);
    StepReachable(w, Do(id, a));
    RoomApplies(w, id, Act(w.records[id], a, env));
    DoApplies(w, id, a);
  }

  lemma ClaimRoom(w: World, api: Limits, n: nat, rec: Record, run: Run)
    requires Parking(w, api, n) && rec.run.dispatch == Queued
    ensures Room(w.(records := w.records[Name(n) := rec]), run, Claimed, DEFAULT_LIMITS)
  {
    var records := w.records[Name(n) := rec];
    forall s ensures |Members(records, s, Claimed)| <= 1 {
      ParkingCounts(w, api, n, s);
      assert Members(records, s, Claimed) <= {"r"};
      Smaller(Members(records, s, Claimed), {"r"});
    }
  }

  /** The new Run's record after each of its three transactions. */
  function Ordered(n: nat, definitions: map<(string, string), Definition>): Outcome {
    CreateRun(Name(n), ORDER, definitions, 0)
  }

  function Taken(n: nat, definitions: map<(string, string), Definition>): Outcome
    requires Ordered(n, definitions).Committed?
  {
    Act(Ordered(n, definitions).rec, CLAIM, Env(0, true))
  }

  lemma ParkCreates(w: World, api: Limits, n: nat) returns (next: World)
    requires Parking(w, api, n)
    ensures Ordered(n, w.definitions).Committed?
    ensures Reachable(next) && next.now == 0 && next.api == api && next.definitions == w.definitions
    ensures next.records == w.records[Name(n) := Ordered(n, w.definitions).rec]
    ensures Ordered(n, w.definitions).rec.run.dispatch == Queued
    ensures EnvOf(next, Ordered(n, w.definitions).rec.run) == Env(0, true)
  {
    ParkRecord(Name(n), w.definitions);
    OrderCommits(Name(n), w.definitions, 0);
    CreateApplies(w, api, n);
    hide CreateRun, Next, ScopeSet, Name, Waits, AtWorker, Parking;
    next := Next(w, Create(Name(n), ORDER));
  }

  lemma TakenMoves(n: nat, definitions: map<(string, string), Definition>)
    requires AGENT in definitions && definitions[AGENT] == PACKAGE
    ensures Ordered(n, definitions).Committed?
    ensures Taken(n, definitions).Committed? && Taken(n, definitions).move == Some(Move(Queued, Claimed, false))
  {
    ParkRecord(Name(n), definitions);
  }

  lemma ParkClaims(w: World, api: Limits, n: nat) returns (next: World)
    requires Parking(w, api, n)
    ensures Ordered(n, w.definitions).Committed? && Taken(n, w.definitions).Committed?
    ensures Reachable(next) && next.now == 0 && next.api == api && next.definitions == w.definitions
    ensures next.records == w.records[Name(n) := Taken(n, w.definitions).rec]
  {
    var w1 := ParkCreates(w, api, n);
    TakenMoves(n, w.definitions);
    var rec1 := Ordered(n, w.definitions).rec;
    var run2 := Taken(n, w.definitions).rec.run;
    ClaimRoom(w, api, n, rec1, run2);
    hide Act, CreateRun, Next, Room, ScopeSet, Name, Parking, Ordered, EnvOf, Reachable;
    RoomByRecords(w.(records := w.records[Name(n) := rec1]), w1, run2, Claimed, DEFAULT_LIMITS);
    DoMoves(w1, Name(n), CLAIM, Env(0, true));
    next := Next(w1, Do(Name(n), CLAIM));
    assert w.records[Name(n) := rec1][Name(n) := Taken(n, w.definitions).rec]
           == w.records[Name(n) := Taken(n, w.definitions).rec];
  }

  lemma Parks(w: World, api: Limits, n: nat) returns (next: World)
    requires Parking(w, api, n)
    ensures Parking(next, api, n + 1)
  {
    var w2 := ParkClaims(w, api, n);
    ParkRecord(Name(n), w.definitions);
    var rec2 := Taken(n, w.definitions).rec;
    hide Act, CreateRun, Next, Room, ScopeSet, Name, Waits, AtWorker, PackageOk, Parking, Taken, Ordered;
    var rec3 := Act(rec2, PAUSE, Env(0, true)).rec;
    NoRoomNeeded(w2, rec3.run, DEFAULT_LIMITS);
    DoMoves(w2, Name(n), PAUSE, Env(0, true));
    next := Next(w2, Do(Name(n), PAUSE));
    assert next.records == w.records[Name(n) := rec3];
    ParkingGrows(w, next, api, n, rec3);
  }

  lemma RoomByRecords(w: World, v: World, run: Run, d: DispatchState, limits: Limits)
    requires v.records == w.records && Room(w, run, d, limits)
    ensures Room(v, run, d, limits)
  {
  }

  lemma NoRoomNeeded(w: World, run: Run, limits: Limits)
    ensures Room(w, run, Finished, limits)
  {
  }

  lemma ParkingGrows(w: World, next: World, api: Limits, n: nat, rec: Record)
    requires Parking(w, api, n) && Reachable(next) && next.api == api && next.now == 0
    requires next.definitions == w.definitions && next.records == w.records[Name(n) := rec] && Waits(rec.run)
    ensures Parking(next, api, n + 1)
  {
    hide Reachable, Waits, AtWorker, PackageOk, Name;
    NamesDiffer(n, n);
    forall k: nat | n + 1 <= k ensures Name(k) !in next.records {
      NamesDiffer(k, n);
    }
    forall k: nat | k < n + 1 ensures Name(k) in next.records && Waits(next.records[Name(k)].run) {
      NamesDiffer(k, n);
    }
    forall id | id in next.records && id != "r" ensures exists k: nat :: k < n + 1 && id == Name(k) {
      if id != Name(n) {
        var k: nat :| k < n && id == Name(k);
      }
    }
  }

  lemma {:induction false} ParkingUp(api: Limits, n: nat)
    requires 1 <= api.maxQueued
    ensures exists w: World :: Parking(w, api, n)
    decreases n
  {
    hide Parking;
    if n == 0 {
      ParkingZero(api);
    } else {
      ParkingUp(api, n - 1);
      var w: World :| Parking(w, api, n - 1);
      var next := Parks(w, api, n - 1);
      assert Parking(next, api, n);
    }
  }

  lemma ParkingZero(api: Limits)
    requires 1 <= api.maxQueued
    ensures exists w: World :: Parking(w, api, 0)
  {
    FirstRun(api);
    var w0 := Next(Opened(api), Create("r", ORDER));
    hide Reachable, Next, Opened;
    AloneStep(w0, api, "r", CLAIM);
    var w1 := Next(w0, Do("r", CLAIM));
    forall m: nat ensures Name(m) !in w1.records {
      NamesDiffer(m, m);
    }
    assert Parking(w1, api, 0);
  }

  // ----- Their time is up -----

  /** Of the `n` Runs the first `m` are queued again and the others still wait, past their time, as "r" is past its. */
  ghost predicate Refilling(w: World, api: Limits, n: nat, m: nat) {
    && m <= n && Reachable(w) && w.api == api && w.now == 91 * SECOND
    && Lapsed(w, "r")
    && (forall s :: s in SCOPES ==> |Members(w.records, s, Queued)| == m)
    && (forall id :: id in w.records && id != "r" ==>
          w.records[id].run.dispatch == Queued || exists k: nat :: m <= k < n && id == Name(k))
    && (forall k: nat :: m <= k < n ==> Name(k) in w.records && Waits(w.records[Name(k)].run))
  }

  lemma TimeIsUp(w: World, api: Limits, n: nat)
    requires Parking(w, api, n)
    ensures Refilling(Next(w, Tick(91 * SECOND)), api, n, 0)
  {
    var next := Next(w, Tick(91 * SECOND));
    forall s ensures Members(next.records, s, Queued) == {} {
      ParkingCounts(w, api, n, s);
    }
    hide Reachable, Members, ScopeSet, Name, Waits;
    StepReachable(w, Tick(91 * SECOND));
  }

  /** What the reconciler does with a Run that has waited too long. */
  lemma WaitedTooLongRequeues(rec: Record, env: Env)
    requires Waits(rec.run)
    ensures var out := Act(rec, Requeue(rec.run, env.now), env);
            && out.Committed? && out.move == Some(Move(Finished, Queued, false))
            && out.rec.run.dispatch == Queued && ScopeSet(out.rec.run) == SCOPES
  {
  }

  lemma EnvNow(w: World, run: Run)
    ensures EnvOf(w, run).now == w.now
  {
  }

  lemma Refills(w: World, api: Limits, n: nat, m: nat) returns (next: World)
    requires Refilling(w, api, n, m) && m < n && m < DEFAULT_LIMITS.maxQueued
    ensures Refilling(next, api, n, m + 1)
  {
    hide Reachable, Act, Next, Members, ScopeSet, Name, Waits, EnvOf, Lapsed;
    var id := Name(m);
    var rec, env := w.records[id], EnvOf(w, w.records[id].run);
    var a := Requeue(rec.run, w.now);
    EnvNow(w, rec.run);
    WaitedTooLongRequeues(rec, env);
    var out := Act(rec, a, env);
    assert Room(w, out.rec.run, Queued, DEFAULT_LIMITS);
    hide Room, Refilling;
    DoMoves(w, id, a, env);
    NamesDiffer(m, m);
    next := Next(w, Do(id, a));
    RefillingGrows(w, next, api, n, m, out.rec);
  }

  lemma WaitsInScopes(run: Run)
    requires Waits(run)
    ensures ScopeSet(run) == SCOPES && run.dispatch == Finished
  {
  }

  lemma RefillingGrows(w: World, next: World, api: Limits, n: nat, m: nat, rec: Record)
    requires Refilling(w, api, n, m) && m < n && Reachable(next) && next.api == api && next.now == w.now
    requires next.definitions == w.definitions && next.records == w.records[Name(m) := rec]
    requires rec.run.dispatch == Queued && ScopeSet(rec.run) == SCOPES
    ensures Refilling(next, api, n, m + 1)
  {
    hide Reachable, Members, ScopeSet, Name, Waits, PackageOk;
    NamesDiffer(m, m);
    WaitsInScopes(w.records[Name(m)].run);
    forall s | s in SCOPES ensures |Members(next.records, s, Queued)| == m + 1 {
      MembersUpdate(w.records, Name(m), rec, s, Queued);
    }
    forall k: nat | m + 1 <= k < n ensures Name(k) in next.records && Waits(next.records[Name(k)].run) {
      NamesDiffer(k, m);
    }
    forall id | id in next.records && id != "r"
      ensures next.records[id].run.dispatch == Queued || exists k: nat :: m + 1 <= k < n && id == Name(k)
    {
      if id != Name(m) && w.records[id].run.dispatch != Queued {
        var k: nat :| m <= k < n && id == Name(k);
        assert m + 1 <= k;
      }
    }
  }

  lemma {:induction false} RefillingUp(api: Limits, n: nat, m: nat)
    requires 1 <= api.maxQueued && m <= n <= DEFAULT_LIMITS.maxQueued
    ensures exists w: World :: Refilling(w, api, n, m)
    decreases m
  {
    hide Refilling, Parking, Next;
    if m == 0 {
      ParkingUp(api, n);
      var w: World :| Parking(w, api, n);
      TimeIsUp(w, api, n);
    } else {
      RefillingUp(api, n, m - 1);
      var w: World :| Refilling(w, api, n, m - 1);
      var next := Refills(w, api, n, m - 1);
      assert Refilling(next, api, n, m);
    }
  }

  /** Whatever the API's limit, if it admits anything, a default queue can be filled while a lease has run out. */
  lemma StageUp(api: Limits, n: nat)
    requires 1 <= api.maxQueued && n <= DEFAULT_LIMITS.maxQueued
    ensures exists w: World :: Stage(w, api, n)
  {
    hide Reachable, Members, Name, Waits, Lapsed;
    RefillingUp(api, n, n);
    var w: World :| Refilling(w, api, n, n);
    assert Stage(w, api, n);
  }

  // ----- The API's limit -----

  lemma LapsedRequeues(w: World, id: string)
    requires Lapsed(w, id)
    ensures Requeues(Reaping, w.records[id], EnvOf(w, w.records[id].run))
    ensures var run := w.records[id].run;
            var out := Act(w.records[id], Reap(run.status, w.now, true), EnvOf(w, run));
            && out.Committed? && out.move == Some(Move(Claimed, Queued, false))
            && out.rec.run.dispatch == Queued && ScopeSet(out.rec.run) == SCOPES
  {
  }

  lemma DoApplies(w: World, id: string, a: Action)
    requires id in w.records
    ensures Next(w, Do(id, a)) == Apply(w, id, Act(w.records[id], a, EnvOf(w, w.records[id].run)))
  {
    hide Act, Apply, EnvOf;
  }

  /** The API's queue limit holds in every reachable state if and only if it admits nothing at all or is no lower than
      the default that reaper and reconciler admit under. */
  lemma ApiLimitExact(api: Limits)
    ensures ApiLimitHolds(api) <==> api.maxQueued <= 0 || api.maxQueued >= DEFAULT_LIMITS.maxQueued
  {
    hide Reachable, Stage, Members;
    if api.maxQueued <= 0 {
      forall w: World, s: Scope | Reachable(w) && w.api == api
        ensures Get(w.buckets, s).queued <= Max(0, api.maxQueued)
      {
        NoQueueWithoutLimit(w, s);
      }
    } else if api.maxQueued >= DEFAULT_LIMITS.maxQueued {
      forall w: World, s: Scope | Reachable(w) && w.api == api
        ensures Get(w.buckets, s).queued <= Max(0, api.maxQueued)
      {
        AdmissionExact(w, s);
      }
    } else {
      StageUp(api, DEFAULT_LIMITS.maxQueued);
      var w: World :| Stage(w, api, DEFAULT_LIMITS.maxQueued);
      StageQueue(w, api, DEFAULT_LIMITS.maxQueued);
      assert Get(w.buckets, Global).queued > Max(0, api.maxQueued);
    }
  }

  lemma StageQueue(w: World, api: Limits, n: nat)
    requires Stage(w, api, n)
    ensures Reachable(w) && w.api == api && Get(w.buckets, Global).queued == n
  {
    hide Reachable, Members, Lapsed;
    assert Global in SCOPES;
    AdmissionExact(w, Global);
  }

  // ----- A pass that raises -----

  lemma {:induction false} ReapingLeavesQueues(w: World, api: Limits, n: nat, order: seq<string>, s: Scope)
    requires Stage(w, api, n) && "r" !in order && s in SCOPES
    ensures QueueAfter(w, Reaping, order, s) == n
  {
    hide Reachable, Members, ScopeSet, Name;
    if order != [] {
      ReapingLeavesQueues(w, api, n, order[..|order| - 1], s);
      assert order[|order| - 1] in order;
    }
  }

  lemma {:induction false} FirstPlace(order: seq<string>, id: string) returns (i: nat)
    requires id in order
    ensures i < |order| && order[i] == id && id !in order[..i]
    decreases |order|
  {
    if order[0] == id {
      i := 0;
    } else {
      assert order == [order[0]] + order[1..];
      i := FirstPlace(order[1..], id);
      i := i + 1;
      assert order[..i] == [order[0]] + order[1..][..i - 1];
    }
  }

  /** The reconciler can be stuck: whatever API limit admits anything, there is a reachable state in which every pass
      that gets to one Run raises, whatever the order and the authorizations it reads. */
  lemma PassStuck(api: Limits)
    requires 1 <= api.maxQueued
    ensures exists w: World :: Reachable(w) && w.api == api && Stuck(w, "r")
  {
    hide Reachable, Stage, Stuck;
    StageUp(api, DEFAULT_LIMITS.maxQueued);
    var w: World :| Stage(w, api, DEFAULT_LIMITS.maxQueued);
    StageStuck(w, api);
  }

  /** Some pass over some reachable state raises. */
  ghost predicate SomePassRaises(api: Limits) {
    exists w: World, resolved: map<string, int>, order: seq<string> ::
      Reachable(w) && w.api == api && Once(order) && Pass(w, resolved, order).None?
  }

  lemma DormantNeverRequeues(w: World, phase: Phase, id: string)
    requires AllDormant(w) && id in w.records
    ensures !Requeues(phase, w.records[id], EnvOf(w, w.records[id].run))
    ensures phase == Reaping ==> Idle(w, phase, id)
  {
    hide NeedsDispatch, HasDeadLetter;
  }

  lemma {:induction false} SweepIdle(w: World, phase: Phase, order: seq<string>)
    requires forall id :: id in order ==> Idle(w, phase, id)
    ensures Sweep(w, phase, order) == Some(w)
  {
    hide Decide;
    if order != [] {
      SweepIdle(w, phase, order[..|order| - 1]);
      assert order[|order| - 1] in order;
    }
  }

  lemma DormantNeverRaises(w: World, resolved: map<string, int>, order: seq<string>)
    requires WorldInv(w) && AllDormant(w) && Once(order)
    ensures Pass(w, resolved, order).Some?
  {
    forall phase: Phase, id | id in w.records
      ensures !Requeues(phase, w.records[id], EnvOf(w, w.records[id].run)) && (phase == Reaping ==> Idle(w, phase, id))
    {
      DormantNeverRequeues(w, phase, id);
    }
    hide WorldInv, AllDormant, Pass, Sweep, Requeues, Idle;
    assert forall id :: id in order ==> Idle(w, Reaping, id) by { IdleAbsent(w, Reaping); }
    SweepIdle(w, Reaping, order);
    PassRaisesExactly(w, resolved, order);
  }

  lemma IdleAbsent(w: World, phase: Phase)
    ensures forall id :: id !in w.records ==> Idle(w, phase, id)
  {
  }

  /** A pass can raise in some reachable state if and only if the API admits anything to the queue. */
  lemma RaisingExact(api: Limits)
    ensures SomePassRaises(api) <==> api.maxQueued >= 1
  {
    if api.maxQueued >= 1 {
      hide Reachable, Pass;
      PassStuck(api);
      var w: World :| Reachable(w) && w.api == api && Stuck(w, "r");
      assert Once(["r"]) && Pass(w, map[], ["r"]).None?;
    } else {
      hide Execute, Pass, WorldInv, AllDormant;
      forall w: World, resolved: map<string, int>, order: seq<string> | Reachable(w) && w.api == api && Once(order)
        ensures Pass(w, resolved, order).Some?
      {
        ReachableInv(w);
        ReachableDormant(w);
        DormantNeverRaises(w, resolved, order);
      }
    }
  }

  ghost predicate Stuck(w: World, id: string) {
    forall order: seq<string>, resolved: map<string, int> :: Once(order) && id in order ==>
      Pass(w, resolved, order).None?
  }

  lemma StageStuck(w: World, api: Limits)
    requires Stage(w, api, DEFAULT_LIMITS.maxQueued)
    ensures Reachable(w) && w.api == api && Stuck(w, "r")
  {
    forall order: seq<string>, resolved: map<string, int> | Once(order) && "r" in order
      ensures Pass(w, resolved, order).None?
    {
      StageRaises(w, api, order, resolved);
    }
  }

  lemma StageRaises(w: World, api: Limits, order: seq<string>, resolved: map<string, int>)
    requires Stage(w, api, DEFAULT_LIMITS.maxQueued) && Once(order) && "r" in order
    ensures Pass(w, resolved, order).None?
  {
    var i := FirstPlace(order, "r");
    LapsedRequeues(w, "r");
    hide Reachable, WorldInv, Pass, Sweep, Members, ScopeSet, Requeues, Name, QueueAfter;
    ReachableInv(w);
    assert Global in SCOPES;
    ReapingLeavesQueues(w, api, DEFAULT_LIMITS.maxQueued, order[..i], Global);
    assert RaisesAt(w, Reaping, order, i);
    PassRaisesExactly(w, resolved, order);
  }
}
