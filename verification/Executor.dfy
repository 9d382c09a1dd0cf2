/** The workflow executor: static plan nodes in order, each behind its safety checks. */
module Executor {
  import opened Options
  import opened BoundedLoop

  /** A plan node; `next` is its declared successors, if the plan declares any. */
  datatype Node = Node(id: string, optional: bool, safeToRerun: Option<bool>, maxRetries: int,
                       next: Option<seq<string>>)

  /** A raw plan entry, missing when it is no node. */
  type PlanEntry = Option<Node>

  datatype ExecStatus = RunSucceeded | RunPartial | RunFailed | RunCancelled | RunDrained | RunWaiting | RunRaised

  /** One call of the node runner. */
  datatype Attempt = AttemptDone(waitingHuman: bool) | AttemptRetryable | AttemptRaised

  datatype Body =
    | BodyDone(waitingHuman: bool)
    | BodyRaised
    | BodyRetriesExhausted
    | BodyLoopEarly(status: ExecStatus)
    | BodyLoopDone(partial: bool)

  /** A bounded loop as the executor starts it. */
  datatype LoopRun = LoopRun(node: LoopNode, limits: Limits, used: Used, turns: nat -> LoopTurn)

  /** What the runner does with the node: single calls, or a bounded loop, missing when it raises as a whole. */
  datatype Work = Calls(attempt: nat -> Attempt) | Loop(loop: Option<LoopRun>)

  function VerdictFor(r: LoopRun): LoopVerdict {
    VerdictOf(r.node, r.limits, r.used, r.turns)
  }

  predicate PartialWork(work: Work) {
    work.Loop? && work.loop.Some? && VerdictFor(work.loop.value) == LoopDone(true)
  }

  function StopStatus(stop: Stop): ExecStatus {
    match stop
    case LoopCancelled => RunCancelled
    case LoopDraining => RunDrained
    case _ => RunFailed
  }

  function LoopBody(verdict: LoopVerdict): Body {
    match verdict
    case LoopEarly(stop) => BodyLoopEarly(StopStatus(stop))
    case LoopDone(partial) => BodyLoopDone(partial)
  }

  /** What the checks around one node answer. */
  datatype NodeEnv = NodeEnv(
    withinBudget: bool, writable: bool, authorized: bool, packageOk: bool, draining: bool, renewed: bool,
    work: Work, stillWritable: bool, drainingAfter: bool, artifactSaved: bool, fallbackValid: bool,
    checkpointSaved: bool, approvalTtlValid: bool, paused: bool)

  /** `saved` says whether a node that ends the run is in the checkpoint as completed. */
  datatype Verdict = Passed(partialLoop: bool) | OptionalFailed | Stopped(status: ExecStatus, saved: bool)

  /** Calls the node until it does not ask for a retry, and at most `maxRetries` times more. */
  method RunNode(node: Node, attempt: nat -> Attempt) returns (body: Body, calls: nat)
    ensures 1 <= calls <= 1 + (if node.maxRetries < 0 then 0 else node.maxRetries)
    ensures forall k :: 0 <= k < calls - 1 ==> attempt(k) == AttemptRetryable
    ensures body == match attempt(calls - 1)
                    case AttemptDone(waiting) => BodyDone(waiting)
                    case AttemptRaised => BodyRaised
                    case AttemptRetryable => BodyRetriesExhausted
    ensures attempt(calls - 1) == AttemptRetryable ==> node.maxRetries <= calls - 1
  {
    calls := 0;
    while true
      invariant calls <= (if node.maxRetries < 0 then 0 else node.maxRetries)
      invariant forall k :: 0 <= k < calls ==> attempt(k) == AttemptRetryable
      decreases node.maxRetries - calls
    {
      var answer := attempt(calls);
      calls := calls + 1;
      match answer {
        case AttemptDone(waiting) => return BodyDone(waiting), calls;
        case AttemptRaised => return BodyRaised, calls;
        case AttemptRetryable =>
          if calls - 1 >= node.maxRetries {
            return BodyRetriesExhausted, calls;
          }
      }
    }
  }

  function Retries(node: Node): nat {
    if node.maxRetries < 0 then 0 else node.maxRetries
  }

  /** Call `k` is the first that does not ask for a retry, or the last one allowed. */
  ghost predicate EndsAt(node: Node, attempt: nat -> Attempt, k: nat) {
    && k <= Retries(node)
    && (forall j :: 0 <= j < k ==> attempt(j) == AttemptRetryable)
    && (attempt(k) == AttemptRetryable ==> k == Retries(node))
  }

  /** The node's work gets done without waiting for a person. */
  ghost predicate WorkDone(node: Node, work: Work) {
    match work
    case Calls(attempt) => exists k: nat :: EndsAt(node, attempt, k) && attempt(k) == AttemptDone(false)
    case Loop(loop) => loop.Some? && VerdictFor(loop.value).LoopDone?
  }

  ghost predicate WorkRaises(node: Node, work: Work) {
    match work
    case Calls(attempt) => exists k: nat :: EndsAt(node, attempt, k) && attempt(k) == AttemptRaised
    case Loop(loop) => loop.None?
  }

  predicate Cleared(e: NodeEnv) {
    e.withinBudget && e.writable && e.authorized && e.packageOk && !e.draining && e.renewed
  }

  /** The node's work ends asking for a person. */
  ghost predicate WorkWaits(node: Node, work: Work) {
    work.Calls? && exists k: nat :: EndsAt(node, work.attempt, k) && work.attempt(k) == AttemptDone(true)
  }

  /** The node's loop ends the whole run. */
  predicate LoopStops(work: Work, stop: Stop) {
    work.Loop? && work.loop.Some? && VerdictFor(work.loop.value) == LoopEarly(stop)
  }

  /** The node is ready for its checkpoint: worked to an end, its result kept, and where a person is asked for, with a
      fallback that can be. */
  ghost predicate Kept(node: Node, e: NodeEnv) {
    && Cleared(e) && (WorkDone(node, e.work) || WorkWaits(node, e.work))
    && e.stillWritable && e.artifactSaved && (WorkWaits(node, e.work) ==> e.fallbackValid)
  }

  /** Everything a node needs to complete. */
  ghost predicate Passes(node: Node, e: NodeEnv) {
    Kept(node, e) && WorkDone(node, e.work) && e.checkpointSaved && !e.drainingAfter
  }

  // ----- Why a node ends the run -----

  ghost predicate WaitsAt(node: Node, e: NodeEnv) {
    && Kept(node, e) && e.checkpointSaved && !e.drainingAfter
    && WorkWaits(node, e.work) && e.approvalTtlValid && e.paused
  }

  ghost predicate CancelsAt(e: NodeEnv) {
    || (e.withinBudget && e.writable && (!e.authorized || !e.packageOk))
    || (Cleared(e) && LoopStops(e.work, LoopCancelled))
  }

  ghost predicate DrainsAt(node: Node, e: NodeEnv) {
    || (e.withinBudget && e.writable && e.authorized && e.packageOk && e.draining)
    || (Cleared(e) && LoopStops(e.work, LoopDraining))
    || (Kept(node, e) && e.checkpointSaved && e.drainingAfter)
  }

  ghost predicate RaisesAt(node: Node, e: NodeEnv) {
    Kept(node, e) && !e.checkpointSaved
  }

  /** The status the node ends the run with, case by case; whatever has no case of its own is a failure. */
  ghost predicate EndsWith(node: Node, e: NodeEnv, status: ExecStatus) {
    && (status == RunWaiting <==> WaitsAt(node, e))
    && (status == RunCancelled <==> CancelsAt(e))
    && (status == RunDrained <==> DrainsAt(node, e))
    && (status == RunRaised <==> RaisesAt(node, e))
    && status != RunSucceeded && status != RunPartial
  }

  lemma EndsOnce(node: Node, attempt: nat -> Attempt, k: nat, n: nat)
    requires EndsAt(node, attempt, k) && EndsAt(node, attempt, n)
    ensures k == n
  {
  }

  /** The node's work, whichever way it is done. */
  method DoWork(node: Node, work: Work, state: AgentState) returns (body: Body)
    modifies state
    ensures body.BodyRaised? <==> WorkRaises(node, work)
    ensures body == BodyDone(false) || body.BodyLoopDone? <==> WorkDone(node, work)
    ensures body == BodyDone(true) <==> WorkWaits(node, work)
    ensures PartialWork(work) <==> body == BodyLoopDone(true)
    ensures body == BodyLoopEarly(RunCancelled) <==> LoopStops(work, LoopCancelled)
    ensures body == BodyLoopEarly(RunDrained) <==> LoopStops(work, LoopDraining)
    ensures body.BodyLoopEarly? ==> body.status in {RunCancelled, RunDrained, RunFailed}
  {
    match work {
      case Calls(attempt) =>
        var calls;
        body, calls := RunNode(node, attempt);
        assert EndsAt(node, attempt, calls - 1);
        forall k: nat | EndsAt(node, attempt, k) ensures k == calls - 1 {
          EndsOnce(node, attempt, k, calls - 1);
        }
      case Loop(None) => body := BodyRaised;
      case Loop(Some(r)) =>
        var verdict, bodyCalls := RunBoundedLoopNode(r.node, state, r.limits, r.used, r.turns);
        body := LoopBody(verdict);
    }
  }

  /** One node that is due: checks, body, artifact, checkpoint. */
  method VisitNode(node: Node, e: NodeEnv, published: bool, state: AgentState) returns (v: Verdict)
    modifies state
    ensures v.Passed? <==> Passes(node, e)
    ensures v.OptionalFailed? <==> node.optional && published && Cleared(e) && WorkRaises(node, e.work)
    ensures v.Passed? ==> v.partialLoop == PartialWork(e.work)
    ensures v.Stopped? ==> EndsWith(node, e, v.status) && (v.saved <==> Kept(node, e) && e.checkpointSaved)
  {
    hide WorkDone, WorkWaits, WorkRaises, PartialWork, LoopStops;
    if !e.withinBudget || !e.writable {
      return Stopped(RunFailed, false);
    }
    if !e.authorized || !e.packageOk {
      return Stopped(RunCancelled, false);
    }
    if e.draining {
      return Stopped(RunDrained, false);
    }
    if !e.renewed {
      return Stopped(RunFailed, false);
    }
    var body := DoWork(node, e.work, state);
    if body.BodyLoopEarly? {
      return Stopped(body.status, false);
    }
    if body.BodyRetriesExhausted? {
      return Stopped(RunFailed, false);
    }
    if body.BodyRaised? {
      return if node.optional && published then OptionalFailed else Stopped(RunFailed, false);
    }
    if !e.stillWritable || !e.artifactSaved {
      return Stopped(RunFailed, false);
    }
    var waiting := body.BodyDone? && body.waitingHuman;
    if waiting && !e.fallbackValid {
      return Stopped(RunFailed, false);
    }
    if !e.checkpointSaved {
      return Stopped(RunRaised, false);
    }
    if e.drainingAfter {
      return Stopped(RunDrained, true);
    }
    if waiting {
      return Stopped(if e.approvalTtlValid && e.paused then RunWaiting else RunFailed, true);
    }
    return Passed(body.BodyLoopDone? && body.partial);
  }

  /** Node `k` leads to the node after it: it says so, or says nothing. */
  predicate LeadsOn(plan: seq<PlanEntry>, k: nat)
    requires k < |plan| && forall i :: 0 <= i < |plan| ==> plan[i].Some?
  {
    var declared := plan[k].value.next;
    declared.None? || declared.value == [] || (k + 1 < |plan| && declared.value == [plan[k + 1].value.id])
  }

  /** What the static graph demands of a plan before anything runs: nodes with distinct ids, in one line. */
  predicate StaticGraph(plan: seq<PlanEntry>) {
    && plan != []
    && (forall i :: 0 <= i < |plan| ==> plan[i].Some?)
    && (forall i, j :: 0 <= i < j < |plan| ==> plan[i].value.id != plan[j].value.id)
    && forall k :: 0 <= k < |plan| ==> LeadsOn(plan, k)
  }

  /** Builds the static graph: every entry a node, no id twice, and each node declaring the edge to the next or none. */
  method BuildGraph(plan: seq<PlanEntry>) returns (ok: bool)
    ensures ok <==> StaticGraph(plan)
  {
    if plan == [] {
      return false;
    }
    var seen: set<string> := {};
    for k := 0 to |plan|
      invariant forall i :: 0 <= i < k ==> plan[i].Some?
      invariant seen == set i | 0 <= i < k :: plan[i].value.id
      invariant forall i, j :: 0 <= i < j < k ==> plan[i].value.id != plan[j].value.id
    {
      if plan[k].None? {
        return false;
      }
      if plan[k].value.id in seen {
        ghost var i :| 0 <= i < k && plan[i].value.id == plan[k].value.id;
        return false;
      }
      seen := seen + {plan[k].value.id};
    }
    for k := 0 to |plan|
      invariant forall i :: 0 <= i < k ==> LeadsOn(plan, i)
    {
      var expected := if k + 1 < |plan| then [plan[k + 1].value.id] else [];
      var declared := plan[k].value.next;
      if declared.Some? && declared.value != [] && declared.value != expected {
        assert !LeadsOn(plan, k);
        return false;
      }
    }
    return true;
  }

  /** How the executor dealt with each plan entry it passed over. */
  datatype Trace = SkippedBefore | SkippedDone | Ran(partialLoop: bool) | FailedOptional

  predicate Degraded(t: Trace) {
    t == FailedOptional || t == Ran(true)
  }

  ghost predicate AnyDegraded(traces: seq<Trace>) {
    exists k :: 0 <= k < |traces| && Degraded(traces[k])
  }

  ghost predicate ResumesLater(plan: seq<PlanEntry>, resumeFrom: Option<string>, k: nat) {
    resumeFrom.Some? && k < |plan| && forall j :: 0 <= j <= k ==> plan[j].Some? && plan[j].value.id != resumeFrom.value
  }

  /** Plan entry `k` is due: at or after the node to resume from, and not done before unless it may be repeated. */
  ghost predicate Due(plan: seq<PlanEntry>, k: nat, before: set<string>, resumeFrom: Option<string>)
    requires k < |plan| && plan[k].Some?
  {
    !ResumesLater(plan, resumeFrom, k) && (plan[k].value.id in before ==> plan[k].value.safeToRerun == Some(true))
  }

  /** What a trace entry says of plan entry `k`: skipped before the node to resume from, or as done by an earlier
      attempt and unsafe to repeat; else due, and failed only as optional and after publication, or run to the end. */
  ghost predicate Explains(plan: seq<PlanEntry>, k: nat, t: Trace, before: set<string>, completed: set<string>,
                           resumeFrom: Option<string>, env: nat -> NodeEnv) {
    && k < |plan| && plan[k].Some?
    && match t
       case SkippedBefore => ResumesLater(plan, resumeFrom, k)
       case SkippedDone =>
         && !ResumesLater(plan, resumeFrom, k)
         && plan[k].value.id in before && plan[k].value.safeToRerun == Some(false)
       case FailedOptional =>
         && Due(plan, k, before, resumeFrom)
         && plan[k].value.optional && "publish_document" in completed && WorkRaises(plan[k].value, env(k).work)
       case Ran(partialLoop) =>
         && Due(plan, k, before, resumeFrom)
         && plan[k].value.id in completed && Passes(plan[k].value, env(k))
         && partialLoop == PartialWork(env(k).work)
  }

  ghost predicate Explained(plan: seq<PlanEntry>, traces: seq<Trace>, before: set<string>, completed: set<string>,
                            resumeFrom: Option<string>, env: nat -> NodeEnv) {
    forall k :: 0 <= k < |traces| ==> Explains(plan, k, traces[k], before, completed, resumeFrom, env)
  }

  /** The nodes still to come are completed only if an earlier attempt completed them. */
  ghost predicate Ahead(plan: seq<PlanEntry>, k: nat, before: set<string>, completed: set<string>) {
    forall j :: k <= j < |plan| && plan[j].Some? && plan[j].value.id in completed ==> plan[j].value.id in before
  }

  lemma Advance(plan: seq<PlanEntry>, traces: seq<Trace>, before: set<string>, completed: set<string>,
                later: set<string>, resumeFrom: Option<string>, env: nat -> NodeEnv, t: Trace)
    requires StaticGraph(plan) && |traces| < |plan|
    requires Explained(plan, traces, before, completed, resumeFrom, env) && Ahead(plan, |traces|, before, completed)
    requires later == completed || (plan[|traces|].Some? && later == completed + {plan[|traces|].value.id})
    requires Explains(plan, |traces|, t, before, later, resumeFrom, env)
    ensures Explained(plan, traces + [t], before, later, resumeFrom, env) && Ahead(plan, |traces| + 1, before, later)
    ensures AnyDegraded(traces + [t]) <==> AnyDegraded(traces) || Degraded(t)
  {
    forall k | 0 <= k < |traces| ensures Explains(plan, k, traces[k], before, later, resumeFrom, env) {
      assert Explains(plan, k, traces[k], before, completed, resumeFrom, env);
    }
    if AnyDegraded(traces) {
      var k :| 0 <= k < |traces| && Degraded(traces[k]);
      assert Degraded((traces + [t])[k]);
    }
    if Degraded(t) {
      assert Degraded((traces + [t])[|traces|]);
    }
  }

  /** The node ends the run: as failed if it is done already with no word on whether it may be repeated, and else with
      the status its checks and its work come to; one that came to its checkpoint is completed all the same. */
  ghost predicate HaltsWith(node: Node, e: NodeEnv, before: set<string>, completed: set<string>, status: ExecStatus) {
    if node.id in before && node.safeToRerun.None? then status == RunFailed
    else
      && (node.id in before ==> node.safeToRerun == Some(true)) && !Passes(node, e) && EndsWith(node, e, status)
      && (node.id in completed <==> node.id in before || (Kept(node, e) && e.checkpointSaved))
  }

  // ----- The way in -----

  /** What is found before the first node: the plan's rows, a pending fallback and its declared target, the answers of
      the authority checks, and whether the state kept by an earlier attempt, if any, is one. */
  datatype Entry = Entry(planFound: bool, fallbackRequested: bool, fallbackTarget: Option<string>, authorized: bool,
                         packageOk: bool, writable: bool, draining: bool, stateValid: bool)

  ghost predicate InPlan(plan: seq<PlanEntry>, id: string) {
    exists k :: 0 <= k < |plan| && plan[k].Some? && plan[k].value.id == id
  }

  /** A fallback goes on at the declared target, which the checkpoint must name and the plan must have. */
  ghost predicate FallbackValid(plan: seq<PlanEntry>, entry: Entry, resumeFrom: Option<string>) {
    entry.fallbackRequested ==>
      resumeFrom.Some? && entry.fallbackTarget == resumeFrom && InPlan(plan, resumeFrom.value)
  }

  ghost predicate PlanOk(plan: seq<PlanEntry>, entry: Entry, resumeFrom: Option<string>) {
    entry.planFound && StaticGraph(plan) && FallbackValid(plan, entry, resumeFrom)
  }

  ghost predicate Enters(plan: seq<PlanEntry>, entry: Entry, resumeFrom: Option<string>) {
    && PlanOk(plan, entry, resumeFrom)
    && entry.authorized && entry.packageOk && entry.writable && !entry.draining && entry.stateValid
  }

  /** The status of a run that is not let in, case by case; whatever has no case of its own is a failure. */
  ghost predicate RefusedWith(plan: seq<PlanEntry>, entry: Entry, resumeFrom: Option<string>, status: ExecStatus) {
    var allowed := PlanOk(plan, entry, resumeFrom) && entry.authorized && entry.packageOk;
    && (status == RunCancelled <==> PlanOk(plan, entry, resumeFrom) && (!entry.authorized || !entry.packageOk))
    && (status == RunDrained <==> allowed && entry.writable && entry.draining)
    && (status == RunRaised <==> allowed && entry.writable && !entry.draining && !entry.stateValid)
    && status != RunSucceeded && status != RunPartial && status != RunWaiting
  }

  method HasNode(plan: seq<PlanEntry>, id: string) returns (found: bool)
    ensures found <==> InPlan(plan, id)
  {
    for k := 0 to |plan|
      invariant forall j :: 0 <= j < k && plan[j].Some? ==> plan[j].value.id != id
    {
      if plan[k].Some? && plan[k].value.id == id {
        return true;
      }
    }
    return false;
  }

  /** The checks before the first node, in their order; None lets the run go on from `from`. */
  method Enter(plan: seq<PlanEntry>, entry: Entry, resumeFrom: Option<string>)
    returns (stop: Option<ExecStatus>, from: Option<string>)
    ensures stop.None? <==> Enters(plan, entry, resumeFrom)
    ensures stop.Some? ==> RefusedWith(plan, entry, resumeFrom, stop.value)
    ensures stop.None? ==> from == if entry.fallbackRequested then resumeFrom else None
  {
    from := None;
    if !entry.planFound {
      return Some(RunFailed), from;
    }
    var linear := BuildGraph(plan);
    if !linear {
      return Some(RunFailed), from;
    }
    if entry.fallbackRequested {
      if resumeFrom.None? || entry.fallbackTarget != resumeFrom {
        return Some(RunFailed), from;
      }
      var found := HasNode(plan, resumeFrom.value);
      if !found {
        return Some(RunFailed), from;
      }
      from := resumeFrom;
    }
    if !entry.authorized || !entry.packageOk {
      return Some(RunCancelled), from;
    }
    if !entry.writable {
      return Some(RunFailed), from;
    }
    if entry.draining {
      return Some(RunDrained), from;
    }
    if !entry.stateValid {
      return Some(RunRaised), from;
    }
    return None, from;
  }

  // ----- The run -----

  /** Executes the plan; `before` is what earlier attempts completed, `resumeFrom` the fallback node a checkpoint names.
      Succeeded and partial mean that the whole plan was gone through, and differ in whether anything degraded; any
      other status means that an entry check failed or that the node after those gone through halts. */
  method Execute(plan: seq<PlanEntry>, entry: Entry, before: set<string>, resumeFrom: Option<string>,
                 env: nat -> NodeEnv, state: AgentState)
    returns (status: ExecStatus, completed: set<string>, traces: seq<Trace>)
    modifies state
    ensures |traces| <= |plan| && Explained(plan, traces, before, completed, Target(entry, resumeFrom), env)
    ensures status == RunSucceeded ==>
              Enters(plan, entry, resumeFrom) && |traces| == |plan| && !AnyDegraded(traces)
    ensures status == RunPartial ==>
              Enters(plan, entry, resumeFrom) && |traces| == |plan| && AnyDegraded(traces)
    ensures status != RunSucceeded && status != RunPartial ==>
              if !Enters(plan, entry, resumeFrom) then
                completed == before && traces == [] && RefusedWith(plan, entry, resumeFrom, status)
              else
                && |traces| < |plan| && plan[|traces|].Some?
                && !ResumesLater(plan, Target(entry, resumeFrom), |traces|)
                && HaltsWith(plan[|traces|].value, env(|traces|), before, completed, status)
  {
    completed, traces := before, [];
    var stop, from := Enter(plan, entry, resumeFrom);
    Begin(plan, before, Target(entry, resumeFrom), env);
    if stop.Some? {
      return stop.value, completed, traces;
    }
    // No content survives an earlier attempt: a fresh run and a resumed one both begin with no scenes.
    state.scenes := [];
    hide Explained, Ahead, AnyDegraded, ResumesLater, Passes, WorkRaises, Enters, RefusedWith, EndsWith, Kept;
    assert StaticGraph(plan) by { EntersGraph(plan, entry, resumeFrom); }
    var skipping := from.Some?;
    var degraded := false;
    for k := 0 to |plan|
      invariant |traces| == k && Explained(plan, traces, before, completed, from, env)
      invariant Ahead(plan, k, before, completed) && before <= completed
      invariant degraded <==> AnyDegraded(traces)
      invariant skipping <==> if k == 0 then from.Some? else ResumesLater(plan, from, k - 1)
    {
      var node := plan[k].value;
      StillLater(plan, from, k);
      if skipping {
        skipping := node.id != from.value;
        if skipping {
          Advance(plan, traces, before, completed, completed, from, env, SkippedBefore);
          traces := traces + [SkippedBefore];
          continue;
        }
      }
      if node.id in completed {
        DoneBefore(plan, k, before, completed);
        if node.safeToRerun.None? {
          return RunFailed, completed, traces;
        }
        if !node.safeToRerun.value {
          Advance(plan, traces, before, completed, completed, from, env, SkippedDone);
          traces := traces + [SkippedDone];
          continue;
        }
      }
      var v := VisitNode(node, env(k), "publish_document" in completed, state);
      match v {
        case Stopped(s, saved) =>
          if saved {
            Grows(plan, traces, before, completed, completed + {node.id}, from, env);
            completed := completed + {node.id};
          }
          return s, completed, traces;
        case OptionalFailed =>
          Advance(plan, traces, before, completed, completed, from, env, FailedOptional);
          traces, degraded := traces + [FailedOptional], true;
        case Passed(partialLoop) =>
          Advance(plan, traces, before, completed, completed + {node.id}, from, env, Ran(partialLoop));
          completed, traces, degraded := completed + {node.id}, traces + [Ran(partialLoop)], degraded || partialLoop;
      }
    }
    status := if degraded then RunPartial else RunSucceeded;
  }

  lemma Grows(plan: seq<PlanEntry>, traces: seq<Trace>, before: set<string>, completed: set<string>,
              later: set<string>, resumeFrom: Option<string>, env: nat -> NodeEnv)
    requires Explained(plan, traces, before, completed, resumeFrom, env) && completed <= later
    ensures Explained(plan, traces, before, later, resumeFrom, env)
  {
    hide Passes, WorkRaises, ResumesLater;
    forall k | 0 <= k < |traces| ensures Explains(plan, k, traces[k], before, later, resumeFrom, env) {
      assert Explains(plan, k, traces[k], before, completed, resumeFrom, env);
    }
  }

  /** Where a run goes on: at the fallback's target, or else at the plan's first node. */
  function Target(entry: Entry, resumeFrom: Option<string>): Option<string> {
    if entry.fallbackRequested then resumeFrom else None
  }

  lemma EntersGraph(plan: seq<PlanEntry>, entry: Entry, resumeFrom: Option<string>)
    requires Enters(plan, entry, resumeFrom)
    ensures StaticGraph(plan)
  {
  }

  lemma Begin(plan: seq<PlanEntry>, before: set<string>, resumeFrom: Option<string>, env: nat -> NodeEnv)
    ensures Explained(plan, [], before, before, resumeFrom, env) && Ahead(plan, 0, before, before) && !AnyDegraded([])
  {
  }

  lemma StillLater(plan: seq<PlanEntry>, resumeFrom: Option<string>, k: nat)
    requires k < |plan| && plan[k].Some?
    ensures ResumesLater(plan, resumeFrom, k)
            <==> && (if k == 0 then resumeFrom.Some? else ResumesLater(plan, resumeFrom, k - 1))
                 && plan[k].value.id != resumeFrom.value
  {
  }

  lemma DoneBefore(plan: seq<PlanEntry>, k: nat, before: set<string>, completed: set<string>)
    requires Ahead(plan, k, before, completed) && k < |plan| && plan[k].Some? && plan[k].value.id in completed
    ensures plan[k].value.id in before
  {
  }

  /** A fresh run succeeds exactly when every entry check and every node of the plan passes and every loop is complete;
      it is partial only if every node passed save optional ones that raised after publication, and something
      degraded. */
  method Run(plan: seq<PlanEntry>, entry: Entry, env: nat -> NodeEnv, state: AgentState)
    returns (status: ExecStatus, completed: set<string>, traces: seq<Trace>)
    modifies state
    ensures status == RunSucceeded <==>
              && Enters(plan, entry, None)
              && forall k :: 0 <= k < |plan| ==> Passes(plan[k].value, env(k)) && !PartialWork(env(k).work)
    ensures status == RunSucceeded ==> forall k :: 0 <= k < |plan| ==> plan[k].value.id in completed
    ensures status == RunPartial ==>
              && Enters(plan, entry, None)
              && (forall k :: 0 <= k < |plan| ==> plan[k].Some? && Excused(plan[k].value, env(k), completed))
              && exists k :: 0 <= k < |plan| && plan[k].Some? && Lacking(plan[k].value, env(k))
  {
    hide Passes, WorkRaises, Enters, Explained, AnyDegraded, RanOrExcused;
    status, completed, traces := Execute(plan, entry, {}, None, env, state);
    FreshTraces(plan, traces, completed, env);
    if status == RunPartial {
      PartialRan(plan, traces, completed, env);
    } else if status == RunSucceeded {
      AllRan(plan, traces, completed, env);
    }
  }

  lemma AllRan(plan: seq<PlanEntry>, traces: seq<Trace>, completed: set<string>, env: nat -> NodeEnv)
    requires |traces| == |plan| && !AnyDegraded(traces)
    requires forall k :: 0 <= k < |traces| ==> RanOrExcused(plan, k, traces[k], completed, env)
    ensures forall k :: 0 <= k < |plan| ==>
              && plan[k].Some? && Passes(plan[k].value, env(k)) && !PartialWork(env(k).work)
              && plan[k].value.id in completed
  {
    hide Passes, WorkRaises;
    forall k | 0 <= k < |plan|
      ensures plan[k].Some? && Passes(plan[k].value, env(k)) && !PartialWork(env(k).work)
              && plan[k].value.id in completed
    {
      assert RanOrExcused(plan, k, traces[k], completed, env) && !Degraded(traces[k]);
    }
  }

  lemma PartialRan(plan: seq<PlanEntry>, traces: seq<Trace>, completed: set<string>, env: nat -> NodeEnv)
    requires |traces| == |plan| && AnyDegraded(traces)
    requires forall k :: 0 <= k < |traces| ==> RanOrExcused(plan, k, traces[k], completed, env)
    ensures forall k :: 0 <= k < |plan| ==> plan[k].Some? && Excused(plan[k].value, env(k), completed)
    ensures exists k :: 0 <= k < |plan| && plan[k].Some? && Lacking(plan[k].value, env(k))
  {
    hide Passes, WorkRaises;
    forall k | 0 <= k < |plan| ensures plan[k].Some? && Excused(plan[k].value, env(k), completed) {
      assert RanOrExcused(plan, k, traces[k], completed, env);
    }
    var k :| 0 <= k < |traces| && Degraded(traces[k]);
    assert RanOrExcused(plan, k, traces[k], completed, env);
    RaisedIsNotDone(plan[k].value, env(k));
    assert Lacking(plan[k].value, env(k));
  }

  /** The node passed, or raised as an optional one after publication. */
  ghost predicate Excused(node: Node, e: NodeEnv, completed: set<string>) {
    Passes(node, e) || (node.optional && WorkRaises(node, e.work) && "publish_document" in completed)
  }

  /** The node raised, or its loop ended short of complete. */
  ghost predicate Lacking(node: Node, e: NodeEnv) {
    PartialWork(e.work) || (WorkRaises(node, e.work) && !Passes(node, e))
  }

  lemma RaisedIsNotDone(node: Node, e: NodeEnv)
    ensures WorkRaises(node, e.work) ==> !Passes(node, e)
  {
    if WorkRaises(node, e.work) && e.work.Calls? {
      var k: nat :| EndsAt(node, e.work.attempt, k) && e.work.attempt(k) == AttemptRaised;
      forall n: nat | EndsAt(node, e.work.attempt, n) ensures n == k {
        EndsOnce(node, e.work.attempt, k, n);
      }
    }
  }

  /** Plan entry `k` ran to completion, or failed as optional after publication. */
  ghost predicate RanOrExcused(plan: seq<PlanEntry>, k: nat, t: Trace, completed: set<string>, env: nat -> NodeEnv) {
    && k < |plan| && plan[k].Some?
    && match t
       case FailedOptional =>
         plan[k].value.optional && "publish_document" in completed && WorkRaises(plan[k].value, env(k).work)
       case Ran(partialLoop) =>
         && plan[k].value.id in completed && Passes(plan[k].value, env(k))
         && partialLoop == PartialWork(env(k).work)
       case _ => false
  }

  /** Without an earlier attempt and without a fallback nothing is skipped. */
  lemma FreshTraces(plan: seq<PlanEntry>, traces: seq<Trace>, completed: set<string>, env: nat -> NodeEnv)
    requires |traces| <= |plan| && Explained(plan, traces, {}, completed, None, env)
    ensures forall k :: 0 <= k < |traces| ==> RanOrExcused(plan, k, traces[k], completed, env)
  {
    hide Passes, WorkRaises;
    forall k | 0 <= k < |traces| ensures RanOrExcused(plan, k, traces[k], completed, env) {
      assert Explains(plan, k, traces[k], {}, completed, None, env);
    }
  }

  /** What a checkpoint yields: nothing readable, something that may not be restored, or the nodes done and a fallback
      node. */
  datatype Resumption = Unreadable | Unsafe | Resumption(done: set<string>, resumeFrom: Option<string>)

  /** Node `k` of a resumed run is accounted for: it ran to completion, or an earlier attempt completed it and it must
      not be repeated. */
  ghost predicate Settled(plan: seq<PlanEntry>, k: nat, done: set<string>, completed: set<string>, env: nat -> NodeEnv)
    requires k < |plan| && plan[k].Some?
  {
    || (plan[k].value.id in completed && Passes(plan[k].value, env(k)) && !PartialWork(env(k).work))
    || (plan[k].value.id in done && plan[k].value.safeToRerun == Some(false))
  }

  /** From node `start`, the target if there is one and else the first, every node to the end is accounted for. */
  ghost predicate ResumedAt(plan: seq<PlanEntry>, target: Option<string>, done: set<string>, completed: set<string>,
                            env: nat -> NodeEnv, start: nat) {
    && start < |plan| && (forall k :: 0 <= k < |plan| ==> plan[k].Some?)
    && (if target.Some? then plan[start].value.id == target.value else start == 0)
    && forall k :: start <= k < |plan| ==> Settled(plan, k, done, completed, env)
  }

  /** A resumed run that succeeds has every node from the one it goes on at to the end of the plan run, or done before
      and not to be repeated; without a fallback that is the whole plan. */
  method Resume(plan: seq<PlanEntry>, entry: Entry, checkpoint: Resumption, env: nat -> NodeEnv, state: AgentState)
    returns (status: ExecStatus, completed: set<string>, traces: seq<Trace>)
    modifies state
    ensures status == RunSucceeded ==>
              && checkpoint.Resumption? && Enters(plan, entry, checkpoint.resumeFrom)
              && exists start: nat ::
                   ResumedAt(plan, Target(entry, checkpoint.resumeFrom), checkpoint.done, completed, env, start)
    ensures checkpoint.Unreadable? || checkpoint.Unsafe? ==> status == RunFailed && traces == []
  {
    if !checkpoint.Resumption? {
      return RunFailed, {}, [];
    }
    status, completed, traces := Execute(plan, entry, checkpoint.done, checkpoint.resumeFrom, env, state);
    if status == RunSucceeded {
      ResumedTraces(plan, entry, checkpoint.done, checkpoint.resumeFrom, completed, traces, env);
    }
  }

  lemma ResumedTraces(plan: seq<PlanEntry>, entry: Entry, done: set<string>, resumeFrom: Option<string>,
                      completed: set<string>, traces: seq<Trace>, env: nat -> NodeEnv)
    requires Enters(plan, entry, resumeFrom) && |traces| == |plan| && !AnyDegraded(traces)
    requires Explained(plan, traces, done, completed, Target(entry, resumeFrom), env)
    ensures exists start: nat :: ResumedAt(plan, Target(entry, resumeFrom), done, completed, env, start)
  {
    hide Passes, WorkRaises;
    var start: nat := 0;
    if entry.fallbackRequested {
      start :| 0 <= start < |plan| && plan[start].Some? && plan[start].value.id == resumeFrom.value;
    }
    forall k | start <= k < |plan| ensures Settled(plan, k, done, completed, env) {
      assert Explains(plan, k, traces[k], done, completed, Target(entry, resumeFrom), env);
      assert !Degraded(traces[k]);
      assert traces[k] != SkippedBefore;
    }
    assert ResumedAt(plan, Target(entry, resumeFrom), done, completed, env, start);
  }
}
