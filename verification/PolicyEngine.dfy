/** The policy engine as it runs: each statement of a reservation is one step of the budget machine. */
module PolicyEngine {
  import opened Options
  import opened ModelUsage
  import opened Budget
  import opened BudgetTheorems

  datatype Denial = NotExecutable | CallLimit | CostLimit | TokenLimit

  datatype Decision = Allowed(usageId: string) | Denied(code: Denial)

  /** A reservation just made for what was asked. */
  predicate NewRow(u: Usage, ask: Ask) {
    && u.status == Reserved && u.permitId.None? && u.providerRequestId.None? && u.inputTokens.None?
    && u.outputTokens.None? && u.estimatedCost.None?
    && u.stepId == ask.stepId && u.executionAttempt == ask.executionAttempt && u.modelAttempt >= ask.modelAttempt
    && u.reservedTokens == ask.inputTokens && u.deadline == ask.deadline
  }

  /** The Run's version and its usage table, with the reservations under way: what each has read and checked so far. */
  class Engine {
    const policy: Policy
    var version: int
    const usage: ModelUsageService
    var readers: map<nat, Reader>

    function Store(): State
      reads this, usage
    {
      State(version, usage.rows, readers)
    }

    constructor (policy: Policy, usage: ModelUsageService)
      requires usage.rows == map[]
      ensures Store() == EMPTY_STATE && this.policy == policy && this.usage == usage
    {
      this.policy, this.usage := policy, usage;
      version, readers := 0, map[];
    }

    method ReadVersion(t: nat, ask: Ask) returns (seen: int)
      modifies this`readers
      ensures Store() == Next(old(Store()), policy, Read(t, ask)) && seen == version
    {
      seen := version;
      readers := readers[t := Reader(ask, version, false, false, false)];
    }

    method CheckCallCount(t: nat) returns (ok: bool)
      requires t in readers
      modifies this`readers
      ensures Store() == Next(old(Store()), policy, CheckCalls(t)) && ok == (t in readers)
      ensures ok == CallsAllow(usage.rows, policy)
      ensures ok ==> readers[t] == old(readers[t]).(calls := true)
    {
      ok := policy.maxCalls.None? || |usage.rows| < policy.maxCalls.value;
      readers := if ok then readers[t := readers[t].(calls := true)] else readers - {t};
    }

    method CheckCostSum(t: nat, ask: Ask) returns (ok: bool)
      requires t in readers && readers[t].ask == ask
      modifies this`readers
      ensures Store() == Next(old(Store()), policy, CheckCost(t)) && ok == (t in readers)
      ensures ok == CostAllows(usage.rows, policy, ask)
      ensures ok ==> readers[t] == old(readers[t]).(cost := true)
    {
      ok := true;
      if policy.maxCost.Some? && policy.maxCost.value >= 0.0 {
        var used := SumOf(Cost);
        ok := used + ReservedCost(ask) < policy.maxCost.value;
      }
      readers := if ok then readers[t := readers[t].(cost := true)] else readers - {t};
    }

    method CheckTokenSum(t: nat, ask: Ask) returns (ok: bool)
      requires t in readers && readers[t].ask == ask
      modifies this`readers
      ensures Store() == Next(old(Store()), policy, CheckTokens(t)) && ok == (t in readers)
      ensures ok == TokensAllow(usage.rows, policy, ask)
      ensures ok ==> readers[t] == old(readers[t]).(tokens := true)
    {
      ok := true;
      if policy.maxTokens.Some? {
        var used := SumOf(TokenWeight);
        ok := used + ask.inputTokens as real <= policy.maxTokens.value as real;
      }
      readers := if ok then readers[t := readers[t].(tokens := true)] else readers - {t};
    }

    method SumOf(weight: Usage -> real) returns (sum: real)
      ensures sum == Total(usage.rows, weight)
    {
      sum := 0.0;
      var left := usage.rows;
      while left != map[]
        invariant sum + Total(left, weight) == Total(usage.rows, weight)
        decreases |left|
      {
        var id :| id in left.Keys;
        TotalRemove(left, weight, id);
        sum := sum + weight(left[id]);
        left := left - {id};
      }
    }

    /** The highest attempt number of the asking step, if it has rows. */
    method PreviousAttempt(ask: Ask) returns (previous: Option<int>)
      ensures previous.None? ==> forall id :: id in usage.rows ==> !SameAttempt(usage.rows[id], ask)
      ensures previous.Some? ==>
                exists id :: LastAttempt(usage.rows, ask, id) && previous.value == usage.rows[id].modelAttempt
    {
      previous := None;
      var left := usage.rows.Keys;
      while left != {}
        invariant left <= usage.rows.Keys
        invariant previous.None? ==> forall id :: id in usage.rows && id !in left ==> !SameAttempt(usage.rows[id], ask)
        invariant previous.Some? ==>
                    && (exists id :: id in usage.rows && SameAttempt(usage.rows[id], ask)
                                     && usage.rows[id].modelAttempt == previous.value)
                    && (forall id :: id in usage.rows && id !in left && SameAttempt(usage.rows[id], ask) ==>
                          usage.rows[id].modelAttempt <= previous.value)
        decreases |left|
      {
        var id :| id in left;
        if SameAttempt(usage.rows[id], ask) && (previous.None? || previous.value < usage.rows[id].modelAttempt) {
          previous := Some(usage.rows[id].modelAttempt);
        }
        left := left - {id};
      }
      if previous.Some? {
        var id :| id in usage.rows && SameAttempt(usage.rows[id], ask) && usage.rows[id].modelAttempt == previous.value;
        assert LastAttempt(usage.rows, ask, id);
      }
    }

    /** The conditional update and the insert, in one transaction; `guard` is its other conditions. */
    method CommitReservation(t: nat, ask: Ask, seen: int, guard: bool, id: string)
      returns (ok: bool, ghost step: Step)
      requires t in readers && readers[t].ask == ask && readers[t].version == seen
      requires readers[t].calls && readers[t].cost && readers[t].tokens
      requires id !in usage.rows
      modifies this, usage
      ensures Store() == Next(old(Store()), policy, step)
      ensures ok == (guard && old(version) == seen)
      ensures !ok ==> step == GiveUpReading(t)
      ensures ok ==> step.Commit? && id in usage.rows && NewRow(usage.rows[id], ask)
      ensures version == old(version) + (if ok then 1 else 0)
      ensures !ok ==> usage.rows == old(usage.rows)
    {
      ok := guard && version == seen;
      step := GiveUpReading(t);
      readers := readers - {t};
      if ok {
        var previous := PreviousAttempt(ask);
        var n := Greatest(ask.modelAttempt, if previous.Some? then previous.value + 1 else 1);
        assert NextAttempt(usage.rows, ask, n);
        step := Commit(t, id, n);
        usage.rows := usage.rows[id := Reservation(ask, n)];
        version := version + 1;
      }
    }

    /** One statement of anyone else's transaction on the Run. */
    method Other(step: Step)
      modifies this, usage
      ensures Store() == Next(old(Store()), policy, step)
    {
      match step {
        case Read(t, ask) => var _ := ReadVersion(t, ask);
        case CheckCalls(t) => if t in readers { var _ := CheckCallCount(t); }
        case CheckCost(t) => if t in readers { var _ := CheckCostSum(t, readers[t].ask); }
        case CheckTokens(t) => if t in readers { var _ := CheckTokenSum(t, readers[t].ask); }
        case Commit(t, id, n) => OtherCommit(t, id, n);
        case GiveUpReading(t) => readers := readers - {t};
        case LifecycleStep(bump) => version := version + bump;
        case Activate(id, permitId) => var _ := usage.ActivateReservation(id, permitId);
        case MarkStarted(id) => var _ := usage.MarkStarted(id);
        case CancelReservation(id) => var _ := usage.CancelReservation(id);
        case SettleRow(id, report) => var _ := usage.Settle(id, report);
        case MarkExpired(now) => var _ := usage.MarkExpiredRunningUnknown(now);
      }
    }

    method OtherCommit(t: nat, id: string, n: int)
      modifies this, usage
      ensures Store() == Next(old(Store()), policy, Commit(t, id, n))
    {
      var commits := t in readers && readers[t].calls && readers[t].cost && readers[t].tokens
                     && readers[t].version == version && id !in usage.rows;
      if commits {
        var ask := readers[t].ask;
        var previous := PreviousAttempt(ask);
        var next := Greatest(ask.modelAttempt, if previous.Some? then previous.value + 1 else 1);
        assert NextAttempt(usage.rows, ask, next);
        if NextAttempt(usage.rows, ask, n) {
          AttemptUnique(usage.rows, ask, n, next);
        }
        if n == next {
          usage.rows, version := usage.rows[id := Reservation(ask, n)], version + 1;
        }
      }
      readers := readers - {t};
    }

    /** Everything the others do in one gap; they name neither this reservation's reader nor its fresh usage id. */
    method Others(gap: seq<Step>, ghost t: nat, ghost id: string)
      requires Spares(gap, t, id) && id !in usage.rows
      modifies this, usage
      ensures Store() == Run(old(Store()), policy, gap)
      ensures (t in readers <==> t in old(readers)) && (t in readers ==> readers[t] == old(readers)[t])
      ensures id !in usage.rows && version >= old(version)
    {
      hide Next, Budget.Run;
      RunNothing(Store(), policy);
      for k := 0 to |gap|
        invariant Store() == Run(old(Store()), policy, gap[..k])
        invariant (t in readers <==> t in old(readers)) && (t in readers ==> readers[t] == old(readers)[t])
        invariant id !in usage.rows && version >= old(version)
      {
        assert gap[..k + 1] == gap[..k] + [gap[k]];
        RunSnoc(old(Store()), policy, gap[..k], gap[k]);
        SparedStep(Store(), policy, gap[k], t, id);
        Other(gap[k]);
      }
      assert gap[..|gap|] == gap;
    }

    /** One reservation, tried at most twice, with the others at work before each of its statements; `authoritative`
        and `guard` say what the row tests of each try answer. */
    method Reserve(t: nat, ask: Ask, id: string, authoritative: seq<bool>, guard: seq<bool>, gaps: nat -> seq<Step>)
      returns (decision: Decision, ghost steps: seq<Step>)
      requires |authoritative| == |guard| == 2 && id !in usage.rows && ask.inputPrice >= 0.0
      requires forall k :: Spares(gaps(k), t, id) && AllProper(gaps(k))
      modifies this, usage
      // The whole is a run of the budget machine, so every budget law holds of it.
      ensures Store() == Run(old(Store()), policy, steps) && AllProper(steps)
      ensures decision.Allowed? ==> decision.usageId == id && id in usage.rows && NewRow(usage.rows[id], ask)
      ensures decision.Denied? ==> id !in usage.rows
      // A denial names a limit that is reached, a test that failed, or two races lost to a newer version.
      ensures decision == Denied(CallLimit) ==> !CallsAllow(usage.rows, policy)
      ensures decision == Denied(CostLimit) ==> !CostAllows(usage.rows, policy, ask)
      ensures decision == Denied(TokenLimit) ==> !TokensAllow(usage.rows, policy, ask)
      ensures decision == Denied(NotExecutable) ==>
                || !authoritative[0] || !authoritative[1] || !guard[0] || !guard[1] || version >= old(version) + 2
      // Undisturbed it is decided on the rows as they were.
      ensures Quiet(gaps) && decision.Allowed? ==> Admits(old(usage.rows), policy, ask)
      ensures Quiet(gaps) && decision.Denied? ==> usage.rows == old(usage.rows) && version == old(version)
      ensures Quiet(gaps) && authoritative == guard == [true, true] ==>
                (decision.Allowed? <==> Admits(old(usage.rows), policy, ask))
    {
      hide Next, Budget.Run, AllProper, CallsAllow, CostAllows, TokensAllow, Spares;
      steps := [];
      RunNothing(Store(), policy);
      var k := 0;
      while k < 2
        invariant 0 <= k <= 2
        invariant Store() == Run(old(Store()), policy, steps) && AllProper(steps) && id !in usage.rows
        invariant version >= old(version) + (if guard[0] && guard[1] then k else 0)
        invariant Quiet(gaps) ==> usage.rows == old(usage.rows) && version == old(version)
      {
        ghost var mine;
        decision, mine := Try(t, ask, id, authoritative[k], guard[k], gaps, 5 * k);
        RunAppend(old(Store()), policy, steps, mine);
        ProperAppend(steps, mine);
        steps := steps + mine;
        if decision != Denied(NotExecutable) || !authoritative[k] {
          assert authoritative == [true, true] ==> decision != Denied(NotExecutable);
          assert decision.Denied? && Quiet(gaps) && decision.code != NotExecutable ==>
                   !Admits(old(usage.rows), policy, ask);
          return;
        }
        k := k + 1;
      }
      decision := Denied(NotExecutable);
    }

    /** One try; `NotExecutable` from an authoritative try is a lost race, after which the caller tries again. */
    method Try(t: nat, ask: Ask, id: string, authoritative: bool, guard: bool, gaps: nat -> seq<Step>, g: nat)
      returns (decision: Decision, ghost steps: seq<Step>)
      requires id !in usage.rows && ask.inputPrice >= 0.0
      requires forall k :: Spares(gaps(k), t, id) && AllProper(gaps(k))
      modifies this, usage
      ensures Store() == Run(old(Store()), policy, steps) && AllProper(steps)
      ensures decision.Allowed? ==> decision.usageId == id && id in usage.rows && NewRow(usage.rows[id], ask)
      ensures decision.Denied? ==> id !in usage.rows
      ensures decision == Denied(CallLimit) ==> !CallsAllow(usage.rows, policy)
      ensures decision == Denied(CostLimit) ==> !CostAllows(usage.rows, policy, ask)
      ensures decision == Denied(TokenLimit) ==> !TokensAllow(usage.rows, policy, ask)
      ensures version >= old(version)
      ensures decision == Denied(NotExecutable) && authoritative && guard ==> version >= old(version) + 1
      ensures Quiet(gaps) && decision.Allowed? ==> Admits(old(usage.rows), policy, ask)
      ensures Quiet(gaps) && decision.Denied? ==> usage.rows == old(usage.rows) && version == old(version)
    {
      hide Next, Budget.Run, AllProper, CallsAllow, CostAllows, TokensAllow, Spares;
      ghost var start := Store();
      RunNothing(start, policy);
      steps := Gap(gaps(g), t, id, start, []);
      ReadLeaves(Store(), policy, t, ask);
      var seen := ReadVersion(t, ask);
      steps := Extend(start, policy, steps, Read(t, ask));
      if !authoritative {
        return Denied(NotExecutable), steps;
      }
      var denial;
      denial, steps := EvaluateBudget(t, ask, id, gaps, g, start, steps);
      if denial.Some? {
        return Denied(denial.value), steps;
      }
      steps := Gap(gaps(g + 4), t, id, start, steps);
      var ok: bool;
      ghost var step: Step;
      ok, step := CommitReservation(t, ask, seen, guard, id);
      steps := Extend(start, policy, steps, step);
      return if ok then Allowed(id) else Denied(NotExecutable), steps;
    }

    /** The three limits in turn, each on the rows of its own moment. */
    method EvaluateBudget(t: nat, ask: Ask, id: string, gaps: nat -> seq<Step>, g: nat, ghost start: State,
                          ghost before: seq<Step>)
      returns (denial: Option<Denial>, ghost steps: seq<Step>)
      requires id !in usage.rows && t in readers && readers[t].ask == ask
      requires forall k :: Spares(gaps(k), t, id) && AllProper(gaps(k))
      requires Store() == Run(start, policy, before) && AllProper(before)
      modifies this, usage
      ensures Store() == Run(start, policy, steps) && AllProper(steps) && id !in usage.rows && version >= old(version)
      ensures denial.None? ==>
                t in readers && readers[t] == old(readers[t]).(calls := true, cost := true, tokens := true)
      ensures denial.Some? ==>
                && denial.value != NotExecutable
                && (denial.value == CallLimit ==> !CallsAllow(usage.rows, policy))
                && (denial.value == CostLimit ==> !CostAllows(usage.rows, policy, ask))
                && (denial.value == TokenLimit ==> !TokensAllow(usage.rows, policy, ask))
      ensures Quiet(gaps) ==> usage.rows == old(usage.rows) && version == old(version)
      ensures Quiet(gaps) && denial.None? ==> Admits(old(usage.rows), policy, ask)
    {
      hide Next, Budget.Run, AllProper, CallsAllow, CostAllows, TokensAllow, Spares;
      steps := Gap(gaps(g + 1), t, id, start, before);
      var ok := CheckCallCount(t);
      steps := Extend(start, policy, steps, CheckCalls(t));
      if !ok {
        return Some(CallLimit), steps;
      }
      steps := Gap(gaps(g + 2), t, id, start, steps);
      ok := CheckCostSum(t, ask);
      steps := Extend(start, policy, steps, CheckCost(t));
      if !ok {
        return Some(CostLimit), steps;
      }
      steps := Gap(gaps(g + 3), t, id, start, steps);
      ok := CheckTokenSum(t, ask);
      steps := Extend(start, policy, steps, CheckTokens(t));
      return if ok then None else Some(TokenLimit), steps;
    }

    /** A gap, with the steps so far carried along. */
    method Gap(gap: seq<Step>, ghost t: nat, ghost id: string, ghost start: State, ghost steps: seq<Step>)
      returns (ghost more: seq<Step>)
      requires Spares(gap, t, id) && AllProper(gap) && AllProper(steps) && id !in usage.rows
      requires Store() == Run(start, policy, steps)
      modifies this, usage
      ensures Store() == Run(start, policy, more) && AllProper(more) && id !in usage.rows
      ensures (t in readers <==> t in old(readers)) && (t in readers ==> readers[t] == old(readers)[t])
      ensures version >= old(version) && (gap == [] ==> Store() == old(Store()))
    {
      hide Next, Budget.Run, AllProper, Spares;
      RunNothing(Store(), policy);
      Others(gap, t, id);
      RunAppend(start, policy, steps, gap);
      ProperAppend(steps, gap);
      more := steps + gap;
    }
  }

  predicate SparesReader(step: Step, t: nat) {
    step.Read? || step.CheckCalls? || step.CheckCost? || step.CheckTokens? || step.Commit? || step.GiveUpReading? ==>
      step.reader != t
  }

  predicate Spares(gap: seq<Step>, t: nat, id: string) {
    forall step :: step in gap ==> SparesReader(step, t) && (step.Commit? ==> step.id != id)
  }

  ghost predicate Quiet(gaps: nat -> seq<Step>) {
    forall k :: gaps(k) == []
  }

  lemma SparedStep(s: State, p: Policy, step: Step, t: nat, id: string)
    requires SparesReader(step, t) && (step.Commit? ==> step.id != id) && id !in s.rows
    ensures var after := Next(s, p, step);
            && (t in after.readers <==> t in s.readers) && (t in s.readers ==> after.readers[t] == s.readers[t])
            && id !in after.rows && after.version >= s.version
  {
    hide CallsAllow, CostAllows, TokensAllow, CanCommit;
  }

  lemma AttemptUnique(rows: Rows, ask: Ask, n: int, m: int)
    requires NextAttempt(rows, ask, n) && NextAttempt(rows, ask, m)
    ensures n == m
  {
  }

  lemma ProperAppend(a: seq<Step>, b: seq<Step>)
    requires AllProper(a) && AllProper(b)
    ensures AllProper(a + b)
  {
  }

  lemma ReadLeaves(s: State, p: Policy, t: nat, ask: Ask)
    ensures var after := Next(s, p, Read(t, ask));
            t in after.readers && after.readers[t] == Reader(ask, s.version, false, false, false)
  {
  }

  /** A check either drops the reader or sets just its own mark. */
  lemma RunNothing(s: State, p: Policy)
    ensures Run(s, p, []) == s && AllProper([])
  {
  }

  ghost function Extend(s: State, p: Policy, steps: seq<Step>, step: Step): (r: seq<Step>)
    requires AllProper(steps) && Proper(step)
    ensures AllProper(r) && Run(s, p, r) == Next(Run(s, p, steps), p, step)
    decreases |steps|
  {
    RunSnoc(s, p, steps, step);
    steps + [step]
  }

  lemma {:induction false} RunSnoc(s: State, p: Policy, steps: seq<Step>, step: Step)
    ensures Run(s, p, steps + [step]) == Next(Run(s, p, steps), p, step)
    decreases |steps|
  {
    hide Next;
    if steps == [] {
      assert Run(s, p, [step]) == Run(Next(s, p, step), p, []);
    } else {
      assert (steps + [step])[1..] == steps[1..] + [step];
      RunSnoc(Next(s, p, steps[0]), p, steps[1..], step);
    }
  }
}
