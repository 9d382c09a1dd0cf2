/** Which settlements may report measured tokens for the token budget to hold: all but those as unknown. */
module TokenLaw {
  import opened Options
  import opened Collections
  import opened ModelUsage
  import opened Budget
  import opened BudgetTheorems

  /** Measured tokens come only with outcomes of `measurable`. */
  predicate Measures(step: Step, measurable: set<Outcome>) {
    step.SettleRow? && !Unmeasured(step.report) ==> step.report.outcome in measurable
  }

  predicate AllMeasure(steps: seq<Step>, measurable: set<Outcome>) {
    forall step :: step in steps ==> Priced(step) && Measures(step, measurable)
  }

  ghost predicate TokensWithin(rows: Rows, p: Policy) {
    p.maxTokens.Some? ==> Total(rows, TokenWeight) <= p.maxTokens.value as real + Total(rows, TokensOver)
  }

  /** No run of the budget machine charges more than the limit and the calls' own overruns. */
  ghost predicate LawHolds(p: Policy, measurable: set<Outcome>) {
    forall steps :: AllMeasure(steps, measurable) ==> TokensWithin(Run(EMPTY_STATE, p, steps).rows, p)
  }

  /** The policy has a token limit and leaves room for two calls under it. */
  predicate TwoCallsFit(p: Policy) {
    && p.maxTokens.Some? && p.maxTokens.value > 0
    && (p.maxCalls.Some? ==> p.maxCalls.value >= 2)
    && (CostBounded(p) ==> p.maxCost.value > 0.0)
  }

  // ----- Too tight a policy cannot be overdrawn -----

  /** Whatever is measured: calls are capped, and no reservation asks for more than the whole limit. */
  ghost predicate Tight(s: State, p: Policy)
    requires p.maxTokens.Some?
  {
    && CallsKept(s.rows, p)
    && (CostBounded(p) && p.maxCost.value == 0.0 ==> s.rows == map[])
    && (forall id :: id in s.rows ==> s.rows[id].reservedTokens <= p.maxTokens.value)
    && (forall t :: t in s.readers ==> TightReader(s, p, s.readers[t]))
  }

  ghost predicate TightReader(s: State, p: Policy, r: Reader)
    requires p.maxTokens.Some?
  {
    && r.version <= s.version && r.ask.inputPrice >= 0.0
    && (r.version == s.version && r.calls ==> CallsAllow(s.rows, p))
    && (CostBounded(p) && p.maxCost.value == 0.0 ==> !r.cost)
    && (r.tokens ==> r.ask.inputTokens <= p.maxTokens.value)
  }

  lemma {:induction false} TotalPositive(rows: Rows, weight: Usage -> real)
    requires forall id :: id in rows ==> 0.0 <= weight(rows[id])
    ensures 0.0 <= Total(rows, weight)
    decreases |rows|
  {
    if id :| id in rows {
      TotalRemove(rows, weight, id);
      TotalPositive(rows - {id}, weight);
    }
  }

  ghost predicate SameOrFewer(after: Rows, before: Rows) {
    forall id :: id in after ==> id in before && after[id].reservedTokens == before[id].reservedTokens
  }

  lemma RowStepFewer(s: State, p: Policy, step: Step)
    requires step.Activate? || step.MarkStarted? || step.CancelReservation? || step.SettleRow? || step.MarkExpired?
    ensures SameOrFewer(Next(s, p, step).rows, s.rows)
    ensures Next(s, p, step) == s.(rows := Next(s, p, step).rows)
  {
  }

  lemma FewerTight(s: State, p: Policy, rows: Rows)
    requires p.maxTokens.Some? && Tight(s, p) && SameOrFewer(rows, s.rows)
    ensures Tight(s.(rows := rows), p)
  {
    Smaller(rows.Keys, s.rows.Keys);
    assert |rows.Keys| == |rows| && |s.rows.Keys| == |s.rows|;
    forall t | t in s.readers ensures TightReader(s.(rows := rows), p, s.readers[t]) {
      assert TightReader(s, p, s.readers[t]);
    }
  }

  /** A check that passes leaves a tight reader: nothing is admitted at no cost, nor beyond the whole limit. */
  lemma ChecksAreTight(s: State, p: Policy, ask: Ask)
    requires p.maxTokens.Some? && ask.inputPrice >= 0.0
    ensures CostBounded(p) && p.maxCost.value == 0.0 ==> !CostAllows(s.rows, p, ask)
    ensures TokensAllow(s.rows, p, ask) ==> ask.inputTokens <= p.maxTokens.value
  {
    TotalPositive(s.rows, Cost);
    TotalPositive(s.rows, TokenWeight);
    assert 0.0 <= ask.inputPrice * ask.inputTokens as real;
    hide Total, Cost, TokenWeight;
  }

  lemma CheckTight(s: State, p: Policy, step: Step)
    requires p.maxTokens.Some? && Tight(s, p) && Priced(step) && (ReaderStep(step) || step.LifecycleStep?)
    ensures Tight(Next(s, p, step), p)
  {
    hide CostAllows, TokensAllow;
    if (step.CheckCost? || step.CheckTokens?) && step.reader in s.readers {
      assert TightReader(s, p, s.readers[step.reader]);
      ChecksAreTight(s, p, s.readers[step.reader].ask);
    }
  }

  lemma CommitTight(s: State, p: Policy, t: nat, id: string, n: int)
    requires p.maxTokens.Some? && Tight(s, p)
    ensures Tight(Next(s, p, Commit(t, id, n)), p)
  {
    hide NextAttempt, ReservedCost;
    if t in s.readers && CanCommit(s, s.readers[t], id, n) {
      assert TightReader(s, p, s.readers[t]);
      assert s.rows[id := Reservation(s.readers[t].ask, n)].Keys == s.rows.Keys + {id};
      assert |s.rows[id := Reservation(s.readers[t].ask, n)].Keys| == |s.rows[id := Reservation(s.readers[t].ask, n)]|;
      assert |s.rows.Keys| == |s.rows|;
    }
  }

  lemma NextTight(s: State, p: Policy, step: Step)
    requires p.maxTokens.Some? && Tight(s, p) && Priced(step)
    ensures Tight(Next(s, p, step), p)
  {
    hide Tight, Next;
    if step.Commit? {
      CommitTight(s, p, step.reader, step.id, step.attempt);
    } else if ReaderStep(step) || step.LifecycleStep? {
      CheckTight(s, p, step);
    } else {
      RowStepFewer(s, p, step);
      FewerTight(s, p, Next(s, p, step).rows);
    }
  }

  lemma {:induction false} RunTight(s: State, p: Policy, steps: seq<Step>)
    requires p.maxTokens.Some? && Tight(s, p) && forall step :: step in steps ==> Priced(step)
    ensures Tight(Run(s, p, steps), p)
    decreases |steps|
  {
    hide Tight, Next, Priced;
    if steps != [] {
      assert steps[0] in steps;
      NextTight(s, p, steps[0]);
      RunTight(Next(s, p, steps[0]), p, steps[1..]);
    }
  }

  lemma OneRowTotal(rows: Rows, weight: Usage -> real)
    requires |rows| <= 1
    ensures rows == map[] ==> Total(rows, weight) == 0.0
    ensures forall id :: id in rows ==> Total(rows, weight) == weight(rows[id])
  {
    forall id | id in rows ensures Total(rows, weight) == weight(rows[id]) {
      assert |rows.Keys| == |rows|;
      assert rows.Keys - {id} == {} by {
        assert |rows.Keys - {id}| == 0;
      }
      TotalRemove(rows, weight, id);
      assert rows - {id} == map[];
    }
  }

  lemma {:induction false} TotalZero(rows: Rows, weight: Usage -> real)
    requires forall id :: id in rows ==> weight(rows[id]) == 0.0
    ensures Total(rows, weight) == 0.0
    decreases |rows|
  {
    if id :| id in rows {
      TotalRemove(rows, weight, id);
      TotalZero(rows - {id}, weight);
    }
  }

  lemma TightWithin(s: State, p: Policy)
    requires p.maxTokens.Some? && Tight(s, p) && !TwoCallsFit(p)
    ensures TokensWithin(s.rows, p)
  {
    TotalSplits(s.rows, TokenWeight, TokensKept, TokensOver);
    if p.maxTokens.value == 0 {
      TotalZero(s.rows, TokensKept);
    } else if s.rows != map[] {
      OneRowTotal(s.rows, TokensKept);
      var id :| id in s.rows;
      assert TokensKept(s.rows[id]) <= p.maxTokens.value as real;
    }
    hide Total;
  }

  // ----- A run that overdraws -----

  function FiveSteps(ask: Ask, id: string): seq<Step> {
    [Read(0, ask), CheckCalls(0), CheckCost(0), CheckTokens(0), Commit(0, id, 1)]
  }

  lemma FiveStepsReserve(s: State, p: Policy, ask: Ask, id: string)
    requires s.readers == map[] && id !in s.rows && Admits(s.rows, p, ask) && NextAttempt(s.rows, ask, 1)
    ensures Run(s, p, FiveSteps(ask, id)) == State(s.version + 1, s.rows[id := Reservation(ask, 1)], map[])
  {
    var steps := FiveSteps(ask, id);
    var s1 := Next(s, p, Read(0, ask));
    var s2 := Next(s1, p, CheckCalls(0));
    var s3 := Next(s2, p, CheckCost(0));
    var s4 := Next(s3, p, CheckTokens(0));
    var s5 := Next(s4, p, Commit(0, id, 1));
    assert s4.readers == map[0 := Reader(ask, s.version, true, true, true)];
    assert s5 == State(s.version + 1, s.rows[id := Reservation(ask, 1)], map[]);
    hide Next, CallsAllow, CostAllows, TokensAllow, NextAttempt;
    assert steps[1..] == [CheckCalls(0), CheckCost(0), CheckTokens(0), Commit(0, id, 1)];
    assert steps[1..][1..] == [CheckCost(0), CheckTokens(0), Commit(0, id, 1)];
    assert steps[1..][1..][1..] == [CheckTokens(0), Commit(0, id, 1)];
    assert [CheckTokens(0), Commit(0, id, 1)][1..] == [Commit(0, id, 1)];
    assert [Commit(0, id, 1)][1..] == [];
    assert Run(s4, p, [Commit(0, id, 1)]) == s5;
    assert Run(s3, p, [CheckTokens(0), Commit(0, id, 1)]) == s5;
    assert Run(s2, p, [CheckCost(0), CheckTokens(0), Commit(0, id, 1)]) == s5;
  }

  /** A free call that asks for `tokens`, in a step of its own. */
  function Free(stepId: string, tokens: nat): Ask {
    Ask(stepId, 1, 1, tokens, 0.0, None)
  }

  const GIVEN_UP: Report := Report(OutUnknown, Some(0), Some(0), None, Some("request"))

  const FAILED_LATE: Report := Report(OutFailed, None, None, None, Some("request"))

  /** The whole limit is reserved, given up as unknown but measured at nothing, reserved again by another call, and
      charged to the first when its failure arrives. */
  function Overdraft(tokens: nat): seq<Step> {
    FiveSteps(Free("s", tokens), "a") + [Activate("a", "permit"), SettleRow("a", GIVEN_UP)]
    + FiveSteps(Free("t", tokens), "b") + [SettleRow("a", FAILED_LATE)]
  }

  lemma TwoSteps(s: State, p: Policy, a: Step, b: Step)
    ensures Run(s, p, [a]) == Next(s, p, a) && Run(s, p, [a, b]) == Next(Next(s, p, a), p, b)
  {
    hide Next;
    assert [a, b][1..] == [b] && [b][1..] == [] && [a][1..] == [];
    assert Run(Next(s, p, a), p, [b]) == Next(Next(s, p, a), p, b);
  }

  /** The first call's row in its three states. */
  function FirstRow(tokens: nat): Usage {
    Reservation(Free("s", tokens), 1)
  }

  function GivenUpFirst(tokens: nat): Usage {
    SettledRow(FirstRow(tokens).(status := Running, permitId := Some("permit")), GIVEN_UP)
  }

  lemma FirstAdmitted(p: Policy, tokens: nat)
    requires TwoCallsFit(p) && tokens == p.maxTokens.value
    ensures Admits(map[], p, Free("s", tokens)) && NextAttempt(map[], Free("s", tokens), 1)
  {
  }

  lemma SecondAdmitted(p: Policy, tokens: nat)
    requires TwoCallsFit(p) && tokens == p.maxTokens.value
    ensures var rows := map["a" := GivenUpFirst(tokens)];
            Admits(rows, p, Free("t", tokens)) && NextAttempt(rows, Free("t", tokens), 1)
  {
    var rows := map["a" := GivenUpFirst(tokens)];
    assert |rows| == 1;
    OneRowTotal(rows, Cost);
    OneRowTotal(rows, TokenWeight);
    assert "a" in rows && rows["a"] == GivenUpFirst(tokens);
    assert ReservedCost(Free("t", tokens)) == 0.0 && Cost(rows["a"]) == 0.0 && Tokens(rows["a"]) == 0;
    hide Total;
  }

  function OneReserved(tokens: nat): State {
    State(1, map["a" := FirstRow(tokens)], map[])
  }

  function OneGivenUp(tokens: nat): State {
    State(1, map["a" := GivenUpFirst(tokens)], map[])
  }

  function TwoReserved(tokens: nat): State {
    State(2, map["a" := GivenUpFirst(tokens), "b" := Reservation(Free("t", tokens), 1)], map[])
  }

  lemma FirstPart(p: Policy, tokens: nat)
    requires TwoCallsFit(p) && tokens == p.maxTokens.value
    ensures Run(EMPTY_STATE, p, FiveSteps(Free("s", tokens), "a")) == OneReserved(tokens)
  {
    FirstAdmitted(p, tokens);
    FiveStepsReserve(EMPTY_STATE, p, Free("s", tokens), "a");
    hide Run, FiveSteps;
  }

  lemma MiddlePart(p: Policy, tokens: nat)
    ensures Run(OneReserved(tokens), p, [Activate("a", "permit"), SettleRow("a", GIVEN_UP)]) == OneGivenUp(tokens)
  {
    TwoSteps(OneReserved(tokens), p, Activate("a", "permit"), SettleRow("a", GIVEN_UP));
    hide Run;
    var s := OneReserved(tokens);
    assert Next(s, p, Activate("a", "permit")).rows
           == map["a" := FirstRow(tokens).(status := Running, permitId := Some("permit"))];
  }

  lemma SecondPart(p: Policy, tokens: nat)
    requires TwoCallsFit(p) && tokens == p.maxTokens.value
    ensures Run(OneGivenUp(tokens), p, FiveSteps(Free("t", tokens), "b")) == TwoReserved(tokens)
  {
    SecondAdmitted(p, tokens);
    hide Run, FiveSteps, GivenUpFirst, Admits, NextAttempt;
    FiveStepsReserve(OneGivenUp(tokens), p, Free("t", tokens), "b");
  }

  lemma LastPart(p: Policy, tokens: nat)
    ensures Run(TwoReserved(tokens), p, [SettleRow("a", FAILED_LATE)]).rows
            == map["a" := SettledRow(GivenUpFirst(tokens), FAILED_LATE), "b" := Reservation(Free("t", tokens), 1)]
  {
    TwoSteps(TwoReserved(tokens), p, SettleRow("a", FAILED_LATE), SettleRow("a", FAILED_LATE));
    hide Run;
  }

  lemma OverdraftRuns(p: Policy, tokens: nat)
    requires TwoCallsFit(p) && tokens == p.maxTokens.value
    ensures Run(EMPTY_STATE, p, Overdraft(tokens)).rows
            == map["a" := SettledRow(GivenUpFirst(tokens), FAILED_LATE), "b" := Reservation(Free("t", tokens), 1)]
  {
    hide Run, FiveSteps, OneReserved, OneGivenUp, TwoReserved, GivenUpFirst, SettledRow, Reservation;
    var first, second := FiveSteps(Free("s", tokens), "a"), FiveSteps(Free("t", tokens), "b");
    var middle := [Activate("a", "permit"), SettleRow("a", GIVEN_UP)];
    FirstPart(p, tokens);
    MiddlePart(p, tokens);
    SecondPart(p, tokens);
    LastPart(p, tokens);
    RunAppend(EMPTY_STATE, p, first, middle);
    RunAppend(EMPTY_STATE, p, first + middle, second);
    RunAppend(EMPTY_STATE, p, first + middle + second, [SettleRow("a", FAILED_LATE)]);
  }

  lemma OverdraftTotals(rows: Rows, tokens: nat)
    requires tokens > 0
    requires rows == map["a" := SettledRow(GivenUpFirst(tokens), FAILED_LATE), "b" := Reservation(Free("t", tokens), 1)]
    ensures Total(rows, TokenWeight) == 2.0 * tokens as real && Total(rows, TokensOver) == 0.0
  {
    var one := map["a" := SettledRow(GivenUpFirst(tokens), FAILED_LATE)];
    assert |one| == 1 && "a" in one && rows == one["b" := Reservation(Free("t", tokens), 1)];
    OneRowTotal(one, TokenWeight);
    OneRowTotal(one, TokensOver);
    TotalAdd(one, TokenWeight, "b", Reservation(Free("t", tokens), 1));
    TotalAdd(one, TokensOver, "b", Reservation(Free("t", tokens), 1));
    hide Total;
  }

  /** Twice the limit is charged, with no call over its own reservation. */
  lemma OverdraftBreaks(p: Policy, measurable: set<Outcome>)
    requires TwoCallsFit(p) && OutUnknown in measurable
    ensures var steps := Overdraft(p.maxTokens.value);
            AllMeasure(steps, measurable) && !TokensWithin(Run(EMPTY_STATE, p, steps).rows, p)
  {
    var tokens := p.maxTokens.value;
    OverdraftRuns(p, tokens);
    OverdraftTotals(Run(EMPTY_STATE, p, Overdraft(tokens)).rows, tokens);
    hide Run, Total;
    var middle := [Activate("a", "permit"), SettleRow("a", GIVEN_UP)];
    assert forall step :: step in FiveSteps(Free("s", tokens), "a") ==> Priced(step) && Measures(step, measurable);
    assert forall step :: step in FiveSteps(Free("t", tokens), "b") ==> Priced(step) && Measures(step, measurable);
    assert forall step :: step in middle ==> Priced(step) && Measures(step, measurable);
  }

  /** Under a token limit, no run overdraws it beyond the calls' own overruns if and only if no settlement as unknown
      may report measured tokens, or the policy leaves no room for two calls. */
  lemma TokenLawExact(p: Policy, measurable: set<Outcome>)
    requires p.maxTokens.Some?
    ensures LawHolds(p, measurable) <==> OutUnknown !in measurable || !TwoCallsFit(p)
  {
    hide Run, Total, AllMeasure;
    if OutUnknown !in measurable {
      forall steps | AllMeasure(steps, measurable) ensures TokensWithin(Run(EMPTY_STATE, p, steps).rows, p) {
        MeasuredProper(steps, measurable);
        BudgetHolds(p, steps);
      }
    } else if !TwoCallsFit(p) {
      forall steps | AllMeasure(steps, measurable) ensures TokensWithin(Run(EMPTY_STATE, p, steps).rows, p) {
        MeasuredPriced(steps, measurable);
        RunTight(EMPTY_STATE, p, steps);
        TightWithin(Run(EMPTY_STATE, p, steps), p);
      }
    } else {
      OverdraftBreaks(p, measurable);
    }
  }

  lemma MeasuredPriced(steps: seq<Step>, measurable: set<Outcome>)
    requires AllMeasure(steps, measurable)
    ensures forall step :: step in steps ==> Priced(step)
  {
  }

  lemma MeasuredProper(steps: seq<Step>, measurable: set<Outcome>)
    requires AllMeasure(steps, measurable) && OutUnknown !in measurable
    ensures AllProper(steps)
  {
  }
}
