/** The model-call budget of one Run: reservations read, check and later commit against a version. */
module Budget {
  import opened Options
  import opened ModelUsage

  datatype Policy = Policy(maxCalls: Option<nat>, maxCost: Option<real>, maxTokens: Option<nat>)

  /** What one reservation asks for; `inputPrice` is per thousand tokens and not negative. */
  datatype Ask = Ask(stepId: string, executionAttempt: int, modelAttempt: int, inputTokens: nat, inputPrice: real,
                     deadline: Option<int>)

  /** A reservation between reading the Run's version and its conditional update, with the checks passed so far. */
  datatype Reader = Reader(ask: Ask, version: int, calls: bool, cost: bool, tokens: bool)

  datatype State = State(version: int, rows: Rows, readers: map<nat, Reader>)

  function ReservedCost(ask: Ask): real {
    ask.inputPrice * ask.inputTokens as real / 1000.0
  }

  // ----- Totals over rows -----

  ghost function Total(rows: Rows, weight: Usage -> real): real
    decreases |rows|
  {
    if rows == map[] then 0.0
    else var id :| id in rows; weight(rows[id]) + Total(rows - {id}, weight)
  }

  function TokenWeight(u: Usage): real {
    Tokens(u) as real
  }

  function Least(a: real, b: real): real {
    if a < b then a else b
  }

  /** What a row takes from its own reservation: the rest, if any, is overrun. */
  function TokensKept(u: Usage): real {
    Least(TokenWeight(u), u.reservedTokens as real)
  }

  function TokensOver(u: Usage): real {
    TokenWeight(u) - TokensKept(u)
  }

  function CostKept(u: Usage): real {
    Least(Cost(u), u.reservedCost)
  }

  function CostOver(u: Usage): real {
    Cost(u) - CostKept(u)
  }

  // ----- Steps -----

  predicate CallsAllow(rows: Rows, p: Policy) {
    p.maxCalls.Some? ==> |rows| < p.maxCalls.value
  }

  ghost predicate CostAllows(rows: Rows, p: Policy, ask: Ask) {
    p.maxCost.Some? && p.maxCost.value >= 0.0 ==> Total(rows, Cost) + ReservedCost(ask) < p.maxCost.value
  }

  ghost predicate TokensAllow(rows: Rows, p: Policy, ask: Ask) {
    p.maxTokens.Some? ==> Total(rows, TokenWeight) + ask.inputTokens as real <= p.maxTokens.value as real
  }

  predicate SameAttempt(u: Usage, ask: Ask) {
    u.stepId == ask.stepId && u.executionAttempt == ask.executionAttempt
  }

  function Greatest(a: int, b: int): int {
    if a < b then b else a
  }

  /** `id` is the row of the asking step and execution attempt with the highest attempt number. */
  ghost predicate LastAttempt(rows: Rows, ask: Ask, id: string) {
    && id in rows && SameAttempt(rows[id], ask)
    && forall other :: other in rows && SameAttempt(rows[other], ask) ==>
         rows[other].modelAttempt <= rows[id].modelAttempt
  }

  /** `n` is the attempt number the new row gets. */
  ghost predicate NextAttempt(rows: Rows, ask: Ask, n: int) {
    if forall id :: id in rows ==> !SameAttempt(rows[id], ask) then n == Greatest(ask.modelAttempt, 1)
    else exists id :: LastAttempt(rows, ask, id) && n == Greatest(ask.modelAttempt, rows[id].modelAttempt + 1)
  }

  function Reservation(ask: Ask, n: int): Usage {
    Usage(ask.stepId, ask.executionAttempt, n, Reserved, None, ask.inputTokens, ReservedCost(ask), None, None, None,
          None, ask.deadline)
  }

  datatype Step =
    | Read(reader: nat, ask: Ask)
    | CheckCalls(reader: nat)
    | CheckCost(reader: nat)
    | CheckTokens(reader: nat)
    | Commit(reader: nat, id: string, attempt: int)
    | GiveUpReading(reader: nat)
    | LifecycleStep(bump: nat)
    | Activate(id: string, permitId: string)
    | MarkStarted(id: string)
    | CancelReservation(id: string)
    | SettleRow(id: string, report: Report)
    | MarkExpired(now: int)

  /** Deciding needs the sums, so the step relation is ghost; what a failed check or a lost race leaves is no reader. */
  ghost function Next(s: State, p: Policy, step: Step): State {
    match step
    case Read(t, ask) => s.(readers := s.readers[t := Reader(ask, s.version, false, false, false)])
    case CheckCalls(t) =>
      if t !in s.readers then s
      else if CallsAllow(s.rows, p) then s.(readers := s.readers[t := s.readers[t].(calls := true)])
      else s.(readers := s.readers - {t})
    case CheckCost(t) =>
      if t !in s.readers then s
      else if CostAllows(s.rows, p, s.readers[t].ask) then s.(readers := s.readers[t := s.readers[t].(cost := true)])
      else s.(readers := s.readers - {t})
    case CheckTokens(t) =>
      if t !in s.readers then s
      else if TokensAllow(s.rows, p, s.readers[t].ask) then s.(readers := s.readers[t := s.readers[t].(tokens := true)])
      else s.(readers := s.readers - {t})
    case Commit(t, id, n) =>
      if t in s.readers && CanCommit(s, s.readers[t], id, n) then
        State(s.version + 1, s.rows[id := Reservation(s.readers[t].ask, n)], s.readers - {t})
      else s.(readers := s.readers - {t})
    case GiveUpReading(t) => s.(readers := s.readers - {t})
    case LifecycleStep(bump) => s.(version := s.version + bump)
    case Activate(id, permitId) => s.(rows := Activated(s.rows, id, permitId).0)
    case MarkStarted(id) => s.(rows := MarkedStarted(s.rows, id).0)
    case CancelReservation(id) => s.(rows := Cancelled(s.rows, id).0)
    case SettleRow(id, report) => s.(rows := Settled(s.rows, id, report).0)
    case MarkExpired(now) => s.(rows := GivenUp(s.rows, now))
  }

  ghost predicate CanCommit(s: State, r: Reader, id: string, n: int) {
    && r.calls && r.cost && r.tokens
    && r.version == s.version
    && id !in s.rows
    && NextAttempt(s.rows, r.ask, n)
  }

  predicate Priced(step: Step) {
    (step.Read? ==> step.ask.inputPrice >= 0.0) && (step.SettleRow? ==> PricesOk(step.report))
  }

  /** Prices are not negative, and a settlement as unknown reports no measured tokens. */
  predicate Proper(step: Step) {
    Priced(step) && (step.SettleRow? && step.report.outcome == OutUnknown ==> Unmeasured(step.report))
  }

  predicate PricesOk(r: Report) {
    r.prices.Some? ==> r.prices.value.0 >= 0.0 && r.prices.value.1 >= 0.0
  }

  predicate Unmeasured(r: Report) {
    r.inputTokens.None? || r.outputTokens.None?
  }

  ghost function Run(s: State, p: Policy, steps: seq<Step>): State
    decreases |steps|
  {
    if steps == [] then s else Run(Next(s, p, steps[0]), p, steps[1..])
  }

  lemma {:induction false} RunAppend(s: State, p: Policy, a: seq<Step>, b: seq<Step>)
    ensures Run(s, p, a + b) == Run(Run(s, p, a), p, b)
    decreases |a|
  {
    hide Next;
    if a == [] {
      assert a + b == b;
    } else {
      assert (a + b)[1..] == a[1..] + b;
      RunAppend(Next(s, p, a[0]), p, a[1..], b);
    }
  }

  predicate AllProper(steps: seq<Step>) {
    forall step :: step in steps ==> Proper(step)
  }

  /** A run of the budget machine leads from one state to the other. */
  ghost predicate Reaches(s: State, p: Policy, t: State) {
    exists steps :: AllProper(steps) && t == Run(s, p, steps)
  }

  lemma ReachesSelf(s: State, p: Policy)
    ensures Reaches(s, p, s)
  {
    assert AllProper([]) && s == Run(s, p, []);
  }

  lemma ReachesStep(s: State, p: Policy, step: Step)
    requires Proper(step)
    ensures Reaches(s, p, Next(s, p, step))
  {
    hide Next;
    assert [step][1..] == [] && Run(Next(s, p, step), p, []) == Next(s, p, step);
    assert AllProper([step]) && Next(s, p, step) == Run(s, p, [step]);
  }

  lemma ReachesOn(s: State, p: Policy, t: State, u: State)
    requires Reaches(s, p, t) && Reaches(t, p, u)
    ensures Reaches(s, p, u)
  {
    hide Run;
    var a :| AllProper(a) && t == Run(s, p, a);
    var b :| AllProper(b) && u == Run(t, p, b);
    RunAppend(s, p, a, b);
    assert AllProper(a + b) && u == Run(s, p, a + b);
  }

  const EMPTY_STATE: State := State(0, map[], map[])

  /** A settled row is never deleted, and one settled for good never changes. */
  lemma {:induction false} DoneStays(s: State, p: Policy, steps: seq<Step>, id: string)
    requires id in s.rows && s.rows[id].status.Done?
    ensures var later := Run(s, p, steps);
            && id in later.rows && later.rows[id].status.Done?
            && (s.rows[id].status != Done(OutUnknown) ==> later.rows[id] == s.rows[id])
    decreases |steps|
  {
    if steps != [] {
      StepDone(s, p, steps[0], id);
      hide Next;
      DoneStays(Next(s, p, steps[0]), p, steps[1..], id);
    }
  }

  lemma StepDone(s: State, p: Policy, step: Step, id: string)
    requires id in s.rows && s.rows[id].status.Done?
    ensures var later := Next(s, p, step);
            && id in later.rows && later.rows[id].status.Done?
            && (s.rows[id].status != Done(OutUnknown) ==> later.rows[id] == s.rows[id])
  {
    hide CallsAllow, CostAllows, TokensAllow, NextAttempt;
  }

  lemma {:induction false} VersionGrows(s: State, p: Policy, steps: seq<Step>)
    ensures s.version <= Run(s, p, steps).version
    decreases |steps|
  {
    if steps != [] {
      StepVersion(s, p, steps[0]);
      hide Next;
      VersionGrows(Next(s, p, steps[0]), p, steps[1..]);
    }
  }

  lemma StepVersion(s: State, p: Policy, step: Step)
    ensures s.version <= Next(s, p, step).version
  {
    hide CallsAllow, CostAllows, TokensAllow, CanCommit;
  }

  lemma ReachesVersion(s: State, p: Policy, t: State)
    requires Reaches(s, p, t)
    ensures s.version <= t.version
  {
    hide Run;
    var steps :| AllProper(steps) && t == Run(s, p, steps);
    VersionGrows(s, p, steps);
  }

  lemma ReachesDone(s: State, p: Policy, t: State, id: string)
    requires Reaches(s, p, t) && id in s.rows && s.rows[id].status.Done?
    ensures id in t.rows && t.rows[id].status.Done?
    ensures s.rows[id].status != Done(OutUnknown) ==> t.rows[id] == s.rows[id]
  {
    hide Run;
    var steps :| AllProper(steps) && t == Run(s, p, steps);
    DoneStays(s, p, steps, id);
  }
}
