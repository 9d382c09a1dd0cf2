/** No interleaving of reservations, settlements and cancellations overdraws a Run's model budget. */
module BudgetTheorems {
  import opened Options
  import opened Collections
  import opened ModelUsage
  import opened Budget

  // ----- Totals -----

  lemma {:induction false} TotalRemove(rows: Rows, weight: Usage -> real, id: string)
    requires id in rows
    ensures Total(rows, weight) == weight(rows[id]) + Total(rows - {id}, weight)
    decreases |rows|
  {
    var first :| first in rows && Total(rows, weight) == weight(rows[first]) + Total(rows - {first}, weight);
    if first != id {
      assert (rows - {first})[id] == rows[id] && (rows - {id})[first] == rows[first];
      TotalRemove(rows - {first}, weight, id);
      TotalRemove(rows - {id}, weight, first);
      assert rows - {first} - {id} == rows - {id} - {first};
    }
  }

  lemma TotalAdd(rows: Rows, weight: Usage -> real, id: string, u: Usage)
    requires id !in rows
    ensures Total(rows[id := u], weight) == Total(rows, weight) + weight(u)
  {
    TotalRemove(rows[id := u], weight, id);
    assert rows[id := u] - {id} == rows;
  }

  /** Fewer and lighter rows. */
  ghost predicate Lighter(fewer: Rows, rows: Rows, weight: Usage -> real) {
    forall id :: id in fewer ==> id in rows && weight(fewer[id]) <= weight(rows[id])
  }

  lemma {:induction false} TotalLighter(fewer: Rows, rows: Rows, weight: Usage -> real)
    requires Lighter(fewer, rows, weight) && forall id :: id in rows ==> 0.0 <= weight(rows[id])
    ensures Total(fewer, weight) <= Total(rows, weight)
    decreases |rows|
  {
    if id :| id in rows {
      TotalRemove(rows, weight, id);
      if id in fewer {
        TotalRemove(fewer, weight, id);
        TotalLighter(fewer - {id}, rows - {id}, weight);
      } else {
        TotalLighter(fewer, rows - {id}, weight);
      }
    } else {
      assert rows == map[] && fewer == map[];
    }
  }

  lemma {:induction false} TotalBelow(rows: Rows, part: Usage -> real, weight: Usage -> real)
    requires forall u :: part(u) <= weight(u)
    ensures Total(rows, part) <= Total(rows, weight)
    decreases |rows|
  {
    if id :| id in rows {
      TotalRemove(rows, part, id);
      TotalRemove(rows, weight, id);
      TotalBelow(rows - {id}, part, weight);
    }
  }

  lemma {:induction false} TotalSplits(rows: Rows, weight: Usage -> real, part: Usage -> real, rest: Usage -> real)
    requires forall u :: weight(u) == part(u) + rest(u)
    ensures Total(rows, weight) == Total(rows, part) + Total(rows, rest)
    decreases |rows|
  {
    if id :| id in rows {
      TotalRemove(rows, weight, id);
      TotalRemove(rows, part, id);
      TotalRemove(rows, rest, id);
      TotalSplits(rows - {id}, weight, part, rest);
    }
  }

  // ----- The invariant -----

  /** A row not yet settled for good has measured nothing and costs what it reserved. */
  predicate RowSound(u: Usage) {
    && 0.0 <= u.reservedCost
    && (u.status.Done? ==> u.estimatedCost.Some? && 0.0 <= u.estimatedCost.value)
    && (!u.status.Done? || u.status == Done(OutUnknown) ==>
          && (u.inputTokens.None? || u.outputTokens.None?)
          && (u.estimatedCost.Some? ==> u.estimatedCost.value == u.reservedCost))
  }

  ghost predicate RowsSound(rows: Rows) {
    forall id :: id in rows ==> RowSound(rows[id])
  }

  predicate SameCall(a: Usage, b: Usage) {
    a.stepId == b.stepId && a.executionAttempt == b.executionAttempt && a.modelAttempt == b.modelAttempt
  }

  ghost predicate AttemptsDistinct(rows: Rows) {
    forall a, b {:trigger rows[a], rows[b]} :: a in rows && b in rows && a != b ==> !SameCall(rows[a], rows[b])
  }

  predicate CallsKept(rows: Rows, p: Policy) {
    p.maxCalls.Some? ==> |rows| <= p.maxCalls.value
  }

  ghost predicate KeptTokens(rows: Rows, p: Policy) {
    p.maxTokens.Some? ==> Total(rows, TokensKept) <= p.maxTokens.value as real
  }

  predicate CostBounded(p: Policy) {
    p.maxCost.Some? && 0.0 <= p.maxCost.value
  }

  ghost predicate KeptCost(rows: Rows, p: Policy) {
    CostBounded(p) && rows != map[] ==> Total(rows, CostKept) < p.maxCost.value
  }

  /** A check passed at the current version still holds: since then rows can only have gone or got lighter. */
  ghost predicate ReaderSound(rows: Rows, p: Policy, version: int, r: Reader) {
    && r.version <= version
    && 0.0 <= r.ask.inputPrice
    && (r.version == version ==>
          && (r.calls ==> CallsAllow(rows, p))
          && (r.cost && CostBounded(p) ==> Total(rows, CostKept) + ReservedCost(r.ask) < p.maxCost.value)
          && (r.tokens && p.maxTokens.Some? ==>
                Total(rows, TokensKept) + r.ask.inputTokens as real <= p.maxTokens.value as real))
  }

  ghost predicate ReadersSound(s: State, p: Policy) {
    forall t :: t in s.readers ==> ReaderSound(s.rows, p, s.version, s.readers[t])
  }

  ghost predicate Inv(s: State, p: Policy) {
    && RowsSound(s.rows)
    && AttemptsDistinct(s.rows)
    && CallsKept(s.rows, p)
    && KeptTokens(s.rows, p)
    && KeptCost(s.rows, p)
    && ReadersSound(s, p)
  }

  // ----- Row updates only lighten -----

  predicate RowLightens(after: Usage, before: Usage) {
    && RowSound(after) && SameCall(after, before)
    && TokensKept(after) <= TokensKept(before) && CostKept(after) <= CostKept(before)
  }

  ghost predicate Lightens(after: Rows, before: Rows) {
    forall id :: id in after ==> id in before && RowLightens(after[id], before[id])
  }

  lemma SettleLightens(u: Usage, r: Report)
    requires RowSound(u) && !Malformed(r) && PricesOk(r) && (r.outcome == OutUnknown ==> Unmeasured(r))
    requires InFlight(u) || u.status == Done(OutUnknown)
    ensures RowLightens(SettledRow(u, r), u)
  {
    if Measured(r) {
      assert 0.0 <= r.inputTokens.value as real * r.prices.value.0;
      assert 0.0 <= r.outputTokens.value as real * r.prices.value.1;
    }
  }

  lemma SameLightens(u: Usage)
    requires RowSound(u)
    ensures RowLightens(u, u)
  {
  }

  /** An update of one row that lightens it, with the others as they were. */
  lemma OneLightens(rows: Rows, id: string, u: Usage)
    requires RowsSound(rows) && id in rows && RowLightens(u, rows[id])
    ensures Lightens(rows[id := u], rows)
  {
    hide RowSound, RowLightens;
    forall other | other in rows && other != id ensures RowLightens(rows[other], rows[other]) {
      SameLightens(rows[other]);
    }
  }

  lemma NoneLightens(rows: Rows, gone: set<string>)
    requires RowsSound(rows)
    ensures Lightens(rows - gone, rows)
  {
    hide RowSound, RowLightens;
    forall id | id in rows ensures RowLightens(rows[id], rows[id]) {
      SameLightens(rows[id]);
    }
  }

  lemma SettledLightens(rows: Rows, id: string, r: Report)
    requires RowsSound(rows) && PricesOk(r) && (r.outcome == OutUnknown ==> Unmeasured(r))
    ensures Lightens(Settled(rows, id, r).0, rows)
  {
    NoneLightens(rows, {});
    assert rows - {} == rows;
    if id in rows && !Malformed(r) && (InFlight(rows[id]) || rows[id].status == Done(OutUnknown)) {
      SettleLightens(rows[id], r);
      OneLightens(rows, id, SettledRow(rows[id], r));
    }
    hide SettledRow, Lightens, RowSound;
  }

  lemma GivenUpLightens(rows: Rows, now: int)
    requires RowsSound(rows)
    ensures Lightens(GivenUp(rows, now), rows)
  {
    forall id | id in rows ensures RowLightens(GivenUp(rows, now)[id], rows[id]) {
      SameLightens(rows[id]);
    }
  }

  lemma MarkLightens(u: Usage, status: UsageStatus, permitId: Option<string>)
    requires RowSound(u) && !u.status.Done? && !status.Done?
    ensures RowLightens(u.(status := status, permitId := permitId), u)
  {
  }

  lemma RowStepLightens(s: State, p: Policy, step: Step)
    requires RowsSound(s.rows) && Proper(step)
    requires step.Activate? || step.MarkStarted? || step.CancelReservation? || step.SettleRow? || step.MarkExpired?
    ensures Lightens(Next(s, p, step).rows, s.rows)
  {
    hide RowSound, RowLightens, Lightens, Settled, GivenUp;
    NoneLightens(s.rows, {});
    assert s.rows - {} == s.rows;
    match step
    case SettleRow(id, r) => SettledLightens(s.rows, id, r);
    case MarkExpired(now) => GivenUpLightens(s.rows, now);
    case CancelReservation(id) => NoneLightens(s.rows, {id});
    case Activate(id, permitId) =>
      if id in s.rows && s.rows[id].status == Reserved {
        MarkLightens(s.rows[id], Running, Some(permitId));
        OneLightens(s.rows, id, s.rows[id].(status := Running, permitId := Some(permitId)));
      }
    case MarkStarted(id) =>
      if id in s.rows && s.rows[id].status == Running {
        MarkLightens(s.rows[id], Started, s.rows[id].permitId);
        OneLightens(s.rows, id, s.rows[id].(status := Started));
      }
  }

  lemma WeightsPositive(rows: Rows)
    requires RowsSound(rows)
    ensures forall id :: id in rows ==> 0.0 <= TokensKept(rows[id]) && 0.0 <= CostKept(rows[id])
  {
  }

  lemma LightensTotals(after: Rows, before: Rows)
    requires Lightens(after, before) && RowsSound(before)
    ensures |after| <= |before|
    ensures Total(after, TokensKept) <= Total(before, TokensKept)
    ensures Total(after, CostKept) <= Total(before, CostKept)
  {
    WeightsPositive(before);
    Smaller(after.Keys, before.Keys);
    assert |after.Keys| == |after| && |before.Keys| == |before|;
    TotalLighter(after, before, TokensKept);
    TotalLighter(after, before, CostKept);
  }

  lemma LightensDistinct(after: Rows, before: Rows)
    requires Lightens(after, before) && AttemptsDistinct(before)
    ensures AttemptsDistinct(after) && RowsSound(after)
  {
    hide RowSound, TokensKept, CostKept;
  }

  lemma LightenKeeps(s: State, p: Policy, rows: Rows)
    requires Inv(s, p) && Lightens(rows, s.rows)
    ensures Inv(s.(rows := rows), p)
  {
    LightensTotals(rows, s.rows);
    LightensDistinct(rows, s.rows);
    hide Total, Lightens, AttemptsDistinct, RowsSound;
    forall t | t in s.readers ensures ReaderSound(rows, p, s.version, s.readers[t]) {
      assert ReaderSound(s.rows, p, s.version, s.readers[t]);
    }
  }

  // ----- Reading, checking and committing -----

  ghost predicate ReaderStep(step: Step) {
    step.Read? || step.CheckCalls? || step.CheckCost? || step.CheckTokens? || step.GiveUpReading?
  }

  lemma CheckKeeps(s: State, p: Policy, step: Step)
    requires Inv(s, p) && Proper(step) && ReaderStep(step)
    ensures Inv(Next(s, p, step), p)
  {
    TotalBelow(s.rows, CostKept, Cost);
    TotalBelow(s.rows, TokensKept, TokenWeight);
    hide Total, CostKept, TokensKept, Cost, TokenWeight, ReservedCost, RowsSound, AttemptsDistinct;
  }

  lemma BumpKeeps(s: State, p: Policy, bump: nat)
    requires Inv(s, p)
    ensures Inv(s.(version := s.version + bump), p)
  {
    hide Total, ReservedCost, RowsSound, AttemptsDistinct;
  }

  lemma ReservationSound(ask: Ask, n: int)
    requires 0.0 <= ask.inputPrice
    ensures RowSound(Reservation(ask, n))
    ensures TokensKept(Reservation(ask, n)) == ask.inputTokens as real
    ensures CostKept(Reservation(ask, n)) == ReservedCost(ask)
  {
    assert 0.0 <= ask.inputPrice * ask.inputTokens as real;
  }

  /** The new row's number is past every row of its step, so attempts stay distinct. */
  lemma CommitDistinct(rows: Rows, ask: Ask, id: string, n: int)
    requires AttemptsDistinct(rows) && id !in rows && NextAttempt(rows, ask, n)
    ensures AttemptsDistinct(rows[id := Reservation(ask, n)])
  {
    hide ReservedCost;
  }

  /** It is the least number that is, and that is not below the one asked for. */
  lemma NextIsLeast(rows: Rows, ask: Ask, n: int, m: int)
    requires NextAttempt(rows, ask, n)
    requires m >= ask.modelAttempt && m >= 1
    requires forall id :: id in rows && SameAttempt(rows[id], ask) ==> rows[id].modelAttempt < m
    ensures ask.modelAttempt <= n <= m
    ensures forall id :: id in rows && SameAttempt(rows[id], ask) ==> rows[id].modelAttempt < n
  {
  }

  lemma CommitKeepsRows(s: State, p: Policy, r: Reader, id: string, n: int)
    requires Inv(s, p) && ReaderSound(s.rows, p, s.version, r) && CanCommit(s, r, id, n)
    ensures var rows := s.rows[id := Reservation(r.ask, n)];
            RowsSound(rows) && AttemptsDistinct(rows) && CallsKept(rows, p) && KeptTokens(rows, p) && KeptCost(rows, p)
  {
    ReservationSound(r.ask, n);
    CommitDistinct(s.rows, r.ask, id, n);
    hide Reservation, ReservedCost, AttemptsDistinct, NextAttempt, RowSound, Cost, TokenWeight;
    TotalAdd(s.rows, TokensKept, id, Reservation(r.ask, n));
    TotalAdd(s.rows, CostKept, id, Reservation(r.ask, n));
  }

  lemma CommitKeeps(s: State, p: Policy, t: nat, id: string, n: int)
    requires Inv(s, p)
    ensures Inv(Next(s, p, Commit(t, id, n)), p)
  {
    if t in s.readers && CanCommit(s, s.readers[t], id, n) {
      CommitKeepsRows(s, p, s.readers[t], id, n);
    }
    hide Total, Reservation, CanCommit, ReservedCost, RowsSound, AttemptsDistinct, CallsAllow, CallsKept, KeptTokens,
         KeptCost;
  }

  lemma NextKeeps(s: State, p: Policy, step: Step)
    requires Inv(s, p) && Proper(step)
    ensures Inv(Next(s, p, step), p)
  {
    if ReaderStep(step) {
      CheckKeeps(s, p, step);
    } else if step.Commit? {
      CommitKeeps(s, p, step.reader, step.id, step.attempt);
    } else if step.LifecycleStep? {
      BumpKeeps(s, p, step.bump);
    } else {
      RowStepLightens(s, p, step);
      LightenKeeps(s, p, Next(s, p, step).rows);
      assert Next(s, p, step) == s.(rows := Next(s, p, step).rows);
    }
    hide Inv;
  }

  lemma {:induction false} RunKeeps(s: State, p: Policy, steps: seq<Step>)
    requires Inv(s, p) && AllProper(steps)
    ensures Inv(Run(s, p, steps), p)
    decreases |steps|
  {
    hide Inv, Next, Proper;
    if steps != [] {
      assert steps[0] in steps;
      NextKeeps(s, p, steps[0]);
      RunKeeps(Next(s, p, steps[0]), p, steps[1..]);
    }
  }

  lemma EmptyKeeps(p: Policy)
    ensures Inv(EMPTY_STATE, p)
  {
  }

  /** The budget law, for any number of concurrent reservers: calls are capped outright, tokens and cost
      up to what single calls measured beyond their own reservation, and live attempts are distinct. */
  lemma BudgetHolds(p: Policy, steps: seq<Step>)
    requires AllProper(steps)
    ensures var rows := Run(EMPTY_STATE, p, steps).rows;
            && (p.maxCalls.Some? ==> |rows| <= p.maxCalls.value)
            && AttemptsDistinct(rows)
            && (p.maxTokens.Some? ==> Total(rows, TokenWeight) <= p.maxTokens.value as real + Total(rows, TokensOver))
            && (CostBounded(p) && rows != map[] ==> Total(rows, Cost) < p.maxCost.value + Total(rows, CostOver))
  {
    hide Run, AttemptsDistinct, RowsSound;
    EmptyKeeps(p);
    RunKeeps(EMPTY_STATE, p, steps);
    var rows := Run(EMPTY_STATE, p, steps).rows;
    TotalSplits(rows, TokenWeight, TokensKept, TokensOver);
    TotalSplits(rows, Cost, CostKept, CostOver);
  }

  // ----- One attempt at a time -----

  /** The rows, and the row reserved last. */
  datatype Attempts = Attempts(rows: Rows, last: Option<string>)

  datatype Turn = Reserve(ask: Ask, id: string, attempt: int) | RowTurn(step: Step)

  ghost predicate Admits(rows: Rows, p: Policy, ask: Ask) {
    CallsAllow(rows, p) && CostAllows(rows, p, ask) && TokensAllow(rows, p, ask)
  }

  ghost function Take(a: Attempts, p: Policy, turn: Turn): Attempts {
    match turn
    case Reserve(ask, id, n) =>
      if Admits(a.rows, p, ask) then Attempts(a.rows[id := Reservation(ask, n)], Some(id)) else a
    case RowTurn(step) => a.(rows := Next(State(0, a.rows, map[]), p, step).rows)
  }

  /** A new attempt starts only when every earlier one is settled, and nothing is recovered late. */
  ghost predicate InTurn(a: Attempts, turn: Turn) {
    match turn
    case Reserve(ask, id, _) => id !in a.rows && forall other :: other in a.rows ==> a.rows[other].status.Done?
    case RowTurn(step) =>
      || step.Activate? || step.MarkStarted? || step.CancelReservation? || step.MarkExpired?
      || (step.SettleRow? && (step.id in a.rows ==> !a.rows[step.id].status.Done?))
  }

  ghost predicate AllInTurn(a: Attempts, p: Policy, turns: seq<Turn>)
    decreases |turns|
  {
    turns == [] || (InTurn(a, turns[0]) && AllInTurn(Take(a, p, turns[0]), p, turns[1..]))
  }

  ghost function TakeAll(a: Attempts, p: Policy, turns: seq<Turn>): Attempts
    decreases |turns|
  {
    if turns == [] then a else TakeAll(Take(a, p, turns[0]), p, turns[1..])
  }

  ghost function Excess(a: Attempts): real {
    if a.last.Some? && a.last.value in a.rows then TokensOver(a.rows[a.last.value]) else 0.0
  }

  ghost predicate OnlyLastOpen(a: Attempts) {
    forall id :: id in a.rows && !a.rows[id].status.Done? ==>
      a.last == Some(id) && (a.rows[id].inputTokens.None? || a.rows[id].outputTokens.None?)
  }

  ghost predicate TurnInv(a: Attempts, p: Policy) {
    && OnlyLastOpen(a)
    && (p.maxTokens.Some? ==> Total(a.rows, TokenWeight) <= p.maxTokens.value as real + Excess(a))
  }

  /** Whatever a row turn does, it does to the last attempt. */
  lemma RowTurnTouchesLast(a: Attempts, p: Policy, step: Step)
    requires OnlyLastOpen(a) && InTurn(a, RowTurn(step))
    ensures var after := Take(a, p, RowTurn(step));
            && OnlyLastOpen(after)
            && (|| after == a
                || (&& a.last.Some? && a.last.value in a.rows && !a.rows[a.last.value].status.Done?
                    && (|| after.rows == a.rows - {a.last.value}
                        || (&& a.last.value in after.rows
                            && after.rows == a.rows[a.last.value := after.rows[a.last.value]]
                            && after.rows[a.last.value].reservedTokens == a.rows[a.last.value].reservedTokens))))
  {
    var after := Take(a, p, RowTurn(step));
    match step
    case MarkExpired(now) =>
      if a.last.Some? && a.last.value in a.rows && Overdue(a.rows[a.last.value], now) {
        assert after.rows == a.rows[a.last.value := after.rows[a.last.value]];
      } else {
        assert after.rows == a.rows;
      }
    case _ =>
  }

  lemma TurnKeeps(a: Attempts, p: Policy, turn: Turn)
    requires TurnInv(a, p) && InTurn(a, turn)
    ensures TurnInv(Take(a, p, turn), p)
  {
    var after := Take(a, p, turn);
    match turn
    case Reserve(ask, id, n) =>
      TotalAdd(a.rows, TokenWeight, id, Reservation(ask, n));
    case RowTurn(step) =>
      RowTurnTouchesLast(a, p, step);
      if after != a {
        hide Take, InTurn, Total, OnlyLastOpen;
        var id := a.last.value;
        TotalRemove(a.rows, TokenWeight, id);
        if id in after.rows {
          TotalRemove(after.rows, TokenWeight, id);
          assert after.rows - {id} == a.rows - {id};
        }
      }
  }

  lemma {:induction false} TurnsKeep(a: Attempts, p: Policy, turns: seq<Turn>)
    requires TurnInv(a, p) && AllInTurn(a, p, turns)
    ensures TurnInv(TakeAll(a, p, turns), p)
    decreases |turns|
  {
    hide TurnInv, Take, InTurn;
    if turns != [] {
      TurnKeeps(a, p, turns[0]);
      TurnsKeep(Take(a, p, turns[0]), p, turns[1..]);
    }
  }

  /** With one attempt in flight and no late recovery, only the last attempt's own overrun is not covered. */
  lemma SequentialTokens(p: Policy, turns: seq<Turn>)
    requires p.maxTokens.Some? && AllInTurn(Attempts(map[], None), p, turns)
    ensures var a := TakeAll(Attempts(map[], None), p, turns);
            Total(a.rows, TokenWeight) <= p.maxTokens.value as real + Excess(a)
  {
    TurnsKeep(Attempts(map[], None), p, turns);
  }

  /** An undisturbed reservation is the five steps of the interleaved one. */
  lemma ReserveIsFiveSteps(s: State, p: Policy, t: nat, ask: Ask, id: string, n: int)
    requires id !in s.rows && NextAttempt(s.rows, ask, n)
    ensures Next(Next(Next(Next(Next(s, p, Read(t, ask)), p, CheckCalls(t)), p, CheckCost(t)), p, CheckTokens(t)),
                 p, Commit(t, id, n)).rows
            == Take(Attempts(s.rows, None), p, Reserve(ask, id, n)).rows
  {
    hide CallsAllow, CostAllows, TokensAllow, NextAttempt;
  }
}
