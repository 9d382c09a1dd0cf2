/** What calls cost: a thousandth of the route's price for each token, in reservation, settlement and law. */
module Pricing {
  import opened Options
  import opened ModelUsage
  import opened Budget
  import opened BudgetTheorems

  /** A route's input and output price per thousand tokens. */
  type Prices = (real, real)

  predicate NotNegative(prices: Prices) {
    0.0 <= prices.0 && 0.0 <= prices.1
  }

  predicate MeasuredRow(u: Usage) {
    u.status == Done(OutSucceeded) && u.inputTokens.Some? && u.outputTokens.Some?
  }

  /** What a row is charged: nothing if it was never sent, its tokens if it succeeded and they were counted, and
      otherwise the tokens it asked for. */
  function Charge(u: Usage, prices: Prices): real {
    if u.status == Done(OutAborted) then 0.0
    else if MeasuredRow(u) then
      u.inputTokens.value as real * prices.0 / 1000.0 + u.outputTokens.value as real * prices.1 / 1000.0
    else u.reservedTokens as real * prices.0 / 1000.0
  }

  /** What a row is charged beyond the tokens it asked for. */
  function Beyond(u: Usage, prices: Prices): real {
    var more := Charge(u, prices) - u.reservedTokens as real * prices.0 / 1000.0;
    if more < 0.0 then 0.0 else more
  }

  predicate RowPriced(u: Usage, prices: Prices) {
    && u.reservedCost == u.reservedTokens as real * prices.0 / 1000.0
    && u.estimatedCost == if u.status.Done? then Some(Charge(u, prices)) else None
  }

  ghost predicate RowsPriced(rows: Rows, prices: string -> Prices) {
    forall id :: id in rows ==> RowPriced(rows[id], prices(id))
  }

  /** Every call is reserved and settled at the prices of its own route. */
  predicate AtPrices(s: State, step: Step, prices: string -> Prices) {
    && (step.Commit? && step.reader in s.readers ==> s.readers[step.reader].ask.inputPrice == prices(step.id).0)
    && (step.SettleRow? && Measured(step.report) ==> step.report.prices == Some(prices(step.id)))
  }

  ghost predicate AllAtPrices(s: State, p: Policy, steps: seq<Step>, prices: string -> Prices)
    decreases |steps|
  {
    steps == [] || (AtPrices(s, steps[0], prices) && AllAtPrices(Next(s, p, steps[0]), p, steps[1..], prices))
  }

  lemma SettledPriced(u: Usage, r: Report, prices: Prices)
    requires RowPriced(u, prices) && !Malformed(r) && (Measured(r) ==> r.prices == Some(prices))
    ensures RowPriced(SettledRow(u, r), prices)
  {
    var settled := SettledRow(u, r);
    assert MeasuredRow(settled) <==> Measured(r);
    assert settled.estimatedCost == Some(ReportedCost(u, r));
    if Measured(r) {
      assert settled.inputTokens.value == r.inputTokens.value && settled.outputTokens.value == r.outputTokens.value;
      var a, b := settled.inputTokens.value as real * prices.0, settled.outputTokens.value as real * prices.1;
      Split(a, b);
      assert ReportedCost(u, r) == (a + b) / 1000.0;
      assert Charge(settled, prices) == a / 1000.0 + b / 1000.0;
    }
  }

  lemma Split(a: real, b: real)
    ensures (a + b) / 1000.0 == a / 1000.0 + b / 1000.0
  {
  }

  lemma ReservedPriced(ask: Ask, n: int, prices: Prices)
    requires ask.inputPrice == prices.0
    ensures RowPriced(Reservation(ask, n), prices)
  {
    assert ask.inputPrice * ask.inputTokens as real == ask.inputTokens as real * prices.0;
  }

  lemma NextPriced(s: State, p: Policy, step: Step, prices: string -> Prices)
    requires RowsPriced(s.rows, prices) && AtPrices(s, step, prices)
    ensures RowsPriced(Next(s, p, step).rows, prices)
  {
    hide CallsAllow, CostAllows, TokensAllow, CanCommit, SettledRow, Reservation, GivenUp, Malformed, RowPriced;
    match step
    case Commit(t, id, n) =>
      if t in s.readers {
        ReservedPriced(s.readers[t].ask, n, prices(id));
      }
    case SettleRow(id, r) =>
      if id in s.rows && !Malformed(r) {
        SettledPriced(s.rows[id], r, prices(id));
      }
    case MarkExpired(now) => GivenUpPriced(s.rows, now, prices);
    case Activate(id, permitId) =>
      if id in s.rows && s.rows[id].status == Reserved {
        MarkPriced(s.rows[id], Running, Some(permitId), prices(id));
      }
    case MarkStarted(id) =>
      if id in s.rows && s.rows[id].status == Running {
        MarkPriced(s.rows[id], Started, s.rows[id].permitId, prices(id));
      }
    case _ =>
  }

  lemma MarkPriced(u: Usage, status: UsageStatus, permitId: Option<string>, prices: Prices)
    requires RowPriced(u, prices) && !u.status.Done? && !status.Done?
    ensures RowPriced(u.(status := status, permitId := permitId), prices)
  {
  }

  lemma GivenUpPriced(rows: Rows, now: int, prices: string -> Prices)
    requires RowsPriced(rows, prices)
    ensures RowsPriced(GivenUp(rows, now), prices)
  {
    forall id | id in rows ensures RowPriced(GivenUp(rows, now)[id], prices(id)) {
      assert RowPriced(rows[id], prices(id));
    }
  }

  lemma {:induction false} RunPriced(s: State, p: Policy, steps: seq<Step>, prices: string -> Prices)
    requires RowsPriced(s.rows, prices) && AllAtPrices(s, p, steps, prices)
    ensures RowsPriced(Run(s, p, steps).rows, prices)
    decreases |steps|
  {
    hide RowsPriced, Next, AtPrices;
    if steps != [] {
      NextPriced(s, p, steps[0], prices);
      RunPriced(Next(s, p, steps[0]), p, steps[1..], prices);
    }
  }

  lemma {:induction false} Product(tokens: nat, price: real)
    requires 0.0 <= price
    ensures 0.0 <= tokens as real * price / 1000.0
  {
    assert 0.0 <= tokens as real * price;
  }

  lemma ChargePositive(u: Usage, prices: Prices)
    requires NotNegative(prices)
    ensures 0.0 <= Charge(u, prices) && 0.0 <= u.reservedTokens as real * prices.0 / 1000.0
  {
    Product(u.reservedTokens, prices.0);
    if MeasuredRow(u) {
      Product(u.inputTokens.value, prices.0);
      Product(u.outputTokens.value, prices.1);
    }
  }

  /** The ledger's own figures are the charges, and what it counts as overrun lies beyond the tokens asked for. */
  lemma PricedFigures(u: Usage, prices: Prices)
    requires RowPriced(u, prices) && NotNegative(prices)
    ensures Cost(u) == Charge(u, prices) && CostOver(u) == Beyond(u, prices)
  {
    ChargePositive(u, prices);
    hide NotNegative;
  }

  // ----- Totals by row and id -----

  ghost function TotalBy(rows: Rows, weight: (string, Usage) -> real): real
    decreases |rows|
  {
    if rows == map[] then 0.0
    else var id :| id in rows; weight(id, rows[id]) + TotalBy(rows - {id}, weight)
  }

  lemma {:induction false} TotalAgrees(rows: Rows, weight: Usage -> real, each: (string, Usage) -> real)
    requires forall id :: id in rows ==> weight(rows[id]) == each(id, rows[id])
    ensures Total(rows, weight) == TotalBy(rows, each)
    decreases |rows|
  {
    if rows != map[] {
      var id :| id in rows && TotalBy(rows, each) == each(id, rows[id]) + TotalBy(rows - {id}, each);
      TotalRemove(rows, weight, id);
      TotalAgrees(rows - {id}, weight, each);
    }
  }

  // ----- The laws -----

  /** Over every run at the routes' prices, each row is charged for exactly the tokens it counts, or asked for. */
  lemma ChargedByTokens(p: Policy, steps: seq<Step>, prices: string -> Prices, id: string)
    requires AllAtPrices(EMPTY_STATE, p, steps, prices) && id in Run(EMPTY_STATE, p, steps).rows
    requires NotNegative(prices(id))
    ensures Cost(Run(EMPTY_STATE, p, steps).rows[id]) == Charge(Run(EMPTY_STATE, p, steps).rows[id], prices(id))
  {
    hide Run, AllAtPrices, Charge, Cost, RowPriced;
    RunPriced(EMPTY_STATE, p, steps, prices);
    PricedFigures(Run(EMPTY_STATE, p, steps).rows[id], prices(id));
  }

  /** The cost law by prices and tokens: all charges together stay below the limit, but for what single calls used
      beyond the tokens they asked for. */
  lemma CostLaw(p: Policy, steps: seq<Step>, prices: string -> Prices)
    requires AllProper(steps) && AllAtPrices(EMPTY_STATE, p, steps, prices)
    requires forall id :: NotNegative(prices(id))
    ensures var rows := Run(EMPTY_STATE, p, steps).rows;
            CostBounded(p) && rows != map[] ==>
              TotalBy(rows, (id, u) => Charge(u, prices(id)))
              < p.maxCost.value + TotalBy(rows, (id, u) => Beyond(u, prices(id)))
  {
    hide Run, AllAtPrices, AllProper, Charge, Beyond, Cost, CostOver, RowPriced, NotNegative;
    var rows := Run(EMPTY_STATE, p, steps).rows;
    RunPriced(EMPTY_STATE, p, steps, prices);
    BudgetHolds(p, steps);
    forall id | id in rows
      ensures Cost(rows[id]) == Charge(rows[id], prices(id)) && CostOver(rows[id]) == Beyond(rows[id], prices(id))
    {
      PricedFigures(rows[id], prices(id));
    }
    TotalAgrees(rows, Cost, (id, u) => Charge(u, prices(id)));
    TotalAgrees(rows, CostOver, (id, u) => Beyond(u, prices(id)));
  }

  /** Each of the three tests passes exactly if the budget with the new reservation in it still meets its limit. */
  lemma AdmittedExactly(rows: Rows, p: Policy, ask: Ask, id: string, n: int)
    requires id !in rows && 0.0 <= ask.inputPrice
    ensures var more := rows[id := Reservation(ask, n)];
            && (CallsAllow(rows, p) <==> (p.maxCalls.Some? ==> |more| <= p.maxCalls.value))
            && (CostAllows(rows, p, ask) <==> (CostBounded(p) ==> Total(more, Cost) < p.maxCost.value))
            && (TokensAllow(rows, p, ask)
                <==> (p.maxTokens.Some? ==> Total(more, TokenWeight) <= p.maxTokens.value as real))
  {
    var u := Reservation(ask, n);
    ReservationSound(ask, n);
    TotalAdd(rows, Cost, id, u);
    TotalAdd(rows, TokenWeight, id, u);
    assert rows[id := u].Keys == rows.Keys + {id} && |rows[id := u].Keys| == |rows[id := u]| && |rows.Keys| == |rows|;
    assert Cost(u) == ReservedCost(ask) && TokenWeight(u) == ask.inputTokens as real;
    hide Total, Cost, TokenWeight, ReservedCost, Reservation;
  }

  /** A settled row counts one token more for each one more reported, as many as it asked for if they are not reported,
      and none if it was never sent. */
  lemma CountedByToken(u: Usage, r: Report)
    requires !Malformed(r)
    ensures r.outcome == OutAborted ==> Tokens(SettledRow(u, r)) == 0
    ensures r.outcome != OutAborted && Unmeasured(r) ==> Tokens(SettledRow(u, r)) == u.reservedTokens
    ensures r.outcome != OutAborted && !Unmeasured(r) ==>
              var i, o := r.inputTokens.value, r.outputTokens.value;
              && (i > 0 ==> Tokens(SettledRow(u, r)) == Tokens(SettledRow(u, r.(inputTokens := Some(i - 1)))) + 1)
              && (o > 0 ==> Tokens(SettledRow(u, r)) == Tokens(SettledRow(u, r.(outputTokens := Some(o - 1)))) + 1)
              && (i == o == 0 ==> Tokens(SettledRow(u, r)) == 0)
  {
  }

  /** A success that used exactly the input tokens it asked for, and no output, costs what it reserved. */
  lemma ExactUse(ask: Ask, n: int, status: UsageStatus, outputPrice: real)
    requires 0.0 <= ask.inputPrice && (status == Running || status == Started)
    ensures var u := Reservation(ask, n).(status := status);
            var r := Report(OutSucceeded, Some(ask.inputTokens), Some(0), Some((ask.inputPrice, outputPrice)), None);
            && !Malformed(r)
            && Cost(SettledRow(u, r)) == u.reservedCost == ask.inputTokens as real * ask.inputPrice / 1000.0
            && CostOver(SettledRow(u, r)) == 0.0
  {
    ReservedPriced(ask, n, (ask.inputPrice, outputPrice));
    Product(ask.inputTokens, ask.inputPrice);
  }

  /** Each further input token of a measured success costs a thousandth of the input price, each output token a
      thousandth of the output price, and no tokens cost nothing. */
  lemma DearerByToken(u: Usage, r: Report)
    requires !Malformed(r) && Measured(r)
    ensures SettledRow(u, r.(inputTokens := Some(r.inputTokens.value + 1))).estimatedCost
            == Some(SettledRow(u, r).estimatedCost.value + r.prices.value.0 / 1000.0)
    ensures SettledRow(u, r.(outputTokens := Some(r.outputTokens.value + 1))).estimatedCost
            == Some(SettledRow(u, r).estimatedCost.value + r.prices.value.1 / 1000.0)
    ensures SettledRow(u, r.(inputTokens := Some(0), outputTokens := Some(0))).estimatedCost == Some(0.0)
  {
    var (a, b) := r.prices.value;
    var i, o := r.inputTokens.value, r.outputTokens.value;
    var cost := i as real * a + o as real * b;
    assert ReportedCost(u, r) == cost / 1000.0;
    assert (i + 1) as real * a == i as real * a + a && (o + 1) as real * b == o as real * b + b;
    assert ReportedCost(u, r.(inputTokens := Some(i + 1))) == (cost + a) / 1000.0;
    assert ReportedCost(u, r.(outputTokens := Some(o + 1))) == (cost + b) / 1000.0;
    Split(cost, a);
    Split(cost, b);
    assert 0 as real * a == 0.0 && 0 as real * b == 0.0;
    assert ReportedCost(u, r.(inputTokens := Some(0), outputTokens := Some(0))) == (0.0 + 0.0) / 1000.0;
  }
}
