/** One provider call threaded through the usage ledger and the shared traffic ledger.

    Between any two statements of the gateway the other workers and the reconciler may do anything
    to either ledger, except name this attempt's fresh usage id and permit id; what they do to the usage
    ledger are steps of the budget machine.
 */
module Gateway {
  import opened Options
  import U = ModelUsage
  import B = Budget
  import P = Permits
  import T = PermitTheorems
  import C = CircuitTheorems

  // ----- Routes -----

  datatype Route = Route(
    id: string, fallback: Option<string>, enabled: bool, allowedTenants: set<string>, residency: string,
    allowedPolicies: set<string>, quota: P.Quota, openSeconds: real, inputPrice: real, outputPrice: real)

  datatype Context = Context(tenantId: string, requiredResidency: Option<string>, allowedRoutes: set<string>)

  datatype GovernanceError = EmergencyDisabled | TenantDenied | PolicyDenied | NotDeployed

  function Governance(ctx: Context, route: Route, promptPolicy: Option<string>): Option<GovernanceError> {
    if !route.enabled then Some(EmergencyDisabled)
    else if (route.allowedTenants != {} && "*" !in route.allowedTenants && ctx.tenantId !in route.allowedTenants)
         || (ctx.requiredResidency.Some? && route.residency != ctx.requiredResidency.value) then Some(TenantDenied)
    else if route.allowedPolicies != {} && (promptPolicy.None? || promptPolicy.value !in route.allowedPolicies) then
      Some(PolicyDenied)
    else if route.id !in ctx.allowedRoutes then Some(NotDeployed)
    else None
  }

  /** Open to the tenant, in the region asked for, under an allowed prompt policy, and in the Run's frozen set. */
  predicate Governed(ctx: Context, route: Route, promptPolicy: Option<string>) {
    && route.enabled
    && (ctx.tenantId in route.allowedTenants || "*" in route.allowedTenants || route.allowedTenants == {})
    && (ctx.requiredResidency == None || ctx.requiredResidency == Some(route.residency))
    && (route.allowedPolicies == {} || exists policy :: policy in route.allowedPolicies && promptPolicy == Some(policy))
    && route.id in ctx.allowedRoutes
  }

  /** The checks in their order refuse exactly the routes that are not governed; a route refused only because the Run's
      frozen set lacks it is told apart from the others. */
  lemma GovernanceExact(ctx: Context, route: Route, promptPolicy: Option<string>)
    ensures Governance(ctx, route, promptPolicy) == None <==> Governed(ctx, route, promptPolicy)
    ensures Governance(ctx, route, promptPolicy) == Some(NotDeployed)
            <==> route.id !in ctx.allowedRoutes
                 && Governed(ctx.(allowedRoutes := ctx.allowedRoutes + {route.id}), route, promptPolicy)
  {
    if promptPolicy.Some? && promptPolicy.value in route.allowedPolicies {
      assert exists policy :: policy in route.allowedPolicies && promptPolicy == Some(policy);
    }
  }

  // ----- What others do between two statements -----

  /** One gap: the others' work in it, then what this gateway's next test of the world answers. */
  datatype Gap = Gap(rowNoise: seq<B.Step>, calls: seq<P.Call>, authorized: bool, windowOpen: bool, reachable: bool,
                     now: real)

  /** A step of the budget machine that does not name the row. */
  predicate NoiseSpares(step: B.Step, id: string) {
    step.Commit? || step.Activate? || step.MarkStarted? || step.CancelReservation? || step.SettleRow? ==> step.id != id
  }

  predicate CallSpares(c: P.Call, p: string) {
    match c.op
    case AcquireOp(q, _, _, _) => q != p
    case StartOp(q, _) => q != p
    case SettleOp(q, _, _) => q != p
    case _ => true
  }

  predicate Spares(gap: Gap, id: string, p: string) {
    && (forall step :: step in gap.rowNoise ==> NoiseSpares(step, id))
    && B.AllProper(gap.rowNoise)
    && (forall c :: c in gap.calls ==> CallSpares(c, p))
  }

  /** The ledger after others' calls, one after another. */
  ghost function Played(l: P.Ledger, calls: seq<P.Call>): P.Ledger {
    if calls == [] then l else P.Answer(Played(l, calls[..|calls| - 1]), calls[|calls| - 1]).0
  }

  /** What the ledger knows of a route's failures and circuit. */
  function CircuitOf(l: P.Ledger, route: string): (Option<P.Timed<int>>, Option<P.Timed<real>>) {
    (if route in l.failures then Some(l.failures[route]) else None,
     if route in l.circuits then Some(l.circuits[route]) else None)
  }

  lemma OneLeavesCircuit(l: P.Ledger, c: P.Call, route: string)
    requires !C.Touches(c, route)
    ensures CircuitOf(P.Answer(l, c).0, route) == CircuitOf(l, route)
  {
    hide P.Acquire, P.Start, P.Settle, P.CircuitFailure;
    match c.op
    case FailureOp(other, threshold, secs) => OtherFailure(l, other, threshold, secs, c.now, route);
    case SuccessOp(_) =>
    case _ =>
      hide P.Answer, CircuitOf;
      PermitsLeaveCircuit(l, c, route);
  }

  lemma PermitsLeaveCircuit(l: P.Ledger, c: P.Call, route: string)
    requires !c.op.FailureOp? && !c.op.SuccessOp?
    ensures CircuitOf(P.Answer(l, c).0, route) == CircuitOf(l, route)
  {
    hide P.Answer, P.After;
    var h := P.History(l, c.now, map[], map[]);
    AfterLedger(h, c);
    C.OthersKeepCircuits(h, c);
  }

  lemma OtherFailure(l: P.Ledger, other: string, threshold: int, secs: real, now: real, route: string)
    requires other != route
    ensures CircuitOf(P.CircuitFailure(l, other, threshold, secs, now), route) == CircuitOf(l, route)
  {
    hide P.Ceil, P.AtLeastOne;
  }

  /** Nobody else reports a failure or success of the route in the gap. */
  predicate CircuitQuiet(gap: Gap, route: string) {
    forall c :: c in gap.calls ==> !C.Touches(c, route)
  }

  ghost predicate AllCircuitQuiet(env: nat -> Gap, route: string) {
    forall k: nat :: CircuitQuiet(env(k), route)
  }

  lemma {:induction false} PlayedLeavesCircuit(l: P.Ledger, calls: seq<P.Call>, route: string)
    requires forall c :: c in calls ==> !C.Touches(c, route)
    ensures CircuitOf(Played(l, calls), route) == CircuitOf(l, route)
  {
    hide P.Answer;
    if calls != [] {
      PlayedLeavesCircuit(l, calls[..|calls| - 1], route);
      OneLeavesCircuit(Played(l, calls[..|calls| - 1]), calls[|calls| - 1], route);
    }
  }

  /** Starting and settling a permit say nothing of circuits. */
  lemma MarksLeaveCircuit(l: P.Ledger, p: string, own: string, retryAfter: real, now: real, route: string)
    ensures CircuitOf(P.Start(l, p, own, now).0, route) == CircuitOf(l, route)
    ensures CircuitOf(P.Settle(l, p, own, retryAfter, now).0, route) == CircuitOf(l, route)
  {
    hide P.Start, P.Settle, CircuitOf;
    OneLeavesCircuit(l, P.Call(P.StartOp(p, own), now), route);
    OneLeavesCircuit(l, P.Call(P.SettleOp(p, own, retryAfter), now), route);
  }

  lemma QuietLeavesCircuit(l: P.Ledger, gap: Gap)
    ensures forall route :: CircuitQuiet(gap, route) ==> CircuitOf(Played(l, gap.calls), route) == CircuitOf(l, route)
  {
    hide Played, CircuitOf;
    forall route | CircuitQuiet(gap, route) ensures CircuitOf(Played(l, gap.calls), route) == CircuitOf(l, route) {
      PlayedLeavesCircuit(l, gap.calls, route);
    }
  }

  // ----- How this attempt's own rows can drift meanwhile -----

  predicate RowDrifts(before: U.Usage, after: U.Usage, clock: int) {
    after == before
    || (U.Overdue(before, clock)
        && after == before.(status := U.Done(U.OutUnknown), estimatedCost := Some(before.reservedCost)))
  }

  /** By `clock` at the latest: a row others do not name stays as it is, until its deadline lets the reconciler
      give it up. */
  predicate RowKept(before: U.Rows, after: U.Rows, id: string, clock: int) {
    if id in before then id in after && RowDrifts(before[id], after[id], clock) else id !in after
  }

  /** A permit others do not name stays as it is, until someone reaps it past its time to live. */
  predicate PermitKept(before: P.Ledger, after: P.Ledger, p: string, until: real) {
    if p !in before.permits then p !in before.active ==> p !in after.permits && p !in after.active
    else
      && p in after.permits
      && (|| (&& after.permits[p] == before.permits[p]
              && (p in after.active <==> p in before.active)
              && (p in before.active ==> after.active[p] == before.active[p]))
          || (&& p in before.active && before.active[p] <= until
              && p !in after.active && after.permits[p].state == P.Expired))
  }

  lemma StepKeepsRow(s: B.State, policy: B.Policy, step: B.Step, id: string, clock: int)
    requires NoiseSpares(step, id) && (step.MarkExpired? ==> step.now <= clock)
    ensures RowKept(s.rows, B.Next(s, policy, step).rows, id, clock)
  {
    hide B.CallsAllow, B.CostAllows, B.TokensAllow, B.CanCommit;
  }

  lemma ReapKeepsPermit(l: P.Ledger, now: real, p: string, until: real)
    requires now <= until
    ensures PermitKept(l, P.Reap(l, now), p, until)
    ensures P.Slide(P.Reap(l, now), now).permits == P.Reap(l, now).permits
    ensures P.Slide(P.Reap(l, now), now).active == P.Reap(l, now).active
  {
  }

  lemma KeptTransitive(l: P.Ledger, m: P.Ledger, n: P.Ledger, p: string, until: real)
    requires PermitKept(l, m, p, until) && PermitKept(m, n, p, until)
    ensures PermitKept(l, n, p, until)
  {
  }

  lemma SameKeeps(l: P.Ledger, m: P.Ledger, p: string, until: real)
    requires m.permits == l.permits && m.active == l.active
    ensures PermitKept(l, m, p, until)
  {
  }

  lemma EnterKeepsPermit(l: P.Ledger, q: string, route: string, quota: P.Quota, tokens: nat, now: real, p: string,
                         until: real)
    requires q != p
    ensures PermitKept(l, P.Enter(l, q, route, quota, tokens, now), p, until)
  {
  }

  lemma MarkKeepsPermit(l: P.Ledger, q: string, p: string, until: real, state: P.PermitState)
    requires q != p && q in l.permits
    ensures PermitKept(l, l.(permits := l.permits[q := l.permits[q].(state := state)]), p, until)
    ensures PermitKept(l, l.(permits := l.permits[q := l.permits[q].(state := state)], active := l.active - {q}),
                       p, until)
  {
  }

  lemma SettleKeepsPermit(l: P.Ledger, c: P.Call, p: string, until: real)
    requires c.op.SettleOp? && c.op.permit != p && c.now <= until
    ensures PermitKept(l, P.Answer(l, c).0, p, until)
  {
    hide P.Reap, P.Slide, P.Answer, P.After, P.Cool, PermitKept;
    var h := P.History(l, c.now, map[], map[]);
    ReapKeepsPermit(l, c.now, p, until);
    AfterLedger(h, c);
    T.SettleCases(h, c);
    var reaped := P.Reap(l, c.now);
    if c.op.permit in reaped.permits {
      var closed := T.Closed(T.Moved(h, reaped, c.now), c.op.permit).ledger;
      MarkKeepsPermit(reaped, c.op.permit, p, until, P.Settled);
      KeptTransitive(l, reaped, closed, p, until);
      CoolKeepsRest(closed, c.op.retryAfter, c.now);
      SameKeeps(closed, P.Cool(closed, c.op.retryAfter, c.now), p, until);
      KeptTransitive(l, closed, P.Cool(closed, c.op.retryAfter, c.now), p, until);
    }
  }

  lemma StartKeepsPermit(l: P.Ledger, c: P.Call, p: string, until: real)
    requires c.op.StartOp? && c.op.permit != p && c.now <= until
    ensures PermitKept(l, P.Answer(l, c).0, p, until)
  {
    hide P.Reap, P.Slide, P.Answer, P.After, PermitKept;
    var h := P.History(l, c.now, map[], map[]);
    ReapKeepsPermit(l, c.now, p, until);
    AfterLedger(h, c);
    T.StartCases(h, c);
    var reaped := P.Reap(l, c.now);
    if c.op.permit in reaped.permits {
      MarkKeepsPermit(reaped, c.op.permit, p, until, P.Started);
      KeptTransitive(l, reaped, T.Begun(T.Moved(h, reaped, c.now), c.op.permit).ledger, p, until);
    }
  }

  lemma AcquireKeepsPermit(l: P.Ledger, c: P.Call, p: string, until: real)
    requires c.op.AcquireOp? && c.op.permit != p && c.now <= until
    ensures PermitKept(l, P.Answer(l, c).0, p, until)
  {
    hide P.Reap, P.Slide, P.Answer, P.After, P.Used, P.Enter, PermitKept;
    var h := P.History(l, c.now, map[], map[]);
    ReapKeepsPermit(l, c.now, p, until);
    SameKeeps(l, l, p, until);
    AfterLedger(h, c);
    T.AcquireCases(h, c);
    var reaped, slid := P.Reap(l, c.now), P.Slide(P.Reap(l, c.now), c.now);
    SameKeeps(reaped, slid, p, until);
    KeptTransitive(l, reaped, slid, p, until);
    var AcquireOp(q, route, quota, tokens) := c.op;
    EnterKeepsPermit(slid, q, route, quota, tokens, c.now, p, until);
    KeptTransitive(l, slid, P.Enter(slid, q, route, quota, tokens, c.now), p, until);
  }

  lemma CallKeepsPermit(l: P.Ledger, c: P.Call, p: string, until: real)
    requires CallSpares(c, p) && c.now <= until
    ensures PermitKept(l, P.Answer(l, c).0, p, until)
  {
    match c.op
    case AcquireOp(_, _, _, _) => AcquireKeepsPermit(l, c, p, until);
    case StartOp(_, _) => StartKeepsPermit(l, c, p, until);
    case SettleOp(_, _, _) => SettleKeepsPermit(l, c, p, until);
    case _ =>
      T.CircuitRows(l, c);
      hide P.Answer;
      SameKeeps(l, P.Answer(l, c).0, p, until);
  }

  lemma AfterLedger(h: P.History, c: P.Call)
    ensures P.After(h, c).ledger == P.Answer(h.ledger, c).0
  {
    hide P.Answer;
  }

  lemma CoolKeepsRest(l: P.Ledger, retryAfter: real, now: real)
    ensures P.Cool(l, retryAfter, now).permits == l.permits && P.Cool(l, retryAfter, now).active == l.active
  {
  }
}
