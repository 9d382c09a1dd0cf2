/** The gateway as it runs: one attempt on one route, and the loop over routes. */
module GatewayService {
  import opened Options
  import opened Gateway
  import U = ModelUsage
  import B = Budget
  import E = PolicyEngine
  import P = Permits
  import T = PermitTheorems
  import C = CircuitTheorems
  import S = PermitScript

  /** What the provider does with a request; counts and identities are as it sent them, unchecked. */
  datatype ProviderAnswer =
    | Payload(requestId: Option<string>, inputTokens: Option<int>, outputTokens: Option<int>)
    | HttpError(code: int, retryAfter: real)
    | TimedOut
    | Broke

  datatype GatewayStatus =
    | CallSucceeded | RateLimited | OutcomeUnknown | AbortedBeforeSend | ResponseDiscarded
    | RouteNotAllowed | GovernanceDenied | CapabilityDisabled | EndpointRejected | CircuitIsOpen
    | BudgetDenied(code: E.Denial) | PermitRefused(reply: P.Reply)

  /** What the tests before the reservation answer. */
  datatype Tests = Tests(capable: bool, endpointPublic: bool, deadlinePassed: bool, draining: bool,
                         promptAttached: bool)

  /** Both ledgers at the moment the provider was called, with the budget's whole state. */
  datatype Sending = Sending(row: U.UsageStatus, permit: P.PermitState, store: B.State)

  /** Token counts are used only when both are there and not negative. */
  function CountsOf(answer: ProviderAnswer): (counts: (Option<int>, Option<int>))
    ensures !U.Negative(counts.0) && !U.Negative(counts.1)
  {
    if answer.Payload? && answer.inputTokens.Some? && answer.outputTokens.Some?
       && answer.inputTokens.value >= 0 && answer.outputTokens.value >= 0
    then (answer.inputTokens, answer.outputTokens)
    else (None, None)
  }

  function IdentityOf(answer: ProviderAnswer): (id: Option<string>)
    ensures id.Some? ==> 1 <= |id.value| <= 120
  {
    if answer.Payload? && answer.requestId.Some? && 1 <= |answer.requestId.value| <= 120 then answer.requestId else None
  }

  predicate Bounded(gap: Gap, until: real, clock: int) {
    && (forall c :: c in gap.calls ==> c.now <= until)
    && (forall step :: step in gap.rowNoise ==> (step.MarkExpired? ==> step.now <= clock))
    && gap.now <= until
  }

  /** The others never name this attempt, and `until` and `clock` bound every time in the gaps. */
  ghost predicate Undisturbed(env: nat -> Gap, id: string, p: string, until: real, clock: int) {
    forall k: nat :: Spares(env(k), id, p) && Bounded(env(k), until, clock)
  }

  /** What one try on one route meets: its tests, the reservation's own tests and the gaps between its statements, the
      gaps before and around the call, and the provider's answer. */
  datatype TryWorld = TryWorld(
    tests: Tests, reader: nat, authoritative: seq<bool>, guard: seq<bool>, gaps: nat -> seq<B.Step>,
    before: nat -> Gap, env: nat -> Gap, answer: ProviderAnswer)

  ghost predicate Fair(world: TryWorld, id: string, p: string, until: real, clock: int) {
    && |world.authoritative| == |world.guard| == 2
    && (forall k: nat :: E.Spares(world.gaps(k), world.reader, id) && B.AllProper(world.gaps(k)))
    && Undisturbed(world.before, id, p, until, clock) && Undisturbed(world.env, id, p, until, clock)
  }

  predicate Priced(route: Route) {
    route.inputPrice >= 0.0 && route.outputPrice >= 0.0
  }

  predicate Sendable(state: P.PermitState) {
    state == P.Acquired || state == P.Started
  }

  /** The permit is in the active set exactly while it may be sent, under its route, and its hash outlives that. */
  predicate Held(l: P.Ledger, p: string, route: string) {
    && p in l.permits
    && (p in l.active <==> Sendable(l.permits[p].state))
    && (p in l.active ==> l.active[p] <= l.permits[p].gone && l.permits[p].routeId == Some(route))
  }

  /** The permit takes no slot and can neither be sent nor settled into a slot again. */
  predicate Released(l: P.Ledger, p: string) {
    p in l.permits && p !in l.active && !Sendable(l.permits[p].state)
  }

  lemma KeptHeld(l: P.Ledger, m: P.Ledger, p: string, route: string, until: real)
    requires Held(l, p, route) && PermitKept(l, m, p, until)
    ensures Held(m, p, route)
  {
  }

  lemma ReapHeld(l: P.Ledger, p: string, route: string, now: real)
    requires Held(l, p, route)
    ensures Held(P.Reap(l, now), p, route)
    ensures p in P.Reap(l, now).active ==> now < P.Reap(l, now).permits[p].gone
  {
  }

  /** A settlement of this permit releases its slot, also when its hash vanished or was reaped. */
  lemma SettleReleases(l: P.Ledger, p: string, route: string, retryAfter: real, now: real)
    requires Held(l, p, route)
    ensures Released(P.Settle(l, p, route, retryAfter, now).0, p)
  {
    ReapHeld(l, p, route, now);
    hide P.Reap, P.Cool;
    var reaped := P.Reap(l, now);
    if p in reaped.permits {
      CoolKeepsRest(reaped.(permits := reaped.permits[p := reaped.permits[p].(state := P.Settled)],
                            active := reaped.active - {p}), retryAfter, now);
    }
  }

  /** The settlement of a permit still in the active set answers `route_mismatch` if and only if its hash has vanished:
      the reaping just before recreates it without its route. */
  lemma VanishedMismatches(l: P.Ledger, p: string, route: string, retryAfter: real, now: real)
    requires Held(l, p, route) && p in l.active
    ensures P.Settle(l, p, route, retryAfter, now).1 == P.RouteMismatch <==> l.permits[p].gone <= now
  {
    if now < l.active[p] {
      ReapSpares(l, p, now);
    } else {
      ReapBuries(l, p, now);
    }
    hide P.Reap, P.Cool;
  }

  lemma ReapBuries(l: P.Ledger, p: string, now: real)
    requires p in l.permits && p in l.active && l.active[p] <= now
    ensures var reaped := P.Reap(l, now);
            && p in reaped.permits && reaped.permits[p].state == P.Expired && reaped.permits[p].gone == now + 60.0
            && reaped.permits[p].routeId == if now < l.permits[p].gone then l.permits[p].routeId else None
  {
  }

  lemma StartHeld(l: P.Ledger, p: string, route: string, now: real)
    requires Held(l, p, route)
    ensures var (after, reply) := P.Start(l, p, route, now);
            && Held(after, p, route)
            && (reply == P.StartedNow ==> p in after.permits && after.permits[p].state == P.Started && p in after.active
                                          && p in l.active && after.active[p] == l.active[p])
  {
    ReapHeld(l, p, route, now);
    ReapActive(l, p, now);
    hide P.Reap;
  }

  lemma ReapActive(l: P.Ledger, p: string, now: real)
    ensures p in P.Reap(l, now).active ==> p in l.active && P.Reap(l, now).active[p] == l.active[p]
  {
  }

  lemma EnterHeld(l: P.Ledger, p: string, route: string, q: P.Quota, tokens: nat, now: real)
    ensures Held(P.Enter(l, p, route, q, tokens, now), p, route)
    ensures P.Enter(l, p, route, q, tokens, now).permits[p].state == P.Acquired
    ensures p in P.Enter(l, p, route, q, tokens, now).active
    ensures P.Enter(l, p, route, q, tokens, now).active[p] == now + q.ttl
  {
  }

  lemma AcquireHeld(l: P.Ledger, p: string, route: string, q: P.Quota, tokens: nat, now: real)
    requires p !in l.permits && p !in l.active
    ensures var (after, reply) := P.Acquire(l, p, route, q, tokens, now);
            if reply == P.Granted then
              && Held(after, p, route) && after.permits[p].state == P.Acquired
              && p in after.active && after.active[p] == now + q.ttl
            else p !in after.permits && p !in after.active
  {
    hide P.Reap, P.Slide, P.Used, P.Enter, P.Acquire, P.After, Held;
    var c := P.Call(P.AcquireOp(p, route, q, tokens), now);
    var h := P.History(l, now, map[], map[]);
    assert P.Answer(l, c) == P.Acquire(l, p, route, q, tokens, now);
    ReapKeepsPermit(l, now, p, now);
    EnterHeld(P.Slide(P.Reap(l, now), now), p, route, q, tokens, now);
    AfterLedger(h, c);
    T.AcquireCases(h, c);
  }

  // ----- This attempt's usage row -----

  function GivenUpRow(u: U.Usage): U.Usage {
    u.(status := U.Done(U.OutUnknown), estimatedCost := Some(u.reservedCost))
  }

  /** The row of a call under way, possibly already given up by the reconciler. */
  predicate AttemptRow(u: U.Usage) {
    u.providerRequestId.None? && (U.InFlight(u) || u == GivenUpRow(u))
  }

  predicate HasAttempt(rows: U.Rows, id: string) {
    id in rows && AttemptRow(rows[id])
  }

  lemma KeptAttempt(before: U.Rows, after: U.Rows, id: string, clock: int)
    requires HasAttempt(before, id) && RowKept(before, after, id, clock)
    ensures HasAttempt(after, id)
    ensures after[id] == before[id] || after[id] == GivenUpRow(before[id])
    ensures GivenUpRow(after[id]) == GivenUpRow(before[id])
    ensures !U.Overdue(before[id], clock) ==> after[id] == before[id]
  {
  }

  lemma SettleAttempt(rows: U.Rows, id: string, r: U.Report)
    requires HasAttempt(rows, id) && !U.Malformed(r)
    ensures var (after, reply) := U.Settled(rows, id, r);
            && id in after && after[id].status.Done?
            && (if U.InFlight(rows[id]) then after[id] == U.SettledRow(rows[id], r) && reply == U.SettledNow
                else after == rows && rows[id] == GivenUpRow(rows[id])
                     && (U.Recovers(r) ==> reply == U.IdentityMismatch))
  {
  }

  /** What is reported of an attempt: tokens and prices only for a success. */
  function ReportOf(route: Route, outcome: U.Outcome, answer: ProviderAnswer, requestId: Option<string>): (r: U.Report)
    requires requestId.Some? ==> 1 <= |requestId.value| <= 120
    ensures !U.Malformed(r)
  {
    if outcome == U.OutSucceeded then
      U.Report(outcome, CountsOf(answer).0, CountsOf(answer).1, Some((route.inputPrice, route.outputPrice)), requestId)
    else U.Report(outcome, None, None, None, requestId)
  }

  function Reported(route: Route, wasSent: bool, answer: ProviderAnswer, stillAuthorized: bool): (r: U.Report)
    ensures !U.Malformed(r)
  {
    if wasSent then ReportOf(route, Judge(answer, stillAuthorized).0, answer, IdentityOf(answer))
    else ReportOf(route, U.OutAborted, answer, None)
  }

  /** How an attempt's row ends: settled as reported, or given up by the reconciler first. */
  predicate Ends(u: U.Usage, last: U.Usage, r: U.Report)
    requires !U.Malformed(r)
  {
    (U.InFlight(u) && last == U.SettledRow(u, r)) || last == GivenUpRow(u)
  }

  /** The row was marked started; since then only its deadline, past by `clock`, can have had it given up. */
  predicate RowMarked(u: U.Usage, clock: int) {
    u.status == U.Started || (u.status == U.Done(U.OutUnknown) && u.deadline.Some? && u.deadline.value < clock)
  }

  /** The permit was marked started; since then only its expiry, past by `until`, can have had it reaped. */
  predicate PermitMarked(l: P.Ledger, p: string, expires: real, until: real) {
    && p in l.permits
    && (|| (l.permits[p].state == P.Started && p in l.active && l.active[p] == expires)
        || (l.permits[p].state == P.Expired && p !in l.active && expires <= until))
  }

  lemma KeptMarked(l: P.Ledger, m: P.Ledger, p: string, expires: real, until: real)
    requires PermitMarked(l, p, expires, until) && PermitKept(l, m, p, until)
    ensures PermitMarked(m, p, expires, until)
  {
  }

  lemma KeptRowMarked(before: U.Rows, after: U.Rows, id: string, clock: int)
    requires id in before && RowMarked(before[id], clock) && RowKept(before, after, id, clock)
    ensures id in after && RowMarked(after[id], clock)
  {
  }

  /** The call is at this status under this permit state, and neither deadline nor expiry has come by `clock` and
      `until`. */
  predicate InTime(rows: U.Rows, l: P.Ledger, id: string, p: string, status: U.UsageStatus, state: P.PermitState,
                   until: real, clock: int) {
    && id in rows && rows[id].status == status && !Late(rows[id], clock)
    && p in l.permits && l.permits[p].state == state && p in l.active && until < l.active[p]
  }

  lemma KeptInTime(rows: U.Rows, after: U.Rows, l: P.Ledger, m: P.Ledger, id: string, p: string,
                   status: U.UsageStatus, state: P.PermitState, until: real, clock: int)
    requires RowKept(rows, after, id, clock) && PermitKept(l, m, p, until)
    ensures InTime(rows, l, id, p, status, state, until, clock) ==>
              InTime(after, m, id, p, status, state, until, clock) && after[id] == rows[id]
  {
  }

  lemma SameInTime(rows: U.Rows, l: P.Ledger, m: P.Ledger, id: string, p: string, until: real, clock: int)
    requires m.permits == l.permits && m.active == l.active
    ensures InTime(rows, l, id, p, U.Started, P.Started, until, clock) ==>
              InTime(rows, m, id, p, U.Started, P.Started, until, clock)
  {
  }

  lemma StartInTime(l: P.Ledger, p: string, route: string, now: real, until: real)
    requires Held(l, p, route) && l.permits[p].state == P.Acquired && now <= until < l.active[p]
    ensures var (after, reply) := P.Start(l, p, route, now);
            && reply == P.StartedNow && p in after.permits && after.permits[p].state == P.Started
            && p in after.active && after.active[p] == l.active[p]
  {
    ReapSpares(l, p, now);
    hide P.Reap;
  }

  lemma SettleInTime(l: P.Ledger, p: string, route: string, retryAfter: real, now: real, until: real)
    requires Held(l, p, route) && p in l.active && now <= until < l.active[p]
    ensures P.Settle(l, p, route, retryAfter, now).1 == P.SettledNow
    ensures retryAfter > 0.0 ==> now + retryAfter <= P.BlockedUntil(P.Settle(l, p, route, retryAfter, now).0, now)
  {
    ReapSpares(l, p, now);
    hide P.Reap, P.Cool;
    var reaped := P.Reap(l, now);
    CoolBlocks(reaped.(permits := reaped.permits[p := reaped.permits[p].(state := P.Settled)],
                       active := reaped.active - {p}), retryAfter, now);
  }

  lemma CoolBlocks(l: P.Ledger, retryAfter: real, now: real)
    ensures retryAfter > 0.0 ==> now + retryAfter <= P.BlockedUntil(P.Cool(l, retryAfter, now), now)
  {
  }

  lemma ReapSpares(l: P.Ledger, p: string, now: real)
    requires p in l.permits && p in l.active && now < l.active[p]
    ensures var reaped := P.Reap(l, now);
            && p in reaped.permits && reaped.permits[p] == l.permits[p]
            && p in reaped.active && reaped.active[p] == l.active[p]
  {
  }

  /** The outcome and the answer to the caller that a provider's reaction leads to. */
  function Judge(answer: ProviderAnswer, stillAuthorized: bool): (U.Outcome, GatewayStatus) {
    match answer
    case Payload(_, _, _) =>
      if stillAuthorized then (U.OutSucceeded, CallSucceeded) else (U.OutUnknown, ResponseDiscarded)
    case HttpError(code, _) => if code == 429 then (U.OutRateLimited, RateLimited) else (U.OutUnknown, OutcomeUnknown)
    case _ => (U.OutUnknown, OutcomeUnknown)
  }

  /** What a provider's reaction leads to, answer by answer: what the caller is told, and the row as it is settled. */
  lemma SettledAsAnswered(u: U.Usage, route: Route, answer: ProviderAnswer, authorized: bool)
    ensures var told := Judge(answer, authorized).1;
            && (told == CallSucceeded <==> answer.Payload? && authorized)
            && (told == ResponseDiscarded <==> answer.Payload? && !authorized)
            && (told == RateLimited <==> answer.HttpError? && answer.code == 429)
            && (told == OutcomeUnknown <==> !answer.Payload? && !(answer.HttpError? && answer.code == 429))
    ensures var row := U.SettledRow(u, Reported(route, true, answer, authorized));
            && (row.status == U.Done(U.OutSucceeded) <==> answer.Payload? && authorized)
            && (row.status == U.Done(U.OutRateLimited) <==> answer.HttpError? && answer.code == 429)
            && (row.status == U.Done(U.OutSucceeded) || row.status == U.Done(U.OutRateLimited)
                || row.status == U.Done(U.OutUnknown))
    ensures var row := U.SettledRow(u, Reported(route, true, answer, authorized));
            if answer.Payload? && authorized && Counted(answer) then
              && row.inputTokens == Some(answer.inputTokens.value)
              && row.outputTokens == Some(answer.outputTokens.value)
              && row.estimatedCost == Some((answer.inputTokens.value as real * route.inputPrice
                                            + answer.outputTokens.value as real * route.outputPrice) / 1000.0)
            else row.inputTokens == row.outputTokens == None && row.estimatedCost == Some(u.reservedCost)
    ensures U.SettledRow(u, Reported(route, true, answer, authorized)).providerRequestId
            == if answer.Payload? && answer.requestId.Some? && 1 <= |answer.requestId.value| <= 120
               then answer.requestId else u.providerRequestId
    ensures var row := U.SettledRow(u, Reported(route, false, answer, authorized));
            row.status == U.Done(U.OutAborted) && row.estimatedCost == Some(0.0)
  {
    if answer.Payload? && authorized && Counted(answer) {
      var r := Reported(route, true, answer, authorized);
      assert U.Measured(r) && r.inputTokens.value == answer.inputTokens.value
             && r.outputTokens.value == answer.outputTokens.value;
      assert U.ReportedCost(u, r) == (answer.inputTokens.value as real * route.inputPrice
                                      + answer.outputTokens.value as real * route.outputPrice) / 1000.0;
    }
  }

  /** Both token counts were sent, and neither is negative. */
  predicate Counted(answer: ProviderAnswer) {
    && answer.Payload? && answer.inputTokens.Some? && answer.inputTokens.value >= 0
    && answer.outputTokens.Some? && answer.outputTokens.value >= 0
  }

  /** The caller is told what the answer was judged to be, or of an unknown outcome where a success is not on record. */
  predicate Answered(result: GatewayStatus, answer: ProviderAnswer, authorized: bool) {
    || result == Judge(answer, authorized).1
    || (result == OutcomeUnknown && Judge(answer, authorized).1 == CallSucceeded)
  }

  /** A server error, a timeout or a broken connection counts against the route. */
  predicate CountsAgainst(answer: ProviderAnswer) {
    answer.TimedOut? || (answer.HttpError? && 500 <= answer.code)
  }

  /** The route's circuit after an attempt: one more failure in a row if it was sent and counts against the route, and
      from the threshold on an open circuit; otherwise as it was. */
  predicate Noted(l: P.Ledger, m: P.Ledger, route: Route, wasSent: bool, answer: ProviderAnswer, now: real) {
    var threshold := route.quota.circuitThreshold;
    if wasSent && CountsAgainst(answer) && threshold != 0 then
      threshold > 0 ==>
        C.Failing(m, route.id, threshold, route.openSeconds, C.Remembered(l, route.id, now) + 1, now)
    else CircuitOf(m, route.id) == CircuitOf(l, route.id)
  }

  lemma NotesFailure(l: P.Ledger, route: Route, now: real)
    ensures forall answer :: CountsAgainst(answer) ==>
              Noted(l, P.CircuitFailure(l, route.id, route.quota.circuitThreshold, route.openSeconds, now), route, true,
                    answer, now)
  {
    hide P.Ceil;
  }

  lemma UnsentNotes(l: P.Ledger, m: P.Ledger, route: Route, answer: ProviderAnswer, now: real)
    ensures Noted(l, m, route, false, answer, now) <==> CircuitOf(m, route.id) == CircuitOf(l, route.id)
  {
  }

  lemma NotedSame(l: P.Ledger, l2: P.Ledger, m: P.Ledger, m2: P.Ledger, route: Route, wasSent: bool,
                  answer: ProviderAnswer, now: real)
    requires CircuitOf(l, route.id) == CircuitOf(l2, route.id) && CircuitOf(m, route.id) == CircuitOf(m2, route.id)
    ensures Noted(l, m, route, wasSent, answer, now) <==> Noted(l2, m2, route, wasSent, answer, now)
  {
    hide C.Memory;
  }

  /** A rate-limit answer that asks for a wait has closed the key for that long. */
  predicate Cools(l: P.Ledger, answer: ProviderAnswer, now: real) {
    answer.HttpError? && answer.code == 429 && answer.retryAfter > 0.0 ==>
      now + answer.retryAfter <= P.BlockedUntil(l, now)
  }

  /** So nobody is granted a permit of that key before the wait is over, whatever calls come in between. */
  lemma RateLimitHolds(h: P.History, answer: ProviderAnswer, at: real, calls: seq<P.Call>, c: P.Call)
    requires P.Inv(h) && P.AllowedAll(h, calls) && 0.0 <= at && Cools(h.ledger, answer, at)
    requires answer.HttpError? && answer.code == 429 && answer.retryAfter > 0.0
    requires c.op.AcquireOp? && c.now < at + answer.retryAfter
    ensures P.Answer(P.Replay(h, calls).ledger, c).1 != P.Granted
  {
    hide P.Inv, P.AllowedAll, P.Replay, P.Answer;
    T.CooldownKept(h, calls);
    T.ReplayKeeps(h, calls);
    T.BlockedWhileCooling(P.Replay(h, calls), c);
  }

  // ----- The gateway -----

  class ModelGateway {
    const script: S.Script
    const engine: E.Engine

    constructor (script: S.Script, engine: E.Engine)
      ensures this.script == script && this.engine == engine
    {
      this.script, this.engine := script, engine;
    }

    /** The budget machine's state, and the rows in it. */
    function Store(): B.State
      reads engine, engine.usage
    {
      engine.Store()
    }

    /** Everything the others do in one gap. */
    method Others(gap: Gap, ghost id: string, ghost p: string, ghost until: real, ghost clock: int)
      requires Spares(gap, id, p) && Bounded(gap, until, clock)
      modifies script, engine, engine.usage
      ensures script.Tables() == Played(old(script.Tables()), gap.calls)
      ensures forall route :: CircuitQuiet(gap, route) ==>
                CircuitOf(script.Tables(), route) == old(CircuitOf(script.Tables(), route))
      ensures RowKept(old(engine.usage.rows), engine.usage.rows, id, clock)
      ensures PermitKept(old(script.Tables()), script.Tables(), p, until)
      ensures B.Reaches(old(Store()), engine.policy, Store())
    {
      hide PermitKept, RowKept, B.Next, B.Reaches, B.Proper, P.Answer;
      ghost var rows, tables, start := engine.usage.rows, script.Tables(), Store();
      RowSame(rows, id, clock);
      B.ReachesSelf(start, engine.policy);
      for k := 0 to |gap.rowNoise|
        invariant script.Tables() == tables && RowKept(rows, engine.usage.rows, id, clock)
        invariant B.Reaches(start, engine.policy, Store())
      {
        ghost var before := Store();
        StepKeepsRow(before, engine.policy, gap.rowNoise[k], id, clock);
        B.ReachesStep(before, engine.policy, gap.rowNoise[k]);
        engine.Other(gap.rowNoise[k]);
        RowTransitive(rows, before.rows, engine.usage.rows, id, clock);
        B.ReachesOn(start, engine.policy, before, Store());
      }
      SameKeeps(tables, tables, p, until);
      for k := 0 to |gap.calls|
        invariant RowKept(rows, engine.usage.rows, id, clock) && PermitKept(tables, script.Tables(), p, until)
        invariant B.Reaches(start, engine.policy, Store())
        invariant script.Tables() == Played(tables, gap.calls[..k])
      {
        ghost var before := script.Tables();
        assert gap.calls[..k + 1][..k] == gap.calls[..k];
        CallKeepsPermit(before, gap.calls[k], p, until);
        RunScript(gap.calls[k]);
        KeptTransitive(tables, before, script.Tables(), p, until);
      }
      assert gap.calls[..|gap.calls|] == gap.calls;
      QuietLeavesCircuit(tables, gap);
    }

    method RunScript(c: P.Call)
      modifies script
      ensures script.Tables() == P.Answer(old(script.Tables()), c).0
    {
      hide P.Acquire, P.Start, P.Settle, P.CircuitFailure, P.CircuitSuccess;
      match c.op {
        case AcquireOp(p, route, q, tokens) => var _ := script.Acquire(p, route, q, tokens, c.now);
        case StartOp(p, route) => var _ := script.MarkStarted(p, route, c.now);
        case SettleOp(p, route, retryAfter) => var _ := script.Settle(p, route, retryAfter, c.now);
        case FailureOp(route, threshold, secs) => script.RecordCircuitFailure(route, threshold, secs, c.now);
        case SuccessOp(route) => script.RecordCircuitSuccess(route);
      }
    }

    /** Settles both ledgers; each is tried whatever the other answers. */
    method SettleActivatedAttempt(route: Route, id: string, p: string, report: U.Report, retryAfter: real,
                                  env: nat -> Gap, ghost until: real, ghost clock: int)
      returns (settled: bool)
      requires Undisturbed(env, id, p, until, clock) && !U.Malformed(report) && B.Proper(B.SettleRow(id, report))
      requires HasAttempt(engine.usage.rows, id) && Held(script.Tables(), p, route.id)
      modifies script, engine, engine.usage
      ensures B.Reaches(old(Store()), engine.policy, Store())
      ensures AllCircuitQuiet(env, route.id) ==>
                CircuitOf(script.Tables(), route.id) == old(CircuitOf(script.Tables(), route.id))
      ensures id in engine.usage.rows && Ends(old(engine.usage.rows[id]), engine.usage.rows[id], report)
      ensures Released(script.Tables(), p)
      ensures settled && U.Recovers(report) ==>
                && U.InFlight(old(engine.usage.rows[id]))
                && engine.usage.rows[id] == U.SettledRow(old(engine.usage.rows[id]), report)
      ensures old(InTime(engine.usage.rows, script.Tables(), id, p, U.Started, P.Started, until, clock)) ==>
                && settled && engine.usage.rows[id] == U.SettledRow(old(engine.usage.rows[id]), report)
                && (retryAfter > 0.0 ==> env(8).now + retryAfter <= P.BlockedUntil(script.Tables(), env(8).now))
    {
      hide B.Reaches, B.Proper, Played, CircuitQuiet, CircuitOf;
      ghost var start := Store();
      hide PermitKept, RowKept, Held, Released, P.Settle, U.Settled, U.SettledRow, U.Malformed, HasAttempt;
      ghost var tables, rows := script.Tables(), engine.usage.rows;
      ghost var timely := InTime(rows, tables, id, p, U.Started, P.Started, until, clock);
      Others(env(7), id, p, until, clock);
      KeptHeld(tables, script.Tables(), p, route.id, until);
      KeptAttempt(rows, engine.usage.rows, id, clock);
      KeptInTime(rows, engine.usage.rows, tables, script.Tables(), id, p, U.Started, P.Started, until, clock);
      SettleAttempt(engine.usage.rows, id, report);
      SettleReaches(Store(), engine.policy, id, report);
      ghost var before := Store();
      var usageReply := engine.usage.Settle(id, report);
      B.ReachesOn(start, engine.policy, before, Store());
      before := Store();
      tables, rows := script.Tables(), engine.usage.rows;
      Others(env(8), id, p, until, clock);
      B.ReachesOn(start, engine.policy, before, Store());
      KeptHeld(tables, script.Tables(), p, route.id, until);
      SettledStays(rows, engine.usage.rows, id, clock);
      if timely {
        KeptSlot(tables, script.Tables(), p, until);
        SettleInTime(script.Tables(), p, route.id, retryAfter, env(8).now, until);
      }
      SettleReleases(script.Tables(), p, route.id, retryAfter, env(8).now);
      MarksLeaveCircuit(script.Tables(), p, route.id, retryAfter, env(8).now, route.id);
      var permitReply := script.Settle(p, route.id, retryAfter, env(8).now);
      settled := (usageReply == U.SettledNow || usageReply == U.AlreadySettled)
                 && (permitReply == P.SettledNow || permitReply == P.AlreadySettled);
    }

    /** A gap in which this attempt waits. */
    method Pause(gap: Gap, ghost route: Route, ghost id: string, ghost p: string, ghost until: real, ghost clock: int)
      requires Spares(gap, id, p) && Bounded(gap, until, clock)
      requires Underway(engine.usage.rows, script.Tables(), id, p, route)
      modifies script, engine, engine.usage
      ensures B.Reaches(old(Store()), engine.policy, Store())
      ensures CircuitQuiet(gap, route.id) ==>
                CircuitOf(script.Tables(), route.id) == old(CircuitOf(script.Tables(), route.id))
      ensures Underway(engine.usage.rows, script.Tables(), id, p, route)
      ensures Continues(old(engine.usage.rows[id]), engine.usage.rows[id])
      ensures RowKept(old(engine.usage.rows), engine.usage.rows, id, clock)
      ensures PermitKept(old(script.Tables()), script.Tables(), p, until)
    {
      hide B.Reaches, Played, CircuitQuiet, CircuitOf, Noted;
      hide PermitKept, Held, RowKept, HasAttempt;
      ghost var tables, rows := script.Tables(), engine.usage.rows;
      Others(gap, id, p, until, clock);
      KeptHeld(tables, script.Tables(), p, route.id, until);
      KeptAttempt(rows, engine.usage.rows, id, clock);
    }

    method MarkPermit(route: Route, ghost id: string, p: string, gap: Gap, ghost until: real, ghost clock: int)
      returns (ok: bool)
      requires Spares(gap, id, p) && Bounded(gap, until, clock)
      requires Underway(engine.usage.rows, script.Tables(), id, p, route)
      modifies script, engine, engine.usage
      ensures B.Reaches(old(Store()), engine.policy, Store())
      ensures CircuitQuiet(gap, route.id) ==>
                CircuitOf(script.Tables(), route.id) == old(CircuitOf(script.Tables(), route.id))
      ensures Underway(engine.usage.rows, script.Tables(), id, p, route)
      ensures Continues(old(engine.usage.rows[id]), engine.usage.rows[id])
      ensures ok ==> gap.reachable
      ensures ok ==> p in old(script.active) && PermitMarked(script.Tables(), p, old(script.active[p]), until)
      ensures gap.reachable
              && old(InTime(engine.usage.rows, script.Tables(), id, p, U.Running, P.Acquired, until, clock)) ==>
                ok && InTime(engine.usage.rows, script.Tables(), id, p, U.Running, P.Started, until, clock)
    {
      hide B.Reaches, Played, CircuitQuiet, CircuitOf, Noted;
      hide PermitKept, Held, RowKept, P.Start, HasAttempt;
      ghost var tables, rows := script.Tables(), engine.usage.rows;
      Pause(gap, route, id, p, until, clock);
      KeptInTime(rows, engine.usage.rows, tables, script.Tables(), id, p, U.Running, P.Acquired, until, clock);
      if !gap.reachable {
        return false;
      }
      StartHeld(script.Tables(), p, route.id, gap.now);
      if InTime(engine.usage.rows, script.Tables(), id, p, U.Running, P.Acquired, until, clock) {
        StartInTime(script.Tables(), p, route.id, gap.now, until);
      }
      if p in script.Tables().active {
        KeptActive(tables, script.Tables(), p, route.id, until);
      }
      MarksLeaveCircuit(script.Tables(), p, route.id, 0.0, gap.now, route.id);
      var reply := script.MarkStarted(p, route.id, gap.now);
      ok := reply == P.StartedNow;
    }

    method MarkRow(ghost route: Route, id: string, ghost p: string, gap: Gap, ghost until: real, ghost clock: int)
      returns (ok: bool)
      requires Spares(gap, id, p) && Bounded(gap, until, clock)
      requires Underway(engine.usage.rows, script.Tables(), id, p, route)
      modifies script, engine, engine.usage
      ensures B.Reaches(old(Store()), engine.policy, Store())
      ensures CircuitQuiet(gap, route.id) ==>
                CircuitOf(script.Tables(), route.id) == old(CircuitOf(script.Tables(), route.id))
      ensures Underway(engine.usage.rows, script.Tables(), id, p, route)
      ensures Continues(old(engine.usage.rows[id]), engine.usage.rows[id])
      ensures PermitKept(old(script.Tables()), script.Tables(), p, until)
      ensures ok ==> engine.usage.rows[id].status == U.Started
      ensures old(InTime(engine.usage.rows, script.Tables(), id, p, U.Running, P.Started, until, clock)) ==>
                ok && InTime(engine.usage.rows, script.Tables(), id, p, U.Started, P.Started, until, clock)
    {
      hide B.Reaches, Played, CircuitQuiet, CircuitOf, Noted;
      ghost var start := Store();
      hide PermitKept, Held, RowKept;
      ghost var tables, rows := script.Tables(), engine.usage.rows;
      Pause(gap, route, id, p, until, clock);
      KeptInTime(rows, engine.usage.rows, tables, script.Tables(), id, p, U.Running, P.Started, until, clock);
      ghost var before := Store();
      StartReaches(before, engine.policy, id);
      ok := engine.usage.MarkStarted(id);
      B.ReachesOn(start, engine.policy, before, Store());
    }

    /** The authority checks and the two started marks; `go` means the provider may be called. */
    method BeginSend(route: Route, id: string, p: string, env: nat -> Gap, ghost until: real, ghost clock: int)
      returns (go: bool)
      requires Undisturbed(env, id, p, until, clock)
      requires Underway(engine.usage.rows, script.Tables(), id, p, route)
      modifies script, engine, engine.usage
      ensures B.Reaches(old(Store()), engine.policy, Store())
      ensures AllCircuitQuiet(env, route.id) ==>
                CircuitOf(script.Tables(), route.id) == old(CircuitOf(script.Tables(), route.id))
      ensures Underway(engine.usage.rows, script.Tables(), id, p, route)
      ensures Continues(old(engine.usage.rows[id]), engine.usage.rows[id])
      ensures go ==> env(0).authorized && env(1).authorized && env(4).authorized && env(4).windowOpen
      ensures go ==> RowMarked(engine.usage.rows[id], clock)
      ensures go ==> p in old(script.active) && PermitMarked(script.Tables(), p, old(script.active[p]), until)
      ensures old(InTime(engine.usage.rows, script.Tables(), id, p, U.Running, P.Acquired, until, clock)) ==>
                && go == Permitted(env)
                && (go ==> InTime(engine.usage.rows, script.Tables(), id, p, U.Started, P.Started, until, clock))
    {
      hide B.Reaches, Played, CircuitQuiet, CircuitOf, Noted;
      ghost var begin, point := Store(), Store();
      hide PermitKept, Held, RowKept, RowMarked, PermitMarked, AttemptRow, InTime;
      ghost var tables, start := script.Tables(), engine.usage.rows;
      Pause(env(0), route, id, p, until, clock);
      point := Store();
      ghost var middle, middleRows := script.Tables(), engine.usage.rows;
      Pause(env(1), route, id, p, until, clock);
      B.ReachesOn(begin, engine.policy, point, Store());
      point := Store();
      KeptTransitive(tables, middle, script.Tables(), p, until);
      RowTransitive(start, middleRows, engine.usage.rows, id, clock);
      KeptInTime(start, engine.usage.rows, tables, script.Tables(), id, p, U.Running, P.Acquired, until, clock);
      if !env(0).authorized || !env(1).authorized {
        return false;
      }
      ghost var before := script.Tables();
      go := MarkPermit(route, id, p, env(2), until, clock);
      B.ReachesOn(begin, engine.policy, point, Store());
      point := Store();
      if !go {
        return;
      }
      KeptActive(tables, before, p, route.id, until);
      ghost var expires := tables.active[p];
      before := script.Tables();
      go := MarkRow(route, id, p, env(3), until, clock);
      B.ReachesOn(begin, engine.policy, point, Store());
      point := Store();
      KeptMarked(before, script.Tables(), p, expires, until);
      if !go {
        return;
      }
      StartedIsMarked(engine.usage.rows[id], clock);
      before := script.Tables();
      ghost var rows := engine.usage.rows;
      Pause(env(4), route, id, p, until, clock);
      B.ReachesOn(begin, engine.policy, point, Store());
      KeptInTime(rows, engine.usage.rows, before, script.Tables(), id, p, U.Started, P.Started, until, clock);
      KeptMarked(before, script.Tables(), p, expires, until);
      KeptRowMarked(rows, engine.usage.rows, id, clock);
      go := env(4).authorized && env(4).windowOpen;
    }

    /** Up to and including the provider call; `sent` shows both ledgers as the provider was called, if it was. */
    method Transmit(route: Route, id: string, p: string, answer: ProviderAnswer, env: nat -> Gap,
                    ghost until: real, ghost clock: int)
      returns (sent: Option<Sending>)
      requires Undisturbed(env, id, p, until, clock)
      requires Underway(engine.usage.rows, script.Tables(), id, p, route)
      modifies script, engine, engine.usage
      ensures B.Reaches(old(Store()), engine.policy, Store())
      ensures AllCircuitQuiet(env, route.id) ==>
                Noted(old(script.Tables()), script.Tables(), route, sent.Some?, answer, env(6).now)
      ensures sent.Some? ==> B.Reaches(old(Store()), engine.policy, sent.value.store)
      ensures Underway(engine.usage.rows, script.Tables(), id, p, route)
      ensures Continues(old(engine.usage.rows[id]), engine.usage.rows[id])
      ensures sent.Some? ==> env(0).authorized && env(1).authorized && env(4).authorized && env(4).windowOpen
      ensures sent.Some? ==>
                || sent.value.row == U.Started
                || (sent.value.row == U.Done(U.OutUnknown) && Late(old(engine.usage.rows[id]), clock))
      ensures sent.Some? ==>
                && p in old(script.active)
                && (|| sent.value.permit == P.Started
                    || (sent.value.permit == P.Expired && old(script.active[p]) <= until))
      ensures old(InTime(engine.usage.rows, script.Tables(), id, p, U.Running, P.Acquired, until, clock)) ==>
                && sent.Some? == Permitted(env)
                && (sent.Some? ==>
                      InTime(engine.usage.rows, script.Tables(), id, p, U.Started, P.Started, until, clock))
    {
      hide B.Reaches, Played, CircuitQuiet, CircuitOf, Noted;
      ghost var begin := Store();
      hide PermitKept, Held, RowKept, RowMarked, PermitMarked, AttemptRow, InTime;
      ghost var expires := if p in script.active then script.active[p] else 0.0;
      ghost var first := script.Tables();
      var go := BeginSend(route, id, p, env, until, clock);
      if !go {
        UnsentNotes(first, script.Tables(), route, answer, env(6).now);
        return None;
      }
      ghost var tables, rows := script.Tables(), engine.usage.rows;
      ghost var point := Store();
      Pause(env(5), route, id, p, until, clock);
      B.ReachesOn(begin, engine.policy, point, Store());
      point := Store();
      KeptInTime(rows, engine.usage.rows, tables, script.Tables(), id, p, U.Started, P.Started, until, clock);
      KeptMarked(tables, script.Tables(), p, expires, until);
      KeptRowMarked(rows, engine.usage.rows, id, clock);
      MarkedStates(engine.usage.rows[id], script.Tables(), p, expires, until, clock);
      sent := Some(Sending(engine.usage.rows[id].status, script.permits[p].state, Store()));
      tables, rows := script.Tables(), engine.usage.rows;
      Pause(env(6), route, id, p, until, clock);
      B.ReachesOn(begin, engine.policy, point, Store());
      KeptInTime(rows, engine.usage.rows, tables, script.Tables(), id, p, U.Started, P.Started, until, clock);
      tables := script.Tables();
      NoteCircuit(route, answer, p, env(6).now);
      if CircuitOf(first, route.id) == CircuitOf(tables, route.id) {
        NotedSame(first, tables, script.Tables(), script.Tables(), route, true, answer, env(6).now);
      }
      SameInTime(engine.usage.rows, tables, script.Tables(), id, p, until, clock);
    }

    /** Judges the answer of an attempt that was sent, or notes that it was not, and settles both ledgers. */
    method Conclude(route: Route, id: string, p: string, wasSent: bool, answer: ProviderAnswer, env: nat -> Gap,
                    ghost until: real, ghost clock: int)
      returns (result: GatewayStatus)
      requires Undisturbed(env, id, p, until, clock) && Priced(route)
      requires Underway(engine.usage.rows, script.Tables(), id, p, route)
      modifies script, engine, engine.usage
      ensures B.Reaches(old(Store()), engine.policy, Store())
      ensures AllCircuitQuiet(env, route.id) ==>
                CircuitOf(script.Tables(), route.id)
                == if result == CallSucceeded && route.quota.circuitThreshold != 0 then (None, None)
                   else old(CircuitOf(script.Tables(), route.id))
      ensures id in engine.usage.rows && engine.usage.rows[id].status.Done? && Released(script.Tables(), p)
      ensures !wasSent ==> result == AbortedBeforeSend
      ensures wasSent ==> engine.usage.rows[id].status != U.Done(U.OutAborted)
      ensures var report := Reported(route, wasSent, answer, env(6).authorized);
              && Ends(old(engine.usage.rows[id]), engine.usage.rows[id], report)
              && (result == CallSucceeded ==>
                    && wasSent && answer.Payload? && env(6).authorized
                    && report == ReportOf(route, U.OutSucceeded, answer, IdentityOf(answer))
                    && engine.usage.rows[id] == U.SettledRow(old(engine.usage.rows[id]), report))
              && (wasSent && old(InTime(engine.usage.rows, script.Tables(), id, p, U.Started, P.Started, until, clock))
                  ==>
                    && result == Judge(answer, env(6).authorized).1
                    && engine.usage.rows[id] == U.SettledRow(old(engine.usage.rows[id]), report)
                    && Cools(script.Tables(), answer, env(8).now))
      ensures result == RateLimited ==> wasSent && answer.HttpError? && answer.code == 429
      ensures wasSent ==> Answered(result, answer, env(6).authorized)
    {
      hide B.Reaches, B.Proper, Held, Released, AttemptRow, U.SettledRow, U.Malformed, CountsOf, InTime;
      var outcome, retryAfter, requestId := U.OutAborted, 0.0, None;
      result := AbortedBeforeSend;
      if wasSent {
        outcome, result := Judge(answer, env(6).authorized).0, Judge(answer, env(6).authorized).1;
        requestId := IdentityOf(answer);
        if outcome == U.OutRateLimited {
          retryAfter := answer.retryAfter;
        }
      }
      var report := ReportOf(route, outcome, answer, requestId);
      ghost var u := engine.usage.rows[id];
      assert report == Reported(route, wasSent, answer, env(6).authorized);
      ReportProper(route, outcome, answer, requestId, id);
      var settled := SettleActivatedAttempt(route, id, p, report, retryAfter, env, until, clock);
      EndsDone(u, engine.usage.rows[id], report);
      if result == CallSucceeded {
        if settled {
          ResetCircuit(route, p);
        } else {
          result := OutcomeUnknown;
        }
      }
    }

    /** Sends one activated attempt. */
    method SendActivatedAttempt(route: Route, id: string, p: string, answer: ProviderAnswer, env: nat -> Gap,
                                ghost until: real, ghost clock: int)
      returns (result: GatewayStatus, sent: Option<Sending>)
      requires Undisturbed(env, id, p, until, clock)
      requires Priced(route)
      requires Underway(engine.usage.rows, script.Tables(), id, p, route)
      modifies script, engine, engine.usage
      ensures B.Reaches(old(Store()), engine.policy, Store())
      ensures sent.Some? ==> B.Reaches(old(Store()), engine.policy, sent.value.store)
      // Sent only after both marks and with the last authority check passed.
      ensures sent.Some? ==> env(0).authorized && env(1).authorized && env(4).authorized && env(4).windowOpen
      ensures sent.Some? ==>
                || sent.value.row == U.Started
                || (sent.value.row == U.Done(U.OutUnknown) && Late(old(engine.usage.rows[id]), clock))
      ensures sent.Some? ==>
                && p in old(script.active)
                && (|| sent.value.permit == P.Started
                    || (sent.value.permit == P.Expired && old(script.active[p]) <= until))
      // Whatever happened, both ledgers are settled.
      ensures id in engine.usage.rows && engine.usage.rows[id].status.Done? && Released(script.Tables(), p)
      // Free of charge only if never sent.
      ensures sent.None? ==> result == AbortedBeforeSend
      ensures sent.Some? ==> engine.usage.rows[id].status != U.Done(U.OutAborted)
      // Delivered only if fully accounted.
      ensures result == CallSucceeded ==>
                && sent.Some? && answer.Payload? && env(6).authorized
                && engine.usage.rows[id] == U.SettledRow(old(engine.usage.rows[id]),
                                                  ReportOf(route, U.OutSucceeded, answer, IdentityOf(answer)))
      ensures result == RateLimited ==> sent.Some? && answer.HttpError? && answer.code == 429
      ensures sent.Some? ==> Answered(result, answer, env(6).authorized)
      // The row ends as the provider's answer was judged, or was given up first.
      ensures Ends(old(engine.usage.rows[id]), engine.usage.rows[id],
                   Reported(route, sent.Some?, answer, env(6).authorized))
      // While no deadline and no expiry comes in between, all of it is exact: sent if and only if every check passes,
      // answered as judged, settled as reported.
      ensures old(InTime(engine.usage.rows, script.Tables(), id, p, U.Running, P.Acquired, until, clock)) ==>
                && sent.Some? == Permitted(env)
                && (sent.Some? ==>
                      && result == Judge(answer, env(6).authorized).1
                      && engine.usage.rows[id] == U.SettledRow(old(engine.usage.rows[id]),
                                                        Reported(route, true, answer, env(6).authorized))
                      && Cools(script.Tables(), answer, env(8).now))
      // Unless others report on the route meanwhile, its circuit remembers what came of the attempt.
      ensures AllCircuitQuiet(env, route.id) ==>
                if result == CallSucceeded && route.quota.circuitThreshold != 0 then
                  CircuitOf(script.Tables(), route.id) == (None, None)
                else Noted(old(script.Tables()), script.Tables(), route, sent.Some?, answer, env(6).now)
    {
      hide B.Reaches, Held, Released, AttemptRow, U.SettledRow, CountsOf, Late, InTime, Permitted, Reported, Judge;
      hide Ends;
      ghost var begin := Store();
      sent := Transmit(route, id, p, answer, env, until, clock);
      ghost var point, u := Store(), engine.usage.rows[id];
      ghost var report := Reported(route, sent.Some?, answer, env(6).authorized);
      SettledRowSame(old(engine.usage.rows[id]), u, report);
      result := Conclude(route, id, p, sent.Some?, answer, env, until, clock);
      B.ReachesOn(begin, engine.policy, point, Store());
      EndsContinues(old(engine.usage.rows[id]), u, engine.usage.rows[id], report);
    }

    /** The reservation is given back: no call was made. */
    method GiveBack(gap: Gap, id: string, ghost p: string, ghost until: real, ghost clock: int)
      requires Spares(gap, id, p) && Bounded(gap, until, clock)
      requires id in engine.usage.rows && engine.usage.rows[id].status == U.Reserved && Unused(script.Tables(), p)
      modifies script, engine, engine.usage
      ensures B.Reaches(old(Store()), engine.policy, Store())
      ensures id !in engine.usage.rows && Unused(script.Tables(), p)
    {
      hide B.Reaches;
      ghost var begin := Store();
      ghost var rows := engine.usage.rows;
      Others(gap, id, p, until, clock);
      KeptReserved(rows, engine.usage.rows, id, clock);
      hide RowKept;
      ghost var point := Store();
      CancelReaches(point, engine.policy, id);
      var _ := engine.usage.CancelReservation(id);
      B.ReachesOn(begin, engine.policy, point, Store());
    }

    /** From a granted permit to the settlement. */
    method CallPermitted(route: Route, id: string, p: string, answer: ProviderAnswer, gap: Gap, env: nat -> Gap,
                         ghost until: real, ghost clock: int)
      returns (result: GatewayStatus, sent: Option<Sending>)
      requires Priced(route) && Undisturbed(env, id, p, until, clock)
      requires Spares(gap, id, p) && Bounded(gap, until, clock)
      requires id in engine.usage.rows && Booked(engine.usage.rows[id])
      requires Held(script.Tables(), p, route.id) && script.permits[p].state == P.Acquired && p in script.active
      modifies script, engine, engine.usage
      ensures B.Reaches(old(Store()), engine.policy, Store())
      ensures sent.Some? ==> B.Reaches(old(Store()), engine.policy, sent.value.store)
      ensures sent.Some? ==> env(4).authorized && env(4).windowOpen
      ensures result == RateLimited ==> sent.Some?
      ensures sent.Some? ==> Answered(result, answer, env(6).authorized)
      ensures Accounted(engine.usage.rows, script.Tables(), id, p, result, sent)
      ensures result == AbortedBeforeSend ==>
                !Permitted(env) || Late(old(engine.usage.rows[id]), clock) || old(script.active[p]) <= until
      ensures result in {CallSucceeded, RateLimited, OutcomeUnknown, AbortedBeforeSend, ResponseDiscarded}
    {
      hide B.Reaches, Held, Released, AttemptRow, Late, U.SettledRow, U.Malformed, Spares, Bounded, Ends, InTime;
      hide Played, Permitted, Noted, Cools, CircuitOf, AllCircuitQuiet;
      ghost var begin := Store();
      Activate(gap, route, id, p, until, clock);
      ghost var point := Store();
      SucceededStatus(engine.usage.rows[id], ReportOf(route, U.OutSucceeded, answer, IdentityOf(answer)));
      result, sent := SendActivatedAttempt(route, id, p, answer, env, until, clock);
      B.ReachesOn(begin, engine.policy, point, Store());
      if sent.Some? {
        B.ReachesOn(begin, engine.policy, point, sent.value.store);
      }
    }

    /** From a committed reservation to the settlement. */
    method CallReserved(route: Route, promptAttached: bool, id: string, p: string, tokens: nat, answer: ProviderAnswer,
                        before: nat -> Gap, env: nat -> Gap, ghost until: real, ghost clock: int)
      returns (result: GatewayStatus, sent: Option<Sending>)
      requires Priced(route)
      requires Undisturbed(before, id, p, until, clock) && Undisturbed(env, id, p, until, clock)
      requires id in engine.usage.rows && Booked(engine.usage.rows[id]) && Unused(script.Tables(), p)
      modifies script, engine, engine.usage
      ensures B.Reaches(old(Store()), engine.policy, Store())
      ensures sent.Some? ==> B.Reaches(old(Store()), engine.policy, sent.value.store)
      ensures sent.Some? ==> env(4).authorized && env(4).windowOpen
      ensures result == RateLimited ==> sent.Some?
      ensures sent.Some? ==> Answered(result, answer, env(6).authorized)
      ensures Accounted(engine.usage.rows, script.Tables(), id, p, result, sent)
      ensures result.PermitRefused? ==>
                && promptAttached && result.reply != P.Granted
                && result.reply == P.Acquire(Played(old(script.Tables()), before(3).calls), p, route.id, route.quota,
                                             tokens, before(3).now).1
      ensures result == CapabilityDisabled ==> !before(3).reachable
      ensures result == AbortedBeforeSend ==>
                || !promptAttached || !Permitted(env)
                || Late(old(engine.usage.rows[id]), clock) || before(3).now + route.quota.ttl <= until
      ensures !(result in {RouteNotAllowed, GovernanceDenied, EndpointRejected, CircuitIsOpen}) && !result.BudgetDenied?
    {
      hide B.Reaches;
      ghost var begin, point := Store(), Store();
      hide Held, Late, P.Acquire, P.Answer, Spares, Bounded, Played, Permitted;
      if !promptAttached {
        GiveBack(before(2), id, p, until, clock);
        return AbortedBeforeSend, None;
      }
      IdleReserved(before(3), id, p, until, clock);
      point := Store();
      if !before(3).reachable {
        GiveBack(before(4), id, p, until, clock);
        B.ReachesOn(begin, engine.policy, point, Store());
        return CapabilityDisabled, None;
      }
      AcquireHeld(script.Tables(), p, route.id, route.quota, tokens, before(3).now);
      var reply := script.Acquire(p, route.id, route.quota, tokens, before(3).now);
      if reply != P.Granted {
        GiveBack(before(4), id, p, until, clock);
        B.ReachesOn(begin, engine.policy, point, Store());
        return PermitRefused(reply), None;
      }
      result, sent := CallPermitted(route, id, p, answer, before(4), env, until, clock);
      B.ReachesOn(begin, engine.policy, point, Store());
      if sent.Some? {
        B.ReachesOn(begin, engine.policy, point, sent.value.store);
      }
    }

    /** One candidate route, from its governance checks and its reservation to its settlement. */
    method CallRoute(ctx: Context, route: Route, promptPolicy: Option<string>, ask: B.Ask, id: string, p: string,
                     world: TryWorld, ghost until: real, ghost clock: int)
      returns (result: GatewayStatus, sent: Option<Sending>)
      requires Fair(world, id, p, until, clock) && Priced(route) && ask.inputPrice >= 0.0
      requires id !in engine.usage.rows && Unused(script.Tables(), p)
      modifies script, engine, engine.usage
      // The provider is called only on a governed route, with budget reserved, and just authorized.
      ensures sent.Some? ==>
                && Governed(ctx, route, promptPolicy)
                && world.env(4).authorized && world.env(4).windowOpen
      ensures result == RateLimited ==> sent.Some?
      ensures sent.Some? ==> Answered(result, world.answer, world.env(6).authorized)
      ensures Accounted(engine.usage.rows, script.Tables(), id, p, result, sent)
      // All of it is a run of the budget machine, at its end and at the call.
      ensures B.Reaches(old(Store()), engine.policy, Store())
      ensures sent.Some? ==> B.Reaches(old(Store()), engine.policy, sent.value.store)
      // Each refusal has its own cause.
      ensures result == RouteNotAllowed || result == GovernanceDenied <==> !Governed(ctx, route, promptPolicy)
      ensures result == RouteNotAllowed <==>
                route.id !in ctx.allowedRoutes
                && Governed(ctx.(allowedRoutes := ctx.allowedRoutes + {route.id}), route, promptPolicy)
      ensures result == EndpointRejected ==> !world.tests.endpointPublic
      ensures result == CircuitIsOpen ==>
                && route.quota.circuitThreshold != 0
                && P.OpenUntil(script.Tables(), route.id, world.before(0).now) > world.before(0).now
      ensures result == BudgetDenied(E.CallLimit) ==> !B.CallsAllow(engine.usage.rows, engine.policy)
      ensures result == BudgetDenied(E.CostLimit) ==> !B.CostAllows(engine.usage.rows, engine.policy, ask)
      ensures result == BudgetDenied(E.TokenLimit) ==> !B.TokensAllow(engine.usage.rows, engine.policy, ask)
      ensures result.PermitRefused? ==>
                && world.tests.promptAttached && result.reply != P.Granted
                && result.reply == P.Acquire(AtPermit(old(script.Tables()), world.before), p, route.id, route.quota,
                                             ask.inputTokens, world.before(3).now).1
      ensures result == AbortedBeforeSend ==>
                || world.tests.deadlinePassed || world.tests.draining
                || Prevented(route, ask, world, until, clock)
      ensures result == BudgetDenied(E.NotExecutable) ==> Outrun(world, old(engine.version), engine.version)
      ensures result == CapabilityDisabled ==>
                !world.tests.capable || !world.before(0).reachable || !world.before(3).reachable
    {
      hide B.Reaches, Spares, Bounded, B.CallsAllow, B.CostAllows, B.TokensAllow, Played, P.Acquire, Permitted;
      ghost var begin := Store();
      B.ReachesSelf(begin, engine.policy);
      var denied := Governance(ctx, route, promptPolicy);
      GovernanceExact(ctx, route, promptPolicy);
      hide Governance, Governed;
      if denied.Some? {
        return if denied == Some(NotDeployed) then RouteNotAllowed else GovernanceDenied, None;
      }
      if !world.tests.capable {
        return CapabilityDisabled, None;
      }
      if !world.tests.endpointPublic {
        return EndpointRejected, None;
      }
      if world.tests.deadlinePassed {
        return AbortedBeforeSend, None;
      }
      Idle(world.before(0), id, p, until, clock);
      if route.quota.circuitThreshold != 0 && !world.before(0).reachable {
        return CapabilityDisabled, None;
      }
      if route.quota.circuitThreshold != 0
         && P.OpenUntil(script.Tables(), route.id, world.before(0).now) > world.before(0).now {
        return CircuitIsOpen, None;
      }
      if world.tests.draining {
        return AbortedBeforeSend, None;
      }
      ghost var point := Store();
      result, sent := ReserveAndCall(route, ask, id, p, world, until, clock);
      B.ReachesOn(begin, engine.policy, point, Store());
      if sent.Some? {
        B.ReachesOn(begin, engine.policy, point, sent.value.store);
      }
    }

    /** The reservation and, if it is granted, the call. */
    method ReserveAndCall(route: Route, ask: B.Ask, id: string, p: string, world: TryWorld, ghost until: real,
                          ghost clock: int)
      returns (result: GatewayStatus, sent: Option<Sending>)
      requires Fair(world, id, p, until, clock) && Priced(route) && ask.inputPrice >= 0.0
      requires id !in engine.usage.rows && Unused(script.Tables(), p)
      modifies script, engine, engine.usage
      ensures B.Reaches(old(Store()), engine.policy, Store())
      ensures sent.Some? ==> B.Reaches(old(Store()), engine.policy, sent.value.store)
      ensures sent.Some? ==> world.env(4).authorized && world.env(4).windowOpen
      ensures result == RateLimited ==> sent.Some?
      ensures sent.Some? ==> Answered(result, world.answer, world.env(6).authorized)
      ensures Accounted(engine.usage.rows, script.Tables(), id, p, result, sent)
      ensures result == BudgetDenied(E.CallLimit) ==> !B.CallsAllow(engine.usage.rows, engine.policy)
      ensures result == BudgetDenied(E.CostLimit) ==> !B.CostAllows(engine.usage.rows, engine.policy, ask)
      ensures result == BudgetDenied(E.TokenLimit) ==> !B.TokensAllow(engine.usage.rows, engine.policy, ask)
      ensures result.PermitRefused? ==>
                && world.tests.promptAttached && result.reply != P.Granted
                && result.reply == P.Acquire(Played(Played(old(script.Tables()), world.before(1).calls),
                                                    world.before(3).calls),
                                             p, route.id, route.quota, ask.inputTokens, world.before(3).now).1
      ensures result == CapabilityDisabled ==> !world.before(3).reachable
      ensures result == AbortedBeforeSend ==> Prevented(route, ask, world, until, clock)
      ensures result == BudgetDenied(E.NotExecutable) ==> Outrun(world, old(engine.version), engine.version)
      ensures !(result in {RouteNotAllowed, GovernanceDenied, EndpointRejected, CircuitIsOpen})
    {
      hide B.Reaches, Spares, Bounded, B.CallsAllow, B.CostAllows, B.TokensAllow, Played, P.Acquire, Permitted;
      ghost var begin := Store();
      Idle(world.before(1), id, p, until, clock);
      ghost var point := Store();
      var decision, steps := engine.Reserve(world.reader, ask, id, world.authoritative, world.guard, world.gaps);
      RunReaches(point, engine.policy, Store(), steps);
      B.ReachesOn(begin, engine.policy, point, Store());
      if decision.Denied? {
        return BudgetDenied(decision.code), None;
      }
      hide Accounted;
      point := Store();
      result, sent := CallReserved(route, world.tests.promptAttached, id, p, ask.inputTokens, world.answer,
                                   world.before, world.env, until, clock);
      B.ReachesOn(begin, engine.policy, point, Store());
      if sent.Some? {
        B.ReachesOn(begin, engine.policy, point, sent.value.store);
      }
    }

    /** A gap before the reservation. */
    method Idle(gap: Gap, ghost id: string, ghost p: string, ghost until: real, ghost clock: int)
      requires Spares(gap, id, p) && Bounded(gap, until, clock)
      requires id !in engine.usage.rows && Unused(script.Tables(), p)
      modifies script, engine, engine.usage
      ensures B.Reaches(old(Store()), engine.policy, Store())
      ensures id !in engine.usage.rows && Unused(script.Tables(), p)
      ensures script.Tables() == Played(old(script.Tables()), gap.calls) && old(engine.version) <= engine.version
    {
      hide B.Reaches, Played;
      ghost var begin := Store();
      Others(gap, id, p, until, clock);
      B.ReachesVersion(begin, engine.policy, Store());
    }

    /** A gap between the reservation and the permit. */
    method IdleReserved(gap: Gap, ghost id: string, ghost p: string, ghost until: real, ghost clock: int)
      requires Spares(gap, id, p) && Bounded(gap, until, clock)
      requires id in engine.usage.rows && Booked(engine.usage.rows[id]) && Unused(script.Tables(), p)
      modifies script, engine, engine.usage
      ensures B.Reaches(old(Store()), engine.policy, Store())
      ensures id in engine.usage.rows && engine.usage.rows[id] == old(engine.usage.rows[id])
      ensures Unused(script.Tables(), p) && script.Tables() == Played(old(script.Tables()), gap.calls)
    {
      hide B.Reaches;
      ghost var rows := engine.usage.rows;
      Others(gap, id, p, until, clock);
      KeptReserved(rows, engine.usage.rows, id, clock);
    }

    /** With the permit granted the reservation becomes a call in flight; nobody else can have moved it meanwhile. */
    method Activate(gap: Gap, ghost route: Route, id: string, p: string, ghost until: real, ghost clock: int)
      requires Spares(gap, id, p) && Bounded(gap, until, clock)
      requires id in engine.usage.rows && Booked(engine.usage.rows[id]) && Held(script.Tables(), p, route.id)
      modifies script, engine, engine.usage
      ensures B.Reaches(old(Store()), engine.policy, Store())
      ensures Underway(engine.usage.rows, script.Tables(), id, p, route)
      ensures !Late(old(engine.usage.rows[id]), clock) && old(script.permits[p].state) == P.Acquired
              && p in old(script.active) && until < old(script.active[p]) ==>
                InTime(engine.usage.rows, script.Tables(), id, p, U.Running, P.Acquired, until, clock)
    {
      hide B.Reaches, Played;
      ghost var begin := Store();
      KeptAcquired(script.Tables(), p, until);
      hide Held, PermitKept;
      ghost var tables, rows := script.Tables(), engine.usage.rows;
      Others(gap, id, p, until, clock);
      KeptReserved(rows, engine.usage.rows, id, clock);
      KeptHeld(tables, script.Tables(), p, route.id, until);
      hide RowKept;
      ghost var point := Store();
      ActivateReaches(point, engine.policy, id, p);
      var _ := engine.usage.ActivateReservation(id, p);
      B.ReachesOn(begin, engine.policy, point, Store());
    }

    /** A server error or a timeout counts against the route's circuit. */
    method NoteCircuit(route: Route, answer: ProviderAnswer, ghost p: string, now: real)
      modifies script
      ensures Held(old(script.Tables()), p, route.id) ==> Held(script.Tables(), p, route.id)
      ensures script.permits == old(script.permits) && script.active == old(script.active)
      ensures Noted(old(script.Tables()), script.Tables(), route, true, answer, now)
    {
      if (answer.HttpError? && answer.code >= 500) || answer.TimedOut? {
        NotesFailure(script.Tables(), route, now);
        T.FailureRows(script.Tables(), route.id, route.quota.circuitThreshold, route.openSeconds, now);
        hide P.CircuitFailure;
        script.RecordCircuitFailure(route.id, route.quota.circuitThreshold, route.openSeconds, now);
      }
    }

    method ResetCircuit(route: Route, ghost p: string)
      modifies script
      ensures Released(old(script.Tables()), p) ==> Released(script.Tables(), p)
      ensures CircuitOf(script.Tables(), route.id)
              == if route.quota.circuitThreshold != 0 then (None, None) else old(CircuitOf(script.Tables(), route.id))
    {
      if route.quota.circuitThreshold != 0 {
        script.RecordCircuitSuccess(route.id);
      }
    }
  }

  /** This attempt's row is a call under way and its permit is held. */
  predicate Underway(rows: U.Rows, l: P.Ledger, id: string, p: string, route: Route) {
    HasAttempt(rows, id) && Held(l, p, route.id)
  }

  /** Every check before the call passes. */
  predicate Permitted(env: nat -> Gap) {
    env(0).authorized && env(1).authorized && env(2).reachable && env(4).authorized && env(4).windowOpen
  }

  predicate Continues(u: U.Usage, v: U.Usage) {
    GivenUpRow(v) == GivenUpRow(u) && (U.InFlight(v) ==> U.InFlight(u))
  }

  /** What keeps a reserved call from being sent: the prompt reference, a check just before the call, its deadline, or
      the end of its permit. */
  predicate Prevented(route: Route, ask: B.Ask, world: TryWorld, until: real, clock: int) {
    || !world.tests.promptAttached || !Permitted(world.env)
    || (ask.deadline.Some? && ask.deadline.value < clock)
    || world.before(3).now + route.quota.ttl <= until
  }

  /** A test of the Run's row failed, or two tries lost a race to a newer version. */
  predicate Outrun(world: TryWorld, before: int, after: int)
    requires |world.authoritative| == |world.guard| == 2
  {
    || !world.authoritative[0] || !world.authoritative[1] || !world.guard[0] || !world.guard[1]
    || after >= before + 2
  }

  /** The permit tables as the permit is asked for: what the others did to them in the three gaps before. */
  ghost function AtPermit(l: P.Ledger, before: nat -> Gap): P.Ledger {
    Played(Played(Played(l, before(0).calls), before(1).calls), before(3).calls)
  }

  /** A reservation still to be used. */
  predicate Booked(u: U.Usage) {
    u.status == U.Reserved && u.providerRequestId.None?
  }

  /** The permit id was never granted. */
  predicate Unused(l: P.Ledger, p: string) {
    p !in l.permits && p !in l.active
  }

  /** Nothing is left open: no reservation or call in flight, no slot taken; nothing sent went free of charge, and
      a delivered success is on record as one. */
  predicate Accounted(rows: U.Rows, l: P.Ledger, id: string, p: string, result: GatewayStatus, sent: Option<Sending>) {
    && (id in rows ==> rows[id].status.Done?)
    && (Unused(l, p) || Released(l, p))
    && (sent.Some? ==> id in rows && rows[id].status != U.Done(U.OutAborted))
    && (result == CallSucceeded ==> sent.Some? && rows[id].status == U.Done(U.OutSucceeded))
  }

  // ----- The gateway's own statements as steps of the budget machine -----

  lemma SettleReaches(s: B.State, policy: B.Policy, id: string, report: U.Report)
    requires B.Proper(B.SettleRow(id, report))
    ensures B.Reaches(s, policy, s.(rows := U.Settled(s.rows, id, report).0))
  {
    B.ReachesStep(s, policy, B.SettleRow(id, report));
  }

  lemma StartReaches(s: B.State, policy: B.Policy, id: string)
    ensures B.Reaches(s, policy, s.(rows := U.MarkedStarted(s.rows, id).0))
  {
    B.ReachesStep(s, policy, B.MarkStarted(id));
  }

  lemma CancelReaches(s: B.State, policy: B.Policy, id: string)
    ensures B.Reaches(s, policy, s.(rows := U.Cancelled(s.rows, id).0))
  {
    B.ReachesStep(s, policy, B.CancelReservation(id));
  }

  lemma ActivateReaches(s: B.State, policy: B.Policy, id: string, p: string)
    ensures B.Reaches(s, policy, s.(rows := U.Activated(s.rows, id, p).0))
  {
    B.ReachesStep(s, policy, B.Activate(id, p));
  }

  lemma RunReaches(s: B.State, policy: B.Policy, t: B.State, steps: seq<B.Step>)
    requires B.AllProper(steps) && t == B.Run(s, policy, steps)
    ensures B.Reaches(s, policy, t)
  {
  }

  /** The gateway reports measured tokens only with a success, and at prices that are not negative. */
  lemma ReportProper(route: Route, outcome: U.Outcome, answer: ProviderAnswer, requestId: Option<string>, id: string)
    requires Priced(route) && (requestId.Some? ==> 1 <= |requestId.value| <= 120)
    ensures B.Proper(B.SettleRow(id, ReportOf(route, outcome, answer, requestId)))
  {
  }

  lemma KeptReserved(before: U.Rows, after: U.Rows, id: string, clock: int)
    requires RowKept(before, after, id, clock) && id in before && before[id].status == U.Reserved
    ensures id in after && after[id] == before[id]
  {
  }

  lemma SucceededStatus(u: U.Usage, r: U.Report)
    requires !U.Malformed(r)
    ensures U.SettledRow(u, r).status == U.Done(r.outcome)
  {
  }

  predicate Late(u: U.Usage, clock: int) {
    u.deadline.Some? && u.deadline.value < clock
  }

  lemma KeptAcquired(l: P.Ledger, p: string, until: real)
    ensures forall m :: PermitKept(l, m, p, until) && p in l.permits && l.permits[p].state == P.Acquired
                        && p in l.active && until < l.active[p] ==>
              && p in m.permits && m.permits[p].state == P.Acquired && p in m.active && m.active[p] == l.active[p]
  {
  }

  lemma KeptActive(l: P.Ledger, m: P.Ledger, p: string, route: string, until: real)
    requires Held(l, p, route) && PermitKept(l, m, p, until) && p in m.active
    ensures p in l.active && l.active[p] == m.active[p]
  {
  }

  lemma KeptSlot(l: P.Ledger, m: P.Ledger, p: string, until: real)
    requires PermitKept(l, m, p, until) && p in l.permits && p in l.active && until < l.active[p]
    ensures p in m.active && m.active[p] == l.active[p]
  {
  }

  lemma StartedIsMarked(u: U.Usage, clock: int)
    requires u.status == U.Started
    ensures RowMarked(u, clock)
  {
  }

  lemma MarkedStates(u: U.Usage, l: P.Ledger, p: string, expires: real, until: real, clock: int)
    requires RowMarked(u, clock) && PermitMarked(l, p, expires, until)
    ensures u.status == U.Started || (u.status == U.Done(U.OutUnknown) && Late(u, clock))
    ensures p in l.permits
    ensures l.permits[p].state == P.Started || (l.permits[p].state == P.Expired && expires <= until)
  {
  }

  lemma EndsDone(u: U.Usage, last: U.Usage, r: U.Report)
    requires !U.Malformed(r) && Ends(u, last, r)
    ensures last.status == U.Done(r.outcome) || last.status == U.Done(U.OutUnknown)
  {
  }

  lemma EndsContinues(u: U.Usage, v: U.Usage, last: U.Usage, r: U.Report)
    requires !U.Malformed(r) && Continues(u, v) && Ends(v, last, r)
    ensures Ends(u, last, r)
  {
    SettledRowSame(u, v, r);
  }

  /** A settled row does not show whether it was running or started before. */
  lemma SettledRowSame(u: U.Usage, v: U.Usage, r: U.Report)
    requires Continues(u, v) && !U.Malformed(r)
    ensures U.SettledRow(v, r) == U.SettledRow(u, r)
  {
  }

  lemma SettledStays(before: U.Rows, after: U.Rows, id: string, clock: int)
    requires RowKept(before, after, id, clock) && id in before && before[id].status.Done?
    ensures id in after && after[id] == before[id]
  {
  }

  lemma RowSame(rows: U.Rows, id: string, clock: int)
    ensures RowKept(rows, rows, id, clock)
  {
  }

  lemma RowTransitive(a: U.Rows, b: U.Rows, c: U.Rows, id: string, clock: int)
    requires RowKept(a, b, id, clock) && RowKept(b, c, id, clock)
    ensures RowKept(a, c, id, clock)
  {
  }
}
