/** A whole model call: routes tried in turn, each with its own reservation, permit and settlement. */
module GatewayCall {
  import opened Options
  import opened Collections
  import opened Gateway
  import opened GatewayService
  import opened RouteLoop
  import B = Budget
  import U = ModelUsage

  /** What is on record of one try: `kept` and `slotTaken` say whether it left a usage row and a taken slot. */
  datatype Try = Try(route: string, id: string, permit: string, result: GatewayStatus, sent: Option<Sending>,
                     kept: bool, slotTaken: bool)

  function RoutesOf(log: seq<Try>): seq<string> {
    seq(|log|, i requires 0 <= i < |log| => log[i].route)
  }

  function ResultsOf(log: seq<Try>): seq<GatewayStatus> {
    seq(|log|, i requires 0 <= i < |log| => log[i].result)
  }

  lemma LogGrows(log: seq<Try>, t: Try)
    ensures RoutesOf(log + [t]) == RoutesOf(log) + [t.route] && ResultsOf(log + [t]) == ResultsOf(log) + [t.result]
  {
  }

  /** The worlds the tries meet, one for each try and each pair of fresh ids. */
  type Worlds = (nat, string, string) -> TryWorld

  ghost predicate AllFair(worlds: Worlds, until: real, clock: int) {
    forall k: nat, id: string, p: string :: Fair(worlds(k, id, p), id, p, until, clock)
  }

  /** A try called the provider only on a governed and allowed route, just authorized, and at a state of the budget
      that the call's own start leads to; it left no slot taken. */
  ghost predicate TrySound(t: Try, k: nat, routes: Registry, ctx: Context, promptPolicy: Option<string>, worlds: Worlds,
                           start: B.State, policy: B.Policy) {
    && t.route in routes && !t.slotTaken
    && (t.result == RateLimited ==> t.sent.Some?)
    && (t.sent.Some? ==>
          && Governed(ctx, routes[t.route], promptPolicy)
          && worlds(k, t.id, t.permit).env(4).authorized && worlds(k, t.id, t.permit).env(4).windowOpen
          && Answered(t.result, worlds(k, t.id, t.permit).answer, worlds(k, t.id, t.permit).env(6).authorized)
          && B.Reaches(start, policy, t.sent.value.store) && t.kept)
  }

  /** What a try left in the usage ledger is settled. */
  predicate Settled(t: Try, rows: U.Rows) {
    && (t.kept ==> t.id in rows && rows[t.id].status.Done?)
    && (t.result == CallSucceeded ==> t.kept && rows[t.id].status == U.Done(U.OutSucceeded))
  }

  ghost predicate AllSound(log: seq<Try>, routes: Registry, ctx: Context, promptPolicy: Option<string>, worlds: Worlds,
                           start: B.State, policy: B.Policy) {
    forall k :: 0 <= k < |log| ==> TrySound(log[k], k, routes, ctx, promptPolicy, worlds, start, policy)
  }

  ghost predicate AllSettled(log: seq<Try>, rows: U.Rows) {
    forall k :: 0 <= k < |log| ==> Settled(log[k], rows)
  }

  lemma StaysSettled(t: Try, s: B.State, policy: B.Policy, later: B.State)
    requires Settled(t, s.rows) && B.Reaches(s, policy, later)
    ensures Settled(t, later.rows)
  {
    hide B.Reaches;
    if t.kept {
      B.ReachesDone(s, policy, later, t.id);
    }
  }

  /** An id not in use: longer than all that are. */
  method NewId(used: set<string>) returns (id: string)
    ensures id !in used
  {
    var longest: nat, left := 0, used;
    while left != {}
      invariant left <= used && forall s :: s in used && s !in left ==> |s| <= longest
      decreases |left|
    {
      var s :| s in left;
      if |s| > longest {
        longest := |s|;
      }
      left := left - {s};
    }
    id := seq(longest + 1, i => 'u');
  }

  class ModelCaller {
    const gateway: ModelGateway

    constructor (gateway: ModelGateway)
      ensures this.gateway == gateway
    {
      this.gateway := gateway;
    }

    /** One try of a route, under fresh ids. */
    method TryRoute(ctx: Context, routes: Registry, route: Route, promptPolicy: Option<string>, ask: B.Ask, k: nat,
                    worlds: Worlds, ghost start: B.State, ghost until: real, ghost clock: int)
      returns (t: Try)
      requires route.id in routes && routes[route.id] == route && Priced(route) && AllFair(worlds, until, clock)
      requires B.Reaches(start, gateway.engine.policy, gateway.Store())
      modifies gateway.script, gateway.engine, gateway.engine.usage
      ensures t.route == route.id
      ensures TrySound(t, k, routes, ctx, promptPolicy, worlds, start, gateway.engine.policy)
      ensures Settled(t, gateway.engine.usage.rows)
      ensures B.Reaches(start, gateway.engine.policy, gateway.Store())
      ensures B.Reaches(old(gateway.Store()), gateway.engine.policy, gateway.Store())
    {
      hide B.Reaches, Fair, B.CallsAllow, B.CostAllows, B.TokensAllow, Governed;
      ghost var before := gateway.Store();
      var id := NewId(gateway.engine.usage.rows.Keys);
      var p := NewId(gateway.script.permits.Keys + gateway.script.active.Keys);
      var result, sent := gateway.CallRoute(ctx, route, promptPolicy, ask.(inputPrice := route.inputPrice), id, p,
                                            worlds(k, id, p), until, clock);
      B.ReachesOn(start, gateway.engine.policy, before, gateway.Store());
      if sent.Some? {
        B.ReachesOn(start, gateway.engine.policy, before, sent.value.store);
      }
      t := Try(route.id, id, p, result, sent, id in gateway.engine.usage.rows, p in gateway.script.active);
    }

    /** The whole call; `waits(k)` says whether the cooldown after try `k` fits the execution window. */
    method Call(routes: Registry, ctx: Context, routeId: string, promptPolicy: Option<string>, ask: B.Ask,
                worlds: Worlds, waits: nat -> bool, ghost until: real, ghost clock: int)
      returns (result: Option<GatewayStatus>, log: seq<Try>)
      requires Registered(routes) && AllFair(worlds, until, clock)
      requires forall id :: id in routes ==> Priced(routes[id])
      modifies gateway.script, gateway.engine, gateway.engine.usage
      ensures Walk(routes, ctx.allowedRoutes, waits, routeId, log) && |log| <= 2 * |routes|
      ensures result.Some? <==> routeId in routes
      ensures result.Some? ==> log != [] && result.value == log[|log| - 1].result
      // A call ends rate limited only when no allowed, untried fallback is left.
      ensures result == Some(RateLimited) ==>
                !MovesOn(routes, ctx.allowedRoutes, TriedSet(RoutesOf(log)), log[|log| - 1].route)
      // Every provider call of it is governed, authorized and within the budget, and nothing is left behind.
      ensures AllSound(log, routes, ctx, promptPolicy, worlds, old(gateway.Store()), gateway.engine.policy)
      ensures AllSettled(log, gateway.engine.usage.rows)
      ensures B.Reaches(old(gateway.Store()), gateway.engine.policy, gateway.Store())
    {
      hide Walk, TriedSet, RoutesOf, AllSound, AllSettled, B.Reaches, AllFair, Priced, Extends, ComesNext, Registered;
      ghost var start := gateway.Store();
      B.ReachesSelf(start, gateway.engine.policy);
      log := [];
      NothingTried(routes, ctx, promptPolicy, worlds, waits, routeId, start, gateway.engine.policy);
      if routeId !in routes {
        return None, log;
      }
      FirstRoute(routes, ctx.allowedRoutes, routeId);
      var route := routes[routeId];
      var attempted: set<string> := {};
      while true
        invariant route.id in routes && routes[route.id] == route && route.id !in attempted
        invariant attempted <= routes.Keys && attempted == TriedSet(RoutesOf(log))
        invariant ComesNext(routes, ctx.allowedRoutes, routeId, log, route.id)
        invariant Walk(routes, ctx.allowedRoutes, waits, routeId, log)
        invariant AllSound(log, routes, ctx, promptPolicy, worlds, start, gateway.engine.policy)
        invariant AllSettled(log, gateway.engine.usage.rows)
        invariant B.Reaches(start, gateway.engine.policy, gateway.Store())
        decreases routes.Keys - attempted
      {
        ghost var before := log;
        attempted := attempted + {route.id};
        log := Visit(ctx, routes, route, promptPolicy, ask, worlds, waits, log, start, until, clock);
        WalksOn(routes, ctx.allowedRoutes, waits, routeId, before, log, route.id);
        var answer, fallback := log[|log| - 1].result, route.fallback;
        if answer != RateLimited || fallback.None? || fallback.value == "" || fallback.value in attempted
           || fallback.value !in ctx.allowedRoutes {
          return Some(answer), log;
        }
        NextIsNew(routes, ctx.allowedRoutes, routeId, log);
        route := routes[fallback.value];
      }
    }

    /** One route: a try, and after a cooldown that can be waited for a second one. */
    method Visit(ctx: Context, routes: Registry, route: Route, promptPolicy: Option<string>, ask: B.Ask, worlds: Worlds,
                 waits: nat -> bool, before: seq<Try>, ghost start: B.State, ghost until: real, ghost clock: int)
      returns (log: seq<Try>)
      requires route.id in routes && routes[route.id] == route && Priced(route) && AllFair(worlds, until, clock)
      requires B.Reaches(start, gateway.engine.policy, gateway.Store())
      requires AllSound(before, routes, ctx, promptPolicy, worlds, start, gateway.engine.policy)
      requires AllSettled(before, gateway.engine.usage.rows)
      modifies gateway.script, gateway.engine, gateway.engine.usage
      ensures Extends(before, log, route.id, waits)
      ensures AllSound(log, routes, ctx, promptPolicy, worlds, start, gateway.engine.policy)
      ensures AllSettled(log, gateway.engine.usage.rows)
      ensures B.Reaches(start, gateway.engine.policy, gateway.Store())
    {
      hide TrySound, B.Reaches, Settled, AllFair, Priced;
      ghost var point := gateway.Store();
      var t := TryRoute(ctx, routes, route, promptPolicy, ask, |before|, worlds, start, until, clock);
      AllStaySettled(before, point, gateway.engine.policy, gateway.Store());
      log := before + [t];
      if t.result == RateLimited && waits(|before|) {
        point := gateway.Store();
        var again := TryRoute(ctx, routes, route, promptPolicy, ask, |before| + 1, worlds, start, until, clock);
        AllStaySettled(log, point, gateway.engine.policy, gateway.Store());
        log := before + [t, again];
      }
    }
  }

  lemma AllStaySettled(log: seq<Try>, s: B.State, policy: B.Policy, later: B.State)
    requires B.Reaches(s, policy, later) && AllSettled(log, s.rows)
    ensures AllSettled(log, later.rows)
  {
    hide B.Reaches, Settled;
    forall k | 0 <= k < |log| ensures Settled(log[k], later.rows) {
      StaysSettled(log[k], s, policy, later);
    }
  }

  /** The log grew by one try of the route, or by two when the first was rate limited and could be waited for. */
  predicate Extends(before: seq<Try>, log: seq<Try>, route: string, waits: nat -> bool) {
    var n := |before|;
    && n < |log| <= n + 2 && log[..n] == before && log[n].route == route && log[|log| - 1].route == route
    && (|log| == n + 2 <==> log[n].result == RateLimited && waits(n))
  }

  /** Each route is tried at most twice, again only after a cooldown that could be waited for, and every move is from a
      rate-limited route to its allowed, untried fallback. */
  ghost predicate Walk(routes: Registry, allowed: set<string>, waits: nat -> bool, first: string, log: seq<Try>) {
    var tries := RoutesOf(log);
    && (log != [] ==> log[0].route == first)
    && Chain(routes, allowed, tries) && EachAtMostTwice(tries) && WaitsHonoured(tries, ResultsOf(log), waits)
    && (forall k :: 0 <= k < |log| - 1 ==> log[k].result == RateLimited)
    && |log| <= 2 * |TriedSet(tries)|
  }

  /** The route `id` is the first one, or the allowed fallback of the route just found rate limited. */
  predicate ComesNext(routes: Registry, allowed: set<string>, first: string, log: seq<Try>, id: string) {
    if log == [] then id == first else
      var last := log[|log| - 1];
      last.result == RateLimited && last.route in routes && routes[last.route].fallback == Some(id) && id in allowed
  }

  /** The registry holds the fallback of a rate-limited route, under its own id. */
  lemma NextIsNew(routes: Registry, allowed: set<string>, first: string, log: seq<Try>)
    requires Registered(routes) && log != [] && log[|log| - 1].result == RateLimited
    requires MovesOn(routes, allowed, TriedSet(RoutesOf(log)), log[|log| - 1].route)
    ensures var next := routes[log[|log| - 1].route].fallback.value;
            next in routes && routes[next].id == next && ComesNext(routes, allowed, first, log, next)
  {
    assert FallbackKnown(routes, routes[log[|log| - 1].route]);
  }

  lemma FirstRoute(routes: Registry, allowed: set<string>, first: string)
    requires Registered(routes) && first in routes
    ensures routes[first].id == first && ComesNext(routes, allowed, first, [], first)
  {
  }

  lemma NothingTried(routes: Registry, ctx: Context, promptPolicy: Option<string>, worlds: Worlds, waits: nat -> bool,
                     first: string, start: B.State, policy: B.Policy)
    ensures Walk(routes, ctx.allowedRoutes, waits, first, []) && TriedSet(RoutesOf([])) == {}
    ensures AllSound([], routes, ctx, promptPolicy, worlds, start, policy) && AllSettled([], start.rows)
  {
    NoTries(routes, ctx.allowedRoutes, waits);
    assert RoutesOf([]) == [] && ResultsOf([]) == [];
  }

  lemma WalksOn(routes: Registry, allowed: set<string>, waits: nat -> bool, first: string, before: seq<Try>,
                log: seq<Try>, id: string)
    requires Walk(routes, allowed, waits, first, before) && ComesNext(routes, allowed, first, before, id)
    requires Extends(before, log, id, waits) && id in routes && id !in TriedSet(RoutesOf(before))
    requires TriedSet(RoutesOf(before)) <= routes.Keys
    ensures Walk(routes, allowed, waits, first, log) && TriedSet(RoutesOf(log)) == TriedSet(RoutesOf(before)) + {id}
    ensures log != [] && log[|log| - 1].route == id && |log| <= 2 * |routes|
  {
    hide Chain, EachAtMostTwice, TriedSet, WaitsHonoured;
    Visited(routes, allowed, before, log, id, waits);
    forall k | 0 <= k < |log| - 1 ensures log[k].result == RateLimited {
      if k < |before| {
        assert log[k] == before[k];
      }
    }
    if before != [] {
      assert log[0] == before[0];
    }
    Smaller(TriedSet(RoutesOf(log)), routes.Keys);
    assert |routes.Keys| == |routes|;
  }

  lemma Visited(routes: Registry, allowed: set<string>, before: seq<Try>, log: seq<Try>, id: string, waits: nat -> bool)
    requires Extends(before, log, id, waits) && id !in TriedSet(RoutesOf(before))
    requires Chain(routes, allowed, RoutesOf(before)) && EachAtMostTwice(RoutesOf(before))
    requires WaitsHonoured(RoutesOf(before), ResultsOf(before), waits)
    requires before != [] ==>
               var last := RoutesOf(before)[|before| - 1];
               last in routes && routes[last].fallback == Some(id) && id in allowed
    ensures Chain(routes, allowed, RoutesOf(log)) && EachAtMostTwice(RoutesOf(log))
    ensures TriedSet(RoutesOf(log)) == TriedSet(RoutesOf(before)) + {id}
    ensures WaitsHonoured(RoutesOf(log), ResultsOf(log), waits)
  {
    var tries, answers, n := RoutesOf(before), ResultsOf(before), |before|;
    hide Chain, EachAtMostTwice, TriedSet, WaitsHonoured;
    NotTried(tries, id);
    AtMostTwice(tries, id);
    OneTry(routes, allowed, tries, id);
    if |log| == n + 1 {
      assert log == before + [log[n]];
      LogGrows(before, log[n]);
      WaitsOnce(tries, id, answers, log[n].result, waits);
    } else {
      assert log == before + [log[n]] + [log[n + 1]];
      LogGrows(before, log[n]);
      LogGrows(before + [log[n]], log[n + 1]);
      OneTry(routes, allowed, tries + [id], id);
      assert tries + [id] + [id] == tries + [id, id];
      assert answers + [RateLimited] + [log[n + 1].result] == answers + [RateLimited, log[n + 1].result];
      WaitsTwice(tries, id, answers, log[n + 1].result, waits);
    }
  }
}
