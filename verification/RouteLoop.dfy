/** The route registry, and the loop that moves from a rate-limited route to its fallback. */
module RouteLoop {
  import opened Options
  import opened Gateway
  import opened GatewayService

  type Registry = map<string, Route>

  predicate FallbackKnown(routes: Registry, route: Route) {
    route.fallback.Some? && route.fallback.value != "" ==> route.fallback.value in routes
  }

  /** Every route is filed under its own id and every fallback is a registered route; cycles are allowed. */
  ghost predicate Registered(routes: Registry) {
    forall id :: id in routes ==> routes[id].id == id && FallbackKnown(routes, routes[id])
  }

  ghost predicate DistinctIds(configured: seq<Route>) {
    forall i, j :: 0 <= i < j < |configured| ==> configured[i].id != configured[j].id
  }

  ghost predicate IsFiled(configured: seq<Route>, routes: Registry) {
    && (forall i :: 0 <= i < |configured| ==> configured[i].id in routes)
    && (forall id :: id in routes ==> id == routes[id].id && routes[id] in configured)
  }

  /** Files routes under their ids; a repeated id shows in the count. */
  method File(configured: seq<Route>) returns (filed: Registry)
    ensures IsFiled(configured, filed) && (|filed| == |configured| <==> DistinctIds(configured))
  {
    hide IsFiled, DistinctIds;
    filed := map[];
    NoneFiled();
    for k := 0 to |configured|
      invariant IsFiled(configured[..k], filed)
      invariant |filed| <= k && (|filed| == k <==> DistinctIds(configured[..k]))
    {
      assert configured[..k + 1] == configured[..k] + [configured[k]];
      FileOne(configured[..k], configured[k], filed);
      filed := filed[configured[k].id := configured[k]];
    }
    assert configured[..|configured|] == configured;
  }

  lemma NoneFiled()
    ensures IsFiled([], map[]) && DistinctIds([])
  {
  }

  lemma FiledCount(filed: Registry, route: Route)
    ensures |filed[route.id := route]| == if route.id in filed then |filed| else |filed| + 1
  {
    assert filed[route.id := route].Keys == filed.Keys + {route.id};
    assert |filed[route.id := route].Keys| == |filed[route.id := route]| && |filed.Keys| == |filed|;
  }

  lemma StillFiled(earlier: seq<Route>, route: Route, filed: Registry)
    requires IsFiled(earlier, filed)
    ensures IsFiled(earlier + [route], filed[route.id := route])
  {
    assert forall r :: r in earlier + [route] <==> r in earlier || r == route;
  }

  lemma FileOne(earlier: seq<Route>, route: Route, filed: Registry)
    requires IsFiled(earlier, filed)
    ensures IsFiled(earlier + [route], filed[route.id := route])
    ensures |filed[route.id := route]| == if route.id in filed then |filed| else |filed| + 1
    ensures DistinctIds(earlier + [route]) <==> DistinctIds(earlier) && route.id !in filed
  {
    hide DistinctIds, IsFiled;
    IdTaken(earlier, route, filed);
    FiledCount(filed, route);
    StillFiled(earlier, route, filed);
  }

  ghost predicate FallbackMissing(configured: seq<Route>, route: Route) {
    && route.fallback.Some? && route.fallback.value != ""
    && forall j :: 0 <= j < |configured| ==> configured[j].id != route.fallback.value
  }

  /** A registry is built exactly when ids are distinct and fallbacks registered. */
  method Register(configured: seq<Route>) returns (routes: Option<Registry>)
    ensures routes.Some? ==>
              Registered(routes.value) && IsFiled(configured, routes.value) && DistinctIds(configured)
    ensures routes.None? ==>
              !DistinctIds(configured) || exists route :: route in configured && FallbackMissing(configured, route)
  {
    hide DistinctIds;
    var filed := File(configured);
    if |filed| != |configured| {
      return None;
    }
    for k := 0 to |configured|
      invariant forall i :: 0 <= i < k ==> FallbackKnown(filed, configured[i])
    {
      if !FallbackKnown(filed, configured[k]) {
        assert FallbackMissing(configured, configured[k]);
        return None;
      }
    }
    return Some(filed);
  }

  lemma IdTaken(earlier: seq<Route>, route: Route, filed: Registry)
    requires IsFiled(earlier, filed)
    ensures DistinctIds(earlier + [route]) <==> DistinctIds(earlier) && route.id !in filed
  {
    var all := earlier + [route];
    if route.id in filed {
      var i :| 0 <= i < |earlier| && earlier[i] == filed[route.id];
      assert all[i].id == all[|earlier|].id;
    } else {
      assert forall i :: 0 <= i < |earlier| ==> earlier[i].id != route.id;
      assert forall i :: 0 <= i < |earlier| ==> all[i] == earlier[i];
    }
    if DistinctIds(all) {
      assert forall i :: 0 <= i < |earlier| ==> all[i] == earlier[i];
    }
  }

  /** The next route after `id`, if the Run's frozen set and the routes already tried leave one. */
  predicate MovesOn(routes: Registry, allowed: set<string>, tried: set<string>, id: string) {
    && id in routes && routes[id].fallback.Some? && routes[id].fallback.value != ""
    && routes[id].fallback.value !in tried && routes[id].fallback.value in allowed
  }

  /** Each try repeats the route before it or moves to that route's allowed, untried fallback. */
  ghost predicate Chain(routes: Registry, allowed: set<string>, tries: seq<string>) {
    forall i :: 0 < i < |tries| ==>
      || tries[i] == tries[i - 1]
      || (&& tries[i - 1] in routes && routes[tries[i - 1]].fallback == Some(tries[i])
          && tries[i] in allowed && tries[i] !in tries[..i])
  }

  function TriedSet(tries: seq<string>): set<string> {
    set id | id in tries
  }

  ghost predicate EachAtMostTwice(tries: seq<string>) {
    forall id :: multiset(tries)[id] <= 2
  }

  predicate FirstTry(tries: seq<string>, k: nat)
    requires k < |tries|
  {
    k == 0 || tries[k - 1] != tries[k]
  }

  /** A first try is repeated exactly when it was rate limited and its cooldown can be waited for. */
  predicate Honoured(tries: seq<string>, answers: seq<GatewayStatus>, k: nat, waits: nat -> bool)
    requires k < |tries| <= |answers|
  {
    FirstTry(tries, k) ==> (answers[k] == RateLimited && waits(k) <==> k + 1 < |tries| && tries[k + 1] == tries[k])
  }

  ghost predicate WaitsHonoured(tries: seq<string>, answers: seq<GatewayStatus>, waits: nat -> bool)
    requires |tries| <= |answers|
  {
    forall k :: 0 <= k < |tries| ==> Honoured(tries, answers, k, waits)
  }

  lemma HonouredStays(before: seq<string>, more: seq<string>, was: seq<GatewayStatus>, now: seq<GatewayStatus>, k: nat,
                      waits: nat -> bool)
    requires |before| == |was| && |more| == |now| && before <= more && was <= now
    requires k < |before| && Honoured(before, was, k, waits)
    requires |before| < |more| ==> more[|before|] != before[|before| - 1]
    ensures Honoured(more, now, k, waits)
  {
    assert more[k] == before[k] && now[k] == was[k];
    assert k > 0 ==> more[k - 1] == before[k - 1];
    assert k + 1 < |before| ==> more[k + 1] == before[k + 1];
  }

  lemma WaitsOnce(before: seq<string>, id: string, answers: seq<GatewayStatus>, a: GatewayStatus, waits: nat -> bool)
    requires |before| == |answers| && WaitsHonoured(before, answers, waits) && id !in before
    requires !(a == RateLimited && waits(|before|))
    ensures WaitsHonoured(before + [id], answers + [a], waits)
  {
    var n, more, all := |before|, before + [id], answers + [a];
    assert n > 0 ==> before[n - 1] in before;
    forall k | 0 <= k < |more| ensures Honoured(more, all, k, waits) {
      if k < n {
        assert Honoured(before, answers, k, waits);
        HonouredStays(before, more, answers, all, k, waits);
      }
    }
  }

  lemma WaitsTwice(before: seq<string>, id: string, answers: seq<GatewayStatus>, b: GatewayStatus, waits: nat -> bool)
    requires |before| == |answers| && WaitsHonoured(before, answers, waits) && id !in before && waits(|before|)
    ensures WaitsHonoured(before + [id, id], answers + [RateLimited, b], waits)
  {
    var n, more, all := |before|, before + [id, id], answers + [RateLimited, b];
    assert n > 0 ==> before[n - 1] in before;
    forall k | 0 <= k < |more| ensures Honoured(more, all, k, waits) {
      if k < n {
        assert Honoured(before, answers, k, waits);
        HonouredStays(before, more, answers, all, k, waits);
      }
    }
  }

  lemma OneTry(routes: Registry, allowed: set<string>, tries: seq<string>, id: string)
    requires Chain(routes, allowed, tries)
    requires tries != [] ==>
               var last := tries[|tries| - 1];
               id == last || (last in routes && routes[last].fallback == Some(id) && id in allowed && id !in tries)
    ensures Chain(routes, allowed, tries + [id])
    ensures TriedSet(tries + [id]) == TriedSet(tries) + {id}
  {
    var all := tries + [id];
    forall i | 0 < i < |all|
      ensures all[i] == all[i - 1] || (all[i - 1] in routes && routes[all[i - 1]].fallback == Some(all[i])
                                       && all[i] in allowed && all[i] !in all[..i])
    {
      assert all[..i] == tries[..i];
    }
  }

  lemma AtMostTwice(before: seq<string>, id: string)
    requires id !in before && EachAtMostTwice(before)
    ensures EachAtMostTwice(before + [id]) && EachAtMostTwice(before + [id, id])
  {
    assert multiset(before)[id] == 0;
  }

  lemma NoTries(routes: Registry, allowed: set<string>, waits: nat -> bool)
    ensures WaitsHonoured([], [], waits)
    ensures Chain(routes, allowed, []) && EachAtMostTwice([]) && TriedSet([]) == {}
  {
  }

  lemma NotTried(tries: seq<string>, id: string)
    requires id !in TriedSet(tries)
    ensures id !in tries
  {
  }
}
