/** The circuit breaker: a run of failures opens a route's circuit, and an open circuit grants nothing. */
module CircuitTheorems {
  import opened Permits
  import opened PermitTheorems

  /** How long a route's failure count is remembered after its last failure. */
  function Memory(openSeconds: real): real {
    AtLeastOne(Ceil(openSeconds)) as real
  }

  predicate Touches(c: Call, route: string) {
    (c.op.FailureOp? || c.op.SuccessOp?) && c.op.route == route
  }

  /** No success of the route, its failures under one configuration, each remembered until the next. */
  ghost predicate Streak(calls: seq<Call>, route: string, threshold: int, secs: real, last: real)
    decreases |calls|
  {
    calls == [] ||
    if !Touches(calls[0], route) then Streak(calls[1..], route, threshold, secs, last)
    else
      && calls[0].op == FailureOp(route, threshold, secs)
      && last <= calls[0].now < last + Memory(secs)
      && Streak(calls[1..], route, threshold, secs, calls[0].now)
  }

  function Failures(calls: seq<Call>, route: string): nat {
    if calls == [] then 0 else (if Touches(calls[0], route) then 1 else 0) + Failures(calls[1..], route)
  }

  function LastFailure(calls: seq<Call>, route: string, last: real): real {
    if calls == [] then last
    else LastFailure(calls[1..], route, if Touches(calls[0], route) then calls[0].now else last)
  }

  /** The route has failed `count` times in a row, last at `last`; from the threshold on its circuit is open. */
  predicate Failing(l: Ledger, route: string, threshold: int, secs: real, count: int, last: real) {
    && route in l.failures && l.failures[route] == Timed(count, last + Memory(secs))
    && (count >= threshold ==> route in l.circuits && l.circuits[route] == Timed(last + secs, last + Memory(secs)))
  }

  predicate SameCircuits(a: Ledger, b: Ledger) {
    a.failures == b.failures && a.circuits == b.circuits
  }

  lemma SettleKeepsCircuits(h: History, c: Call)
    requires c.op.SettleOp?
    ensures SameCircuits(After(h, c).ledger, h.ledger)
  {
    hide Reap, Slide, Answer, After, Cool;
    ReapKeepsCircuits(h.ledger, c.now);
    SettleCases(h, c);
    if c.op.permit in Reap(h.ledger, c.now).permits {
      CoolKeepsCircuits(Closed(Moved(h, Reap(h.ledger, c.now), c.now), c.op.permit).ledger, c.op.retryAfter, c.now);
    }
  }

  lemma OthersKeepCircuits(h: History, c: Call)
    requires !c.op.FailureOp? && !c.op.SuccessOp?
    ensures SameCircuits(After(h, c).ledger, h.ledger)
  {
    hide Reap, Slide, Answer, After, Used, Enter, Room;
    ReapKeepsCircuits(h.ledger, c.now);
    match c.op
    case AcquireOp(p, route, q, tokens) =>
      AcquireCases(h, c);
      EnterKeepsCircuits(Slide(Reap(h.ledger, c.now), c.now), p, route, q, tokens, c.now);
    case StartOp(_, _) => StartCases(h, c);
    case SettleOp(_, _, _) => SettleKeepsCircuits(h, c);
  }

  lemma ReapKeepsCircuits(l: Ledger, now: real)
    ensures Reap(l, now).failures == l.failures && Reap(l, now).circuits == l.circuits
    ensures Slide(Reap(l, now), now).failures == l.failures && Slide(Reap(l, now), now).circuits == l.circuits
  {
  }

  lemma EnterKeepsCircuits(l: Ledger, p: string, route: string, q: Quota, tokens: nat, now: real)
    ensures Enter(l, p, route, q, tokens, now).failures == l.failures
    ensures Enter(l, p, route, q, tokens, now).circuits == l.circuits
  {
  }

  lemma CoolKeepsCircuits(l: Ledger, retryAfter: real, now: real)
    ensures Cool(l, retryAfter, now).failures == l.failures && Cool(l, retryAfter, now).circuits == l.circuits
  {
  }

  lemma UntouchedKeepsFailing(h: History, c: Call, route: string, threshold: int, secs: real, count: int, last: real)
    requires Failing(h.ledger, route, threshold, secs, count, last) && !Touches(c, route)
    ensures Failing(After(h, c).ledger, route, threshold, secs, count, last)
  {
    if !c.op.FailureOp? && !c.op.SuccessOp? {
      OthersKeepCircuits(h, c);
      hide After;
    } else {
      hide Ceil;
    }
  }

  lemma FailureCounts(h: History, c: Call, route: string, threshold: int, secs: real, count: int, last: real)
    requires Failing(h.ledger, route, threshold, secs, count, last) && threshold > 0
    requires c.op == FailureOp(route, threshold, secs) && c.now < last + Memory(secs)
    ensures Failing(After(h, c).ledger, route, threshold, secs, count + 1, c.now)
  {
    hide Ceil;
  }

  lemma {:induction false} StreakCounts(h: History, calls: seq<Call>, route: string, threshold: int, secs: real,
                                        count: int, last: real)
    requires Failing(h.ledger, route, threshold, secs, count, last) && threshold > 0
    requires Streak(calls, route, threshold, secs, last)
    ensures Failing(Replay(h, calls).ledger, route, threshold, secs,
                    count + Failures(calls, route), LastFailure(calls, route, last))
    decreases |calls|
  {
    hide Failing, After, Memory;
    if calls != [] {
      if Touches(calls[0], route) {
        FailureCounts(h, calls[0], route, threshold, secs, count, last);
        StreakCounts(After(h, calls[0]), calls[1..], route, threshold, secs, count + 1, calls[0].now);
      } else {
        UntouchedKeepsFailing(h, calls[0], route, threshold, secs, count, last);
        StreakCounts(After(h, calls[0]), calls[1..], route, threshold, secs, count, last);
      }
    }
  }

  function Remembered(l: Ledger, route: string, now: real): int {
    if route in l.failures && now < l.failures[route].gone then l.failures[route].value else 0
  }

  lemma FirstFailure(h: History, c: Call, route: string, threshold: int, secs: real)
    requires c.op == FailureOp(route, threshold, secs) && threshold > 0
    ensures Failing(After(h, c).ledger, route, threshold, secs, Remembered(h.ledger, route, c.now) + 1, c.now)
  {
    hide Ceil;
  }

  /** `threshold` failures in a row open the circuit: until `secs` after the last one every acquisition on the
      route that heeds circuits is turned away and changes nothing, whatever else the key does meanwhile. */
  lemma CircuitTrips(h: History, first: Call, calls: seq<Call>, route: string, threshold: int, secs: real,
                     p: string, q: Quota, tokens: nat, now: real)
    requires route in h.ledger.failures ==> 0 <= h.ledger.failures[route].value
    requires first.op == FailureOp(route, threshold, secs) && threshold > 0
    requires Streak(calls, route, threshold, secs, first.now) && 1 + Failures(calls, route) >= threshold
    requires q.circuitThreshold > 0 && now < LastFailure(calls, route, first.now) + secs
    ensures var l := Replay(After(h, first), calls).ledger;
            Acquire(l, p, route, q, tokens, now) == (l, CircuitOpen)
  {
    hide Failing, After, Memory, Replay, Streak, Acquire, Failures, LastFailure;
    FirstFailure(h, first, route, threshold, secs);
    var count := Remembered(h.ledger, route, first.now) + 1;
    StreakCounts(After(h, first), calls, route, threshold, secs, count, first.now);
    OpenWhileFailing(Replay(After(h, first), calls).ledger, p, route, q, tokens, now,
                     threshold, secs, count + Failures(calls, route), LastFailure(calls, route, first.now));
  }

  lemma OpenWhileFailing(l: Ledger, p: string, route: string, q: Quota, tokens: nat, now: real,
                         threshold: int, secs: real, count: int, last: real)
    requires Failing(l, route, threshold, secs, count, last) && count >= threshold
    requires q.circuitThreshold > 0 && now < last + secs
    ensures Acquire(l, p, route, q, tokens, now) == (l, CircuitOpen)
  {
    assert secs <= Memory(secs);
    hide Reap, Slide, Used;
  }

  // ----- Refusals -----

  /** Failures reported on the route since its last success, by calls that heed circuits. */
  function SinceSuccess(calls: seq<Call>, route: string): nat {
    if calls == [] then 0
    else
      var earlier, last := calls[..|calls| - 1], calls[|calls| - 1];
      if last.op == SuccessOp(route) then 0
      else SinceSuccess(earlier, route) + if Touches(last, route) && last.op.threshold != 0 then 1 else 0
  }

  /** Call `i` is a failure that brought the route to its threshold, no success has followed, and the circuit it
      opened lasts until `until`. */
  ghost predicate OpenedBy(calls: seq<Call>, route: string, until: real, i: nat) {
    && i < |calls| && calls[i].op.FailureOp? && calls[i].op.route == route
    && until == calls[i].now + calls[i].op.openSeconds
    && SinceSuccess(calls[..i + 1], route) >= calls[i].op.threshold
    && forall j :: i < j < |calls| ==> calls[j].op != SuccessOp(route)
  }

  /** What the ledger knows of a route's circuit is in the history. */
  ghost predicate Explained(l: Ledger, calls: seq<Call>, route: string) {
    && (route in l.failures ==> l.failures[route].value <= SinceSuccess(calls, route))
    && (route in l.circuits ==> exists i: nat :: OpenedBy(calls, route, l.circuits[route].value, i))
  }

  lemma OpenedStays(calls: seq<Call>, c: Call, route: string, until: real, i: nat)
    requires OpenedBy(calls, route, until, i) && c.op != SuccessOp(route)
    ensures OpenedBy(calls + [c], route, until, i)
  {
    assert (calls + [c])[..i + 1] == calls[..i + 1];
  }

  lemma UntouchedExplained(before: Ledger, after: Ledger, calls: seq<Call>, c: Call, route: string)
    requires Explained(before, calls, route) && !Touches(c, route)
    requires route in after.failures ==> route in before.failures && after.failures[route] == before.failures[route]
    requires route in after.circuits ==> route in before.circuits && after.circuits[route] == before.circuits[route]
    ensures Explained(after, calls + [c], route)
  {
    assert (calls + [c])[..|calls|] == calls;
    if route in after.circuits {
      var i: nat :| OpenedBy(calls, route, before.circuits[route].value, i);
      OpenedStays(calls, c, route, before.circuits[route].value, i);
    }
  }

  lemma OneMoreFailure(calls: seq<Call>, c: Call, route: string)
    requires c.op.FailureOp? && c.op.route == route
    ensures SinceSuccess(calls + [c], route) == SinceSuccess(calls, route) + if c.op.threshold != 0 then 1 else 0
  {
    assert (calls + [c])[..|calls|] == calls;
  }

  lemma OpensNow(calls: seq<Call>, c: Call, route: string)
    requires c.op.FailureOp? && c.op.route == route && SinceSuccess(calls + [c], route) >= c.op.threshold
    ensures OpenedBy(calls + [c], route, c.now + c.op.openSeconds, |calls|)
  {
    assert (calls + [c])[..|calls| + 1] == calls + [c];
  }

  lemma FailureExplained(l: Ledger, calls: seq<Call>, c: Call, route: string)
    requires Explained(l, calls, route) && c.op.FailureOp? && c.op.route == route
    ensures Explained(CircuitFailure(l, route, c.op.threshold, c.op.openSeconds, c.now), calls + [c], route)
  {
    hide Ceil, AtLeastOne, SinceSuccess, OpenedBy;
    OneMoreFailure(calls, c, route);
    var after := CircuitFailure(l, route, c.op.threshold, c.op.openSeconds, c.now);
    if route in after.circuits {
      if route in l.circuits && after.circuits[route] == l.circuits[route] {
        var i: nat :| OpenedBy(calls, route, l.circuits[route].value, i);
        OpenedStays(calls, c, route, l.circuits[route].value, i);
      } else {
        OpensNow(calls, c, route);
      }
    }
  }

  lemma CallExplained(h: History, calls: seq<Call>, c: Call, route: string)
    requires Explained(h.ledger, calls, route)
    ensures Explained(After(h, c).ledger, calls + [c], route)
  {
    hide Explained, SinceSuccess;
    if !c.op.FailureOp? && !c.op.SuccessOp? {
      OthersKeepCircuits(h, c);
      hide After;
      UntouchedExplained(h.ledger, After(h, c).ledger, calls, c, route);
    } else if !Touches(c, route) {
      hide Ceil;
      UntouchedExplained(h.ledger, After(h, c).ledger, calls, c, route);
    } else if c.op.FailureOp? {
      FailureExplained(h.ledger, calls, c, route);
      hide CircuitFailure;
    } else {
      SuccessExplained(h.ledger, calls, c, route);
    }
  }

  lemma SuccessExplained(l: Ledger, calls: seq<Call>, c: Call, route: string)
    requires c.op == SuccessOp(route)
    ensures Explained(CircuitSuccess(l, route), calls + [c], route)
  {
  }

  lemma {:induction false} HistoryExplained(calls: seq<Call>, route: string)
    ensures Explained(Replay(EMPTY_HISTORY, calls).ledger, calls, route)
    decreases |calls|
  {
    if calls != [] {
      hide Explained, After;
      var front, c := calls[..|calls| - 1], calls[|calls| - 1];
      HistoryExplained(front, route);
      CallExplained(Replay(EMPTY_HISTORY, front), front, c, route);
      ReplaySnoc(EMPTY_HISTORY, front, c);
      assert calls == front + [c];
    }
  }

  /** The converse of `CircuitTrips`, over every history: a route is turned away for its circuit only after at least as
      many failures since its last success as the threshold they were reported under, the one that opened it less than
      the open time ago. */
  lemma CircuitRefusedForCause(calls: seq<Call>, p: string, route: string, q: Quota, tokens: nat, now: real)
    requires 0.0 <= now
    requires Acquire(Replay(EMPTY_HISTORY, calls).ledger, p, route, q, tokens, now).1 == CircuitOpen
    ensures exists i: nat ::
              && i < |calls| && calls[i].op.FailureOp? && calls[i].op.route == route
              && SinceSuccess(calls[..i + 1], route) >= calls[i].op.threshold
              && now < calls[i].now + calls[i].op.openSeconds
              && forall j :: i < j < |calls| ==> calls[j].op != SuccessOp(route)
  {
    hide Replay, Reap, Slide, Used, Enter, SinceSuccess;
    HistoryExplained(calls, route);
    var l := Replay(EMPTY_HISTORY, calls).ledger;
    var i: nat :| OpenedBy(calls, route, l.circuits[route].value, i);
  }
}
