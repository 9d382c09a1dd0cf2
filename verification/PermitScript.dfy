/** The permit script as it runs: each operation mutates the shared tables, key by key. */
module PermitScript {
  import opened Options
  import opened Permits
  import opened PermitTheorems

  lemma MinusTwice<V>(m: map<string, V>, a: set<string>, b: set<string>)
    ensures (m - a) - b == m - (a + b)
  {
  }

  lemma MinusNone<V>(m: map<string, V>)
    ensures m - {} == m
  {
  }

  lemma LookupOther(l: Ledger, done: set<string>, p: string, now: real)
    requires p !in done
    ensures Lookup(Bury(l, done, now), p, now) == Lookup(l, p, now)
  {
  }

  lemma UnsentOne(l: Ledger, done: set<string>, p: string, now: real)
    requires p !in done
    ensures UnsentOf(l, done, now) + UnsentOf(Bury(l, done, now), {p}, now) == UnsentOf(l, done + {p}, now)
  {
    LookupOther(l, done, p, now);
    hide Bury, Lookup;
  }

  lemma GravesOne(l: Ledger, done: set<string>, p: string, now: real)
    requires p !in done
    ensures Graves(Bury(l, done, now), {p}, now) == Graves(l, done + {p}, now)
  {
    LookupOther(l, done, p, now);
    assert Bury(l, done, now).permits == Graves(l, done, now);
    hide Bury, Lookup;
  }

  /** Burying one more permit does not depend on what was buried before. */
  lemma BuryOne(l: Ledger, done: set<string>, p: string, now: real)
    requires p !in done
    ensures Bury(Bury(l, done, now), {p}, now) == Bury(l, done + {p}, now)
  {
    hide UnsentOf, Graves;
    UnsentOne(l, done, p, now);
    GravesOne(l, done, p, now);
    var early, late := UnsentOf(l, done, now), UnsentOf(Bury(l, done, now), {p}, now);
    MinusTwice(l.rpm, early, late);
    MinusTwice(l.tpm, early, late);
    MinusTwice(l.amounts, early, late);
    MinusTwice(l.active, done, {p});
  }

  lemma BuryNone(l: Ledger, now: real)
    ensures Bury(l, {}, now) == l
  {
    assert UnsentOf(l, {}, now) == {};
    assert Graves(l, {}, now) == l.permits;
    hide UnsentOf, Graves;
    MinusNone(l.rpm);
    MinusNone(l.tpm);
    MinusNone(l.amounts);
    MinusNone(l.active);
  }

  lemma GraveOf(l: Ledger, p: string, now: real)
    ensures UnsentOf(l, {p}, now) == if Unsent(l, p, now) then {p} else {}
    ensures Graves(l, {p}, now) == l.permits[p := Buried(l, p, now)]
  {
    assert Graves(l, {p}, now).Keys == l.permits.Keys + {p};
  }

  class Script {
    var active: map<string, real>
    var rpm: map<string, real>
    var tpm: map<string, real>
    var amounts: map<string, nat>
    var permits: map<string, Permit>
    var blocked: Option<Timed<real>>
    var failures: map<string, Timed<int>>
    var circuits: map<string, Timed<real>>

    function Tables(): Ledger
      reads this
    {
      Ledger(active, rpm, tpm, amounts, permits, blocked, failures, circuits)
    }

    constructor ()
      ensures Tables() == EMPTY_LEDGER
    {
      active, rpm, tpm, amounts, permits := map[], map[], map[], map[], map[];
      blocked, failures, circuits := None, map[], map[];
    }

    method ReapExpiredPermits(now: real)
      modifies this
      ensures Tables() == Reap(old(Tables()), now)
    {
      hide Bury, PastTtl;
      ghost var before := Tables();
      var expired := PastTtl(Tables(), now);
      var left := expired;
      assert expired - left == {};
      BuryNone(before, now);
      while left != {}
        invariant left <= expired
        invariant Tables() == Bury(before, expired - left, now)
        decreases |left|
      {
        hide Bury;
        var p :| p in left;
        ghost var done := expired - left;
        BuryOne(before, done, p, now);
        BuryPermit(p, now);
        left := left - {p};
        assert done + {p} == expired - left;
      }
      assert expired - left == expired;
    }

    method BuryPermit(p: string, now: real)
      modifies this
      ensures Tables() == Bury(old(Tables()), {p}, now)
    {
      GraveOf(Tables(), p, now);
      hide UnsentOf, Graves;
      MinusNone(rpm);
      MinusNone(tpm);
      MinusNone(amounts);
      var hash := Lookup(Tables(), p, now);
      if hash.Some? && hash.value.state == Acquired {
        rpm := rpm - {p};
        tpm := tpm - {p};
        amounts := amounts - {p};
      }
      active := active - {p};
      permits := permits[p := Permit(Expired, if hash.Some? then hash.value.routeId else None, now + 60.0)];
    }

    method SlideWindows(now: real)
      modifies this
      ensures Tables() == Slide(old(Tables()), now)
    {
      rpm := rpm - WindowPast(rpm, now);
      var stale := WindowPast(tpm, now);
      hide WindowPast;
      var left := stale;
      ghost var rows, sizes := tpm, amounts;
      assert stale - left == {};
      MinusNone(tpm);
      MinusNone(amounts);
      while left != {}
        invariant left <= stale
        invariant tpm == rows - (stale - left) && amounts == sizes - (stale - left)
        invariant Tables() == old(Tables()).(rpm := old(rpm) - WindowPast(old(rpm), now), tpm := tpm,
                                             amounts := amounts)
        decreases |left|
      {
        var p :| p in left;
        MinusTwice(rows, stale - left, {p});
        MinusTwice(sizes, stale - left, {p});
        assert stale - left + {p} == stale - (left - {p});
        tpm := tpm - {p};
        amounts := amounts - {p};
        left := left - {p};
      }
      assert stale - left == stale;
    }

    method TokensUsed() returns (used: nat)
      ensures used == Used(Tables())
    {
      used := 0;
      var left := amounts.Keys;
      while left != {}
        invariant left <= amounts.Keys
        invariant used + Sum(amounts, left) == Used(Tables())
        decreases |left|
      {
        var p :| p in left;
        SumRemove(amounts, left, p);
        used := used + amounts[p];
        left := left - {p};
      }
    }

    method Acquire(p: string, route: string, q: Quota, tokens: nat, now: real) returns (reply: Reply)
      modifies this
      ensures (Tables(), reply) == Permits.Acquire(old(Tables()), p, route, q, tokens, now)
    {
      hide Reap, Slide, Used, Lookup, BlockedUntil, OpenUntil, Enter;
      if q.circuitThreshold > 0 && OpenUntil(Tables(), route, now) > now {
        return CircuitOpen;
      }
      var existing := Lookup(Tables(), p, now);
      if existing.Some? && existing.value.routeId.Some? {
        return if existing.value.routeId.value != route then RouteMismatch else AlreadyThere(existing.value.state);
      }
      if BlockedUntil(Tables(), now) > now {
        return Blocked;
      }
      ReapExpiredPermits(now);
      if |active| >= q.concurrency {
        return ConcurrencyExceeded;
      }
      SlideWindows(now);
      if |rpm| >= q.rpmLimit {
        return RpmExceeded;
      }
      var used := TokensUsed();
      if used + tokens > q.tpmLimit {
        return TpmExceeded;
      }
      Admit(p, route, q, tokens, now);
      return Granted;
    }

    method Admit(p: string, route: string, q: Quota, tokens: nat, now: real)
      modifies this
      ensures Tables() == Enter(old(Tables()), p, route, q, tokens, now)
    {
      active := active[p := now + q.ttl];
      rpm := rpm[p := now];
      tpm := tpm[p := now];
      amounts := amounts[p := tokens];
      permits := permits[p := Permit(Acquired, Some(route), now + (Ceil(q.ttl) + 60) as real)];
    }

    method MarkStarted(p: string, route: string, now: real) returns (reply: Reply)
      modifies this
      ensures (Tables(), reply) == Start(old(Tables()), p, route, now)
    {
      hide Reap;
      ReapExpiredPermits(now);
      var hash := Lookup(Tables(), p, now);
      if hash.None? {
        return Gone;
      }
      if hash.value.routeId != Some(route) {
        return RouteMismatch;
      }
      if hash.value.state == Acquired {
        permits := permits[p := hash.value.(state := Started)];
        return StartedNow;
      }
      return if hash.value.state == Started then AlreadyStarted else NotStartable(hash.value.state);
    }

    method Settle(p: string, route: string, retryAfter: real, now: real) returns (reply: Reply)
      modifies this
      ensures (Tables(), reply) == Permits.Settle(old(Tables()), p, route, retryAfter, now)
    {
      hide Reap;
      ReapExpiredPermits(now);
      var hash := Lookup(Tables(), p, now);
      if hash.None? {
        return AlreadySettled;
      }
      if hash.value.routeId != Some(route) {
        return RouteMismatch;
      }
      if hash.value.state == Settled {
        return AlreadySettled;
      }
      permits := permits[p := hash.value.(state := Settled)];
      active := active - {p};
      if retryAfter > 0.0 {
        var until := now + retryAfter;
        if BlockedUntil(Tables(), now) > until {
          until := BlockedUntil(Tables(), now);
        }
        blocked := Some(Timed(until, now + Ceil(until - now) as real));
      }
      return SettledNow;
    }

    method RecordCircuitFailure(route: string, threshold: int, openSeconds: real, now: real)
      modifies this
      ensures Tables() == CircuitFailure(old(Tables()), route, threshold, openSeconds, now)
    {
      if threshold == 0 {
        return;
      }
      var count := 1;
      if route in failures && now < failures[route].gone {
        count := failures[route].value + 1;
      }
      var gone := now + AtLeastOne(Ceil(openSeconds)) as real;
      failures := failures[route := Timed(count, gone)];
      if count >= threshold {
        circuits := circuits[route := Timed(now + openSeconds, gone)];
      }
    }

    method RecordCircuitSuccess(route: string)
      modifies this
      ensures Tables() == CircuitSuccess(old(Tables()), route)
    {
      failures := failures - {route};
      circuits := circuits - {route};
    }
  }
}
