/** The key does not over-throttle: every refusal is backed by permits that count, or by a wait still asked for. */
module PermitRefusals {
  import opened Options
  import opened Collections
  import opened Permits
  import opened PermitTheorems

  // ----- An expired permit that was never sent gives its window rows back -----

  /** A permit in the active set is open, and a started one is on record as started. */
  ghost predicate OpenOnly(active: map<string, real>, permits: map<string, Permit>, started: map<string, real>) {
    && (forall p :: p in active ==> p in permits && (permits[p].state == Acquired || permits[p].state == Started))
    && (forall p :: p in permits && permits[p].state == Started ==> p in started)
  }

  /** The hash of a permit still to be sent outlives its place in the window. */
  predicate Outlives(h: History, p: string)
    requires p in h.grants && p in h.ledger.permits
  {
    h.ledger.permits[p].state == Acquired && 0.0 <= h.grants[p].quota.ttl ==>
      h.grants[p].at + 60.0 <= h.ledger.permits[p].gone
  }

  /** A window row stands for a permit that was started or settled, can still be sent, or leaves the window now. */
  predicate RowStands(h: History, p: string)
    requires p in h.grants && p in h.ledger.permits
  {
    || p in h.started || h.ledger.permits[p].state == Acquired || h.ledger.permits[p].state == Settled
    || h.grants[p].at <= h.now - 60.0 || h.grants[p].quota.ttl < 0.0
  }

  ghost predicate Rolled(h: History) {
    && OpenOnly(h.ledger.active, h.ledger.permits, h.started)
    && (forall p :: p in h.grants ==> p in h.ledger.permits && Outlives(h, p))
    && (forall p :: p in h.ledger.rpm ==> p in h.grants && RowStands(h, p))
  }

  lemma TickRolls(h: History, now: real)
    requires Rolled(h) && h.now <= now
    ensures Rolled(Moved(h, h.ledger, now))
  {
    var later := Moved(h, h.ledger, now);
    forall p | p in h.grants ensures Outlives(later, p) {
      assert Outlives(h, p);
    }
    forall p | p in h.ledger.rpm ensures RowStands(later, p) {
      assert RowStands(h, p);
    }
  }

  lemma ReapRolls(h: History)
    requires Rolled(h)
    ensures Rolled(Moved(h, Reap(h.ledger, h.now), h.now))
  {
    var later := Moved(h, Reap(h.ledger, h.now), h.now);
    forall p | p in h.grants ensures Outlives(later, p) {
      assert Outlives(h, p);
    }
    forall p | p in later.ledger.rpm ensures RowStands(later, p) {
      assert RowStands(h, p) && Outlives(h, p);
    }
  }

  lemma SlideRolls(h: History)
    requires Rolled(h)
    ensures Rolled(Moved(h, Slide(h.ledger, h.now), h.now))
  {
    var later := Moved(h, Slide(h.ledger, h.now), h.now);
    forall p | p in h.grants ensures Outlives(later, p) {
      assert Outlives(h, p);
    }
    forall p | p in later.ledger.rpm ensures RowStands(later, p) {
      assert RowStands(h, p);
    }
  }

  lemma NewHash(l: Ledger, p: string, route: string, q: Quota, tokens: nat, now: real)
    ensures var entered := Enter(l, p, route, q, tokens, now);
            && p in entered.permits && entered.permits == l.permits[p := entered.permits[p]]
            && entered.permits[p].state == Acquired && (0.0 <= q.ttl ==> now + 60.0 <= entered.permits[p].gone)
            && entered.active.Keys == l.active.Keys + {p} && entered.rpm.Keys == l.rpm.Keys + {p}
  {
    assert 0.0 <= q.ttl ==> 0 <= Ceil(q.ttl);
    hide Ceil;
  }

  lemma NewGrant(h: History, q: Quota, tokens: nat)
    ensures GrantOf(h, q, tokens).at == h.now && GrantOf(h, q, tokens).quota == q
  {
  }

  lemma EnterOpens(h: History, p: string, route: string, q: Quota, tokens: nat)
    requires OpenOnly(h.ledger.active, h.ledger.permits, h.started)
    ensures var l := Enter(h.ledger, p, route, q, tokens, h.now); OpenOnly(l.active, l.permits, h.started)
  {
    hide Enter;
    NewHash(h.ledger, p, route, q, tokens, h.now);
  }

  lemma EnterRolls(h: History, p: string, route: string, q: Quota, tokens: nat)
    requires Rolled(h) && New(h, p)
    ensures Rolled(Entered(h, p, route, q, tokens))
  {
    hide Enter, GrantOf, OpenOnly;
    NewHash(h.ledger, p, route, q, tokens, h.now);
    EnterOpens(h, p, route, q, tokens);
    NewGrant(h, q, tokens);
    var later := Entered(h, p, route, q, tokens);
    forall r | r in later.grants ensures Outlives(later, r) {
      assert r != p ==> Outlives(h, r);
    }
    forall r | r in later.ledger.rpm ensures RowStands(later, r) {
      assert r != p ==> RowStands(h, r);
    }
  }

  lemma BeginRolls(h: History, p: string)
    requires Rolled(h) && p in h.ledger.permits && h.ledger.permits[p].state == Acquired
    ensures Rolled(Begun(h, p))
  {
    var later := Begun(h, p);
    forall r | r in h.grants ensures Outlives(later, r) {
      assert Outlives(h, r);
    }
    forall r | r in later.ledger.rpm ensures RowStands(later, r) {
      assert RowStands(h, r);
    }
  }

  lemma CloseRolls(h: History, p: string)
    requires Rolled(h) && p in h.ledger.permits
    ensures Rolled(Closed(h, p))
  {
    var later := Closed(h, p);
    forall r | r in h.grants ensures Outlives(later, r) {
      assert Outlives(h, r);
    }
    forall r | r in later.ledger.rpm ensures RowStands(later, r) {
      assert RowStands(h, r);
    }
  }

  lemma AsideRolls(h: History, b: Option<Timed<real>>, f: map<string, Timed<int>>, c: map<string, Timed<real>>)
    requires Rolled(h)
    ensures Rolled(Aside(h, b, f, c))
  {
    var later := Aside(h, b, f, c);
    forall p | p in h.grants ensures Outlives(later, p) {
      assert Outlives(h, p);
    }
    forall p | p in h.ledger.rpm ensures RowStands(later, p) {
      assert RowStands(h, p);
    }
  }

  lemma ReapThenSlideRolls(h: History, now: real)
    requires Rolled(h) && h.now <= now
    ensures Rolled(Moved(h, h.ledger, now))
    ensures Rolled(Moved(h, Reap(h.ledger, now), now))
    ensures Rolled(Moved(h, Slide(Reap(h.ledger, now), now), now))
  {
    hide Rolled, Slide, Reap;
    TickRolls(h, now);
    ReapRolls(Moved(h, h.ledger, now));
    SlideRolls(Moved(h, Reap(h.ledger, now), now));
  }

  lemma SettleRolls(h: History, c: Call)
    requires Rolled(h) && h.now <= c.now && c.op.SettleOp?
    ensures Rolled(After(h, c))
  {
    hide Rolled, Slide, Reap, After, Answer;
    ReapThenSlideRolls(h, c.now);
    SettleCases(h, c);
    var reaped := Moved(h, Reap(h.ledger, c.now), c.now);
    if c.op.permit in reaped.ledger.permits {
      var closed := Closed(reaped, c.op.permit);
      var cooled := Cool(closed.ledger, c.op.retryAfter, c.now);
      CloseRolls(reaped, c.op.permit);
      AsideRolls(closed, cooled.blocked, cooled.failures, cooled.circuits);
    }
  }

  lemma AcquireRolls(h: History, c: Call)
    requires Inv(h) && Rolled(h) && Allowed(h, c) && c.op.AcquireOp?
    ensures Rolled(After(h, c))
  {
    NewAfterReap(h, c.op.permit, c.now);
    hide Inv, Rolled, Slide, Reap, Answer, After, Used, Room, New;
    ReapThenSlideRolls(h, c.now);
    AcquireCases(h, c);
    var slid := Moved(h, Slide(Reap(h.ledger, c.now), c.now), c.now);
    EnterRolls(slid, c.op.permit, c.op.route, c.op.quota, c.op.tokens);
  }

  lemma AfterRolls(h: History, c: Call)
    requires Inv(h) && Rolled(h) && Allowed(h, c)
    ensures Rolled(After(h, c))
  {
    hide Inv, Rolled, Slide, Reap, Answer, After;
    match c.op
    case AcquireOp(_, _, _, _) => AcquireRolls(h, c);
    case SettleOp(_, _, _) => SettleRolls(h, c);
    case StartOp(p, _) =>
      ReapThenSlideRolls(h, c.now);
      StartCases(h, c);
      var reaped := Moved(h, Reap(h.ledger, c.now), c.now);
      if p in reaped.ledger.permits && reaped.ledger.permits[p].state == Acquired {
        BeginRolls(reaped, p);
      }
    case _ =>
      TickRolls(h, c.now);
      CircuitCases(h, c);
      var l := Answer(h.ledger, c).0;
      AsideRolls(Moved(h, h.ledger, c.now), h.ledger.blocked, l.failures, l.circuits);
  }

  lemma {:induction false} ReplayRolls(h: History, calls: seq<Call>)
    requires Inv(h) && Rolled(h) && AllowedAll(h, calls)
    ensures Inv(Replay(h, calls)) && Rolled(Replay(h, calls))
    decreases |calls|
  {
    hide Inv, Rolled, After, Allowed;
    if calls != [] {
      AfterKeeps(h, calls[0]);
      AfterRolls(h, calls[0]);
      ReplayRolls(After(h, calls[0]), calls[1..]);
    }
  }

  lemma HistoryRolls(calls: seq<Call>)
    requires AllowedAll(EMPTY_HISTORY, calls)
    ensures Inv(Replay(EMPTY_HISTORY, calls)) && Rolled(Replay(EMPTY_HISTORY, calls))
  {
    EmptyHolds();
    assert Rolled(EMPTY_HISTORY);
    hide Inv, Rolled, Replay, AllowedAll;
    ReplayRolls(EMPTY_HISTORY, calls);
  }

  // ----- Refusals -----

  /** The grants of the last minute that count: started, settled, or not expired yet; one with a negative time to live
      loses its hash before its place in the window. */
  ghost function Counting(h: History, now: real): set<string> {
    set p | p in h.grants && now - 60.0 < h.grants[p].at
            && (|| p in h.started || now < h.grants[p].expires
                || (p in h.ledger.permits && h.ledger.permits[p].state == Settled)
                || h.grants[p].quota.ttl < 0.0)
  }

  ghost function Unexpired(grants: map<string, Grant>, now: real): set<string> {
    set p | p in grants && now < grants[p].expires
  }

  lemma AcquireRefusals(l: Ledger, c: Call)
    requires c.op.AcquireOp?
    ensures var reaped := Reap(l, c.now);
            var slid := Slide(reaped, c.now);
            var reply := Answer(l, c).1;
            && (reply == ConcurrencyExceeded ==> |reaped.active| >= c.op.quota.concurrency)
            && (reply == RpmExceeded ==> |slid.rpm| >= c.op.quota.rpmLimit)
            && (reply == TpmExceeded ==> Used(slid) + c.op.tokens > c.op.quota.tpmLimit)
  {
    hide Reap, Slide, Enter, Used, Lookup, BlockedUntil, OpenUntil;
  }

  lemma ReapedSettled(l: Ledger, p: string, now: real)
    requires p in l.permits && p in Reap(l, now).permits && Reap(l, now).permits[p].state == Settled
    ensures l.permits[p].state == Settled
  {
  }

  lemma ReapedStates(h: History, p: string)
    requires LiveHolds(h) && p in h.grants
    ensures var l := Reap(h.ledger, h.now);
            && p in h.ledger.permits && p in l.permits
            && (l.permits[p].state == Acquired ==> h.now < h.grants[p].expires)
            && (l.permits[p].state == Settled ==> h.ledger.permits[p].state == Settled)
  {
    ReapKeepsActive(h);
    if Reap(h.ledger, h.now).permits[p].state == Settled {
      ReapedSettled(h.ledger, p, h.now);
    }
    hide Reap;
  }

  lemma RowCounts(h: History, reaped: History, p: string)
    requires reaped == Moved(h, Reap(h.ledger, h.now), h.now) && LiveHolds(h)
    requires p in h.grants && p in reaped.ledger.permits
    requires RowStands(reaped, p) && h.now - 60.0 < h.grants[p].at
    ensures p in Counting(h, h.now)
  {
    hide Reap, ActiveIsLive;
    ReapedStates(h, p);
  }

  lemma SlidRows(h: History, p: string)
    requires WindowHolds(h) && p in Slide(h.ledger, h.now).rpm
    ensures p in h.ledger.rpm && p in h.grants && h.now - 60.0 < h.grants[p].at
  {
  }

  /** Once the expired permits are reaped, what is left in the window counts. */
  lemma SlidCounts(h: History)
    requires Inv(h) && Rolled(h)
    ensures var slid := Slide(Reap(h.ledger, h.now), h.now);
            && slid.rpm.Keys <= Counting(h, h.now) && slid.rpm.Keys == slid.amounts.Keys
            && forall p :: p in slid.amounts ==> slid.amounts[p] == TokensOf(h)[p]
  {
    hide Reap, Slide, Counting, GrantsAccounted, ActiveIsLive, GrantsOrdered, QuotasHeld, OpenOnly, RowStands, Outlives;
    var reaped := Moved(h, Reap(h.ledger, h.now), h.now);
    ReapRolls(h);
    ReapKeepsWindow(h);
    SlideKeepsWindow(reaped);
    forall p | p in Slide(reaped.ledger, h.now).rpm ensures p in Counting(h, h.now) {
      SlidRows(reaped, p);
      RowCounts(h, reaped, p);
    }
  }

  lemma UsedCounts(h: History, slid: Ledger, now: real)
    requires slid.rpm.Keys <= Counting(h, now) && slid.rpm.Keys == slid.amounts.Keys
    requires forall p :: p in slid.amounts ==> slid.amounts[p] == TokensOf(h)[p]
    ensures |slid.rpm| <= |Counting(h, now)| && Used(slid) <= Sum(TokensOf(h), Counting(h, now))
  {
    assert |slid.rpm.Keys| == |slid.rpm|;
    Smaller(slid.rpm.Keys, Counting(h, now));
    SumAgree(slid.amounts, TokensOf(h), slid.amounts.Keys);
    SumSubset(TokensOf(h), slid.amounts.Keys, Counting(h, now));
  }

  lemma ReapedUnexpired(h: History)
    requires Inv(h)
    ensures |Reap(h.ledger, h.now).active| <= |Unexpired(h.grants, h.now)|
  {
    ReapKeepsActive(h);
    var active := Reap(h.ledger, h.now).active;
    hide Reap;
    assert active.Keys <= Unexpired(h.grants, h.now);
    Smaller(active.Keys, Unexpired(h.grants, h.now));
    assert |active.Keys| == |active|;
  }

  /** A refusal for concurrency, rate or tokens is backed by that many permits unexpired, or granted within the last
      minute and started, settled or unexpired: one that expired unsent backs none. */
  lemma RefusedForCause(calls: seq<Call>, c: Call)
    requires AllowedAll(EMPTY_HISTORY, calls) && c.op.AcquireOp?
    requires Replay(EMPTY_HISTORY, calls).now <= c.now
    ensures var h := Replay(EMPTY_HISTORY, calls);
            var reply := Answer(h.ledger, c).1;
            && (reply == ConcurrencyExceeded ==> |Unexpired(h.grants, c.now)| >= c.op.quota.concurrency)
            && (reply == RpmExceeded ==> |Counting(h, c.now)| >= c.op.quota.rpmLimit)
            && (reply == TpmExceeded ==> Sum(TokensOf(h), Counting(h, c.now)) + c.op.tokens > c.op.quota.tpmLimit)
  {
    hide Replay, AllowedAll, Answer, Reap, Slide, Used, Counting, Unexpired, TokensOf, Inv, Rolled;
    var h := Replay(EMPTY_HISTORY, calls);
    HistoryRolls(calls);
    RefusedBy(h, c);
  }

  lemma RefusedBy(h: History, c: Call)
    requires Inv(h) && Rolled(h) && h.now <= c.now && c.op.AcquireOp?
    ensures var reply := Answer(h.ledger, c).1;
            && (reply == ConcurrencyExceeded ==> |Unexpired(h.grants, c.now)| >= c.op.quota.concurrency)
            && (reply == RpmExceeded ==> |Counting(h, c.now)| >= c.op.quota.rpmLimit)
            && (reply == TpmExceeded ==> Sum(TokensOf(h), Counting(h, c.now)) + c.op.tokens > c.op.quota.tpmLimit)
  {
    hide Inv, Rolled, Answer, Reap, Slide, Used, TokensOf;
    var now := Moved(h, h.ledger, c.now);
    TickKeeps(h, c.now);
    TickRolls(h, c.now);
    SlidCounts(now);
    SameTokens(h, now);
    assert Counting(now, c.now) == Counting(h, c.now);
    hide Counting, Unexpired;
    ReapedUnexpired(now);
    AcquireRefusals(h.ledger, c);
    UsedCounts(h, Slide(Reap(h.ledger, c.now), c.now), c.now);
  }

  lemma SameTokens(h: History, later: History)
    requires later.grants == h.grants
    ensures TokensOf(later) == TokensOf(h) && TokensOf(h).Keys == h.grants.Keys
  {
  }

  // ----- One permit, one route -----

  /** A permit is its route's alone: under another it is neither acquired, started nor settled. */
  lemma ForeignRoute(l: Ledger, p: string, route: string, q: Quota, tokens: nat, retryAfter: real, now: real)
    requires p in l.permits && l.permits[p].routeId.Some? && l.permits[p].routeId != Some(route)
    requires now < l.permits[p].gone && (p in l.active ==> now < l.active[p])
    ensures q.circuitThreshold <= 0 ==> Acquire(l, p, route, q, tokens, now) == (l, RouteMismatch)
    ensures Start(l, p, route, now) == (Reap(l, now), RouteMismatch)
    ensures Settle(l, p, route, retryAfter, now) == (Reap(l, now), RouteMismatch)
  {
    assert Reap(l, now).permits[p] == l.permits[p];
    hide Reap, Slide, Used, Enter, Cool;
  }

  /** Asked for again under its own route it is counted once: the answer is its state, and nothing changes; started
      again, only the first start counts. */
  lemma AskedAgain(l: Ledger, p: string, route: string, q: Quota, tokens: nat, now: real)
    requires p in l.permits && l.permits[p].routeId == Some(route)
    requires now < l.permits[p].gone && (p in l.active ==> now < l.active[p])
    ensures q.circuitThreshold <= 0 ==>
              Acquire(l, p, route, q, tokens, now) == (l, AlreadyThere(l.permits[p].state))
    ensures var (started, reply) := Start(l, p, route, now);
            && (reply == StartedNow <==> l.permits[p].state == Acquired)
            && (reply == AlreadyStarted <==> l.permits[p].state == Started)
            && (reply != StartedNow ==> started == Reap(l, now))
            && (reply == StartedNow ==> Start(started, p, route, now).1 == AlreadyStarted)
  {
    assert Reap(l, now).permits[p] == l.permits[p];
    var (started, reply) := Start(l, p, route, now);
    if reply == StartedNow {
      assert p in started.active ==> p in l.active && started.active[p] == l.active[p];
      assert Reap(started, now).permits[p] == started.permits[p];
    }
    hide Reap, Slide, Used, Enter, Cool;
  }

  // ----- Waits asked for -----

  /** Call `i` is a first settlement that asked for a wait. */
  ghost predicate AsksWait(calls: seq<Call>, i: nat) {
    && i < |calls| && calls[i].op.SettleOp? && calls[i].op.retryAfter > 0.0
    && Answer(Replay(EMPTY_HISTORY, calls[..i]).ledger, calls[i]).1 == SettledNow
  }

  function WaitEnds(c: Call): real
    requires c.op.SettleOp?
  {
    c.now + c.op.retryAfter
  }

  /** The cooldown is the latest end of a wait asked for. */
  ghost predicate CooldownExplained(calls: seq<Call>, l: Ledger) {
    && (l.blocked.Some? ==> exists i: nat :: AsksWait(calls, i) && l.blocked.value.value == WaitEnds(calls[i]))
    && forall i: nat :: AsksWait(calls, i) ==> WaitEnds(calls[i]) <= Cooldown(l)
  }

  lemma AsksSnoc(calls: seq<Call>, c: Call, i: nat)
    ensures AsksWait(calls + [c], i)
            <==> || AsksWait(calls, i)
                 || (&& i == |calls| && c.op.SettleOp? && c.op.retryAfter > 0.0
                     && Answer(Replay(EMPTY_HISTORY, calls).ledger, c).1 == SettledNow)
  {
    hide Replay, Answer;
    if i < |calls| {
      assert (calls + [c])[..i] == calls[..i];
    } else {
      assert (calls + [c])[..|calls|] == calls;
    }
  }

  lemma CoolEnds(l: Ledger, retryAfter: real, now: real)
    requires 0.0 <= now
    ensures var cooled := Cool(l, retryAfter, now);
            && (retryAfter <= 0.0 ==> cooled.blocked == l.blocked)
            && (retryAfter > 0.0 ==>
                  && cooled.blocked.Some?
                  && (|| cooled.blocked.value.value == now + retryAfter
                      || (l.blocked.Some? && cooled.blocked.value.value == l.blocked.value.value)))
  {
  }

  lemma EnterKeepsCooldown(l: Ledger, p: string, route: string, q: Quota, tokens: nat, now: real)
    ensures Enter(l, p, route, q, tokens, now).blocked == l.blocked
  {
  }

  /** The cooldown stays, or a first settlement that asks for a wait moves it to the end of that wait. */
  ghost predicate MovesByWait(h: History, c: Call) {
    var later := After(h, c).ledger;
    || later.blocked == h.ledger.blocked
    || (&& c.op.SettleOp? && c.op.retryAfter > 0.0 && Answer(h.ledger, c).1 == SettledNow && later.blocked.Some?
        && (|| later.blocked.value.value == WaitEnds(c)
            || (h.ledger.blocked.Some? && later.blocked.value.value == h.ledger.blocked.value.value)))
  }

  lemma SettleMoves(h: History, c: Call)
    requires 0.0 <= c.now && c.op.SettleOp?
    ensures MovesByWait(h, c)
  {
    hide Reap, Slide, Answer, After, Cool, Used;
    ReapCooldown(h.ledger, c.now);
    SettleCases(h, c);
    if c.op.permit in Reap(h.ledger, c.now).permits {
      CoolEnds(Closed(Moved(h, Reap(h.ledger, c.now), c.now), c.op.permit).ledger, c.op.retryAfter, c.now);
    }
  }

  lemma CooldownMoves(h: History, c: Call)
    requires 0.0 <= c.now
    ensures MovesByWait(h, c)
  {
    hide Reap, Slide, Answer, After, Cool, Used, Enter, Room;
    ReapCooldown(h.ledger, c.now);
    match c.op
    case AcquireOp(p, route, q, tokens) =>
      AcquireCases(h, c);
      EnterKeepsCooldown(Slide(Reap(h.ledger, c.now), c.now), p, route, q, tokens, c.now);
    case StartOp(_, _) => StartCases(h, c);
    case SettleOp(_, _, _) => SettleMoves(h, c);
    case _ => CircuitCases(h, c);
  }

  lemma ExplainedSnoc(calls: seq<Call>, c: Call, h: History)
    requires h == Replay(EMPTY_HISTORY, calls) && Inv(h) && Allowed(h, c) && 0.0 <= c.now
    requires CooldownExplained(calls, h.ledger)
    ensures CooldownExplained(calls + [c], After(h, c).ledger)
  {
    hide Inv, Replay, After, Answer;
    var all, later := calls + [c], After(h, c).ledger;
    CooldownMoves(h, c);
    CooldownGrows(h, c);
    forall i: nat ensures AsksWait(all, i) ==> WaitEnds(all[i]) <= Cooldown(later) {
      AsksSnoc(calls, c, i);
    }
    if later.blocked.Some? {
      AsksSnoc(calls, c, |calls|);
      if h.ledger.blocked.Some? && later.blocked.value.value == h.ledger.blocked.value.value {
        var i: nat :| AsksWait(calls, i) && h.ledger.blocked.value.value == WaitEnds(calls[i]);
        AsksSnoc(calls, c, i);
        assert AsksWait(all, i) && later.blocked.value.value == WaitEnds(all[i]);
      } else {
        assert AsksWait(all, |calls|) && later.blocked.value.value == WaitEnds(all[|calls|]);
      }
    }
  }

  lemma {:induction false} HistoryExplained(calls: seq<Call>)
    requires AllowedAll(EMPTY_HISTORY, calls)
    ensures CooldownExplained(calls, Replay(EMPTY_HISTORY, calls).ledger)
    ensures Inv(Replay(EMPTY_HISTORY, calls)) && 0.0 <= Replay(EMPTY_HISTORY, calls).now
    decreases |calls|
  {
    hide Inv, After, Allowed, AsksWait;
    EmptyHolds();
    if calls != [] {
      var front, c := calls[..|calls| - 1], calls[|calls| - 1];
      assert calls == front + [c];
      AllowedFront(EMPTY_HISTORY, front, c);
      HistoryExplained(front);
      AfterKeeps(Replay(EMPTY_HISTORY, front), c);
      TimeMoves(Replay(EMPTY_HISTORY, front), c);
      ExplainedSnoc(front, c, Replay(EMPTY_HISTORY, front));
      ReplaySnoc(EMPTY_HISTORY, front, c);
    } else {
      NoneAsks();
    }
  }

  lemma NoneAsks()
    ensures forall i: nat :: !AsksWait([], i)
  {
  }

  lemma TimeMoves(h: History, c: Call)
    requires Allowed(h, c)
    ensures After(h, c).now == c.now && h.now <= c.now
  {
    hide Answer;
  }

  lemma {:induction false} AllowedFront(h: History, calls: seq<Call>, c: Call)
    requires AllowedAll(h, calls + [c])
    ensures AllowedAll(h, calls) && Allowed(Replay(h, calls), c)
    decreases |calls|
  {
    hide After, Allowed;
    if calls != [] {
      assert (calls + [c])[1..] == calls[1..] + [c];
      AllowedFront(After(h, calls[0]), calls[1..], c);
    }
  }

  /** A new permit is refused for the key's cooldown only while a wait asked for by some first settlement is not over;
      and then always, unless the route's circuit refuses it first. */
  lemma BlockedExactly(calls: seq<Call>, c: Call)
    requires AllowedAll(EMPTY_HISTORY, calls) && Allowed(Replay(EMPTY_HISTORY, calls), c) && c.op.AcquireOp?
    ensures var reply := Answer(Replay(EMPTY_HISTORY, calls).ledger, c).1;
            var waiting := exists i: nat :: AsksWait(calls, i) && c.now < WaitEnds(calls[i]);
            && (reply == Blocked ==> waiting)
            && (waiting ==> reply == Blocked || reply == CircuitOpen)
  {
    hide Replay, AllowedAll, Inv, Answer;
    var h := Replay(EMPTY_HISTORY, calls);
    HistoryExplained(calls);
    BlockedReply(h, c);
    if c.now < Cooldown(h.ledger) && h.ledger.blocked.Some? {
      var i: nat :| AsksWait(calls, i) && h.ledger.blocked.value.value == WaitEnds(calls[i]);
      assert c.now < WaitEnds(calls[i]);
    }
  }

  lemma BlockedReply(h: History, c: Call)
    requires Inv(h) && Allowed(h, c) && c.op.AcquireOp? && 0.0 <= h.now
    ensures var reply := Answer(h.ledger, c).1;
            && (reply == Blocked ==> h.ledger.blocked.Some? && c.now < Cooldown(h.ledger))
            && (c.now < Cooldown(h.ledger) ==> reply == Blocked || reply == CircuitOpen)
  {
    hide Reap, Slide, Used, Enter;
  }
}
