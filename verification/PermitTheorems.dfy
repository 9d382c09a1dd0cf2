/** What every history of the permit script keeps, and the quota, settlement and cooldown laws that follow. */
module PermitTheorems {
  import opened Options
  import opened Collections
  import opened Permits

  // ----- Sums over permits -----

  lemma {:induction false} SumRemove(amounts: map<string, nat>, keys: set<string>, p: string)
    requires keys <= amounts.Keys && p in keys
    ensures Sum(amounts, keys) == amounts[p] + Sum(amounts, keys - {p})
    decreases |keys|
  {
    var r :| r in keys && Sum(amounts, keys) == amounts[r] + Sum(amounts, keys - {r});
    if r != p {
      SumRemove(amounts, keys - {r}, p);
      SumRemove(amounts, keys - {p}, r);
      assert keys - {r} - {p} == keys - {p} - {r};
    }
  }

  lemma {:induction false} SumSubset(amounts: map<string, nat>, fewer: set<string>, keys: set<string>)
    requires fewer <= keys <= amounts.Keys
    ensures Sum(amounts, fewer) <= Sum(amounts, keys)
    decreases |keys|
  {
    if p :| p in keys && p !in fewer {
      SumRemove(amounts, keys, p);
      SumSubset(amounts, fewer, keys - {p});
    } else {
      assert fewer == keys;
    }
  }

  lemma {:induction false} SumAgree(amounts: map<string, nat>, others: map<string, nat>, keys: set<string>)
    requires keys <= amounts.Keys && keys <= others.Keys
    requires forall p :: p in keys ==> amounts[p] == others[p]
    ensures Sum(amounts, keys) == Sum(others, keys)
    decreases |keys|
  {
    if keys != {} {
      var p :| p in keys;
      SumRemove(amounts, keys, p);
      SumRemove(others, keys, p);
      SumAgree(amounts, others, keys - {p});
    }
  }

  ghost predicate WindowHolds(h: History) {
    WindowSound(h.ledger.rpm, h.ledger.tpm, h.ledger.amounts, h.grants)
  }

  ghost predicate LiveHolds(h: History) {
    ActiveIsLive(h.ledger.active, h.ledger.permits, h.grants, h.started)
  }

  // ----- Each part of the script keeps the invariant -----

  function Moved(h: History, l: Ledger, now: real): History {
    h.(ledger := l, now := now)
  }

  /** No grant is taken back and no dead permit revives, so past grants stay within their quotas. */
  lemma QuotasStay(h: History, later: History)
    requires QuotasHeld(h) && later.grants == h.grants
    requires forall p :: p in h.grants && Dead(h, p) ==> Dead(later, p)
    ensures QuotasHeld(later)
  {
    forall p | p in later.grants ensures WithinQuota(later, p) {
      assert WithinQuota(h, p);
      assert Companions(later, p) <= Companions(h, p);
      Smaller(Companions(later, p), Companions(h, p));
      SumSubset(TokensOf(h), Companions(later, p), Companions(h, p));
    }
  }

  /** With the window rows untouched, every grant is also still accounted for. */
  lemma PastStays(h: History, later: History)
    requires GrantsAccounted(h) && QuotasHeld(h) && later.grants == h.grants && h.now <= later.now
    requires later.ledger.rpm == h.ledger.rpm
    requires forall p :: p in h.grants && Dead(h, p) ==> Dead(later, p)
    ensures GrantsAccounted(later) && QuotasHeld(later)
  {
    QuotasStay(h, later);
    hide QuotasHeld, Dead;
  }

  lemma LaterOrdered(grants: map<string, Grant>, now: real, later: real)
    requires GrantsOrdered(grants, now) && now <= later
    ensures GrantsOrdered(grants, later)
  {
  }

  lemma TickKeeps(h: History, now: real)
    requires Inv(h) && h.now <= now
    ensures Inv(Moved(h, h.ledger, now))
  {
    hide WindowSound, GrantsAccounted, ActiveIsLive, GrantsOrdered, QuotasHeld, CooldownSound;
    LaterOrdered(h.grants, h.now, now);
    PastStays(h, Moved(h, h.ledger, now));
  }

  lemma ReapKeepsWindow(h: History)
    requires WindowHolds(h)
    ensures var later := Moved(h, Reap(h.ledger, h.now), h.now);
            WindowHolds(later)
  {
    var later := Moved(h, Reap(h.ledger, h.now), h.now);
    assert later.ledger.rpm == later.ledger.tpm;
    assert later.ledger.rpm.Keys == later.ledger.amounts.Keys;
  }

  lemma ReapKeepsDead(h: History, p: string)
    requires LiveHolds(h) && Dead(h, p)
    ensures Dead(Moved(h, Reap(h.ledger, h.now), h.now), p)
  {
  }

  lemma ReapKeepsAccounts(h: History)
    requires GrantsAccounted(h) && LiveHolds(h)
    ensures GrantsAccounted(Moved(h, Reap(h.ledger, h.now), h.now))
  {
    var later := Moved(h, Reap(h.ledger, h.now), h.now);
    forall p | p in h.grants
      ensures p in later.ledger.rpm || h.grants[p].at <= h.now - 60.0 || Dead(later, p)
    {
      if Dead(h, p) {
        ReapKeepsDead(h, p);
      }
    }
  }

  lemma ReapKeepsActive(h: History)
    requires LiveHolds(h)
    ensures LiveHolds(Moved(h, Reap(h.ledger, h.now), h.now))
    ensures forall p :: p in Reap(h.ledger, h.now).active ==> h.now < Reap(h.ledger, h.now).active[p]
  {
  }

  lemma ReapKeeps(h: History)
    requires Inv(h)
    ensures Inv(Moved(h, Reap(h.ledger, h.now), h.now))
  {
    hide WindowSound, GrantsAccounted, ActiveIsLive, GrantsOrdered, QuotasHeld, CooldownSound;
    var later := Moved(h, Reap(h.ledger, h.now), h.now);
    ReapKeepsWindow(h);
    ReapKeepsAccounts(h);
    ReapKeepsActive(h);
    forall p | Dead(h, p) ensures Dead(later, p) {
      ReapKeepsDead(h, p);
    }
    QuotasStay(h, later);
  }

  lemma SlideKeepsWindow(h: History)
    requires WindowHolds(h)
    ensures var later := Moved(h, Slide(h.ledger, h.now), h.now);
            WindowHolds(later)
  {
    var later := Moved(h, Slide(h.ledger, h.now), h.now);
    assert later.ledger.rpm == later.ledger.tpm;
    assert later.ledger.rpm.Keys == later.ledger.amounts.Keys;
  }

  lemma SlideKeepsAccounts(h: History)
    requires GrantsAccounted(h) && WindowHolds(h)
    ensures GrantsAccounted(Moved(h, Slide(h.ledger, h.now), h.now))
  {
  }

  lemma SlideKeeps(h: History)
    requires Inv(h)
    ensures Inv(Moved(h, Slide(h.ledger, h.now), h.now))
  {
    hide WindowSound, GrantsAccounted, ActiveIsLive, GrantsOrdered, QuotasHeld, CooldownSound;
    SlideKeepsWindow(h);
    SlideKeepsAccounts(h);
    QuotasStay(h, Moved(h, Slide(h.ledger, h.now), h.now));
  }

  function GrantOf(h: History, q: Quota, tokens: nat): Grant {
    Grant(|h.grants|, h.now, tokens, h.now + q.ttl, q)
  }

  function Entered(h: History, p: string, route: string, q: Quota, tokens: nat): History {
    h.(ledger := Enter(h.ledger, p, route, q, tokens, h.now), grants := h.grants[p := GrantOf(h, q, tokens)])
  }

  predicate Room(l: Ledger, q: Quota) {
    |l.active| < q.concurrency && |l.rpm| < q.rpmLimit
  }

  predicate New(h: History, p: string) {
    p !in h.ledger.permits && p !in h.grants
  }

  lemma EnterKeepsWindow(h: History, p: string, route: string, q: Quota, tokens: nat)
    requires WindowHolds(h)
    ensures var later := Entered(h, p, route, q, tokens); WindowHolds(later)
  {
  }

  lemma EnterKeepsAccounts(h: History, p: string, route: string, q: Quota, tokens: nat)
    requires GrantsAccounted(h) && New(h, p)
    ensures GrantsAccounted(Entered(h, p, route, q, tokens))
  {
    var later := Entered(h, p, route, q, tokens);
    forall r | r in h.grants ensures Dead(h, r) ==> Dead(later, r) {}
  }

  lemma EnterKeepsActive(h: History, p: string, route: string, q: Quota, tokens: nat)
    requires LiveHolds(h) && New(h, p)
    ensures LiveHolds(Entered(h, p, route, q, tokens))
  {
  }

  lemma EnterKeepsOrder(h: History, p: string, route: string, q: Quota, tokens: nat)
    requires GrantsOrdered(h.grants, h.now) && New(h, p)
    ensures var later := Entered(h, p, route, q, tokens); GrantsOrdered(later.grants, later.now)
  {
  }

  /** The companions of a new grant are rows of the window it was checked against. */
  lemma EnterKeepsQuotas(h: History, p: string, route: string, q: Quota, tokens: nat)
    requires Inv(h) && New(h, p)
    requires Room(h.ledger, q) && Used(h.ledger) + tokens <= q.tpmLimit
    ensures QuotasHeld(Entered(h, p, route, q, tokens))
  {
    var later := Entered(h, p, route, q, tokens);
    forall r | r in later.grants ensures WithinQuota(later, r) {
      if r == p {
        EnterWithinQuota(h, p, route, q, tokens);
      } else {
        EarlierStayWithin(h, p, route, q, tokens, r);
      }
    }
  }

  lemma MatesInWindow(h: History, p: string, route: string, q: Quota, tokens: nat)
    requires GrantsAccounted(h) && New(h, p)
    ensures Companions(Entered(h, p, route, q, tokens), p) - {p} <= h.ledger.rpm.Keys
  {
    var later := Entered(h, p, route, q, tokens);
    forall r | r in h.grants ensures Dead(h, r) ==> Dead(later, r) {}
  }

  lemma MatesTokens(h: History, p: string, route: string, q: Quota, tokens: nat, mates: set<string>)
    requires WindowHolds(h) && p in mates && mates - {p} <= h.ledger.rpm.Keys
    ensures mates <= TokensOf(Entered(h, p, route, q, tokens)).Keys
    ensures Sum(TokensOf(Entered(h, p, route, q, tokens)), mates) <= Used(h.ledger) + tokens
  {
    var all := TokensOf(Entered(h, p, route, q, tokens));
    SumRemove(all, mates, p);
    SumAgree(all, h.ledger.amounts, mates - {p});
    SumSubset(h.ledger.amounts, mates - {p}, h.ledger.amounts.Keys);
  }

  lemma EnterWithinQuota(h: History, p: string, route: string, q: Quota, tokens: nat)
    requires WindowHolds(h) && GrantsAccounted(h) && GrantsOrdered(h.grants, h.now) && New(h, p)
    requires Room(h.ledger, q) && Used(h.ledger) + tokens <= q.tpmLimit
    ensures WithinQuota(Entered(h, p, route, q, tokens), p)
  {
    var later := Entered(h, p, route, q, tokens);
    var mates := Companions(later, p);
    assert p in mates;
    hide Companions, WindowSound, GrantsAccounted, GrantsOrdered, New, Used, Sum, TokensOf;
    MatesInWindow(h, p, route, q, tokens);
    MatesTokens(h, p, route, q, tokens, mates);
    Smaller(mates - {p}, h.ledger.rpm.Keys);
    assert |h.ledger.rpm.Keys| == |h.ledger.rpm|;
  }

  lemma EarlierCompanions(h: History, p: string, route: string, q: Quota, tokens: nat, r: string)
    requires GrantsOrdered(h.grants, h.now) && New(h, p) && r in h.grants
    ensures Companions(Entered(h, p, route, q, tokens), r) <= Companions(h, r)
  {
  }

  lemma EarlierStayWithin(h: History, p: string, route: string, q: Quota, tokens: nat, r: string)
    requires GrantsOrdered(h.grants, h.now) && New(h, p) && r in h.grants && WithinQuota(h, r)
    ensures WithinQuota(Entered(h, p, route, q, tokens), r)
  {
    var later := Entered(h, p, route, q, tokens);
    EarlierCompanions(h, p, route, q, tokens, r);
    var mates := Companions(later, r);
    assert mates <= TokensOf(later).Keys;
    assert forall k :: k in mates ==> TokensOf(later)[k] == TokensOf(h)[k];
    hide Companions, GrantsOrdered, TokensOf, Sum;
    Smaller(mates, Companions(h, r));
    SumAgree(TokensOf(later), TokensOf(h), mates);
    SumSubset(TokensOf(h), mates, Companions(h, r));
  }

  lemma EnterKeeps(h: History, p: string, route: string, q: Quota, tokens: nat)
    requires Inv(h) && New(h, p)
    requires Room(h.ledger, q) && Used(h.ledger) + tokens <= q.tpmLimit
    ensures Inv(Entered(h, p, route, q, tokens))
  {
    hide WindowSound, GrantsAccounted, ActiveIsLive, GrantsOrdered, QuotasHeld, Used, Room, New;
    EnterKeepsWindow(h, p, route, q, tokens);
    EnterKeepsAccounts(h, p, route, q, tokens);
    EnterKeepsActive(h, p, route, q, tokens);
    EnterKeepsOrder(h, p, route, q, tokens);
    EnterKeepsQuotas(h, p, route, q, tokens);
  }

  lemma NewAfterReap(h: History, p: string, now: real)
    requires LiveHolds(h) && New(h, p)
    ensures New(Moved(h, Slide(Reap(h.ledger, now), now), now), p)
  {
  }

  lemma ReapThenSlideKeeps(h: History, now: real)
    requires Inv(h) && h.now <= now
    ensures Inv(Moved(h, h.ledger, now))
    ensures Inv(Moved(h, Reap(h.ledger, now), now))
    ensures Inv(Moved(h, Slide(Reap(h.ledger, now), now), now))
  {
    hide Inv, Slide, Reap;
    TickKeeps(h, now);
    ReapKeeps(Moved(h, h.ledger, now));
    SlideKeeps(Moved(h, Reap(h.ledger, now), now));
  }

  lemma SlideKeepsActive(l: Ledger, now: real)
    ensures Slide(l, now).active == l.active
  {
  }

  lemma AcquireCases(h: History, c: Call)
    requires c.op.AcquireOp?
    ensures var reaped := Reap(h.ledger, c.now);
            var slid := Moved(h, Slide(reaped, c.now), c.now);
            var later := After(h, c);
            || (&& Answer(h.ledger, c).1 != Granted
                && (later == Moved(h, h.ledger, c.now) || later == Moved(h, reaped, c.now) || later == slid))
            || (&& Answer(h.ledger, c).1 == Granted
                && Room(slid.ledger, c.op.quota) && Used(slid.ledger) + c.op.tokens <= c.op.quota.tpmLimit
                && later == Entered(slid, c.op.permit, c.op.route, c.op.quota, c.op.tokens))
  {
    hide Slide, Reap, Enter, Used, Lookup, BlockedUntil, OpenUntil;
    SlideKeepsActive(Reap(h.ledger, c.now), c.now);
  }

  lemma AcquireKeeps(h: History, c: Call)
    requires Inv(h) && Allowed(h, c) && c.op.AcquireOp?
    ensures Inv(After(h, c))
  {
    NewAfterReap(h, c.op.permit, c.now);
    hide Inv, Slide, Reap, Answer, After, Used, Room, New;
    ReapThenSlideKeeps(h, c.now);
    AcquireCases(h, c);
    var slid := Moved(h, Slide(Reap(h.ledger, c.now), c.now), c.now);
    if Room(slid.ledger, c.op.quota) && Used(slid.ledger) + c.op.tokens <= c.op.quota.tpmLimit {
      EnterKeeps(slid, c.op.permit, c.op.route, c.op.quota, c.op.tokens);
    }
  }

  // ----- Starting and settling -----

  /** `p` was acquired and is still within its time to live, as a reaped ledger shows it. */
  predicate Sendable(h: History, p: string) {
    p in h.ledger.permits && h.ledger.permits[p].state == Acquired
    && p in h.ledger.active && h.now < h.ledger.active[p]
  }

  function Begun(h: History, p: string): History
    requires p in h.ledger.permits
  {
    h.(ledger := h.ledger.(permits := h.ledger.permits[p := h.ledger.permits[p].(state := Started)]),
       started := h.started[p := h.now])
  }

  function Closed(h: History, p: string): History
    requires p in h.ledger.permits
  {
    h.(ledger := h.ledger.(permits := h.ledger.permits[p := h.ledger.permits[p].(state := Settled)],
                           active := h.ledger.active - {p}))
  }

  lemma BeginKeepsActive(h: History, p: string)
    requires LiveHolds(h) && Sendable(h, p)
    ensures LiveHolds(Begun(h, p))
  {
    assert h.now < h.grants[p].expires;
  }

  lemma BeginKeepsDead(h: History, p: string, r: string)
    requires Sendable(h, p) && Dead(h, r)
    ensures Dead(Begun(h, p), r)
  {
  }

  lemma BeginKeeps(h: History, p: string)
    requires Inv(h) && Sendable(h, p)
    ensures Inv(Begun(h, p))
  {
    hide WindowSound, GrantsAccounted, ActiveIsLive, GrantsOrdered, QuotasHeld, CooldownSound;
    BeginKeepsActive(h, p);
    forall r | Dead(h, r) ensures Dead(Begun(h, p), r) {
      BeginKeepsDead(h, p, r);
    }
    PastStays(h, Begun(h, p));
  }

  lemma CloseKeepsActive(active: map<string, real>, permits: map<string, Permit>,
                         grants: map<string, Grant>, started: map<string, real>, p: string)
    requires ActiveIsLive(active, permits, grants, started) && p in permits
    ensures ActiveIsLive(active - {p}, permits[p := permits[p].(state := Settled)], grants, started)
  {
  }

  lemma CloseKeepsDead(h: History, p: string, r: string)
    requires p in h.ledger.permits && Dead(h, r)
    ensures Dead(Closed(h, p), r)
  {
  }

  lemma CloseKeeps(h: History, p: string)
    requires Inv(h) && p in h.ledger.permits
    ensures Inv(Closed(h, p))
  {
    hide WindowSound, GrantsAccounted, ActiveIsLive, GrantsOrdered, QuotasHeld, CooldownSound;
    CloseKeepsActive(h.ledger.active, h.ledger.permits, h.grants, h.started, p);
    forall r | Dead(h, r) ensures Dead(Closed(h, p), r) {
      CloseKeepsDead(h, p, r);
    }
    PastStays(h, Closed(h, p));
  }

  /** Cooldown and circuits are beside the permit tables. */
  function Aside(h: History, blocked: Option<Timed<real>>, failures: map<string, Timed<int>>,
                 circuits: map<string, Timed<real>>): History {
    h.(ledger := h.ledger.(blocked := blocked, failures := failures, circuits := circuits))
  }

  lemma AsideKeeps(h: History, b: Option<Timed<real>>, f: map<string, Timed<int>>, c: map<string, Timed<real>>)
    requires Inv(h) && CooldownSound(b)
    ensures Inv(Aside(h, b, f, c))
  {
    hide WindowSound, GrantsAccounted, ActiveIsLive, GrantsOrdered, QuotasHeld, CooldownSound;
    PastStays(h, Aside(h, b, f, c));
  }

  lemma StartCases(h: History, c: Call)
    requires c.op.StartOp?
    ensures var reaped := Moved(h, Reap(h.ledger, c.now), c.now);
            var p := c.op.permit;
            || (After(h, c) == reaped && Answer(h.ledger, c).1 != StartedNow)
            || (&& p in reaped.ledger.permits && reaped.ledger.permits[p].state == Acquired
                && Answer(h.ledger, c).1 == StartedNow && After(h, c) == Begun(reaped, p))
  {
    hide Reap;
  }

  /** Once the expired permits are gone, whatever is still acquired is within its time to live. */
  lemma ReapedSendable(h: History, p: string)
    requires LiveHolds(h)
    ensures var reaped := Moved(h, Reap(h.ledger, h.now), h.now);
            p in reaped.ledger.permits && reaped.ledger.permits[p].state == Acquired ==> Sendable(reaped, p)
  {
    ReapKeepsActive(h);
    hide Reap;
  }

  lemma StartKeeps(h: History, c: Call)
    requires Inv(h) && h.now <= c.now && c.op.StartOp?
    ensures Inv(After(h, c))
  {
    var reaped := Moved(h, Reap(h.ledger, c.now), c.now);
    ReapedSendable(Moved(h, h.ledger, c.now), c.op.permit) by {
      hide WindowSound, GrantsAccounted, GrantsOrdered, ActiveIsLive, QuotasHeld, CooldownSound;
    }
    hide Slide, Reap, Inv, After, Answer, Sendable;
    ReapThenSlideKeeps(h, c.now);
    StartCases(h, c);
    if Sendable(reaped, c.op.permit) && c.op.permit in reaped.ledger.permits {
      BeginKeeps(reaped, c.op.permit);
    }
  }

  lemma CoolSound(l: Ledger, retryAfter: real, now: real)
    requires CooldownSound(l.blocked)
    ensures CooldownSound(Cool(l, retryAfter, now).blocked)
    ensures Cooldown(l) <= Cooldown(Cool(l, retryAfter, now))
    ensures 0.0 < retryAfter ==> now + retryAfter <= Cooldown(Cool(l, retryAfter, now))
  {
  }

  /** The time before which the key grants nothing, forgotten or not. */
  function Cooldown(l: Ledger): real {
    if l.blocked.Some? then l.blocked.value.value else 0.0
  }

  lemma SettleCases(h: History, c: Call)
    requires c.op.SettleOp?
    ensures var reaped := Moved(h, Reap(h.ledger, c.now), c.now);
            var p := c.op.permit;
            || (After(h, c) == reaped && Answer(h.ledger, c).1 != SettledNow)
            || (&& p in reaped.ledger.permits && Answer(h.ledger, c).1 == SettledNow
                && After(h, c) == Moved(h, Cool(Closed(reaped, p).ledger, c.op.retryAfter, c.now), c.now))
  {
    hide Reap, Cool;
  }

  lemma SettleKeeps(h: History, c: Call)
    requires Inv(h) && h.now <= c.now && c.op.SettleOp?
    ensures Inv(After(h, c))
  {
    var reaped := Moved(h, Reap(h.ledger, c.now), c.now);
    ReapThenSlideKeeps(h, c.now);
    hide Slide, Reap, WindowSound, GrantsAccounted, ActiveIsLive, GrantsOrdered, QuotasHeld, CooldownSound, After,
         Answer;
    SettleCases(h, c);
    if c.op.permit in reaped.ledger.permits {
      var closed := Closed(reaped, c.op.permit);
      var cooled := Cool(closed.ledger, c.op.retryAfter, c.now);
      CloseKeeps(reaped, c.op.permit);
      CoolSound(closed.ledger, c.op.retryAfter, c.now);
      AsideKeeps(closed, cooled.blocked, cooled.failures, cooled.circuits);
    }
  }

  lemma CircuitRows(l: Ledger, c: Call)
    requires c.op.FailureOp? || c.op.SuccessOp?
    ensures var after := Answer(l, c).0;
            after == l.(failures := after.failures, circuits := after.circuits)
  {
    hide Ceil, AtLeastOne;
    if c.op.FailureOp? {
      FailureRows(l, c.op.route, c.op.threshold, c.op.openSeconds, c.now);
      hide CircuitFailure;
    }
  }

  lemma FailureRows(l: Ledger, route: string, threshold: int, openSeconds: real, now: real)
    ensures var after := CircuitFailure(l, route, threshold, openSeconds, now);
            after == l.(failures := after.failures, circuits := after.circuits)
  {
    hide Ceil, AtLeastOne;
  }

  lemma CircuitCases(h: History, c: Call)
    requires c.op.FailureOp? || c.op.SuccessOp?
    ensures var l := Answer(h.ledger, c).0;
            After(h, c) == Aside(Moved(h, h.ledger, c.now), h.ledger.blocked, l.failures, l.circuits)
  {
    hide Answer;
    CircuitRows(h.ledger, c);
  }

  lemma CircuitKeeps(h: History, c: Call)
    requires Inv(h) && h.now <= c.now && (c.op.FailureOp? || c.op.SuccessOp?)
    ensures Inv(After(h, c))
  {
    hide WindowSound, GrantsAccounted, ActiveIsLive, GrantsOrdered, QuotasHeld, CooldownSound, After, Answer;
    TickKeeps(h, c.now);
    CircuitCases(h, c);
    var l := Answer(h.ledger, c).0;
    AsideKeeps(Moved(h, h.ledger, c.now), h.ledger.blocked, l.failures, l.circuits);
  }

  lemma AfterKeeps(h: History, c: Call)
    requires Inv(h) && Allowed(h, c)
    ensures Inv(After(h, c))
  {
    hide Inv, After;
    match c.op
    case AcquireOp(_, _, _, _) => AcquireKeeps(h, c);
    case StartOp(_, _) => StartKeeps(h, c);
    case SettleOp(_, _, _) => SettleKeeps(h, c);
    case FailureOp(_, _, _) => CircuitKeeps(h, c);
    case SuccessOp(_) => CircuitKeeps(h, c);
  }

  lemma EmptyHolds()
    ensures Inv(EMPTY_HISTORY)
  {
  }

  lemma {:induction false} ReplayKeeps(h: History, calls: seq<Call>)
    requires Inv(h) && AllowedAll(h, calls)
    ensures Inv(Replay(h, calls))
    decreases |calls|
  {
    hide Inv, After, Allowed;
    if calls != [] {
      AfterKeeps(h, calls[0]);
      ReplayKeeps(After(h, calls[0]), calls[1..]);
    }
  }

  lemma {:induction false} ReplaySnoc(h: History, calls: seq<Call>, c: Call)
    ensures Replay(h, calls + [c]) == After(Replay(h, calls), c)
    decreases |calls|
  {
    hide After;
    if calls == [] {
      assert Replay(h, [c]) == Replay(After(h, c), []);
    } else {
      assert (calls + [c])[1..] == calls[1..] + [c];
      ReplaySnoc(After(h, calls[0]), calls[1..], c);
    }
  }

  lemma {:induction false} AllowedSnoc(h: History, calls: seq<Call>, c: Call)
    requires AllowedAll(h, calls) && Allowed(Replay(h, calls), c)
    ensures AllowedAll(h, calls + [c])
    decreases |calls|
  {
    hide After, Allowed;
    if calls == [] {
      assert ([] + [c])[1..] == [] && AllowedAll(After(h, c), []);
    } else {
      assert (calls + [c])[1..] == calls[1..] + [c];
      AllowedSnoc(After(h, calls[0]), calls[1..], c);
    }
  }

  // ----- Sixty-second windows -----

  /** The permits that were sent, granted after `a` and at most sixty seconds after it. */
  ghost function SentIn(h: History, a: real): set<string> {
    set p | p in h.grants && p in h.started && a < h.grants[p].at <= a + 60.0
  }

  ghost function Latest(h: History, some: set<string>): (last: string)
    requires some != {} && forall p :: p in some ==> p in h.grants
    ensures last in some && forall p :: p in some ==> h.grants[p].serial <= h.grants[last].serial
    decreases |some|
  {
    var p :| p in some;
    if some == {p} then p
    else
      var rest := Latest(h, some - {p});
      if h.grants[rest].serial < h.grants[p].serial then p else rest
  }

  lemma SentAreCompanions(h: History, a: real, last: string)
    requires GrantsOrdered(h.grants, h.now) && last in SentIn(h, a)
    requires forall p :: p in SentIn(h, a) ==> h.grants[p].serial <= h.grants[last].serial
    ensures SentIn(h, a) <= Companions(h, last)
  {
  }

  /** In every window the sent permits meet the quota of the last of them, whatever mix of quotas was used. */
  lemma WindowQuota(calls: seq<Call>, a: real)
    requires AllowedAll(EMPTY_HISTORY, calls)
    ensures var h := Replay(EMPTY_HISTORY, calls);
            var sent := SentIn(h, a);
            sent != {} ==>
              exists p :: p in sent && (forall r :: r in sent ==> h.grants[r].serial <= h.grants[p].serial)
                          && |sent| <= h.grants[p].quota.rpmLimit
                          && Sum(TokensOf(h), sent) <= h.grants[p].quota.tpmLimit
  {
    hide Replay, AllowedAll;
    var h := Replay(EMPTY_HISTORY, calls);
    EmptyHolds();
    ReplayKeeps(EMPTY_HISTORY, calls);
    if SentIn(h, a) != {} {
      hide WindowSound, GrantsAccounted, ActiveIsLive;
      var last := Latest(h, SentIn(h, a));
      SentAreCompanions(h, a, last);
      hide Companions, SentIn, TokensOf, GrantsOrdered;
      assert WithinQuota(h, last);
      Smaller(SentIn(h, a), Companions(h, last));
      SumSubset(TokensOf(h), SentIn(h, a), Companions(h, last));
    }
  }

  /** With one configuration per rate key, that is the configured rate. */
  lemma UniformWindowQuota(calls: seq<Call>, q: Quota, a: real)
    requires AllowedAll(EMPTY_HISTORY, calls) && 0 <= q.rpmLimit && 0 <= q.tpmLimit
    requires forall c :: c in calls && c.op.AcquireOp? ==> c.op.quota == q
    ensures var h := Replay(EMPTY_HISTORY, calls);
            |SentIn(h, a)| <= q.rpmLimit && Sum(TokensOf(h), SentIn(h, a)) <= q.tpmLimit
  {
    GrantedUnder(EMPTY_HISTORY, calls, q);
    hide Replay, AllowedAll, SentIn, TokensOf;
    WindowQuota(calls, a);
  }

  lemma {:induction false} GrantedUnder(h: History, calls: seq<Call>, q: Quota)
    requires forall p :: p in h.grants ==> h.grants[p].quota == q
    requires forall c :: c in calls && c.op.AcquireOp? ==> c.op.quota == q
    ensures forall p :: p in Replay(h, calls).grants ==> Replay(h, calls).grants[p].quota == q
    decreases |calls|
  {
    if calls != [] {
      assert calls[0] in calls;
      hide Answer;
      GrantedUnder(After(h, calls[0]), calls[1..], q);
    }
  }

  // ----- Tables, concurrency and time to live -----

  /** The window tables hold the same permits, and a permit was started only within its time to live. */
  lemma TablesAgree(calls: seq<Call>)
    requires AllowedAll(EMPTY_HISTORY, calls)
    ensures var h := Replay(EMPTY_HISTORY, calls);
            && h.ledger.rpm == h.ledger.tpm && h.ledger.rpm.Keys == h.ledger.amounts.Keys
            && forall p :: p in h.started ==>
                 p in h.grants && h.started[p] < h.grants[p].at + h.grants[p].quota.ttl
  {
    hide Replay, AllowedAll;
    EmptyHolds();
    ReplayKeeps(EMPTY_HISTORY, calls);
  }

  lemma AcquireConcurrency(h: History, c: Call, limit: nat)
    requires |h.ledger.active| <= limit && c.op.AcquireOp? && c.op.quota.concurrency <= limit
    ensures |After(h, c).ledger.active| <= limit
  {
    hide Reap, Slide, Answer, After, Used;
    ReapShrinks(h.ledger, c.now);
    AcquireCases(h, c);
    SlideKeepsActive(Reap(h.ledger, c.now), c.now);
    OneMore(Reap(h.ledger, c.now).active, c.op.permit, c.now + c.op.quota.ttl);
  }

  lemma SettleConcurrency(h: History, c: Call, limit: nat)
    requires |h.ledger.active| <= limit && c.op.SettleOp?
    ensures |After(h, c).ledger.active| <= limit
  {
    hide Reap, Answer, After, Cool;
    ReapShrinks(h.ledger, c.now);
    SettleCases(h, c);
    OneFewer(Reap(h.ledger, c.now).active, c.op.permit);
    if c.op.permit in Reap(h.ledger, c.now).permits {
      CoolKeepsActive(Closed(Moved(h, Reap(h.ledger, c.now), c.now), c.op.permit).ledger, c.op.retryAfter, c.now);
    }
  }

  lemma AfterConcurrency(h: History, c: Call, limit: nat)
    requires |h.ledger.active| <= limit
    requires c.op.AcquireOp? ==> c.op.quota.concurrency <= limit
    ensures |After(h, c).ledger.active| <= limit
  {
    hide Reap, Answer, After;
    match c.op
    case AcquireOp(_, _, _, _) => AcquireConcurrency(h, c, limit);
    case StartOp(_, _) => StartCases(h, c); ReapShrinks(h.ledger, c.now);
    case SettleOp(_, _, _) => SettleConcurrency(h, c, limit);
    case _ => CircuitCases(h, c);
  }

  lemma OneMore(active: map<string, real>, p: string, expires: real)
    ensures |active[p := expires]| <= |active| + 1
  {
    Smaller(active[p := expires].Keys, active.Keys + {p});
    assert |active[p := expires].Keys| == |active[p := expires]| && |active.Keys| == |active|;
  }

  lemma OneFewer(active: map<string, real>, p: string)
    ensures |active - {p}| <= |active|
  {
    Smaller((active - {p}).Keys, active.Keys);
    assert |(active - {p}).Keys| == |active - {p}| && |active.Keys| == |active|;
  }

  lemma CoolKeepsActive(l: Ledger, retryAfter: real, now: real)
    ensures Cool(l, retryAfter, now).active == l.active
  {
  }

  lemma ReapShrinks(l: Ledger, now: real)
    ensures |Reap(l, now).active| <= |l.active|
  {
    Smaller(Reap(l, now).active.Keys, l.active.Keys);
    assert |Reap(l, now).active.Keys| == |Reap(l, now).active| && |l.active.Keys| == |l.active|;
  }

  lemma {:induction false} ConcurrencyHolds(h: History, calls: seq<Call>, limit: nat)
    requires |h.ledger.active| <= limit
    requires forall c :: c in calls && c.op.AcquireOp? ==> c.op.quota.concurrency <= limit
    ensures |Replay(h, calls).ledger.active| <= limit
    decreases |calls|
  {
    hide After;
    if calls != [] {
      assert calls[0] in calls;
      AfterConcurrency(h, calls[0], limit);
      ConcurrencyHolds(After(h, calls[0]), calls[1..], limit);
    }
  }

  // ----- Settlement -----

  predicate Frozen(l: Ledger, p: string, final: Permit) {
    p in l.permits && l.permits[p] == final && final.state == Settled && p !in l.active
  }

  lemma ReapFrozen(l: Ledger, p: string, final: Permit, now: real)
    requires Frozen(l, p, final)
    ensures Frozen(Reap(l, now), p, final) && Reap(l, now).blocked == l.blocked
    ensures (p in Reap(l, now).rpm <==> p in l.rpm)
    ensures Frozen(Slide(Reap(l, now), now), p, final)
  {
  }

  lemma FrozenStays(h: History, c: Call, p: string, final: Permit)
    requires Frozen(h.ledger, p, final) && Allowed(h, c)
    ensures Frozen(After(h, c).ledger, p, final)
  {
    hide Reap, Slide, Answer, After, Used, Room, Cool;
    ReapFrozen(h.ledger, p, final, c.now);
    match c.op
    case AcquireOp(_, _, _, _) => AcquireCases(h, c);
    case StartOp(_, _) => StartCases(h, c);
    case SettleOp(r, _, _) =>
      SettleCases(h, c);
      if r == p {
        SettleAgain(h.ledger, c, final);
      } else if r in Reap(h.ledger, c.now).permits {
        CoolFrozen(Closed(Moved(h, Reap(h.ledger, c.now), c.now), r).ledger, p, final, c.op.retryAfter, c.now);
      }
    case _ => CircuitCases(h, c);
  }

  lemma CoolFrozen(l: Ledger, p: string, final: Permit, retryAfter: real, now: real)
    requires Frozen(l, p, final)
    ensures Frozen(Cool(l, retryAfter, now), p, final)
  {
  }

  lemma {:induction false} FrozenForever(h: History, calls: seq<Call>, p: string, final: Permit)
    requires Frozen(h.ledger, p, final) && AllowedAll(h, calls)
    ensures Frozen(Replay(h, calls).ledger, p, final)
    decreases |calls|
  {
    hide After, Allowed, Frozen;
    if calls != [] {
      FrozenStays(h, calls[0], p, final);
      FrozenForever(After(h, calls[0]), calls[1..], p, final);
    }
  }

  /** Once a permit is settled, no later settlement of it changes the permit, its rows or the cooldown. */
  lemma SettledOnce(h: History, first: Call, calls: seq<Call>, again: Call)
    requires first.op.SettleOp? && Answer(h.ledger, first).1 == SettledNow
    requires AllowedAll(After(h, first), calls)
    requires again.op.SettleOp? && again.op.permit == first.op.permit
    ensures var p := first.op.permit;
            var before := Replay(After(h, first), calls).ledger;
            var (after, reply) := Answer(before, again);
            && (reply == AlreadySettled || reply == RouteMismatch)
            && after.blocked == before.blocked
            && p in after.permits && p in After(h, first).ledger.permits
            && after.permits[p] == After(h, first).ledger.permits[p]
            && p !in after.active
            && (p in after.rpm <==> p in before.rpm)
  {
    var p := first.op.permit;
    var later := Replay(After(h, first), calls);
    SettleCases(h, first);
    var final := After(h, first).ledger.permits[p];
    assert Frozen(After(h, first).ledger, p, final);
    FrozenForever(After(h, first), calls, p, final);
    ReapFrozen(later.ledger, p, final, again.now);
    SettleAgain(later.ledger, again, final);
  }

  lemma SettleAgain(l: Ledger, again: Call, final: Permit)
    requires again.op.SettleOp? && Frozen(Reap(l, again.now), again.op.permit, final)
    ensures var (after, reply) := Answer(l, again);
            after == Reap(l, again.now) && (reply == AlreadySettled || reply == RouteMismatch)
  {
    hide Reap, Cool;
  }

  // ----- Cooldown -----

  lemma CooldownGrows(h: History, c: Call)
    requires Inv(h) && Allowed(h, c)
    ensures Cooldown(h.ledger) <= Cooldown(After(h, c).ledger)
    ensures c.op.SettleOp? && c.op.retryAfter > 0.0 && Answer(h.ledger, c).1 == SettledNow ==>
              c.now + c.op.retryAfter <= Cooldown(After(h, c).ledger)
  {
    match c.op
    case AcquireOp(_, _, _, _) => AcquireCases(h, c); ReapCooldown(h.ledger, c.now);
      hide Reap, Slide, Answer, After, Used, Inv;
    case StartOp(_, _) => StartCases(h, c); ReapCooldown(h.ledger, c.now); hide Reap, Answer, After, Inv;
    case SettleOp(_, _, _) => SettleCooldown(h, c);
    case FailureOp(_, _, _) => CircuitCases(h, c); hide Answer, After, Inv;
    case SuccessOp(_) => CircuitCases(h, c); hide Answer, After, Inv;
  }

  lemma ReapCooldown(l: Ledger, now: real)
    ensures Reap(l, now).blocked == l.blocked && Slide(Reap(l, now), now).blocked == l.blocked
  {
  }

  lemma SettleCooldown(h: History, c: Call)
    requires CooldownSound(h.ledger.blocked) && c.op.SettleOp?
    ensures Cooldown(h.ledger) <= Cooldown(After(h, c).ledger)
    ensures c.op.retryAfter > 0.0 && Answer(h.ledger, c).1 == SettledNow ==>
              c.now + c.op.retryAfter <= Cooldown(After(h, c).ledger)
  {
    var reaped := Moved(h, Reap(h.ledger, c.now), c.now);
    ReapCooldown(h.ledger, c.now);
    SettleCases(h, c);
    hide Reap, Answer, After;
    if c.op.permit in reaped.ledger.permits {
      CoolSound(Closed(reaped, c.op.permit).ledger, c.op.retryAfter, c.now);
    }
  }

  lemma {:induction false} CooldownKept(h: History, calls: seq<Call>)
    requires Inv(h) && AllowedAll(h, calls)
    ensures Cooldown(h.ledger) <= Cooldown(Replay(h, calls).ledger)
    decreases |calls|
  {
    hide Inv, After, Allowed, Cooldown;
    if calls != [] {
      CooldownGrows(h, calls[0]);
      AfterKeeps(h, calls[0]);
      CooldownKept(After(h, calls[0]), calls[1..]);
    }
  }

  /** After a first settlement that asks for `retryAfter`, whatever follows, nothing is granted before it is over. */
  lemma CooldownHolds(before: seq<Call>, settle: Call, calls: seq<Call>, c: Call)
    requires AllowedAll(EMPTY_HISTORY, before)
    requires var h := Replay(EMPTY_HISTORY, before);
             && Allowed(h, settle) && settle.op.SettleOp? && settle.op.retryAfter > 0.0
             && Answer(h.ledger, settle).1 == SettledNow
             && AllowedAll(After(h, settle), calls)
    requires c.op.AcquireOp? && c.now < settle.now + settle.op.retryAfter
    ensures var h := Replay(EMPTY_HISTORY, before);
            Answer(Replay(After(h, settle), calls).ledger, c).1 != Granted
  {
    var h := Replay(EMPTY_HISTORY, before);
    var later := Replay(After(h, settle), calls);
    hide Inv, After, Allowed, Replay, AllowedAll, Answer, Cooldown;
    EmptyHolds();
    ReplayKeeps(EMPTY_HISTORY, before);
    CooldownGrows(h, settle);
    AfterKeeps(h, settle);
    CooldownKept(After(h, settle), calls);
    ReplayKeeps(After(h, settle), calls);
    BlockedWhileCooling(later, c);
  }

  lemma BlockedWhileCooling(h: History, c: Call)
    requires Inv(h) && c.op.AcquireOp? && c.now < Cooldown(h.ledger)
    ensures Answer(h.ledger, c).1 != Granted
  {
    hide Reap, Slide, Used, Enter;
  }
}
