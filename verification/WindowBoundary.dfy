/** Exactly how long a window closed at both ends may be for the rate law to hold of it: less than sixty seconds. */
module WindowBoundary {
  import opened Options
  import opened Collections
  import opened Permits
  import opened PermitTheorems

  /** The permits that were sent, granted from `a` to `d` seconds after it, both ends included. */
  ghost function SentWithin(h: History, a: real, d: real): set<string> {
    set p | p in h.grants && p in h.started && a <= h.grants[p].at <= a + d
  }

  ghost predicate Uniform(calls: seq<Call>, q: Quota) {
    forall c :: c in calls && c.op.AcquireOp? ==> c.op.quota == q
  }

  /** Under one configuration no history sends more than the rate within `d` seconds closed at both ends. */
  ghost predicate RateHolds(q: Quota, d: real) {
    forall calls: seq<Call>, a: real ::
      AllowedAll(EMPTY_HISTORY, calls) && Uniform(calls, q) ==>
        |SentWithin(Replay(EMPTY_HISTORY, calls), a, d)| <= q.rpmLimit
  }

  /** The configuration lets permits be granted and sent at all. */
  predicate Usable(q: Quota) {
    q.concurrency >= 1 && q.ttl > 0.0 && q.rpmLimit >= 1 && q.tpmLimit >= 0
  }

  function Ask(p: string, q: Quota, now: real): Call {
    Call(AcquireOp(p, "route", q, 0), now)
  }

  function Go(p: string, now: real): Call {
    Call(StartOp(p, "route"), now)
  }

  function Finish(p: string, now: real): Call {
    Call(SettleOp(p, "route", 0.0), now)
  }

  function Name(k: nat): string {
    seq(k, i => 'p')
  }

  lemma NamesDiffer(m: nat, n: nat)
    ensures m != n ==> Name(m) != Name(n)
  {
    assert |Name(m)| == m && |Name(n)| == n;
  }

  // ----- Shorter windows -----

  lemma ShorterHolds(q: Quota, d: real)
    requires Usable(q) && 0.0 <= d < 60.0
    ensures RateHolds(q, d)
  {
    hide Replay, AllowedAll;
    forall calls: seq<Call>, a: real | AllowedAll(EMPTY_HISTORY, calls) && Uniform(calls, q)
      ensures |SentWithin(Replay(EMPTY_HISTORY, calls), a, d)| <= q.rpmLimit
    {
      var h := Replay(EMPTY_HISTORY, calls);
      UniformWindowQuota(calls, q, a + d - 60.0);
      assert SentWithin(h, a, d) <= SentIn(h, a + d - 60.0);
      Smaller(SentWithin(h, a, d), SentIn(h, a + d - 60.0));
    }
  }

  // ----- A full minute -----

  /** The window tables hold `k` permits of time zero, all of them granted. */
  ghost predicate ZeroWindow(rpm: map<string, real>, tpm: map<string, real>, amounts: map<string, nat>,
                             grants: map<string, Grant>, k: nat) {
    && rpm == tpm && rpm.Keys == amounts.Keys && |rpm| == k && rpm.Keys <= grants.Keys
    && (forall p :: p in rpm ==> rpm[p] == 0.0 && amounts[p] == 0)
  }

  /** `k` permits were granted at time zero, and all of them were sent. */
  ghost predicate ZeroGrants(grants: map<string, Grant>, started: map<string, real>, k: nat) {
    && started.Keys == grants.Keys && |grants| == k
    && (forall p :: p in grants ==> grants[p].at == 0.0)
  }

  ghost predicate NamesFree(permits: map<string, Permit>, grants: map<string, Grant>, k: nat) {
    forall m: nat :: k <= m ==> Name(m) !in permits && Name(m) !in grants
  }

  predicate Resting(h: History) {
    h.now == 0.0 && h.ledger.active == map[] && h.ledger.blocked == None && h.ledger.circuits == map[]
  }

  /** `k` permits were granted and sent at time zero and are settled; nothing else ever happened. */
  ghost predicate Sent(h: History, k: nat) {
    && Resting(h)
    && ZeroWindow(h.ledger.rpm, h.ledger.tpm, h.ledger.amounts, h.grants, k)
    && ZeroGrants(h.grants, h.started, k)
    && NamesFree(h.ledger.permits, h.grants, k)
  }

  lemma ReapNothing(l: Ledger, now: real)
    requires PastTtl(l, now) == {}
    ensures Reap(l, now) == l
  {
    assert UnsentOf(l, {}, now) == {};
    assert Graves(l, {}, now) == l.permits;
    assert l.active - {} == l.active && l.rpm - {} == l.rpm && l.tpm - {} == l.tpm && l.amounts - {} == l.amounts;
  }

  lemma {:induction false} SumZero(amounts: map<string, nat>, keys: set<string>)
    requires keys <= amounts.Keys && forall p :: p in keys ==> amounts[p] == 0
    ensures Sum(amounts, keys) == 0
    decreases |keys|
  {
    if p :| p in keys {
      SumRemove(amounts, keys, p);
      SumZero(amounts, keys - {p});
    }
  }

  lemma GrantReplies(l: Ledger, p: string, q: Quota, now: real)
    requires Usable(q) && 0.0 <= now && p !in l.permits
    requires l.active == map[] && l.blocked == None && l.circuits == map[] && Reap(l, now) == l
    requires |Slide(l, now).rpm| < q.rpmLimit && Used(Slide(l, now)) == 0
    ensures Acquire(l, p, "route", q, 0, now).1 == Granted
  {
    assert Lookup(l, p, now) == None && BlockedUntil(l, now) == 0.0 && OpenUntil(l, "route", now) == 0.0;
    assert |l.active| == 0;
    hide Reap, Slide, Used, Enter, Lookup, BlockedUntil, OpenUntil;
  }

  /** With nobody active and room in the window a new permit is granted. */
  lemma Grants(h: History, p: string, q: Quota, now: real)
    requires Usable(q) && 0.0 <= now && h.now <= now && p !in h.ledger.permits && p !in h.grants
    requires h.ledger.active == map[] && h.ledger.blocked == None && h.ledger.circuits == map[]
    requires |Slide(h.ledger, now).rpm| < q.rpmLimit && Used(Slide(h.ledger, now)) == 0
    ensures Allowed(h, Ask(p, q, now))
    ensures After(h, Ask(p, q, now)) == Entered(Moved(h, Slide(h.ledger, now), now), p, "route", q, 0)
  {
    assert PastTtl(h.ledger, now) == {};
    ReapNothing(h.ledger, now);
    hide Reap, Slide, Used, Enter, Acquire, After;
    GrantReplies(h.ledger, p, q, now);
    assert Answer(h.ledger, Ask(p, q, now)).1 == Granted;
    hide Answer;
    AcquireCases(h, Ask(p, q, now));
  }

  /** A permit granted at this very moment can be sent. */
  lemma Sends(h: History, p: string, q: Quota, now: real)
    requires Usable(q) && h.now == now && h.ledger.active == map[p := now + q.ttl]
    requires p in h.ledger.permits
    requires h.ledger.permits[p] == Permit(Acquired, Some("route"), now + (Ceil(q.ttl) + 60) as real)
    ensures Allowed(h, Go(p, now)) && After(h, Go(p, now)) == Begun(h, p)
  {
    assert PastTtl(h.ledger, now) == {};
    ReapNothing(h.ledger, now);
    hide Reap;
    assert Lookup(h.ledger, p, now) == Some(h.ledger.permits[p]);
    StartCases(h, Go(p, now));
    assert Answer(h.ledger, Go(p, now)).1 == StartedNow;
  }

  lemma Settles(h: History, p: string, q: Quota, now: real)
    requires Usable(q) && h.now == now && h.ledger.active == map[p := now + q.ttl]
    requires p in h.ledger.permits
    requires h.ledger.permits[p] == Permit(Started, Some("route"), now + (Ceil(q.ttl) + 60) as real)
    ensures Allowed(h, Finish(p, now)) && After(h, Finish(p, now)) == Closed(h, p)
  {
    assert PastTtl(h.ledger, now) == {};
    ReapNothing(h.ledger, now);
    hide Reap;
    assert Lookup(h.ledger, p, now) == Some(h.ledger.permits[p]);
    SettleCases(h, Finish(p, now));
    assert Answer(h.ledger, Finish(p, now)).1 == SettledNow;
  }

  lemma SlideNothing(h: History, k: nat)
    requires Sent(h, k)
    ensures Slide(h.ledger, 0.0) == h.ledger && Used(h.ledger) == 0 && |h.ledger.rpm| == k && h.now == 0.0
    ensures h.ledger.active == map[] && h.ledger.blocked == None && h.ledger.circuits == map[]
  {
    assert WindowPast(h.ledger.rpm, 0.0) == {} && WindowPast(h.ledger.tpm, 0.0) == {};
    assert h.ledger.rpm - {} == h.ledger.rpm && h.ledger.tpm - {} == h.ledger.tpm;
    assert h.ledger.amounts - {} == h.ledger.amounts;
    SumZero(h.ledger.amounts, h.ledger.amounts.Keys);
  }

  /** Where one more permit, granted, sent and settled at time zero, leads. */
  ghost function Round(h: History, p: string, q: Quota): History
    requires p !in h.ledger.permits
  {
    Closed(Begun(Entered(h, p, "route", q, 0), p), p)
  }

  lemma RoundRuns(h: History, k: nat, q: Quota)
    requires Usable(q) && Sent(h, k) && k < q.rpmLimit
    ensures Name(k) !in h.ledger.permits
    ensures var p := Name(k);
            var h1 := After(h, Ask(p, q, 0.0));
            var h2 := After(h1, Go(p, 0.0));
            && Allowed(h, Ask(p, q, 0.0)) && Allowed(h1, Go(p, 0.0)) && Allowed(h2, Finish(p, 0.0))
            && After(h2, Finish(p, 0.0)) == Round(h, p, q)
  {
    hide Slide, Used, After, Allowed, Sent, Name;
    var p := Name(k);
    NameFree(h, k);
    SlideNothing(h, k);
    Grants(h, p, q, 0.0);
    assert Moved(h, h.ledger, 0.0) == h;
    var h1 := Entered(h, p, "route", q, 0);
    assert h1.ledger.active == map[p := 0.0 + q.ttl];
    Sends(h1, p, q, 0.0);
    Settles(Begun(h1, p), p, q, 0.0);
  }

  lemma OneMore<V>(m: map<string, V>, p: string, v: V)
    requires p !in m
    ensures m[p := v].Keys == m.Keys + {p} && |m[p := v]| == |m| + 1
  {
    assert |m[p := v].Keys| == |m[p := v]| && |m.Keys| == |m|;
  }

  lemma RoundFields(h: History, p: string, q: Quota)
    requires h.ledger.active == map[] && h.now == 0.0 && p !in h.ledger.permits
    ensures var later := Round(h, p, q);
            && later.ledger.active == map[] && later.now == 0.0
            && later.ledger.blocked == h.ledger.blocked && later.ledger.circuits == h.ledger.circuits
            && later.ledger.rpm == h.ledger.rpm[p := 0.0] && later.ledger.tpm == h.ledger.tpm[p := 0.0]
            && later.ledger.amounts == h.ledger.amounts[p := 0] && later.started == h.started[p := 0.0]
            && later.grants == h.grants[p := GrantOf(h, q, 0)]
            && later.ledger.permits.Keys == h.ledger.permits.Keys + {p}
  {
    hide GrantOf, Ceil;
  }

  lemma WindowGrows(h: History, k: nat, p: string, g: Grant)
    requires ZeroWindow(h.ledger.rpm, h.ledger.tpm, h.ledger.amounts, h.grants, k) && p !in h.grants
    ensures ZeroWindow(h.ledger.rpm[p := 0.0], h.ledger.tpm[p := 0.0], h.ledger.amounts[p := 0], h.grants[p := g],
                       k + 1)
  {
    OneMore(h.ledger.rpm, p, 0.0);
    OneMore(h.ledger.amounts, p, 0);
  }

  lemma GrantsGrow(grants: map<string, Grant>, started: map<string, real>, k: nat, p: string, g: Grant)
    requires ZeroGrants(grants, started, k) && p !in grants && g.at == 0.0
    ensures ZeroGrants(grants[p := g], started[p := 0.0], k + 1)
  {
    OneMore(grants, p, g);
  }

  lemma NamesStayFree(permits: map<string, Permit>, grants: map<string, Grant>, more: map<string, Permit>, k: nat,
                      g: Grant)
    requires NamesFree(permits, grants, k) && more.Keys == permits.Keys + {Name(k)}
    ensures NamesFree(more, grants[Name(k) := g], k + 1)
  {
    forall m: nat | k + 1 <= m ensures Name(m) !in more && Name(m) !in grants[Name(k) := g] {
      NamesDiffer(m, k);
    }
  }

  lemma RoundSent(h: History, k: nat, q: Quota)
    requires Sent(h, k) && Name(k) !in h.ledger.permits && Name(k) !in h.grants
    ensures Sent(Round(h, Name(k), q), k + 1)
  {
    hide ZeroWindow, ZeroGrants, NamesFree, Name, Round;
    var p, g := Name(k), GrantOf(h, q, 0);
    RoundFields(h, p, q);
    WindowGrows(h, k, p, g);
    GrantsGrow(h.grants, h.started, k, p, g);
    NamesStayFree(h.ledger.permits, h.grants, Round(h, p, q).ledger.permits, k, g);
  }

  lemma NameFree(h: History, k: nat)
    requires Sent(h, k)
    ensures Name(k) !in h.ledger.permits && Name(k) !in h.grants
  {
    hide ZeroWindow, ZeroGrants;
  }

  /** A history of the empty key under one configuration. */
  ghost predicate Recorded(calls: seq<Call>, q: Quota) {
    AllowedAll(EMPTY_HISTORY, calls) && Uniform(calls, q)
  }

  lemma Prolongs(calls: seq<Call>, q: Quota, c: Call)
    requires Recorded(calls, q) && Allowed(Replay(EMPTY_HISTORY, calls), c) && (c.op.AcquireOp? ==> c.op.quota == q)
    ensures Recorded(calls + [c], q)
    ensures Replay(EMPTY_HISTORY, calls + [c]) == After(Replay(EMPTY_HISTORY, calls), c)
  {
    hide Replay, AllowedAll, After, Allowed;
    AllowedSnoc(EMPTY_HISTORY, calls, c);
    ReplaySnoc(EMPTY_HISTORY, calls, c);
  }

  lemma {:induction false} Rounds(q: Quota, k: nat) returns (calls: seq<Call>)
    requires Usable(q) && k <= q.rpmLimit
    ensures Recorded(calls, q) && Sent(Replay(EMPTY_HISTORY, calls), k)
    decreases k
  {
    if k == 0 {
      calls := [];
      assert Sent(EMPTY_HISTORY, 0);
    } else {
      hide Sent, After, Allowed, Replay, Recorded, Round, Name;
      var before := Rounds(q, k - 1);
      var h, p := Replay(EMPTY_HISTORY, before), Name(k - 1);
      NameFree(h, k - 1);
      RoundRuns(h, k - 1, q);
      RoundSent(h, k - 1, q);
      Prolongs(before, q, Ask(p, q, 0.0));
      Prolongs(before + [Ask(p, q, 0.0)], q, Go(p, 0.0));
      Prolongs(before + [Ask(p, q, 0.0)] + [Go(p, 0.0)], q, Finish(p, 0.0));
      calls := before + [Ask(p, q, 0.0)] + [Go(p, 0.0)] + [Finish(p, 0.0)];
    }
  }

  lemma SlidesAway(h: History, k: nat)
    requires Sent(h, k)
    ensures var slid := Slide(h.ledger, 60.0);
            && slid.rpm == map[] && slid.active == map[] && Used(slid) == 0
            && slid.permits == h.ledger.permits
  {
    var slid := Slide(h.ledger, 60.0);
    assert slid.rpm == map[] && slid.amounts == map[];
    SumZero(slid.amounts, slid.amounts.Keys);
  }

  lemma LastFields(h: History, slid: Ledger, p: string, q: Quota)
    requires slid.active == map[] && p !in slid.permits
    ensures var h1 := Entered(Moved(h, slid, 60.0), p, "route", q, 0);
            && h1.now == 60.0 && h1.ledger.active == map[p := 60.0 + q.ttl] && p in h1.ledger.permits
            && h1.ledger.permits[p] == Permit(Acquired, Some("route"), 60.0 + (Ceil(q.ttl) + 60) as real)
            && Begun(h1, p).grants == h.grants[p := Grant(|h.grants|, 60.0, 0, 60.0 + q.ttl, q)]
            && Begun(h1, p).started == h.started[p := 60.0]
  {
    hide Ceil;
  }

  lemma OneTooMany(grants: map<string, Grant>, started: map<string, real>, k: nat, p: string, g: Grant)
    requires ZeroGrants(grants, started, k) && p !in grants && g.at == 60.0
    ensures var more, sent := grants[p := g], started[p := 60.0];
            sent.Keys == more.Keys && |more| == k + 1 && forall r :: r in more ==> 0.0 <= more[r].at <= 60.0
  {
    OneMore(grants, p, g);
  }

  /** A minute later the window is empty, and one more permit goes out. */
  lemma LastOne(h: History, k: nat, q: Quota)
    requires Usable(q) && Sent(h, k)
    ensures var p := Name(k);
            var h1 := After(h, Ask(p, q, 60.0));
            var later := After(h1, Go(p, 60.0));
            && Allowed(h, Ask(p, q, 60.0)) && Allowed(h1, Go(p, 60.0))
            && later.started.Keys == later.grants.Keys && |later.grants| == k + 1
            && forall r :: r in later.grants ==> 0.0 <= later.grants[r].at <= 60.0
  {
    hide ZeroWindow, ZeroGrants, NamesFree, Slide, Used, After, Allowed, Name, Enter, Begun, PermitTheorems.Entered,
         Ask, Go;
    var p, slid := Name(k), Slide(h.ledger, 60.0);
    NameFree(h, k);
    SlidesAway(h, k);
    LastFields(h, slid, p, q);
    Grants(h, p, q, 60.0);
    var h1 := PermitTheorems.Entered(Moved(h, slid, 60.0), p, "route", q, 0);
    Sends(h1, p, q, 60.0);
    OneTooMany(h.grants, h.started, k, p, Grant(|h.grants|, 60.0, 0, 60.0 + q.ttl, q));
  }

  /** At every rate, a minute closed at both ends, and so any longer window, can hold one permit too many. */
  lemma MinuteOverfull(q: Quota, d: real)
    requires Usable(q) && 60.0 <= d
    ensures !RateHolds(q, d)
  {
    hide Sent, After, Allowed, Replay, AllowedAll;
    var before := Rounds(q, q.rpmLimit);
    var h, p := Replay(EMPTY_HISTORY, before), Name(q.rpmLimit);
    LastOne(h, q.rpmLimit, q);
    Prolongs(before, q, Ask(p, q, 60.0));
    Prolongs(before + [Ask(p, q, 60.0)], q, Go(p, 60.0));
    var calls := before + [Ask(p, q, 60.0)] + [Go(p, 60.0)];
    var later := Replay(EMPTY_HISTORY, calls);
    assert SentWithin(later, 0.0, d) == later.grants.Keys;
    assert |later.grants.Keys| == |later.grants|;
    assert |SentWithin(later, 0.0, d)| > q.rpmLimit;
  }

  /** A window closed at both ends meets the rate under every history if and only if it is shorter than a minute. */
  lemma ClosedWindowExact(q: Quota, d: real)
    requires Usable(q) && 0.0 <= d
    ensures RateHolds(q, d) <==> d < 60.0
  {
    hide RateHolds;
    if d < 60.0 {
      ShorterHolds(q, d);
    } else {
      MinuteOverfull(q, d);
    }
  }
}
