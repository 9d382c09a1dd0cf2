/** The four-scope admission ledger: an incremental cache of how many Runs are held, queued and
    claimed, per global, caller, tenant and agent scope.
 */
module Admission {
  import opened Options
  import opened RunRecords

  datatype Scope = Global | CallerScope(key: string) | TenantScope(key: string) | AgentScope(key: string)

  datatype Bucket = Bucket(held: int, queued: int, running: int, version: int)

  datatype Limits = Limits(maxHeld: int, maxQueued: int, maxRunning: int)

  const DEFAULT_LIMITS: Limits := Limits(100, 500, 50)

  const EMPTY_BUCKET: Bucket := Bucket(0, 0, 0, 1)

  function ScopesOf(run: Run): seq<Scope> {
    [Global, CallerScope(run.caller), TenantScope(run.tenant), AgentScope(run.agent)]
  }

  function ScopeSet(run: Run): set<Scope> {
    {Global, CallerScope(run.caller), TenantScope(run.tenant), AgentScope(run.agent)}
  }

  predicate Counted(d: DispatchState) {
    d == Held || d == Queued || d == Claimed
  }

  function Count(b: Bucket, d: DispatchState): int
    requires Counted(d)
  {
    match d case Held => b.held case Queued => b.queued case Claimed => b.running
  }

  function WithCount(b: Bucket, d: DispatchState, n: int): Bucket
    requires Counted(d)
  {
    match d
    case Held => b.(held := n)
    case Queued => b.(queued := n)
    case Claimed => b.(running := n)
  }

  function Limit(limits: Limits, d: DispatchState): int
    requires Counted(d)
  {
    match d case Held => limits.maxHeld case Queued => limits.maxQueued case Claimed => limits.maxRunning
  }

  /** One slot leaves `from`; a counter never goes below zero. */
  function Leave(b: Bucket, from: DispatchState): Bucket {
    if Counted(from) then
      WithCount(b, from, if Count(b, from) - 1 > 0 then Count(b, from) - 1 else 0)
    else b
  }

  predicate Fits(b: Bucket, from: DispatchState, to: DispatchState, limits: Limits) {
    Counted(to) ==> Count(Leave(b, from), to) < Limit(limits, to)
  }

  function Shift(b: Bucket, from: DispatchState, to: DispatchState): Bucket {
    var left := Leave(b, from);
    var entered := if Counted(to) then WithCount(left, to, Count(left, to) + 1) else left;
    entered.(version := b.version + 1)
  }

  function Get(buckets: map<Scope, Bucket>, s: Scope): Bucket {
    if s in buckets then buckets[s] else EMPTY_BUCKET
  }

  /** The four-scope move as one step: refused whole if any scope is full. */
  function Transition(buckets: map<Scope, Bucket>, run: Run, from: DispatchState, to: DispatchState,
                      limits: Limits): Option<map<Scope, Bucket>>
  {
    var scopes := ScopeSet(run);
    if forall s | s in scopes :: Fits(Get(buckets, s), from, to, limits) then
      Some(map s | s in buckets.Keys + scopes ::
             if s in scopes then Shift(Get(buckets, s), from, to) else Get(buckets, s))
    else None
  }

  /** The same move made scope by scope, stopping at the first full one. */
  function MoveEach(buckets: map<Scope, Bucket>, scopes: seq<Scope>, from: DispatchState, to: DispatchState,
                    limits: Limits): Option<map<Scope, Bucket>>
  {
    if scopes == [] then Some(buckets)
    else
      match MoveEach(buckets, scopes[..|scopes| - 1], from, to, limits)
      case None => None
      case Some(moved) =>
        var s := scopes[|scopes| - 1];
        if Fits(Get(moved, s), from, to, limits) then Some(moved[s := Shift(Get(moved, s), from, to)])
        else None
  }

  lemma MoveNone(buckets: map<Scope, Bucket>, scopes: seq<Scope>, from: DispatchState, to: DispatchState,
                 limits: Limits)
    ensures MoveEach(buckets, scopes[..0], from, to, limits) == Some(buckets)
  {
  }

  lemma MoveOne(buckets: map<Scope, Bucket>, scopes: seq<Scope>, i: nat, from: DispatchState,
                to: DispatchState, limits: Limits)
    requires i < |scopes|
    ensures MoveEach(buckets, scopes[..i + 1], from, to, limits)
            == match MoveEach(buckets, scopes[..i], from, to, limits)
               case None => None
               case Some(moved) =>
                 if Fits(Get(moved, scopes[i]), from, to, limits)
                 then Some(moved[scopes[i] := Shift(Get(moved, scopes[i]), from, to)])
                 else None
  {
    assert scopes[..i + 1][..i] == scopes[..i];
  }

  lemma {:induction false} StopsAt(buckets: map<Scope, Bucket>, scopes: seq<Scope>, n: nat,
                                   from: DispatchState, to: DispatchState, limits: Limits)
    requires n <= |scopes| && MoveEach(buckets, scopes[..n], from, to, limits).None?
    ensures MoveEach(buckets, scopes, from, to, limits).None?
  {
    if n < |scopes| {
      assert scopes[..|scopes| - 1][..n] == scopes[..n];
      StopsAt(buckets, scopes[..|scopes| - 1], n, from, to, limits);
    } else {
      assert scopes[..n] == scopes;
    }
  }

  predicate Distinct(scopes: seq<Scope>) {
    forall i, j :: 0 <= i < j < |scopes| ==> scopes[i] != scopes[j]
  }

  lemma {:induction false} MoveEachResult(buckets: map<Scope, Bucket>, scopes: seq<Scope>,
                                          from: DispatchState, to: DispatchState, limits: Limits)
    requires Distinct(scopes)
    ensures var moved := MoveEach(buckets, scopes, from, to, limits);
            && (moved.Some? <==> forall i :: 0 <= i < |scopes| ==> Fits(Get(buckets, scopes[i]), from, to, limits))
            && (moved.Some? ==>
                  && (forall s :: s in moved.value <==> s in buckets || s in scopes)
                  && forall s :: s in moved.value ==>
                       moved.value[s] == if s in scopes then Shift(Get(buckets, s), from, to) else Get(buckets, s))
  {
    hide Fits, Shift;
    if scopes != [] {
      var front, s := scopes[..|scopes| - 1], scopes[|scopes| - 1];
      MoveEachResult(buckets, front, from, to, limits);
      assert forall t :: t in scopes <==> t in front || t == s;
      assert s !in front;
      if MoveEach(buckets, front, from, to, limits).Some? {
        assert Get(MoveEach(buckets, front, from, to, limits).value, s) == Get(buckets, s);
      }
    }
  }

  lemma ScopesListed(run: Run)
    ensures Distinct(ScopesOf(run))
    ensures forall s :: s in ScopesOf(run) <==> s in ScopeSet(run)
  {
    var scopes := ScopesOf(run);
    assert scopes[0] == Global && scopes[1] == CallerScope(run.caller);
    assert scopes[2] == TenantScope(run.tenant) && scopes[3] == AgentScope(run.agent);
  }

  /** Scope by scope or all at once, a move admits the same Runs and leaves the same ledger. */
  lemma MoveEachIsTransition(buckets: map<Scope, Bucket>, run: Run, from: DispatchState, to: DispatchState,
                             limits: Limits)
    ensures MoveEach(buckets, ScopesOf(run), from, to, limits) == Transition(buckets, run, from, to, limits)
  {
    hide Fits, Shift, Get, ScopesOf, ScopeSet, MoveEach;
    var scopes := ScopesOf(run);
    ScopesListed(run);
    MoveEachResult(buckets, scopes, from, to, limits);
    var one, all := MoveEach(buckets, scopes, from, to, limits), Transition(buckets, run, from, to, limits);
    forall s | s in ScopeSet(run) && one.Some?
      ensures Fits(Get(buckets, s), from, to, limits)
    {
      var i :| 0 <= i < |scopes| && scopes[i] == s;
    }
    if all.Some? {
      forall i | 0 <= i < |scopes|
        ensures Fits(Get(buckets, scopes[i]), from, to, limits)
      {
        assert scopes[i] in ScopeSet(run);
      }
      assert one.value == all.value;
    }
  }

  lemma SameScopesMove(buckets: map<Scope, Bucket>, a: Run, b: Run, from: DispatchState, to: DispatchState,
                       limits: Limits)
    requires a.caller == b.caller && a.tenant == b.tenant && a.agent == b.agent
    ensures Transition(buckets, a, from, to, limits) == Transition(buckets, b, from, to, limits)
  {
    hide Fits, Shift, Get;
    assert ScopeSet(a) == ScopeSet(b);
  }

  lemma TransitionAt(buckets: map<Scope, Bucket>, run: Run, from: DispatchState, to: DispatchState,
                     limits: Limits, s: Scope)
    requires Transition(buckets, run, from, to, limits).Some?
    ensures var moved := Transition(buckets, run, from, to, limits).value;
            if s in ScopeSet(run) then
              Fits(Get(buckets, s), from, to, limits) && Get(moved, s) == Shift(Get(buckets, s), from, to)
            else Get(moved, s) == Get(buckets, s)
  {
  }

  // ----- The recount -----

  /** The runs of scope `s` in dispatch state `d`: what the reconciler counts afresh. */
  function Members(records: map<string, Record>, s: Scope, d: DispatchState): set<string> {
    set id | id in records && records[id].run.dispatch == d && s in ScopeSet(records[id].run)
  }

  ghost predicate BucketAgrees(records: map<string, Record>, buckets: map<Scope, Bucket>, s: Scope) {
    && Get(buckets, s).held == |Members(records, s, Held)|
    && Get(buckets, s).queued == |Members(records, s, Queued)|
    && Get(buckets, s).running == |Members(records, s, Claimed)|
  }

  ghost predicate CountsAgree(records: map<string, Record>, buckets: map<Scope, Bucket>) {
    forall s :: BucketAgrees(records, buckets, s)
  }

  /** The caps a counter can meet: only the API admits to held and only a claim to running, but a
      queued slot is admitted under the API's limits by some callers and the defaults by others.
   */
  predicate Capped(b: Bucket, api: Limits) {
    && 0 <= b.held && 0 <= b.queued && 0 <= b.running
    && (b.held == 0 || b.held <= api.maxHeld)
    && (b.queued == 0 || b.queued <= api.maxQueued || b.queued <= DEFAULT_LIMITS.maxQueued)
    && (b.running == 0 || b.running <= DEFAULT_LIMITS.maxRunning)
  }

  ghost predicate CapsHold(buckets: map<Scope, Bucket>, api: Limits) {
    forall s :: Capped(Get(buckets, s), api)
  }

  function DispatchOf(records: map<string, Record>, id: string): DispatchState {
    if id in records then records[id].run.dispatch else Unborn
  }

  /** `rec` may replace whatever `id` holds without changing the scopes it is counted under. */
  predicate SameScopes(records: map<string, Record>, id: string, rec: Record) {
    id in records ==> ScopeSet(records[id].run) == ScopeSet(rec.run)
  }

  lemma SwapOne<T>(before: set<T>, after: set<T>, x: T)
    requires before - {x} == after - {x}
    ensures |after| == |before| - (if x in before then 1 else 0) + (if x in after then 1 else 0)
    ensures x in before ==> |before| >= 1
  {
    var rest := before - {x};
    assert before == if x in before then rest + {x} else rest;
    assert after == if x in after then rest + {x} else rest;
  }

  lemma MembersUpdate(records: map<string, Record>, id: string, rec: Record, s: Scope, d: DispatchState)
    requires Counted(d)
    requires SameScopes(records, id, rec)
    ensures var before, after := |Members(records, s, d)|, |Members(records[id := rec], s, d)|;
            if s in ScopeSet(rec.run) then
              after == before - (if DispatchOf(records, id) == d then 1 else 0)
                              + (if rec.run.dispatch == d then 1 else 0)
            else after == before
    ensures s in ScopeSet(rec.run) && DispatchOf(records, id) == d ==> |Members(records, s, d)| >= 1
  {
    var before, after := Members(records, s, d), Members(records[id := rec], s, d);
    forall other
      ensures other in before - {id} <==> other in after - {id}
    {
    }
    SwapOne(before, after, id);
  }

  /** The incremental move and the recount stay equal, whatever the move. */
  lemma TransitionKeepsCounts(records: map<string, Record>, buckets: map<Scope, Bucket>, id: string,
                              rec: Record, from: DispatchState, limits: Limits)
    requires CountsAgree(records, buckets)
    requires SameScopes(records, id, rec)
    requires from == DispatchOf(records, id)
    requires Transition(buckets, rec.run, from, rec.run.dispatch, limits).Some?
    ensures CountsAgree(records[id := rec],
                        Transition(buckets, rec.run, from, rec.run.dispatch, limits).value)
  {
    var moved := Transition(buckets, rec.run, from, rec.run.dispatch, limits).value;
    var updated := records[id := rec];
    forall s
      ensures BucketAgrees(updated, moved, s)
    {
      assert BucketAgrees(records, buckets, s);
      MembersUpdate(records, id, rec, s, Held);
      MembersUpdate(records, id, rec, s, Queued);
      MembersUpdate(records, id, rec, s, Claimed);
      TransitionAt(buckets, rec.run, from, rec.run.dispatch, limits, s);
    }
  }

  /** While the ledger agrees with the recount, the clamp at zero never bites. */
  lemma ClampNeverFires(records: map<string, Record>, buckets: map<Scope, Bucket>, id: string, s: Scope)
    requires CountsAgree(records, buckets)
    requires id in records && s in ScopeSet(records[id].run)
    requires Counted(records[id].run.dispatch)
    ensures Count(Get(buckets, s), records[id].run.dispatch) >= 1
  {
    assert BucketAgrees(records, buckets, s);
    MembersUpdate(records, id, records[id], s, records[id].run.dispatch);
  }

  /** A record update that keeps the dispatch state keeps every count. */
  lemma UpdateKeepsCounts(records: map<string, Record>, buckets: map<Scope, Bucket>, id: string, rec: Record)
    requires CountsAgree(records, buckets)
    requires id in records && SameScopes(records, id, rec)
    requires rec.run.dispatch == records[id].run.dispatch
    ensures CountsAgree(records[id := rec], buckets)
  {
    var updated := records[id := rec];
    forall s
      ensures BucketAgrees(updated, buckets, s)
    {
      assert BucketAgrees(records, buckets, s);
      MembersUpdate(records, id, rec, s, Held);
      MembersUpdate(records, id, rec, s, Queued);
      MembersUpdate(records, id, rec, s, Claimed);
    }
  }

  /** Which limits may admit to which state, as the services pass them. */
  predicate LimitsApply(to: DispatchState, limits: Limits, api: Limits) {
    match to
    case Held => limits == api
    case Queued => limits == api || limits == DEFAULT_LIMITS
    case Claimed => limits == DEFAULT_LIMITS
    case _ => true
  }

  lemma ShiftKeepsCap(b: Bucket, from: DispatchState, to: DispatchState, api: Limits, limits: Limits)
    requires Capped(b, api)
    requires LimitsApply(to, limits, api)
    requires Fits(b, from, to, limits)
    ensures Capped(Shift(b, from, to), api)
  {
    assert Capped(Leave(b, from), api);
  }

  lemma TransitionKeepsCaps(buckets: map<Scope, Bucket>, run: Run, from: DispatchState, to: DispatchState,
                            api: Limits, limits: Limits)
    requires CapsHold(buckets, api)
    requires LimitsApply(to, limits, api)
    requires Transition(buckets, run, from, to, limits).Some?
    ensures CapsHold(Transition(buckets, run, from, to, limits).value, api)
  {
    var moved := Transition(buckets, run, from, to, limits).value;
    forall s
      ensures Capped(Get(moved, s), api)
    {
      TransitionAt(buckets, run, from, to, limits, s);
      assert Capped(Get(buckets, s), api);
      if s in ScopeSet(run) {
        ShiftKeepsCap(Get(buckets, s), from, to, api, limits);
      }
    }
  }
}
