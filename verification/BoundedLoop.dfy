/** The bounded loop: inherited budget, keyed de-duplication of what iterations append, and the verdict. */
module BoundedLoop {
  import opened Options

  // ----- Keyed de-duplication -----

  /** A produced scene; `key` is missing when it has no string scene id. */
  datatype Scene = Scene(key: Option<string>, content: string)

  /** One pass with the keys seen so far. */
  function Merge(scenes: seq<Scene>, seen: set<string>): seq<Scene> {
    if scenes == [] then []
    else if scenes[0].key.Some? && scenes[0].key.value in seen then Merge(scenes[1..], seen)
    else [scenes[0]] + Merge(scenes[1..], if scenes[0].key.Some? then seen + {scenes[0].key.value} else seen)
  }

  function Merged(scenes: seq<Scene>): seq<Scene> {
    Merge(scenes, {})
  }

  function KeysOf(scenes: seq<Scene>): set<string> {
    set s | s in scenes && s.key.Some? :: s.key.value
  }

  /** The scene at `i` is kept: it has no key, or no earlier scene has its key. */
  predicate FirstOfItsKey(scenes: seq<Scene>, i: nat)
    requires i < |scenes|
  {
    scenes[i].key.None? || forall j :: 0 <= j < i ==> scenes[j].key != scenes[i].key
  }

  /** The reference: the subsequence of first occurrences, said without any running set. */
  function Firsts(scenes: seq<Scene>): seq<Scene> {
    if scenes == [] then []
    else
      var last := |scenes| - 1;
      Firsts(scenes[..last]) + (if FirstOfItsKey(scenes, last) then [scenes[last]] else [])
  }

  lemma KeysAppend(a: seq<Scene>, b: seq<Scene>)
    ensures KeysOf(a + b) == KeysOf(a) + KeysOf(b)
  {
    forall k | k in KeysOf(a) + KeysOf(b) ensures k in KeysOf(a + b) {
      var s :| (s in a || s in b) && s.key == Some(k);
      assert s in a + b;
    }
  }

  /** Merging goes on over the second part with the keys of the first. */
  lemma {:induction false} MergeAppend(a: seq<Scene>, b: seq<Scene>, seen: set<string>)
    ensures Merge(a + b, seen) == Merge(a, seen) + Merge(b, seen + KeysOf(a))
    decreases |a|
  {
    if a == [] {
      assert a + b == b && seen + KeysOf(a) == seen;
    } else {
      assert (a + b)[1..] == a[1..] + b;
      assert a == [a[0]] + a[1..];
      KeysAppend([a[0]], a[1..]);
      var next := if a[0].key.Some? then seen + {a[0].key.value} else seen;
      assert KeysOf([a[0]]) == if a[0].key.Some? then {a[0].key.value} else {};
      assert next + KeysOf(a[1..]) == seen + KeysOf(a);
      if a[0].key.Some? && a[0].key.value in seen {
        assert next == seen;
      }
      MergeAppend(a[1..], b, next);
    }
  }

  lemma {:induction false} MergeKeys(scenes: seq<Scene>, seen: set<string>)
    ensures KeysOf(Merge(scenes, seen)) == KeysOf(scenes) - seen
    decreases |scenes|
  {
    if scenes != [] {
      var first, rest := scenes[0], scenes[1..];
      assert scenes == [first] + rest;
      KeysAppend([first], rest);
      assert KeysOf([first]) == if first.key.Some? then {first.key.value} else {};
      if first.key.Some? && first.key.value in seen {
        MergeKeys(rest, seen);
      } else {
        var next := if first.key.Some? then seen + {first.key.value} else seen;
        MergeKeys(rest, next);
        KeysAppend([first], Merge(rest, next));
      }
    }
  }

  lemma {:induction false} MergeStable(scenes: seq<Scene>, seen: set<string>)
    ensures Merge(Merge(scenes, seen), seen) == Merge(scenes, seen)
    decreases |scenes|
  {
    if scenes != [] {
      if scenes[0].key.Some? && scenes[0].key.value in seen {
        MergeStable(scenes[1..], seen);
      } else {
        var next := if scenes[0].key.Some? then seen + {scenes[0].key.value} else seen;
        MergeStable(scenes[1..], next);
        assert Merge(scenes, seen)[1..] == Merge(scenes[1..], next);
      }
    }
  }

  /** Merging after an append forgets nothing: it is merging once at the end. */
  lemma MergeIncremental(a: seq<Scene>, b: seq<Scene>)
    ensures Merged(Merged(a) + b) == Merged(a + b)
  {
    MergeAppend(Merged(a), b, {});
    MergeAppend(a, b, {});
    MergeKeys(a, {});
    assert KeysOf(Merged(a)) == KeysOf(a);
    MergeStable(a, {});
  }

  function Flatten(batches: seq<seq<Scene>>): seq<Scene> {
    if batches == [] then [] else Flatten(batches[..|batches| - 1]) + batches[|batches| - 1]
  }

  /** Append a batch, merge, append the next, merge. */
  function MergedEach(start: seq<Scene>, batches: seq<seq<Scene>>): seq<Scene> {
    if batches == [] then Merged(start)
    else Merged(MergedEach(start, batches[..|batches| - 1]) + batches[|batches| - 1])
  }

  lemma {:induction false} IncrementalIsBatch(start: seq<Scene>, batches: seq<seq<Scene>>)
    ensures MergedEach(start, batches) == Merged(start + Flatten(batches))
    decreases |batches|
  {
    hide Merge;
    if batches == [] {
      assert start + Flatten(batches) == start;
    } else {
      var earlier, last := batches[..|batches| - 1], batches[|batches| - 1];
      IncrementalIsBatch(start, earlier);
      MergeIncremental(start + Flatten(earlier), last);
      assert start + Flatten(batches) == start + Flatten(earlier) + last;
    }
  }

  lemma MergeOne(s: Scene, seen: set<string>)
    ensures Merge([s], seen) == if s.key.Some? && s.key.value in seen then [] else [s]
  {
    assert [s][1..] == [];
  }

  lemma FirstExactly(scenes: seq<Scene>)
    requires scenes != []
    ensures var last := |scenes| - 1;
            FirstOfItsKey(scenes, last)
            <==> scenes[last].key.None? || scenes[last].key.value !in KeysOf(scenes[..last])
  {
    var last := |scenes| - 1;
    var earlier := scenes[..last];
    if scenes[last].key.Some? && scenes[last].key.value in KeysOf(earlier) {
      var s :| s in earlier && s.key == scenes[last].key;
      var j :| 0 <= j < last && earlier[j] == s;
      assert scenes[j].key == scenes[last].key;
    } else if scenes[last].key.Some? {
      forall j | 0 <= j < last ensures scenes[j].key != scenes[last].key {
        assert scenes[j] in earlier;
      }
    }
  }

  /** The merge is exactly the first-occurrence subsequence. */
  lemma {:induction false} MergedIsFirsts(scenes: seq<Scene>)
    ensures Merged(scenes) == Firsts(scenes)
    decreases |scenes|
  {
    hide Merge, FirstOfItsKey, KeysOf;
    if scenes != [] {
      var last := |scenes| - 1;
      var earlier := scenes[..last];
      assert scenes == earlier + [scenes[last]];
      MergeAppend(earlier, [scenes[last]], {});
      MergeOne(scenes[last], {} + KeysOf(earlier));
      MergedIsFirsts(earlier);
      FirstExactly(scenes);
      assert {} + KeysOf(earlier) == KeysOf(earlier);
    } else {
      assert Merged([]) == [] by { MergesNothing(); }
    }
  }

  lemma MergesNothing()
    ensures Merged([]) == []
  {
  }

  ghost predicate DistinctKeys(scenes: seq<Scene>) {
    forall i, j :: 0 <= i < j < |scenes| && scenes[i].key.Some? ==> scenes[i].key != scenes[j].key
  }

  lemma {:induction false} MergeDistinct(scenes: seq<Scene>, seen: set<string>)
    ensures DistinctKeys(Merge(scenes, seen))
    decreases |scenes|
  {
    if scenes != [] {
      if scenes[0].key.Some? && scenes[0].key.value in seen {
        MergeDistinct(scenes[1..], seen);
      } else {
        var next := if scenes[0].key.Some? then seen + {scenes[0].key.value} else seen;
        var rest := Merge(scenes[1..], next);
        MergeDistinct(scenes[1..], next);
        MergeKeys(scenes[1..], next);
        forall j | 0 <= j < |rest| && scenes[0].key.Some? ensures scenes[0].key != rest[j].key {
          if rest[j].key.Some? {
            assert rest[j] in rest && rest[j].key.value in KeysOf(rest);
          }
        }
      }
    }
  }

  function Unkeyed(scenes: seq<Scene>): seq<Scene> {
    if scenes == [] then []
    else (if scenes[0].key.None? then [scenes[0]] else []) + Unkeyed(scenes[1..])
  }

  lemma UnkeyedCons(first: Scene, rest: seq<Scene>)
    ensures Unkeyed([first] + rest) == (if first.key.None? then [first] else []) + Unkeyed(rest)
  {
    assert ([first] + rest)[1..] == rest;
  }

  lemma {:induction false} MergeKeepsUnkeyed(scenes: seq<Scene>, seen: set<string>)
    ensures Unkeyed(Merge(scenes, seen)) == Unkeyed(scenes)
    decreases |scenes|
  {
    if scenes != [] {
      var first, rest := scenes[0], scenes[1..];
      assert scenes == [first] + rest;
      UnkeyedCons(first, rest);
      if first.key.Some? && first.key.value in seen {
        MergeKeepsUnkeyed(rest, seen);
      } else {
        var next := if first.key.Some? then seen + {first.key.value} else seen;
        assert Merge(scenes, seen) == [first] + Merge(rest, next);
        hide Unkeyed, Merge;
        UnkeyedCons(first, Merge(rest, next));
        MergeKeepsUnkeyed(rest, next);
      }
    }
  }

  // ----- Budget -----

  datatype Limits = Limits(maxCalls: Option<int>, maxTokens: Option<int>, maxCost: Option<real>,
                           maxSeconds: Option<int>)

  datatype Used = Used(calls: nat, tokens: nat, cost: real, activeMs: int)

  datatype Remaining = Remaining(calls: int, tokens: int, cost: real, ms: int)

  predicate LimitsValid(l: Limits) {
    && l.maxCalls.Some? && l.maxCalls.value > 0 && l.maxTokens.Some? && l.maxTokens.value > 0
    && l.maxCost.Some? && l.maxCost.value > 0.0 && l.maxSeconds.Some? && l.maxSeconds.value > 0
  }

  function Left(l: Limits, used: Used): Remaining
    requires LimitsValid(l)
  {
    Remaining(l.maxCalls.value - used.calls, l.maxTokens.value - used.tokens, l.maxCost.value - used.cost,
              l.maxSeconds.value * 1000 - used.activeMs)
  }

  predicate Exhausted(r: Remaining) {
    r.calls <= 0 || r.tokens <= 0 || r.cost <= 0.0 || r.ms <= 0
  }

  /** All four limits are set and positive, and what was used stays below each. */
  predicate Affords(l: Limits, used: Used) {
    && l.maxCalls.Some? && 0 < l.maxCalls.value && used.calls < l.maxCalls.value
    && l.maxTokens.Some? && 0 < l.maxTokens.value && used.tokens < l.maxTokens.value
    && l.maxCost.Some? && 0.0 < l.maxCost.value && used.cost < l.maxCost.value
    && l.maxSeconds.Some? && 0 < l.maxSeconds.value && used.activeMs < 1000 * l.maxSeconds.value
  }

  lemma AffordsExact(l: Limits, used: Used)
    ensures Affords(l, used) <==> LimitsValid(l) && !Exhausted(Left(l, used))
  {
  }

  // ----- Iterations -----

  datatype LoopOutcome = ContinueLoop | CompleteLoop | PartialLoop | FailedLoop

  /** What one call of the loop body does: it appends `batch`, then raises or reports. */
  datatype Iteration =
    | Raised(batch: seq<Scene>)
    | Reported(batch: seq<Scene>, outcome: LoopOutcome, modelCalls: int, outputs: int, coverage: int)

  datatype Stop = LoopCancelled | LoopLeaseLost | LoopDraining | LoopContractViolated | LoopBodyFailed
    | LoopPolicyInvalid | LoopBudgetRefused | LoopUnsupported | LoopBudgetExhausted

  /** One turn of the loop: the safety check's answer, the usage read, and the body's doing if it is called. */
  datatype LoopTurn = LoopTurn(safety: Option<Stop>, used: Used, iteration: Iteration)

  /** Everything the first `n` calls of the body appended. */
  function Appended(env: nat -> LoopTurn, n: nat): seq<Scene> {
    if n == 0 then [] else Appended(env, n - 1) + env(n - 1).iteration.batch
  }

  class AgentState {
    var scenes: seq<Scene>

    constructor (scenes: seq<Scene>)
      ensures this.scenes == scenes
    {
      this.scenes := scenes;
    }

    method MergeUniqueScenes() returns (removed: nat)
      modifies this
      ensures scenes == Merged(old(scenes)) && removed == |old(scenes)| - |scenes|
    {
      var seen: set<string> := {};
      var merged: seq<Scene> := [];
      for i := 0 to |scenes|
        invariant scenes == old(scenes)
        invariant merged + Merge(scenes[i..], seen) == Merged(scenes)
        invariant |merged| <= i
      {
        var scene := scenes[i];
        assert scenes[i..][1..] == scenes[i + 1..];
        if scene.key.Some? {
          if scene.key.value in seen {
            continue;
          }
          seen := seen + {scene.key.value};
        }
        merged := merged + [scene];
      }
      removed := |scenes| - |merged|;
      SameLength(scenes, {});
      if removed != 0 {
        scenes := merged;
      }
    }
  }

  lemma {:induction false} SameLength(scenes: seq<Scene>, seen: set<string>)
    ensures |Merge(scenes, seen)| <= |scenes|
    ensures |Merge(scenes, seen)| == |scenes| ==> Merge(scenes, seen) == scenes
    decreases |scenes|
  {
    if scenes != [] {
      SameLength(scenes[1..], seen);
      SameLength(scenes[1..], if scenes[0].key.Some? then seen + {scenes[0].key.value} else seen);
    }
  }

  // ----- What the list is after each body call -----

  /** A report that breaks the contract or declares the body failed ends the loop before anything is merged. */
  predicate Keeps(i: Iteration) {
    i.Reported? ==> i.modelCalls <= 1 && i.outcome != FailedLoop
  }

  predicate Merges(i: Iteration) {
    i.Reported? && Keeps(i)
  }

  /** The scenes after `n` body calls: each appends its batch, and only one that reports has the list merged. */
  function Listed(start: seq<Scene>, env: nat -> LoopTurn, n: nat): seq<Scene> {
    if n == 0 then start
    else
      var appended := Listed(start, env, n - 1) + env(n - 1).iteration.batch;
      if Merges(env(n - 1).iteration) then Merged(appended) else appended
  }

  /** How many of the first `n` body calls there were up to the last merge. */
  function LastMerge(env: nat -> LoopTurn, n: nat): (m: nat)
    ensures m <= n
  {
    if n == 0 then 0 else if Merges(env(n - 1).iteration) then n else LastMerge(env, n - 1)
  }

  /** What body calls `m` up to `n` appended. */
  function Since(env: nat -> LoopTurn, m: nat, n: nat): seq<Scene>
    requires m <= n
  {
    if n == m then [] else Since(env, m, n - 1) + env(n - 1).iteration.batch
  }

  lemma MergedTwice(scenes: seq<Scene>)
    ensures Merged(Merged(scenes)) == Merged(scenes)
  {
    MergeStable(scenes, {});
  }

  /** Merged or not, the list always has the merge of everything appended. */
  lemma {:induction false} ListedMerges(start: seq<Scene>, env: nat -> LoopTurn, n: nat)
    ensures Merged(Listed(start, env, n)) == Merged(start + Appended(env, n))
    ensures n > 0 && Merges(env(n - 1).iteration) ==> Listed(start, env, n) == Merged(start + Appended(env, n))
    decreases n
  {
    hide Merged;
    if n == 0 {
      assert start + Appended(env, 0) == start;
    } else {
      var batch := env(n - 1).iteration.batch;
      ListedMerges(start, env, n - 1);
      MergeIncremental(Listed(start, env, n - 1), batch);
      MergeIncremental(start + Appended(env, n - 1), batch);
      assert start + Appended(env, n) == start + Appended(env, n - 1) + batch;
      MergedTwice(Listed(start, env, n - 1) + batch);
    }
  }

  /** The list is the merge up to the last report followed by the raw batches since. */
  lemma {:induction false} ListedExact(start: seq<Scene>, env: nat -> LoopTurn, n: nat)
    ensures var m := LastMerge(env, n);
            Listed(start, env, n) == (if m == 0 then start else Merged(start + Appended(env, m))) + Since(env, m, n)
    decreases n
  {
    hide Merged;
    if n > 0 {
      if Merges(env(n - 1).iteration) {
        ListedMerges(start, env, n);
      } else {
        ListedExact(start, env, n - 1);
      }
    }
  }

  lemma KeyPresent(scenes: seq<Scene>, k: string)
    ensures k in KeysOf(scenes) <==> exists i :: 0 <= i < |scenes| && scenes[i].key == Some(k)
  {
  }

  lemma DistinctAppend(a: seq<Scene>, b: seq<Scene>)
    ensures DistinctKeys(a + b) <==> DistinctKeys(a) && DistinctKeys(b) && KeysOf(a) !! KeysOf(b)
  {
    var all := a + b;
    assert forall i :: 0 <= i < |a| ==> all[i] == a[i];
    assert forall j :: 0 <= j < |b| ==> all[|a| + j] == b[j];
    if DistinctKeys(all) {
      forall k | k in KeysOf(a) ensures k !in KeysOf(b) {
        KeyPresent(a, k);
        KeyPresent(b, k);
        var i :| 0 <= i < |a| && a[i].key == Some(k);
        forall j | 0 <= j < |b| ensures b[j].key != Some(k) {
          assert all[i].key != all[|a| + j].key;
        }
      }
    }
    if DistinctKeys(a) && DistinctKeys(b) && KeysOf(a) !! KeysOf(b) {
      forall i, j | 0 <= i < j < |all| && all[i].key.Some? ensures all[i].key != all[j].key {
        KeyPresent(a, all[i].key.value);
        KeyPresent(b, all[i].key.value);
        assert j >= |a| ==> all[j] == b[j - |a|];
        assert i >= |a| ==> all[i] == b[i - |a|];
      }
    }
  }

  /** The list's keys are distinct if and only if what raising calls appended since the last merge brings no key twice
      and none that was there; without any merge the list they were appended to must be so too. */
  lemma ListedDistinct(start: seq<Scene>, env: nat -> LoopTurn, n: nat)
    ensures var m := LastMerge(env, n);
            DistinctKeys(Listed(start, env, n))
            <==> && (m == 0 ==> DistinctKeys(start))
                 && DistinctKeys(Since(env, m, n)) && KeysOf(start + Appended(env, m)) !! KeysOf(Since(env, m, n))
  {
    var m := LastMerge(env, n);
    var all := start + Appended(env, m);
    ListedExact(start, env, n);
    MergeDistinct(all, {});
    MergeKeys(all, {});
    assert m == 0 ==> all == start;
    hide DistinctKeys, KeysOf, Since, Appended, Listed, LastMerge;
    DistinctAppend(if m == 0 then start else Merged(all), Since(env, m, n));
  }

  // ----- Where the iterations end -----

  datatype LoopExit = ExitEarly(stop: Stop) | ExitExhausted | ExitDeclared(outcome: LoopOutcome)

  /** How the iterations end from the turn after `n` body calls on, and how many body calls there are by then. */
  function ExitFrom(limits: Limits, maxIterations: nat, env: nat -> LoopTurn, n: nat): (LoopExit, nat)
    requires LimitsValid(limits) && n <= maxIterations
    decreases maxIterations - n
  {
    if env(n).safety.Some? then (ExitEarly(env(n).safety.value), n)
    else if Exhausted(Left(limits, env(n).used)) || n >= maxIterations then (ExitExhausted, n)
    else
      match env(n).iteration
      case Raised(_) => ExitFrom(limits, maxIterations, env, n + 1)
      case Reported(_, outcome, modelCalls, _, _) =>
        if modelCalls > 1 then (ExitEarly(LoopContractViolated), n + 1)
        else if outcome == FailedLoop then (ExitEarly(LoopBodyFailed), n + 1)
        else if outcome == ContinueLoop then ExitFrom(limits, maxIterations, env, n + 1)
        else (ExitDeclared(outcome), n + 1)
  }

  /** What the closing summary counts over the first `n` body calls: those that raised, and what kept reports claim. */
  function Summary(env: nat -> LoopTurn, n: nat): (nat, int, int) {
    if n == 0 then (0, 0, 0)
    else
      var (errors, outputs, coverage) := Summary(env, n - 1);
      match env(n - 1).iteration
      case Raised(_) => (errors + 1, outputs, coverage)
      case Reported(_, _, _, o, c) =>
        if Keeps(env(n - 1).iteration) then (errors, outputs + o, coverage + c) else (errors, outputs, coverage)
  }

  lemma {:induction false} NoErrors(env: nat -> LoopTurn, n: nat)
    ensures Summary(env, n).0 == 0 <==> NoneRaised(env, n)
    decreases n
  {
    if n > 0 {
      NoErrors(env, n - 1);
    }
  }

  /** None of the first `n` body calls raised. */
  predicate NoneRaised(env: nat -> LoopTurn, n: nat) {
    forall k :: 0 <= k < n ==> env(k).iteration.Reported?
  }

  /** A turn that calls the body: its safety check passes and there is budget left. */
  predicate Calls(limits: Limits, turn: LoopTurn) {
    turn.safety.None? && Affords(limits, turn.used)
  }

  predicate GoesOn(i: Iteration) {
    i.Raised? || (i.modelCalls <= 1 && i.outcome == ContinueLoop)
  }

  /** The loop ends before another call: the safety check says so, or the calls or the budget are spent. */
  predicate EndsBefore(limits: Limits, maxIterations: nat, env: nat -> LoopTurn, n: nat, exit: LoopExit) {
    match exit
    case ExitEarly(stop) => env(n).safety == Some(stop)
    case ExitExhausted => env(n).safety.None? && (n == maxIterations || !Affords(limits, env(n).used))
    case ExitDeclared(_) => false
  }

  /** The loop ends with the report of a call: broken, failed, or declared complete or partial. */
  predicate EndsBy(i: Iteration, exit: LoopExit) {
    && i.Reported?
    && match exit
       case ExitEarly(stop) =>
         if i.modelCalls > 1 then stop == LoopContractViolated else i.outcome == FailedLoop && stop == LoopBodyFailed
       case ExitExhausted => false
       case ExitDeclared(outcome) =>
         i.modelCalls <= 1 && i.outcome == outcome && (outcome == CompleteLoop || outcome == PartialLoop)
  }

  /** The body is called at most as often as allowed, each time after a passed check and with budget left, and as long
      as its calls go on; the loop ends before the next call, or by the report of the last. */
  lemma {:induction false} ExitExact(limits: Limits, maxIterations: nat, env: nat -> LoopTurn, n: nat)
    requires LimitsValid(limits) && n <= maxIterations
    ensures var (exit, calls) := ExitFrom(limits, maxIterations, env, n);
            && n <= calls <= maxIterations
            && (forall k :: n <= k < calls ==> Calls(limits, env(k)))
            && (forall k :: n <= k < calls - 1 ==> GoesOn(env(k).iteration))
            && if calls > n && !GoesOn(env(calls - 1).iteration) then EndsBy(env(calls - 1).iteration, exit)
               else EndsBefore(limits, maxIterations, env, calls, exit)
    decreases maxIterations - n
  {
    AffordsExact(limits, env(n).used);
    if Calls(limits, env(n)) && n < maxIterations && GoesOn(env(n).iteration) {
      ExitExact(limits, maxIterations, env, n + 1);
    }
  }

  /** The iterations: a safety check, a fresh look at the budget, at most one body call, a merge.
      Turn `k` is the one before which the body was called `k` times. */
  method RunLoopIterations(state: AgentState, limits: Limits, maxIterations: nat, env: nat -> LoopTurn)
    returns (exit: LoopExit, calls: nat, errors: nat, outputs: int, coverage: int)
    requires LimitsValid(limits)
    modifies state
    ensures (exit, calls) == ExitFrom(limits, maxIterations, env, 0) && calls <= maxIterations
    ensures state.scenes == Listed(old(state.scenes), env, calls)
    ensures (errors, outputs, coverage) == Summary(env, calls)
  {
    hide Merged, Left, Exhausted, LimitsValid, Keeps;
    calls, errors, outputs, coverage := 0, 0, 0, 0;
    while true
      invariant calls <= maxIterations
      invariant ExitFrom(limits, maxIterations, env, calls) == ExitFrom(limits, maxIterations, env, 0)
      invariant state.scenes == Listed(old(state.scenes), env, calls)
      invariant (errors, outputs, coverage) == Summary(env, calls)
      decreases maxIterations - calls
    {
      var turn := env(calls);
      if turn.safety.Some? {
        return ExitEarly(turn.safety.value), calls, errors, outputs, coverage;
      }
      if Exhausted(Left(limits, turn.used)) || calls >= maxIterations {
        return ExitExhausted, calls, errors, outputs, coverage;
      }
      KeepsWhat(turn.iteration);
      state.scenes := state.scenes + turn.iteration.batch;
      calls := calls + 1;
      if turn.iteration.Raised? {
        errors := errors + 1;
        continue;
      }
      var result := turn.iteration;
      if result.modelCalls > 1 {
        return ExitEarly(LoopContractViolated), calls, errors, outputs, coverage;
      }
      if result.outcome == FailedLoop {
        return ExitEarly(LoopBodyFailed), calls, errors, outputs, coverage;
      }
      outputs, coverage := outputs + result.outputs, coverage + result.coverage;
      var _ := state.MergeUniqueScenes();
      if result.outcome != ContinueLoop {
        return ExitDeclared(result.outcome), calls, errors, outputs, coverage;
      }
    }
  }

  lemma KeepsWhat(i: Iteration)
    ensures Keeps(i) <==> (i.Reported? ==> i.modelCalls <= 1 && i.outcome != FailedLoop)
  {
  }

  /** Duplicates can stay: a report, then a raise with the same key, then no more calls. */
  lemma DuplicateStays(s: Scene)
    requires s.key.Some?
    ensures var limits := Limits(Some(2), Some(1), Some(1.0), Some(1));
            var env := (k: nat) => LoopTurn(None, Used(0, 0, 0.0, 0),
                                            if k == 0 then Reported([s], ContinueLoop, 1, 1, 1) else Raised([s]));
            && LimitsValid(limits) && ExitFrom(limits, 2, env, 0) == (ExitExhausted, 2)
            && Listed([], env, 2) == [s, s] && !DistinctKeys(Listed([], env, 2))
  {
    var limits := Limits(Some(2), Some(1), Some(1.0), Some(1));
    var env := (k: nat) => LoopTurn(None, Used(0, 0, 0.0, 0),
                                    if k == 0 then Reported([s], ContinueLoop, 1, 1, 1) else Raised([s]));
    assert ExitFrom(limits, 2, env, 2) == (ExitExhausted, 2);
    assert ExitFrom(limits, 2, env, 1) == (ExitExhausted, 2);
    MergeOne(s, {});
    assert Listed([], env, 0) + env(0).iteration.batch == [s] && Merges(env(0).iteration);
    assert Listed([], env, 1) == [s];
    assert Listed([], env, 2) == [s, s];
    assert [s, s][0].key == [s, s][1].key;
  }

  // ----- The node -----

  /** What the loop node answers to the executor. */
  datatype LoopVerdict = LoopEarly(stop: Stop) | LoopDone(partial: bool)

  /** `finalize` is the runner's closing report, missing when it raised or was not one. */
  datatype LoopNode = LoopNode(policyValid: bool, failWhenExhausted: bool, protocolSupported: bool, beginSucceeds: bool,
                               finalize: Option<LoopOutcome>)

  predicate CanBegin(node: LoopNode, limits: Limits, used: Used) {
    && node.policyValid && node.protocolSupported && node.beginSucceeds
    && Affords(limits, used)
  }

  /** Why a loop that cannot begin is refused, in the order of the checks. */
  function Refusal(node: LoopNode, limits: Limits, used: Used): Stop {
    if !node.policyValid then LoopPolicyInvalid
    else if !Affords(limits, used) then LoopBudgetRefused
    else if !node.protocolSupported then LoopUnsupported
    else LoopBodyFailed
  }

  function ExitOf(node: LoopNode, limits: Limits, used: Used, env: nat -> LoopTurn): (LoopExit, nat)
    requires CanBegin(node, limits, used)
  {
    ExitFrom(limits, limits.maxCalls.value - used.calls, env, 0)
  }

  function VerdictOf(node: LoopNode, limits: Limits, used: Used, env: nat -> LoopTurn): LoopVerdict {
    if !CanBegin(node, limits, used) then LoopEarly(Refusal(node, limits, used))
    else
      var (exit, calls) := ExitOf(node, limits, used, env);
      if exit.ExitEarly? then LoopEarly(exit.stop)
      else if exit.ExitExhausted? && node.failWhenExhausted then LoopEarly(LoopBudgetExhausted)
      else if node.finalize != Some(CompleteLoop) && node.finalize != Some(PartialLoop) then LoopEarly(LoopBodyFailed)
      else LoopDone(exit != ExitDeclared(CompleteLoop) || !NoneRaised(env, calls) || node.finalize == Some(PartialLoop))
  }

  method RunBoundedLoopNode(node: LoopNode, state: AgentState, limits: Limits, used: Used, env: nat -> LoopTurn)
    returns (verdict: LoopVerdict, calls: nat)
    modifies state
    ensures verdict == VerdictOf(node, limits, used, env)
    // The body runs at most as often as model calls were left when the loop began.
    ensures if CanBegin(node, limits, used) then calls <= limits.maxCalls.value - used.calls else calls == 0
    ensures state.scenes == Listed(old(state.scenes), env, calls)
    ensures verdict == LoopDone(false) ==> state.scenes == Merged(old(state.scenes) + Appended(env, calls))
  {
    calls := 0;
    AffordsExact(limits, used);
    if !node.policyValid {
      return LoopEarly(LoopPolicyInvalid), calls;
    }
    if !LimitsValid(limits) || Exhausted(Left(limits, used)) {
      return LoopEarly(LoopBudgetRefused), calls;
    }
    if !node.protocolSupported {
      return LoopEarly(LoopUnsupported), calls;
    }
    if !node.beginSucceeds {
      return LoopEarly(LoopBodyFailed), calls;
    }
    var exit, errors, outputs, coverage;
    exit, calls, errors, outputs, coverage := RunLoopIterations(state, limits, Left(limits, used).calls, env);
    ExitExact(limits, Left(limits, used).calls, env, 0);
    NoErrors(env, calls);
    ListedMerges(old(state.scenes), env, calls);
    hide Merged, Listed, ExitFrom, Exhausted;
    if exit.ExitEarly? {
      return LoopEarly(exit.stop), calls;
    }
    if exit.ExitExhausted? && node.failWhenExhausted {
      return LoopEarly(LoopBudgetExhausted), calls;
    }
    if node.finalize != Some(CompleteLoop) && node.finalize != Some(PartialLoop) {
      return LoopEarly(LoopBodyFailed), calls;
    }
    verdict := LoopDone(exit.ExitExhausted? || exit == ExitDeclared(PartialLoop) || errors > 0
                        || node.finalize == Some(PartialLoop));
  }

  /** The body declares the loop complete at call `n`, every call before it having reported to go on. */
  ghost predicate CompletesAt(limits: Limits, maxIterations: int, env: nat -> LoopTurn, n: nat) {
    && 0 < n <= maxIterations
    && (forall k :: 0 <= k < n ==> Calls(limits, env(k)) && env(k).iteration.Reported?
                                   && env(k).iteration.modelCalls <= 1)
    && (forall k :: 0 <= k < n - 1 ==> env(k).iteration.outcome == ContinueLoop)
    && env(n - 1).iteration.outcome == CompleteLoop
  }

  lemma {:induction false} CompletesExits(limits: Limits, maxIterations: nat, env: nat -> LoopTurn, n: nat, m: nat)
    requires LimitsValid(limits) && n < m && CompletesAt(limits, maxIterations, env, m)
    ensures ExitFrom(limits, maxIterations, env, n) == (ExitDeclared(CompleteLoop), m)
    decreases m - n
  {
    hide Left, Exhausted;
    assert Calls(limits, env(n));
    AffordsExact(limits, env(n).used);
    if n + 1 < m {
      CompletesExits(limits, maxIterations, env, n + 1, m);
    }
  }

  /** The loop is declared complete with no call raised exactly if some call completes it. */
  lemma DeclaredExactly(limits: Limits, max: nat, env: nat -> LoopTurn)
    requires LimitsValid(limits)
    ensures var (exit, calls) := ExitFrom(limits, max, env, 0);
            exit == ExitDeclared(CompleteLoop) && NoneRaised(env, calls)
            <==> exists n: nat :: CompletesAt(limits, max, env, n)
  {
    var (exit, calls) := ExitFrom(limits, max, env, 0);
    ExitExact(limits, max, env, 0);
    hide ExitFrom, Affords, LimitsValid;
    if exit == ExitDeclared(CompleteLoop) && NoneRaised(env, calls) {
      assert CompletesAt(limits, max, env, calls);
    }
    if n: nat :| CompletesAt(limits, max, env, n) {
      CompletesExits(limits, max, env, 0, n);
    }
  }

  /** Complete if and only if the loop may begin, some call within the budget declares it complete with every call up to
      it in order, and the closing report agrees. */
  lemma CompleteExactly(node: LoopNode, limits: Limits, used: Used, env: nat -> LoopTurn)
    ensures VerdictOf(node, limits, used, env) == LoopDone(false)
            <==> && CanBegin(node, limits, used) && node.finalize == Some(CompleteLoop)
                 && var max := limits.maxCalls.value - used.calls; exists n: nat :: CompletesAt(limits, max, env, n)
  {
    if CanBegin(node, limits, used) {
      DeclaredExactly(limits, limits.maxCalls.value - used.calls, env);
      hide ExitFrom, CompletesAt, NoneRaised;
    }
  }

  /** What a loop that was gone through lacks to be complete: the budget ended it, it was declared partial, a call
      raised, or the closing report says partial. */
  lemma PartialCauses(node: LoopNode, limits: Limits, used: Used, env: nat -> LoopTurn)
    requires VerdictOf(node, limits, used, env) == LoopDone(true)
    ensures CanBegin(node, limits, used)
    ensures var (exit, calls) := ExitOf(node, limits, used, env);
            || node.finalize == Some(PartialLoop)
            || !NoneRaised(env, calls)
            || (calls > 0 && env(calls - 1).iteration.Reported? && env(calls - 1).iteration.outcome == PartialLoop)
            || (!node.failWhenExhausted
                && (calls == limits.maxCalls.value - used.calls || !Affords(limits, env(calls).used)))
  {
    ExitExact(limits, limits.maxCalls.value - used.calls, env, 0);
    hide ExitFrom;
  }

  /** A loop that may begin is gone through exactly if its body declared an end, or ran out of budget where that may
      pass, and a closing report was given; otherwise the stop is the safety check's or the report's, a spent budget,
      or, without a closing report, a failed body.  One that may not begin is refused for the first thing missing. */
  lemma VerdictExactly(node: LoopNode, limits: Limits, used: Used, env: nat -> LoopTurn)
    ensures var verdict := VerdictOf(node, limits, used, env);
            if !CanBegin(node, limits, used) then
              verdict == LoopEarly(if !node.policyValid then LoopPolicyInvalid
                                   else if !Affords(limits, used) then LoopBudgetRefused
                                   else if !node.protocolSupported then LoopUnsupported else LoopBodyFailed)
            else
              var (exit, calls) := ExitOf(node, limits, used, env);
              var closed := node.finalize == Some(CompleteLoop) || node.finalize == Some(PartialLoop);
              && (verdict.LoopDone? <==>
                    (exit.ExitDeclared? || (exit.ExitExhausted? && !node.failWhenExhausted)) && closed)
              && (exit.ExitEarly? ==> verdict == LoopEarly(exit.stop))
              && (exit.ExitExhausted? && node.failWhenExhausted ==> verdict == LoopEarly(LoopBudgetExhausted))
              && (!exit.ExitEarly? && !(exit.ExitExhausted? && node.failWhenExhausted) && !closed ==>
                    verdict == LoopEarly(LoopBodyFailed))
  {
  }
}
