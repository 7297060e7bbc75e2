/** Where a depth-first traversal from a mapping stops: the first mapping, in visiting order, that is
    not at the goal although everything that has to precede it is. */
module Blocking {
  import opened Wrappers
  import opened InterDependencyMappings
  import opened Protocol
  import opened Safety

  function BlockerFrom(plan: Plan, dir: Direction, s: State, key: MappingKey, i: nat): Option<MappingKey>
    requires Ranked(plan) && key in plan.keys && i <= |Before(plan, dir, key)|
    decreases Level(plan, dir, key), |Before(plan, dir, key)| - i
  {
    var before := Before(plan, dir, key);
    if i < |before| then
      BeforeIsBelow(plan, dir, key, before[i]);
      var blocker := BlockerFrom(plan, dir, s, before[i], 0);
      if blocker.Some? then blocker else BlockerFrom(plan, dir, s, key, i + 1)
    else if s.Has(key, dir.Goal()) then
      None
    else
      Some(key)
  }

  function Blocker(plan: Plan, dir: Direction, s: State, key: MappingKey): Option<MappingKey>
    requires Ranked(plan) && key in plan.keys
  {
    BlockerFrom(plan, dir, s, key, 0)
  }

  /** The first `i` mappings that have to precede `key` are done, as is all that precedes them. */
  ghost predicate Cleared(plan: Plan, dir: Direction, s: State, key: MappingKey, i: nat)
    requires Ranked(plan) && key in plan.keys && i <= |Before(plan, dir, key)|
  {
    forall j :: 0 <= j < i ==>
      var x := Before(plan, dir, key)[j];
      x in plan.keys && Blocker(plan, dir, s, x).None?
  }

  /** Visiting may resume after the mappings that are already done. */
  lemma {:induction false} ResumeAfterCleared(plan: Plan, dir: Direction, s: State, key: MappingKey, i: nat)
    requires Ranked(plan) && key in plan.keys && i <= |Before(plan, dir, key)|
    requires Cleared(plan, dir, s, key, i)
    ensures Blocker(plan, dir, s, key) == BlockerFrom(plan, dir, s, key, i)
    decreases i
  {
    if i > 0 {
      ResumeAfterCleared(plan, dir, s, key, i - 1);
    }
  }

  /** What stops a traversal is the only thing missing: all that precedes it is at the goal. */
  ghost predicate IsFront(plan: Plan, dir: Direction, s: State, key: MappingKey) {
    key in plan.keys && !s.Has(key, dir.Goal()) && AllHave(s, Before(plan, dir, key), dir.Goal())
  }

  lemma {:induction false} BlockerIsFront(plan: Plan, dir: Direction, s: State, key: MappingKey, i: nat)
    requires Ranked(plan) && key in plan.keys && i <= |Before(plan, dir, key)|
    requires forall j :: 0 <= j < i ==> s.Has(Before(plan, dir, key)[j], dir.Goal())
    ensures match BlockerFrom(plan, dir, s, key, i)
            case None => s.Has(key, dir.Goal())
            case Some(b) => IsFront(plan, dir, s, b)
    decreases Level(plan, dir, key), |Before(plan, dir, key)| - i
  {
    var before := Before(plan, dir, key);
    if i < |before| {
      BeforeIsBelow(plan, dir, key, before[i]);
      BlockerIsFront(plan, dir, s, before[i], 0);
      if BlockerFrom(plan, dir, s, before[i], 0).None? {
        BlockerIsFront(plan, dir, s, key, i + 1);
      }
    }
  }

  /** A set of mappings that contains all that has to precede its members. */
  ghost predicate Closed(plan: Plan, dir: Direction, scope: set<MappingKey>) {
    forall key, x :: key in scope && key in plan.keys && x in Before(plan, dir, key) ==> x in scope
  }

  lemma {:induction false} BlockerInScope(plan: Plan, dir: Direction, s: State, key: MappingKey, i: nat,
                                          scope: set<MappingKey>)
    requires Ranked(plan) && key in plan.keys && i <= |Before(plan, dir, key)|
    requires Closed(plan, dir, scope) && key in scope
    ensures var b := BlockerFrom(plan, dir, s, key, i); b.Some? ==> b.value in scope
    decreases Level(plan, dir, key), |Before(plan, dir, key)| - i
  {
    var before := Before(plan, dir, key);
    if i < |before| {
      BeforeIsBelow(plan, dir, key, before[i]);
      BlockerInScope(plan, dir, s, before[i], 0, scope);
      BlockerInScope(plan, dir, s, key, i + 1, scope);
    }
  }

  /** A chain from a mapping through what has to precede it. */
  ghost predicate Chain(plan: Plan, dir: Direction, path: seq<MappingKey>) {
    && path != []
    && (forall i :: 0 <= i < |path| ==> path[i] in plan.keys)
    && (forall i :: 0 < i < |path| ==> path[i] in Before(plan, dir, path[i - 1]))
  }

  lemma ChainExtends(plan: Plan, dir: Direction, key: MappingKey, rest: seq<MappingKey>)
    requires key in plan.keys && Chain(plan, dir, rest) && rest[0] in Before(plan, dir, key)
    ensures Chain(plan, dir, [key] + rest) && ([key] + rest)[|rest|] == rest[|rest| - 1]
  {
    var path := [key] + rest;
    assert forall i :: 0 < i < |path| ==> path[i] == rest[i - 1];
  }

  lemma {:induction false} BlockerChain(plan: Plan, dir: Direction, s: State, key: MappingKey, i: nat)
    returns (path: seq<MappingKey>)
    requires Ranked(plan) && key in plan.keys && i <= |Before(plan, dir, key)|
    requires BlockerFrom(plan, dir, s, key, i).Some?
    ensures Chain(plan, dir, path) && path[0] == key
    ensures BlockerFrom(plan, dir, s, key, i) == Some(path[|path| - 1])
    decreases Level(plan, dir, key), |Before(plan, dir, key)| - i
  {
    var before := Before(plan, dir, key);
    if i < |before| {
      BeforeIsBelow(plan, dir, key, before[i]);
      if BlockerFrom(plan, dir, s, before[i], 0).Some? {
        var rest := BlockerChain(plan, dir, s, before[i], 0);
        ChainExtends(plan, dir, key, rest);
        path := [key] + rest;
      } else {
        path := BlockerChain(plan, dir, s, key, i + 1);
      }
    } else {
      path := [key];
    }
  }

  // ----- stability -----

  /** Mappings at the goal stay there. */
  ghost predicate GoalsKept(plan: Plan, dir: Direction, s: State, t: State) {
    forall key :: key in plan.keys && s.Has(key, dir.Goal()) ==> t.Has(key, dir.Goal())
  }

  lemma ProgressKeepsGoals(plan: Plan, dir: Direction, s: State, t: State)
    requires Progressed(plan, dir, s, t)
    ensures GoalsKept(plan, dir, s, t)
  {
    forall key | key in plan.keys && s.Has(key, dir.Goal()) ensures t.Has(key, dir.Goal()) {
      assert KeyProgressed(plan, dir, s, t, key);
    }
  }

  /** While other mappings advance, a traversal stays blocked at the same mapping until that one is done. */
  lemma {:induction false} BlockerIsStable(plan: Plan, dir: Direction, s: State, t: State, key: MappingKey, i: nat)
    requires Ranked(plan) && key in plan.keys && i <= |Before(plan, dir, key)|
    requires GoalsKept(plan, dir, s, t)
    ensures match BlockerFrom(plan, dir, s, key, i)
            case None => BlockerFrom(plan, dir, t, key, i).None?
            case Some(b) => t.Has(b, dir.Goal()) || BlockerFrom(plan, dir, t, key, i) == Some(b)
    decreases Level(plan, dir, key), |Before(plan, dir, key)| - i
  {
    var before := Before(plan, dir, key);
    if i < |before| {
      BeforeIsBelow(plan, dir, key, before[i]);
      BlockerIsStable(plan, dir, s, t, before[i], 0);
      if BlockerFrom(plan, dir, s, before[i], 0).None? {
        BlockerIsStable(plan, dir, s, t, key, i + 1);
      }
    }
  }

  lemma ClearedIsStable(plan: Plan, dir: Direction, s: State, t: State, key: MappingKey, i: nat)
    requires Ranked(plan) && key in plan.keys && i <= |Before(plan, dir, key)|
    requires GoalsKept(plan, dir, s, t) && Cleared(plan, dir, s, key, i)
    ensures Cleared(plan, dir, t, key, i)
  {
    forall j | 0 <= j < i
      ensures var x := Before(plan, dir, key)[j]; x in plan.keys && Blocker(plan, dir, t, x).None?
    {
      BlockerIsStable(plan, dir, s, t, Before(plan, dir, key)[j], 0);
    }
  }

  // ----- in a safe state, being at the goal means nothing is left to do below -----

  lemma {:induction false} SafeGoalIsClear(plan: Plan, dir: Direction, s: State, key: MappingKey, i: nat)
    requires Ranked(plan) && Covers(plan, s) && Safe(plan, s)
    requires key in plan.keys && i <= |Before(plan, dir, key)|
    requires s.Has(key, dir.Goal())
    ensures BlockerFrom(plan, dir, s, key, i).None?
    decreases Level(plan, dir, key), |Before(plan, dir, key)| - i
  {
    var before := Before(plan, dir, key);
    if i < |before| {
      BeforeIsBelow(plan, dir, key, before[i]);
      assert before[i] in before;
      assert s.Has(before[i], dir.Goal());
      SafeGoalIsClear(plan, dir, s, before[i], 0);
      SafeGoalIsClear(plan, dir, s, key, i + 1);
    }
  }

  /** A traversal from a mapping finds nothing to do exactly when the mapping is at the goal. */
  lemma ClearExactlyAtGoal(plan: Plan, dir: Direction, s: State, key: MappingKey)
    requires Ranked(plan) && Covers(plan, s) && Safe(plan, s) && key in plan.keys
    ensures Blocker(plan, dir, s, key).None? <==> s.Has(key, dir.Goal())
  {
    BlockerIsFront(plan, dir, s, key, 0);
    if s.Has(key, dir.Goal()) {
      SafeGoalIsClear(plan, dir, s, key, 0);
    }
  }
}
