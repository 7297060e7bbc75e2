/** What a visit to one root means for the whole traversal: how the parts of a depth-first walk compose,
    why a started mapping keeps its root waiting, and what decreases from sweep to sweep. */
module Visits {
  import opened Wrappers
  import opened InterDependencyMappings
  import opened Protocol
  import opened Safety
  import opened Blocking
  import opened Coordinators

  /** All events that concern a mapping concern one in the scope. */
  predicate Within(run: seq<Event>, scope: set<MappingKey>) {
    forall e :: e in run && !e.WaitInterrupted? ==> e.key in scope
  }

  /** The run is lawful, goes in one direction, stays in the scope and leads from one state to the other. */
  predicate Walked(plan: Plan, dir: Direction, scope: set<MappingKey>, s: State, run: seq<Event>, t: State) {
    Lawful(plan, s, run) && After(s, run) == t && Directed(run, dir) && Within(run, scope)
  }

  lemma WalkedConcat(plan: Plan, dir: Direction, scope: set<MappingKey>, s: State, a: seq<Event>, t: State,
                     b: seq<Event>, u: State)
    requires Walked(plan, dir, scope, s, a, t) && Walked(plan, dir, scope, t, b, u)
    ensures Walked(plan, dir, scope, s, a + b, u)
  {
    RunConcat(plan, s, a, b);
  }

  lemma WalkedStep(plan: Plan, dir: Direction, scope: set<MappingKey>, s: State, e: Event, t: State)
    requires Step(plan, s, e, t) && InDirection(e, dir) && (e.WaitInterrupted? || e.key in scope)
    ensures Walked(plan, dir, scope, s, [e], t)
  {
    RunSingle(plan, s, e);
  }

  lemma WalkedNothing(plan: Plan, dir: Direction, scope: set<MappingKey>, s: State)
    ensures Walked(plan, dir, scope, s, [], s)
  {}

  predicate OnlySkips(run: seq<Event>) {
    forall e :: e in run ==> e.Skip?
  }

  predicate ForkFailedIn(run: seq<Event>) {
    exists e :: e in run && e.ForkFailed?
  }

  /** Skips, followed by at most one attempt to create a process. */
  predicate OneAttempt(run: seq<Event>) {
    OnlySkips(run) || (OnlySkips(run[..|run| - 1]) && (run[|run| - 1].Start? || run[|run| - 1].ForkFailed?))
  }

  /** A mapping that keeps a traversal from its goal for good. */
  predicate Stuck(plan: Plan, dir: Direction, s: State, key: MappingKey) {
    key in s.status && (s.status[key].Erroneous? || Unreachable(plan, dir, key, s.status[key]))
  }

  /** What the status that a visit reports says about the state it leaves. */
  ghost predicate Reports(plan: Plan, dir: Direction, key: MappingKey, run: seq<Event>, t: State, status: ServiceStatus)
    requires Ranked(plan) && key in plan.keys
  {
    var blocker := Blocker(plan, dir, t, key);
    match status
    case Done => blocker.None? && OnlySkips(run)
    case Running =>
      && blocker.Some?
      && t.Has(blocker.value, InProgress)
      && !ForkFailedIn(run)
      && (forall e :: e in run && e.Start? ==> e.key == blocker.value)
    case Waiting => blocker.Some? && t.Has(blocker.value, dir.Origin()) && Full(plan, t, blocker.value.target) && OnlySkips(run)
    case Failed =>
      && blocker.Some?
      && !t.Has(blocker.value, InProgress)
      && (forall e :: e in run ==> !e.Start?)
      && (forall e :: e in run && e.ForkFailed? ==> e.key == blocker.value)
      && (Stuck(plan, dir, t, blocker.value) || ForkFailedIn(run))
  }

  // ----- composing a depth-first walk -----

  /** The walk has cleared the first `i` mappings that have to precede the key. */
  ghost predicate Underway(plan: Plan, dir: Direction, scope: set<MappingKey>, key: MappingKey,
                           s: State, run: seq<Event>, t: State, i: nat)
    requires Ranked(plan) && key in plan.keys && i <= |Before(plan, dir, key)|
  {
    Walked(plan, dir, scope, s, run, t) && OnlySkips(run) && Cleared(plan, dir, t, key, i)
  }

  /** The walk is over. */
  ghost predicate Visited(plan: Plan, dir: Direction, scope: set<MappingKey>, key: MappingKey,
                          s: State, run: seq<Event>, t: State, status: ServiceStatus)
    requires Ranked(plan) && key in plan.keys
  {
    Walked(plan, dir, scope, s, run, t) && OneAttempt(run) && Reports(plan, dir, key, run, t, status)
  }

  lemma GoalsKeptByWalk(plan: Plan, dir: Direction, scope: set<MappingKey>, s: State, run: seq<Event>, t: State)
    requires Walked(plan, dir, scope, s, run, t)
    ensures Progressed(plan, dir, s, t) && GoalsKept(plan, dir, s, t)
  {
    RunProgresses(plan, dir, s, run);
    ProgressKeepsGoals(plan, dir, s, t);
  }

  /** The next mapping to precede is done: the walk goes on. */
  lemma UnderwayNext(plan: Plan, dir: Direction, scope: set<MappingKey>, key: MappingKey,
                     s: State, run: seq<Event>, t: State, i: nat, sub: seq<Event>, u: State)
    requires Ranked(plan) && key in plan.keys && i < |Before(plan, dir, key)|
    requires Before(plan, dir, key)[i] in plan.keys
    requires Underway(plan, dir, scope, key, s, run, t, i)
    requires Visited(plan, dir, scope, Before(plan, dir, key)[i], t, sub, u, Done)
    ensures Underway(plan, dir, scope, key, s, run + sub, u, i + 1)
  {
    WalkedConcat(plan, dir, scope, s, run, t, sub, u);
    GoalsKeptByWalk(plan, dir, scope, t, sub, u);
    ClearedIsStable(plan, dir, t, u, key, i);
  }

  /** The next mapping to precede is not done: its status is relayed. */
  lemma UnderwayRelays(plan: Plan, dir: Direction, scope: set<MappingKey>, key: MappingKey,
                       s: State, run: seq<Event>, t: State, i: nat, sub: seq<Event>, u: State, status: ServiceStatus)
    requires Ranked(plan) && key in plan.keys && i < |Before(plan, dir, key)|
    requires Before(plan, dir, key)[i] in plan.keys
    requires Underway(plan, dir, scope, key, s, run, t, i)
    requires Visited(plan, dir, scope, Before(plan, dir, key)[i], t, sub, u, status) && !status.Done?
    ensures Visited(plan, dir, scope, key, s, run + sub, u, status)
  {
    WalkedConcat(plan, dir, scope, s, run, t, sub, u);
    GoalsKeptByWalk(plan, dir, scope, t, sub, u);
    ClearedIsStable(plan, dir, t, u, key, i);
    ResumeAfterCleared(plan, dir, u, key, i);
    assert Blocker(plan, dir, u, key) == Blocker(plan, dir, u, Before(plan, dir, key)[i]);
    AttemptAfterSkips(run, sub);
    ReportsLonger(plan, dir, key, Before(plan, dir, key)[i], run, sub, u, status);
  }

  lemma AttemptAfterSkips(skips: seq<Event>, sub: seq<Event>)
    requires OnlySkips(skips) && OneAttempt(sub)
    ensures OneAttempt(skips + sub)
  {
    if !OnlySkips(sub) {
      assert (skips + sub)[..|skips + sub| - 1] == skips + sub[..|sub| - 1];
    }
  }

  lemma ReportsLonger(plan: Plan, dir: Direction, key: MappingKey, x: MappingKey, skips: seq<Event>, sub: seq<Event>,
                      t: State, status: ServiceStatus)
    requires Ranked(plan) && key in plan.keys && x in plan.keys && OnlySkips(skips)
    requires Blocker(plan, dir, t, key) == Blocker(plan, dir, t, x)
    requires Reports(plan, dir, x, sub, t, status)
    ensures Reports(plan, dir, key, skips + sub, t, status)
  {
    if ForkFailedIn(sub) {
      var e :| e in sub && e.ForkFailed?;
      assert e in skips + sub;
    }
  }

  /** With everything before it done, a mapping blocks a walk exactly when it is not at the goal. */
  lemma UnderwayDone(plan: Plan, dir: Direction, scope: set<MappingKey>, key: MappingKey, s: State, run: seq<Event>,
                     t: State)
    requires Ranked(plan) && key in plan.keys
    requires Underway(plan, dir, scope, key, s, run, t, |Before(plan, dir, key)|)
    ensures Blocker(plan, dir, t, key) == if t.Has(key, dir.Goal()) then None else Some(key)
    ensures AllHave(t, Before(plan, dir, key), dir.Goal())
  {
    var before := Before(plan, dir, key);
    ResumeAfterCleared(plan, dir, t, key, |before|);
    forall x | x in before ensures t.Has(x, dir.Goal()) {
      var j :| 0 <= j < |before| && before[j] == x;
      BlockerIsFront(plan, dir, t, x, 0);
    }
  }

  /** The status the mapping itself has decides a walk that needs no further step. */
  lemma VisitEnds(plan: Plan, dir: Direction, scope: set<MappingKey>, key: MappingKey,
                  s: State, run: seq<Event>, t: State, status: ServiceStatus)
    requires Ranked(plan) && key in plan.keys && key in t.status
    requires Underway(plan, dir, scope, key, s, run, t, |Before(plan, dir, key)|)
    requires match status
             case Done => t.status[key] == dir.Goal()
             case Running => t.status[key].InProgress?
             case Waiting => t.status[key] == dir.Origin() && Full(plan, t, key.target)
             case Failed => Stuck(plan, dir, t, key)
    ensures Visited(plan, dir, scope, key, s, run, t, status)
  {
    UnderwayDone(plan, dir, scope, key, s, run, t);
  }

  /** A walk that ends with an attempt to create the process of the mapping itself. */
  lemma VisitAttempts(plan: Plan, dir: Direction, scope: set<MappingKey>, key: MappingKey,
                      s: State, run: seq<Event>, t: State, e: Event, u: State)
    requires Ranked(plan) && key in plan.keys && key in scope
    requires Underway(plan, dir, scope, key, s, run, t, |Before(plan, dir, key)|)
    requires Step(plan, t, e, u) && (e == Start(key, dir) || e == ForkFailed(key, dir))
    ensures Visited(plan, dir, scope, key, s, run + [e], u, if e.Start? then Running else Failed)
  {
    WalkedStep(plan, dir, scope, t, e, u);
    WalkedConcat(plan, dir, scope, s, run, t, [e], u);
    GoalsKeptByWalk(plan, dir, scope, t, [e], u);
    ClearedIsStable(plan, dir, t, u, key, |Before(plan, dir, key)|);
    ResumeAfterCleared(plan, dir, u, key, |Before(plan, dir, key)|);
    assert (run + [e])[..|run + [e]| - 1] == run;
    assert e in run + [e];
  }

  /** A walk that ends by skipping the mapping itself. */
  lemma VisitSkips(plan: Plan, scope: set<MappingKey>, key: MappingKey, s: State, run: seq<Event>, t: State, u: State)
    requires Ranked(plan) && key in plan.keys && key in scope
    requires Underway(plan, Deactivation, scope, key, s, run, t, |Before(plan, Deactivation, key)|)
    requires Step(plan, t, Skip(key), u)
    ensures Visited(plan, Deactivation, scope, key, s, run + [Skip(key)], u, Done)
  {
    WalkedStep(plan, Deactivation, scope, t, Skip(key), u);
    WalkedConcat(plan, Deactivation, scope, s, run, t, [Skip(key)], u);
    GoalsKeptByWalk(plan, Deactivation, scope, t, [Skip(key)], u);
    ClearedIsStable(plan, Deactivation, t, u, key, |Before(plan, Deactivation, key)|);
    ResumeAfterCleared(plan, Deactivation, u, key, |Before(plan, Deactivation, key)|);
  }
}
