/** What every lawful run keeps, whatever the environment does: the dependency invariant, one-way
    progress within a traversal, the order of commands and the core limit of each machine. */
module Safety {
  import opened InterDependencyMappings
  import opened Protocol

  // ----- the dependency invariant -----

  /** A mapping that is not deactivated has all its inter-dependencies activated. */
  predicate Safe(plan: Plan, s: State) {
    forall key :: key in plan.keys && !s.Has(key, Deactivated) ==>
      AllHave(s, Dependencies(plan.services, key), Activated)
  }

  /** The two ways in which changing one status could break the invariant. */
  lemma StatusChangeKeepsSafe(plan: Plan, s: State, key: MappingKey, status: ServiceMappingStatus, t: State)
    requires Ranked(plan) && key in plan.keys && Safe(plan, s) && t.status == s.status[key := status]
    requires !status.Deactivated? ==> AllHave(s, Dependencies(plan.services, key), Activated)
    requires s.Has(key, Activated) && !status.Activated? ==>
               AllHave(s, Dependents(plan.keys, plan.services, key), Deactivated)
    ensures Safe(plan, t)
  {
    forall x | x in plan.keys && !t.Has(x, Deactivated)
      ensures AllHave(t, Dependencies(plan.services, x), Activated)
    {
    }
  }

  lemma SameStatusIsSafe(plan: Plan, s: State, t: State)
    requires Safe(plan, s) && t.status == s.status
    ensures Safe(plan, t)
  {}

  lemma FinishKeepsSafe(plan: Plan, s: State, key: MappingKey, status: ServiceMappingStatus, t: State)
    requires Ranked(plan) && Covers(plan, s) && Safe(plan, s) && t.status == s.status[key := status]
    requires s.Has(key, InProgress) || (s.Has(key, Erroneous) && (status.Activated? || status.Deactivated?))
    ensures Safe(plan, t)
  {
    StatusChangeKeepsSafe(plan, s, key, status, t);
  }

  lemma StartKeepsSafe(plan: Plan, s: State, key: MappingKey, dir: Direction, t: State)
    requires Ranked(plan) && Covers(plan, s) && Safe(plan, s) && Startable(plan, s, key, dir)
    requires t.status == s.status[key := InProgress]
    ensures Safe(plan, t)
  {
    StatusChangeKeepsSafe(plan, s, key, InProgress, t);
  }

  lemma SkipKeepsSafe(plan: Plan, s: State, key: MappingKey, t: State)
    requires Ranked(plan) && Covers(plan, s) && Safe(plan, s) && Enabled(plan, s, Skip(key))
    requires t.status == s.status[key := Deactivated]
    ensures Safe(plan, t)
  {
    StatusChangeKeepsSafe(plan, s, key, Deactivated, t);
  }

  lemma StepKeepsSafe(plan: Plan, s: State, e: Event)
    requires Ranked(plan) && Covers(plan, s) && Safe(plan, s) && Enabled(plan, s, e)
    ensures Safe(plan, Apply(s, e))
  {
    var t := Apply(s, e);
    match e
    case Start(key, dir) => StartKeepsSafe(plan, s, key, dir, t);
    case ForkFailed(_, _) => SameStatusIsSafe(plan, s, t);
    case Finish(key, dir, ok) => FinishKeepsSafe(plan, s, key, if ok then dir.Goal() else Erroneous, t);
    case Skip(key) => SkipKeepsSafe(plan, s, key, t);
    case WaitInterrupted => SameStatusIsSafe(plan, s, t);
    case Believe(key, status) => FinishKeepsSafe(plan, s, key, status, t);
  }

  lemma {:induction false} RunCovers(plan: Plan, s: State, run: seq<Event>)
    requires Covers(plan, s) && Lawful(plan, s, run)
    ensures Covers(plan, After(s, run))
    decreases |run|
  {
    if run != [] {
      StepCovers(plan, s, run[0]);
      RunCovers(plan, Apply(s, run[0]), run[1..]);
    }
  }

  lemma StepCovers(plan: Plan, s: State, e: Event)
    requires Covers(plan, s) && Enabled(plan, s, e)
    ensures Covers(plan, Apply(s, e))
  {}

  /** In every reachable state of every run, dependencies of what is not deactivated are activated. */
  lemma {:induction false} SafeThroughout(plan: Plan, s: State, run: seq<Event>, i: nat)
    requires Ranked(plan) && Covers(plan, s) && Safe(plan, s)
    requires Lawful(plan, s, run) && i <= |run|
    ensures Safe(plan, After(s, run[..i]))
    decreases i
  {
    if i > 0 {
      SafeThroughout(plan, s, run, i - 1);
      RunStep(plan, s, run, i - 1);
      PrefixLawful(plan, s, run, i - 1);
      RunCovers(plan, s, run[..i - 1]);
      StepKeepsSafe(plan, After(s, run[..i - 1]), run[i - 1]);
    }
  }

  // ----- progress within one traversal -----

  /** The steps a traversal in one direction can take. */
  predicate InDirection(e: Event, dir: Direction) {
    match e
    case Start(_, d) => d == dir
    case ForkFailed(_, d) => d == dir
    case Finish(_, d, _) => d == dir
    case Skip(_) => dir.Deactivation?
    case WaitInterrupted => true
    case Believe(_, _) => false
  }

  predicate Directed(run: seq<Event>, dir: Direction) {
    forall e :: e in run ==> InDirection(e, dir)
  }

  function Phase(dir: Direction, status: ServiceMappingStatus): nat {
    if status == dir.Origin() then 0 else if status.InProgress? then 1 else 2
  }

  /** A mapping that no further step of a traversal in this direction can move. */
  predicate Final(plan: Plan, dir: Direction, key: MappingKey, status: ServiceMappingStatus) {
    Phase(dir, status) == 2 || Unreachable(plan, dir, key, status)
  }

  /** A deactivated mapping cannot be activated when its machine is not present. */
  predicate Unreachable(plan: Plan, dir: Direction, key: MappingKey, status: ServiceMappingStatus) {
    dir.Activation? && status.Deactivated? && key.target !in plan.cores
  }

  predicate KeyProgressed(plan: Plan, dir: Direction, s: State, t: State, key: MappingKey)
    requires key in s.status
  {
    && key in t.status
    && Phase(dir, s.status[key]) <= Phase(dir, t.status[key])
    && (Final(plan, dir, key, s.status[key]) ==> t.status[key] == s.status[key])
  }

  predicate Progressed(plan: Plan, dir: Direction, s: State, t: State) {
    forall key :: key in s.status ==> KeyProgressed(plan, dir, s, t, key)
  }

  lemma StepProgresses(plan: Plan, dir: Direction, s: State, e: Event)
    requires Enabled(plan, s, e) && InDirection(e, dir)
    ensures Progressed(plan, dir, s, Apply(s, e))
  {}

  lemma {:induction false} RunProgresses(plan: Plan, dir: Direction, s: State, run: seq<Event>)
    requires Lawful(plan, s, run) && Directed(run, dir)
    ensures Progressed(plan, dir, s, After(s, run))
    decreases |run|
  {
    if run != [] {
      var t := Apply(s, run[0]);
      StepProgresses(plan, dir, s, run[0]);
      RunProgresses(plan, dir, t, run[1..]);
      forall key | key in s.status ensures KeyProgressed(plan, dir, s, After(s, run), key) {
        assert KeyProgressed(plan, dir, s, t, key);
        assert KeyProgressed(plan, dir, t, After(t, run[1..]), key);
      }
    }
  }

  lemma DirectedParts(run: seq<Event>, dir: Direction, i: nat, j: nat)
    requires Directed(run, dir) && i <= j <= |run|
    ensures Directed(run[i..j], dir)
  {
    forall e | e in run[i..j] ensures InDirection(e, dir) {
      assert e in run;
    }
  }

  /** From one point of a directed run to a later one. */
  lemma ProgressBetween(plan: Plan, dir: Direction, s: State, run: seq<Event>, i: nat, j: nat)
    requires Lawful(plan, s, run) && Directed(run, dir) && i <= j <= |run|
    ensures Progressed(plan, dir, After(s, run[..i]), After(s, run[..j]))
  {
    PrefixLawful(plan, s, run, j);
    var prefix := run[..j];
    RunSplit(plan, s, prefix, i);
    assert prefix[..i] == run[..i] && prefix[i..] == run[i..j];
    DirectedParts(run, dir, i, j);
    RunProgresses(plan, dir, After(s, run[..i]), run[i..j]);
  }

  /** In one traversal no mapping receives a second command. */
  lemma StartedAtMostOnce(plan: Plan, dir: Direction, s: State, run: seq<Event>, i: nat, j: nat)
    requires Lawful(plan, s, run) && Directed(run, dir)
    requires i < |run| && j < |run| && run[i].Start? && run[j].Start? && run[i].key == run[j].key
    ensures i == j
  {
    var first, second := if i < j then i else j, if i < j then j else i;
    if first < second {
      var key := run[first].key;
      RunStep(plan, s, run, first);
      RunStep(plan, s, run, second);
      assert run[first] in run && run[second] in run;
      assert After(s, run[..first + 1]).Has(key, InProgress);
      ProgressBetween(plan, dir, s, run, first + 1, second);
      assert false;
    }
  }

  /** How a mapping reaches the goal: it was there, its command succeeded, or its machine had gone. */
  predicate Reached(dir: Direction, s: State, run: seq<Event>, key: MappingKey) {
    || s.Has(key, dir.Goal())
    || Finish(key, dir, true) in run
    || (dir.Deactivation? && Skip(key) in run)
  }

  lemma {:induction false} GoalIsReached(plan: Plan, dir: Direction, s: State, run: seq<Event>, key: MappingKey)
    requires Lawful(plan, s, run) && Directed(run, dir) && After(s, run).Has(key, dir.Goal())
    ensures Reached(dir, s, run, key)
    decreases |run|
  {
    if run != [] {
      assert run[0] in run;
      DirectedParts(run, dir, 1, |run|);
      assert run[1..|run|] == run[1..];
      GoalIsReached(plan, dir, Apply(s, run[0]), run[1..], key);
      assert forall e :: e in run[1..] ==> e in run;
    }
  }

  /** A command is only given once everything that has to precede it has completed. */
  lemma CommandsAreOrdered(plan: Plan, dir: Direction, s: State, run: seq<Event>, i: nat, x: MappingKey)
    requires Lawful(plan, s, run) && Directed(run, dir)
    requires i < |run| && run[i].Start? && x in Before(plan, dir, run[i].key)
    ensures Reached(dir, s, run[..i], x)
  {
    RunStep(plan, s, run, i);
    PrefixLawful(plan, s, run, i);
    assert run[i] in run;
    DirectedParts(run, dir, 0, i);
    assert run[0..i] == run[..i];
    GoalIsReached(plan, dir, s, run[..i], x);
  }

  // ----- what a run leaves alone -----

  predicate Concerns(e: Event, key: MappingKey) {
    !e.WaitInterrupted? && e.key == key
  }

  predicate Untouched(run: seq<Event>, key: MappingKey) {
    forall e :: e in run ==> !Concerns(e, key)
  }

  lemma {:induction false} UntouchedKeepsStatus(s: State, run: seq<Event>, key: MappingKey)
    requires Untouched(run, key)
    ensures key in After(s, run).status <==> key in s.status
    ensures key in s.status ==> After(s, run).status[key] == s.status[key]
    decreases |run|
  {
    if run != [] {
      assert run[0] in run;
      assert forall e :: e in run[1..] ==> e in run;
      UntouchedKeepsStatus(Apply(s, run[0]), run[1..], key);
    }
  }

  /** A mapping at the goal of a traversal receives nothing from it. */
  lemma {:induction false} GoalIsUntouched(plan: Plan, dir: Direction, s: State, run: seq<Event>, key: MappingKey)
    requires Lawful(plan, s, run) && Directed(run, dir) && s.Has(key, dir.Goal())
    ensures Untouched(run, key)
    decreases |run|
  {
    if run != [] {
      assert run[0] in run;
      StepProgresses(plan, dir, s, run[0]);
      assert KeyProgressed(plan, dir, s, Apply(s, run[0]), key);
      DirectedParts(run, dir, 1, |run|);
      assert run[1..|run|] == run[1..];
      GoalIsUntouched(plan, dir, Apply(s, run[0]), run[1..], key);
      assert run == [run[0]] + run[1..];
    }
  }
}
