/** Roots that a traversal can never finish: what blocks them waits for a core of a machine that has none left. */
module Starvation {
  import opened InterDependencyMappings
  import opened Protocol
  import opened Safety
  import opened Cores
  import opened Blocking
  import opened Coordinators
  import opened Visits

  /** Every core of the machine is lost, or it had none. */
  predicate Spent(plan: Plan, s: State, machine: string) {
    machine in plan.cores && s.Lost(machine) >= plan.cores[machine]
  }

  /** The mapping still has to be given its command, on a machine that has no cores left. */
  predicate Forsaken(plan: Plan, dir: Direction, s: State, key: MappingKey) {
    s.Has(key, dir.Origin()) && Spent(plan, s, key.target)
  }

  /** What blocks the root will never get a core. */
  ghost predicate Starved(plan: Plan, dir: Direction, s: State, root: MappingKey)
    requires Ranked(plan)
  {
    root in plan.keys && Blocker(plan, dir, s, root).Some? && Forsaken(plan, dir, s, Blocker(plan, dir, s, root).value)
  }

  lemma StepKeepsForsaken(plan: Plan, dir: Direction, s: State, e: Event, key: MappingKey)
    requires Counted(plan, s) && Enabled(plan, s, e) && InDirection(e, dir) && Forsaken(plan, dir, s, key)
    ensures Forsaken(plan, dir, Apply(s, e), key)
    ensures !(e.Start? || e.ForkFailed?) || e.key != key
  {}

  /** A machine without cores never serves a mapping again. */
  lemma {:induction false} ForsakenForEver(plan: Plan, dir: Direction, s: State, run: seq<Event>, key: MappingKey)
    requires Counted(plan, s) && Lawful(plan, s, run) && Directed(run, dir) && Forsaken(plan, dir, s, key)
    ensures Forsaken(plan, dir, After(s, run), key)
    ensures forall e :: e in run && (e.Start? || e.ForkFailed?) ==> e.key != key
    decreases |run|
  {
    if run != [] {
      assert run[0] in run;
      StepKeepsForsaken(plan, dir, s, run[0], key);
      StepKeepsCounts(plan, s, run[0]);
      DirectedParts(run, dir, 1, |run|);
      assert run[1..|run|] == run[1..];
      ForsakenForEver(plan, dir, Apply(s, run[0]), run[1..], key);
      assert run == [run[0]] + run[1..];
    }
  }

  /** Whatever else a traversal does, a starved root stays starved. */
  lemma StarvedForEver(plan: Plan, dir: Direction, s: State, run: seq<Event>, root: MappingKey)
    requires Ranked(plan) && Counted(plan, s) && Lawful(plan, s, run) && Directed(run, dir) && Starved(plan, dir, s, root)
    ensures Starved(plan, dir, After(s, run), root)
    ensures Blocker(plan, dir, After(s, run), root) == Blocker(plan, dir, s, root)
  {
    RunProgresses(plan, dir, s, run);
    ProgressKeepsGoals(plan, dir, s, After(s, run));
    BlockerIsStable(plan, dir, s, After(s, run), root, 0);
    ForsakenForEver(plan, dir, s, run, Blocker(plan, dir, s, root).value);
  }

  /** A visit to a starved root reports that it waits. */
  lemma StarvedWaits(plan: Plan, dir: Direction, scope: set<MappingKey>, root: MappingKey, s: State, run: seq<Event>,
                     t: State, status: ServiceStatus)
    requires Ranked(plan) && Counted(plan, s) && Starved(plan, dir, s, root)
    requires Visited(plan, dir, scope, root, s, run, t, status)
    ensures Starved(plan, dir, t, root) && status.Waiting?
  {
    StarvedForEver(plan, dir, s, run, root);
    ForsakenForEver(plan, dir, s, run, Blocker(plan, dir, s, root).value);
  }

  /** A visit that leaves its root unfinished although nothing is in progress leaves it starved. */
  lemma IdleIsStarved(plan: Plan, dir: Direction, scope: set<MappingKey>, root: MappingKey, s: State, run: seq<Event>,
                      t: State, status: ServiceStatus)
    requires Ranked(plan) && root in plan.keys && Counted(plan, t) && t.Quiet()
    requires Visited(plan, dir, scope, root, s, run, t, status) && (status.Running? || status.Waiting?)
    ensures Starved(plan, dir, t, root)
  {
    var machine := Blocker(plan, dir, t, root).value.target;
    assert forall key :: key !in InFlightOn(t, machine);
    assert |InFlightOn(t, machine)| == 0;
  }
}
