/** What a transition moves between: the previous and the new configuration as sets of mappings, and
    what each of its traversals contributes to the whole run. */
module Configurations {
  import opened InterDependencyMappings
  import opened Protocol
  import opened Safety
  import opened Cores
  import opened Blocking
  import opened Coordinators
  import opened Visits
  import opened Sweeps
  import opened Environments
  import opened Requests

  /** The plan consists of two configurations, each of which contains the dependencies of its mappings. */
  ghost predicate Between(plan: Plan, had: set<MappingKey>, want: set<MappingKey>) {
    && (forall key :: key in plan.keys <==> key in had || key in want)
    && Closed(plan, Activation, had)
    && Closed(plan, Activation, want)
  }

  /** Nothing outside the obsolete mappings depends on one of them; likewise for the added mappings. */
  lemma DifferencesAreClosed(plan: Plan, had: set<MappingKey>, want: set<MappingKey>)
    requires Between(plan, had, want)
    ensures Closed(plan, Deactivation, had - want) && Closed(plan, Deactivation, want - had)
  {
    forall key, x | key in plan.keys && x in Before(plan, Deactivation, key)
      ensures key in had - want ==> x in had - want
      ensures key in want - had ==> x in want - had
    {
      assert x in plan.keys && key in Before(plan, Activation, x);
    }
  }

  /** Exactly the given mappings are activated, all others deactivated. */
  ghost predicate Deployed(plan: Plan, s: State, active: set<MappingKey>) {
    forall key :: key in plan.keys ==> s.Has(key, if key in active then Activated else Deactivated)
  }

  /** A closed configuration is quiet and satisfies the dependency invariant. */
  lemma DeployedIsSafe(plan: Plan, s: State, active: set<MappingKey>)
    requires Ranked(plan) && Covers(plan, s) && Deployed(plan, s, active) && Closed(plan, Activation, active)
    ensures Safe(plan, s) && s.Quiet()
  {
    forall key | key in plan.keys && !s.Has(key, Deactivated)
      ensures AllHave(s, Dependencies(plan.services, key), Activated)
    {
      forall x | x in Dependencies(plan.services, key) ensures s.Has(x, Activated) {
        assert x in Before(plan, Activation, key);
      }
    }
  }

  lemma DeployedIsUnique(plan: Plan, s: State, t: State, active: set<MappingKey>)
    requires Covers(plan, s) && Covers(plan, t) && Deployed(plan, s, active)
    ensures Deployed(plan, t, active) <==> t.status == s.status
  {
    if Deployed(plan, t, active) {
      forall key | key in s.status ensures t.status[key] == s.status[key] {
        assert key in plan.keys;
      }
      assert t.status.Keys == s.status.Keys;
    }
  }

  // ----- causes of failure -----

  /** A process could not be created, or reported failure. */
  predicate Fault(e: Event) {
    e.ForkFailed? || (e.Finish? && !e.ok)
  }

  predicate Faulted(run: seq<Event>) {
    exists e :: e in run && Fault(e)
  }

  lemma FaultedConcat(a: seq<Event>, b: seq<Event>)
    ensures Faulted(a + b) <==> Faulted(a) || Faulted(b)
  {
    if e :| e in a && Fault(e) {
      assert e in a + b;
    }
    if e :| e in b && Fault(e) {
      assert e in a + b;
    }
  }

  /** A process was refused or reported failure, as the operating system has seen it. */
  predicate Troubled(asked: seq<Action>) {
    exists a :: a in asked && (a.Refused? || (a.Completed? && !a.ok))
  }

  lemma FaultIsTrouble(run: seq<Event>)
    ensures Faulted(run) <==> Troubled(Actions(run))
  {
    if e :| e in run && Fault(e) {
      EventHasAction(run, e, ActionOf(e)[0]);
    }
    if a :| a in Actions(run) && (a.Refused? || (a.Completed? && !a.ok)) {
      var e := ActionHasEvent(run, a);
      assert Fault(e);
    }
  }

  lemma {:induction false} ErrorHasCause(s: State, run: seq<Event>, key: MappingKey)
    requires After(s, run).Has(key, Erroneous) && !s.Has(key, Erroneous)
    requires forall e :: e in run ==> !e.Believe?
    ensures Faulted(run)
    decreases |run|
  {
    var t := Apply(s, run[0]);
    assert run[0] in run;
    if t.Has(key, Erroneous) {
      assert Fault(run[0]);
    } else {
      assert forall e :: e in run[1..] ==> e in run;
      ErrorHasCause(t, run[1..], key);
      var e :| e in run[1..] && Fault(e);
      assert e in run;
    }
  }

  /** The mapping of a process that reported failure stays erroneous for the rest of the traversal. */
  lemma {:induction false} FailureLasts(plan: Plan, dir: Direction, s: State, run: seq<Event>, key: MappingKey,
                                        d: Direction)
    requires Lawful(plan, s, run) && Directed(run, dir) && Finish(key, d, false) in run
    ensures After(s, run).Has(key, Erroneous)
    decreases |run|
  {
    var t := Apply(s, run[0]);
    DirectedParts(run, dir, 1, |run|);
    assert run[1..|run|] == run[1..];
    if run[0] == Finish(key, d, false) {
      RunProgresses(plan, dir, t, run[1..]);
      assert KeyProgressed(plan, dir, t, After(s, run), key);
    } else {
      assert run == [run[0]] + run[1..];
      FailureLasts(plan, dir, t, run[1..], key, d);
    }
  }

  lemma TraversalIsAnswered(plan: Plan, dir: Direction, s: State, run: seq<Event>, t: State)
    requires Lawful(plan, s, run) && Directed(run, dir) && After(s, run) == t
    ensures Answered(run, t)
  {
    DirectedFailures(plan, dir, s, run);
    forall key, d | Finish(key, d, false) in run ensures t.Has(key, Erroneous) {
      FailureLasts(plan, dir, s, run, key, d);
    }
  }

  /** A configuration in which every mapping of the scope is a root or at the goal, and none is erroneous. */
  ghost predicate Spanned(plan: Plan, dir: Direction, scope: set<MappingKey>, roots: seq<MappingKey>, s: State) {
    && Rooted(plan, scope, roots)
    && Closed(plan, dir, scope)
    && (forall key :: key in scope ==>
          s.Has(key, dir.Goal()) || (s.Has(key, dir.Origin()) && key in roots))
  }

  /** Every mapping of the scope that is still to be activated has its machine. */
  ghost predicate Hosted(plan: Plan, dir: Direction, scope: set<MappingKey>, s: State) {
    dir.Activation? ==> forall key :: key in scope && s.Has(key, Deactivated) ==> key.target in plan.cores
  }

  /** The machine of every given mapping is present. */
  ghost predicate Hosts(plan: Plan, keys: set<MappingKey>) {
    forall key :: key in keys ==> key.target in plan.cores
  }

  /** A traversal that starts without errors succeeds exactly when no process fails and no machine is missing. */
  lemma SucceedsExactly(plan: Plan, dir: Direction, scope: set<MappingKey>, roots: seq<MappingKey>,
                        s: State, run: seq<Event>, t: State, success: bool)
    requires Ranked(plan) && Spanned(plan, dir, scope, roots, s) && Within(run, scope)
    requires Traversed(plan, dir, roots, s, run, t, success) && Explained(plan, dir, roots, run, t)
    ensures success <==> !Faulted(run) && Hosted(plan, dir, scope, s)
  {
    if success {
      SuccessIsFaultless(plan, dir, scope, roots, s, run, t);
    } else if !Faulted(run) && Hosted(plan, dir, scope, s) {
      FailureHasCause(plan, dir, scope, roots, s, run, t);
    }
  }

  lemma SuccessIsFaultless(plan: Plan, dir: Direction, scope: set<MappingKey>, roots: seq<MappingKey>,
                           s: State, run: seq<Event>, t: State)
    requires Ranked(plan) && Spanned(plan, dir, scope, roots, s) && Within(run, scope)
    requires Traversed(plan, dir, roots, s, run, t, true)
    ensures !Faulted(run) && Hosted(plan, dir, scope, s)
  {
    RunProgresses(plan, dir, s, run);
    forall key | key in scope ensures t.Has(key, dir.Goal()) {
      assert KeyProgressed(plan, dir, s, t, key);
    }
    if e :| e in run && Fault(e) {
      if e.Finish? {
        FailureLasts(plan, dir, s, run, e.key, e.dir);
      }
      assert false;
    }
    forall key | dir.Activation? && key in scope && s.Has(key, Deactivated) ensures key.target in plan.cores {
      assert KeyProgressed(plan, dir, s, t, key);
    }
  }

  lemma FailureHasCause(plan: Plan, dir: Direction, scope: set<MappingKey>, roots: seq<MappingKey>,
                        s: State, run: seq<Event>, t: State)
    requires Ranked(plan) && Spanned(plan, dir, scope, roots, s) && Within(run, scope)
    requires Traversed(plan, dir, roots, s, run, t, false) && Explained(plan, dir, roots, run, t)
    ensures Faulted(run) || !Hosted(plan, dir, scope, s)
  {
    if !ForkFailedIn(run) {
      var j :| 0 <= j < |roots| && !t.Has(roots[j], dir.Goal());
      BlockerInScope(plan, dir, t, roots[j], 0, scope);
      StuckHasCause(plan, dir, scope, roots, s, run, t, Blocker(plan, dir, t, roots[j]).value);
    }
  }

  lemma StuckHasCause(plan: Plan, dir: Direction, scope: set<MappingKey>, roots: seq<MappingKey>,
                      s: State, run: seq<Event>, t: State, b: MappingKey)
    requires Spanned(plan, dir, scope, roots, s) && b in scope
    requires Lawful(plan, s, run) && After(s, run) == t && Directed(run, dir) && Stuck(plan, dir, t, b)
    ensures Faulted(run) || !Hosted(plan, dir, scope, s)
  {
    RunProgresses(plan, dir, s, run);
    assert KeyProgressed(plan, dir, s, t, b);
    if t.Has(b, Erroneous) {
      ErrorHasCause(s, run, b);
    }
  }

  // ----- composing the run of a transition -----

  predicate Begins(e: Event, added: set<MappingKey>) {
    (e.Start? || e.ForkFailed?) && e.dir.Activation? && e.key in added
  }

  ghost predicate Gone(s: State, obsolete: set<MappingKey>) {
    forall x :: x in obsolete ==> s.Has(x, Deactivated)
  }

  /** No added mapping is begun before every obsolete one is deactivated. */
  ghost predicate AddedLast(had: set<MappingKey>, want: set<MappingKey>, s: State, run: seq<Event>) {
    forall i :: 0 <= i < |run| && Begins(run[i], want - had) ==> Gone(After(s, run[..i]), had - want)
  }

  /** A lawful run that waits after every process it creates and leaves alone what both configurations have. */
  ghost predicate Steered(plan: Plan, had: set<MappingKey>, want: set<MappingKey>, s: State, run: seq<Event>,
                          t: State) {
    && Lawful(plan, s, run)
    && After(s, run) == t
    && Reaped(run)
    && (forall key :: key in had * want ==> Untouched(run, key))
    && AddedLast(had, want, s, run)
  }

  lemma SteeredConcat(plan: Plan, had: set<MappingKey>, want: set<MappingKey>, s: State, a: seq<Event>, t: State,
                      b: seq<Event>, u: State)
    requires Steered(plan, had, want, s, a, t) && Steered(plan, had, want, t, b, u)
    ensures Steered(plan, had, want, s, a + b, u)
  {
    RunConcat(plan, s, a, b);
    ReapedConcat(a, b);
    var run := a + b;
    forall i | 0 <= i < |run| && Begins(run[i], want - had) ensures Gone(After(s, run[..i]), had - want) {
      if i < |a| {
        assert run[..i] == a[..i];
      } else {
        var j := i - |a|;
        assert run[..i] == a + b[..j];
        RunConcat(plan, s, a, b[..j]);
        assert b[j] == run[i];
      }
    }
  }

  /** A run changes nothing outside its scope. */
  lemma OutsideIsKept(s: State, run: seq<Event>, scope: set<MappingKey>, key: MappingKey)
    requires Within(run, scope) && key !in scope && key in s.status
    ensures Untouched(run, key) && key in After(s, run).status && After(s, run).status[key] == s.status[key]
  {
    UntouchedKeepsStatus(s, run, key);
  }

  /** A traversal over obsolete or added mappings that deactivates them. */
  lemma SteeredDown(plan: Plan, had: set<MappingKey>, want: set<MappingKey>, scope: set<MappingKey>, s: State,
                    run: seq<Event>, t: State)
    requires Lawful(plan, s, run) && After(s, run) == t && Reaped(run) && Directed(run, Deactivation)
             && Within(run, scope)
    requires scope !! had * want
    ensures Steered(plan, had, want, s, run, t)
  {
    forall e | e in run ensures !Begins(e, want - had) {
      assert InDirection(e, Deactivation);
    }
  }

  /** A traversal that activates the mappings of one configuration. */
  lemma SteeredUp(plan: Plan, had: set<MappingKey>, want: set<MappingKey>, scope: set<MappingKey>, s: State,
                  run: seq<Event>, t: State)
    requires Lawful(plan, s, run) && After(s, run) == t && Reaped(run) && Directed(run, Activation)
             && Within(run, scope)
    requires forall key :: key in had * want ==> s.Has(key, Activated)
    requires scope == had || (scope == want && Gone(s, had - want))
    ensures Steered(plan, had, want, s, run, t)
  {
    forall key | key in had * want ensures Untouched(run, key) {
      GoalIsUntouched(plan, Activation, s, run, key);
    }
    forall i | 0 <= i < |run| && Begins(run[i], want - had) ensures Gone(After(s, run[..i]), had - want) {
      assert run[i] in run && run[i].key in scope;
      assert Within(run[..i], scope);
      forall x | x in had - want ensures After(s, run[..i]).Has(x, Deactivated) {
        OutsideIsKept(s, run[..i], scope, x);
      }
    }
  }

  // ----- how often commands are given -----

  /** Whether a traversal moves the mapping by a process. */
  predicate Moved(plan: Plan, dir: Direction, s: State, t: State, key: MappingKey) {
    s.Has(key, dir.Origin()) && !t.Has(key, dir.Origin()) && key.target in plan.cores
  }

  lemma FirstMove(plan: Plan, dir: Direction, s: State, e: Event, t: State, u: State, key: MappingKey)
    requires Step(plan, s, e, t) && InDirection(e, dir) && Progressed(plan, dir, t, u)
    ensures Moved(plan, dir, s, u, key) <==> e == Start(key, dir) || Moved(plan, dir, t, u, key)
    ensures !(e == Start(key, dir) && Moved(plan, dir, t, u, key))
  {
    StepProgresses(plan, dir, s, e);
    if key in s.status {
      assert KeyProgressed(plan, dir, s, t, key);
      assert KeyProgressed(plan, dir, t, u, key);
    }
  }

  /** A traversal starts a process exactly for each mapping that it moves on a machine that is present, and just one. */
  lemma {:induction false} StartedExactlyOnce(plan: Plan, dir: Direction, s: State, run: seq<Event>, key: MappingKey,
                                              d: Direction)
    requires Lawful(plan, s, run) && Directed(run, dir)
    ensures multiset(run)[Start(key, d)] == if d == dir && Moved(plan, dir, s, After(s, run), key) then 1 else 0
    decreases |run|
  {
    if run != [] {
      var t := Apply(s, run[0]);
      assert run[0] in run;
      DirectedParts(run, dir, 1, |run|);
      assert run[1..|run|] == run[1..];
      StartedExactlyOnce(plan, dir, t, run[1..], key, d);
      RunProgresses(plan, dir, t, run[1..]);
      FirstMove(plan, dir, s, run[0], t, After(t, run[1..]), key);
      assert run == [run[0]] + run[1..];
    }
  }

  /** Each of the mappings whose machine is present is started once in the given direction, and nothing else is. */
  ghost predicate OnceEach(plan: Plan, dir: Direction, keys: set<MappingKey>, run: seq<Event>) {
    forall key, d :: multiset(run)[Start(key, d)] == if d == dir && key in keys && key.target in plan.cores then 1 else 0
  }

  /** Obsolete mappings are stopped and added ones started, once each, where their machines are present. */
  ghost predicate CommandedOnce(plan: Plan, had: set<MappingKey>, want: set<MappingKey>, run: seq<Event>) {
    forall key, d :: multiset(run)[Start(key, d)] ==
      if key in (if d.Activation? then want - had else had - want) && key.target in plan.cores then 1 else 0
  }

  /** No mapping is given the same command twice. */
  ghost predicate Sparing(run: seq<Event>) {
    forall key, d :: multiset(run)[Start(key, d)] <= 1
  }

  lemma TraversalIsSparing(plan: Plan, dir: Direction, s: State, run: seq<Event>)
    requires Lawful(plan, s, run) && Directed(run, dir)
    ensures Sparing(run)
  {
    forall key, d ensures multiset(run)[Start(key, d)] <= 1 {
      StartedExactlyOnce(plan, dir, s, run, key, d);
    }
  }

  /** Runs that give different commands. */
  lemma SparingConcat(a: seq<Event>, b: seq<Event>)
    requires Sparing(a) && Sparing(b) && forall e :: e in a && e.Start? ==> e !in b
    ensures Sparing(a + b)
  {
    forall key, d ensures multiset(a + b)[Start(key, d)] <= 1 {
      assert multiset(a + b) == multiset(a) + multiset(b);
      if Start(key, d) in a {
        assert Start(key, d) !in b;
      }
    }
  }

  /** All commands of the run go in one direction; only mappings that are to be deactivated are skipped. */
  predicate Commands(run: seq<Event>, dir: Direction) {
    forall e :: e in run ==> (Command(e) ==> e.dir == dir) && (e.Skip? ==> dir.Deactivation?)
  }

  lemma CommandedInTurn(plan: Plan, had: set<MappingKey>, want: set<MappingKey>, down: seq<Event>, up: seq<Event>)
    requires OnceEach(plan, Deactivation, had - want, down) && OnceEach(plan, Activation, want - had, up)
    ensures CommandedOnce(plan, had, want, down + up)
  {}

  lemma MovedOnceEach(plan: Plan, dir: Direction, moved: set<MappingKey>, scope: set<MappingKey>, s: State, run: seq<Event>,
                      t: State)
    requires Lawful(plan, s, run) && After(s, run) == t && Directed(run, dir) && Within(run, scope) && moved <= scope
    requires forall key :: key in moved ==> s.Has(key, dir.Origin()) && t.Has(key, dir.Goal())
    requires forall key :: key in scope && key !in moved ==> s.Has(key, dir.Goal())
    ensures OnceEach(plan, dir, moved, run)
  {
    forall key, d
      ensures multiset(run)[Start(key, d)] == if d == dir && key in moved && key.target in plan.cores then 1 else 0
    {
      if key in scope {
        StartedExactlyOnce(plan, dir, s, run, key, d);
      } else {
        assert Start(key, d) !in run;
      }
    }
  }

  // ----- re-marking errors -----

  /** Only erroneous mappings have changed, to the given status. */
  ghost predicate Remarked(s: State, t: State, status: ServiceMappingStatus) {
    && t.busy == s.busy && t.lost == s.lost && t.history == s.history
    && t.status.Keys == s.status.Keys
    && (forall key :: key in s.status ==> t.status[key] == if s.status[key].Erroneous? then status else s.status[key])
  }

  /** The run re-marks just the erroneous mappings. */
  ghost predicate Marks(run: seq<Event>, s: State, status: ServiceMappingStatus) {
    forall e :: e in run <==> e.Believe? && e.status == status && s.Has(e.key, Erroneous)
  }

  lemma SteeredRemark(plan: Plan, had: set<MappingKey>, want: set<MappingKey>, s: State, run: seq<Event>, t: State,
                      status: ServiceMappingStatus)
    requires Lawful(plan, s, run) && After(s, run) == t && Marks(run, s, status)
    requires forall key :: key in had * want ==> s.Has(key, Activated)
    ensures Steered(plan, had, want, s, run, t) && !Faulted(run)
  {
    forall i | 0 <= i < |run| ensures run[i].Believe? {
      assert run[i] in run;
    }
  }

  /** What a rollback does to each mapping: only mappings with the status `from` are given a command, erroneous ones
      have the status `to` at once and without a process, and where a process fails none is asked for again. */
  ghost predicate Corrects(s: State, run: seq<Event>, t: State, from: ServiceMappingStatus, to: ServiceMappingStatus) {
    && (forall e :: e in run && Command(e) ==> s.Has(e.key, from))
    && (forall key :: s.Has(key, Erroneous) ==>
          Believe(key, to) in run && t.Has(key, to) && forall e :: e in run && Concerns(e, key) ==> e == Believe(key, to))
    && FailuresAreFinal(Actions(run))
  }

  lemma RemarkedIsDone(plan: Plan, dir: Direction, s: State, marks: seq<Event>, middle: State, run: seq<Event>, t: State,
                       key: MappingKey)
    requires Marks(marks, s, dir.Goal()) && Remarked(s, middle, dir.Goal()) && s.Has(key, Erroneous)
    requires Lawful(plan, middle, run) && After(middle, run) == t && Directed(run, dir)
    ensures t.Has(key, dir.Goal())
    ensures forall e :: e in marks + run && Concerns(e, key) ==> e == Believe(key, dir.Goal())
  {
    GoalIsUntouched(plan, dir, middle, run, key);
    UntouchedKeepsStatus(middle, run, key);
  }

  /** Re-marking, followed by a traversal towards what is believed. */
  lemma CorrectsAfterRemark(plan: Plan, dir: Direction, s: State, marks: seq<Event>, middle: State, run: seq<Event>, t: State)
    requires Marks(marks, s, dir.Goal()) && Remarked(s, middle, dir.Goal())
    requires Lawful(plan, middle, run) && After(middle, run) == t && Directed(run, dir)
    ensures Corrects(s, marks + run, t, dir.Origin(), dir.Goal())
  {
    forall e | e in marks + run && Command(e) ensures s.Has(e.key, dir.Origin()) {
      CommandedFromOrigin(plan, dir, middle, run, e);
    }
    forall key | s.Has(key, Erroneous)
      ensures Believe(key, dir.Goal()) in marks + run && t.Has(key, dir.Goal())
      ensures forall e :: e in marks + run && Concerns(e, key) ==> e == Believe(key, dir.Goal())
    {
      RemarkedIsDone(plan, dir, s, marks, middle, run, t, key);
    }
    DirectedFailures(plan, dir, middle, run);
    FlawlessThen(marks, run);
  }

  // ----- what cannot be brought back -----

  /** The mappings that are deactivated. */
  function Fallen(keys: set<MappingKey>, s: State): set<MappingKey> {
    set key | key in keys && s.Has(key, Deactivated)
  }

  /** A mapping has been counted as deactivated because its machine has gone. */
  ghost predicate Skipping(run: seq<Event>, keys: set<MappingKey>) {
    exists key :: key in keys && Skip(key) in run
  }

  lemma {:induction false} SkippedHasNoMachine(plan: Plan, s: State, run: seq<Event>, key: MappingKey)
    requires Lawful(plan, s, run) && Skip(key) in run
    ensures key.target !in plan.cores
    decreases |run|
  {
    if run[0] != Skip(key) {
      SkippedHasNoMachine(plan, Apply(s, run[0]), run[1..], key);
    }
  }

  /** An activated mapping is skipped exactly when it is deactivated in the end although its machine has gone. */
  lemma SkippedExactlyWhenGone(plan: Plan, s: State, run: seq<Event>, key: MappingKey)
    requires Lawful(plan, s, run) && Directed(run, Deactivation) && s.Has(key, Activated)
    ensures Skip(key) in run <==> After(s, run).Has(key, Deactivated) && key.target !in plan.cores
  {
    if Skip(key) in run {
      SkippedHasNoMachine(plan, s, run, key);
      SkipLasts(plan, s, run, key);
    } else if After(s, run).Has(key, Deactivated) {
      MovedHasMachine(plan, s, run, key);
    }
  }

  lemma {:induction false} SkipLasts(plan: Plan, s: State, run: seq<Event>, key: MappingKey)
    requires Lawful(plan, s, run) && Directed(run, Deactivation) && Skip(key) in run
    ensures After(s, run).Has(key, Deactivated)
    decreases |run|
  {
    var t := Apply(s, run[0]);
    DirectedParts(run, Deactivation, 1, |run|);
    assert run[1..|run|] == run[1..];
    if run[0] == Skip(key) {
      RunProgresses(plan, Deactivation, t, run[1..]);
      assert KeyProgressed(plan, Deactivation, t, After(s, run), key);
    } else {
      SkipLasts(plan, t, run[1..], key);
    }
  }

  /** An activated mapping that is not skipped leaves that status by a process, on a machine that is present. */
  lemma {:induction false} MovedHasMachine(plan: Plan, s: State, run: seq<Event>, key: MappingKey)
    requires Lawful(plan, s, run) && Skip(key) !in run && s.Has(key, Activated) && !After(s, run).Has(key, Activated)
    ensures key.target in plan.cores
    decreases |run|
  {
    if Apply(s, run[0]).Has(key, Activated) {
      MovedHasMachine(plan, Apply(s, run[0]), run[1..], key);
    }
  }

  // ----- the phases -----

  /** The events of a transition that has not begun to roll back: obsolete mappings go down, added ones come up. */
  predicate Advances(e: Event, obsolete: set<MappingKey>, added: set<MappingKey>) {
    match e
    case Start(key, dir) => key in if dir.Activation? then added else obsolete
    case ForkFailed(key, dir) => key in if dir.Activation? then added else obsolete
    case Finish(key, dir, _) => key in if dir.Activation? then added else obsolete
    case Skip(key) => key in obsolete
    case WaitInterrupted => true
    case Believe(_, _) => false
  }

  predicate Forward(had: set<MappingKey>, want: set<MappingKey>, run: seq<Event>) {
    forall e :: e in run ==> Advances(e, had - want, want - had)
  }

  /** A process could not be created for a rollback, which goes against the direction of the phases. */
  predicate RollbackRefused(had: set<MappingKey>, want: set<MappingKey>, run: seq<Event>) {
    exists e :: e in run && e.ForkFailed? && !Advances(e, had - want, want - had)
  }

  lemma RollbackRefusedConcat(had: set<MappingKey>, want: set<MappingKey>, run: seq<Event>, more: seq<Event>)
    ensures RollbackRefused(had, want, run + more) <==> RollbackRefused(had, want, run) || RollbackRefused(had, want, more)
  {
    if e :| e in run && e.ForkFailed? && !Advances(e, had - want, want - had) {
      assert e in run + more;
    }
    if e :| e in more && e.ForkFailed? && !Advances(e, had - want, want - had) {
      assert e in run + more;
    }
  }

  /** A process of a rollback could not be created, or reported failure. */
  predicate RollbackFaulted(had: set<MappingKey>, want: set<MappingKey>, run: seq<Event>) {
    exists e :: e in run && Fault(e) && !Advances(e, had - want, want - had)
  }

  lemma RollbackFaultedConcat(had: set<MappingKey>, want: set<MappingKey>, run: seq<Event>, more: seq<Event>)
    ensures RollbackFaulted(had, want, run + more) <==> RollbackFaulted(had, want, run) || RollbackFaulted(had, want, more)
  {
    if e :| e in run && Fault(e) && !Advances(e, had - want, want - had) {
      assert e in run + more;
    }
    if e :| e in more && Fault(e) && !Advances(e, had - want, want - had) {
      assert e in run + more;
    }
  }

  /** The commands of a run all undo what the phases do. */
  predicate Backward(had: set<MappingKey>, want: set<MappingKey>, run: seq<Event>) {
    forall e :: e in run && (Command(e) || e.Skip?) ==> !Advances(e, had - want, want - had)
  }

  /** While a configuration is brought back or taken back, every process that could not be created or has failed was
      for a rollback. */
  lemma BackwardRefusals(had: set<MappingKey>, want: set<MappingKey>, dir: Direction, run: seq<Event>)
    requires Directed(run, dir) && Within(run, if dir.Activation? then had else want - had)
    ensures RollbackRefused(had, want, run) <==> ForkFailedIn(run)
    ensures RollbackFaulted(had, want, run) <==> Faulted(run)
    ensures Backward(had, want, run)
  {
    if e :| e in run && e.ForkFailed? {
      assert InDirection(e, dir);
    }
    if e :| e in run && Fault(e) {
      assert InDirection(e, dir);
    }
  }

  /** Mappings of both configurations are activated and the added ones deactivated: all that is left is to
      settle the obsolete mappings. */
  ghost predicate ObsoleteOpen(had: set<MappingKey>, want: set<MappingKey>, s: State) {
    && (forall key :: key in had * want ==> s.Has(key, Activated))
    && (forall key :: key in want - had ==> s.Has(key, Deactivated))
  }

  /** Mappings of both configurations are activated and the obsolete ones deactivated. */
  ghost predicate AddedOpen(had: set<MappingKey>, want: set<MappingKey>, s: State) {
    && (forall key :: key in had * want ==> s.Has(key, Activated))
    && (forall key :: key in had - want ==> s.Has(key, Deactivated))
  }

  ghost predicate Lists(keys: seq<MappingKey>, members: set<MappingKey>) {
    forall key :: key in keys <==> key in members
  }

  lemma ListedAreRoots(plan: Plan, had: set<MappingKey>, want: set<MappingKey>, scope: set<MappingKey>,
                       roots: seq<MappingKey>, members: set<MappingKey>)
    requires Between(plan, had, want) && Lists(roots, members) && members <= scope && members <= had + want
    ensures Rooted(plan, scope, roots)
  {
    forall i | 0 <= i < |roots| ensures roots[i] in plan.keys && roots[i] in scope {
      assert roots[i] in members;
    }
  }

  lemma AllRootsAtGoal(roots: seq<MappingKey>, members: set<MappingKey>, t: State, status: ServiceMappingStatus)
    requires Lists(roots, members)
    ensures (forall j :: 0 <= j < |roots| ==> t.Has(roots[j], status)) <==> (forall key :: key in members ==> t.Has(key, status))
  {
    if forall j :: 0 <= j < |roots| ==> t.Has(roots[j], status) {
      forall key | key in members ensures t.Has(key, status) {
        assert key in roots;
      }
    } else {
      var j :| 0 <= j < |roots| && !t.Has(roots[j], status);
      assert roots[j] in members;
    }
  }

  lemma OpenAfter(plan: Plan, had: set<MappingKey>, want: set<MappingKey>, scope: set<MappingKey>, s: State,
                  run: seq<Event>, t: State)
    requires Steered(plan, had, want, s, run, t) && Within(run, scope)
    ensures scope <= had && ObsoleteOpen(had, want, s) ==> ObsoleteOpen(had, want, t)
    ensures scope <= want && AddedOpen(had, want, s) ==> AddedOpen(had, want, t)
  {
    forall key | key in had * want && s.Has(key, Activated) ensures t.Has(key, Activated) {
      UntouchedKeepsStatus(s, run, key);
    }
    forall key | key !in scope && s.Has(key, Deactivated) ensures t.Has(key, Deactivated) {
      OutsideIsKept(s, run, scope, key);
    }
  }

  lemma SkippedAreGone(plan: Plan, keys: set<MappingKey>, s: State, run: seq<Event>, t: State)
    requires Lawful(plan, s, run) && After(s, run) == t && Directed(run, Deactivation)
    requires forall key :: key in keys ==> s.Has(key, Activated)
    ensures Skipping(run, keys) <==> !Hosts(plan, Fallen(keys, t))
  {
    forall key | key in keys ensures Skip(key) in run <==> t.Has(key, Deactivated) && key.target !in plan.cores {
      SkippedExactlyWhenGone(plan, s, run, key);
    }
    if !Hosts(plan, Fallen(keys, t)) {
      var key :| key in Fallen(keys, t) && key.target !in plan.cores;
      assert Skip(key) in run;
    }
  }

  /** Deactivating the obsolete mappings succeeds exactly without faults, and then leaves what both configurations have. */
  lemma ObsoletePhase(plan: Plan, had: set<MappingKey>, want: set<MappingKey>, roots: seq<MappingKey>,
                      s: State, run: seq<Event>, t: State, verdict: Verdict)
    requires Ranked(plan) && Between(plan, had, want) && Deployed(plan, s, had)
    requires Lists(roots, had - want) && Within(run, had - want)
    requires Concluded(plan, Deactivation, roots, s, run, t, verdict)
    ensures Steered(plan, had, want, s, run, t) && ObsoleteOpen(had, want, t)
    ensures verdict == Returned(true) ==> Deployed(plan, t, had * want) && OnceEach(plan, Deactivation, had - want, run)
    ensures verdict.Returned? ==> (verdict.success <==> !Faulted(run))
    ensures Sparing(run) && Forward(had, want, run) && Commands(run, Deactivation) && Answered(run, t)
    ensures Skipping(run, had - want) <==> !Hosts(plan, Fallen(had - want, t))
  {
    DifferencesAreClosed(plan, had, want);
    SteeredDown(plan, had, want, had - want, s, run, t);
    TraversalIsSparing(plan, Deactivation, s, run);
    TraversalIsAnswered(plan, Deactivation, s, run, t);
    SkippedAreGone(plan, had - want, s, run, t);
    OpenAfter(plan, had, want, had - want, s, run, t);
    AllRootsAtGoal(roots, had - want, t, Deactivated);
    ListedAreRoots(plan, had, want, had - want, roots, had - want);
    if verdict.Returned? {
      SucceedsExactly(plan, Deactivation, had - want, roots, s, run, t, verdict.success);
    }
    if verdict == Returned(true) {
      MovedOnceEach(plan, Deactivation, had - want, had - want, s, run, t);
    }
  }

  lemma AddedSpan(plan: Plan, had: set<MappingKey>, want: set<MappingKey>, roots: seq<MappingKey>, s: State)
    requires Between(plan, had, want) && Deployed(plan, s, had * want) && Lists(roots, want - had)
    ensures Spanned(plan, Activation, want, roots, s)
    ensures Hosted(plan, Activation, want, s) <==> Hosts(plan, want - had)
  {
    ListedAreRoots(plan, had, want, want, roots, want - had);
    forall key | key in want && s.Has(key, Deactivated) ensures key in want - had {
      assert key in plan.keys;
    }
  }

  lemma AddedSucceeds(plan: Plan, had: set<MappingKey>, want: set<MappingKey>, roots: seq<MappingKey>,
                      s: State, run: seq<Event>, t: State)
    requires Between(plan, had, want) && Deployed(plan, s, had * want) && Lists(roots, want - had) && Within(run, want)
    requires Traversed(plan, Activation, roots, s, run, t, true) && AddedOpen(had, want, t)
    ensures Deployed(plan, t, want) && OnceEach(plan, Activation, want - had, run)
  {
    AllRootsAtGoal(roots, want - had, t, Activated);
    MovedOnceEach(plan, Activation, want - had, want, s, run, t);
  }

  /** Activating the added mappings succeeds exactly without faults and missing machines, and then deploys the new configuration. */
  lemma AddedPhase(plan: Plan, had: set<MappingKey>, want: set<MappingKey>, roots: seq<MappingKey>,
                   s: State, run: seq<Event>, t: State, verdict: Verdict)
    requires Ranked(plan) && Between(plan, had, want) && Deployed(plan, s, had * want)
    requires Lists(roots, want - had) && Within(run, want)
    requires Concluded(plan, Activation, roots, s, run, t, verdict)
    ensures Steered(plan, had, want, s, run, t) && AddedOpen(had, want, t)
    ensures verdict == Returned(true) ==> Deployed(plan, t, want) && OnceEach(plan, Activation, want - had, run)
    ensures verdict.Returned? ==> (verdict.success <==> !Faulted(run) && Hosts(plan, want - had))
    ensures Sparing(run) && Forward(had, want, run) && Commands(run, Activation) && Answered(run, t)
  {
    SteeredUp(plan, had, want, want, s, run, t);
    TraversalIsSparing(plan, Activation, s, run);
    TraversalIsAnswered(plan, Activation, s, run, t);
    OpenAfter(plan, had, want, want, s, run, t);
    if verdict.Returned? {
      AddedSpan(plan, had, want, roots, s);
      SucceedsExactly(plan, Activation, want, roots, s, run, t, verdict.success);
    }
    if verdict == Returned(true) {
      AddedSucceeds(plan, had, want, roots, s, run, t);
    }
  }

  /** Nothing is in progress or erroneous. */
  predicate Definite(keys: set<MappingKey>, s: State) {
    forall key :: key in keys ==> s.Has(key, Activated) || s.Has(key, Deactivated)
  }

  /** When a rollback succeeds: exactly when none of its processes fails and no machine is missing that it needs. */
  lemma RollbackSucceeds(plan: Plan, dir: Direction, scope: set<MappingKey>, roots: seq<MappingKey>,
                         s: State, run: seq<Event>, t: State, success: bool)
    requires Ranked(plan) && Rooted(plan, scope, roots) && Closed(plan, dir, scope) && Lists(roots, scope)
    requires Definite(scope, s) && Within(run, scope)
    requires Traversed(plan, dir, roots, s, run, t, success) && Explained(plan, dir, roots, run, t)
    ensures success <==> !Faulted(run) && (dir.Activation? ==> Hosts(plan, Fallen(scope, s)))
  {
    SucceedsExactly(plan, dir, scope, roots, s, run, t, success);
  }

  /** Taking back the added mappings. */
  lemma WithdrawalPhase(plan: Plan, had: set<MappingKey>, want: set<MappingKey>, roots: seq<MappingKey>,
                        s: State, run: seq<Event>, t: State, verdict: Verdict)
    requires Ranked(plan) && Between(plan, had, want) && AddedOpen(had, want, s) && Definite(want - had, s)
    requires Lists(roots, want - had) && Within(run, want - had)
    requires Concluded(plan, Deactivation, roots, s, run, t, verdict)
    ensures Steered(plan, had, want, s, run, t) && AddedOpen(had, want, t)
    ensures Sparing(run) && Backward(had, want, run) && Commands(run, Deactivation)
    ensures verdict == Returned(true) ==> Deployed(plan, t, had * want)
    ensures verdict.Returned? ==> (verdict.success <==> ObsoleteOpen(had, want, t) && !RollbackRefused(had, want, run))
    ensures verdict.Returned? ==> (verdict.success <==> !Faulted(run))
    ensures RollbackFaulted(had, want, run) <==> Faulted(run)
  {
    if verdict.Returned? {
      DifferencesAreClosed(plan, had, want);
      ListedAreRoots(plan, had, want, want - had, roots, want - had);
      RollbackSucceeds(plan, Deactivation, want - had, roots, s, run, t, verdict.success);
    }
    SteeredDown(plan, had, want, want - had, s, run, t);
    OpenAfter(plan, had, want, want - had, s, run, t);
    AllRootsAtGoal(roots, want - had, t, Deactivated);
    BackwardRefusals(had, want, Deactivation, run);
    TraversalIsSparing(plan, Deactivation, s, run);
  }

  /** Bringing back the obsolete mappings. */
  lemma RestorationPhase(plan: Plan, had: set<MappingKey>, want: set<MappingKey>, roots: seq<MappingKey>,
                         s: State, run: seq<Event>, t: State, verdict: Verdict)
    requires Ranked(plan) && Between(plan, had, want) && ObsoleteOpen(had, want, s) && Definite(had, s)
    requires Lists(roots, had) && Within(run, had)
    requires Concluded(plan, Activation, roots, s, run, t, verdict)
    ensures Steered(plan, had, want, s, run, t) && ObsoleteOpen(had, want, t)
    ensures Sparing(run) && Backward(had, want, run) && Commands(run, Activation)
    ensures verdict.Returned? ==> (verdict.success <==> Deployed(plan, t, had) && !RollbackRefused(had, want, run))
    ensures verdict.Returned? ==> (verdict.success <==> !Faulted(run) && Hosts(plan, Fallen(had, s)))
    ensures RollbackFaulted(had, want, run) <==> Faulted(run)
  {
    if verdict.Returned? {
      ListedAreRoots(plan, had, want, had, roots, had);
      RollbackSucceeds(plan, Activation, had, roots, s, run, t, verdict.success);
    }
    SteeredUp(plan, had, want, had, s, run, t);
    OpenAfter(plan, had, want, had, s, run, t);
    AllRootsAtGoal(roots, had, t, Activated);
    BackwardRefusals(had, want, Activation, run);
    TraversalIsSparing(plan, Activation, s, run);
  }
}
