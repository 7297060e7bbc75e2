/** What the operating system is asked for by a lawful run: to activate and to deactivate mappings, when the recorded
    statuses call for it, and never again for a mapping whose process has failed. */
module Requests {
  import opened InterDependencyMappings
  import opened Environments
  import opened Protocol
  import opened Safety

  // ----- events and actions -----

  lemma Regroup<T>(x: seq<T>, y: seq<T>, z: seq<T>)
    ensures x + (y + z) == (x + y) + z
  {}

  lemma {:induction false} ActionsConcat(a: seq<Event>, b: seq<Event>)
    ensures Actions(a + b) == Actions(a) + Actions(b)
  {
    if a == [] {
      assert a + b == b;
    } else {
      ActionsConcat(a[1..], b);
      Regroup(ActionOf(a[0]), Actions(a[1..]), Actions(b));
      assert (a + b)[0] == a[0] && (a + b)[1..] == a[1..] + b;
    }
  }

  lemma {:induction false} ActionHasEvent(run: seq<Event>, a: Action) returns (e: Event)
    requires a in Actions(run)
    ensures e in run && ActionOf(e) == [a]
  {
    if a in ActionOf(run[0]) {
      e := run[0];
    } else {
      e := ActionHasEvent(run[1..], a);
    }
  }

  lemma {:induction false} EventHasAction(run: seq<Event>, e: Event, a: Action)
    requires e in run && ActionOf(e) == [a]
    ensures a in Actions(run)
  {
    if run[0] == e {
      assert Actions(run)[0] == a;
    } else {
      EventHasAction(run[1..], e, a);
    }
  }

  lemma CountsAdd<T>(first: seq<T>, rest: seq<T>, x: T)
    ensures multiset(first + rest)[x] == multiset(first)[x] + multiset(rest)[x]
  {}

  lemma CreationIsStart(e: Event, key: MappingKey)
    ensures multiset(ActionOf(e))[Created(key, Activating)] == multiset([e])[Start(key, Activation)]
    ensures multiset(ActionOf(e))[Created(key, Deactivating)] == multiset([e])[Start(key, Deactivation)]
  {}

  /** The processes created to activate and to deactivate a mapping are those its commands started. */
  lemma {:induction false} CreationsAreStarts(run: seq<Event>, key: MappingKey)
    ensures multiset(Actions(run))[Created(key, Activating)] == multiset(run)[Start(key, Activation)]
    ensures multiset(Actions(run))[Created(key, Deactivating)] == multiset(run)[Start(key, Deactivation)]
  {
    if run != [] {
      CreationsAreStarts(run[1..], key);
      CreationIsStart(run[0], key);
      CountsAdd(ActionOf(run[0]), Actions(run[1..]), Created(key, Activating));
      CountsAdd(ActionOf(run[0]), Actions(run[1..]), Created(key, Deactivating));
      CountsAdd([run[0]], run[1..], Start(key, Activation));
      CountsAdd([run[0]], run[1..], Start(key, Deactivation));
      assert run == [run[0]] + run[1..];
    }
  }

  // ----- when something is asked for -----

  /** What calls for the process in a recorded state: only deactivated mappings are activated, with all their
      inter-dependencies activated, and only activated ones deactivated, when all that depends on them is deactivated. */
  predicate CalledFor(plan: Plan, s: State, key: MappingKey, activity: Activity) {
    match activity
    case Activating => s.Has(key, Deactivated) && forall x :: x in Dependencies(plan.services, key) ==> s.Has(x, Activated)
    case Deactivating =>
      s.Has(key, Activated)
      && forall x :: x in plan.keys && key in Dependencies(plan.services, x) ==> s.Has(x, Deactivated)
    case Snapshotting => false
  }

  /** Processes are asked for when they are called for and the machine is present, complete when they are in progress,
      and only waits for them are interrupted. */
  predicate Justified(plan: Plan, s: State, a: Action) {
    match a
    case Created(key, activity) => key.target in plan.cores && CalledFor(plan, s, key, activity)
    case Refused(key, activity) => key.target in plan.cores && CalledFor(plan, s, key, activity)
    case Completed(key, _) => s.Has(key, InProgress)
    case Signalled => !s.Quiet()
  }

  /** In this state just the given actions lie in the past, and the next one is justified. */
  predicate Moment(plan: Plan, s: State, past: seq<Action>, a: Action) {
    s.history == past && Justified(plan, s, a)
  }

  /** Each of the actions is justified at a point of the run at which just the earlier ones had been asked for. */
  ghost predicate JustifiedThroughout(plan: Plan, s: State, run: seq<Event>, asked: seq<Action>) {
    forall j :: 0 <= j < |asked| ==> JustifiedAt(plan, s, run, s.history + asked[..j], asked[j])
  }

  ghost predicate JustifiedAt(plan: Plan, s: State, run: seq<Event>, past: seq<Action>, a: Action) {
    exists i :: 0 <= i <= |run| && Moment(plan, After(s, run[..i]), past, a)
  }

  lemma StepIsJustified(plan: Plan, s: State, e: Event, a: Action)
    requires Enabled(plan, s, e) && ActionOf(e) == [a]
    ensures Justified(plan, s, a)
  {}

  lemma JustifiedEarlier(plan: Plan, s: State, run: seq<Event>, past: seq<Action>, a: Action)
    requires run != [] && JustifiedAt(plan, Apply(s, run[0]), run[1..], past, a)
    ensures JustifiedAt(plan, s, run, past, a)
  {
    var i :| 0 <= i <= |run[1..]| && Moment(plan, After(Apply(s, run[0]), run[1..][..i]), past, a);
    assert run[..i + 1][1..] == run[1..][..i];
    assert Moment(plan, After(s, run[..i + 1]), past, a);
  }

  lemma JustifiedNow(plan: Plan, s: State, run: seq<Event>, a: Action)
    requires run != [] && Enabled(plan, s, run[0]) && ActionOf(run[0]) == [a]
    ensures JustifiedAt(plan, s, run, s.history, a)
  {
    StepIsJustified(plan, s, run[0], a);
    assert run[..0] == [];
    assert Moment(plan, After(s, run[..0]), s.history, a);
  }

  /** The action at an index: of the first event, or of the rest. */
  lemma SplitAt(past: seq<Action>, first: seq<Action>, rest: seq<Action>, j: nat)
    requires |first| <= 1 && j < |first + rest|
    ensures j < |first| ==> first == [(first + rest)[j]] && past + (first + rest)[..j] == past
    ensures j >= |first| ==> (first + rest)[j] == rest[j - |first|]
                             && past + (first + rest)[..j] == (past + first) + rest[..j - |first|]
  {
    if j >= |first| {
      assert (first + rest)[..j] == first + rest[..j - |first|];
    }
  }

  lemma HistoryOfStep(s: State, e: Event)
    ensures Apply(s, e).history == s.history + ActionOf(e)
  {}

  /** Whatever a lawful run asks for is called for at that time. */
  lemma {:induction false} LawfulIsJustified(plan: Plan, s: State, run: seq<Event>)
    requires Lawful(plan, s, run)
    ensures JustifiedThroughout(plan, s, run, Actions(run))
    decreases |run|
  {
    if run != [] {
      var first, rest := ActionOf(run[0]), Actions(run[1..]);
      LawfulIsJustified(plan, Apply(s, run[0]), run[1..]);
      HistoryOfStep(s, run[0]);
      forall j | 0 <= j < |first + rest|
        ensures JustifiedAt(plan, s, run, s.history + (first + rest)[..j], (first + rest)[j])
      {
        SplitAt(s.history, first, rest, j);
        if j < |first| {
          JustifiedNow(plan, s, run, (first + rest)[j]);
        } else {
          JustifiedEarlier(plan, s, run, s.history + (first + rest)[..j], (first + rest)[j]);
        }
      }
    }
  }

  // ----- after a failure -----

  /** The event asks for a process. */
  predicate Command(e: Event) {
    e.Start? || e.ForkFailed?
  }

  predicate Asks(a: Action, key: MappingKey) {
    (a.Created? || a.Refused?) && a.key == key
  }

  /** For a mapping whose process has failed no process is asked for again. */
  ghost predicate FailuresAreFinal(asked: seq<Action>) {
    forall i, j :: 0 <= i < j < |asked| && asked[i].Completed? && !asked[i].ok ==> !Asks(asked[j], asked[i].key)
  }

  lemma FailuresConcat(a: seq<Action>, b: seq<Action>)
    requires FailuresAreFinal(a) && FailuresAreFinal(b)
    requires forall x, y :: x in a && y in b && x.Completed? && !x.ok ==> !Asks(y, x.key)
    ensures FailuresAreFinal(a + b)
  {
    var asked := a + b;
    forall i, j | 0 <= i < j < |asked| && asked[i].Completed? && !asked[i].ok ensures !Asks(asked[j], asked[i].key) {
      if i < |a| <= j {
        assert asked[i] in a && asked[j] in b;
      } else if j < |a| {
        assert asked[i] == a[i] && asked[j] == a[j];
      } else {
        assert asked[i] == b[i - |a|] && asked[j] == b[j - |a|];
      }
    }
  }

  /** A traversal commands only mappings that it has found with the opposite status. */
  lemma {:induction false} CommandedFromOrigin(plan: Plan, dir: Direction, s: State, run: seq<Event>, e: Event)
    requires Lawful(plan, s, run) && Directed(run, dir) && e in run && Command(e)
    ensures s.Has(e.key, dir.Origin())
    decreases |run|
  {
    if run[0] != e {
      assert run[0] in run;
      DirectedParts(run, dir, 1, |run|);
      assert run[1..|run|] == run[1..];
      CommandedFromOrigin(plan, dir, Apply(s, run[0]), run[1..], e);
    }
  }

  /** The first action can only be followed by commands to other mappings. */
  lemma FailureIsFinal(plan: Plan, dir: Direction, s: State, e: Event, rest: seq<Event>)
    requires e.Finish? && !e.ok && Lawful(plan, Apply(s, e), rest) && Directed(rest, dir)
    ensures forall y :: y in Actions(rest) ==> !Asks(y, e.key)
  {
    forall y | y in Actions(rest) ensures !Asks(y, e.key) {
      var c := ActionHasEvent(rest, y);
      if Asks(y, e.key) {
        CommandedFromOrigin(plan, dir, Apply(s, e), rest, c);
        assert false;
      }
    }
  }

  lemma {:induction false} DirectedFailures(plan: Plan, dir: Direction, s: State, run: seq<Event>)
    requires Lawful(plan, s, run) && Directed(run, dir)
    ensures FailuresAreFinal(Actions(run))
    decreases |run|
  {
    if run != [] {
      DirectedParts(run, dir, 1, |run|);
      assert run[1..|run|] == run[1..];
      DirectedFailures(plan, dir, Apply(s, run[0]), run[1..]);
      if run[0].Finish? && !run[0].ok {
        FailureIsFinal(plan, dir, s, run[0], run[1..]);
      }
      FailuresConcat(ActionOf(run[0]), Actions(run[1..]));
    }
  }

  /** The mappings whose processes have failed are recorded as erroneous, and none of them has been given another command. */
  ghost predicate Answered(run: seq<Event>, t: State) {
    FailuresAreFinal(Actions(run)) && forall key, d :: Finish(key, d, false) in run ==> t.Has(key, Erroneous)
  }

  /** Erroneous mappings are left alone. */
  ghost predicate Considerate(s: State, run: seq<Event>) {
    FailuresAreFinal(Actions(run)) && forall e :: e in run && Command(e) ==> !s.Has(e.key, Erroneous)
  }

  lemma FailedIsErroneous(run: seq<Event>, t: State, x: Action)
    requires Answered(run, t) && x in Actions(run) && x.Completed? && !x.ok
    ensures t.Has(x.key, Erroneous)
  {
    var e := ActionHasEvent(run, x);
    assert e == Finish(x.key, e.dir, false);
  }

  lemma AskedIsHealthy(s: State, run: seq<Event>, y: Action, key: MappingKey)
    requires Considerate(s, run) && y in Actions(run) && Asks(y, key)
    ensures !s.Has(key, Erroneous)
  {
    var e := ActionHasEvent(run, y);
    assert Command(e) && e.key == key;
  }

  lemma AnsweredThenConsiderate(run: seq<Event>, t: State, back: seq<Event>)
    requires Answered(run, t) && Considerate(t, back)
    ensures FailuresAreFinal(Actions(run + back))
  {
    forall x, y | x in Actions(run) && y in Actions(back) && x.Completed? && !x.ok ensures !Asks(y, x.key) {
      FailedIsErroneous(run, t, x);
      if Asks(y, x.key) {
        AskedIsHealthy(t, back, y, x.key);
      }
    }
    FailuresConcat(Actions(run), Actions(back));
    ActionsConcat(run, back);
  }

  /** Without a failure so far, only what follows counts. */
  lemma FlawlessThen(run: seq<Event>, more: seq<Event>)
    requires forall e :: e in run ==> !(e.Finish? && !e.ok)
    requires FailuresAreFinal(Actions(more))
    ensures FailuresAreFinal(Actions(run + more))
  {
    forall x | x in Actions(run) ensures !(x.Completed? && !x.ok) {
      var e := ActionHasEvent(run, x);
    }
    FailuresConcat(Actions(run), Actions(more));
    ActionsConcat(run, more);
  }
}
