/** Small runs that show what the general results warn of: traversals that never return, and a rollback that
    restores everything but is reported as failed. */
module Scenarios {
  import opened Wrappers
  import opened InterDependencyMappings
  import opened Protocol
  import opened Safety
  import opened Cores
  import opened Blocking
  import opened Visits
  import opened Starvation
  import opened Sweeps
  import opened Configurations
  import opened Manifests

  const A := MappingKey("a", "c", "m")
  const B := MappingKey("b", "c", "m")

  /** Two mappings on one machine, the second of which depends on the first. */
  function Pair(cores: int): Plan {
    Plan([A, B],
         map["a" := ManifestService("a", "", []), "b" := ManifestService("b", "", [A])],
         map["m" := cores], map[A := 0, B := 1], 1)
  }

  /** Nothing is activated yet. */
  const IDLE := Initial([A, B], {}, [])

  lemma PairIsSorted()
    ensures Sorted([A, B])
  {
    assert CompareKeys(A, B) < 0 by {
      CompareStringsIdentity("m", "m");
      CompareStringsIdentity("c", "c");
      assert "a"[0] != "b"[0];
    }
  }

  lemma PairIsRanked(cores: int)
    ensures Ranked(Pair(cores))
  {
    var plan := Pair(cores);
    forall key, x | key in plan.keys && x in Dependencies(plan.services, key)
      ensures x in plan.keys && plan.rank[x] < plan.rank[key]
    {
      assert x == A && key == B;
    }
  }

  lemma PairIsWellFormed(cores: int)
    ensures WellFormed(Pair(cores))
  {
    PairIsSorted();
    PairIsRanked(cores);
  }

  /** While nothing is activated and the machine has no cores, both mappings are starved. */
  lemma PairIsStarved(cores: int, s: State)
    requires s.status == IDLE.status && s.Lost("m") >= cores
    ensures Ranked(Pair(cores))
    ensures Starved(Pair(cores), Activation, s, A) && Starved(Pair(cores), Activation, s, B)
  {
    PairIsWellFormed(cores);
    var plan := Pair(cores);
    assert Before(plan, Activation, A) == [] && Before(plan, Activation, B) == [A];
    assert Blocker(plan, Activation, s, A) == Some(A);
    assert Blocker(plan, Activation, s, B) == Some(A);
  }

  /** One core, and the process of the first mapping cannot be created: the core is lost, and whatever happens next
      both mappings stay starved, so that every later sweep has to be repeated. */
  lemma OneCoreRefusedOnce(more: seq<Event>)
    ensures var plan, refused := Pair(1), [ForkFailed(A, Activation)];
            && WellFormed(plan) && Lawful(plan, IDLE, refused)
            && (Lawful(plan, After(IDLE, refused), more) && Directed(more, Activation) ==>
                  Hungry(plan, Activation, After(IDLE, refused + more), [A, B]))
  {
    var plan, refused := Pair(1), [ForkFailed(A, Activation)];
    PairIsWellFormed(1);
    RunSingle(plan, IDLE, refused[0]);
    var s := After(IDLE, refused);
    PairIsStarved(1, s);
    if Lawful(plan, s, more) && Directed(more, Activation) {
      PairIsCounted(1, s);
      StarvedForEver(plan, Activation, s, more, A);
      RunConcat(plan, IDLE, refused, more);
      assert [A, B][0] == A;
    }
  }

  lemma PairIsCounted(cores: int, s: State)
    requires s.status == IDLE.status && s.busy == map[]
    ensures Counted(Pair(cores), s) && s.Quiet()
  {
    QuietIsIdle(Pair(cores), s);
  }

  /** A machine without a core count has no core available: nothing on it is ever activated. */
  lemma NoCoresFromTheStart(more: seq<Event>)
    requires Lawful(Pair(0), IDLE, more) && Directed(more, Activation)
    ensures WellFormed(Pair(0)) && Hungry(Pair(0), Activation, After(IDLE, more), [A, B])
  {
    PairIsWellFormed(0);
    PairIsStarved(0, IDLE);
    PairIsCounted(0, IDLE);
    StarvedForEver(Pair(0), Activation, IDLE, more, A);
    assert [A, B][0] == A;
  }

  /** With the first mapping as the only root, the traversal that has lost the only core returns nevertheless. */
  lemma OneCoreRefusedAndReturned()
    ensures var plan, refused := Pair(1), [ForkFailed(A, Activation)];
            && Traversed(plan, Activation, [A], IDLE, refused, After(IDLE, refused), false)
            && Ranked(plan) && Hungry(plan, Activation, After(IDLE, refused), [A])
  {
    var plan, refused := Pair(1), [ForkFailed(A, Activation)];
    RunSingle(plan, IDLE, refused[0]);
    PairIsStarved(1, After(IDLE, refused));
    assert [A][0] == A;
    assert refused[0] in refused;
  }

  /** Two cores, one of which is lost before both mappings are brought back. */
  const RESTORATION := [ForkFailed(A, Activation), Start(A, Activation), Finish(A, Activation, true),
                        Start(B, Activation), Finish(B, Activation, true)]

  /** Everything is restored, but a process has been refused: the traversal returns without success. */
  lemma RestoredButFailed()
    ensures var plan, t := Pair(2), After(IDLE, RESTORATION);
            && WellFormed(plan) && Between(plan, {A, B}, {})
            && Traversed(plan, Activation, [A, B], IDLE, RESTORATION, t, false)
            && Deployed(plan, t, {A, B})
            && RollbackRefused({A, B}, {}, RESTORATION)
  {
    PairIsWellFormed(2);
    PairIsBetween(2);
    RestorationSteps();
    RestorationIsPaced();
    RestorationIsRefused();
    RefusalIsRemembered(Pair(2), IDLE, RESTORATION, After(IDLE, RESTORATION));
  }

  /** A refusal makes the traversal fail, wherever it has led. */
  lemma RefusalIsRemembered(plan: Plan, s: State, run: seq<Event>, t: State)
    requires plan.keys == [A, B] && Traversing(plan, Activation, s, run, t) && ForkFailedIn(run)
    requires t.Has(A, Activated) && t.Has(B, Activated) && t.status.Keys == {A, B}
    ensures Traversed(plan, Activation, [A, B], s, run, t, false) && Deployed(plan, t, {A, B})
  {}

  lemma PairIsBetween(cores: int)
    ensures Between(Pair(cores), {A, B}, {})
  {
    assert forall key :: key in [A, B] <==> key == A || key == B;
  }

  lemma RestorationIsRefused()
    ensures ForkFailedIn(RESTORATION) && RollbackRefused({A, B}, {}, RESTORATION)
  {
    assert RESTORATION[0] in RESTORATION && A in {A, B} - {};
  }

  lemma RestorationIsPaced()
    ensures Directed(RESTORATION, Activation) && Reaped(RESTORATION)
  {}

  /** The state after the first `i` events. */
  predicate Restoring(s: State, i: nat) {
    && s.Lost("m") == (if i > 0 then 1 else 0)
    && s.Busy("m") == (if i == 2 || i == 4 then 1 else 0)
    && s.status == map[A := if i < 2 then Deactivated else if i == 2 then InProgress else Activated,
                       B := if i < 4 then Deactivated else if i == 4 then InProgress else Activated]
  }

  lemma RestorationStep(s: State, i: nat)
    requires i < 5 && Restoring(s, i)
    ensures Enabled(Pair(2), s, RESTORATION[i]) && Restoring(Apply(s, RESTORATION[i]), i + 1)
  {
    var plan := Pair(2);
    assert Before(plan, Activation, A) == [] && Before(plan, Activation, B) == [A];
  }

  lemma RestorationSteps()
    ensures var plan, t := Pair(2), After(IDLE, RESTORATION);
            Lawful(plan, IDLE, RESTORATION) && t.Has(A, Activated) && t.Has(B, Activated) && t.status.Keys == {A, B}
  {
    var plan, run, s := Pair(2), [], IDLE;
    for i := 0 to 5
      invariant run == RESTORATION[..i] && Lawful(plan, IDLE, run) && s == After(IDLE, run) && Restoring(s, i)
    {
      RestorationStep(s, i);
      RunAppend(plan, IDLE, run, RESTORATION[i]);
      run, s := run + [RESTORATION[i]], Apply(s, RESTORATION[i]);
    }
    assert RESTORATION[..5] == RESTORATION;
  }

  /** The first mapping on a machine that has gone. */
  const ABANDONED := Plan([A], map["a" := ManifestService("a", "", [])], map[], map[A := 0], 1)

  /** An obsolete mapping whose machine has gone is deactivated without a process, and no rollback brings it back: the
      traversal that should do so has nothing to start and returns without success. */
  lemma SkippedIsNotBroughtBack()
    ensures var start, gone := Initial([A], {A}, []), After(Initial([A], {A}, []), [Skip(A)]);
            && Traversed(ABANDONED, Deactivation, [A], start, [Skip(A)], gone, true)
            && Traversed(ABANDONED, Activation, [A], gone, [], gone, false)
            && Skipping([Skip(A)], {A}) && !RollbackFaulted({A}, {}, [Skip(A)])
  {
    var start := Initial([A], {A}, []);
    assert forall x :: x !in Before(ABANDONED, Deactivation, A);
    RunSingle(ABANDONED, start, Skip(A));
    assert Skip(A) in [Skip(A)];
    assert [A][0] == A;
  }
}
