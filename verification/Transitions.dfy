/** The transition phase: obsolete mappings are deactivated and added ones activated, and when a phase
    fails or is interrupted the previous configuration is restored by compensating traversals. */
module Transitions {
  import opened Wrappers
  import opened InterDependencyMappings
  import opened Protocol
  import opened ServiceMappings
  import opened Environments
  import opened Coordinators
  import opened Blocking
  import opened Visits
  import opened Starvation
  import opened Safety
  import opened Cores
  import opened Sweeps
  import opened Traversal
  import opened Configurations
  import opened Requests
  import opened Manifests
  import opened ServicesTables
  import opened Targets

  datatype TransitionStatus =
    | TransitionSuccess
    | TransitionFailed
    | ObsoleteMappingsRollbackFailed
    | NewMappingsRollbackFailed

  /** The tables are valid, the process counts right and the dependency invariant holds. */
  ghost predicate Steady(c: Coordinator)
    reads c`now, c`pidTable, c.mappings`status, c.targets.Values`availableCores, c.env`children, c.env`interrupted, c.env`history
  {
    c.Valid() && Counted(c.plan, c.now) && Safe(c.plan, c.now)
  }

  /** Between two traversals nothing is in progress. */
  ghost predicate Ready(c: Coordinator)
    reads c`now, c`pidTable, c.mappings`status, c.targets.Values`availableCores, c.env`children, c.env`interrupted, c.env`history
  {
    Steady(c) && c.now.Quiet()
  }

  // ----- re-marking errors -----

  /** The errors among the first `i` mappings have been re-marked. */
  ghost predicate Marking(keys: seq<MappingKey>, i: nat, s: State, t: State, status: ServiceMappingStatus) {
    && t.busy == s.busy && t.lost == s.lost && t.history == s.history && t.status.Keys == s.status.Keys
    && (forall j :: 0 <= j < |keys| && keys[j] in s.status ==>
          t.status[keys[j]] == if j < i && s.status[keys[j]].Erroneous? then status else s.status[keys[j]])
  }

  /** The run re-marks just the errors among the first `i` mappings. */
  ghost predicate MarksFirst(keys: seq<MappingKey>, i: nat, run: seq<Event>, s: State, status: ServiceMappingStatus)
    requires i <= |keys|
  {
    forall e :: e in run <==> e.Believe? && e.status == status && e.key in keys[..i] && s.Has(e.key, Erroneous)
  }

  /** The lawful run that has re-marked the errors among the first `i` mappings. */
  ghost predicate MarkedBy(plan: Plan, i: nat, s: State, run: seq<Event>, t: State, status: ServiceMappingStatus)
    requires i <= |plan.keys|
  {
    && Marking(plan.keys, i, s, t, status) && Lawful(plan, s, run) && After(s, run) == t
    && MarksFirst(plan.keys, i, run, s, status)
  }

  lemma MarksNext(keys: seq<MappingKey>, i: nat, run: seq<Event>, s: State, status: ServiceMappingStatus)
    requires i < |keys| && MarksFirst(keys, i, run, s, status)
    ensures s.Has(keys[i], Erroneous) ==> MarksFirst(keys, i + 1, run + [Believe(keys[i], status)], s, status)
    ensures !s.Has(keys[i], Erroneous) ==> MarksFirst(keys, i + 1, run, s, status)
  {
    assert keys[..i + 1] == keys[..i] + [keys[i]];
  }

  lemma MarkingNext(keys: seq<MappingKey>, i: nat, s: State, t: State, status: ServiceMappingStatus)
    requires Sorted(keys) && i < |keys| && keys[i] in s.status && Marking(keys, i, s, t, status)
    ensures s.Has(keys[i], Erroneous) ==> Marking(keys, i + 1, s, t.WithStatus(keys[i], status), status)
    ensures !s.Has(keys[i], Erroneous) ==> Marking(keys, i + 1, s, t, status)
    ensures s.Has(keys[i], Erroneous) <==> t.Has(keys[i], Erroneous)
  {
    forall j | 0 <= j < |keys| && keys[j] == keys[i] ensures j == i {
      SortedIsDistinct(keys, i, j);
    }
  }

  lemma MarkNext(plan: Plan, i: nat, s: State, run: seq<Event>, t: State, status: ServiceMappingStatus)
    requires Sorted(plan.keys) && i < |plan.keys| && plan.keys[i] in s.status && (status.Activated? || status.Deactivated?)
    requires MarkedBy(plan, i, s, run, t, status)
    ensures plan.keys[i] in t.status
    ensures !t.Has(plan.keys[i], Erroneous) ==> MarkedBy(plan, i + 1, s, run, t, status)
    ensures t.Has(plan.keys[i], Erroneous) ==>
              MarkedBy(plan, i + 1, s, run + [Believe(plan.keys[i], status)], t.WithStatus(plan.keys[i], status), status)
  {
    MarkingNext(plan.keys, i, s, t, status);
    MarksNext(plan.keys, i, run, s, status);
    RunAppend(plan, s, run, Believe(plan.keys[i], status));
  }

  lemma MarkedIsReady(plan: Plan, s: State, run: seq<Event>, t: State, status: ServiceMappingStatus)
    requires WellFormed(plan) && Covers(plan, s) && Safe(plan, s) && Counted(plan, s) && s.Quiet()
    requires MarkedBy(plan, |plan.keys|, s, run, t, status) && (status.Activated? || status.Deactivated?)
    ensures Remarked(s, t, status) && Safe(plan, t) && Counted(plan, t) && t.Quiet() && Marks(run, s, status)
  {
    assert plan.keys[..|plan.keys|] == plan.keys;
    forall key | key in s.status
      ensures t.status[key] == if s.status[key].Erroneous? then status else s.status[key]
    {
      var j :| 0 <= j < |plan.keys| && plan.keys[j] == key;
    }
    SafeThroughout(plan, s, run, |run|);
    assert run[..|run|] == run;
    RunKeepsCounts(plan, s, run);
  }

  /** Turns what is recorded as an error into the belief that the mapping has the given status. */
  method MarkErroneousMappings(c: Coordinator, status: ServiceMappingStatus) returns (ghost run: seq<Event>)
    requires c.Configured() && Ready(c) && (status.Activated? || status.Deactivated?)
    modifies c`now, c.mappings`status
    ensures Ready(c)
    ensures Lawful(c.plan, old(c.now), run) && After(old(c.now), run) == c.now
    ensures Remarked(old(c.now), c.now, status) && Marks(run, old(c.now), status)
  {
    run := [];
    for i := 0 to |c.mappings|
      invariant c.Valid() && MarkedBy(c.plan, i, old(c.now), run, c.now, status)
    {
      var mapping := c.mappings[i];
      c.MappingIsKnown(mapping);
      MarkNext(c.plan, i, old(c.now), run, c.now, status);
      if mapping.status.Erroneous? {
        c.Remark(mapping, status);
        run := run + [Believe(mapping.Key(), status)];
      }
    }
    MarkedIsReady(c.plan, old(c.now), run, c.now, status);
  }

  // ----- traversals that do not return -----

  /** Why a traversal has not returned: one of its roots waits for a machine that has no cores left, or its sweeps have
      not been watched for long enough. */
  ghost predicate Lingers(plan: Plan, dir: Direction, roots: set<MappingKey>, now: State, run: seq<Event>, patience: nat)
    requires Ranked(plan)
  {
    || patience <= |plan.keys| + Interrupts(run)
    || exists root :: root in roots && Starved(plan, dir, now, root)
  }

  lemma LingersAfter(plan: Plan, dir: Direction, roots: set<MappingKey>, now: State, before: seq<Event>, run: seq<Event>,
                     patience: nat)
    requires Ranked(plan) && Lingers(plan, dir, roots, now, run, patience)
    ensures Lingers(plan, dir, roots, now, before + run, patience)
  {
    InterruptsConcat(before, run);
  }

  lemma HungryLingers(plan: Plan, dir: Direction, roots: seq<MappingKey>, members: set<MappingKey>, now: State,
                      run: seq<Event>, patience: nat)
    requires Ranked(plan) && Lists(roots, members)
    requires patience <= |plan.keys| + Interrupts(run) || Hungry(plan, dir, now, roots)
    ensures Lingers(plan, dir, members, now, run, patience)
  {
    if Hungry(plan, dir, now, roots) {
      var j :| 0 <= j < |roots| && Starved(plan, dir, now, roots[j]);
      assert roots[j] in members;
    }
  }

  /** The traversals of a transition: its two phases and the two compensating ones. */
  datatype Leg = Stopping | Starting | TakingBack | BringingBack {
    function Dir(): Direction {
      if Starting? || BringingBack? then Activation else Deactivation
    }

    function Roots(had: set<MappingKey>, want: set<MappingKey>): set<MappingKey> {
      match this
      case Stopping => had - want
      case Starting => want - had
      case TakingBack => want - had
      case BringingBack => had
    }
  }

  /** How far the transition has come during a traversal. */
  ghost predicate During(leg: Leg, had: set<MappingKey>, want: set<MappingKey>, now: State, run: seq<Event>, noRollback: bool) {
    match leg
    case Stopping => Forward(had, want, run) && ObsoleteOpen(had, want, now)
    case Starting => Forward(had, want, run) && AddedOpen(had, want, now)
    case TakingBack => !noRollback && AddedOpen(had, want, now)
    case BringingBack => !noRollback && ObsoleteOpen(had, want, now)
  }

  /** Why a transition has not ended: one of its traversals has not returned. */
  ghost predicate Unfinished(plan: Plan, had: set<MappingKey>, want: set<MappingKey>, now: State, run: seq<Event>,
                             noRollback: bool, patience: nat)
    requires Ranked(plan)
  {
    exists leg: Leg ::
      During(leg, had, want, now, run, noRollback) && Lingers(plan, leg.Dir(), leg.Roots(had, want), now, run, patience)
  }

  lemma UnfinishedDuring(plan: Plan, had: set<MappingKey>, want: set<MappingKey>, now: State, run: seq<Event>,
                         noRollback: bool, patience: nat, leg: Leg)
    requires Ranked(plan) && During(leg, had, want, now, run, noRollback)
    requires Lingers(plan, leg.Dir(), leg.Roots(had, want), now, run, patience)
    ensures Unfinished(plan, had, want, now, run, noRollback, patience)
  {}

  lemma UnfinishedAfter(plan: Plan, had: set<MappingKey>, want: set<MappingKey>, now: State, before: seq<Event>,
                        run: seq<Event>, noRollback: bool, patience: nat)
    requires Ranked(plan) && Forward(had, want, before) && Unfinished(plan, had, want, now, run, noRollback, patience)
    ensures Unfinished(plan, had, want, now, before + run, noRollback, patience)
  {
    var leg: Leg :| During(leg, had, want, now, run, noRollback)
                    && Lingers(plan, leg.Dir(), leg.Roots(had, want), now, run, patience);
    LingersAfter(plan, leg.Dir(), leg.Roots(had, want), now, before, run, patience);
    UnfinishedDuring(plan, had, want, now, before + run, noRollback, patience, leg);
  }

  /** A traversal of some roots, with the reason why it has not returned. */
  method Traverse(c: Coordinator, dir: Direction, roots: seq<ServiceMapping>, patience: nat, ghost scope: set<MappingKey>,
                  ghost members: set<MappingKey>)
    returns (verdict: Verdict, ghost run: seq<Event>)
    requires c.Configured() && Ready(c)
    requires Rooted(c.plan, scope, Keys(roots)) && Closed(c.plan, dir, scope) && Lists(Keys(roots), members)
    modifies c`now, c`pidTable, c.mappings`status, c.targets.Values`availableCores,
             c.env`children, c.env`history, c.env`interrupted
    ensures Steady(c) && (verdict.Returned? ==> c.now.Quiet())
    ensures Concluded(c.plan, dir, Keys(roots), old(c.now), run, c.now, verdict) && Within(run, scope)
    ensures verdict.StillSweeping? ==> Lingers(c.plan, dir, members, c.now, run, patience)
    ensures old(c.env.interrupted) ==> c.env.interrupted
  {
    ghost var sweeps, last;
    verdict, run, sweeps, last := TraverseServiceMappings(c, dir, roots, patience, scope);
    assert run[..|run|] == run;
    if verdict.StillSweeping? {
      HungryLingers(c.plan, dir, Keys(roots), members, c.now, run, patience);
    }
  }

  // ----- rollbacks -----

  /** What bringing back the previous configuration does: only mappings that were deactivated are given a command, erroneous
      ones are believed to be activated; it succeeds exactly when no process fails and every mapping that was deactivated
      has its machine, which is exactly when all are activated and no process was refused. */
  ghost predicate BroughtBack(plan: Plan, had: set<MappingKey>, want: set<MappingKey>, s: State, run: seq<Event>, t: State,
                              verdict: Verdict, patience: nat)
    requires Ranked(plan)
  {
    && Steered(plan, had, want, s, run, t) && ObsoleteOpen(had, want, t)
    && Sparing(run) && Backward(had, want, run) && Commands(run, Activation)
    && Corrects(s, run, t, Deactivated, Activated)
    && (RollbackFaulted(had, want, run) <==> Faulted(run))
    && (verdict.Returned? ==> (verdict.success <==> !Faulted(run) && Hosts(plan, Fallen(had, s))))
    && (verdict.Returned? ==> (verdict.success <==> Deployed(plan, t, had) && !RollbackRefused(had, want, run)))
    && (verdict.StillSweeping? ==> Lingers(plan, Activation, had, t, run, patience))
  }

  /** What taking back the added mappings does: only mappings that were activated are given a command, erroneous ones are
      believed to be deactivated; it succeeds exactly when no process fails, which is exactly when all are deactivated and
      no process was refused. */
  ghost predicate TakenBack(plan: Plan, had: set<MappingKey>, want: set<MappingKey>, s: State, run: seq<Event>, t: State,
                            verdict: Verdict, patience: nat)
    requires Ranked(plan)
  {
    && Steered(plan, had, want, s, run, t) && AddedOpen(had, want, t)
    && Sparing(run) && Backward(had, want, run) && Commands(run, Deactivation)
    && Corrects(s, run, t, Activated, Deactivated)
    && (RollbackFaulted(had, want, run) <==> Faulted(run))
    && (verdict.Returned? ==> (verdict.success <==> !Faulted(run)))
    && (verdict == Returned(true) ==> Deployed(plan, t, had * want))
    && (verdict.Returned? ==> (verdict.success <==> ObsoleteOpen(had, want, t) && !RollbackRefused(had, want, run)))
    && (verdict.StillSweeping? ==> Lingers(plan, Deactivation, want - had, t, run, patience))
  }

  /** Brings back the previous configuration, believing that erroneous mappings are activated. */
  method RollbackToOldMappings(c: Coordinator, oldMappings: seq<ServiceMapping>, patience: nat,
                               ghost had: set<MappingKey>, ghost want: set<MappingKey>)
    returns (verdict: Verdict, ghost run: seq<Event>)
    requires c.Configured() && Ready(c)
    requires Between(c.plan, had, want) && Lists(Keys(oldMappings), had) && ObsoleteOpen(had, want, c.now)
    modifies c`now, c`pidTable, c.mappings`status, c.targets.Values`availableCores,
             c.env`children, c.env`history, c.env`interrupted
    ensures Steady(c) && (verdict.Returned? ==> c.now.Quiet())
    ensures BroughtBack(c.plan, had, want, old(c.now), run, c.now, verdict, patience)
    ensures old(c.env.interrupted) ==> c.env.interrupted
  {
    ghost var marks := MarkErroneousMappings(c, Activated);
    ghost var marked := c.now;
    RemarkedIsDefinite(c.plan, had, want, had, old(c.now), marks, marked, Activated);
    ListedAreRoots(c.plan, had, want, had, Keys(oldMappings), had);
    ghost var up;
    verdict, up := Traverse(c, Activation, oldMappings, patience, had, had);
    RestorationPhase(c.plan, had, want, Keys(oldMappings), marked, up, c.now, verdict);
    run := marks + up;
    CorrectsAfterRemark(c.plan, Activation, old(c.now), marks, marked, up, c.now);
    AfterRemarks(c.plan, had, want, old(c.now), marks, marked, up, c.now, Activation, had, patience);
  }

  /** Re-marking leaves no errors, and what is deactivated is deactivated still. */
  lemma RemarkedIsDefinite(plan: Plan, had: set<MappingKey>, want: set<MappingKey>, keys: set<MappingKey>, s: State,
                           marks: seq<Event>, t: State, status: ServiceMappingStatus)
    requires Between(plan, had, want) && keys <= had + want && Covers(plan, s) && s.Quiet()
    requires Lawful(plan, s, marks) && After(s, marks) == t && Marks(marks, s, status) && Remarked(s, t, status)
    requires status.Activated? || status.Deactivated?
    requires forall key :: key in had * want ==> s.Has(key, Activated)
    ensures Steered(plan, had, want, s, marks, t) && Definite(keys, t)
    ensures status.Activated? ==> Fallen(keys, t) == Fallen(keys, s)
  {
    SteeredRemark(plan, had, want, s, marks, t, status);
    forall key | key in keys
      ensures (t.Has(key, Activated) || t.Has(key, Deactivated)) && (status.Activated? ==> t.Has(key, Deactivated) == s.Has(key, Deactivated))
    {
      assert key in plan.keys && key in s.status;
    }
  }

  /** Re-marking adds no command and no refusal to what follows. */
  lemma AfterRemarks(plan: Plan, had: set<MappingKey>, want: set<MappingKey>, s: State, marks: seq<Event>, t: State,
                     run: seq<Event>, u: State, dir: Direction, roots: set<MappingKey>, patience: nat)
    requires Ranked(plan) && (forall e :: e in marks ==> e.Believe?)
    requires Steered(plan, had, want, s, marks, t) && Steered(plan, had, want, t, run, u)
    ensures Steered(plan, had, want, s, marks + run, u)
    ensures Sparing(run) ==> Sparing(marks + run)
    ensures Backward(had, want, run) ==> Backward(had, want, marks + run)
    ensures Commands(run, dir) ==> Commands(marks + run, dir)
    ensures RollbackRefused(had, want, marks + run) <==> RollbackRefused(had, want, run)
    ensures RollbackFaulted(had, want, marks + run) <==> RollbackFaulted(had, want, run)
    ensures Faulted(marks + run) <==> Faulted(run)
    ensures Lingers(plan, dir, roots, u, run, patience) ==> Lingers(plan, dir, roots, u, marks + run, patience)
  {
    SteeredConcat(plan, had, want, s, marks, t, run, u);
    RollbackRefusedConcat(had, want, marks, run);
    RollbackFaultedConcat(had, want, marks, run);
    FaultedConcat(marks, run);
    if Sparing(run) {
      BelievesAreSparing(marks);
      SparingConcat(marks, run);
    }
    if Lingers(plan, dir, roots, u, run, patience) {
      LingersAfter(plan, dir, roots, u, marks, run, patience);
    }
  }

  lemma BelievesAreSparing(marks: seq<Event>)
    requires forall e :: e in marks ==> e.Believe?
    ensures Sparing(marks)
  {
    forall key, d ensures multiset(marks)[Start(key, d)] <= 1 {
      assert Start(key, d) !in marks;
    }
  }

  /** Takes back the added mappings, believing that erroneous mappings are deactivated. */
  method RollbackNewMappings(c: Coordinator, activation: seq<ServiceMapping>, patience: nat, ghost had: set<MappingKey>,
                             ghost want: set<MappingKey>)
    returns (verdict: Verdict, ghost run: seq<Event>)
    requires c.Configured() && Ready(c)
    requires Between(c.plan, had, want) && Lists(Keys(activation), want - had) && AddedOpen(had, want, c.now)
    modifies c`now, c`pidTable, c.mappings`status, c.targets.Values`availableCores,
             c.env`children, c.env`history, c.env`interrupted
    ensures Steady(c) && (verdict.Returned? ==> c.now.Quiet())
    ensures TakenBack(c.plan, had, want, old(c.now), run, c.now, verdict, patience)
    ensures old(c.env.interrupted) ==> c.env.interrupted
  {
    ghost var marks := MarkErroneousMappings(c, Deactivated);
    ghost var marked := c.now;
    RemarkedIsDefinite(c.plan, had, want, want - had, old(c.now), marks, marked, Deactivated);
    ListedAreRoots(c.plan, had, want, want - had, Keys(activation), want - had);
    DifferencesAreClosed(c.plan, had, want);
    ghost var down;
    verdict, down := Traverse(c, Deactivation, activation, patience, want - had, want - had);
    WithdrawalPhase(c.plan, had, want, Keys(activation), marked, down, c.now, verdict);
    run := marks + down;
    CorrectsAfterRemark(c.plan, Deactivation, old(c.now), marks, marked, down, c.now);
    AfterRemarks(c.plan, had, want, old(c.now), marks, marked, down, c.now, Deactivation, want - had, patience);
  }

  // ----- the two phases -----

  /** What the outcome of a phase that may roll back says about the state it leaves, and about the rollback: it succeeds
      exactly when none of its processes fails and what has to be brought back is hosted. */
  ghost predicate Reverted(plan: Plan, had: set<MappingKey>, want: set<MappingKey>, hosted: bool, run: seq<Event>, now: State,
                           status: TransitionStatus) {
    && (!status.TransitionSuccess? ==>
          (status.TransitionFailed? <==> Deployed(plan, now, had) && !RollbackRefused(had, want, run)))
    && (!status.TransitionSuccess? ==> (status.TransitionFailed? <==> !RollbackFaulted(had, want, run) && hosted))
    && (status.NewMappingsRollbackFailed? ==> AddedOpen(had, want, now))
    && (status.ObsoleteMappingsRollbackFailed? ==> ObsoleteOpen(had, want, now))
  }

  /** Without a rollback every step goes forward, and a failure leaves the second phase untouched or the first completed. */
  ghost predicate Halted(had: set<MappingKey>, want: set<MappingKey>, run: seq<Event>, now: State,
                         status: TransitionStatus) {
    && Forward(had, want, run)
    && (status.TransitionSuccess? || status.TransitionFailed?)
    && (status.TransitionFailed? ==> ObsoleteOpen(had, want, now) || AddedOpen(had, want, now))
  }

  /** How a phase has ended. */
  ghost predicate Settled(plan: Plan, had: set<MappingKey>, want: set<MappingKey>, hosted: bool, run: seq<Event>, now: State,
                          noRollback: bool, status: TransitionStatus) {
    && (status.TransitionSuccess? || noRollback ==> Halted(had, want, run, now, status))
    && (!noRollback ==> Reverted(plan, had, want, hosted, run, now, status))
  }

  /** What was rolled back after a phase settles the phase. */
  lemma SettledByRollback(plan: Plan, had: set<MappingKey>, want: set<MappingKey>, s: State, run: seq<Event>, t: State,
                          back: seq<Event>, u: State)
    requires Steered(plan, had, want, s, run, t) && Steered(plan, had, want, t, back, u)
    requires Sparing(run) && Forward(had, want, run) && Sparing(back) && Backward(had, want, back)
    ensures Steered(plan, had, want, s, run + back, u) && Sparing(run + back)
    ensures RollbackRefused(had, want, run + back) <==> RollbackRefused(had, want, back)
    ensures RollbackFaulted(had, want, run + back) <==> RollbackFaulted(had, want, back)
    ensures Faulted(run) ==> Faulted(run + back)
    ensures Skipping(run + back, had - want) <==> Skipping(run, had - want)
  {
    SteeredConcat(plan, had, want, s, run, t, back, u);
    SparingConcat(run, back);
    RollbackRefusedConcat(had, want, run, back);
    RollbackFaultedConcat(had, want, run, back);
    FaultedConcat(run, back);
    SkippingConcat(run, back, had - want);
    BackwardSkipsNothing(had, want, back);
  }

  lemma SkippingConcat(a: seq<Event>, b: seq<Event>, keys: set<MappingKey>)
    ensures Skipping(a + b, keys) <==> Skipping(a, keys) || Skipping(b, keys)
  {
    if key :| key in keys && Skip(key) in a {
      assert Skip(key) in a + b;
    }
    if key :| key in keys && Skip(key) in b {
      assert Skip(key) in a + b;
    }
    if key :| key in keys && Skip(key) in a + b {
      assert Skip(key) in a || Skip(key) in b;
    }
  }

  lemma BackwardSkipsNothing(had: set<MappingKey>, want: set<MappingKey>, run: seq<Event>)
    requires Backward(had, want, run)
    ensures !Skipping(run, had - want)
  {
    forall key | key in had - want ensures Skip(key) !in run {
      assert Advances(Skip(key), had - want, want - had);
    }
  }

  /** A success only counts when the flag is not set. */
  method UnlessInterrupted(c: Coordinator, verdict: Verdict) returns (result: Verdict)
    requires Steady(c)
    modifies c.env`interrupted
    ensures Steady(c) && (old(c.env.interrupted) ==> c.env.interrupted)
    ensures result == if verdict == Returned(true) then Returned(!c.env.interrupted) else verdict
  {
    result := verdict;
    if verdict == Returned(true) {
      var interrupted := c.env.ReadInterrupted();
      result := Returned(!interrupted);
    }
  }

  /** The condition of the deactivation phase: the traversal succeeds and has not been interrupted. */
  method DeactivateUnlessInterrupted(c: Coordinator, obsolete: seq<ServiceMapping>, patience: nat,
                                     ghost had: set<MappingKey>, ghost want: set<MappingKey>)
    returns (verdict: Verdict, ghost run: seq<Event>)
    requires c.Configured() && Ready(c)
    requires Between(c.plan, had, want) && Deployed(c.plan, c.now, had) && Lists(Keys(obsolete), had - want)
    modifies c`now, c`pidTable, c.mappings`status, c.targets.Values`availableCores,
             c.env`children, c.env`history, c.env`interrupted
    ensures Steady(c) && (verdict.Returned? ==> c.now.Quiet())
    ensures Steered(c.plan, had, want, old(c.now), run, c.now) && ObsoleteOpen(had, want, c.now)
    ensures Sparing(run) && Forward(had, want, run) && Commands(run, Deactivation) && Answered(run, c.now)
    ensures Skipping(run, had - want) <==> !Hosts(c.plan, Fallen(had - want, c.now))
    ensures verdict == Returned(true) ==> Deployed(c.plan, c.now, had * want) && OnceEach(c.plan, Deactivation, had - want, run)
    ensures verdict.Returned? ==> (verdict.success <==> !Faulted(run) && !c.env.interrupted)
    ensures verdict.StillSweeping? ==> Lingers(c.plan, Deactivation, had - want, c.now, run, patience)
  {
    DifferencesAreClosed(c.plan, had, want);
    ListedAreRoots(c.plan, had, want, had - want, Keys(obsolete), had - want);
    verdict, run := Traverse(c, Deactivation, obsolete, patience, had - want, had - want);
    ObsoletePhase(c.plan, had, want, Keys(obsolete), old(c.now), run, c.now, verdict);
    verdict := UnlessInterrupted(c, verdict);
  }

  method DeactivateObsoleteMappings(c: Coordinator, deactivation: Option<seq<ServiceMapping>>,
                                    oldMappings: seq<ServiceMapping>, noRollback: bool, patience: nat,
                                    ghost had: set<MappingKey>, ghost want: set<MappingKey>)
    returns (status: Option<TransitionStatus>, ghost run: seq<Event>)
    requires c.Configured() && Ready(c)
    requires Between(c.plan, had, want) && Deployed(c.plan, c.now, had) && Lists(Keys(oldMappings), had)
    requires match deactivation
             case None => had == {}
             case Some(obsolete) => Lists(Keys(obsolete), had - want)
    modifies c`now, c`pidTable, c.mappings`status, c.targets.Values`availableCores,
             c.env`children, c.env`history, c.env`interrupted
    ensures Steady(c) && Steered(c.plan, had, want, old(c.now), run, c.now) && Sparing(run)
    ensures FailuresAreFinal(Actions(run))
    ensures status.Some? ==>
              c.now.Quiet() && Settled(c.plan, had, want, !Skipping(run, had - want), run, c.now, noRollback, status.value)
    ensures status == Some(TransitionSuccess) ==>
              && Deployed(c.plan, c.now, had * want) && !Faulted(run) && OnceEach(c.plan, Deactivation, had - want, run)
              && (Skipping(run, had - want) <==> !Hosts(c.plan, had - want))
    ensures status.Some? && !status.value.TransitionSuccess? ==> Faulted(run) || c.env.interrupted
    ensures deactivation.Some? && status == Some(TransitionSuccess) ==> !c.env.interrupted
    ensures status != Some(NewMappingsRollbackFailed)
    ensures status.None? ==> Unfinished(c.plan, had, want, c.now, run, noRollback, patience)
  {
    if deactivation.None? {
      status, run := Some(TransitionSuccess), [];
      assert had * want == had;
      return;
    }
    var verdict;
    verdict, run := DeactivateUnlessInterrupted(c, deactivation.value, patience, had, want);
    if verdict.StillSweeping? {
      status := None;
      UnfinishedDuring(c.plan, had, want, c.now, run, noRollback, patience, Stopping);
    } else if verdict.success {
      status := Some(TransitionSuccess);
      AllFallen(c.plan, had - want, c.now);
    } else if noRollback {
      status := Some(TransitionFailed);
    } else {
      ghost var middle := c.now;
      ghost var back;
      verdict, back := RollbackToOldMappings(c, oldMappings, patience, had, want);
      status := match verdict {
        case StillSweeping => None
        case Returned(success) => Some(if success then TransitionFailed else ObsoleteMappingsRollbackFailed)
      };
      AfterDeactivation(c.plan, had, want, old(c.now), run, middle, back, c.now, verdict, patience);
      run := run + back;
    }
  }

  lemma AllFallen(plan: Plan, keys: set<MappingKey>, s: State)
    requires forall key :: key in keys ==> s.Has(key, Deactivated)
    ensures Fallen(keys, s) == keys
  {}

  lemma OnlyObsoleteFallen(had: set<MappingKey>, want: set<MappingKey>, s: State)
    requires ObsoleteOpen(had, want, s)
    ensures Fallen(had, s) == Fallen(had - want, s)
  {
    forall key | key in had ensures key in Fallen(had, s) <==> key in Fallen(had - want, s) {
      assert key in had * want <==> key in want;
    }
  }

  /** A failed deactivation phase and its rollback. */
  lemma AfterDeactivation(plan: Plan, had: set<MappingKey>, want: set<MappingKey>, s: State, run: seq<Event>, t: State,
                          back: seq<Event>, u: State, verdict: Verdict, patience: nat)
    requires Ranked(plan) && Steered(plan, had, want, s, run, t)
    requires Sparing(run) && Forward(had, want, run) && Answered(run, t) && ObsoleteOpen(had, want, t)
    requires Skipping(run, had - want) <==> !Hosts(plan, Fallen(had - want, t))
    requires BroughtBack(plan, had, want, t, back, u, verdict, patience)
    ensures Steered(plan, had, want, s, run + back, u) && Sparing(run + back) && FailuresAreFinal(Actions(run + back))
    ensures Faulted(run) ==> Faulted(run + back)
    ensures verdict.Returned? ==>
              Settled(plan, had, want, !Skipping(run + back, had - want), run + back, u, false,
                      if verdict.success then TransitionFailed else ObsoleteMappingsRollbackFailed)
    ensures verdict.StillSweeping? ==> Unfinished(plan, had, want, u, run + back, false, patience)
  {
    SettledByRollback(plan, had, want, s, run, t, back, u);
    AnsweredThenConsiderate(run, t, back);
    OnlyObsoleteFallen(had, want, t);
    if verdict.StillSweeping? {
      LingersAfter(plan, Activation, had, u, run, back, patience);
      UnfinishedDuring(plan, had, want, u, run + back, false, patience, BringingBack);
    }
  }

  /** The condition of the activation phase: the traversal succeeds and has not been interrupted. */
  method ActivateUnlessInterrupted(c: Coordinator, activation: seq<ServiceMapping>, patience: nat,
                                   ghost had: set<MappingKey>, ghost want: set<MappingKey>)
    returns (verdict: Verdict, ghost run: seq<Event>)
    requires c.Configured() && Ready(c)
    requires Between(c.plan, had, want) && Deployed(c.plan, c.now, had * want) && Lists(Keys(activation), want - had)
    modifies c`now, c`pidTable, c.mappings`status, c.targets.Values`availableCores,
             c.env`children, c.env`history, c.env`interrupted
    ensures Steady(c) && (verdict.Returned? ==> c.now.Quiet())
    ensures Steered(c.plan, had, want, old(c.now), run, c.now) && AddedOpen(had, want, c.now)
    ensures Sparing(run) && Forward(had, want, run) && Commands(run, Activation) && Answered(run, c.now)
    ensures verdict == Returned(true) ==> Deployed(c.plan, c.now, want) && OnceEach(c.plan, Activation, want - had, run)
    ensures verdict.Returned? ==>
              (verdict.success <==> !Faulted(run) && !c.env.interrupted && Hosts(c.plan, want - had))
    ensures verdict.StillSweeping? ==> Lingers(c.plan, Activation, want - had, c.now, run, patience)
  {
    ListedAreRoots(c.plan, had, want, want, Keys(activation), want - had);
    verdict, run := Traverse(c, Activation, activation, patience, want, want - had);
    AddedPhase(c.plan, had, want, Keys(activation), old(c.now), run, c.now, verdict);
    verdict := UnlessInterrupted(c, verdict);
  }

  /** No obsolete mapping is stopped or skipped. */
  predicate Spares(run: seq<Event>, obsolete: set<MappingKey>) {
    forall e :: e in run && (e.Skip? || (e.Start? && e.dir.Deactivation?)) ==> e.key !in obsolete
  }

  method ActivateNewMappings(c: Coordinator, activation: seq<ServiceMapping>, oldMappings: Option<seq<ServiceMapping>>,
                             noRollback: bool, patience: nat, ghost had: set<MappingKey>, ghost want: set<MappingKey>)
    returns (status: Option<TransitionStatus>, ghost run: seq<Event>)
    requires c.Configured() && Ready(c)
    requires Between(c.plan, had, want) && Deployed(c.plan, c.now, had * want) && Lists(Keys(activation), want - had)
    requires match oldMappings
             case None => had == {}
             case Some(previous) => Lists(Keys(previous), had)
    modifies c`now, c`pidTable, c.mappings`status, c.targets.Values`availableCores,
             c.env`children, c.env`history, c.env`interrupted
    ensures Steady(c) && Steered(c.plan, had, want, old(c.now), run, c.now) && Sparing(run) && Spares(run, had - want)
    ensures FailuresAreFinal(Actions(run))
    ensures status.Some? ==>
              c.now.Quiet() && Settled(c.plan, had, want, Hosts(c.plan, had - want), run, c.now, noRollback, status.value)
    ensures status == Some(TransitionSuccess) ==> Deployed(c.plan, c.now, want) && OnceEach(c.plan, Activation, want - had, run)
    ensures status.Some? ==>
              (status.value.TransitionSuccess? <==> !Faulted(run) && !c.env.interrupted && Hosts(c.plan, want - had))
    ensures status.None? ==> Unfinished(c.plan, had, want, c.now, run, noRollback, patience)
  {
    var verdict;
    verdict, run := ActivateUnlessInterrupted(c, activation, patience, had, want);
    if verdict.StillSweeping? {
      status := None;
      UnfinishedDuring(c.plan, had, want, c.now, run, noRollback, patience, Starting);
    } else if verdict.success {
      status := Some(TransitionSuccess);
    } else if noRollback {
      status := Some(TransitionFailed);
    } else {
      ghost var middle := c.now;
      ghost var back;
      status, back := RevertActivation(c, activation, oldMappings, patience, had, want);
      AfterActivation(c.plan, had, want, old(c.now), run, middle, back, c.now, status, patience);
      run := run + back;
    }
  }

  /** A failed activation phase and what has been done to revert it. */
  lemma AfterActivation(plan: Plan, had: set<MappingKey>, want: set<MappingKey>, s: State, run: seq<Event>, t: State,
                        back: seq<Event>, u: State, status: Option<TransitionStatus>, patience: nat)
    requires Ranked(plan) && Steered(plan, had, want, s, run, t) && Steered(plan, had, want, t, back, u)
    requires Sparing(run) && Forward(had, want, run) && Commands(run, Activation) && Answered(run, t)
    requires Sparing(back) && Backward(had, want, back) && Considerate(t, back)
    requires status.Some? ==> !status.value.TransitionSuccess? && Reverted(plan, had, want, Hosts(plan, had - want), back, u, status.value)
    requires status.None? ==> Unfinished(plan, had, want, u, back, false, patience)
    ensures Steered(plan, had, want, s, run + back, u) && Sparing(run + back) && Spares(run + back, had - want)
    ensures FailuresAreFinal(Actions(run + back)) && (Faulted(run) ==> Faulted(run + back))
    ensures status.Some? ==> Settled(plan, had, want, Hosts(plan, had - want), run + back, u, false, status.value)
    ensures status.None? ==> Unfinished(plan, had, want, u, run + back, false, patience)
  {
    SettledByRollback(plan, had, want, s, run, t, back, u);
    AnsweredThenConsiderate(run, t, back);
    SparesThroughout(had, want, run, back);
    if status.None? {
      UnfinishedAfter(plan, had, want, u, run, back, false, patience);
    }
  }

  lemma SparesThroughout(had: set<MappingKey>, want: set<MappingKey>, run: seq<Event>, back: seq<Event>)
    requires Commands(run, Activation) && Backward(had, want, back)
    ensures Spares(run + back, had - want)
  {
    forall e | e in run + back && (e.Skip? || (e.Start? && e.dir.Deactivation?)) ensures e.key !in had - want {
      assert e in back;
    }
  }

  /** The rollback of a failed activation: the added mappings are taken back, then the obsolete ones brought back. */
  method RevertActivation(c: Coordinator, activation: seq<ServiceMapping>, oldMappings: Option<seq<ServiceMapping>>,
                          patience: nat, ghost had: set<MappingKey>, ghost want: set<MappingKey>)
    returns (status: Option<TransitionStatus>, ghost run: seq<Event>)
    requires c.Configured() && Ready(c)
    requires Between(c.plan, had, want) && AddedOpen(had, want, c.now) && Lists(Keys(activation), want - had)
    requires match oldMappings
             case None => had == {}
             case Some(previous) => Lists(Keys(previous), had)
    modifies c`now, c`pidTable, c.mappings`status, c.targets.Values`availableCores,
             c.env`children, c.env`history, c.env`interrupted
    ensures Steady(c) && Steered(c.plan, had, want, old(c.now), run, c.now)
    ensures Sparing(run) && Backward(had, want, run) && Considerate(old(c.now), run)
    ensures status != Some(TransitionSuccess)
    ensures status.Some? ==> c.now.Quiet() && Reverted(c.plan, had, want, Hosts(c.plan, had - want), run, c.now, status.value)
    ensures status.None? ==> Unfinished(c.plan, had, want, c.now, run, false, patience)
    ensures old(c.env.interrupted) ==> c.env.interrupted
  {
    var verdict;
    verdict, run := RollbackNewMappings(c, activation, patience, had, want);
    if verdict.StillSweeping? {
      status := None;
      UnfinishedDuring(c.plan, had, want, c.now, run, false, patience, TakingBack);
    } else if !verdict.success {
      status := Some(NewMappingsRollbackFailed);
      WithdrawalFails(c.plan, had, want, old(c.now), run, c.now, patience);
    } else if oldMappings.None? {
      status := Some(TransitionFailed);
      NothingToBringBack(c.plan, want, old(c.now), run, c.now, patience);
    } else {
      ghost var middle := c.now;
      ghost var back;
      verdict, back := RollbackToOldMappings(c, oldMappings.value, patience, had, want);
      status := match verdict {
        case StillSweeping => None
        case Returned(success) => Some(if success then TransitionFailed else ObsoleteMappingsRollbackFailed)
      };
      AfterWithdrawal(c.plan, had, want, old(c.now), run, middle, back, c.now, verdict, patience);
      run := run + back;
    }
  }

  /** The added mappings could not be taken back. */
  lemma WithdrawalFails(plan: Plan, had: set<MappingKey>, want: set<MappingKey>, s: State, run: seq<Event>, t: State,
                        patience: nat)
    requires Ranked(plan) && Between(plan, had, want) && TakenBack(plan, had, want, s, run, t, Returned(false), patience)
    ensures Reverted(plan, had, want, Hosts(plan, had - want), run, t, NewMappingsRollbackFailed)
  {
    assert Deployed(plan, t, had) ==> ObsoleteOpen(had, want, t);
  }

  /** On a first install the added mappings are all there is. */
  lemma NothingToBringBack(plan: Plan, want: set<MappingKey>, s: State, run: seq<Event>, t: State, patience: nat)
    requires Ranked(plan) && TakenBack(plan, {}, want, s, run, t, Returned(true), patience)
    ensures Reverted(plan, {}, want, Hosts(plan, {} - want), run, t, TransitionFailed)
  {
    assert {} * want == {};
  }

  /** The added mappings have been taken back, and the obsolete ones may have been brought back. */
  lemma AfterWithdrawal(plan: Plan, had: set<MappingKey>, want: set<MappingKey>, s: State, down: seq<Event>, t: State,
                        up: seq<Event>, u: State, verdict: Verdict, patience: nat)
    requires Ranked(plan) && Between(plan, had, want) && Covers(plan, s) && AddedOpen(had, want, s)
    requires TakenBack(plan, had, want, s, down, t, Returned(true), patience)
    requires BroughtBack(plan, had, want, t, up, u, verdict, patience)
    ensures Steered(plan, had, want, s, down + up, u)
    ensures Sparing(down + up) && Backward(had, want, down + up) && Considerate(s, down + up)
    ensures verdict.Returned? ==>
              Reverted(plan, had, want, Hosts(plan, had - want), down + up, u,
                       if verdict.success then TransitionFailed else ObsoleteMappingsRollbackFailed)
    ensures verdict.StillSweeping? ==> Unfinished(plan, had, want, u, down + up, false, patience)
  {
    RollbacksInTurn(plan, had, want, s, down, t, up, u);
    ConsiderateInTurn(plan, had, want, s, down, t, up, u);
    AllFallen(plan, had - want, t);
    OnlyObsoleteFallen(had, want, t);
    if verdict.StillSweeping? {
      LingersAfter(plan, Activation, had, u, down, up, patience);
      UnfinishedDuring(plan, had, want, u, down + up, false, patience, BringingBack);
    }
  }

  /** Both rollbacks together. */
  lemma RollbacksInTurn(plan: Plan, had: set<MappingKey>, want: set<MappingKey>, s: State, down: seq<Event>, t: State,
                        up: seq<Event>, u: State)
    requires Steered(plan, had, want, s, down, t) && Steered(plan, had, want, t, up, u)
    requires Sparing(down) && Backward(had, want, down) && Commands(down, Deactivation)
    requires Sparing(up) && Backward(had, want, up) && Commands(up, Activation)
    ensures Steered(plan, had, want, s, down + up, u) && Sparing(down + up) && Backward(had, want, down + up)
    ensures RollbackRefused(had, want, down + up) <==> RollbackRefused(had, want, down) || RollbackRefused(had, want, up)
    ensures RollbackFaulted(had, want, down + up) <==> RollbackFaulted(had, want, down) || RollbackFaulted(had, want, up)
  {
    SteeredConcat(plan, had, want, s, down, t, up, u);
    SparingConcat(down, up);
    RollbackRefusedConcat(had, want, down, up);
    RollbackFaultedConcat(had, want, down, up);
  }

  /** The second rollback has nothing to do with what failed before the first, which has not failed. */
  lemma ConsiderateInTurn(plan: Plan, had: set<MappingKey>, want: set<MappingKey>, s: State, down: seq<Event>, t: State,
                          up: seq<Event>, u: State)
    requires Between(plan, had, want) && Covers(plan, s) && AddedOpen(had, want, s)
    requires Corrects(s, down, t, Activated, Deactivated) && !Faulted(down)
    requires Corrects(t, up, u, Deactivated, Activated) && Backward(had, want, up) && Commands(up, Activation)
    ensures Considerate(s, down + up)
  {
    FlawlessThen(down, up);
    forall e | e in down + up && Command(e) ensures !s.Has(e.key, Erroneous) {
      if e in up {
        assert e.key !in want - had;
        assert e.key in plan.keys ==> e.key in had * want || e.key in had - want;
      }
    }
  }

  /** The two phases in sequence: the second only after the first has succeeded. */
  method ExecutePhases(c: Coordinator, deactivation: Option<seq<ServiceMapping>>, activation: seq<ServiceMapping>,
                       oldMappings: Option<seq<ServiceMapping>>, noRollback: bool, patience: nat,
                       ghost had: set<MappingKey>, ghost want: set<MappingKey>)
    returns (status: Option<TransitionStatus>, ghost run: seq<Event>)
    requires c.Configured() && Ready(c)
    requires Between(c.plan, had, want) && Deployed(c.plan, c.now, had)
    requires Lists(Keys(activation), want - had) && (deactivation.Some? <==> oldMappings.Some?)
    requires deactivation.None? ==> had == {}
    requires deactivation.Some? ==> Lists(Keys(deactivation.value), had - want) && Lists(Keys(oldMappings.value), had)
    modifies c`now, c`pidTable, c.mappings`status, c.targets.Values`availableCores,
             c.env`children, c.env`history, c.env`interrupted
    ensures Steady(c) && Steered(c.plan, had, want, old(c.now), run, c.now) && Sparing(run)
    ensures FailuresAreFinal(Actions(run))
    ensures status.Some? ==>
              c.now.Quiet() && Settled(c.plan, had, want, !Skipping(run, had - want), run, c.now, noRollback, status.value)
    ensures status == Some(TransitionSuccess) ==> Deployed(c.plan, c.now, want) && CommandedOnce(c.plan, had, want, run)
    ensures status.Some? ==>
              (status.value.TransitionSuccess? <==> !Faulted(run) && !c.env.interrupted && Hosts(c.plan, want - had))
    ensures status.None? ==> Unfinished(c.plan, had, want, c.now, run, noRollback, patience)
  {
    var previous := if oldMappings.Some? then oldMappings.value else [];
    status, run := DeactivateObsoleteMappings(c, deactivation, previous, noRollback, patience, had, want);
    if status == Some(TransitionSuccess) {
      ghost var middle := c.now;
      ghost var up;
      status, up := ActivateNewMappings(c, activation, oldMappings, noRollback, patience, had, want);
      PhasesInTurn(c.plan, had, want, old(c.now), run, middle, up, c.now, noRollback, status, patience);
      run := run + up;
    }
  }

  /** Both phases together. */
  lemma PhasesInTurn(plan: Plan, had: set<MappingKey>, want: set<MappingKey>, s: State, down: seq<Event>, t: State,
                     up: seq<Event>, u: State, noRollback: bool, status: Option<TransitionStatus>, patience: nat)
    requires Ranked(plan) && Steered(plan, had, want, s, down, t) && Steered(plan, had, want, t, up, u)
    requires Sparing(down) && Forward(had, want, down) && OnceEach(plan, Deactivation, had - want, down)
    requires Sparing(up) && Spares(up, had - want) && !Faulted(down) && FailuresAreFinal(Actions(up))
    requires Skipping(down, had - want) <==> !Hosts(plan, had - want)
    requires status.Some? ==> Settled(plan, had, want, Hosts(plan, had - want), up, u, noRollback, status.value)
    requires status.None? ==> Unfinished(plan, had, want, u, up, noRollback, patience)
    ensures Steered(plan, had, want, s, down + up, u) && Sparing(down + up) && FailuresAreFinal(Actions(down + up))
    ensures Faulted(down + up) <==> Faulted(up)
    ensures status.Some? ==>
              Settled(plan, had, want, !Skipping(down + up, had - want), down + up, u, noRollback, status.value)
    ensures OnceEach(plan, Activation, want - had, up) ==> CommandedOnce(plan, had, want, down + up)
    ensures status.None? ==> Unfinished(plan, had, want, u, down + up, noRollback, patience)
  {
    SteeredConcat(plan, had, want, s, down, t, up, u);
    FaultedConcat(down, up);
    FlawlessThen(down, up);
    PhasesSettle(plan, had, want, down, up, u);
    forall e | e in down && e.Start? ensures e !in up {
      assert multiset(down)[Start(e.key, e.dir)] > 0;
    }
    SparingConcat(down, up);
    if OnceEach(plan, Activation, want - had, up) {
      CommandedInTurn(plan, had, want, down, up);
    }
    if status.None? {
      UnfinishedAfter(plan, had, want, u, down, up, noRollback, patience);
    }
  }

  /** What a successful first phase adds to the verdict on the second. */
  lemma PhasesSettle(plan: Plan, had: set<MappingKey>, want: set<MappingKey>, down: seq<Event>, up: seq<Event>, u: State)
    requires Forward(had, want, down) && !Faulted(down) && Spares(up, had - want)
    requires Skipping(down, had - want) <==> !Hosts(plan, had - want)
    ensures Forward(had, want, down + up) <==> Forward(had, want, up)
    ensures RollbackRefused(had, want, down + up) <==> RollbackRefused(had, want, up)
    ensures RollbackFaulted(had, want, down + up) <==> RollbackFaulted(had, want, up)
    ensures Skipping(down + up, had - want) <==> !Hosts(plan, had - want)
  {
    RollbackRefusedConcat(had, want, down, up);
    RollbackFaultedConcat(had, want, down, up);
    SkippingConcat(down, up, had - want);
    if Forward(had, want, down + up) {
      forall e | e in up ensures Advances(e, had - want, want - had) {
        assert e in down + up;
      }
    }
  }

  // ----- the transition -----

  function PreviousOf(previous: Option<Manifest>): Manifest {
    if previous.Some? then previous.value else NOTHING
  }

  /** The arrays and tables that a transition from one manifest to another works on. */
  method Difference(manifest: Manifest, previous: Manifest)
    returns (unified: seq<ServiceMapping>, deactivation: seq<ServiceMapping>, activation: seq<ServiceMapping>,
             services: map<string, ManifestService>)
    requires Compatible(manifest, previous)
    modifies previous.mappings`status, manifest.mappings`status
    ensures Sorted(Keys(unified)) && forall key :: key in Keys(unified) <==> key in KeysOf(previous) || key in KeysOf(manifest)
    ensures Lists(Keys(deactivation), KeysOf(previous) - KeysOf(manifest))
    ensures Lists(Keys(activation), KeysOf(manifest) - KeysOf(previous))
    ensures services == previous.services + manifest.services
    ensures forall m :: m in unified <==> m in previous.mappings || (m in manifest.mappings && m.Key() !in KeysOf(previous))
    ensures forall m :: m in unified ==> m.status == if m.Key() in KeysOf(previous) then Activated else Deactivated
  {
    var intersection := IntersectServiceMappingArrays(manifest.mappings, previous.mappings);
    deactivation := SubstractServiceMappingArrays(previous.mappings, intersection);
    activation := SubstractServiceMappingArrays(manifest.mappings, intersection);
    unified := UnifyServiceMappingArrays(previous.mappings, manifest.mappings, intersection);
    services := GenerateUnionServicesTable(manifest.services, previous.services);
    UnifiedKeys(manifest, previous, unified);
  }

  lemma UnifiedKeys(manifest: Manifest, previous: Manifest, unified: seq<ServiceMapping>)
    requires forall m :: m in unified <==> m in previous.mappings || (m in manifest.mappings && m.Key() !in Keys(previous.mappings))
    ensures forall key :: key in Keys(unified) <==> key in KeysOf(previous) || key in KeysOf(manifest)
    ensures forall m :: m in previous.mappings ==> m.Key() in KeysOf(previous)
  {
    forall key ensures key in Keys(unified) <==> key in KeysOf(previous) || key in KeysOf(manifest) {
      KeysHold(unified, key);
      KeysHold(previous.mappings, key);
      KeysHold(manifest.mappings, key);
    }
    forall m | m in previous.mappings ensures m.Key() in KeysOf(previous) {
      KeysHold(previous.mappings, m.Key());
    }
  }

  function CoresOf(targets: map<string, Target>): map<string, int>
    reads targets.Values`availableCores
  {
    map machine | machine in targets :: targets[machine].availableCores
  }

  /** The recorded end state is what the mapping objects of both manifests hold; a mapping in both is held by the previous one. */
  ghost predicate Records(manifest: Manifest, previous: Manifest, s: State)
    reads manifest.mappings`status, previous.mappings`status
  {
    && (forall m :: m in previous.mappings ==> s.Has(m.Key(), m.status))
    && (forall m :: m in manifest.mappings && m.Key() !in KeysOf(previous) ==> s.Has(m.Key(), m.status))
  }

  /** On every machine, available cores, processes in progress and failed creations add up to the cores it started with. */
  ghost predicate Conserved(plan: Plan, targets: map<string, Target>, run: seq<Event>, end: State)
    reads targets.Values`availableCores
  {
    forall machine :: machine in targets && machine in plan.cores ==>
      targets[machine].availableCores + |InFlightOn(end, machine)| + FailedForks(run, machine) == plan.cores[machine]
  }

  lemma SteadyIsConserved(c: Coordinator, start: State, run: seq<Event>)
    requires c.Configured() && Steady(c) && After(start, run) == c.now && start.lost == map[]
    ensures Conserved(c.plan, c.targets, run, c.now)
    ensures c.now.Quiet() <==> c.env.children == map[]
  {
    c.OutstandingIsInFlight();
    forall machine | machine in c.targets
      ensures c.targets[machine].availableCores + |InFlightOn(c.now, machine)| + FailedForks(run, machine) == c.plan.cores[machine]
    {
      LostIsFailedForks(start, run, machine);
      assert machine in c.plan.cores;
    }
  }

  /** What the status of a transition says: whether it has ended, and if so how. It succeeds exactly when nothing went
      wrong. Else, with rollback enabled, it fails plainly exactly when no process of the rollback has failed or was refused
      and no obsolete mapping was given up with its machine, which is exactly when the rollback has restored the start and
      none of its processes was refused. */
  ghost predicate Outcome(plan: Plan, had: set<MappingKey>, want: set<MappingKey>, start: State, run: seq<Event>,
                          interrupted: bool, noRollback: bool, patience: nat, status: Option<TransitionStatus>)
    requires Ranked(plan)
  {
    var end := After(start, run);
    match status
    case None => Unfinished(plan, had, want, end, run, noRollback, patience)
    case Some(s) =>
      && end.Quiet()
      && (s.TransitionSuccess? <==> !Faulted(run) && !interrupted && Hosts(plan, want - had))
      && (s.TransitionSuccess? ==> Deployed(plan, end, want) && CommandedOnce(plan, had, want, run))
      && (s.TransitionSuccess? || noRollback ==> Halted(had, want, run, end, s))
      && (s.NewMappingsRollbackFailed? ==> AddedOpen(had, want, end))
      && (s.ObsoleteMappingsRollbackFailed? ==> ObsoleteOpen(had, want, end))
      && (!noRollback && !s.TransitionSuccess? ==>
            (s.TransitionFailed? <==> end.status == start.status && !RollbackRefused(had, want, run)))
      && (!noRollback && !s.TransitionSuccess? ==>
            (s.TransitionFailed? <==> !RollbackFaulted(had, want, run) && !Skipping(run, had - want)))
  }

  /** As long as every machine keeps a core, a transition that is watched for long enough ends. */
  lemma EndsWhileCoresLast(plan: Plan, had: set<MappingKey>, want: set<MappingKey>, start: State, run: seq<Event>,
                           interrupted: bool, noRollback: bool, patience: nat, status: Option<TransitionStatus>)
    requires Ranked(plan) && start.lost == map[]
    requires Outcome(plan, had, want, start, run, interrupted, noRollback, patience, status)
    requires patience > |plan.keys| + Interrupts(run)
    requires forall machine :: machine in plan.cores ==> FailedForks(run, machine) < plan.cores[machine]
    ensures status.Some?
  {
    if status.None? {
      var end := After(start, run);
      var leg: Leg :| During(leg, had, want, end, run, noRollback)
                      && Lingers(plan, leg.Dir(), leg.Roots(had, want), end, run, patience);
      var root :| root in leg.Roots(had, want) && Starved(plan, leg.Dir(), end, root);
      LostIsFailedForks(start, run, Blocker(plan, leg.Dir(), end, root).value.target);
      assert false;
    }
  }

  lemma SettledIsOutcome(plan: Plan, had: set<MappingKey>, want: set<MappingKey>, past: seq<Action>, run: seq<Event>,
                         interrupted: bool, noRollback: bool, patience: nat, status: Option<TransitionStatus>)
    requires Ranked(plan) && Between(plan, had, want)
    requires var start, end := Initial(plan.keys, had, past), After(Initial(plan.keys, had, past), run);
             && Steered(plan, had, want, start, run, end)
             && (status == Some(TransitionSuccess) ==> Deployed(plan, end, want) && CommandedOnce(plan, had, want, run))
             && (status.Some? ==>
                   && end.Quiet()
                   && (status.value.TransitionSuccess? <==> !Faulted(run) && !interrupted && Hosts(plan, want - had))
                   && Settled(plan, had, want, !Skipping(run, had - want), run, end, noRollback, status.value))
             && (status.None? ==> Unfinished(plan, had, want, end, run, noRollback, patience))
    ensures Outcome(plan, had, want, Initial(plan.keys, had, past), run, interrupted, noRollback, patience, status)
  {
    var start := Initial(plan.keys, had, past);
    InitialIsReady(plan, had, past);
    RunCovers(plan, start, run);
    DeployedIsUnique(plan, start, After(start, run), had);
  }

  /** Runs the phases on the given arrays, from the state in which exactly the previous configuration is activated. */
  method RunTransition(unified: seq<ServiceMapping>, deactivation: Option<seq<ServiceMapping>>,
                       activation: seq<ServiceMapping>, oldMappings: Option<seq<ServiceMapping>>,
                       services: map<string, ManifestService>, targets: map<string, Target>, env: Environment,
                       noRollback: bool, patience: nat, ghost plan: Plan, ghost had: set<MappingKey>, ghost want: set<MappingKey>)
    returns (status: Option<TransitionStatus>, ghost run: seq<Event>)
    requires Fits(plan, unified, services, targets) && Between(plan, had, want) && Provisioned(targets, env)
    requires forall machine :: machine in targets ==> plan.cores[machine] == targets[machine].availableCores
    requires forall m :: m in unified ==> m.status == if m.Key() in had then Activated else Deactivated
    requires Lists(Keys(activation), want - had) && (deactivation.Some? <==> oldMappings.Some?)
    requires deactivation.None? ==> had == {}
    requires deactivation.Some? ==> Lists(Keys(deactivation.value), had - want) && Lists(Keys(oldMappings.value), had)
    modifies unified`status, targets.Values`availableCores, env`children, env`history, env`interrupted
    ensures var start, end := Initial(plan.keys, had, old(env.history)), After(Initial(plan.keys, had, old(env.history)), run);
            && env.Valid() && env.history == end.history
            && (end.Quiet() <==> env.children == map[])
            && Steered(plan, had, want, start, run, end) && Sparing(run) && FailuresAreFinal(Actions(run))
            && Conserved(plan, targets, run, end)
            && (forall m :: m in unified ==> end.Has(m.Key(), m.status))
            && Outcome(plan, had, want, start, run, env.interrupted, noRollback, patience, status)
  {
    ghost var start := Initial(plan.keys, had, env.history);
    InitialIsReady(plan, had, env.history);
    forall m | m in unified ensures start.Has(m.Key(), m.status) {
      KeysHold(unified, m.Key());
    }
    var c := new Coordinator(unified, services, targets, env, plan, start);
    status, run := ExecutePhases(c, deactivation, activation, oldMappings, noRollback, patience, had, want);
    SteadyIsConserved(c, start, run);
    SettledIsOutcome(plan, had, want, start.history, run, env.interrupted, noRollback, patience, status);
  }

  // ----- what the operating system is asked for -----

  /** One process is created to activate each added mapping, one to deactivate each obsolete mapping whose machine is
      present, none for any other mapping, and none is refused or fails. */
  ghost predicate AskedOnce(plan: Plan, had: set<MappingKey>, want: set<MappingKey>, asked: seq<Action>) {
    && !Troubled(asked)
    && (forall key :: multiset(asked)[Created(key, Activating)] == if key in want - had then 1 else 0)
    && (forall key :: multiset(asked)[Created(key, Deactivating)] ==
          if key in had - want && key.target in plan.cores then 1 else 0)
  }

  /** What a transition asks for: only deactivated mappings are activated and only activated ones deactivated, in the order
      of their inter-dependencies, nothing concerns a kept mapping, a mapping whose process has failed is given no other
      command, and success means that each change was asked for once. */
  ghost predicate Asked(plan: Plan, had: set<MappingKey>, want: set<MappingKey>, start: State, run: seq<Event>,
                        asked: seq<Action>, interrupted: bool, status: Option<TransitionStatus>) {
    && JustifiedThroughout(plan, start, run, asked)
    && FailuresAreFinal(asked)
    && (forall a :: a in asked && !a.Signalled? ==> a.key !in had * want)
    && (status == Some(TransitionSuccess) ==> AskedOnce(plan, had, want, asked))
    && (status.Some? ==>
          (status.value.TransitionSuccess? <==> !Troubled(asked) && !interrupted && Hosts(plan, want - had)))
  }

  lemma CommandedIsAsked(plan: Plan, had: set<MappingKey>, want: set<MappingKey>, run: seq<Event>)
    requires CommandedOnce(plan, had, want, run) && !Faulted(run) && Hosts(plan, want - had)
    ensures AskedOnce(plan, had, want, Actions(run))
  {
    FaultIsTrouble(run);
    forall key
      ensures multiset(Actions(run))[Created(key, Activating)] == if key in want - had then 1 else 0
      ensures multiset(Actions(run))[Created(key, Deactivating)] ==
                if key in had - want && key.target in plan.cores then 1 else 0
    {
      CreationsAreStarts(run, key);
    }
  }

  lemma KeptAreNotAsked(run: seq<Event>, keys: set<MappingKey>)
    requires forall key :: key in keys ==> Untouched(run, key)
    ensures forall a :: a in Actions(run) && !a.Signalled? ==> a.key !in keys
  {
    forall a | a in Actions(run) && !a.Signalled? ensures a.key !in keys {
      var e := ActionHasEvent(run, a);
      assert Concerns(e, a.key);
    }
  }

  /** What the run of a transition means for the operating system. */
  lemma OutcomeIsAsked(plan: Plan, had: set<MappingKey>, want: set<MappingKey>, start: State, run: seq<Event>,
                       interrupted: bool, noRollback: bool, patience: nat, status: Option<TransitionStatus>)
    requires Ranked(plan) && Steered(plan, had, want, start, run, After(start, run)) && FailuresAreFinal(Actions(run))
    requires Outcome(plan, had, want, start, run, interrupted, noRollback, patience, status)
    ensures Asked(plan, had, want, start, run, Actions(run), interrupted, status)
  {
    LawfulIsJustified(plan, start, run);
    KeptAreNotAsked(run, had * want);
    FaultIsTrouble(run);
    if status == Some(TransitionSuccess) {
      CommandedIsAsked(plan, had, want, run);
    }
  }

  /** Moves from the previous configuration, if any, to the new one. Every traversal is watched for at most `patience`
      sweeps; without a status the transition has not ended. */
  method Transition(manifest: Manifest, previous: Option<Manifest>, env: Environment, noRollback: bool, patience: nat)
    returns (status: Option<TransitionStatus>, ghost plan: Plan, ghost run: seq<Event>)
    requires Compatible(manifest, PreviousOf(previous)) && Provisioned(manifest.targets, env)
    requires previous.None? ==> forall m :: m in manifest.mappings ==> m.status.Deactivated?
    modifies manifest.mappings`status, PreviousOf(previous).mappings`status, manifest.targets.Values`availableCores,
             env`children, env`history, env`interrupted
    ensures WellFormed(plan) && Between(plan, KeysOf(PreviousOf(previous)), KeysOf(manifest))
    ensures plan.cores == old(CoresOf(manifest.targets))
            && plan.services == PreviousOf(previous).services + manifest.services
    ensures var had, want := KeysOf(PreviousOf(previous)), KeysOf(manifest);
            var start := Initial(plan.keys, had, old(env.history));
            && Steered(plan, had, want, start, run, After(start, run)) && Sparing(run)
            && Records(manifest, PreviousOf(previous), After(start, run))
            && Outcome(plan, had, want, start, run, env.interrupted, noRollback, patience, status)
            && Conserved(plan, manifest.targets, run, After(start, run))
            && (After(start, run).Quiet() <==> env.children == map[])
            && forall i :: 0 <= i <= |run| ==> Sane(plan, had, want, After(start, run[..i]))
    ensures var had, want := KeysOf(PreviousOf(previous)), KeysOf(manifest);
            var asked := Actions(run);
            && env.history == old(env.history) + asked
            && Asked(plan, had, want, Initial(plan.keys, had, old(env.history)), run, asked, env.interrupted, status)
    ensures WaitInterrupted in run ==> env.interrupted && status != Some(TransitionSuccess)
  {
    ghost var had, want, past := KeysOf(PreviousOf(previous)), KeysOf(manifest), env.history;
    var unified, activation, services;
    var deactivation, oldMappings: Option<seq<ServiceMapping>> := None, None;
    if previous.None? {
      unified, activation, services := manifest.mappings, manifest.mappings, manifest.services;
    } else {
      var obsolete;
      unified, obsolete, activation, services := Difference(manifest, previous.value);
      deactivation, oldMappings := Some(obsolete), Some(previous.value.mappings);
    }
    plan := PlanOfBoth(manifest, PreviousOf(previous), Keys(unified), CoresOf(manifest.targets));
    status, run := RunTransition(unified, deactivation, activation, oldMappings, services, manifest.targets, env, noRollback,
                                 patience, plan, had, want);
    HistoryIsActions(Initial(plan.keys, had, past), run);
    OutcomeIsAsked(plan, had, want, Initial(plan.keys, had, past), run, env.interrupted, noRollback, patience, status);
    if WaitInterrupted in run {
      SignalIsAction(run);
    }
    AlwaysSane(plan, had, want, past, run);
  }

  lemma AlwaysSane(plan: Plan, had: set<MappingKey>, want: set<MappingKey>, past: seq<Action>, run: seq<Event>)
    requires Ranked(plan) && Between(plan, had, want)
    requires Steered(plan, had, want, Initial(plan.keys, had, past), run, After(Initial(plan.keys, had, past), run))
    ensures forall i :: 0 <= i <= |run| ==> Sane(plan, had, want, After(Initial(plan.keys, had, past), run[..i]))
  {
    forall i | 0 <= i <= |run| ensures Sane(plan, had, want, After(Initial(plan.keys, had, past), run[..i])) {
      SaneThroughout(plan, had, want, past, run, After(Initial(plan.keys, had, past), run), i);
    }
  }
}
