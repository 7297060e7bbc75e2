/** The traversal of service mappings: two recursive strategies that walk the (inverse) inter-dependencies,
    and the sweep over the roots that drives them and reaps one process per visit. */
module Traversal {
  import opened InterDependencyMappings
  import opened Protocol
  import opened ServiceMappings
  import opened Coordinators
  import opened Blocking
  import opened Visits
  import opened Safety
  import opened Cores
  import opened Sweeps

  /** All mappings with an inter-dependency on the given one, in array order. */
  method FindInterdependentServiceMappings(services: map<string, ManifestService>, mappings: seq<ServiceMapping>,
                                           key: MappingKey)
    returns (found: seq<ServiceMapping>)
    requires forall m :: m in mappings ==> m.service in services && Sorted(services[m.service].dependsOn)
    ensures forall m :: m in found ==> m in mappings
    ensures Keys(found) == Dependents(Keys(mappings), services, key)
  {
    found := [];
    for i := 0 to |mappings|
      invariant forall m :: m in found ==> m in mappings
      invariant Keys(found) == Dependents(Keys(mappings)[..i], services, key)
    {
      var current := mappings[i];
      var dependency := BinarySearch(services[current.service].dependsOn, key);
      DependentsNext(Keys(mappings), i, services, key);
      if dependency.Some? {
        KeysAppend(found, current);
        found := found + [current];
      }
    }
    assert Keys(mappings)[..|mappings|] == Keys(mappings);
  }

  lemma KeysAppend(mappings: seq<ServiceMapping>, m: ServiceMapping)
    ensures Keys(mappings + [m]) == Keys(mappings) + [m.Key()]
  {}

  lemma DependentsNext(keys: seq<MappingKey>, i: nat, services: map<string, ManifestService>, key: MappingKey)
    requires i < |keys|
    ensures Dependents(keys[..i + 1], services, key) ==
              Dependents(keys[..i], services, key) + (if key in Dependencies(services, keys[i]) then [keys[i]] else [])
  {
    assert keys[..i + 1][..i] == keys[..i];
  }

  /** Visits the inter-dependencies of a mapping first, then activates the mapping itself. */
  method TraverseInterDependencyMappings(c: Coordinator, key: MappingKey, ghost scope: set<MappingKey>)
    returns (status: ServiceStatus, ghost run: seq<Event>)
    requires c.Configured() && c.Valid()
    requires key in c.plan.keys && key in scope && Closed(c.plan, Activation, scope)
    modifies c`now, c`pidTable, c.mappings`status, c.targets.Values`availableCores, c.env`children, c.env`history
    ensures c.Valid()
    ensures Visited(c.plan, Activation, scope, key, old(c.now), run, c.now, status)
    decreases Level(c.plan, Activation, key), 2
  {
    var found := FindServiceMapping(c.mappings, key);
    var actual := found.value;
    var dependencies := c.services[actual.service].dependsOn;
    status, run := VisitInterDependencies(c, key, dependencies, scope);
    if status.Done? {
      ghost var end;
      status, end := ActivateMapping(c, actual, scope, old(c.now), run);
      run := run + end;
    }
  }

  /** Visits the inter-dependencies in turn, relaying the status of the first that is not done. */
  method VisitInterDependencies(c: Coordinator, ghost key: MappingKey, dependencies: seq<MappingKey>,
                                ghost scope: set<MappingKey>)
    returns (status: ServiceStatus, ghost run: seq<Event>)
    requires c.Configured() && c.Valid()
    requires key in c.plan.keys && key in scope && Closed(c.plan, Activation, scope)
    requires dependencies == Before(c.plan, Activation, key)
    modifies c`now, c`pidTable, c.mappings`status, c.targets.Values`availableCores, c.env`children, c.env`history
    ensures c.Valid()
    ensures status.Done? ==> Underway(c.plan, Activation, scope, key, old(c.now), run, c.now, |dependencies|)
    ensures !status.Done? ==> Visited(c.plan, Activation, scope, key, old(c.now), run, c.now, status)
    decreases Level(c.plan, Activation, key), 1
  {
    run := [];
    status := Done;
    for i := 0 to |dependencies|
      invariant c.Valid() && status.Done?
      invariant Underway(c.plan, Activation, scope, key, old(c.now), run, c.now, i)
    {
      status, run := VisitNextInterDependency(c, key, i, dependencies[i], scope, old(c.now), run);
      if !status.Done? {
        return;
      }
    }
  }

  /** One turn of the loop: the next mapping to precede is visited. */
  method VisitNextInterDependency(c: Coordinator, ghost key: MappingKey, i: nat, next: MappingKey,
                                  ghost scope: set<MappingKey>, ghost start: State, ghost soFar: seq<Event>)
    returns (status: ServiceStatus, ghost run: seq<Event>)
    requires c.Configured() && c.Valid()
    requires key in c.plan.keys && key in scope && Closed(c.plan, Activation, scope)
    requires i < |Before(c.plan, Activation, key)| && next == Before(c.plan, Activation, key)[i]
    requires Underway(c.plan, Activation, scope, key, start, soFar, c.now, i)
    modifies c`now, c`pidTable, c.mappings`status, c.targets.Values`availableCores, c.env`children, c.env`history
    ensures c.Valid()
    ensures status.Done? ==> Underway(c.plan, Activation, scope, key, start, run, c.now, i + 1)
    ensures !status.Done? ==> Visited(c.plan, Activation, scope, key, start, run, c.now, status)
    decreases Level(c.plan, Activation, key), 0
  {
    BeforeIsBelow(c.plan, Activation, key, next);
    ghost var sub;
    status, sub := TraverseInterDependencyMappings(c, next, scope);
    run := soFar + sub;
    if status.Done? {
      UnderwayNext(c.plan, Activation, scope, key, start, soFar, old(c.now), i, sub, c.now);
    } else {
      UnderwayRelays(c.plan, Activation, scope, key, start, soFar, old(c.now), i, sub, c.now, status);
    }
  }

  /** The last step of an activating walk: everything before the mapping is done. */
  method ActivateMapping(c: Coordinator, actual: ServiceMapping, ghost scope: set<MappingKey>,
                         ghost start: State, ghost run: seq<Event>)
    returns (status: ServiceStatus, ghost end: seq<Event>)
    requires c.Configured() && c.Valid() && actual in c.mappings && actual.Key() in c.plan.keys && actual.Key() in scope
    requires Underway(c.plan, Activation, scope, actual.Key(), start, run, c.now, |Before(c.plan, Activation, actual.Key())|)
    modifies c`now, c`pidTable, c.mappings`status, c.targets.Values`availableCores, c.env`children, c.env`history
    ensures c.Valid()
    ensures Visited(c.plan, Activation, scope, actual.Key(), start, run + end, c.now, status)
  {
    ghost var key, before := actual.Key(), c.now;
    UnderwayDone(c.plan, Activation, scope, key, start, run, before);
    end := [];
    assert run + end == run;
    match actual.status {
      case Deactivated =>
        if actual.target !in c.targets {
          status := Failed;
        } else {
          status := c.AttemptToMapServiceMapping(actual, c.targets[actual.target], Activation);
          end := EndOfAttempt(c, Activation, key, scope, start, run, before, status);
          return;
        }
      case Activated => status := Done;
      case InProgress => status := Running;
      case Erroneous => status := Failed;
    }
    VisitEnds(c.plan, Activation, scope, key, start, run, before, status);
  }

  /** Visits the mappings that have an inter-dependency on the mapping first, then deactivates the mapping itself. */
  method TraverseInterdependentMappings(c: Coordinator, key: MappingKey, ghost scope: set<MappingKey>)
    returns (status: ServiceStatus, ghost run: seq<Event>)
    requires c.Configured() && c.Valid()
    requires key in c.plan.keys && key in scope && Closed(c.plan, Deactivation, scope)
    modifies c`now, c`pidTable, c.mappings`status, c.targets.Values`availableCores, c.env`children, c.env`history
    ensures c.Valid()
    ensures Visited(c.plan, Deactivation, scope, key, old(c.now), run, c.now, status)
    decreases Level(c.plan, Deactivation, key), 2
  {
    var found := FindServiceMapping(c.mappings, key);
    var actual := found.value;
    ServicesOfMappings(c);
    var interdependent := FindInterdependentServiceMappings(c.services, c.mappings, key);
    status, run := VisitInterdependents(c, key, interdependent, scope);
    if status.Done? {
      ghost var end;
      status, end := DeactivateMapping(c, actual, scope, old(c.now), run);
      run := run + end;
    }
  }

  lemma ServicesOfMappings(c: Coordinator)
    requires c.Configured()
    ensures forall m :: m in c.mappings ==> m.service in c.services && Sorted(c.services[m.service].dependsOn)
  {
    forall m | m in c.mappings ensures m.service in c.services && Sorted(c.services[m.service].dependsOn) {
      c.KeyIsPlanned(m);
    }
  }

  /** Visits the interdependent mappings in turn, relaying the status of the first that is not done. */
  method VisitInterdependents(c: Coordinator, ghost key: MappingKey, interdependent: seq<ServiceMapping>,
                              ghost scope: set<MappingKey>)
    returns (status: ServiceStatus, ghost run: seq<Event>)
    requires c.Configured() && c.Valid()
    requires key in c.plan.keys && key in scope && Closed(c.plan, Deactivation, scope)
    requires Keys(interdependent) == Before(c.plan, Deactivation, key)
    modifies c`now, c`pidTable, c.mappings`status, c.targets.Values`availableCores, c.env`children, c.env`history
    ensures c.Valid()
    ensures status.Done? ==> Underway(c.plan, Deactivation, scope, key, old(c.now), run, c.now, |interdependent|)
    ensures !status.Done? ==> Visited(c.plan, Deactivation, scope, key, old(c.now), run, c.now, status)
    decreases Level(c.plan, Deactivation, key), 1
  {
    run := [];
    status := Done;
    for i := 0 to |interdependent|
      invariant c.Valid() && status.Done?
      invariant Underway(c.plan, Deactivation, scope, key, old(c.now), run, c.now, i)
    {
      status, run := VisitNextInterdependent(c, key, i, interdependent[i].Key(), scope, old(c.now), run);
      if !status.Done? {
        return;
      }
    }
  }

  /** One turn of the loop: the next mapping to precede is visited. */
  method VisitNextInterdependent(c: Coordinator, ghost key: MappingKey, i: nat, next: MappingKey,
                                 ghost scope: set<MappingKey>, ghost start: State, ghost soFar: seq<Event>)
    returns (status: ServiceStatus, ghost run: seq<Event>)
    requires c.Configured() && c.Valid()
    requires key in c.plan.keys && key in scope && Closed(c.plan, Deactivation, scope)
    requires i < |Before(c.plan, Deactivation, key)| && next == Before(c.plan, Deactivation, key)[i]
    requires Underway(c.plan, Deactivation, scope, key, start, soFar, c.now, i)
    modifies c`now, c`pidTable, c.mappings`status, c.targets.Values`availableCores, c.env`children, c.env`history
    ensures c.Valid()
    ensures status.Done? ==> Underway(c.plan, Deactivation, scope, key, start, run, c.now, i + 1)
    ensures !status.Done? ==> Visited(c.plan, Deactivation, scope, key, start, run, c.now, status)
    decreases Level(c.plan, Deactivation, key), 0
  {
    BeforeIsBelow(c.plan, Deactivation, key, next);
    ghost var sub;
    status, sub := TraverseInterdependentMappings(c, next, scope);
    run := soFar + sub;
    if status.Done? {
      UnderwayNext(c.plan, Deactivation, scope, key, start, soFar, old(c.now), i, sub, c.now);
    } else {
      UnderwayRelays(c.plan, Deactivation, scope, key, start, soFar, old(c.now), i, sub, c.now, status);
    }
  }

  /** The last step of a deactivating walk; a mapping on a machine that has gone is skipped. */
  method DeactivateMapping(c: Coordinator, actual: ServiceMapping, ghost scope: set<MappingKey>,
                           ghost start: State, ghost run: seq<Event>)
    returns (status: ServiceStatus, ghost end: seq<Event>)
    requires c.Configured() && c.Valid() && actual in c.mappings && actual.Key() in c.plan.keys && actual.Key() in scope
    requires Underway(c.plan, Deactivation, scope, actual.Key(), start, run, c.now, |Before(c.plan, Deactivation, actual.Key())|)
    modifies c`now, c`pidTable, c.mappings`status, c.targets.Values`availableCores, c.env`children, c.env`history
    ensures c.Valid()
    ensures Visited(c.plan, Deactivation, scope, actual.Key(), start, run + end, c.now, status)
  {
    ghost var key, before := actual.Key(), c.now;
    UnderwayDone(c.plan, Deactivation, scope, key, start, run, before);
    end := [];
    assert run + end == run;
    match actual.status {
      case Activated =>
        status, end := SkipOrAttempt(c, actual, scope, start, run);
        return;
      case Deactivated => status := Done;
      case InProgress => status := Running;
      case Erroneous => status := Failed;
    }
    VisitEnds(c.plan, Deactivation, scope, key, start, run, before, status);
  }

  /** An activated mapping is deactivated on its machine, or skipped when its machine has gone. */
  method SkipOrAttempt(c: Coordinator, actual: ServiceMapping, ghost scope: set<MappingKey>,
                       ghost start: State, ghost run: seq<Event>)
    returns (status: ServiceStatus, ghost end: seq<Event>)
    requires c.Configured() && c.Valid() && actual in c.mappings && actual.Key() in c.plan.keys && actual.Key() in scope
    requires actual.status.Activated? && AllHave(c.now, Before(c.plan, Deactivation, actual.Key()), Deactivated)
    requires Underway(c.plan, Deactivation, scope, actual.Key(), start, run, c.now, |Before(c.plan, Deactivation, actual.Key())|)
    modifies c`now, c`pidTable, c.mappings`status, c.targets.Values`availableCores, c.env`children, c.env`history
    ensures c.Valid()
    ensures Visited(c.plan, Deactivation, scope, actual.Key(), start, run + end, c.now, status)
  {
    if actual.target !in c.targets {
      status := Done;
      end := SkipMapping(c, actual, scope, start, run);
    } else {
      status := c.AttemptToMapServiceMapping(actual, c.targets[actual.target], Deactivation);
      end := EndOfAttempt(c, Deactivation, actual.Key(), scope, start, run, old(c.now), status);
    }
  }

  /** A mapping on a machine that has gone counts as deactivated. */
  method SkipMapping(c: Coordinator, actual: ServiceMapping, ghost scope: set<MappingKey>, ghost start: State,
                     ghost run: seq<Event>)
    returns (ghost end: seq<Event>)
    requires c.Configured() && c.Valid() && actual in c.mappings && actual.Key() in c.plan.keys && actual.Key() in scope
    requires actual.target !in c.targets && actual.status.Activated?
    requires Underway(c.plan, Deactivation, scope, actual.Key(), start, run, c.now, |Before(c.plan, Deactivation, actual.Key())|)
    requires AllHave(c.now, Before(c.plan, Deactivation, actual.Key()), Deactivated)
    modifies c`now, c.mappings`status
    ensures c.Valid()
    ensures Visited(c.plan, Deactivation, scope, actual.Key(), start, run + end, c.now, Done)
  {
    ghost var before := c.now;
    SkipIsStep(c.plan, before, actual.Key());
    c.MappingIsKnown(actual);
    c.Remark(actual, Deactivated);
    end := [Skip(actual.Key())];
    VisitSkips(c.plan, scope, actual.Key(), start, run, before, c.now);
  }

  /** The events of the attempt that ends a walk. */
  lemma EndOfAttempt(c: Coordinator, dir: Direction, key: MappingKey, scope: set<MappingKey>,
                     start: State, run: seq<Event>, before: State, status: ServiceStatus)
    returns (end: seq<Event>)
    requires c.Configured() && key in c.plan.keys && key in scope && key in before.status
    requires Underway(c.plan, dir, scope, key, start, run, before, |Before(c.plan, dir, key)|)
    requires before.status[key] == dir.Origin() && !status.Done?
    requires status.Running? ==> Step(c.plan, before, Start(key, dir), c.now)
    requires status.Failed? ==> Step(c.plan, before, ForkFailed(key, dir), c.now)
    requires status.Waiting? ==> c.now == before && Full(c.plan, c.now, key.target)
    ensures Visited(c.plan, dir, scope, key, start, run + end, c.now, status)
  {
    if status.Waiting? {
      end := [];
      assert run + end == run;
      VisitEnds(c.plan, dir, scope, key, start, run, before, status);
    } else {
      var e := if status.Running? then Start(key, dir) else ForkFailed(key, dir);
      end := [e];
      VisitAttempts(c.plan, dir, scope, key, start, run, before, e, c.now);
    }
  }

  /** The strategy of each direction. */
  method IterateStrategy(c: Coordinator, dir: Direction, key: MappingKey, ghost scope: set<MappingKey>)
    returns (status: ServiceStatus, ghost run: seq<Event>)
    requires c.Configured() && c.Valid() && key in c.plan.keys && key in scope && Closed(c.plan, dir, scope)
    modifies c`now, c`pidTable, c.mappings`status, c.targets.Values`availableCores, c.env`children, c.env`history
    ensures c.Valid()
    ensures Visited(c.plan, dir, scope, key, old(c.now), run, c.now, status)
  {
    if dir.Activation? {
      status, run := TraverseInterDependencyMappings(c, key, scope);
    } else {
      status, run := TraverseInterdependentMappings(c, key, scope);
    }
  }

  /** One visit of a sweep: the strategy is applied to the root, then one process is waited for. */
  method VisitRoot(c: Coordinator, dir: Direction, key: MappingKey, ghost scope: set<MappingKey>)
    returns (status: ServiceStatus, ghost sub: seq<Event>, ghost middle: State, ghost wait: seq<Event>)
    requires c.Configured() && c.Valid() && key in c.plan.keys && key in scope && Closed(c.plan, dir, scope)
    modifies c`now, c`pidTable, c.mappings`status, c.targets.Values`availableCores,
             c.env`children, c.env`history, c.env`interrupted
    ensures c.Valid()
    ensures Visited(c.plan, dir, scope, key, old(c.now), sub, middle, status)
    ensures WaitStep(c.plan, dir, middle, wait, c.now)
    ensures old(c.env.interrupted) ==> c.env.interrupted
  {
    status, sub := IterateStrategy(c, dir, key, scope);
    middle := c.now;
    wait := WaitAfterVisit(c, dir);
  }

  method WaitAfterVisit(c: Coordinator, dir: Direction) returns (ghost wait: seq<Event>)
    requires c.Configured() && c.Valid()
    modifies c`now, c`pidTable, c.mappings`status, c.targets.Values`availableCores,
             c.env`children, c.env`history, c.env`interrupted
    ensures c.Valid() && WaitStep(c.plan, dir, old(c.now), wait, c.now)
    ensures old(c.env.interrupted) ==> c.env.interrupted
  {
    ghost var event := c.WaitForServiceMappingToComplete(dir);
    wait := Events(event);
    WaitStepOf(c.plan, dir, old(c.now), event, c.now);
  }

  /** One turn of a sweep that has begun in state `eve`, after the events `head`. */
  method VisitNextRoot(c: Coordinator, dir: Direction, ghost roots: seq<MappingKey>, i: nat, root: MappingKey,
                       numDone: nat, failed: bool, ghost scope: set<MappingKey>, ghost start: State,
                       ghost before: seq<Event>, ghost eve: State, ghost head: seq<Event>)
    returns (nowDone: nat, nowFailed: bool, ghost run: seq<Event>)
    requires c.Configured() && c.Valid() && Rooted(c.plan, scope, roots) && Closed(c.plan, dir, scope)
    requires i < |roots| && roots[i] == root
    requires Sweeping(c.plan, dir, scope, roots, start, before, c.now, i, numDone, failed)
    requires Tallied(c.plan, dir, roots, eve, head, c.now, before, i, numDone)
    requires Excusing(c.plan, dir, roots, eve, head, c.now, before, i, numDone)
    modifies c`now, c`pidTable, c.mappings`status, c.targets.Values`availableCores,
             c.env`children, c.env`history, c.env`interrupted
    ensures c.Valid() && before <= run
    ensures Sweeping(c.plan, dir, scope, roots, start, run, c.now, i + 1, nowDone, nowFailed)
    ensures Tallied(c.plan, dir, roots, eve, head, c.now, run, i + 1, nowDone)
    ensures Excusing(c.plan, dir, roots, eve, head, c.now, run, i + 1, nowDone)
    ensures old(c.env.interrupted) ==> c.env.interrupted
  {
    ghost var sub, middle, wait;
    var status: ServiceStatus;
    status, sub, middle, wait := VisitRoot(c, dir, root, scope);
    nowDone := if status.Failed? || status.Done? then numDone + 1 else numDone;
    nowFailed := failed || status.Failed?;
    run := before + (sub + wait);
    SweepingVisit(c.plan, dir, scope, roots, start, before, old(c.now), i, numDone, failed, sub, middle, status, wait, c.now);
    TalliedVisit(c.plan, dir, scope, roots, eve, head, old(c.now), before, i, numDone, sub, middle, status, wait, c.now);
    ExcusingVisit(c.plan, dir, scope, roots, eve, head, old(c.now), before, i, numDone, sub, middle, status, wait, c.now);
  }

  /** One sweep over the roots, counting those that need no further visit. */
  method Sweep(c: Coordinator, dir: Direction, roots: seq<ServiceMapping>, failed: bool,
               ghost scope: set<MappingKey>, ghost start: State, ghost before: seq<Event>)
    returns (numDone: nat, nowFailed: bool, ghost run: seq<Event>)
    requires c.Configured() && c.Valid() && Rooted(c.plan, scope, Keys(roots)) && Closed(c.plan, dir, scope)
    requires Counted(c.plan, c.now)
    requires Sweeping(c.plan, dir, scope, Keys(roots), start, before, c.now, 0, 0, failed)
    modifies c`now, c`pidTable, c.mappings`status, c.targets.Values`availableCores,
             c.env`children, c.env`history, c.env`interrupted
    ensures c.Valid() && before <= run
    ensures Sweeping(c.plan, dir, scope, Keys(roots), start, run, c.now, |roots|, numDone, nowFailed)
    ensures Tallied(c.plan, dir, Keys(roots), old(c.now), before, c.now, run, |roots|, numDone)
    ensures Excusing(c.plan, dir, Keys(roots), old(c.now), before, c.now, run, |roots|, numDone)
    ensures old(c.env.interrupted) ==> c.env.interrupted
  {
    numDone, nowFailed, run := 0, failed, before;
    for i := 0 to |roots|
      invariant c.Valid() && before <= run && (old(c.env.interrupted) ==> c.env.interrupted)
      invariant Sweeping(c.plan, dir, scope, Keys(roots), start, run, c.now, i, numDone, nowFailed)
      invariant Tallied(c.plan, dir, Keys(roots), old(c.now), before, c.now, run, i, numDone)
      invariant Excusing(c.plan, dir, Keys(roots), old(c.now), before, c.now, run, i, numDone)
    {
      numDone, nowFailed, run :=
        VisitNextRoot(c, dir, Keys(roots), i, roots[i].Key(), numDone, nowFailed, scope, start, run, old(c.now), before);
    }
  }

  /** Sweeps over the roots until each is done or has failed, for at most `patience` sweeps. The traversal goes on for
      ever exactly when a sweep begins with a starved root; `last` is how much of the run precedes the last sweep. */
  method TraverseServiceMappings(c: Coordinator, dir: Direction, roots: seq<ServiceMapping>, patience: nat,
                                 ghost scope: set<MappingKey>)
    returns (verdict: Verdict, ghost run: seq<Event>, ghost sweeps: nat, ghost last: nat)
    requires c.Configured() && c.Valid()
    requires c.now.Quiet() && Counted(c.plan, c.now) && Safe(c.plan, c.now)
    requires Rooted(c.plan, scope, Keys(roots)) && Closed(c.plan, dir, scope)
    modifies c`now, c`pidTable, c.mappings`status, c.targets.Values`availableCores,
             c.env`children, c.env`history, c.env`interrupted
    ensures c.Valid() && Counted(c.plan, c.now) && Safe(c.plan, c.now)
    ensures Concluded(c.plan, dir, Keys(roots), old(c.now), run, c.now, verdict) && Within(run, scope)
    ensures last <= |run|
    ensures verdict.Returned? ==> forall j :: 0 <= j < |roots| ==>
              Excused(c.plan, dir, After(old(c.now), run[..last]), run[last..], c.now, Keys(roots)[j])
    ensures verdict.Returned? ==> sweeps <= |c.mappings| + Interrupts(run) + 1
    ensures verdict.StillSweeping? ==> sweeps == patience && last == |run|
    ensures Hungry(c.plan, dir, After(old(c.now), run[..last]), Keys(roots)) ==> verdict.StillSweeping?
    ensures verdict.StillSweeping? && patience > |c.mappings| + Interrupts(run) ==>
              Hungry(c.plan, dir, After(old(c.now), run[..last]), Keys(roots))
    ensures old(c.env.interrupted) ==> c.env.interrupted
  {
    ghost var start := c.now;
    var failed, numDone: nat := false, 0;
    run, verdict := [], StillSweeping;
    SweepingStarts(c.plan, dir, scope, Keys(roots), start);
    QuietPotential(c, dir, start);
    for sweep := 0 to patience
      invariant c.Valid() && Counted(c.plan, c.now) && (old(c.env.interrupted) ==> c.env.interrupted)
      invariant Sweeping(c.plan, dir, scope, Keys(roots), start, run, c.now, 0, 0, failed)
      invariant Hungry(c.plan, dir, c.now, Keys(roots)) || Remaining(dir, c.now, run) + sweep <= Potential(dir, start)
    {
      ghost var head, eve := run, c.now;
      numDone, failed, run := Sweep(c, dir, roots, failed, scope, start, head);
      if numDone >= |roots| {
        verdict, sweeps, last := Returned(!failed), sweep + 1, |head|;
        assert run[..last] == head;
        LastSweep(c.plan, dir, scope, Keys(roots), start, head, eve, run, c.now, failed);
        return;
      }
      SweepingAgain(c.plan, dir, scope, Keys(roots), start, run, c.now, |roots|, numDone, failed);
    }
    sweeps, last := patience, |run|;
    assert run[..last] == run;
    SafeAfterWalk(c.plan, dir, scope, start, run, c.now);
  }

  /** At the start nothing is in progress, so at most every mapping is still to be given a command. */
  lemma QuietPotential(c: Coordinator, dir: Direction, s: State)
    requires c.Configured() && Covers(c.plan, s) && s.Quiet()
    ensures Potential(dir, s) <= |c.mappings|
  {
    assert InFlight(s) == {} by {
      assert forall key :: key !in InFlight(s);
      assert |InFlight(s)| == 0;
    }
    SortedSize(c.plan.keys);
    SubsetIsSmaller(Origins(dir, s), KeySet(c.plan.keys));
  }
}
