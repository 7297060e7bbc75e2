/** What the sweeps of a traversal keep: a started mapping keeps one of the roots waiting until it is
    reaped, failures last, and every visit that leaves its root waiting makes progress. */
module Sweeps {
  import opened Wrappers
  import opened InterDependencyMappings
  import opened Protocol
  import opened Safety
  import opened Cores
  import opened Blocking
  import opened Coordinators
  import opened Visits
  import opened Starvation

  // ----- every mapping in progress keeps a root waiting -----

  ghost predicate Rooted(plan: Plan, scope: set<MappingKey>, roots: seq<MappingKey>) {
    forall i :: 0 <= i < |roots| ==> roots[i] in plan.keys && roots[i] in scope
  }

  ghost predicate Holds(plan: Plan, dir: Direction, s: State, root: MappingKey, m: MappingKey)
    requires Ranked(plan)
  {
    root in plan.keys && Blocker(plan, dir, s, root) == Some(m)
  }

  /** Every mapping in progress is what a root from the given index on is blocked by. */
  ghost predicate Held(plan: Plan, dir: Direction, s: State, roots: seq<MappingKey>, from: nat)
    requires Ranked(plan)
  {
    forall m :: s.Has(m, InProgress) ==> exists j :: from <= j < |roots| && Holds(plan, dir, s, roots[j], m)
  }

  lemma HoldsIsStable(plan: Plan, dir: Direction, s: State, t: State, root: MappingKey, m: MappingKey)
    requires Ranked(plan) && GoalsKept(plan, dir, s, t) && Holds(plan, dir, s, root, m)
    requires !t.Has(m, dir.Goal())
    ensures Holds(plan, dir, t, root, m)
  {
    BlockerIsStable(plan, dir, s, t, root, 0);
  }

  /** What is in progress was so before or has been started by the run. */
  lemma {:induction false} StartedOrWas(plan: Plan, s: State, run: seq<Event>, m: MappingKey)
    requires Lawful(plan, s, run) && After(s, run).Has(m, InProgress)
    ensures s.Has(m, InProgress) || exists e :: e in run && e.Start? && e.key == m
    decreases |run|
  {
    if run != [] {
      StartedOrWas(plan, Apply(s, run[0]), run[1..], m);
      assert run[0] in run;
      assert forall e :: e in run[1..] ==> e in run;
    }
  }

  lemma HeldAfterVisit(plan: Plan, dir: Direction, scope: set<MappingKey>, roots: seq<MappingKey>, i: nat,
                       s: State, run: seq<Event>, t: State, status: ServiceStatus, from: nat)
    requires Ranked(plan) && Rooted(plan, scope, roots) && from <= i < |roots|
    requires Held(plan, dir, s, roots, from) && Visited(plan, dir, scope, roots[i], s, run, t, status)
    ensures Held(plan, dir, t, roots, from)
  {
    GoalsKeptByWalk(plan, dir, scope, s, run, t);
    forall m | t.Has(m, InProgress) ensures exists j :: from <= j < |roots| && Holds(plan, dir, t, roots[j], m) {
      StartedOrWas(plan, s, run, m);
      if s.Has(m, InProgress) {
        var j :| from <= j < |roots| && Holds(plan, dir, s, roots[j], m);
        HoldsIsStable(plan, dir, s, t, roots[j], m);
      } else {
        assert Holds(plan, dir, t, roots[i], m);
      }
    }
  }

  /** A root that is done or has failed holds nothing, so the later roots hold everything. */
  lemma HeldPastVisit(plan: Plan, dir: Direction, scope: set<MappingKey>, roots: seq<MappingKey>, i: nat,
                      s: State, run: seq<Event>, t: State, status: ServiceStatus)
    requires Ranked(plan) && Rooted(plan, scope, roots) && i < |roots|
    requires Held(plan, dir, s, roots, i) && Visited(plan, dir, scope, roots[i], s, run, t, status)
    requires status.Done? || status.Failed?
    ensures Held(plan, dir, t, roots, i + 1)
  {
    HeldAfterVisit(plan, dir, scope, roots, i, s, run, t, status, i);
    forall m | t.Has(m, InProgress) ensures exists j :: i + 1 <= j < |roots| && Holds(plan, dir, t, roots[j], m) {
      var j :| i <= j < |roots| && Holds(plan, dir, t, roots[j], m);
      assert j != i;
    }
  }

  lemma HeldAfterWait(plan: Plan, dir: Direction, s: State, e: Event, t: State, roots: seq<MappingKey>, from: nat)
    requires Ranked(plan) && Held(plan, dir, s, roots, from)
    requires Step(plan, s, e, t) && InDirection(e, dir) && (e.Finish? || e.WaitInterrupted?)
    ensures Held(plan, dir, t, roots, from)
  {
    StepProgresses(plan, dir, s, e);
    ProgressKeepsGoals(plan, dir, s, t);
    forall m | t.Has(m, InProgress) ensures exists j :: from <= j < |roots| && Holds(plan, dir, t, roots[j], m) {
      assert s.Has(m, InProgress);
      var j :| from <= j < |roots| && Holds(plan, dir, s, roots[j], m);
      HoldsIsStable(plan, dir, s, t, roots[j], m);
    }
  }

  lemma HeldInScope(plan: Plan, dir: Direction, scope: set<MappingKey>, s: State, roots: seq<MappingKey>, m: MappingKey)
    requires Ranked(plan) && Rooted(plan, scope, roots) && Closed(plan, dir, scope)
    requires Held(plan, dir, s, roots, 0) && s.Has(m, InProgress)
    ensures m in scope
  {
    var j :| 0 <= j < |roots| && Holds(plan, dir, s, roots[j], m);
    BlockerInScope(plan, dir, s, roots[j], 0, scope);
  }

  lemma HeldByNoneIsQuiet(plan: Plan, dir: Direction, s: State, roots: seq<MappingKey>)
    requires Ranked(plan) && Held(plan, dir, s, roots, |roots|)
    ensures s.Quiet()
  {
    forall key | key in s.status ensures !s.status[key].InProgress? {
      assert !s.Has(key, InProgress);
    }
  }

  // ----- what lasts -----

  ghost predicate AtEnd(plan: Plan, dir: Direction, s: State, root: MappingKey)
    requires Ranked(plan)
  {
    root in plan.keys && Blocker(plan, dir, s, root).None?
  }

  /** The root is blocked by a mapping that is erroneous, or whose machine is missing. */
  ghost predicate StuckRoot(plan: Plan, dir: Direction, s: State, root: MappingKey)
    requires Ranked(plan)
  {
    root in plan.keys && Blocker(plan, dir, s, root).Some? && Stuck(plan, dir, s, Blocker(plan, dir, s, root).value)
  }

  lemma EndsLast(plan: Plan, dir: Direction, s: State, t: State, root: MappingKey)
    requires Ranked(plan) && Progressed(plan, dir, s, t)
    ensures AtEnd(plan, dir, s, root) ==> AtEnd(plan, dir, t, root)
    ensures StuckRoot(plan, dir, s, root) ==> StuckRoot(plan, dir, t, root)
  {
    ProgressKeepsGoals(plan, dir, s, t);
    if root in plan.keys {
      BlockerIsStable(plan, dir, s, t, root, 0);
      if StuckRoot(plan, dir, s, root) {
        assert KeyProgressed(plan, dir, s, t, Blocker(plan, dir, s, root).value);
      }
    }
  }

  // ----- progress -----

  function Origins(dir: Direction, s: State): set<MappingKey> {
    set key | key in s.status && s.status[key] == dir.Origin()
  }

  /** Commands still to be given, and commands still to be completed. */
  function Potential(dir: Direction, s: State): nat {
    |Origins(dir, s)| + |InFlight(s)|
  }

  lemma OriginsStep(dir: Direction, s: State, t: State, key: MappingKey, status: ServiceMappingStatus)
    requires key in s.status && t.status == s.status[key := status] && status != dir.Origin()
    ensures |Origins(dir, t)| == |Origins(dir, s)| - (if s.status[key] == dir.Origin() then 1 else 0)
  {
    assert Origins(dir, t) == Origins(dir, s) - {key};
  }

  lemma PotentialStep(plan: Plan, dir: Direction, s: State, e: Event)
    requires Enabled(plan, s, e) && InDirection(e, dir)
    ensures Potential(dir, Apply(s, e)) <= Potential(dir, s)
    ensures e.Finish? ==> Potential(dir, Apply(s, e)) < Potential(dir, s)
  {
    var t := Apply(s, e);
    if e.ForkFailed? || e.WaitInterrupted? {
      assert Origins(dir, t) == Origins(dir, s) && InFlight(t) == InFlight(s);
    } else {
      OriginsStep(dir, s, t, e.key, t.status[e.key]);
      InFlightStep(s, t, e.key, t.status[e.key]);
    }
  }

  lemma {:induction false} PotentialRun(plan: Plan, dir: Direction, s: State, run: seq<Event>)
    requires Lawful(plan, s, run) && Directed(run, dir)
    ensures Potential(dir, After(s, run)) <= Potential(dir, s)
    decreases |run|
  {
    if run != [] {
      assert run[0] in run;
      PotentialStep(plan, dir, s, run[0]);
      DirectedParts(run, dir, 1, |run|);
      assert run[1..|run|] == run[1..];
      PotentialRun(plan, dir, Apply(s, run[0]), run[1..]);
    }
  }

  lemma {:induction false} RunKeepsCounts(plan: Plan, s: State, run: seq<Event>)
    requires Counted(plan, s) && Lawful(plan, s, run)
    ensures Counted(plan, After(s, run))
    decreases |run|
  {
    if run != [] {
      StepKeepsCounts(plan, s, run[0]);
      RunKeepsCounts(plan, Apply(s, run[0]), run[1..]);
    }
  }

  /** A visit and its wait: every process creation is followed by the wait. */
  lemma VisitIsReaped(plan: Plan, dir: Direction, scope: set<MappingKey>, key: MappingKey,
                      s: State, run: seq<Event>, t: State, status: ServiceStatus, wait: seq<Event>)
    requires Ranked(plan) && key in plan.keys && Visited(plan, dir, scope, key, s, run, t, status)
    requires wait == [] ==> t.Quiet()
    requires wait != [] ==> |wait| == 1 && (wait[0].Finish? || wait[0].WaitInterrupted?)
    ensures Reaped(run + wait)
  {
    var both := run + wait;
    forall i | 0 <= i < |both| && both[i].Start?
      ensures i + 1 < |both| && (both[i + 1].Finish? || both[i + 1].WaitInterrupted?)
    {
      assert both[i] == run[i] && run[i] in run;
      StartIsLast(run, i);
      assert wait != [];
    }
  }

  lemma StartIsLast(run: seq<Event>, i: nat)
    requires OneAttempt(run) && i < |run| && run[i].Start?
    ensures i == |run| - 1
  {
    var skips := run[..|run| - 1];
    assert run[i] in run;
    assert forall j :: 0 <= j < |skips| ==> skips[j] in skips && skips[j] == run[j];
  }

  // ----- one visit of a sweep -----

  /** The wait of a visit: nothing when nothing is in progress, else one process is reaped or the wait interrupted. */
  ghost predicate WaitStep(plan: Plan, dir: Direction, s: State, wait: seq<Event>, t: State) {
    if wait == [] then
      s.Quiet() && t == s
    else
      && |wait| == 1
      && Step(plan, s, wait[0], t)
      && ((wait[0].Finish? && wait[0].dir == dir) || wait[0].WaitInterrupted?)
  }

  function Events(event: Option<Event>): seq<Event> {
    if event.Some? then [event.value] else []
  }

  lemma WaitStepOf(plan: Plan, dir: Direction, s: State, event: Option<Event>, t: State)
    requires Waited(plan, dir, s, event, t)
    ensures WaitStep(plan, dir, s, Events(event), t)
  {
    assert event.Some? ==> Events(event)[0] == event.value;
  }

  /** What the first `i` visits of a sweep say about their roots. */
  ghost predicate Judged(plan: Plan, dir: Direction, roots: seq<MappingKey>, run: seq<Event>, t: State,
                         i: nat, allDone: bool, failed: bool)
    requires Ranked(plan) && i <= |roots|
  {
    && (failed ==> ForkFailedIn(run) || exists j :: 0 <= j < |roots| && StuckRoot(plan, dir, t, roots[j]))
    && (!failed ==> !ForkFailedIn(run))
    && (allDone ==> forall j :: 0 <= j < i ==>
          AtEnd(plan, dir, t, roots[j]) || (failed && (StuckRoot(plan, dir, t, roots[j]) || ForkFailedIn(run))))
  }

  /** A sweep after `i` visits, `numDone` of which need not be repeated. */
  ghost predicate Sweeping(plan: Plan, dir: Direction, scope: set<MappingKey>, roots: seq<MappingKey>,
                           s: State, run: seq<Event>, t: State, i: nat, numDone: nat, failed: bool)
    requires Ranked(plan) && i <= |roots|
  {
    && numDone <= i
    && Walked(plan, dir, scope, s, run, t)
    && Reaped(run)
    && Held(plan, dir, t, roots, 0)
    && (numDone == i ==> Held(plan, dir, t, roots, i))
    && Judged(plan, dir, roots, run, t, i, numDone == i, failed)
  }

  lemma WaitIsWalked(plan: Plan, dir: Direction, scope: set<MappingKey>, roots: seq<MappingKey>,
                     s: State, wait: seq<Event>, t: State)
    requires Ranked(plan) && Rooted(plan, scope, roots) && Closed(plan, dir, scope)
    requires Held(plan, dir, s, roots, 0) && WaitStep(plan, dir, s, wait, t)
    ensures Walked(plan, dir, scope, s, wait, t)
  {
    if wait != [] {
      assert wait == [wait[0]];
      if wait[0].Finish? {
        HeldInScope(plan, dir, scope, s, roots, wait[0].key);
      }
      WalkedStep(plan, dir, scope, s, wait[0], t);
    }
  }

  lemma HeldAfter(plan: Plan, dir: Direction, s: State, wait: seq<Event>, t: State, roots: seq<MappingKey>, from: nat)
    requires Ranked(plan) && Held(plan, dir, s, roots, from) && WaitStep(plan, dir, s, wait, t)
    ensures Held(plan, dir, t, roots, from)
  {
    if wait != [] {
      HeldAfterWait(plan, dir, s, wait[0], t, roots, from);
    }
  }

  lemma ForkFailedStays(run: seq<Event>, more: seq<Event>)
    ensures ForkFailedIn(run + more) <==> ForkFailedIn(run) || ForkFailedIn(more)
  {
    if e :| e in run && e.ForkFailed? {
      assert e in run + more;
    }
    if e :| e in more && e.ForkFailed? {
      assert e in run + more;
    }
  }

  lemma JudgedLater(plan: Plan, dir: Direction, roots: seq<MappingKey>, run: seq<Event>, t: State, i: nat,
                    allDone: bool, failed: bool, more: seq<Event>, u: State)
    requires Ranked(plan) && i <= |roots| && Judged(plan, dir, roots, run, t, i, allDone, failed)
    requires Progressed(plan, dir, t, u)
    requires ForkFailedIn(more) ==> failed
    ensures Judged(plan, dir, roots, run + more, u, i, allDone, failed)
  {
    ForkFailedStays(run, more);
    forall j | 0 <= j < |roots|
      ensures AtEnd(plan, dir, t, roots[j]) ==> AtEnd(plan, dir, u, roots[j])
      ensures StuckRoot(plan, dir, t, roots[j]) ==> StuckRoot(plan, dir, u, roots[j])
    {
      EndsLast(plan, dir, t, u, roots[j]);
    }
  }

  /** The verdict of one more visit. */
  lemma JudgedVisit(plan: Plan, dir: Direction, scope: set<MappingKey>, roots: seq<MappingKey>, run: seq<Event>,
                    t: State,
                    i: nat, allDone: bool, failed: bool, sub: seq<Event>, u: State, status: ServiceStatus)
    requires Ranked(plan) && Rooted(plan, scope, roots) && i < |roots|
    requires Judged(plan, dir, roots, run, t, i, allDone, failed)
    requires Visited(plan, dir, scope, roots[i], t, sub, u, status)
    ensures Judged(plan, dir, roots, run + sub, u, i + 1, allDone && (status.Done? || status.Failed?), failed || status.Failed?)
  {
    GoalsKeptByWalk(plan, dir, scope, t, sub, u);
    ForkFailedStays(run, sub);
    forall j | 0 <= j < |roots|
      ensures AtEnd(plan, dir, t, roots[j]) ==> AtEnd(plan, dir, u, roots[j])
      ensures StuckRoot(plan, dir, t, roots[j]) ==> StuckRoot(plan, dir, u, roots[j])
    {
      EndsLast(plan, dir, t, u, roots[j]);
    }
    assert status.Failed? ==> StuckRoot(plan, dir, u, roots[i]) || ForkFailedIn(sub);
    assert status.Done? ==> AtEnd(plan, dir, u, roots[i]);
  }

  /** A visit and its wait are part of the walk. */
  lemma VisitIsWalked(plan: Plan, dir: Direction, scope: set<MappingKey>, roots: seq<MappingKey>, i: nat,
                      t: State, sub: seq<Event>, u: State, status: ServiceStatus, wait: seq<Event>, v: State)
    requires Ranked(plan) && Rooted(plan, scope, roots) && Closed(plan, dir, scope) && i < |roots|
    requires Held(plan, dir, t, roots, 0)
    requires Visited(plan, dir, scope, roots[i], t, sub, u, status) && WaitStep(plan, dir, u, wait, v)
    ensures Walked(plan, dir, scope, t, sub + wait, v) && Held(plan, dir, u, roots, 0)
  {
    HeldAfterVisit(plan, dir, scope, roots, i, t, sub, u, status, 0);
    WaitIsWalked(plan, dir, scope, roots, u, wait, v);
    WalkedConcat(plan, dir, scope, t, sub, u, wait, v);
  }

  lemma SweepingVisit(plan: Plan, dir: Direction, scope: set<MappingKey>, roots: seq<MappingKey>,
                      s: State, run: seq<Event>, t: State, i: nat, numDone: nat, failed: bool,
                      sub: seq<Event>, u: State, status: ServiceStatus, wait: seq<Event>, v: State)
    requires Ranked(plan) && Rooted(plan, scope, roots) && Closed(plan, dir, scope) && i < |roots|
    requires Sweeping(plan, dir, scope, roots, s, run, t, i, numDone, failed)
    requires Visited(plan, dir, scope, roots[i], t, sub, u, status) && WaitStep(plan, dir, u, wait, v)
    ensures Sweeping(plan, dir, scope, roots, s, run + (sub + wait), v, i + 1,
                     if status.Done? || status.Failed? then numDone + 1 else numDone, failed || status.Failed?)
  {
    VisitIsWalked(plan, dir, scope, roots, i, t, sub, u, status, wait, v);
    WalkedConcat(plan, dir, scope, s, run, t, sub + wait, v);
    VisitIsReaped(plan, dir, scope, roots[i], t, sub, u, status, wait);
    ReapedConcat(run, sub + wait);
    HeldByVisit(plan, dir, scope, roots, i, numDone == i, t, sub, u, status, wait, v);
    JudgedByVisit(plan, dir, scope, roots, run, t, i, numDone == i, failed, sub, u, status, wait, v);
  }

  /** What is held after one more visit and its wait. */
  lemma HeldByVisit(plan: Plan, dir: Direction, scope: set<MappingKey>, roots: seq<MappingKey>, i: nat, allDone: bool,
                    t: State, sub: seq<Event>, u: State, status: ServiceStatus, wait: seq<Event>, v: State)
    requires Ranked(plan) && Rooted(plan, scope, roots) && i < |roots|
    requires Held(plan, dir, t, roots, 0) && (allDone ==> Held(plan, dir, t, roots, i))
    requires Visited(plan, dir, scope, roots[i], t, sub, u, status) && WaitStep(plan, dir, u, wait, v)
    ensures Held(plan, dir, v, roots, 0)
    ensures allDone && (status.Done? || status.Failed?) ==> Held(plan, dir, v, roots, i + 1)
  {
    HeldAfterVisit(plan, dir, scope, roots, i, t, sub, u, status, 0);
    HeldAfter(plan, dir, u, wait, v, roots, 0);
    if allDone && (status.Done? || status.Failed?) {
      HeldPastVisit(plan, dir, scope, roots, i, t, sub, u, status);
      HeldAfter(plan, dir, u, wait, v, roots, i + 1);
    }
  }

  /** The verdict of one more visit and its wait. */
  lemma JudgedByVisit(plan: Plan, dir: Direction, scope: set<MappingKey>, roots: seq<MappingKey>, run: seq<Event>,
                      t: State, i: nat, allDone: bool, failed: bool,
                      sub: seq<Event>, u: State, status: ServiceStatus, wait: seq<Event>, v: State)
    requires Ranked(plan) && Rooted(plan, scope, roots) && i < |roots|
    requires Judged(plan, dir, roots, run, t, i, allDone, failed)
    requires Visited(plan, dir, scope, roots[i], t, sub, u, status) && WaitStep(plan, dir, u, wait, v)
    ensures Judged(plan, dir, roots, run + (sub + wait), v, i + 1, allDone && (status.Done? || status.Failed?),
                   failed || status.Failed?)
  {
    JudgedVisit(plan, dir, scope, roots, run, t, i, allDone, failed, sub, u, status);
    WaitProgresses(plan, dir, u, wait, v);
    JudgedLater(plan, dir, roots, run + sub, u, i + 1, allDone && (status.Done? || status.Failed?),
                failed || status.Failed?, wait, v);
    assert run + sub + wait == run + (sub + wait);
  }

  lemma WaitProgresses(plan: Plan, dir: Direction, s: State, wait: seq<Event>, t: State)
    requires WaitStep(plan, dir, s, wait, t)
    ensures Progressed(plan, dir, s, t) && !ForkFailedIn(wait)
  {
    if wait != [] {
      StepProgresses(plan, dir, s, wait[0]);
      assert wait == [wait[0]];
    }
  }

  // ----- what a sweep leaves to do -----

  /** What is left to do, where every interrupted wait allows for one more visit. */
  function Remaining(dir: Direction, s: State, run: seq<Event>): int {
    Potential(dir, s) - Interrupts(run)
  }

  /** Some root can never be finished. */
  ghost predicate Hungry(plan: Plan, dir: Direction, s: State, roots: seq<MappingKey>)
    requires Ranked(plan)
  {
    exists j :: 0 <= j < |roots| && Starved(plan, dir, s, roots[j])
  }

  /** A visit that leaves its root waiting lowers the potential, uses up an interrupted wait or finds its root starved. */
  lemma VisitProgress(plan: Plan, dir: Direction, scope: set<MappingKey>, key: MappingKey, s: State, sub: seq<Event>,
                      t: State,
                      status: ServiceStatus, wait: seq<Event>, u: State)
    requires Ranked(plan) && key in plan.keys && Counted(plan, s)
    requires Visited(plan, dir, scope, key, s, sub, t, status) && WaitStep(plan, dir, t, wait, u)
    ensures Counted(plan, u)
    ensures Potential(dir, u) <= Potential(dir, s)
    ensures (status.Running? || status.Waiting?) && wait != [WaitInterrupted] ==>
              Potential(dir, u) < Potential(dir, s) || Starved(plan, dir, u, key)
  {
    RunKeepsCounts(plan, s, sub);
    PotentialRun(plan, dir, s, sub);
    if wait != [] {
      PotentialStep(plan, dir, t, wait[0]);
      StepKeepsCounts(plan, t, wait[0]);
    } else if status.Running? || status.Waiting? {
      IdleIsStarved(plan, dir, scope, key, s, sub, t, status);
    }
  }

  lemma NoInterruptsInVisit(run: seq<Event>)
    requires OneAttempt(run)
    ensures Interrupts(run) == 0
  {
    assert run[..|run|] == run;
    if !OnlySkips(run) {
      assert run == run[..|run| - 1] + [run[|run| - 1]];
    }
    assert WaitInterrupted !in run;
    NoInterruptsInPrefix(run, |run|);
  }

  lemma InterruptsOfVisit(plan: Plan, dir: Direction, before: seq<Event>, sub: seq<Event>, s: State, wait: seq<Event>, t: State)
    requires OneAttempt(sub) && WaitStep(plan, dir, s, wait, t)
    ensures Interrupts(before + (sub + wait)) == Interrupts(before) + (if wait == [WaitInterrupted] then 1 else 0)
  {
    InterruptsConcat(before, sub + wait);
    InterruptsConcat(sub, wait);
    NoInterruptsInVisit(sub);
    if wait != [] {
      assert wait == [wait[0]];
      assert wait[..0] == [];
    }
  }

  /** After `i` visits of a sweep from `s`, `numDone` of which need not be repeated: there is less to do than before it
      unless none has to be repeated or a root is starved, and a starved root has to be visited again. */
  ghost predicate Tallied(plan: Plan, dir: Direction, roots: seq<MappingKey>, s: State, before: seq<Event>,
                          t: State, run: seq<Event>, i: nat, numDone: nat)
    requires Ranked(plan)
  {
    && Counted(plan, t)
    && Remaining(dir, t, run) <= Remaining(dir, s, before)
    && (numDone < i ==> Remaining(dir, t, run) < Remaining(dir, s, before) || Hungry(plan, dir, t, roots))
    && (forall j :: 0 <= j < |roots| && Starved(plan, dir, s, roots[j]) ==>
          Starved(plan, dir, t, roots[j]) && (j < i ==> numDone < i))
  }

  lemma TalliedVisit(plan: Plan, dir: Direction, scope: set<MappingKey>, roots: seq<MappingKey>, s: State,
                     before: seq<Event>, t: State, run: seq<Event>, i: nat, numDone: nat,
                     sub: seq<Event>, u: State, status: ServiceStatus, wait: seq<Event>, v: State)
    requires Ranked(plan) && Rooted(plan, scope, roots) && Closed(plan, dir, scope) && numDone <= i < |roots|
    requires Tallied(plan, dir, roots, s, before, t, run, i, numDone) && Held(plan, dir, t, roots, 0)
    requires Visited(plan, dir, scope, roots[i], t, sub, u, status) && WaitStep(plan, dir, u, wait, v)
    ensures Tallied(plan, dir, roots, s, before, v, run + (sub + wait), i + 1,
                    if status.Done? || status.Failed? then numDone + 1 else numDone)
  {
    VisitProgress(plan, dir, scope, roots[i], t, sub, u, status, wait, v);
    InterruptsOfVisit(plan, dir, run, sub, u, wait, v);
    VisitIsWalked(plan, dir, scope, roots, i, t, sub, u, status, wait, v);
    forall j | 0 <= j < |roots| && Starved(plan, dir, t, roots[j])
      ensures Starved(plan, dir, v, roots[j]) && (j == i ==> status.Waiting?)
    {
      StarvedForEver(plan, dir, t, sub + wait, roots[j]);
      if j == i {
        StarvedWaits(plan, dir, scope, roots[i], t, sub, u, status);
      }
    }
  }

  // ----- why a root needs no further visit -----

  /** A process was refused to the mapping that blocked the root at that time. */
  ghost predicate Refused(plan: Plan, dir: Direction, s: State, run: seq<Event>, root: MappingKey)
    requires Ranked(plan)
  {
    exists k :: 0 <= k < |run| && run[k].ForkFailed? && Holds(plan, dir, After(s, run[..k]), root, run[k].key)
  }

  /** Nothing blocks the root, something blocks it for good, or in this sweep a process was refused to what blocked it. */
  ghost predicate Excused(plan: Plan, dir: Direction, s: State, run: seq<Event>, t: State, root: MappingKey)
    requires Ranked(plan)
  {
    AtEnd(plan, dir, t, root) || StuckRoot(plan, dir, t, root) || Refused(plan, dir, s, run, root)
  }

  /** After `i` visits of a sweep from `s`, none of which has to be repeated, all roots visited are excused. */
  ghost predicate Excusing(plan: Plan, dir: Direction, roots: seq<MappingKey>, s: State, before: seq<Event>, t: State,
                           run: seq<Event>, i: nat, numDone: nat)
    requires Ranked(plan) && i <= |roots|
  {
    && before <= run && After(s, run[|before|..]) == t
    && (numDone == i ==> forall j :: 0 <= j < i ==> Excused(plan, dir, s, run[|before|..], t, roots[j]))
  }

  lemma {:induction false} AfterConcat(s: State, a: seq<Event>, b: seq<Event>)
    ensures After(s, a + b) == After(After(s, a), b)
    decreases |a|
  {
    if a == [] {
      assert a + b == b;
    } else {
      AfterConcat(Apply(s, a[0]), a[1..], b);
      assert (a + b)[1..] == a[1..] + b;
    }
  }

  lemma RefusedLater(plan: Plan, dir: Direction, s: State, run: seq<Event>, more: seq<Event>, root: MappingKey)
    requires Ranked(plan) && Refused(plan, dir, s, run, root)
    ensures Refused(plan, dir, s, run + more, root)
  {
    var k :| 0 <= k < |run| && run[k].ForkFailed? && Holds(plan, dir, After(s, run[..k]), root, run[k].key);
    assert (run + more)[..k] == run[..k] && (run + more)[k] == run[k];
  }

  lemma ExcusedLater(plan: Plan, dir: Direction, s: State, run: seq<Event>, t: State, more: seq<Event>, u: State, root: MappingKey)
    requires Ranked(plan) && Excused(plan, dir, s, run, t, root) && Progressed(plan, dir, t, u)
    ensures Excused(plan, dir, s, run + more, u, root)
  {
    EndsLast(plan, dir, t, u, root);
    if Refused(plan, dir, s, run, root) {
      RefusedLater(plan, dir, s, run, more, root);
    }
  }

  /** A visit that fails because of a refused creation has found its root blocked by the mapping that was to be started. */
  lemma RefusedToBlocker(plan: Plan, dir: Direction, scope: set<MappingKey>, key: MappingKey, s: State, sub: seq<Event>,
                         t: State)
    requires Ranked(plan) && key in plan.keys && Visited(plan, dir, scope, key, s, sub, t, Failed) && ForkFailedIn(sub)
    ensures Refused(plan, dir, s, sub, key)
  {
    var k := |sub| - 1;
    var eve := After(s, sub[..k]);
    assert sub[k].ForkFailed? && sub[k] in sub;
    RunStep(plan, s, sub, k);
    assert sub[..k + 1] == sub;
    BlockerIsStable(plan, dir, t, eve, key, 0);
    assert Holds(plan, dir, eve, key, sub[k].key);
  }

  /** A root that needs no further visit is excused. */
  lemma VisitExcuses(plan: Plan, dir: Direction, scope: set<MappingKey>, key: MappingKey, s: State, run: seq<Event>,
                     t: State, sub: seq<Event>, u: State, status: ServiceStatus)
    requires Ranked(plan) && key in plan.keys && After(s, run) == t
    requires Visited(plan, dir, scope, key, t, sub, u, status) && (status.Done? || status.Failed?)
    ensures Excused(plan, dir, s, run + sub, u, key)
  {
    if status.Failed? && ForkFailedIn(sub) {
      RefusedToBlocker(plan, dir, scope, key, t, sub, u);
      var k :| 0 <= k < |sub| && sub[k].ForkFailed? && Holds(plan, dir, After(t, sub[..k]), key, sub[k].key);
      AfterConcat(s, run, sub[..k]);
      assert (run + sub)[..|run| + k] == run + sub[..k] && (run + sub)[|run| + k] == sub[k];
    }
  }

  /** Over one more visit and its wait, from the events so far. */
  lemma ExcusedByVisit(plan: Plan, dir: Direction, scope: set<MappingKey>, key: MappingKey, root: MappingKey, s: State,
                       soFar: seq<Event>, t: State, sub: seq<Event>, u: State, status: ServiceStatus, wait: seq<Event>, v: State)
    requires Ranked(plan) && key in plan.keys && After(s, soFar) == t
    requires Visited(plan, dir, scope, key, t, sub, u, status) && WaitStep(plan, dir, u, wait, v)
    requires Excused(plan, dir, s, soFar, t, root) || (root == key && (status.Done? || status.Failed?))
    ensures Excused(plan, dir, s, soFar + (sub + wait), v, root)
  {
    GoalsKeptByWalk(plan, dir, scope, t, sub, u);
    if Excused(plan, dir, s, soFar, t, root) {
      ExcusedLater(plan, dir, s, soFar, t, sub, u, root);
    } else {
      VisitExcuses(plan, dir, scope, key, s, soFar, t, sub, u, status);
    }
    WaitProgresses(plan, dir, u, wait, v);
    ExcusedLater(plan, dir, s, soFar + sub, u, wait, v, root);
    assert soFar + (sub + wait) == soFar + sub + wait;
  }

  lemma ExcusingVisit(plan: Plan, dir: Direction, scope: set<MappingKey>, roots: seq<MappingKey>, s: State,
                      before: seq<Event>, t: State, run: seq<Event>, i: nat, numDone: nat,
                      sub: seq<Event>, u: State, status: ServiceStatus, wait: seq<Event>, v: State)
    requires Ranked(plan) && Rooted(plan, scope, roots) && numDone <= i < |roots|
    requires Excusing(plan, dir, roots, s, before, t, run, i, numDone)
    requires Visited(plan, dir, scope, roots[i], t, sub, u, status) && WaitStep(plan, dir, u, wait, v)
    ensures Excusing(plan, dir, roots, s, before, v, run + (sub + wait), i + 1,
                     if status.Done? || status.Failed? then numDone + 1 else numDone)
  {
    var soFar, more := run[|before|..], sub + wait;
    assert (run + more)[|before|..] == soFar + more;
    VisitThenWait(plan, dir, t, sub, u, wait, v);
    AfterConcat(s, soFar, more);
    if numDone == i && (status.Done? || status.Failed?) {
      forall j | 0 <= j < i + 1 ensures Excused(plan, dir, s, soFar + more, v, roots[j]) {
        ExcusedByVisit(plan, dir, scope, roots[i], roots[j], s, soFar, t, sub, u, status, wait, v);
      }
    }
  }

  lemma VisitThenWait(plan: Plan, dir: Direction, t: State, sub: seq<Event>, u: State, wait: seq<Event>, v: State)
    requires After(t, sub) == u && WaitStep(plan, dir, u, wait, v)
    ensures After(t, sub + wait) == v
  {
    AfterConcat(t, sub, wait);
    if wait != [] {
      RunSingle(plan, u, wait[0]);
      assert wait == [wait[0]];
    }
  }

  // ----- the end of a traversal -----

  /** What a traversal keeps, whether or not it has returned. */
  predicate Traversing(plan: Plan, dir: Direction, s: State, run: seq<Event>, t: State) {
    Lawful(plan, s, run) && After(s, run) == t && Directed(run, dir) && Reaped(run)
  }

  /** What a traversal promises when it returns. */
  ghost predicate Traversed(plan: Plan, dir: Direction, roots: seq<MappingKey>, s: State, run: seq<Event>, t: State,
                            success: bool) {
    && Traversing(plan, dir, s, run, t)
    && t.Quiet()
    && (success <==> (forall j :: 0 <= j < |roots| ==> t.Has(roots[j], dir.Goal())) && !ForkFailedIn(run))
  }

  /** Without failed forks a root that is not at the goal has a chain to an erroneous mapping or a missing machine. */
  ghost predicate Explained(plan: Plan, dir: Direction, roots: seq<MappingKey>, run: seq<Event>, t: State)
    requires Ranked(plan)
  {
    !ForkFailedIn(run) ==> forall j :: 0 <= j < |roots| && !t.Has(roots[j], dir.Goal()) ==> StuckRoot(plan, dir, t, roots[j])
  }

  /** What is known of a traversal after a number of sweeps: it has returned, or it goes on. */
  datatype Verdict = Returned(success: bool) | StillSweeping

  /** What a traversal promises, whether or not it has returned. */
  ghost predicate Concluded(plan: Plan, dir: Direction, roots: seq<MappingKey>, s: State, run: seq<Event>, t: State,
                            verdict: Verdict)
    requires Ranked(plan)
  {
    && Traversing(plan, dir, s, run, t)
    && (verdict.Returned? ==> Traversed(plan, dir, roots, s, run, t, verdict.success) && Explained(plan, dir, roots, run, t))
  }

  lemma SweepEnds(plan: Plan, dir: Direction, scope: set<MappingKey>, roots: seq<MappingKey>,
                  s: State, run: seq<Event>, t: State, failed: bool)
    requires Ranked(plan) && Rooted(plan, scope, roots) && Covers(plan, t) && Safe(plan, t)
    requires Sweeping(plan, dir, scope, roots, s, run, t, |roots|, |roots|, failed)
    ensures Traversed(plan, dir, roots, s, run, t, !failed)
    ensures Explained(plan, dir, roots, run, t)
  {
    HeldByNoneIsQuiet(plan, dir, t, roots);
    forall j | 0 <= j < |roots| ensures AtEnd(plan, dir, t, roots[j]) <==> t.Has(roots[j], dir.Goal()) {
      ClearExactlyAtGoal(plan, dir, t, roots[j]);
    }
    if failed && !ForkFailedIn(run) {
      var j :| 0 <= j < |roots| && StuckRoot(plan, dir, t, roots[j]);
      assert !AtEnd(plan, dir, t, roots[j]);
    }
  }

  /** A sweep that has nothing to repeat ends the traversal, and has not begun with a starved root. */
  lemma LastSweep(plan: Plan, dir: Direction, scope: set<MappingKey>, roots: seq<MappingKey>, s: State,
                  head: seq<Event>, eve: State, run: seq<Event>, t: State, failed: bool)
    requires Ranked(plan) && Rooted(plan, scope, roots) && Covers(plan, s) && Safe(plan, s)
    requires Walked(plan, dir, scope, s, head, eve) && head <= run
    requires Sweeping(plan, dir, scope, roots, s, run, t, |roots|, |roots|, failed)
    requires Tallied(plan, dir, roots, eve, head, t, run, |roots|, |roots|)
    ensures Concluded(plan, dir, roots, s, run, t, Returned(!failed)) && Within(run, scope) && Safe(plan, t)
    ensures !Hungry(plan, dir, After(s, run[..|head|]), roots)
  {
    assert run[..|head|] == head;
    SafeAfterWalk(plan, dir, scope, s, run, t);
    SweepEnds(plan, dir, scope, roots, s, run, t, failed);
  }

  lemma SweepingStarts(plan: Plan, dir: Direction, scope: set<MappingKey>, roots: seq<MappingKey>, s: State)
    requires Ranked(plan) && s.Quiet()
    ensures Sweeping(plan, dir, scope, roots, s, [], s, 0, 0, false)
  {
    WalkedNothing(plan, dir, scope, s);
    assert forall m :: !s.Has(m, InProgress);
  }

  /** After a sweep that has to be repeated, the next one starts from the same promises. */
  lemma SweepingAgain(plan: Plan, dir: Direction, scope: set<MappingKey>, roots: seq<MappingKey>,
                      s: State, run: seq<Event>, t: State, i: nat, numDone: nat, failed: bool)
    requires Ranked(plan) && i <= |roots|
    requires Sweeping(plan, dir, scope, roots, s, run, t, i, numDone, failed)
    ensures Sweeping(plan, dir, scope, roots, s, run, t, 0, 0, failed)
  {}

  lemma SafeAfterWalk(plan: Plan, dir: Direction, scope: set<MappingKey>, s: State, run: seq<Event>, t: State)
    requires Ranked(plan) && Covers(plan, s) && Safe(plan, s) && Walked(plan, dir, scope, s, run, t)
    ensures Covers(plan, t) && Safe(plan, t)
  {
    RunCovers(plan, s, run);
    SafeThroughout(plan, s, run, |run|);
    assert run[..|run|] == run;
  }
}
