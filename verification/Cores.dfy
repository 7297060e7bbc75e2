/** Cores and concurrency over whole runs: no machine exceeds its cores, and because every visit is
    followed by a wait, the number of outstanding processes is bounded by the interrupted waits. */
module Cores {
  import opened InterDependencyMappings
  import opened Protocol

  function InFlight(s: State): set<MappingKey> {
    set key | key in s.status && s.status[key].InProgress?
  }

  function InFlightOn(s: State, machine: string): set<MappingKey> {
    set key | key in s.status && s.status[key].InProgress? && key.target == machine
  }

  function Gain(before: ServiceMappingStatus, after: ServiceMappingStatus): int {
    (if after.InProgress? then 1 else 0) - (if before.InProgress? then 1 else 0)
  }

  lemma InFlightStep(s: State, t: State, key: MappingKey, status: ServiceMappingStatus)
    requires key in s.status && t.status == s.status[key := status]
    ensures |InFlight(t)| == |InFlight(s)| + Gain(s.status[key], status)
  {
    if status.InProgress? {
      assert InFlight(t) == InFlight(s) + {key};
    } else {
      assert InFlight(t) == InFlight(s) - {key};
    }
  }

  lemma InFlightOnStep(s: State, t: State, key: MappingKey, status: ServiceMappingStatus, machine: string)
    requires key in s.status && t.status == s.status[key := status]
    ensures |InFlightOn(t, machine)| ==
              |InFlightOn(s, machine)| + (if key.target == machine then Gain(s.status[key], status) else 0)
  {
    if key.target != machine || Gain(s.status[key], status) == 0 {
      assert InFlightOn(t, machine) == InFlightOn(s, machine);
    } else if status.InProgress? {
      assert InFlightOn(t, machine) == InFlightOn(s, machine) + {key};
    } else {
      assert InFlightOn(t, machine) == InFlightOn(s, machine) - {key};
    }
  }

  /** The process counts are those of the recorded statuses. */
  predicate Counted(plan: Plan, s: State) {
    forall machine :: machine in plan.cores ==> s.Busy(machine) == |InFlightOn(s, machine)|
  }

  /** The cores of a machine that can be used: none if its count is negative. */
  function Capacity(plan: Plan, machine: string): nat
    requires machine in plan.cores
  {
    if plan.cores[machine] > 0 then plan.cores[machine] else 0
  }

  predicate WithinCores(plan: Plan, s: State) {
    forall machine :: machine in plan.cores ==> s.Busy(machine) + s.Lost(machine) <= Capacity(plan, machine)
  }

  lemma StepKeepsCounts(plan: Plan, s: State, e: Event)
    requires Counted(plan, s) && Enabled(plan, s, e)
    ensures Counted(plan, Apply(s, e))
  {
    var t := Apply(s, e);
    forall machine | machine in plan.cores ensures t.Busy(machine) == |InFlightOn(t, machine)| {
      if e.ForkFailed? {
        assert InFlightOn(t, machine) == InFlightOn(s, machine);
      } else if !e.WaitInterrupted? {
        InFlightOnStep(s, t, e.key, t.status[e.key], machine);
      }
    }
  }

  lemma StepKeepsCores(plan: Plan, s: State, e: Event)
    requires WithinCores(plan, s) && Enabled(plan, s, e)
    ensures WithinCores(plan, Apply(s, e))
  {}

  /** In every reachable state the mappings in progress on a machine and its lost cores fit its cores. */
  lemma {:induction false} CoresThroughout(plan: Plan, s: State, run: seq<Event>, i: nat, machine: string)
    requires Counted(plan, s) && WithinCores(plan, s) && Lawful(plan, s, run) && i <= |run|
    requires machine in plan.cores
    ensures |InFlightOn(After(s, run[..i]), machine)| + After(s, run[..i]).Lost(machine) <= Capacity(plan, machine)
    ensures Counted(plan, After(s, run[..i])) && WithinCores(plan, After(s, run[..i]))
    decreases i
  {
    if i > 0 {
      CoresThroughout(plan, s, run, i - 1, machine);
      RunStep(plan, s, run, i - 1);
      StepKeepsCounts(plan, After(s, run[..i - 1]), run[i - 1]);
      StepKeepsCores(plan, After(s, run[..i - 1]), run[i - 1]);
    }
  }

  function FailedForks(run: seq<Event>, machine: string): nat {
    if run == [] then 0 else
    (if run[0].ForkFailed? && run[0].key.target == machine then 1 else 0) + FailedForks(run[1..], machine)
  }

  /** Exactly the failed forks of a run are lost to a machine. */
  lemma {:induction false} LostIsFailedForks(s: State, run: seq<Event>, machine: string)
    ensures After(s, run).Lost(machine) == s.Lost(machine) + FailedForks(run, machine)
    decreases |run|
  {
    if run != [] {
      LostIsFailedForks(Apply(s, run[0]), run[1..], machine);
    }
  }

  // ----- pacing -----

  /** Every process creation is directly followed by the wait of the same visit. */
  predicate Reaped(run: seq<Event>) {
    forall i :: 0 <= i < |run| && run[i].Start? ==> i + 1 < |run| && (run[i + 1].Finish? || run[i + 1].WaitInterrupted?)
  }

  lemma ReapedConcat(a: seq<Event>, b: seq<Event>)
    requires Reaped(a) && Reaped(b)
    ensures Reaped(a + b)
  {
    var run := a + b;
    forall i | 0 <= i < |run| && run[i].Start?
      ensures i + 1 < |run| && (run[i + 1].Finish? || run[i + 1].WaitInterrupted?)
    {
      if i < |a| {
        assert a[i].Start?;
      } else {
        assert b[i - |a|].Start?;
      }
    }
  }

  function Interrupts(run: seq<Event>): nat {
    if run == [] then 0 else
    Interrupts(run[..|run| - 1]) + (if run[|run| - 1].WaitInterrupted? then 1 else 0)
  }

  lemma {:induction false} InterruptsConcat(a: seq<Event>, b: seq<Event>)
    ensures Interrupts(a + b) == Interrupts(a) + Interrupts(b)
    decreases |b|
  {
    if b == [] {
      assert a + b == a;
    } else {
      assert (a + b)[..|a + b| - 1] == a + b[..|b| - 1];
      InterruptsConcat(a, b[..|b| - 1]);
    }
  }

  /** The outstanding processes never exceed the interrupted waits so far, plus the one just created. */
  lemma {:induction false} Paced(plan: Plan, s: State, run: seq<Event>, i: nat)
    requires Lawful(plan, s, run) && Reaped(run) && i <= |run| && InFlight(s) == {}
    ensures |InFlight(After(s, run[..i]))| <=
              Interrupts(run[..i]) + (if i > 0 && run[i - 1].Start? then 1 else 0)
    decreases i
  {
    if i > 0 {
      var before, e := After(s, run[..i - 1]), run[i - 1];
      Paced(plan, s, run, i - 1);
      RunStep(plan, s, run, i - 1);
      assert run[..i][..i - 1] == run[..i - 1];
      if !e.ForkFailed? && !e.WaitInterrupted? {
        InFlightStep(before, Apply(before, e), e.key, Apply(before, e).status[e.key]);
      } else if e.ForkFailed? {
        assert InFlight(Apply(before, e)) == InFlight(before);
      }
      if i > 1 && run[i - 2].Start? {
        assert run[i - 2 + 1] == e;
      }
    }
  }

  lemma {:induction false} NoInterruptsInPrefix(run: seq<Event>, i: nat)
    requires WaitInterrupted !in run && i <= |run|
    ensures Interrupts(run[..i]) == 0
    decreases i
  {
    if i > 0 {
      assert run[..i][..i - 1] == run[..i - 1];
      assert run[i - 1] in run;
      NoInterruptsInPrefix(run, i - 1);
    }
  }

  /** Without interrupted waits the scheduler is strictly sequential: each command completes before anything else. */
  lemma SequentialWithoutInterrupts(plan: Plan, s: State, run: seq<Event>, i: nat)
    requires Lawful(plan, s, run) && Reaped(run) && InFlight(s) == {} && WaitInterrupted !in run
    requires i < |run| && run[i].Start?
    ensures i + 1 < |run| && run[i + 1].Finish? && run[i + 1].key == run[i].key
    ensures InFlight(After(s, run[..i])) == {}
  {
    var started, finished := run[i].key, run[i + 1];
    assert finished in run;
    RunStep(plan, s, run, i);
    RunStep(plan, s, run, i + 1);
    Paced(plan, s, run, i);
    Paced(plan, s, run, i + 1);
    NoInterruptsInPrefix(run, i);
    NoInterruptsInPrefix(run, i + 1);
    var flying := InFlight(After(s, run[..i + 1]));
    assert started in flying && finished.key in flying;
    AtMostOne(flying, started, finished.key);
  }

  lemma AtMostOne<T>(s: set<T>, x: T, y: T)
    requires |s| <= 1 && x in s && y in s
    ensures x == y
  {
    assert |s - {x}| == 0;
  }
}
