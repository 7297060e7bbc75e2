/** The coordinator's shared tables and the two operations that change them: starting a process for
    a mapping and reaping one. Each is proved to be one lawful step of the protocol. */
module Coordinators {
  import opened Wrappers
  import opened InterDependencyMappings
  import opened Protocol
  import opened ServiceMappings
  import opened Targets
  import opened Environments

  /** The outcome of visiting a mapping: an error, a running process, no free core, or nothing left to do. */
  datatype ServiceStatus = Failed | Running | Waiting | Done

  /** An event that is a lawful step between two states. */
  ghost predicate Step(plan: Plan, before: State, e: Event, after: State) {
    Enabled(plan, before, e) && after == Apply(before, e)
  }

  lemma FinishIsStep(plan: Plan, s: State, key: MappingKey, dir: Direction, ok: bool)
    requires s.Has(key, InProgress)
    ensures Step(plan, s, Finish(key, dir, ok), s.Finished(key, if ok then dir.Goal() else Erroneous, ok))
  {}

  lemma SkipIsStep(plan: Plan, s: State, key: MappingKey)
    requires key.target !in plan.cores && s.Has(key, Activated)
    requires AllHave(s, Before(plan, Deactivation, key), Deactivated)
    ensures Step(plan, s, Skip(key), s.WithStatus(key, Deactivated))
  {}

  lemma InterruptIsStep(plan: Plan, s: State)
    ensures !s.Quiet() ==> Step(plan, s, WaitInterrupted, s.WithSignal())
  {}

  /** What a wait has led to: nothing without processes, else one is reaped or the wait is interrupted. */
  ghost predicate Waited(plan: Plan, dir: Direction, before: State, event: Option<Event>, after: State) {
    match event
    case None => before.Quiet() && after == before
    case Some(e) => Step(plan, before, e, after) && ((e.Finish? && e.dir == dir) || e.WaitInterrupted?)
  }

  /** The cores of a machine are all in use or lost. */
  ghost predicate Full(plan: Plan, s: State, machine: string) {
    machine in plan.cores && s.Busy(machine) + s.Lost(machine) >= plan.cores[machine]
  }

  /** The process table maps the children to the mappings in progress they work on, one to one. */
  ghost predicate Registered(plan: Plan, status: map<MappingKey, ServiceMappingStatus>, table: map<int, ServiceMapping>,
                             children: map<int, MappingKey>)
  {
    && children.Keys == table.Keys
    && (forall pid :: pid in table ==>
          children[pid] == table[pid].Key() && table[pid].target in plan.cores && InProgressIn(status, table[pid].Key()))
    && (forall p, q :: p in table && q in table && table[p].Key() == table[q].Key() ==> p == q)
    && (forall key :: InProgressIn(status, key) ==> exists pid :: pid in table && table[pid].Key() == key)
  }

  predicate InProgressIn(status: map<MappingKey, ServiceMappingStatus>, key: MappingKey) {
    key in status && status[key].InProgress?
  }

  lemma RegisteredStart(plan: Plan, status: map<MappingKey, ServiceMappingStatus>, table: map<int, ServiceMapping>,
                        children: map<int, MappingKey>, pid: int, m: ServiceMapping)
    requires Registered(plan, status, table, children) && pid !in children
    requires !InProgressIn(status, m.Key()) && m.target in plan.cores
    ensures Registered(plan, status[m.Key() := InProgress], table[pid := m], children[pid := m.Key()])
  {
    var t, more := status[m.Key() := InProgress], table[pid := m];
    forall key | InProgressIn(t, key) ensures exists p :: p in more && more[p].Key() == key {
      if key == m.Key() {
        assert more[pid].Key() == key;
      } else {
        assert InProgressIn(status, key);
        var p :| p in table && table[p].Key() == key;
        assert more[p].Key() == key;
      }
    }
  }

  lemma RegisteredFinish(plan: Plan, status: map<MappingKey, ServiceMappingStatus>, table: map<int, ServiceMapping>,
                         children: map<int, MappingKey>, pid: int, result: ServiceMappingStatus)
    requires Registered(plan, status, table, children) && pid in children && !result.InProgress?
    ensures Registered(plan, status[table[pid].Key() := result], table - {pid}, children - {pid})
  {
    var t, less := status[table[pid].Key() := result], table - {pid};
    forall key | InProgressIn(t, key) ensures exists p :: p in less && less[p].Key() == key {
      assert InProgressIn(status, key);
      var p :| p in table && table[p].Key() == key;
      assert less[p].Key() == key;
    }
  }

  lemma RegisteredIdle(plan: Plan, status: map<MappingKey, ServiceMappingStatus>, table: map<int, ServiceMapping>,
                       children: map<int, MappingKey>, key: MappingKey, result: ServiceMappingStatus)
    requires Registered(plan, status, table, children) && !InProgressIn(status, key) && !result.InProgress?
    ensures Registered(plan, status[key := result], table, children)
  {
    var t := status[key := result];
    assert forall x :: InProgressIn(t, x) <==> InProgressIn(status, x);
  }

  /** The tables fit the plan. */
  ghost predicate Fits(plan: Plan, mappings: seq<ServiceMapping>, services: map<string, ManifestService>,
                       targets: map<string, Target>)
  {
    && WellFormed(plan)
    && plan.keys == Keys(mappings)
    && plan.services == services
    && plan.cores.Keys == targets.Keys
    && (forall a, b :: a in targets && b in targets && targets[a] == targets[b] ==> a == b)
  }

  class Coordinator {
    const mappings: seq<ServiceMapping>
    const services: map<string, ManifestService>
    const targets: map<string, Target>
    const env: Environment
    var pidTable: map<int, ServiceMapping>
    ghost const plan: Plan
    ghost var now: State

    constructor (mappings: seq<ServiceMapping>, services: map<string, ManifestService>, targets: map<string, Target>,
                 env: Environment, ghost plan: Plan, ghost start: State)
      requires Fits(plan, mappings, services, targets)
      requires Covers(plan, start) && start.Quiet()
      requires forall m :: m in mappings ==> start.Has(m.Key(), m.status)
      requires forall machine :: machine in targets ==>
                 targets[machine].availableCores + start.Busy(machine) + start.Lost(machine) == plan.cores[machine]
      requires env.Valid() && env.children == map[] && env.history == start.history
      ensures Configured() && Valid() && now == start && this.plan == plan && this.mappings == mappings
      ensures this.targets == targets && this.env == env && this.services == services
    {
      this.mappings := mappings;
      this.services := services;
      this.targets := targets;
      this.env := env;
      this.pidTable := map[];
      this.plan := plan;
      this.now := start;
    }

    ghost predicate Configured() {
      Fits(plan, mappings, services, targets)
    }

    /** The recorded state is what the mapping objects hold. */
    ghost predicate Recorded()
      reads this`now, mappings`status
    {
      Covers(plan, now) && forall m :: m in mappings ==> now.Has(m.Key(), m.status)
    }

    /** Available, in use and lost cores add up to the cores of each machine, but for what one of them is owed. */
    ghost predicate Balanced(debtor: string, owed: int)
      reads this`now, targets.Values`availableCores
    {
      forall machine :: machine in targets && machine in plan.cores ==>
        targets[machine].availableCores + now.Busy(machine) + now.Lost(machine)
          + (if machine == debtor then owed else 0) == plan.cores[machine]
    }

    /** The process table knows the given children. */
    ghost predicate Tabled(known: map<int, MappingKey>)
      reads this`now, this`pidTable, env`children, env`interrupted, env`history
    {
      && env.Valid()
      && (forall pid :: pid in pidTable ==> pidTable[pid] in mappings)
      && Registered(plan, now.status, pidTable, known)
    }

    ghost predicate Valid()
      reads this`now, this`pidTable, mappings`status, targets.Values`availableCores, env`children, env`interrupted, env`history
    {
      Recorded() && Balanced("", 0) && Tabled(env.children) && now.history == env.history
    }

    lemma KeyIsPlanned(m: ServiceMapping)
      requires Configured() && m in mappings
      ensures m.Key() in plan.keys
    {
      KeysHold(mappings, m.Key());
    }

    /** One of the mappings: no other has its key, and its machine, if present, is planned. */
    ghost predicate Known(m: ServiceMapping) {
      && m in mappings && m.Key() in plan.keys
      && (m.target in targets <==> m.target in plan.cores)
      && (forall x :: x in mappings && x.Key() == m.Key() ==> x == m)
    }

    /** Machines share no cores. */
    ghost predicate Separate() {
      forall a, b :: a in targets && b in targets && targets[a] == targets[b] ==> a == b
    }

    lemma MappingIsKnown(m: ServiceMapping)
      requires Configured() && m in mappings
      ensures Known(m) && Separate()
    {
      KeyIsPlanned(m);
      forall x | x in mappings && x.Key() == m.Key() ensures x == m {
        SameKeyIsSame(mappings, x, m);
      }
    }

    /** Changes the status of one mapping. */
    method SetStatus(m: ServiceMapping, status: ServiceMappingStatus, ghost next: State)
      requires Known(m) && Recorded() && next.status == now.status[m.Key() := status]
      modifies m`status, this`now
      ensures Recorded() && now == next && m.status == status
    {
      m.status := status;
      now := next;
    }

    /** Enters the process in the process table and marks its mapping as in progress. */
    method EnterProcess(m: ServiceMapping, pid: int, ghost dir: Direction, ghost children: map<int, MappingKey>)
      requires Known(m) && Recorded()
      requires pid !in children && env.children == children[pid := m.Key()] && Tabled(children)
      requires m.target in targets && !m.status.InProgress?
      modifies m`status, this`pidTable, this`now
      ensures Recorded() && Tabled(env.children) && now == old(now).Started(m.Key(), dir)
    {
      RegisteredStart(plan, now.status, pidTable, children, pid, m);
      pidTable := pidTable[pid := m];
      SetStatus(m, InProgress, now.Started(m.Key(), dir));
    }

    /** Accounts for a process that has been created on a core that has been taken. */
    method RecordProcess(m: ServiceMapping, pid: int, ghost dir: Direction, ghost children: map<int, MappingKey>)
      requires Known(m) && Recorded() && Balanced(m.target, 1)
      requires pid !in children && env.children == children[pid := m.Key()] && Tabled(children)
      requires env.history == now.history + [Created(m.Key(), dir.Activity())]
      requires m.target in targets && !m.status.InProgress?
      modifies m`status, this`pidTable, this`now
      ensures Valid() && now == old(now).Started(m.Key(), dir)
    {
      EnterProcess(m, pid, dir, children);
    }

    /** Changes the status of a mapping without a process. */
    method Remark(m: ServiceMapping, status: ServiceMappingStatus)
      requires Known(m) && Valid() && !m.status.InProgress? && !status.InProgress?
      modifies m`status, this`now
      ensures Valid() && now == old(now).WithStatus(m.Key(), status)
    {
      RegisteredIdle(plan, now.status, pidTable, env.children, m.Key(), status);
      SetStatus(m, status, now.WithStatus(m.Key(), status));
    }

    /** Accounts for the core that a failed process creation keeps. */
    ghost method RecordFailure(m: ServiceMapping, dir: Direction)
      requires Recorded() && Balanced(m.target, 1) && Tabled(env.children)
      requires env.history == now.history + [Refused(m.Key(), dir.Activity())]
      modifies this`now
      ensures Valid() && now == old(now).WithLoss(m.Key(), dir)
    {
      now := now.WithLoss(m.Key(), dir);
    }

    /** Creates the process, for a mapping whose machine has just given up a core. */
    method CreateProcess(m: ServiceMapping, dir: Direction) returns (pid: int)
      requires Configured() && Recorded() && Balanced(m.target, 1) && Tabled(env.children)
      requires now.history == env.history
      requires m in mappings && m.target in targets && !m.status.InProgress?
      modifies m`status, this`pidTable, this`now, env`children, env`history
      ensures Valid()
      ensures pid == -1 ==> now == old(now).WithLoss(m.Key(), dir)
      ensures pid != -1 ==> now == old(now).Started(m.Key(), dir)
      ensures var activity := if dir.Activation? then Activating else Deactivating;
              env.history == old(env.history) + [if pid == -1 then Refused(m.Key(), activity) else Created(m.Key(), activity)]
    {
      pid := env.Fork(m.Key(), dir.Activity());
      if pid == -1 {
        RecordFailure(m, dir);
      } else {
        MappingIsKnown(m);
        RecordProcess(m, pid, dir, old(env.children));
      }
    }

    /** Takes a core of the machine, unless all are in use or lost. */
    method RequestCore(m: ServiceMapping, target: Target) returns (granted: bool)
      requires Configured() && Valid() && m.target in targets && target == targets[m.target]
      modifies target`availableCores
      ensures granted ==> Recorded() && Balanced(m.target, 1) && Tabled(env.children) && now.history == env.history
      ensures granted ==> now.Busy(m.target) + now.Lost(m.target) < plan.cores[m.target]
      ensures !granted ==> Valid() && Full(plan, now, m.target)
    {
      granted := target.RequestAvailableTargetCore();
    }

    /** Creates the process that changes the mapping's state, on a core that has been taken. */
    method StartServiceMapping(m: ServiceMapping, dir: Direction) returns (status: ServiceStatus)
      requires Configured() && Recorded() && Balanced(m.target, 1) && Tabled(env.children)
      requires now.history == env.history
      requires m in mappings && m.target in targets && !m.status.InProgress? && Startable(plan, now, m.Key(), dir)
      modifies m`status, this`pidTable, this`now, env`children, env`history
      ensures Valid() && (status.Running? || status.Failed?)
      ensures status.Running? ==> Step(plan, old(now), Start(m.Key(), dir), now)
      ensures status.Failed? ==> Step(plan, old(now), ForkFailed(m.Key(), dir), now)
    {
      var pid := CreateProcess(m, dir);
      status := if pid == -1 then Failed else Running;
    }

    /** Takes a core of the machine and creates the process that changes the mapping's state:
        one step of the protocol, or none when no core is free. */
    method AttemptToMapServiceMapping(m: ServiceMapping, target: Target, dir: Direction)
      returns (status: ServiceStatus)
      requires Configured() && Valid() && m in mappings && m.target in targets && target == targets[m.target]
      requires m.status == dir.Origin() && AllHave(now, Before(plan, dir, m.Key()), dir.Goal())
      modifies m`status, target`availableCores, this`pidTable, this`now, env`children, env`history
      ensures Valid() && !status.Done?
      ensures status.Running? ==> Step(plan, old(now), Start(m.Key(), dir), now)
      ensures status.Failed? ==> Step(plan, old(now), ForkFailed(m.Key(), dir), now)
      ensures status.Waiting? ==> now == old(now) && Full(plan, now, m.target)
    {
      var granted := RequestCore(m, target);
      if granted {
        status := StartServiceMapping(m, dir);
      } else {
        status := Waiting;
      }
    }

    /** Removes the process from the process table and gives its mapping the result. */
    method RemoveProcess(m: ServiceMapping, pid: int, status: ServiceMappingStatus, ok: bool)
      requires Known(m) && Recorded()
      requires pid !in env.children && Tabled(env.children[pid := m.Key()])
      requires m == pidTable[pid] && !status.InProgress?
      modifies m`status, this`pidTable, this`now
      ensures old(now).Has(m.Key(), InProgress)
      ensures Recorded() && Tabled(env.children) && now == old(now).Finished(m.Key(), status, ok)
    {
      AddedAndTakenAway(env.children, pid, m.Key());
      RegisteredFinish(plan, now.status, pidTable, env.children[pid := m.Key()], pid, status);
      pidTable := pidTable - {pid};
      SetStatus(m, status, now.Finished(m.Key(), status, ok));
    }

    /** Forgets the process and records its result. */
    method CompleteServiceMapping(m: ServiceMapping, pid: int, status: ServiceMappingStatus, ok: bool)
      requires Known(m) && Recorded() && Balanced("", 0)
      requires pid !in env.children && Tabled(env.children[pid := m.Key()])
      requires m == pidTable[pid] && !status.InProgress?
      modifies m`status, this`pidTable, this`now
      ensures old(now).Has(m.Key(), InProgress)
      ensures Recorded() && Balanced(m.target, 1) && Tabled(env.children)
      ensures now == old(now).Finished(m.Key(), status, ok)
    {
      RemoveProcess(m, pid, status, ok);
    }

    /** Completes the mapping of a process that has finished and signals its machine. */
    method ReapProcess(pid: int, status: ServiceMappingStatus, ok: bool, ghost key: MappingKey)
      requires pid in pidTable && Known(pidTable[pid]) && Separate() && Recorded() && Balanced("", 0)
      requires pid !in env.children && Tabled(env.children[pid := key])
      requires !status.InProgress? && env.history == now.history + [Completed(key, ok)]
      modifies this`now, this`pidTable, mappings`status, targets.Values`availableCores
      ensures Valid()
      ensures old(now).Has(key, InProgress) && now == old(now).Finished(key, status, ok)
    {
      var m := pidTable[pid];
      CompleteServiceMapping(m, pid, status, ok);
      targets[m.target].SignalAvailableTargetCore();
    }

    /** Reaps one of the given children: its mapping has reached the goal, or is erroneous. */
    method ReapChild(pid: int, ok: bool, dir: Direction, ghost children: map<int, MappingKey>)
      returns (ghost event: Option<Event>)
      requires Configured() && Recorded() && Balanced("", 0) && Tabled(children)
      requires pid in children && env.Valid() && env.children == children - {pid}
      requires env.history == now.history + [Completed(children[pid], ok)]
      modifies this`now, this`pidTable, mappings`status, targets.Values`availableCores
      ensures Valid()
      ensures event == Some(Finish(children[pid], dir, ok)) && Waited(plan, dir, old(now), event, now)
    {
      TakenAwayAndPutBack(children, pid);
      MappingIsKnown(pidTable[pid]);
      ReapProcess(pid, if ok then dir.Goal() else Erroneous, ok, children[pid]);
      FinishIsStep(plan, old(now), children[pid], dir, ok);
      event := Some(Finish(children[pid], dir, ok));
    }

    /** Accounts for a wait that has reaped nothing: it was interrupted, unless nothing is in progress. */
    ghost method RecordSignal(dir: Direction) returns (event: Option<Event>)
      requires Recorded() && Balanced("", 0) && Tabled(env.children)
      requires env.history == if now.Quiet() then now.history else now.history + [Signalled]
      modifies this`now
      ensures Valid() && Waited(plan, dir, old(now), event, now)
    {
      event := None;
      if !now.Quiet() {
        InterruptIsStep(plan, now);
        now := now.WithSignal();
        event := Some(WaitInterrupted);
      }
    }

    /** Accounts for what a wait has returned. */
    method FinishWait(pid: int, ok: bool, dir: Direction, ghost children: map<int, MappingKey>)
      returns (ghost event: Option<Event>)
      requires Configured() && Recorded() && Balanced("", 0) && Tabled(children) && env.Valid()
      requires pid > 0 ==> pid in children && env.children == children - {pid}
                           && env.history == now.history + [Completed(children[pid], ok)]
      requires pid <= 0 ==> env.children == children
                            && env.history == if now.Quiet() then now.history else now.history + [Signalled]
      modifies this`now, this`pidTable, mappings`status, targets.Values`availableCores
      ensures Valid() && Waited(plan, dir, old(now), event, now)
    {
      if pid > 0 {
        event := ReapChild(pid, ok, dir, children);
      } else {
        event := RecordSignal(dir);
      }
    }

    /** Waits for one process: nothing without processes, else one is reaped or the wait is interrupted. */
    method WaitForServiceMappingToComplete(dir: Direction) returns (ghost event: Option<Event>)
      requires Configured() && Valid()
      modifies this`now, this`pidTable, mappings`status, targets.Values`availableCores, env`children, env`history,
               env`interrupted
      ensures Valid() && Waited(plan, dir, old(now), event, now)
      ensures old(env.interrupted) ==> env.interrupted
    {
      OutstandingIsInFlight();
      var pid, ok := env.Wait();
      event := FinishWait(pid, ok, dir, old(env.children));
    }

    lemma OutstandingIsInFlight()
      requires Tabled(env.children)
      ensures env.children.Keys == {} <==> now.Quiet()
    {
      if pid :| pid in env.children {
        assert InProgressIn(now.status, pidTable[pid].Key());
      } else {
        NobodyThere(env.children);
        assert forall key :: !InProgressIn(now.status, key);
        assert now.Quiet() by {
          forall key | key in now.status ensures !now.status[key].InProgress? {
            assert !InProgressIn(now.status, key);
          }
        }
      }
    }
  }
}
