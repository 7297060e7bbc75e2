/** The operating system as the coordinator sees it: process creation, `wait` and SIGINT.
    All choices are nondeterministic. */
module Environments {
  import opened InterDependencyMappings

  /** What a process is created for. */
  datatype Activity = Activating | Deactivating | Snapshotting

  /** What the coordinator has asked of the operating system, and what came of it. */
  datatype Action =
    | Created(key: MappingKey, activity: Activity)
    | Refused(key: MappingKey, activity: Activity)
    | Completed(key: MappingKey, ok: bool)
    | Signalled

  lemma TakenAwayAndPutBack(children: map<int, MappingKey>, pid: int)
    requires pid in children
    ensures (children - {pid})[pid := children[pid]] == children
  {}

  lemma AddedAndTakenAway(children: map<int, MappingKey>, pid: int, key: MappingKey)
    requires pid !in children
    ensures children[pid := key] - {pid} == children
  {}

  lemma NobodyThere(children: map<int, MappingKey>)
    ensures children.Keys == {} <==> forall pid :: pid !in children
  {
    if pid :| pid in children {
      assert pid in children.Keys;
    } else {
      assert forall pid :: pid !in children.Keys;
      assert |children.Keys| == 0;
    }
  }

  class Environment {
    var children: map<int, MappingKey> // processes that have not been reaped, and what they work on
    var interrupted: bool              // set by the SIGINT handler, never cleared
    ghost var history: seq<Action>

    /** Process identifiers are positive, and a wait is only interrupted by a signal that has been handled. */
    ghost predicate Valid()
      reads this`children, this`interrupted, this`history
    {
      && (forall pid :: pid in children ==> pid > 0)
      && (Signalled in history ==> interrupted)
    }

    /** Creates a process that works on a mapping, or fails with -1. */
    method Fork(key: MappingKey, activity: Activity) returns (pid: int)
      requires Valid()
      modifies this`children, this`history
      ensures Valid()
      ensures pid == -1 || (pid > 0 && pid !in old(children))
      ensures pid == -1 ==> children == old(children) && history == old(history) + [Refused(key, activity)]
      ensures pid != -1 ==> children == old(children)[pid := key] && history == old(history) + [Created(key, activity)]
    {
      var fails := *;
      if fails {
        history := history + [Refused(key, activity)];
        pid := -1;
      } else {
        ghost var unused := UnusedPid(children.Keys);
        pid :| pid > 0 && pid !in children;
        children := children[pid := key];
        history := history + [Created(key, activity)];
      }
    }

    /** Blocks until a process finishes: -1 when there is none, or when a signal, which sets the flag, interrupts the wait. */
    method Wait() returns (pid: int, ok: bool)
      requires Valid()
      modifies this`children, this`interrupted, this`history
      ensures Valid()
      ensures pid == -1 || (pid > 0 && pid in old(children))
      ensures pid != -1 ==> children == old(children) - {pid} && interrupted == old(interrupted)
                            && history == old(history) + [Completed(old(children)[pid], ok)]
      ensures pid == -1 ==> children == old(children)
      ensures pid == -1 && children.Keys == {} ==> interrupted == old(interrupted) && history == old(history)
      ensures old(interrupted) ==> interrupted
      ensures pid == -1 && children.Keys != {} ==> interrupted && history == old(history) + [Signalled]
    {
      ok := *;
      pid := -1;
      var signal := *;
      if child :| child in children.Keys {
        if signal {
          interrupted := true;
          history := history + [Signalled];
        } else {
          pid := child;
          history := history + [Completed(children[child], ok)];
          children := children - {child};
        }
      } else {
        NobodyThere(children);
      }
    }

    /** Reads the flag that the signal handler may set at any moment. */
    method ReadInterrupted() returns (r: bool)
      requires Valid()
      modifies this`interrupted
      ensures Valid()
      ensures r == interrupted && (old(interrupted) ==> r)
    {
      var signal := *;
      interrupted := interrupted || signal;
      r := interrupted;
    }
  }

  lemma {:induction false} UnusedPid(pids: set<int>) returns (unused: int)
    ensures unused > 0 && unused !in pids && forall pid :: pid in pids ==> pid < unused
  {
    if pid :| pid in pids {
      var rest := UnusedPid(pids - {pid});
      assert pids == (pids - {pid}) + {pid};
      unused := if rest <= pid then pid + 1 else rest;
    } else {
      unused := 1;
    }
  }
}
