/** Taking, restoring or deleting the state of components: the imperative scheduler, proved to follow
    the schedule that the choices of its environment determine. */
module Snapshots {
  import opened InterDependencyMappings
  import opened Targets
  import opened Environments
  import opened SnapshotSchedules
  import opened SnapshotTheorems
  import opened SnapshotLimits
  import opened SnapshotVerdicts
  import opened SnapshotSuccess
  import opened SnapshotAccounts

  class SnapshotMapping {
    const component: string
    const container: string
    const target: string
    var transferred: bool

    constructor (component: string, container: string, target: string)
      ensures this.component == component && this.container == container && this.target == target && !transferred
    {
      this.component := component;
      this.container := container;
      this.target := target;
      this.transferred := false;
    }

    function Key(): MappingKey {
      MappingKey(component, container, target)
    }
  }

  function Hosts(mappings: seq<SnapshotMapping>): (r: seq<string>)
    ensures |r| == |mappings| && forall i :: 0 <= i < |r| ==> r[i] == mappings[i].target
  {
    seq(|mappings|, i requires 0 <= i < |mappings| => mappings[i].target)
  }

  function Pids(table: map<int, SnapshotMapping>, m: SnapshotMapping): set<int> {
    set pid | pid in table && pid != -1 && table[pid] == m
  }

  /** Arrays hold distinct mappings and tables distinct machines. */
  ghost predicate Distinct(mappings: seq<SnapshotMapping>, targets: map<string, Target>) {
    && (forall i, j :: 0 <= i < j < |mappings| ==> mappings[i] != mappings[j])
    && (forall a, b :: a in targets && b in targets && targets[a] == targets[b] ==> a == b)
  }

  /** The flags and cores are those of the schedule. */
  ghost predicate Mirrors(mappings: seq<SnapshotMapping>, targets: map<string, Target>, s: Schedule)
    reads mappings`transferred, targets.Values`availableCores
  {
    && Shaped(Hosts(mappings), s)
    && s.available.Keys == targets.Keys
    && (forall machine :: machine in targets ==> targets[machine].availableCores == s.available[machine])
    && (forall i :: 0 <= i < |mappings| ==> mappings[i].transferred == s.transferred[i])
  }

  /** The process table holds the children, as many per mapping as the schedule has outstanding. */
  ghost predicate Lists(mappings: seq<SnapshotMapping>, table: map<int, SnapshotMapping>, children: map<int,
                        MappingKey>, s: Schedule) {
    && |s.live| == |mappings|
    && (forall pid :: pid in children ==> pid > 0)
    && (forall pid :: pid in children <==> pid in table && pid != -1)
    && (forall pid :: pid in children ==> children[pid] == table[pid].Key())
    && (s.broken <==> -1 in table)
    && (forall pid :: pid in table && pid != -1 ==> table[pid] in mappings)
    && (forall i :: 0 <= i < |mappings| ==> |Pids(table, mappings[i])| == s.live[i])
  }

  lemma PidsStart(table: map<int, SnapshotMapping>, x: SnapshotMapping, m: SnapshotMapping, pid: int)
    requires pid !in table && pid != -1
    ensures |Pids(table[pid := m], x)| == |Pids(table, x)| + (if x == m then 1 else 0)
  {
    if x == m {
      assert Pids(table[pid := m], x) == Pids(table, x) + {pid};
    } else {
      assert Pids(table[pid := m], x) == Pids(table, x);
    }
  }

  lemma ListsStart(mappings: seq<SnapshotMapping>, table: map<int, SnapshotMapping>, children: map<int, MappingKey>,
                   s: Schedule,
                   t: Schedule, pid: int, i: nat)
    requires Lists(mappings, table, children, s) && i < |mappings| && pid > 0 && pid !in children
    requires forall j, k :: 0 <= j < k < |mappings| ==> mappings[j] != mappings[k]
    requires t.live == s.live[i := s.live[i] + 1] && t.broken == s.broken
    ensures Lists(mappings, table[pid := mappings[i]], children[pid := mappings[i].Key()], t)
  {
    forall j | 0 <= j < |mappings| ensures |Pids(table[pid := mappings[i]], mappings[j])| == t.live[j] {
      PidsStart(table, mappings[j], mappings[i], pid);
    }
  }

  lemma ListsFailure(mappings: seq<SnapshotMapping>, table: map<int, SnapshotMapping>, children: map<int, MappingKey>,
                     s: Schedule,
                     t: Schedule, m: SnapshotMapping)
    requires Lists(mappings, table, children, s) && t.live == s.live && t.broken
    ensures Lists(mappings, table[-1 := m], children, t)
  {
    forall j | 0 <= j < |mappings| ensures |Pids(table[-1 := m], mappings[j])| == t.live[j] {
      assert Pids(table[-1 := m], mappings[j]) == Pids(table, mappings[j]);
    }
  }

  lemma ListsFinish(mappings: seq<SnapshotMapping>, table: map<int, SnapshotMapping>, children: map<int, MappingKey>,
                    s: Schedule,
                    t: Schedule, pid: int, i: nat)
    requires Lists(mappings, table, children, s) && i < |mappings| && pid in children && table[pid] == mappings[i]
    requires forall j, k :: 0 <= j < k < |mappings| ==> mappings[j] != mappings[k]
    requires s.live[i] > 0 && t.live == s.live[i := s.live[i] - 1] && t.broken == s.broken
    ensures Lists(mappings, table - {pid}, children - {pid}, t)
  {
    forall j | 0 <= j < |mappings| ensures |Pids(table - {pid}, mappings[j])| == t.live[j] {
      assert Pids(table - {pid}, mappings[j]) == Pids(table, mappings[j]) - (if j == i then {pid} else {});
    }
  }

  /** A child belongs to a mapping with outstanding processes. */
  lemma ChildIsLive(mappings: seq<SnapshotMapping>, table: map<int, SnapshotMapping>, children: map<int, MappingKey>,
                    s: Schedule, pid: int)
    returns (i: nat)
    requires Lists(mappings, table, children, s) && pid in children
    ensures i < |mappings| && table[pid] == mappings[i] && s.live[i] > 0 && Outstanding(s)
  {
    i :| 0 <= i < |mappings| && mappings[i] == table[pid];
    assert pid in Pids(table, mappings[i]);
  }

  lemma OutstandingHasChild(mappings: seq<SnapshotMapping>, table: map<int, SnapshotMapping>, children: map<int,
                            MappingKey>, s: Schedule)
    requires Lists(mappings, table, children, s)
    ensures Outstanding(s) <==> exists pid :: pid in children
  {
    if i :| 0 <= i < |s.live| && s.live[i] > 0 {
      assert |Pids(table, mappings[i])| > 0;
      var pid :| pid in Pids(table, mappings[i]);
      assert pid in children;
    }
    if pid :| pid in children {
      var i := ChildIsLive(mappings, table, children, s, pid);
    }
  }

  /** With nothing outstanding, only the entry of a failed creation can be in the process table. */
  lemma EntryWithoutChild(mappings: seq<SnapshotMapping>, table: map<int, SnapshotMapping>, children: map<int,
                          MappingKey>, s: Schedule)
    requires Lists(mappings, table, children, s) && !Outstanding(s)
    ensures |table| > 0 <==> s.broken
  {
    OutstandingHasChild(mappings, table, children, s);
    if !s.broken {
      assert forall pid :: pid !in table;
      assert |table.Keys| == 0;
    }
  }

  /** A wait that completes nothing fails unless the process table is empty, and leaves the tables as they are. */
  lemma WaitWithoutProcess(mappings: seq<SnapshotMapping>, table: map<int, SnapshotMapping>, children: map<int,
                           MappingKey>, s: Schedule)
    requires Shaped(Hosts(mappings), s) && Lists(mappings, table, children, s)
    ensures var t := Wait(Hosts(mappings), s, Interrupted);
            && Lists(mappings, table, children, t)
            && t.ok == (s.ok && |table| == 0) && (Outstanding(s) ==> |table| > 0)
            && t.transferred == s.transferred && t.available == s.available
            && t.acts == if Outstanding(s) then s.acts + [Reaped(Interrupted)] else s.acts
  {
    if Outstanding(s) {
      OutstandingHasChild(mappings, table, children, s);
      var pid :| pid in children;
      assert pid in table.Keys && |table.Keys| > 0;
    } else {
      EntryWithoutChild(mappings, table, children, s);
    }
  }

  // ----- the actions behind a schedule -----

  function MappingKeys(mappings: seq<SnapshotMapping>): (r: seq<MappingKey>)
    ensures |r| == |mappings| && forall i :: 0 <= i < |r| ==> r[i] == mappings[i].Key()
  {
    seq(|mappings|, i requires 0 <= i < |mappings| => mappings[i].Key())
  }

  /** What the operating system has been asked for is what the schedule says. */
  ghost predicate Traced(mappings: seq<SnapshotMapping>, past: seq<Action>, env: Environment, s: Schedule)
    reads env`history
  {
    env.history == past + ActionsOf(MappingKeys(mappings), s.acts)
  }

  // ----- the scheduler -----

  /** Creates the process for a mapping that can start, and enters it in the process table even when that failed. */
  method CreateSnapshotProcess(mappings: seq<SnapshotMapping>, i: nat, targets: map<string, Target>,
                               table: map<int, SnapshotMapping>, env: Environment, ghost past: seq<Action>, ghost s: Schedule)
    returns (next: map<int, SnapshotMapping>, ghost failed: bool)
    requires Distinct(mappings, targets) && i < |mappings| && env.Valid() && Shaped(Hosts(mappings), s)
    requires CanStart(Hosts(mappings), s, i) && Lists(mappings, table, env.children, s)
             && Traced(mappings, past, env, s)
    modifies env`children, env`history
    ensures env.Valid()
    ensures var t := Turn(Hosts(mappings), s, i, if failed then {i} else {});
            Lists(mappings, next, env.children, t) && Traced(mappings, past, env, t)
  {
    ghost var keys := MappingKeys(mappings);
    var mapping := mappings[i];
    var pid := env.Fork(mapping.Key(), Snapshotting);
    next, failed := table[pid := mapping], pid == -1;
    if pid == -1 {
      OneMoreAction(keys, past, s.acts, Missed(i));
      ListsFailure(mappings, table, env.children, s, Turn(Hosts(mappings), s, i, {i}), mapping);
    } else {
      OneMoreAction(keys, past, s.acts, Began(i));
      ListsStart(mappings, table, old(env.children), s, Turn(Hosts(mappings), s, i, {}), pid, i);
    }
  }

  /** The turn of one mapping: skipped when its machine has gone, else started if it has not been transferred
      and a core is free. */
  method StartSnapshotItem(mappings: seq<SnapshotMapping>, i: nat, targets: map<string, Target>,
                           table: map<int, SnapshotMapping>, env: Environment, ghost past: seq<Action>, ghost s: Schedule)
    returns (next: map<int, SnapshotMapping>, ghost failed: bool)
    requires Distinct(mappings, targets) && i < |mappings| && env.Valid()
    requires Mirrors(mappings, targets, s) && Lists(mappings, table, env.children, s) && Traced(mappings, past, env, s)
    modifies targets.Values`availableCores, env`children, env`history
    ensures env.Valid()
    ensures var t := Turn(Hosts(mappings), s, i, if failed then {i} else {});
            Mirrors(mappings, targets, t) && Lists(mappings, next, env.children, t) && Traced(mappings, past, env, t)
    ensures failed ==> CanStart(Hosts(mappings), s, i)
  {
    next, failed := table, false;
    var mapping := mappings[i];
    if mapping.target in targets && !mapping.transferred {
      var granted := RequestSnapshotCore(mappings, i, targets, s);
      if granted {
        next, failed := CreateSnapshotProcess(mappings, i, targets, table, env, past, s);
      }
    }
  }

  /** The schedule with one core of the mapping's machine less available. */
  function OneCoreLess(hosts: seq<string>, s: Schedule, i: nat): Schedule
    requires i < |hosts| && Shaped(hosts, s) && CanStart(hosts, s, i)
  {
    s.(available := s.available[hosts[i] := s.available[hosts[i]] - 1])
  }

  /** Takes a core for a mapping that has not been transferred, if its machine has one available. */
  method RequestSnapshotCore(mappings: seq<SnapshotMapping>, i: nat, targets: map<string, Target>, ghost s: Schedule)
    returns (granted: bool)
    requires Distinct(mappings, targets) && Mirrors(mappings, targets, s)
    requires i < |mappings| && mappings[i].target in targets && !mappings[i].transferred
    modifies targets.Values`availableCores
    ensures granted <==> CanStart(Hosts(mappings), s, i)
    ensures Mirrors(mappings, targets, if granted then OneCoreLess(Hosts(mappings), s, i) else s)
  {
    granted := targets[mappings[i].target].RequestAvailableTargetCore();
  }

  /** The turn of a mapping depends on no other mapping's failure. */
  lemma {:induction false} PassIgnoresOthers(hosts: seq<string>, s: Schedule, n: nat, f: set<int>, g: set<int>)
    requires n <= |hosts| && Shaped(hosts, s) && forall i :: 0 <= i < n ==> (i in f <==> i in g)
    ensures Pass(hosts, s, n, f) == Pass(hosts, s, n, g)
  {
    if n > 0 {
      var t := Pass(hosts, s, n - 1, f);
      PassIgnoresOthers(hosts, s, n - 1, f, g);
      TurnIgnoresOthers(hosts, t, n - 1, f, g);
      assert Pass(hosts, s, n, f) == Turn(hosts, t, n - 1, f) && Pass(hosts, s, n, g) == Turn(hosts, t, n - 1, g);
    }
  }

  lemma TurnIgnoresOthers(hosts: seq<string>, s: Schedule, i: nat, f: set<int>, g: set<int>)
    requires i < |hosts| && Shaped(hosts, s) && (i in f <==> i in g)
    ensures Turn(hosts, s, i, f) == Turn(hosts, s, i, g)
  {}

  lemma PassExtends(hosts: seq<string>, s: Schedule, n: nat, failing: set<int>, failed: bool)
    requires n < |hosts| && Shaped(hosts, s) && forall i :: i in failing ==> i < n
    ensures Pass(hosts, s, n + 1, if failed then failing + {n} else failing) ==
              Turn(hosts, Pass(hosts, s, n, failing), n, if failed then {n} else {})
  {
    var more := if failed then failing + {n} else failing;
    PassIgnoresOthers(hosts, s, n, more, failing);
    TurnIgnoresOthers(hosts, Pass(hosts, s, n, failing), n, more, if failed then {n} else {});
  }

  /** One turn of the loop over all mappings. */
  method StartNextSnapshotItem(mappings: seq<SnapshotMapping>, i: nat, targets: map<string, Target>,
                               table: map<int, SnapshotMapping>, env: Environment, ghost past: seq<Action>,
                               ghost s: Schedule, ghost now: Schedule, ghost failing: set<int>)
    returns (next: map<int, SnapshotMapping>, ghost later: Schedule, ghost more: set<int>)
    requires Distinct(mappings, targets) && i < |mappings| && env.Valid() && Shaped(Hosts(mappings), s)
    requires now == Pass(Hosts(mappings), s, i, failing) && forall j :: j in failing ==> j < i
    requires Mirrors(mappings, targets, now) && Lists(mappings, table, env.children, now)
             && Traced(mappings, past, env, now)
    modifies targets.Values`availableCores, env`children, env`history
    ensures env.Valid()
    ensures later == Pass(Hosts(mappings), s, i + 1, more) && forall j :: j in more ==> j < i + 1
    ensures Mirrors(mappings, targets, later) && Lists(mappings, next, env.children, later)
            && Traced(mappings, past, env, later)
    ensures Untroubled(later) ==> more == failing && Untroubled(now)
  {
    ghost var failed;
    next, failed := StartSnapshotItem(mappings, i, targets, table, env, past, now);
    PassExtends(Hosts(mappings), s, i, failing, failed);
    later := Turn(Hosts(mappings), now, i, if failed then {i} else {});
    more := if failed then failing + {i} else failing;
  }

  /** One pass over all mappings. */
  method StartSnapshotItems(mappings: seq<SnapshotMapping>, targets: map<string, Target>, table: map<int,
                            SnapshotMapping>,
                            env: Environment, ghost past: seq<Action>, ghost s: Schedule)
    returns (next: map<int, SnapshotMapping>, ghost failing: set<int>)
    requires Distinct(mappings, targets) && env.Valid()
    requires Mirrors(mappings, targets, s) && Lists(mappings, table, env.children, s) && Traced(mappings, past, env, s)
    modifies targets.Values`availableCores, env`children, env`history
    ensures env.Valid()
    ensures var t := Pass(Hosts(mappings), s, |mappings|, failing);
            Mirrors(mappings, targets, t) && Lists(mappings, next, env.children, t) && Traced(mappings, past, env, t)
    ensures Untroubled(Pass(Hosts(mappings), s, |mappings|, failing)) ==> failing == {} && Untroubled(s)
  {
    next, failing := table, {};
    ghost var now := s;
    for i := 0 to |mappings|
      invariant env.Valid() && forall j :: j in failing ==> j < i
      invariant now == Pass(Hosts(mappings), s, i, failing)
      invariant Mirrors(mappings, targets, now) && Lists(mappings, next, env.children, now)
                && Traced(mappings, past, env, now)
      invariant Untroubled(now) ==> failing == {} && Untroubled(s)
    {
      next, now, failing := StartNextSnapshotItem(mappings, i, targets, next, env, past, s, now, failing);
    }
  }

  /** Marks the mapping of a finished process as transferred and gives the core of its machine back. */
  method CompleteSnapshotItem(mappings: seq<SnapshotMapping>, targets: map<string, Target>, mapping: SnapshotMapping,
                              result: bool, ghost s: Schedule, ghost i: nat)
    requires Distinct(mappings, targets) && Mirrors(mappings, targets, s)
    requires i < |mappings| && mapping == mappings[i] && s.live[i] > 0
    modifies targets.Values`availableCores, mapping`transferred
    ensures Mirrors(mappings, targets, Complete(Hosts(mappings), s, i, result))
  {
    mapping.transferred := true;
    targets[mapping.target].SignalAvailableTargetCore();
  }

  /** Waits for one process if there are entries in the process table. */
  method WaitToCompleteSnapshotItem(mappings: seq<SnapshotMapping>, targets: map<string, Target>, table: map<int,
                                    SnapshotMapping>,
                                    env: Environment, ghost past: seq<Action>, ghost s: Schedule)
    returns (ok: bool, next: map<int, SnapshotMapping>, ghost reap: Reap)
    requires Distinct(mappings, targets) && env.Valid()
    requires Mirrors(mappings, targets, s) && Lists(mappings, table, env.children, s) && Traced(mappings, past, env, s)
    modifies mappings`transferred, targets.Values`availableCores, env`children, env`history, env`interrupted
    ensures env.Valid() && PossibleReap(s, reap)
    ensures var t := Wait(Hosts(mappings), s, reap);
            Mirrors(mappings, targets, t) && Lists(mappings, next, env.children, t) && Traced(mappings, past, env, t)
            && t.ok == (s.ok && ok)
  {
    if |table| > 0 {
      ok, next, reap := WaitForSnapshotItem(mappings, targets, table, env, past, s);
    } else {
      ok, next, reap := true, table, Interrupted;
      WaitWithoutProcess(mappings, table, env.children, s);
    }
  }

  /** The wait for a process table that is not empty. */
  method WaitForSnapshotItem(mappings: seq<SnapshotMapping>, targets: map<string, Target>, table: map<int,
                             SnapshotMapping>,
                             env: Environment, ghost past: seq<Action>, ghost s: Schedule)
    returns (ok: bool, next: map<int, SnapshotMapping>, ghost reap: Reap)
    requires Distinct(mappings, targets) && env.Valid() && |table| > 0
    requires Mirrors(mappings, targets, s) && Lists(mappings, table, env.children, s) && Traced(mappings, past, env, s)
    modifies mappings`transferred, targets.Values`availableCores, env`children, env`history, env`interrupted
    ensures env.Valid() && PossibleReap(s, reap)
    ensures var t := Wait(Hosts(mappings), s, reap);
            Mirrors(mappings, targets, t) && Lists(mappings, next, env.children, t) && Traced(mappings, past, env, t)
            && t.ok == (s.ok && ok)
  {
    ghost var children, history := env.children, env.history;
    var pid, result := env.Wait();
    if pid == -1 {
      ok, next, reap := false, table, Interrupted;
      InterruptedWait(mappings, targets, table, children, past, history, env.history, s);
    } else {
      ok := result;
      TakenAwayAndPutBack(children, pid);
      next, reap := ReapSnapshotItem(mappings, targets, table, env, past, result, pid, children[pid], s);
    }
  }

  /** What a wait that completes nothing leaves, when the process table is not empty. */
  lemma InterruptedWait(mappings: seq<SnapshotMapping>, targets: map<string, Target>, table: map<int, SnapshotMapping>,
                        children: map<int, MappingKey>, past: seq<Action>, before: seq<Action>, after: seq<Action>, s: Schedule)
    requires Mirrors(mappings, targets, s) && Lists(mappings, table, children, s) && |table| > 0
    requires before == past + ActionsOf(MappingKeys(mappings), s.acts)
    requires after == if children.Keys != {} then before + [Signalled] else before
    ensures var t := Wait(Hosts(mappings), s, Interrupted);
            && Mirrors(mappings, targets, t) && Lists(mappings, table, children, t) && !t.ok
            && after == past + ActionsOf(MappingKeys(mappings), t.acts)
  {
    OutstandingHasChild(mappings, table, children, s);
    NobodyThere(children);
    WaitWithoutProcess(mappings, table, children, s);
    OneMoreAction(MappingKeys(mappings), past, s.acts, Reaped(Interrupted));
  }

  /** Forgets the process and completes its mapping. */
  method ReapSnapshotItem(mappings: seq<SnapshotMapping>, targets: map<string, Target>, table: map<int,
                          SnapshotMapping>,
                          env: Environment, ghost past: seq<Action>, result: bool, pid: int, ghost key: MappingKey, ghost s: Schedule)
    returns (next: map<int, SnapshotMapping>, ghost reap: Reap)
    requires Distinct(mappings, targets) && Mirrors(mappings, targets, s)
    requires pid !in env.children && Lists(mappings, table, env.children[pid := key], s)
    requires env.history == (past + ActionsOf(MappingKeys(mappings), s.acts)) + [Completed(key, result)]
    modifies mappings`transferred, targets.Values`availableCores
    ensures Outstanding(s) && reap.Ended? && PossibleReap(s, reap)
    ensures var t := Wait(Hosts(mappings), s, reap);
            Mirrors(mappings, targets, t) && Lists(mappings, next, env.children, t) && Traced(mappings, past, env, t)
            && t.ok == (s.ok && result)
  {
    ghost var i := ReapedIs(mappings, table, env.children, past, key, s, pid, result);
    ghost var t := Complete(Hosts(mappings), s, i, result);
    reap := Ended(i, result);
    next := table - {pid};
    CompleteSnapshotItem(mappings, targets, table[pid], result, s, i);
    assert Mirrors(mappings, targets, t) && Traced(mappings, past, env, t);
    assert Wait(Hosts(mappings), s, reap) == t;
  }

  /** The mapping of a reaped process, and what its completion means for the process table and the actions. */
  lemma ReapedIs(mappings: seq<SnapshotMapping>, table: map<int, SnapshotMapping>, children: map<int, MappingKey>,
                 past: seq<Action>, key: MappingKey, s: Schedule, pid: int, result: bool)
    returns (i: nat)
    requires (forall j, k :: 0 <= j < k < |mappings| ==> mappings[j] != mappings[k]) && Shaped(Hosts(mappings), s)
    requires pid !in children && Lists(mappings, table, children[pid := key], s)
    ensures i < |mappings| && pid in table && table[pid] == mappings[i] && s.live[i] > 0
    ensures Outstanding(s) && PossibleReap(s, Ended(i, result))
    ensures var t := Complete(Hosts(mappings), s, i, result);
            && Wait(Hosts(mappings), s, Ended(i, result)) == t && t.ok == (s.ok && result)
            && Lists(mappings, table - {pid}, children, t)
            && (past + ActionsOf(MappingKeys(mappings), s.acts)) + [Completed(key, result)] == past + ActionsOf(MappingKeys(mappings), t.acts)
  {
    AddedAndTakenAway(children, pid, key);
    i := ChildIsLive(mappings, table, children[pid := key], s, pid);
    OneMoreAction(MappingKeys(mappings), past, s.acts, Reaped(Ended(i, result)));
    ListsFinish(mappings, table, children[pid := key], s, Complete(Hosts(mappings), s, i, result), pid, i);
  }

  /** The schedule before the first round. */
  function Initially(mappings: seq<SnapshotMapping>, targets: map<string, Target>): (s: Schedule)
    reads mappings, targets.Values
    ensures Shaped(Hosts(mappings), s) && Mirrors(mappings, targets, s)
  {
    Before(seq(|mappings|, i requires 0 <= i < |mappings| reads mappings => mappings[i].transferred),
           map machine | machine in targets :: targets[machine].availableCores)
  }

  /** A round that its environment allows. */
  predicate PossibleRound(hosts: seq<string>, s: Schedule, round: Round)
    requires Shaped(hosts, s)
  {
    PossibleReap(Pass(hosts, s, |hosts|, round.failing), round.reap)
  }

  predicate CalmRound(hosts: seq<string>, s: Schedule, round: Round)
    requires Shaped(hosts, s)
  {
    round.failing == {} && CalmReap(Pass(hosts, s, |hosts|, {}), round.reap)
  }

  lemma UntroubledWait(hosts: seq<string>, s: Schedule, reap: Reap)
    requires Shaped(hosts, s) && PossibleReap(s, reap) && Untroubled(Wait(hosts, s, reap))
    ensures Untroubled(s) && CalmReap(s, reap)
  {
    var t := Wait(hosts, s, reap);
    assert forall act :: act in s.acts ==> act in t.acts;
    assert Outstanding(s) && reap.Interrupted? ==> Reaped(Interrupted) in t.acts;
  }

  /** One round: a pass over all mappings and a wait. */
  method RunRound(mappings: seq<SnapshotMapping>, targets: map<string, Target>, table: map<int, SnapshotMapping>,
                  env: Environment, ghost past: seq<Action>, ghost s: Schedule)
    returns (ok: bool, next: map<int, SnapshotMapping>, ghost round: Round)
    requires Distinct(mappings, targets) && env.Valid()
    requires Mirrors(mappings, targets, s) && Lists(mappings, table, env.children, s) && Traced(mappings, past, env, s)
    modifies mappings`transferred, targets.Values`availableCores, env`children, env`history,
             env`interrupted
    ensures env.Valid() && PossibleRound(Hosts(mappings), s, round)
    ensures var t := AfterRound(Hosts(mappings), s, round);
            Mirrors(mappings, targets, t) && Lists(mappings, next, env.children, t) && Traced(mappings, past, env, t)
            && t.ok == (s.ok && ok)
    ensures Untroubled(AfterRound(Hosts(mappings), s, round)) ==> Untroubled(s) && CalmRound(Hosts(mappings), s, round)
  {
    ghost var failing, reap;
    next, failing := StartSnapshotItems(mappings, targets, table, env, past, s);
    ghost var t := Pass(Hosts(mappings), s, |mappings|, failing);
    PassExtendsActs(Hosts(mappings), s, |mappings|, failing);
    ok, next, reap := WaitToCompleteSnapshotItem(mappings, targets, next, env, past, t);
    round := Round(failing, reap);
    if Untroubled(AfterRound(Hosts(mappings), s, round)) {
      UntroubledWait(Hosts(mappings), t, reap);
    }
  }

  /** The rounds taken so far have led from one schedule to the other. */
  ghost predicate Taken(hosts: seq<string>, start: Schedule, rounds: seq<Round>, now: Schedule) {
    Shaped(hosts, start) && Possible(hosts, start, rounds) && now == AfterRounds(hosts, start, rounds)
  }

  /** One turn of the loop over the rounds. */
  method RunNextRound(mappings: seq<SnapshotMapping>, targets: map<string, Target>, table: map<int, SnapshotMapping>,
                      env: Environment, ghost past: seq<Action>, status: bool,
                      ghost start: Schedule, ghost rounds: seq<Round>, ghost now: Schedule)
    returns (nextStatus: bool, next: map<int, SnapshotMapping>, ghost more: seq<Round>, ghost later: Schedule)
    requires Distinct(mappings, targets) && env.Valid() && Taken(Hosts(mappings), start, rounds, now)
    requires Mirrors(mappings, targets, now) && Lists(mappings, table, env.children, now)
             && Traced(mappings, past, env, now) && status == now.ok
    modifies mappings`transferred, targets.Values`availableCores, env`children, env`history,
             env`interrupted
    ensures env.Valid() && Taken(Hosts(mappings), start, more, later) && |more| == |rounds| + 1
    ensures Mirrors(mappings, targets, later) && Lists(mappings, next, env.children, later)
            && Traced(mappings, past, env, later) && nextStatus == later.ok
    ensures Untroubled(later) && (Untroubled(now) ==> Calm(Hosts(mappings), start, rounds)) ==>
              Calm(Hosts(mappings), start, more)
  {
    var ok;
    ghost var round;
    ok, next, round := RunRound(mappings, targets, table, env, past, now);
    nextStatus := if ok then status else false;
    more, later := rounds + [round], AfterRound(Hosts(mappings), now, round);
    RoundTaken(Hosts(mappings), start, rounds, round);
  }

  lemma RoundTaken(hosts: seq<string>, start: Schedule, rounds: seq<Round>, round: Round)
    requires Shaped(hosts, start) && Possible(hosts, start, rounds)
    requires PossibleRound(hosts, AfterRounds(hosts, start, rounds), round)
    ensures AfterRounds(hosts, start, rounds + [round]) == AfterRound(hosts, AfterRounds(hosts, start, rounds), round)
    ensures Possible(hosts, start, rounds + [round])
    ensures Calm(hosts, start, rounds) && CalmRound(hosts, AfterRounds(hosts, start, rounds), round) ==>
              Calm(hosts, start, rounds + [round])
  {
    RoundsAppend(hosts, start, rounds, round);
    PossibleAppend(hosts, start, rounds, round);
    if Calm(hosts, start, rounds) && CalmRound(hosts, AfterRounds(hosts, start, rounds), round) {
      CalmAppend(hosts, start, rounds, round);
    }
  }

  /** What the status says: whatever has been refused or interrupted, for any cores, it is the conjunction of what the waits
      have found; on sequential machines it is TRUE exactly when nothing has gone wrong, and then every mapping has been
      run exactly once. */
  ghost predicate Verdict(hosts: seq<string>, start: Schedule, end: Schedule, asked: seq<Action>, waits: seq<nat>, status: bool)
    requires Shaped(hosts, start)
  {
    && |waits| == |hosts|
    && WaitsAt(asked, waits) && OnlySnapshots(asked)
    && (status <==> AllWaitedWell(asked, waits))
    && (true !in start.transferred && Sequential(hosts, start.available) ==>
          (status <==> Faultless(asked)) && (status ==> ExactlyOnce(hosts, end)))
  }

  lemma VerdictOfRounds(keys: seq<MappingKey>, hosts: seq<string>, start: Schedule, rounds: seq<Round>)
    requires Shaped(hosts, start) && start == Before(start.transferred, start.available)
    requires |rounds| == |hosts| && Possible(hosts, start, rounds)
    requires Untroubled(AfterRounds(hosts, start, rounds)) ==> Calm(hosts, start, rounds)
    ensures var end := AfterRounds(hosts, start, rounds);
            Verdict(hosts, start, end, ActionsOf(keys, end.acts), WaitPoints(hosts, start, rounds), end.ok)
  {
    StatusIsWhatWaitsFind(keys, hosts, start, rounds);
    if true !in start.transferred && Sequential(hosts, start.available) {
      UntouchedIsFresh(hosts, start);
      SuccessExactlyWhenFaultless(keys, hosts, start.available, rounds);
      CalmRunsExactlyOnce(hosts, start, rounds);
    }
  }

  /** As many rounds as there are mappings, with a wait each. When every process could be created, no wait was interrupted
      and nothing had been transferred before, every mapping has been run exactly once if the machines are sequential. */
  method MapSnapshotItems(mappings: seq<SnapshotMapping>, targets: map<string, Target>, env: Environment)
    returns (status: bool, ghost rounds: seq<Round>, ghost waits: seq<nat>)
    requires Distinct(mappings, targets) && env.Valid() && env.children == map[]
    modifies mappings`transferred, targets.Values`availableCores, env`children, env`history,
             env`interrupted
    ensures var hosts, start := Hosts(mappings), old(Initially(mappings, targets));
            var end := AfterRounds(hosts, start, rounds);
            && |rounds| == |mappings|
            && Possible(hosts, start, rounds)
            && (Untroubled(end) ==> Calm(hosts, start, rounds))
            && (Untroubled(end) && true !in start.transferred && Sequential(hosts, start.available) ==> ExactlyOnce(hosts, end))
            && Mirrors(mappings, targets, end)
            && (Outstanding(end) <==> exists pid :: pid in env.children)
            && status == end.ok
            && env.history == old(env.history) + ActionsOf(MappingKeys(mappings), end.acts)
            && Verdict(hosts, start, end, ActionsOf(MappingKeys(mappings), end.acts), waits, status)
            && Begun(end) && Kept(hosts, start, end)
  {
    ghost var hosts, start, past := Hosts(mappings), Initially(mappings, targets), env.history;
    var pidTable: map<int, SnapshotMapping> := map[];
    var numProcessed := 0;
    status, rounds := true, [];
    NothingListed(mappings, env.children, start);
    ghost var now := start;
    while numProcessed < |mappings|
      invariant numProcessed == |rounds| <= |mappings|
      invariant env.Valid() && Taken(hosts, start, rounds, now)
      invariant Mirrors(mappings, targets, now) && Lists(mappings, pidTable, env.children, now)
                && Traced(mappings, past, env, now) && status == now.ok
      invariant Untroubled(now) ==> Calm(hosts, start, rounds)
    {
      status, pidTable, rounds, now := RunNextRound(mappings, targets, pidTable, env, past, status, start, rounds, now);
      numProcessed := numProcessed + 1;
    }
    OutstandingHasChild(mappings, pidTable, env.children, now);
    waits := AccountOf(MappingKeys(mappings), hosts, start, rounds);
  }

  /** What is known of the schedule that has been followed. */
  lemma AccountOf(keys: seq<MappingKey>, hosts: seq<string>, start: Schedule, rounds: seq<Round>) returns (waits: seq<nat>)
    requires Shaped(hosts, start) && start == Before(start.transferred, start.available)
    requires |rounds| == |hosts| && Possible(hosts, start, rounds)
    requires Untroubled(AfterRounds(hosts, start, rounds)) ==> Calm(hosts, start, rounds)
    ensures var end := AfterRounds(hosts, start, rounds);
            && (Untroubled(end) && true !in start.transferred && Sequential(hosts, start.available) ==> ExactlyOnce(hosts, end))
            && Verdict(hosts, start, end, ActionsOf(keys, end.acts), waits, end.ok)
            && Begun(end) && Kept(hosts, start, end)
  {
    waits := WaitPoints(hosts, start, rounds);
    CalmRunsExactlyOnce(hosts, start, rounds);
    VerdictOfRounds(keys, hosts, start, rounds);
    BegunAfterRounds(hosts, start, rounds);
    FlagsAndCoresFollowActions(hosts, start, start, rounds);
  }

  /** Nothing has been transferred, started or lost. */
  predicate Untouched(s: Schedule) {
    s == Before(s.transferred, s.available) && true !in s.transferred
  }

  lemma CalmRunsExactlyOnce(hosts: seq<string>, start: Schedule, rounds: seq<Round>)
    requires Shaped(hosts, start) && |rounds| == |hosts|
    ensures Untouched(start) && Calm(hosts, start, rounds) && Sequential(hosts, start.available) ==>
              ExactlyOnce(hosts, AfterRounds(hosts, start, rounds))
  {
    if Untouched(start) && Calm(hosts, start, rounds) && Sequential(hosts, start.available) {
      UntouchedIsFresh(hosts, start);
      SequentialRunsExactlyOnce(hosts, start.available);
    }
  }

  lemma UntouchedIsFresh(hosts: seq<string>, s: Schedule)
    requires Untouched(s) && |s.transferred| == |hosts|
    ensures s == Fresh(hosts, s.available)
  {
    var none := seq(|hosts|, i => false);
    forall i | 0 <= i < |hosts| ensures s.transferred[i] == none[i] {
      assert s.transferred[i] in s.transferred;
    }
    assert s.transferred == none;
  }

  lemma NothingListed(mappings: seq<SnapshotMapping>, children: map<int, MappingKey>, s: Schedule)
    requires |s.live| == |mappings| && !s.broken && children == map[] && forall i :: 0 <= i < |s.live| ==> s.live[i] == 0
    ensures Lists(mappings, map[], children, s)
  {
    forall i | 0 <= i < |mappings| ensures |Pids(map[], mappings[i])| == 0 {
      assert Pids(map[], mappings[i]) == {};
    }
  }
}
