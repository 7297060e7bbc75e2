/** What the actions of the snapshot scheduler do to the cores of the machines and to the marks on the mappings. */
module SnapshotAccounts {
  import opened SnapshotSchedules

  /** The cores of a machine that its processes hold, or that refused creations have kept. */
  function Held(hosts: seq<string>, acts: seq<Act>, machine: string): int {
    if acts == [] then 0 else
    Held(hosts, acts[..|acts| - 1], machine) +
      (match acts[|acts| - 1]
       case Began(i) => if OnMachine(hosts, i, machine) then 1 else 0
       case Missed(i) => if OnMachine(hosts, i, machine) then 1 else 0
       case Reaped(Ended(i, _)) => if OnMachine(hosts, i, machine) then -1 else 0
       case Reaped(Interrupted) => 0)
  }

  predicate OnMachine(hosts: seq<string>, i: nat, machine: string) {
    i < |hosts| && hosts[i] == machine
  }

  /** Completed mappings are marked, unmarked ones have not completed, and what has completed is not asked for again. */
  ghost predicate Settling(start: seq<bool>, s: Schedule) {
    && |s.transferred| == |start|
    && (forall i :: 0 <= i < |start| ==> (s.transferred[i] <==> start[i] || HasEnded(s.acts, i)))
    && (forall p, q :: 0 <= p < q < |s.acts| && Ending(s.acts[p]) ==> !Begins(s.acts[q], s.acts[p].reap.index))
  }

  predicate Ending(act: Act) {
    act.Reaped? && act.reap.Ended?
  }

  predicate Begins(act: Act, i: nat) {
    (act.Began? || act.Missed?) && act.index == i
  }

  ghost predicate HasEnded(acts: seq<Act>, i: nat) {
    exists act :: act in acts && Ending(act) && act.reap.index == i
  }

  /** What one more action does. */
  lemma SettlingAction(start: seq<bool>, s: Schedule, t: Schedule, act: Act)
    requires Settling(start, s) && t.acts == s.acts + [act]
    requires (act.Began? || act.Missed?) ==> act.index < |start| && !s.transferred[act.index]
    requires t.transferred == if Ending(act) && act.reap.index < |start| then s.transferred[act.reap.index := true] else s.transferred
    ensures Settling(start, t)
  {
    forall i | 0 <= i < |start| ensures t.transferred[i] <==> start[i] || HasEnded(t.acts, i) {
      EndedAlso(s.acts, act, i);
    }
    forall p, q | 0 <= p < q < |t.acts| && Ending(t.acts[p]) ensures !Begins(t.acts[q], t.acts[p].reap.index) {
      if q == |s.acts| {
        assert t.acts[p] in s.acts && HasEnded(s.acts, t.acts[p].reap.index);
      }
    }
  }

  lemma EndedAlso(acts: seq<Act>, act: Act, i: nat)
    ensures HasEnded(acts + [act], i) <==> HasEnded(acts, i) || (Ending(act) && act.reap.index == i)
  {
    if HasEnded(acts, i) {
      var a :| a in acts && Ending(a) && a.reap.index == i;
      assert a in acts + [act];
    }
    assert act in acts + [act];
  }

  lemma HeldAlso(hosts: seq<string>, acts: seq<Act>, act: Act, machine: string)
    ensures Held(hosts, acts + [act], machine) == Held(hosts, acts, machine) + Held(hosts, [act], machine)
  {
    assert (acts + [act])[..|acts + [act]| - 1] == acts;
    assert [act][..0] == [];
  }

  /** The cores available of a machine are those it had less those that are held; flags are set exactly on completion. */
  ghost predicate Kept(hosts: seq<string>, start: Schedule, s: Schedule)
    requires Shaped(hosts, s)
  {
    && s.available.Keys == start.available.Keys
    && (forall machine :: machine in start.available ==>
          s.available[machine] == start.available[machine] - Held(hosts, s.acts, machine))
    && Settling(start.transferred, s)
  }

  lemma TurnKeeps(hosts: seq<string>, start: Schedule, s: Schedule, i: nat, failing: set<int>)
    requires i < |hosts| && Shaped(hosts, s) && Kept(hosts, start, s)
    ensures Kept(hosts, start, Turn(hosts, s, i, failing))
  {
    if CanStart(hosts, s, i) {
      var act := if i in failing then Missed(i) else Began(i);
      forall machine | machine in start.available
        ensures Held(hosts, s.acts + [act], machine) == Held(hosts, s.acts, machine) + (if machine == hosts[i] then 1 else 0)
      {
        HeldAlso(hosts, s.acts, act, machine);
      }
      SettlingAction(start.transferred, s, Turn(hosts, s, i, failing), act);
    }
  }

  lemma PassKeepsNextOne(hosts: seq<string>, start: Schedule, s: Schedule, n: nat, failing: set<int>)
    requires n < |hosts| && Shaped(hosts, s) && Kept(hosts, start, Pass(hosts, s, n, failing))
    ensures Kept(hosts, start, Pass(hosts, s, n + 1, failing))
  {
    TurnKeeps(hosts, start, Pass(hosts, s, n, failing), n, failing);
  }

  lemma {:induction false} PassKeepsAll(hosts: seq<string>, start: Schedule, s: Schedule, n: nat, failing: set<int>)
    requires n <= |hosts| && Shaped(hosts, s) && Kept(hosts, start, s)
    ensures Kept(hosts, start, Pass(hosts, s, n, failing))
  {
    if n > 0 {
      PassKeepsAll(hosts, start, s, n - 1, failing);
      PassKeepsNextOne(hosts, start, s, n - 1, failing);
    }
  }

  lemma CompleteKeeps(hosts: seq<string>, start: Schedule, s: Schedule, i: nat, result: bool)
    requires i < |hosts| && Shaped(hosts, s) && s.live[i] > 0 && Kept(hosts, start, s)
    ensures Kept(hosts, start, Complete(hosts, s, i, result))
  {
    var act := Reaped(Ended(i, result));
    forall machine | machine in start.available
      ensures Held(hosts, s.acts + [act], machine) == Held(hosts, s.acts, machine) - (if machine == hosts[i] then 1 else 0)
    {
      HeldAlso(hosts, s.acts, act, machine);
    }
    SettlingAction(start.transferred, s, Complete(hosts, s, i, result), act);
  }

  lemma InterruptKeeps(hosts: seq<string>, start: Schedule, s: Schedule)
    requires Shaped(hosts, s) && Kept(hosts, start, s)
    ensures Kept(hosts, start, s.(ok := false, acts := s.acts + [Reaped(Interrupted)]))
  {
    var act := Reaped(Interrupted);
    forall machine | machine in start.available ensures Held(hosts, s.acts + [act], machine) == Held(hosts, s.acts, machine) {
      HeldAlso(hosts, s.acts, act, machine);
    }
    SettlingAction(start.transferred, s, s.(ok := false, acts := s.acts + [act]), act);
  }

  lemma WaitKeeps(hosts: seq<string>, start: Schedule, s: Schedule, reap: Reap)
    requires Shaped(hosts, s) && Kept(hosts, start, s)
    ensures Kept(hosts, start, Wait(hosts, s, reap))
  {
    if Outstanding(s) {
      if reap.Interrupted? {
        InterruptKeeps(hosts, start, s);
      } else if reap.index < |hosts| && s.live[reap.index] > 0 {
        CompleteKeeps(hosts, start, s, reap.index, reap.result);
      }
    }
  }

  /** Whatever the environment does: cores follow the actions, a mapping is marked exactly when one of its processes has
      completed, and no process is asked for after that. */
  lemma {:induction false} FlagsAndCoresFollowActions(hosts: seq<string>, start: Schedule, s: Schedule, rounds: seq<Round>)
    requires Shaped(hosts, s) && Kept(hosts, start, s)
    ensures Kept(hosts, start, AfterRounds(hosts, s, rounds))
    decreases |rounds|
  {
    if rounds != [] {
      PassKeepsAll(hosts, start, s, |hosts|, rounds[0].failing);
      WaitKeeps(hosts, start, Pass(hosts, s, |hosts|, rounds[0].failing), rounds[0].reap);
      FlagsAndCoresFollowActions(hosts, start, AfterRound(hosts, s, rounds[0]), rounds[1..]);
    }
  }
}
