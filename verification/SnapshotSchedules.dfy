/** The snapshot scheduler as a function of what its environment chooses: a fixed number of rounds, each of
    which starts what it can and then waits for one process. It keeps no in-progress mark, so a mapping that
    has been started but not completed may be started again. */
module SnapshotSchedules {
  /** How the wait of a round ends when processes are outstanding. */
  datatype Reap = Interrupted | Ended(index: nat, result: bool)

  /** The mappings whose process creation fails in the round, and its wait. */
  datatype Round = Round(failing: set<int>, reap: Reap)

  /** What happens to the processes: one is created for a mapping or cannot be created, or a wait ends. */
  datatype Act = Began(index: nat) | Missed(index: nat) | Reaped(reap: Reap)

  /** Per mapping: whether it has been transferred, and how many of its processes were started, are outstanding
      and could not be created. Per machine: the available cores. `broken` says that a failed creation has left
      its entry in the process table, and `acts` is everything that has happened so far. */
  datatype Schedule = Schedule(
    transferred: seq<bool>,
    starts: seq<nat>,
    live: seq<nat>,
    lost: seq<nat>,
    available: map<string, int>,
    broken: bool,
    results: seq<bool>,
    ok: bool,
    acts: seq<Act>
  )

  predicate Outstanding(s: Schedule) {
    exists i :: 0 <= i < |s.live| && s.live[i] > 0
  }

  predicate Shaped(hosts: seq<string>, s: Schedule) {
    && |s.transferred| == |s.starts| == |s.live| == |s.lost| == |hosts|
    && (forall i :: 0 <= i < |s.live| && s.live[i] > 0 ==> hosts[i] in s.available)
  }

  predicate CanStart(hosts: seq<string>, s: Schedule, i: nat)
    requires i < |hosts| && Shaped(hosts, s)
  {
    hosts[i] in s.available && !s.transferred[i] && s.available[hosts[i]] > 0
  }

  /** The turn of one mapping in a pass. */
  function Turn(hosts: seq<string>, s: Schedule, i: nat, failing: set<int>): (t: Schedule)
    requires i < |hosts| && Shaped(hosts, s)
    ensures Shaped(hosts, t)
  {
    if CanStart(hosts, s, i) then
      var available := s.available[hosts[i] := s.available[hosts[i]] - 1];
      if i in failing then
        s.(available := available, lost := s.lost[i := s.lost[i] + 1], broken := true,
           acts := s.acts + [Missed(i)])
      else
        s.(available := available, starts := s.starts[i := s.starts[i] + 1], live := s.live[i := s.live[i] + 1],
           acts := s.acts + [Began(i)])
    else
      s
  }

  /** The first `n` turns of a pass. */
  function Pass(hosts: seq<string>, s: Schedule, n: nat, failing: set<int>): (t: Schedule)
    requires n <= |hosts| && Shaped(hosts, s)
    ensures Shaped(hosts, t)
  {
    if n == 0 then s else Turn(hosts, Pass(hosts, s, n - 1, failing), n - 1, failing)
  }

  /** A process of the mapping completes. */
  function Complete(hosts: seq<string>, s: Schedule, i: nat, result: bool): (t: Schedule)
    requires i < |hosts| && Shaped(hosts, s) && s.live[i] > 0
    ensures Shaped(hosts, t)
  {
    s.(transferred := s.transferred[i := true],
       live := s.live[i := s.live[i] - 1],
       available := s.available[hosts[i] := s.available[hosts[i]] + 1],
       results := s.results + [result],
       ok := s.ok && result,
       acts := s.acts + [Reaped(Ended(i, result))])
  }

  /** The wait at the end of a round; the entry of a failed creation is never removed and makes every later wait fail
      when nothing else is outstanding. */
  function Wait(hosts: seq<string>, s: Schedule, reap: Reap): (t: Schedule)
    requires Shaped(hosts, s)
    ensures Shaped(hosts, t)
  {
    if !Outstanding(s) then
      s.(ok := s.ok && !s.broken)
    else if reap.Interrupted? then
      s.(ok := false, acts := s.acts + [Reaped(Interrupted)])
    else if reap.index < |hosts| && s.live[reap.index] > 0 then
      Complete(hosts, s, reap.index, reap.result)
    else
      s
  }

  function AfterRound(hosts: seq<string>, s: Schedule, round: Round): (t: Schedule)
    requires Shaped(hosts, s)
    ensures Shaped(hosts, t)
  {
    Wait(hosts, Pass(hosts, s, |hosts|, round.failing), round.reap)
  }

  function AfterRounds(hosts: seq<string>, s: Schedule, rounds: seq<Round>): (t: Schedule)
    requires Shaped(hosts, s)
    ensures Shaped(hosts, t)
    decreases |rounds|
  {
    if rounds == [] then s else AfterRounds(hosts, AfterRound(hosts, s, rounds[0]), rounds[1..])
  }

  /** A wait can only complete a process that is outstanding. */
  predicate PossibleReap(s: Schedule, reap: Reap) {
    Outstanding(s) && reap.Ended? ==> reap.index < |s.live| && s.live[reap.index] > 0
  }

  predicate Possible(hosts: seq<string>, s: Schedule, rounds: seq<Round>)
    requires Shaped(hosts, s)
    decreases |rounds|
  {
    rounds != [] ==>
      && PossibleReap(Pass(hosts, s, |hosts|, rounds[0].failing), rounds[0].reap)
      && Possible(hosts, AfterRound(hosts, s, rounds[0]), rounds[1..])
  }

  /** Every process can be created and no wait is interrupted. */
  predicate CalmReap(s: Schedule, reap: Reap) {
    Outstanding(s) ==> reap.Ended? && reap.index < |s.live| && s.live[reap.index] > 0
  }

  predicate Calm(hosts: seq<string>, s: Schedule, rounds: seq<Round>)
    requires Shaped(hosts, s)
    decreases |rounds|
  {
    rounds != [] ==>
      && rounds[0].failing == {}
      && CalmReap(Pass(hosts, s, |hosts|, {}), rounds[0].reap)
      && Calm(hosts, AfterRound(hosts, s, rounds[0]), rounds[1..])
  }

  /** One more round. */
  lemma {:induction false} RoundsAppend(hosts: seq<string>, s: Schedule, rounds: seq<Round>, round: Round)
    requires Shaped(hosts, s)
    ensures AfterRounds(hosts, s, rounds + [round]) == AfterRound(hosts, AfterRounds(hosts, s, rounds), round)
    decreases |rounds|
  {
    if rounds == [] {
      assert (rounds + [round])[1..] == [];
    } else {
      RoundsAppend(hosts, AfterRound(hosts, s, rounds[0]), rounds[1..], round);
      assert (rounds + [round])[1..] == rounds[1..] + [round];
    }
  }

  lemma {:induction false} PossibleAppend(hosts: seq<string>, s: Schedule, rounds: seq<Round>, round: Round)
    requires Shaped(hosts, s) && Possible(hosts, s, rounds)
    requires PossibleReap(Pass(hosts, AfterRounds(hosts, s, rounds), |hosts|, round.failing), round.reap)
    ensures Possible(hosts, s, rounds + [round])
    decreases |rounds|
  {
    if rounds == [] {
      assert (rounds + [round])[1..] == [];
    } else {
      PossibleAppend(hosts, AfterRound(hosts, s, rounds[0]), rounds[1..], round);
      assert (rounds + [round])[1..] == rounds[1..] + [round];
    }
  }

  lemma {:induction false} CalmAppend(hosts: seq<string>, s: Schedule, rounds: seq<Round>, round: Round)
    requires Shaped(hosts, s) && Calm(hosts, s, rounds) && round.failing == {}
    requires CalmReap(Pass(hosts, AfterRounds(hosts, s, rounds), |hosts|, {}), round.reap)
    ensures Calm(hosts, s, rounds + [round])
    decreases |rounds|
  {
    if rounds == [] {
      assert (rounds + [round])[1..] == [];
    } else {
      CalmAppend(hosts, AfterRound(hosts, s, rounds[0]), rounds[1..], round);
      assert (rounds + [round])[1..] == rounds[1..] + [round];
    }
  }

  function Zeros(n: nat): (r: seq<nat>)
    ensures |r| == n && forall i :: 0 <= i < n ==> r[i] == 0
  {
    seq(n, i => 0)
  }

  /** Nothing has been started yet. */
  function Before(transferred: seq<bool>, available: map<string, int>): Schedule {
    var zeros := Zeros(|transferred|);
    Schedule(transferred, zeros, zeros, zeros, available, false, [], true, [])
  }

  // ----- what has been started -----

  /** The starts counted per mapping are the processes that have been created for it. */
  ghost predicate Begun(s: Schedule) {
    forall i :: 0 <= i < |s.starts| ==> multiset(s.acts)[Began(i)] == s.starts[i]
  }

  lemma BegunAfterTurn(hosts: seq<string>, s: Schedule, i: nat, failing: set<int>)
    requires i < |hosts| && Shaped(hosts, s) && Begun(s)
    ensures Begun(Turn(hosts, s, i, failing))
  {}

  lemma {:induction false} BegunAfterPass(hosts: seq<string>, s: Schedule, n: nat, failing: set<int>)
    requires n <= |hosts| && Shaped(hosts, s) && Begun(s)
    ensures Begun(Pass(hosts, s, n, failing))
  {
    if n > 0 {
      BegunAfterPass(hosts, s, n - 1, failing);
      BegunAfterTurn(hosts, Pass(hosts, s, n - 1, failing), n - 1, failing);
    }
  }

  lemma BegunAfterWait(hosts: seq<string>, s: Schedule, reap: Reap)
    requires Shaped(hosts, s) && Begun(s)
    ensures Begun(Wait(hosts, s, reap))
  {}

  /** In every schedule the starts are the processes created. */
  lemma {:induction false} BegunAfterRounds(hosts: seq<string>, s: Schedule, rounds: seq<Round>)
    requires Shaped(hosts, s) && Begun(s)
    ensures Begun(AfterRounds(hosts, s, rounds))
    decreases |rounds|
  {
    if rounds != [] {
      BegunAfterPass(hosts, s, |hosts|, rounds[0].failing);
      BegunAfterWait(hosts, Pass(hosts, s, |hosts|, rounds[0].failing), rounds[0].reap);
      BegunAfterRounds(hosts, AfterRound(hosts, s, rounds[0]), rounds[1..]);
    }
  }

  // ----- conservation of cores, for any number of cores and any environment -----

  /** The sum over the first `n` mappings that are on the machine. */
  function SumOn(hosts: seq<string>, counts: seq<nat>, machine: string, n: nat): nat
    requires n <= |hosts| && |counts| == |hosts|
  {
    if n == 0 then 0 else SumOn(hosts, counts, machine, n - 1) + (if hosts[n - 1] == machine then counts[n - 1] else 0)
  }

  lemma {:induction false} SumOnUpdate(hosts: seq<string>, counts: seq<nat>, machine: string, n: nat, i: nat,
                                       value: nat)
    requires n <= |hosts| && |counts| == |hosts| && i < |hosts|
    ensures SumOn(hosts, counts[i := value], machine, n) ==
              SumOn(hosts, counts, machine, n) + (if i < n && hosts[i] == machine then value - counts[i] else 0)
  {
    if n > 0 {
      SumOnUpdate(hosts, counts, machine, n - 1, i, value);
    }
  }

  lemma {:induction false} SumOnHolds(hosts: seq<string>, counts: seq<nat>, machine: string, n: nat, i: nat)
    requires i < n <= |hosts| && |counts| == |hosts| && hosts[i] == machine
    ensures counts[i] <= SumOn(hosts, counts, machine, n)
  {
    if i < n - 1 {
      SumOnHolds(hosts, counts, machine, n - 1, i);
    }
  }

  lemma {:induction false} SumOnZeros(hosts: seq<string>, counts: seq<nat>, machine: string, n: nat)
    requires n <= |hosts| && |counts| == |hosts|
    requires forall i :: 0 <= i < n && hosts[i] == machine ==> counts[i] == 0
    ensures SumOn(hosts, counts, machine, n) == 0
  {
    if n > 0 {
      SumOnZeros(hosts, counts, machine, n - 1);
    }
  }

  /** The cores a machine has available, in use, or lost to failed creations. */
  function Balance(hosts: seq<string>, s: Schedule, machine: string): int
    requires Shaped(hosts, s)
  {
    (if machine in s.available then s.available[machine] else 0)
      + SumOn(hosts, s.live, machine, |hosts|) + SumOn(hosts, s.lost, machine, |hosts|)
  }

  lemma TurnKeepsCores(hosts: seq<string>, s: Schedule, i: nat, failing: set<int>, machine: string)
    requires i < |hosts| && Shaped(hosts, s)
    ensures Balance(hosts, Turn(hosts, s, i, failing), machine) == Balance(hosts, s, machine)
  {
    SumOnUpdate(hosts, s.live, machine, |hosts|, i, s.live[i] + 1);
    SumOnUpdate(hosts, s.lost, machine, |hosts|, i, s.lost[i] + 1);
  }

  lemma {:induction false} PassKeepsCores(hosts: seq<string>, s: Schedule, n: nat, failing: set<int>, machine: string)
    requires n <= |hosts| && Shaped(hosts, s)
    ensures Balance(hosts, Pass(hosts, s, n, failing), machine) == Balance(hosts, s, machine)
  {
    if n > 0 {
      PassKeepsCores(hosts, s, n - 1, failing, machine);
      TurnKeepsCores(hosts, Pass(hosts, s, n - 1, failing), n - 1, failing, machine);
    }
  }

  lemma WaitKeepsCores(hosts: seq<string>, s: Schedule, reap: Reap, machine: string)
    requires Shaped(hosts, s)
    ensures Balance(hosts, Wait(hosts, s, reap), machine) == Balance(hosts, s, machine)
  {
    if reap.Ended? && reap.index < |hosts| && s.live[reap.index] > 0 {
      SumOnUpdate(hosts, s.live, machine, |hosts|, reap.index, s.live[reap.index] - 1);
    }
  }

  /** Whatever the environment does, available, outstanding and lost cores of a machine add up to the same number. */
  lemma {:induction false} CoresAreConserved(hosts: seq<string>, s: Schedule, rounds: seq<Round>, machine: string)
    requires Shaped(hosts, s)
    ensures Balance(hosts, AfterRounds(hosts, s, rounds), machine) == Balance(hosts, s, machine)
    decreases |rounds|
  {
    if rounds != [] {
      PassKeepsCores(hosts, s, |hosts|, rounds[0].failing, machine);
      WaitKeepsCores(hosts, Pass(hosts, s, |hosts|, rounds[0].failing), rounds[0].reap, machine);
      CoresAreConserved(hosts, AfterRound(hosts, s, rounds[0]), rounds[1..], machine);
    }
  }
}
