/** Why the snapshot scheduler needs one core per machine: with more, a mapping that is still running is started again. */
module SnapshotLimits {
  import opened SnapshotSchedules
  import opened SnapshotTheorems

  // ----- what one pass does to one mapping -----

  /** Only the turn of a mapping starts it. */
  lemma {:induction false} PassAt(hosts: seq<string>, s: Schedule, n: nat, j: nat)
    requires j < |hosts| && n <= |hosts| && Shaped(hosts, s)
    ensures var t := Pass(hosts, s, n, {});
            && t.transferred == s.transferred && t.available.Keys == s.available.Keys
            && t.starts[j] == (if j < n then Pass(hosts, s, j + 1, {}).starts[j] else s.starts[j])
            && t.live[j] == (if j < n then Pass(hosts, s, j + 1, {}).live[j] else s.live[j])
  {
    if n > 0 {
      PassAt(hosts, s, n - 1, j);
    }
  }

  ghost predicate NoneOn(hosts: seq<string>, machine: string, i: nat, j: nat)
    requires j <= |hosts|
  {
    forall k :: i <= k < j ==> hosts[k] != machine
  }

  lemma {:induction false} PassElsewhere(hosts: seq<string>, s: Schedule, i: nat, j: nat, machine: string)
    requires i <= j <= |hosts| && Shaped(hosts, s) && NoneOn(hosts, machine, i, j)
    requires machine in Pass(hosts, s, i, {}).available
    ensures machine in Pass(hosts, s, j, {}).available
    ensures Pass(hosts, s, j, {}).available[machine] == Pass(hosts, s, i, {}).available[machine]
    decreases j
  {
    if i < j {
      PassElsewhere(hosts, s, i, j - 1, machine);
    }
  }

  /** The next mapping on a machine with a core available is started. */
  lemma PassStarts(hosts: seq<string>, s: Schedule, i: nat, j: nat)
    requires i <= j < |hosts| && Shaped(hosts, s) && NoneOn(hosts, hosts[j], i, j) && !s.transferred[j]
    requires hosts[j] in s.available && Pass(hosts, s, i, {}).available.Keys == s.available.Keys
    requires Pass(hosts, s, i, {}).available[hosts[j]] > 0
    ensures var t := Pass(hosts, s, j + 1, {});
            && t.starts[j] == s.starts[j] + 1 && t.live[j] == s.live[j] + 1
            && hosts[j] in t.available && t.available[hosts[j]] == Pass(hosts, s, i, {}).available[hosts[j]] - 1
  {
    PassElsewhere(hosts, s, i, j, hosts[j]);
    PassAt(hosts, s, j, j);
    var before := Pass(hosts, s, j, {});
    assert Pass(hosts, s, j + 1, {}) == Turn(hosts, before, j, {});
  }

  lemma {:induction false} StartsGrow(hosts: seq<string>, s: Schedule, rounds: seq<Round>, i: nat)
    requires i < |hosts| && Shaped(hosts, s)
    ensures AfterRounds(hosts, s, rounds).starts[i] >= s.starts[i]
    decreases |rounds|
  {
    if rounds != [] {
      RoundGrows(hosts, s, rounds[0], i);
      StartsGrow(hosts, AfterRound(hosts, s, rounds[0]), rounds[1..], i);
    }
  }

  lemma RoundGrows(hosts: seq<string>, s: Schedule, round: Round, i: nat)
    requires i < |hosts| && Shaped(hosts, s)
    ensures AfterRound(hosts, s, round).starts[i] >= s.starts[i]
  {
    PassGrows(hosts, s, |hosts|, round.failing, i);
  }

  lemma {:induction false} PassGrows(hosts: seq<string>, s: Schedule, n: nat, failing: set<int>, i: nat)
    requires i < |hosts| && n <= |hosts| && Shaped(hosts, s)
    ensures Pass(hosts, s, n, failing).starts[i] >= s.starts[i]
  {
    if n > 0 {
      PassGrows(hosts, s, n - 1, failing, i);
    }
  }

  /** The environment can always go on calmly. */
  lemma {:induction false} CalmExists(hosts: seq<string>, s: Schedule, n: nat) returns (rounds: seq<Round>)
    requires Shaped(hosts, s)
    ensures |rounds| == n && Calm(hosts, s, rounds)
    decreases n
  {
    rounds := [];
    if n > 0 {
      var t := Pass(hosts, s, |hosts|, {});
      var round := Round({}, Interrupted);
      if i :| 0 <= i < |t.live| && t.live[i] > 0 {
        round := Round({}, Ended(i, true));
      }
      var rest := CalmExists(hosts, AfterRound(hosts, s, round), n - 1);
      rounds := [round] + rest;
      assert rounds[1..] == rest;
    }
  }

  // ----- a mapping that is started twice -----

  /** The first mapping on a machine from the given index on. */
  lemma {:induction false} FirstOn(hosts: seq<string>, machine: string, i: nat, k: nat) returns (first: nat)
    requires i <= k < |hosts| && hosts[k] == machine
    ensures i <= first <= k && hosts[first] == machine && NoneOn(hosts, machine, i, first)
    decreases k - i
  {
    if hosts[i] == machine {
      first := i;
    } else {
      first := FirstOn(hosts, machine, i + 1, k);
    }
  }

  lemma FirstTurn(hosts: seq<string>, s: Schedule, a: nat)
    requires a < |hosts| && Shaped(hosts, s) && NoneOn(hosts, hosts[a], 0, a) && !s.transferred[a]
    requires hosts[a] in s.available && s.available[hosts[a]] > 0
    ensures var t := Pass(hosts, s, a + 1, {});
            t.starts[a] == s.starts[a] + 1 && t.live[a] == s.live[a] + 1 && t.available.Keys == s.available.Keys
            && hosts[a] in t.available && t.available[hosts[a]] == s.available[hosts[a]] - 1
  {
    PassStarts(hosts, s, 0, a);
    PassAt(hosts, s, a + 1, a);
  }

  /** In a pass the first mapping on a machine with a core is started. */
  lemma FirstIsStarted(hosts: seq<string>, s: Schedule, a: nat)
    requires a < |hosts| && Shaped(hosts, s) && NoneOn(hosts, hosts[a], 0, a) && !s.transferred[a]
    requires hosts[a] in s.available && s.available[hosts[a]] > 0
    ensures var t := Pass(hosts, s, |hosts|, {});
            t.starts[a] == s.starts[a] + 1 && t.live[a] == s.live[a] + 1
            && hosts[a] in t.available && t.transferred == s.transferred
  {
    FirstTurn(hosts, s, a);
    PassAt(hosts, s, |hosts|, a);
  }

  lemma {:induction false} PassStaysPositive(hosts: seq<string>, s: Schedule, n: nat, machine: string)
    requires n <= |hosts| && Shaped(hosts, s) && machine in s.available && s.available[machine] >= 0
    ensures machine in Pass(hosts, s, n, {}).available && Pass(hosts, s, n, {}).available[machine] >= 0
  {
    if n > 0 {
      PassStaysPositive(hosts, s, n - 1, machine);
    }
  }

  /** After the first pass over two mappings, one of them first on a machine with two cores, the other can complete
      and leave that machine with a core for the mapping that is still running. */
  lemma OtherIsStarted(hosts: seq<string>, s: Schedule, a: nat, other: nat) returns (b: nat)
    requires a < |hosts| && Shaped(hosts, s) && NoneOn(hosts, hosts[a], 0, a) && forall i :: 0 <= i < |hosts| ==> !s.transferred[i]
    requires hosts[a] in s.available && s.available[hosts[a]] >= 2
    requires other < |hosts| && other != a && hosts[other] in s.available && s.available[hosts[other]] >= 1
    ensures b < |hosts| && b != a && Pass(hosts, s, |hosts|, {}).live[b] == s.live[b] + 1
    ensures var t := Pass(hosts, s, |hosts|, {});
            hosts[a] in t.available && t.available[hosts[a]] + (if hosts[b] == hosts[a] then 1 else 0) >= 1
  {
    if k :| a < k < |hosts| && hosts[k] == hosts[a] {
      b := FirstOn(hosts, hosts[a], a + 1, k);
      NextIsStarted(hosts, s, a, b);
    } else {
      b := FirstOn(hosts, hosts[other], 0, other);
      FirstIsStarted(hosts, s, b);
      LastKeepsCore(hosts, s, a);
    }
  }

  lemma LastKeepsCore(hosts: seq<string>, s: Schedule, a: nat)
    requires a < |hosts| && NoneOn(hosts, hosts[a], 0, a) && NoneOn(hosts, hosts[a], a + 1, |hosts|)
    requires Shaped(hosts, s) && !s.transferred[a] && hosts[a] in s.available && s.available[hosts[a]] >= 2
    ensures var t := Pass(hosts, s, |hosts|, {});
            hosts[a] in t.available && t.available[hosts[a]] >= 1
  {
    FirstTurn(hosts, s, a);
    PassElsewhere(hosts, s, a + 1, |hosts|, hosts[a]);
  }

  lemma NextIsStarted(hosts: seq<string>, s: Schedule, a: nat, b: nat)
    requires a < b < |hosts| && hosts[b] == hosts[a] && NoneOn(hosts, hosts[a], 0, a)
             && NoneOn(hosts, hosts[a], a + 1, b)
    requires Shaped(hosts, s) && !s.transferred[a] && !s.transferred[b]
    requires hosts[a] in s.available && s.available[hosts[a]] >= 2
    ensures var t := Pass(hosts, s, |hosts|, {});
            t.live[b] == s.live[b] + 1 && hosts[a] in t.available && t.available[hosts[a]] >= 0
  {
    FirstTurn(hosts, s, a);
    PassStarts(hosts, s, a + 1, b);
    PassAt(hosts, s, |hosts|, b);
    PassStaysPositive(hosts, s, |hosts|, hosts[a]);
  }

  /** With two mappings to run and a machine with two cores, the environment can have one of them started twice. */
  lemma StartedTwice(hosts: seq<string>, cores: map<string, int>, k: nat, other: nat)
    returns (rounds: seq<Round>, a: nat)
    requires k < |hosts| && hosts[k] in cores && cores[hosts[k]] >= 2
    requires other < |hosts| && other != k && hosts[other] in cores && cores[hosts[other]] >= 1
    ensures |rounds| == |hosts| && Calm(hosts, Fresh(hosts, cores), rounds)
    ensures a < |hosts| && AfterRounds(hosts, Fresh(hosts, cores), rounds).starts[a] >= 2
  {
    var s := Fresh(hosts, cores);
    a := FirstOn(hosts, hosts[k], 0, k);
    var first := StillRunning(hosts, s, a, if other == a then k else other);
    var u := AfterRound(hosts, s, first);
    var rest := CalmExists(hosts, u, |hosts| - 1);
    rounds := [first] + rest;
    assert rounds[1..] == rest;
    StartedAgain(hosts, u, rest, a);
  }

  /** A first round after which a mapping is running and could be started again. */
  lemma StillRunning(hosts: seq<string>, s: Schedule, a: nat, other: nat) returns (first: Round)
    requires a < |hosts| && Shaped(hosts, s) && NoneOn(hosts, hosts[a], 0, a) && forall i :: 0 <= i < |hosts| ==> !s.transferred[i]
    requires hosts[a] in s.available && s.available[hosts[a]] >= 2
    requires other < |hosts| && other != a && hosts[other] in s.available && s.available[hosts[other]] >= 1
    ensures first.failing == {} && CalmReap(Pass(hosts, s, |hosts|, {}), first.reap)
    ensures var u := AfterRound(hosts, s, first);
            u.starts[a] >= 1 && !u.transferred[a] && hosts[a] in u.available && u.available[hosts[a]] >= 1
  {
    var b := OtherIsStarted(hosts, s, a, other);
    FirstIsStarted(hosts, s, a);
    first := Round({}, Ended(b, true));
    var t := Pass(hosts, s, |hosts|, {});
    assert t.live[b] > 0;
    assert AfterRound(hosts, s, first) == Complete(hosts, t, b, true);
  }

  lemma StartedAgain(hosts: seq<string>, s: Schedule, rounds: seq<Round>, a: nat)
    requires a < |hosts| && Shaped(hosts, s) && NoneOn(hosts, hosts[a], 0, a) && rounds != [] && Calm(hosts, s, rounds)
    requires s.starts[a] >= 1 && !s.transferred[a] && hosts[a] in s.available && s.available[hosts[a]] >= 1
    ensures AfterRounds(hosts, s, rounds).starts[a] >= 2
  {
    FirstIsStarted(hosts, s, a);
    StartsGrow(hosts, AfterRound(hosts, s, rounds[0]), rounds[1..], a);
  }

  // ----- a mapping that is never started -----

  lemma {:induction false} PassNeverStarts(hosts: seq<string>, s: Schedule, n: nat, i: nat)
    requires i < |hosts| && n <= |hosts| && Shaped(hosts, s) && Balance(hosts, s, hosts[i]) <= 0
    ensures Pass(hosts, s, n, {}).starts[i] == s.starts[i]
  {
    if n > 0 {
      PassNeverStarts(hosts, s, n - 1, i);
      PassKeepsCores(hosts, s, n - 1, {}, hosts[i]);
    }
  }

  /** A machine without cores starts nothing. */
  lemma {:induction false} NeverStarts(hosts: seq<string>, s: Schedule, rounds: seq<Round>, i: nat)
    requires i < |hosts| && Shaped(hosts, s) && Balance(hosts, s, hosts[i]) <= 0 && Calm(hosts, s, rounds)
    ensures AfterRounds(hosts, s, rounds).starts[i] == s.starts[i]
    decreases |rounds|
  {
    if rounds != [] {
      PassNeverStarts(hosts, s, |hosts|, i);
      PassKeepsCores(hosts, s, |hosts|, {}, hosts[i]);
      WaitKeepsCores(hosts, Pass(hosts, s, |hosts|, {}), rounds[0].reap, hosts[i]);
      NeverStarts(hosts, AfterRound(hosts, s, rounds[0]), rounds[1..], i);
    }
  }

  // ----- a single mapping to run -----

  ghost predicate OnlyHosted(hosts: seq<string>, s: Schedule, i: nat) {
    i < |hosts| && hosts[i] in s.available && forall j :: 0 <= j < |hosts| && j != i ==> hosts[j] !in s.available
  }

  lemma {:induction false} SoloPass(hosts: seq<string>, s: Schedule, n: nat, i: nat)
    requires n <= |hosts| && Shaped(hosts, s) && OnlyHosted(hosts, s, i)
    ensures Pass(hosts, s, n, {}) == if n > i then Turn(hosts, s, i, {}) else s
  {
    if n > 0 {
      SoloPass(hosts, s, n - 1, i);
    }
  }

  /** The only mapping to run has been run. */
  ghost predicate SoloDone(hosts: seq<string>, s: Schedule, i: nat) {
    && Shaped(hosts, s) && OnlyHosted(hosts, s, i) && s.transferred[i] && !Outstanding(s) && !s.broken
    && (forall j :: 0 <= j < |hosts| ==> s.starts[j] == if j == i then 1 else 0)
    && (s.ok <==> false !in s.results)
  }

  lemma {:induction false} SoloStaysDone(hosts: seq<string>, s: Schedule, rounds: seq<Round>, i: nat)
    requires SoloDone(hosts, s, i) && Calm(hosts, s, rounds)
    ensures SoloDone(hosts, AfterRounds(hosts, s, rounds), i)
    decreases |rounds|
  {
    if rounds != [] {
      SoloPass(hosts, s, |hosts|, i);
      assert AfterRound(hosts, s, rounds[0]) == s;
      SoloStaysDone(hosts, s, rounds[1..], i);
    }
  }

  ghost predicate SoloReady(hosts: seq<string>, s: Schedule, i: nat) {
    && Shaped(hosts, s) && OnlyHosted(hosts, s, i) && s.available[hosts[i]] >= 1 && OnceEach(hosts, s)
    && (forall j :: 0 <= j < |hosts| ==> !s.transferred[j] && s.live[j] == 0)
  }

  lemma SoloFirstRound(hosts: seq<string>, s: Schedule, round: Round, i: nat)
    requires SoloReady(hosts, s, i)
    requires round.failing == {} && CalmReap(Pass(hosts, s, |hosts|, {}), round.reap)
    ensures SoloDone(hosts, AfterRound(hosts, s, round), i)
  {
    SoloPass(hosts, s, |hosts|, i);
    var t := Turn(hosts, s, i, {});
    assert t.live[i] == 1;
    assert AfterRound(hosts, s, round) == Complete(hosts, t, i, round.reap.result);
  }

  lemma SoloRounds(hosts: seq<string>, s: Schedule, rounds: seq<Round>, i: nat)
    requires SoloReady(hosts, s, i) && rounds != [] && Calm(hosts, s, rounds)
    ensures SoloDone(hosts, AfterRounds(hosts, s, rounds), i)
  {
    SoloFirstRound(hosts, s, rounds[0], i);
    SoloStaysDone(hosts, AfterRound(hosts, s, rounds[0]), rounds[1..], i);
  }

  lemma SoloDoneIsExactlyOnce(hosts: seq<string>, s: Schedule, i: nat)
    requires SoloDone(hosts, s, i)
    ensures ExactlyOnce(hosts, s)
  {}

  /** A single mapping to run is run once on any number of cores. */
  lemma SoloRunsExactlyOnce(hosts: seq<string>, cores: map<string, int>, rounds: seq<Round>, i: nat)
    requires OnlyHosted(hosts, Fresh(hosts, cores), i) && cores[hosts[i]] >= 1
    requires |rounds| == |hosts| && Calm(hosts, Fresh(hosts, cores), rounds)
    ensures ExactlyOnce(hosts, AfterRounds(hosts, Fresh(hosts, cores), rounds))
  {
    FreshIsOnceEach(hosts, cores);
    assert SoloReady(hosts, Fresh(hosts, cores), i);
    SoloRounds(hosts, Fresh(hosts, cores), rounds, i);
    SoloDoneIsExactlyOnce(hosts, AfterRounds(hosts, Fresh(hosts, cores), rounds), i);
  }

  // ----- the exact condition -----

  /** Every machine of a mapping that is present has a core, and a single one unless there is a single mapping to run. */
  ghost predicate Sequential(hosts: seq<string>, cores: map<string, int>) {
    && (forall i :: 0 <= i < |hosts| && hosts[i] in cores ==> cores[hosts[i]] >= 1)
    && ((forall i :: 0 <= i < |hosts| && hosts[i] in cores ==> cores[hosts[i]] == 1)
        || (forall i, j :: 0 <= i < j < |hosts| ==> hosts[i] !in cores || hosts[j] !in cores))
  }

  ghost predicate AlwaysExactlyOnce(hosts: seq<string>, cores: map<string, int>) {
    forall rounds :: |rounds| == |hosts| && Calm(hosts, Fresh(hosts, cores), rounds) ==>
                       ExactlyOnce(hosts, AfterRounds(hosts, Fresh(hosts, cores), rounds))
  }

  /** In a calm environment every mapping is run exactly once, whatever completes first, exactly on sequential machines. */
  lemma ExactlyOnceExactlyWhenSequential(hosts: seq<string>, cores: map<string, int>)
    ensures AlwaysExactlyOnce(hosts, cores) <==> Sequential(hosts, cores)
  {
    if Sequential(hosts, cores) {
      SequentialRunsExactlyOnce(hosts, cores);
    } else {
      OtherwiseNotExactlyOnce(hosts, cores);
    }
  }

  lemma SequentialRunsExactlyOnce(hosts: seq<string>, cores: map<string, int>)
    requires Sequential(hosts, cores)
    ensures AlwaysExactlyOnce(hosts, cores)
  {
    forall rounds | |rounds| == |hosts| && Calm(hosts, Fresh(hosts, cores), rounds)
      ensures ExactlyOnce(hosts, AfterRounds(hosts, Fresh(hosts, cores), rounds))
    {
      if i :| 0 <= i < |hosts| && hosts[i] in cores && cores[hosts[i]] != 1 {
        SoloRunsExactlyOnce(hosts, cores, rounds, i);
      } else {
        SingleCoresRunExactlyOnce(hosts, cores, rounds);
      }
    }
  }

  lemma OtherwiseNotExactlyOnce(hosts: seq<string>, cores: map<string, int>)
    requires !Sequential(hosts, cores)
    ensures !AlwaysExactlyOnce(hosts, cores)
  {
    var s := Fresh(hosts, cores);
    if i :| 0 <= i < |hosts| && hosts[i] in cores && cores[hosts[i]] < 1 {
      var rounds := CalmExists(hosts, s, |hosts|);
      FreshBalance(hosts, cores, hosts[i]);
      NeverStarts(hosts, s, rounds, i);
      CoresStayPresent(hosts, s, rounds, hosts[i]);
      assert !ExactlyOnce(hosts, AfterRounds(hosts, s, rounds));
    } else {
      var k :| 0 <= k < |hosts| && hosts[k] in cores && cores[hosts[k]] != 1;
      var i, j :| 0 <= i < j < |hosts| && hosts[i] in cores && hosts[j] in cores;
      var rounds, a := StartedTwice(hosts, cores, k, if i == k then j else i);
      assert !ExactlyOnce(hosts, AfterRounds(hosts, s, rounds));
    }
  }

  lemma {:induction false} CoresStayPresent(hosts: seq<string>, s: Schedule, rounds: seq<Round>, machine: string)
    requires Shaped(hosts, s) && machine in s.available
    ensures machine in AfterRounds(hosts, s, rounds).available
    decreases |rounds|
  {
    if rounds != [] {
      PassStaysPresent(hosts, s, |hosts|, rounds[0].failing, machine);
      CoresStayPresent(hosts, AfterRound(hosts, s, rounds[0]), rounds[1..], machine);
    }
  }

  lemma {:induction false} PassStaysPresent(hosts: seq<string>, s: Schedule, n: nat, failing: set<int>, machine: string)
    requires n <= |hosts| && Shaped(hosts, s) && machine in s.available
    ensures machine in Pass(hosts, s, n, failing).available
  {
    if n > 0 {
      PassStaysPresent(hosts, s, n - 1, failing, machine);
    }
  }

  // ----- a concrete run -----

  const PAIR: seq<string> := ["machine", "machine"]

  function OnPair(transferred: seq<bool>, starts: seq<nat>, live: seq<nat>, available: int, results: seq<bool>,
                  acts: seq<Act>): Schedule {
    Schedule(transferred, starts, live, [0, 0], map["machine" := available], false, results, true, acts)
  }

  const FIRST: seq<Act> := [Began(0), Began(1), Reaped(Ended(0, true))]
  const SECOND: seq<Act> := FIRST + [Began(1), Reaped(Ended(1, true))]

  lemma TwoTurns(s: Schedule) returns (t: Schedule)
    requires Shaped(PAIR, s)
    ensures t == Turn(PAIR, Turn(PAIR, s, 0, {}), 1, {}) == Pass(PAIR, s, 2, {})
  {
    t := Turn(PAIR, Turn(PAIR, s, 0, {}), 1, {});
    assert Pass(PAIR, s, 0, {}) == s;
    assert Pass(PAIR, s, 1, {}) == Turn(PAIR, s, 0, {});
  }

  lemma FirstOfTwoRounds(s: Schedule)
    requires s == OnPair([false, false], [0, 0], [0, 0], 2, [], [])
    ensures CalmReap(Pass(PAIR, s, 2, {}), Ended(0, true))
    ensures AfterRound(PAIR, s, Round({}, Ended(0, true))) == OnPair([true, false], [1, 1], [0, 1], 1, [true], FIRST)
  {
    var t := TwoTurns(s);
    assert Turn(PAIR, s, 0, {}) == OnPair([false, false], [1, 0], [1, 0], 1, [], [Began(0)]);
    assert t == OnPair([false, false], [1, 1], [1, 1], 0, [], [Began(0), Began(1)]);
    assert t.live[0] > 0;
  }

  lemma SecondOfTwoRounds(s: Schedule)
    requires s == OnPair([true, false], [1, 1], [0, 1], 1, [true], FIRST)
    ensures CalmReap(Pass(PAIR, s, 2, {}), Ended(1, true))
    ensures AfterRound(PAIR, s, Round({}, Ended(1, true))) == OnPair([true, true], [1, 2], [0, 1], 1, [true, true], SECOND)
  {
    var t := TwoTurns(s);
    assert Turn(PAIR, s, 0, {}) == s;
    assert t == OnPair([true, false], [1, 2], [0, 2], 0, [true], FIRST + [Began(1)]);
    assert t.live[1] > 0;
  }

  /** Two components on one machine with two cores: after the first has completed, the second is started once more
      while it is still running, and one of its processes is outstanding when the scheduler returns. */
  lemma TwoComponentsOnTwoCores()
    ensures var s := OnPair([false, false], [0, 0], [0, 0], 2, [], []);
            var rounds := [Round({}, Ended(0, true)), Round({}, Ended(1, true))];
            && Shaped(PAIR, s) && Calm(PAIR, s, rounds)
            && AfterRounds(PAIR, s, rounds).starts == [1, 2] && Outstanding(AfterRounds(PAIR, s, rounds))
  {
    var s, t := OnPair([false, false], [0, 0], [0, 0], 2, [], []), OnPair([true, false], [1, 1], [0, 1], 1, [true], FIRST);
    var u := OnPair([true, true], [1, 2], [0, 1], 1, [true, true], SECOND);
    var first, second := Round({}, Ended(0, true)), Round({}, Ended(1, true));
    FirstOfTwoRounds(s);
    SecondOfTwoRounds(t);
    assert [first, second][1..] == [second] && [second][1..] == [];
    assert AfterRounds(PAIR, t, [second]) == u && Calm(PAIR, t, [second]);
    assert u.live[1] > 0;
  }
}
