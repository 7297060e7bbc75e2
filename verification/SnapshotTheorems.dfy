/** When the snapshot scheduler runs every mapping exactly once: the exact condition on the cores. */
module SnapshotTheorems {
  import opened SnapshotSchedules

  /** Every mapping on a present machine has been run once and no other, nothing is outstanding,
      and the status is the conjunction of the results. */
  ghost predicate ExactlyOnce(hosts: seq<string>, s: Schedule) {
    && Shaped(hosts, s)
    && (forall i :: 0 <= i < |hosts| ==> s.starts[i] == if hosts[i] in s.available then 1 else 0)
    && !Outstanding(s)
    && (s.ok <==> false !in s.results)
  }

  // ----- one core per machine -----

  /** Each present machine of a mapping has one core, which is available or in use. */
  ghost predicate SingleCored(hosts: seq<string>, s: Schedule)
    requires Shaped(hosts, s)
  {
    forall i {:trigger Balance(hosts, s, hosts[i])} :: 0 <= i < |hosts| && hosts[i] in s.available ==>
      s.available[hosts[i]] >= 0 && Balance(hosts, s, hosts[i]) == 1
  }

  /** A mapping that is not transferred has only been started for what is outstanding, a transferred one exactly once. */
  ghost predicate OnceEach(hosts: seq<string>, s: Schedule)
    requires Shaped(hosts, s)
  {
    && (forall i :: 0 <= i < |hosts| ==> s.lost[i] == 0)
    && (forall i :: 0 <= i < |hosts| && s.transferred[i] ==> s.starts[i] == 1 && s.live[i] == 0 && hosts[i] in s.available)
    && (forall i :: 0 <= i < |hosts| && !s.transferred[i] ==> s.starts[i] == s.live[i])
    && !s.broken
    && (s.ok <==> false !in s.results)
  }

  lemma LiveTakesCore(hosts: seq<string>, s: Schedule, i: nat)
    requires Shaped(hosts, s) && SingleCored(hosts, s) && i < |hosts| && s.live[i] > 0
    ensures s.live[i] == 1 && s.available[hosts[i]] == 0
  {
    SumOnHolds(hosts, s.live, hosts[i], |hosts|, i);
    assert Balance(hosts, s, hosts[i]) == 1;
  }

  lemma TurnKeepsSingleCored(hosts: seq<string>, s: Schedule, i: nat)
    requires i < |hosts| && Shaped(hosts, s) && SingleCored(hosts, s)
    ensures SingleCored(hosts, Turn(hosts, s, i, {}))
  {
    var t := Turn(hosts, s, i, {});
    forall j | 0 <= j < |hosts| && hosts[j] in t.available
      ensures t.available[hosts[j]] >= 0 && Balance(hosts, t, hosts[j]) == 1
    {
      TurnKeepsCores(hosts, s, i, {}, hosts[j]);
    }
  }

  /** A mapping that is started has not been started before: its machine is idle and it is not transferred. */
  lemma TurnKeepsOnceEach(hosts: seq<string>, s: Schedule, i: nat)
    requires i < |hosts| && Shaped(hosts, s) && SingleCored(hosts, s) && OnceEach(hosts, s)
    ensures OnceEach(hosts, Turn(hosts, s, i, {}))
  {}

  /** After the turns so far, every machine with something left to transfer among them is at work. */
  ghost predicate Attended(hosts: seq<string>, s: Schedule, n: nat)
    requires n <= |hosts| && Shaped(hosts, s)
  {
    forall i :: 0 <= i < n && hosts[i] in s.available && !s.transferred[i] ==> s.available[hosts[i]] == 0
  }

  /** What holds after `n` turns of a pass that began in the given schedule. */
  ghost predicate UnderWay(hosts: seq<string>, start: Schedule, s: Schedule, n: nat)
    requires n <= |hosts| && Shaped(hosts, s)
  {
    && SingleCored(hosts, s) && OnceEach(hosts, s) && Attended(hosts, s, n)
    && s.transferred == start.transferred && s.available.Keys == start.available.Keys
  }

  lemma TurnKeepsUnderWay(hosts: seq<string>, start: Schedule, s: Schedule, i: nat)
    requires i < |hosts| && Shaped(hosts, s) && UnderWay(hosts, start, s, i)
    ensures UnderWay(hosts, start, Turn(hosts, s, i, {}), i + 1)
  {
    TurnKeepsSingleCored(hosts, s, i);
    TurnKeepsOnceEach(hosts, s, i);
    assert hosts[i] in s.available ==> Balance(hosts, s, hosts[i]) == 1 && s.available[hosts[i]] <= 1;
  }

  lemma PassKeepsNext(hosts: seq<string>, s: Schedule, n: nat)
    requires n < |hosts| && Shaped(hosts, s) && UnderWay(hosts, s, Pass(hosts, s, n, {}), n)
    ensures UnderWay(hosts, s, Pass(hosts, s, n + 1, {}), n + 1)
  {
    TurnKeepsUnderWay(hosts, s, Pass(hosts, s, n, {}), n);
  }

  lemma {:induction false} PassKeeps(hosts: seq<string>, s: Schedule, n: nat)
    requires n <= |hosts| && Shaped(hosts, s) && SingleCored(hosts, s) && OnceEach(hosts, s)
    ensures UnderWay(hosts, s, Pass(hosts, s, n, {}), n)
  {
    if n > 0 {
      PassKeeps(hosts, s, n - 1);
      PassKeepsNext(hosts, s, n - 1);
    }
  }

  lemma WaitKeepsSingleCored(hosts: seq<string>, s: Schedule, reap: Reap)
    requires Shaped(hosts, s) && SingleCored(hosts, s)
    ensures SingleCored(hosts, Wait(hosts, s, reap))
  {
    var t := Wait(hosts, s, reap);
    forall j | 0 <= j < |hosts| && hosts[j] in t.available
      ensures t.available[hosts[j]] >= 0 && Balance(hosts, t, hosts[j]) == 1
    {
      WaitKeepsCores(hosts, s, reap, hosts[j]);
    }
  }

  lemma WaitKeepsOnceEach(hosts: seq<string>, s: Schedule, reap: Reap)
    requires Shaped(hosts, s) && SingleCored(hosts, s) && OnceEach(hosts, s) && CalmReap(s, reap)
    ensures OnceEach(hosts, Wait(hosts, s, reap))
  {
    if Outstanding(s) {
      LiveTakesCore(hosts, s, reap.index);
    }
  }

  /** What is still to be transferred. */
  function Remaining(hosts: seq<string>, s: Schedule): set<nat>
    requires |s.transferred| == |hosts|
  {
    set i | 0 <= i < |hosts| && hosts[i] in s.available && !s.transferred[i]
  }

  /** After a pass, a calm wait transfers one more mapping, while there is one left. */
  lemma WaitTransfersOne(hosts: seq<string>, s: Schedule, reap: Reap)
    requires Shaped(hosts, s) && SingleCored(hosts, s) && OnceEach(hosts, s) && Attended(hosts, s, |hosts|)
             && CalmReap(s, reap)
    ensures var t := Wait(hosts, s, reap);
            && t.available.Keys == s.available.Keys
            && |Remaining(hosts, t)| == if Remaining(hosts, s) == {} then 0 else |Remaining(hosts, s)| - 1
  {
    var t := Wait(hosts, s, reap);
    if Outstanding(s) {
      assert reap.index in Remaining(hosts, s);
      assert Remaining(hosts, t) == Remaining(hosts, s) - {reap.index};
    } else {
      NothingRemains(hosts, s);
      assert Remaining(hosts, t) == Remaining(hosts, s);
    }
  }

  lemma NothingRemains(hosts: seq<string>, s: Schedule)
    requires Shaped(hosts, s) && SingleCored(hosts, s) && OnceEach(hosts, s) && Attended(hosts, s, |hosts|)
             && !Outstanding(s)
    ensures Remaining(hosts, s) == {}
  {
    forall i | 0 <= i < |hosts| && hosts[i] in s.available ensures s.transferred[i] {
      SumOnZeros(hosts, s.live, hosts[i], |hosts|);
      SumOnZeros(hosts, s.lost, hosts[i], |hosts|);
      assert Balance(hosts, s, hosts[i]) == 1;
    }
  }

  /** Every calm round transfers one more mapping, while there is one left. */
  lemma RoundTransfersOne(hosts: seq<string>, s: Schedule, round: Round)
    requires Shaped(hosts, s) && SingleCored(hosts, s) && OnceEach(hosts, s)
    requires round.failing == {} && CalmReap(Pass(hosts, s, |hosts|, {}), round.reap)
    ensures var t := AfterRound(hosts, s, round);
            && SingleCored(hosts, t) && OnceEach(hosts, t) && t.available.Keys == s.available.Keys
            && |Remaining(hosts, t)| == if Remaining(hosts, s) == {} then 0 else |Remaining(hosts, s)| - 1
  {
    var u := Pass(hosts, s, |hosts|, {});
    PassKeeps(hosts, s, |hosts|);
    WaitKeepsSingleCored(hosts, u, round.reap);
    WaitKeepsOnceEach(hosts, u, round.reap);
    assert Remaining(hosts, u) == Remaining(hosts, s);
    WaitTransfersOne(hosts, u, round.reap);
  }

  lemma {:induction false} RoundsTransferAll(hosts: seq<string>, s: Schedule, rounds: seq<Round>)
    requires Shaped(hosts, s) && SingleCored(hosts, s) && OnceEach(hosts, s) && Calm(hosts, s, rounds)
    requires |Remaining(hosts, s)| <= |rounds|
    ensures var t := AfterRounds(hosts, s, rounds);
            SingleCored(hosts, t) && OnceEach(hosts, t) && t.available.Keys == s.available.Keys && |Remaining(hosts, t)| == 0
    decreases |rounds|
  {
    if rounds != [] {
      RoundTransfersOne(hosts, s, rounds[0]);
      RoundsTransferAll(hosts, AfterRound(hosts, s, rounds[0]), rounds[1..]);
    }
  }

  lemma AllTransferredIsExactlyOnce(hosts: seq<string>, s: Schedule)
    requires Shaped(hosts, s) && OnceEach(hosts, s) && |Remaining(hosts, s)| == 0
    ensures ExactlyOnce(hosts, s)
  {
    forall i | 0 <= i < |hosts|
      ensures s.starts[i] == (if hosts[i] in s.available then 1 else 0) && s.live[i] == 0
    {
      assert i !in Remaining(hosts, s);
    }
  }

  function Fresh(hosts: seq<string>, cores: map<string, int>): (s: Schedule)
    ensures Shaped(hosts, s)
  {
    Before(seq(|hosts|, i => false), cores)
  }

  lemma FreshBalance(hosts: seq<string>, cores: map<string, int>, machine: string)
    ensures Balance(hosts, Fresh(hosts, cores), machine) == if machine in cores then cores[machine] else 0
  {
    SumOnZeros(hosts, Zeros(|hosts|), machine, |hosts|);
  }

  lemma FreshIsOnceEach(hosts: seq<string>, cores: map<string, int>)
    ensures OnceEach(hosts, Fresh(hosts, cores))
  {}

  /** With one core per machine, uninterrupted waits and nothing transferred yet, every mapping on a present machine
      is run exactly once, nothing is left outstanding and the status is the conjunction of the results. */
  lemma SingleCoresRunExactlyOnce(hosts: seq<string>, cores: map<string, int>, rounds: seq<Round>)
    requires forall i :: 0 <= i < |hosts| && hosts[i] in cores ==> cores[hosts[i]] == 1
    requires |rounds| == |hosts| && Calm(hosts, Fresh(hosts, cores), rounds)
    ensures ExactlyOnce(hosts, AfterRounds(hosts, Fresh(hosts, cores), rounds))
  {
    var s := Fresh(hosts, cores);
    FreshIsOnceEach(hosts, cores);
    forall i | 0 <= i < |hosts| && hosts[i] in cores ensures Balance(hosts, s, hosts[i]) == 1 {
      FreshBalance(hosts, cores, hosts[i]);
    }
    IndicesAreBounded(Remaining(hosts, s), |hosts|);
    RoundsTransferAll(hosts, s, rounds);
    AllTransferredIsExactlyOnce(hosts, AfterRounds(hosts, s, rounds));
  }

  lemma {:induction false} IndicesAreBounded(indices: set<nat>, n: nat)
    requires forall i :: i in indices ==> i < n
    ensures |indices| <= n
    decreases n
  {
    if n > 0 {
      IndicesAreBounded(indices - {n - 1}, n - 1);
    } else {
      assert indices == {};
    }
  }
}
