/** What the success of the snapshot scheduler means on sequential machines: nothing has gone wrong. */
module SnapshotSuccess {
  import opened InterDependencyMappings
  import opened Environments
  import opened SnapshotSchedules
  import opened SnapshotTheorems
  import opened SnapshotLimits
  import opened SnapshotVerdicts

  // ----- one core per machine -----

  /** So far every process could be created and no wait has been interrupted. */
  predicate Untroubled(s: Schedule) {
    forall act :: act in s.acts ==> !act.Missed? && act != Reaped(Interrupted)
  }

  /** The mappings that can still be served: not transferred, on a present machine that has not lost its core. */
  function Servable(hosts: seq<string>, s: Schedule): set<nat>
    requires Shaped(hosts, s)
  {
    set i | 0 <= i < |hosts| && hosts[i] in s.available && !s.transferred[i] && SumOn(hosts, s.lost, hosts[i], |hosts|) == 0
  }

  /** With single cores, the rounds that have to complete something, and one more if a creation has been refused. */
  function Needed(hosts: seq<string>, s: Schedule): nat
    requires Shaped(hosts, s)
  {
    |Servable(hosts, s)| + (if s.broken then 1 else 0)
  }

  /** Only mappings that have not been transferred are being run. */
  ghost predicate Paced(hosts: seq<string>, s: Schedule)
    requires Shaped(hosts, s)
  {
    SingleCored(hosts, s) && forall i :: 0 <= i < |hosts| && s.live[i] > 0 ==> !s.transferred[i]
  }

  lemma FailingTurnKeepsSingleCored(hosts: seq<string>, s: Schedule, i: nat, failing: set<int>)
    requires i < |hosts| && Shaped(hosts, s) && SingleCored(hosts, s)
    ensures SingleCored(hosts, Turn(hosts, s, i, failing))
  {
    var t := Turn(hosts, s, i, failing);
    forall j | 0 <= j < |hosts| && hosts[j] in t.available
      ensures t.available[hosts[j]] >= 0 && Balance(hosts, t, hosts[j]) == 1
    {
      TurnKeepsCores(hosts, s, i, failing, hosts[j]);
    }
  }

  /** A refused creation takes a servable mapping away. */
  lemma TurnKeepsNeeded(hosts: seq<string>, s: Schedule, i: nat, failing: set<int>)
    requires i < |hosts| && Shaped(hosts, s) && Paced(hosts, s)
    ensures Paced(hosts, Turn(hosts, s, i, failing)) && Needed(hosts, Turn(hosts, s, i, failing)) <= Needed(hosts, s)
  {
    var t := Turn(hosts, s, i, failing);
    FailingTurnKeepsSingleCored(hosts, s, i, failing);
    if CanStart(hosts, s, i) && i in failing {
      assert Balance(hosts, s, hosts[i]) == 1;
      SumOnUpdate(hosts, s.lost, hosts[i], |hosts|, i, s.lost[i] + 1);
      forall j | 0 <= j < |hosts| ensures SumOn(hosts, t.lost, hosts[j], |hosts|) >= SumOn(hosts, s.lost, hosts[j], |hosts|) {
        SumOnUpdate(hosts, s.lost, hosts[j], |hosts|, i, s.lost[i] + 1);
      }
      assert i in Servable(hosts, s) && i !in Servable(hosts, t) && Servable(hosts, t) <= Servable(hosts, s) - {i};
      SubsetIsSmaller(Servable(hosts, t), Servable(hosts, s) - {i});
    } else {
      assert Servable(hosts, t) == Servable(hosts, s);
    }
  }

  /** After `n` turns of a pass. */
  ghost predicate PassedBy(hosts: seq<string>, s: Schedule, t: Schedule, n: nat)
    requires n <= |hosts| && Shaped(hosts, s) && Shaped(hosts, t)
  {
    && Paced(hosts, t) && Needed(hosts, t) <= Needed(hosts, s) && Attended(hosts, t, n)
  }

  lemma TurnAttends(hosts: seq<string>, s: Schedule, i: nat, failing: set<int>)
    requires i < |hosts| && Shaped(hosts, s) && SingleCored(hosts, s) && Attended(hosts, s, i)
    ensures Attended(hosts, Turn(hosts, s, i, failing), i + 1)
  {
    FailingTurnKeepsSingleCored(hosts, s, i, failing);
    assert hosts[i] in s.available ==> Balance(hosts, s, hosts[i]) == 1 && s.available[hosts[i]] <= 1;
  }

  lemma PassKeepsNeededNext(hosts: seq<string>, s: Schedule, n: nat, failing: set<int>)
    requires n < |hosts| && Shaped(hosts, s) && PassedBy(hosts, s, Pass(hosts, s, n, failing), n)
    ensures PassedBy(hosts, s, Pass(hosts, s, n + 1, failing), n + 1)
  {
    TurnKeepsNeeded(hosts, Pass(hosts, s, n, failing), n, failing);
    TurnAttends(hosts, Pass(hosts, s, n, failing), n, failing);
  }

  lemma {:induction false} PassKeepsNeeded(hosts: seq<string>, s: Schedule, n: nat, failing: set<int>)
    requires n <= |hosts| && Shaped(hosts, s) && Paced(hosts, s)
    ensures PassedBy(hosts, s, Pass(hosts, s, n, failing), n)
  {
    if n > 0 {
      PassKeepsNeeded(hosts, s, n - 1, failing);
      PassKeepsNeededNext(hosts, s, n - 1, failing);
    }
  }

  /** A completed mapping was servable. */
  lemma CompleteLowersNeeded(hosts: seq<string>, s: Schedule, i: nat, result: bool)
    requires i < |hosts| && Shaped(hosts, s) && Paced(hosts, s) && s.live[i] > 0
    ensures Paced(hosts, Complete(hosts, s, i, result)) && Needed(hosts, Complete(hosts, s, i, result)) == Needed(hosts, s) - 1
  {
    var t := Complete(hosts, s, i, result);
    assert Outstanding(s) && Wait(hosts, s, Ended(i, result)) == t;
    WaitKeepsSingleCored(hosts, s, Ended(i, result));
    LiveTakesCore(hosts, s, i);
    SumOnHolds(hosts, s.live, hosts[i], |hosts|, i);
    assert Balance(hosts, s, hosts[i]) == 1;
    assert i in Servable(hosts, s);
    assert Servable(hosts, t) == Servable(hosts, s) - {i};
  }

  /** With nothing outstanding after a pass nothing is servable. */
  lemma NothingServable(hosts: seq<string>, s: Schedule)
    requires Shaped(hosts, s) && Paced(hosts, s) && Attended(hosts, s, |hosts|) && !Outstanding(s)
    ensures Servable(hosts, s) == {}
  {
    forall i | 0 <= i < |hosts| && hosts[i] in s.available && !s.transferred[i]
      ensures SumOn(hosts, s.lost, hosts[i], |hosts|) == 1
    {
      SumOnZeros(hosts, s.live, hosts[i], |hosts|);
      assert Balance(hosts, s, hosts[i]) == 1;
    }
  }

  /** A round that goes well serves one more mapping while one is needed. */
  lemma RoundLowersNeeded(hosts: seq<string>, s: Schedule, round: Round, n: nat)
    requires Shaped(hosts, s) && Paced(hosts, s) && Needed(hosts, s) <= n + 1 && AfterRound(hosts, s, round).ok
    requires PossibleReap(Pass(hosts, s, |hosts|, round.failing), round.reap)
    ensures Paced(hosts, AfterRound(hosts, s, round)) && Needed(hosts, AfterRound(hosts, s, round)) <= n
  {
    var t := Pass(hosts, s, |hosts|, round.failing);
    PassKeepsNeeded(hosts, s, |hosts|, round.failing);
    if Outstanding(t) {
      CompleteLowersNeeded(hosts, t, round.reap.index, round.reap.result);
    } else {
      NothingServable(hosts, t);
      WaitKeepsSingleCored(hosts, t, round.reap);
      assert Servable(hosts, AfterRound(hosts, s, round)) == Servable(hosts, t);
    }
  }

  lemma {:induction false} SingleCoresNeedAll(hosts: seq<string>, s: Schedule, rounds: seq<Round>)
    requires Shaped(hosts, s) && Paced(hosts, s) && Needed(hosts, s) <= |rounds| && Possible(hosts, s, rounds)
    requires AfterRounds(hosts, s, rounds).ok
    ensures !AfterRounds(hosts, s, rounds).broken
    decreases |rounds|
  {
    if rounds != [] {
      RoundsAreLater(hosts, AfterRound(hosts, s, rounds[0]), rounds[1..]);
      RoundLowersNeeded(hosts, s, rounds[0], |rounds| - 1);
      SingleCoresNeedAll(hosts, AfterRound(hosts, s, rounds[0]), rounds[1..]);
    }
  }

  lemma SingleCoresSucceedUnbroken(hosts: seq<string>, cores: map<string, int>, rounds: seq<Round>)
    requires forall i :: 0 <= i < |hosts| && hosts[i] in cores ==> cores[hosts[i]] == 1
    requires |rounds| == |hosts| && Possible(hosts, Fresh(hosts, cores), rounds)
    requires AfterRounds(hosts, Fresh(hosts, cores), rounds).ok
    ensures !AfterRounds(hosts, Fresh(hosts, cores), rounds).broken
  {
    FreshIsPaced(hosts, cores);
    SingleCoresNeedAll(hosts, Fresh(hosts, cores), rounds);
  }

  lemma FreshIsPaced(hosts: seq<string>, cores: map<string, int>)
    requires forall i :: 0 <= i < |hosts| && hosts[i] in cores ==> cores[hosts[i]] == 1
    ensures Paced(hosts, Fresh(hosts, cores)) && Needed(hosts, Fresh(hosts, cores)) <= |hosts|
  {
    var s := Fresh(hosts, cores);
    forall i | 0 <= i < |hosts| && hosts[i] in cores ensures Balance(hosts, s, hosts[i]) == 1 {
      FreshBalance(hosts, cores, hosts[i]);
    }
    IndicesAreBounded(Servable(hosts, s), |hosts|);
  }

  // ----- a single mapping to run -----

  lemma {:induction false} SoloFailingPass(hosts: seq<string>, s: Schedule, n: nat, i: nat, failing: set<int>)
    requires n <= |hosts| && Shaped(hosts, s) && OnlyHosted(hosts, s, i)
    ensures Pass(hosts, s, n, failing) == SoloPassed(hosts, s, n, i, failing)
  {
    if n > 0 {
      SoloFailingPass(hosts, s, n - 1, i, failing);
      if n - 1 != i {
        AbsentTurn(hosts, SoloPassed(hosts, s, n - 1, i, failing), n - 1, failing);
      }
    }
  }

  /** Only the turn of the mapping to run does anything. */
  function SoloPassed(hosts: seq<string>, s: Schedule, n: nat, i: nat, failing: set<int>): (t: Schedule)
    requires i < |hosts| && Shaped(hosts, s)
    ensures Shaped(hosts, t) && t.available.Keys == s.available.Keys
  {
    if n > i then Turn(hosts, s, i, failing) else s
  }

  lemma AbsentTurn(hosts: seq<string>, s: Schedule, i: nat, failing: set<int>)
    requires i < |hosts| && Shaped(hosts, s) && hosts[i] !in s.available
    ensures Turn(hosts, s, i, failing) == s
  {}

  /** The only mapping to run is not running, and no creation has been refused. */
  ghost predicate SoloIdle(hosts: seq<string>, s: Schedule, i: nat) {
    Shaped(hosts, s) && OnlyHosted(hosts, s, i) && !Outstanding(s) && !s.broken
  }

  lemma SoloRoundSucceeds(hosts: seq<string>, s: Schedule, round: Round, i: nat)
    requires SoloIdle(hosts, s, i) && AfterRound(hosts, s, round).ok
    requires PossibleReap(Pass(hosts, s, |hosts|, round.failing), round.reap)
    ensures SoloIdle(hosts, AfterRound(hosts, s, round), i)
  {
    var t := Turn(hosts, s, i, round.failing);
    SoloFailingPass(hosts, s, |hosts|, i, round.failing);
    if CanStart(hosts, s, i) && i !in round.failing {
      assert t.live[i] == 1 && forall j :: 0 <= j < |hosts| && j != i ==> t.live[j] == 0;
    }
  }

  lemma {:induction false} SoloSucceedsUnbroken(hosts: seq<string>, s: Schedule, rounds: seq<Round>, i: nat)
    requires SoloIdle(hosts, s, i) && Possible(hosts, s, rounds) && AfterRounds(hosts, s, rounds).ok
    ensures !AfterRounds(hosts, s, rounds).broken
    decreases |rounds|
  {
    if rounds != [] {
      RoundsAreLater(hosts, AfterRound(hosts, s, rounds[0]), rounds[1..]);
      SoloRoundSucceeds(hosts, s, rounds[0], i);
      SoloSucceedsUnbroken(hosts, AfterRound(hosts, s, rounds[0]), rounds[1..], i);
    }
  }

  /** On sequential machines the scheduler only succeeds when no creation has been refused. */
  lemma SuccessIsUnbroken(hosts: seq<string>, cores: map<string, int>, rounds: seq<Round>)
    requires Sequential(hosts, cores) && |rounds| == |hosts| && Possible(hosts, Fresh(hosts, cores), rounds)
    requires AfterRounds(hosts, Fresh(hosts, cores), rounds).ok
    ensures !AfterRounds(hosts, Fresh(hosts, cores), rounds).broken
  {
    if i :| 0 <= i < |hosts| && hosts[i] in cores && cores[hosts[i]] != 1 {
      SoloSucceedsUnbroken(hosts, Fresh(hosts, cores), rounds, i);
    } else {
      SingleCoresSucceedUnbroken(hosts, cores, rounds);
    }
  }

  // ----- the verdict -----

  /** No creation was refused, no wait interrupted, and every process reported success. */
  predicate Faultless(asked: seq<Action>) {
    forall a :: a in asked ==> !a.Refused? && !a.Signalled? && (a.Completed? ==> a.ok)
  }

  /** For any cores, an environment without faults leads to success. */
  lemma FaultlessWaits(asked: seq<Action>, waits: seq<nat>)
    requires WaitsAt(asked, waits) && Faultless(asked)
    ensures AllWaitedWell(asked, waits)
  {
    forall k | 0 <= k < |waits| ensures WaitedWell(asked, waits[k]) {
      assert WaitAt(asked, waits[k]);
      if Running(asked[..waits[k]]) > 0 {
        assert asked[waits[k]] in asked;
      }
    }
  }

  /** When all waits have gone well, only refused creations can have been faults. */
  lemma WellWaited(asked: seq<Action>, waits: seq<nat>)
    requires WaitsAt(asked, waits) && AllWaitedWell(asked, waits) && !Refusal(asked)
    ensures Faultless(asked)
  {
    forall a | a in asked ensures !a.Refused? && !a.Signalled? && (a.Completed? ==> a.ok) {
      if a.Completed? || a.Signalled? {
        var j :| 0 <= j < |asked| && asked[j] == a;
        var k :| 0 <= k < |waits| && waits[k] == j;
        assert WaitedWell(asked, waits[k]);
      }
    }
  }

  lemma FaultlessIsUntroubled(keys: seq<MappingKey>, s: Schedule)
    requires Faultless(ActionsOf(keys, s.acts))
    ensures Untroubled(s)
  {
    ActionsOfLength(keys, s.acts);
    forall act | act in s.acts ensures !act.Missed? && act != Reaped(Interrupted) {
      var j :| 0 <= j < |s.acts| && s.acts[j] == act;
      ActionAt(keys, s.acts, j);
      assert ActionOf(keys, act) in ActionsOf(keys, s.acts);
    }
  }

  /** On sequential machines the scheduler succeeds exactly when nothing went wrong, whatever the environment does. */
  lemma SuccessExactlyWhenFaultless(keys: seq<MappingKey>, hosts: seq<string>, cores: map<string, int>, rounds: seq<Round>)
    requires Sequential(hosts, cores) && |rounds| == |hosts| && Possible(hosts, Fresh(hosts, cores), rounds)
    ensures var end := AfterRounds(hosts, Fresh(hosts, cores), rounds);
            && (end.ok <==> Faultless(ActionsOf(keys, end.acts)))
            && (end.ok ==> Untroubled(end))
  {
    var s := Fresh(hosts, cores);
    var end := AfterRounds(hosts, s, rounds);
    var asked, waits := ActionsOf(keys, end.acts), WaitPoints(hosts, s, rounds);
    StatusIsWhatWaitsFind(keys, hosts, s, rounds);
    if end.ok {
      SuccessIsUnbroken(hosts, cores, rounds);
      RoundsKeepTracked(keys, hosts, s, rounds);
      WellWaited(asked, waits);
      FaultlessIsUntroubled(keys, end);
    } else if Faultless(asked) {
      FaultlessWaits(asked, waits);
    }
  }

  lemma {:induction false} RoundsKeepTracked(keys: seq<MappingKey>, hosts: seq<string>, s: Schedule, rounds: seq<Round>)
    requires Shaped(hosts, s) && (Tracked(keys, s) || s == Before(s.transferred, s.available))
    ensures Tracked(keys, AfterRounds(hosts, s, rounds))
    decreases |rounds|
  {
    TotalIsPositive(s.live);
    if rounds != [] {
      PassKeepsTracked(keys, hosts, s, |hosts|, rounds[0].failing);
      WaitKeepsTracked(keys, hosts, Pass(hosts, s, |hosts|, rounds[0].failing), rounds[0].reap);
      RoundsKeepTracked(keys, hosts, AfterRound(hosts, s, rounds[0]), rounds[1..]);
    }
  }
}
