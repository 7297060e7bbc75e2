/** When the snapshot scheduler reports success, in terms of what the operating system has been asked for: for any cores
    and any environment. */
module SnapshotVerdicts {
  import opened InterDependencyMappings
  import opened Environments
  import opened SnapshotSchedules

  // ----- the actions behind a schedule -----

  const NO_KEY := MappingKey("", "", "")

  function KeyAt(keys: seq<MappingKey>, i: nat): MappingKey {
    if i < |keys| then keys[i] else NO_KEY
  }

  function ActionOf(keys: seq<MappingKey>, act: Act): Action {
    match act
    case Began(i) => Created(KeyAt(keys, i), Snapshotting)
    case Missed(i) => Refused(KeyAt(keys, i), Snapshotting)
    case Reaped(Ended(i, result)) => Completed(KeyAt(keys, i), result)
    case Reaped(Interrupted) => Signalled
  }

  function ActionsOf(keys: seq<MappingKey>, acts: seq<Act>): seq<Action> {
    if acts == [] then [] else ActionsOf(keys, acts[..|acts| - 1]) + [ActionOf(keys, acts[|acts| - 1])]
  }

  lemma OneMoreAction(keys: seq<MappingKey>, past: seq<Action>, acts: seq<Act>, act: Act)
    ensures past + ActionsOf(keys, acts + [act]) == (past + ActionsOf(keys, acts)) + [ActionOf(keys, act)]
  {
    assert (acts + [act])[..|acts + [act]| - 1] == acts;
  }

  lemma {:induction false} ActionAt(keys: seq<MappingKey>, acts: seq<Act>, j: nat)
    requires j < |acts|
    ensures |ActionsOf(keys, acts)| == |acts| && ActionsOf(keys, acts)[j] == ActionOf(keys, acts[j])
    ensures ActionsOf(keys, acts)[..j] == ActionsOf(keys, acts[..j])
    decreases |acts|
  {
    var rest := acts[..|acts| - 1];
    ActionsOfLength(keys, rest);
    if j < |rest| {
      ActionAt(keys, rest, j);
      assert ActionsOf(keys, acts)[..j] == ActionsOf(keys, rest)[..j] && rest[..j] == acts[..j];
    }
  }

  lemma {:induction false} ActionsOfLength(keys: seq<MappingKey>, acts: seq<Act>)
    ensures |ActionsOf(keys, acts)| == |acts|
  {
    if acts != [] {
      ActionsOfLength(keys, acts[..|acts| - 1]);
    }
  }

  // ----- what a wait finds -----

  /** The processes that have been created and not completed. */
  function Running(asked: seq<Action>): int {
    if asked == [] then 0 else
    var last := asked[|asked| - 1];
    Running(asked[..|asked| - 1]) + (if last.Created? then 1 else if last.Completed? then -1 else 0)
  }

  predicate Refusal(asked: seq<Action>) {
    exists a :: a in asked && a.Refused?
  }

  /** A wait after the first `at` actions: with processes running it has to reap one that reports success; without any, no
      creation may have been refused before. */
  predicate WaitedWell(asked: seq<Action>, at: nat) {
    && at <= |asked|
    && (if Running(asked[..at]) > 0 then at < |asked| && asked[at].Completed? && asked[at].ok else !Refusal(asked[..at]))
  }

  /** What has been asked for before each of the waits: while processes run, a wait reaps one or is interrupted, and only
      waits do so. */
  ghost predicate WaitsAt(asked: seq<Action>, waits: seq<nat>) {
    && (forall k :: 0 <= k < |waits| ==> WaitAt(asked, waits[k]))
    && (forall j :: 0 <= j < |asked| && (asked[j].Completed? || asked[j].Signalled?) ==> j in waits && Running(asked[..j]) > 0)
  }

  /** All waits have gone well. */
  ghost predicate AllWaitedWell(asked: seq<Action>, waits: seq<nat>) {
    forall k :: 0 <= k < |waits| ==> WaitedWell(asked, waits[k])
  }

  // ----- counting what is running -----

  function Total(counts: seq<nat>): nat {
    if counts == [] then 0 else Total(counts[..|counts| - 1]) + counts[|counts| - 1]
  }

  lemma {:induction false} TotalUpdate(counts: seq<nat>, i: nat, value: nat)
    requires i < |counts|
    ensures Total(counts[i := value]) == Total(counts) + value - counts[i]
  {
    var rest, last := counts[..|counts| - 1], |counts| - 1;
    if i < last {
      TotalUpdate(rest, i, value);
      assert counts[i := value][..last] == rest[i := value];
    } else {
      assert counts[i := value][..last] == rest;
    }
  }

  lemma {:induction false} TotalIsPositive(counts: seq<nat>)
    ensures Total(counts) > 0 <==> exists i :: 0 <= i < |counts| && counts[i] > 0
  {
    if counts != [] {
      var rest := counts[..|counts| - 1];
      TotalIsPositive(rest);
      assert forall i :: 0 <= i < |rest| ==> rest[i] == counts[i];
    }
  }

  /** The actions agree with what the schedule records: the processes outstanding and whether one was refused. */
  ghost predicate Tracked(keys: seq<MappingKey>, s: Schedule) {
    && Running(ActionsOf(keys, s.acts)) == Total(s.live)
    && (s.broken <==> Refusal(ActionsOf(keys, s.acts)))
  }

  lemma TrackedAction(asked: seq<Action>, a: Action)
    ensures Running(asked + [a]) == Running(asked) + (if a.Created? then 1 else if a.Completed? then -1 else 0)
    ensures Refusal(asked + [a]) <==> Refusal(asked) || a.Refused?
  {
    assert (asked + [a])[..|asked + [a]| - 1] == asked;
    if Refusal(asked) {
      var b :| b in asked && b.Refused?;
      assert b in asked + [a];
    }
    assert a in asked + [a];
  }

  lemma ActedOn(keys: seq<MappingKey>, acts: seq<Act>, act: Act)
    ensures ActionsOf(keys, acts + [act]) == ActionsOf(keys, acts) + [ActionOf(keys, act)]
  {
    assert (acts + [act])[..|acts + [act]| - 1] == acts;
  }

  lemma TurnKeepsTracked(keys: seq<MappingKey>, hosts: seq<string>, s: Schedule, i: nat, failing: set<int>)
    requires i < |hosts| && Shaped(hosts, s) && Tracked(keys, s)
    ensures Tracked(keys, Turn(hosts, s, i, failing))
  {
    if CanStart(hosts, s, i) {
      var act := if i in failing then Missed(i) else Began(i);
      ActedOn(keys, s.acts, act);
      TrackedAction(ActionsOf(keys, s.acts), ActionOf(keys, act));
      TotalUpdate(s.live, i, s.live[i] + 1);
    }
  }

  lemma {:induction false} PassKeepsTracked(keys: seq<MappingKey>, hosts: seq<string>, s: Schedule, n: nat, failing: set<int>)
    requires n <= |hosts| && Shaped(hosts, s) && Tracked(keys, s)
    ensures Tracked(keys, Pass(hosts, s, n, failing))
  {
    if n > 0 {
      PassKeepsTracked(keys, hosts, s, n - 1, failing);
      PassKeepsTrackedNext(keys, hosts, s, n - 1, failing);
    }
  }

  lemma PassKeepsTrackedNext(keys: seq<MappingKey>, hosts: seq<string>, s: Schedule, n: nat, failing: set<int>)
    requires n < |hosts| && Shaped(hosts, s) && Tracked(keys, Pass(hosts, s, n, failing))
    ensures Tracked(keys, Pass(hosts, s, n + 1, failing))
  {
    var t := Pass(hosts, s, n, failing);
    TurnKeepsTracked(keys, hosts, t, n, failing);
    assert Pass(hosts, s, n + 1, failing) == Turn(hosts, t, n, failing);
  }

  lemma TrackedComplete(keys: seq<MappingKey>, hosts: seq<string>, s: Schedule, i: nat, result: bool)
    requires i < |hosts| && Shaped(hosts, s) && s.live[i] > 0 && Tracked(keys, s)
    ensures Tracked(keys, Complete(hosts, s, i, result))
  {
    var act := Reaped(Ended(i, result));
    ActedOn(keys, s.acts, act);
    TrackedAction(ActionsOf(keys, s.acts), ActionOf(keys, act));
    TotalUpdate(s.live, i, s.live[i] - 1);
  }

  lemma TrackedInterrupt(keys: seq<MappingKey>, s: Schedule)
    requires Tracked(keys, s)
    ensures Tracked(keys, s.(ok := false, acts := s.acts + [Reaped(Interrupted)]))
  {
    ActedOn(keys, s.acts, Reaped(Interrupted));
    TrackedAction(ActionsOf(keys, s.acts), ActionOf(keys, Reaped(Interrupted)));
  }

  lemma WaitKeepsTracked(keys: seq<MappingKey>, hosts: seq<string>, s: Schedule, reap: Reap)
    requires Shaped(hosts, s) && Tracked(keys, s)
    ensures Tracked(keys, Wait(hosts, s, reap))
  {
    if Outstanding(s) {
      if reap.Interrupted? {
        TrackedInterrupt(keys, s);
      } else if reap.index < |hosts| && s.live[reap.index] > 0 {
        TrackedComplete(keys, hosts, s, reap.index, reap.result);
      }
    }
  }

  // ----- the status, for any cores and any environment -----

  /** The numbers of actions before each wait. */
  function WaitPoints(hosts: seq<string>, s: Schedule, rounds: seq<Round>): (r: seq<nat>)
    requires Shaped(hosts, s)
    ensures |r| == |rounds|
    decreases |rounds|
  {
    if rounds == [] then [] else
    [|Pass(hosts, s, |hosts|, rounds[0].failing).acts|] + WaitPoints(hosts, AfterRound(hosts, s, rounds[0]), rounds[1..])
  }

  lemma {:induction false} PassExtendsActs(hosts: seq<string>, s: Schedule, n: nat, failing: set<int>)
    requires n <= |hosts| && Shaped(hosts, s)
    ensures s.acts <= Pass(hosts, s, n, failing).acts && Pass(hosts, s, n, failing).ok == s.ok
    ensures forall j :: |s.acts| <= j < |Pass(hosts, s, n, failing).acts| ==> !Pass(hosts, s, n, failing).acts[j].Reaped?
  {
    if n > 0 {
      PassExtendsActs(hosts, s, n - 1, failing);
    }
  }

  /** Actions are only added, and what has gone wrong stays so. */
  predicate Later(s: Schedule, t: Schedule) {
    s.acts <= t.acts && (t.ok ==> s.ok)
  }

  lemma LaterStill(s: Schedule, t: Schedule, u: Schedule)
    requires Later(s, t) && Later(t, u)
    ensures Later(s, u)
  {}

  lemma WaitIsLater(hosts: seq<string>, s: Schedule, reap: Reap)
    requires Shaped(hosts, s)
    ensures Later(s, Wait(hosts, s, reap)) && |Wait(hosts, s, reap).acts| <= |s.acts| + 1
  {}

  lemma {:induction false} RoundsAreLater(hosts: seq<string>, s: Schedule, rounds: seq<Round>)
    requires Shaped(hosts, s)
    ensures Later(s, AfterRounds(hosts, s, rounds))
    decreases |rounds|
  {
    if rounds != [] {
      var t, u := Pass(hosts, s, |hosts|, rounds[0].failing), AfterRound(hosts, s, rounds[0]);
      PassExtendsActs(hosts, s, |hosts|, rounds[0].failing);
      WaitIsLater(hosts, t, rounds[0].reap);
      LaterStill(s, t, u);
      RoundsAreLater(hosts, u, rounds[1..]);
      LaterStill(s, u, AfterRounds(hosts, s, rounds));
    }
  }

  /** What one wait does to the status and to the actions. */
  lemma WaitIsJudged(keys: seq<MappingKey>, hosts: seq<string>, s: Schedule, reap: Reap, asked: seq<Action>)
    requires Shaped(hosts, s) && Tracked(keys, s) && PossibleReap(s, reap)
    requires ActionsOf(keys, Wait(hosts, s, reap).acts) <= asked
    ensures Wait(hosts, s, reap).ok <==> s.ok && WaitedWell(asked, |s.acts|)
    ensures |s.acts| <= |asked| && asked[..|s.acts|] == ActionsOf(keys, s.acts)
    ensures Running(asked[..|s.acts|]) > 0 ==>
              |s.acts| < |asked| && (asked[|s.acts|].Completed? || asked[|s.acts|].Signalled?)
  {
    ActionsOfLength(keys, s.acts);
    TotalIsPositive(s.live);
    if Outstanding(s) {
      ActedOn(keys, s.acts, Reaped(reap));
    }
    assert asked[..|s.acts|] == ActionsOf(keys, s.acts);
  }

  lemma ActionsPrefix(keys: seq<MappingKey>, acts: seq<Act>, more: seq<Act>)
    requires acts <= more
    ensures ActionsOf(keys, acts) <= ActionsOf(keys, more)
  {
    ActionsOfLength(keys, acts);
    ActionsOfLength(keys, more);
    if |acts| < |more| {
      ActionAt(keys, more, |acts|);
      assert more[..|acts|] == acts;
    } else {
      assert acts == more;
    }
  }

  /** The status is the conjunction over all waits: each has reaped a process that reports success, or has found none and
      no creation refused before. */
  lemma {:induction false} StatusExactly(keys: seq<MappingKey>, hosts: seq<string>, s: Schedule, rounds: seq<Round>)
    requires Shaped(hosts, s) && Tracked(keys, s) && Possible(hosts, s, rounds)
    ensures var end, waits := AfterRounds(hosts, s, rounds), WaitPoints(hosts, s, rounds);
            end.ok <==> s.ok && AllWaitedWell(ActionsOf(keys, end.acts), waits)
    decreases |rounds|
  {
    if rounds != [] {
      var t, u := Pass(hosts, s, |hosts|, rounds[0].failing), AfterRound(hosts, s, rounds[0]);
      var end, waits := AfterRounds(hosts, s, rounds), WaitPoints(hosts, s, rounds);
      PassKeepsTracked(keys, hosts, s, |hosts|, rounds[0].failing);
      PassExtendsActs(hosts, s, |hosts|, rounds[0].failing);
      WaitKeepsTracked(keys, hosts, t, rounds[0].reap);
      RoundsAreLater(hosts, u, rounds[1..]);
      ActionsPrefix(keys, u.acts, end.acts);
      WaitIsJudged(keys, hosts, t, rounds[0].reap, ActionsOf(keys, end.acts));
      StatusExactly(keys, hosts, u, rounds[1..]);
      AllButFirst(ActionsOf(keys, end.acts), waits);
    }
  }

  lemma AllButFirst(asked: seq<Action>, waits: seq<nat>)
    requires waits != []
    ensures AllWaitedWell(asked, waits) <==> WaitedWell(asked, waits[0]) && AllWaitedWell(asked, waits[1..])
  {
    if WaitedWell(asked, waits[0]) && AllWaitedWell(asked, waits[1..]) {
      forall k | 0 <= k < |waits| ensures WaitedWell(asked, waits[k]) {
        if k > 0 {
          assert waits[k] == waits[1..][k - 1];
        }
      }
    }
    if AllWaitedWell(asked, waits) {
      forall k | 0 <= k < |waits[1..]| ensures WaitedWell(asked, waits[1..][k]) {
        assert waits[1..][k] == waits[k + 1];
      }
    }
  }

  /** Every process is reaped, and every signal arrives, at a wait that finds a process running. */
  lemma {:induction false} ReapedAtWaits(keys: seq<MappingKey>, hosts: seq<string>, s: Schedule, rounds: seq<Round>, j: nat)
    requires Shaped(hosts, s) && Tracked(keys, s)
    requires |s.acts| <= j < |AfterRounds(hosts, s, rounds).acts| && AfterRounds(hosts, s, rounds).acts[j].Reaped?
    ensures j in WaitPoints(hosts, s, rounds) && Running(ActionsOf(keys, AfterRounds(hosts, s, rounds).acts[..j])) > 0
    decreases |rounds|
  {
    if rounds != [] {
      var t, u := Pass(hosts, s, |hosts|, rounds[0].failing), AfterRound(hosts, s, rounds[0]);
      PassKeepsTracked(keys, hosts, s, |hosts|, rounds[0].failing);
      if j >= |u.acts| {
        WaitKeepsTracked(keys, hosts, t, rounds[0].reap);
        ReapedAtWaits(keys, hosts, u, rounds[1..], j);
      } else {
        RoundsAreLater(hosts, u, rounds[1..]);
        ReapedAtFirstWait(hosts, s, rounds[0], j);
        TotalIsPositive(t.live);
        assert AfterRounds(hosts, s, rounds).acts[..j] == t.acts;
      }
    }
  }

  lemma ReapedAtFirstWait(hosts: seq<string>, s: Schedule, round: Round, j: nat)
    requires Shaped(hosts, s)
    requires |s.acts| <= j < |AfterRound(hosts, s, round).acts| && AfterRound(hosts, s, round).acts[j].Reaped?
    ensures var t := Pass(hosts, s, |hosts|, round.failing);
            j == |t.acts| && Outstanding(t) && t.acts <= AfterRound(hosts, s, round).acts
  {
    PassExtendsActs(hosts, s, |hosts|, round.failing);
    WaitIsLater(hosts, Pass(hosts, s, |hosts|, round.failing), round.reap);
  }

  /** A wait after the given number of actions, with processes running, reaps one or is interrupted. */
  predicate WaitAt(asked: seq<Action>, at: nat) {
    at <= |asked| && (Running(asked[..at]) > 0 ==> at < |asked| && (asked[at].Completed? || asked[at].Signalled?))
  }

  lemma FirstWaitIsPlaced(keys: seq<MappingKey>, hosts: seq<string>, s: Schedule, round: Round, more: seq<Round>)
    requires Shaped(hosts, s) && Tracked(keys, s)
    requires PossibleReap(Pass(hosts, s, |hosts|, round.failing), round.reap)
    ensures var end := AfterRounds(hosts, AfterRound(hosts, s, round), more);
            WaitAt(ActionsOf(keys, end.acts), |Pass(hosts, s, |hosts|, round.failing).acts|)
  {
    var t, u := Pass(hosts, s, |hosts|, round.failing), AfterRound(hosts, s, round);
    var end := AfterRounds(hosts, u, more);
    PassKeepsTracked(keys, hosts, s, |hosts|, round.failing);
    RoundsAreLater(hosts, u, more);
    ActionsPrefix(keys, u.acts, end.acts);
    WaitIsJudged(keys, hosts, t, round.reap, ActionsOf(keys, end.acts));
  }

  /** Where the waits are. */
  lemma {:induction false} WaitsArePlaced(keys: seq<MappingKey>, hosts: seq<string>, s: Schedule, rounds: seq<Round>, k: nat)
    requires Shaped(hosts, s) && Tracked(keys, s) && Possible(hosts, s, rounds) && k < |rounds|
    ensures WaitAt(ActionsOf(keys, AfterRounds(hosts, s, rounds).acts), WaitPoints(hosts, s, rounds)[k])
    decreases |rounds|
  {
    if k > 0 {
      var t := Pass(hosts, s, |hosts|, rounds[0].failing);
      PassKeepsTracked(keys, hosts, s, |hosts|, rounds[0].failing);
      WaitKeepsTracked(keys, hosts, t, rounds[0].reap);
      WaitsArePlaced(keys, hosts, AfterRound(hosts, s, rounds[0]), rounds[1..], k - 1);
    } else {
      FirstWaitIsPlaced(keys, hosts, s, rounds[0], rounds[1..]);
    }
  }

  /** The waits of a schedule, and what they say about its status. */
  lemma StatusIsWhatWaitsFind(keys: seq<MappingKey>, hosts: seq<string>, s: Schedule, rounds: seq<Round>)
    requires Shaped(hosts, s) && s == Before(s.transferred, s.available) && Possible(hosts, s, rounds)
    ensures var end := AfterRounds(hosts, s, rounds);
            var asked, waits := ActionsOf(keys, end.acts), WaitPoints(hosts, s, rounds);
            WaitsAt(asked, waits) && (end.ok <==> AllWaitedWell(asked, waits)) && OnlySnapshots(asked)
  {
    var end := AfterRounds(hosts, s, rounds);
    var asked, waits := ActionsOf(keys, end.acts), WaitPoints(hosts, s, rounds);
    TotalIsPositive(s.live);
    StatusExactly(keys, hosts, s, rounds);
    forall k | 0 <= k < |waits| ensures WaitAt(asked, waits[k]) {
      WaitsArePlaced(keys, hosts, s, rounds, k);
    }
    ActionsOfLength(keys, end.acts);
    forall j | 0 <= j < |asked| && (asked[j].Completed? || asked[j].Signalled?)
      ensures j in waits && Running(asked[..j]) > 0
    {
      ActionAt(keys, end.acts, j);
      ReapedAtWaits(keys, hosts, s, rounds, j);
    }
    ScheduleOnlySnapshots(keys, end.acts);
  }

  /** Processes are created for snapshots and for nothing else. */
  predicate OnlySnapshots(asked: seq<Action>) {
    forall a :: a in asked && (a.Created? || a.Refused?) ==> a.activity == Snapshotting
  }

  lemma {:induction false} ScheduleOnlySnapshots(keys: seq<MappingKey>, acts: seq<Act>)
    ensures OnlySnapshots(ActionsOf(keys, acts))
  {
    if acts != [] {
      ScheduleOnlySnapshots(keys, acts[..|acts| - 1]);
    }
  }
}
