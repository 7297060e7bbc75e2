/** Manifests, and the plan that a previous and a new manifest make together. */
module Manifests {
  import opened InterDependencyMappings
  import opened Protocol
  import opened ServiceMappings
  import opened ServicesTables
  import opened Targets
  import opened Environments
  import opened Blocking
  import opened Safety
  import opened Cores
  import opened Configurations

  datatype Manifest = Manifest(
    mappings: seq<ServiceMapping>,
    services: map<string, ManifestService>,
    targets: map<string, Target>
  )

  /** The mappings are sorted, their services are known and so are, in sorted order, all their inter-dependencies. */
  ghost predicate Complete(m: Manifest) {
    && Sorted(Keys(m.mappings))
    && (forall key :: key in Keys(m.mappings) ==> key.service in m.services && Sorted(m.services[key.service].dependsOn))
    && (forall key, x :: key in Keys(m.mappings) && x in Dependencies(m.services, key) ==> x in Keys(m.mappings))
  }

  ghost predicate RankedBy(m: Manifest, rank: map<MappingKey, nat>, height: nat) {
    forall key :: key in Keys(m.mappings) ==>
      && key in rank && rank[key] <= height
      && forall x :: x in Dependencies(m.services, key) ==> x in rank && rank[x] < rank[key]
  }

  /** Inter-dependencies have no cycles. */
  ghost predicate Acyclic(m: Manifest) {
    exists rank: map<MappingKey, nat>, height: nat :: RankedBy(m, rank, height)
  }

  /** What the transition demands of a manifest. */
  ghost predicate Sound(m: Manifest) {
    Complete(m) && Acyclic(m)
  }

  const NOTHING := Manifest([], map[], map[])

  /** Both manifests are sound, share no objects and agree on the services they share. */
  ghost predicate Compatible(manifest: Manifest, previous: Manifest) {
    && Sound(manifest) && Sound(previous)
    && Agree(manifest.services, previous.services)
    && (forall m :: m in previous.mappings ==> m !in manifest.mappings)
  }

  /** No process is outstanding at the start, and machines share no cores. */
  ghost predicate Provisioned(targets: map<string, Target>, env: Environment)
    reads env`children, env`interrupted, env`history
  {
    && env.Valid() && env.children == map[]
    && (forall a, b :: a in targets && b in targets && targets[a] == targets[b] ==> a == b)
  }

  function KeysOf(previous: Manifest): set<MappingKey> {
    KeySet(Keys(previous.mappings))
  }

  /** Dependencies of one manifest are the same in the union of both services tables. */
  lemma UnionServesBoth(manifest: Manifest, previous: Manifest, key: MappingKey)
    requires Compatible(manifest, previous)
    ensures key in KeysOf(manifest) ==> Dependencies(previous.services + manifest.services, key) == Dependencies(manifest.services, key)
    ensures key in KeysOf(previous) ==> Dependencies(previous.services + manifest.services, key) == Dependencies(previous.services, key)
  {}

  /** A rank for the union: mappings of the new manifest below those that only the previous one has. */
  function JointRank(keys: seq<MappingKey>, want: set<MappingKey>, rank: map<MappingKey, nat>, height: nat,
                     oldRank: map<MappingKey, nat>): map<MappingKey, nat>
    requires forall key :: key in keys ==> key in (if key in want then rank else oldRank)
  {
    map key | key in keys :: if key in want then rank[key] else height + 1 + oldRank[key]
  }

  /** The plan of two compatible manifests: both acyclic, their union is acyclic too. */
  lemma PlanOfBoth(manifest: Manifest, previous: Manifest, keys: seq<MappingKey>, cores: map<string, int>)
    returns (plan: Plan)
    requires Compatible(manifest, previous)
    requires Sorted(keys) && forall key :: key in keys <==> key in KeysOf(previous) || key in KeysOf(manifest)
    ensures plan.keys == keys && plan.services == previous.services + manifest.services && plan.cores == cores
    ensures WellFormed(plan) && Between(plan, KeysOf(previous), KeysOf(manifest))
  {
    var rank: map<MappingKey, nat>, height: nat :| RankedBy(manifest, rank, height);
    var oldRank: map<MappingKey, nat>, oldHeight: nat :| RankedBy(previous, oldRank, oldHeight);
    var joint := JointRank(keys, KeysOf(manifest), rank, height, oldRank);
    plan := Plan(keys, previous.services + manifest.services, cores, joint, height + 1 + oldHeight);
    forall key, x | key in keys && x in Dependencies(plan.services, key)
      ensures x in keys && joint[x] < joint[key]
      ensures key in KeysOf(manifest) ==> x in KeysOf(manifest)
      ensures key in KeysOf(previous) ==> x in KeysOf(previous)
    {
      JointRankDescends(manifest, previous, keys, rank, height, oldRank, oldHeight, key, x);
    }
    forall key | key in keys
      ensures key.service in plan.services && Sorted(plan.services[key.service].dependsOn)
    {
      UnionServesBoth(manifest, previous, key);
    }
  }

  lemma JointRankDescends(manifest: Manifest, previous: Manifest, keys: seq<MappingKey>, rank: map<MappingKey, nat>,
                          height: nat,
                          oldRank: map<MappingKey, nat>, oldHeight: nat, key: MappingKey, x: MappingKey)
    requires Compatible(manifest, previous)
    requires RankedBy(manifest, rank, height) && RankedBy(previous, oldRank, oldHeight)
    requires forall k :: k in keys <==> k in KeysOf(previous) || k in KeysOf(manifest)
    requires key in keys && x in Dependencies(previous.services + manifest.services, key)
    ensures x in keys
    ensures key in KeysOf(manifest) ==> x in KeysOf(manifest)
    ensures key in KeysOf(previous) ==> x in KeysOf(previous)
    ensures var joint := JointRank(keys, KeysOf(manifest), rank, height, oldRank); joint[x] < joint[key]
  {
    UnionServesBoth(manifest, previous, key);
    if key in KeysOf(manifest) {
      assert x in Dependencies(manifest.services, key);
    } else {
      assert x in Dependencies(previous.services, key);
    }
  }

  // ----- the start of a transition -----

  /** The state in which exactly the previous configuration is activated. */
  function Initial(keys: seq<MappingKey>, had: set<MappingKey>, past: seq<Action>): State {
    State(map key | key in keys :: if key in had then Activated else Deactivated, map[], map[], past)
  }

  lemma InitialIsReady(plan: Plan, had: set<MappingKey>, past: seq<Action>)
    requires Ranked(plan) && Closed(plan, Activation, had)
    ensures var s := Initial(plan.keys, had, past);
            Covers(plan, s) && Deployed(plan, s, had) && Safe(plan, s) && s.Quiet() && Counted(plan, s) && WithinCores(plan, s)
  {
    var s := Initial(plan.keys, had, past);
    DeployedIsSafe(plan, s, had);
    QuietIsIdle(plan, s);
  }

  lemma QuietIsIdle(plan: Plan, s: State)
    requires s.Quiet()
    ensures forall machine :: |InFlightOn(s, machine)| == 0
  {
    forall machine ensures |InFlightOn(s, machine)| == 0 {
      assert forall key :: key !in InFlightOn(s, machine);
    }
  }

  // ----- every reachable state -----

  /** What holds in every state that a transition passes through. */
  ghost predicate Sane(plan: Plan, had: set<MappingKey>, want: set<MappingKey>, s: State) {
    && Safe(plan, s)
    && (forall key :: key in had * want ==> s.Has(key, Activated))
    && (forall machine :: machine in plan.cores ==> |InFlightOn(s, machine)| + s.Lost(machine) <= Capacity(plan, machine))
  }

  /** Dependencies are activated, kept mappings stay activated and no machine exceeds its cores, at every point of a transition. */
  lemma SaneThroughout(plan: Plan, had: set<MappingKey>, want: set<MappingKey>, past: seq<Action>, run: seq<Event>,
                       t: State, i: nat)
    requires Ranked(plan) && Between(plan, had, want) && i <= |run|
    requires Steered(plan, had, want, Initial(plan.keys, had, past), run, t)
    ensures Sane(plan, had, want, After(Initial(plan.keys, had, past), run[..i]))
    ensures |InFlight(After(Initial(plan.keys, had, past), run[..i]))| <=
              Interrupts(run[..i]) + (if i > 0 && run[i - 1].Start? then 1 else 0)
  {
    var start := Initial(plan.keys, had, past);
    InitialIsReady(plan, had, past);
    assert InFlight(start) == {};
    Paced(plan, start, run, i);
    SafeThroughout(plan, start, run, i);
    forall key | key in had * want ensures After(start, run[..i]).Has(key, Activated) {
      assert Untouched(run[..i], key);
      UntouchedKeepsStatus(start, run[..i], key);
    }
    forall machine | machine in plan.cores
      ensures |InFlightOn(After(start, run[..i]), machine)| + After(start, run[..i]).Lost(machine) <= Capacity(plan, machine)
    {
      CoresThroughout(plan, start, run, i, machine);
    }
  }
}
