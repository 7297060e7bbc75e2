/** The deployment transition as a state machine over recorded statuses: which steps the
    coordinator may take, what a run of such steps leads to, and where a traversal is blocked.
    The imperative coordinator in `Traversal` is proved to take only these steps. */
module Protocol {
  import opened InterDependencyMappings
  import opened Environments

  datatype ServiceMappingStatus = Deactivated | InProgress | Activated | Erroneous

  datatype ManifestService = ManifestService(name: string, pkg: string, dependsOn: seq<MappingKey>)

  /** What a traversal tries to achieve; it starts mappings that still have the opposite status. */
  datatype Direction = Activation | Deactivation {
    function Goal(): ServiceMappingStatus {
      if Activation? then Activated else Deactivated
    }

    function Origin(): ServiceMappingStatus {
      if Activation? then Deactivated else Activated
    }

    function Activity(): Activity {
      if Activation? then Activating else Deactivating
    }
  }

  /** The fixed part of a transition: the unified mappings in sorted order, the unified services,
      the cores that each machine that is present has available at the start, and a rank witnessing that dependencies are acyclic. */
  datatype Plan = Plan(
    keys: seq<MappingKey>,
    services: map<string, ManifestService>,
    cores: map<string, int>,
    rank: map<MappingKey, nat>,
    height: nat
  )

  function Dependencies(services: map<string, ManifestService>, key: MappingKey): seq<MappingKey> {
    if key.service in services then services[key.service].dependsOn else []
  }

  /** The keys, in array order, that have an inter-dependency on the given key. */
  function Dependents(keys: seq<MappingKey>, services: map<string, ManifestService>,
                      key: MappingKey): (r: seq<MappingKey>)
    ensures forall x :: x in r <==> x in keys && key in Dependencies(services, x)
  {
    if keys == [] then
      []
    else
      var last := keys[|keys| - 1];
      assert keys == keys[..|keys| - 1] + [last];
      var rest := Dependents(keys[..|keys| - 1], services, key);
      if key in Dependencies(services, last) then rest + [last] else rest
  }

  /** Dependencies stay within the plan and are acyclic: each has a smaller rank. */
  ghost predicate Ranked(plan: Plan) {
    && (forall key :: key in plan.keys ==> key in plan.rank && plan.rank[key] <= plan.height)
    && (forall key, dependency :: key in plan.keys && dependency in Dependencies(plan.services, key) ==>
          dependency in plan.keys && plan.rank[dependency] < plan.rank[key])
  }

  /** What the coordinator relies on: a ranked plan whose arrays are sorted and whose services exist. */
  ghost predicate WellFormed(plan: Plan) {
    && Ranked(plan)
    && Sorted(plan.keys)
    && (forall key :: key in plan.keys ==>
          key.service in plan.services && Sorted(plan.services[key.service].dependsOn))
  }

  function Level(plan: Plan, dir: Direction, key: MappingKey): nat
    requires Ranked(plan) && key in plan.keys
  {
    if dir.Activation? then plan.rank[key] else plan.height - plan.rank[key]
  }

  /** The mappings a traversal has to bring to its goal before the given one. */
  function Before(plan: Plan, dir: Direction, key: MappingKey): seq<MappingKey> {
    if dir.Activation? then
      Dependencies(plan.services, key)
    else
      Dependents(plan.keys, plan.services, key)
  }

  lemma BeforeIsBelow(plan: Plan, dir: Direction, key: MappingKey, x: MappingKey)
    requires Ranked(plan) && key in plan.keys && x in Before(plan, dir, key)
    ensures x in plan.keys && Level(plan, dir, x) < Level(plan, dir, key)
  {}

  /** Recorded statuses, per machine the processes in progress and the cores kept by process creations
      that failed, and what has been asked of the operating system so far. */
  datatype State = State(
    status: map<MappingKey, ServiceMappingStatus>,
    busy: map<string, int>,
    lost: map<string, int>,
    history: seq<Action>
  ) {
    predicate Has(key: MappingKey, s: ServiceMappingStatus) {
      key in status && status[key] == s
    }

    function Busy(machine: string): int {
      if machine in busy then busy[machine] else 0
    }

    function Lost(machine: string): int {
      if machine in lost then lost[machine] else 0
    }

    predicate Quiet() {
      forall key :: key in status ==> !status[key].InProgress?
    }

    function Started(key: MappingKey, dir: Direction): State {
      State(status[key := InProgress], busy[key.target := Busy(key.target) + 1], lost, history + [Created(key, dir.Activity())])
    }

    function Finished(key: MappingKey, s: ServiceMappingStatus, ok: bool): State {
      State(status[key := s], busy[key.target := Busy(key.target) - 1], lost, history + [Completed(key, ok)])
    }

    function WithStatus(key: MappingKey, s: ServiceMappingStatus): State {
      State(status[key := s], busy, lost, history)
    }

    function WithLoss(key: MappingKey, dir: Direction): State {
      State(status, busy, lost[key.target := Lost(key.target) + 1], history + [Refused(key, dir.Activity())])
    }

    function WithSignal(): State {
      State(status, busy, lost, history + [Signalled])
    }
  }

  ghost predicate Covers(plan: Plan, s: State) {
    forall key :: key in s.status <==> key in plan.keys
  }

  datatype Event =
    | Start(key: MappingKey, dir: Direction)              // process created
    | ForkFailed(key: MappingKey, dir: Direction)         // core taken, process not created
    | Finish(key: MappingKey, dir: Direction, ok: bool)   // process reaped
    | Skip(key: MappingKey)                               // deactivation on a machine that has gone
    | WaitInterrupted                                     // wait returned -1 with processes outstanding
    | Believe(key: MappingKey, status: ServiceMappingStatus) // an erroneous mapping is re-marked

  predicate AllHave(s: State, keys: seq<MappingKey>, status: ServiceMappingStatus) {
    forall x :: x in keys ==> s.Has(x, status)
  }

  /** Everything that has to precede the mapping is at the goal, and its machine has a core to spare. */
  predicate Startable(plan: Plan, s: State, key: MappingKey, dir: Direction) {
    && key.target in plan.cores
    && s.Has(key, dir.Origin())
    && AllHave(s, Before(plan, dir, key), dir.Goal())
    && s.Busy(key.target) + s.Lost(key.target) < plan.cores[key.target]
  }

  predicate Enabled(plan: Plan, s: State, e: Event) {
    match e
    case Start(key, dir) => Startable(plan, s, key, dir)
    case ForkFailed(key, dir) => Startable(plan, s, key, dir)
    case Finish(key, _, _) => s.Has(key, InProgress)
    case Skip(key) =>
      && key.target !in plan.cores
      && s.Has(key, Activated)
      && AllHave(s, Before(plan, Deactivation, key), Deactivated)
    case WaitInterrupted => !s.Quiet()
    case Believe(key, status) => s.Has(key, Erroneous) && (status.Activated? || status.Deactivated?)
  }

  function Apply(s: State, e: Event): State {
    match e
    case Start(key, dir) => s.Started(key, dir)
    case ForkFailed(key, dir) => s.WithLoss(key, dir)
    case Finish(key, dir, ok) => s.Finished(key, if ok then dir.Goal() else Erroneous, ok)
    case Skip(key) => s.WithStatus(key, Deactivated)
    case WaitInterrupted => s.WithSignal()
    case Believe(key, status) => s.WithStatus(key, status)
  }

  function After(s: State, run: seq<Event>): State
    decreases |run|
  {
    if run == [] then s else After(Apply(s, run[0]), run[1..])
  }

  /** Every step of the run is enabled in the state it is taken in. */
  predicate Lawful(plan: Plan, s: State, run: seq<Event>)
    decreases |run|
  {
    run != [] ==> Enabled(plan, s, run[0]) && Lawful(plan, Apply(s, run[0]), run[1..])
  }

  /** What an event asks of the operating system: skipped and re-marked mappings need nothing. */
  function ActionOf(e: Event): seq<Action> {
    match e
    case Start(key, dir) => [Created(key, dir.Activity())]
    case ForkFailed(key, dir) => [Refused(key, dir.Activity())]
    case Finish(key, _, ok) => [Completed(key, ok)]
    case WaitInterrupted => [Signalled]
    case _ => []
  }

  function Actions(run: seq<Event>): seq<Action> {
    if run == [] then [] else ActionOf(run[0]) + Actions(run[1..])
  }

  /** The recorded history grows by just the actions of the run. */
  lemma {:induction false} HistoryIsActions(s: State, run: seq<Event>)
    ensures After(s, run).history == s.history + Actions(run)
    decreases |run|
  {
    if run != [] {
      HistoryIsActions(Apply(s, run[0]), run[1..]);
    }
  }

  lemma {:induction false} SignalIsAction(run: seq<Event>)
    requires WaitInterrupted in run
    ensures Signalled in Actions(run)
  {
    if run[0] != WaitInterrupted {
      SignalIsAction(run[1..]);
    }
  }

  // ----- composing and cutting runs -----

  lemma {:induction false} RunConcat(plan: Plan, s: State, a: seq<Event>, b: seq<Event>)
    requires Lawful(plan, s, a)
    ensures After(s, a + b) == After(After(s, a), b)
    ensures Lawful(plan, s, a + b) <==> Lawful(plan, After(s, a), b)
    decreases |a|
  {
    if a == [] {
      assert a + b == b;
    } else {
      RunConcat(plan, Apply(s, a[0]), a[1..], b);
      assert (a + b)[1..] == a[1..] + b;
    }
  }

  lemma RunSingle(plan: Plan, s: State, e: Event)
    ensures After(s, [e]) == Apply(s, e)
    ensures Lawful(plan, s, [e]) <==> Enabled(plan, s, e)
  {
    assert [e][1..] == [];
    assert After(Apply(s, e), []) == Apply(s, e);
    assert Lawful(plan, Apply(s, e), []);
  }

  lemma RunAppend(plan: Plan, s: State, run: seq<Event>, e: Event)
    requires Lawful(plan, s, run)
    ensures Lawful(plan, s, run + [e]) <==> Enabled(plan, After(s, run), e)
    ensures After(s, run + [e]) == Apply(After(s, run), e)
  {
    RunConcat(plan, s, run, [e]);
    RunSingle(plan, After(s, run), e);
  }

  /** Every prefix of a lawful run is lawful, and so is the rest from where the prefix leads. */
  lemma RunSplit(plan: Plan, s: State, run: seq<Event>, i: nat)
    requires Lawful(plan, s, run) && i <= |run|
    ensures Lawful(plan, s, run[..i])
    ensures Lawful(plan, After(s, run[..i]), run[i..])
    ensures After(s, run) == After(After(s, run[..i]), run[i..])
  {
    PrefixLawful(plan, s, run, i);
    assert run == run[..i] + run[i..];
    RunConcat(plan, s, run[..i], run[i..]);
  }

  lemma {:induction false} PrefixLawful(plan: Plan, s: State, run: seq<Event>, i: nat)
    requires Lawful(plan, s, run) && i <= |run|
    ensures Lawful(plan, s, run[..i])
    decreases i
  {
    if i > 0 {
      PrefixLawful(plan, Apply(s, run[0]), run[1..], i - 1);
      assert run[..i][1..] == run[1..][..i - 1];
    }
  }

  /** One more step of a lawful run. */
  lemma RunStep(plan: Plan, s: State, run: seq<Event>, i: nat)
    requires Lawful(plan, s, run) && i < |run|
    ensures Enabled(plan, After(s, run[..i]), run[i])
    ensures After(s, run[..i + 1]) == Apply(After(s, run[..i]), run[i])
  {
    RunSplit(plan, s, run, i);
    PrefixLawful(plan, s, run, i + 1);
    assert run[..i + 1] == run[..i] + [run[i]];
    RunAppend(plan, s, run[..i], run[i]);
  }
}
