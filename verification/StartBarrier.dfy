/** Starting up in two phases. Every component that is started, and the coordinator for itself and
    for every place that is not taken, arrives twice at a barrier with one place more than there
    are components at most. */
module StartBarrier {
  type Name = string

  /** Where a component is. `alone`: it calls `running` without having called `ready`, which makes
      it arrive for both phases. */
  datatype Stage =
    | Start
    | AwaitingReady(alone: bool)
    | Ready(alone: bool)
    | AwaitingRunning
    | Running

  /** `left`: how often the coordinator has still to arrive in this phase. */
  datatype Coordinator = Tracking | Arriving(phase: nat, left: nat) | Finished

  /** The barrier lets everybody go who waits for a generation below `generation`. */
  datatype State = State(
    max: nat,
    components: map<Name, Stage>,
    coordinator: Coordinator,
    arrived: nat,
    generation: nat)

  function Init(max: nat): State {
    State(max, map[], Tracking, 0, 0)
  }

  /** One more arrival; the last one opens the barrier and starts the next generation. */
  function Arrival(s: State): State {
    if s.arrived + 1 == s.max + 1 then s.(arrived := 0, generation := s.generation + 1)
    else s.(arrived := s.arrived + 1)
  }

  /** The coordinator's share of the arrivals. */
  function Unused(s: State): int {
    s.max - |s.components| + 1
  }

  datatype Action =
    | Track(name: Name)
    | CallReady(name: Name)
    | CallRunning(name: Name)
    | Released(name: Name)
    | Wait
    | Arrive
    | NextPhase

  predicate ComponentStep(s: State, a: Action, s': State) {
    match a
    case CallReady(n) =>
      && n in s.components && s.components[n].Start?
      && s' == Arrival(s).(components := s.components[n := AwaitingReady(false)])
    case CallRunning(n) =>
      && n in s.components
      && (match s.components[n]
          case Start => s' == Arrival(s).(components := s.components[n := AwaitingReady(true)])
          case Ready(_) => s' == Arrival(s).(components := s.components[n := AwaitingRunning])
          case _ => false)
    case Released(n) =>
      && n in s.components
      && (match s.components[n]
          case AwaitingReady(alone) => s.generation > 0 && s' == s.(components := s.components[n := Ready(alone)])
          case AwaitingRunning => s.generation > 1 && s' == s.(components := s.components[n := Running])
          case _ => false)
    case _ => false
  }

  /** Tracking a name twice or more names than were announced panics. */
  predicate CoordinatorStep(s: State, a: Action, s': State) {
    match a
    case Track(n) =>
      && s.coordinator.Tracking? && n !in s.components && |s.components| < s.max
      && s' == s.(components := s.components[n := Start])
    case Wait => s.coordinator.Tracking? && Unused(s) >= 0 && s' == s.(coordinator := Arriving(0, Unused(s)))
    case Arrive =>
      && s.coordinator.Arriving? && s.coordinator.left > 0
      && s' == Arrival(s).(coordinator := Arriving(s.coordinator.phase, s.coordinator.left - 1))
    case NextPhase =>
      && s.coordinator.Arriving? && s.coordinator.left == 0 && s.generation > s.coordinator.phase && Unused(s) >= 0
      && s' == s.(coordinator := if s.coordinator.phase == 0 then Arriving(1, Unused(s)) else Finished)
    case _ => false
  }

  predicate Step(s: State, a: Action, s': State) {
    ComponentStep(s, a, s') || CoordinatorStep(s, a, s')
  }

  // ---- Who has arrived ----

  function Arrivals(stage: Stage): nat {
    match stage
    case Start => 0
    case AwaitingReady(_) => 1
    case Ready(_) => 1
    case AwaitingRunning => 2
    case Running => 2
  }

  /** The phases a component has got past. */
  function Passed(stage: Stage): nat {
    match stage
    case Start => 0
    case AwaitingReady(_) => 0
    case Ready(_) => 1
    case AwaitingRunning => 1
    case Running => 2
  }

  function Here(components: map<Name, Stage>, generation: nat): set<Name> {
    set n | n in components && Arrivals(components[n]) == generation + 1
  }

  /** The coordinator's arrivals in this generation. */
  function CoordinatorHere(s: State): int {
    if s.coordinator.Arriving? && s.coordinator.phase == s.generation then Unused(s) - s.coordinator.left else 0
  }

  ghost predicate Progress(components: map<Name, Stage>, generation: nat) {
    forall n :: n in components ==>
      Passed(components[n]) <= generation <= Arrivals(components[n]) <= generation + 1
  }

  ghost predicate Coordinated(s: State) {
    && |s.components| <= s.max
    && match s.coordinator
       case Tracking => s.generation == 0
       case Arriving(phase, left) =>
         && phase < 2 && left <= Unused(s)
         && (s.generation == phase || (s.generation == phase + 1 && left == 0))
       case Finished => s.generation == 2
  }

  ghost predicate Inv(s: State) {
    && Coordinated(s)
    && s.generation <= 2
    && Progress(s.components, s.generation)
    && s.arrived == |Here(s.components, s.generation)| + CoordinatorHere(s)
    && s.arrived <= s.max
  }

  // ---- Every step keeps it ----

  lemma HereAll(components: map<Name, Stage>, generation: nat)
    ensures Here(components, generation) <= components.Keys
    ensures |Here(components, generation)| <= |components|
    ensures |Here(components, generation)| == |components| ==> Here(components, generation) == components.Keys
  {
    Subset(Here(components, generation), components.Keys);
  }

  lemma Subset<T>(a: set<T>, b: set<T>)
    requires a <= b
    ensures |a| <= |b| && (|a| == |b| ==> a == b)
  {
    assert b == a + (b - a);
  }

  /** When all have arrived nobody has arrived for the next generation. */
  lemma HereNext(components: map<Name, Stage>, generation: nat)
    requires |Here(components, generation)| == |components| && Progress(components, generation)
    ensures Here(components, generation + 1) == {} && Progress(components, generation + 1)
  {
    HereAll(components, generation);
    forall n | n in components ensures Arrivals(components[n]) == generation + 1 {
      assert n in Here(components, generation);
    }
  }

  /** The component arrives for the phase it has not passed yet. */
  lemma HereMore(components: map<Name, Stage>, generation: nat, n: Name, stage: Stage)
    requires Progress(components, generation) && n in components
    requires Passed(stage) == Passed(components[n]) == Arrivals(components[n]) == Arrivals(stage) - 1
    ensures var components' := components[n := stage];
            && |components'| == |components|
            && |Here(components', generation)| == |Here(components, generation)| + 1
            && Progress(components', generation)
  {
    var components' := components[n := stage];
    assert components'.Keys == components.Keys;
    assert n !in Here(components, generation);
    assert Here(components', generation) == Here(components, generation) + {n};
  }

  lemma ArriveComponent(s: State, n: Name, stage: Stage)
    requires Inv(s) && n in s.components
    requires Passed(stage) == Passed(s.components[n]) == Arrivals(s.components[n]) == Arrivals(stage) - 1
    ensures Inv(Arrival(s).(components := s.components[n := stage]))
  {
    HereMore(s.components, s.generation, n, stage);
    HereAll(s.components[n := stage], s.generation);
    if s.arrived == s.max {
      HereNext(s.components[n := stage], s.generation);
    }
  }

  lemma HereSame(components: map<Name, Stage>, generation: nat, n: Name, stage: Stage)
    requires Progress(components, generation) && n in components
    requires Arrivals(stage) == Arrivals(components[n]) && Passed(stage) <= generation
    ensures var components' := components[n := stage];
            && |components'| == |components|
            && Here(components', generation) == Here(components, generation)
            && Progress(components', generation)
  {
    assert components[n := stage].Keys == components.Keys;
  }

  lemma ComponentStepKept(s: State, a: Action, s': State)
    requires Inv(s) && ComponentStep(s, a, s')
    ensures Inv(s')
  {
    match a
    case CallReady(n) => ArriveComponent(s, n, AwaitingReady(false));
    case CallRunning(n) =>
      if s.components[n].Start? {
        ArriveComponent(s, n, AwaitingReady(true));
      } else {
        ArriveComponent(s, n, AwaitingRunning);
      }
    case Released(n) => HereSame(s.components, s.generation, n, s'.components[n]);
    case _ =>
  }

  lemma ArriveCoordinator(s: State)
    requires Inv(s) && s.coordinator.Arriving? && s.coordinator.left > 0
    ensures Inv(Arrival(s).(coordinator := Arriving(s.coordinator.phase, s.coordinator.left - 1)))
  {
    HereAll(s.components, s.generation);
    if s.arrived == s.max {
      HereNext(s.components, s.generation);
    }
  }

  lemma TrackKept(s: State, n: Name)
    requires Inv(s) && s.coordinator.Tracking? && n !in s.components && |s.components| < s.max
    ensures Inv(s.(components := s.components[n := Start]))
  {
    var components' := s.components[n := Start];
    assert Here(components', 0) == Here(s.components, 0);
  }

  lemma CoordinatorStepKept(s: State, a: Action, s': State)
    requires Inv(s) && CoordinatorStep(s, a, s')
    ensures Inv(s')
  {
    match a
    case Track(n) => TrackKept(s, n);
    case Arrive => ArriveCoordinator(s);
    case _ =>
  }

  // ---- Whole runs ----

  ghost predicate Run(run: seq<State>, actions: seq<Action>) {
    && |run| == |actions| + 1
    && run[0] == Init(run[0].max)
    && forall k :: 0 <= k < |actions| ==> Step(run[k], actions[k], run[k + 1])
  }

  lemma {:induction false} RunKept(run: seq<State>, actions: seq<Action>, k: nat)
    requires Run(run, actions) && k < |run|
    ensures Inv(run[k])
  {
    if k > 0 {
      RunKept(run, actions, k - 1);
      if ComponentStep(run[k - 1], actions[k - 1], run[k]) {
        ComponentStepKept(run[k - 1], actions[k - 1], run[k]);
      } else {
        CoordinatorStepKept(run[k - 1], actions[k - 1], run[k]);
      }
    }
  }

  /** The coordinator has arrived in a phase as often as it has to. */
  predicate CoordinatorArrived(c: Coordinator, phase: nat) {
    match c
    case Tracking => false
    case Arriving(p, left) => p > phase || (p == phase && left == 0)
    case Finished => true
  }

  /** Nobody gets past a phase before every tracked component and the coordinator have arrived at
      it; until the coordinator waits, more components may be tracked, and nobody gets past at all. */
  lemma NobodyGoesAhead(run: seq<State>, actions: seq<Action>, k: nat, n: Name, phase: nat)
    requires Run(run, actions) && k < |run| && n in run[k].components && Passed(run[k].components[n]) > phase
    ensures CoordinatorArrived(run[k].coordinator, phase)
    ensures forall m :: m in run[k].components ==> Arrivals(run[k].components[m]) > phase
  {
    RunKept(run, actions, k);
  }

  /** How often a component has come to the barrier. */
  function Came(actions: seq<Action>, n: Name): nat {
    if actions == [] then 0
    else
      var a := actions[|actions| - 1];
      Came(actions[..|actions| - 1], n) + (if Comes(a, n) then 1 else 0)
  }

  predicate Comes(a: Action, n: Name) {
    a == CallReady(n) || a == CallRunning(n)
  }

  function ArrivalsOf(components: map<Name, Stage>, n: Name): nat {
    if n in components then Arrivals(components[n]) else 0
  }

  lemma StepCounted(s: State, a: Action, s': State, n: Name)
    requires Step(s, a, s')
    ensures ArrivalsOf(s'.components, n) == ArrivalsOf(s.components, n) + (if Comes(a, n) then 1 else 0)
  {
  }

  lemma {:induction false} CameCounted(run: seq<State>, actions: seq<Action>, k: nat, n: Name)
    requires Run(run, actions) && k < |run|
    ensures Came(actions[..k], n) == ArrivalsOf(run[k].components, n)
  {
    if k > 0 {
      CameCounted(run, actions, k - 1, n);
      assert actions[..k][..k - 1] == actions[..k - 1];
      StepCounted(run[k - 1], actions[k - 1], run[k], n);
    }
  }

  /** `wait` returns only after every component has arrived exactly twice, whichever way it calls. */
  lemma WaitIsForAll(run: seq<State>, actions: seq<Action>, k: nat, n: Name)
    requires Run(run, actions) && k < |run| && n in run[k].components
    ensures Came(actions[..k], n) <= 2
    ensures run[k].coordinator.Finished? ==> Came(actions[..k], n) == 2
  {
    RunKept(run, actions, k);
    CameCounted(run, actions, k, n);
  }

  /** What is subtracted to find the places not taken is never more than there is. */
  lemma NoUnderflow(run: seq<State>, actions: seq<Action>, k: nat)
    requires Run(run, actions) && k < |run|
    ensures 1 <= Unused(run[k]) <= run[k].max + 1
  {
    RunKept(run, actions, k);
  }

  // ---- Nobody waits for ever ----

  /** Whatever has happened since the coordinator began to wait, somebody can take a step, until
      all components run and the coordinator is through. */
  lemma NeverStuck(run: seq<State>, actions: seq<Action>, k: nat) returns (a: Action, s': State)
    requires Run(run, actions) && k < |run| && !run[k].coordinator.Tracking?
    requires !(run[k].coordinator.Finished? && forall n :: n in run[k].components ==> run[k].components[n].Running?)
    ensures Step(run[k], a, s') && !a.Track? && !a.Wait?
  {
    RunKept(run, actions, k);
    var s := run[k];
    if n :| n in s.components && CanMove(s, n) {
      a, s' := Moved(s, n);
    } else if s.coordinator.Arriving? && s.coordinator.left > 0 {
      a, s' := Arrive, Arrival(s).(coordinator := Arriving(s.coordinator.phase, s.coordinator.left - 1));
    } else {
      AllBlocked(s);
      a := NextPhase;
      s' := s.(coordinator := if s.coordinator.phase == 0 then Arriving(1, Unused(s)) else Finished);
    }
  }

  predicate CanMove(s: State, n: Name)
    requires n in s.components
  {
    match s.components[n]
    case Start => true
    case AwaitingReady(_) => s.generation > 0
    case Ready(_) => true
    case AwaitingRunning => s.generation > 1
    case Running => false
  }

  lemma Moved(s: State, n: Name) returns (a: Action, s': State)
    requires n in s.components && CanMove(s, n)
    ensures Step(s, a, s') && !a.Track? && !a.Wait?
  {
    match s.components[n]
    case Start => a, s' := CallReady(n), Arrival(s).(components := s.components[n := AwaitingReady(false)]);
    case AwaitingReady(alone) => a, s' := Released(n), s.(components := s.components[n := Ready(alone)]);
    case Ready(_) => a, s' := CallRunning(n), Arrival(s).(components := s.components[n := AwaitingRunning]);
    case AwaitingRunning => a, s' := Released(n), s.(components := s.components[n := Running]);
  }

  /** If no component can move and the coordinator has arrived, the barrier has opened. */
  lemma AllBlocked(s: State)
    requires Inv(s) && forall n :: n in s.components ==> !CanMove(s, n)
    requires !s.coordinator.Tracking? && (s.coordinator.Arriving? ==> s.coordinator.left == 0)
    requires s.coordinator.Finished? ==> exists n :: n in s.components && !s.components[n].Running?
    ensures s.coordinator.Arriving? && s.generation > s.coordinator.phase
  {
    HereAll(s.components, s.generation);
    if s.generation < 2 {
      AllHere(s);
    }
  }

  lemma AllHere(s: State)
    requires Inv(s) && s.generation < 2 && forall n :: n in s.components ==> !CanMove(s, n)
    ensures Here(s.components, s.generation) == s.components.Keys
  {
    forall n | n in s.components ensures n in Here(s.components, s.generation) {
    }
  }
}
