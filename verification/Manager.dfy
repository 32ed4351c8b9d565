/** What a reload does to the running units and targets. */
module Manager {
  import opened Wrappers

  type Name = string
  type Kind = nat
  type Agent = nat
  type Gate = nat
  type Channel = nat

  datatype Unit = Unit(kind: Kind, settings: nat)
  datatype Target = Target(kind: Kind, settings: nat)

  /** The calls the manager makes to bring components up, over or down. */
  datatype Action =
    | SpawnUnit(unit: Unit, gate: Gate)
    | ReconfigureUnit(agent: Agent, unit: Unit, gate: Gate)
    | TerminateUnit(agent: Agent)
    | SpawnTarget(target: Target, channel: Channel)
    | ReconfigureTarget(channel: Channel, target: Target)
    | TerminateTarget(channel: Channel)

  datatype Component = UnitOf(name: Name) | TargetOf(name: Name)

  function Find<K, V>(m: map<K, V>, k: K): Option<V> {
    if k in m then Some(m[k]) else None
  }

  /** The calls made about a component, in order. */
  function About(calls: map<Component, seq<Action>>, c: Component): seq<Action> {
    if c in calls then calls[c] else []
  }

  // ---- What each component should get ----

  datatype RunningUnit = RunningUnit(kind: Kind, agent: Agent)
  datatype RunningTarget = RunningTarget(kind: Kind, channel: Channel)
  datatype PendingGate = PendingGate(gate: Gate, agent: Agent)

  /** A unit that nobody links to has no pending gate and is not to run. */
  function UnitActions(running: Option<RunningUnit>, pending: Option<PendingGate>, unit: Option<Unit>): seq<Action> {
    if unit.Some? && pending.Some? then
      if running.None? then [SpawnUnit(unit.value, pending.value.gate)]
      else if running.value.kind == unit.value.kind then
        [ReconfigureUnit(running.value.agent, unit.value, pending.value.gate)]
      else [TerminateUnit(running.value.agent), SpawnUnit(unit.value, pending.value.gate)]
    else if running.Some? then [TerminateUnit(running.value.agent)]
    else []
  }

  function TargetActions(running: Option<RunningTarget>, target: Option<Target>, channel: Channel): seq<Action> {
    if target.Some? then
      if running.None? then [SpawnTarget(target.value, channel)]
      else if running.value.kind == target.value.kind then [ReconfigureTarget(running.value.channel, target.value)]
      else [TerminateTarget(running.value.channel), SpawnTarget(target.value, channel)]
    else if running.Some? then [TerminateTarget(running.value.channel)]
    else []
  }

  predicate SpawnsUnit(running: Option<RunningUnit>, pending: Option<PendingGate>, unit: Option<Unit>) {
    unit.Some? && pending.Some? && (running.None? || running.value.kind != unit.value.kind)
  }

  predicate SpawnsTarget(running: Option<RunningTarget>, target: Option<Target>) {
    target.Some? && (running.None? || running.value.kind != target.value.kind)
  }

  /** All that concerns one unit name: what runs under it, the gate pending for it, what will run
      under it, the calls made about it and whether the coordinator tracks the name. */
  datatype UnitView = UnitView(
    running: Option<RunningUnit>, pending: Option<PendingGate>, kept: Option<RunningUnit>, calls: seq<Action>, tracked: bool)

  function Reconciled(v: UnitView, unit: Unit): UnitView {
    UnitView(None, None,
             if v.pending.Some? then Some(RunningUnit(unit.kind, v.pending.value.agent)) else v.kept,
             v.calls + UnitActions(v.running, v.pending, Some(unit)),
             v.tracked || SpawnsUnit(v.running, v.pending, Some(unit)))
  }

  predicate Collides(v: UnitView, unit: Unit) {
    v.tracked && SpawnsUnit(v.running, v.pending, Some(unit))
  }

  ghost function ViewUnit(running: map<Name, RunningUnit>, pending: map<Name, PendingGate>, kept: map<Name, RunningUnit>,
                          calls: map<Component, seq<Action>>, tracked: set<Name>, n: Name): UnitView
  {
    UnitView(Find(running, n), Find(pending, n), Find(kept, n), About(calls, UnitOf(n)), n in tracked)
  }

  /** What concerns another name does not change. */
  lemma OtherView(running: map<Name, RunningUnit>, pending: map<Name, PendingGate>, kept: map<Name, RunningUnit>,
                  calls: map<Component, seq<Action>>, tracked: set<Name>, kept': map<Name, RunningUnit>,
                  calls': map<Component, seq<Action>>, tracked': set<Name>, name: Name, n: Name)
    requires n != name && tracked <= tracked' <= tracked + {name}
    requires About(calls', UnitOf(n)) == About(calls, UnitOf(n)) && Find(kept', n) == Find(kept, n)
    ensures ViewUnit(running - {name}, pending - {name}, kept', calls', tracked', n) ==
            ViewUnit(running, pending, kept, calls, tracked, n)
  {
  }

  datatype TargetView = TargetView(
    running: Option<RunningTarget>, kept: Option<RunningTarget>, calls: seq<Action>, tracked: bool)

  /** A target that is spawned gets a channel that was not in use. */
  predicate TargetReconciled(v: TargetView, target: Target, channels: nat, v': TargetView) {
    && v'.running.None?
    && v'.kept.Some?
    && (if SpawnsTarget(v.running, Some(target)) then
          v'.kept.value.kind == target.kind && v'.kept.value.channel >= channels && v'.tracked
        else v'.kept == v.running && v'.tracked == v.tracked)
    && v'.calls == v.calls + TargetActions(v.running, Some(target), v'.kept.value.channel)
  }

  /** Both spawned, under one name. */
  predicate Clash(u: UnitView, unit: Option<Unit>, t: TargetView, target: Option<Target>) {
    SpawnsUnit(u.running, u.pending, unit) && SpawnsTarget(t.running, target)
  }

  /** After the units of the configuration have been gone through. */
  predicate UnitGone(v: UnitView, unit: Option<Unit>, v': UnitView) {
    if unit.Some? then v'.(tracked := false) == Reconciled(v, unit.value).(tracked := false)
    else v'.(tracked := false) == v.(tracked := false)
  }

  predicate TargetGone(v: TargetView, target: Option<Target>, channels: nat, v': TargetView) {
    if target.Some? then
      && v'.running.None? && v'.kept.Some?
      && KeptTarget(v.running, target.value, channels, v'.kept.value)
      && v'.calls == v.calls + TargetActions(v.running, target, v'.kept.value.channel)
    else v'.running == v.running && v'.kept == v.kept && v'.calls == v.calls
  }

  predicate UnitReloaded(v: UnitView, unit: Option<Unit>, v': UnitView) {
    && v'.calls == UnitActions(v.running, v.pending, unit)
    && v'.running == (if unit.Some? && v.pending.Some? then Some(RunningUnit(unit.value.kind, v.pending.value.agent)) else None)
    && v'.pending == (if unit.Some? then None else v.pending)
  }

  predicate TargetReloaded(v: TargetView, target: Option<Target>, channels: nat, v': TargetView) {
    && v'.calls == TargetActions(v.running, target, if v'.running.Some? then v'.running.value.channel else 0)
    && v'.running.Some? == target.Some?
    && (target.Some? ==> KeptTarget(v.running, target.value, channels, v'.running.value))
  }

  predicate UnitFinished(v: UnitView, v': UnitView) {
    && v'.running == v.kept
    && v'.pending == v.pending
    && v'.calls == if v.running.Some? then v.calls + [TerminateUnit(v.running.value.agent)] else v.calls
  }

  predicate TargetFinished(v: TargetView, v': TargetView) {
    && v'.running == v.kept
    && v'.calls == if v.running.Some? then v.calls + [TerminateTarget(v.running.value.channel)] else v.calls
  }

  /** What runs under a target's name afterwards. */
  predicate KeptTarget(running: Option<RunningTarget>, target: Target, channels: nat, r: RunningTarget) {
    if SpawnsTarget(running, Some(target)) then r.kind == target.kind && r.channel >= channels
    else running == Some(r)
  }

  lemma UnitPath(v: UnitView, unit: Option<Unit>, v1: UnitView, v2: UnitView)
    requires v.calls == [] && v.kept.None? && UnitGone(v, unit, v1) && UnitFinished(v1, v2)
    ensures UnitReloaded(v, unit, v2)
  {
  }

  lemma TargetPath(v: TargetView, target: Option<Target>, channels: nat, v1: TargetView, v2: TargetView)
    requires v.calls == [] && v.kept.None? && TargetGone(v, target, channels, v1) && TargetFinished(v1, v2)
    ensures TargetReloaded(v, target, channels, v2)
  {
  }

  class Manager {
    var runningUnits: map<Name, RunningUnit>
    var runningTargets: map<Name, RunningTarget>
    var pendingGates: map<Name, PendingGate>
    var newUnits: map<Name, RunningUnit>
    var newTargets: map<Name, RunningTarget>
    var channels: nat
    var calls: map<Component, seq<Action>>
    var tracked: set<Name>

    /** `Coordinator::track`, which panics on a name it has and on one too many. */
    method Track(name: Name, max: nat) returns (ok: bool)
      modifies this`tracked
      ensures tracked == old(tracked) + {name}
      ensures ok <==> name !in old(tracked) && |tracked| <= max
    {
      ok := name !in tracked;
      tracked := tracked + {name};
      ok := ok && |tracked| <= max;
    }

    method Call(c: Component, a: Action)
      modifies this`calls
      ensures About(calls, c) == About(old(calls), c) + [a]
      ensures forall d :: d != c ==> About(calls, d) == About(old(calls), d)
    {
      calls := calls[c := About(calls, c) + [a]];
    }

    method TakeUnit(name: Name) returns (r: Option<RunningUnit>)
      modifies this`runningUnits
      ensures runningUnits == old(runningUnits) - {name} && r == Find(old(runningUnits), name)
    {
      r := Find(runningUnits, name);
      runningUnits := runningUnits - {name};
    }

    method TakeTarget(name: Name) returns (r: Option<RunningTarget>)
      modifies this`runningTargets
      ensures runningTargets == old(runningTargets) - {name} && r == Find(old(runningTargets), name)
    {
      r := Find(runningTargets, name);
      runningTargets := runningTargets - {name};
    }

    method TakeGate(name: Name) returns (r: Option<PendingGate>)
      modifies this`pendingGates
      ensures pendingGates == old(pendingGates) - {name} && r == Find(old(pendingGates), name)
    {
      r := Find(pendingGates, name);
      pendingGates := pendingGates - {name};
    }

    ghost function Unit(n: Name): UnitView
      reads this
    {
      ViewUnit(runningUnits, pendingGates, newUnits, calls, tracked, n)
    }

    /** Bring a unit of the configuration up or over, or down if nobody links to it. */
    method ActOnUnit(name: Name, unit: Unit, running: Option<RunningUnit>, pending: Option<PendingGate>, max: nat)
      returns (ok: bool)
      requires |tracked| < max
      modifies this`calls, this`tracked
      ensures tracked == old(tracked) + if SpawnsUnit(running, pending, Some(unit)) then {name} else {}
      ensures ok <==> !(SpawnsUnit(running, pending, Some(unit)) && name in old(tracked))
      ensures ok ==> About(calls, UnitOf(name)) == About(old(calls), UnitOf(name)) + UnitActions(running, pending, Some(unit))
      ensures forall d :: d != UnitOf(name) ==> About(calls, d) == About(old(calls), d)
    {
      if pending.None? {
        if running.Some? {
          Call(UnitOf(name), TerminateUnit(running.value.agent));
        }
        return true;
      }
      if running.Some? {
        if unit.kind != running.value.kind {
          Call(UnitOf(name), TerminateUnit(running.value.agent));
        } else {
          Call(UnitOf(name), ReconfigureUnit(running.value.agent, unit, pending.value.gate));
          return true;
        }
      }
      ok := Track(name, max);
      if ok {
        Call(UnitOf(name), SpawnUnit(unit, pending.value.gate));
      }
    }

    /** One unit of the configuration. */
    method ReconcileUnit(name: Name, unit: Unit, max: nat) returns (ok: bool)
      requires |tracked| < max
      modifies this`runningUnits, this`pendingGates, this`newUnits, this`calls, this`tracked
      ensures |tracked| <= |old(tracked)| + 1
      ensures ok <==> !Collides(old(Unit(name)), unit)
      ensures ok ==> Unit(name) == Reconciled(old(Unit(name)), unit)
      ensures forall n :: n != name ==> Unit(n) == old(Unit(n))
      ensures forall n :: About(calls, TargetOf(n)) == About(old(calls), TargetOf(n))
    {
      assert |tracked + {name}| <= |tracked| + 1;
      var pending := TakeGate(name);
      var running := TakeUnit(name);
      ok := ActOnUnit(name, unit, running, pending, max);
      if ok && pending.Some? {
        newUnits := newUnits[name := RunningUnit(unit.kind, pending.value.agent)];
      }
      forall n | n != name ensures Unit(n) == old(Unit(n)) {
        OtherView(old(runningUnits), old(pendingGates), old(newUnits), old(calls), old(tracked), newUnits, calls, tracked, name, n);
      }
    }

    ghost function Target(n: Name): TargetView
      reads this
    {
      TargetView(Find(runningTargets, n), Find(newTargets, n), About(calls, TargetOf(n)), n in tracked)
    }

    method ActOnTarget(name: Name, target: Target, running: Option<RunningTarget>, max: nat) returns (r: RunningTarget)
      requires |tracked| < max && name !in tracked
      modifies this`calls, this`tracked, this`channels
      ensures tracked == old(tracked) + if SpawnsTarget(running, Some(target)) then {name} else {}
      ensures r == if SpawnsTarget(running, Some(target)) then RunningTarget(target.kind, old(channels)) else running.value
      ensures channels >= old(channels)
      ensures About(calls, TargetOf(name)) == About(old(calls), TargetOf(name)) + TargetActions(running, Some(target), r.channel)
      ensures forall d :: d != TargetOf(name) ==> About(calls, d) == About(old(calls), d)
    {
      if running.Some? {
        if target.kind != running.value.kind {
          Call(TargetOf(name), TerminateTarget(running.value.channel));
        } else {
          Call(TargetOf(name), ReconfigureTarget(running.value.channel, target));
          return running.value;
        }
      }
      r := RunningTarget(target.kind, channels);
      channels := channels + 1;
      var ok := Track(name, max);
      Call(TargetOf(name), SpawnTarget(target, r.channel));
    }

    /** One target of the configuration. */
    method ReconcileTarget(name: Name, target: Target, max: nat)
      requires |tracked| < max && name !in tracked
      modifies this`runningTargets, this`newTargets, this`channels, this`calls, this`tracked
      ensures |tracked| <= |old(tracked)| + 1 && channels >= old(channels)
      ensures TargetReconciled(old(Target(name)), target, old(channels), Target(name))
      ensures forall n :: n != name ==> Target(n) == old(Target(n))
      ensures forall n :: About(calls, UnitOf(n)) == About(old(calls), UnitOf(n))
    {
      var running := TakeTarget(name);
      var r := ActOnTarget(name, target, running, max);
      newTargets := newTargets[name := r];
    }

    method ReconcileTargets(targets: map<Name, Target>, max: nat)
      requires |targets| <= max && tracked == {}
      modifies this`runningTargets, this`newTargets, this`channels, this`calls, this`tracked
      ensures |tracked| <= |targets|
      ensures forall n :: if n in targets then TargetReconciled(old(Target(n)), targets[n], old(channels), Target(n))
                          else Target(n) == old(Target(n))
      ensures forall n :: About(calls, UnitOf(n)) == About(old(calls), UnitOf(n))
    {
      var left := targets.Keys;
      while left != {}
        invariant left <= targets.Keys && |tracked| + |left| <= |targets| && channels >= old(channels)
        invariant forall n :: n in targets && n !in left ==>
                    TargetReconciled(old(Target(n)), targets[n], old(channels), Target(n))
        invariant forall n :: n !in targets || n in left ==> Target(n) == old(Target(n))
        invariant forall n :: About(calls, UnitOf(n)) == About(old(calls), UnitOf(n))
        decreases left
      {
        var name :| name in left;
        assert Target(name) == old(Target(name));
        left := left - {name};
        ReconcileTarget(name, targets[name], max);
      }
    }

    method ReconcileUnits(units: map<Name, Unit>, max: nat) returns (ok: bool)
      requires |tracked| + |units| <= max
      modifies this`runningUnits, this`pendingGates, this`newUnits, this`calls, this`tracked
      ensures ok <==> forall n :: n in units ==> !Collides(old(Unit(n)), units[n])
      ensures ok ==> forall n :: Unit(n) == if n in units then Reconciled(old(Unit(n)), units[n]) else old(Unit(n))
      ensures forall n :: About(calls, TargetOf(n)) == About(old(calls), TargetOf(n))
    {
      var left := units.Keys;
      while left != {}
        invariant left <= units.Keys && |tracked| + |left| <= max
        invariant forall n :: Unit(n) == if n in units && n !in left then Reconciled(old(Unit(n)), units[n]) else old(Unit(n))
        invariant forall n :: n in units && n !in left ==> !Collides(old(Unit(n)), units[n])
        invariant forall n :: About(calls, TargetOf(n)) == About(old(calls), TargetOf(n))
        decreases left
      {
        var name :| name in left;
        left := left - {name};
        ok := ReconcileUnit(name, units[name], max);
        if !ok {
          return;
        }
      }
      ok := true;
    }

    /** Units whose section is gone from the configuration. */
    method TerminateUnits()
      modifies this`runningUnits, this`calls
      ensures runningUnits == map[]
      ensures forall n :: n in old(runningUnits) ==>
                About(calls, UnitOf(n)) == About(old(calls), UnitOf(n)) + [TerminateUnit(old(runningUnits)[n].agent)]
      ensures forall n :: n !in old(runningUnits) ==> About(calls, UnitOf(n)) == About(old(calls), UnitOf(n))
      ensures forall n :: About(calls, TargetOf(n)) == About(old(calls), TargetOf(n))
    {
      var gone := runningUnits;
      var left := gone.Keys;
      runningUnits := map[];
      while left != {}
        invariant left <= gone.Keys && runningUnits == map[]
        invariant forall n :: n in gone && n !in left ==>
                    About(calls, UnitOf(n)) == About(old(calls), UnitOf(n)) + [TerminateUnit(gone[n].agent)]
        invariant forall d: Component :: d.TargetOf? || d.name !in gone || d.name in left ==> About(calls, d) == About(old(calls), d)
        decreases left
      {
        var name :| name in left;
        left := left - {name};
        Call(UnitOf(name), TerminateUnit(gone[name].agent));
      }
    }

    /** Targets whose section is gone from the configuration. */
    method TerminateTargets()
      modifies this`runningTargets, this`calls
      ensures runningTargets == map[]
      ensures forall n :: n in old(runningTargets) ==>
                About(calls, TargetOf(n)) == About(old(calls), TargetOf(n)) + [TerminateTarget(old(runningTargets)[n].channel)]
      ensures forall n :: n !in old(runningTargets) ==> About(calls, TargetOf(n)) == About(old(calls), TargetOf(n))
      ensures forall n :: About(calls, UnitOf(n)) == About(old(calls), UnitOf(n))
    {
      var gone := runningTargets;
      var left := gone.Keys;
      runningTargets := map[];
      while left != {}
        invariant left <= gone.Keys && runningTargets == map[]
        invariant forall n :: n in gone && n !in left ==>
                    About(calls, TargetOf(n)) == About(old(calls), TargetOf(n)) + [TerminateTarget(gone[n].channel)]
        invariant forall d: Component :: d.UnitOf? || d.name !in gone || d.name in left ==> About(calls, d) == About(old(calls), d)
        decreases left
      {
        var name :| name in left;
        left := left - {name};
        Call(TargetOf(name), TerminateTarget(gone[name].channel));
      }
    }

    /** Whatever still runs has no place in the configuration. */
    method Finish()
      modifies this`runningUnits, this`runningTargets, this`calls
      ensures forall n :: UnitFinished(old(Unit(n)), Unit(n))
      ensures forall n :: TargetFinished(old(Target(n)), Target(n))
    {
      TerminateUnits();
      TerminateTargets();
      runningUnits, runningTargets := newUnits, newTargets;
    }

    method SpawnTargets(targets: map<Name, Target>, max: nat)
      requires |targets| <= max && tracked == {}
      modifies this`runningTargets, this`newTargets, this`channels, this`calls, this`tracked
      ensures |tracked| <= |targets|
      ensures forall n :: Unit(n) == old(Unit(n)).(tracked := SpawnsTarget(old(Target(n)).running, Find(targets, n)))
      ensures forall n :: TargetGone(old(Target(n)), Find(targets, n), old(channels), Target(n))
    {
      ReconcileTargets(targets, max);
      forall n ensures Unit(n).tracked == SpawnsTarget(old(Target(n)).running, Find(targets, n)) {
        assert Unit(n).tracked == Target(n).tracked;
      }
    }

    method SpawnUnits(units: map<Name, Unit>, max: nat) returns (ok: bool)
      requires |tracked| + |units| <= max
      modifies this`runningUnits, this`pendingGates, this`newUnits, this`calls, this`tracked
      ensures ok <==> forall n :: !(old(Unit(n)).tracked && SpawnsUnit(old(Unit(n)).running, old(Unit(n)).pending, Find(units, n)))
      ensures ok ==> forall n :: UnitGone(old(Unit(n)), Find(units, n), Unit(n))
      ensures forall n :: Target(n).(tracked := false) == old(Target(n)).(tracked := false)
    {
      ok := ReconcileUnits(units, max);
    }

    method Reconcile(units: map<Name, Unit>, targets: map<Name, Target>) returns (ok: bool)
      requires tracked == {}
      modifies this
      ensures ok <==> forall n :: !Clash(old(Unit(n)), Find(units, n), old(Target(n)), Find(targets, n))
      ensures ok ==> forall n :: UnitGone(old(Unit(n)), Find(units, n), Unit(n))
      ensures ok ==> forall n :: TargetGone(old(Target(n)), Find(targets, n), old(channels), Target(n))
    {
      SpawnTargets(targets, |targets| + |units|);
      ok := SpawnUnits(units, |targets| + |units|);
    }

    /** A reload. Unless the same name is to be spawned both as a target and as a unit, which makes
        the coordinator panic, every component gets exactly the calls its old and new type ask for,
        whatever the order in which the configuration is gone through. */
    method SpawnInternal(units: map<Name, Unit>, targets: map<Name, Target>) returns (ok: bool)
      modifies this
      ensures ok <==> forall n :: !Clash(old(Unit(n)), Find(units, n), old(Target(n)), Find(targets, n))
      ensures ok ==> forall n :: UnitReloaded(old(Unit(n)), Find(units, n), Unit(n))
      ensures ok ==> forall n :: TargetReloaded(old(Target(n)), Find(targets, n), old(channels), Target(n))
    {
      calls, tracked, newUnits, newTargets := map[], {}, map[], map[];
      label Clean:
      ok := Reconcile(units, targets);
      if ok {
        label Gone:
        Finish();
        forall n ensures UnitReloaded(old(Unit(n)), Find(units, n), Unit(n)) {
          UnitPath(old@Clean(Unit(n)), Find(units, n), old@Gone(Unit(n)), Unit(n));
        }
        forall n ensures TargetReloaded(old(Target(n)), Find(targets, n), old(channels), Target(n)) {
          TargetPath(old@Clean(Target(n)), Find(targets, n), old(channels), old@Gone(Target(n)), Target(n));
        }
      }
    }
  }
}
