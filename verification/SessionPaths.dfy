/** Concrete runs, put together from short stretches. */
module SessionPaths {
  import opened Ingress
  import opened Wrappers
  import opened SessionModel
  import opened SessionReuse

  const PEER := Peer(1, 65000)

  ghost predicate Path(run: seq<State>, steps: seq<(TaskId, Action)>) {
    && |run| == |steps| + 1
    && forall k :: 0 <= k < |steps| ==> Step(run[k], steps[k].0, steps[k].1, run[k + 1])
  }

  /** No negotiation begins while the peer has another under way. */
  ghost predicate InTurn(run: seq<State>, steps: seq<(TaskId, Action)>)
    requires |run| == |steps| + 1
  {
    forall k :: 0 <= k < |steps| ==> TakesTurn(run[k], steps[k].0, steps[k].1)
  }

  ghost predicate TakesTurn(s: State, t: TaskId, a: Action) {
    a.ANumber? ==> Alone(s, t)
  }

  /** No entry is removed or overwritten by a session with a different id. */
  ghost predicate Harmless(run: seq<State>, steps: seq<(TaskId, Action)>)
    requires |run| == |steps| + 1
  {
    forall k :: 0 <= k < |steps| ==> SparesOthers(run[k], steps[k].0, steps[k].1)
  }

  predicate SparesOthers(s: State, t: TaskId, a: Action) {
    (a.ATake? || a.AInsert?) && t in s.tasks && s.tasks[t].peer in s.live ==>
      s.live[s.tasks[t].peer].id == s.tasks[t].id
  }

  lemma Joined(run: seq<State>, steps: seq<(TaskId, Action)>, run': seq<State>, steps': seq<(TaskId, Action)>)
    returns (r: seq<State>, st: seq<(TaskId, Action)>)
    requires Path(run, steps) && Path(run', steps') && run[|steps|] == run'[0]
    ensures Path(r, st) && r[0] == run[0] && r[|st|] == run'[|steps'|]
    ensures r == run + run'[1..] && st == steps + steps'
    ensures forall s :: s in run ==> s in r
  {
    r, st := run + run'[1..], steps + steps';
    forall k | 0 <= k < |st| ensures Step(r[k], st[k].0, st[k].1, r[k + 1]) {
      if k >= |steps| {
        assert Step(run'[k - |steps|], steps'[k - |steps|].0, steps'[k - |steps|].1, run'[k - |steps| + 1]);
      }
    }
  }

  lemma Linked(run: seq<State>, steps: seq<(TaskId, Action)>, run': seq<State>, steps': seq<(TaskId, Action)>)
    returns (r: seq<State>, st: seq<(TaskId, Action)>)
    requires Path(run, steps) && Path(run', steps') && run[|steps|] == run'[0]
    ensures Path(r, st) && r[0] == run[0] && r[|st|] == run'[|steps'|]
    ensures InTurn(run, steps) && InTurn(run', steps') ==> InTurn(r, st)
    ensures Harmless(run, steps) && Harmless(run', steps') ==> Harmless(r, st)
  {
    r, st := Joined(run, steps, run', steps');
    forall k | |steps| <= k < |st| ensures r[k] == run'[k - |steps|] && st[k] == steps'[k - |steps|] {
    }
  }

  // ---- How a session ends that has not been replaced ----

  /** It has given up its entry and has the lock. */
  function GivenUp(s: State, t: TaskId): State
    requires t in s.tasks
  {
    var fate := FateOf(s.fates, t);
    s.(tasks := Moved(s.tasks, t, Retiring),
       live := s.live - {s.tasks[t].peer},
       lock := Some(t),
       fates := s.fates[t := fate.(retired := fate.retired + 1)])
  }

  /** It has told the others and has the lock again. */
  function Withdrawn(s: State, t: TaskId): State
    requires t in s.tasks
  {
    var fate := FateOf(s.fates, t);
    s.(tasks := Moved(s.tasks, t, Reclaiming),
       reg := Updated(s.reg, s.tasks[t].id, GONE),
       fates := s.fates[t := fate.(withdrew := fate.withdrew + 1)])
  }

  /** It has released its id. */
  function Released(s: State, t: TaskId): State
    requires t in s.tasks
  {
    s.(tasks := Moved(s.tasks, t, Done),
       reg := s.reg - {s.tasks[t].id},
       stats := s.stats - {s.tasks[t].id},
       lock := None)
  }

  lemma GivesUp(s: State, t: TaskId) returns (run: seq<State>, steps: seq<(TaskId, Action)>)
    requires At(s, t, Established) && Owns(s, t) && s.lock == None
    ensures Path(run, steps) && run[0] == s && run[|steps|] == GivenUp(s, t)
    ensures InTurn(run, steps) && Harmless(run, steps)
  {
    run, steps := [s, Leave(s, t), Check(Leave(s, t), t)], [(t, ALeave), (t, ACheck)];
  }

  lemma Withdraws(s: State, t: TaskId) returns (run: seq<State>, steps: seq<(TaskId, Action)>)
    requires At(s, t, Retiring) && !InUse(s, s.tasks[t].id) && s.lock == Some(t)
    ensures Path(run, steps) && run[0] == s && run[|steps|] == Withdrawn(s, t)
    ensures InTurn(run, steps) && Harmless(run, steps)
  {
    var s1 := Mark(s, t);
    assert s1.live == s.live && !InUse(s1, s.tasks[t].id);
    run, steps := [s, s1, Recheck(s1, t)], [(t, AMark), (t, ARecheck)];
  }

  lemma Releases(s: State, t: TaskId) returns (run: seq<State>, steps: seq<(TaskId, Action)>)
    requires At(s, t, Reclaiming)
    ensures Path(run, steps) && run[0] == s && run[|steps|] == Released(s, t)
    ensures InTurn(run, steps) && Harmless(run, steps)
  {
    run, steps := [s, DropRegister(s, t), DropStats(DropRegister(s, t), t)], [(t, ADropRegister), (t, ADropStats)];
  }

  function CleanedUp(s: State, t: TaskId): State
    requires t in s.tasks
  {
    var fate := FateOf(s.fates, t);
    s.(tasks := Moved(s.tasks, t, Done),
       live := s.live - {s.tasks[t].peer},
       reg := s.reg - {s.tasks[t].id},
       stats := s.stats - {s.tasks[t].id},
       fates := s.fates[t := Fate(fate.lost, fate.retired + 1, fate.withdrew + 1)])
  }

  lemma CleanedUpBySteps(s: State, t: TaskId)
    requires t in s.tasks && s.lock == None
    ensures Released(Withdrawn(GivenUp(s, t), t), t) == CleanedUp(s, t)
  {
  }

  /** The cleanup from its begin to its end. */
  lemma CleansUp(s: State, t: TaskId) returns (run: seq<State>, steps: seq<(TaskId, Action)>)
    requires At(s, t, Established) && Owns(s, t) && s.lock == None
    requires forall p :: p in s.live && s.live[p].id == s.tasks[t].id ==> p == s.tasks[t].peer
    ensures Path(run, steps) && run[0] == s && run[|steps|] == CleanedUp(s, t)
    ensures InTurn(run, steps) && Harmless(run, steps)
  {
    CleanedUpBySteps(s, t);
    run, steps := GivesUp(s, t);
    var run', steps' := Withdraws(GivenUp(s, t), t);
    run, steps := Linked(run, steps, run', steps');
    run', steps' := Releases(Withdrawn(GivenUp(s, t), t), t);
    run, steps := Linked(run, steps, run', steps');
  }

  // ---- The first session of a peer ----

  /** A connection of the peer that uses the id 1. */
  function Session(sid: SessionId, phase: Phase, handle: Option<StatsRef>): Task {
    Task(PEER, Some(sid), 1, phase, handle)
  }

  const ONE := map[1 := Details(PEER, 0)]
  const IN := map[PEER := LiveEntry(0, 0, 1)]

  function Nothing(): State {
    State(map[], {}, map[], None, map[], map[], 0, 1, 0, map[], map[])
  }

  /** The first connection of the peer has found no session to replace. */
  function FirstReady(): State {
    State(map[0 := Session(0, Ready, None)], {}, map[], None, map[], map[], 1, 2, 0, map[1 := PEER], map[])
  }

  function FirstRegistered(): State {
    State(map[0 := Session(0, Registered, None)], {}, IN, None, ONE, map[], 1, 2, 0, map[1 := PEER], map[])
  }

  /** One session of the peer is up. */
  function FirstSession(): State {
    State(map[0 := Session(0, Established, Some(0))], {}, IN, None, ONE, map[1 := 0], 1, 2, 1, map[1 := PEER], map[])
  }

  lemma FirstOpens() returns (run: seq<State>, steps: seq<(TaskId, Action)>)
    ensures Path(run, steps) && run[0] == Nothing() && run[|steps|] == FirstReady()
    ensures InTurn(run, steps) && Harmless(run, steps)
  {
    var s1 := Accept(Nothing(), 0, PEER);
    var s2 := Number(s1, 0);
    var s3 := Find(s2, 0, None);
    var s4 := Take(s3, 0);
    var s5 := Abort(s4, 0);
    run := [Nothing(), s1, s2, s3, s4, s5];
    steps := [(0, AAccept(PEER)), (0, ANumber), (0, AFind(None)), (0, ATake), (0, AAbort)];
  }

  lemma FirstRegisters() returns (run: seq<State>, steps: seq<(TaskId, Action)>)
    ensures Path(run, steps) && run[0] == FirstReady() && run[|steps|] == FirstRegistered()
    ensures InTurn(run, steps) && Harmless(run, steps)
  {
    var s1 := Insert(FirstReady(), 0);
    var s2 := Publish(s1, 0, 0);
    run := [FirstReady(), s1, s2];
    steps := [(0, AInsert), (0, APublish(0))];
  }

  lemma FirstCounts() returns (run: seq<State>, steps: seq<(TaskId, Action)>)
    ensures Path(run, steps) && run[0] == FirstRegistered() && run[|steps|] == FirstSession()
    ensures InTurn(run, steps) && Harmless(run, steps)
  {
    var s1 := LookupStats(FirstRegistered(), 0);
    var s2 := CreateStats(s1, 0);
    run := [FirstRegistered(), s1, s2];
    steps := [(0, ALookupStats), (0, ACreateStats)];
  }

  lemma FirstComesUp() returns (run: seq<State>, steps: seq<(TaskId, Action)>)
    ensures Path(run, steps) && run[0] == Nothing() && run[|steps|] == FirstSession()
    ensures InTurn(run, steps) && Harmless(run, steps)
  {
    run, steps := FirstOpens();
    var run', steps' := FirstRegisters();
    run, steps := Linked(run, steps, run', steps');
    run', steps' := FirstCounts();
    run, steps := Linked(run, steps, run', steps');
  }
}
