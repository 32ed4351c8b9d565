/** Why the negotiations of one peer must not overlap: removing the old session and inserting
    the new one are separate lock scopes, so two connections that negotiate at once both find
    no entry and both register. The one that is overwritten fails its session-id check and
    never releases its id. */
module SessionOverlap {
  import opened Ingress
  import opened Wrappers
  import opened SessionModel
  import opened SessionPaths

  function Started(sid: SessionId, phase: Phase, handle: Option<StatsRef>): Task {
    Task(PEER, Some(sid), sid + 1, phase, handle)
  }

  const HOME := map[1 := PEER, 2 := PEER]

  function BothNumbered(): State {
    State(map[0 := Started(0, Numbered, None), 1 := Started(1, Numbered, None)],
          {}, map[], None, map[], map[], 2, 3, 0, HOME, map[])
  }

  function BothFound(): State {
    State(map[0 := Started(0, Found, None), 1 := Started(1, Found, None)],
          {}, map[], None, map[], map[], 2, 3, 0, HOME, map[])
  }

  /** Both connections have searched the register and cleared the live sessions. */
  function BothReady(): State {
    State(map[0 := Started(0, Ready, None), 1 := Started(1, Ready, None)],
          {}, map[], None, map[], map[], 2, 3, 0, HOME, map[])
  }

  const BOTH := map[1 := Details(PEER, 0), 2 := Details(PEER, 0)]
  const LAST := map[PEER := LiveEntry(1, 1, 2)]
  const LOST := map[0 := Fate(1, 0, 0)]

  /** Both have registered: the peer has two entries. The first session has been overwritten. */
  function BothIn(): State {
    State(map[0 := Started(0, Registered, None), 1 := Started(1, Registered, None)],
          {}, LAST, None, BOTH, map[], 2, 3, 0, HOME, LOST)
  }

  /** The first session has ended and cleaned up. */
  function FirstDone(): State {
    State(map[0 := Started(0, Done, Some(0)), 1 := Started(1, Registered, None)],
          {}, LAST, None, BOTH, map[1 := 0], 2, 3, 1, HOME, LOST)
  }

  lemma BothNumber() returns (run: seq<State>, steps: seq<(TaskId, Action)>)
    ensures Path(run, steps) && Init(run[0]) && run[|steps|] == BothNumbered()
  {
    var s0 := State(map[], {}, map[], None, map[], map[], 0, 1, 0, map[], map[]);
    var s1 := Accept(s0, 0, PEER);
    var s2 := Accept(s1, 1, PEER);
    var s3 := Number(s2, 0);
    var s4 := Number(s3, 1);
    run := [s0, s1, s2, s3, s4];
    steps := [(0, AAccept(PEER)), (1, AAccept(PEER)), (0, ANumber), (1, ANumber)];
  }

  lemma BothFind() returns (run: seq<State>, steps: seq<(TaskId, Action)>)
    ensures Path(run, steps) && run[0] == BothNumbered() && run[|steps|] == BothFound()
  {
    var s1 := Find(BothNumbered(), 0, None);
    var s2 := Find(s1, 1, None);
    run := [BothNumbered(), s1, s2];
    steps := [(0, AFind(None)), (1, AFind(None))];
  }

  lemma BothOpen() returns (run: seq<State>, steps: seq<(TaskId, Action)>)
    ensures Path(run, steps) && run[0] == BothFound() && run[|steps|] == BothReady()
  {
    var s1 := Take(BothFound(), 0);
    var s2 := Take(s1, 1);
    var s3 := Abort(s2, 0);
    var s4 := Abort(s3, 1);
    run := [BothFound(), s1, s2, s3, s4];
    steps := [(0, ATake), (1, ATake), (0, AAbort), (1, AAbort)];
  }

  lemma BothEnter() returns (run: seq<State>, steps: seq<(TaskId, Action)>)
    ensures Path(run, steps) && run[0] == BothReady() && run[|steps|] == BothIn()
  {
    var s0 := BothReady();
    var s1 := Insert(s0, 0);
    var s2 := Insert(s1, 1);
    var s3 := Publish(s2, 0, 0);
    var s4 := Publish(s3, 1, 0);
    run := [s0, s1, s2, s3, s4];
    steps := [(0, AInsert), (1, AInsert), (0, APublish(0)), (1, APublish(0))];
  }

  /** The first session has its stats and does not know yet that it has been overwritten. */
  function FirstUp(): State {
    State(map[0 := Started(0, Established, Some(0)), 1 := Started(1, Registered, None)],
          {}, LAST, None, BOTH, map[1 := 0], 2, 3, 1, HOME, LOST)
  }

  lemma FirstGetsStats() returns (run: seq<State>, steps: seq<(TaskId, Action)>)
    ensures Path(run, steps) && run[0] == BothIn() && run[|steps|] == FirstUp()
  {
    var s1 := LookupStats(BothIn(), 0);
    run := [BothIn(), s1, CreateStats(s1, 0)];
    steps := [(0, ALookupStats), (0, ACreateStats)];
  }

  lemma FirstLeaves() returns (s: State)
    ensures Step(FirstUp(), 0, ALeave, s) && s == FirstUp().(tasks := s.tasks)
    ensures s.tasks == map[0 := Started(0, Leaving, Some(0)), 1 := Started(1, Registered, None)]
  {
    s := Leave(FirstUp(), 0);
    assert CleanStep(FirstUp(), 0, ALeave, s);
  }

  lemma FirstEnds() returns (run: seq<State>, steps: seq<(TaskId, Action)>)
    ensures Path(run, steps) && run[0] == FirstUp() && run[|steps|] == FirstDone()
  {
    var s1 := FirstLeaves();
    assert !Owns(s1, 0);
    assert CleanStep(s1, 0, ACheck, FirstDone());
    run := [FirstUp(), s1, FirstDone()];
    steps := [(0, ALeave), (0, ACheck)];
  }

  /** The peer's first id is registered and has stats, and no task that used it is left. */
  ghost predicate Leaked(s: State) {
    && 1 in s.reg && IsBgpOf(s.reg[1], PEER)
    && 1 in s.stats
    && forall t :: t in s.tasks && s.tasks[t].id == 1 ==> s.tasks[t].phase.Done?
  }

  /** Two entries for one peer, and one of them left for good. */
  lemma OverlapLeaks() returns (run: seq<State>, tasks: seq<TaskId>, actions: seq<Action>)
    ensures Run(run, tasks, actions)
    ensures BothIn() in run && IsBgpOf(BothIn().reg[1], PEER) && IsBgpOf(BothIn().reg[2], PEER)
    ensures Leaked(run[|run| - 1])
  {
    var steps;
    run, steps := BothNumber();
    var run', steps' := BothFind();
    run, steps := Joined(run, steps, run', steps');
    run', steps' := BothOpen();
    run, steps := Joined(run, steps, run', steps');
    run', steps' := BothEnter();
    run, steps := Joined(run, steps, run', steps');
    assert run[|steps|] == BothIn();
    run', steps' := FirstGetsStats();
    run, steps := Joined(run, steps, run', steps');
    run', steps' := FirstEnds();
    run, steps := Joined(run, steps, run', steps');
    tasks := seq(|steps|, k requires 0 <= k < |steps| => steps[k].0);
    actions := seq(|steps|, k requires 0 <= k < |steps| => steps[k].1);
  }
}

/** Overlapping negotiations do harm even when both connections reuse the same id, so that no entry
    of the live sessions is ever displaced by one with another id: the session that is overwritten
    may register itself after the other has cleaned up. */
module SessionSameId {
  import opened Ingress
  import opened Wrappers
  import opened SessionModel
  import opened SessionPaths

  const OLD := Session(0, Established, Some(0))
  const LAST := map[PEER := LiveEntry(2, 2, 1)]
  const LOST := map[0 := Fate(1, 0, 0)]
  const BOTH_LOST := map[0 := Fate(1, 0, 0), 1 := Fate(1, 0, 0)]
  const AFTER := map[0 := Fate(1, 0, 0), 1 := Fate(1, 0, 0), 2 := Fate(0, 1, 1)]
  const HOME := map[1 := PEER, 2 := PEER, 3 := PEER]

  /** The first session and two connections that have both drawn their session ids. */
  function Three(a: Task, b: Task, aborted: set<TaskId>, live: map<Peer, LiveEntry>, reg: map<IngressId, IngressInfo>,
                 stats: map<IngressId, StatsRef>, fates: map<TaskId, Fate>): State
  {
    State(map[0 := OLD, 1 := a, 2 := b], aborted, live, None, reg, stats, 3, 4, 1, HOME, fates)
  }

  function BothNumbered(): State {
    Three(Task(PEER, Some(1), 2, Numbered, None), Task(PEER, Some(2), 3, Numbered, None), {}, IN, ONE, map[1 := 0], map[])
  }

  function BothCleared(): State {
    Three(Session(1, Cleared(Some(LiveEntry(0, 0, 1))), None), Session(2, Cleared(None), None), {}, map[], ONE, map[1 := 0], LOST)
  }

  function BothReady(): State {
    Three(Session(1, Ready, None), Session(2, Ready, None), {0}, map[], ONE, map[1 := 0], LOST)
  }

  /** The second has overwritten the entry of the first. */
  function BothIn(): State {
    Three(Session(1, Inserted, None), Session(2, Inserted, None), {0}, LAST, ONE, map[1 := 0], BOTH_LOST)
  }

  function SecondUp(): State {
    Three(Session(1, Inserted, None), Session(2, Established, Some(0)), {0}, LAST, ONE, map[1 := 0], BOTH_LOST)
  }

  /** The second has cleaned up; the first has still to register. */
  function SecondDone(): State {
    Three(Session(1, Inserted, None), Session(2, Done, Some(0)), {0}, map[], map[], map[], AFTER)
  }

  /** After the overwritten session has made a stats entry of its own. */
  function Last(first: Task, a: Task): State {
    State(map[0 := first, 1 := a, 2 := Session(2, Done, Some(0))], {0}, map[], None, ONE, map[1 := 1], 3, 4, 2, HOME, AFTER)
  }

  function FirstUp(): State {
    Last(OLD, Session(1, Established, Some(1)))
  }

  function FirstLeft(): State {
    Last(OLD.(phase := Done), Session(1, Leaving, Some(1)))
  }

  function AllDone(): State {
    Last(OLD.(phase := Done), Session(1, Done, Some(1)))
  }

  lemma BothConnect() returns (run: seq<State>, steps: seq<(TaskId, Action)>)
    ensures Path(run, steps) && run[0] == FirstSession() && run[|steps|] == BothNumbered() && Harmless(run, steps)
  {
    var s1 := Accept(FirstSession(), 1, PEER);
    var s2 := Accept(s1, 2, PEER);
    var s3 := Number(s2, 1);
    var s4 := Number(s3, 2);
    run := [FirstSession(), s1, s2, s3, s4];
    steps := [(1, AAccept(PEER)), (2, AAccept(PEER)), (1, ANumber), (2, ANumber)];
  }

  lemma BothFind() returns (run: seq<State>, steps: seq<(TaskId, Action)>)
    ensures Path(run, steps) && run[0] == BothNumbered() && run[|steps|] == BothCleared() && Harmless(run, steps)
  {
    var s1 := Find(BothNumbered(), 1, Some(1));
    var s2 := Find(s1, 2, Some(1));
    var s3 := Take(s2, 1);
    var s4 := Take(s3, 2);
    run := [BothNumbered(), s1, s2, s3, s4];
    steps := [(1, AFind(Some(1))), (2, AFind(Some(1))), (1, ATake), (2, ATake)];
  }

  lemma BothClear() returns (run: seq<State>, steps: seq<(TaskId, Action)>)
    ensures Path(run, steps) && run[0] == BothCleared() && run[|steps|] == BothReady() && Harmless(run, steps)
  {
    var s1 := Abort(BothCleared(), 1);
    var s2 := Abort(s1, 2);
    var s3 := Purge(s2, 1);
    run := [BothCleared(), s1, s2, s3];
    steps := [(1, AAbort), (2, AAbort), (1, APurge)];
  }

  lemma BothInsert() returns (run: seq<State>, steps: seq<(TaskId, Action)>)
    ensures Path(run, steps) && run[0] == BothReady() && run[|steps|] == BothIn() && Harmless(run, steps)
  {
    var s1 := Insert(BothReady(), 1);
    var s2 := Insert(s1, 2);
    run := [BothReady(), s1, s2];
    steps := [(1, AInsert), (2, AInsert)];
  }

  lemma SecondEnters() returns (run: seq<State>, steps: seq<(TaskId, Action)>)
    ensures Path(run, steps) && run[0] == BothIn() && run[|steps|] == SecondUp() && Harmless(run, steps)
  {
    var s1 := Publish(BothIn(), 2, 0);
    var s2 := LookupStats(s1, 2);
    run := [BothIn(), s1, s2];
    steps := [(2, APublish(0)), (2, ALookupStats)];
  }

  lemma SecondEnds() returns (run: seq<State>, steps: seq<(TaskId, Action)>)
    ensures Path(run, steps) && run[0] == SecondUp() && run[|steps|] == SecondDone() && Harmless(run, steps)
  {
    run, steps := CleansUp(SecondUp(), 2);
  }

  lemma FirstRegisters() returns (run: seq<State>, steps: seq<(TaskId, Action)>)
    ensures Path(run, steps) && run[0] == SecondDone() && run[|steps|] == FirstUp() && Harmless(run, steps)
  {
    var s1 := Publish(SecondDone(), 1, 0);
    var s2 := LookupStats(s1, 1);
    var s3 := CreateStats(s2, 1);
    run := [SecondDone(), s1, s2, s3];
    steps := [(1, APublish(0)), (1, ALookupStats), (1, ACreateStats)];
  }

  lemma FirstLeaves() returns (run: seq<State>, steps: seq<(TaskId, Action)>)
    ensures Path(run, steps) && run[0] == FirstUp() && run[|steps|] == FirstLeft() && Harmless(run, steps)
  {
    var s1 := Leave(FirstUp(), 1);
    var s2 := Kill(s1, 0);
    run := [FirstUp(), s1, s2];
    steps := [(1, ALeave), (0, AKill)];
  }

  lemma AllEnd() returns (run: seq<State>, steps: seq<(TaskId, Action)>)
    ensures Path(run, steps) && run[0] == FirstLeft() && run[|steps|] == AllDone() && Harmless(run, steps)
  {
    var s1 := Check(FirstLeft(), 1);
    run := [FirstLeft(), s1];
    steps := [(1, ACheck)];
  }

  lemma FirstEndsLate() returns (run: seq<State>, steps: seq<(TaskId, Action)>)
    ensures Path(run, steps) && run[0] == SecondDone() && run[|steps|] == AllDone() && Harmless(run, steps)
  {
    run, steps := FirstRegisters();
    var run', steps' := FirstLeaves();
    run, steps := Linked(run, steps, run', steps');
    run', steps' := AllEnd();
    run, steps := Linked(run, steps, run', steps');
  }

  lemma SecondOverwrites() returns (run: seq<State>, steps: seq<(TaskId, Action)>)
    ensures Path(run, steps) && run[0] == Nothing() && run[|steps|] == BothIn() && Harmless(run, steps)
  {
    run, steps := FirstComesUp();
    var run', steps' := BothConnect();
    run, steps := Linked(run, steps, run', steps');
    run', steps' := BothFind();
    run, steps := Linked(run, steps, run', steps');
    run', steps' := BothClear();
    run, steps := Linked(run, steps, run', steps');
    run', steps' := BothInsert();
    run, steps := Linked(run, steps, run', steps');
  }

  /** All sessions have ended, none ever displaced an entry with another id, and a register entry and
      a stats entry are left. */
  lemma SameIdOverlapLeaks() returns (run: seq<State>, steps: seq<(TaskId, Action)>)
    ensures Path(run, steps) && Init(run[0]) && Harmless(run, steps)
    ensures var end := run[|run| - 1];
            && (forall t :: t in end.tasks ==> end.tasks[t].phase.Done?)
            && 1 in end.reg && IsBgpOf(end.reg[1], PEER) && 1 in end.stats
  {
    run, steps := SecondOverwrites();
    var run', steps' := SecondEnters();
    run, steps := Linked(run, steps, run', steps');
    run', steps' := SecondEnds();
    run, steps := Linked(run, steps, run', steps');
    run', steps' := FirstEndsLate();
    run, steps := Linked(run, steps, run', steps');
  }
}
