/** A mark of the RIB that comes after the last session of a peer has been cleaned up. A replaced
    session may still be inside an update when its successor has ended; if the RIB then sees an
    active route under the id again, it leaves a bare mark in the register. */
module SessionLateMark {
  import opened Ingress
  import opened Wrappers
  import opened SessionModel
  import opened SessionPaths
  import opened SessionReuse

  const OLD := Session(0, Established, Some(0))
  const LOST := map[0 := Fate(1, 0, 0)]
  const AFTER := map[0 := Fate(1, 0, 0), 1 := Fate(0, 1, 1)]

  /** The first session and the second connection, once it has drawn its session id. */
  function Two(first: Task, second: Task, aborted: set<TaskId>, live: map<Peer, LiveEntry>,
               reg: map<IngressId, IngressInfo>, stats: map<IngressId, StatsRef>, fates: map<TaskId, Fate>): State
  {
    State(map[0 := first, 1 := second], aborted, live, None, reg, stats, 2, 3, 1, map[1 := PEER, 2 := PEER], fates)
  }

  function SecondNumbered(): State {
    Two(OLD, Task(PEER, Some(1), 2, Numbered, None), {}, IN, ONE, map[1 := 0], map[])
  }

  function SecondReady(): State {
    Two(OLD, Session(1, Ready, None), {0}, map[], ONE, map[1 := 0], LOST)
  }

  function SecondIn(): State {
    Two(OLD, Session(1, Inserted, None), {0}, map[PEER := LiveEntry(1, 1, 1)], ONE, map[1 := 0], LOST)
  }

  function SecondUp(): State {
    Two(OLD, Session(1, Established, Some(0)), {0}, map[PEER := LiveEntry(1, 1, 1)], ONE, map[1 := 0], LOST)
  }

  /** The second session has cleaned up; the first is still inside its update. */
  function SecondDone(): State {
    Two(OLD, Session(1, Done, Some(0)), {0}, map[], map[], map[], AFTER)
  }

  /** Publishing the same again changes nothing. */
  lemma SameDetails()
    ensures Updated(ONE, 1, Details(PEER, 0)) == ONE
  {
  }

  /** All is done, and the id is marked. */
  function Marked(): State {
    Two(OLD.(phase := Done), Session(1, Done, Some(0)), {0}, map[], map[1 := UP], map[], AFTER)
  }

  lemma SecondConnects() returns (run: seq<State>, steps: seq<(TaskId, Action)>)
    ensures Path(run, steps) && run[0] == FirstSession() && run[|steps|] == SecondNumbered() && InTurn(run, steps)
  {
    var s1 := Accept(FirstSession(), 1, PEER);
    var s2 := Number(s1, 1);
    run := [FirstSession(), s1, s2];
    steps := [(1, AAccept(PEER)), (1, ANumber)];
  }

  lemma SecondTakesOver() returns (run: seq<State>, steps: seq<(TaskId, Action)>)
    ensures Path(run, steps) && run[0] == SecondNumbered() && run[|steps|] == SecondReady() && InTurn(run, steps)
  {
    var s1 := Find(SecondNumbered(), 1, Some(1));
    var s2 := Take(s1, 1);
    var s3 := Abort(s2, 1);
    var s4 := Purge(s3, 1);
    run := [SecondNumbered(), s1, s2, s3, s4];
    steps := [(1, AFind(Some(1))), (1, ATake), (1, AAbort), (1, APurge)];
  }

  lemma SecondInserts() returns (run: seq<State>, steps: seq<(TaskId, Action)>)
    ensures Path(run, steps) && run[0] == SecondReady() && run[|steps|] == SecondIn() && InTurn(run, steps)
  {
    var s1 := Insert(SecondReady(), 1);
    run := [SecondReady(), s1];
    steps := [(1, AInsert)];
  }

  lemma SecondEnters() returns (run: seq<State>, steps: seq<(TaskId, Action)>)
    ensures Path(run, steps) && run[0] == SecondIn() && run[|steps|] == SecondUp() && InTurn(run, steps)
  {
    SameDetails();
    var s1 := Publish(SecondIn(), 1, 0);
    var s2 := LookupStats(s1, 1);
    run := [SecondIn(), s1, s2];
    steps := [(1, APublish(0)), (1, ALookupStats)];
  }

  lemma SecondEnds() returns (run: seq<State>, steps: seq<(TaskId, Action)>)
    ensures Path(run, steps) && run[0] == SecondUp() && run[|steps|] == SecondDone() && InTurn(run, steps)
  {
    run, steps := CleansUp(SecondUp(), 1);
  }

  lemma RibIsLate() returns (run: seq<State>, steps: seq<(TaskId, Action)>)
    ensures Path(run, steps) && run[0] == SecondDone() && run[|steps|] == Marked() && InTurn(run, steps)
  {
    var s1 := RibMarked(SecondDone(), 1);
    var s2 := Kill(s1, 0);
    run := [SecondDone(), s1, s2];
    steps := [(0, ARibMarks(1)), (0, AKill)];
  }

  /** The second session has come and gone. */
  lemma SecondComesAndGoes() returns (run: seq<State>, steps: seq<(TaskId, Action)>)
    ensures Path(run, steps) && run[0] == Nothing() && run[|steps|] == SecondDone() && InTurn(run, steps)
  {
    run, steps := FirstComesUp();
    var run', steps' := SecondConnects();
    run, steps := Linked(run, steps, run', steps');
    run', steps' := SecondTakesOver();
    run, steps := Linked(run, steps, run', steps');
    run', steps' := SecondInserts();
    run, steps := Linked(run, steps, run', steps');
    run', steps' := SecondEnters();
    run, steps := Linked(run, steps, run', steps');
    run', steps' := SecondEnds();
    run, steps := Linked(run, steps, run', steps');
  }

  /** Every session has ended, every cleanup has finished, no two negotiations overlapped, and an
      entry with nothing but a state is left under the peer's id. */
  lemma LateMarkStays() returns (run: seq<State>, tasks: seq<TaskId>, actions: seq<Action>)
    ensures SerialRun(run, tasks, actions)
    ensures var end := run[|run| - 1];
            && (forall t :: t in end.tasks ==> end.tasks[t].phase.Done?)
            && 1 in end.home && end.reg == map[1 := UP]
  {
    var steps;
    run, steps := SecondComesAndGoes();
    var run', steps' := RibIsLate();
    run, steps := Linked(run, steps, run', steps');
    tasks := seq(|steps|, k requires 0 <= k < |steps| => steps[k].0);
    actions := seq(|steps|, k requires 0 <= k < |steps| => steps[k].1);
  }
}
