/** What harm to a dead slot comes to: if everybody just finishes what there is to do, in an unlucky
    order, the slot is in the map of senders when nothing is under way any more. */
module GateStranding {
  import opened Wrappers
  import opened GateClones
  import opened GateConvergence

  lemma Joined(run: seq<State>, actions: seq<Action>, run': seq<State>, actions': seq<Action>)
    returns (r: seq<State>, acts: seq<Action>)
    requires Path(run, actions) && Path(run', actions') && run[|actions|] == run'[0]
    ensures Path(r, acts) && r[0] == run[0] && r[|acts|] == run'[|actions'|]
    ensures r == run + run'[1..] && acts == actions + actions'
  {
    r, acts := run + run'[1..], actions + actions';
    forall k | 0 <= k < |acts| ensures Step(r[k], acts[k], r[k + 1]) {
      if k >= |actions| {
        assert Step(run'[k - |actions|], actions'[k - |actions|], run'[k - |actions| + 1]);
      }
    }
  }

  lemma First(s: State, a: Action, s': State, run': seq<State>, actions': seq<Action>)
    returns (r: seq<State>, acts: seq<Action>)
    requires Step(s, a, s') && Path(run', actions') && run'[0] == s'
    ensures Path(r, acts) && r[0] == s && r[|acts|] == run'[|actions'|]
  {
    assert Path([s, s'], [a]);
    r, acts := Joined([s, s'], [a], run', actions');
  }

  /** Whether the slot is in the map after a clone has worked off a queue with this last word about it. */
  predicate After(word: Option<Note>, before: bool) {
    if word.None? then before else word.value.FollowSubscribe?
  }

  /** One clone works off its queue. */
  lemma {:induction false} Drained(s: State, c: Clone, slot: Slot) returns (run: seq<State>, actions: seq<Action>)
    requires c in s.queues
    ensures Path(run, actions) && run[0] == s
    ensures var end := run[|actions|];
            && end.queues == s.queues[c := []] && end.phase == s.phase && end.live == s.live
            && (slot in end.updates <==> After(LastWord(s.queues, c, slot), slot in s.updates))
    decreases |s.queues[c]|
  {
    if s.queues[c] == [] {
      run, actions := [s], [];
      assert s.queues == s.queues[c := []];
    } else {
      var s1 := Processed(s, c);
      LastTail(s.queues[c], slot);
      run, actions := Drained(s1, c, slot);
      run, actions := First(s, Process(c), s1, run, actions);
    }
  }

  /** Several clones do. */
  lemma {:induction false} AllDrained(s: State, cs: set<Clone>, slot: Slot) returns (run: seq<State>, actions: seq<Action>)
    requires cs <= s.queues.Keys
    ensures Path(run, actions) && run[0] == s
    ensures var end := run[|actions|];
            && end.queues.Keys == s.queues.Keys && end.phase == s.phase && end.live == s.live
            && (forall c :: c in s.queues ==> end.queues[c] == if c in cs then [] else s.queues[c])
            && ((forall c :: c in cs ==> LastWord(s.queues, c, slot).None?) ==>
                  (slot in end.updates <==> slot in s.updates))
    decreases cs
  {
    if cs == {} {
      run, actions := [s], [];
    } else {
      var c :| c in cs;
      run, actions := Drained(s, c, slot);
      var s1 := run[|actions|];
      var run', actions' := AllDrained(s1, cs - {c}, slot);
      run, actions := Joined(run, actions, run', actions');
    }
  }

  lemma NotifiedWord(s: State, c: Clone, slot: Slot)
    requires RootPhase(s) && s.phase.Notifying? && c in s.phase.left && Dead(s, slot)
    ensures var s' := NotifiedOne(s, c);
            && s'.live == s.live && s'.updates == s.updates && s'.queues.Keys == s.queues.Keys && Dead(s', slot)
            && forall d :: && (LastWord(s'.queues, d, slot) == LastWord(s.queues, d, slot) || Promised(s.phase, d, slot))
                           && (Promised(s'.phase, d, slot) ==> Promised(s.phase, d, slot))
  {
    if HasRoom(s, c) {
      LastSnoc(s.queues[c], s.phase.note, slot);
    }
  }

  /** Nothing about the slot has changed but that clones may have been told to take it out as promised. */
  ghost predicate RoundOver(s: State, slot: Slot, end: State) {
    && end.phase.Idle? && end.live == s.live && end.queues.Keys == s.queues.Keys
    && (slot in end.updates <==> slot in s.updates)
    && forall c :: LastWord(end.queues, c, slot) == LastWord(s.queues, c, slot) || Promised(s.phase, c, slot)
  }

  lemma LastStep(s: State, slot: Slot) returns (run: seq<State>, actions: seq<Action>)
    requires Dead(s, slot) && (s.phase.Notifying? ==> s.phase.left == {})
    ensures Path(run, actions) && run[0] == s && RoundOver(s, slot, run[|actions|])
  {
    match s.phase
    case Idle => run, actions := [s], [];
    case Responding(_, _) =>
      assert LinkStep(s, Respond(false), Responded(s, false));
      run, actions := First(s, Respond(false), Responded(s, false), [Responded(s, false)], []);
    case Notifying(_, _, _) =>
      assert RootStep(s, NotifyAll, NotifiedAll(s));
      run, actions := First(s, NotifyAll, NotifiedAll(s), [NotifiedAll(s)], []);
  }

  /** The root finishes what it is at. */
  lemma {:induction false} RoundFinished(s: State, slot: Slot) returns (run: seq<State>, actions: seq<Action>)
    requires Core(s) && Dead(s, slot)
    ensures Path(run, actions) && run[0] == s && RoundOver(s, slot, run[|actions|])
    decreases if s.phase.Notifying? then |s.phase.left| else 0
  {
    if s.phase.Notifying? && s.phase.left != {} {
      var c :| c in s.phase.left;
      var s1 := NotifiedOne(s, c);
      NotifyOneCore(s, c);
      NotifiedWord(s, c, slot);
      run, actions := RoundFinished(s1, slot);
      assert RootStep(s, NotifyOne(c), s1);
      run, actions := First(s, NotifyOne(c), s1, run, actions);
    } else {
      run, actions := LastStep(s, slot);
    }
  }

  /** With the root idle: a clone that will put the slot back does so after all others. */
  lemma PutBackLast(s: State, c: Clone, slot: Slot) returns (run: seq<State>, actions: seq<Action>)
    requires s.phase.Idle? && LastWord(s.queues, c, slot).Some? && LastWord(s.queues, c, slot).value.FollowSubscribe?
    ensures Path(run, actions) && run[0] == s
    ensures Quiet(run[|actions|]) && run[|actions|].live == s.live && slot in run[|actions|].updates
  {
    run, actions := AllDrained(s, s.queues.Keys - {c}, slot);
    var run', actions' := Drained(run[|actions|], c, slot);
    run, actions := Joined(run, actions, run', actions');
  }

  /** A dead slot that is left to nobody may be delivered to when all is done. */
  lemma Strands(s: State, slot: Slot) returns (run: seq<State>, actions: seq<Action>)
    requires Core(s) && Dead(s, slot) && !Swept(s, slot)
    ensures Path(run, actions) && run[0] == s
    ensures Quiet(run[|actions|]) && slot in run[|actions|].updates && Dead(run[|actions|], slot)
  {
    run, actions := RoundFinished(s, slot);
    var s1 := run[|actions|];
    var run', actions';
    if forall c :: LastWord(s.queues, c, slot).Some? ==> Cleans(s, c, slot) {
      assert slot in s.updates && forall c :: !Cleans(s, c, slot);
      forall c | c in s1.queues ensures LastWord(s1.queues, c, slot).None? {
        assert !Cleans(s, c, slot);
      }
      run', actions' := AllDrained(s1, s1.queues.Keys, slot);
    } else {
      var c :| LastWord(s.queues, c, slot).Some? && !Cleans(s, c, slot);
      QueuedAbout(s, c, slot);
      run', actions' := PutBackLast(s1, c, slot);
    }
    run, actions := Joined(run, actions, run', actions');
  }

  /** Harm exactly: as long as none is done, the maps come out as `Convergence` says; and from the first
      step that does harm there is a way on, by finishing what is under way, to a state where nothing is
      under way and a slot that is nobody's is delivered to. */
  lemma HarmShows(run: seq<State>, actions: seq<Action>, k: nat) returns (slot: Slot, run': seq<State>, actions': seq<Action>)
    requires Run(run, actions) && k < |actions| && Harmless(run, actions, k) && Harms(run[k], actions[k])
    ensures Path(run', actions') && run'[0] == run[k + 1]
    ensures var end := run'[|actions'|]; Quiet(end) && slot in end.updates && slot !in end.live
  {
    RunSwept(run, actions, k);
    HarmExactly(run[k], actions[k], run[k + 1]);
    slot :| Dead(run[k + 1], slot) && !Swept(run[k + 1], slot);
    run', actions' := Strands(run[k + 1], slot);
  }

  // ---- Examples ----

  /** A link has subscribed and the one clone has been told but has not followed yet. */
  lemma OneFollower(suspended: bool) returns (run: seq<State>, actions: seq<Action>)
    ensures Run(run, actions) && |actions| == 6
    ensures run[6] == State(if suspended then map[] else map[0 := 7], if suspended then map[0 := 7] else map[], 1, 0, false,
                            Idle, map[0 := [FollowSubscribe(0, 7)]], {0}, map[0 := 7], if suspended then {0} else {}, {}, map[])
  {
    var sub := Subscription(7, suspended);
    actions := [MakeClone(0), AttachClone(0), Subscribe(sub), Respond(true), NotifyOne(0), NotifyAll];
    var s2 := Init().(queues := map[0 := []], senders := {0});
    var s3 := Subscribed(s2, sub);
    var s4 := Responded(s3, true);
    var s5 := NotifiedOne(s4, 0);
    assert s5.queues[0] == [FollowSubscribe(0, 7)];
    run := [Init(), Init().(queues := map[0 := []]), s2, s3, s4, s5, NotifiedAll(s5)];
  }

  /** An empty queue is not enough for a clone to leave: if it goes after it has put a slot back
      and before the root tells it to take it out, the slot stays. */
  lemma LeavingMidwayStrandsASlot() returns (run: seq<State>, actions: seq<Action>)
    ensures Run(run, actions) && |actions| == 11
    ensures actions[8] == Drop(0) && 0 in run[8].queues && run[8].queues[0] == []
    ensures Quiet(run[11]) && run[11].live == map[] && run[11].updates == map[0 := 7]
  {
    run, actions := OneFollower(false);
    var s7 := Unsubscribed(run[6], 0);
    var s8 := Processed(s7, 0);
    var s9 := s8.(queues := s8.queues - {0});
    var s10 := NotifiedOne(s9, 0);
    run := run + [s7, s8, s9, s10, NotifiedAll(s10)];
    actions := actions + [Unsubscribe(0), Process(0), Drop(0), NotifyOne(0), NotifyAll];
  }

  /** A Reconfigure empties the map of senders, but a clone that has not followed a subscription yet puts
      the slot of the old channel back. */
  lemma OldSlotComesBack() returns (run: seq<State>, actions: seq<Action>)
    ensures Run(run, actions) && |actions| == 11
    ensures actions[6] == Reconfigure && run[7].updates == map[]
    ensures Quiet(run[11]) && run[11].live == map[] && run[11].first == 1 && run[11].updates == map[0 := 7]
  {
    run, actions := OneFollower(false);
    var s7 := Reconfigured(run[6]);
    var s8 := NotifiedOne(s7, 0);
    assert s8.queues[0] == [FollowSubscribe(0, 7), Other];
    var s9 := NotifiedAll(s8);
    var s10 := Processed(s9, 0);
    run := run + [s7, s8, s9, s10, Processed(s10, 0)];
    actions := actions + [Reconfigure, NotifyOne(0), NotifyAll, Process(0), Process(0)];
  }

  /** A link that subscribes suspended is delivered to all the same once a clone has followed. */
  lemma CloneUndoesSuspension() returns (run: seq<State>, actions: seq<Action>)
    ensures Run(run, actions) && |actions| == 7
    ensures Quiet(run[7]) && run[7].live == run[7].updates == run[7].suspended == map[0 := 7] && run[7].paused == {0}
  {
    run, actions := OneFollower(true);
    run, actions := run + [Processed(run[6], 0)], actions + [Process(0)];
  }
}
