/** What holds in every interleaving, overlapping negotiations of one peer included. */
module SessionOwnership {
  import opened Ingress
  import opened Wrappers
  import opened SessionModel

  predicate PreInsert(phase: Phase) {
    phase.Numbered? || phase.Found? || phase.Cleared? || phase.Purging? || phase.Ready?
  }

  predicate InLoop(phase: Phase) {
    phase.Inserted? || phase.Registered? || phase.StatsMissing? || phase.Established?
  }

  predicate HoldsLock(phase: Phase) {
    phase.Retiring? || phase.Reclaiming? || phase.Dropping?
  }

  /** What holds of one task: its entry, if it has one, is its own, and its fate fits its phase. */
  predicate Local(t: TaskId, task: Task, fate: Fate, aborted: bool, live: map<Peer, LiveEntry>) {
    var phase := task.phase;
    && (Mine(t, task, live) ==>
          && (InLoop(phase) || phase.Leaving?)
          && live[task.peer] == LiveEntry(Sid(task), t, task.id)
          && task.sid.Some?
          && fate == Fate(0, 0, 0))
    && (phase.Accepted? ==> task.sid.None?)
    && (PreInsert(phase) || InLoop(phase) || HoldsLock(phase) || phase.Withdrawing? ==> task.sid.Some?)
    && (phase.Accepted? || PreInsert(phase) ==> fate == Fate(0, 0, 0))
    && (phase.Retiring? ==> fate == Fate(0, 1, 0))
    && (phase.Withdrawing? || phase.Reclaiming? || phase.Dropping? ==> fate == Fate(0, 1, 1))
    && fate.lost + fate.retired <= 1
    && (!phase.Retiring? ==> fate.withdrew == fate.retired)
    && (aborted ==> fate.lost == 1)
  }

  predicate Mine(t: TaskId, task: Task, live: map<Peer, LiveEntry>) {
    task.peer in live && live[task.peer].task == t
  }

  ghost predicate Locals(tasks: map<TaskId, Task>, fates: map<TaskId, Fate>, aborted: set<TaskId>,
                         live: map<Peer, LiveEntry>)
  {
    && (forall t :: t in tasks ==> Local(t, tasks[t], FateOf(fates, t), t in aborted, live))
    && (forall p :: p in live ==> live[p].task in tasks && tasks[live[p].task].peer == p)
    && (forall t :: t in tasks ==> Lost(tasks[t].phase, fates))
    && fates.Keys <= tasks.Keys
    && aborted <= tasks.Keys
  }

  ghost predicate Numbers(tasks: map<TaskId, Task>, nextSid: SessionId) {
    && (forall t :: t in tasks && tasks[t].sid.Some? ==> tasks[t].sid.value < nextSid)
    && (forall t, u | t in tasks && u in tasks && tasks[t].sid.Some? :: tasks[t].sid == tasks[u].sid ==> t == u)
  }

  /** Every id in use was drawn for a connection of the peer that uses it. */
  ghost predicate Homes(tasks: map<TaskId, Task>, home: map<IngressId, Peer>, nextId: IngressId) {
    && (forall i :: i in home ==> i < nextId)
    && (forall t :: t in tasks ==> tasks[t].id in home && home[tasks[t].id] == tasks[t].peer)
  }

  /** A Bgp entry of the register stands under an id of its own peer. */
  ghost predicate Registrations(reg: map<IngressId, IngressInfo>, home: map<IngressId, Peer>, nextId: IngressId) {
    forall i :: i in reg ==>
      i < nextId && (reg[i].ingressType == Some(Bgp) ==> i in home && IsBgpOf(reg[i], home[i]))
  }

  /** Whoever holds the lock is cleaning up an id that no live session has. */
  ghost predicate Locked(tasks: map<TaskId, Task>, live: map<Peer, LiveEntry>, lock: Option<TaskId>) {
    && (forall t :: t in tasks ==> (HoldsLock(tasks[t].phase) <==> lock == Some(t)))
    && (lock.Some? ==> lock.value in tasks && Unused(live, tasks[lock.value].id))
  }

  predicate Unused(live: map<Peer, LiveEntry>, i: IngressId) {
    forall p :: p in live ==> live[p].id != i
  }

  ghost predicate Inv(s: State) {
    && Locals(s.tasks, s.fates, s.aborted, s.live)
    && Numbers(s.tasks, s.nextSid)
    && Homes(s.tasks, s.home, s.nextId)
    && Registrations(s.reg, s.home, s.nextId)
    && Locked(s.tasks, s.live, s.lock)
  }

  // ---- One task changes, the live sessions do not ----

  /** An entry that a task holds to dispose of was lost by its session. */
  predicate Lost(phase: Phase, fates: map<TaskId, Fate>) {
    phase.Cleared? && phase.gone.Some? ==> FateOf(fates, phase.gone.value.task).lost == 1
  }

  lemma LocalsMove(tasks: map<TaskId, Task>, fates: map<TaskId, Fate>, aborted: set<TaskId>,
                   live: map<Peer, LiveEntry>, t: TaskId, task: Task)
    requires Locals(tasks, fates, aborted, live) && t in tasks
    requires task.peer == tasks[t].peer && Lost(task.phase, fates)
    requires Local(t, task, FateOf(fates, t), t in aborted, live)
    ensures Locals(tasks[t := task], fates, aborted, live)
  {
  }

  lemma LocalsRetire(tasks: map<TaskId, Task>, fates: map<TaskId, Fate>, aborted: set<TaskId>,
                     live: map<Peer, LiveEntry>, t: TaskId, task: Task, fate: Fate)
    requires Locals(tasks, fates, aborted, live) && t in tasks
    requires task.peer == tasks[t].peer && !task.phase.Cleared?
    requires fate.lost == FateOf(fates, t).lost
    requires Local(t, task, fate, t in aborted, live)
    ensures Locals(tasks[t := task], fates[t := fate], aborted, live)
  {
  }

  lemma NumbersMove(tasks: map<TaskId, Task>, nextSid: SessionId, t: TaskId, task: Task)
    requires Numbers(tasks, nextSid) && t in tasks && task.sid == tasks[t].sid
    ensures Numbers(tasks[t := task], nextSid)
  {
  }

  lemma HomesMove(tasks: map<TaskId, Task>, home: map<IngressId, Peer>, nextId: IngressId, t: TaskId, task: Task)
    requires Homes(tasks, home, nextId) && t in tasks && task.id == tasks[t].id && task.peer == tasks[t].peer
    ensures Homes(tasks[t := task], home, nextId)
  {
  }

  /** The lock stays, or is taken by `t` for an unused id, or is given back by `t`. */
  predicate LockMove(live: map<Peer, LiveEntry>, lock: Option<TaskId>, lock': Option<TaskId>,
                     t: TaskId, before: Task, after: Task)
  {
    if HoldsLock(after.phase) then
      && lock' == Some(t)
      && (if HoldsLock(before.phase) then after.id == before.id else lock == None && Unused(live, after.id))
    else
      lock' == if HoldsLock(before.phase) then None else lock
  }

  lemma LockedMove(tasks: map<TaskId, Task>, live: map<Peer, LiveEntry>, lock: Option<TaskId>,
                   t: TaskId, task: Task, lock': Option<TaskId>)
    requires Locked(tasks, live, lock) && t in tasks
    requires LockMove(live, lock, lock', t, tasks[t], task)
    ensures Locked(tasks[t := task], live, lock')
  {
  }

  /** What a step may do to one task: the rest follows. */
  predicate MoveOk(s: State, t: TaskId, s': State) {
    && t in s.tasks
    && t in s'.tasks
    && var task := s'.tasks[t];
    && s'.tasks == s.tasks[t := task]
    && s' == s.(tasks := s'.tasks, fates := s'.fates, lock := s'.lock, reg := s'.reg,
                stats := s'.stats, nextRef := s'.nextRef)
    && task.peer == s.tasks[t].peer && task.sid == s.tasks[t].sid
    && Local(t, task, FateOf(s'.fates, t), t in s.aborted, s.live)
    && task.id in s.home && s.home[task.id] == task.peer
    && LockMove(s.live, s.lock, s'.lock, t, s.tasks[t], task)
  }

  lemma Here(s: State, t: TaskId)
    requires Inv(s) && t in s.tasks
    ensures Local(t, s.tasks[t], FateOf(s.fates, t), t in s.aborted, s.live) && Lost(s.tasks[t].phase, s.fates)
    ensures s.tasks[t].id in s.home && s.home[s.tasks[t].id] == s.tasks[t].peer
    ensures HoldsLock(s.tasks[t].phase) <==> s.lock == Some(t)
  {
  }

  lemma MoveKept(s: State, t: TaskId, s': State)
    requires Inv(s) && MoveOk(s, t, s') && s'.fates == s.fates && Lost(s'.tasks[t].phase, s.fates)
    requires Registrations(s'.reg, s.home, s.nextId)
    ensures Inv(s')
  {
    LocalsMove(s.tasks, s.fates, s.aborted, s.live, t, s'.tasks[t]);
    NumbersMove(s.tasks, s.nextSid, t, s'.tasks[t]);
    LockedMove(s.tasks, s.live, s.lock, t, s'.tasks[t], s'.lock);
  }

  // ---- The live sessions change ----

  /** The entry of peer `p` is taken away from its session. */
  lemma LocalsLose(tasks: map<TaskId, Task>, fates: map<TaskId, Fate>, aborted: set<TaskId>,
                   live: map<Peer, LiveEntry>, p: Peer)
    requires Locals(tasks, fates, aborted, live) && p in live
    ensures FateOf(fates, live[p].task) == Fate(0, 0, 0)
    ensures Locals(tasks, fates[live[p].task := Fate(1, 0, 0)], aborted, live - {p})
  {
    assert Local(live[p].task, tasks[live[p].task], FateOf(fates, live[p].task), live[p].task in aborted, live);
  }

  lemma DeprivedKept(s: State, p: Peer)
    requires Inv(s) && s.lock == None
    ensures Inv(s.(fates := Deprived(s, p), live := s.live - {p}))
    ensures p in s.live ==> FateOf(Deprived(s, p), s.live[p].task).lost == 1
  {
    if p in s.live {
      LocalsLose(s.tasks, s.fates, s.aborted, s.live, p);
    } else {
      assert s.live - {p} == s.live;
    }
  }

  lemma TakeKept(s: State, t: TaskId)
    requires Inv(s) && CanTake(s, t)
    ensures Inv(Take(s, t))
  {
    var p := s.tasks[t].peer;
    DeprivedKept(s, p);
    var s1 := s.(fates := Deprived(s, p), live := s.live - {p});
    assert Local(t, s1.tasks[t], FateOf(s1.fates, t), t in s1.aborted, s1.live);
    MoveKept(s1, t, Take(s, t));
  }

  lemma LocalsEnter(tasks: map<TaskId, Task>, fates: map<TaskId, Fate>, aborted: set<TaskId>,
                    live: map<Peer, LiveEntry>, t: TaskId)
    requires Locals(tasks, fates, aborted, live)
    requires t in tasks && tasks[t].phase.Ready? && tasks[t].peer !in live
    ensures Locals(tasks[t := tasks[t].(phase := Inserted)], fates, aborted,
                   live[tasks[t].peer := LiveEntry(Sid(tasks[t]), t, tasks[t].id)])
  {
  }

  lemma EnterKept(s: State, t: TaskId, s': State)
    requires Inv(s) && CanInsert(s, t) && s.tasks[t].peer !in s.live
    requires s' == s.(tasks := s.tasks[t := s.tasks[t].(phase := Inserted)], live := s'.live)
    requires s'.live == s.live[s.tasks[t].peer := LiveEntry(Sid(s.tasks[t]), t, s.tasks[t].id)]
    ensures Inv(s')
  {
    LocalsEnter(s.tasks, s.fates, s.aborted, s.live, t);
    NumbersMove(s.tasks, s.nextSid, t, s'.tasks[t]);
    LockedMove(s.tasks, s.live, s.lock, t, s'.tasks[t], s.lock);
  }

  lemma InsertKept(s: State, t: TaskId)
    requires Inv(s) && CanInsert(s, t)
    ensures Inv(Insert(s, t))
  {
    var p := s.tasks[t].peer;
    DeprivedKept(s, p);
    assert Insert(s, t).live == (s.live - {p})[p := Insert(s, t).live[p]];
    EnterKept(s.(fates := Deprived(s, p), live := s.live - {p}), t, Insert(s, t));
  }

  /** The session-id check tells a task whether the entry is its own. */
  lemma OwnsMine(s: State, t: TaskId)
    requires Inv(s) && t in s.tasks
    ensures Owns(s, t) <==> Mine(t, s.tasks[t], s.live)
  {
    var p := s.tasks[t].peer;
    if p in s.live {
      var u := s.live[p].task;
      assert Local(u, s.tasks[u], FateOf(s.fates, u), u in s.aborted, s.live);
    }
  }

  /** No other session has the id of a task that owns its entry. */
  lemma OnlyMine(s: State, t: TaskId)
    requires Inv(s) && t in s.tasks && Mine(t, s.tasks[t], s.live)
    ensures Unused(s.live - {s.tasks[t].peer}, s.tasks[t].id)
  {
    forall p | p in s.live && p != s.tasks[t].peer ensures s.live[p].id != s.tasks[t].id {
      var u := s.live[p].task;
      assert Local(u, s.tasks[u], FateOf(s.fates, u), u in s.aborted, s.live);
    }
  }

  lemma LocalsRemove(tasks: map<TaskId, Task>, fates: map<TaskId, Fate>, aborted: set<TaskId>,
                     live: map<Peer, LiveEntry>, t: TaskId)
    requires Locals(tasks, fates, aborted, live)
    requires t in tasks && tasks[t].phase.Leaving? && Mine(t, tasks[t], live)
    ensures FateOf(fates, t) == Fate(0, 0, 0)
    ensures Locals(tasks[t := tasks[t].(phase := Retiring)], fates[t := Fate(0, 1, 0)], aborted,
                   live - {tasks[t].peer})
  {
  }

  lemma RetireKept(s: State, t: TaskId)
    requires Inv(s) && CanCheck(s, t) && Owns(s, t)
    ensures Inv(Check(s, t))
  {
    OwnsMine(s, t);
    OnlyMine(s, t);
    var s' := Check(s, t);
    LocalsRemove(s.tasks, s.fates, s.aborted, s.live, t);
    NumbersMove(s.tasks, s.nextSid, t, s'.tasks[t]);
    HomesMove(s.tasks, s.home, s.nextId, t, s'.tasks[t]);
    LockedMove(s.tasks, s'.live, s.lock, t, s'.tasks[t], Some(t));
  }

  lemma CheckKept(s: State, t: TaskId)
    requires Inv(s) && CanCheck(s, t)
    ensures Inv(Check(s, t))
  {
    if Owns(s, t) {
      RetireKept(s, t);
    } else {
      OwnsMine(s, t);
      Here(s, t);
      MoveKept(s, t, Check(s, t));
    }
  }

  // ---- The other steps ----

  lemma LocalsJoin(tasks: map<TaskId, Task>, fates: map<TaskId, Fate>, aborted: set<TaskId>,
                   live: map<Peer, LiveEntry>, t: TaskId, task: Task)
    requires Locals(tasks, fates, aborted, live) && t !in tasks
    requires task.phase.Accepted? && task.sid.None?
    ensures Locals(tasks[t := task], fates, aborted, live)
  {
  }

  lemma AcceptKept(s: State, t: TaskId, p: Peer)
    requires Inv(s) && CanAccept(s, t)
    ensures Inv(Accept(s, t, p))
  {
    LocalsJoin(s.tasks, s.fates, s.aborted, s.live, t, Accept(s, t, p).tasks[t]);
  }

  lemma NumberKept(s: State, t: TaskId)
    requires Inv(s) && At(s, t, Accepted)
    ensures Inv(Number(s, t))
  {
    LocalsMove(s.tasks, s.fates, s.aborted, s.live, t, Number(s, t).tasks[t]);
  }

  lemma AbortedKept(s: State, u: TaskId)
    requires Inv(s) && u in s.tasks && FateOf(s.fates, u).lost == 1
    ensures Inv(s.(aborted := s.aborted + {u}))
  {
  }

  lemma ReadyKept(s: State, t: TaskId, phase: Phase)
    requires Inv(s) && CanAbort(s, t) && (phase.Ready? || phase.Purging?)
    ensures Inv(s.(tasks := Moved(s.tasks, t, phase)))
  {
    Here(s, t);
    MoveKept(s, t, s.(tasks := Moved(s.tasks, t, phase)));
  }

  lemma AbortKept(s: State, t: TaskId)
    requires Inv(s) && CanAbort(s, t)
    ensures Inv(Abort(s, t))
  {
    match s.tasks[t].phase.gone
    case None => ReadyKept(s, t, Ready);
    case Some(e) =>
      Here(s, t);
      AbortedKept(s, e.task);
      ReadyKept(s.(aborted := s.aborted + {e.task}), t, Purging(e.id));
  }

  lemma FindKept(s: State, t: TaskId, found: Option<IngressId>)
    requires Inv(s) && CanFind(s, t, found)
    ensures Inv(Find(s, t, found))
  {
    MoveKept(s, t, Find(s, t, found));
  }

  lemma PurgeKept(s: State, t: TaskId)
    requires Inv(s) && CanPurge(s, t)
    ensures Inv(Purge(s, t))
  {
    MoveKept(s, t, Purge(s, t));
  }

  lemma PublishKept(s: State, t: TaskId, rib: nat)
    requires Inv(s) && At(s, t, Inserted)
    ensures Inv(Publish(s, t, rib))
  {
    MoveKept(s, t, Publish(s, t, rib));
  }

  lemma StatsOk(s: State, t: TaskId, phase: Phase, handle: Option<StatsRef>, s': State)
    requires t in s.tasks && InLoop(s.tasks[t].phase) && InLoop(phase)
    requires Local(t, s.tasks[t], FateOf(s.fates, t), t in s.aborted, s.live)
    requires s.tasks[t].id in s.home && s.home[s.tasks[t].id] == s.tasks[t].peer
    requires s' == s.(tasks := s.tasks[t := s.tasks[t].(phase := phase, handle := handle)], stats := s'.stats, nextRef := s'.nextRef)
    ensures MoveOk(s, t, s')
  {
  }

  lemma LookupStatsKept(s: State, t: TaskId)
    requires Inv(s) && At(s, t, Registered)
    ensures Inv(LookupStats(s, t))
  {
    var s' := LookupStats(s, t);
    Here(s, t);
    StatsOk(s, t, s'.tasks[t].phase, s'.tasks[t].handle, s');
    MoveKept(s, t, s');
  }

  lemma CreateStatsKept(s: State, t: TaskId)
    requires Inv(s) && At(s, t, StatsMissing)
    ensures Inv(CreateStats(s, t))
  {
    var s' := CreateStats(s, t);
    Here(s, t);
    StatsOk(s, t, s'.tasks[t].phase, s'.tasks[t].handle, s');
    MoveKept(s, t, s');
  }

  lemma LeaveKept(s: State, t: TaskId)
    requires Inv(s) && CanLeave(s, t)
    ensures Inv(Leave(s, t))
  {
    MoveKept(s, t, Leave(s, t));
  }

  lemma KillKept(s: State, t: TaskId)
    requires Inv(s) && CanKill(s, t)
    ensures Inv(Kill(s, t))
  {
    MoveKept(s, t, Kill(s, t));
  }

  lemma GoneRegistrations(reg: map<IngressId, IngressInfo>, home: map<IngressId, Peer>, nextId: IngressId, i: IngressId)
    requires Registrations(reg, home, nextId) && i < nextId
    ensures Registrations(Updated(reg, i, GONE), home, nextId)
  {
  }

  lemma MarkKept(s: State, t: TaskId)
    requires Inv(s) && At(s, t, Retiring)
    ensures Inv(Mark(s, t))
  {
    var s' := Mark(s, t);
    GoneRegistrations(s.reg, s.home, s.nextId, s.tasks[t].id);
    LocalsRetire(s.tasks, s.fates, s.aborted, s.live, t, s'.tasks[t], FateOf(s'.fates, t));
    NumbersMove(s.tasks, s.nextSid, t, s'.tasks[t]);
    HomesMove(s.tasks, s.home, s.nextId, t, s'.tasks[t]);
    LockedMove(s.tasks, s.live, s.lock, t, s'.tasks[t], s'.lock);
  }

  lemma RecheckOk(s: State, t: TaskId)
    requires CanRecheck(s, t)
    requires Local(t, s.tasks[t], FateOf(s.fates, t), t in s.aborted, s.live)
    requires s.tasks[t].id in s.home && s.home[s.tasks[t].id] == s.tasks[t].peer
    ensures MoveOk(s, t, Recheck(s, t))
  {
  }

  lemma RecheckKept(s: State, t: TaskId)
    requires Inv(s) && CanRecheck(s, t)
    ensures Inv(Recheck(s, t))
  {
    Here(s, t);
    RecheckOk(s, t);
    MoveKept(s, t, Recheck(s, t));
  }

  lemma DropRegisterKept(s: State, t: TaskId)
    requires Inv(s) && At(s, t, Reclaiming)
    ensures Inv(DropRegister(s, t))
  {
    MoveKept(s, t, DropRegister(s, t));
  }

  lemma DropStatsKept(s: State, t: TaskId)
    requires Inv(s) && At(s, t, Dropping)
    ensures Inv(DropStats(s, t))
  {
    MoveKept(s, t, DropStats(s, t));
  }

  lemma OthersKept(s: State, i: IngressId, info: Option<IngressInfo>)
    requires Inv(s)
    ensures Inv(s.(nextId := s.nextId + 1))
    ensures CanWrite(s, i, info) ==> Inv(OtherWrites(s, i, info))
  {
  }

  lemma RibMarkKept(s: State, i: IngressId)
    requires Inv(s) && i < s.nextId
    ensures Inv(RibMarked(s, i))
  {
  }

  lemma OpenKept(s: State, t: TaskId, a: Action, s': State)
    requires Inv(s) && OpenStep(s, t, a, s')
    ensures Inv(s')
  {
    match a
    case AAccept(p) => AcceptKept(s, t, p);
    case ANumber => NumberKept(s, t);
    case AFind(found) => FindKept(s, t, found);
    case ATake => TakeKept(s, t);
    case AAbort => AbortKept(s, t);
    case APurge => PurgeKept(s, t);
  }

  lemma EnteringKept(s: State, t: TaskId, a: Action, s': State)
    requires Inv(s) && EnterStep(s, t, a, s')
    ensures Inv(s')
  {
    match a
    case AInsert => InsertKept(s, t);
    case APublish(rib) => PublishKept(s, t, rib);
    case ALookupStats => LookupStatsKept(s, t);
    case ACreateStats => CreateStatsKept(s, t);
    case AOtherDraws => OthersKept(s, 0, None);
    case AOtherWrites(i, info) => OthersKept(s, i, info);
    case ARibMarks(i) => RibMarkKept(s, i);
  }

  lemma CleanKept(s: State, t: TaskId, a: Action, s': State)
    requires Inv(s) && CleanStep(s, t, a, s')
    ensures Inv(s')
  {
    match a
    case ALeave => LeaveKept(s, t);
    case ACheck => CheckKept(s, t);
    case AMark => MarkKept(s, t);
    case ARecheck => RecheckKept(s, t);
    case ADropRegister => DropRegisterKept(s, t);
    case ADropStats => DropStatsKept(s, t);
    case AKill => KillKept(s, t);
  }

  lemma {:induction false} RunKept(run: seq<State>, tasks: seq<TaskId>, actions: seq<Action>, k: nat)
    requires Run(run, tasks, actions) && k < |run|
    ensures Inv(run[k])
  {
    if k > 0 {
      RunKept(run, tasks, actions, k - 1);
      var s, t, a, s' := run[k - 1], tasks[k - 1], actions[k - 1], run[k];
      assert Step(s, t, a, s');
      if OpenStep(s, t, a, s') {
        OpenKept(s, t, a, s');
      } else if EnterStep(s, t, a, s') {
        EnteringKept(s, t, a, s');
      } else {
        CleanKept(s, t, a, s');
      }
    }
  }

  lemma OpenLostStays(s: State, t: TaskId, a: Action, s': State, u: TaskId)
    requires OpenStep(s, t, a, s')
    ensures FateOf(s'.fates, u).lost >= FateOf(s.fates, u).lost
  {
  }

  lemma EnterLostStays(s: State, t: TaskId, a: Action, s': State, u: TaskId)
    requires EnterStep(s, t, a, s')
    ensures FateOf(s'.fates, u).lost >= FateOf(s.fates, u).lost
  {
  }

  lemma CleanLostStays(s: State, t: TaskId, a: Action, s': State, u: TaskId)
    requires CleanStep(s, t, a, s')
    ensures FateOf(s'.fates, u).lost >= FateOf(s.fates, u).lost
  {
  }

  lemma LostStays(s: State, t: TaskId, a: Action, s': State, u: TaskId)
    requires Step(s, t, a, s')
    ensures FateOf(s'.fates, u).lost >= FateOf(s.fates, u).lost
  {
    if OpenStep(s, t, a, s') {
      OpenLostStays(s, t, a, s', u);
    } else if EnterStep(s, t, a, s') {
      EnterLostStays(s, t, a, s', u);
    } else {
      CleanLostStays(s, t, a, s', u);
    }
  }

  /** A session that has lost its entry has sent no cleanup Withdraw and never will. */
  lemma {:induction false} LostForGood(run: seq<State>, tasks: seq<TaskId>, actions: seq<Action>,
                                       j: nat, k: nat, t: TaskId)
    requires Run(run, tasks, actions) && j <= k < |run|
    requires t in run[k].tasks && FateOf(run[j].fates, t).lost >= 1
    ensures FateOf(run[k].fates, t) == Fate(1, 0, 0)
    decreases k - j
  {
    if j < k {
      assert Step(run[j], tasks[j], actions[j], run[j + 1]);
      LostStays(run[j], tasks[j], actions[j], run[j + 1], t);
      LostForGood(run, tasks, actions, j + 1, k, t);
    } else {
      RunKept(run, tasks, actions, k);
      Here(run[k], t);
    }
  }

  /** Ownership is given up at most once, whoever takes it; a session whose entry was replaced
      or overwritten sends no cleanup Withdraw and can no longer pass the session-id check. */
  lemma RetiredAtMostOnce(run: seq<State>, tasks: seq<TaskId>, actions: seq<Action>, k: nat, t: TaskId)
    requires Run(run, tasks, actions) && k < |run| && t in run[k].tasks
    ensures var fate := FateOf(run[k].fates, t);
            && fate.lost + fate.retired <= 1
            && fate.withdrew <= fate.retired
            && (fate.lost == 1 ==> !Owns(run[k], t) && t in run[k].tasks && !run[k].tasks[t].phase.Withdrawing?)
            && (t in run[k].aborted ==> fate.lost == 1)
  {
    RunKept(run, tasks, actions, k);
    OwnsMine(run[k], t);
    Here(run[k], t);
  }

  /** When a cleanup marks an id Disconnected, removes its register entry or removes its stats,
      no live session has that id. */
  lemma CleanupSparesTheLiving(run: seq<State>, tasks: seq<TaskId>, actions: seq<Action>, k: nat)
    requires Run(run, tasks, actions) && k < |actions|
    requires actions[k].AMark? || actions[k].ADropRegister? || actions[k].ADropStats?
    ensures tasks[k] in run[k].tasks && !InUse(run[k], run[k].tasks[tasks[k]].id)
  {
    RunKept(run, tasks, actions, k);
    assert CleanStep(run[k], tasks[k], actions[k], run[k + 1]);
    Here(run[k], tasks[k]);
  }
}
