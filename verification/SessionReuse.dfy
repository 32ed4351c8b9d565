/** What holds when the negotiations of one peer do not overlap: an id survives a reconnect,
    however late the cleanups of older sessions run. */
module SessionReuse {
  import opened Ingress
  import opened Wrappers
  import opened SessionModel
  import opened SessionOwnership

  predicate Negotiating(phase: Phase) {
    PreInsert(phase) || phase.Inserted? || phase.Registered? || phase.StatsMissing?
  }

  /** The register entry of a session that is up. */
  predicate UpAs(reg: map<IngressId, IngressInfo>, i: IngressId, p: Peer) {
    i in reg && IsBgpOf(reg[i], p) && reg[i].state == Some(Connected)
  }

  /** Registered as a native BGP session; a mark of the RIB alone does not do that. */
  predicate BgpIn(reg: map<IngressId, IngressInfo>, i: IngressId) {
    i in reg && reg[i].ingressType == Some(Bgp)
  }

  /** No two negotiations of one peer at a time. */
  ghost predicate Serial(tasks: map<TaskId, Task>) {
    forall t, u | t in tasks && u in tasks && Negotiating(tasks[t].phase) && Negotiating(tasks[u].phase) ::
      tasks[t].peer == tasks[u].peer ==> t == u
  }

  /** A live session is registered once it has published itself, and keeps its stats entry. */
  predicate Served(t: TaskId, task: Task, live: map<Peer, LiveEntry>,
                   reg: map<IngressId, IngressInfo>, stats: map<IngressId, StatsRef>)
  {
    Mine(t, task, live) ==>
      && (!task.phase.Inserted? ==> UpAs(reg, task.id, task.peer))
      && (task.phase.Established? || task.phase.Leaving? ==>
            task.id in stats && task.handle == Some(stats[task.id]))
  }

  /** What a negotiating task has chosen stays the only id its peer has. */
  predicate OnlyId(reg: map<IngressId, IngressInfo>, home: map<IngressId, Peer>, task: Task) {
    forall i :: BgpIn(reg, i) && i in home && home[i] == task.peer ==> i == task.id
  }

  predicate Choice(t: TaskId, task: Task, live: map<Peer, LiveEntry>,
                   reg: map<IngressId, IngressInfo>, home: map<IngressId, Peer>)
  {
    match task.phase
    case Found => OnlyId(reg, home, task) && (task.peer in live ==> live[task.peer].id == task.id)
    case Cleared(gone) =>
      OnlyId(reg, home, task) && task.peer !in live && (gone.Some? ==> gone.value.id == task.id)
    case Purging(goneId) => OnlyId(reg, home, task) && task.peer !in live && goneId == task.id
    case Ready => OnlyId(reg, home, task) && task.peer !in live
    case Inserted => OnlyId(reg, home, task) && Mine(t, task, live)
    case Registered => Mine(t, task, live)
    case StatsMissing => Mine(t, task, live)
    case Retiring => BgpIn(reg, task.id)
    case _ => true
  }

  ghost predicate Standing(s: State) {
    forall t :: t in s.tasks ==>
      && Served(t, s.tasks[t], s.live, s.reg, s.stats)
      && Choice(t, s.tasks[t], s.live, s.reg, s.home)
  }

  /** An id drawn for a BGP connection is registered in full, or only marked by the RIB, or not at
      all; and a peer has one that is registered in full. */
  ghost predicate OneEach(reg: map<IngressId, IngressInfo>, home: map<IngressId, Peer>) {
    && (forall i :: i in reg && i in home ==> BgpIn(reg, i) || reg[i] == UP)
    && (forall i, j :: BgpIn(reg, i) && BgpIn(reg, j) && i in home && j in home && home[i] == home[j] ==> i == j)
  }

  /** Task `w` will see to it that id `i` is released. */
  predicate Covers(w: TaskId, task: Task, live: map<Peer, LiveEntry>, i: IngressId) {
    && task.id == i
    && (|| Mine(w, task, live)
        || task.phase.Cleared? || task.phase.Purging? || task.phase.Ready?
        || task.phase.Retiring? || task.phase.Withdrawing? || task.phase.Reclaiming?)
  }

  predicate Drops(task: Task, i: IngressId) {
    task.id == i && task.phase.Dropping?
  }

  ghost predicate Covered(tasks: map<TaskId, Task>, live: map<Peer, LiveEntry>, i: IngressId) {
    exists w :: w in tasks && Covers(w, tasks[w], live, i)
  }

  ghost predicate Dropped(tasks: map<TaskId, Task>, i: IngressId) {
    exists w :: w in tasks && Drops(tasks[w], i)
  }

  ghost predicate NoLeak(s: State) {
    && (forall i :: BgpIn(s.reg, i) && i in s.home ==> Covered(s.tasks, s.live, i))
    && (forall i :: i in s.stats ==> Covered(s.tasks, s.live, i) || Dropped(s.tasks, i))
  }

  ghost predicate SerialInv(s: State) {
    && Inv(s)
    && Serial(s.tasks)
    && Standing(s)
    && OneEach(s.reg, s.home)
    && NoLeak(s)
  }

  // ---- Who answers for an id ----

  /** An id task `w` answered for it still answers for, or somebody else does, or it is gone. */
  ghost predicate Handover(s: State, w: TaskId, s': State)
    requires w in s.tasks && w in s'.tasks
  {
    var i := s.tasks[w].id;
    && (Covers(w, s.tasks[w], s.live, i) ==>
          || Covers(w, s'.tasks[w], s'.live, i)
          || Covered(s'.tasks, s'.live, i)
          || (!BgpIn(s'.reg, i) && (i !in s'.stats || Dropped(s'.tasks, i))))
    && (Drops(s.tasks[w], i) ==> Drops(s'.tasks[w], i) || i !in s'.stats)
  }

  lemma NoLeakKept(s: State, s': State)
    requires NoLeak(s) && s.tasks.Keys <= s'.tasks.Keys
    requires forall i :: BgpIn(s'.reg, i) && i in s'.home ==>
               (BgpIn(s.reg, i) && i in s.home) || Covered(s'.tasks, s'.live, i)
    requires forall i :: i in s'.stats ==> i in s.stats || Covered(s'.tasks, s'.live, i)
    requires forall w :: w in s.tasks ==> Handover(s, w, s')
    ensures NoLeak(s')
  {
    forall i | BgpIn(s'.reg, i) && i in s'.home ensures Covered(s'.tasks, s'.live, i) {
      if BgpIn(s.reg, i) && i in s.home {
        var w :| w in s.tasks && Covers(w, s.tasks[w], s.live, i);
        assert Handover(s, w, s');
        assert Covers(w, s'.tasks[w], s'.live, i) ==> Covered(s'.tasks, s'.live, i);
      }
    }
    forall i | i in s'.stats ensures Covered(s'.tasks, s'.live, i) || Dropped(s'.tasks, i) {
      if i in s.stats {
        var w :| w in s.tasks && (Covers(w, s.tasks[w], s.live, i) || Drops(s.tasks[w], i));
        assert Handover(s, w, s');
        assert Covers(w, s'.tasks[w], s'.live, i) ==> Covered(s'.tasks, s'.live, i);
        assert Drops(s'.tasks[w], i) ==> Dropped(s'.tasks, i);
      }
    }
  }

  lemma UsedIsCovered(s: State, i: IngressId)
    requires Locals(s.tasks, s.fates, s.aborted, s.live) && InUse(s, i)
    ensures Covered(s.tasks, s.live, i)
  {
    var p :| p in s.live && s.live[p].id == i;
    var w := s.live[p].task;
    assert Local(w, s.tasks[w], FateOf(s.fates, w), w in s.aborted, s.live);
    assert Covers(w, s.tasks[w], s.live, i);
  }

  // ---- One task changes, the shared maps do not ----

  lemma SerialMove(tasks: map<TaskId, Task>, t: TaskId, task: Task)
    requires Serial(tasks) && t in tasks && task.peer == tasks[t].peer
    requires Negotiating(task.phase) ==> Negotiating(tasks[t].phase)
    ensures Serial(tasks[t := task])
  {
  }

  predicate Quiet(s: State, t: TaskId, s': State) {
    && t in s.tasks
    && t in s'.tasks
    && s'.tasks == s.tasks[t := s'.tasks[t]]
    && s'.live == s.live && s'.reg == s.reg && s'.stats == s.stats && s'.home == s.home
    && var before, after := s.tasks[t], s'.tasks[t];
    && after.peer == before.peer
    && (Negotiating(after.phase) ==> Negotiating(before.phase))
    && Served(t, after, s.live, s.reg, s.stats)
    && Choice(t, after, s.live, s.reg, s.home)
    && (Covers(t, before, s.live, before.id) ==> Covers(t, after, s.live, before.id) || InUse(s, before.id))
    && !Drops(before, before.id)
  }

  lemma QuietLeaksNot(s: State, t: TaskId, s': State)
    requires NoLeak(s) && Quiet(s, t, s')
    requires Locals(s'.tasks, s'.fates, s'.aborted, s'.live)
    ensures NoLeak(s')
  {
    if InUse(s, s.tasks[t].id) {
      UsedIsCovered(s', s.tasks[t].id);
    }
    NoLeakKept(s, s');
  }

  lemma QuietStands(s: State, t: TaskId, s': State)
    requires Standing(s) && Quiet(s, t, s')
    ensures Standing(s')
  {
  }

  lemma QuietKept(s: State, t: TaskId, s': State)
    requires SerialInv(s) && Inv(s') && Quiet(s, t, s')
    ensures SerialInv(s')
  {
    SerialMove(s.tasks, t, s'.tasks[t]);
    QuietStands(s, t, s');
    QuietLeaksNot(s, t, s');
  }

  /** What the search finds is all there is; nothing found means the peer has no entry. */
  lemma FoundAll(s: State, t: TaskId, found: Option<IngressId>)
    requires CanFind(s, t, found)
    requires OneEach(s.reg, s.home) && Registrations(s.reg, s.home, s.nextId)
    ensures OnlyId(s.reg, s.home, Find(s, t, found).tasks[t])
    ensures forall i :: i in s.reg && IsBgpOf(s.reg[i], s.tasks[t].peer) ==> found == Some(i)
  {
    var p := s.tasks[t].peer;
    forall i | BgpIn(s.reg, i) && i in s.home && s.home[i] == p ensures found == Some(i) {
      assert IsBgpOf(s.reg[i], p);
      if found.Some? {
        assert s.home[found.value] == p;
      }
    }
  }

  /** A live session of the peer has the id that is found. */
  lemma FindChoice(s: State, t: TaskId, found: Option<IngressId>)
    requires CanFind(s, t, found)
    requires Standing(s) && Serial(s.tasks) && Locals(s.tasks, s.fates, s.aborted, s.live)
    requires OneEach(s.reg, s.home) && Registrations(s.reg, s.home, s.nextId)
    ensures Choice(t, Find(s, t, found).tasks[t], s.live, s.reg, s.home)
    ensures !Mine(t, s.tasks[t], s.live)
  {
    FoundAll(s, t, found);
    assert Local(t, s.tasks[t], FateOf(s.fates, t), t in s.aborted, s.live);
    if s.tasks[t].peer in s.live {
      LiveIsFound(s, t, found);
    }
  }

  lemma LiveIsFound(s: State, t: TaskId, found: Option<IngressId>)
    requires CanFind(s, t, found) && s.tasks[t].peer in s.live
    requires Standing(s) && Serial(s.tasks) && Locals(s.tasks, s.fates, s.aborted, s.live)
    requires forall i :: i in s.reg && IsBgpOf(s.reg[i], s.tasks[t].peer) ==> found == Some(i)
    ensures found == Some(s.live[s.tasks[t].peer].id)
  {
    var p := s.tasks[t].peer;
    var u := s.live[p].task;
    assert Local(t, s.tasks[t], FateOf(s.fates, t), t in s.aborted, s.live);
    assert Local(u, s.tasks[u], FateOf(s.fates, u), u in s.aborted, s.live);
    assert Served(u, s.tasks[u], s.live, s.reg, s.stats);
  }

  lemma FindQuiet(s: State, t: TaskId, found: Option<IngressId>)
    requires CanFind(s, t, found) && !Mine(t, s.tasks[t], s.live)
    requires Choice(t, Find(s, t, found).tasks[t], s.live, s.reg, s.home)
    ensures Quiet(s, t, Find(s, t, found))
  {
  }

  lemma FindKeeps(s: State, t: TaskId, found: Option<IngressId>)
    requires SerialInv(s) && CanFind(s, t, found)
    ensures SerialInv(Find(s, t, found))
  {
    FindKept(s, t, found);
    FindChoice(s, t, found);
    FindQuiet(s, t, found);
    QuietKept(s, t, Find(s, t, found));
  }

  lemma AbortQuiet(s: State, t: TaskId)
    requires CanAbort(s, t)
    requires Choice(t, s.tasks[t], s.live, s.reg, s.home)
    ensures Quiet(s, t, Abort(s, t))
  {
  }

  lemma AbortKeeps(s: State, t: TaskId)
    requires SerialInv(s) && CanAbort(s, t)
    ensures SerialInv(Abort(s, t))
  {
    AbortKept(s, t);
    AbortQuiet(s, t);
    QuietKept(s, t, Abort(s, t));
  }

  lemma PurgeQuiet(s: State, t: TaskId)
    requires CanPurge(s, t)
    requires Standing(s)
    ensures Quiet(s, t, Purge(s, t))
  {
  }

  lemma PurgeKeeps(s: State, t: TaskId)
    requires SerialInv(s) && CanPurge(s, t)
    ensures SerialInv(Purge(s, t))
  {
    PurgeKept(s, t);
    PurgeQuiet(s, t);
    QuietKept(s, t, Purge(s, t));
  }

  lemma LookupStatsQuiet(s: State, t: TaskId)
    requires At(s, t, Registered)
    requires Standing(s)
    ensures Quiet(s, t, LookupStats(s, t))
  {
  }

  lemma LookupStatsKeeps(s: State, t: TaskId)
    requires SerialInv(s) && At(s, t, Registered)
    ensures SerialInv(LookupStats(s, t))
  {
    LookupStatsKept(s, t);
    LookupStatsQuiet(s, t);
    QuietKept(s, t, LookupStats(s, t));
  }

  lemma LeaveQuiet(s: State, t: TaskId)
    requires CanLeave(s, t)
    requires Standing(s) && Local(t, s.tasks[t], FateOf(s.fates, t), t in s.aborted, s.live)
    ensures Quiet(s, t, Leave(s, t))
  {
  }

  lemma LeaveKeeps(s: State, t: TaskId)
    requires SerialInv(s) && CanLeave(s, t)
    ensures SerialInv(Leave(s, t))
  {
    LeaveKept(s, t);
    LeaveQuiet(s, t);
    QuietKept(s, t, Leave(s, t));
  }

  lemma RecheckQuiet(s: State, t: TaskId)
    requires CanRecheck(s, t)
    requires Standing(s) && Local(t, s.tasks[t], FateOf(s.fates, t), t in s.aborted, s.live)
    ensures Quiet(s, t, Recheck(s, t))
  {
  }

  lemma RecheckKeeps(s: State, t: TaskId)
    requires SerialInv(s) && CanRecheck(s, t)
    ensures SerialInv(Recheck(s, t))
  {
    RecheckKept(s, t);
    RecheckQuiet(s, t);
    QuietKept(s, t, Recheck(s, t));
  }

  lemma KillQuiet(s: State, t: TaskId)
    requires CanKill(s, t)
    requires Standing(s) && Local(t, s.tasks[t], FateOf(s.fates, t), t in s.aborted, s.live)
    ensures Quiet(s, t, Kill(s, t))
  {
  }

  lemma KillKeeps(s: State, t: TaskId)
    requires SerialInv(s) && CanKill(s, t)
    ensures SerialInv(Kill(s, t))
  {
    KillKept(s, t);
    KillQuiet(s, t);
    QuietKept(s, t, Kill(s, t));
  }

  // ---- The shared maps change ----

  lemma OneEachKept(reg: map<IngressId, IngressInfo>, home: map<IngressId, Peer>, i: IngressId, update: IngressInfo)
    requires OneEach(reg, home) && i in home
    requires BgpIn(reg, i) || update.ingressType == Some(Bgp)
    requires update.ingressType == Some(Bgp) || update.ingressType == None
    requires forall j :: BgpIn(reg, j) && j in home && home[j] == home[i] ==> j == i
    ensures OneEach(Updated(reg, i, update), home)
  {
  }

  lemma TakeStandsFor(s: State, t: TaskId, u: TaskId)
    requires CanTake(s, t) && u in s.tasks
    requires Local(u, s.tasks[u], FateOf(s.fates, u), u in s.aborted, s.live)
    requires Served(u, s.tasks[u], s.live, s.reg, s.stats) && Choice(u, s.tasks[u], s.live, s.reg, s.home)
    requires u != t && s.tasks[u].peer == s.tasks[t].peer ==> !Negotiating(s.tasks[u].phase)
    ensures var s' := Take(s, t);
            Served(u, s'.tasks[u], s'.live, s'.reg, s'.stats) && Choice(u, s'.tasks[u], s'.live, s'.reg, s'.home)
  {
  }

  lemma TakeStands(s: State, t: TaskId)
    requires Standing(s) && Locals(s.tasks, s.fates, s.aborted, s.live) && Serial(s.tasks)
    requires CanTake(s, t)
    ensures Standing(Take(s, t))
  {
    var s' := Take(s, t);
    forall u | u in s'.tasks
      ensures Served(u, s'.tasks[u], s'.live, s'.reg, s'.stats) && Choice(u, s'.tasks[u], s'.live, s'.reg, s'.home)
    {
      TakeStandsFor(s, t, u);
    }
  }

  lemma TakeHandover(s: State, t: TaskId, w: TaskId)
    requires CanTake(s, t) && w in s.tasks && Choice(t, s.tasks[t], s.live, s.reg, s.home)
    requires Local(w, s.tasks[w], FateOf(s.fates, w), w in s.aborted, s.live)
    ensures Handover(s, w, Take(s, t))
  {
    var s' := Take(s, t);
    assert Covers(t, s'.tasks[t], s'.live, s'.tasks[t].id) ==> Covered(s'.tasks, s'.live, s'.tasks[t].id);
  }

  lemma TakeLeaksNot(s: State, t: TaskId)
    requires NoLeak(s) && Standing(s) && Locals(s.tasks, s.fates, s.aborted, s.live)
    requires CanTake(s, t)
    ensures NoLeak(Take(s, t))
  {
    var s' := Take(s, t);
    assert Choice(t, s.tasks[t], s.live, s.reg, s.home);
    forall w | w in s.tasks ensures Handover(s, w, s') {
      TakeHandover(s, t, w);
    }
    NoLeakKept(s, s');
  }

  lemma TakeKeeps(s: State, t: TaskId)
    requires SerialInv(s) && CanTake(s, t)
    ensures SerialInv(Take(s, t))
  {
    TakeKept(s, t);
    TakeStands(s, t);
    TakeLeaksNot(s, t);
    SerialMove(s.tasks, t, Take(s, t).tasks[t]);
  }

  lemma InsertStandsFor(s: State, t: TaskId, u: TaskId)
    requires CanInsert(s, t) && u in s.tasks
    requires Local(u, s.tasks[u], FateOf(s.fates, u), u in s.aborted, s.live)
    requires Served(u, s.tasks[u], s.live, s.reg, s.stats) && Choice(u, s.tasks[u], s.live, s.reg, s.home)
    requires u != t && s.tasks[u].peer == s.tasks[t].peer ==> !Negotiating(s.tasks[u].phase)
    ensures var s' := Insert(s, t);
            Served(u, s'.tasks[u], s'.live, s'.reg, s'.stats) && Choice(u, s'.tasks[u], s'.live, s'.reg, s'.home)
  {
  }

  lemma InsertStands(s: State, t: TaskId)
    requires Standing(s) && Locals(s.tasks, s.fates, s.aborted, s.live) && Serial(s.tasks)
    requires CanInsert(s, t)
    ensures Standing(Insert(s, t))
  {
    var s' := Insert(s, t);
    forall u | u in s'.tasks
      ensures Served(u, s'.tasks[u], s'.live, s'.reg, s'.stats) && Choice(u, s'.tasks[u], s'.live, s'.reg, s'.home)
    {
      InsertStandsFor(s, t, u);
    }
  }

  lemma InsertLeaksNot(s: State, t: TaskId)
    requires NoLeak(s) && Standing(s)
    requires CanInsert(s, t)
    ensures NoLeak(Insert(s, t))
  {
    var s' := Insert(s, t);
    assert Choice(t, s.tasks[t], s.live, s.reg, s.home);
    assert Covers(t, s'.tasks[t], s'.live, s'.tasks[t].id) ==> Covered(s'.tasks, s'.live, s'.tasks[t].id);
    NoLeakKept(s, s');
  }

  lemma InsertKeeps(s: State, t: TaskId)
    requires SerialInv(s) && CanInsert(s, t)
    ensures SerialInv(Insert(s, t))
  {
    InsertKept(s, t);
    InsertStands(s, t);
    InsertLeaksNot(s, t);
    SerialMove(s.tasks, t, Insert(s, t).tasks[t]);
  }

  lemma RetireStandsFor(s: State, t: TaskId, u: TaskId)
    requires CanCheck(s, t) && Owns(s, t) && Mine(t, s.tasks[t], s.live) && u in s.tasks
    requires Local(u, s.tasks[u], FateOf(s.fates, u), u in s.aborted, s.live)
    requires Served(u, s.tasks[u], s.live, s.reg, s.stats) && Choice(u, s.tasks[u], s.live, s.reg, s.home)
    ensures var s' := Check(s, t);
            Served(u, s'.tasks[u], s'.live, s'.reg, s'.stats) && Choice(u, s'.tasks[u], s'.live, s'.reg, s'.home)
  {
  }

  lemma RetireStands(s: State, t: TaskId)
    requires Standing(s) && Locals(s.tasks, s.fates, s.aborted, s.live)
    requires CanCheck(s, t) && Owns(s, t) && Mine(t, s.tasks[t], s.live)
    ensures Standing(Check(s, t))
  {
    var s' := Check(s, t);
    forall u | u in s'.tasks
      ensures Served(u, s'.tasks[u], s'.live, s'.reg, s'.stats) && Choice(u, s'.tasks[u], s'.live, s'.reg, s'.home)
    {
      RetireStandsFor(s, t, u);
    }
  }

  lemma RetireLeaksNot(s: State, t: TaskId)
    requires NoLeak(s) && Standing(s)
    requires CanCheck(s, t) && Owns(s, t) && Mine(t, s.tasks[t], s.live)
    ensures NoLeak(Check(s, t))
  {
    var s' := Check(s, t);
    assert Choice(t, s.tasks[t], s.live, s.reg, s.home);
    assert Covers(t, s'.tasks[t], s'.live, s'.tasks[t].id) ==> Covered(s'.tasks, s'.live, s'.tasks[t].id);
    NoLeakKept(s, s');
  }

  lemma RetireSerial(s: State, t: TaskId)
    requires Serial(s.tasks) && CanCheck(s, t) && Owns(s, t)
    ensures Serial(Check(s, t).tasks)
  {
    SerialMove(s.tasks, t, Check(s, t).tasks[t]);
  }

  lemma RetireKeeps(s: State, t: TaskId)
    requires SerialInv(s) && CanCheck(s, t) && Owns(s, t)
    ensures SerialInv(Check(s, t))
  {
    OwnsMine(s, t);
    RetireKept(s, t);
    RetireStands(s, t);
    RetireLeaksNot(s, t);
    RetireSerial(s, t);
  }

  /** A session under another id does not notice what is registered. */
  lemma OtherStands(s: State, t: TaskId, rib: nat, u: TaskId)
    requires At(s, t, Inserted) && u in s.tasks && u != t && Mine(t, s.tasks[t], s.live)
    requires Serial(s.tasks) && Homes(s.tasks, s.home, s.nextId)
    requires Served(u, s.tasks[u], s.live, s.reg, s.stats) && Choice(u, s.tasks[u], s.live, s.reg, s.home)
    ensures var s' := Publish(s, t, rib);
            Served(u, s.tasks[u], s.live, s'.reg, s.stats) && Choice(u, s.tasks[u], s.live, s'.reg, s.home)
  {
    if s.tasks[u].peer != s.tasks[t].peer {
      assert s.tasks[u].id != s.tasks[t].id;
    }
  }

  lemma PublishStands(s: State, t: TaskId, rib: nat)
    requires Standing(s) && Serial(s.tasks) && Homes(s.tasks, s.home, s.nextId)
    requires At(s, t, Inserted)
    ensures Standing(Publish(s, t, rib))
  {
    var s' := Publish(s, t, rib);
    assert Choice(t, s.tasks[t], s.live, s.reg, s.home);
    forall u | u in s'.tasks
      ensures Served(u, s'.tasks[u], s'.live, s'.reg, s'.stats) && Choice(u, s'.tasks[u], s'.live, s'.reg, s'.home)
    {
      if u != t {
        OtherStands(s, t, rib, u);
      }
    }
  }

  lemma PublishLeaksNot(s: State, t: TaskId, rib: nat)
    requires NoLeak(s) && Standing(s)
    requires At(s, t, Inserted)
    ensures NoLeak(Publish(s, t, rib))
  {
    var s' := Publish(s, t, rib);
    assert Choice(t, s.tasks[t], s.live, s.reg, s.home);
    assert Covers(t, s'.tasks[t], s'.live, s'.tasks[t].id) ==> Covered(s'.tasks, s'.live, s'.tasks[t].id);
    NoLeakKept(s, s');
  }

  lemma PublishKeeps(s: State, t: TaskId, rib: nat)
    requires SerialInv(s) && At(s, t, Inserted)
    ensures SerialInv(Publish(s, t, rib))
  {
    PublishKept(s, t, rib);
    PublishStands(s, t, rib);
    PublishLeaksNot(s, t, rib);
    assert Choice(t, s.tasks[t], s.live, s.reg, s.home);
    OneEachKept(s.reg, s.home, s.tasks[t].id, Details(s.tasks[t].peer, rib));
    SerialMove(s.tasks, t, Publish(s, t, rib).tasks[t]);
  }

  lemma CreateStatsStands(s: State, t: TaskId)
    requires Standing(s)
    requires At(s, t, StatsMissing)
    ensures Standing(CreateStats(s, t))
  {
    var s' := CreateStats(s, t);
    forall u | u in s'.tasks
      ensures Served(u, s'.tasks[u], s'.live, s'.reg, s'.stats) && Choice(u, s'.tasks[u], s'.live, s'.reg, s'.home)
    {
      assert Served(u, s.tasks[u], s.live, s.reg, s.stats) && Choice(u, s.tasks[u], s.live, s.reg, s.home);
    }
  }

  lemma CreateStatsLeaksNot(s: State, t: TaskId)
    requires NoLeak(s) && Standing(s)
    requires At(s, t, StatsMissing)
    ensures NoLeak(CreateStats(s, t))
  {
    var s' := CreateStats(s, t);
    assert Choice(t, s.tasks[t], s.live, s.reg, s.home);
    assert Covers(t, s'.tasks[t], s'.live, s'.tasks[t].id) ==> Covered(s'.tasks, s'.live, s'.tasks[t].id);
    NoLeakKept(s, s');
  }

  lemma CreateStatsKeeps(s: State, t: TaskId)
    requires SerialInv(s) && At(s, t, StatsMissing)
    ensures SerialInv(CreateStats(s, t))
  {
    CreateStatsKept(s, t);
    CreateStatsStands(s, t);
    CreateStatsLeaksNot(s, t);
    SerialMove(s.tasks, t, CreateStats(s, t).tasks[t]);
  }

  lemma MarkStands(s: State, t: TaskId)
    requires Standing(s) && Locals(s.tasks, s.fates, s.aborted, s.live) && Locked(s.tasks, s.live, s.lock)
    requires At(s, t, Retiring)
    ensures Standing(Mark(s, t))
  {
    var s' := Mark(s, t);
    forall u | u in s'.tasks
      ensures Served(u, s'.tasks[u], s'.live, s'.reg, s'.stats) && Choice(u, s'.tasks[u], s'.live, s'.reg, s'.home)
    {
      assert Local(u, s.tasks[u], FateOf(s.fates, u), u in s.aborted, s.live);
      assert Served(u, s.tasks[u], s.live, s.reg, s.stats) && Choice(u, s.tasks[u], s.live, s.reg, s.home);
    }
  }

  lemma MarkLeaksNot(s: State, t: TaskId)
    requires NoLeak(s) && Standing(s)
    requires At(s, t, Retiring)
    ensures NoLeak(Mark(s, t))
  {
    var s' := Mark(s, t);
    assert Choice(t, s.tasks[t], s.live, s.reg, s.home);
    assert Covers(t, s'.tasks[t], s'.live, s'.tasks[t].id) ==> Covered(s'.tasks, s'.live, s'.tasks[t].id);
    NoLeakKept(s, s');
  }

  lemma MarkOneEach(s: State, t: TaskId)
    requires OneEach(s.reg, s.home) && Homes(s.tasks, s.home, s.nextId) && At(s, t, Retiring)
    requires Choice(t, s.tasks[t], s.live, s.reg, s.home)
    ensures OneEach(Mark(s, t).reg, s.home)
  {
    OneEachKept(s.reg, s.home, s.tasks[t].id, GONE);
  }

  lemma MarkSerial(s: State, t: TaskId)
    requires Serial(s.tasks) && At(s, t, Retiring)
    ensures Serial(Mark(s, t).tasks)
  {
    SerialMove(s.tasks, t, Mark(s, t).tasks[t]);
  }

  lemma MarkKeeps(s: State, t: TaskId)
    requires SerialInv(s) && At(s, t, Retiring)
    ensures SerialInv(Mark(s, t))
  {
    MarkKept(s, t);
    MarkStands(s, t);
    MarkLeaksNot(s, t);
    MarkOneEach(s, t);
    MarkSerial(s, t);
  }

  lemma DropRegisterStands(s: State, t: TaskId)
    requires Standing(s) && Locals(s.tasks, s.fates, s.aborted, s.live) && Locked(s.tasks, s.live, s.lock)
    requires At(s, t, Reclaiming)
    ensures Standing(DropRegister(s, t))
  {
    var s' := DropRegister(s, t);
    forall u | u in s'.tasks
      ensures Served(u, s'.tasks[u], s'.live, s'.reg, s'.stats) && Choice(u, s'.tasks[u], s'.live, s'.reg, s'.home)
    {
      assert Local(u, s.tasks[u], FateOf(s.fates, u), u in s.aborted, s.live);
      assert Served(u, s.tasks[u], s.live, s.reg, s.stats) && Choice(u, s.tasks[u], s.live, s.reg, s.home);
    }
  }

  lemma DropRegisterLeaksNot(s: State, t: TaskId)
    requires NoLeak(s) && Standing(s)
    requires At(s, t, Reclaiming)
    ensures NoLeak(DropRegister(s, t))
  {
    var s' := DropRegister(s, t);
    assert Choice(t, s.tasks[t], s.live, s.reg, s.home);
    assert Covers(t, s'.tasks[t], s'.live, s'.tasks[t].id) ==> Covered(s'.tasks, s'.live, s'.tasks[t].id);
    NoLeakKept(s, s');
  }

  lemma OneEachWithout(reg: map<IngressId, IngressInfo>, home: map<IngressId, Peer>, i: IngressId)
    requires OneEach(reg, home)
    ensures OneEach(reg - {i}, home)
  {
  }

  lemma DropRegisterKeeps(s: State, t: TaskId)
    requires SerialInv(s) && At(s, t, Reclaiming)
    ensures SerialInv(DropRegister(s, t))
  {
    DropRegisterKept(s, t);
    DropRegisterStands(s, t);
    DropRegisterLeaksNot(s, t);
    OneEachWithout(s.reg, s.home, s.tasks[t].id);
    SerialMove(s.tasks, t, DropRegister(s, t).tasks[t]);
  }

  lemma DropStatsStands(s: State, t: TaskId)
    requires Standing(s) && Locals(s.tasks, s.fates, s.aborted, s.live) && Locked(s.tasks, s.live, s.lock)
    requires At(s, t, Dropping)
    ensures Standing(DropStats(s, t))
  {
    var s' := DropStats(s, t);
    forall u | u in s'.tasks
      ensures Served(u, s'.tasks[u], s'.live, s'.reg, s'.stats) && Choice(u, s'.tasks[u], s'.live, s'.reg, s'.home)
    {
      assert Local(u, s.tasks[u], FateOf(s.fates, u), u in s.aborted, s.live);
      assert Served(u, s.tasks[u], s.live, s.reg, s.stats) && Choice(u, s.tasks[u], s.live, s.reg, s.home);
    }
  }

  lemma DropStatsLeaksNot(s: State, t: TaskId)
    requires NoLeak(s) && Standing(s)
    requires At(s, t, Dropping)
    ensures NoLeak(DropStats(s, t))
  {
    var s' := DropStats(s, t);
    assert Choice(t, s.tasks[t], s.live, s.reg, s.home);
    assert Covers(t, s'.tasks[t], s'.live, s'.tasks[t].id) ==> Covered(s'.tasks, s'.live, s'.tasks[t].id);
    NoLeakKept(s, s');
  }

  lemma DropStatsKeeps(s: State, t: TaskId)
    requires SerialInv(s) && At(s, t, Dropping)
    ensures SerialInv(DropStats(s, t))
  {
    DropStatsKept(s, t);
    DropStatsStands(s, t);
    DropStatsLeaksNot(s, t);
    SerialMove(s.tasks, t, DropStats(s, t).tasks[t]);
  }

  // ---- The remaining steps ----

  /** No other negotiation of the same peer is under way. */
  ghost predicate Alone(s: State, t: TaskId) {
    t in s.tasks ==>
      forall u :: u in s.tasks && s.tasks[u].peer == s.tasks[t].peer ==> !Negotiating(s.tasks[u].phase)
  }

  lemma SerialJoin(tasks: map<TaskId, Task>, t: TaskId, task: Task)
    requires Serial(tasks)
    requires Negotiating(task.phase) ==> forall u :: u in tasks && tasks[u].peer == task.peer ==> !Negotiating(tasks[u].phase)
    ensures Serial(tasks[t := task])
  {
  }

  lemma NumberStands(s: State, t: TaskId)
    requires Standing(s) && At(s, t, Accepted) && !Mine(t, s.tasks[t], s.live)
    ensures Standing(Number(s, t))
  {
    var s' := Number(s, t);
    forall u | u in s'.tasks
      ensures Served(u, s'.tasks[u], s'.live, s'.reg, s'.stats) && Choice(u, s'.tasks[u], s'.live, s'.reg, s'.home)
    {
      assert Served(u, s.tasks[u], s.live, s.reg, s.stats) && Choice(u, s.tasks[u], s.live, s.reg, s.home);
    }
  }

  lemma NumberKeeps(s: State, t: TaskId)
    requires SerialInv(s) && At(s, t, Accepted) && Alone(s, t)
    ensures SerialInv(Number(s, t))
  {
    NumberKept(s, t);
    assert Local(t, s.tasks[t], FateOf(s.fates, t), t in s.aborted, s.live);
    NumberStands(s, t);
    SerialJoin(s.tasks, t, Number(s, t).tasks[t]);
    JoinLeaksNot(s, t, Number(s, t));
  }

  lemma AcceptStands(s: State, t: TaskId, p: Peer)
    requires Standing(s) && CanAccept(s, t)
    requires Locals(s.tasks, s.fates, s.aborted, s.live) && Registrations(s.reg, s.home, s.nextId)
    ensures Standing(Accept(s, t, p))
  {
    var s' := Accept(s, t, p);
    forall u | u in s'.tasks
      ensures Served(u, s'.tasks[u], s'.live, s'.reg, s'.stats) && Choice(u, s'.tasks[u], s'.live, s'.reg, s'.home)
    {
      if u != t {
        assert Served(u, s.tasks[u], s.live, s.reg, s.stats) && Choice(u, s.tasks[u], s.live, s.reg, s.home);
      }
    }
  }

  lemma OneEachAccept(reg: map<IngressId, IngressInfo>, home: map<IngressId, Peer>, i: IngressId, p: Peer)
    requires OneEach(reg, home) && i !in reg
    ensures OneEach(reg, home[i := p])
  {
  }

  lemma OneEachWrite(reg: map<IngressId, IngressInfo>, home: map<IngressId, Peer>, i: IngressId, info: IngressInfo)
    requires OneEach(reg, home) && i !in home
    ensures OneEach(reg[i := info], home)
  {
  }

  lemma AcceptKeeps(s: State, t: TaskId, p: Peer)
    requires SerialInv(s) && CanAccept(s, t)
    ensures SerialInv(Accept(s, t, p))
  {
    AcceptKept(s, t, p);
    AcceptStands(s, t, p);
    SerialJoin(s.tasks, t, Accept(s, t, p).tasks[t]);
    OneEachAccept(s.reg, s.home, s.nextId, p);
    JoinLeaksNot(s, t, Accept(s, t, p));
  }

  lemma JoinLeaksNot(s: State, t: TaskId, s': State)
    requires NoLeak(s) && t in s'.tasks && s'.tasks == s.tasks[t := s'.tasks[t]]
    requires t in s.tasks ==> !Covers(t, s.tasks[t], s.live, s.tasks[t].id) && !s.tasks[t].phase.Dropping?
    requires s'.live == s.live && s'.reg == s.reg && s'.stats == s.stats
    requires forall i :: i in s'.home && BgpIn(s.reg, i) ==> i in s.home
    ensures NoLeak(s')
  {
    NoLeakKept(s, s');
  }

  lemma CheckQuiet(s: State, t: TaskId)
    requires CanCheck(s, t) && !Owns(s, t) && !Mine(t, s.tasks[t], s.live)
    ensures Quiet(s, t, Check(s, t))
  {
  }

  lemma CheckKeeps(s: State, t: TaskId)
    requires SerialInv(s) && CanCheck(s, t)
    ensures SerialInv(Check(s, t))
  {
    if Owns(s, t) {
      RetireKeeps(s, t);
    } else {
      OwnsMine(s, t);
      CheckKept(s, t);
      CheckQuiet(s, t);
      QuietKept(s, t, Check(s, t));
    }
  }

  lemma WriteStands(s: State, i: IngressId, info: Option<IngressInfo>)
    requires Standing(s) && Homes(s.tasks, s.home, s.nextId) && CanWrite(s, i, info)
    ensures Standing(OtherWrites(s, i, info))
  {
    var s' := OtherWrites(s, i, info);
    forall u | u in s'.tasks
      ensures Served(u, s'.tasks[u], s'.live, s'.reg, s'.stats) && Choice(u, s'.tasks[u], s'.live, s'.reg, s'.home)
    {
      assert Served(u, s.tasks[u], s.live, s.reg, s.stats) && Choice(u, s.tasks[u], s.live, s.reg, s.home);
    }
  }

  lemma WriteKeeps(s: State, i: IngressId, info: Option<IngressInfo>)
    requires SerialInv(s) && CanWrite(s, i, info)
    ensures SerialInv(OtherWrites(s, i, info))
  {
    OthersKept(s, i, info);
    WriteStands(s, i, info);
    if info.Some? {
      OneEachWrite(s.reg, s.home, i, info.value);
    } else {
      OneEachWithout(s.reg, s.home, i);
    }
  }

  /** A mark changes no entry of a session but its state, and leaves a bare one where there is none. */
  lemma RibMarkReg(reg: map<IngressId, IngressInfo>, i: IngressId)
    ensures forall j :: BgpIn(Updated(reg, i, UP), j) <==> BgpIn(reg, j)
    ensures forall j, p :: j in reg && IsBgpOf(reg[j], p) ==> IsBgpOf(Updated(reg, i, UP)[j], p)
    ensures forall j, p :: UpAs(reg, j, p) ==> UpAs(Updated(reg, i, UP), j, p)
    ensures i !in reg || reg[i] == UP ==> Updated(reg, i, UP)[i] == UP
  {
  }

  lemma RibMarkStands(s: State, i: IngressId)
    requires Standing(s)
    ensures Standing(RibMarked(s, i))
  {
    var s' := RibMarked(s, i);
    RibMarkReg(s.reg, i);
    forall u | u in s'.tasks
      ensures Served(u, s'.tasks[u], s'.live, s'.reg, s'.stats) && Choice(u, s'.tasks[u], s'.live, s'.reg, s'.home)
    {
      assert Served(u, s.tasks[u], s.live, s.reg, s.stats) && Choice(u, s.tasks[u], s.live, s.reg, s.home);
    }
  }

  lemma RibMarkOneEach(reg: map<IngressId, IngressInfo>, home: map<IngressId, Peer>, i: IngressId)
    requires OneEach(reg, home)
    ensures OneEach(Updated(reg, i, UP), home)
  {
    RibMarkReg(reg, i);
  }

  lemma RibMarkKeeps(s: State, i: IngressId)
    requires SerialInv(s) && i < s.nextId
    ensures SerialInv(RibMarked(s, i))
  {
    RibMarkKept(s, i);
    RibMarkStands(s, i);
    RibMarkOneEach(s.reg, s.home, i);
    RibMarkReg(s.reg, i);
  }

  lemma DrawKeeps(s: State)
    requires SerialInv(s)
    ensures SerialInv(s.(nextId := s.nextId + 1))
  {
    OthersKept(s, 0, None);
  }

  // ---- Runs ----

  /** A run in which the negotiations of one peer do not overlap. */
  ghost predicate SerialRun(run: seq<State>, tasks: seq<TaskId>, actions: seq<Action>) {
    && Run(run, tasks, actions)
    && forall k :: 0 <= k < |actions| && actions[k].ANumber? ==> Alone(run[k], tasks[k])
  }

  lemma OpenKeeps(s: State, t: TaskId, a: Action, s': State)
    requires SerialInv(s) && OpenStep(s, t, a, s') && (a.ANumber? ==> Alone(s, t))
    ensures SerialInv(s')
  {
    match a
    case AAccept(p) => AcceptKeeps(s, t, p);
    case ANumber => NumberKeeps(s, t);
    case AFind(found) => FindKeeps(s, t, found);
    case ATake => TakeKeeps(s, t);
    case AAbort => AbortKeeps(s, t);
    case APurge => PurgeKeeps(s, t);
  }

  lemma EnteringKeeps(s: State, t: TaskId, a: Action, s': State)
    requires SerialInv(s) && EnterStep(s, t, a, s')
    ensures SerialInv(s')
  {
    match a
    case AInsert => InsertKeeps(s, t);
    case APublish(rib) => PublishKeeps(s, t, rib);
    case ALookupStats => LookupStatsKeeps(s, t);
    case ACreateStats => CreateStatsKeeps(s, t);
    case AOtherDraws => DrawKeeps(s);
    case AOtherWrites(i, info) => WriteKeeps(s, i, info);
    case ARibMarks(i) => RibMarkKeeps(s, i);
  }

  lemma CleanKeeps(s: State, t: TaskId, a: Action, s': State)
    requires SerialInv(s) && CleanStep(s, t, a, s')
    ensures SerialInv(s')
  {
    match a
    case ALeave => LeaveKeeps(s, t);
    case ACheck => CheckKeeps(s, t);
    case AMark => MarkKeeps(s, t);
    case ARecheck => RecheckKeeps(s, t);
    case ADropRegister => DropRegisterKeeps(s, t);
    case ADropStats => DropStatsKeeps(s, t);
    case AKill => KillKeeps(s, t);
  }

  lemma StepKeeps(s: State, t: TaskId, a: Action, s': State)
    requires SerialInv(s) && Step(s, t, a, s') && (a.ANumber? ==> Alone(s, t))
    ensures SerialInv(s')
  {
    if OpenStep(s, t, a, s') {
      OpenKeeps(s, t, a, s');
    } else if EnterStep(s, t, a, s') {
      EnteringKeeps(s, t, a, s');
    } else {
      CleanKeeps(s, t, a, s');
    }
  }

  lemma {:induction false} SerialRunKept(run: seq<State>, tasks: seq<TaskId>, actions: seq<Action>, k: nat)
    requires SerialRun(run, tasks, actions) && k < |run|
    ensures SerialInv(run[k])
  {
    if k > 0 {
      SerialRunKept(run, tasks, actions, k - 1);
      StepKeeps(run[k - 1], tasks[k - 1], actions[k - 1], run[k]);
    }
  }

  /** Late cleanup never harms a live session: however the cleanups of older sessions of the
      peer interleave, a session that has finished registering is found under its id as
      Connected, of type Bgp, with its own address and ASN, and the stats it counts into are
      the ones in the registry. */
  lemma LiveSessionsStand(run: seq<State>, tasks: seq<TaskId>, actions: seq<Action>, k: nat, p: Peer)
    requires SerialRun(run, tasks, actions) && k < |run| && p in run[k].live
    requires run[k].live[p].task in run[k].tasks ==> !Negotiating(run[k].tasks[run[k].live[p].task].phase)
    ensures var s, i := run[k], run[k].live[p].id;
            && UpAs(s.reg, i, p)
            && i in s.stats
            && s.live[p].task in s.tasks
            && s.tasks[s.live[p].task].handle == Some(s.stats[i])
  {
    SerialRunKept(run, tasks, actions, k);
    Here(run[k], run[k].live[p].task);
    assert Served(run[k].live[p].task, run[k].tasks[run[k].live[p].task], run[k].live, run[k].reg, run[k].stats);
  }

  /** A peer never has two Bgp entries, and an id of a connection is registered in full or bears a
      bare mark of the RIB. */
  lemma OneEntryPerPeer(run: seq<State>, tasks: seq<TaskId>, actions: seq<Action>, k: nat,
                        i: IngressId, j: IngressId, p: Peer)
    requires SerialRun(run, tasks, actions) && k < |run|
    ensures var reg := run[k].reg;
            && (i in reg && j in reg && IsBgpOf(reg[i], p) && IsBgpOf(reg[j], p) ==> i == j)
            && (i in reg && i in run[k].home ==> IsBgpOf(reg[i], run[k].home[i]) || reg[i] == UP)
  {
    SerialRunKept(run, tasks, actions, k);
  }

  /** A session that is replaced has the id its successor has chosen, so the branch for a
      different id is never taken: no step of a purge changes the register. */
  lemma ReplacedUnderTheSameId(run: seq<State>, tasks: seq<TaskId>, actions: seq<Action>, k: nat)
    requires SerialRun(run, tasks, actions) && k < |actions| && actions[k].APurge?
    ensures CanPurge(run[k], tasks[k])
    ensures run[k].tasks[tasks[k]].phase.goneId == run[k].tasks[tasks[k]].id
    ensures run[k + 1].reg == run[k].reg
  {
    SerialRunKept(run, tasks, actions, k);
    assert Step(run[k], tasks[k], actions[k], run[k + 1]);
    assert Choice(tasks[k], run[k].tasks[tasks[k]], run[k].live, run[k].reg, run[k].home);
  }

  /** When every session has ended and every cleanup has finished, nothing of theirs is left: no
      live session, no stats, no Bgp entry. Under an id of a connection there can only be a bare
      mark of the RIB. */
  lemma NothingLeft(run: seq<State>, tasks: seq<TaskId>, actions: seq<Action>, k: nat)
    requires SerialRun(run, tasks, actions) && k < |run|
    requires forall t :: t in run[k].tasks ==> run[k].tasks[t].phase.Done?
    ensures run[k].live == map[] && run[k].stats == map[]
    ensures forall i :: i in run[k].reg ==>
              run[k].reg[i].ingressType != Some(Bgp) && (i in run[k].home ==> run[k].reg[i] == UP)
  {
    var s := run[k];
    SerialRunKept(run, tasks, actions, k);
    NoneLive(s.tasks, s.fates, s.aborted, s.live);
    Uncovered(s);
    BareAtMost(s.reg, s.home, s.nextId);
  }

  lemma NoneLive(tasks: map<TaskId, Task>, fates: map<TaskId, Fate>, aborted: set<TaskId>, live: map<Peer, LiveEntry>)
    requires Locals(tasks, fates, aborted, live) && forall t :: t in tasks ==> tasks[t].phase.Done?
    ensures live == map[]
  {
    forall p ensures p !in live {
      if p in live {
        OwnerNotDone(tasks, fates, aborted, live, p);
      }
    }
  }

  lemma OwnerNotDone(tasks: map<TaskId, Task>, fates: map<TaskId, Fate>, aborted: set<TaskId>, live: map<Peer, LiveEntry>, p: Peer)
    requires Locals(tasks, fates, aborted, live) && p in live
    ensures !tasks[live[p].task].phase.Done?
  {
    var t := live[p].task;
    assert Local(t, tasks[t], FateOf(fates, t), t in aborted, live);
  }

  lemma Uncovered(s: State)
    requires NoLeak(s) && s.live == map[] && forall t :: t in s.tasks ==> s.tasks[t].phase.Done?
    ensures s.stats == map[] && forall i :: i in s.home ==> !BgpIn(s.reg, i)
  {
    assert forall i :: !Covered(s.tasks, s.live, i) && !Dropped(s.tasks, i);
    assert forall i :: i !in s.stats;
  }

  lemma BareAtMost(reg: map<IngressId, IngressInfo>, home: map<IngressId, Peer>, nextId: IngressId)
    requires OneEach(reg, home) && Registrations(reg, home, nextId) && forall i :: i in home ==> !BgpIn(reg, i)
    ensures forall i :: i in reg ==> reg[i].ingressType != Some(Bgp) && (i in home ==> reg[i] == UP)
  {
    forall i | i in reg ensures reg[i].ingressType != Some(Bgp) && (i in home ==> reg[i] == UP) {
      assert i in home ==> !BgpIn(reg, i);
    }
  }

  // ---- When a bare mark is there ----

  /** An entry with nothing but the state that the RIB writes. */
  predicate Bare(reg: map<IngressId, IngressInfo>, i: IngressId) {
    i in reg && reg[i] == UP
  }

  /** A session publishes itself under the id, or a cleanup removes what is registered under it. */
  predicate Rewrites(s: State, t: TaskId, a: Action, i: IngressId) {
    (a.APublish? || a.ADropRegister?) && t in s.tasks && s.tasks[t].id == i
  }

  /** The RIB marks an id that is not registered. */
  predicate MarksUnregistered(s: State, a: Action, i: IngressId) {
    a == ARibMarks(i) && i !in s.reg
  }

  /** An id of a connection, or one that nobody has drawn yet. */
  predicate OfConnection(s: State, i: IngressId) {
    i in s.home || s.nextId <= i
  }

  /** What a step does to a bare mark. */
  predicate BareNext(s: State, t: TaskId, a: Action, s': State, i: IngressId) {
    Bare(s'.reg, i) <==> MarksUnregistered(s, a, i) || (Bare(s.reg, i) && !Rewrites(s, t, a, i))
  }

  /** What a session or the RIB writes, as far as bare marks go. */
  lemma UpdatedBare(reg: map<IngressId, IngressInfo>, x: IngressId, p: Peer, rib: nat, i: IngressId)
    requires i in reg ==> BgpIn(reg, i) || reg[i] == UP
    ensures Bare(Updated(reg, x, Details(p, rib)), i) <==> Bare(reg, i) && i != x
    ensures Bare(Updated(reg, x, UP), i) <==> Bare(reg, i) || (i == x && i !in reg)
    ensures BgpIn(reg, x) ==> (Bare(Updated(reg, x, GONE), i) <==> Bare(reg, i))
  {
  }

  lemma FullOrBare(s: State, t: TaskId, i: IngressId)
    requires SerialInv(s) && OfConnection(s, i)
    ensures i in s.reg ==> BgpIn(s.reg, i) || s.reg[i] == UP
    ensures CanPurge(s, t) ==> s.tasks[t].phase.goneId == s.tasks[t].id
    ensures At(s, t, Retiring) ==> BgpIn(s.reg, s.tasks[t].id)
  {
    assert t in s.tasks ==> Choice(t, s.tasks[t], s.live, s.reg, s.home);
  }

  lemma OpenBare(s: State, t: TaskId, a: Action, s': State, i: IngressId)
    requires CanPurge(s, t) ==> s.tasks[t].phase.goneId == s.tasks[t].id
    requires OpenStep(s, t, a, s')
    ensures BareNext(s, t, a, s', i)
  {
    assert s'.reg == s.reg;
  }

  lemma EnterBare(s: State, t: TaskId, a: Action, s': State, i: IngressId)
    requires i in s.reg ==> BgpIn(s.reg, i) || s.reg[i] == UP
    requires EnterStep(s, t, a, s') && OfConnection(s, i)
    ensures BareNext(s, t, a, s', i)
  {
    match a
    case APublish(rib) => UpdatedBare(s.reg, s.tasks[t].id, s.tasks[t].peer, rib, i);
    case ARibMarks(x) => UpdatedBare(s.reg, x, Peer(0, 0), 0, i);
    case AOtherWrites(x, info) => assert i != x;
    case _ =>
  }

  lemma CleanBare(s: State, t: TaskId, a: Action, s': State, i: IngressId)
    requires i in s.reg ==> BgpIn(s.reg, i) || s.reg[i] == UP
    requires At(s, t, Retiring) ==> BgpIn(s.reg, s.tasks[t].id)
    requires CleanStep(s, t, a, s')
    ensures BareNext(s, t, a, s', i)
  {
    if a.AMark? {
      UpdatedBare(s.reg, s.tasks[t].id, s.tasks[t].peer, 0, i);
    }
  }

  lemma StepBare(s: State, t: TaskId, a: Action, s': State, i: IngressId)
    requires SerialInv(s) && Step(s, t, a, s') && OfConnection(s, i)
    ensures BareNext(s, t, a, s', i)
  {
    FullOrBare(s, t, i);
    if OpenStep(s, t, a, s') {
      OpenBare(s, t, a, s', i);
    } else if EnterStep(s, t, a, s') {
      EnterBare(s, t, a, s', i);
    } else {
      CleanBare(s, t, a, s', i);
    }
  }

  lemma OpenDraws(s: State, t: TaskId, a: Action, s': State, i: IngressId)
    requires OpenStep(s, t, a, s') && OfConnection(s', i)
    ensures OfConnection(s, i)
  {
  }

  lemma EnterDraws(s: State, t: TaskId, a: Action, s': State, i: IngressId)
    requires EnterStep(s, t, a, s') && OfConnection(s', i)
    ensures OfConnection(s, i)
  {
  }

  lemma CleanDraws(s: State, t: TaskId, a: Action, s': State, i: IngressId)
    requires CleanStep(s, t, a, s') && OfConnection(s', i)
    ensures OfConnection(s, i)
  {
  }

  lemma StepDraws(s: State, t: TaskId, a: Action, s': State, i: IngressId)
    requires Step(s, t, a, s') && OfConnection(s', i)
    ensures OfConnection(s, i)
  {
    if OpenStep(s, t, a, s') {
      OpenDraws(s, t, a, s', i);
    } else if EnterStep(s, t, a, s') {
      EnterDraws(s, t, a, s', i);
    } else {
      CleanDraws(s, t, a, s', i);
    }
  }

  /** An id is not drawn before its connection comes. */
  lemma {:induction false} NotDrawnBefore(run: seq<State>, j: nat, k: nat, i: IngressId)
    requires j <= k < |run| && OfConnection(run[k], i)
    requires forall m :: 0 <= m < |run| - 1 && OfConnection(run[m + 1], i) ==> OfConnection(run[m], i)
    ensures OfConnection(run[j], i)
    decreases k
  {
    if j < k {
      assert OfConnection(run[k - 1 + 1], i);
      NotDrawnBefore(run, j, k - 1, i);
    }
  }

  lemma RunBare(run: seq<State>, tasks: seq<TaskId>, actions: seq<Action>, j: nat, k: nat, i: IngressId)
    requires SerialRun(run, tasks, actions) && j < k < |run| && OfConnection(run[k], i)
    ensures BareNext(run[j], tasks[j], actions[j], run[j + 1], i)
  {
    SerialRunKept(run, tasks, actions, j);
    forall m | 0 <= m < |run| - 1 && OfConnection(run[m + 1], i) ensures OfConnection(run[m], i) {
      StepDraws(run[m], tasks[m], actions[m], run[m + 1], i);
    }
    NotDrawnBefore(run, j, k, i);
    StepBare(run[j], tasks[j], actions[j], run[j + 1], i);
  }

  /** Step `m` sets something, and no step after it up to state `k` clears it. */
  predicate LastSet(sets: seq<bool>, clears: seq<bool>, m: nat, k: nat)
    requires |sets| == |clears| && k <= |sets|
  {
    m < k && sets[m] && forall j :: m < j < k ==> !clears[j]
  }

  lemma {:induction false} SetExactly(on: seq<bool>, sets: seq<bool>, clears: seq<bool>, k: nat)
    requires |on| == |sets| + 1 == |clears| + 1 && k < |on| && !on[0]
    requires forall j :: 0 <= j < k ==> (on[j + 1] <==> sets[j] || (on[j] && !clears[j]))
    ensures on[k] <==> exists m :: LastSet(sets, clears, m, k)
  {
    if k > 0 {
      SetExactly(on, sets, clears, k - 1);
      if on[k] {
        if sets[k - 1] {
          assert LastSet(sets, clears, k - 1, k);
        } else {
          var m: nat :| LastSet(sets, clears, m, k - 1);
          assert LastSet(sets, clears, m, k);
        }
      }
      if m: nat :| LastSet(sets, clears, m, k) {
        assert m < k - 1 ==> LastSet(sets, clears, m, k - 1);
      }
    }
  }

  /** Step `m` marks the id while it is not registered, and from then on up to state `k` nobody
      publishes itself under the id or removes what is registered under it. */
  ghost predicate MarkStays(run: seq<State>, tasks: seq<TaskId>, actions: seq<Action>, m: nat, k: nat, i: IngressId)
    requires |run| == |tasks| + 1 == |actions| + 1 && k < |run|
  {
    && m < k
    && MarksUnregistered(run[m], actions[m], i)
    && forall j :: m < j < k ==> !Rewrites(run[j], tasks[j], actions[j], i)
  }

  lemma BareSince(run: seq<State>, tasks: seq<TaskId>, actions: seq<Action>, k: nat, i: IngressId)
    requires |run| == |tasks| + 1 == |actions| + 1 && k < |run| && i !in run[0].reg
    requires forall j :: 0 <= j < k ==> BareNext(run[j], tasks[j], actions[j], run[j + 1], i)
    ensures Bare(run[k].reg, i) <==> exists m :: MarkStays(run, tasks, actions, m, k, i)
  {
    var n := |actions|;
    var on := seq(n + 1, j requires 0 <= j <= n => Bare(run[j].reg, i));
    var sets := seq(n, j requires 0 <= j < n => MarksUnregistered(run[j], actions[j], i));
    var clears := seq(n, j requires 0 <= j < n => Rewrites(run[j], tasks[j], actions[j], i));
    SetExactly(on, sets, clears, k);
    forall m: nat ensures m < k ==> (LastSet(sets, clears, m, k) <==> MarkStays(run, tasks, actions, m, k, i)) {
      if m < k && LastSet(sets, clears, m, k) {
        forall j | m < j < k ensures !Rewrites(run[j], tasks[j], actions[j], i) {
          assert !clears[j];
        }
      }
    }
  }

  /** At any moment of every run, there is a bare mark under an id of a connection exactly if the RIB
      has marked the id when it was not registered, and since then no session has published itself
      under it and no cleanup has removed it. */
  lemma BareMarkExactly(run: seq<State>, tasks: seq<TaskId>, actions: seq<Action>, k: nat, i: IngressId)
    requires SerialRun(run, tasks, actions) && k < |run| && i in run[k].home
    ensures Bare(run[k].reg, i) <==> exists m :: MarkStays(run, tasks, actions, m, k, i)
  {
    forall j | 0 <= j < k ensures BareNext(run[j], tasks[j], actions[j], run[j + 1], i) {
      RunBare(run, tasks, actions, j, k, i);
    }
    BareSince(run, tasks, actions, k, i);
  }

  /** So an id of a connection is still registered when all has ended exactly if such a mark stays. */
  lemma LeftExactly(run: seq<State>, tasks: seq<TaskId>, actions: seq<Action>, k: nat, i: IngressId)
    requires SerialRun(run, tasks, actions) && k < |run| && i in run[k].home
    requires forall t :: t in run[k].tasks ==> run[k].tasks[t].phase.Done?
    ensures i in run[k].reg <==> exists m :: MarkStays(run, tasks, actions, m, k, i)
  {
    NothingLeft(run, tasks, actions, k);
    BareMarkExactly(run, tasks, actions, k, i);
  }
}
