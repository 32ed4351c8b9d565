/** The connection tasks of one bgp-tcp-in unit, and the three things they share: the map of
    live sessions behind its lock, the ingress register and the registry of per-peer stats.

    A task takes one step at a time. A step ends where the code gives up a lock or awaits, so
    the steps of different tasks interleave at every such point. While a task holds the lock
    of the live sessions the others can still change the register and the stats, which have
    locks of their own. */
module SessionModel {
  import opened Ingress
  import opened Wrappers

  type TaskId = nat
  type SessionId = nat
  type StatsRef = nat

  datatype Peer = Peer(addr: nat, asn: nat)

  /** The task stands for its abort handle. */
  datatype LiveEntry = LiveEntry(sid: SessionId, task: TaskId, id: IngressId)

  datatype Phase =
    | Accepted                          // in the loop, not negotiated yet
    | Numbered                          // SessionNegotiated received, session id drawn
    | Found                             // ingress id chosen; awaits Withdraw if it is reused
    | Cleared(gone: Option<LiveEntry>)  // entry of the old session removed; awaits its send
    | Purging(goneId: IngressId)        // old task aborted
    | Ready                             // about to insert itself
    | Inserted                          // in the live sessions
    | Registered                        // update_info done
    | StatsMissing                      // no stats entry seen under the read lock
    | Established                       // stats handle held; back in the loop
    | Leaving                           // out of the loop, cleanup not begun
    | Retiring                          // lock held: own entry removed
    | Withdrawing                       // marked Disconnected, lock released; awaits Withdraw
    | Reclaiming                        // lock held: no live session has the id
    | Dropping                          // lock held: register entry removed
    | Done

  datatype Task = Task(
    peer: Peer,
    sid: Option<SessionId>,
    id: IngressId,
    phase: Phase,
    handle: Option<StatsRef>)

  /** How often another session took the entry of this one away, how often it retired its
      entry itself, and how many cleanup Withdraws it sent. */
  datatype Fate = Fate(lost: nat, retired: nat, withdrew: nat)

  /** `home` and `fates` are history, read by no step: the peer whose connection drew an id
      from the register, and what became of the entries of the live sessions. */
  datatype State = State(
    tasks: map<TaskId, Task>,
    aborted: set<TaskId>,
    live: map<Peer, LiveEntry>,
    lock: Option<TaskId>,
    reg: map<IngressId, IngressInfo>,
    stats: map<IngressId, StatsRef>,
    nextSid: SessionId,
    nextId: IngressId,
    nextRef: StatsRef,
    home: map<IngressId, Peer>,
    fates: map<TaskId, Fate>)

  predicate Init(s: State) {
    && s.tasks == map[] && s.aborted == {} && s.live == map[] && s.lock == None
    && s.reg == map[] && s.stats == map[] && s.home == map[] && s.fates == map[]
  }

  predicate IsBgpOf(info: IngressInfo, p: Peer) {
    MatchesBgpSession(info, Query(p))
  }

  function Query(p: Peer): IngressInfo {
    NO_INFO.(ingressType := Some(Bgp), remoteAddr := Some(p.addr), remoteAsn := Some(p.asn))
  }

  /** What a negotiated session writes; `rib` is the code of the RIB type it sets. */
  function Details(p: Peer, rib: nat): IngressInfo {
    Query(p).(state := Some(Connected), peerRibType := Some(rib))
  }

  const GONE := NO_INFO.(state := Some(Disconnected))

  /** What the RIB writes when routes of a withdrawn id come back. */
  const UP := NO_INFO.(state := Some(Connected))

  function FateOf(fates: map<TaskId, Fate>, t: TaskId): Fate {
    if t in fates then fates[t] else Fate(0, 0, 0)
  }

  /** Task `t` is in another phase. */
  function Moved(tasks: map<TaskId, Task>, t: TaskId, phase: Phase): map<TaskId, Task>
    requires t in tasks
  {
    tasks[t := tasks[t].(phase := phase)]
  }

  predicate At(s: State, t: TaskId, phase: Phase) {
    t in s.tasks && s.tasks[t].phase == phase
  }

  // A connection is accepted: its task starts with an id of its own.

  predicate CanAccept(s: State, t: TaskId) {
    t !in s.tasks
  }

  function Accept(s: State, t: TaskId, p: Peer): State {
    s.(tasks := s.tasks[t := Task(p, None, s.nextId, Accepted, None)],
       home := s.home[s.nextId := p],
       nextId := s.nextId + 1)
  }

  // Negotiation.

  function Number(s: State, t: TaskId): State
    requires At(s, t, Accepted)
  {
    s.(tasks := s.tasks[t := s.tasks[t].(phase := Numbered, sid := Some(s.nextSid))],
       nextSid := s.nextSid + 1)
  }

  /** The register is searched in any order; what is found first is reused. */
  predicate CanFind(s: State, t: TaskId, found: Option<IngressId>) {
    && At(s, t, Numbered)
    && (if found.Some? then found.value in s.reg && IsBgpOf(s.reg[found.value], s.tasks[t].peer)
        else forall i :: i in s.reg ==> !IsBgpOf(s.reg[i], s.tasks[t].peer))
  }

  function Find(s: State, t: TaskId, found: Option<IngressId>): State
    requires CanFind(s, t, found)
  {
    s.(tasks := s.tasks[t := s.tasks[t].(phase := Found, id := if found.Some? then found.value else s.tasks[t].id)])
  }

  predicate CanTake(s: State, t: TaskId) {
    At(s, t, Found) && s.lock == None
  }

  /** The session that has the entry of peer `p`, if any, loses it. */
  function Deprived(s: State, p: Peer): map<TaskId, Fate> {
    if p in s.live then
      var fate := FateOf(s.fates, s.live[p].task);
      s.fates[s.live[p].task := fate.(lost := fate.lost + 1)]
    else
      s.fates
  }

  /** Remove whatever session the peer has. */
  function Take(s: State, t: TaskId): State
    requires CanTake(s, t)
  {
    var p := s.tasks[t].peer;
    s.(tasks := Moved(s.tasks, t, Cleared(if p in s.live then Some(s.live[p]) else None)),
       live := s.live - {p},
       fates := Deprived(s, p))
  }

  predicate CanAbort(s: State, t: TaskId) {
    t in s.tasks && s.tasks[t].phase.Cleared?
  }

  function Abort(s: State, t: TaskId): State
    requires CanAbort(s, t)
  {
    match s.tasks[t].phase.gone
    case None => s.(tasks := Moved(s.tasks, t, Ready))
    case Some(e) => s.(tasks := Moved(s.tasks, t, Purging(e.id)), aborted := s.aborted + {e.task})
  }

  predicate CanPurge(s: State, t: TaskId) {
    t in s.tasks && s.tasks[t].phase.Purging?
  }

  /** An old session under a different id loses its register entry. */
  function Purge(s: State, t: TaskId): State
    requires CanPurge(s, t)
  {
    var goneId := s.tasks[t].phase.goneId;
    s.(tasks := Moved(s.tasks, t, Ready), reg := if goneId != s.tasks[t].id then s.reg - {goneId} else s.reg)
  }

  predicate CanInsert(s: State, t: TaskId) {
    At(s, t, Ready) && s.lock == None
  }

  /** An entry already there is overwritten. */
  function Insert(s: State, t: TaskId): State
    requires CanInsert(s, t)
  {
    var p := s.tasks[t].peer;
    s.(tasks := Moved(s.tasks, t, Inserted),
       live := s.live[p := LiveEntry(Sid(s.tasks[t]), t, s.tasks[t].id)],
       fates := Deprived(s, p))
  }

  function Publish(s: State, t: TaskId, rib: nat): State
    requires At(s, t, Inserted)
  {
    s.(tasks := Moved(s.tasks, t, Registered), reg := Updated(s.reg, s.tasks[t].id, Details(s.tasks[t].peer, rib)))
  }

  function Hold(tasks: map<TaskId, Task>, t: TaskId, ref: StatsRef): map<TaskId, Task>
    requires t in tasks
  {
    tasks[t := tasks[t].(phase := Established, handle := Some(ref))]
  }

  /** The first half of get_or_create, under the read lock. */
  function LookupStats(s: State, t: TaskId): State
    requires At(s, t, Registered)
  {
    s.(tasks := if s.tasks[t].id in s.stats then Hold(s.tasks, t, s.stats[s.tasks[t].id])
                else Moved(s.tasks, t, StatsMissing))
  }

  /** The second half, under the write lock. */
  function CreateStats(s: State, t: TaskId): State
    requires At(s, t, StatsMissing)
  {
    if s.tasks[t].id in s.stats then s.(tasks := Hold(s.tasks, t, s.stats[s.tasks[t].id]))
    else
      s.(tasks := Hold(s.tasks, t, s.nextRef),
         stats := s.stats[s.tasks[t].id := s.nextRef],
         nextRef := s.nextRef + 1)
  }

  // The loop ends, for whatever reason, and the cleanup runs.

  predicate CanLeave(s: State, t: TaskId) {
    At(s, t, Accepted) || At(s, t, Established)
  }

  function Leave(s: State, t: TaskId): State
    requires CanLeave(s, t)
  {
    s.(tasks := Moved(s.tasks, t, Leaving))
  }

  predicate CanCheck(s: State, t: TaskId) {
    At(s, t, Leaving) && s.lock == None
  }

  /** Is the entry still ours? */
  predicate Owns(s: State, t: TaskId) {
    && t in s.tasks
    && s.tasks[t].sid.Some?
    && s.tasks[t].peer in s.live
    && s.live[s.tasks[t].peer].sid == s.tasks[t].sid.value
  }

  function Check(s: State, t: TaskId): State
    requires CanCheck(s, t)
  {
    if Owns(s, t) then
      var fate := FateOf(s.fates, t);
      s.(tasks := Moved(s.tasks, t, Retiring),
         live := s.live - {s.tasks[t].peer},
         lock := Some(t),
         fates := s.fates[t := fate.(retired := fate.retired + 1)])
    else
      s.(tasks := Moved(s.tasks, t, Done))
  }

  function Mark(s: State, t: TaskId): State
    requires At(s, t, Retiring)
  {
    var fate := FateOf(s.fates, t);
    s.(tasks := Moved(s.tasks, t, Withdrawing),
       reg := Updated(s.reg, s.tasks[t].id, GONE),
       lock := None,
       fates := s.fates[t := fate.(withdrew := fate.withdrew + 1)])
  }

  predicate CanRecheck(s: State, t: TaskId) {
    At(s, t, Withdrawing) && s.lock == None
  }

  predicate InUse(s: State, i: IngressId) {
    exists p :: p in s.live && s.live[p].id == i
  }

  function Recheck(s: State, t: TaskId): State
    requires CanRecheck(s, t)
  {
    if InUse(s, s.tasks[t].id) then s.(tasks := Moved(s.tasks, t, Done))
    else s.(tasks := Moved(s.tasks, t, Reclaiming), lock := Some(t))
  }

  function DropRegister(s: State, t: TaskId): State
    requires At(s, t, Reclaiming)
  {
    s.(tasks := Moved(s.tasks, t, Dropping), reg := s.reg - {s.tasks[t].id})
  }

  function DropStats(s: State, t: TaskId): State
    requires At(s, t, Dropping)
  {
    s.(tasks := Moved(s.tasks, t, Done), stats := s.stats - {s.tasks[t].id}, lock := None)
  }

  /** An abort strikes between the messages of the loop or at an await. */
  predicate CanKill(s: State, t: TaskId) {
    && t in s.tasks
    && t in s.aborted
    && var phase := s.tasks[t].phase;
       phase.Found? || phase.Cleared? || phase.Purging? || phase.Established? || phase.Withdrawing?
  }

  function Kill(s: State, t: TaskId): State
    requires CanKill(s, t)
  {
    s.(tasks := Moved(s.tasks, t, Done))
  }

  /** A task past its negotiation has drawn a session id. */
  function Sid(task: Task): SessionId {
    if task.sid.Some? then task.sid.value else 0
  }

  // The other units draw ids of their own and keep entries of other types under them.

  predicate CanWrite(s: State, i: IngressId, info: Option<IngressInfo>) {
    i !in s.home && i < s.nextId && (info.Some? ==> info.value.ingressType != Some(Bgp))
  }

  function OtherWrites(s: State, i: IngressId, info: Option<IngressInfo>): State {
    s.(reg := if info.Some? then s.reg[i := info.value] else s.reg - {i})
  }

  // The RIB marks an id Connected when an active route arrives under it after a withdrawal,
  // whether or not the id is registered by then.

  function RibMarked(s: State, i: IngressId): State {
    s.(reg := Updated(s.reg, i, UP))
  }

  datatype Action =
    | AAccept(p: Peer) | ANumber | AFind(found: Option<IngressId>) | ATake | AAbort | APurge
    | AInsert | APublish(rib: nat) | ALookupStats | ACreateStats
    | AOtherDraws | AOtherWrites(i: IngressId, info: Option<IngressInfo>) | ARibMarks(i: IngressId)
    | ALeave | ACheck | AMark | ARecheck | ADropRegister | ADropStats | AKill

  /** From the connection to the point where the peer has no live session. */
  predicate OpenStep(s: State, t: TaskId, a: Action, s': State) {
    match a
    case AAccept(p) => CanAccept(s, t) && s' == Accept(s, t, p)
    case ANumber => At(s, t, Accepted) && s' == Number(s, t)
    case AFind(found) => CanFind(s, t, found) && s' == Find(s, t, found)
    case ATake => CanTake(s, t) && s' == Take(s, t)
    case AAbort => CanAbort(s, t) && s' == Abort(s, t)
    case APurge => CanPurge(s, t) && s' == Purge(s, t)
    case _ => false
  }

  /** From there to the loop of the established session; and what other units do to the register. */
  predicate EnterStep(s: State, t: TaskId, a: Action, s': State) {
    match a
    case AInsert => CanInsert(s, t) && s' == Insert(s, t)
    case APublish(rib) => At(s, t, Inserted) && s' == Publish(s, t, rib)
    case ALookupStats => At(s, t, Registered) && s' == LookupStats(s, t)
    case ACreateStats => At(s, t, StatsMissing) && s' == CreateStats(s, t)
    case AOtherDraws => s' == s.(nextId := s.nextId + 1)
    case AOtherWrites(i, info) => CanWrite(s, i, info) && s' == OtherWrites(s, i, info)
    case ARibMarks(i) => i < s.nextId && s' == RibMarked(s, i)
    case _ => false
  }

  /** The end of a session. */
  predicate CleanStep(s: State, t: TaskId, a: Action, s': State) {
    match a
    case ALeave => CanLeave(s, t) && s' == Leave(s, t)
    case ACheck => CanCheck(s, t) && s' == Check(s, t)
    case AMark => At(s, t, Retiring) && s' == Mark(s, t)
    case ARecheck => CanRecheck(s, t) && s' == Recheck(s, t)
    case ADropRegister => At(s, t, Reclaiming) && s' == DropRegister(s, t)
    case ADropStats => At(s, t, Dropping) && s' == DropStats(s, t)
    case AKill => CanKill(s, t) && s' == Kill(s, t)
    case _ => false
  }

  /** Task `t` takes one step. */
  predicate Step(s: State, t: TaskId, a: Action, s': State) {
    OpenStep(s, t, a, s') || EnterStep(s, t, a, s') || CleanStep(s, t, a, s')
  }

  /** A run: each state follows from the one before by one step of one task. */
  ghost predicate Run(run: seq<State>, tasks: seq<TaskId>, actions: seq<Action>) {
    && |run| == |tasks| + 1 == |actions| + 1
    && Init(run[0])
    && forall k :: 0 <= k < |actions| ==> Step(run[k], tasks[k], actions[k], run[k + 1])
  }
}
