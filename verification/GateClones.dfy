/** A gate and its clones. They share one map of update senders; the root changes it when a link
    subscribes, unsubscribes or asks to be suspended and tells every clone of the first two, and each
    clone then makes the same change to the same map once more, whenever it gets to it. */
module GateClones {
  import opened Wrappers

  type Slot = nat
  type Sender = nat
  type Clone = nat

  const COMMAND_QUEUE_LEN: nat := 16

  /** Other: FollowReconfigure, ReportLinks, Trigger or Terminate. */
  datatype Note = FollowSubscribe(slot: Slot, sender: Sender) | FollowUnsubscribe(slot: Slot) | Other

  datatype Subscription = Subscription(sender: Sender, suspended: bool)

  /** What the root is in the middle of. `left` are the clones it has still to notify, `closed`
      whether it has met one that is gone. */
  datatype Phase =
    | Idle
    | Responding(slot: Slot, sub: Subscription)
    | Notifying(note: Note, left: set<Clone>, closed: bool)

  /** `queues` has the command queue of every clone that is alive, `senders` the clones whose queue the
      root can reach. `first` is the first slot given out through the channel that is read now, and
      `moved` says that this is not the channel the clones send to any more.

      The others only record history: `live` the subscriptions that were accepted and not given up,
      `paused` the slots whose link last asked to be suspended, `followed` those of them that a clone
      has put into the map since, and `kept` what was suspended when a Reconfigure came. */
  datatype State = State(
    updates: map<Slot, Sender>,
    suspended: map<Slot, Sender>,
    next: Slot,
    first: Slot,
    moved: bool,
    phase: Phase,
    queues: map<Clone, seq<Note>>,
    senders: set<Clone>,
    live: map<Slot, Sender>,
    paused: set<Slot>,
    followed: set<Slot>,
    kept: map<Slot, Sender>)

  function Init(): State {
    State(map[], map[], 0, 0, false, Idle, map[], {}, map[], {}, {}, map[])
  }

  // ---- Steps of the root ----

  function Subscribed(s: State, sub: Subscription): State {
    s.(next := s.next + 1,
       phase := Responding(s.next, sub),
       suspended := if sub.suspended then s.suspended[s.next := sub.sender] else s.suspended,
       updates := if sub.suspended then s.updates else s.updates[s.next := sub.sender])
  }

  /** A refused response takes the slot out again and no clone hears of it. */
  function Responded(s: State, accepted: bool): State
    requires s.phase.Responding?
  {
    var slot, sub := s.phase.slot, s.phase.sub;
    if accepted then
      s.(live := s.live[slot := sub.sender],
         paused := if sub.suspended then s.paused + {slot} else s.paused,
         phase := Notifying(FollowSubscribe(slot, sub.sender), s.senders, false))
    else
      s.(suspended := if sub.suspended then s.suspended - {slot} else s.suspended,
         updates := if sub.suspended then s.updates else s.updates - {slot},
         phase := Idle)
  }

  function Unsubscribed(s: State, slot: Slot): State {
    s.(suspended := s.suspended - {slot}, updates := s.updates - {slot}, live := s.live - {slot},
       phase := Notifying(FollowUnsubscribe(slot), s.senders, false))
  }

  /** A subscription changes between the two maps. The clones are not told. */
  function Suspended(s: State, slot: Slot, suspend: bool): State {
    if suspend then
      s.(updates := s.updates - {slot},
         suspended := if slot in s.updates then s.suspended[slot := s.updates[slot]] else s.suspended,
         paused := s.paused + {slot},
         followed := s.followed - {slot})
    else
      s.(suspended := s.suspended - {slot},
         updates := if slot in s.suspended then s.updates[slot := s.suspended[slot]] else s.updates,
         paused := s.paused - {slot})
  }

  /** Another channel is read from now on and the map of senders is replaced by an empty one; the map
      of suspended senders is not. Nothing that links of the old channel send is read any more. */
  function Reconfigured(s: State): State {
    s.(updates := map[], live := map[], kept := s.suspended, first := s.next, moved := true,
       phase := Notifying(Other, s.senders, false))
  }

  predicate HasRoom(s: State, c: Clone) {
    c in s.queues && |s.queues[c]| < COMMAND_QUEUE_LEN
  }

  /** Never blocks: a command for a full queue is dropped. */
  function NotifiedOne(s: State, c: Clone): State
    requires s.phase.Notifying?
  {
    s.(phase := Notifying(s.phase.note, s.phase.left - {c}, s.phase.closed || c !in s.queues),
       queues := if HasRoom(s, c) then s.queues[c := s.queues[c] + [s.phase.note]] else s.queues)
  }

  function NotifiedAll(s: State): State
    requires s.phase.Notifying?
  {
    s.(phase := Idle, senders := if s.phase.closed then s.senders * s.queues.Keys else s.senders)
  }

  // ---- Steps of the clones ----

  function Processed(s: State, c: Clone): State
    requires c in s.queues && s.queues[c] != []
  {
    var note := s.queues[c][0];
    s.(queues := s.queues[c := s.queues[c][1..]],
       updates := match note
         case FollowSubscribe(slot, sender) => s.updates[slot := sender]
         case FollowUnsubscribe(slot) => s.updates - {slot}
         case Other => s.updates,
       followed := if note.FollowSubscribe? then s.followed + {note.slot} else s.followed)
  }

  datatype Action =
    | Subscribe(sub: Subscription)
    | Respond(accepted: bool)
    | Unsubscribe(slot: Slot)
    | Suspension(slot: Slot, suspend: bool)
    | Reconfigure
    | Pass
    | NotifyOne(c: Clone)
    | NotifyAll
    | AttachClone(c: Clone)
    | DetachClone(c: Clone)
    | MakeClone(c: Clone)
    | Process(c: Clone)
    | Drop(c: Clone)

  /** What the root does about subscriptions. A link asks for its own slot only, as long as it has one. */
  predicate LinkStep(s: State, a: Action, s': State) {
    match a
    case Subscribe(sub) => s.phase.Idle? && s' == Subscribed(s, sub)
    case Respond(accepted) => s.phase.Responding? && s' == Responded(s, accepted)
    case Unsubscribe(slot) => s.phase.Idle? && s.first <= slot < s.next && s' == Unsubscribed(s, slot)
    case Suspension(slot, suspend) => s.phase.Idle? && slot in s.live && s' == Suspended(s, slot, suspend)
    case Reconfigure => s.phase.Idle? && s' == Reconfigured(s)
    case _ => false
  }

  /** What it does about its clones. Their requests come through the channel it had at first. */
  predicate RootStep(s: State, a: Action, s': State) {
    match a
    case Pass => s.phase.Idle? && s' == s.(phase := Notifying(Other, s.senders, false))
    case NotifyOne(c) => s.phase.Notifying? && c in s.phase.left && s' == NotifiedOne(s, c)
    case NotifyAll => s.phase.Notifying? && s.phase.left == {} && s' == NotifiedAll(s)
    case AttachClone(c) => s.phase.Idle? && !s.moved && s' == s.(senders := s.senders + {c})
    case DetachClone(c) => s.phase.Idle? && !s.moved && c !in s.queues && s' == s.(senders := s.senders - {c})
    case _ => false
  }

  predicate CloneStep(s: State, a: Action, s': State) {
    match a
    case MakeClone(c) => c !in s.queues && c !in s.senders && s' == s.(queues := s.queues[c := []])
    case Process(c) => c in s.queues && s.queues[c] != [] && s' == Processed(s, c)
    case Drop(c) => c in s.queues && s' == s.(queues := s.queues - {c})
    case _ => false
  }

  predicate Step(s: State, a: Action, s': State) {
    LinkStep(s, a, s') || RootStep(s, a, s') || CloneStep(s, a, s')
  }

  ghost predicate Path(run: seq<State>, actions: seq<Action>) {
    && |run| == |actions| + 1
    && forall k :: 0 <= k < |actions| ==> Step(run[k], actions[k], run[k + 1])
  }

  ghost predicate Run(run: seq<State>, actions: seq<Action>) {
    Path(run, actions) && run[0] == Init()
  }

  /** Nothing is under way. */
  ghost predicate Quiet(s: State) {
    s.phase.Idle? && forall c :: c in s.queues ==> s.queues[c] == []
  }
}
