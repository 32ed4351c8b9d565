/** How clones of a gate end. The sending end of a clone's command queue is handed from the attach
    task that `clone` spawns, by a command through the root's own queue, to the root's
    `clone_senders`. A clone ends when it reads Terminate, or when it has read all there is and
    nobody has its sending end any more. */
module GateShutdown {
  type Clone = nat
  type Tid = nat

  const COMMAND_QUEUE_LEN: nat := 16

  /** What the root passes on to its clones; Follow stands for all but Terminate. */
  datatype Note = Terminate | Follow(what: nat)

  datatype RootCommand = AttachClone(c: Clone) | DetachClone(c: Clone) | Other(what: nat)

  /** `inbox` is the queue of the channel the root was made with, and `open` whether the root still
      reads it: a Reconfigure makes it read another, which no clone has a sender for. `queues` has
      the queue of every clone that is not dropped. `made` and `attached` record which clones there
      have been, and which the root has had a sender for. */
  datatype State = State(
    root: bool,
    open: bool,
    told: bool,
    tasks: map<Tid, Clone>,
    inbox: seq<RootCommand>,
    senders: set<Clone>,
    queues: map<Clone, seq<Note>>,
    detaching: set<Clone>,
    terminated: set<Clone>,
    made: set<Clone>,
    attached: set<Clone>)

  function Init(): State {
    State(true, true, false, map[], [], {}, map[], {}, {}, {}, {})
  }

  // ---- Steps ----

  function Made(s: State, c: Clone, t: Tid): State {
    s.(tasks := s.tasks[t := c], queues := s.queues[c := []], made := s.made + {c})
  }

  /** A send waits for room; into a channel nobody reads it fails, and what it carries is dropped. */
  predicate CanSend(s: State) {
    s.open ==> |s.inbox| < COMMAND_QUEUE_LEN
  }

  function Sent(s: State, command: RootCommand): State {
    if s.open then s.(inbox := s.inbox + [command]) else s
  }

  function AttachSent(s: State, t: Tid): State
    requires t in s.tasks
  {
    Sent(s, AttachClone(s.tasks[t])).(tasks := s.tasks - {t})
  }

  function RootRead(s: State): State
    requires s.inbox != []
  {
    var s' := Popped(s);
    match s.inbox[0]
    case AttachClone(c) => s'.(senders := s.senders + {c}, attached := s.attached + {c})
    case DetachClone(c) => s'.(senders := s.senders - {c})
    case Other(_) => s'
  }

  /** What was queued in the old channel is dropped with its receiver. */
  function Reconfigured(s: State): State {
    s.(open := false, inbox := [])
  }

  function RootDropped(s: State): State {
    s.(root := false, open := false, inbox := [], senders := {})
  }

  /** A full queue makes the root drop the note. */
  function Notified(s: State, c: Clone, n: Note): State
    requires c in s.queues
  {
    if |s.queues[c]| < COMMAND_QUEUE_LEN then s.(queues := s.queues[c := s.queues[c] + [n]]) else s
  }

  function Received(s: State, c: Clone): State
    requires c in s.queues && s.queues[c] != []
  {
    s.(queues := s.queues[c := s.queues[c][1..]],
       terminated := if s.queues[c][0].Terminate? then s.terminated + {c} else s.terminated)
  }

  predicate InTask(s: State, c: Clone) {
    exists t :: t in s.tasks && s.tasks[t] == c
  }

  /** Somewhere there is a sending end of the clone's queue. */
  predicate HasSender(s: State, c: Clone) {
    InTask(s, c) || AttachClone(c) in s.inbox || c in s.senders
  }

  datatype Action =
    | MakeClone(c: Clone, t: Tid)
    | SendAttach(t: Tid)
    | SendOther(what: nat)
    | ReadRoot
    | Reconfigure
    | Tell                      // the root reads a Terminate
    | Notify(c: Clone, n: Note)
    | Prune(c: Clone)           // the root finds the clone's queue closed
    | DropRoot
    | Receive(c: Clone)
    | FindClosed(c: Clone)
    | DropClone(c: Clone)
    | SendDetach(c: Clone)

  predicate RootStep(s: State, a: Action, s': State) {
    match a
    case ReadRoot => s.root && s.inbox != [] && s' == RootRead(s)
    case Reconfigure => s.root && s' == Reconfigured(s)
    case Tell => s.root && s' == s.(told := true)
    case Notify(c, n) =>
      s.root && c in s.senders && c in s.queues && (n.Terminate? ==> s.told) && s' == Notified(s, c, n)
    case Prune(c) => s.root && c in s.senders && c !in s.queues && s' == s.(senders := s.senders - {c})
    case DropRoot => s.root && s' == RootDropped(s)
    case _ => false
  }

  predicate CloneStep(s: State, a: Action, s': State) {
    match a
    case MakeClone(c, t) => c !in s.made && t !in s.tasks && s' == Made(s, c, t)
    case SendAttach(t) => t in s.tasks && CanSend(s) && s' == AttachSent(s, t)
    case SendOther(what) => CanSend(s) && s' == Sent(s, Other(what))
    case Receive(c) => c in s.queues && s.queues[c] != [] && c !in s.terminated && s' == Received(s, c)
    case FindClosed(c) =>
      && c in s.queues && s.queues[c] == [] && !HasSender(s, c) && c !in s.terminated
      && s' == s.(terminated := s.terminated + {c})
    case DropClone(c) => c in s.queues && s' == s.(queues := s.queues - {c}, detaching := s.detaching + {c})
    case SendDetach(c) => c in s.detaching && CanSend(s) && s' == Sent(s, DetachClone(c)).(detaching := s.detaching - {c})
    case _ => false
  }

  predicate Step(s: State, a: Action, s': State) {
    RootStep(s, a, s') || CloneStep(s, a, s')
  }

  // ---- Where the sending ends are ----

  /** A sending end is in one attach task, or in one command, or in `clone_senders`. */
  ghost predicate OnePlace(s: State) {
    && (forall t, u :: t in s.tasks && u in s.tasks && s.tasks[t] == s.tasks[u] ==> t == u)
    && (forall i, j :: 0 <= i < |s.inbox| && 0 <= j < |s.inbox| && s.inbox[i].AttachClone? && s.inbox[i] == s.inbox[j] ==> i == j)
    && (forall t :: t in s.tasks ==> AttachClone(s.tasks[t]) !in s.inbox && s.tasks[t] !in s.senders)
    && (forall c :: AttachClone(c) in s.inbox ==> c !in s.senders)
  }

  ghost predicate Known(s: State) {
    && (forall t :: t in s.tasks ==> s.tasks[t] in s.made && s.tasks[t] !in s.attached)
    && (forall c :: AttachClone(c) in s.inbox ==> c in s.made && c !in s.attached)
    && s.senders <= s.attached <= s.made
    && s.queues.Keys <= s.made && s.terminated <= s.made && s.detaching <= s.made && s.detaching !! s.queues.Keys
    && (forall c :: DetachClone(c) in s.inbox ==> c in s.made && c !in s.queues)
  }

  ghost predicate Closed(s: State) {
    && (!s.open ==> s.inbox == [])
    && (!s.root ==> !s.open && s.senders == {})
  }

  /** A clone that is not dropped and not attached waits to be, or never will be. */
  ghost predicate Waiting(s: State, c: Clone) {
    && (c in s.attached && s.root ==> c in s.senders)
    && (c !in s.attached && s.open ==> InTask(s, c) || AttachClone(c) in s.inbox)
  }

  ghost predicate Queued(s: State, c: Clone)
    requires c in s.queues
  {
    && |s.queues[c]| <= COMMAND_QUEUE_LEN
    && (s.queues[c] != [] ==> c in s.attached)
    && (Terminate in s.queues[c] ==> s.told)
  }

  ghost predicate Inv(s: State) {
    && OnePlace(s) && Known(s) && Closed(s)
    && forall c :: c in s.queues ==> Waiting(s, c) && Queued(s, c)
  }

  // ---- Every step keeps it ----

  lemma WaitingSame(s: State, s': State, c: Clone)
    requires Waiting(s, c) && s'.tasks == s.tasks && s'.attached == s.attached
    requires s'.root ==> s.root
    requires s'.open ==> s.open
    requires c in s.senders && s'.root ==> c in s'.senders
    requires AttachClone(c) in s.inbox && s'.open ==> AttachClone(c) in s'.inbox
    ensures Waiting(s', c)
  {
  }

  lemma MakeKept(s: State, c: Clone, t: Tid)
    requires Inv(s) && c !in s.made && t !in s.tasks
    ensures Inv(Made(s, c, t))
  {
    var s' := Made(s, c, t);
    assert s'.tasks[t] == c;
    forall d | d in s'.queues ensures Waiting(s', d) && Queued(s', d) {
      if d != c {
        assert Waiting(s, d) && Queued(s, d);
        if InTask(s, d) {
          var u :| u in s.tasks && s.tasks[u] == d;
          assert s'.tasks[u] == d;
        }
      }
    }
  }

  lemma AttachKept(s: State, t: Tid)
    requires Inv(s) && t in s.tasks
    ensures Inv(AttachSent(s, t))
  {
    var s', c := AttachSent(s, t), s.tasks[t];
    assert s.open ==> s'.inbox[|s.inbox|] == AttachClone(c);
    forall d | d in s'.queues ensures Waiting(s', d) && Queued(s', d) {
      assert Waiting(s, d) && Queued(s, d);
      if InTask(s, d) && d != c {
        var u :| u in s.tasks && s.tasks[u] == d;
        assert u in s'.tasks && s'.tasks[u] == d;
      }
      assert forall x :: x in s.inbox && s.open ==> x in s'.inbox;
    }
  }

  lemma SentKept(s: State, command: RootCommand, detaching: set<Clone>)
    requires Inv(s) && !command.AttachClone? && detaching <= s.detaching
    requires command.DetachClone? ==> command.c in s.made && command.c !in s.queues
    ensures Inv(Sent(s, command).(detaching := detaching))
  {
    var s' := Sent(s, command).(detaching := detaching);
    assert forall x :: x in s'.inbox ==> x in s.inbox || x == command;
    forall d | d in s'.queues ensures Waiting(s', d) && Queued(s', d) {
      assert Waiting(s, d) && Queued(s, d);
      assert forall x :: x in s.inbox && s.open ==> x in s'.inbox;
      WaitingSame(s, s', d);
    }
  }

  /** The command is read, and what it carries is in the reader's hands. */
  function Popped(s: State): State
    requires s.inbox != []
  {
    s.(inbox := s.inbox[1..])
  }

  lemma PoppedFacts(s: State)
    requires s.inbox != []
    ensures forall x :: x in Popped(s).inbox ==> x in s.inbox
    ensures forall x :: x in s.inbox ==> x == s.inbox[0] || x in Popped(s).inbox
    ensures s.inbox[0] in s.inbox
  {
  }

  lemma ReadAttachKept(s: State)
    requires Inv(s) && s.root && s.inbox != [] && s.inbox[0].AttachClone?
    ensures Inv(RootRead(s))
  {
    var s' := RootRead(s);
    PoppedFacts(s);
    HeadOnce(s);
    forall d | d in s'.queues ensures Waiting(s', d) && Queued(s', d) {
      assert Waiting(s, d) && Queued(s, d);
    }
  }

  lemma ReadOtherKept(s: State)
    requires Inv(s) && s.root && s.inbox != [] && !s.inbox[0].AttachClone?
    ensures Inv(RootRead(s))
  {
    var s' := RootRead(s);
    PoppedFacts(s);
    HeadOnce(s);
    forall d | d in s'.queues ensures Waiting(s', d) && Queued(s', d) {
      assert Waiting(s, d) && Queued(s, d);
      WaitingSame(s, s', d);
    }
  }

  lemma HeadOnce(s: State)
    requires OnePlace(s) && s.inbox != []
    ensures s.inbox[0].AttachClone? ==> s.inbox[0] !in s.inbox[1..]
    ensures OnePlace(Popped(s))
  {
    var tail := s.inbox[1..];
    forall i | 0 <= i < |tail| ensures tail[i] == s.inbox[i + 1] {
    }
  }

  lemma ReceiveKept(s: State, c: Clone)
    requires Inv(s) && c in s.queues && s.queues[c] != []
    ensures Inv(Received(s, c))
  {
    var s' := Received(s, c);
    assert Queued(s, c);
    assert forall n :: n in s'.queues[c] ==> n in s.queues[c];
    forall d | d in s'.queues ensures Waiting(s', d) && Queued(s', d) {
      assert Waiting(s, d) && Queued(s, d);
      WaitingSame(s, s', d);
    }
  }

  lemma NotifyKept(s: State, c: Clone, n: Note)
    requires Inv(s) && s.root && c in s.senders && c in s.queues && (n.Terminate? ==> s.told)
    ensures Inv(Notified(s, c, n))
  {
    var s' := Notified(s, c, n);
    forall d | d in s'.queues ensures Waiting(s', d) && Queued(s', d) {
      assert Waiting(s, d) && Queued(s, d);
      WaitingSame(s, s', d);
    }
  }

  lemma OthersKept(s: State, a: Action, s': State)
    requires Inv(s) && Step(s, a, s')
    requires a.Reconfigure? || a.Tell? || a.Prune? || a.DropRoot? || a.FindClosed? || a.DropClone?
    ensures Inv(s')
  {
    forall d | d in s'.queues ensures Waiting(s', d) && Queued(s', d) {
      assert Waiting(s, d) && Queued(s, d);
      WaitingSame(s, s', d);
    }
  }

  lemma StepKept(s: State, a: Action, s': State)
    requires Inv(s) && Step(s, a, s')
    ensures Inv(s')
  {
    match a
    case MakeClone(c, t) => MakeKept(s, c, t);
    case SendAttach(t) => AttachKept(s, t);
    case SendOther(what) => SentKept(s, Other(what), s.detaching);
    case SendDetach(c) => SentKept(s, DetachClone(c), s.detaching - {c});
    case ReadRoot => if s.inbox[0].AttachClone? { ReadAttachKept(s); } else { ReadOtherKept(s); }
    case Receive(c) => ReceiveKept(s, c);
    case Notify(c, n) => NotifyKept(s, c, n);
    case _ => OthersKept(s, a, s');
  }

  // ---- Whole runs ----

  ghost predicate Run(run: seq<State>, actions: seq<Action>) {
    && |run| == |actions| + 1
    && forall k :: 0 <= k < |actions| ==> Step(run[k], actions[k], run[k + 1])
  }

  lemma {:induction false} RunKept(run: seq<State>, actions: seq<Action>, k: nat)
    requires Run(run, actions) && Inv(run[0]) && k < |run|
    ensures Inv(run[k])
  {
    if k > 0 {
      RunKept(run, actions, k - 1);
      StepKept(run[k - 1], actions[k - 1], run[k]);
    }
  }

  lemma RootStepGone(s: State, a: Action, s': State, c: Clone)
    requires RootStep(s, a, s') && c in s.made
    ensures c in s'.made && (!HasSender(s, c) ==> !HasSender(s', c)) && (!s.root ==> !s'.root)
  {
    if a.ReadRoot? {
      PoppedFacts(s);
    }
    assert s'.tasks == s.tasks;
  }

  lemma CloneStepGone(s: State, a: Action, s': State, c: Clone)
    requires CloneStep(s, a, s') && c in s.made
    ensures c in s'.made && (!HasSender(s, c) ==> !HasSender(s', c)) && (!s.root ==> !s'.root)
  {
    assert forall t :: t in s'.tasks && s'.tasks[t] == c ==> t in s.tasks && s.tasks[t] == c;
  }

  /** Nobody gets back what is gone. */
  lemma StepGone(s: State, a: Action, s': State, c: Clone)
    requires Step(s, a, s') && c in s.made
    ensures c in s'.made && (!HasSender(s, c) ==> !HasSender(s', c)) && (!s.root ==> !s'.root)
  {
    if RootStep(s, a, s') {
      RootStepGone(s, a, s', c);
    } else {
      CloneStepGone(s, a, s', c);
    }
  }

  /** Over every run a sending end is in one place at most; once the root is dropped only an attach
      task can still have it, and no clone that has lost it gets it back. */
  lemma NoSenderSurvives(run: seq<State>, actions: seq<Action>, j: nat, k: nat, c: Clone)
    requires Run(run, actions) && run[0] == Init() && j <= k < |run| && c in run[j].made
    ensures OnePlace(run[k])
    ensures !run[k].root && HasSender(run[k], c) ==> InTask(run[k], c)
    ensures !HasSender(run[j], c) ==> !HasSender(run[k], c)
    ensures c in run[k].made && (!run[j].root ==> !run[k].root)
  {
    var sender, root := HasSender(run[j], c), run[j].root;
    forall m | 0 <= m < |run| - 1 && Since(run[m], c, sender, root) ensures Since(run[m + 1], c, sender, root) {
      StepGone(run[m], actions[m], run[m + 1], c);
    }
    SinceStays(run, j, k, c, sender, root);
    RunKept(run, actions, k);
  }

  /** The clone has been made; there is a sending end, or a root, only if there was one before. */
  ghost predicate Since(s: State, c: Clone, sender: bool, root: bool) {
    c in s.made && (HasSender(s, c) ==> sender) && (s.root ==> root)
  }

  lemma {:induction false} SinceStays(run: seq<State>, j: nat, k: nat, c: Clone, sender: bool, root: bool)
    requires j <= k < |run| && Since(run[j], c, sender, root)
    requires forall m :: 0 <= m < |run| - 1 && Since(run[m], c, sender, root) ==> Since(run[m + 1], c, sender, root)
    ensures Since(run[k], c, sender, root)
    decreases k
  {
    if j < k {
      SinceStays(run, j, k - 1, c, sender, root);
      assert Since(run[k - 1 + 1], c, sender, root);
    }
  }

  // ---- How a clone ends once the root is gone ----

  function Reads(actions: seq<Action>, c: Clone): nat {
    if actions == [] then 0
    else Reads(actions[..|actions| - 1], c) + (if actions[|actions| - 1] == Receive(c) then 1 else 0)
  }

  lemma StepReads(s: State, a: Action, s': State, c: Clone)
    requires Inv(s) && Step(s, a, s') && !s.root && c in s.made && c in s'.queues
    ensures c in s.queues && |s.queues[c]| == |s'.queues[c]| + (if a == Receive(c) then 1 else 0)
  {
  }

  /** In every continuation a clone that is not dropped reads what is queued and no more: at most 16
      commands. */
  lemma {:induction false} OrphanDrains(run: seq<State>, actions: seq<Action>, k: nat, c: Clone)
    requires Run(run, actions) && Inv(run[0]) && !run[0].root && c in run[0].made && k < |run| && c in run[k].queues
    ensures c in run[0].queues
    ensures Reads(actions[..k], c) + |run[k].queues[c]| == |run[0].queues[c]| <= COMMAND_QUEUE_LEN
  {
    if k > 0 {
      StaysDropped(run, actions, k - 1, c);
      StepReads(run[k - 1], actions[k - 1], run[k], c);
      OrphanDrains(run, actions, k - 1, c);
      assert actions[..k][..k - 1] == actions[..k - 1];
    } else {
      assert Queued(run[0], c);
    }
  }

  lemma {:induction false} StaysDropped(run: seq<State>, actions: seq<Action>, k: nat, c: Clone)
    requires Run(run, actions) && Inv(run[0]) && !run[0].root && c in run[0].made && k < |run|
    ensures Inv(run[k]) && !run[k].root && c in run[k].made
  {
    RunKept(run, actions, k);
    if k > 0 {
      StaysDropped(run, actions, k - 1, c);
      StepGone(run[k - 1], actions[k - 1], run[k], c);
    }
  }

  /** The steps that are the clone's own: those of its attach task and of the clone itself. */
  predicate Own(s: State, a: Action, c: Clone) {
    a == Receive(c) || a == FindClosed(c) || (a.SendAttach? && a.t in s.tasks && s.tasks[a.t] == c)
  }

  /** At any moment one of its own steps can be taken, until it has terminated. */
  lemma OwnStep(s: State, c: Clone) returns (a: Action, s': State)
    requires Inv(s) && !s.root && c in s.queues && c !in s.terminated
    ensures Step(s, a, s') && Own(s, a, c)
    ensures a.SendAttach? ==> !HasSender(s', c) && s'.queues == s.queues && s.queues[c] == [] && s'.terminated == s.terminated
    ensures a.SendAttach? <==> HasSender(s, c)
    ensures a.FindClosed? ==> c in s'.terminated
    ensures a.Receive? ==> c in s'.terminated || (s'.queues == s.queues[c := s.queues[c][1..]] && s'.terminated == s.terminated)
  {
    assert Queued(s, c);
    if s.queues[c] != [] {
      a, s' := Receive(c), Received(s, c);
    } else if HasSender(s, c) {
      var t :| t in s.tasks && s.tasks[t] == c;
      a, s' := SendAttach(t), AttachSent(s, t);
    } else {
      a, s' := FindClosed(c), s.(terminated := s.terminated + {c});
    }
  }

  /** From any state with the root dropped, a clone that is left alone terminates after at most 16
      reads, one step of its attach task and one look at the closed channel. */
  lemma {:induction false} EndsSoon(s: State, c: Clone) returns (run: seq<State>, actions: seq<Action>)
    requires Inv(s) && !s.root && c in s.queues && c !in s.terminated
    ensures Run(run, actions) && run[0] == s && c in run[|run| - 1].terminated
    ensures forall k :: 0 <= k < |actions| ==> Own(run[k], actions[k], c)
    ensures |actions| <= |s.queues[c]| + (if HasSender(s, c) then 2 else 1) <= COMMAND_QUEUE_LEN + 1
    decreases |s.queues[c]|, HasSender(s, c)
  {
    assert Queued(s, c);
    var a, s' := OwnStep(s, c);
    if c in s'.terminated {
      run, actions := [s, s'], [a];
    } else {
      StepKept(s, a, s');
      StepGone(s, a, s', c);
      run, actions := EndsSoon(s', c);
      run, actions := [s] + run, [a] + actions;
    }
  }

  // ---- When a clone ends ----

  /** Exactly when nobody has a clone's sending end: its attach task is through, and either the root
      is gone, or it took over another channel before it had read the attach command. */
  lemma CutOffExactly(run: seq<State>, actions: seq<Action>, k: nat, c: Clone)
    requires Run(run, actions) && run[0] == Init() && k < |run| && c in run[k].queues
    ensures var s := run[k];
            !HasSender(s, c) <==> !InTask(s, c) && (!s.root || (!s.open && c !in s.attached))
  {
    RunKept(run, actions, k);
    assert Waiting(run[k], c);
  }

  lemma StepTerminates(s: State, a: Action, s': State, c: Clone)
    requires Step(s, a, s') && c !in s.terminated && c in s'.terminated
    ensures c in s.queues
    ensures || (a == Receive(c) && s.queues[c] != [] && s.queues[c][0] == Terminate)
            || (a == FindClosed(c) && s.queues[c] == [] && !HasSender(s, c))
  {
  }

  /** A clone ends by reading a Terminate, which the root has read before; or by finding its channel
      closed, with the root gone or the clone cut off by a Reconfigure. In particular, while the
      root lives and has not been reconfigured, only a Terminate ends a clone. */
  lemma WhyTerminated(run: seq<State>, actions: seq<Action>, k: nat, c: Clone)
    requires Run(run, actions) && run[0] == Init() && k < |actions|
    requires c !in run[k].terminated && c in run[k + 1].terminated
    ensures c in run[k].queues
    ensures || (actions[k] == Receive(c) && run[k].queues[c] != [] && run[k].queues[c][0] == Terminate && run[k].told)
            || (actions[k] == FindClosed(c) && run[k].queues[c] == [] &&
                (!run[k].root || (!run[k].open && c !in run[k].attached)))
  {
    StepTerminates(run[k], actions[k], run[k + 1], c);
    CutOffExactly(run, actions, k, c);
    RunKept(run, actions, k);
    assert Queued(run[k], c);
  }

  /** A Reconfigure cuts off a clone that is still attaching: it terminates while the root lives. */
  lemma ReconfigureCutsOff() returns (run: seq<State>, actions: seq<Action>)
    ensures Run(run, actions) && run[0] == Init() && |actions| == 4
    ensures run[4].root && !run[4].told && 0 in run[4].terminated
  {
    actions := [MakeClone(0, 0), SendAttach(0), Reconfigure, FindClosed(0)];
    var s1 := Made(Init(), 0, 0);
    var s2 := AttachSent(s1, 0);
    var s3 := Reconfigured(s2);
    run := [Init(), s1, s2, s3, s3.(terminated := {0})];
    assert s3.tasks == map[];
  }
}
