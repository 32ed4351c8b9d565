/** Reloading a running unit. Every reload gives the manager the agent of a fresh gate and has a
    task send the unit a Reconfigure through the agent it had before; the Reconfigure carries the
    fresh gate, whose command channel the unit reads from then on. */
module GateReload {
  type Channel = nat
  type Config = nat
  type Tid = nat

  const COMMAND_QUEUE_LEN: nat := 16

  /** Other: whatever links and their agents send. */
  datatype Command = Reconfigure(config: Config, gate: Channel) | Terminate | Other(what: nat)

  /** `channels` holds what is queued in each channel whose receiver is alive; `tasks` holds the
      sends that the manager has spawned and that have not happened yet. */
  datatype State = State(
    channels: map<Channel, seq<Command>>,
    tasks: map<Tid, (Channel, Command)>,
    next: Channel,
    reading: Channel,
    agent: Channel,
    issued: seq<Config>,
    applied: seq<Config>,
    terminating: bool,
    ended: bool)

  datatype Action =
    | Reload(config: Config, t: Tid)
    | Stop(t: Tid)
    | Send(t: Tid)
    | Link(ch: Channel, what: nat)
    | Receive

  function Init(): State {
    State(map[0 := []], map[], 1, 0, 0, [], [], false, false)
  }

  /** A sender waits while the queue is full, and gives up when the receiver is gone. */
  predicate CanSend(s: State, ch: Channel) {
    ch in s.channels ==> |s.channels[ch]| < COMMAND_QUEUE_LEN
  }

  function Queued(channels: map<Channel, seq<Command>>, ch: Channel, c: Command): map<Channel, seq<Command>> {
    if ch in channels then channels[ch := channels[ch] + [c]] else channels
  }

  function Reloaded(s: State, config: Config, t: Tid): State {
    s.(channels := s.channels[s.next := []],
       tasks := s.tasks[t := (s.agent, Reconfigure(config, s.next))],
       next := s.next + 1,
       agent := s.next,
       issued := s.issued + [config])
  }

  function Stopped(s: State, t: Tid): State {
    s.(tasks := s.tasks[t := (s.agent, Terminate)], terminating := true)
  }

  function Sent(s: State, t: Tid): State
    requires t in s.tasks
  {
    s.(channels := Queued(s.channels, s.tasks[t].0, s.tasks[t].1), tasks := s.tasks - {t})
  }

  /** Taking over the new channel drops the receiver of the one read so far, and with it all that
      is still queued there. */
  function Received(s: State): State
    requires s.reading in s.channels && s.channels[s.reading] != []
  {
    var q := s.channels[s.reading];
    match q[0]
    case Reconfigure(config, gate) =>
      s.(channels := s.channels - {s.reading}, reading := gate, applied := s.applied + [config])
    case Terminate => s.(channels := s.channels - {s.reading}, ended := true)
    case Other(_) => s.(channels := s.channels[s.reading := q[1..]])
  }

  predicate Step(s: State, a: Action, s': State) {
    match a
    case Reload(config, t) => !s.terminating && t !in s.tasks && s' == Reloaded(s, config, t)
    case Stop(t) => !s.terminating && t !in s.tasks && s' == Stopped(s, t)
    case Send(t) => t in s.tasks && CanSend(s, s.tasks[t].0) && s' == Sent(s, t)
    case Link(ch, what) => CanSend(s, ch) && s' == s.(channels := Queued(s.channels, ch, Other(what)))
    case Receive =>
      && !s.ended && s.reading in s.channels && s.channels[s.reading] != []
      && s' == Received(s)
  }

  // ---- What is on its way to each channel ----

  /** The manager's commands among those queued. */
  function Orders(q: seq<Command>): seq<Command> {
    if q == [] then []
    else (if q[0].Other? then [] else [q[0]]) + Orders(q[1..])
  }

  lemma {:induction false} OrdersSnoc(q: seq<Command>, c: Command)
    ensures Orders(q + [c]) == Orders(q) + (if c.Other? then [] else [c])
  {
    if q == [] {
      assert q + [c] == [c];
    } else {
      OrdersSnoc(q[1..], c);
      var all := q + [c];
      assert all[0] == q[0] && all[1..] == q[1..] + [c];
      assert Orders(all) == (if q[0].Other? then [] else [q[0]]) + Orders(q[1..] + [c]);
    }
  }

  /** No task is about to send to the channel. */
  predicate Unaddressed(s: State, ch: Channel) {
    forall t :: t in s.tasks ==> s.tasks[t].0 != ch
  }

  ghost predicate Pending(s: State, ch: Channel, c: Command) {
    exists t :: t in s.tasks && Sole(s, t, ch, c)
  }

  ghost predicate Sole(s: State, t: Tid, ch: Channel, c: Command)
    requires t in s.tasks
  {
    s.tasks[t] == (ch, c) && forall u :: u in s.tasks && s.tasks[u].0 == ch ==> u == t
  }

  /** Exactly this one command of the manager is queued at or on its way to the channel. */
  ghost predicate Carries(s: State, ch: Channel, c: Command) {
    && ch in s.channels
    && ((Orders(s.channels[ch]) == [c] && Unaddressed(s, ch)) || (Orders(s.channels[ch]) == [] && Pending(s, ch, c)))
  }

  ghost predicate CarriesNothing(s: State, ch: Channel) {
    && Unaddressed(s, ch)
    && (ch in s.channels ==> Orders(s.channels[ch]) == [])
  }

  ghost predicate Counters(s: State) {
    && s.reading == |s.applied|
    && s.agent == |s.issued|
    && s.next == s.agent + 1
    && |s.applied| <= |s.issued|
    && s.applied == s.issued[..|s.applied|]
    && (s.ended ==> s.terminating && s.reading == s.agent)
    && (forall ch :: ch in s.channels ==> ch < s.next)
    && (s.agent in s.channels <==> !s.ended)
  }

  /** Each channel leads on to the one created next. */
  ghost predicate Leads(s: State, ch: Channel)
    requires Counters(s)
  {
    if ch < s.reading then ch !in s.channels && Unaddressed(s, ch)
    else if ch < s.agent then Carries(s, ch, Reconfigure(s.issued[ch], ch + 1))
    else if ch == s.agent && s.terminating && !s.ended then Carries(s, ch, Terminate)
    else CarriesNothing(s, ch)
  }

  ghost predicate Inv(s: State) {
    Counters(s) && forall ch :: Leads(s, ch)
  }

  // ---- Every step keeps it ----

  /** A channel that a step does not touch carries what it did. */
  lemma Untouched(s: State, s': State, ch: Channel)
    requires ch in s.channels <==> ch in s'.channels
    requires ch in s.channels ==> s.channels[ch] == s'.channels[ch]
    requires forall t :: t in s.tasks && s.tasks[t].0 == ch ==> t in s'.tasks && s'.tasks[t] == s.tasks[t]
    requires forall t :: t in s'.tasks && s'.tasks[t].0 == ch ==> t in s.tasks
    requires forall t :: t in s'.tasks && t in s.tasks ==> s'.tasks[t] == s.tasks[t]
    ensures forall c :: Carries(s, ch, c) ==> Carries(s', ch, c)
    ensures CarriesNothing(s, ch) ==> CarriesNothing(s', ch)
    ensures Unaddressed(s, ch) ==> Unaddressed(s', ch)
  {
    forall c | Carries(s, ch, c) ensures Carries(s', ch, c) {
      if Pending(s, ch, c) {
        var t :| t in s.tasks && Sole(s, t, ch, c);
        assert Sole(s', t, ch, c);
      }
    }
  }

  lemma ReloadKept(s: State, config: Config, t: Tid)
    requires Inv(s) && !s.terminating && t !in s.tasks
    ensures Inv(Reloaded(s, config, t))
  {
    var s' := Reloaded(s, config, t);
    assert s'.issued[..|s.applied|] == s.issued[..|s.applied|];
    forall ch: Channel ensures Leads(s', ch) {
      assert Leads(s, ch);
      if ch == s.agent {
        assert Sole(s', t, ch, Reconfigure(config, s.next));
        assert s'.issued[ch] == config;
      } else if ch != s.next {
        Untouched(s, s', ch);
        assert ch < s.agent ==> s'.issued[ch] == s.issued[ch];
      }
    }
  }

  lemma StopKept(s: State, t: Tid)
    requires Inv(s) && !s.terminating && t !in s.tasks
    ensures Inv(Stopped(s, t))
  {
    var s' := Stopped(s, t);
    forall ch: Channel ensures Leads(s', ch) {
      assert Leads(s, ch);
      if ch == s.agent {
        assert Sole(s', t, ch, Terminate);
      } else {
        Untouched(s, s', ch);
      }
    }
  }

  lemma SendKept(s: State, t: Tid)
    requires Inv(s) && t in s.tasks
    ensures Inv(Sent(s, t))
  {
    var s', to, c := Sent(s, t), s.tasks[t].0, s.tasks[t].1;
    forall ch: Channel ensures Leads(s', ch) {
      assert Leads(s, ch);
      if ch == to {
        SendArrives(s, t);
      } else {
        Untouched(s, s', ch);
      }
    }
  }

  lemma SendArrives(s: State, t: Tid)
    requires Inv(s) && t in s.tasks
    ensures forall c :: Carries(s, s.tasks[t].0, c) ==> Carries(Sent(s, t), s.tasks[t].0, c)
    ensures !Unaddressed(s, s.tasks[t].0)
  {
    var ch, s' := s.tasks[t].0, Sent(s, t);
    forall c | Carries(s, ch, c) ensures Carries(s', ch, c) {
      var u :| u in s.tasks && Sole(s, u, ch, c);
      OrdersSnoc(s.channels[ch], c);
      assert Leads(s, ch);
    }
  }

  /** A task of the manager sends an order, into the channel that awaits it. */
  lemma SendsOrder(s: State, t: Tid)
    requires Inv(s) && t in s.tasks
    ensures !s.tasks[t].1.Other?
  {
    assert Leads(s, s.tasks[t].0);
    assert !Unaddressed(s, s.tasks[t].0);
  }

  lemma LinkKept(s: State, ch: Channel, what: nat)
    requires Inv(s)
    ensures Inv(s.(channels := Queued(s.channels, ch, Other(what))))
  {
    var s' := s.(channels := Queued(s.channels, ch, Other(what)));
    forall c: Channel ensures Leads(s', c) {
      assert Leads(s, c);
      if c == ch && c in s.channels {
        OrdersSnoc(s.channels[c], Other(what));
        assert forall o :: Pending(s, c, o) ==> Pending(s', c, o) by {
          forall o | Pending(s, c, o) ensures Pending(s', c, o) {
            var t :| t in s.tasks && Sole(s, t, c, o);
            assert Sole(s', t, c, o);
          }
        }
      } else {
        Untouched(s, s', c);
      }
    }
  }

  /** The only Reconfigure the unit can read is the one for the channel created next, and the
      only Terminate the one at the agent's channel. */
  lemma ReceivesTheExpected(s: State)
    requires Inv(s) && s.reading in s.channels && s.channels[s.reading] != []
    ensures var c := s.channels[s.reading][0];
            && (c.Reconfigure? ==> s.reading < s.agent && c == Reconfigure(s.issued[s.reading], s.reading + 1))
            && (c.Terminate? ==> s.reading == s.agent && s.terminating)
            && (!c.Other? ==> Unaddressed(s, s.reading))
  {
    assert Leads(s, s.reading);
    var q := s.channels[s.reading];
    assert !q[0].Other? ==> Orders(q) != [] && Orders(q)[0] == q[0];
  }

  lemma ReceiveKept(s: State)
    requires Inv(s) && !s.ended && s.reading in s.channels && s.channels[s.reading] != []
    ensures Inv(Received(s))
  {
    var s' := Received(s);
    ReceivesTheExpected(s);
    forall ch: Channel ensures Counters(s') && Leads(s', ch) {
      assert Leads(s, ch);
      if ch != s.reading {
        Untouched(s, s', ch);
      } else if s.channels[ch][0].Other? {
        forall o | Pending(s, ch, o) ensures Pending(s', ch, o) {
          var t :| t in s.tasks && Sole(s, t, ch, o);
          assert Sole(s', t, ch, o);
        }
      }
    }
  }

  lemma StepKept(s: State, a: Action, s': State)
    requires Inv(s) && Step(s, a, s')
    ensures Inv(s')
  {
    match a
    case Reload(config, t) => ReloadKept(s, config, t);
    case Stop(t) => StopKept(s, t);
    case Send(t) => SendKept(s, t);
    case Link(ch, what) => LinkKept(s, ch, what);
    case Receive => ReceiveKept(s);
  }

  // ---- Whole runs ----

  ghost predicate Run(run: seq<State>, actions: seq<Action>) {
    && |run| == |actions| + 1
    && forall k :: 0 <= k < |actions| ==> Step(run[k], actions[k], run[k + 1])
  }

  lemma {:induction false} RunKept(run: seq<State>, actions: seq<Action>, k: nat)
    requires Run(run, actions) && Inv(run[0]) && k < |run|
    ensures Inv(run[k])
  {
    if k > 0 {
      RunKept(run, actions, k - 1);
      StepKept(run[k - 1], actions[k - 1], run[k]);
    }
  }

  lemma InitInv()
    ensures Inv(Init())
  {
    forall ch: Channel ensures Leads(Init(), ch) {
    }
  }

  /** However many reloads are outstanding, configurations are applied once each in the order of
      the reloads, and the unit ends only once it has applied all of them and been told to. */
  lemma AppliedInOrder(run: seq<State>, actions: seq<Action>, k: nat)
    requires Run(run, actions) && run[0] == Init() && k < |run|
    ensures run[k].applied <= run[k].issued
    ensures run[k].ended ==> run[k].terminating && run[k].applied == run[k].issued
  {
    InitInv();
    RunKept(run, actions, k);
  }

  /** From the channel the unit reads, the single command of the manager addressed to each channel
      names the next one, and the last is the channel of the agent that the manager keeps. */
  lemma AgentReachesUnit(run: seq<State>, actions: seq<Action>, k: nat) returns (path: seq<Channel>)
    requires Run(run, actions) && run[0] == Init() && k < |run|
    ensures var s := run[k];
            && |s.applied| <= |s.issued|
            && |path| == |s.issued| - |s.applied| + 1
            && path[0] == s.reading && path[|path| - 1] == s.agent
            && (forall i :: 0 <= i < |path| - 1 ==>
                  Carries(s, path[i], Reconfigure(s.issued[|s.applied| + i], path[i + 1])))
            && (!s.ended ==> s.agent in s.channels)
            && (s.terminating && !s.ended ==> Carries(s, s.agent, Terminate))
  {
    InitInv();
    RunKept(run, actions, k);
    var s := run[k];
    path := seq(|s.issued| - |s.applied| + 1, i => s.reading + i);
    forall i | 0 <= i < |path| - 1
      ensures Carries(s, path[i], Reconfigure(s.issued[|s.applied| + i], path[i + 1]))
    {
      assert Leads(s, path[i]);
    }
    assert Leads(s, s.agent);
  }

  // ---- Getting there ----

  /** Whatever is outstanding, the unit has a command to read or the next one can be sent now. */
  lemma NeverStuck(s: State) returns (a: Action, s': State)
    requires Inv(s) && !s.ended && (s.terminating || s.applied != s.issued)
    ensures a == Receive || (a.Send? && a.t in s.tasks && s.tasks[a.t].0 == s.reading)
    ensures Step(s, a, s')
    ensures s.reading in s.channels
    ensures a.Send? ==> s.channels[s.reading] == [] && !s.tasks[a.t].1.Other?
  {
    assert Leads(s, s.reading);
    assert s.reading == s.agent ==> s.applied == s.issued;
    if s.channels[s.reading] != [] {
      a, s' := Receive, Received(s);
    } else {
      var c := if s.reading < s.agent then Reconfigure(s.issued[s.reading], s.reading + 1) else Terminate;
      assert Carries(s, s.reading, c);
      var t :| t in s.tasks && Sole(s, t, s.reading, c);
      a, s' := Send(t), Sent(s, t);
    }
  }

  /** Left alone with the sends already spawned, the unit applies every reload, and ends if told. */
  lemma {:induction false} Settles(s: State) returns (run: seq<State>, actions: seq<Action>)
    requires Inv(s)
    ensures Run(run, actions) && run[0] == s
    ensures forall k :: 0 <= k < |actions| ==> actions[k].Send? || actions[k].Receive?
    ensures var end := run[|run| - 1];
            end.issued == s.issued && end.applied == s.issued && end.ended == s.terminating
    decreases |s.issued| - |s.applied|, !s.ended, if s.reading in s.channels then |s.channels[s.reading]| else 0
  {
    if s.ended || (!s.terminating && s.applied == s.issued) {
      run, actions := [s], [];
      assert Counters(s);
      return;
    }
    var a, s' := NeverStuck(s);
    StepKept(s, a, s');
    if a.Receive? {
      run, actions := Settles(s');
      run, actions := [s] + run, [a] + actions;
    } else {
      assert s'.channels[s.reading] == [s.tasks[a.t].1];
      var s2 := Received(s');
      assert Step(s', Receive, s2);
      StepKept(s', Receive, s2);
      run, actions := Settles(s2);
      run, actions := [s, s'] + run, [a, Receive] + actions;
    }
  }
}
