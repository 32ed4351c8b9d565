/** A gate, its links and the manager's reloads together. A link sends through the channel of the
    gate it was made for and knows only the slots it was given there. A reload makes the gate read
    another channel; what is queued in the old one, and all that is sent there later, is lost. */
module GateTraffic {
  import opened Wrappers
  import opened Gate
  import R = GateReload

  type Link = nat

  /** What a link asks for. */
  datatype Request =
    | Subscribe(link: Link, asSuspended: bool, direct: Option<Receiver>)
    | Suspend(slot: Slot, suspend: bool)
    | Unsubscribe(slot: Slot)

  /** A link's channel, and the slots it has ever been given. */
  datatype LinkState = LinkState(channel: R.Channel, slots: set<Slot>)

  /** `reload` has the channels with what is queued there: the manager's commands, and for a link's
      request `Other` with its number in `sent`. `home` records through which channel a slot was
      given out. */
  datatype State = State(
    reload: R.State,
    gate: Slots,
    links: map<Link, LinkState>,
    sent: map<nat, Request>,
    home: map<Slot, R.Channel>)

  function Init(): State {
    State(R.Init(), Slots(map[], map[], 0, 0), map[], map[], map[])
  }

  datatype Action =
    | Manage(a: R.Action)                             // a reload, a stop, or a send of the manager
    | MakeLink(link: Link, channel: R.Channel)
    | Send(link: Link, request: Request, number: nat)
    | Read(accepted: bool)                            // `accepted`: the link still waits for its response

  /** A link asks for itself, about its own slots. */
  predicate May(s: State, link: Link, request: Request) {
    && link in s.links
    && match request
       case Subscribe(l, _, _) => l == link
       case Suspend(slot, _) => slot in s.links[link].slots
       case Unsubscribe(slot) => slot in s.links[link].slots
  }

  function Answered(s: State, request: Request, accepted: bool): State {
    match request
    case Subscribe(link, asSuspended, direct) =>
      var given := accepted && link in s.links;
      s.(gate := Subscribed(s.gate, asSuspended, direct, accepted),
         home := if given then s.home[s.gate.next := s.reload.reading] else s.home,
         links := if given then s.links[link := s.links[link].(slots := s.links[link].slots + {s.gate.next})] else s.links)
    case Suspend(slot, suspend) => s.(gate := Suspended(s.gate, slot, suspend))
    case Unsubscribe(slot) => s.(gate := Unsubscribed(s.gate, slot))
  }

  /** What a command that is read does, before the channel moves on. */
  function Effect(s: State, c: R.Command, accepted: bool): State {
    match c
    case Reconfigure(_, _) => s.(gate := Reconfigured(s.gate))
    case Terminate => s
    case Other(number) => if number in s.sent then Answered(s, s.sent[number], accepted) else s
  }

  predicate CanRead(r: R.State) {
    !r.ended && r.reading in r.channels && r.channels[r.reading] != []
  }

  predicate Step(s: State, a: Action, s': State) {
    match a
    case Manage(m) => (m.Reload? || m.Stop? || m.Send?) && R.Step(s.reload, m, s'.reload) && s' == s.(reload := s'.reload)
    case MakeLink(link, channel) =>
      link !in s.links && channel < s.reload.next && s' == s.(links := s.links[link := LinkState(channel, {})])
    case Send(link, request, number) =>
      && May(s, link, request) && number !in s.sent
      && R.Step(s.reload, R.Link(s.links[link].channel, number), s'.reload)
      && s' == s.(reload := s'.reload, sent := s.sent[number := request])
    case Read(accepted) =>
      && CanRead(s.reload)
      && s' == Effect(s, s.reload.channels[s.reload.reading][0], accepted).(reload := R.Received(s.reload))
  }

  // ---- Whose slots a request can be about ----

  /** A request in a channel is about that channel's links and slots. */
  predicate Local(s: State, channel: R.Channel, request: Request) {
    match request
    case Subscribe(link, _, _) => link in s.links && s.links[link].channel == channel
    case Suspend(slot, _) => slot in s.home && s.home[slot] == channel
    case Unsubscribe(slot) => slot in s.home && s.home[slot] == channel
  }

  ghost predicate Requests(s: State) {
    forall channel, number :: channel in s.reload.channels && R.Other(number) in s.reload.channels[channel] ==>
      number in s.sent && Local(s, channel, s.sent[number])
  }

  ghost predicate Links(s: State) {
    forall link, slot :: link in s.links && slot in s.links[link].slots ==>
      slot in s.home && s.home[slot] == s.links[link].channel
  }

  /** Only slots given out through the channel that is read now can be delivered to. */
  ghost predicate Current(s: State) {
    && Good(s.gate)
    && (forall slot :: slot in s.home ==> slot < s.gate.next && s.home[slot] <= s.reload.reading)
    && (forall slot :: slot in s.gate.active ==> slot in s.home && s.home[slot] == s.reload.reading)
    && (forall slot :: slot in s.gate.paused ==> slot in s.home)
  }

  ghost predicate Inv(s: State) {
    R.Inv(s.reload) && Requests(s) && Links(s) && Current(s)
  }

  // ---- Every step keeps it ----

  /** The manager puts no request into a channel. */
  lemma ManageRequests(r: R.State, m: R.Action, r': R.State, channel: R.Channel, number: nat)
    requires (m.Reload? || m.Stop? || m.Send?) && R.Inv(r) && R.Step(r, m, r')
    requires channel in r'.channels && R.Other(number) in r'.channels[channel]
    ensures channel in r.channels && R.Other(number) in r.channels[channel]
  {
    if m.Send? {
      R.SendsOrder(r, m.t);
    }
  }

  lemma ManageKept(s: State, m: R.Action, s': State)
    requires Inv(s) && Step(s, Manage(m), s')
    ensures Inv(s')
  {
    R.StepKept(s.reload, m, s'.reload);
    forall channel, number | channel in s'.reload.channels && R.Other(number) in s'.reload.channels[channel]
      ensures number in s'.sent && Local(s', channel, s'.sent[number])
    {
      ManageRequests(s.reload, m, s'.reload, channel, number);
    }
  }

  lemma MakeLinkKept(s: State, link: Link, channel: R.Channel, s': State)
    requires Inv(s) && Step(s, MakeLink(link, channel), s')
    ensures Inv(s')
  {
    forall ch, number | ch in s'.reload.channels && R.Other(number) in s'.reload.channels[ch]
      ensures number in s'.sent && Local(s', ch, s'.sent[number])
    {
      assert Local(s, ch, s.sent[number]);
    }
  }

  lemma SendKept(s: State, link: Link, request: Request, number: nat, s': State)
    requires Inv(s) && Step(s, Send(link, request, number), s')
    ensures Inv(s')
  {
    var channel := s.links[link].channel;
    R.StepKept(s.reload, R.Link(channel, number), s'.reload);
    assert Local(s, channel, request);
    forall ch, n | ch in s'.reload.channels && R.Other(n) in s'.reload.channels[ch]
      ensures n in s'.sent && Local(s', ch, s'.sent[n])
    {
      if n == number {
        assert ch == channel;
      } else {
        assert R.Other(n) in s.reload.channels[ch];
      }
    }
  }

  lemma ReceivedRequests(r: R.State, channel: R.Channel, c: R.Command)
    requires CanRead(r) && channel in R.Received(r).channels && c in R.Received(r).channels[channel]
    ensures channel in r.channels && c in r.channels[channel]
  {
  }

  /** Whatever the gate reads of a link's is about a slot of the channel it reads. */
  lemma ReadsLocal(s: State)
    requires Requests(s) && CanRead(s.reload)
    ensures var c := s.reload.channels[s.reload.reading][0];
            c.Other? ==> c.what in s.sent && Local(s, s.reload.reading, s.sent[c.what])
  {
    assert s.reload.channels[s.reload.reading][0] in s.reload.channels[s.reload.reading];
  }

  /** A request stays local when slots are given out. */
  lemma StaysLocal(s: State, s': State, channel: R.Channel, request: Request)
    requires Local(s, channel, request)
    requires forall slot :: slot in s.home ==> slot in s'.home && s'.home[slot] == s.home[slot]
    requires forall link :: link in s.links ==> link in s'.links && s'.links[link].channel == s.links[link].channel
    ensures Local(s', channel, request)
  {
  }

  /** What an answer does to the slots: all that is delivered to is of the channel that is read. */
  lemma AnswerKept(s: State, request: Request, accepted: bool)
    requires Current(s) && Links(s) && Local(s, s.reload.reading, request)
    ensures Current(Answered(s, request, accepted)) && Links(Answered(s, request, accepted))
  {
    match request
    case Subscribe(link, asSuspended, direct) => SubscribeKept(s, link, asSuspended, direct, accepted);
    case Suspend(slot, suspend) =>
    case Unsubscribe(slot) =>
  }

  lemma SubscribeKept(s: State, link: Link, asSuspended: bool, direct: Option<Receiver>, accepted: bool)
    requires Current(s) && Links(s) && Local(s, s.reload.reading, Subscribe(link, asSuspended, direct))
    ensures Current(Answered(s, Subscribe(link, asSuspended, direct), accepted))
    ensures Links(Answered(s, Subscribe(link, asSuspended, direct), accepted))
  {
    var g, s' := s.gate, Answered(s, Subscribe(link, asSuspended, direct), accepted);
    SubscribedLive(g, asSuspended, direct, accepted);
    assert g.next !in s.home;
    assert forall slot :: slot in s'.gate.active ==> slot in g.active || (accepted && slot == g.next);
    assert forall slot :: slot in s'.gate.paused ==> slot in g.paused || (accepted && slot == g.next);
  }

  lemma EffectGrows(s: State, c: R.Command, accepted: bool)
    requires Current(s)
    ensures var s' := Effect(s, c, accepted);
            && s'.sent == s.sent && s'.reload == s.reload
            && (forall slot :: slot in s.home ==> slot in s'.home && s'.home[slot] == s.home[slot])
            && (forall link :: link in s.links ==> link in s'.links && s'.links[link].channel == s.links[link].channel)
  {
  }

  /** The channel moves on only past a Reconfigure, after which nothing is delivered to. */
  lemma EffectKept(s: State, accepted: bool)
    requires Inv(s) && CanRead(s.reload)
    ensures var s' := Effect(s, s.reload.channels[s.reload.reading][0], accepted).(reload := R.Received(s.reload));
            Current(s') && Links(s')
  {
    var c := s.reload.channels[s.reload.reading][0];
    ReadsLocal(s);
    R.ReceivesTheExpected(s.reload);
    match c
    case Reconfigure(_, _) =>
    case Terminate =>
    case Other(number) => AnswerKept(s, s.sent[number], accepted);
  }

  lemma ReadKept(s: State, accepted: bool, s': State)
    requires Inv(s) && Step(s, Read(accepted), s')
    ensures Inv(s')
  {
    R.StepKept(s.reload, R.Receive, s'.reload);
    EffectKept(s, accepted);
    EffectGrows(s, s.reload.channels[s.reload.reading][0], accepted);
    forall ch, n | ch in s'.reload.channels && R.Other(n) in s'.reload.channels[ch]
      ensures n in s'.sent && Local(s', ch, s'.sent[n])
    {
      ReceivedRequests(s.reload, ch, R.Other(n));
      StaysLocal(s, s', ch, s.sent[n]);
    }
  }

  lemma StepKept(s: State, a: Action, s': State)
    requires Inv(s) && Step(s, a, s')
    ensures Inv(s')
  {
    match a
    case Manage(m) => ManageKept(s, m, s');
    case MakeLink(link, channel) => MakeLinkKept(s, link, channel, s');
    case Send(link, request, number) => SendKept(s, link, request, number, s');
    case Read(accepted) => ReadKept(s, accepted, s');
  }

  // ---- Whole runs ----

  ghost predicate Run(run: seq<State>, actions: seq<Action>) {
    && |run| == |actions| + 1
    && run[0] == Init()
    && forall k :: 0 <= k < |actions| ==> Step(run[k], actions[k], run[k + 1])
  }

  lemma {:induction false} RunKept(run: seq<State>, actions: seq<Action>, k: nat)
    requires Run(run, actions) && k < |run|
    ensures Inv(run[k])
  {
    if k > 0 {
      RunKept(run, actions, k - 1);
      StepKept(run[k - 1], actions[k - 1], run[k]);
    } else {
      R.InitInv();
    }
  }

  /** Every suspension, resumption and unsubscription that is read names a slot given out through the
      channel that is read. */
  lemma RequestsAreCurrent(run: seq<State>, actions: seq<Action>, k: nat, slot: Slot)
    requires Run(run, actions) && k < |actions| && actions[k].Read?
    ensures var s := run[k];
            && CanRead(s.reload)
            && var c := s.reload.channels[s.reload.reading][0];
               c.Other? ==> c.what in s.sent &&
                            (s.sent[c.what] == Unsubscribe(slot) || (s.sent[c.what].Suspend? && s.sent[c.what].slot == slot) ==>
                               slot in s.home && s.home[slot] == s.reload.reading)
  {
    RunKept(run, actions, k);
    assert Step(run[k], actions[k], run[k + 1]);
    ReadsLocal(run[k]);
  }

  lemma StepHome(s: State, a: Action, s': State, slot: Slot)
    requires Inv(s) && Step(s, a, s') && slot in s.home
    ensures slot in s'.home && s'.home[slot] == s.home[slot]
  {
    if a.Read? {
      EffectGrows(s, s.reload.channels[s.reload.reading][0], a.accepted);
    }
  }

  /** The slot was given out, through this channel. */
  predicate From(s: State, slot: Slot, channel: R.Channel) {
    slot in s.home && s.home[slot] == channel
  }

  lemma {:induction false} HomeStays(run: seq<State>, j: nat, k: nat, slot: Slot, channel: R.Channel)
    requires j <= k < |run| && From(run[j], slot, channel)
    requires forall m :: 0 <= m < |run| - 1 && From(run[m], slot, channel) ==> From(run[m + 1], slot, channel)
    ensures From(run[k], slot, channel)
    decreases k
  {
    if j < k {
      HomeStays(run, j, k - 1, slot, channel);
      assert From(run[k - 1], slot, channel) && From(run[k - 1 + 1], slot, channel);
    }
  }

  /** After a Reconfigure no slot of an older generation is ever delivered to again, suspended or
      not when it came, whatever its link still sends. */
  lemma OldSlotsStayOut(run: seq<State>, actions: seq<Action>, j: nat, k: nat, slot: Slot, open: set<Receiver>)
    requires Run(run, actions) && j <= k < |run| && slot in run[j].home
    requires run[j].home[slot] != run[k].reload.reading
    ensures slot !in Delivered(run[k].gate, open)
  {
    var channel := run[j].home[slot];
    forall m | 0 <= m < |run| - 1 && From(run[m], slot, channel) ensures From(run[m + 1], slot, channel) {
      RunKept(run, actions, m);
      StepHome(run[m], actions[m], run[m + 1], slot);
    }
    HomeStays(run, j, k, slot, channel);
    RunKept(run, actions, k);
  }

  /** The generation only moves on, by one with every Reconfigure that is read. */
  lemma GenerationGrows(run: seq<State>, actions: seq<Action>, k: nat)
    requires Run(run, actions) && k < |actions|
    ensures var s, s' := run[k].reload, run[k + 1].reload;
            s'.reading == s.reading + (if actions[k].Read? && CanRead(s) && s.channels[s.reading][0].Reconfigure? then 1 else 0)
  {
    RunKept(run, actions, k);
    assert Step(run[k], actions[k], run[k + 1]);
    if actions[k].Read? {
      R.ReceivesTheExpected(run[k].reload);
    }
  }
}
