/** A root gate that has no clones: who is subscribed, who is suspended, and who gets an update. */
module Gate {
  import opened FrimVector
  import opened Wrappers

  type Slot = nat
  type Receiver = nat

  /** Where updates for a link go: into its queue or straight to the component behind it. */
  datatype UpdateSender = UpdateSender(queue: Option<Receiver>, direct: Option<Receiver>)

  datatype Subscription = Subscription(sender: UpdateSender, suspended: bool)

  /** Something is at the other end to take an update. */
  predicate Reaches(sender: UpdateSender, open: set<Receiver>) {
    match (sender.queue, sender.direct)
    case (Some(q), None) => q in open
    case (None, Some(d)) => d in open
    case _ => false
  }

  // ---- The gate as two maps ----

  datatype Slots = Slots(active: map<Slot, UpdateSender>, paused: map<Slot, UpdateSender>, next: Slot, receivers: Receiver)

  ghost predicate Good(g: Slots) {
    && (forall s :: s in g.active ==> s < g.next && s !in g.paused)
    && (forall s :: s in g.paused ==> s < g.next)
  }

  /** The subscription that has the slot, if any. */
  function Live(g: Slots, s: Slot): Option<Subscription> {
    if s in g.active then Some(Subscription(g.active[s], false))
    else if s in g.paused then Some(Subscription(g.paused[s], true))
    else None
  }

  function NewSender(g: Slots, direct: Option<Receiver>): UpdateSender {
    if direct.Some? then UpdateSender(None, direct) else UpdateSender(Some(g.receivers), None)
  }

  /** A slot whose response is refused is taken out again. */
  function Subscribed(g: Slots, asSuspended: bool, direct: Option<Receiver>, accepted: bool): Slots {
    var sender, s := NewSender(g, direct), g.next;
    Slots(if accepted && !asSuspended then g.active[s := sender] else g.active,
          if accepted && asSuspended then g.paused[s := sender] else g.paused,
          g.next + 1,
          if direct.Some? then g.receivers else g.receivers + 1)
  }

  lemma SubscribedLive(g: Slots, asSuspended: bool, direct: Option<Receiver>, accepted: bool)
    requires Good(g)
    ensures var g' := Subscribed(g, asSuspended, direct, accepted);
            && Good(g') && Live(g, g.next).None?
            && Live(g', g.next) == (if accepted then Some(Subscription(NewSender(g, direct), asSuspended)) else None)
            && forall s :: s != g.next ==> Live(g', s) == Live(g, s)
  {
  }

  function Suspended(g: Slots, s: Slot, suspend: bool): Slots {
    if suspend then
      if s in g.active then g.(active := g.active - {s}, paused := g.paused[s := g.active[s]]) else g
    else if s in g.paused then g.(paused := g.paused - {s}, active := g.active[s := g.paused[s]])
    else g
  }

  function Unsubscribed(g: Slots, s: Slot): Slots {
    g.(active := g.active - {s}, paused := g.paused - {s})
  }

  /** The senders of the new gate, which has none yet, replace those in use; the suspended ones stay
      behind. */
  function Reconfigured(g: Slots): Slots {
    g.(active := map[])
  }

  /** Who gets an update. */
  function Delivered(g: Slots, open: set<Receiver>): set<Slot> {
    set s | s in g.active && Reaches(g.active[s], open)
  }

  class Gate {
    var updates: seq<(Slot, UpdateSender)>
    var suspended: seq<(Slot, UpdateSender)>
    var next: Slot
    var receivers: Receiver

    /** The two vectors as maps. */
    ghost var active: map<Slot, UpdateSender>
    ghost var paused: map<Slot, UpdateSender>

    ghost function G(): Slots
      reads this
    {
      Slots(active, paused, next, receivers)
    }

    ghost predicate Consistent()
      reads this
    {
      && Unique(updates) && Unique(suspended)
      && active == Contents(updates) && paused == Contents(suspended)
    }

    ghost predicate Valid()
      reads this
    {
      Consistent() && Good(G())
    }

    constructor ()
      ensures Valid() && G() == Slots(map[], map[], 0, 0)
    {
      updates, suspended, next, receivers := [], [], 0, 0;
      active, paused := map[], map[];
    }

    method InsertInUpdates(slot: Slot, sender: UpdateSender)
      requires Consistent()
      modifies this`updates, this`active
      ensures Consistent() && active == old(active)[slot := sender]
    {
      InsertedContents(updates, slot, sender);
      updates, active := Inserted(updates, slot, sender), active[slot := sender];
    }

    method RemoveFromUpdates(slot: Slot) returns (removed: Option<UpdateSender>)
      requires Consistent()
      modifies this`updates, this`active
      ensures Consistent() && active == old(active) - {slot}
      ensures removed == if slot in old(active) then Some(old(active)[slot]) else None
    {
      ContentsLookup(updates, slot);
      RemovedContents(updates, slot);
      removed := Lookup(updates, slot);
      updates, active := Removed(updates, slot), active - {slot};
    }

    method InsertInSuspended(slot: Slot, sender: UpdateSender)
      requires Consistent()
      modifies this`suspended, this`paused
      ensures Consistent() && paused == old(paused)[slot := sender]
    {
      InsertedContents(suspended, slot, sender);
      suspended, paused := Inserted(suspended, slot, sender), paused[slot := sender];
    }

    method RemoveFromSuspended(slot: Slot) returns (removed: Option<UpdateSender>)
      requires Consistent()
      modifies this`suspended, this`paused
      ensures Consistent() && paused == old(paused) - {slot}
      ensures removed == if slot in old(paused) then Some(old(paused)[slot]) else None
    {
      ContentsLookup(suspended, slot);
      RemovedContents(suspended, slot);
      removed := Lookup(suspended, slot);
      suspended, paused := Removed(suspended, slot), paused - {slot};
    }

    method NewSlot(direct: Option<Receiver>) returns (slot: Slot, sender: UpdateSender)
      modifies this`next, this`receivers
      ensures slot == old(next) && sender == NewSender(old(G()), direct)
      ensures next == old(next) + 1 && receivers == if direct.Some? then old(receivers) else old(receivers) + 1
    {
      sender := UpdateSender(None, direct);
      if direct.None? {
        sender := UpdateSender(Some(receivers), None);
        receivers := receivers + 1;
      }
      slot := next;
      next := next + 1;
    }

    method Place(slot: Slot, sender: UpdateSender, asSuspended: bool)
      requires Consistent()
      modifies this`updates, this`active, this`suspended, this`paused
      ensures Consistent()
      ensures active == if asSuspended then old(active) else old(active)[slot := sender]
      ensures paused == if asSuspended then old(paused)[slot := sender] else old(paused)
    {
      if asSuspended {
        InsertInSuspended(slot, sender);
      } else {
        InsertInUpdates(slot, sender);
      }
    }

    method TakeBack(slot: Slot, asSuspended: bool)
      requires Consistent()
      modifies this`updates, this`active, this`suspended, this`paused
      ensures Consistent()
      ensures active == if asSuspended then old(active) else old(active) - {slot}
      ensures paused == if asSuspended then old(paused) - {slot} else old(paused)
    {
      if asSuspended {
        var _ := RemoveFromSuspended(slot);
      } else {
        var _ := RemoveFromUpdates(slot);
      }
    }

    /** `accepted`: whether the other side still waits for the response. */
    method Subscribe(asSuspended: bool, direct: Option<Receiver>, accepted: bool) returns (slot: Slot)
      requires Valid()
      modifies this
      ensures Valid() && slot == old(next) && G() == Subscribed(old(G()), asSuspended, direct, accepted)
      ensures Live(old(G()), slot).None?
      ensures Live(G(), slot) == if accepted then Some(Subscription(NewSender(old(G()), direct), asSuspended)) else None
      ensures forall s :: s != slot ==> Live(G(), s) == Live(old(G()), s)
    {
      SubscribedLive(G(), asSuspended, direct, accepted);
      var sender;
      slot, sender := NewSlot(direct);
      Place(slot, sender, asSuspended);
      if !accepted {
        TakeBack(slot, asSuspended);
        assert active == old(active) && paused == old(paused);
      }
    }

    /** A live subscription keeps its sender; whatever slot is asked about, no other changes. */
    method Suspension(slot: Slot, suspend: bool)
      requires Valid()
      modifies this`updates, this`suspended, this`active, this`paused
      ensures Valid() && G() == Suspended(old(G()), slot, suspend)
      ensures Live(G(), slot) ==
              if Live(old(G()), slot).None? then None else Some(Live(old(G()), slot).value.(suspended := suspend))
      ensures forall s :: s != slot ==> Live(G(), s) == Live(old(G()), s)
    {
      if suspend {
        var removed := RemoveFromUpdates(slot);
        if removed.Some? {
          InsertInSuspended(slot, removed.value);
        } else {
          assert active == old(active);
        }
      } else {
        var removed := RemoveFromSuspended(slot);
        if removed.Some? {
          InsertInUpdates(slot, removed.value);
        } else {
          assert paused == old(paused);
        }
      }
    }

    method Unsubscribe(slot: Slot)
      requires Valid()
      modifies this`updates, this`suspended, this`active, this`paused
      ensures Valid() && G() == Unsubscribed(old(G()), slot) && Live(G(), slot).None?
      ensures forall s :: s != slot ==> Live(G(), s) == Live(old(G()), s)
    {
      var _ := RemoveFromSuspended(slot);
      var _ := RemoveFromUpdates(slot);
    }

    method Reconfigure()
      requires Valid()
      modifies this`updates, this`active
      ensures Valid() && G() == Reconfigured(old(G()))
      ensures forall s, open :: s !in Delivered(G(), open)
    {
      updates, active := [], map[];
    }

    /** An update goes once to every subscription that is open and not suspended, and to no other. */
    method UpdateData(open: set<Receiver>) returns (delivered: seq<Slot>, sentAtLeastOnce: bool)
      requires Valid()
      ensures forall i, j :: 0 <= i < j < |delivered| ==> delivered[i] != delivered[j]
      ensures forall s :: s in delivered <==> s in Delivered(G(), open)
      ensures forall s :: s in delivered <==>
                Live(G(), s).Some? && !Live(G(), s).value.suspended && Reaches(Live(G(), s).value.sender, open)
      ensures sentAtLeastOnce <==> delivered != []
    {
      delivered, sentAtLeastOnce := [], false;
      for i := 0 to |updates|
        invariant forall j, k :: 0 <= j < k < |delivered| ==> delivered[j] != delivered[k]
        invariant forall s :: s in delivered ==> exists j: nat :: j < i && Delivers(j, open, s)
        invariant forall j :: 0 <= j < i && Reaches(updates[j].1, open) ==> updates[j].0 in delivered
        invariant sentAtLeastOnce <==> delivered != []
      {
        forall j | 0 <= j < i ensures updates[j].0 != updates[i].0 {
          UniqueAt(updates, j, i);
        }
        assert updates[i].0 !in delivered;
        if Reaches(updates[i].1, open) {
          delivered := delivered + [updates[i].0];
          sentAtLeastOnce := true;
          assert Delivers(i, open, updates[i].0);
        }
      }
      forall s ensures s in delivered <==> s in Delivered(G(), open) {
        if s in delivered {
          var j :| 0 <= j < |updates| && Delivers(j, open, s);
          ContentsAt(updates, j);
        } else if s in active {
          var j := ContentsFrom(updates, s);
          ContentsAt(updates, j);
        }
      }
    }

    ghost predicate Delivers(j: nat, open: set<Receiver>, s: Slot)
      reads this
      requires j < |updates|
    {
      updates[j].0 == s && Reaches(updates[j].1, open)
    }
  }
}
