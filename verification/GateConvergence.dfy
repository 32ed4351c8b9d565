/** Whenever nothing is under way, the shared map is what it should be, unless a clone has been kept
    from taking a slot out; and exactly when that happens. */
module GateConvergence {
  import opened Wrappers
  import opened GateClones

  predicate About(n: Note, slot: Slot) {
    !n.Other? && n.slot == slot
  }

  /** The last thing a clone will be told about a slot. */
  function Last(q: seq<Note>, slot: Slot): Option<Note> {
    if q == [] then None
    else if About(q[|q| - 1], slot) then Some(q[|q| - 1])
    else Last(q[..|q| - 1], slot)
  }

  lemma LastSnoc(q: seq<Note>, n: Note, slot: Slot)
    ensures Last(q + [n], slot) == if About(n, slot) then Some(n) else Last(q, slot)
  {
    assert (q + [n])[..|q|] == q;
  }

  lemma {:induction false} LastTail(q: seq<Note>, slot: Slot)
    requires q != []
    ensures Last(q, slot) == if Last(q[1..], slot).Some? then Last(q[1..], slot)
                             else if About(q[0], slot) then Some(q[0]) else None
  {
    if |q| > 1 {
      LastTail(q[..|q| - 1], slot);
      assert q[..|q| - 1][1..] == q[1..][..|q| - 2];
    }
  }

  lemma {:induction false} LastAbout(q: seq<Note>, slot: Slot)
    ensures Last(q, slot).Some? ==> About(Last(q, slot).value, slot) && Last(q, slot).value in q
  {
    if q != [] && !About(q[|q| - 1], slot) {
      LastAbout(q[..|q| - 1], slot);
    }
  }

  /** The last thing the clone will be told about the slot; nothing if the clone is gone. */
  function LastWord(queues: map<Clone, seq<Note>>, c: Clone, slot: Slot): Option<Note> {
    if c in queues then Last(queues[c], slot) else None
  }

  /** A slot that nobody owns, or owns no longer. */
  predicate Dead(s: State, slot: Slot) {
    slot !in s.live && !(s.phase.Responding? && s.phase.slot == slot)
  }

  /** The root is about to tell the clone to take the slot out. */
  predicate Promised(phase: Phase, c: Clone, slot: Slot) {
    phase.Notifying? && phase.note == FollowUnsubscribe(slot) && c in phase.left
  }

  /** The last word the clone hears about the slot is to take it out. */
  predicate Cleans(s: State, c: Clone, slot: Slot) {
    c in s.queues && (LastWord(s.queues, c, slot) == Some(FollowUnsubscribe(slot)) || Promised(s.phase, c, slot))
  }

  ghost predicate Cleaned(s: State, slot: Slot) {
    exists c :: Cleans(s, c, slot)
  }

  // ---- What every step keeps ----

  /** A note that is under way says the truth about a live slot. */
  predicate Sound(s: State, n: Note) {
    match n
    case FollowSubscribe(slot, sender) =>
      slot < s.next && !(s.phase.Responding? && s.phase.slot == slot) && (slot in s.live ==> s.live[slot] == sender)
    case FollowUnsubscribe(slot) =>
      slot < s.next && !(s.phase.Responding? && s.phase.slot == slot) && slot !in s.live
    case Other => true
  }

  ghost predicate Queues(s: State) {
    forall c :: c in s.queues ==>
      (s.queues[c] != [] ==> c in s.senders) && (forall n :: n in s.queues[c] ==> Sound(s, n))
  }

  ghost predicate RootPhase(s: State) {
    match s.phase
    case Idle => true
    case Responding(slot, sub) =>
      && s.first <= slot < s.next && slot !in s.live && slot !in s.paused && slot !in s.followed && slot !in s.kept
      && (if sub.suspended then slot in s.suspended && s.suspended[slot] == sub.sender && slot !in s.updates
          else slot in s.updates && s.updates[slot] == sub.sender && slot !in s.suspended)
    case Notifying(note, left, _) =>
      Sound(s, note) && left <= s.senders && (note.FollowSubscribe? ==> note.slot in s.live)
  }

  /** A live subscription is suspended exactly if its link last asked for that, and in the map of senders
      unless it is suspended and no clone has put it back since. */
  predicate Placed(s: State, slot: Slot)
    requires slot in s.live
  {
    && s.first <= slot < s.next && slot !in s.kept
    && (slot in s.updates <==> slot !in s.paused || slot in s.followed)
    && (slot in s.updates ==> s.updates[slot] == s.live[slot])
    && (slot in s.suspended <==> slot in s.paused)
    && (slot in s.suspended ==> s.suspended[slot] == s.live[slot])
  }

  /** What is suspended and not live is left over from before a Reconfigure. */
  ghost predicate LeftOver(s: State) {
    && (forall slot :: slot in s.kept ==> slot < s.first && slot in s.suspended && s.suspended[slot] == s.kept[slot])
    && (forall slot :: slot in s.suspended && Dead(s, slot) ==> slot in s.kept)
  }

  ghost predicate Bounded(s: State) {
    && s.first <= s.next
    && (forall slot :: slot in s.updates ==> slot < s.next)
    && (forall slot :: slot in s.suspended ==> slot < s.next)
    && (forall slot :: slot in s.paused || slot in s.followed ==> slot < s.next)
  }

  ghost predicate Core(s: State) {
    && Bounded(s)
    && RootPhase(s)
    && Queues(s)
    && LeftOver(s)
    && forall slot :: slot in s.live ==> Placed(s, slot)
  }

  lemma SubscribeCore(s: State, sub: Subscription)
    requires Core(s) && s.phase.Idle?
    ensures Core(Subscribed(s, sub))
  {
    var s' := Subscribed(s, sub);
    assert s.next !in s.live && s.next !in s.kept;
    forall slot | slot in s'.live ensures Placed(s', slot) {
      assert Placed(s, slot);
    }
  }

  lemma AcceptCore(s: State)
    requires Core(s) && s.phase.Responding?
    ensures Core(Responded(s, true))
  {
    var s' := Responded(s, true);
    forall slot | slot in s'.live ensures Placed(s', slot) {
      assert slot != s.phase.slot ==> Placed(s, slot);
    }
  }

  /** What notes are about does not change. */
  predicate SameNews(s: State, s': State) {
    s'.next == s.next && s'.live == s.live && (s.phase.Responding? || s'.phase.Responding? ==> s'.phase == s.phase)
  }

  lemma SoundStays(s: State, s': State, n: Note)
    requires SameNews(s, s') && Sound(s, n)
    ensures Sound(s', n)
  {
  }

  lemma QueuesStay(s: State, s': State)
    requires SameNews(s, s')
    requires forall c :: c in s'.queues && s'.queues[c] != [] ==> c in s'.senders
    requires forall c, n :: c in s'.queues && n in s'.queues[c] ==> Sound(s, n)
    ensures Queues(s')
  {
    forall c, n | c in s'.queues && n in s'.queues[c] ensures Sound(s', n) {
      SoundStays(s, s', n);
    }
  }

  lemma RefuseQueues(s: State)
    requires Queues(s) && s.phase.Responding?
    ensures Queues(Responded(s, false))
  {
    var s' := Responded(s, false);
    forall c, n | c in s'.queues && n in s'.queues[c] ensures Sound(s', n) {
      assert Sound(s, n);
    }
  }

  lemma RefuseCore(s: State)
    requires Core(s) && s.phase.Responding?
    ensures Core(Responded(s, false))
  {
    var s' := Responded(s, false);
    RefuseQueues(s);
    assert LeftOver(s') by {
      forall x | x in s'.suspended && Dead(s', x) ensures x in s'.kept {
        assert Dead(s, x);
      }
    }
    forall slot | slot in s'.live ensures Placed(s', slot) {
      assert Placed(s, slot);
    }
  }

  lemma UnsubscribeCore(s: State, slot: Slot)
    requires Core(s) && s.phase.Idle? && s.first <= slot < s.next
    ensures Core(Unsubscribed(s, slot))
  {
    var s' := Unsubscribed(s, slot);
    forall x | x in s'.live ensures Placed(s', x) {
      assert Placed(s, x);
    }
    forall x | x in s'.suspended && Dead(s', x) ensures x in s'.kept {
      assert Dead(s, x);
    }
  }

  lemma SuspensionPlaced(s: State, slot: Slot, suspend: bool, x: Slot)
    requires slot in s.live && x in s.live && Placed(s, slot) && Placed(s, x)
    ensures Placed(Suspended(s, slot, suspend), x)
  {
  }

  lemma SuspensionLeft(s: State, slot: Slot, suspend: bool)
    requires slot in s.live && Placed(s, slot) && LeftOver(s)
    ensures LeftOver(Suspended(s, slot, suspend))
  {
    var s' := Suspended(s, slot, suspend);
    forall x | x in s'.suspended && Dead(s', x) ensures x in s'.kept {
      assert x in s.suspended && Dead(s, x);
    }
  }

  lemma SuspensionBounded(s: State, slot: Slot, suspend: bool)
    requires slot < s.next && Bounded(s)
    ensures Bounded(Suspended(s, slot, suspend))
  {
  }

  lemma SuspensionQueues(s: State, slot: Slot, suspend: bool)
    requires Queues(s)
    ensures Queues(Suspended(s, slot, suspend))
  {
    QueuesStay(s, Suspended(s, slot, suspend));
  }

  lemma SuspensionCore(s: State, slot: Slot, suspend: bool)
    requires Core(s) && s.phase.Idle? && slot in s.live
    ensures Core(Suspended(s, slot, suspend))
  {
    var s' := Suspended(s, slot, suspend);
    assert Placed(s, slot);
    SuspensionQueues(s, slot, suspend);
    SuspensionLeft(s, slot, suspend);
    SuspensionBounded(s, slot, suspend);
    forall x | x in s'.live ensures Placed(s', x) {
      SuspensionPlaced(s, slot, suspend, x);
    }
  }

  lemma ReconfigureCore(s: State)
    requires Core(s) && s.phase.Idle?
    ensures Core(Reconfigured(s))
  {
    var s' := Reconfigured(s);
    forall c, n | c in s'.queues && n in s'.queues[c] ensures Sound(s', n) {
      assert Sound(s, n);
    }
  }

  /** Only what the root and the clones have to say to each other changes. */
  predicate SameMaps(s: State, s': State) {
    && SameNews(s, s')
    && s'.updates == s.updates && s'.suspended == s.suspended && s'.first == s.first
    && s'.paused == s.paused && s'.followed == s.followed && s'.kept == s.kept
  }

  lemma SameMapsCore(s: State, s': State)
    requires Core(s) && SameMaps(s, s') && RootPhase(s') && Queues(s')
    ensures Core(s')
  {
    forall x | x in s'.live ensures Placed(s', x) {
      assert Placed(s, x);
    }
    forall x | x in s'.suspended && Dead(s', x) ensures x in s'.kept {
      assert Dead(s, x);
    }
  }

  lemma NotifyOneCore(s: State, c: Clone)
    requires Core(s) && s.phase.Notifying? && c in s.phase.left
    ensures Core(NotifiedOne(s, c))
  {
    var s' := NotifiedOne(s, c);
    NotifyOneQueues(s, c);
    SoundStays(s, s', s.phase.note);
    SameMapsCore(s, s');
  }

  lemma NotifyOneQueues(s: State, c: Clone)
    requires Queues(s) && s.phase.Notifying? && c in s.phase.left && c in s.senders && Sound(s, s.phase.note)
    ensures Queues(NotifiedOne(s, c))
  {
    var s' := NotifiedOne(s, c);
    forall d | d in s'.queues ensures d in s.queues && forall n :: n in s'.queues[d] ==> Sound(s, n) {
      assert s'.queues[d] == s.queues[d] || (d == c && s'.queues[c] == s.queues[c] + [s.phase.note]);
    }
    QueuesStay(s, s');
  }

  lemma NotifyAllCore(s: State)
    requires Core(s) && s.phase.Notifying? && s.phase.left == {}
    ensures Core(NotifiedAll(s))
  {
    QueuesStay(s, NotifiedAll(s));
    SameMapsCore(s, NotifiedAll(s));
  }

  lemma PassCore(s: State)
    requires Core(s) && s.phase.Idle?
    ensures Core(s.(phase := Notifying(Other, s.senders, false)))
  {
    var s' := s.(phase := Notifying(Other, s.senders, false));
    QueuesStay(s, s');
    SameMapsCore(s, s');
  }

  lemma SendersCore(s: State, senders: set<Clone>)
    requires Core(s) && s.phase.Idle? && s.senders * s.queues.Keys <= senders
    ensures Core(s.(senders := senders))
  {
    var s' := s.(senders := senders);
    QueuesStay(s, s');
    SameMapsCore(s, s');
  }

  /** A clone comes, or goes with what it has queued. */
  lemma ClonesCore(s: State, queues: map<Clone, seq<Note>>)
    requires Core(s) && forall c :: c in queues ==> queues[c] == [] || (c in s.queues && queues[c] == s.queues[c])
    ensures Core(s.(queues := queues))
  {
    var s' := s.(queues := queues);
    QueuesStay(s, s');
    SameMapsCore(s, s');
  }

  lemma ProcessQueues(s: State, c: Clone)
    requires Queues(s) && c in s.queues && s.queues[c] != []
    ensures Queues(Processed(s, c))
  {
    var s' := Processed(s, c);
    forall d, n | d in s'.queues && n in s'.queues[d] ensures Sound(s, n) {
      assert n in s.queues[d];
    }
    QueuesStay(s, s');
  }

  lemma ProcessPhase(s: State, c: Clone)
    requires RootPhase(s) && Bounded(s) && c in s.queues && s.queues[c] != [] && Sound(s, s.queues[c][0])
    ensures RootPhase(Processed(s, c)) && Bounded(Processed(s, c))
  {
    var s' := Processed(s, c);
    if s.phase.Notifying? {
      SoundStays(s, s', s.phase.note);
    }
  }

  lemma ProcessCore(s: State, c: Clone)
    requires Core(s) && c in s.queues && s.queues[c] != []
    ensures Core(Processed(s, c))
  {
    var s' := Processed(s, c);
    assert Sound(s, s.queues[c][0]);
    ProcessQueues(s, c);
    ProcessPhase(s, c);
    forall x | x in s'.live ensures Placed(s', x) {
      assert Placed(s, x);
    }
    forall x | x in s'.suspended && Dead(s', x) ensures x in s'.kept {
      assert Dead(s, x);
    }
  }

  lemma LinkStepCore(s: State, a: Action, s': State)
    requires Core(s) && LinkStep(s, a, s')
    ensures Core(s')
  {
    match a
    case Subscribe(sub) => SubscribeCore(s, sub);
    case Respond(accepted) => if accepted { AcceptCore(s); } else { RefuseCore(s); }
    case Unsubscribe(slot) => UnsubscribeCore(s, slot);
    case Suspension(slot, suspend) => SuspensionCore(s, slot, suspend);
    case Reconfigure => ReconfigureCore(s);
  }

  lemma RootStepCore(s: State, a: Action, s': State)
    requires Core(s) && RootStep(s, a, s')
    ensures Core(s')
  {
    match a
    case Pass => PassCore(s);
    case NotifyOne(c) => NotifyOneCore(s, c);
    case NotifyAll => NotifyAllCore(s);
    case AttachClone(c) => SendersCore(s, s.senders + {c});
    case DetachClone(c) => SendersCore(s, s.senders - {c});
  }

  lemma CloneStepCore(s: State, a: Action, s': State)
    requires Core(s) && CloneStep(s, a, s')
    ensures Core(s')
  {
    match a
    case MakeClone(c) => ClonesCore(s, s.queues[c := []]);
    case Process(c) => ProcessCore(s, c);
    case Drop(c) => ClonesCore(s, s.queues - {c});
  }

  lemma StepCore(s: State, a: Action, s': State)
    requires Core(s) && Step(s, a, s')
    ensures Core(s')
  {
    if LinkStep(s, a, s') {
      LinkStepCore(s, a, s');
    } else if RootStep(s, a, s') {
      RootStepCore(s, a, s');
    } else {
      CloneStepCore(s, a, s');
    }
  }

  // ---- What becomes of a dead slot ----

  /** A slot that should be gone will be, whoever puts it back first. */
  ghost predicate Swept(s: State, slot: Slot) {
    && (slot in s.updates ==> Cleaned(s, slot))
    && forall c :: LastWord(s.queues, c, slot).Some? ==> Cleans(s, c, slot)
  }

  ghost predicate AllSwept(s: State) {
    forall slot :: Dead(s, slot) ==> Swept(s, slot)
  }

  /** The slot is in the map, and this clone alone is going to take it out. */
  ghost predicate SoleCleaner(s: State, c: Clone, slot: Slot) {
    && Dead(s, slot) && slot in s.updates && Cleans(s, c, slot)
    && forall d :: Cleans(s, d, slot) ==> d == c
  }

  /** Whether the step keeps somebody from taking a dead slot out: a clone goes that alone would have; or
      the order to do so does not fit into the queue of a clone that has still to put the slot back, or
      that alone would have taken it out; or the root is reconfigured while a clone has still to put a
      live slot back, of whose end nobody will hear. */
  ghost predicate Harms(s: State, a: Action) {
    match a
    case Drop(c) => exists slot :: SoleCleaner(s, c, slot)
    case NotifyOne(c) =>
      && s.phase.Notifying? && s.phase.note.FollowUnsubscribe? && c in s.queues && !HasRoom(s, c)
      && var slot := s.phase.note.slot;
         && LastWord(s.queues, c, slot) != Some(FollowUnsubscribe(slot))
         && (LastWord(s.queues, c, slot).Some? || SoleCleaner(s, c, slot))
    case Reconfigure => exists c, slot :: slot in s.live && LastWord(s.queues, c, slot).Some?
    case _ => false
  }

  /** Clones that clean still do, and none has more to put back. */
  ghost predicate Tidier(s: State, s': State, slot: Slot) {
    && (forall c :: Cleans(s, c, slot) ==> Cleans(s', c, slot))
    && (forall c :: LastWord(s'.queues, c, slot).Some? ==>
          LastWord(s.queues, c, slot).Some? || Cleans(s', c, slot))
  }

  lemma TidierSwept(s: State, s': State, slot: Slot)
    requires Swept(s, slot) && Tidier(s, s', slot) && (slot in s'.updates ==> slot in s.updates)
    ensures Swept(s', slot)
  {
    if slot in s'.updates {
      var c :| Cleans(s, c, slot);
      assert Cleans(s', c, slot);
    }
  }

  /** A note about a live slot is not about a dead one. */
  lemma QueuedAbout(s: State, c: Clone, slot: Slot)
    requires Queues(s)
    ensures LastWord(s.queues, c, slot).Some? ==>
              var n := LastWord(s.queues, c, slot).value;
              About(n, slot) && Sound(s, n) && c in s.queues && c in s.senders
  {
    if c in s.queues {
      LastAbout(s.queues[c], slot);
    }
  }

  lemma RespondSwept(s: State, accepted: bool)
    requires Core(s) && AllSwept(s) && s.phase.Responding?
    ensures AllSwept(Responded(s, accepted))
  {
    var s' := Responded(s, accepted);
    forall slot | Dead(s', slot) ensures Swept(s', slot) {
      if slot == s.phase.slot {
        forall c ensures LastWord(s'.queues, c, slot).None? {
          QueuedAbout(s, c, slot);
        }
      } else {
        TidierSwept(s, s', slot);
      }
    }
  }

  /** The slot is dead from now on, and every clone that may have been told of it will hear so. */
  lemma UnsubscribeSwept(s: State, slot: Slot)
    requires Core(s) && AllSwept(s) && s.phase.Idle? && s.first <= slot < s.next
    ensures AllSwept(Unsubscribed(s, slot))
  {
    var s' := Unsubscribed(s, slot);
    forall x | Dead(s', x) ensures Swept(s', x) {
      if x == slot {
        forall c | LastWord(s'.queues, c, x).Some? ensures Cleans(s', c, x) {
          QueuedAbout(s, c, x);
        }
      } else {
        TidierSwept(s, s', x);
      }
    }
  }

  lemma ReconfigureSwept(s: State)
    requires Core(s) && AllSwept(s) && s.phase.Idle?
    ensures AllSwept(Reconfigured(s)) <==> !Harms(s, Reconfigure)
  {
    var s' := Reconfigured(s);
    forall x ensures Dead(s', x) && (Dead(s, x) ==> Swept(s', x)) {
      if Dead(s, x) {
        TidierSwept(s, s', x);
      }
    }
    forall c, x | x in s.live && LastWord(s.queues, c, x).Some? ensures !Swept(s', x) {
      QueuedAbout(s, c, x);
      assert !Cleans(s', c, x);
    }
  }

  /** The note goes into a queue that has room. */
  lemma NotifyTidier(s: State, c: Clone, slot: Slot)
    requires s.phase.Notifying? && c in s.phase.left && HasRoom(s, c)
    requires About(s.phase.note, slot) ==> s.phase.note.FollowUnsubscribe?
    ensures Tidier(s, NotifiedOne(s, c), slot)
  {
    LastSnoc(s.queues[c], s.phase.note, slot);
  }

  /** The clone does not hear the note, because it is gone or its queue is full. */
  lemma NotifyInVain(s: State, c: Clone, slot: Slot)
    requires Core(s) && AllSwept(s) && s.phase.Notifying? && c in s.phase.left && !HasRoom(s, c) && Dead(s, slot)
    ensures c !in s.queues || s.phase.note != FollowUnsubscribe(slot) ==> Swept(NotifiedOne(s, c), slot)
    ensures c in s.queues && s.phase.note == FollowUnsubscribe(slot) ==>
              (Swept(NotifiedOne(s, c), slot) <==> !Harms(s, NotifyOne(c)))
  {
    var s' := NotifiedOne(s, c);
    var told := LastWord(s.queues, c, slot) == Some(FollowUnsubscribe(slot));
    forall d ensures Cleans(s', d, slot) <==> Cleans(s, d, slot) && (d != c || told || !Promised(s.phase, d, slot)) {
    }
    if c !in s.queues || s.phase.note != FollowUnsubscribe(slot) {
      TidierSwept(s, s', slot);
    }
  }

  lemma NotifyOneSwept(s: State, c: Clone)
    requires Core(s) && AllSwept(s) && s.phase.Notifying? && c in s.phase.left
    ensures AllSwept(NotifiedOne(s, c)) <==> !Harms(s, NotifyOne(c))
  {
    var s' := NotifiedOne(s, c);
    if HasRoom(s, c) {
      forall slot | Dead(s', slot) ensures Swept(s', slot) {
        NotifyTidier(s, c, slot);
        TidierSwept(s, s', slot);
      }
    } else {
      forall slot | Dead(s', slot)
        ensures Swept(s', slot) <==> !(c in s.queues && s.phase.note == FollowUnsubscribe(slot) && Harms(s, NotifyOne(c)))
      {
        NotifyInVain(s, c, slot);
      }
    }
  }

  /** The clone puts a dead slot back, but it will hear that it is dead; or it takes it out. */
  lemma ProcessSwept(s: State, c: Clone)
    requires AllSwept(s) && c in s.queues && s.queues[c] != []
    ensures AllSwept(Processed(s, c))
  {
    var s', n := Processed(s, c), s.queues[c][0];
    forall slot | Dead(s', slot) ensures Swept(s', slot) {
      assert Dead(s, slot);
      LastTail(s.queues[c], slot);
      if About(n, slot) {
        assert Cleans(s, c, slot);
        assert n.FollowSubscribe? ==> Cleans(s', c, slot);
        assert forall d :: d != c && Cleans(s, d, slot) ==> Cleans(s', d, slot);
      } else {
        TidierSwept(s, s', slot);
      }
    }
  }

  lemma DropSwept(s: State, c: Clone)
    requires AllSwept(s) && c in s.queues
    ensures AllSwept(s.(queues := s.queues - {c})) <==> !Harms(s, Drop(c))
  {
    var s' := s.(queues := s.queues - {c});
    forall slot | Dead(s', slot) ensures Swept(s', slot) <==> !SoleCleaner(s, c, slot) {
      assert Swept(s, slot);
      assert forall d :: Cleans(s', d, slot) <==> Cleans(s, d, slot) && d != c;
      assert forall d :: LastWord(s'.queues, d, slot) == if d == c then None else LastWord(s.queues, d, slot);
    }
  }

  /** A step that adds no dead slot and touches neither queues nor promises. */
  lemma OtherSwept(s: State, s': State)
    requires AllSwept(s)
    requires forall c, slot :: LastWord(s'.queues, c, slot) == LastWord(s.queues, c, slot)
    requires forall c :: c in s.queues ==> c in s'.queues
    requires forall c, slot :: Promised(s.phase, c, slot) ==> Promised(s'.phase, c, slot)
    requires forall slot :: Dead(s', slot) ==> Dead(s, slot) && (slot in s'.updates ==> slot in s.updates)
    ensures AllSwept(s')
  {
    forall slot | Dead(s', slot) ensures Swept(s', slot) {
      TidierSwept(s, s', slot);
    }
  }

  lemma LinkStepSwept(s: State, a: Action, s': State)
    requires Core(s) && AllSwept(s) && LinkStep(s, a, s')
    ensures AllSwept(s') <==> !Harms(s, a)
  {
    match a
    case Subscribe(sub) => OtherSwept(s, s');
    case Respond(accepted) => RespondSwept(s, accepted);
    case Unsubscribe(slot) => UnsubscribeSwept(s, slot);
    case Suspension(slot, suspend) => OtherSwept(s, s');
    case Reconfigure => ReconfigureSwept(s);
  }

  lemma RootStepSwept(s: State, a: Action, s': State)
    requires Core(s) && AllSwept(s) && RootStep(s, a, s')
    ensures AllSwept(s') <==> !Harms(s, a)
  {
    match a
    case NotifyOne(c) => NotifyOneSwept(s, c);
    case _ => OtherSwept(s, s');
  }

  lemma CloneStepSwept(s: State, a: Action, s': State)
    requires AllSwept(s) && CloneStep(s, a, s')
    ensures AllSwept(s') <==> !Harms(s, a)
  {
    match a
    case MakeClone(c) => OtherSwept(s, s');
    case Process(c) => ProcessSwept(s, c);
    case Drop(c) => DropSwept(s, c);
  }

  /** A step leaves every dead slot to somebody exactly if it does no harm. */
  lemma HarmExactly(s: State, a: Action, s': State)
    requires Core(s) && AllSwept(s) && Step(s, a, s')
    ensures Core(s') && (AllSwept(s') <==> !Harms(s, a))
  {
    StepCore(s, a, s');
    if LinkStep(s, a, s') {
      LinkStepSwept(s, a, s');
    } else if RootStep(s, a, s') {
      RootStepSwept(s, a, s');
    } else {
      CloneStepSwept(s, a, s');
    }
  }

  // ---- Whole runs ----

  /** No step before state `k` did harm. */
  ghost predicate Harmless(run: seq<State>, actions: seq<Action>, k: nat)
    requires |run| == |actions| + 1 && k < |run|
  {
    forall j :: 0 <= j < k ==> !Harms(run[j], actions[j])
  }

  lemma {:induction false} RunKept(run: seq<State>, actions: seq<Action>, k: nat)
    requires Run(run, actions) && k < |run|
    ensures Core(run[k])
  {
    if k > 0 {
      RunKept(run, actions, k - 1);
      StepCore(run[k - 1], actions[k - 1], run[k]);
    }
  }

  lemma {:induction false} RunSwept(run: seq<State>, actions: seq<Action>, k: nat)
    requires Run(run, actions) && k < |run| && Harmless(run, actions, k)
    ensures Core(run[k]) && AllSwept(run[k])
  {
    if k > 0 {
      RunSwept(run, actions, k - 1);
      HarmExactly(run[k - 1], actions[k - 1], run[k]);
    }
  }

  /** Live subscriptions at any moment, whatever harm is done to dead slots: suspended are those whose
      link last asked for it, and delivered to are all others and those that a clone has put back since. */
  lemma LiveSlots(run: seq<State>, actions: seq<Action>, k: nat, slot: Slot)
    requires Run(run, actions) && k < |run| && slot in run[k].live
    ensures var s := run[k];
            && (slot in s.updates <==> slot !in s.paused || slot in s.followed)
            && (slot in s.updates ==> s.updates[slot] == s.live[slot])
            && (slot in s.suspended <==> slot in s.paused)
            && (slot in s.suspended ==> s.suspended[slot] == s.live[slot])
  {
    RunKept(run, actions, k);
    assert Placed(run[k], slot);
  }

  /** Whatever the order in which clones caught up, once nothing is under way the maps hold the live
      subscriptions of the current channel with the senders they were made with, as `LiveSlots` says,
      and nothing else but what was suspended when a Reconfigure came. */
  lemma Convergence(run: seq<State>, actions: seq<Action>, k: nat)
    requires Run(run, actions) && k < |run| && Harmless(run, actions, k) && Quiet(run[k])
    ensures var s := run[k];
            && s.updates == (map x | x in s.live && (x !in s.paused || x in s.followed) :: s.live[x])
            && s.suspended == s.kept + (map x | x in s.live && x in s.paused :: s.live[x])
            && forall x :: x in s.updates ==> s.first <= x
  {
    RunSwept(run, actions, k);
    var s := run[k];
    forall x | x in s.updates ensures x in s.live {
      assert Dead(s, x) ==> Swept(s, x);
    }
    forall x | x in s.suspended ensures x in s.live || x in s.kept {
      assert Dead(s, x) ==> x in s.kept;
    }
    forall x | x in s.live ensures Placed(s, x) {
    }
    assert forall x :: x in s.kept ==> x in s.suspended && s.suspended[x] == s.kept[x];
  }

  /** With links that never ask to be suspended: exactly the subscribed slots. */
  lemma ConvergenceUnsuspended(run: seq<State>, actions: seq<Action>, k: nat)
    requires Run(run, actions) && k < |run| && Harmless(run, actions, k) && Quiet(run[k])
    requires forall x :: x in run[k].live ==> x !in run[k].paused
    ensures run[k].updates == run[k].live
  {
    Convergence(run, actions, k);
  }

  /** At any moment, a slot that should not be in the map is about to be taken out by a clone. */
  lemma StaleSlotsGo(run: seq<State>, actions: seq<Action>, k: nat, slot: Slot) returns (c: Clone)
    requires Run(run, actions) && k < |run| && Harmless(run, actions, k)
    requires slot in run[k].updates && Dead(run[k], slot)
    ensures c in run[k].queues
    ensures FollowUnsubscribe(slot) in run[k].queues[c] || Promised(run[k].phase, c, slot)
  {
    RunSwept(run, actions, k);
    assert Swept(run[k], slot);
    c :| Cleans(run[k], c, slot);
    LastAbout(run[k].queues[c], slot);
  }
}
