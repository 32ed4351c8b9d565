/** The interner in use by several threads. A thread that interns holds the lock of a shard, looks at the
    slots of a bucket one by one and may get interrupted in between: other threads intern in other
    shards, clone and drop Arcs and write to blobs at any time. */
module InternerRuns {
  import opened Bytes
  import opened Wrappers
  import opened Interner

  type Thread = nat

  /** A call of `intern` that has looked at the slots before `i`, and the Arc it has got from slot `i`. */
  datatype Search = Search(raw: seq<byte>, i: nat, hand: Option<Address>)

  datatype State = State(w: World, searches: map<Thread, Search>)

  predicate InHand(s: State, a: Address) {
    exists t :: t in s.searches && s.searches[t].hand == Some(a)
  }

  /** Somebody has an Arc of the blob, not counting the one a search may have in hand. At most one has:
      the slots of a blob are under one lock. */
  predicate Owned(s: State, a: Address) {
    Live(s.w.blobs, a) && a < s.w.next && (InHand(s, a) ==> s.w.blobs[a].strong > 1)
  }

  predicate Locked(s: State, hash: seq<byte> -> Hash, h: Hash) {
    exists t :: t in s.searches && Shard(hash(s.searches[t].raw)) == Shard(h)
  }

  datatype Action =
    | Begin(t: Thread, raw: seq<byte>)
    | Upgrade(t: Thread)
    | Compare(t: Thread)
    | Push(t: Thread)
    | New(bytes: seq<byte>)
    | Clone(a: Address)
    | Drop(a: Address)
    | Set(a: Address, info: byte)

  /** A slot whose blob is gone is taken out; otherwise the search has an Arc of it now. */
  function Upgraded(s: State, t: Thread, h: Hash): State
    requires t in s.searches && |s.w.shards| == NUM_SHARDS && s.searches[t].i < |Bucket(s.w.shards, h)|
  {
    var a := Bucket(s.w.shards, h)[s.searches[t].i];
    if Live(s.w.blobs, a) then
      State(Recounted(s.w, a, s.w.blobs[a].strong + 1), s.searches[t := s.searches[t].(hand := Some(a))])
    else s.(w := Pruned(s.w, h, s.searches[t].i))
  }

  /** The bytes are found and the Arc is returned, or it is dropped and the search goes on. */
  function Compared(s: State, t: Thread): State
    requires t in s.searches && s.searches[t].hand.Some? && Live(s.w.blobs, s.searches[t].hand.value)
  {
    var search, a := s.searches[t], s.searches[t].hand.value;
    if s.w.blobs[a].bytes == search.raw then s.(searches := s.searches - {t})
    else State(Recounted(s.w, a, s.w.blobs[a].strong - 1), s.searches[t := Search(search.raw, search.i + 1, None)])
  }

  /** A step of a thread inside `intern`. */
  predicate SearchStep(s: State, hash: seq<byte> -> Hash, act: Action, s': State) {
    |s.w.shards| == NUM_SHARDS &&
    match act
    case Begin(t, raw) =>
      t !in s.searches && !Locked(s, hash, hash(raw)) && s' == s.(searches := s.searches[t := Search(raw, 0, None)])
    case Upgrade(t) =>
      && t in s.searches && s.searches[t].hand.None?
      && s.searches[t].i < |Bucket(s.w.shards, hash(s.searches[t].raw))|
      && s' == Upgraded(s, t, hash(s.searches[t].raw))
    case Compare(t) =>
      && t in s.searches && s.searches[t].hand.Some? && Live(s.w.blobs, s.searches[t].hand.value)
      && s' == Compared(s, t)
    case Push(t) =>
      && t in s.searches && s.searches[t].hand.None?
      && s.searches[t].i >= |Bucket(s.w.shards, hash(s.searches[t].raw))|
      && s' == State(Pushed(s.w, hash(s.searches[t].raw), s.searches[t].raw), s.searches - {t})
    case _ => false
  }

  /** A step of whoever has an Arc, or makes one. */
  predicate OwnerStep(s: State, act: Action, s': State) {
    match act
    case New(bytes) => s' == s.(w := Allocated(s.w, bytes))
    case Clone(a) => Owned(s, a) && s' == s.(w := Recounted(s.w, a, s.w.blobs[a].strong + 1))
    case Drop(a) => Owned(s, a) && s' == s.(w := Recounted(s.w, a, s.w.blobs[a].strong - 1))
    case Set(a, info) => Owned(s, a) && s' == s.(w := Setting(s.w, a, info).0)
    case _ => false
  }

  predicate Step(s: State, hash: seq<byte> -> Hash, act: Action, s': State) {
    SearchStep(s, hash, act, s') || OwnerStep(s, act, s')
  }

  /** The call of `intern` that ends with this step returns blob `r` for these bytes. */
  predicate Returns(s: State, act: Action, raw: seq<byte>, r: Address) {
    match act
    case Compare(t) =>
      && t in s.searches && s.searches[t].raw == raw && s.searches[t].hand == Some(r)
      && Live(s.w.blobs, r) && s.w.blobs[r].bytes == raw
    case Push(t) => t in s.searches && s.searches[t].raw == raw && r == s.w.next
    case _ => false
  }

  // ---- What every step keeps ----

  /** None of the slots the search has passed has the bytes, unless its blob is gone by now. */
  ghost predicate Sound(w: World, hash: seq<byte> -> Hash, search: Search) {
    var q := Bucket(w.shards, hash(search.raw));
    && search.i <= |q|
    && (forall j :: 0 <= j < search.i ==> Live(w.blobs, q[j]) ==> w.blobs[q[j]].bytes != search.raw)
    && (search.hand.Some? ==> search.i < |q| && q[search.i] == search.hand.value && Live(w.blobs, search.hand.value))
  }

  ghost predicate Inv(s: State, hash: seq<byte> -> Hash) {
    && Good(s.w, hash)
    && (forall t :: t in s.searches ==> Sound(s.w, hash, s.searches[t]))
    && Exclusive(s.searches, hash)
  }

  /** One search at a time has the lock of a shard. */
  ghost predicate Exclusive(searches: map<Thread, Search>, hash: seq<byte> -> Hash) {
    forall t, u | t in searches && u in searches ::
      Shard(hash(searches[t].raw)) == Shard(hash(searches[u].raw)) ==> t == u
  }

  /** A search that is not disturbed: its bucket is as it was, and what it has in hand is alive. */
  lemma SoundStays(w: World, w': World, hash: seq<byte> -> Hash, search: Search)
    requires Good(w, hash) && Sound(w, hash, search) && Evolves(w.blobs, w.shards, w'.blobs, w'.shards)
    requires Bucket(w'.shards, hash(search.raw)) == Bucket(w.shards, hash(search.raw))
    requires search.hand.Some? ==> Live(w'.blobs, search.hand.value)
    ensures Sound(w', hash, search)
  {
    var q := Bucket(w.shards, hash(search.raw));
    forall j | 0 <= j < search.i && Live(w'.blobs, q[j]) ensures w'.blobs[q[j]].bytes != search.raw {
      assert At(w.shards, hash(search.raw), j, q[j]);
      assert Interned(w.blobs, w.shards, q[j]);
    }
  }

  /** The owners of Arcs do not disturb searches. */
  lemma OwnerKept(s: State, hash: seq<byte> -> Hash, w': World)
    requires Inv(s, hash) && Good(w', hash) && Evolves(s.w.blobs, s.w.shards, w'.blobs, w'.shards)
    requires w'.shards == s.w.shards
    requires forall a :: Live(s.w.blobs, a) && InHand(s, a) ==> Live(w'.blobs, a)
    ensures Inv(s.(w := w'), hash)
  {
    forall t | t in s.searches ensures Sound(w', hash, s.searches[t]) {
      assert s.searches[t].hand.Some? ==> InHand(s, s.searches[t].hand.value);
      SoundStays(s.w, w', hash, s.searches[t]);
    }
  }

  ghost predicate Evolved(w: World, w': World) {
    Evolves(w.blobs, w.shards, w'.blobs, w'.shards)
  }

  lemma RecountKept(s: State, hash: seq<byte> -> Hash, a: Address, strong: nat)
    requires Inv(s, hash) && Live(s.w.blobs, a) && (InHand(s, a) ==> strong > 0)
    ensures Inv(s.(w := Recounted(s.w, a, strong)), hash) && Evolved(s.w, Recounted(s.w, a, strong))
  {
    RecountedKept(s.w, hash, a, strong);
    OwnerKept(s, hash, Recounted(s.w, a, strong));
  }

  lemma NewKept(s: State, hash: seq<byte> -> Hash, bytes: seq<byte>)
    requires Inv(s, hash)
    ensures Inv(s.(w := Allocated(s.w, bytes)), hash) && Evolved(s.w, Allocated(s.w, bytes))
  {
    AllocatedKept(s.w, hash, bytes);
    OwnerKept(s, hash, Allocated(s.w, bytes));
  }

  lemma SetKept(s: State, hash: seq<byte> -> Hash, a: Address, info: byte)
    requires Inv(s, hash) && Owned(s, a)
    ensures Inv(s.(w := Setting(s.w, a, info).0), hash) && Evolved(s.w, Setting(s.w, a, info).0)
  {
    var (w', b) := Setting(s.w, a, info);
    SettingKept(s.w, hash, a, info);
    SetsEvolves(s.w, a, info, w', b);
    forall x | Live(s.w.blobs, x) && InHand(s, x) ensures Live(w'.blobs, x) {
      assert x == a && b != a ==> w'.blobs[a].strong == s.w.blobs[a].strong - 1;
    }
    OwnerKept(s, hash, w');
  }

  lemma OwnerStepKept(s: State, hash: seq<byte> -> Hash, act: Action, s': State)
    requires Inv(s, hash) && OwnerStep(s, act, s')
    ensures Inv(s', hash) && Evolved(s.w, s'.w)
  {
    match act
    case New(bytes) => NewKept(s, hash, bytes);
    case Clone(a) => RecountKept(s, hash, a, s.w.blobs[a].strong + 1);
    case Drop(a) => RecountKept(s, hash, a, s.w.blobs[a].strong - 1);
    case Set(a, info) => SetKept(s, hash, a, info);
  }

  /** Other searches are under other locks, so in other buckets. */
  lemma OthersStay(s: State, hash: seq<byte> -> Hash, t: Thread, w': World, u: Thread)
    requires Inv(s, hash) && Evolved(s.w, w')
    requires t in s.searches && u in s.searches && u != t
    requires forall g :: g != hash(s.searches[t].raw) ==> Bucket(w'.shards, g) == Bucket(s.w.shards, g)
    requires forall a :: Live(s.w.blobs, a) && a !in Bucket(s.w.shards, hash(s.searches[t].raw)) ==> Live(w'.blobs, a)
    ensures Sound(w', hash, s.searches[u])
  {
    var h, g := hash(s.searches[t].raw), hash(s.searches[u].raw);
    assert h != g;
    var hand := s.searches[u].hand;
    if hand.Some? && hand.value in Bucket(s.w.shards, h) {
      var j :| 0 <= j < |Bucket(s.w.shards, h)| && Bucket(s.w.shards, h)[j] == hand.value;
      assert At(s.w.shards, h, j, hand.value) && At(s.w.shards, g, s.searches[u].i, hand.value);
    }
    SoundStays(s.w, w', hash, s.searches[u]);
  }

  /** One search gets on, and the world changes in its bucket only. */
  lemma OneMoves(s: State, hash: seq<byte> -> Hash, t: Thread, w': World, search: Search)
    requires Inv(s, hash) && Good(w', hash) && Evolved(s.w, w')
    requires t in s.searches && search.raw == s.searches[t].raw && Sound(w', hash, search)
    requires forall g :: g != hash(s.searches[t].raw) ==> Bucket(w'.shards, g) == Bucket(s.w.shards, g)
    requires forall a :: Live(s.w.blobs, a) && a !in Bucket(s.w.shards, hash(s.searches[t].raw)) ==> Live(w'.blobs, a)
    ensures Inv(State(w', s.searches[t := search]), hash)
  {
    forall u | u in s.searches && u != t ensures Sound(w', hash, s.searches[u]) {
      OthersStay(s, hash, t, w', u);
    }
  }

  lemma SweptEvolves(w: World, w': World)
    requires Swept(w, w')
    ensures Evolved(w, w')
  {
  }

  lemma UpgradeDeadKept(s: State, hash: seq<byte> -> Hash, t: Thread)
    requires Inv(s, hash) && t in s.searches && s.searches[t].hand.None?
    requires var q := Bucket(s.w.shards, hash(s.searches[t].raw)); s.searches[t].i < |q| && !Live(s.w.blobs, q[s.searches[t].i])
    ensures var s' := Upgraded(s, t, hash(s.searches[t].raw)); Inv(s', hash) && Evolved(s.w, s'.w)
  {
    var search, h := s.searches[t], hash(s.searches[t].raw);
    var w' := Pruned(s.w, h, search.i);
    PrunedKept(s.w, hash, h, search.i);
    SweptEvolves(s.w, w');
    forall g | g != h ensures Bucket(w'.shards, g) == Bucket(s.w.shards, g) {
      WithBucketAt(s.w.shards, h, SwapRemoved(Bucket(s.w.shards, h), search.i), g);
    }
    assert Sound(w', hash, search) by {
      forall j | 0 <= j < search.i ensures Bucket(w'.shards, h)[j] == Bucket(s.w.shards, h)[j] {
      }
    }
    OneMoves(s, hash, t, w', search);
    assert s.searches[t := search] == s.searches;
  }

  lemma UpgradeLiveKept(s: State, hash: seq<byte> -> Hash, t: Thread)
    requires Inv(s, hash) && t in s.searches && s.searches[t].hand.None?
    requires var q := Bucket(s.w.shards, hash(s.searches[t].raw)); s.searches[t].i < |q| && Live(s.w.blobs, q[s.searches[t].i])
    ensures var s' := Upgraded(s, t, hash(s.searches[t].raw)); Inv(s', hash) && Evolved(s.w, s'.w)
  {
    var a := Bucket(s.w.shards, hash(s.searches[t].raw))[s.searches[t].i];
    RecountKept(s, hash, a, s.w.blobs[a].strong + 1);
  }

  lemma GoesOn(w: World, hash: seq<byte> -> Hash, search: Search)
    requires Good(w, hash) && Sound(w, hash, search) && search.hand.Some? && w.blobs[search.hand.value].bytes != search.raw
    ensures var a := search.hand.value;
            Sound(Recounted(w, a, w.blobs[a].strong - 1), hash, Search(search.raw, search.i + 1, None))
  {
  }

  /** The Arc of slot `i` is dropped; nobody else has that blob in hand. */
  lemma MismatchKept(s: State, hash: seq<byte> -> Hash, t: Thread)
    requires Inv(s, hash) && t in s.searches && s.searches[t].hand.Some?
    requires s.w.blobs[s.searches[t].hand.value].bytes != s.searches[t].raw
    ensures Inv(Compared(s, t), hash) && Evolved(s.w, Compared(s, t).w)
  {
    var search, a := s.searches[t], s.searches[t].hand.value;
    var w' := Recounted(s.w, a, s.w.blobs[a].strong - 1);
    RecountedKept(s.w, hash, a, s.w.blobs[a].strong - 1);
    GoesOn(s.w, hash, search);
    assert a in Bucket(s.w.shards, hash(search.raw));
    forall x | Live(s.w.blobs, x) && x != a ensures Live(w'.blobs, x) {
    }
    OneMoves(s, hash, t, w', Search(search.raw, search.i + 1, None));
  }

  lemma MatchKept(s: State, hash: seq<byte> -> Hash, t: Thread)
    requires Inv(s, hash)
    ensures Inv(s.(searches := s.searches - {t}), hash) && Evolved(s.w, s.w)
  {
  }

  lemma PushedEvolves(w: World, hash: seq<byte> -> Hash, raw: seq<byte>)
    requires Good(w, hash) && Good(Pushed(w, hash(raw), raw), hash)
    requires Undisturbed(w.blobs, w.shards, Pushed(w, hash(raw), raw).blobs, Pushed(w, hash(raw), raw).shards)
    ensures Evolved(w, Pushed(w, hash(raw), raw))
  {
  }

  lemma PushSearchKept(s: State, hash: seq<byte> -> Hash, t: Thread)
    requires Inv(s, hash) && t in s.searches && s.searches[t].i >= |Bucket(s.w.shards, hash(s.searches[t].raw))|
    ensures var raw := s.searches[t].raw;
            var w' := Pushed(s.w, hash(raw), raw);
            && Inv(State(w', s.searches - {t}), hash) && Evolved(s.w, w')
            && Interned(w'.blobs, w'.shards, s.w.next)
            && forall a :: Interned(s.w.blobs, s.w.shards, a) ==> s.w.blobs[a].bytes != raw
  {
    var raw, h := s.searches[t].raw, hash(s.searches[t].raw);
    var w' := Pushed(s.w, h, raw);
    PushKept(s.w.blobs, s.w.shards, s.w.next, hash, raw);
    PushedEvolves(s.w, hash, raw);
    forall g | g != h ensures Bucket(w'.shards, g) == Bucket(s.w.shards, g) {
      WithBucketAt(s.w.shards, h, Bucket(s.w.shards, h) + [s.w.next], g);
    }
    forall u | u in s.searches && u != t ensures Sound(w', hash, s.searches[u]) {
      OthersStay(s, hash, t, w', u);
    }
  }

  lemma SearchStepKept(s: State, hash: seq<byte> -> Hash, act: Action, s': State)
    requires Inv(s, hash) && SearchStep(s, hash, act, s')
    ensures Inv(s', hash) && Evolved(s.w, s'.w)
  {
    match act
    case Begin(t, raw) =>
    case Upgrade(t) =>
      var q := Bucket(s.w.shards, hash(s.searches[t].raw));
      if Live(s.w.blobs, q[s.searches[t].i]) { UpgradeLiveKept(s, hash, t); } else { UpgradeDeadKept(s, hash, t); }
    case Compare(t) =>
      if s.w.blobs[s.searches[t].hand.value].bytes == s.searches[t].raw { MatchKept(s, hash, t); } else { MismatchKept(s, hash, t); }
    case Push(t) => PushSearchKept(s, hash, t);
  }

  /** No step writes to an interned blob, forgets one that is alive, or brings one back. */
  lemma StepKept(s: State, hash: seq<byte> -> Hash, act: Action, s': State)
    requires Inv(s, hash) && Step(s, hash, act, s')
    ensures Inv(s', hash) && Evolved(s.w, s'.w)
  {
    if SearchStep(s, hash, act, s') {
      SearchStepKept(s, hash, act, s');
    } else {
      OwnerStepKept(s, hash, act, s');
    }
  }

  /** What is returned is interned under the bytes, and nothing else is or was. */
  lemma ReturnsInterned(s: State, hash: seq<byte> -> Hash, act: Action, s': State, raw: seq<byte>, r: Address)
    requires Inv(s, hash) && Step(s, hash, act, s') && Returns(s, act, raw, r)
    ensures Interned(s'.w.blobs, s'.w.shards, r) && s'.w.blobs[r].bytes == raw
    ensures forall a :: Interned(s.w.blobs, s.w.shards, a) && s.w.blobs[a].bytes == raw ==> a == r
  {
    match act
    case Compare(t) =>
      assert At(s.w.shards, hash(raw), s.searches[t].i, r);
    case Push(t) => PushSearchKept(s, hash, t);
  }

  // ---- Whole runs ----

  ghost predicate Path(run: seq<State>, hash: seq<byte> -> Hash, actions: seq<Action>) {
    && |run| == |actions| + 1
    && forall k :: 0 <= k < |actions| ==> Step(run[k], hash, actions[k], run[k + 1])
  }

  ghost predicate Run(run: seq<State>, hash: seq<byte> -> Hash, actions: seq<Action>) {
    Path(run, hash, actions) && run[0] == State(Empty(), map[])
  }

  lemma {:induction false} RunKept(run: seq<State>, hash: seq<byte> -> Hash, actions: seq<Action>, k: nat)
    requires Run(run, hash, actions) && k < |run|
    ensures Inv(run[k], hash)
  {
    if k > 0 {
      RunKept(run, hash, actions, k - 1);
      StepKept(run[k - 1], hash, actions[k - 1], run[k]);
    }
  }

  lemma RunEvolves(run: seq<State>, hash: seq<byte> -> Hash, actions: seq<Action>, k: nat)
    requires Run(run, hash, actions) && k < |actions|
    ensures Evolved(run[k].w, run[k + 1].w)
  {
    RunKept(run, hash, actions, k);
    StepKept(run[k], hash, actions[k], run[k + 1]);
  }

  /** Alive and interned under these bytes, or gone for good. */
  ghost predicate InternedOrGone(w: World, a: Address, bytes: seq<byte>) {
    a in w.blobs && (Live(w.blobs, a) ==> Interned(w.blobs, w.shards, a) && w.blobs[a].bytes == bytes)
  }

  lemma EvolvedInterned(w: World, w': World, a: Address, bytes: seq<byte>)
    requires Evolved(w, w') && InternedOrGone(w, a, bytes)
    ensures InternedOrGone(w', a, bytes)
  {
  }

  lemma {:induction false} StaysInterned(run: seq<State>, j: nat, k: nat, a: Address, bytes: seq<byte>)
    requires j <= k < |run| && InternedOrGone(run[j].w, a, bytes)
    requires forall m :: 0 <= m < |run| - 1 ==> Evolved(run[m].w, run[m + 1].w)
    ensures InternedOrGone(run[k].w, a, bytes)
    decreases k
  {
    if j < k {
      StaysInterned(run, j, k - 1, a, bytes);
      assert Evolved(run[k - 1].w, run[k - 1 + 1].w);
      EvolvedInterned(run[k - 1].w, run[k].w, a, bytes);
    }
  }

  /** Whatever is interned, cloned, dropped or rewritten in between, a blob that is alive at the
      end has been interned all along, under the same bytes. */
  lemma InternedWhileAlive(run: seq<State>, hash: seq<byte> -> Hash, actions: seq<Action>, j: nat, k: nat, a: Address)
    requires Run(run, hash, actions) && j <= k < |run|
    requires Interned(run[j].w.blobs, run[j].w.shards, a) && Live(run[k].w.blobs, a)
    ensures Interned(run[k].w.blobs, run[k].w.shards, a) && run[k].w.blobs[a].bytes == run[j].w.blobs[a].bytes
  {
    forall m | 0 <= m < |run| - 1 ensures Evolved(run[m].w, run[m + 1].w) {
      RunEvolves(run, hash, actions, m);
    }
    StaysInterned(run, j, k, a, run[j].w.blobs[a].bytes);
  }

  /** Two calls of `intern` with the same bytes return the very same blob if it is alive when the second
      returns, whatever others do while they search. */
  lemma SameBlobWhileAlive(run: seq<State>, hash: seq<byte> -> Hash, actions: seq<Action>, j: nat, k: nat,
                           raw: seq<byte>, first: Address, second: Address)
    requires Run(run, hash, actions) && j < k < |actions|
    requires Returns(run[j], actions[j], raw, first) && Returns(run[k], actions[k], raw, second)
    requires Live(run[k].w.blobs, first)
    ensures second == first
  {
    RunKept(run, hash, actions, j);
    RunKept(run, hash, actions, k);
    ReturnsInterned(run[j], hash, actions[j], run[j + 1], raw, first);
    InternedWhileAlive(run, hash, actions, j + 1, k, first);
    ReturnsInterned(run[k], hash, actions[k], run[k + 1], raw, second);
  }

  // ---- A search that nobody interrupts ----

  /** The run leads from `s` to the end of a call of `intern` that returns `r`. */
  ghost predicate Comes(run: seq<State>, hash: seq<byte> -> Hash, actions: seq<Action>, s: State, raw: seq<byte>,
                        r: Address, end: State)
  {
    && Path(run, hash, actions) && |actions| > 0 && run[0] == s && run[|actions|] == end
    && Returns(run[|actions| - 1], actions[|actions| - 1], raw, r)
  }

  lemma First(s: State, hash: seq<byte> -> Hash, act: Action, run: seq<State>, actions: seq<Action>, s': State,
              raw: seq<byte>, r: Address, end: State) returns (run': seq<State>, actions': seq<Action>)
    requires Step(s, hash, act, s') && Comes(run, hash, actions, s', raw, r, end)
    ensures Comes(run', hash, actions', s, raw, r, end)
  {
    run', actions' := [s] + run, [act] + actions;
    FirstPath(s, hash, act, run, actions);
    assert run'[|actions'| - 1] == run[|actions| - 1] && actions'[|actions'| - 1] == actions[|actions| - 1];
  }

  lemma FirstPath(s: State, hash: seq<byte> -> Hash, act: Action, run: seq<State>, actions: seq<Action>)
    requires Path(run, hash, actions) && Step(s, hash, act, run[0])
    ensures Path([s] + run, hash, [act] + actions)
  {
    var run', actions' := [s] + run, [act] + actions;
    forall k | 0 <= k < |actions'| ensures Step(run'[k], hash, actions'[k], run'[k + 1]) {
      if k > 0 {
        assert Step(run[k - 1], hash, actions[k - 1], run[k]);
      }
    }
  }

  lemma Ends(s: State, hash: seq<byte> -> Hash, act: Action, s': State, raw: seq<byte>, r: Address)
    returns (run: seq<State>, actions: seq<Action>)
    requires Step(s, hash, act, s') && Returns(s, act, raw, r)
    ensures Comes(run, hash, actions, s, raw, r, s')
  {
    run, actions := [s, s'], [act];
  }

  /** The slot is taken out, or passed with the world as it was, or is the one. */
  lemma SlotAlone(s: State, hash: seq<byte> -> Hash, t: Thread)
    requires t in s.searches && s.searches[t].hand.None? && |s.w.shards| == NUM_SHARDS
    requires var q := Bucket(s.w.shards, hash(s.searches[t].raw)); s.searches[t].i < |q| && Live(s.w.blobs, q[s.searches[t].i])
    ensures var search := s.searches[t];
            var a := Bucket(s.w.shards, hash(search.raw))[search.i];
            var s1 := Upgraded(s, t, hash(search.raw));
            && s1.searches[t].hand == Some(a) && Live(s1.w.blobs, a)
            && Compared(s1, t) == if s.w.blobs[a].bytes == search.raw
                                  then State(Recounted(s.w, a, s.w.blobs[a].strong + 1), s.searches - {t})
                                  else s.(searches := s.searches[t := search.(i := search.i + 1)])
  {
    var search := s.searches[t];
    var a := Bucket(s.w.shards, hash(search.raw))[search.i];
    assert Recounted(Recounted(s.w, a, s.w.blobs[a].strong + 1), a, s.w.blobs[a].strong).blobs == s.w.blobs;
  }

  /** The search by itself comes to what `InterningFrom` says, and so to what the method `Store.Intern`
      computes. */
  lemma {:induction false} Alone(s: State, hash: seq<byte> -> Hash, t: Thread)
    returns (run: seq<State>, actions: seq<Action>)
    requires t in s.searches && s.searches[t].hand.None? && |s.w.shards| == NUM_SHARDS
    requires s.searches[t].i <= |Bucket(s.w.shards, hash(s.searches[t].raw))|
    ensures var (w', r) := InterningFrom(s.w, hash(s.searches[t].raw), s.searches[t].raw, s.searches[t].i);
            Comes(run, hash, actions, s, s.searches[t].raw, r, State(w', s.searches - {t}))
    decreases |Bucket(s.w.shards, hash(s.searches[t].raw))| - s.searches[t].i
  {
    var search, h := s.searches[t], hash(s.searches[t].raw);
    var raw, q := search.raw, Bucket(s.w.shards, h);
    var (w', r) := InterningFrom(s.w, h, raw, search.i);
    var end := State(w', s.searches - {t});
    if search.i == |q| {
      assert SearchStep(s, hash, Push(t), end);
      run, actions := Ends(s, hash, Push(t), end, raw, r);
    } else if !Live(s.w.blobs, q[search.i]) {
      WithBucketAt(s.w.shards, h, SwapRemoved(q, search.i), h);
      var s1 := Upgraded(s, t, h);
      assert SearchStep(s, hash, Upgrade(t), s1);
      run, actions := Alone(s1, hash, t);
      run, actions := First(s, hash, Upgrade(t), run, actions, s1, raw, r, end);
    } else {
      SlotAlone(s, hash, t);
      var s1 := Upgraded(s, t, h);
      var s2 := Compared(s1, t);
      assert SearchStep(s, hash, Upgrade(t), s1) && SearchStep(s1, hash, Compare(t), s2);
      if s.w.blobs[q[search.i]].bytes == raw {
        run, actions := Ends(s1, hash, Compare(t), s2, raw, r);
      } else {
        assert s2.searches - {t} == s.searches - {t};
        run, actions := Alone(s2, hash, t);
        run, actions := First(s1, hash, Compare(t), run, actions, s2, raw, r, end);
      }
      run, actions := First(s, hash, Upgrade(t), run, actions, s1, raw, r, end);
    }
  }
}
