/** The path attribute interner: one shared blob per distinct byte string, found again through
    weak references kept in sharded hash buckets. */
module Interner {
  import opened Bytes
  import opened Wrappers

  type Address = nat
  type Hash = nat

  const NUM_SHARDS: nat := 64

  /** The RPKI info a route starts with. */
  const NOT_CHECKED: byte := 0

  /** What an Arc points at: the bytes with the number of Arcs and of weak references to them. */
  datatype Blob = Blob(bytes: seq<byte>, strong: nat, weak: nat)

  type Shards = seq<map<Hash, seq<Address>>>

  function Shard(h: Hash): (i: nat)
    ensures i < NUM_SHARDS
  {
    h % NUM_SHARDS
  }

  function Bucket(shards: Shards, h: Hash): seq<Address> {
    if |shards| == NUM_SHARDS && h in shards[Shard(h)] then shards[Shard(h)][h] else []
  }

  function WithBucket(shards: Shards, h: Hash, entries: seq<Address>): Shards
    requires |shards| == NUM_SHARDS
  {
    var shard: map<Hash, seq<Address>> := shards[Shard(h)];
    var shard' := shard[h := entries];
    shards[Shard(h) := shard']
  }

  lemma WithBucketAt(shards: Shards, h: Hash, entries: seq<Address>, g: Hash)
    requires |shards| == NUM_SHARDS
    ensures Bucket(WithBucket(shards, h, entries), g) == if g == h then entries else Bucket(shards, g)
  {
  }

  /** Every bucket is in the shard of its hash. */
  ghost predicate Sharded(shards: Shards) {
    && |shards| == NUM_SHARDS
    && forall i, h :: 0 <= i < NUM_SHARDS && h in shards[i] ==> Shard(h) == i
  }

  predicate At(shards: Shards, h: Hash, j: nat, a: Address) {
    j < |Bucket(shards, h)| && Bucket(shards, h)[j] == a
  }

  ghost predicate Held(shards: Shards, a: Address) {
    exists h, j :: At(shards, h, j, a)
  }

  /** No blob is in two slots. */
  ghost predicate Single(shards: Shards) {
    forall h, j, g, k, a :: At(shards, h, j, a) && At(shards, g, k, a) ==> h == g && j == k
  }

  ghost predicate Counted(blobs: map<Address, Blob>, shards: Shards) {
    && (forall h, j, a :: At(shards, h, j, a) ==> a in blobs)
    && (forall a :: a in blobs ==> blobs[a].weak == if Held(shards, a) then 1 else 0)
  }

  predicate Live(blobs: map<Address, Blob>, a: Address) {
    a in blobs && blobs[a].strong > 0
  }

  /** Alive, and to be found again. */
  ghost predicate Interned(blobs: map<Address, Blob>, shards: Shards, a: Address) {
    Live(blobs, a) && Held(shards, a)
  }

  ghost predicate Hashed(blobs: map<Address, Blob>, shards: Shards, hash: seq<byte> -> Hash) {
    forall h, j, a :: At(shards, h, j, a) && Live(blobs, a) ==> hash(blobs[a].bytes) == h
  }

  ghost predicate Distinct(blobs: map<Address, Blob>, shards: Shards) {
    forall a, b :: Interned(blobs, shards, a) && Interned(blobs, shards, b) && blobs[a].bytes == blobs[b].bytes ==> a == b
  }

  ghost predicate Inv(blobs: map<Address, Blob>, shards: Shards, next: Address, hash: seq<byte> -> Hash) {
    && Sharded(shards)
    && Single(shards)
    && Counted(blobs, shards)
    && Hashed(blobs, shards, hash)
    && Distinct(blobs, shards)
    && forall a :: a in blobs ==> a < next
  }

  /** Nothing that is alive is different: not its bytes or counts, nor whether it is found again. */
  ghost predicate Undisturbed(blobs: map<Address, Blob>, shards: Shards, blobs': map<Address, Blob>, shards': Shards) {
    forall a :: Live(blobs, a) ==> Live(blobs', a) && blobs'[a] == blobs[a] && (Held(shards, a) <==> Held(shards', a))
  }

  /** What no operation does: write to an interned blob, forget one that is alive, or bring one back. */
  ghost predicate Evolves(blobs: map<Address, Blob>, shards: Shards, blobs': map<Address, Blob>, shards': Shards) {
    && (forall a :: Interned(blobs, shards, a) && Live(blobs', a) ==>
          Interned(blobs', shards', a) && blobs'[a].bytes == blobs[a].bytes)
    && (forall a :: a in blobs ==> a in blobs' && (Live(blobs', a) ==> Live(blobs, a)))
  }

  // ---- Taking out a dead slot ----

  function SwapRemoved<T>(s: seq<T>, i: nat): seq<T>
    requires i < |s|
  {
    s[i := s[|s| - 1]][..|s| - 1]
  }

  lemma PrunedAt(shards: Shards, h: Hash, i: nat, g: Hash, j: nat, a: Address)
    requires |shards| == NUM_SHARDS && i < |Bucket(shards, h)|
    ensures var q := Bucket(shards, h);
            At(WithBucket(shards, h, SwapRemoved(q, i)), g, j, a) <==>
            if g == h then j < |q| - 1 && At(shards, h, if j == i then |q| - 1 else j, a) else At(shards, g, j, a)
  {
    WithBucketAt(shards, h, SwapRemoved(Bucket(shards, h), i), g);
  }

  lemma PruneHeld(shards: Shards, h: Hash, i: nat, a: Address)
    requires Sharded(shards) && Single(shards) && i < |Bucket(shards, h)|
    ensures var q := Bucket(shards, h);
            Held(WithBucket(shards, h, SwapRemoved(q, i)), a) <==> Held(shards, a) && a != q[i]
  {
    var q := Bucket(shards, h);
    var shards' := WithBucket(shards, h, SwapRemoved(q, i));
    if Held(shards', a) {
      var g, j :| At(shards', g, j, a);
      PrunedAt(shards, h, i, g, j, a);
      assert At(shards, h, i, q[i]);
      assert At(shards, g, if g == h && j == i then |q| - 1 else j, a);
    }
    if Held(shards, a) && a != q[i] {
      var g, j :| At(shards, g, j, a);
      var k := if g == h && j == |q| - 1 then i else j;
      PrunedAt(shards, h, i, g, k, a);
      assert At(shards', g, k, a);
    }
  }

  lemma PruneSingle(shards: Shards, h: Hash, i: nat)
    requires Sharded(shards) && Single(shards) && i < |Bucket(shards, h)|
    ensures Single(WithBucket(shards, h, SwapRemoved(Bucket(shards, h), i)))
  {
    var q := Bucket(shards, h);
    var shards' := WithBucket(shards, h, SwapRemoved(q, i));
    forall g, j, f, k, a | At(shards', g, j, a) && At(shards', f, k, a) ensures g == f && j == k {
      PrunedAt(shards, h, i, g, j, a);
      PrunedAt(shards, h, i, f, k, a);
      assert At(shards, g, if g == h && j == i then |q| - 1 else j, a);
      assert At(shards, f, if f == h && k == i then |q| - 1 else k, a);
    }
  }

  lemma PruneKept(blobs: map<Address, Blob>, shards: Shards, next: Address, hash: seq<byte> -> Hash, h: Hash, i: nat)
    requires Inv(blobs, shards, next, hash) && i < |Bucket(shards, h)| && !Live(blobs, Bucket(shards, h)[i])
    ensures var a := Bucket(shards, h)[i];
            && a in blobs && blobs[a].weak == 1
            && Inv(blobs[a := blobs[a].(weak := 0)], WithBucket(shards, h, SwapRemoved(Bucket(shards, h), i)), next, hash)
            && Undisturbed(blobs, shards, blobs[a := blobs[a].(weak := 0)], WithBucket(shards, h, SwapRemoved(Bucket(shards, h), i)))
  {
    var q := Bucket(shards, h);
    var a, shards' := q[i], WithBucket(shards, h, SwapRemoved(q, i));
    assert At(shards, h, i, a);
    var blobs' := blobs[a := blobs[a].(weak := 0)];
    PruneSingle(shards, h, i);
    forall x ensures Held(shards', x) <==> Held(shards, x) && x != a {
      PruneHeld(shards, h, i, x);
    }
    forall g, j, x | At(shards', g, j, x)
      ensures x in blobs' && (Live(blobs', x) ==> hash(blobs'[x].bytes) == g)
    {
      PrunedAt(shards, h, i, g, j, x);
      assert At(shards, g, if g == h && j == i then |q| - 1 else j, x);
    }
  }

  // ---- Adding a slot ----

  lemma PushedAt(shards: Shards, h: Hash, added: Address, g: Hash, j: nat, a: Address)
    requires |shards| == NUM_SHARDS
    ensures At(WithBucket(shards, h, Bucket(shards, h) + [added]), g, j, a) <==>
            At(shards, g, j, a) || (g == h && j == |Bucket(shards, h)| && a == added)
  {
    WithBucketAt(shards, h, Bucket(shards, h) + [added], g);
  }

  lemma PushHeld(shards: Shards, h: Hash, added: Address, a: Address)
    requires |shards| == NUM_SHARDS
    ensures Held(WithBucket(shards, h, Bucket(shards, h) + [added]), a) <==> Held(shards, a) || a == added
  {
    var shards' := WithBucket(shards, h, Bucket(shards, h) + [added]);
    if Held(shards', a) {
      var g, j :| At(shards', g, j, a);
      PushedAt(shards, h, added, g, j, a);
    }
    if Held(shards, a) {
      var g, j :| At(shards, g, j, a);
      PushedAt(shards, h, added, g, j, a);
    } else if a == added {
      PushedAt(shards, h, added, h, |Bucket(shards, h)|, a);
    }
  }

  /** What is interned under some bytes is in the bucket of their hash. */
  lemma FoundInBucket(blobs: map<Address, Blob>, shards: Shards, hash: seq<byte> -> Hash, a: Address) returns (j: nat)
    requires Hashed(blobs, shards, hash) && Interned(blobs, shards, a)
    ensures At(shards, hash(blobs[a].bytes), j, a)
  {
    var h, i :| At(shards, h, i, a);
    j := i;
  }

  lemma PushKept(blobs: map<Address, Blob>, shards: Shards, next: Address, hash: seq<byte> -> Hash, raw: seq<byte>)
    requires Inv(blobs, shards, next, hash)
    requires forall j :: 0 <= j < |Bucket(shards, hash(raw))| ==>
               var a := Bucket(shards, hash(raw))[j]; Live(blobs, a) ==> blobs[a].bytes != raw
    ensures forall a :: Interned(blobs, shards, a) ==> blobs[a].bytes != raw
    ensures var q := Bucket(shards, hash(raw));
            && Inv(blobs[next := Blob(raw, 1, 1)], WithBucket(shards, hash(raw), q + [next]), next + 1, hash)
            && Undisturbed(blobs, shards, blobs[next := Blob(raw, 1, 1)], WithBucket(shards, hash(raw), q + [next]))
            && Held(WithBucket(shards, hash(raw), q + [next]), next)
  {
    var q := Bucket(shards, hash(raw));
    var blobs', shards' := blobs[next := Blob(raw, 1, 1)], WithBucket(shards, hash(raw), q + [next]);
    forall a | Interned(blobs, shards, a) ensures blobs[a].bytes != raw {
      var j := FoundInBucket(blobs, shards, hash, a);
    }
    forall x ensures Held(shards', x) <==> Held(shards, x) || x == next {
      PushHeld(shards, hash(raw), next, x);
    }
    forall g, j, x | At(shards', g, j, x)
      ensures x in blobs' && (Live(blobs', x) ==> hash(blobs'[x].bytes) == g)
      ensures At(shards, g, j, x) || (g == hash(raw) && j == |q| && x == next)
    {
      PushedAt(shards, hash(raw), next, g, j, x);
    }
  }

  // ---- Arcs come and go ----

  /** Nothing comes back to life, and what is interned keeps its bytes. */
  lemma CountsKept(blobs: map<Address, Blob>, shards: Shards, next: Address, hash: seq<byte> -> Hash, a: Address, strong: nat)
    requires Inv(blobs, shards, next, hash) && Live(blobs, a)
    ensures Inv(blobs[a := blobs[a].(strong := strong)], shards, next, hash)
  {
  }

  lemma FreshKept(blobs: map<Address, Blob>, shards: Shards, next: Address, hash: seq<byte> -> Hash, bytes: seq<byte>)
    requires Inv(blobs, shards, next, hash)
    ensures Inv(blobs[next := Blob(bytes, 1, 0)], shards, next + 1, hash)
    ensures !Held(shards, next)
  {
    forall h, j ensures !At(shards, h, j, next) {
    }
  }

  lemma InPlaceKept(blobs: map<Address, Blob>, shards: Shards, next: Address, hash: seq<byte> -> Hash, a: Address, bytes: seq<byte>)
    requires Inv(blobs, shards, next, hash) && a in blobs && blobs[a].weak == 0
    ensures Inv(blobs[a := blobs[a].(bytes := bytes)], shards, next, hash)
    ensures !Held(shards, a)
  {
    forall h, j | At(shards, h, j, a) ensures false {
      assert Held(shards, a);
    }
  }

  // ---- The operations ----

  datatype World = World(blobs: map<Address, Blob>, shards: Shards, next: Address)

  ghost predicate Good(w: World, hash: seq<byte> -> Hash) {
    Inv(w.blobs, w.shards, w.next, hash)
  }

  function Empty(): World {
    World(map[], seq(NUM_SHARDS, i => map[]), 0)
  }

  function Recounted(w: World, a: Address, strong: nat): World
    requires a in w.blobs
  {
    w.(blobs := w.blobs[a := w.blobs[a].(strong := strong)])
  }

  function Allocated(w: World, bytes: seq<byte>): World {
    w.(blobs := w.blobs[w.next := Blob(bytes, 1, 0)], next := w.next + 1)
  }

  /** The slot is taken out, and its weak reference with it. */
  function Pruned(w: World, h: Hash, i: nat): World
    requires |w.shards| == NUM_SHARDS && i < |Bucket(w.shards, h)|
  {
    var q := Bucket(w.shards, h);
    var blob := if q[i] in w.blobs then w.blobs[q[i]] else Blob([], 0, 0);
    w.(blobs := w.blobs[q[i] := blob.(weak := if blob.weak > 0 then blob.weak - 1 else 0)],
       shards := WithBucket(w.shards, h, SwapRemoved(q, i)))
  }

  /** Look for the bytes from slot `i` on; dead slots met on the way are taken out. */
  function Scan(w: World, h: Hash, raw: seq<byte>, i: nat): (r: (World, Option<Address>))
    requires |w.shards| == NUM_SHARDS && i <= |Bucket(w.shards, h)|
    ensures |r.0.shards| == NUM_SHARDS
    ensures r.1.Some? ==> Live(r.0.blobs, r.1.value)
    decreases |Bucket(w.shards, h)| - i
  {
    if i == |Bucket(w.shards, h)| then (w, None)
    else
      var a := Bucket(w.shards, h)[i];
      if Live(w.blobs, a) then
        if w.blobs[a].bytes == raw then (w, Some(a)) else Scan(w, h, raw, i + 1)
      else
        WithBucketAt(w.shards, h, SwapRemoved(Bucket(w.shards, h), i), h);
        Scan(Pruned(w, h, i), h, raw, i)
  }

  /** A new blob with a slot of its own. */
  function Pushed(w: World, h: Hash, raw: seq<byte>): World
    requires |w.shards| == NUM_SHARDS
  {
    World(w.blobs[w.next := Blob(raw, 1, 1)], WithBucket(w.shards, h, Bucket(w.shards, h) + [w.next]), w.next + 1)
  }

  /** What `intern` does from slot `i` on. */
  function InterningFrom(w: World, h: Hash, raw: seq<byte>, i: nat): (World, Address)
    requires |w.shards| == NUM_SHARDS && i <= |Bucket(w.shards, h)|
  {
    var (w', found) := Scan(w, h, raw, i);
    match found
    case Some(a) => (Recounted(w', a, w'.blobs[a].strong + 1), a)
    case None => (Pushed(w', h, raw), w'.next)
  }

  function Interning(w: World, hash: seq<byte> -> Hash, raw: seq<byte>): (World, Address)
    requires |w.shards| == NUM_SHARDS
  {
    InterningFrom(w, hash(raw), raw, 0)
  }

  /** `Arc::make_mut`: the bytes go to a blob of their own unless nobody else can see them. */
  function Unshared(w: World, a: Address): (World, Address)
    requires Live(w.blobs, a)
  {
    var blob := w.blobs[a];
    if blob.strong != 1 || blob.weak != 0 then
      (Allocated(w, blob.bytes).(blobs := Allocated(w, blob.bytes).blobs[a := blob.(strong := blob.strong - 1)]), w.next)
    else (w, a)
  }

  function Setting(w: World, a: Address, info: byte): (World, Address)
    requires Live(w.blobs, a) && a < w.next
  {
    var (w', b) := Unshared(w, a);
    var bytes := w.blobs[a].bytes;
    (if bytes == [] then w' else w'.(blobs := w'.blobs[b := w'.blobs[b].(bytes := bytes[0 := info])]), b)
  }

  // ---- What they keep ----

  /** Only dead slots have gone. */
  ghost predicate Swept(w: World, w': World) {
    && Undisturbed(w.blobs, w.shards, w'.blobs, w'.shards)
    && w'.blobs.Keys == w.blobs.Keys && w'.next == w.next
    && forall a :: Live(w'.blobs, a) ==> Live(w.blobs, a)
  }

  lemma SweptTwice(w: World, w1: World, w2: World)
    requires Swept(w, w1) && Swept(w1, w2)
    ensures Swept(w, w2)
  {
  }

  lemma PrunedKept(w: World, hash: seq<byte> -> Hash, h: Hash, i: nat)
    requires Good(w, hash) && i < |Bucket(w.shards, h)| && !Live(w.blobs, Bucket(w.shards, h)[i])
    ensures Good(Pruned(w, h, i), hash) && Swept(w, Pruned(w, h, i))
    ensures Bucket(Pruned(w, h, i).shards, h) == SwapRemoved(Bucket(w.shards, h), i)
  {
    PruneKept(w.blobs, w.shards, w.next, hash, h, i);
    WithBucketAt(w.shards, h, SwapRemoved(Bucket(w.shards, h), i), h);
  }

  /** None of the first `i` slots has the bytes. */
  ghost predicate NotAmong(w: World, h: Hash, raw: seq<byte>, i: nat) {
    && i <= |Bucket(w.shards, h)|
    && forall j :: 0 <= j < i ==>
         Live(w.blobs, Bucket(w.shards, h)[j]) && w.blobs[Bucket(w.shards, h)[j]].bytes != raw
  }

  lemma PrunedNotAmong(w: World, hash: seq<byte> -> Hash, h: Hash, raw: seq<byte>, i: nat)
    requires Good(w, hash) && i < |Bucket(w.shards, h)| && !Live(w.blobs, Bucket(w.shards, h)[i]) && NotAmong(w, h, raw, i)
    ensures NotAmong(Pruned(w, h, i), h, raw, i)
  {
    PrunedKept(w, hash, h, i);
    var w' := Pruned(w, h, i);
    forall j | 0 <= j < i ensures Bucket(w'.shards, h)[j] == Bucket(w.shards, h)[j] {
    }
  }

  /** The search sweeps, and finds the bytes if they are there from slot `i` on. */
  lemma {:induction false} ScanKept(w: World, hash: seq<byte> -> Hash, h: Hash, raw: seq<byte>, i: nat)
    requires Good(w, hash) && NotAmong(w, h, raw, i)
    ensures var (w', found) := Scan(w, h, raw, i);
            && Good(w', hash) && Swept(w, w')
            && (found.Some? ==> Held(w'.shards, found.value) && w'.blobs[found.value].bytes == raw)
            && (found.None? ==> NotAmong(w', h, raw, |Bucket(w'.shards, h)|))
    decreases |Bucket(w.shards, h)| - i
  {
    if i < |Bucket(w.shards, h)| {
      var a := Bucket(w.shards, h)[i];
      if Live(w.blobs, a) {
        if w.blobs[a].bytes == raw {
          assert At(w.shards, h, i, a);
        } else {
          ScanKept(w, hash, h, raw, i + 1);
        }
      } else {
        PrunedKept(w, hash, h, i);
        PrunedNotAmong(w, hash, h, raw, i);
        ScanKept(Pruned(w, h, i), hash, h, raw, i);
        SweptTwice(w, Pruned(w, h, i), Scan(w, h, raw, i).0);
      }
    }
  }

  /** What `intern` promises. */
  ghost predicate Interns(w: World, raw: seq<byte>, w': World, a: Address) {
    && Interned(w'.blobs, w'.shards, a) && w'.blobs[a].bytes == raw
    && (forall x :: Interned(w.blobs, w.shards, x) && w.blobs[x].bytes == raw ==> a == x)
    && (if a in w.blobs then Interned(w.blobs, w.shards, a) && w'.blobs[a] == w.blobs[a].(strong := w.blobs[a].strong + 1)
        else w'.blobs[a].strong == 1)
    && (forall x :: Live(w.blobs, x) && x != a ==>
          Live(w'.blobs, x) && w'.blobs[x] == w.blobs[x] && (Held(w.shards, x) <==> Held(w'.shards, x)))
    && (forall x :: x in w.blobs && !Live(w.blobs, x) ==> x in w'.blobs && !Live(w'.blobs, x))
  }

  lemma FoundInterns(w: World, hash: seq<byte> -> Hash, raw: seq<byte>, w1: World, a: Address)
    requires Good(w, hash) && Good(w1, hash) && Swept(w, w1)
    requires Interned(w1.blobs, w1.shards, a) && w1.blobs[a].bytes == raw
    ensures var w' := Recounted(w1, a, w1.blobs[a].strong + 1);
            Good(w', hash) && Interns(w, raw, w', a)
  {
    CountsKept(w1.blobs, w1.shards, w1.next, hash, a, w1.blobs[a].strong + 1);
    forall x | Interned(w.blobs, w.shards, x) && w.blobs[x].bytes == raw ensures a == x {
      assert Interned(w1.blobs, w1.shards, x);
    }
  }

  lemma AddedInterns(w: World, hash: seq<byte> -> Hash, raw: seq<byte>, w1: World)
    requires Good(w, hash) && Good(w1, hash) && Swept(w, w1)
    requires NotAmong(w1, hash(raw), raw, |Bucket(w1.shards, hash(raw))|)
    ensures Good(Pushed(w1, hash(raw), raw), hash) && Interns(w, raw, Pushed(w1, hash(raw), raw), w1.next)
  {
    PushKept(w1.blobs, w1.shards, w1.next, hash, raw);
    forall x | Interned(w.blobs, w.shards, x) ensures w.blobs[x].bytes != raw {
      assert Interned(w1.blobs, w1.shards, x);
    }
  }

  lemma InterningKept(w: World, hash: seq<byte> -> Hash, raw: seq<byte>)
    requires Good(w, hash)
    ensures var (w', a) := Interning(w, hash, raw); Good(w', hash) && Interns(w, raw, w', a)
  {
    ScanKept(w, hash, hash(raw), raw, 0);
    var (w1, found) := Scan(w, hash(raw), raw, 0);
    match found
    case Some(a) => FoundInterns(w, hash, raw, w1, a);
    case None => AddedInterns(w, hash, raw, w1);
  }

  /** What `set_rpki_info` promises: the first byte of a blob nobody else can see is written, and no
      interned bytes change. */
  ghost predicate Sets(w: World, a: Address, info: byte, w': World, b: Address)
    requires Live(w.blobs, a)
  {
    var bytes := w.blobs[a].bytes;
    && w'.shards == w.shards
    && Live(w'.blobs, b) && !Held(w'.shards, b) && w'.blobs[b].strong == 1
    && w'.blobs[b].bytes == (if bytes == [] then [] else bytes[0 := info])
    && (b == a <==> w.blobs[a].strong == 1 && !Held(w.shards, a))
    && (b != a ==> b !in w.blobs && a in w'.blobs && w'.blobs[a] == w.blobs[a].(strong := w.blobs[a].strong - 1))
    && (forall x :: x in w.blobs && x != a ==> x in w'.blobs && w'.blobs[x] == w.blobs[x])
  }

  lemma UnsharedKept(w: World, hash: seq<byte> -> Hash, a: Address)
    requires Good(w, hash) && Live(w.blobs, a)
    ensures var (w', b) := Unshared(w, a);
            && Good(w', hash) && b in w'.blobs && w'.blobs[b] == Blob(w.blobs[a].bytes, 1, 0) && w'.shards == w.shards
            && (b == a <==> w.blobs[a].strong == 1 && !Held(w.shards, a))
            && (b != a ==> b == w.next)
  {
    var blob := w.blobs[a];
    if blob.strong != 1 || blob.weak != 0 {
      FreshKept(w.blobs, w.shards, w.next, hash, blob.bytes);
      var w1 := Allocated(w, blob.bytes);
      CountsKept(w1.blobs, w1.shards, w1.next, hash, a, blob.strong - 1);
    }
  }

  lemma SettingKept(w: World, hash: seq<byte> -> Hash, a: Address, info: byte)
    requires Good(w, hash) && Live(w.blobs, a)
    ensures a < w.next && var (w', b) := Setting(w, a, info); Good(w', hash) && Sets(w, a, info, w', b)
  {
    var (w1, b) := Unshared(w, a);
    var bytes := w.blobs[a].bytes;
    UnsharedKept(w, hash, a);
    InPlaceKept(w1.blobs, w1.shards, w1.next, hash, b, if bytes == [] then bytes else bytes[0 := info]);
  }

  lemma InternsEvolves(w: World, raw: seq<byte>, w': World, a: Address)
    requires Interns(w, raw, w', a)
    ensures Evolves(w.blobs, w.shards, w'.blobs, w'.shards)
  {
  }

  lemma SetsEvolves(w: World, a: Address, info: byte, w': World, b: Address)
    requires Live(w.blobs, a) && Sets(w, a, info, w', b)
    ensures Evolves(w.blobs, w.shards, w'.blobs, w'.shards)
  {
  }

  lemma AllocatedKept(w: World, hash: seq<byte> -> Hash, bytes: seq<byte>)
    requires Good(w, hash)
    ensures Good(Allocated(w, bytes), hash)
    ensures Evolves(w.blobs, w.shards, Allocated(w, bytes).blobs, w.shards)
  {
    FreshKept(w.blobs, w.shards, w.next, hash, bytes);
  }

  lemma RecountedKept(w: World, hash: seq<byte> -> Hash, a: Address, strong: nat)
    requires Good(w, hash) && Live(w.blobs, a)
    ensures Good(Recounted(w, a, strong), hash)
    ensures Evolves(w.blobs, w.shards, Recounted(w, a, strong).blobs, w.shards)
  {
    CountsKept(w.blobs, w.shards, w.next, hash, a, strong);
  }

  // ---- Counting ----

  ghost function Hashes(shards: Shards): set<Hash> {
    set i, h | 0 <= i < |shards| && h in shards[i] :: h
  }

  ghost predicate Within(shards: Shards, hs: set<Hash>, a: Address) {
    exists h, j :: h in hs && At(shards, h, j, a)
  }

  /** `seen` are the blobs in the slots of these buckets. */
  ghost predicate Collected(shards: Shards, hs: set<Hash>, seen: set<Address>) {
    forall a :: a in seen <==> Within(shards, hs, a)
  }

  ghost function Alive(blobs: map<Address, Blob>, addresses: set<Address>): set<Address> {
    set a | a in addresses && Live(blobs, a)
  }

  function Elements(q: seq<Address>): set<Address> {
    set a | a in q
  }

  lemma {:induction false} Sizes(entries: seq<Address>)
    requires forall i, j :: 0 <= i < j < |entries| ==> entries[i] != entries[j]
    ensures |Elements(entries)| == |entries|
  {
    if entries != [] {
      var n := |entries| - 1;
      var rest := entries[..n];
      Sizes(rest);
      assert Elements(entries) == Elements(rest) + {entries[n]};
    }
  }

  lemma BucketDistinct(shards: Shards, h: Hash, i: nat, j: nat)
    requires Single(shards) && i < j < |Bucket(shards, h)|
    ensures Bucket(shards, h)[i] != Bucket(shards, h)[j]
  {
    assert At(shards, h, i, Bucket(shards, h)[i]) && At(shards, h, j, Bucket(shards, h)[j]);
  }

  lemma BucketSize(shards: Shards, h: Hash)
    requires Single(shards)
    ensures |Elements(Bucket(shards, h))| == |Bucket(shards, h)|
  {
    var q := Bucket(shards, h);
    forall i, j | 0 <= i < j < |q| ensures q[i] != q[j] {
      BucketDistinct(shards, h, i, j);
    }
    Sizes(q);
  }

  lemma WithinMore(shards: Shards, hs: set<Hash>, h: Hash, a: Address)
    ensures Within(shards, hs + {h}, a) <==> Within(shards, hs, a) || a in Elements(Bucket(shards, h))
  {
    var q := Bucket(shards, h);
    if Within(shards, hs, a) {
      var g, j :| g in hs && At(shards, g, j, a);
      assert g in hs + {h} && At(shards, g, j, a);
    } else if a in Elements(q) {
      var j :| 0 <= j < |q| && q[j] == a;
      assert h in hs + {h} && At(shards, h, j, a);
    }
    if Within(shards, hs + {h}, a) {
      var g, j :| g in hs + {h} && At(shards, g, j, a);
      assert g in hs ==> Within(shards, hs, a);
    }
  }

  lemma CollectBucket(shards: Shards, hs: set<Hash>, seen: set<Address>, h: Hash)
    requires Single(shards) && Collected(shards, hs, seen) && h !in hs
    ensures Collected(shards, hs + {h}, seen + Elements(Bucket(shards, h)))
    ensures seen !! Elements(Bucket(shards, h))
  {
    var q := Bucket(shards, h);
    forall a ensures a in seen + Elements(q) <==> Within(shards, hs + {h}, a) {
      WithinMore(shards, hs, h, a);
    }
    forall a | a in Elements(q) ensures a !in seen {
      var j :| 0 <= j < |q| && q[j] == a;
      assert At(shards, h, j, a);
    }
  }

  lemma AliveNext(blobs: map<Address, Blob>, q: seq<Address>, j: nat)
    requires j < |q| && q[j] !in q[..j]
    ensures |Alive(blobs, Elements(q[..j + 1]))| == |Alive(blobs, Elements(q[..j]))| + if Live(blobs, q[j]) then 1 else 0
  {
    var before := Alive(blobs, Elements(q[..j]));
    assert Alive(blobs, Elements(q[..j + 1])) == if Live(blobs, q[j]) then before + {q[j]} else before;
  }

  lemma Tally(blobs: map<Address, Blob>, seen: set<Address>, here: set<Address>)
    requires seen !! here
    ensures |seen + here| == |seen| + |here|
    ensures |Alive(blobs, seen + here)| == |Alive(blobs, seen)| + |Alive(blobs, here)|
  {
    assert Alive(blobs, seen + here) == Alive(blobs, seen) + Alive(blobs, here);
  }

  lemma HashesNext(shards: Shards, i: nat)
    requires Sharded(shards) && i < |shards|
    ensures Hashes(shards[..i + 1]) == Hashes(shards[..i]) + shards[i].Keys
    ensures Hashes(shards[..i]) !! shards[i].Keys
  {
    forall h | h in Hashes(shards[..i + 1]) ensures h in Hashes(shards[..i]) + shards[i].Keys {
      var k :| 0 <= k < i + 1 && h in shards[..i + 1][k];
      assert k < i ==> h in shards[..i][k];
    }
    forall h | h in Hashes(shards[..i]) ensures h in Hashes(shards[..i + 1]) && Shard(h) < i {
      var k :| 0 <= k < i && h in shards[..i][k];
      assert h in shards[..i + 1][k] && h in shards[k];
    }
    assert shards[..i + 1][i] == shards[i];
  }

  /** As many interned blobs as byte strings among them. */
  lemma {:induction false} OnePerString(blobs: map<Address, Blob>, xs: set<Address>)
    requires forall a :: a in xs ==> a in blobs
    requires forall a, b :: a in xs && b in xs && blobs[a].bytes == blobs[b].bytes ==> a == b
    ensures |xs| == |set a | a in xs :: blobs[a].bytes|
  {
    var strings := set a | a in xs :: blobs[a].bytes;
    if xs != {} {
      var x :| x in xs;
      OnePerString(blobs, xs - {x});
      assert strings == (set a | a in xs - {x} :: blobs[a].bytes) + {blobs[x].bytes};
    }
  }

  ghost function LiveStrings(blobs: map<Address, Blob>, shards: Shards): set<seq<byte>> {
    set a | a in blobs && Interned(blobs, shards, a) :: blobs[a].bytes
  }

  lemma CountsStrings(blobs: map<Address, Blob>, shards: Shards, next: Address, hash: seq<byte> -> Hash, seen: set<Address>)
    requires Inv(blobs, shards, next, hash) && Collected(shards, Hashes(shards), seen)
    ensures |Alive(blobs, seen)| == |LiveStrings(blobs, shards)|
    ensures seen == set a | a in blobs && Held(shards, a)
  {
    var xs := set a | a in blobs && Interned(blobs, shards, a);
    forall a ensures a in seen <==> Held(shards, a) {
      if Held(shards, a) {
        var h, j :| At(shards, h, j, a);
        assert h in shards[Shard(h)];
        assert h in Hashes(shards);
      }
    }
    assert Alive(blobs, seen) == xs;
    OnePerString(blobs, xs);
    assert LiveStrings(blobs, shards) == set a | a in xs :: blobs[a].bytes;
  }

  /** The interner together with the Arcs in circulation. */
  class Store {
    const hash: seq<byte> -> Hash
    var blobs: map<Address, Blob>
    var shards: Shards
    var next: Address

    ghost predicate Valid()
      reads this
    {
      Inv(blobs, shards, next, hash)
    }

    function W(): World
      reads this
    {
      World(blobs, shards, next)
    }

    constructor (hash: seq<byte> -> Hash)
      ensures Valid() && this.hash == hash && W() == Empty()
    {
      this.hash, blobs, next := hash, map[], 0;
      shards := seq(NUM_SHARDS, i => map[]);
    }

    /** A blob as `RotondaPaMap::new` lays it out: the RPKI info, the parse info, the attributes. */
    method NewPaMap(fourOctets: bool, attributes: seq<byte>) returns (a: Address)
      requires Valid()
      modifies this
      ensures Valid() && a == old(next) && !Held(shards, a)
      ensures W() == Allocated(old(W()), [NOT_CHECKED, if fourOctets then 1 else 0] + attributes)
    {
      var raw := [NOT_CHECKED];
      raw := raw + [if fourOctets then 1 else 0];
      raw := raw + attributes;
      FreshKept(blobs, shards, next, hash, raw);
      a := next;
      blobs, next := blobs[a := Blob(raw, 1, 0)], next + 1;
      assert raw == [NOT_CHECKED, if fourOctets then 1 else 0] + attributes;
    }

    method CloneArc(a: Address)
      requires Valid() && Live(blobs, a)
      modifies this`blobs
      ensures Valid() && W() == Recounted(old(W()), a, old(blobs)[a].strong + 1)
    {
      CountsKept(blobs, shards, next, hash, a, blobs[a].strong + 1);
      blobs := blobs[a := blobs[a].(strong := blobs[a].strong + 1)];
    }

    method DropArc(a: Address)
      requires Valid() && Live(blobs, a)
      modifies this`blobs
      ensures Valid() && W() == Recounted(old(W()), a, old(blobs)[a].strong - 1)
    {
      CountsKept(blobs, shards, next, hash, a, blobs[a].strong - 1);
      blobs := blobs[a := blobs[a].(strong := blobs[a].strong - 1)];
    }

    method SwapRemove(h: Hash, i: nat)
      requires |shards| == NUM_SHARDS && i < |Bucket(shards, h)|
      modifies this`blobs, this`shards
      ensures W() == Pruned(old(W()), h, i)
    {
      var entries := Bucket(shards, h);
      var a := entries[i];
      var blob := if a in blobs then blobs[a] else Blob([], 0, 0);
      blobs := blobs[a := blob.(weak := if blob.weak > 0 then blob.weak - 1 else 0)];
      shards := WithBucket(shards, h, SwapRemoved(entries, i));
    }

    method Find(raw: seq<byte>) returns (a: Address)
      requires |shards| == NUM_SHARDS
      modifies this
      ensures (W(), a) == Interning(old(W()), hash, raw)
    {
      var h := hash(raw);
      var i := 0;
      while i < |Bucket(shards, h)|
        invariant |shards| == NUM_SHARDS && i <= |Bucket(shards, h)|
        invariant Scan(W(), h, raw, i) == Scan(old(W()), h, raw, 0)
        decreases |Bucket(shards, h)| - i
      {
        var existing := Bucket(shards, h)[i];
        if Live(blobs, existing) {
          if blobs[existing].bytes == raw {
            blobs := blobs[existing := blobs[existing].(strong := blobs[existing].strong + 1)];
            return existing;
          }
          i := i + 1;
        } else {
          WithBucketAt(shards, h, SwapRemoved(Bucket(shards, h), i), h);
          SwapRemove(h, i);
        }
      }
      a := next;
      shards := WithBucket(shards, h, Bucket(shards, h) + [a]);
      blobs, next := blobs[a := Blob(raw, 1, 1)], next + 1;
    }

    /** While a blob with these bytes is alive and interned the result is that very blob; otherwise
        it is a new one. Nothing else that is alive changes. */
    method Intern(raw: seq<byte>) returns (a: Address)
      requires Valid()
      modifies this
      ensures Valid() && (W(), a) == Interning(old(W()), hash, raw)
      ensures Interns(old(W()), raw, W(), a)
    {
      InterningKept(W(), hash, raw);
      a := Find(raw);
    }

    /** Copy on write. `ok` is false where indexing an empty blob panics. */
    method SetRpkiInfo(a: Address, info: byte) returns (b: Address, ok: bool)
      requires Valid() && Live(blobs, a)
      modifies this
      ensures Valid() && a < old(next) && (W(), b) == Setting(old(W()), a, info)
      ensures Sets(old(W()), a, info, W(), b)
      ensures ok <==> old(blobs)[a].bytes != []
    {
      SettingKept(W(), hash, a, info);
      var blob := blobs[a];
      if blob.strong != 1 || blob.weak != 0 {
        b := next;
        blobs, next := blobs[b := Blob(blob.bytes, 1, 0)], next + 1;
        blobs := blobs[a := blob.(strong := blob.strong - 1)];
      } else {
        b := a;
      }
      ok := blob.bytes != [];
      if ok {
        blobs := blobs[b := blobs[b].(bytes := blob.bytes[0 := info])];
      }
    }

    /** How many of the slots of a bucket have a blob that is alive. */
    method CountAlive(h: Hash) returns (n: nat)
      requires Valid()
      ensures n == |Alive(blobs, Elements(Bucket(shards, h)))|
    {
      n := 0;
      var q := Bucket(shards, h);
      for j := 0 to |q|
        invariant n == |Alive(blobs, Elements(q[..j]))|
      {
        forall i | 0 <= i < j ensures q[i] != q[j] {
          BucketDistinct(shards, h, i, j);
        }
        AliveNext(blobs, q, j);
        assert At(shards, h, j, q[j]);
        if blobs[q[j]].strong > 0 {
          n := n + 1;
        }
      }
      assert q[..|q|] == q;
    }

    method CountShard(i: nat, ghost hs: set<Hash>, ghost seen: set<Address>)
      returns (slots: nat, live: nat, ghost seen': set<Address>)
      requires Valid() && i < |shards| && hs !! shards[i].Keys && Collected(shards, hs, seen)
      ensures Collected(shards, hs + shards[i].Keys, seen')
      ensures |seen'| == |seen| + slots && |Alive(blobs, seen')| == |Alive(blobs, seen)| + live
    {
      slots, live, seen' := 0, 0, seen;
      ghost var done := hs;
      var left := shards[i].Keys;
      while left != {}
        invariant left <= shards[i].Keys && done == hs + (shards[i].Keys - left)
        invariant Collected(shards, done, seen')
        invariant |seen'| == |seen| + slots && |Alive(blobs, seen')| == |Alive(blobs, seen)| + live
        decreases left
      {
        var h :| h in left;
        CollectBucket(shards, done, seen', h);
        BucketSize(shards, h);
        Tally(blobs, seen', Elements(Bucket(shards, h)));
        var n := CountAlive(h);
        slots, live := slots + |Bucket(shards, h)|, live + n;
        done, seen', left := done + {h}, seen' + Elements(Bucket(shards, h)), left - {h};
      }
    }

    /** The live count is the number of distinct byte strings interned and in use. */
    method Stats() returns (buckets: nat, weakSlots: nat, live: nat)
      requires Valid()
      ensures buckets == |Hashes(shards)|
      ensures weakSlots == |set a | a in blobs && Held(shards, a)|
      ensures live == |LiveStrings(blobs, shards)|
    {
      buckets, weakSlots, live := 0, 0, 0;
      ghost var seen: set<Address> := {};
      for i := 0 to |shards|
        invariant Collected(shards, Hashes(shards[..i]), seen)
        invariant buckets == |Hashes(shards[..i])| && weakSlots == |seen| && live == |Alive(blobs, seen)|
      {
        HashesNext(shards, i);
        var slots, n;
        slots, n, seen := CountShard(i, Hashes(shards[..i]), seen);
        buckets, weakSlots, live := buckets + |shards[i]|, weakSlots + slots, live + n;
      }
      assert shards[..|shards|] == shards;
      CountsStrings(blobs, shards, next, hash, seen);
    }
  }
}
