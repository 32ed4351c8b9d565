/** The vector of key-value pairs behind a FrimMap, and the finite map it stands for. */
module FrimVector {
  import opened Wrappers

  predicate HasKey<K(==), V>(vec: seq<(K, V)>, key: K) {
    vec != [] && (vec[0].0 == key || HasKey(vec[1..], key))
  }

  predicate Unique<K(==), V>(vec: seq<(K, V)>) {
    vec != [] ==> !HasKey(vec[1..], vec[0].0) && Unique(vec[1..])
  }

  /** The first pair with the key. */
  function Lookup<K(==), V>(vec: seq<(K, V)>, key: K): Option<V> {
    if vec == [] then None
    else if vec[0].0 == key then Some(vec[0].1)
    else Lookup(vec[1..], key)
  }

  /** The pairs that are kept. */
  function Retained<K, V>(vec: seq<(K, V)>, keep: (K, V) -> bool): seq<(K, V)> {
    if vec == [] then []
    else (if keep(vec[0].0, vec[0].1) then [vec[0]] else []) + Retained(vec[1..], keep)
  }

  /** The new pair goes to the end, whether or not the key was there. */
  function Inserted<K(==), V>(vec: seq<(K, V)>, key: K, value: V): seq<(K, V)> {
    Retained(vec, (k: K, v: V) => k != key) + [(key, value)]
  }

  /** The first pair with the key is taken out. */
  function Removed<K(==), V>(vec: seq<(K, V)>, key: K): seq<(K, V)> {
    if vec == [] then []
    else if vec[0].0 == key then vec[1..]
    else [vec[0]] + Removed(vec[1..], key)
  }

  ghost function Contents<K, V>(vec: seq<(K, V)>): map<K, V> {
    if vec == [] then map[] else Contents(vec[1..])[vec[0].0 := vec[0].1]
  }

  lemma {:induction false} ContentsLookup<K, V>(vec: seq<(K, V)>, key: K)
    ensures key in Contents(vec) <==> HasKey(vec, key)
    ensures Lookup(vec, key) == if key in Contents(vec) then Some(Contents(vec)[key]) else None
  {
    if vec != [] {
      ContentsLookup(vec[1..], key);
    }
  }

  lemma {:induction false} RetainedHas<K, V>(vec: seq<(K, V)>, keep: (K, V) -> bool, key: K)
    ensures HasKey(Retained(vec, keep), key) ==> HasKey(vec, key)
  {
    if vec != [] {
      var rest := Retained(vec[1..], keep);
      RetainedHas(vec[1..], keep, key);
      if keep(vec[0].0, vec[0].1) {
        assert ([vec[0]] + rest)[1..] == rest;
      } else {
        assert Retained(vec, keep) == rest;
      }
    }
  }

  /** What a map keeps. */
  ghost function Kept<K, V>(m: map<K, V>, keep: (K, V) -> bool): map<K, V> {
    map k | k in m && keep(k, m[k]) :: m[k]
  }

  lemma KeptUpdate<K, V>(m: map<K, V>, keep: (K, V) -> bool, key: K, value: V)
    requires key !in m
    ensures Kept(m[key := value], keep) == if keep(key, value) then Kept(m, keep)[key := value] else Kept(m, keep)
  {
  }

  lemma {:induction false} RetainedContents<K, V>(vec: seq<(K, V)>, keep: (K, V) -> bool)
    requires Unique(vec)
    ensures Unique(Retained(vec, keep))
    ensures Contents(Retained(vec, keep)) == Kept(Contents(vec), keep)
  {
    if vec != [] {
      var rest := Retained(vec[1..], keep);
      RetainedContents(vec[1..], keep);
      RetainedHas(vec[1..], keep, vec[0].0);
      ContentsLookup(vec[1..], vec[0].0);
      KeptUpdate(Contents(vec[1..]), keep, vec[0].0, vec[0].1);
      if keep(vec[0].0, vec[0].1) {
        assert ([vec[0]] + rest)[1..] == rest;
      } else {
        assert Retained(vec, keep) == rest;
      }
    }
  }

  lemma {:induction false} SnocContents<K, V>(vec: seq<(K, V)>, key: K, value: V)
    requires Unique(vec) && !HasKey(vec, key)
    ensures Unique(vec + [(key, value)])
    ensures Contents(vec + [(key, value)]) == Contents(vec)[key := value]
  {
    if vec == [] {
      assert vec + [(key, value)] == [(key, value)];
    } else {
      SnocContents(vec[1..], key, value);
      assert (vec + [(key, value)])[1..] == vec[1..] + [(key, value)];
      ContentsLookup(vec[1..], vec[0].0);
      ContentsLookup(vec[1..] + [(key, value)], vec[0].0);
    }
  }

  lemma InsertedContents<K, V>(vec: seq<(K, V)>, key: K, value: V)
    requires Unique(vec)
    ensures Unique(Inserted(vec, key, value))
    ensures Contents(Inserted(vec, key, value)) == Contents(vec)[key := value]
  {
    var keep := (k: K, v: V) => k != key;
    RetainedContents(vec, keep);
    ContentsLookup(Retained(vec, keep), key);
    SnocContents(Retained(vec, keep), key, value);
  }

  lemma {:induction false} RemovedContents<K, V>(vec: seq<(K, V)>, key: K)
    requires Unique(vec)
    ensures Unique(Removed(vec, key))
    ensures Contents(Removed(vec, key)) == Contents(vec) - {key}
  {
    if vec != [] {
      RemovedContents(vec[1..], key);
      ContentsLookup(vec[1..], vec[0].0);
      if vec[0].0 != key {
        var rest := Removed(vec[1..], key);
        ContentsLookup(rest, vec[0].0);
        assert ([vec[0]] + rest)[1..] == rest;
      }
    }
  }

  lemma {:induction false} UniqueAt<K, V>(vec: seq<(K, V)>, i: nat, j: nat)
    requires Unique(vec) && i < j < |vec|
    ensures vec[i].0 != vec[j].0
  {
    if i == 0 {
      HasKeyAt(vec[1..], j - 1);
    } else {
      UniqueAt(vec[1..], i - 1, j - 1);
    }
  }

  lemma {:induction false} HasKeyAt<K, V>(vec: seq<(K, V)>, i: nat)
    requires i < |vec|
    ensures HasKey(vec, vec[i].0)
  {
    if i > 0 {
      HasKeyAt(vec[1..], i - 1);
    }
  }

  lemma {:induction false} ContentsAt<K, V>(vec: seq<(K, V)>, i: nat)
    requires Unique(vec) && i < |vec|
    ensures vec[i].0 in Contents(vec) && Contents(vec)[vec[i].0] == vec[i].1
  {
    if i > 0 {
      ContentsAt(vec[1..], i - 1);
      HasKeyAt(vec[1..], i - 1);
    }
  }

  lemma {:induction false} ContentsFrom<K, V>(vec: seq<(K, V)>, key: K) returns (i: nat)
    requires key in Contents(vec)
    ensures i < |vec| && vec[i].0 == key
  {
    if vec[0].0 == key {
      i := 0;
    } else {
      i := ContentsFrom(vec[1..], key);
      i := i + 1;
    }
  }

  /** The map as its callers see it when nobody else touches it. */
  class FrimMap<K(==), V> {
    var inner: seq<(K, V)>

    ghost predicate Valid()
      reads this
    {
      Unique(inner)
    }

    constructor ()
      ensures Valid() && Contents(inner) == map[]
    {
      inner := [];
    }

    method Get(key: K) returns (r: Option<V>)
      ensures r == if key in Contents(inner) then Some(Contents(inner)[key]) else None
    {
      ContentsLookup(inner, key);
      r := Lookup(inner, key);
    }

    method Insert(key: K, value: V)
      requires Valid()
      modifies this
      ensures Valid() && Contents(inner) == old(Contents(inner))[key := value]
    {
      InsertedContents(inner, key, value);
      inner := Inserted(inner, key, value);
    }

    method Retain(keep: (K, V) -> bool)
      requires Valid()
      modifies this
      ensures Valid()
      ensures Contents(inner) == Kept(old(Contents(inner)), keep)
    {
      RetainedContents(inner, keep);
      inner := Retained(inner, keep);
    }

    method Replace(other: FrimMap<K, V>)
      requires other.Valid()
      modifies this
      ensures Valid() && Contents(inner) == old(Contents(other.inner))
    {
      inner := other.inner;
    }

    method Remove(key: K) returns (found: Option<V>)
      requires Valid()
      modifies this
      ensures Valid() && Contents(inner) == old(Contents(inner)) - {key}
      ensures found == if key in old(Contents(inner)) then Some(old(Contents(inner))[key]) else None
    {
      RemovedContents(inner, key);
      found := Get(key);
      inner := Removed(inner, key);
    }

    /** `entry(key).or_insert_with(..)` */
    method OrInsert(key: K, value: V) returns (r: V)
      requires Valid()
      modifies this
      ensures Valid()
      ensures Contents(inner) == if key in old(Contents(inner)) then old(Contents(inner)) else old(Contents(inner))[key := value]
      ensures key in Contents(inner) && r == Contents(inner)[key]
    {
      var present := Get(key);
      match present
      case Some(v) => r := v;
      case None =>
        Insert(key, value);
        r := value;
    }
  }
}
