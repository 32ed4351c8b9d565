/** The per-peer counters behind the Statistics Report: the Adj-RIB-In gauge of every address
    family, and the total that is kept beside them. */
module PeerStats {
  import opened Wrappers
  import opened StatsReport

  // ---- Sums over the families ----

  function Get(m: map<Family, nat>, k: Family): nat {
    if k in m then m[k] else 0
  }

  ghost function Sum(m: map<Family, nat>): nat {
    if m == map[] then 0 else var k :| k in m; m[k] + Sum(m - {k})
  }

  /** Any family can be counted first. */
  lemma {:induction false} SumWithout(m: map<Family, nat>, k: Family)
    requires k in m
    ensures Sum(m) == m[k] + Sum(m - {k})
    decreases |m|
  {
    var j :| j in m && Sum(m) == m[j] + Sum(m - {j});
    if j != k {
      SumWithout(m - {j}, k);
      SumWithout(m - {k}, j);
      assert (m - {j}) - {k} == (m - {k}) - {j};
    }
  }

  lemma SumUpdate(m: map<Family, nat>, k: Family, v: nat)
    ensures Sum(m[k := v]) == Sum(m) - Get(m, k) + v
  {
    SumWithout(m[k := v], k);
    assert m[k := v] - {k} == m - {k};
    if k in m {
      SumWithout(m, k);
    } else {
      assert m - {k} == m;
    }
  }

  ghost function SumOf(entries: seq<(Family, nat)>): nat {
    if entries == [] then 0 else entries[0].1 + SumOf(entries[1..])
  }

  lemma {:induction false} SumOfNext(entries: seq<(Family, nat)>, e: (Family, nat))
    ensures SumOf(entries + [e]) == SumOf(entries) + e.1
  {
    if entries == [] {
      assert entries + [e] == [e];
    } else {
      SumOfNext(entries[1..], e);
      assert (entries + [e])[1..] == entries[1..] + [e];
    }
  }

  // ---- One peer ----

  /** The two values that move together. */
  datatype Gauges = Gauges(total: nat, families: map<Family, nat>)

  /** The total is the sum over the families, and nothing has overflowed. */
  ghost predicate Balanced(g: Gauges) {
    && g.total == Sum(g.families) < U64
    && forall k :: k in g.families ==> k.Valid()
  }

  ghost predicate InRange(g: Gauges) {
    g.total < U64 && forall k :: k in g.families ==> k.Valid() && g.families[k] < U64
  }

  /** Unsigned 64-bit additions wrap around. */
  function Added(g: Gauges, k: Family, n: nat): Gauges {
    if n == 0 then g
    else Gauges((g.total + n) % U64, g.families[k := (Get(g.families, k) + n) % U64])
  }

  function Removed(g: Gauges, k: Family, n: nat): Gauges {
    if n == 0 then g
    else
      var dec := if Get(g.families, k) < n then Get(g.families, k) else n;
      Gauges(if dec <= g.total then g.total - dec else 0, g.families[k := Get(g.families, k) - dec])
  }

  lemma GetAtMostSum(m: map<Family, nat>, k: Family)
    ensures Get(m, k) <= Sum(m)
  {
    if k in m {
      SumWithout(m, k);
    }
  }

  lemma AddedBalanced(g: Gauges, k: Family, n: nat)
    requires Balanced(g) && g.total + n < U64 && k.Valid()
    ensures Balanced(Added(g, k, n))
    ensures Added(g, k, n).total == g.total + n
    ensures forall j :: Get(Added(g, k, n).families, j) == Get(g.families, j) + if j == k then n else 0
  {
    GetAtMostSum(g.families, k);
    SumUpdate(g.families, k, Get(g.families, k) + n);
    Small(g.total + n);
    Small(Get(g.families, k) + n);
    assert Added(g, k, n).total == g.total + n;
  }

  lemma Small(n: nat)
    requires n < U64
    ensures n % U64 == n
  {
  }

  /** However many unseen routes are withdrawn, the total follows what the family really lost. */
  lemma RemovedBalanced(g: Gauges, k: Family, n: nat)
    requires Balanced(g) && k.Valid()
    ensures Balanced(Removed(g, k, n))
    ensures forall j :: Get(Removed(g, k, n).families, j)
                     == if j == k && n <= Get(g.families, j) then Get(g.families, j) - n
                        else if j == k then 0 else Get(g.families, j)
  {
    GetAtMostSum(g.families, k);
    SumUpdate(g.families, k, if Get(g.families, k) < n then 0 else Get(g.families, k) - n);
  }

  class BgpPeerStats {
    var prefixesRejected: nat
    var adjRibInRoutes: nat
    var adjRibInPerFamily: map<Family, nat>

    function State(): Gauges
      reads this
    {
      Gauges(adjRibInRoutes, adjRibInPerFamily)
    }

    /** Every field fits its type. */
    ghost predicate Valid()
      reads this
    {
      prefixesRejected < U64 && InRange(State())
    }

    constructor ()
      ensures Valid() && State() == Gauges(0, map[]) && prefixesRejected == 0
    {
      prefixesRejected, adjRibInRoutes, adjRibInPerFamily := 0, 0, map[];
    }

    method AddAdjRibIn(k: Family, n: nat)
      requires Valid() && k.Valid()
      modifies this`adjRibInRoutes, this`adjRibInPerFamily
      ensures Valid() && State() == Added(old(State()), k, n)
    {
      if n == 0 {
        return;
      }
      adjRibInRoutes := (adjRibInRoutes + n) % U64;
      var cur := if k in adjRibInPerFamily then adjRibInPerFamily[k] else 0;
      adjRibInPerFamily := adjRibInPerFamily[k := (cur + n) % U64];
    }

    method SubAdjRibIn(k: Family, n: nat)
      requires Valid() && k.Valid()
      modifies this`adjRibInRoutes, this`adjRibInPerFamily
      ensures Valid() && State() == Removed(old(State()), k, n)
    {
      if n == 0 {
        return;
      }
      if k !in adjRibInPerFamily {
        adjRibInPerFamily := adjRibInPerFamily[k := 0];
      }
      var cur := adjRibInPerFamily[k];
      var dec := if cur < n then cur else n;
      adjRibInPerFamily := adjRibInPerFamily[k := cur - dec];
      var agg := adjRibInRoutes;
      adjRibInRoutes := if dec <= agg then agg - dec else 0;
    }

    method ResetAdjRibIn()
      requires Valid()
      modifies this`adjRibInRoutes, this`adjRibInPerFamily
      ensures Valid() && State() == Gauges(0, map[])
    {
      adjRibInRoutes := 0;
      adjRibInPerFamily := map[];
    }

    ghost predicate Shows(snap: Snapshot)
      reads this
    {
      && snap.Valid()
      && snap.prefixesRejected == prefixesRejected && snap.adjRibInRoutes == adjRibInRoutes
      && Lists(snap.adjRibInPerFamily, adjRibInPerFamily) && snap.locRibPerFamily == [] && snap.Untracked()
    }

    /** The families come out in any order; what is not tracked is reported as zero. */
    method Snapshot() returns (snap: Snapshot)
      requires Valid()
      ensures Shows(snap)
    {
      var entries := Listed(adjRibInPerFamily);
      snap := StatsReport.Snapshot(prefixesRejected, 0, 0, 0, 0, 0, 0, adjRibInRoutes, 0, entries, [], 0, 0, 0);
    }
  }

  /** Every family once, with its value. */
  ghost predicate Lists(entries: seq<(Family, u64)>, m: map<Family, nat>) {
    && (forall k :: 0 <= k < |entries| ==> entries[k].0 in m && m[entries[k].0] == entries[k].1)
    && (forall j, k :: 0 <= j < k < |entries| ==> entries[j].0 != entries[k].0)
    && (forall k :: k in m ==> m[k] < U64 && (k, m[k]) in entries)
    && SumOf(entries) == Sum(m)
  }

  lemma ListsNext(entries: seq<(Family, u64)>, m: map<Family, nat>, k: Family, v: u64)
    requires Lists(entries, m) && k !in m
    ensures Lists(entries + [(k, v)], m[k := v])
  {
    SumOfNext(entries, (k, v));
    SumUpdate(m, k, v);
  }

  /** The entries of a hash map, collected in the order it happens to have. */
  method Listed(m: map<Family, nat>) returns (entries: seq<(Family, u64)>)
    requires forall k :: k in m ==> m[k] < U64
    ensures Lists(entries, m)
  {
    entries := [];
    var left := m.Keys;
    assert m - left == map[];
    while left != {}
      invariant left <= m.Keys
      invariant Lists(entries, m - left)
      decreases left
    {
      var k :| k in left;
      ListsNext(entries, m - left, k, m[k]);
      assert (m - left)[k := m[k]] == m - (left - {k});
      entries := entries + [(k, m[k])];
      left := left - {k};
    }
    assert m - left == m;
  }
}
