/** Counting the routes of an UPDATE message, and what comes out at the other end. */
module PeerStatsFlow {
  import opened Wrappers
  import opened Ingress
  import opened Bytes
  import opened StatsReport
  import opened PeerStats

  datatype Route =
    | Ipv4Unicast(nlri: nat)
    | Ipv6Unicast(nlri: nat)
    | Ipv4Multicast(nlri: nat)
    | Ipv6Multicast(nlri: nat)

  /** The codes IANA assigns to the families. */
  function RouteFamily(route: Route): (k: Family)
    ensures k.Valid()
  {
    match route
    case Ipv4Unicast(_) => Family(1, 1)
    case Ipv6Unicast(_) => Family(2, 1)
    case Ipv4Multicast(_) => Family(1, 2)
    case Ipv6Multicast(_) => Family(2, 2)
  }

  function Count(routes: seq<Route>, k: Family): nat {
    if routes == [] then 0
    else Count(routes[..|routes| - 1], k) + if RouteFamily(routes[|routes| - 1]) == k then 1 else 0
  }

  function FamiliesOf(routes: seq<Route>): set<Family> {
    set r | r in routes :: RouteFamily(r)
  }

  /** How many routes of each family, for the families that occur. */
  ghost predicate Tallies(counts: map<Family, nat>, routes: seq<Route>) {
    && counts.Keys == FamiliesOf(routes)
    && Counts(counts, routes)
    && (forall k :: k in counts ==> k.Valid() && counts[k] > 0)
    && Sum(counts) == |routes|
  }

  ghost predicate Counts(counts: map<Family, nat>, routes: seq<Route>) {
    forall k :: Get(counts, k) == Count(routes, k)
  }

  lemma CountSnoc(routes: seq<Route>, route: Route, k: Family)
    ensures Count(routes + [route], k) == Count(routes, k) + (if RouteFamily(route) == k then 1 else 0)
  {
    assert (routes + [route])[..|routes|] == routes;
  }

  lemma FamiliesSnoc(routes: seq<Route>, route: Route)
    ensures FamiliesOf(routes + [route]) == FamiliesOf(routes) + {RouteFamily(route)}
  {
    var k := RouteFamily(route);
    forall j | j in FamiliesOf(routes + [route]) ensures j in FamiliesOf(routes) + {k} {
      var r :| r in routes + [route] && RouteFamily(r) == j;
      assert r in routes || r == route;
    }
    forall j | j in FamiliesOf(routes) + {k} ensures j in FamiliesOf(routes + [route]) {
      var r :| (r in routes || r == route) && RouteFamily(r) == j;
      assert r in routes + [route];
    }
  }

  lemma CountsNext(counts: map<Family, nat>, routes: seq<Route>, route: Route)
    requires Counts(counts, routes)
    ensures var k := RouteFamily(route); Counts(counts[k := Get(counts, k) + 1], routes + [route])
  {
    var k := RouteFamily(route);
    forall j ensures Get(counts[k := Get(counts, k) + 1], j) == Count(routes + [route], j) {
      CountSnoc(routes, route, j);
      assert Get(counts, j) == Count(routes, j);
    }
  }

  lemma TalliesNext(counts: map<Family, nat>, routes: seq<Route>, route: Route)
    requires Tallies(counts, routes)
    ensures var k := RouteFamily(route); Tallies(counts[k := Get(counts, k) + 1], routes + [route])
  {
    var k := RouteFamily(route);
    SumUpdate(counts, k, Get(counts, k) + 1);
    FamiliesSnoc(routes, route);
    CountsNext(counts, routes, route);
  }

  method Tally(routes: seq<Route>) returns (counts: map<Family, nat>)
    ensures Tallies(counts, routes)
  {
    counts := map[];
    for i := 0 to |routes|
      invariant Tallies(counts, routes[..i])
    {
      var k := RouteFamily(routes[i]);
      TalliesNext(counts, routes[..i], routes[i]);
      assert routes[..i] + [routes[i]] == routes[..i + 1];
      counts := counts[k := Get(counts, k) + 1];
    }
    assert routes[..|routes|] == routes;
  }

  /** The tally of a message is determined by its routes. */
  ghost function TallyOf(routes: seq<Route>): map<Family, nat> {
    map k | k in FamiliesOf(routes) :: Count(routes, k)
  }

  lemma TalliesOnly(counts: map<Family, nat>, routes: seq<Route>)
    requires Tallies(counts, routes)
    ensures counts == TallyOf(routes)
  {
    forall k | k in counts ensures counts[k] == TallyOf(routes)[k] {
      assert Get(counts, k) == Count(routes, k);
    }
  }

  lemma {:induction false} TallyOfTallies(routes: seq<Route>)
    ensures Tallies(TallyOf(routes), routes)
  {
    if routes == [] {
      assert TallyOf(routes) == map[];
    } else {
      var init, route := routes[..|routes| - 1], routes[|routes| - 1];
      TallyOfTallies(init);
      TalliesNext(TallyOf(init), init, route);
      assert init + [route] == routes;
      var k := RouteFamily(route);
      TalliesOnly(TallyOf(init)[k := Get(TallyOf(init), k) + 1], routes);
    }
  }

  // ---- Bucket by bucket, in any order ----

  type Buckets = seq<(Family, nat)>

  ghost function MapOf(buckets: Buckets): map<Family, nat> {
    if buckets == [] then map[]
    else MapOf(buckets[..|buckets| - 1])[buckets[|buckets| - 1].0 := buckets[|buckets| - 1].1]
  }

  /** A hash map is visited in some order, every key once. */
  ghost predicate InOrder(buckets: Buckets, m: map<Family, nat>) {
    MapOf(buckets) == m && Distinct(buckets)
  }

  ghost predicate Distinct(buckets: Buckets) {
    forall i, j :: 0 <= i < j < |buckets| ==> buckets[i].0 != buckets[j].0
  }

  function AddAll(g: Gauges, buckets: Buckets): Gauges {
    if buckets == [] then g
    else Added(AddAll(g, buckets[..|buckets| - 1]), buckets[|buckets| - 1].0, buckets[|buckets| - 1].1)
  }

  function RemoveAll(g: Gauges, buckets: Buckets): Gauges {
    if buckets == [] then g
    else Removed(RemoveAll(g, buckets[..|buckets| - 1]), buckets[|buckets| - 1].0, buckets[|buckets| - 1].1)
  }

  lemma BucketsNext(g: Gauges, buckets: Buckets, e: (Family, nat))
    ensures MapOf(buckets + [e]) == MapOf(buckets)[e.0 := e.1]
    ensures AddAll(g, buckets + [e]) == Added(AddAll(g, buckets), e.0, e.1)
    ensures RemoveAll(g, buckets + [e]) == Removed(RemoveAll(g, buckets), e.0, e.1)
  {
    assert (buckets + [e])[..|buckets|] == buckets;
  }

  lemma {:induction false} MapOfHas(buckets: Buckets, i: nat)
    requires i < |buckets|
    ensures buckets[i].0 in MapOf(buckets)
  {
    if i < |buckets| - 1 {
      MapOfHas(buckets[..|buckets| - 1], i);
    }
  }

  lemma {:induction false} MapOfFrom(buckets: Buckets, k: Family) returns (i: nat)
    requires k in MapOf(buckets)
    ensures i < |buckets| && buckets[i].0 == k
  {
    i := |buckets| - 1;
    if buckets[i].0 != k {
      i := MapOfFrom(buckets[..i], k);
    }
  }

  lemma InOrderNext(buckets: Buckets, m: map<Family, nat>, k: Family, n: nat)
    requires InOrder(buckets, m) && k !in m
    ensures InOrder(buckets + [(k, n)], m[k := n])
  {
    BucketsNext(Gauges(0, map[]), buckets, (k, n));
    forall i | 0 <= i < |buckets| ensures buckets[i].0 != k {
      MapOfHas(buckets, i);
    }
  }

  method AddBuckets(ps: BgpPeerStats, adds: map<Family, nat>) returns (ghost visited: Buckets)
    requires ps.Valid() && forall k :: k in adds ==> k.Valid()
    modifies ps`adjRibInRoutes, ps`adjRibInPerFamily
    ensures ps.Valid() && InOrder(visited, adds) && ps.State() == AddAll(old(ps.State()), visited)
  {
    var left := adds.Keys;
    visited := [];
    assert adds - left == map[];
    while left != {}
      invariant left <= adds.Keys && ps.Valid()
      invariant InOrder(visited, adds - left) && ps.State() == AddAll(old(ps.State()), visited)
      decreases left
    {
      var k :| k in left;
      InOrderNext(visited, adds - left, k, adds[k]);
      BucketsNext(old(ps.State()), visited, (k, adds[k]));
      assert (adds - left)[k := adds[k]] == adds - (left - {k});
      ps.AddAdjRibIn(k, adds[k]);
      visited, left := visited + [(k, adds[k])], left - {k};
    }
    assert adds - left == adds;
  }

  method SubBuckets(ps: BgpPeerStats, subs: map<Family, nat>) returns (ghost visited: Buckets)
    requires ps.Valid() && forall k :: k in subs ==> k.Valid()
    modifies ps`adjRibInRoutes, ps`adjRibInPerFamily
    ensures ps.Valid() && InOrder(visited, subs) && ps.State() == RemoveAll(old(ps.State()), visited)
  {
    var left := subs.Keys;
    visited := [];
    assert subs - left == map[];
    while left != {}
      invariant left <= subs.Keys && ps.Valid()
      invariant InOrder(visited, subs - left) && ps.State() == RemoveAll(old(ps.State()), visited)
      decreases left
    {
      var k :| k in left;
      InOrderNext(visited, subs - left, k, subs[k]);
      BucketsNext(old(ps.State()), visited, (k, subs[k]));
      assert (subs - left)[k := subs[k]] == subs - (left - {k});
      ps.SubAdjRibIn(k, subs[k]);
      visited, left := visited + [(k, subs[k])], left - {k};
    }
    assert subs - left == subs;
  }

  // ---- What the folds come to ----

  /** The gauges once the buckets `done` have been added. */
  ghost predicate Plus(g: Gauges, done: map<Family, nat>, g': Gauges) {
    && Balanced(g')
    && g'.total == g.total + Sum(done)
    && g'.families.Keys == g.families.Keys + done.Keys
    && forall k :: Get(g'.families, k) == Get(g.families, k) + Get(done, k)
  }

  function Less(a: nat, b: nat): nat {
    if b <= a then a - b else 0
  }

  /** The gauges once the buckets `done` have been withdrawn. */
  ghost predicate Minus(g: Gauges, done: map<Family, nat>, g': Gauges) {
    && Balanced(g')
    && g'.families.Keys == g.families.Keys + done.Keys
    && forall k :: Get(g'.families, k) == Less(Get(g.families, k), Get(done, k))
  }

  lemma PlusNext(g: Gauges, done: map<Family, nat>, g': Gauges, k: Family, n: nat)
    requires Plus(g, done, g') && k !in done && n > 0 && k.Valid() && g.total + Sum(done) + n < U64
    ensures Plus(g, done[k := n], Added(g', k, n))
  {
    AddedBalanced(g', k, n);
    SumUpdate(done, k, n);
  }

  lemma MinusNext(g: Gauges, done: map<Family, nat>, g': Gauges, k: Family, n: nat)
    requires Minus(g, done, g') && k !in done && n > 0 && k.Valid()
    ensures Minus(g, done[k := n], Removed(g', k, n))
  {
    RemovedBalanced(g', k, n);
  }

  /** Buckets that a tally can have. */
  ghost predicate ProperBuckets(buckets: Buckets) {
    Distinct(buckets) && forall i :: 0 <= i < |buckets| ==> buckets[i].0.Valid() && buckets[i].1 > 0
  }

  lemma FreshKey(buckets: Buckets)
    requires buckets != [] && ProperBuckets(buckets)
    ensures buckets[|buckets| - 1].0 !in MapOf(buckets[..|buckets| - 1])
  {
    var init, k := buckets[..|buckets| - 1], buckets[|buckets| - 1].0;
    if k in MapOf(init) {
      var i := MapOfFrom(init, k);
    }
  }

  lemma {:induction false} AddAllPlus(g: Gauges, buckets: Buckets)
    requires Balanced(g) && ProperBuckets(buckets) && g.total + Sum(MapOf(buckets)) < U64
    ensures Plus(g, MapOf(buckets), AddAll(g, buckets))
  {
    if buckets != [] {
      var init, e := buckets[..|buckets| - 1], buckets[|buckets| - 1];
      FreshKey(buckets);
      SumUpdate(MapOf(init), e.0, e.1);
      AddAllPlus(g, init);
      PlusNext(g, MapOf(init), AddAll(g, init), e.0, e.1);
    }
  }

  lemma {:induction false} RemoveAllMinus(g: Gauges, buckets: Buckets)
    requires Balanced(g) && ProperBuckets(buckets)
    ensures Minus(g, MapOf(buckets), RemoveAll(g, buckets))
  {
    if buckets != [] {
      var init, e := buckets[..|buckets| - 1], buckets[|buckets| - 1];
      FreshKey(buckets);
      RemoveAllMinus(g, init);
      MinusNext(g, MapOf(init), RemoveAll(g, init), e.0, e.1);
    }
  }

  lemma {:induction false} MapOfAt(buckets: Buckets, i: nat)
    requires Distinct(buckets) && i < |buckets|
    ensures buckets[i].0 in MapOf(buckets) && MapOf(buckets)[buckets[i].0] == buckets[i].1
  {
    if i < |buckets| - 1 {
      MapOfAt(buckets[..|buckets| - 1], i);
    }
  }

  lemma TallyProper(buckets: Buckets, routes: seq<Route>)
    requires InOrder(buckets, TallyOf(routes))
    ensures ProperBuckets(buckets) && Sum(MapOf(buckets)) == |routes|
  {
    TallyOfTallies(routes);
    forall i | 0 <= i < |buckets| ensures buckets[i].0.Valid() && buckets[i].1 > 0 {
      MapOfAt(buckets, i);
    }
  }

  // ---- One message ----

  /** What a message does to the gauges, whatever order its buckets are visited in: every
      family gains what is announced and then loses what is withdrawn, down to zero. */
  ghost predicate Follows(g: Gauges, reach: seq<Route>, unreach: seq<Route>, g': Gauges) {
    && Balanced(g')
    && g'.families.Keys == g.families.Keys + FamiliesOf(reach) + FamiliesOf(unreach)
    && forall k :: Get(g'.families, k) == Less(Get(g.families, k) + Count(reach, k), Count(unreach, k))
  }

  /** The gauges after a message are determined: no order of the buckets makes a difference. */
  lemma FollowsOneWay(g: Gauges, reach: seq<Route>, unreach: seq<Route>, a: Gauges, b: Gauges)
    requires Follows(g, reach, unreach, a) && Follows(g, reach, unreach, b)
    ensures a == b
  {
    forall k | k in a.families ensures a.families[k] == b.families[k] {
      assert Get(a.families, k) == Get(b.families, k);
    }
    assert a.families == b.families;
  }

  /** What the code does: it adds the buckets of the announced routes in some order, then takes
      off those of the withdrawn ones in some order. */
  ghost predicate Processed(g: Gauges, reach: seq<Route>, unreach: seq<Route>, g': Gauges) {
    exists adds: Buckets, subs: Buckets :: InOrder(adds, TallyOf(reach)) && InOrder(subs, TallyOf(unreach)) &&
                                           g' == RemoveAll(AddAll(g, adds), subs)
  }

  lemma ProcessedFollows(g: Gauges, reach: seq<Route>, unreach: seq<Route>, g': Gauges)
    requires Processed(g, reach, unreach, g') && Balanced(g) && g.total + |reach| < U64
    ensures Follows(g, reach, unreach, g')
  {
    var adds: Buckets, subs: Buckets :| InOrder(adds, TallyOf(reach)) && InOrder(subs, TallyOf(unreach)) &&
                                        g' == RemoveAll(AddAll(g, adds), subs);
    TallyProper(adds, reach);
    TallyProper(subs, unreach);
    AddAllPlus(g, adds);
    RemoveAllMinus(AddAll(g, adds), subs);
    TallyOfTallies(reach);
    TallyOfTallies(unreach);
    FollowsFrom(g, TallyOf(reach), AddAll(g, adds), TallyOf(unreach), g', reach, unreach);
  }

  lemma CountedAt(counts: map<Family, nat>, routes: seq<Route>, k: Family)
    requires Counts(counts, routes)
    ensures Get(counts, k) == Count(routes, k)
  {
  }

  lemma FollowsFrom(g: Gauges, adds: map<Family, nat>, mid: Gauges, subs: map<Family, nat>, g': Gauges,
                    reach: seq<Route>, unreach: seq<Route>)
    requires Plus(g, adds, mid) && Minus(mid, subs, g')
    requires Counts(adds, reach) && adds.Keys == FamiliesOf(reach)
    requires Counts(subs, unreach) && subs.Keys == FamiliesOf(unreach)
    ensures Follows(g, reach, unreach, g')
  {
    forall k ensures Get(g'.families, k) == Less(Get(g.families, k) + Count(reach, k), Count(unreach, k)) {
      CountedAt(adds, reach, k);
      CountedAt(subs, unreach, k);
      assert Get(mid.families, k) == Get(g.families, k) + Get(adds, k);
    }
  }

  datatype Status = Active | Withdrawn

  method CountRoutes(ps: BgpPeerStats, reach: seq<Route>, unreach: seq<Route>)
    requires ps.Valid()
    modifies ps`adjRibInRoutes, ps`adjRibInPerFamily
    ensures ps.Valid() && Processed(old(ps.State()), reach, unreach, ps.State())
  {
    var adds := Tally(reach);
    TalliesOnly(adds, reach);
    ghost var added := AddBuckets(ps, adds);
    var subs := Tally(unreach);
    TalliesOnly(subs, unreach);
    ghost var removed := SubBuckets(ps, subs);
    assert InOrder(added, TallyOf(reach)) && InOrder(removed, TallyOf(unreach));
  }

  /** A message whose routes cannot be listed changes nothing. Without a stats handle nothing is
      counted; the routes are passed on all the same. */
  method ProcessUpdate(ps: BgpPeerStats?, reach: Option<seq<Route>>, unreach: Option<seq<Route>>)
    returns (payloads: Option<seq<(Route, Status)>>)
    requires ps != null ==> ps.Valid()
    modifies if ps == null then {} else {ps}
    ensures payloads.None? <==> reach.None? || unreach.None?
    ensures ps != null ==> ps.Valid()
    ensures payloads.None? && ps != null ==> ps.State() == old(ps.State())
    ensures payloads.Some? ==>
              && |payloads.value| == |reach.value| + |unreach.value|
              && (forall k :: 0 <= k < |reach.value| ==> payloads.value[k] == (reach.value[k], Active))
              && (forall k :: 0 <= k < |unreach.value| ==>
                    payloads.value[|reach.value| + k] == (unreach.value[k], Withdrawn))
    ensures payloads.Some? && ps != null ==> Processed(old(ps.State()), reach.value, unreach.value, ps.State())
  {
    if reach.None? || unreach.None? {
      return None;
    }
    var rs, us := reach.value, unreach.value;
    if ps != null {
      CountRoutes(ps, rs, us);
    }
    payloads := Some(seq(|rs|, k requires 0 <= k < |rs| => (rs[k], Active))
                     + seq(|us|, k requires 0 <= k < |us| => (us[k], Withdrawn)));
  }

  // ---- Runs, and the emitted report ----

  datatype Event = Message(reach: seq<Route>, unreach: seq<Route>) | Reset

  /** Whatever the gauges are before, a message is processed bucket by bucket. */
  ghost predicate Change(g: Gauges, e: Event, g': Gauges) {
    match e
    case Message(reach, unreach) => Processed(g, reach, unreach, g')
    case Reset => g' == Gauges(0, map[])
  }

  ghost predicate Run(run: seq<Gauges>, events: seq<Event>) {
    && |run| == |events| + 1
    && run[0] == Gauges(0, map[])
    && forall k :: 0 <= k < |events| ==> Change(run[k], events[k], run[k + 1])
  }

  /** No count comes to 2^64 while the run lasts. */
  predicate Bounded(run: seq<Gauges>, events: seq<Event>) {
    forall k :: 0 <= k < |events| && k < |run| && events[k].Message? ==> run[k].total + |events[k].reach| < U64
  }

  lemma {:induction false} RunBalanced(run: seq<Gauges>, events: seq<Event>, k: nat)
    requires Run(run, events) && Bounded(run, events) && k < |run|
    ensures Balanced(run[k])
  {
    if k > 0 {
      RunBalanced(run, events, k - 1);
      var e := events[k - 1];
      assert Change(run[k - 1], e, run[k]);
      if e.Message? {
        ProcessedFollows(run[k - 1], e.reach, e.unreach, run[k]);
      }
    }
  }

  function Total(stats: seq<Stat>): nat {
    if stats == [] then 0 else stats[0].value + Total(stats[1..])
  }

  lemma {:induction false} TotalPerFamily(statType: nat, entries: seq<(Family, u64)>)
    ensures Total(PerFamily(statType, entries)) == SumOf(entries)
  {
    if entries != [] {
      TotalPerFamily(statType, entries[1..]);
      assert PerFamily(statType, entries)[1..] == PerFamily(statType, entries[1..]);
    }
  }

  /** Read back, the type 7 gauge is the sum of the type 9 gauges. */
  ghost predicate Conserved(body: seq<byte>) {
    && |body| >= 4
    && Read(body[4..]).Some?
    && |OfType(Read(body[4..]).value, 7)| == 1
    && Total(OfType(Read(body[4..]).value, 7)) == Total(OfType(Read(body[4..]).value, 9))
  }

  lemma ReportConserves(snap: Snapshot, g: Gauges)
    requires Balanced(g) && snap.Valid()
    requires snap.adjRibInRoutes == g.total && Lists(snap.adjRibInPerFamily, g.families)
    ensures Conserved(Body(snap))
  {
    RoundTrip(snap);
    StatsByType(snap, 7);
    StatsByType(snap, 9);
    TotalPerFamily(9, snap.adjRibInPerFamily);
  }

  /** Over every run of messages and resets of one peer, the report emitted at any point adds up. */
  lemma RunConserves(run: seq<Gauges>, events: seq<Event>, k: nat, snap: Snapshot)
    requires Run(run, events) && Bounded(run, events) && k < |run| && snap.Valid()
    requires snap.adjRibInRoutes == run[k].total && Lists(snap.adjRibInPerFamily, run[k].families)
    ensures Conserved(Body(snap))
  {
    RunBalanced(run, events, k);
    ReportConserves(snap, run[k]);
  }

  // ---- The emitter ----

  type Snapshots = seq<(IngressId, Snapshot)>

  ghost predicate OnePerId(snaps: Snapshots, ids: set<IngressId>) {
    && DistinctIds(snaps)
    && (forall i :: 0 <= i < |snaps| ==> snaps[i].0 in ids)
    && (forall id :: id in ids ==> exists i :: 0 <= i < |snaps| && snaps[i].0 == id)
  }

  lemma OneMore(snaps: Snapshots, ids: set<IngressId>, e: (IngressId, Snapshot))
    requires OnePerId(snaps, ids) && e.0 !in ids
    ensures OnePerId(snaps + [e], ids + {e.0})
  {
    var snaps' := snaps + [e];
    forall id | id in ids + {e.0} ensures exists i :: 0 <= i < |snaps'| && snaps'[i].0 == id {
      if id in ids {
        var i :| 0 <= i < |snaps| && snaps[i].0 == id;
        assert snaps'[i].0 == id;
      } else {
        assert snaps'[|snaps|].0 == id;
      }
    }
  }

  /** Every peer of the registry once, in the order of its hash map. */
  method SnapshotAll(stats: map<IngressId, BgpPeerStats>) returns (snaps: Snapshots)
    requires forall id :: id in stats ==> stats[id].Valid()
    ensures OnePerId(snaps, stats.Keys)
    ensures forall i :: 0 <= i < |snaps| ==> snaps[i].0 in stats && stats[snaps[i].0].Shows(snaps[i].1)
  {
    snaps := [];
    var left := stats.Keys;
    while left != {}
      invariant left <= stats.Keys && OnePerId(snaps, stats.Keys - left)
      invariant forall i :: 0 <= i < |snaps| ==> snaps[i].0 in stats && stats[snaps[i].0].Shows(snaps[i].1)
      decreases left
    {
      var id :| id in left;
      var snap := stats[id].Snapshot();
      OneMore(snaps, stats.Keys - left, (id, snap));
      assert stats.Keys - (left - {id}) == (stats.Keys - left) + {id};
      snaps, left := snaps + [(id, snap)], left - {id};
    }
    assert stats.Keys - left == stats.Keys;
  }

  predicate Up(id: IngressId, ingresses: map<IngressId, IngressInfo>) {
    id in ingresses && ingresses[id].state == Some(Connected) && ingresses[id].ingressType == Some(Bgp)
  }

  /** What the register holds when the emitter asks it the k-th time in a round. It asks once for every
      snapshot and awaits in between, so the answers need not come from the same state. */
  type Answers = nat -> map<IngressId, IngressInfo>

  /** What a round of the emitter sends: the reports of the peers that are up when it asks. */
  function Emitted(snaps: Snapshots, register: Answers): seq<(IngressId, seq<byte>)> {
    if snaps == [] then []
    else
      var e := snaps[|snaps| - 1];
      Emitted(snaps[..|snaps| - 1], register) + (if Up(e.0, register(|snaps| - 1)) then [(e.0, Body(e.1))] else [])
  }

  method Emit(snaps: Snapshots, register: Answers) returns (sent: seq<(IngressId, seq<byte>)>)
    ensures sent == Emitted(snaps, register)
  {
    sent := [];
    for k := 0 to |snaps|
      invariant sent == Emitted(snaps[..k], register)
    {
      assert snaps[..k + 1][..k] == snaps[..k];
      if Up(snaps[k].0, register(k)) {
        var body := BuildStatsBody(snaps[k].1);
        sent := sent + [(snaps[k].0, body)];
      }
    }
    assert snaps[..|snaps|] == snaps;
  }

  /** A report shows the counters of some peer that is up when asked for ... */
  lemma {:induction false} EmittedFrom(snaps: Snapshots, register: Answers, i: nat) returns (j: nat)
    requires i < |Emitted(snaps, register)|
    ensures j < |snaps| && Up(snaps[j].0, register(j))
    ensures Emitted(snaps, register)[i] == (snaps[j].0, Body(snaps[j].1))
  {
    var n := |snaps| - 1;
    if i < |Emitted(snaps[..n], register)| {
      j := EmittedFrom(snaps[..n], register, i);
    } else {
      j := n;
    }
  }

  /** ... every peer that is up when asked for gets one ... */
  lemma {:induction false} EmittedFor(snaps: Snapshots, register: Answers, j: nat) returns (i: nat)
    requires j < |snaps| && Up(snaps[j].0, register(j))
    ensures i < |Emitted(snaps, register)| && Emitted(snaps, register)[i] == (snaps[j].0, Body(snaps[j].1))
  {
    var n := |snaps| - 1;
    if j < n {
      i := EmittedFor(snaps[..n], register, j);
    } else {
      i := |Emitted(snaps[..n], register)|;
    }
  }

  /** ... and none gets two. */
  lemma {:induction false} EmittedOnce(snaps: Snapshots, register: Answers, i: nat, j: nat)
    requires DistinctIds(snaps) && i < j < |Emitted(snaps, register)|
    ensures Emitted(snaps, register)[i].0 != Emitted(snaps, register)[j].0
  {
    var n := |snaps| - 1;
    if j < |Emitted(snaps[..n], register)| {
      EmittedOnce(snaps[..n], register, i, j);
    } else {
      var k := EmittedFrom(snaps[..n], register, i);
    }
  }

  ghost predicate DistinctIds(snaps: Snapshots) {
    forall i, j :: 0 <= i < j < |snaps| ==> snaps[i].0 != snaps[j].0
  }
}
