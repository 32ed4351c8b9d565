/** The ingress register: a counter that hands out ids and the information kept under them. */
module Register {
  import opened Ingress
  import opened Wrappers

  const IDS: nat := 0x1_0000_0000

  datatype Kind = PeerBelowRouter | Router

  /** Only an entry that is not Connected is ever claimed. */
  predicate Claimable(kind: Kind, info: IngressInfo, query: IngressInfo) {
    match kind
    case PeerBelowRouter => MatchesIdlePeer(info, query)
    case Router => MatchesIdleRouter(info, query)
  }

  /** A claim: some matching entry is Connected in the same breath, or there is none. */
  ghost predicate Claims(reg: map<IngressId, IngressInfo>, kind: Kind, query: IngressInfo,
                         r: Option<IngressId>, reg': map<IngressId, IngressInfo>)
  {
    match r
    case Some(id) =>
      && id in reg
      && Claimable(kind, reg[id], query)
      && reg' == reg[id := reg[id].(state := Some(Connected))]
    case None =>
      && reg' == reg
      && forall id :: id in reg ==> !Claimable(kind, reg[id], query)
  }

  function Swept(reg: map<IngressId, IngressInfo>, id: IngressId): map<IngressId, IngressInfo> {
    if id in reg && reg[id].state == Some(Disconnected) then reg - {id} else reg
  }

  class Register {
    var serial: nat
    var info: map<IngressId, IngressInfo>

    ghost predicate Valid()
      reads this
    {
      serial < IDS
    }

    constructor ()
      ensures Valid() && serial == 1 && info == map[]
    {
      serial, info := 1, map[];
    }

    /** The counter wraps around silently. */
    method Register() returns (id: IngressId)
      requires Valid()
      modifies this`serial
      ensures Valid() && id == old(serial) && serial == (old(serial) + 1) % IDS
    {
      id := serial;
      serial := (serial + 1) % IDS;
    }

    /** The entry is taken out before it is put back, so nothing is ever reported as replaced. */
    method UpdateInfo(id: IngressId, update: IngressInfo) returns (replaced: Option<IngressInfo>)
      modifies this`info
      ensures info == Updated(old(info), id, update)
      ensures replaced == None
    {
      if id in info {
        var stored := info[id];
        info := info - {id};
        replaced := Inserting(id);
        info := info[id := Merge(stored, update)];
      } else {
        replaced := Inserting(id);
        info := info[id := update];
      }
    }

    /** What an insertion under `id` would return. */
    function Inserting(id: IngressId): (r: Option<IngressInfo>)
      reads this
      ensures r.None? <==> id !in info
    {
      if id in info then Some(info[id]) else None
    }

    /** The entries are visited in any order. */
    method FindExistingBgpSession(query: IngressInfo) returns (r: Option<(IngressId, IngressInfo)>)
      ensures r.Some? ==> r.value.0 in info && info[r.value.0] == r.value.1 && MatchesBgpSession(r.value.1, query)
      ensures r.None? ==> forall id :: id in info ==> !MatchesBgpSession(info[id], query)
    {
      var ids := info.Keys;
      while ids != {}
        invariant ids <= info.Keys
        invariant forall id :: id in info && id !in ids ==> !MatchesBgpSession(info[id], query)
        decreases ids
      {
        var id :| id in ids;
        if MatchesBgpSession(info[id], query) {
          return Some((id, info[id]));
        }
        ids := ids - {id};
      }
      r := None;
    }

    /** Find and claim under one write lock, for peers and for routers. */
    method FindExistingAndClaim(kind: Kind, query: IngressInfo) returns (r: Option<(IngressId, IngressInfo)>)
      modifies this`info
      ensures Claims(old(info), kind, query, if r.Some? then Some(r.value.0) else None, info)
      ensures r.Some? ==> r.value.0 in info && info[r.value.0] == r.value.1
    {
      var ids := info.Keys;
      while ids != {}
        invariant info == old(info) && ids <= info.Keys
        invariant forall id :: id in info && id !in ids ==> !Claimable(kind, info[id], query)
        decreases ids
      {
        var id :| id in ids;
        if Claimable(kind, info[id], query) {
          info := info[id := info[id].(state := Some(Connected))];
          return Some((id, info[id]));
        }
        ids := ids - {id};
      }
      r := None;
    }

    method RemoveIfDisconnected(id: IngressId) returns (r: Option<IngressInfo>)
      modifies this`info
      ensures info == Swept(old(info), id)
      ensures r.Some? <==> id in old(info) && id !in info
      ensures r.Some? ==> r.value == old(info)[id]
    {
      if id in info && info[id].state == Some(Disconnected) {
        r := Some(info[id]);
        info := info - {id};
      } else {
        r := None;
      }
    }
  }
}

/** Sessions of BMP routers and of the peers behind them, each of which must have its id to
    itself, over every interleaving of the operations above. */
module Claims {
  import opened Ingress
  import opened Wrappers
  import opened Register

  type Holder = nat

  /** `issued` counts the ids drawn, starting at one as the counter does. */
  datatype World = World(issued: nat, reg: map<IngressId, IngressInfo>, held: set<(Holder, IngressId)>)

  /** The entry a router's connection gets before the router has said who it is. */
  function Provisional(parent: IngressId, addr: nat): IngressInfo {
    NO_INFO.(parent := Some(parent), remoteAddr := Some(addr), ingressType := Some(Bmp))
  }

  const UP := NO_INFO.(state := Some(Connected))

  datatype Action =
    | Draw(h: Holder)
    | Provide(h: Holder, id: IngressId, parent: IngressId, addr: nat)
    | Publish(h: Holder, id: IngressId, update: IngressInfo)
    | Release(h: Holder, id: IngressId, update: IngressInfo)
    | Discard(h: Holder, id: IngressId)
    | Claim(h: Holder, kind: Kind, query: IngressInfo, r: Option<IngressId>)
    | Restore(id: IngressId)            // the RIB marks an id Connected again
    | Sweep(id: IngressId)              // the periodic reclaim

  /** Only the holder of an id moves it away from Connected; a router says its name when it
      looks for its old id. */
  ghost predicate Step(w: World, a: Action, w': World) {
    match a
    case Draw(h) =>
      w' == w.(issued := w.issued + 1, held := w.held + {(h, w.issued % IDS)})
    case Provide(h, id, parent, addr) =>
      (h, id) in w.held && id !in w.reg && w' == w.(reg := Updated(w.reg, id, Provisional(parent, addr)))
    case Publish(h, id, update) =>
      (h, id) in w.held && update.state == Some(Connected) && w' == w.(reg := Updated(w.reg, id, update))
    case Release(h, id, update) =>
      && (h, id) in w.held && update.state.Some? && update.state != Some(Connected)
      && w' == w.(reg := Updated(w.reg, id, update), held := w.held - {(h, id)})
    case Discard(h, id) =>
      (h, id) in w.held && w' == w.(reg := w.reg - {id}, held := w.held - {(h, id)})
    case Claim(h, kind, query, r) =>
      && (kind.Router? ==> query.name.Some?)
      && Claims(w.reg, kind, query, r, w'.reg)
      && w' == w.(reg := w'.reg, held := if r.Some? then w.held + {(h, r.value)} else w.held)
    case Restore(id) => id < w.issued && w' == w.(reg := Updated(w.reg, id, UP))
    case Sweep(id) => w' == w.(reg := Swept(w.reg, id))
  }

  /** Held and registered means Connected, or not yet identified. */
  predicate Taken(info: IngressInfo) {
    info.state == Some(Connected) || (info.state.None? && info.name.None? && info.remoteAsn.None?)
  }

  ghost predicate Exclusive(w: World) {
    && (forall g, h, id :: (g, id) in w.held && (h, id) in w.held ==> g == h)
    && (forall h, id :: (h, id) in w.held ==> id < w.issued && (id in w.reg ==> Taken(w.reg[id])))
    && (forall id :: id in w.reg ==> id < w.issued)
  }

  /** A claim only ever returns an id that nobody holds. */
  lemma ClaimTakesFree(w: World, a: Action, w': World, h: Holder)
    requires Exclusive(w) && Step(w, a, w') && a.Claim? && a.r.Some?
    ensures (h, a.r.value) !in w.held
  {
  }

  lemma StepKept(w: World, a: Action, w': World)
    requires Exclusive(w) && Step(w, a, w') && w'.issued <= IDS
    ensures Exclusive(w')
  {
    if a.Claim? && a.r.Some? {
      forall h: Holder ensures (h, a.r.value) !in w.held {
        ClaimTakesFree(w, a, w', h);
      }
    }
  }

  /** Runs in which fewer than 2^32 ids are issued. */
  ghost predicate Run(run: seq<World>, actions: seq<Action>) {
    && |run| == |actions| + 1
    && run[0] == World(1, map[], {})
    && (forall k :: 0 <= k < |actions| ==> Step(run[k], actions[k], run[k + 1]))
    && (forall k :: 0 <= k < |run| ==> run[k].issued <= IDS)
  }

  lemma {:induction false} RunKept(run: seq<World>, actions: seq<Action>, k: nat)
    requires Run(run, actions) && k < |run|
    ensures Exclusive(run[k])
  {
    if k > 0 {
      RunKept(run, actions, k - 1);
      StepKept(run[k - 1], actions[k - 1], run[k]);
    }
  }

  /** No two sessions ever hold the same id. */
  lemma NoDoubleHold(run: seq<World>, actions: seq<Action>, k: nat, g: Holder, h: Holder, id: IngressId)
    requires Run(run, actions) && k < |run|
    requires (g, id) in run[k].held && (h, id) in run[k].held
    ensures g == h
  {
    RunKept(run, actions, k);
  }

  /** A held id keeps its entry until its holder lets go: neither a sweep, nor a claim, nor
      what others do to the register takes it away or makes it free to claim. */
  lemma HeldEntryStays(run: seq<World>, actions: seq<Action>, k: nat, h: Holder, id: IngressId)
    requires Run(run, actions) && k < |actions|
    requires (h, id) in run[k].held && (h, id) in run[k + 1].held && id in run[k].reg
    ensures id in run[k + 1].reg && Taken(run[k + 1].reg[id])
    ensures actions[k].Sweep? ==> run[k + 1].reg[id] == run[k].reg[id]
  {
    RunKept(run, actions, k);
    RunKept(run, actions, k + 1);
    assert Step(run[k], actions[k], run[k + 1]);
  }
}
