/** The information the ingress register keeps about one source of routes.

    Every field is optional. The fields that no operation of the register compares (unit
    name, file name, description, local ASN and the two capability lists) are merged like
    all the others and are left out. Values that are only ever compared for equality are
    numbers. */
module Ingress {
  import opened Wrappers

  type IngressId = nat

  datatype IngressType = Bmp | BgpViaBmp | Bgp | Mrt | Rtr

  datatype IngressState = Connected | Disconnected | NonNetwork

  datatype IngressInfo = IngressInfo(
    ingressType: Option<IngressType>,
    parent: Option<IngressId>,
    state: Option<IngressState>,
    remoteAddr: Option<nat>,
    remoteAsn: Option<nat>,
    ribType: Option<nat>,
    peerRibType: Option<nat>,
    name: Option<nat>,
    peerType: Option<nat>,
    distinguisher: Option<nat>,
    vrfName: Option<nat>)

  const NO_INFO := IngressInfo(None, None, None, None, None, None, None, None, None, None, None)

  /** Field by field, what is set in the update replaces what was there. */
  function Merge(stored: IngressInfo, update: IngressInfo): IngressInfo {
    IngressInfo(
      update.ingressType.Else(stored.ingressType),
      update.parent.Else(stored.parent),
      update.state.Else(stored.state),
      update.remoteAddr.Else(stored.remoteAddr),
      update.remoteAsn.Else(stored.remoteAsn),
      update.ribType.Else(stored.ribType),
      update.peerRibType.Else(stored.peerRibType),
      update.name.Else(stored.name),
      update.peerType.Else(stored.peerType),
      update.distinguisher.Else(stored.distinguisher),
      update.vrfName.Else(stored.vrfName))
  }

  /** The register after an update: merged into what is there, inserted as it is otherwise. */
  function Updated(reg: map<IngressId, IngressInfo>, id: IngressId, update: IngressInfo)
    : map<IngressId, IngressInfo>
  {
    reg[id := if id in reg then Merge(reg[id], update) else update]
  }

  /** A mandatory field must be set and equal. */
  predicate Given<T(==)>(stored: Option<T>, asked: Option<T>) {
    stored.Some? && stored == asked
  }

  /** A native BGP session is found by remote address, ASN and type, in any state. */
  predicate MatchesBgpSession(info: IngressInfo, query: IngressInfo) {
    && Given(info.remoteAddr, query.remoteAddr)
    && Given(info.remoteAsn, query.remoteAsn)
    && Given(info.ingressType, query.ingressType)
  }

  /** A peer below a BMP router; a peer that is up is never handed out again. */
  predicate MatchesIdlePeer(info: IngressInfo, query: IngressInfo) {
    && info.state != Some(Connected)
    && Given(info.parent, query.parent)
    && Given(info.remoteAddr, query.remoteAddr)
    && Given(info.remoteAsn, query.remoteAsn)
    && info.ribType == query.ribType
    && info.peerRibType == query.peerRibType
    && info.peerType == query.peerType
    && info.distinguisher == query.distinguisher
    && info.vrfName == query.vrfName
  }

  /** A BMP router; one that is up is never handed out again. */
  predicate MatchesIdleRouter(info: IngressInfo, query: IngressInfo) {
    && info.state != Some(Connected)
    && Given(info.parent, query.parent)
    && Given(info.remoteAddr, query.remoteAddr)
    && Given(info.ingressType, query.ingressType)
    && info.name == query.name
  }
}
