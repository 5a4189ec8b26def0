/** State entities and pure rules of the routing engine
    (crates/babel-protocol/src/engine.rs, engine/api.rs, engine/output.rs,
    engine/rib.rs:521-595, metric.rs). */
module EngineTypes {
  import opened Model
  import opened WirePrefix
  import opened WireTypes

  const SOURCE_GC_TIME_MS: nat := 180_000
  const REQUEST_RETRY_INITIAL_MS: nat := 2_000
  const REQUEST_RETRIES: u8 := 3
  const REQUEST_HOP_COUNT: u8 := 64
  const RECENT_REQUEST_MS: nat := 16_000
  const URGENT_TIMEOUT_MS: nat := 200
  const MAX_TRIGGERED_JITTER_MS: nat := 100

  datatype NeighborKey = NeighborKey(interface: string, address: IpAddr)

  /** A candidate is found by its route and the neighbour that announced it. */
  type CandidateKey = (RouteKey, NeighborKey)

  /** A source is a route as originated by one router. */
  type SourceKey = (RouteKey, RouterId)

  datatype Candidate = Candidate(
    routerId: RouterId, seqno: u16, advertised: u16, metric: u16, nextHop: IpAddr, intervalCs: u16, expires: u64)
  {
    function Offered(): Distance { Distance(seqno, advertised) }
  }

  type Candidates = map<CandidateKey, Candidate>

  datatype Source = Source(distance: Distance, expires: u64)

  type Sources = map<SourceKey, Source>

  datatype Origin = Origin(metric: u16, seqno: u16)

  type Selected = map<RouteKey, SelectedRoute>

  datatype PendingRequest = PendingRequest(
    seqno: u16, hopCount: u8, nextHop: NeighborKey, requester: Option<NeighborKey>, retriesLeft: u8, nextRetry: u64)

  datatype Selection = Selection(marginPercent: u8, marginMetric: u16, betterFor: u64)

  datatype Limits = Limits(maxNeighbors: nat, maxCandidates: nat, maxPerNeighbor: nat)

  datatype Ipv4NextHop = Auto | RequireIpv4 | AlwaysIpv6

  datatype InterfacePolicy = InterfacePolicy(v4Transport: bool, ipv4NextHop: Ipv4NextHop, etx: bool,
                                             helloIntervalCs: u16, updateIntervalCs: u16, splitHorizon: bool)

  datatype Interface = Interface(addresses: seq<IpAddr>, policy: InterfacePolicy, nextUpdate: u64)

  type Interfaces = map<string, Interface>

  /** Link quality as the built-in metrics see it: cost of receiving, cost the
      peer reports, RTT penalty. */
  datatype Neighbor = Neighbor(
    candidates: nat, rx: u16, tx: u16, penalty: u16, etx: bool, lastIhu: Option<u64>, ihuIntervalCs: u16)

  type Neighbors = map<NeighborKey, Neighbor>

  datatype Import = Import(
    key: RouteKey, neighbor: NeighborKey, nextHop: IpAddr, routerId: RouterId, seqno: u16, advertised: u16)

  datatype Announcement = Announcement(key: RouteKey, interface: string, routerId: RouterId, locallyOriginated: bool)

  datatype RoutePolicy = RoutePolicy(accept: Import -> bool, announce: Announcement -> bool)

  datatype Config = Config(
    routerId: RouterId, ipv4ViaIpv6: bool, limits: Limits, algebra: (u16, u16) -> u16,
    helloIntervalCs: u16, updateIntervalCs: u16, selection: Selection)

  /** What an event asks the host to do. */
  datatype Action =
    | Send(interface: string, destination: IpAddr, update: OutboundUpdate, deadline: u64)
    | Request(interface: string, destination: IpAddr, key: RouteKey, routerId: RouterId, seqno: u16, hopCount: u8,
              deadline: u64)
    | RoutesChanged(generation: u64, routes: Selected, unreachable: set<RouteKey>)
    | SequenceNumberChanged(sequenceNumber: u16)
    | InvalidatePendingSends

  // ----- timing

  function Urgent(now: u64): u64 { SatAdd(now, URGENT_TIMEOUT_MS) }

  function Triggered(now: u64, helloIntervalCs: u16): u64 { SatAdd(now, helloIntervalCs * 5) }

  /** How long a neighbour may believe an update: 3.5 intervals. */
  function Lifetime(from: u64, intervalCs: u16): u64 { SatAdd(from, intervalCs * 35) }

  // ----- link costs and metrics

  function LinkCost(n: Neighbor): u16 {
    var base :=
      if n.rx == INFINITY || n.tx == 0 || n.tx == INFINITY then INFINITY
      else if n.etx then Min((Max(n.tx, 256) * n.rx + 255) / 256, INFINITY)
      else n.tx;
    if base == INFINITY then INFINITY else Min(base + n.penalty, INFINITY)
  }

  /** `AdditiveMetric::extend`. */
  function AddCosts(advertised: u16, link: u16): u16 {
    if advertised == INFINITY || link == 0 || link == INFINITY then INFINITY else Min(advertised + link, INFINITY)
  }

  /** `safe_extend`: whatever the algebra, a finite result is worse than what was advertised. */
  function SafeExtend(algebra: (u16, u16) -> u16, advertised: u16, link: u16): (r: u16)
    ensures r != INFINITY ==> r > advertised && advertised != INFINITY && link != INFINITY && link != 0
  {
    if advertised == INFINITY || link == INFINITY || link == 0 then INFINITY
    else if algebra(advertised, link) <= advertised then INFINITY
    else algebra(advertised, link)
  }

  /** The guard changes nothing for the built-in algebra. */
  lemma AdditiveIsSafe(advertised: u16, link: u16)
    ensures SafeExtend(AddCosts, advertised, link) == AddCosts(advertised, link)
  {
  }

  // ----- prefixes never accepted from a neighbour

  predicate StartsWith(bits: seq<bool>, octets: Bytes) { Unpack(octets) <= bits }

  function ForbiddenDestination(d: IpNet): bool {
    if d.family == V4 then
      || (|d.bits| == 32 && (d.bits == Unpack([0, 0, 0, 0]) || d.bits == Unpack([127, 0, 0, 1])))
      || StartsWith(d.bits, [224])
    else StartsWith(d.bits, [0xff]) || StartsWith(d.bits, [0xfe, 0x80, 0, 0, 0, 0, 0, 0])
  }

  // ----- advertisements

  predicate UsableIpv4(a: IpAddr) {
    && a.family == V4 && |a.octets| == 4
    && a.octets != [0, 0, 0, 0] && a.octets[0] != 127 && !(224 <= a.octets[0] < 240) && a.octets != [255, 255, 255, 255]
  }

  /** Lexicographic order, as derived `Ord` compares octets and strings. */
  predicate LexLess(a: seq<int>, b: seq<int>) {
    if b == [] then false
    else if a == [] then true
    else a[0] < b[0] || (a[0] == b[0] && LexLess(a[1..], b[1..]))
  }

  function LowestIpv4(addresses: seq<IpAddr>): Option<IpAddr> {
    if addresses == [] then None
    else
      var n := |addresses| - 1;
      var rest := LowestIpv4(addresses[..n]);
      if !UsableIpv4(addresses[n]) then rest
      else if rest.Some? && !LexLess(addresses[n].octets, rest.value.octets) then rest
      else Some(addresses[n])
  }

  function FirstLinkLocal(addresses: seq<IpAddr>): Option<IpAddr> {
    if addresses == [] then None
    else if UnicastLinkLocal(addresses[0]) then Some(addresses[0])
    else FirstLinkLocal(addresses[1..])
  }

  function UpdateInterval(cfg: Config, interfaces: Interfaces, name: string): u16 {
    if name in interfaces then interfaces[name].policy.updateIntervalCs else cfg.updateIntervalCs
  }

  function MulticastAddress(v4Transport: bool): IpAddr {
    if v4Transport then IpAddr(V4, [224, 0, 0, 111])
    else IpAddr(V6, [0xff, 2, 0, 0, 0, 0, 0, 0, 0, 0, 0, 0, 0, 1, 0, 6])
  }

  function Ipv4HopFor(interfaces: Interfaces, name: string): Option<IpAddr> {
    if name !in interfaces || interfaces[name].policy.ipv4NextHop == AlwaysIpv6 then None
    else LowestIpv4(interfaces[name].addresses)
  }

  /** No next hop the receiver could use exists on this interface. */
  predicate Unavailable(cfg: Config, interfaces: Interfaces, name: string, key: RouteKey) {
    var ipv4 := Ipv4HopFor(interfaces, name);
    var ipv6 := if name in interfaces then FirstLinkLocal(interfaces[name].addresses) else None;
    var isV4 := key.destination.family == V4;
    || (isV4 && ipv4.None? && !cfg.ipv4ViaIpv6)
    || (isV4 && name in interfaces && interfaces[name].policy.ipv4NextHop == RequireIpv4 && ipv4.None?)
    || (name in interfaces && interfaces[name].policy.v4Transport && (!isV4 || ipv4.None?) && ipv6.None?)
  }

  /** The metric an interface announces: infinite when denied or without next hop. */
  function AnnouncedMetric(cfg: Config, policy: RoutePolicy, interfaces: Interfaces, name: string, key: RouteKey,
                           routerId: RouterId, metric: u16): (m: u16)
    ensures m == metric || m == INFINITY
  {
    if Unavailable(cfg, interfaces, name, key)
       || (metric != INFINITY && !policy.announce(Announcement(key, name, routerId, routerId == cfg.routerId))) then
         INFINITY
    else metric
  }

  /** `Engine::advertisement`. */
  function Advertise(cfg: Config, policy: RoutePolicy, interfaces: Interfaces, name: string, key: RouteKey,
                     routerId: RouterId, seqno: u16, metric: u16): (u: OutboundUpdate)
    ensures u.key == Some(key) && u.routerId == Some(routerId) && u.seqno == seqno
    ensures u.metric == AnnouncedMetric(cfg, policy, interfaces, name, key, routerId, metric)
  {
    var ipv4 := Ipv4HopFor(interfaces, name);
    var isV4 := key.destination.family == V4;
    var announced := AnnouncedMetric(cfg, policy, interfaces, name, key, routerId, metric);
    var nextHop :=
      if announced == INFINITY then None
      else if isV4 && ipv4.Some? then ipv4
      else if name in interfaces && interfaces[name].policy.v4Transport then FirstLinkLocal(interfaces[name].addresses)
      else None;
    OutboundUpdate(Some(key), Some(routerId), nextHop, UpdateInterval(cfg, interfaces, name), seqno, announced,
                   isV4 && announced != INFINITY && ipv4.None?, [])
  }

  function Retraction(key: RouteKey, routerId: Option<RouterId>, intervalCs: u16, seqno: u16): OutboundUpdate {
    OutboundUpdate(Some(key), routerId, None, intervalCs, seqno, INFINITY, false, [])
  }

  function FromCandidate(ck: CandidateKey, c: Candidate): SelectedRoute {
    SelectedRoute(ck.0, c.routerId, c.seqno, c.metric, c.nextHop, ck.1.interface)
  }
}
