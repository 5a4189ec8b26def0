/** What the engine announces is what the wire round trip is about
    (crates/babel-protocol/src/engine/output.rs). */
module EngineOutput {
  import opened Model
  import opened WirePrefix
  import opened WireTypes
  import opened WireRoundTrip
  import opened EngineTypes
  import opened Feasibility
  import opened Announcing
  import opened Hysteresis
  import opened Reselection
  import opened Switching
  import opened Updating
  import opened Undercutting
  import opened EngineInvariants

  // ----- next hops

  lemma {:induction false} LowestIpv4IsLeast(addresses: seq<IpAddr>)
    ensures var r := LowestIpv4(addresses);
      && (r.None? <==> forall a :: a in addresses ==> !UsableIpv4(a))
      && (r.Some? ==> && r.value in addresses && UsableIpv4(r.value)
                      && forall a :: a in addresses && UsableIpv4(a) ==> !LexLess(a.octets, r.value.octets))
  {
    hide LexLess, UsableIpv4;
    if addresses != [] {
      var n := |addresses| - 1;
      var front, last := addresses[..n], addresses[n];
      LowestIpv4IsLeast(front);
      assert addresses == front + [last];
      LexIrreflexive(last.octets);
      var rest := LowestIpv4(front);
      if UsableIpv4(last) && rest.Some? && LexLess(last.octets, rest.value.octets) {
        forall a | a in front && UsableIpv4(a) ensures !LexLess(a.octets, last.octets) {
          if LexLess(a.octets, last.octets) { LexTransitive(a.octets, last.octets, rest.value.octets); }
        }
      }
    }
  }

  lemma {:induction false} FirstLinkLocalIsThere(addresses: seq<IpAddr>)
    ensures var r := FirstLinkLocal(addresses);
      && (r.None? <==> forall a :: a in addresses ==> !UnicastLinkLocal(a))
      && (r.Some? ==> r.value in addresses && UnicastLinkLocal(r.value))
  {
    hide UnicastLinkLocal;
    if addresses != [] {
      FirstLinkLocalIsThere(addresses[1..]);
      assert addresses == [addresses[0]] + addresses[1..];
    }
  }

  /** An address packets on this interface come from. */
  predicate LeavesFrom(interfaces: Interfaces, name: string, source: IpAddr) {
    source.family == if name in interfaces && interfaces[name].policy.v4Transport then V4 else V6
  }

  /** A finite announcement leads to a next hop of the family its encoding calls for, always
      an address of the interface when it is named, and carries the interface's interval. */
  lemma AdvertisedNextHop(cfg: Config, policy: RoutePolicy, interfaces: Interfaces, name: string, key: RouteKey,
                          routerId: RouterId, seqno: u16, metric: u16, source: IpAddr)
    requires LeavesFrom(interfaces, name, source)
    ensures var u := Advertise(cfg, policy, interfaces, name, key, routerId, seqno, metric);
      && u.intervalCs == UpdateInterval(cfg, interfaces, name) && u.subTlvs == []
      && (u.v4ViaV6 ==> key.destination.family == V4 && cfg.ipv4ViaIpv6 && u.metric != INFINITY)
      && (u.metric == INFINITY ==> u.nextHop.None?)
      && (u.metric != INFINITY ==> (if u.nextHop.Some? then u.nextHop.value else source).family == NeededFamily(u))
      && (u.nextHop.Some? ==>
            && name in interfaces && u.nextHop.value in interfaces[name].addresses
            && (UsableIpv4(u.nextHop.value) || UnicastLinkLocal(u.nextHop.value)))
  {
    hide UsableIpv4, UnicastLinkLocal;
    if name in interfaces {
      LowestIpv4IsLeast(interfaces[name].addresses);
      FirstLinkLocalIsThere(interfaces[name].addresses);
      var ipv4, ipv6 := LowestIpv4(interfaces[name].addresses), FirstLinkLocal(interfaces[name].addresses);
      if ipv4.Some? { UsableIsIpv4(ipv4.value); }
      if ipv6.Some? { LinkLocalIsIpv6(ipv6.value); }
    }
  }

  lemma UsableIsIpv4(a: IpAddr)
    requires UsableIpv4(a)
    ensures a.family == V4 && Representable(a)
  {
  }

  lemma LinkLocalIsIpv6(a: IpAddr)
    requires UnicastLinkLocal(a)
    ensures a.family == V6
  {
  }

  // ----- every Update fits

  /** An announcement arrives as it was meant, unless it names a link-local next hop
      outside fe80::/64, which the wire cannot carry. */
  lemma AdvertiseFits(cfg: Config, policy: RoutePolicy, interfaces: Interfaces, name: string, key: RouteKey,
                      routerId: RouterId, seqno: u16, metric: u16, source: IpAddr)
    requires ValidKey(key) && ValidRouterId(routerId) && LeavesFrom(interfaces, name, source)
    ensures var u := Advertise(cfg, policy, interfaces, name, key, routerId, seqno, metric);
      UpdateFits(u, source) <==> (u.nextHop.Some? ==> Representable(u.nextHop.value))
  {
    hide ValidKey, ValidRouterId, Representable, UsableIpv4, UnicastLinkLocal, AnnouncedMetric, LeavesFrom;
    AdvertisedNextHop(cfg, policy, interfaces, name, key, routerId, seqno, metric, source);
  }

  /** Link-local addresses on the interface are in fe80::/64. */
  predicate OrdinaryLinkLocals(interfaces: Interfaces) {
    forall name, a :: name in interfaces && a in interfaces[name].addresses && UnicastLinkLocal(a) ==> Representable(a)
  }

  /** Keys and Router-IDs as their types hold them. */
  predicate ProperRoutes(o: Outlet, originated: Originated, selected: Selected) {
    && ValidRouterId(o.cfg.routerId) && (forall k :: k in originated ==> ValidKey(k))
    && forall k :: k in selected ==> ValidKey(k) && ValidRouterId(selected[k].routerId)
  }

  ghost predicate ActionFits(o: Outlet, a: Action) {
    a.Send? && forall source :: LeavesFrom(o.interfaces, a.interface, source) ==> Fits(OutUpdate(a.update), source)
  }

  lemma AnnounceFits(o: Outlet, name: string, destination: IpAddr, k: RouteKey, routerId: RouterId, d: Distance,
                     deadline: u64)
    requires OrdinaryLinkLocals(o.interfaces) && ValidKey(k) && ValidRouterId(routerId)
    ensures ActionFits(o, Announce(o, name, destination, k, routerId, d, deadline))
  {
    hide ValidKey, ValidRouterId, UpdateFits, Representable, UsableIpv4, UnicastLinkLocal, LeavesFrom, Advertise;
    var u := Advertise(o.cfg, o.policy, o.interfaces, name, k, routerId, d.seqno, d.metric);
    forall source | LeavesFrom(o.interfaces, name, source) ensures UpdateFits(u, source) {
      AdvertisedNextHop(o.cfg, o.policy, o.interfaces, name, k, routerId, d.seqno, d.metric, source);
      if u.nextHop.Some? && UsableIpv4(u.nextHop.value) { UsableIsIpv4(u.nextHop.value); }
      AdvertiseFits(o.cfg, o.policy, o.interfaces, name, k, routerId, d.seqno, d.metric, source);
    }
  }

  lemma RetractionFits(o: Outlet, a: Action, k: RouteKey, routerId: Option<RouterId>, intervalCs: u16, seqno: u16)
    requires ValidKey(k) && a.Send? && a.update == Retraction(k, routerId, intervalCs, seqno)
    ensures ActionFits(o, a)
  {
  }

  lemma OwnSendFits(o: Outlet, originated: Originated, selected: Selected, name: string, deadline: u64, k: RouteKey)
    requires OrdinaryLinkLocals(o.interfaces) && ProperRoutes(o, originated, selected) && k in originated
    ensures ActionFits(o, OwnSend(o, originated, name, deadline, k))
  {
    hide ActionFits, ValidKey, ValidRouterId, OrdinaryLinkLocals;
    var d := Distance(originated[k].seqno, originated[k].metric);
    AnnounceFits(o, name, Group(o, name), k, o.cfg.routerId, d, deadline);
  }

  lemma LearnedSendFits(o: Outlet, originated: Originated, selected: Selected, name: string, deadline: u64, k: RouteKey)
    requires OrdinaryLinkLocals(o.interfaces) && ProperRoutes(o, originated, selected) && k in selected
    ensures ActionFits(o, LearnedSend(o, selected, name, deadline, k))
  {
    hide ActionFits, ValidKey, ValidRouterId, OrdinaryLinkLocals;
    var d := Distance(selected[k].seqno, selected[k].metric);
    AnnounceFits(o, name, Group(o, name), k, selected[k].routerId, d, deadline);
  }

  /** Every Update of `send_updates` means the same at the receiver. */
  lemma UpdateSendsFit(o: Outlet, originated: Originated, selected: Selected, gone: set<RouteKey>, sequenceNumber: u16,
                       only: Option<RouteKey>, names: set<string>, deadline: Option<u64>, now: u64, a: Action)
    requires OrdinaryLinkLocals(o.interfaces) && ProperRoutes(o, originated, selected)
    requires forall k :: k in gone ==> ValidKey(k)
    requires a in UpdateSends(o, originated, selected, gone, sequenceNumber, only, names, deadline, now)
    ensures ActionFits(o, a)
  {
    hide ActionFits, ValidKey, OrdinaryLinkLocals, Announce, Suppressed, OwnSend, LearnedSend, Group;
    var name :| name in names && name in o.interfaces
      && a in SendsOn(o, originated, selected, gone, sequenceNumber, only, name, DeadlineOn(o, name, deadline, now));
    var due := DeadlineOn(o, name, deadline, now);
    if a in OwnSends(o, originated, only, name, due) {
      var k :| k in originated && a == OwnSend(o, originated, name, due, k);
      OwnSendFits(o, originated, selected, name, due, k);
    } else if a in LearnedSends(o, selected, only, name, due) {
      var k :| k in selected && a == LearnedSend(o, selected, name, due, k);
      LearnedSendFits(o, originated, selected, name, due, k);
    } else {
      var none := Distance(sequenceNumber, INFINITY);
      var k :| k in gone && a == Announce(o, name, Group(o, name), k, o.cfg.routerId, none, due);
      AnnounceFits(o, name, Group(o, name), k, o.cfg.routerId, none, due);
    }
  }

  /** So does every triggered Update, */
  lemma ChangeSendsFit(o: Outlet, selected: Selected, changed: set<RouteKey>, now: u64, a: Action)
    requires OrdinaryLinkLocals(o.interfaces) && ProperRoutes(o, map[], selected) && changed <= selected.Keys
    requires a in ChangeSends(o, selected, changed, now)
    ensures ActionFits(o, a)
  {
    hide ActionFits, ValidKey, OrdinaryLinkLocals, Suppressed, LearnedSend, ProperRoutes;
    var k, name :| k in changed && name in o.interfaces && a == LearnedSend(o, selected, name, Urgent(now), k);
    LearnedSendFits(o, map[], selected, name, Urgent(now), k);
  }

  /** every retraction of a lost route, */
  lemma RetractionsFit(o: Outlet, lost: set<RouteKey>, before: Selected, now: u64, a: Action)
    requires ProperRoutes(o, map[], before) && lost <= before.Keys && a in Retractions(o, lost, before, now)
    ensures ActionFits(o, a)
  {
    hide ActionFits, ValidKey;
    var k, name :| k in lost && name in o.interfaces
      && a == Send(name, Group(o, name), Retraction(k, Some(o.cfg.routerId), o.interfaces[name].policy.updateIntervalCs,
                                                    before[k].seqno), Urgent(now));
    RetractionFits(o, a, k, Some(o.cfg.routerId), o.interfaces[name].policy.updateIntervalCs, before[k].seqno);
  }

  /** every reply to a route request, */
  lemma RouteReplyFits(o: Outlet, originated: Originated, selected: Selected, sequenceNumber: u16, key: RouteKey,
                       to: NeighborKey, now: u64)
    requires OrdinaryLinkLocals(o.interfaces) && ProperRoutes(o, originated, selected) && ValidKey(key)
    ensures ActionFits(o, RouteReply(o, o.cfg.routerId, originated, selected, sequenceNumber, key, to, now))
  {
    hide ActionFits, ValidKey, ValidRouterId, OrdinaryLinkLocals, Announce;
    if key in originated {
      var d := Distance(originated[key].seqno, originated[key].metric);
      AnnounceFits(o, to.interface, to.address, key, o.cfg.routerId, d, Urgent(now));
    } else if key in selected {
      var d := Distance(selected[key].seqno, selected[key].metric);
      AnnounceFits(o, to.interface, to.address, key, selected[key].routerId, d, Urgent(now));
    } else {
      var interval := UpdateInterval(o.cfg, o.interfaces, to.interface);
      var a := RouteReply(o, o.cfg.routerId, originated, selected, sequenceNumber, key, to, now);
      RetractionFits(o, a, key, None, interval, sequenceNumber);
    }
  }

  /** every answer to a pending request, */
  lemma AnswersFit(o: Outlet, pending: Pending, key: RouteKey, routerId: RouterId, d: Distance, now: u64, a: Action)
    requires OrdinaryLinkLocals(o.interfaces) && ValidKey(key) && ValidRouterId(routerId)
    requires a in Answers(o, pending, key, routerId, d, now)
    ensures ActionFits(o, a)
  {
    hide ActionFits, ValidKey, ValidRouterId, OrdinaryLinkLocals, Satisfies, Announce;
    var sk :| sk in pending && pending[sk].requester.Some?
      && a == Announce(o, pending[sk].requester.value.interface, pending[sk].requester.value.address, key, routerId, d,
                       Urgent(now));
    var to := pending[sk].requester.value;
    AnnounceFits(o, to.interface, to.address, key, routerId, d, Urgent(now));
  }

  /** every answer to a seqno request, */
  lemma AnswerToFits(o: Outlet, originated: Originated, selected: Selected, key: RouteKey, routerId: RouterId,
                     to: NeighborKey, now: u64)
    requires key in selected || (key in originated && routerId != o.cfg.routerId)
    requires OrdinaryLinkLocals(o.interfaces) && ProperRoutes(o, originated, selected)
    ensures ActionFits(o, AnswerTo(o, o.cfg.routerId, originated, selected, key, routerId, to, now))
  {
    hide ActionFits, ValidKey, ValidRouterId, OrdinaryLinkLocals;
    if key in originated && routerId != o.cfg.routerId {
      var d := Distance(originated[key].seqno, originated[key].metric);
      AnnounceFits(o, to.interface, to.address, key, o.cfg.routerId, d, Urgent(now));
    } else {
      var d := Distance(selected[key].seqno, selected[key].metric);
      AnnounceFits(o, to.interface, to.address, key, selected[key].routerId, d, Urgent(now));
    }
  }

  /** and every retraction of a key that changed its router and has no route left. */
  lemma RetractsFit(o: Outlet, keys: set<RouteKey>, sequenceNumber: u16, now: u64, a: Action)
    requires (forall k :: k in keys ==> ValidKey(k)) && a in Retracts(o, keys, sequenceNumber, now)
    ensures ActionFits(o, a)
  {
    hide ActionFits, ValidKey;
    var k, name :| k in keys && name in o.interfaces
      && a == Send(name, Group(o, name), Retraction(k, Some(o.cfg.routerId), o.interfaces[name].policy.updateIntervalCs,
                                                    sequenceNumber), Urgent(now));
    RetractionFits(o, a, k, Some(o.cfg.routerId), o.interfaces[name].policy.updateIntervalCs, sequenceNumber);
  }

  // ----- the routes stay proper

  predicate ProperCandidates(cands: Candidates) {
    forall ck :: ck in cands ==> ValidKey(ck.0) && ValidRouterId(cands[ck].routerId)
  }

  predicate ProperSelected(selected: Selected) {
    forall k :: k in selected ==> ValidKey(k) && ValidRouterId(selected[k].routerId)
  }

  predicate ProperTables(v: View) {
    && ProperCandidates(v.candidates) && ProperSelected(v.selected)
    && forall k :: k in v.originated ==> ValidKey(k)
  }

  predicate ProperUpdate(u: ResolvedUpdate) {
    (u.key.Some? ==> ValidKey(u.key.value)) && (u.routerId.Some? ==> ValidRouterId(u.routerId.value))
  }

  /** Keys and Router-IDs as a decoded packet or a configuration holds them. */
  predicate ProperEvent(ev: Event) {
    match ev
    case PacketReceived(_, _, tlvs, _, _) =>
      forall i :: 0 <= i < |tlvs| && tlvs[i].Update? ==> ProperUpdate(tlvs[i].update)
    case Originate(key, _, _) => ValidKey(key)
    case ReplaceOrigins(origins, _) => forall k :: k in origins ==> ValidKey(k)
    case _ => true
  }

  lemma SubduedIsProper(cands: Candidates, cands': Candidates)
    requires ProperCandidates(cands) && Subdued(cands, cands')
    ensures ProperCandidates(cands')
  {
    hide ValidKey, ValidRouterId;
  }

  lemma UpdateIsProper(g: Ground, cands: Candidates, nk: NeighborKey, u: ResolvedUpdate, now: u64)
    requires ProperCandidates(cands) && ProperUpdate(u)
    ensures ProperCandidates(AfterUpdate(g, cands, nk, u, now))
  {
    hide ValidKey, ValidRouterId, ForbiddenDestination, Permits, NoRoom, Regresses, SafeExtend, LinkCost;
  }

  lemma {:induction false} TrailIsProper(o: Outlet, selected: Selected, nk: NeighborKey, tlvs: seq<Tlv>, now: u64,
                                         trail: seq<Snap>, n: nat)
    requires Applied(o, selected, nk, tlvs, now, trail) && n < |trail| && ProperCandidates(trail[0].candidates)
    requires forall i :: 0 <= i < |tlvs| && tlvs[i].Update? ==> ProperUpdate(tlvs[i].update)
    ensures ProperCandidates(trail[n].candidates)
  {
    hide ProperCandidates, ProperUpdate, AfterUpdate, SourcesAfter, Written;
    if n > 0 {
      TrailIsProper(o, selected, nk, tlvs, now, trail, n - 1);
      var i := n - 1;
      assert TlvStep(o, selected, nk, tlvs[i], now, trail[i], trail[i + 1]);
      if tlvs[i].Update? {
        UpdateIsProper(Ground(o.cfg, o.policy, trail[i].neighbors, trail[i].sources, selected), trail[i].candidates, nk,
                       tlvs[i].update, now);
      }
    }
  }

  lemma PacketIsProper(cfg: Config, nk: NeighborKey, tlvs: seq<Tlv>, now: u64, sense: Sense, a: View, m: Memory,
                       trail: seq<Snap>, b: View, m': Memory)
    requires PacketLook(cfg, nk, tlvs, now, sense, a, m, trail, b, m') && ProperCandidates(a.candidates)
    requires forall i :: 0 <= i < |tlvs| && tlvs[i].Update? ==> ProperUpdate(tlvs[i].update)
    ensures ProperCandidates(b.candidates)
  {
    hide ProperCandidates, ProperUpdate, OneLook, Applied, Greeted, Heard, OnlyAt, CostOf, Reprice;
    RepriceIsSubdued(a.candidates, cfg.algebra, trail[0].neighbors, {nk});
    SubduedIsProper(a.candidates, Reprice(a.candidates, cfg.algebra, trail[0].neighbors, {nk}));
    TrailIsProper(Outlet(cfg, a.policy, a.interfaces), a.selected, nk, tlvs, now, trail, |tlvs|);
  }

  lemma LookIsProper(cfg: Selection, now: u64, cands: Candidates, seen: Sources, s: Selected, m: Memory, s': Selected,
                     m': Memory)
    requires OneLook(cfg, now, cands, seen, s, m, s', m') && ProperCandidates(cands) && ProperSelected(s)
    ensures ProperSelected(s')
  {
    hide ValidKey, ValidRouterId, IsCurrent, IsBest, Decide, Taken, Eligible;
    if s' != s || m' != m {
      forall k | k in s' ensures ValidKey(k) && ValidRouterId(s'[k].routerId) {
        assert KeyReselected(cfg, cands, seen, s, m, now, k, s', m');
        var cur, best :| Chose(cfg, cands, seen, s, m, now, k, cur, best, s', m');
        ChosenThere(cands, seen, s, k, cur, best);
        TakenIsEligible(cfg, cands, seen, s, m, now, k, cur, best);
      }
    }
  }

  lemma StagesAreProper(cfg: Config, ev: Event, interfaces: Interfaces, a: Stage, x: Stage, y: Stage, told: Sources,
                        b: Stage)
    requires ev.InterfacePolicyChanged? && ev.name in interfaces
    requires Restaged(cfg, ev, interfaces, a, x, y, told, b) && ProperCandidates(b.candidates)
    requires ProperCandidates(a.candidates) && ProperSelected(a.selected)
    ensures ProperSelected(b.selected)
  {
    hide ProperCandidates, ProperSelected, Reselected, Written, AfterClock, Rebuilt, Reprice, WithoutNeighbors,
         OnInterface, Collect;
    if x != a {
      FewerAreProper(a.candidates, OnInterface(a.neighbors, ev.name));
      LookIsProper(cfg.selection, ev.now, x.candidates, a.sources, a.selected, a.memory, x.selected, x.memory);
    }
    if y != x {
      RepriceIsSubdued(x.candidates, cfg.algebra, y.neighbors, y.neighbors.Keys);
      SubduedIsProper(x.candidates, y.candidates);
      LookIsProper(cfg.selection, ev.now, y.candidates, x.sources, x.selected, x.memory, y.selected, y.memory);
    }
    LookIsProper(cfg.selection, ev.now, b.candidates, Collect(told, ev.now), y.selected, y.memory, b.selected,
                 b.memory);
  }

  lemma FewerAreProper(cands: Candidates, gone: set<NeighborKey>)
    requires ProperCandidates(cands)
    ensures ProperCandidates(WithoutNeighbors(cands, gone))
  {
    hide ValidKey, ValidRouterId;
  }

  /** Every event the engine handles keeps keys and Router-IDs proper, as `TryHandle` describes it. */
  lemma ProperIsKept(cfg: Config, ev: Event, a: View, m: Memory, b: View, m': Memory)
    requires ProperTables(a) && ProperEvent(ev)
    requires Performed(cfg, ev, a, b) && Evolved(cfg, ev, a, m, b, m')
      && Accounted(Rules(cfg, a.policy), ev, a.candidates, b.candidates)
    requires !OfOrigins(ev) ==> b.originated.Keys == a.originated.Keys
    ensures ProperTables(b)
  {
    hide ProperCandidates, ProperSelected, ValidKey;
    CandidatesStayProper(cfg, ev, a, m, b, m');
    SelectedStaysProper(cfg, ev, a, m, b, m');
    OriginsStayProper(cfg, ev, a, b);
  }

  lemma CandidatesStayProper(cfg: Config, ev: Event, a: View, m: Memory, b: View, m': Memory)
    requires ProperCandidates(a.candidates) && ProperEvent(ev)
    requires Performed(cfg, ev, a, b) && Evolved(cfg, ev, a, m, b, m')
      && Accounted(Rules(cfg, a.policy), ev, a.candidates, b.candidates)
    ensures ProperCandidates(b.candidates)
  {
    hide ProperCandidates, ProperUpdate, Subdued, Traced, Admits;
    if ev.PacketReceived? {
      var nk := NeighborKey(ev.interface, ev.source);
      if Admits(cfg, a.interfaces, a.neighbors, nk, ev.tlvs) {
        var trail: seq<Snap> :| PacketLook(cfg, nk, ev.tlvs, ev.now, ev.sense, a, m, trail, b, m');
        PacketIsProper(cfg, nk, ev.tlvs, ev.now, ev.sense, a, m, trail, b, m');
      }
    } else {
      SubduedIsProper(a.candidates, b.candidates);
    }
  }

  lemma SelectedStaysProper(cfg: Config, ev: Event, a: View, m: Memory, b: View, m': Memory)
    requires ProperCandidates(a.candidates) && ProperSelected(a.selected) && ProperCandidates(b.candidates)
    requires Evolved(cfg, ev, a, m, b, m')
    ensures ProperSelected(b.selected)
  {
    hide ProperCandidates, ProperSelected, Admits, Reselected, Collect, Processed, Restaged;
    if ev.PacketReceived? {
      var nk := NeighborKey(ev.interface, ev.source);
      if Admits(cfg, a.interfaces, a.neighbors, nk, ev.tlvs) {
        var trail: seq<Snap> :| PacketLook(cfg, nk, ev.tlvs, ev.now, ev.sense, a, m, trail, b, m');
        LookIsProper(cfg.selection, ev.now, b.candidates, trail[|ev.tlvs|].sources, a.selected, m, b.selected, m');
      }
    } else if ev.InterfacePolicyChanged? {
      if ev.name in a.interfaces {
        var x, y, told :| Restaged(cfg, ev, a.interfaces, StageOf(a, m), x, y, told, StageOf(b, m'));
        StagesAreProper(cfg, ev, a.interfaces, StageOf(a, m), x, y, told, StageOf(b, m'));
      }
    } else {
      var seen := if Clocks(ev) then Collect(a.sources, ev.now) else a.sources;
      LookIsProper(cfg.selection, ev.now, b.candidates, seen, a.selected, m, b.selected, m');
    }
  }

  lemma OriginsStayProper(cfg: Config, ev: Event, a: View, b: View)
    requires (forall k :: k in a.originated ==> ValidKey(k)) && ProperEvent(ev) && Performed(cfg, ev, a, b)
    requires !OfOrigins(ev) ==> b.originated.Keys == a.originated.Keys
    ensures forall k :: k in b.originated ==> ValidKey(k)
  {
    hide ValidKey, GetsWorse, Processed, Admits;
    if !OfOrigins(ev) {
      forall k | k in b.originated ensures ValidKey(k) { assert k in a.originated.Keys; }
    }
  }
}
