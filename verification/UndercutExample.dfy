/** An engine state and a packet that cost a selected route its feasibility
    condition (crates/babel-protocol/src/engine/rib.rs:135-164, 215-232): a
    neighbour waits for a newer sequence number, another neighbour brings it
    first, and hysteresis keeps the route that does not have it yet. */
module UndercutExample {
  import opened Model
  import opened WirePrefix
  import opened WireTypes
  import opened EngineTypes
  import opened Hysteresis
  import opened Feasibility
  import opened Reselection
  import opened Switching
  import opened Bookkeeping
  import opened Announcing
  import opened Withdrawal
  import opened Updating
  import opened Undercutting
  import opened EngineInvariants
  import opened Engines

  function LinkLocal(host: u8): IpAddr { IpAddr(V6, [0xfe, 0x80, 0, 0, 0, 0, 0, 0, 0, 0, 0, 0, 0, 0, 0, host]) }

  function At(host: u8): NeighborKey { NeighborKey("eth0", LinkLocal(host)) }

  const SELF := RouterId([0, 0, 0, 0, 0, 0, 0, 9])
  const ORIGIN := RouterId([0, 0, 0, 0, 0, 0, 0, 7])
  const KEY := RouteKey(IpNet(V6, [false, false, true]), None)
  const NOW: u64 := 50_000

  function Settings(): Config {
    Config(SELF, true, Limits(8, 8, 8), AddCosts, 400, 1600, Selection(0, 96, 10_000))
  }

  function Anything(): RoutePolicy { RoutePolicy(i => true, a => true) }

  /** Numbers from 0 on, and each next hop belongs to the neighbour of that address. */
  function World(): Env { Env(sk => 0, (i, h) => h) }

  function Wire(): Interfaces {
    map["eth0" := Interface([LinkLocal(9)], InterfacePolicy(false, Auto, false, 400, 1600, false), 60_000)]
  }

  function Peer(candidates: nat): Neighbor { Neighbor(candidates, 96, 10, 0, false, Some(45_000), 1200) }

  /** Neighbours 1, 2 and 3; the route in use is neighbour 1's. */
  function Peers(): Neighbors { map[At(1) := Peer(1), At(2) := Peer(0), At(3) := Peer(0)] }

  function InUse(): Candidate { Candidate(ORIGIN, 1, 30, 40, LinkLocal(1), 1600, 90_000) }

  function Offers(): Candidates { map[(KEY, At(1)) := InUse()] }

  function Chosen(): Selected { map[KEY := FromCandidate((KEY, At(1)), InUse())] }

  /** The route in use has been announced at 40. */
  function Announced(): Sources { map[(KEY, ORIGIN) := Source(Distance(1, 40), 200_000)] }

  /** Neighbour 3 waits for number 2; the request went to neighbour 1. */
  function Waits(): Pending { map[(KEY, ORIGIN) := PendingRequest(2, 63, At(1), Some(At(3)), 3, 52_000)] }

  function Kept(): Memory { Memory(map[], map[], {KEY}) }

  /** Neighbour 2 offers number 2 at 20. */
  function News(): ResolvedUpdate {
    ResolvedUpdate(Some(KEY), Some(ORIGIN), Some(LinkLocal(2)), 1600, 2, 20, false, [])
  }

  // ----- the state keeps every promise between events

  lemma HostsDiffer(x: u8, y: u8)
    ensures At(x) == At(y) <==> x == y
    ensures LinkLocal(x) == LinkLocal(y) <==> x == y
  {
    assert LinkLocal(x).octets[15] == x && LinkLocal(y).octets[15] == y;
  }

  lemma PeersDiffer()
    ensures At(1) != At(2) && At(1) != At(3) && At(2) != At(3) && LinkLocal(1) != LinkLocal(2)
  {
    HostsDiffer(1, 2);
    HostsDiffer(1, 3);
    HostsDiffer(2, 3);
  }

  lemma BooksBalance()
    ensures Balanced(Settings().limits, Peers(), Offers()) && Priced(AddCosts, Peers(), Offers())
    ensures Extended(Offers()) && Foreign(SELF, Offers(), Chosen())
  {
    hide At;
    PeersDiffer();
    assert CandidatesOf(Offers(), At(1)) == {(KEY, At(1))} && CandidatesOf(Offers(), At(2)) == {}
      && CandidatesOf(Offers(), At(3)) == {};
    assert SELF.octets[7] != ORIGIN.octets[7];
  }

  lemma ChosenIsBest()
    ensures Stable(Settings().selection, Offers(), Announced(), Chosen(), {})
  {
    hide At, LinkLocal, Eligible;
    forall k ensures StableKey(Settings().selection, Offers(), Announced(), Chosen(), {}, k) {
      if k == KEY { assert (KEY, At(1)) in Offers(); }
    }
  }

  lemma WithinWorld()
    ensures Tame(World(), SELF, Offers(), Announced(), Chosen(), map[], 0)
    ensures KeepsCondition(Offers(), Announced(), Chosen(), KEY) && Weak(Offers(), Announced(), Chosen()) == {}
  {
    hide LinkLocal;
    assert KeepsCondition(Offers(), Announced(), Chosen(), KEY);
  }

  // ----- the packet

  function Packet(): seq<Tlv> { [Update(News())] }

  lemma PacketBehaves()
    ensures Behaves(World(), At(2), Packet()) && !HasHello(Packet())
    ensures forall i :: 0 <= i < |Packet()| ==> !Applies(Packet()[i], [LinkLocal(9)])
  {
  }

  function Before(): Ground { Ground(Settings(), Anything(), Peers(), Announced(), Chosen()) }

  function Ahead(): Candidate { Candidate(ORIGIN, 2, 20, 30, LinkLocal(2), 1600, 106_000) }

  lemma NewsUsable()
    ensures Usable(Before(), At(2), News()) && CandidateFrom(Before(), At(2), News(), NOW) == Ahead()
  {
    hide At, LinkLocal;
    PeersDiffer();
    NotForbidden();
    assert SELF.octets[7] != ORIGIN.octets[7];
  }

  lemma NewsStored()
    ensures Stores(Before(), Offers(), At(2), News(), NOW)
    ensures AfterUpdate(Before(), Offers(), At(2), News(), NOW) == Offers()[(KEY, At(2)) := Ahead()]
  {
    hide At, LinkLocal, Usable, CandidateFrom, ForbiddenDestination;
    PeersDiffer();
    NewsUsable();
    assert (KEY, At(2)) !in Offers();
  }

  /** The update is stored, and neighbour 3 is told of it at 30. */
  lemma NewsAnswered()
    ensures SourcesAfter(Before(), Outlet(Settings(), Anything(), Wire()), Offers(), Waits(), At(2), News(), NOW)
         == map[(KEY, ORIGIN) := Source(Distance(2, 30), NOW + SOURCE_GC_TIME_MS)]
  {
    hide At, LinkLocal, Stores, CandidateFrom, Mentions, Answers, SourcesAfter, MeetsFeasibility, Maintain, Peers,
         Offers, Waits, Wire, Anything, Settings, Announced, Usable;
    NewsUsable();
    NewsStored();
    Neighbor3IsTold();
    NewsRecorded();
    var o := Outlet(Settings(), Anything(), Wire());
    SourcesAnswered(Before(), o, Offers(), Waits(), At(2), News(), NOW, Ahead(),
                    Answers(o, Waits(), KEY, ORIGIN, Distance(2, 30), NOW));
  }

  lemma NewsRecorded()
    ensures MeetsFeasibility(Announced(), (KEY, At(2)), Ahead())
    ensures Maintain(Announced(), (KEY, ORIGIN), Distance(2, 30), NOW)
      == map[(KEY, ORIGIN) := Source(Distance(2, 30), NOW + SOURCE_GC_TIME_MS)]
  {
    hide At, LinkLocal;
  }

  lemma NotForbidden()
    ensures !ForbiddenDestination(KEY.destination)
  {
  }

  lemma Neighbor3IsTold()
    ensures Mentions(Answers(Outlet(Settings(), Anything(), Wire()), Waits(), KEY, ORIGIN, Distance(2, 30), NOW),
                     (KEY, ORIGIN))
  {
    hide LinkLocal, FirstLinkLocal, LowestIpv4;
    var o := Outlet(Settings(), Anything(), Wire());
    var a := Announce(o, "eth0", LinkLocal(3), KEY, ORIGIN, Distance(2, 30), Urgent(NOW));
    assert (KEY, ORIGIN) in Waits();
    assert FiniteSend(a) && SourceOf(a) == (KEY, ORIGIN);
  }

  // ----- what the packet leaves

  /** A packet without Hello, IHU or a new RTT penalty leaves its sender's record and prices alone. */
  lemma NothingObserved(cfg: Config, interfaces: Interfaces, nk: NeighborKey, tlvs: seq<Tlv>, now: u64, sense: Sense,
                        neighbors: Neighbors, cands: Candidates, s: Snap)
    requires Observed(cfg, interfaces, nk, tlvs, now, sense, neighbors, cands, s)
    requires nk in neighbors && !HasHello(tlvs) && sense.penalty == neighbors[nk].penalty && nk.interface in interfaces
    requires forall i :: 0 <= i < |tlvs| ==> !Applies(tlvs[i], interfaces[nk.interface].addresses)
    ensures s.neighbors == neighbors && s.candidates == cands
  {
    hide HasHello, Applies, Reprice, LinkCost;
    assert Greeted(neighbors, nk, tlvs, interfaces[nk.interface].policy, sense) == neighbors;
    assert s.neighbors[nk] == neighbors[nk];
  }

  /** The packet observes nothing new, and its update is processed. */
  lemma PacketLeaves(trail: seq<Snap>, neighbors': Neighbors, cands': Candidates)
    requires Processed(Outlet(Settings(), Anything(), Wire()), Chosen(), At(2), Packet(), NOW, Sense(96, false, 0),
                       Snap(Peers(), Offers(), Announced(), Waits()), trail, neighbors', cands')
    ensures |trail| == 2 && trail[1].candidates == cands' == Offers()[(KEY, At(2)) := Ahead()]
    ensures trail[1].sources == map[(KEY, ORIGIN) := Source(Distance(2, 30), NOW + SOURCE_GC_TIME_MS)]
  {
    hide LinkLocal, AfterUpdate, SourcesAfter, HasHello, Applies, Observed, Offers, Announced, Waits, Chosen;
    PacketBehaves();
    PeersDiffer();
    NothingObserved(Settings(), Wire(), At(2), Packet(), NOW, Sense(96, false, 0), Peers(), Offers(), trail[0]);
    assert Packet()[0] == Update(News());
    assert TlvStep(Outlet(Settings(), Anything(), Wire()), Chosen(), At(2), Packet()[0], NOW, trail[0], trail[0 + 1]);
    NewsStored();
    NewsAnswered();
  }

  /** Ten short of the margin: a reselection keeps the route in use. */
  lemma RouteIsKept(m: Memory, selected': Selected, m': Memory, sources: Sources)
    requires Reselected(Settings().selection, Offers()[(KEY, At(2)) := Ahead()], sources, Chosen(), m, NOW, selected',
                        m')
    ensures KEY in selected' && IdentOf(selected'[KEY]) == IdentOf(Chosen()[KEY])
  {
    hide At, LinkLocal, Preferred, MeetsFeasibility;
    PeersDiffer();
    var cands := Offers()[(KEY, At(2)) := Ahead()];
    assert KeyReselected(Settings().selection, cands, sources, Chosen(), m, NOW, KEY, selected', m');
    assert EligibleFor(cands, sources, Chosen(), KEY, (KEY, At(1)));
    assert (KEY, At(1)) in EligibleSet(cands, sources, Chosen(), KEY);
    var cur, best :| Chose(Settings().selection, cands, sources, Chosen(), m, NOW, KEY, cur, best, selected', m');
    NotAhead(cands, sources, m, cur, best);
  }

  lemma NotAhead(cands: Candidates, sources: Sources, m: Memory, cur: Option<CandidateKey>, best: CandidateKey)
    requires cands == Offers()[(KEY, At(2)) := Ahead()]
    requires IsCurrent(cands, sources, Chosen(), KEY, cur) && IsBest(cands, sources, Chosen(), KEY, best)
    ensures best in cands && (cur.Some? ==> cur.value in cands)
    ensures Decide(Settings().selection, Known(Chosen(), m, KEY), LookAt(cands, NOW, cur, best)).chosen
      == Some(IdentOf(Chosen()[KEY]))
  {
    hide At, LinkLocal, Preferred, MeetsFeasibility;
    PeersDiffer();
    assert EligibleFor(cands, sources, Chosen(), KEY, (KEY, At(1)))
      && Same(Chosen()[KEY], (KEY, At(1)), cands[(KEY, At(1))]);
    assert cur == Some((KEY, At(1)));
    assert best == (KEY, At(1)) || best == (KEY, At(2));
  }

  /** Whatever is recorded after, it is at least what neighbour 3 was told. */
  lemma RecordBeatsRoute(s: Sources, s': Sources, cands': Candidates, selected': Selected)
    requires s == map[(KEY, ORIGIN) := Source(Distance(2, 30), NOW + SOURCE_GC_TIME_MS)]
    requires ImprovedLive(World(), NOW, s, s') && SourcesIn(World(), s')
    requires cands' == Offers()[(KEY, At(2)) := Ahead()] && KEY in selected'
      && IdentOf(selected'[KEY]) == IdentOf(Chosen()[KEY])
    ensures KEY in Weak(cands', s', selected')
  {
    hide At, LinkLocal;
    PeersDiffer();
    var sk, ck := (KEY, ORIGIN), (KEY, At(1));
    assert sk in s && s[sk].expires >= NOW;
    var d := s'[sk].distance;
    assert InWindow(World().base(sk), d.seqno);
    FeasibleIsBetter(0, Distance(1, 30), d);
    assert ck in cands' && cands'[ck] == InUse() && Same(selected'[KEY], ck, cands'[ck]);
    assert !MeetsFeasibility(s', ck, cands'[ck]);
  }

  lemma PacketAdmitted()
    ensures Admits(Settings(), Wire(), Peers(), At(2), Packet())
  {
    hide LinkLocal, HasHello;
    HostsDiffer(2, 2);
    assert LinkLocal(2).family == V6 by { FamilyIs(2); }
  }

  lemma FamilyIs(host: u8)
    ensures LinkLocal(host).family == V6
  {
  }

  lemma PacketUndercuts()
    ensures Undercuts(Rules(Settings(), Anything()), CostOf(Peers(), At(2)), Waits(), Offers(), Chosen(), At(2),
                      Packet(), KEY)
  {
    hide LinkLocal, Backs;
    PeersDiffer();
    assert CostOf(Peers(), At(2)) == Some(10);
    assert Packet()[0] == Update(News());
    assert !Backs(Offers() - {(KEY, At(2))}, Chosen(), KEY, ORIGIN, Distance(2, 30)) by { NotBacked(); }
    assert (KEY, ORIGIN) in Waits() && Satisfies(KEY, ORIGIN, 2, (KEY, ORIGIN), Waits()[(KEY, ORIGIN)]);
  }

  lemma NotBacked()
    ensures !Backs(Offers() - {(KEY, At(2))}, Chosen(), KEY, ORIGIN, Distance(2, 30))
  {
    hide At, LinkLocal;
    PeersDiffer();
    var ck := (KEY, At(1));
    assert ck in Offers() - {(KEY, At(2))} && Same(Chosen()[KEY], ck, Offers()[ck])
      && !Offers()[ck].Offered().FeasibleAgainst(Distance(2, 30));
  }

  lemma StaysWithin(bumps: nat, tame: bool)
    requires StaysTame(World(), SELF, At(2), Packet(), {}, 0, bumps, true, tame)
    ensures tame
  {
    PacketBehaves();
  }

  lemma Outcome(trail: seq<Snap>, t: set<RouteKey>, sources': Sources, neighbors': Neighbors, cands': Candidates,
                selected': Selected, m': Memory, out: set<Action>)
    requires PacketTook(Outlet(Settings(), Anything(), Wire()), Chosen(), At(2), Packet(), NOW, Sense(96, false, 0),
                        true,
                        Ledger(Peers(), Offers(), Announced(), Waits(), {}), trail, neighbors', cands', t)
    requires |trail| == |Packet()| + 1
    requires Concluded(Settings(), World(), true, NOW, trail[|Packet()|], sources', Chosen(), Kept(), selected', m')
    requires Going(World(), NOW, Announced(), sources', out)
    ensures KEY in selected' && IdentOf(selected'[KEY]) == IdentOf(Chosen()[KEY])
    ensures KEY in Weak(cands', sources', selected')
  {
    hide Processed, Traced, OnlyUndercut, Reselected, ImprovedLive, Covered, Weak, Peers, Offers, Announced, Waits,
         Wire, Anything, Settings, World, At, LinkLocal;
    PacketLeaves(trail, neighbors', cands');
    if !(selected' == Chosen() && m' == Kept()) { RouteIsKept(Kept(), selected', m', trail[1].sources); }
    RecordBeatsRoute(trail[1].sources, sources', cands', selected');
  }

  /** An engine in that state, which keeps every promise between events and whose
      routes all meet the feasibility condition, handles that packet, which
      undercuts the key; the same route is selected afterwards, and it does not
      meet the condition any more. */
  method Undercut() returns (e: Engine, ghost before: View, out: set<Action>)
    ensures e.Steady(NOW) && e.tame && before.selected == Chosen()
    ensures Weak(before.candidates, before.sources, before.selected) == {}
    ensures Undercuts(Rules(e.cfg, before.policy), CostOf(before.neighbors, At(2)), before.pending, before.candidates,
                      before.selected, At(2), Packet(), KEY)
    ensures KEY in e.selected && KEY in before.selected && IdentOf(e.selected[KEY]) == IdentOf(before.selected[KEY])
    ensures KEY in Weak(e.candidates, e.sources, e.selected)
  {
    hide Engine.Steady, PacketTook, Concluded, Going, Weak, Undercuts, Admits, Evolved, StaysTame, Bumped, Rerouted,
         Engine.Readvertised, Peers, Offers, Announced, Waits, Wire, Anything, World, At, LinkLocal, IdentOf, Packet,
         CostOf;
    WithinWorld();
    PacketAdmitted();
    PacketUndercuts();
    e := Prepare();
    before := e.Look();
    ghost var bumps, trail;
    assert At(2) == NeighborKey("eth0", LinkLocal(2)) by { AtIs(2); }
    assert e.originated.Keys == {} && e.Books() == Ledger(Peers(), Offers(), Announced(), Waits(), {});
    out, bumps, trail := e.Receive("eth0", LinkLocal(2), Packet(), NOW, Sense(96, false, 0));
    StaysWithin(bumps, e.tame);
    Outcome(trail, e.tainted, e.sources, e.neighbors, e.candidates, e.selected, e.memory, out);
  }

  lemma AtIs(host: u8)
    ensures At(host) == NeighborKey("eth0", LinkLocal(host))
  {
  }

  method Prepare() returns (e: Engine)
    ensures fresh(e) && e.Steady(NOW) && e.tame && e.cfg == Settings() && e.env == World()
    ensures e.Look() == View(Anything(), Wire(), Peers(), Offers(), Announced(), Waits(), map[], 0, Chosen(), map[])
    ensures e.memory == Kept() && e.tainted == {}
  {
    hide Engine.Steady, Engine.Valid, Peers, Offers, Announced, Waits, Chosen, Wire, World, Anything, Settings, Kept;
    e := new Engine(Settings(), Anything(), 0, World());
    Fill(e);
    KeepsPromises(e);
  }

  method Fill(e: Engine)
    requires e.tame && e.tainted == {} && e.originated == map[] && e.sequenceNumber == 0
    modifies e
    ensures e.tame && e.tainted == {} && e.memory == Kept() && e.owed == map[]
    ensures e.Look() == View(Anything(), Wire(), Peers(), Offers(), Announced(), Waits(), map[], 0, Chosen(), map[])
  {
    hide Engine.Steady, Engine.Valid, Peers, Offers, Announced, Waits, Chosen, Wire, World, Anything, Settings, Kept;
    e.policy, e.interfaces, e.neighbors, e.candidates, e.sources := Anything(), Wire(), Peers(), Offers(), Announced();
    e.selected, e.pendingRequests, e.memory, e.tombstones, e.owed := Chosen(), Waits(), Kept(), map[], map[];
  }

  lemma KeepsPromises(e: Engine)
    requires e.cfg == Settings() && e.env == World() && e.tame && e.tainted == {} && e.owed == map[]
    requires e.Look() == View(Anything(), Wire(), Peers(), Offers(), Announced(), Waits(), map[], 0, Chosen(), map[])
      && e.memory == Kept()
    ensures e.Steady(NOW)
  {
    hide Balanced, Extended, Foreign, Stable, Priced, Tame, KeepsCondition, Peers, Offers, Announced, Waits, Chosen,
         Wire, World, Anything;
    BooksBalance();
    ChosenIsBest();
    WithinWorld();
    WeakIsConditioned(Offers(), Announced(), Chosen());
    assert e.memory.pending.Keys == {} && e.selected == Chosen() && e.tombstones == map[];
  }
}
