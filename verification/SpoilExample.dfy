/** The other way a packet costs a selected route its feasibility condition
    (crates/babel-protocol/src/engine/neighbors.rs:237-302): an Update makes the
    selected route worse, and a request after it is still answered from the
    selected entry. */
module SpoilExample {
  import opened Model
  import opened WirePrefix
  import opened WireTypes
  import opened EngineTypes
  import opened Hysteresis
  import opened Feasibility
  import opened Reselection
  import opened Bookkeeping
  import opened Announcing
  import opened Withdrawal
  import opened Updating
  import opened Undercutting
  import opened EngineInvariants
  import opened Engines
  import opened UndercutExample

  /** Neighbour 1 now offers its route at 45. */
  function Worse(): ResolvedUpdate {
    ResolvedUpdate(Some(KEY), Some(ORIGIN), Some(LinkLocal(1)), 1600, 1, 45, false, [])
  }

  function Spoiling(): seq<Tlv> { [Update(Worse()), RouteRequest(Some(KEY), [])] }

  function Spoiled(): Candidate { Candidate(ORIGIN, 1, 45, 55, LinkLocal(1), 1600, 106_000) }

  function Left(): Candidates { map[(KEY, At(1)) := Spoiled()] }

  function Start(): Ground { Ground(Settings(), Anything(), Peers(), map[], Chosen()) }

  // ----- the state, with nothing announced yet

  lemma StartIsStable()
    ensures Stable(Settings().selection, Offers(), map[], Chosen(), {})
  {
    hide At, LinkLocal, Eligible;
    forall k ensures StableKey(Settings().selection, Offers(), map[], Chosen(), {}, k) {
      if k == KEY { assert (KEY, At(1)) in Offers(); }
    }
  }

  lemma StartIsTame()
    ensures Tame(World(), SELF, Offers(), map[], Chosen(), map[], 0) && Weak(Offers(), map[], Chosen()) == {}
  {
    hide LinkLocal;
  }

  method Begin() returns (e: Engine)
    ensures fresh(e) && e.Steady(NOW) && e.tame && e.cfg == Settings() && e.env == World()
    ensures e.Look() == View(Anything(), Wire(), Peers(), Offers(), map[], map[], map[], 0, Chosen(), map[])
    ensures e.memory == Kept() && e.tainted == {} && e.originated == map[]
  {
    hide Engine.Steady, Engine.Valid, Peers, Offers, Chosen, Wire, World, Anything, Settings, Kept;
    e := new Engine(Settings(), Anything(), 0, World());
    Fill(e);
    BeginsSteady(e);
  }

  method Fill(e: Engine)
    requires e.tame && e.tainted == {} && e.originated == map[] && e.sequenceNumber == 0
    modifies e
    ensures e.tame && e.tainted == {} && e.memory == Kept() && e.owed == map[] && e.originated == map[]
    ensures e.Look() == View(Anything(), Wire(), Peers(), Offers(), map[], map[], map[], 0, Chosen(), map[])
  {
    hide Engine.Steady, Engine.Valid, Peers, Offers, Chosen, Wire, World, Anything, Settings, Kept;
    e.policy, e.interfaces, e.neighbors, e.candidates, e.sources := Anything(), Wire(), Peers(), Offers(), map[];
    e.selected, e.pendingRequests, e.memory, e.tombstones, e.owed := Chosen(), map[], Kept(), map[], map[];
  }

  lemma BeginsSteady(e: Engine)
    requires e.cfg == Settings() && e.env == World() && e.tame && e.tainted == {} && e.owed == map[]
    requires e.Look() == View(Anything(), Wire(), Peers(), Offers(), map[], map[], map[], 0, Chosen(), map[])
      && e.memory == Kept()
    ensures e.Steady(NOW)
  {
    hide Balanced, Extended, Foreign, Stable, Priced, Tame, KeepsCondition, Peers, Offers, Chosen, Wire, World,
         Anything;
    BooksBalance();
    StartIsStable();
    StartIsTame();
    WeakIsConditioned(Offers(), map[], Chosen());
    assert e.memory.pending.Keys == {} && e.selected == Chosen() && e.tombstones == map[];
  }

  // ----- the packet

  lemma PacketSpoils(cost: Option<u16>)
    ensures Undercuts(Rules(Settings(), Anything()), cost, map[], Offers(), Chosen(), At(1), Spoiling(), KEY)
  {
    hide LinkLocal, AnswersPast;
    var tlvs := Spoiling();
    assert tlvs[0] == Update(Worse()) && Asks(tlvs[1], KEY);
    assert Spoils(Rules(Settings(), Anything()), Chosen(), At(1), Worse(), KEY);
  }

  lemma WorseUsable()
    ensures Usable(Start(), At(1), Worse()) && CandidateFrom(Start(), At(1), Worse(), NOW) == Spoiled()
  {
    hide At, LinkLocal;
    PeersDiffer();
    NotForbidden();
    assert SELF.octets[7] != ORIGIN.octets[7];
  }

  lemma WorseStored()
    ensures AfterUpdate(Start(), Offers(), At(1), Worse(), NOW) == Left()
  {
    hide At, LinkLocal, Usable, CandidateFrom, ForbiddenDestination;
    PeersDiffer();
    WorseUsable();
    assert Offers()[(KEY, At(1)) := Spoiled()] == Left();
  }

  lemma UpdateBehaves()
    ensures Behaves(World(), At(1), [Update(Worse())]) && Behaves(World(), At(1), [RouteRequest(Some(KEY), [])])
  {
  }

  // ----- what it leaves

  lemma OnlyRoute(m: Memory, sources: Sources, selected': Selected, m': Memory)
    requires Reselected(Settings().selection, Left(), sources, Chosen(), m, NOW, selected', m')
    ensures KEY in selected' && IdentOf(selected'[KEY]) == IdentOf(Chosen()[KEY])
  {
    hide At, LinkLocal, Preferred, MeetsFeasibility;
    assert KeyReselected(Settings().selection, Left(), sources, Chosen(), m, NOW, KEY, selected', m');
    assert EligibleFor(Left(), sources, Chosen(), KEY, (KEY, At(1)));
    assert (KEY, At(1)) in EligibleSet(Left(), sources, Chosen(), KEY);
    var cur, best :| Chose(Settings().selection, Left(), sources, Chosen(), m, NOW, KEY, cur, best, selected', m');
    assert best == (KEY, At(1)) && cur == Some(best);
  }

  /** The reply says 40, so what is recorded is at least as good, and the route behind it offers 45. */
  lemma ReplyBeatsRoute(s: Sources, s': Sources, selected': Selected, o: Outlet, n: u16)
    requires o == Outlet(Settings(), Anything(), Wire())
    requires Covers(World(), NOW, s, RouteReply(o, SELF, map[], Chosen(), n, KEY, At(1), NOW).update)
    requires ImprovedLive(World(), NOW, s, s') && SourcesIn(World(), s) && SourcesIn(World(), s')
    requires KEY in selected' && IdentOf(selected'[KEY]) == IdentOf(Chosen()[KEY])
    ensures KEY in Weak(Left(), s', selected')
  {
    hide LinkLocal, FirstLinkLocal, LowestIpv4;
    var u, sk, ck := RouteReply(o, SELF, map[], Chosen(), n, KEY, At(1), NOW).update, (KEY, ORIGIN), (KEY, At(1));
    assert u.metric == 40 && u.seqno == 1 && u.key == Some(KEY) && u.routerId == Some(ORIGIN);
    var d := s'[sk].distance;
    assert InWindow(World().base(sk), d.seqno);
    NotWorseChains(0, d, s[sk].distance, Distance(1, 40));
    FeasibleIsBetter(0, Distance(1, 45), d);
    assert ck in Left() && Left()[ck] == Spoiled() && Same(selected'[KEY], ck, Left()[ck]);
    assert !MeetsFeasibility(s', ck, Left()[ck]);
  }

  lemma StaysWithin(tlv: Tlv, bumps: nat, tame: bool)
    requires tlv in Spoiling() && StaysTame(World(), SELF, At(1), [tlv], {}, 0, bumps, true, tame)
    ensures tame
  {
    UpdateBehaves();
  }

  lemma StillNone(o: Originated, n: u16, bumps: nat)
    requires Bumped(map[], 0, o, n, bumps) && bumps == 0
    ensures o == map[] && n == 0
  {
  }

  /** The first TLV: the route is worse, nothing is recorded. */
  method TakeUpdate(e: Engine)
    requires e.Steady(NOW) && e.tame && e.cfg == Settings() && e.env == World() && e.originated == map[]
    requires e.Look() == View(Anything(), Wire(), Peers(), Offers(), map[], map[], map[], 0, Chosen(), map[])
    modifies e
    ensures e.Valid() && Priced(AddCosts, e.neighbors, e.candidates) && e.tame && e.candidates == Left()
    ensures e.policy == Anything() && e.interfaces == Wire() && e.selected == Chosen() && e.originated == map[]
    ensures e.sequenceNumber == 0 && e.tombstones == map[] && e.memory == old(e.memory) && e.owed == old(e.owed)
    ensures e.advertisedUntil == old(e.advertisedUntil)
  {
    hide Engine.Valid, Priced, Stable, Held, Improved, Covered, Bumped, AfterUpdate, SourcesAfter, StaysTame, Peers,
         Offers, Wire, Anything, World, At, LinkLocal, Chosen, Left, Spoiling, Absorbed, WaitsTraced, TaintedBy, CostOf,
         Worse;
    assert e.originated.Keys == {} && e.Books() == Ledger(Peers(), Offers(), map[], map[], e.tainted);
    FirstTlv();
    var changed, out, bumps := e.ProcessTlv(At(1), Update(Worse()), NOW);
    StaysWithin(Update(Worse()), bumps, e.tame);
    StillNone(e.originated, e.sequenceNumber, bumps);
    WorseStored();
  }

  lemma FirstTlv()
    ensures Update(Worse()) in Spoiling() && RouteRequest(Some(KEY), []) in Spoiling()
  {
    assert Spoiling()[0] == Update(Worse()) && Spoiling()[1] == RouteRequest(Some(KEY), []);
  }

  /** The second TLV: the reply is recorded, the route stays as bad as it is. */
  method TakeRequest(e: Engine)
    requires e.Valid() && Priced(AddCosts, e.neighbors, e.candidates) && e.tame && e.candidates == Left()
    requires e.cfg == Settings() && e.env == World() && e.policy == Anything() && e.interfaces == Wire()
    requires e.selected == Chosen() && e.originated == map[] && e.sequenceNumber == 0 && e.tombstones == map[]
    modifies e
    ensures e.Valid() && Priced(AddCosts, e.neighbors, e.candidates) && e.tame && e.candidates == Left()
    ensures e.policy == Anything() && e.interfaces == Wire() && e.selected == Chosen() && e.originated == map[]
    ensures e.sequenceNumber == 0 && e.tombstones == map[] && e.memory == old(e.memory) && e.owed == old(e.owed)
    ensures e.advertisedUntil == old(e.advertisedUntil)
    ensures var o := Outlet(Settings(), Anything(), Wire());
      Covers(World(), NOW, e.sources, RouteReply(o, SELF, map[], Chosen(), 0, KEY, At(1), NOW).update)
  {
    hide Engine.Valid, Priced, Stable, Improved, Bumped, StaysTame, Peers, Wire, Anything, World, At, LinkLocal, Chosen,
         Left, Spoiling, WaitsTraced, TaintedBy, CostOf, Written, RouteReply, Covers, Engine.SeqnoHandled;
    assert e.originated.Keys == {};
    FirstTlv();
    var changed, out, bumps := e.ProcessTlv(At(1), RouteRequest(Some(KEY), []), NOW);
    StaysWithin(RouteRequest(Some(KEY), []), bumps, e.tame);
    StillNone(e.originated, e.sequenceNumber, bumps);
    ghost var reply := RouteReply(e.Out(), SELF, map[], Chosen(), 0, KEY, At(1), NOW);
    assert out == {reply};
    assert reply.Send? by { ReplyIsSend(e.Out(), At(1)); }
  }

  lemma ReplyIsSend(o: Outlet, to: NeighborKey)
    ensures RouteReply(o, SELF, map[], Chosen(), 0, KEY, to, NOW).Send?
  {
  }

  /** An engine whose routes all meet the feasibility condition takes these two TLVs and reselects, as a
      packet of them makes it do: the same route is selected afterwards, and it does not meet the
      condition any more. */
  method SpoilRoute() returns (e: Engine, ghost before: View)
    ensures e.Steady(NOW) && e.tame && before.selected == Chosen()
    ensures Weak(before.candidates, before.sources, before.selected) == {}
    ensures Undercuts(Rules(e.cfg, before.policy), CostOf(before.neighbors, At(1)), before.pending, before.candidates,
                      before.selected, At(1), Spoiling(), KEY)
    ensures KEY in e.selected && KEY in before.selected && IdentOf(e.selected[KEY]) == IdentOf(before.selected[KEY])
    ensures KEY in Weak(e.candidates, e.sources, e.selected)
  {
    hide Engine.Valid, Priced, Stable, Going, Weak, Undercuts, Peers, Offers, Wire, Anything, World, At, LinkLocal,
         IdentOf, Spoiling, Left, CostOf, RouteReply, Covers, Reselected, Engine.Readvertised, Kept, Held;
    StartIsTame();
    e := Begin();
    before := e.Look();
    PacketSpoils(CostOf(before.neighbors, At(1)));
    TakeUpdate(e);
    TakeRequest(e);
    ghost var s := e.sources;
    e.ValidIsIn();
    var rest := e.Conclude(true, {}, NOW);
    OnlyRoute(Kept(), s, e.selected, e.memory);
    assert SourcesIn(World(), e.sources) && ImprovedLive(World(), NOW, s, e.sources) by {
      GoingParts(World(), NOW, s, e.sources, rest);
    }
    ReplyBeatsRoute(s, e.sources, e.selected, Outlet(Settings(), Anything(), Wire()), 0);
  }

  lemma GoingParts(env: Env, now: u64, s: Sources, s': Sources, out: set<Action>)
    requires Going(env, now, s, s', out)
    ensures SourcesIn(env, s) && SourcesIn(env, s') && ImprovedLive(env, now, s, s')
  {
  }
}
