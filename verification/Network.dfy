/** A network of engines: loop freedom over whole runs with loss, delay,
    duplication and reordering (RFC 8966 section 3.5.1). */
module Network {
  import opened Model
  import opened WireTypes
  import opened EngineTypes
  import opened Hysteresis
  import opened Feasibility
  import opened Reselection
  import opened Announcing
  import opened Updating
  import opened Undercutting
  import opened EngineInvariants
  import opened Engines

  type NodeId = nat

  /** What the argument needs to know of an engine. */
  datatype Node = Node(sources: Sources, candidates: Candidates, selected: Selected)

  /** A finite update on its way from a node. */
  datatype Message = Message(from: NodeId, sk: SourceKey, d: Distance)

  /** A finite update as a neighbour offered it. */
  datatype Offer = Offer(neighbor: NeighborKey, sk: SourceKey, d: Distance)

  /** Who is behind a neighbour, who owns a next hop, and the sequence-number windows. */
  datatype Wiring = Wiring(base: SourceKey -> u16, owner: (NodeId, string, IpAddr) -> IpAddr,
                           behind: (NodeId, NeighborKey) -> NodeId)

  function EnvAt(w: Wiring, a: NodeId): Env { Env(w.base, (i, h) => w.owner(a, i, h)) }

  /** The node a route leads to: the owner of its next hop. */
  function HopOf(w: Wiring, a: NodeId, r: SelectedRoute): NodeId {
    w.behind(a, NeighborKey(r.interface, w.owner(a, r.interface, r.nextHop)))
  }

  // ----- one node

  /** Every selected route is a reachable candidate of that identity. */
  predicate Rooted(n: Node, k: RouteKey) {
    k in n.selected ==>
      exists ck :: ck in n.candidates && ck.0 == k && n.candidates[ck].advertised != INFINITY
        && Same(n.selected[k], ck, n.candidates[ck])
  }

  ghost predicate NodeOk(env: Env, n: Node) {
    && CandidatesIn(env, n.candidates) && SourcesIn(env, n.sources)
    && forall k :: k in n.selected ==> Rooted(n, k)
  }

  /** Every reachable candidate was there before or is one of the offers. */
  predicate Supplied(before: Candidates, after: Candidates, offers: set<Offer>) {
    forall ck :: ck in after && after[ck].advertised != INFINITY ==>
      || (ck in before && Kin(before[ck], after[ck]))
      || Offer(ck.1, (ck.0, after[ck].routerId), after[ck].Offered()) in offers
  }

  /** The keys whose selected route has lost the feasibility condition. */
  ghost function WeakAt(n: Node): set<RouteKey> { Weak(n.candidates, n.sources, n.selected) }

  /** One event at one node; `hits` are the keys it undercuts. */
  ghost predicate NodeStep(env: Env, now: u64, n: Node, offers: set<Offer>, hits: set<RouteKey>, n': Node,
                           out: set<Action>) {
    && NodeOk(env, n') && WeakAt(n') <= WeakAt(n) + hits
    && Going(env, now, n.sources, n'.sources, out)
    && Supplied(n.candidates, n'.candidates, offers)
  }

  function OffersOf(ev: Event): set<Offer> {
    if !ev.PacketReceived? then {}
    else
      set i | 0 <= i < |ev.tlvs| && ev.tlvs[i].Update? && Teaches(ev.tlvs[i].update) ::
        var u := ev.tlvs[i].update;
        Offer(NeighborKey(ev.interface, ev.source), (u.key.value, u.routerId.value), Distance(u.seqno, u.metric))
  }

  ghost function ViewOf(e: Engine): Node
    reads e
  {
    Node(e.sources, e.candidates, e.selected)
  }

  lemma AccountedIsSupplied(rules: Rules, ev: Event, before: Candidates, after: Candidates)
    requires Accounted(rules, ev, before, after)
    ensures Supplied(before, after, OffersOf(ev))
  {
    forall ck | ck in after && after[ck].advertised != INFINITY
      ensures (ck in before && Kin(before[ck], after[ck]))
        || Offer(ck.1, (ck.0, after[ck].routerId), after[ck].Offered()) in OffersOf(ev)
    {
      if ev.PacketReceived? && !(ck in before && Kin(before[ck], after[ck])) {
        var nk := NeighborKey(ev.interface, ev.source);
        var i :| 0 <= i < |ev.tlvs| && OfferedBy(rules, ev.tlvs[i], nk, ck, after[ck]);
      }
    }
  }

  lemma StableIsRooted(cfg: Selection, cands: Candidates, sources: Sources, selected: Selected, pending: set<RouteKey>,
                       n: Node, k: RouteKey)
    requires Stable(cfg, cands, sources, selected, pending) && Extended(cands) && n.candidates == cands
      && n.selected == selected
    ensures Rooted(n, k)
  {
    hide Significant, Eligible;
    assert StableKey(cfg, cands, sources, selected, pending, k);
    if k in selected {
      var ck :| ck in cands && ck.0 == k && cands[ck].metric < INFINITY && selected[k] == FromCandidate(ck, cands[ck]);
      assert cands[ck].advertised != INFINITY && Same(selected[k], ck, cands[ck]);
    }
  }

  /** The keys an event undercuts, from the tables before it and the link cost it observes. */
  ghost function Hits(rules: Rules, ev: Event, neighbors: Neighbors, pending: Pending, cands: Candidates,
                      selected: Selected): set<RouteKey> {
    set k | k in selected && UndercutBy(rules, ev, neighbors, pending, cands, selected, k)
  }

  lemma UndercutIsSelected(rules: Rules, ev: Event, neighbors: Neighbors, pending: Pending, cands: Candidates,
                           selected: Selected, k: RouteKey)
    requires UndercutBy(rules, ev, neighbors, pending, cands, selected, k)
    ensures k in selected
  {
    hide SafeExtend, Awaited;
  }

  lemma WeakensIsBounded(rules: Rules, ev: Event, neighbors: Neighbors, pending: Pending, cands: Candidates,
                         selected: Selected, weak: set<RouteKey>, weak': set<RouteKey>)
    requires Weakens(rules, ev, neighbors, pending, cands, selected, weak, weak')
    ensures weak' <= weak + Hits(rules, ev, neighbors, pending, cands, selected)
  {
    hide UndercutBy;
    forall k | k in weak' && k !in weak ensures k in Hits(rules, ev, neighbors, pending, cands, selected) {
      UndercutIsSelected(rules, ev, neighbors, pending, cands, selected, k);
    }
  }

  /** The engine is such a node, event by event, within the hypotheses. */
  method Perform(e: Engine, ev: Event) returns (r: Result<set<Action>, ConfigError>, ghost bumps: nat)
    requires e.Steady(e.clock) && ev.now >= e.clock
    modifies e
    ensures e.Steady(e.clock) && (e.tame ==> old(e.tame))
    ensures r.Ok? <==> Accepted(ev)
    ensures if r.Ok? then e.clock == ev.now else unchanged(e)
    ensures r.Ok? && e.tame ==>
      var hits := Hits(Rules(e.cfg, old(e.policy)), ev, e.neighbors, old(e.pendingRequests), old(e.candidates),
                       old(e.selected));
      NodeStep(e.env, ev.now, old(ViewOf(e)), OffersOf(ev), hits, ViewOf(e), r.value)
    ensures var keys := old(e.originated).Keys + e.originated.Keys;
      r.Ok? && old(e.tame) && Behaved(e.env, e.cfg.routerId, ev, keys, old(e.sequenceNumber), bumps) ==> e.tame
  {
    hide Going, Accounted, Supplied, OffersOf, Rooted, Weakens, Weak, Hits, Behaved, Accepted;
    r, bumps := e.TryHandle(ev);
    if r.Ok? && e.tame {
      AccountedIsSupplied(Rules(e.cfg, old(e.policy)), ev, old(e.candidates), e.candidates);
      SteadyIsOk(e);
      WeakensIsBounded(Rules(e.cfg, old(e.policy)), ev, e.neighbors, old(e.pendingRequests), old(e.candidates),
                       old(e.selected), old(WeakAt(ViewOf(e))), WeakAt(ViewOf(e)));
    }
  }

  lemma SteadyIsOk(e: Engine)
    requires e.Steady(e.clock) && e.tame
    ensures NodeOk(e.env, ViewOf(e))
  {
    hide Conditioned, Rooted, Stable, CandidatesIn, SourcesIn, InWindow;
    forall k | k in e.selected ensures Rooted(ViewOf(e), k) {
      StableIsRooted(e.cfg.selection, e.candidates, e.sources, e.selected, e.memory.pending.Keys, ViewOf(e), k);
    }
  }

  // ----- the network

  datatype World = World(nodes: map<NodeId, Node>, flying: set<Message>)

  /** The messages a node's actions put on the network. */
  function Sent(a: NodeId, out: set<Action>): set<Message> {
    set x | x in out && FiniteSend(x) :: Message(a, SourceOf(x), DistanceOf(x))
  }

  /** What a node may hear: messages from whoever is behind the neighbour. */
  predicate Delivered(w: Wiring, a: NodeId, offers: set<Offer>, flying: set<Message>) {
    forall o :: o in offers ==> Message(w.behind(a, o.neighbor), o.sk, o.d) in flying
  }

  /** Somebody may still rely on what this node announced for this source. */
  ghost predicate InUse(w: Wiring, world: World, b: NodeId, sk: SourceKey) {
    || (exists m :: m in world.flying && m.from == b && m.sk == sk)
    || (exists a, ck :: a in world.nodes && Relies(w, world.nodes[a], a, b, sk, ck))
  }

  predicate Relies(w: Wiring, n: Node, a: NodeId, b: NodeId, sk: SourceKey, ck: CandidateKey) {
    ck in n.candidates && n.candidates[ck].advertised != INFINITY && w.behind(a, ck.1) == b
      && sk == (ck.0, n.candidates[ck].routerId)
  }

  /** No record of this node that somebody relies on has expired. */
  ghost predicate Fresh(w: Wiring, world: World, a: NodeId, now: u64)
    requires a in world.nodes
  {
    forall sk :: sk in world.nodes[a].sources && InUse(w, world, a, sk) ==> world.nodes[a].sources[sk].expires >= now
  }

  /** A node acts on delivered messages; nothing in use expires. */
  ghost predicate Acts(w: Wiring, world: World, world': World, a: NodeId, now: u64, offers: set<Offer>,
                       hits: set<RouteKey>, n': Node, out: set<Action>) {
    && a in world.nodes && Delivered(w, a, offers, world.flying)
    && NodeStep(EnvAt(w, a), now, world.nodes[a], offers, hits, n', out)
    && Fresh(w, world, a, now)
    && world' == World(world.nodes[a := n'], world.flying + Sent(a, out))
  }

  /** Messages may be lost; until then they may be delivered late, twice or out of order. */
  predicate Loses(world: World, world': World) { world'.nodes == world.nodes && world'.flying <= world.flying }

  /** One step of the network: messages are lost, or a node handles an event that undercuts `hits`. */
  datatype Move = Lose | Act(node: NodeId, now: u64, offers: set<Offer>, hits: set<RouteKey>, out: set<Action>)

  ghost predicate Moves(w: Wiring, world: World, m: Move, world': World) {
    match m
    case Lose => Loses(world, world')
    case Act(a, now, offers, hits, out) => exists n' :: Acts(w, world, world', a, now, offers, hits, n', out)
  }

  predicate Init(world: World) {
    world.flying == {} && forall a :: a in world.nodes ==> world.nodes[a] == Node(map[], map[], map[])
  }

  ghost predicate Run(w: Wiring, worlds: seq<World>, moves: seq<Move>) {
    && |worlds| == |moves| + 1 && Init(worlds[0])
    && forall i :: 0 <= i < |moves| ==> Moves(w, worlds[i], moves[i], worlds[i + 1])
  }

  // ----- what every step keeps

  /** The node's own record is at least as good as what it said. */
  ghost predicate Vouches(w: Wiring, world: World, b: NodeId, sk: SourceKey, d: Distance) {
    && b in world.nodes && sk in world.nodes[b].sources && InWindow(w.base(sk), d.seqno)
    && NotWorse(w.base(sk), world.nodes[b].sources[sk].distance, d)
  }

  ghost predicate MessagesVouched(w: Wiring, world: World) {
    forall m :: m in world.flying ==> Vouches(w, world, m.from, m.sk, m.d)
  }

  ghost predicate CandidatesVouched(w: Wiring, world: World, a: NodeId, n: Node) {
    forall ck :: ck in n.candidates && n.candidates[ck].advertised != INFINITY ==>
      Vouches(w, world, w.behind(a, ck.1), (ck.0, n.candidates[ck].routerId), n.candidates[ck].Offered())
  }

  ghost predicate NetInv(w: Wiring, world: World) {
    && MessagesVouched(w, world)
    && (forall a :: a in world.nodes ==>
          NodeOk(EnvAt(w, a), world.nodes[a]) && CandidatesVouched(w, world, a, world.nodes[a]))
  }

  /** What is in use stays vouched for across a node's event. */
  lemma VouchStays(w: Wiring, world: World, world': World, a: NodeId, now: u64, offers: set<Offer>, hits: set<RouteKey>,
                   n': Node, out: set<Action>, b: NodeId, sk: SourceKey, d: Distance)
    requires a in world.nodes && NodeOk(EnvAt(w, a), world.nodes[a])
      && Acts(w, world, world', a, now, offers, hits, n', out)
    requires Vouches(w, world, b, sk, d) && InUse(w, world, b, sk)
    ensures Vouches(w, world', b, sk, d)
  {
    hide InUse, NotWorse, InWindow, Covered, Supplied, Conditioned, CandidatesIn, Rooted;
    if b == a {
      var n := world.nodes[a];
      NotWorseChains(w.base(sk), n'.sources[sk].distance, n.sources[sk].distance, d);
    }
  }

  lemma ActKeeps(w: Wiring, world: World, world': World, a: NodeId, now: u64, offers: set<Offer>, hits: set<RouteKey>,
                 n': Node, out: set<Action>)
    requires NetInv(w, world) && Acts(w, world, world', a, now, offers, hits, n', out)
    ensures NetInv(w, world')
  {
    hide Acts, Vouches, NodeOk, InUse;
    ActedNodes(w, world, world', a, now, offers, hits, n', out);
    MessagesStay(w, world, world', a, now, offers, hits, n', out);
    forall b | b in world'.nodes ensures NodeOk(EnvAt(w, b), world'.nodes[b])
      && CandidatesVouched(w, world', b, world'.nodes[b]) {
      if b == a {
        OwnCandidatesVouched(w, world, world', a, now, offers, hits, n', out);
      } else {
        OthersVouched(w, world, world', a, now, offers, hits, n', out, b);
      }
    }
  }

  lemma ActedNodes(w: Wiring, world: World, world': World, a: NodeId, now: u64, offers: set<Offer>, hits: set<RouteKey>,
                   n': Node, out: set<Action>)
    requires Acts(w, world, world', a, now, offers, hits, n', out)
    ensures a in world.nodes && world' == World(world.nodes[a := n'], world.flying + Sent(a, out))
      && NodeOk(EnvAt(w, a), n')
  {
    hide NodeOk, Going, InUse;
  }

  lemma MessageInUse(w: Wiring, world: World, m: Message)
    requires m in world.flying
    ensures InUse(w, world, m.from, m.sk)
  {
  }

  lemma CandidateInUse(w: Wiring, world: World, a: NodeId, ck: CandidateKey)
    requires a in world.nodes && ck in world.nodes[a].candidates && world.nodes[a].candidates[ck].advertised != INFINITY
    ensures InUse(w, world, w.behind(a, ck.1), (ck.0, world.nodes[a].candidates[ck].routerId))
  {
    assert Relies(w, world.nodes[a], a, w.behind(a, ck.1), (ck.0, world.nodes[a].candidates[ck].routerId), ck);
  }

  lemma MessagesStay(w: Wiring, world: World, world': World, a: NodeId, now: u64, offers: set<Offer>,
                     hits: set<RouteKey>, n': Node, out: set<Action>)
    requires NetInv(w, world) && Acts(w, world, world', a, now, offers, hits, n', out)
    ensures MessagesVouched(w, world')
  {
    hide Vouches, NodeOk, InUse;
    forall m | m in world'.flying ensures Vouches(w, world', m.from, m.sk, m.d) {
      if m in world.flying {
        MessageInUse(w, world, m);
        VouchStays(w, world, world', a, now, offers, hits, n', out, m.from, m.sk, m.d);
      } else {
        var x :| x in out && FiniteSend(x) && m == Message(a, SourceOf(x), DistanceOf(x));
        SentIsVouched(w, world, world', a, now, offers, hits, n', out, x);
      }
    }
  }

  lemma SentIsVouched(w: Wiring, world: World, world': World, a: NodeId, now: u64, offers: set<Offer>,
                      hits: set<RouteKey>, n': Node, out: set<Action>, x: Action)
    requires Acts(w, world, world', a, now, offers, hits, n', out) && x in out && FiniteSend(x)
    ensures Vouches(w, world', a, SourceOf(x), DistanceOf(x))
  {
    hide NotWorse, InWindow, NodeOk, Supplied, InUse;
    assert Covers(EnvAt(w, a), now, n'.sources, x.update);
  }

  lemma OthersVouched(w: Wiring, world: World, world': World, a: NodeId, now: u64, offers: set<Offer>,
                      hits: set<RouteKey>, n': Node, out: set<Action>, b: NodeId)
    requires NetInv(w, world) && Acts(w, world, world', a, now, offers, hits, n', out) && b in world.nodes && b != a
    ensures world'.nodes[b] == world.nodes[b] && CandidatesVouched(w, world', b, world.nodes[b])
  {
    hide Vouches, NodeOk, InUse;
    var n := world.nodes[b];
    forall ck | ck in n.candidates && n.candidates[ck].advertised != INFINITY
      ensures Vouches(w, world', w.behind(b, ck.1), (ck.0, n.candidates[ck].routerId), n.candidates[ck].Offered())
    {
      CandidateInUse(w, world, b, ck);
      VouchStays(w, world, world', a, now, offers, hits, n', out, w.behind(b, ck.1), (ck.0, n.candidates[ck].routerId),
                 n.candidates[ck].Offered());
    }
  }

  lemma OwnCandidatesVouched(w: Wiring, world: World, world': World, a: NodeId, now: u64, offers: set<Offer>,
                             hits: set<RouteKey>, n': Node, out: set<Action>)
    requires NetInv(w, world) && Acts(w, world, world', a, now, offers, hits, n', out)
    ensures CandidatesVouched(w, world', a, n')
  {
    hide Vouches, NodeOk, InUse, Going;
    var n := world.nodes[a];
    forall ck | ck in n'.candidates && n'.candidates[ck].advertised != INFINITY
      ensures Vouches(w, world', w.behind(a, ck.1), (ck.0, n'.candidates[ck].routerId), n'.candidates[ck].Offered())
    {
      var c, b, sk := n'.candidates[ck], w.behind(a, ck.1), (ck.0, n'.candidates[ck].routerId);
      if ck in n.candidates && Kin(n.candidates[ck], c) {
        CandidateInUse(w, world, a, ck);
      } else {
        var m := Message(b, sk, c.Offered());
        assert m in world.flying by { assert Offer(ck.1, sk, c.Offered()) in offers; }
        MessageInUse(w, world, m);
      }
      VouchStays(w, world, world', a, now, offers, hits, n', out, b, sk, c.Offered());
    }
  }

  lemma StepKeeps(w: Wiring, world: World, m: Move, world': World)
    requires NetInv(w, world) && Moves(w, world, m, world')
    ensures NetInv(w, world')
  {
    hide Acts, NodeOk;
    match m
    case Lose =>
      assert forall b, sk, d :: Vouches(w, world, b, sk, d) ==> Vouches(w, world', b, sk, d);
    case Act(a, now, offers, hits, out) =>
      var n' :| Acts(w, world, world', a, now, offers, hits, n', out);
      ActKeeps(w, world, world', a, now, offers, hits, n', out);
  }

  lemma {:induction false} RunKeeps(w: Wiring, worlds: seq<World>, moves: seq<Move>, i: nat)
    requires Run(w, worlds, moves) && i < |worlds|
    ensures NetInv(w, worlds[i])
  {
    hide NetInv, Moves;
    if i == 0 {
      InitOk(w, worlds[0]);
    } else {
      RunKeeps(w, worlds, moves, i - 1);
      assert Moves(w, worlds[i - 1], moves[i - 1], worlds[i - 1 + 1]);
      StepKeeps(w, worlds[i - 1], moves[i - 1], worlds[i]);
    }
  }

  lemma InitOk(w: Wiring, world: World)
    requires Init(world)
    ensures NetInv(w, world)
  {
  }

  // ----- what costs a route its feasibility condition

  /** The event undercut this key at this node. */
  predicate UndercutAt(m: Move, a: NodeId, k: RouteKey) { m.Act? && m.node == a && k in m.hits }

  lemma WeakBefore(w: Wiring, world: World, m: Move, world': World, a: NodeId, k: RouteKey)
    requires Moves(w, world, m, world') && a in world'.nodes && k in WeakAt(world'.nodes[a]) && !UndercutAt(m, a, k)
    ensures a in world.nodes && k in WeakAt(world.nodes[a])
  {
    hide Weak, NodeOk, Going, Supplied, Delivered, InUse;
  }

  /** In every run: a route that has lost its condition was undercut by an earlier event at its node. */
  lemma {:induction false} WeakHasCause(w: Wiring, worlds: seq<World>, moves: seq<Move>, i: nat, a: NodeId, k: RouteKey)
    returns (j: nat)
    requires Run(w, worlds, moves) && i < |worlds| && a in worlds[i].nodes && k in WeakAt(worlds[i].nodes[a])
    ensures j < i && UndercutAt(moves[j], a, k)
    decreases i
  {
    hide Moves, WeakAt, UndercutAt;
    if i == 0 {
      NothingWeak(worlds[0], a);
    } else {
      assert Moves(w, worlds[i - 1], moves[i - 1], worlds[i - 1 + 1]);
      if UndercutAt(moves[i - 1], a, k) {
        j := i - 1;
      } else {
        WeakBefore(w, worlds[i - 1], moves[i - 1], worlds[i], a, k);
        j := WeakHasCause(w, worlds, moves, i - 1, a, k);
      }
    }
  }

  lemma NothingWeak(world: World, a: NodeId)
    requires Init(world) && a in world.nodes
    ensures WeakAt(world.nodes[a]) == {}
  {
  }

  // ----- loops

  /** The node's selected route for this source leads to `next`. */
  predicate Leads(w: Wiring, world: World, a: NodeId, sk: SourceKey, next: NodeId) {
    && a in world.nodes
    && var n := world.nodes[a];
    && sk.0 in n.selected && n.selected[sk.0].routerId == sk.1 && HopOf(w, a, n.selected[sk.0]) == next
  }

  /** Consecutive nodes of a path lead to each other. */
  predicate IsPath(w: Wiring, world: World, sk: SourceKey, path: seq<NodeId>) {
    path != [] && forall i :: 0 <= i < |path| - 1 ==> Leads(w, world, path[i], sk, path[i + 1])
  }

  /** No route of the path has lost its condition. */
  ghost predicate Strong(world: World, k: RouteKey, path: seq<NodeId>) {
    forall i :: 0 <= i < |path| - 1 ==> path[i] in world.nodes && k !in WeakAt(world.nodes[path[i]])
  }

  /** Along an edge the next node has a record, and it beats this node's record. */
  lemma EdgeDescends(w: Wiring, world: World, a: NodeId, sk: SourceKey, b: NodeId)
    requires NetInv(w, world) && Leads(w, world, a, sk, b) && sk.0 !in WeakAt(world.nodes[a])
    ensures b in world.nodes && sk in world.nodes[b].sources
    ensures sk in world.nodes[a].sources ==>
      Better(w.base(sk), world.nodes[b].sources[sk].distance, world.nodes[a].sources[sk].distance)
  {
    hide InWindow, NotWorse, Better, MessagesVouched;
    var n, k := world.nodes[a], sk.0;
    assert NodeOk(EnvAt(w, a), n) && Rooted(n, k);
    var ck :| ck in n.candidates && ck.0 == k && n.candidates[ck].advertised != INFINITY
      && Same(n.selected[k], ck, n.candidates[ck]);
    var c := n.candidates[ck];
    assert EnvAt(w, a).owner(ck.1.interface, c.nextHop) == ck.1.address;
    assert Vouches(w, world, w.behind(a, ck.1), (ck.0, c.routerId), c.Offered());
    if sk in n.sources {
      assert KeepsCondition(n.candidates, n.sources, n.selected, k);
      FeasibleIsBetter(w.base(sk), c.Offered(), n.sources[sk].distance);
      assert NodeOk(EnvAt(w, b), world.nodes[b]);
      Relay(w.base(sk), world.nodes[b].sources[sk].distance, c.Offered(), n.sources[sk].distance);
    }
  }

  lemma Relay(base: u16, a: Distance, b: Distance, c: Distance)
    requires InWindow(base, a.seqno) && InWindow(base, b.seqno) && InWindow(base, c.seqno)
    requires NotWorse(base, a, b) && Better(base, b, c)
    ensures Better(base, a, c)
  {
    if a != b { BetterChains(base, a, b, c); }
  }

  lemma {:induction false} PathDescends(w: Wiring, world: World, sk: SourceKey, path: seq<NodeId>)
    requires NetInv(w, world) && IsPath(w, world, sk, path) && Strong(world, sk.0, path) && |path| >= 2
    requires path[0] in world.nodes && sk in world.nodes[path[0]].sources
    ensures var z := path[|path| - 1];
      && z in world.nodes && sk in world.nodes[z].sources
      && Better(w.base(sk), world.nodes[z].sources[sk].distance, world.nodes[path[0]].sources[sk].distance)
    decreases |path|
  {
    hide NetInv, Better, Leads, WeakAt;
    var n := |path| - 1;
    if n == 1 {
      EdgeDescends(w, world, path[0], sk, path[1]);
    } else {
      PathDescends(w, world, sk, path[..n]);
      assert Leads(w, world, path[n - 1], sk, path[n - 1 + 1]);
      EdgeDescends(w, world, path[n - 1], sk, path[n]);
      RecordsIn(w, world, path[0], sk);
      RecordsIn(w, world, path[n - 1], sk);
      RecordsIn(w, world, path[n], sk);
      BetterTwice(w.base(sk), world.nodes[path[n]].sources[sk].distance, world.nodes[path[n - 1]].sources[sk].distance,
                  world.nodes[path[0]].sources[sk].distance);
    }
  }

  lemma RecordsIn(w: Wiring, world: World, a: NodeId, sk: SourceKey)
    requires NetInv(w, world) && a in world.nodes && sk in world.nodes[a].sources
    ensures InWindow(w.base(sk), world.nodes[a].sources[sk].distance.seqno)
  {
    assert NodeOk(EnvAt(w, a), world.nodes[a]);
  }

  lemma BetterTwice(base: u16, a: Distance, b: Distance, c: Distance)
    requires InWindow(base, a.seqno) && InWindow(base, b.seqno) && InWindow(base, c.seqno)
    requires Better(base, a, b) && Better(base, b, c)
    ensures Better(base, a, c)
  {
    BetterChains(base, a, b, c);
  }

  lemma StrongIsOpen(w: Wiring, world: World, sk: SourceKey, path: seq<NodeId>)
    requires NetInv(w, world) && IsPath(w, world, sk, path) && Strong(world, sk.0, path) && |path| >= 2
    ensures path[0] != path[|path| - 1]
  {
    hide NetInv, Better, WeakAt;
    var z := |path| - 1;
    if path[0] == path[z] {
      assert Leads(w, world, path[z - 1], sk, path[z - 1 + 1]);
      EdgeDescends(w, world, path[z - 1], sk, path[z]);
      PathDescends(w, world, sk, path);
      RecordsIn(w, world, path[0], sk);
      NeverBetterThanItself(w.base(sk), world.nodes[path[0]].sources[sk].distance);
    }
  }

  /** In every run, whatever its events: if routes for one (key, router-id) form a
      loop, an earlier event undercut the key at a node of the loop. */
  lemma LoopHasCause(w: Wiring, worlds: seq<World>, moves: seq<Move>, i: nat, sk: SourceKey, path: seq<NodeId>)
    returns (p: nat, j: nat)
    requires Run(w, worlds, moves) && i < |worlds|
    requires IsPath(w, worlds[i], sk, path) && |path| >= 2 && path[0] == path[|path| - 1]
    ensures p < |path| && j < i && UndercutAt(moves[j], path[p], sk.0)
  {
    hide Run, NetInv, WeakAt, UndercutAt;
    RunKeeps(w, worlds, moves, i);
    assert !Strong(worlds[i], sk.0, path) by {
      if Strong(worlds[i], sk.0, path) { StrongIsOpen(w, worlds[i], sk, path); }
    }
    p :| 0 <= p < |path| - 1 && !(path[p] in worlds[i].nodes && sk.0 !in WeakAt(worlds[i].nodes[path[p]]));
    assert Leads(w, worlds[i], path[p], sk, path[p + 1]);
    j := WeakHasCause(w, worlds, moves, i, path[p], sk.0);
  }

  /** In every world of every run in which no event undercuts the key, its
      selected routes for one router-id form no loop. */
  lemma LoopFree(w: Wiring, worlds: seq<World>, moves: seq<Move>, i: nat, sk: SourceKey, path: seq<NodeId>)
    requires Run(w, worlds, moves) && i < |worlds|
    requires forall j :: 0 <= j < |moves| && moves[j].Act? ==> sk.0 !in moves[j].hits
    requires IsPath(w, worlds[i], sk, path) && |path| >= 2
    ensures path[0] != path[|path| - 1]
  {
    hide Moves, IsPath;
    if path[0] == path[|path| - 1] {
      var p, j := LoopHasCause(w, worlds, moves, i, sk, path);
    }
  }

  lemma NeverBetterThanItself(base: u16, d: Distance)
    ensures !Better(base, d, d)
  {
  }

  // ----- the engine class runs like this

  /** What happens to a network of engines: messages are lost, or an engine is handed an event. */
  datatype Task = Forget(lost: set<Message>) | Give(node: NodeId, event: Event)

  ghost predicate Wired(w: Wiring, engines: map<NodeId, Engine>) {
    && (forall a :: a in engines ==> engines[a].env == EnvAt(w, a))
    && (forall a, b :: a in engines && b in engines && a != b ==> engines[a] != engines[b])
  }

  ghost predicate AllSteady(engines: map<NodeId, Engine>)
    reads engines.Values
  {
    forall a :: a in engines ==> engines[a].Steady(engines[a].clock)
  }

  ghost predicate AllTame(engines: map<NodeId, Engine>)
    reads engines.Values
  {
    forall a :: a in engines ==> engines[a].tame
  }

  /** The world shows the tables of these engines. */
  ghost predicate Portrays(world: World, engines: map<NodeId, Engine>)
    reads engines.Values
  {
    world.nodes.Keys == engines.Keys && forall a :: a in engines ==> world.nodes[a] == ViewOf(engines[a])
  }

  /** The tasks from `i` on name engines of the network and lie in their future, each engine's in order. */
  ghost predicate Upcoming(engines: map<NodeId, Engine>, tasks: seq<Task>, i: nat)
    reads engines.Values
  {
    && (forall j :: i <= j < |tasks| && tasks[j].Give? ==>
          tasks[j].node in engines && engines[tasks[j].node].clock <= tasks[j].event.now)
    && (forall j, l :: i <= j < l < |tasks| && tasks[j].Give? && tasks[l].Give? && tasks[j].node == tasks[l].node ==>
          tasks[j].event.now <= tasks[l].event.now)
  }

  /** What the environment owes a move: packets carry messages under way, and records in use are fresh. */
  ghost predicate Owed(w: Wiring, world: World, m: Move) {
    m.Act? ==> m.node in world.nodes && Delivered(w, m.node, m.offers, world.flying) && Fresh(w, world, m.node, m.now)
  }

  ghost predicate AllOwed(w: Wiring, worlds: seq<World>, moves: seq<Move>) {
    |worlds| == |moves| + 1 && forall i :: 0 <= i < |moves| ==> Owed(w, worlds[i], moves[i])
  }

  /** What becomes of a task: losses take messages away, an event moves its engine. */
  ghost predicate Carried(engines: map<NodeId, Engine>, t: Task, world: World, m: Move, world': World, a: View,
                          b: View) {
    match t
    case Forget(lost) => m == Lose && world' == World(world.nodes, world.flying - lost)
    case Give(n, ev) => n in engines && Handed(engines[n].cfg, n, ev, world, m, world', a, b)
  }

  /** An invalid event does nothing; a valid one is a move on what it offers, undercutting what it does in
      the engine's tables. */
  ghost predicate Handed(cfg: Config, n: NodeId, ev: Event, world: World, m: Move, world': World, a: View, b: View) {
    && n in world.nodes && world.nodes[n] == NodeIn(a)
    && (if Accepted(ev) then
          && m.Act? && m.node == n && m.now == ev.now && m.offers == OffersOf(ev)
          && m.hits == Hits(Rules(cfg, a.policy), ev, b.neighbors, a.pending, a.candidates, a.selected)
          && world' == World(world.nodes[n := NodeIn(b)], world.flying + Sent(n, m.out))
        else m == Lose && world' == world)
  }

  function NodeIn(v: View): Node { Node(v.sources, v.candidates, v.selected) }

  lemma Acted(w: Wiring, world: World, m: Move, n': Node)
    requires m.Act? && m.node in world.nodes && Owed(w, world, m)
    requires NodeStep(EnvAt(w, m.node), m.now, world.nodes[m.node], m.offers, m.hits, n', m.out)
    ensures Moves(w, world, m, World(world.nodes[m.node := n'], world.flying + Sent(m.node, m.out)))
  {
    hide NodeStep, Delivered, Fresh, Sent;
    assert Acts(w, world, World(world.nodes[m.node := n'], world.flying + Sent(m.node, m.out)), m.node, m.now,
                m.offers, m.hits, n', m.out);
  }

  lemma Lost(w: Wiring, world: World, lost: set<Message>)
    ensures Moves(w, world, Lose, World(world.nodes, world.flying - lost))
  {
  }

  lemma NothingLost(w: Wiring, world: World)
    ensures Moves(w, world, Lose, world)
  {
  }

  method Hand(ghost w: Wiring, e: Engine, ghost n: NodeId, ev: Event, ghost world: World)
    returns (ghost m: Move, ghost world': World, ghost a: View, ghost b: View)
    requires e.Steady(e.clock) && e.clock <= ev.now && e.env == EnvAt(w, n)
    requires n in world.nodes && world.nodes[n] == ViewOf(e)
    modifies e
    ensures e.Steady(e.clock) && e.clock <= ev.now && world'.nodes == world.nodes[n := ViewOf(e)]
    ensures e.tame ==> old(e.tame) && (Owed(w, world, m) ==> Moves(w, world, m, world'))
    ensures Handed(e.cfg, n, ev, world, m, world', a, b)
  {
    hide NodeStep, Hits, OffersOf, Behaved, Engine.Steady, Accepted, Owed, Moves, Sent;
    NothingLost(w, world);
    a := e.Look();
    var r, bumps := Perform(e, ev);
    b := e.Look();
    m, world' := Lose, world;
    if r.Ok? {
      ghost var hits := Hits(Rules(e.cfg, a.policy), ev, b.neighbors, a.pending, a.candidates, a.selected);
      m := Act(n, ev.now, OffersOf(ev), hits, r.value);
      world' := World(world.nodes[n := ViewOf(e)], world.flying + Sent(n, r.value));
      if e.tame && Owed(w, world, m) { Acted(w, world, m, ViewOf(e)); }
    }
  }

  method Carry(ghost w: Wiring, engines: map<NodeId, Engine>, tasks: seq<Task>, i: nat, ghost world: World)
    returns (ghost m: Move, ghost world': World, ghost a: View, ghost b: View)
    requires Wired(w, engines) && AllSteady(engines) && Portrays(world, engines)
    requires i < |tasks| && Upcoming(engines, tasks, i)
    modifies engines.Values
    ensures AllSteady(engines) && Portrays(world', engines) && Upcoming(engines, tasks, i + 1)
    ensures AllTame(engines) ==> old(AllTame(engines)) && (Owed(w, world, m) ==> Moves(w, world, m, world'))
    ensures Carried(engines, tasks[i], world, m, world', a, b)
  {
    hide Owed, Moves, Handed, Engine.Steady;
    match tasks[i]
    case Forget(lost) =>
      m, world' := Lose, World(world.nodes, world.flying - lost);
      a, b := *, *;
      Lost(w, world, lost);
    case Give(n, ev) =>
      m, world', a, b := Hand(w, engines[n], n, ev, world);
  }

  lemma ShowsAll(world: World, engines: map<NodeId, Engine>)
    requires world.nodes == map a | a in engines :: ViewOf(engines[a])
    ensures Portrays(world, engines)
  {
  }

  lemma RunMore(w: Wiring, worlds: seq<World>, moves: seq<Move>, m: Move, world': World)
    requires Run(w, worlds, moves) && Moves(w, worlds[|moves|], m, world')
    ensures Run(w, worlds + [world'], moves + [m])
  {
    hide Moves;
    var worlds', moves' := worlds + [world'], moves + [m];
    forall i | 0 <= i < |moves'| ensures Moves(w, worlds'[i], moves'[i], worlds'[i + 1]) {
      if i < |moves| { assert Moves(w, worlds[i], moves[i], worlds[i + 1]); }
    }
  }

  lemma OwedBefore(w: Wiring, worlds: seq<World>, moves: seq<Move>, m: Move, world': World)
    requires AllOwed(w, worlds + [world'], moves + [m]) && |worlds| == |moves| + 1
    ensures AllOwed(w, worlds, moves) && Owed(w, worlds[|moves|], m)
  {
    hide Owed;
    var worlds', moves' := worlds + [world'], moves + [m];
    forall i | 0 <= i < |moves| ensures Owed(w, worlds[i], moves[i]) {
      assert Owed(w, worlds'[i], moves'[i]);
    }
    assert Owed(w, worlds'[|moves|], moves'[|moves|]);
  }

  /** New engines, handed any events: while the inputs keep to the windows and owners, packets
      carry messages under way and records in use are fresh, this is a run of the network. */
  method DriveAll(ghost w: Wiring, engines: map<NodeId, Engine>, tasks: seq<Task>)
    returns (ghost worlds: seq<World>, ghost moves: seq<Move>, ghost views: seq<(View, View)>)
    requires Wired(w, engines) && AllSteady(engines) && Upcoming(engines, tasks, 0)
    requires forall a :: a in engines ==> ViewOf(engines[a]) == Node(map[], map[], map[])
    modifies engines.Values
    ensures AllSteady(engines) && |worlds| == |tasks| + 1 && |moves| == |views| == |tasks|
    ensures Init(worlds[0]) && Portrays(worlds[|tasks|], engines)
    ensures forall i :: 0 <= i < |tasks| ==>
      Carried(engines, tasks[i], worlds[i], moves[i], worlds[i + 1], views[i].0, views[i].1)
    ensures AllTame(engines) && AllOwed(w, worlds, moves) ==> Run(w, worlds, moves)
  {
    hide Wired, AllSteady, AllTame, Portrays, Upcoming, Owed, Carried, Moves, AllOwed;
    ghost var nodes := map a | a in engines :: ViewOf(engines[a]);
    worlds, moves, views := [World(nodes, {})], [], [];
    ShowsAll(worlds[0], engines);
    for i := 0 to |tasks|
      invariant AllSteady(engines) && Upcoming(engines, tasks, i)
      invariant |worlds| == i + 1 && |moves| == |views| == i && Init(worlds[0]) && Portrays(worlds[i], engines)
      invariant forall j :: 0 <= j < i ==>
        Carried(engines, tasks[j], worlds[j], moves[j], worlds[j + 1], views[j].0, views[j].1)
      invariant AllTame(engines) && AllOwed(w, worlds, moves) ==> Run(w, worlds, moves)
    {
      ghost var m, world', a, b := Carry(w, engines, tasks, i, worlds[i]);
      if AllTame(engines) && AllOwed(w, worlds + [world'], moves + [m]) {
        OwedBefore(w, worlds, moves, m, world');
        RunMore(w, worlds, moves, m, world');
      }
      worlds, moves, views := worlds + [world'], moves + [m], views + [(a, b)];
    }
  }
}
