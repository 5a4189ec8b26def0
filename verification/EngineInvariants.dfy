/** Invariants of the engine, one concern each, and what every kind of step
    does to them (crates/babel-protocol/src/engine.rs and the files of its engine directory). */
module EngineInvariants {
  import opened Model
  import opened WireTypes
  import opened EngineTypes
  import opened Hysteresis
  import opened Feasibility
  import opened Reselection
  import opened Switching
  import opened Choosing
  import opened Bookkeeping
  import opened Announcing
  import opened Withdrawal
  import opened Updating
  import opened Undercutting

  // ----- invariants, one concern each
  /** Routes learned from others never carry this router's own identifier. */
  predicate Foreign(self: RouterId, cands: Candidates, selected: Selected) {
    AllForeign(self, cands) && forall k :: k in selected ==> selected[k].routerId != self
  }

  /** No key is both selected and held unreachable. */
  predicate Apart(selected: Selected, tombstones: Deadlines) { forall k :: k in selected ==> k !in tombstones }

  /** All origins carry the engine's sequence number and a finite metric. */
  predicate Synced(originated: Originated, sequenceNumber: u16) {
    forall k :: k in originated ==> originated[k].seqno == sequenceNumber && originated[k].metric != INFINITY
  }

  /** Within the hypotheses: every sequence number lies in its source's window. */
  ghost predicate Tame(env: Env, self: RouterId, cands: Candidates, sources: Sources, selected: Selected,
                       originated: Originated, sequenceNumber: u16) {
    && CandidatesIn(env, cands) && SourcesIn(env, sources)
    && (forall k :: k in selected ==> InWindow(env.base((k, selected[k].routerId)), selected[k].seqno))
    && (forall k :: k in originated ==> InWindow(env.base((k, self)), sequenceNumber))
  }

  /** Every selected key outside `tainted` keeps the feasibility condition. */
  ghost predicate Conditioned(cands: Candidates, sources: Sources, selected: Selected, tainted: set<RouteKey>) {
    forall k :: k in selected && k !in tainted ==> KeepsCondition(cands, sources, selected, k)
  }

  /** The wanted keys' selected entries may be announced, unless tainted. */
  ghost predicate BackedFor(only: Option<RouteKey>, cands: Candidates, selected: Selected, tainted: set<RouteKey>) {
    forall k :: k in selected && k !in tainted && Wanted(only, k) ==> Backed(cands, selected, k)
  }

  /** Every selected entry outside `except` may be announced as it stands. */
  ghost predicate AllBacked(cands: Candidates, selected: Selected, except: set<RouteKey>) {
    forall k :: k in selected && k !in except ==> Backed(cands, selected, k)
  }

  // ----- what a pass of announcements does to them
  lemma OutIsIn(env: Env, self: RouterId, cands: Candidates, sources: Sources, selected: Selected,
                originated: Originated, sequenceNumber: u16, out: set<Action>)
    requires Tame(env, self, cands, sources, selected, originated, sequenceNumber) && Honest(self, selected, out)
    requires forall a :: a in out && FiniteSend(a) && SourceOf(a).1 == self ==>
      SourceOf(a).0 in originated && DistanceOf(a).seqno == sequenceNumber
    ensures SendsIn(env, out)
  {
    hide InWindow, CandidatesIn, SourcesIn;
  }

  lemma PassKeepsConditioned(self: RouterId, cands: Candidates, s: Sources, out: set<Action>, now: u64, s': Sources,
                             selected: Selected, tainted: set<RouteKey>, only: Option<RouteKey>)
    requires Recorded(s, out, now, s') && Honest(self, selected, out) && Foreign(self, cands, selected)
    requires Conditioned(cands, s, selected, tainted) && About(only, out)
    requires BackedFor(only, cands, selected, tainted)
    ensures Conditioned(cands, s', selected, tainted)
  {
    hide Recorded, Honest, KeepsCondition, Backed, About;
    forall k | k in selected && k !in tainted ensures KeepsCondition(cands, s', selected, k) {
      if Wanted(only, k) {
        RecordedKeepsCondition(self, cands, s, out, now, s', selected, k);
      } else {
        UnconcernedKeepsCondition(cands, s, out, now, s', selected, only, k);
      }
    }
  }

  /** A stable selection is backed, within the hypotheses. */
  lemma StableIsBacked(env: Env, cfg: Selection, cands: Candidates, sources: Sources, selected: Selected,
                       pending: set<RouteKey>)
    requires CandidatesIn(env, cands) && Stable(cfg, cands, sources, selected, pending) && Extended(cands)
    ensures AllBacked(cands, selected, {})
  {
    hide CandidatesIn, Eligible, Significant;
    forall k | k in selected ensures Backed(cands, selected, k) {
      assert StableKey(cfg, cands, sources, selected, pending, k);
      var here :| here in cands && here.0 == k && cands[here].metric < INFINITY
        && selected[k] == FromCandidate(here, cands[here]);
      forall ck | ck in cands && ck.0 == k && Same(selected[k], ck, cands[ck])
        ensures cands[ck].Offered().FeasibleAgainst(Distance(selected[k].seqno, selected[k].metric))
      {
        IdentityIsUnique(env, cands, ck, here, selected[k]);
      }
    }
  }

  // ----- what a reselection does to them
  lemma ChosenFrom(cfg: Selection, cands: Candidates, sources: Sources, selected: Selected, m: Memory, now: u64,
                   k: RouteKey, selected': Selected, m': Memory) returns (ck: CandidateKey)
    requires KeyReselected(cfg, cands, sources, selected, m, now, k, selected', m') && k in selected'
    ensures ck in cands && ck.0 == k && selected'[k] == FromCandidate(ck, cands[ck]) && cands[ck].metric < INFINITY
  {
    hide Decide, Preferred, Significant;
    var cur, best :| Chose(cfg, cands, sources, selected, m, now, k, cur, best, selected', m');
    TakenIsEligible(cfg, cands, sources, selected, m, now, k, cur, best);
    ck := Taken(cfg, Known(selected, m, k), cands, now, cur, best);
  }

  /** Keys still on the route they were tainted on. */
  function StillTainted(tainted: set<RouteKey>, before: Selected, selected: Selected): set<RouteKey> {
    set k | k in tainted && k in before && k in selected && IdentOf(before[k]) == IdentOf(selected[k])
  }

  lemma ReselectionKeeps(env: Env, cfg: Config, cands: Candidates, sources: Sources, before: Selected, m: Memory,
                         now: u64, selected: Selected, m': Memory, originated: Originated, sequenceNumber: u16)
    requires Reselected(cfg.selection, cands, sources, before, m, now, selected, m')
      && Foreign(cfg.routerId, cands, before)
    ensures Foreign(cfg.routerId, cands, selected)
    ensures Tame(env, cfg.routerId, cands, sources, before, originated, sequenceNumber) ==>
      Tame(env, cfg.routerId, cands, sources, selected, originated, sequenceNumber)
  {
    hide KeyReselected, InWindow;
    forall k | k in selected
      ensures selected[k].routerId != cfg.routerId
      ensures Tame(env, cfg.routerId, cands, sources, before, originated, sequenceNumber) ==>
        InWindow(env.base((k, selected[k].routerId)), selected[k].seqno)
    {
      assert KeyReselected(cfg.selection, cands, sources, before, m, now, k, selected, m');
      var ck := ChosenFrom(cfg.selection, cands, sources, before, m, now, k, selected, m');
    }
  }

  lemma ReselectionKeepsConditioned(env: Env, cfg: Selection, cands: Candidates, sources: Sources, before: Selected,
                                    m: Memory, now: u64, selected: Selected, m': Memory, tainted: set<RouteKey>)
    requires CandidatesIn(env, cands) && Reselected(cfg, cands, sources, before, m, now, selected, m')
    requires Conditioned(cands, sources, before, tainted)
    ensures Conditioned(cands, sources, selected, StillTainted(tainted, before, selected))
  {
    hide KeyReselected, CandidatesIn, KeepsCondition;
    forall k | k in selected && k !in StillTainted(tainted, before, selected)
      ensures KeepsCondition(cands, sources, selected, k)
    {
      assert KeyReselected(cfg, cands, sources, before, m, now, k, selected, m');
      MovingMeetsCondition(env, cfg, cands, sources, before, m, now, k, selected, m');
    }
  }

  /** The metric moved enough to be announced at once. */
  predicate Notable(before: SelectedRoute, after: SelectedRoute) {
    var delta := if before.metric <= after.metric then after.metric - before.metric else before.metric - after.metric;
    before.routerId != after.routerId || delta >= 96 || delta * 4 >= Max(before.metric, 1)
  }

  function ChangedKeys(before: Selected, selected: Selected): set<RouteKey> {
    set k | k in selected && (k !in before || Notable(before[k], selected[k]))
  }

  /** Finite announcements speak only of selected routes, as they stand. */
  predicate OnlyLearned(selected: Selected, out: set<Action>) {
    forall a :: a in out && FiniteSend(a) ==>
      var (k, r) := SourceOf(a);
      k in selected && selected[k].routerId == r && DistanceOf(a) == Distance(selected[k].seqno, selected[k].metric)
  }

  /** What a reselection reports: a new snapshot exactly when something changed,
      retractions for lost keys, announcements for notable changes. */
  predicate Reported(o: Outlet, before: Selected, selected: Selected, buried: set<RouteKey>, unreachable: set<RouteKey>,
                     generation: u64, now: u64, out: set<Action>) {
    && (if selected != before || unreachable != buried then RoutesChanged(generation, selected, unreachable) in out
      else out == {})
    && Retractions(o, before.Keys - selected.Keys, before, now) <= out
    && ChangeSends(o, selected, ChangedKeys(before, selected), now) <= out
  }

  /** Requests may only be added on our own behalf. */
  predicate RequestsKept(was: Pending, requests: Pending) {
    && (forall sk :: sk in was ==> sk in requests && requests[sk] == was[sk])
    && (forall sk :: sk in requests && sk !in was ==> requests[sk].requester == None)
  }

  /** An infeasible but reachable candidate of a lost key can be asked for a newer sequence number. */
  predicate CanAsk(cands: Candidates, sources: Sources, selected: Selected, k: RouteKey, ck: CandidateKey) {
    ck in cands && ck.0 == k && cands[ck].metric < INFINITY && !IsFeasible(sources, selected, ck, cands[ck])
  }

  function AskFor(sources: Sources, sk: SourceKey, lastSeqno: u16): u16 {
    WrapAdd16(if sk in sources then sources[sk].distance.seqno else lastSeqno, 1)
  }

  // ----- what a change of candidates does to them
  lemma SubduedKeepsAll(env: Env, self: RouterId, cands: Candidates, cands': Candidates, sources: Sources,
                        selected: Selected, originated: Originated, sequenceNumber: u16, tainted: set<RouteKey>)
    requires Subdued(cands, cands')
    ensures Foreign(self, cands, selected) ==> Foreign(self, cands', selected)
    ensures Tame(env, self, cands, sources, selected, originated, sequenceNumber) ==>
      Tame(env, self, cands', sources, selected, originated, sequenceNumber)
    ensures Conditioned(cands, sources, selected, tainted) ==> Conditioned(cands', sources, selected, tainted)
  {
    hide Subdued, CandidatesIn, SourcesIn, InWindow, AllForeign, KeepsCondition;
    SubduedStaysIn(env, self, cands, cands');
    if Conditioned(cands, sources, selected, tainted) {
      forall k | k in selected && k !in tainted ensures KeepsCondition(cands', sources, selected, k) {
        SubduedKeepsCondition(cands, cands', sources, selected, k);
      }
    }
  }

  /** The update keeps to the window of its source and its next hop belongs to its sender. */
  ghost predicate Acceptable(env: Env, nk: NeighborKey, u: ResolvedUpdate) {
    Teaches(u) ==>
      && InWindow(env.base((u.key.value, u.routerId.value)), u.seqno)
      && env.owner(nk.interface, u.nextHop.value) == nk.address
  }

  // ----- inputs that stay within the hypotheses

  ghost predicate OwnIn(env: Env, self: RouterId, originated: Originated, sequenceNumber: u16) {
    forall k :: k in originated ==> InWindow(env.base((k, self)), sequenceNumber)
  }

  ghost predicate OwnAt(env: Env, self: RouterId, k: RouteKey, n: u16, j: nat) {
    InWindow(env.base((k, self)), WrapAdd16(n, j))
  }

  /** The engine's own numbers, up to this many bumps, lie in the windows of these keys. */
  ghost predicate Windowed(env: Env, self: RouterId, keys: set<RouteKey>, n: u16, bumps: nat) {
    forall k, j :: k in keys && 0 <= j <= bumps ==> OwnAt(env, self, k, n, j)
  }

  lemma WindowedFewer(env: Env, self: RouterId, keys: set<RouteKey>, n: u16, bumps: nat, keys': set<RouteKey>,
                      bumps': nat)
    requires Windowed(env, self, keys, n, bumps) && keys' <= keys && bumps' <= bumps
    ensures Windowed(env, self, keys', n, bumps')
  {
    hide OwnAt;
  }

  lemma WindowedOwn(env: Env, self: RouterId, keys: set<RouteKey>, n: u16, bumps: nat, own: Originated)
    requires Windowed(env, self, keys, n, bumps) && own.Keys <= keys
    ensures OwnIn(env, self, own, WrapAdd16(n, bumps))
  {
    hide InWindow;
    forall k | k in own ensures InWindow(env.base((k, self)), WrapAdd16(n, bumps)) {
      assert OwnAt(env, self, k, n, bumps);
    }
  }

  lemma WindowedLater(env: Env, self: RouterId, keys: set<RouteKey>, n: u16, a: nat, b: nat)
    requires Windowed(env, self, keys, n, a + b)
    ensures Windowed(env, self, keys, WrapAdd16(n, a), b)
  {
    hide InWindow;
    forall k, j | k in keys && 0 <= j <= b ensures OwnAt(env, self, k, WrapAdd16(n, a), j) {
      assert OwnAt(env, self, k, n, a + j);
      assert WrapAdd16(WrapAdd16(n, a), j) == WrapAdd16(n, a + j);
    }
  }

  /** Every update of the packet keeps to the window of its source and names the next hop's owner. */
  ghost predicate Behaves(env: Env, nk: NeighborKey, tlvs: seq<Tlv>) {
    forall i :: 0 <= i < |tlvs| && tlvs[i].Update? ==> Acceptable(env, nk, tlvs[i].update)
  }

  /** The hypotheses hold after the packet if they held before and it keeps to them. */
  ghost predicate StaysTame(env: Env, self: RouterId, nk: NeighborKey, tlvs: seq<Tlv>, keys: set<RouteKey>, n: u16,
                            bumps: nat, tame: bool, tame': bool) {
    tame && Behaves(env, nk, tlvs) && Windowed(env, self, keys, n, bumps) ==> tame'
  }

  lemma StaysTameMore(env: Env, self: RouterId, nk: NeighborKey, tlvs: seq<Tlv>, tlv: Tlv, keys: set<RouteKey>, n: u16,
                      a: nat, b: nat, t0: bool, t1: bool, t2: bool)
    requires StaysTame(env, self, nk, tlvs, keys, n, a, t0, t1)
      && StaysTame(env, self, nk, [tlv], keys, WrapAdd16(n, a), b, t1, t2)
    ensures StaysTame(env, self, nk, tlvs + [tlv], keys, n, a + b, t0, t2)
  {
    hide Windowed, Acceptable;
    var more := tlvs + [tlv];
    if t0 && Behaves(env, nk, more) && Windowed(env, self, keys, n, a + b) {
      assert forall i :: 0 <= i < |tlvs| ==> more[i] == tlvs[i];
      assert more[|tlvs|] == tlv;
      WindowedFewer(env, self, keys, n, a + b, keys, a);
      WindowedLater(env, self, keys, n, a, b);
    }
  }

  lemma TameAfterTlv(env: Env, self: RouterId, nk: NeighborKey, tlv: Tlv, keys: set<RouteKey>, n: u16, bumps: nat,
                     t: bool, t': bool)
    requires t && (tlv.Update? ==> Acceptable(env, nk, tlv.update)) && Windowed(env, self, keys, n, bumps) ==> t'
    ensures StaysTame(env, self, nk, [tlv], keys, n, bumps, t, t')
  {
    hide Acceptable, Windowed;
    assert [tlv][0] == tlv;
  }

  lemma TameStays(env: Env, self: RouterId, nk: NeighborKey, keys: set<RouteKey>, n: u16, tame: bool)
    ensures StaysTame(env, self, nk, [], keys, n, 0, tame, tame)
  {
  }

  lemma TameKept(env: Env, self: RouterId, nk: NeighborKey, tlvs: seq<Tlv>, keys: set<RouteKey>, n: u16, bumps: nat,
                 tame: bool)
    ensures StaysTame(env, self, nk, tlvs, keys, n, bumps, tame, tame)
  {
  }

  /** Counters aside, every neighbour is as it was. */
  predicate QualityKept(neighbors: Neighbors, neighbors': Neighbors) {
    neighbors'.Keys == neighbors.Keys
    && forall nk :: nk in neighbors ==> neighbors'[nk] == neighbors[nk].(candidates := neighbors'[nk].candidates)
  }

  lemma QualityKeepsPrices(algebra: (u16, u16) -> u16, neighbors: Neighbors, neighbors': Neighbors, cands: Candidates)
    requires QualityKept(neighbors, neighbors') && Priced(algebra, neighbors, cands)
    ensures Priced(algebra, neighbors', cands)
  {
    forall ck | ck in cands && ck.1 in neighbors'
      ensures cands[ck].metric == SafeExtend(algebra, cands[ck].advertised, LinkCost(neighbors'[ck.1]))
    {
      assert LinkCost(neighbors'[ck.1]) == LinkCost(neighbors[ck.1]);
    }
  }

  /** Storing a candidate, possibly after answering requests with it. */
  lemma StoredKeepsAll(env: Env, self: RouterId, cands: Candidates, s: Sources, s': Sources, selected: Selected,
                       originated: Originated, sequenceNumber: u16, tainted: set<RouteKey>, ck: CandidateKey,
                       c: Candidate, now: u64, answered: bool, tainted': set<RouteKey>)
    requires Foreign(self, cands, selected) && Extended(cands)
    requires c.routerId != self && (c.metric != INFINITY ==> c.advertised < c.metric)
    requires ck.0 in selected && Same(selected[ck.0], ck, c) ==> MeetsFeasibility(s, ck, c)
    requires s' == if answered then Maintain(s, (ck.0, c.routerId), Distance(c.seqno, c.metric), now) else s
    requires answered ==> c.metric != INFINITY
    requires tainted' == Exempted(tainted, answered, cands, selected, ck, c)
    ensures Foreign(self, cands[ck := c], selected) && Extended(cands[ck := c])
    ensures (&& Tame(env, self, cands, s, selected, originated, sequenceNumber)
             && InWindow(env.base((ck.0, c.routerId)), c.seqno) && env.owner(ck.1.interface, c.nextHop) == ck.1.address
             && Conditioned(cands, s, selected, tainted)) ==>
      && Tame(env, self, cands[ck := c], s', selected, originated, sequenceNumber)
      && Conditioned(cands[ck := c], s', selected, tainted') && Improved(env, now, s, s')
  {
    hide InWindow, KeepsCondition, MeetsFeasibility, SourcesIn, Improved, Backs;
    var stored := cands[ck := c];
    if Tame(env, self, cands, s, selected, originated, sequenceNumber)
      && InWindow(env.base((ck.0, c.routerId)), c.seqno)
       && env.owner(ck.1.interface, c.nextHop) == ck.1.address && Conditioned(cands, s, selected, tainted) {
      MaintainOrNot(env, s, (ck.0, c.routerId), Distance(c.seqno, c.metric), now, answered);
      assert CandidatesIn(env, stored);
      forall k | k in selected && k !in tainted' ensures KeepsCondition(stored, s', selected, k) {
        if k == ck.0 {
          StoredKeepsCondition(cands, s, s', selected, ck, c, now, answered);
        } else {
          StoredElsewhere(cands, s, s', selected, ck, c, k);
        }
      }
    }
  }

  lemma MaintainOrNot(env: Env, s: Sources, sk: SourceKey, d: Distance, now: u64, answered: bool)
    requires SourcesIn(env, s) && InWindow(env.base(sk), d.seqno)
    ensures var s' := if answered then Maintain(s, sk, d, now) else s;
      && SourcesIn(env, s') && Improved(env, now, s, s')
      && forall other: SourceKey :: other.0 != sk.0 ==>
        (other in s' <==> other in s) && (other in s ==> s'[other] == s[other])
  {
    MaintainImproves(env, s, sk, d, now);
  }

  lemma RetractedFacts(rules: Rules, cands: Candidates, keys: set<CandidateKey>, nk: NeighborKey, u: ResolvedUpdate)
    ensures Absorbed(rules, cands, RetractKeys(cands, keys), nk, u)
  {
  }

  // ----- origins
  function Stamped(originated: Originated, sequenceNumber: u16): Originated {
    map k | k in originated :: Origin(originated[k].metric, sequenceNumber)
  }

  /** The sequence number moved on by `n`, and all origins with it. */
  predicate Bumped(originated: Originated, sequenceNumber: u16, originated': Originated, sequenceNumber': u16, n: nat) {
    sequenceNumber' == WrapAdd16(sequenceNumber, n) && originated' == Stamped(originated, sequenceNumber')
  }

  lemma BumpedIs(o0: Originated, n0: u16, o1: Originated, n1: u16, n: nat)
    requires Bumped(o0, n0, o1, n1, n)
    ensures n1 == WrapAdd16(n0, n) && o1.Keys == o0.Keys
  {
  }

  lemma BumpedMore(o0: Originated, n0: u16, o1: Originated, n1: u16, o2: Originated, n2: u16, a: nat, b: nat)
    requires Bumped(o0, n0, o1, n1, a) && Bumped(o1, n1, o2, n2, b)
    ensures Bumped(o0, n0, o2, n2, a + b)
  {
  }

  lemma NotBumped(originated: Originated, sequenceNumber: u16)
    requires Synced(originated, sequenceNumber)
    ensures Bumped(originated, sequenceNumber, originated, sequenceNumber, 0)
  {
  }

  // ----- link quality
  /** What the Hello histories and RTT samples say after a packet or tick. */
  datatype Sense = Sense(rx: u16, restarted: bool, penalty: u16)

  /** Only this neighbour may be new or have changed, and no count has. */
  ghost predicate OnlyAt(nk: NeighborKey, neighbors: Neighbors, neighbors': Neighbors) {
    && (forall n :: n != nk ==>
          (n in neighbors' <==> n in neighbors) && (n in neighbors ==> neighbors'[n] == neighbors[n]))
    && (nk in neighbors ==> nk in neighbors' && neighbors'[nk].candidates == neighbors[nk].candidates)
    && (nk !in neighbors && nk in neighbors' ==> neighbors'[nk].candidates == 0)
  }

  lemma OnlyAtKeepsBalance(limits: Limits, neighbors: Neighbors, cands: Candidates, nk: NeighborKey,
                           neighbors': Neighbors)
    requires Balanced(limits, neighbors, cands) && OnlyAt(nk, neighbors, neighbors')
    requires nk !in neighbors ==> |neighbors| < limits.maxNeighbors || nk !in neighbors'
    ensures Balanced(limits, neighbors', cands)
  {
    hide Balanced;
    if nk in neighbors || nk !in neighbors' {
      assert neighbors'.Keys == neighbors.Keys;
      InPlaceKeeps(limits, neighbors, cands, neighbors', cands);
    } else {
      assert neighbors' == neighbors[nk := neighbors'[nk]];
      MeetKeeps(limits, neighbors, cands, nk, neighbors'[nk]);
    }
  }

  lemma SameCostSamePrices(algebra: (u16, u16) -> u16, limits: Limits, neighbors: Neighbors, cands: Candidates,
                           nk: NeighborKey, neighbors': Neighbors)
    requires Priced(algebra, neighbors, cands) && OnlyAt(nk, neighbors, neighbors')
      && Balanced(limits, neighbors, cands)
    requires CostOf(neighbors, nk) == CostOf(neighbors', nk)
    ensures Priced(algebra, neighbors', cands)
  {
    hide LinkCost, SafeExtend, Counted, WithinLimits;
  }

  function MeetNeighbor(policy: InterfacePolicy): Neighbor {
    Neighbor(0, INFINITY, INFINITY, 0, policy.etx, None, Min(policy.helloIntervalCs * 3, U16_MAX))
  }

  predicate HasHello(tlvs: seq<Tlv>) { exists i :: 0 <= i < |tlvs| && tlvs[i].Hello? }

  /** The neighbour after a packet's Hellos: met if new, reset if restarted. */
  function Greeted(neighbors: Neighbors, nk: NeighborKey, tlvs: seq<Tlv>, policy: InterfacePolicy,
                   sense: Sense): Neighbors {
    var met :=
      if !HasHello(tlvs) then neighbors
      else
        var n := if nk in neighbors then neighbors[nk] else MeetNeighbor(policy);
        var fresh_ := if sense.restarted then n.(tx := INFINITY, penalty := 0, etx := policy.etx, lastIhu := None)
          else n;
        neighbors[nk := fresh_.(rx := sense.rx)];
    if nk in met then met[nk := met[nk].(penalty := sense.penalty)] else met
  }

  predicate Applies(tlv: Tlv, local: seq<IpAddr>) {
    tlv.Ihu? && tlv.intervalCs != 0 && (tlv.address.None? || local == [] || tlv.address.value in local)
  }

  /** The last IHU that applies decides the transmit cost and the IHU timer; nothing else changes. */
  ghost predicate Heard(n: Neighbor, tlvs: seq<Tlv>, local: seq<IpAddr>, now: u64, n': Neighbor) {
    && n'.candidates == n.candidates && n'.rx == n.rx && n'.penalty == n.penalty && n'.etx == n.etx
    && (forall i ::
          (0 <= i < |tlvs| && Applies(tlvs[i], local) && (forall j :: i < j < |tlvs| ==> !Applies(tlvs[j], local))) ==>
          n'.tx == tlvs[i].rxcost && n'.lastIhu == Some(now) && n'.ihuIntervalCs == tlvs[i].intervalCs)
    && ((forall i :: 0 <= i < |tlvs| ==> !Applies(tlvs[i], local)) ==> n' == n)
  }

  lemma HeardKeepsCount(n: Neighbor, tlvs: seq<Tlv>, local: seq<IpAddr>, now: u64, n': Neighbor)
    requires Heard(n, tlvs, local, now, n')
    ensures n'.candidates == n.candidates
  {
  }

  /** The packet is taken from a known interface of the right family, and there is room for its sender. */
  predicate Admits(cfg: Config, interfaces: Interfaces, neighbors: Neighbors, nk: NeighborKey, tlvs: seq<Tlv>) {
    && nk.interface in interfaces && (interfaces[nk.interface].policy.v4Transport <==> nk.address.family == V4)
    && (nk in neighbors || |neighbors| < cfg.limits.maxNeighbors || !HasHello(tlvs))
  }

  /** A packet's observations: its sender's record, and the sender's candidates at the new link cost. */
  ghost predicate Observed(cfg: Config, interfaces: Interfaces, nk: NeighborKey, tlvs: seq<Tlv>, now: u64, sense: Sense,
                           neighbors: Neighbors, cands: Candidates, s: Snap) {
    nk.interface in interfaces
    && var greeted := Greeted(neighbors, nk, tlvs, interfaces[nk.interface].policy, sense);
       && OnlyAt(nk, neighbors, s.neighbors) && (nk in s.neighbors <==> nk in greeted)
       && (nk in greeted && nk in s.neighbors ==>
         Heard(greeted[nk], tlvs, interfaces[nk.interface].addresses, now, s.neighbors[nk]))
       && s.candidates == if CostOf(neighbors, nk) == CostOf(s.neighbors, nk) then cands
         else Reprice(cands, cfg.algebra, s.neighbors, {nk})
  }

  lemma ObservedKeys(cfg: Config, interfaces: Interfaces, nk: NeighborKey, tlvs: seq<Tlv>, now: u64, sense: Sense,
                     neighbors: Neighbors, cands: Candidates, s: Snap)
    requires Observed(cfg, interfaces, nk, tlvs, now, sense, neighbors, cands, s)
    ensures s.candidates.Keys == cands.Keys
  {
    hide Greeted, OnlyAt, Heard, CostOf;
  }

  /** A whole packet: its observations first, then each of its TLVs in order. */
  ghost predicate Processed(o: Outlet, selected: Selected, nk: NeighborKey, tlvs: seq<Tlv>, now: u64, sense: Sense,
                            a: Snap, trail: seq<Snap>, neighbors': Neighbors, cands': Candidates) {
    && Applied(o, selected, nk, tlvs, now, trail)
    && Observed(o.cfg, o.interfaces, nk, tlvs, now, sense, a.neighbors, a.candidates, trail[0])
    && trail[0].sources == a.sources && trail[0].pending == a.pending
    && trail[|tlvs|].neighbors == neighbors' && trail[|tlvs|].candidates == cands'
  }

  /** The end of a packet: at most one reselection, on the tables its last TLV left. */
  ghost predicate Concluded(cfg: Config, env: Env, tame: bool, now: u64, last: Snap, sources: Sources,
                            selected: Selected, m: Memory, selected': Selected, m': Memory) {
    && ((selected' == selected && m' == m)
        || Reselected(cfg.selection, last.candidates, last.sources, selected, m, now, selected', m'))
    && (tame ==> ImprovedLive(env, now, last.sources, sources))
  }

  /** What a packet leaves in the tables, and what it accounts for. */
  ghost predicate PacketTook(o: Outlet, selected: Selected, nk: NeighborKey, tlvs: seq<Tlv>, now: u64, sense: Sense,
                             backed: bool, a: Ledger, trail: seq<Snap>, neighbors': Neighbors, cands': Candidates,
                             tainted': set<RouteKey>) {
    && |trail| == |tlvs| + 1
    && Processed(o, selected, nk, tlvs, now, sense, SnapOf(a), trail, neighbors', cands')
    && Traced(RulesOf(o), a.candidates, cands', nk, tlvs)
    && (backed ==> OnlyUndercut(RulesOf(o), CostOf(neighbors', nk), a.pending, a.candidates, selected, nk, tlvs,
                                a.tainted, tainted'))
  }

  lemma SoFarEnds(o: Outlet, selected: Selected, nk: NeighborKey, tlvs: seq<Tlv>, now: u64, sense: Sense, a: Ledger,
                  mid: Ledger, trail: seq<Snap>, rerouted: set<RouteKey>, b: Ledger)
    requires SoFar(o, selected, nk, now, a.candidates, mid, tlvs, trail, rerouted, b)
    requires Observed(o.cfg, o.interfaces, nk, tlvs, now, sense, a.neighbors, a.candidates, SnapOf(mid))
    requires mid.sources == a.sources && mid.pending == a.pending && mid.tainted == a.tainted
    ensures PacketTook(o, selected, nk, tlvs, now, sense, AllBacked(a.candidates, selected, {}), a, trail, b.neighbors,
                       b.candidates, b.tainted)
    ensures |trail| == |tlvs| + 1 && trail[|tlvs|] == SnapOf(b) && rerouted == Rerouted(nk, tlvs, trail)
  {
    hide Observed, Applied, Traced, OnlyUndercut, CostOf, AllBacked, Rerouted, WaitsTraced;
  }

  lemma PacketEnds(o: Outlet, selected: Selected, nk: NeighborKey, tlvs: seq<Tlv>, now: u64, sense: Sense, backed: bool,
                   a: Ledger, trail: seq<Snap>, neighbors': Neighbors, cands': Candidates, t: set<RouteKey>,
                   t': set<RouteKey>)
    requires PacketTook(o, selected, nk, tlvs, now, sense, backed, a, trail, neighbors', cands', t) && t' <= t
    ensures PacketTook(o, selected, nk, tlvs, now, sense, backed, a, trail, neighbors', cands', t')
  {
    hide Processed, Traced, OnlyUndercut, CostOf;
    if backed {
      FewerTainted(RulesOf(o), CostOf(neighbors', nk), a.pending, a.candidates, selected, nk, tlvs, a.tainted, t,
                   t');
    }
  }

  lemma PacketBacked(o: Outlet, selected: Selected, nk: NeighborKey, tlvs: seq<Tlv>, now: u64, sense: Sense,
                     backed: bool, a: Ledger, trail: seq<Snap>, neighbors': Neighbors, cands': Candidates,
                     t: set<RouteKey>)
    requires PacketTook(o, selected, nk, tlvs, now, sense, AllBacked(a.candidates, selected, {}), a, trail, neighbors',
                        cands', t)
    requires backed ==> AllBacked(a.candidates, selected, {})
    ensures PacketTook(o, selected, nk, tlvs, now, sense, backed, a, trail, neighbors', cands', t)
  {
    hide Processed, Traced, OnlyUndercut, CostOf, AllBacked;
  }

  lemma ConcludesWith(cfg: Config, env: Env, tame: bool, now: u64, last: Snap, s: Sources, sources: Sources,
                      selected: Selected, m: Memory, selected': Selected, m': Memory, out: set<Action>, dirty: bool)
    requires last.sources == s && (tame ==> Going(env, now, s, sources, out))
    requires if dirty then Reselected(cfg.selection, last.candidates, s, selected, m, now, selected', m')
      else selected' == selected && m' == m
    ensures Concluded(cfg, env, tame, now, last, sources, selected, m, selected', m')
  {
    hide Reselected, ImprovedLive, Covered, SourcesIn;
  }

  lemma GreetedOnlyAt(neighbors: Neighbors, nk: NeighborKey, tlvs: seq<Tlv>, policy: InterfacePolicy, sense: Sense)
    ensures OnlyAt(nk, neighbors, Greeted(neighbors, nk, tlvs, policy, sense))
    ensures nk in Greeted(neighbors, nk, tlvs, policy, sense) <==> nk in neighbors || HasHello(tlvs)
  {
    hide HasHello;
  }

  lemma OnlyAtTwice(nk: NeighborKey, a: Neighbors, b: Neighbors, n: Neighbor)
    requires OnlyAt(nk, a, b) && nk in b && n.candidates == b[nk].candidates
    ensures OnlyAt(nk, a, b[nk := n])
  {
  }

  function SeqnoRequests(tlvs: seq<Tlv>): nat {
    if tlvs == [] then 0 else SeqnoRequests(tlvs[..|tlvs| - 1]) + if tlvs[|tlvs| - 1].SeqnoRequest? then 1 else 0
  }

  /** Selected keys, among the wanted, whose entry the candidate behind it no longer beats. */
  ghost function Unbacked(only: Option<RouteKey>, cands: Candidates, selected: Selected): set<RouteKey> {
    set k | k in selected && Wanted(only, k) && !Backed(cands, selected, k)
  }

  lemma TaintingIsSafe(only: Option<RouteKey>, cands: Candidates, sources: Sources, selected: Selected,
                       tainted: set<RouteKey>)
    ensures BackedFor(only, cands, selected, tainted + Unbacked(only, cands, selected))
    ensures Conditioned(cands, sources, selected, tainted) ==>
      Conditioned(cands, sources, selected, tainted + Unbacked(only, cands, selected))
  {
    hide Backed, KeepsCondition;
  }

  lemma AllBackedMeans(cands: Candidates, selected: Selected)
    requires AllBacked(cands, selected, {})
    ensures forall k :: k in selected ==> Backed(cands, selected, k)
  {
  }

  /** The key of a finite update that changes an existing candidate's router. */
  predicate Reroutes(cands: Candidates, nk: NeighborKey, u: ResolvedUpdate) {
    u.metric < INFINITY && u.key.Some? && u.routerId.Some? && (u.key.value, nk) in cands
    && cands[(u.key.value, nk)].routerId != u.routerId.value
  }

  /** What the Hello timers say at a tick: receive cost now, and whether nothing was heard at all. */
  datatype TickSense = TickSense(rx: u16, silent: bool)

  function Sensed(neighbors: Neighbors, senses: map<NeighborKey, TickSense>): Neighbors {
    map nk | nk in neighbors :: if nk in senses then neighbors[nk].(rx := senses[nk].rx) else neighbors[nk]
  }

  predicate IhuExpired(n: Neighbor, now: u64) { n.lastIhu.Some? && now > Lifetime(n.lastIhu.value, n.ihuIntervalCs) }

  function AfterIhuExpiry(neighbors: Neighbors, now: u64): Neighbors {
    map nk | nk in neighbors ::
      if IhuExpired(neighbors[nk], now) then neighbors[nk].(lastIhu := None, tx := INFINITY) else neighbors[nk]
  }

  predicate CostsKept(neighbors: Neighbors, neighbors': Neighbors, who: set<NeighborKey>) {
    forall nk :: nk in neighbors' && nk !in who ==>
      nk in neighbors && LinkCost(neighbors'[nk]) == LinkCost(neighbors[nk])
  }

  function WithoutNeighbors(cands: Candidates, gone: set<NeighborKey>): Candidates {
    map ck | ck in cands && ck.1 !in gone :: cands[ck]
  }

  function Aged(neighbors: Neighbors, senses: map<NeighborKey, TickSense>, silent: set<NeighborKey>,
                now: u64): Neighbors {
    AfterIhuExpiry(Sensed(neighbors, senses) - silent, now)
  }

  /** Dropping silent neighbours with their candidates keeps the books. */
  lemma AgingIsBalanced(limits: Limits, neighbors: Neighbors, cands: Candidates, senses: map<NeighborKey, TickSense>,
                        silent: set<NeighborKey>, now: u64)
    requires Balanced(limits, neighbors, cands)
    ensures Balanced(limits, Aged(neighbors, senses, silent, now), WithoutNeighbors(cands, silent))
  {
    hide Balanced, IhuExpired;
    var sensed := Sensed(neighbors, senses);
    InPlaceKeeps(limits, neighbors, cands, sensed, cands);
    DropKeeps(limits, sensed, cands, silent, WithoutNeighbors(cands, silent));
    InPlaceKeeps(limits, sensed - silent, WithoutNeighbors(cands, silent), AfterIhuExpiry(sensed - silent, now),
                 WithoutNeighbors(cands, silent));
  }

  /** Costs change only where a receive cost changed or an IHU ran out. */
  lemma AgingNotesCosts(neighbors: Neighbors, senses: map<NeighborKey, TickSense>, silent: set<NeighborKey>, now: u64)
    ensures CostsKept(neighbors, Aged(neighbors, senses, silent, now), Noted(neighbors, senses, now))
  {
    hide LinkCost;
    var sensed := Sensed(neighbors, senses);
    forall nk | nk in Aged(neighbors, senses, silent, now) && nk !in Noted(neighbors, senses, now)
      ensures nk in neighbors && Aged(neighbors, senses, silent, now)[nk] == neighbors[nk]
    {
      assert sensed[nk] == neighbors[nk];
    }
  }

  lemma DroppingIsSubdued(neighbors: Neighbors, cands: Candidates, silent: set<NeighborKey>)
    requires Attached(neighbors, cands)
    ensures Subdued(cands, WithoutNeighbors(cands, silent))
      && (Extended(cands) ==> Extended(WithoutNeighbors(cands, silent)))
    ensures (forall nk :: nk in silent ==> nk !in neighbors) ==> WithoutNeighbors(cands, silent) == cands
  {
  }

  function Noted(neighbors: Neighbors, senses: map<NeighborKey, TickSense>, now: u64): set<NeighborKey> {
    set nk | nk in neighbors && ((nk in senses && senses[nk].rx != neighbors[nk].rx) || IhuExpired(neighbors[nk], now))
  }

  lemma BalancedIsAttached(limits: Limits, neighbors: Neighbors, cands: Candidates)
    requires Balanced(limits, neighbors, cands)
    ensures Attached(neighbors, cands)
  {
  }

  lemma FewerStayPriced(algebra: (u16, u16) -> u16, neighbors: Neighbors, cands: Candidates, fewer: Candidates)
    requires Priced(algebra, neighbors, cands) && forall ck :: ck in fewer ==> ck in cands && fewer[ck] == cands[ck]
    ensures Priced(algebra, neighbors, fewer)
  {
  }

  /** `retain` removed something, judged by length as the source does. */
  predicate Shrank<K, V>(before: map<K, V>, after: map<K, V>) { |after| != |before| }

  lemma CollectKeeps(env: Env, self: RouterId, cands: Candidates, sources: Sources, selected: Selected,
                     originated: Originated, sequenceNumber: u16, tainted: set<RouteKey>, now: u64)
    ensures Tame(env, self, cands, sources, selected, originated, sequenceNumber) ==>
      Tame(env, self, cands, Collect(sources, now), selected, originated, sequenceNumber)
    ensures Conditioned(cands, sources, selected, tainted) ==>
      Conditioned(cands, Collect(sources, now), selected, tainted)
    ensures !Shrank(sources, Collect(sources, now)) ==> Collect(sources, now) == sources
  {
    hide InWindow;
    var left := Collect(sources, now);
    assert left.Keys <= sources.Keys && |left.Keys| == |left| && |sources.Keys| == |sources|;
    if |left| == |sources| {
      SetEqual(left.Keys, sources.Keys);
    }
    if Conditioned(cands, sources, selected, tainted) {
      forall k | k in selected && k !in tainted ensures KeepsCondition(cands, left, selected, k) {
        assert KeepsCondition(cands, sources, selected, k);
      }
    }
  }

  lemma SetEqual<T>(a: set<T>, b: set<T>)
    requires a <= b && |a| == |b|
    ensures a == b
  {
    if a != b {
      var x :| x in b && x !in a;
      SetSmaller(a, b - {x});
      assert false;
    }
  }

  // ----- answering requests with a new candidate
  function Answers(o: Outlet, pending: Pending, key: RouteKey, routerId: RouterId, d: Distance, now: u64): set<Action> {
    set sk | sk in pending && Satisfies(key, routerId, d.seqno, sk, pending[sk]) && pending[sk].requester.Some? ::
      Announce(o, pending[sk].requester.value.interface, pending[sk].requester.value.address, key, routerId, d,
               Urgent(now))
  }

  /** Announcements of one and the same distance for one source. */
  predicate AllSay(out: set<Action>, sk: SourceKey, d: Distance) {
    forall a :: a in out && FiniteSend(a) ==> SourceOf(a) == sk && DistanceOf(a) == d
  }

  lemma AnswersSay(o: Outlet, pending: Pending, key: RouteKey, routerId: RouterId, d: Distance, now: u64)
    ensures var out := Answers(o, pending, key, routerId, d, now);
      AllSay(out, (key, routerId), d) && Addressed(out)
        && (d.metric == INFINITY ==> forall a :: a in out ==> !FiniteSend(a))
  {
    hide Unavailable;
  }

  lemma AnswersWaited(o: Outlet, pending: Pending, u: ResolvedUpdate, metric: u16, now: u64, sk: SourceKey)
    requires Teaches(u)
    requires Mentions(Answers(o, pending, u.key.value, u.routerId.value, Distance(u.seqno, metric), now), sk)
    ensures WaitedFor(pending, u)
  {
    hide FiniteSend, Satisfies, Announce;
    var out := Answers(o, pending, u.key.value, u.routerId.value, Distance(u.seqno, metric), now);
    var a :| a in out && FiniteSend(a) && SourceOf(a) == sk;
  }

  lemma SaySame(s: Sources, out: set<Action>, sk: SourceKey, d: Distance, now: u64, s': Sources)
    requires AllSay(out, sk, d) && Recorded(s, out, now, s')
    ensures s' == if Mentions(out, sk) then Maintain(s, sk, d, now) else s
  {
    MaintainIsEntry(s, sk, d, now);
    forall other | other != sk ensures !Mentions(out, other) {
    }
  }

  // ----- one update, whole

  /** The tables one update works on. */
  datatype Ledger = Ledger(neighbors: Neighbors, candidates: Candidates, sources: Sources, pending: Pending,
                           tainted: set<RouteKey>)

  /** What an answer with this update announces. */
  function Told(g: Ground, nk: NeighborKey, u: ResolvedUpdate, now: u64): Distance
    requires Usable(g, nk, u)
  {
    Distance(u.seqno, CandidateFrom(g, nk, u, now).metric)
  }

  /** Somebody who waited is told of the stored candidate, at a finite metric. */
  predicate Answered(g: Ground, o: Outlet, cands: Candidates, pending: Pending, nk: NeighborKey, u: ResolvedUpdate,
                     now: u64) {
    && Stores(g, cands, nk, u, now)
    && MeetsFeasibility(g.sources, (u.key.value, nk), CandidateFrom(g, nk, u, now))
    && Mentions(Answers(o, pending, u.key.value, u.routerId.value, Told(g, nk, u, now), now),
                (u.key.value, u.routerId.value))
  }

  function SourcesAfter(g: Ground, o: Outlet, cands: Candidates, pending: Pending, nk: NeighborKey, u: ResolvedUpdate,
                        now: u64): Sources {
    if Answered(g, o, cands, pending, nk, u, now) then
      Maintain(g.sources, (u.key.value, u.routerId.value), Told(g, nk, u, now), now)
    else g.sources
  }

  function GroundOf(cfg: Config, policy: RoutePolicy, selected: Selected, a: Ledger): Ground {
    Ground(cfg, policy, a.neighbors, a.sources, selected)
  }

  /** What the route TLVs of a packet are applied to. */
  datatype Snap = Snap(neighbors: Neighbors, candidates: Candidates, sources: Sources, pending: Pending)

  ghost predicate TlvStep(o: Outlet, selected: Selected, nk: NeighborKey, tlv: Tlv, now: u64, a: Snap, b: Snap) {
    if tlv.Update? then
      var g := Ground(o.cfg, o.policy, a.neighbors, a.sources, selected);
      && b.candidates == AfterUpdate(g, a.candidates, nk, tlv.update, now)
      && b.sources == SourcesAfter(g, o, a.candidates, a.pending, nk, tlv.update, now)
    else b.candidates == a.candidates && Written(o.cfg.routerId, selected, now, a.sources, b.sources)
  }

  /** The TLVs were applied one after the other, in order. */
  ghost predicate Applied(o: Outlet, selected: Selected, nk: NeighborKey, tlvs: seq<Tlv>, now: u64, trail: seq<Snap>) {
    |trail| == |tlvs| + 1 && forall i :: 0 <= i < |tlvs| ==>
      TlvStep(o, selected, nk, tlvs[i], now, trail[i], trail[i + 1])
  }

  lemma AppliedStart(o: Outlet, selected: Selected, nk: NeighborKey, now: u64, first: Snap)
    ensures Applied(o, selected, nk, [], now, [first])
  {
  }

  lemma AppliedMore(o: Outlet, selected: Selected, nk: NeighborKey, tlvs: seq<Tlv>, now: u64, trail: seq<Snap>,
                    tlv: Tlv, next: Snap)
    requires Applied(o, selected, nk, tlvs, now, trail) && |trail| == |tlvs| + 1
    requires TlvStep(o, selected, nk, tlv, now, trail[|tlvs|], next)
    ensures Applied(o, selected, nk, tlvs + [tlv], now, trail + [next])
  {
    hide TlvStep;
    var more, longer := tlvs + [tlv], trail + [next];
    forall i | 0 <= i < |more| ensures TlvStep(o, selected, nk, more[i], now, longer[i], longer[i + 1]) {
      if i < |tlvs| { assert more[i] == tlvs[i] && longer[i] == trail[i] && longer[i + 1] == trail[i + 1]; }
    }
  }

  /** The effect of one update on all of them. */
  ghost predicate Took(o: Outlet, selected: Selected, nk: NeighborKey, u: ResolvedUpdate, now: u64, a: Ledger,
                       b: Ledger) {
    var g := GroundOf(o.cfg, o.policy, selected, a);
    && b.candidates == AfterUpdate(g, a.candidates, nk, u, now)
    && b.sources == SourcesAfter(g, o, a.candidates, a.pending, nk, u, now)
    && Absorbed(RulesOf(o), a.candidates, b.candidates, nk, u) && QualityKept(a.neighbors, b.neighbors)
    && (Priced(o.cfg.algebra, a.neighbors, a.candidates) ==> Priced(o.cfg.algebra, b.neighbors, b.candidates))
    && a.tainted <= b.tainted && WaitsTraced(a.pending, b.pending, [])
    && TaintedBy(RulesOf(o), CostOf(a.neighbors, nk), a.pending, a.candidates, selected, nk, Update(u), a.tainted,
                 b.tainted)
  }

  lemma QualityKeepsCost(neighbors: Neighbors, neighbors': Neighbors, nk: NeighborKey)
    requires QualityKept(neighbors, neighbors')
    ensures CostOf(neighbors', nk) == CostOf(neighbors, nk)
  {
  }

  function SnapOf(a: Ledger): Snap { Snap(a.neighbors, a.candidates, a.sources, a.pending) }

  /** The effect of one TLV on the ledger. */
  ghost predicate TlvTook(o: Outlet, selected: Selected, nk: NeighborKey, tlv: Tlv, now: u64, a: Ledger, b: Ledger) {
    && TlvStep(o, selected, nk, tlv, now, SnapOf(a), SnapOf(b))
    && (if tlv.Update? then Absorbed(RulesOf(o), a.candidates, b.candidates, nk, tlv.update)
        else b.candidates == a.candidates)
    && CostOf(b.neighbors, nk) == CostOf(a.neighbors, nk)
    && WaitsTraced(a.pending, b.pending, [tlv])
    && TaintedBy(RulesOf(o), CostOf(a.neighbors, nk), a.pending, a.candidates, selected, nk, tlv, a.tainted,
                 b.tainted)
  }

  lemma TookTlv(o: Outlet, selected: Selected, nk: NeighborKey, u: ResolvedUpdate, now: u64, a: Ledger, b: Ledger,
                tlv: Tlv)
    requires Took(o, selected, nk, u, now, a, b) && tlv == Update(u)
    ensures TlvTook(o, selected, nk, tlv, now, a, b)
    ensures Priced(o.cfg.algebra, a.neighbors, a.candidates) ==> Priced(o.cfg.algebra, b.neighbors, b.candidates)
  {
    hide AfterUpdate, SourcesAfter, Absorbed, QualityKept, Priced, WaitsTraced, TaintedBy, CostOf;
    WaitsWider(a.pending, b.pending, [tlv]);
    QualityKeepsCost(a.neighbors, b.neighbors, nk);
  }

  lemma TookRequest(o: Outlet, selected: Selected, nk: NeighborKey, tlv: Tlv, now: u64, a: Ledger, sources: Sources,
                    pending: Pending, tainted: set<RouteKey>)
    requires !tlv.Update?
    requires pending == a.pending
      || (tlv.SeqnoRequest? && WaitsAt(a.pending, pending, (tlv.key, tlv.routerId), tlv.seqno))
    requires TaintedBy(RulesOf(o), CostOf(a.neighbors, nk), a.pending, a.candidates, selected, nk, tlv, a.tainted,
                       tainted)
    requires Written(o.cfg.routerId, selected, now, a.sources, sources)
    ensures TlvTook(o, selected, nk, tlv, now, a, a.(sources := sources, pending := pending, tainted := tainted))
  {
    hide TaintedBy, CostOf, WaitsTraced, WaitsAt, Written;
    if pending == a.pending {
      WaitsStart(pending);
      WaitsWider(pending, pending, [tlv]);
    } else {
      WaitsForTlv(a.pending, pending, tlv);
    }
  }

  lemma TookQuietly(o: Outlet, selected: Selected, nk: NeighborKey, tlv: Tlv, now: u64, a: Ledger)
    requires !tlv.Update?
    ensures TlvTook(o, selected, nk, tlv, now, a, a)
  {
    hide TaintedBy, CostOf;
    NothingTainted(RulesOf(o), CostOf(a.neighbors, nk), a.pending, a.candidates, selected, nk, [], a.tainted,
                   a.tainted);
    NothingWritten(o.cfg.routerId, selected, now, a.sources);
    TookRequest(o, selected, nk, tlv, now, a, a.sources, a.pending, a.tainted);
  }

  /** The keys whose existing candidate an update of the packet moved to another router. */
  function Rerouted(nk: NeighborKey, tlvs: seq<Tlv>, trail: seq<Snap>): set<RouteKey>
    requires |trail| > |tlvs|
  {
    set i | 0 <= i < |tlvs| && tlvs[i].Update? && tlvs[i].update.key.Some?
      && Reroutes(trail[i].candidates, nk, tlvs[i].update) ::
      tlvs[i].update.key.value
  }

  lemma ReroutedMore(nk: NeighborKey, tlvs: seq<Tlv>, trail: seq<Snap>, tlv: Tlv, next: Snap)
    requires |trail| == |tlvs| + 1
    ensures Rerouted(nk, tlvs + [tlv], trail + [next]) ==
      Rerouted(nk, tlvs, trail)
      + (if tlv.Update? && tlv.update.key.Some? && Reroutes(trail[|tlvs|].candidates, nk, tlv.update) then
        {tlv.update.key.value} else {})
  {
    hide Reroutes;
    var more, longer := tlvs + [tlv], trail + [next];
    assert forall i :: 0 <= i < |tlvs| ==> more[i] == tlvs[i] && longer[i] == trail[i];
    assert more[|tlvs|] == tlv && longer[|tlvs|] == trail[|tlvs|];
    forall k | k in Rerouted(nk, tlvs, trail) ensures k in Rerouted(nk, more, longer) {
      var i :| 0 <= i < |tlvs| && tlvs[i].Update? && tlvs[i].update.key.Some?
        && Reroutes(trail[i].candidates, nk, tlvs[i].update)
        && tlvs[i].update.key.value == k;
      assert more[i].update.key.value == k;
    }
  }

  /** The TLVs so far: each applied in turn, every offer and every exempt key accounted for. */
  ghost predicate SoFar(o: Outlet, selected: Selected, nk: NeighborKey, now: u64, first: Candidates, a: Ledger,
                        tlvs: seq<Tlv>, trail: seq<Snap>, rerouted: set<RouteKey>, b: Ledger) {
    && |trail| == |tlvs| + 1 && trail[0] == SnapOf(a) && trail[|tlvs|] == SnapOf(b)
    && Applied(o, selected, nk, tlvs, now, trail) && rerouted == Rerouted(nk, tlvs, trail)
    && Traced(RulesOf(o), first, b.candidates, nk, tlvs) && WaitsTraced(a.pending, b.pending, tlvs)
      && CostOf(b.neighbors, nk) == CostOf(a.neighbors, nk)
    && (AllBacked(first, selected, {}) ==>
          OnlyUndercut(RulesOf(o), CostOf(a.neighbors, nk), a.pending, first, selected, nk, tlvs, a.tainted,
                       b.tainted))
  }

  lemma SoFarStart(o: Outlet, selected: Selected, nk: NeighborKey, now: u64, first: Candidates, a: Ledger)
    requires Traced(RulesOf(o), first, a.candidates, nk, [])
    ensures SoFar(o, selected, nk, now, first, a, [], [SnapOf(a)], {}, a)
  {
    hide Traced, WaitsTraced, OnlyUndercut, CostOf, AllBacked;
    AppliedStart(o, selected, nk, now, SnapOf(a));
    WaitsStart(a.pending);
    NothingTainted(RulesOf(o), CostOf(a.neighbors, nk), a.pending, first, selected, nk, [], a.tainted, a.tainted);
  }

  lemma SoFarMore(o: Outlet, selected: Selected, nk: NeighborKey, now: u64, first: Candidates, a: Ledger,
                  tlvs: seq<Tlv>, trail: seq<Snap>, rerouted: set<RouteKey>, b: Ledger, tlv: Tlv, c: Ledger,
                  rerouted': set<RouteKey>)
    requires SoFar(o, selected, nk, now, first, a, tlvs, trail, rerouted, b) && TlvTook(o, selected, nk, tlv, now, b, c)
    requires var moved := tlv.Update? && tlv.update.key.Some? && Reroutes(b.candidates, nk, tlv.update);
      rerouted' == rerouted + (if moved then {tlv.update.key.value} else {})
    ensures SoFar(o, selected, nk, now, first, a, tlvs + [tlv], trail + [SnapOf(c)], rerouted', c)
  {
    hide TlvStep, Applied, Rerouted, Traced, WaitsTraced, OnlyUndercut, CostOf, AllBacked, TaintedBy, Absorbed,
         Reroutes, Backed;
    AppliedMore(o, selected, nk, tlvs, now, trail, tlv, SnapOf(c));
    ReroutedMore(nk, tlvs, trail, tlv, SnapOf(c));
    WaitsMore(a.pending, b.pending, c.pending, tlvs, tlv);
    if AllBacked(first, selected, {}) {
      AllBackedMeans(first, selected);
      UndercutMore(RulesOf(o), CostOf(a.neighbors, nk), a.pending, b.pending, first, b.candidates, selected, nk,
                   tlvs, tlv, a.tainted, b.tainted,
                   c.tainted);
    }
    if tlv.Update? {
      TracedAbsorb(RulesOf(o), first, b.candidates, c.candidates, nk, tlvs, tlv.update);
    } else {
      TracedSkip(RulesOf(o), first, b.candidates, nk, tlvs, tlv);
    }
  }

  /** What this router originates, under which number, and whether the hypotheses hold. */
  datatype Own = Own(originated: Originated, number: u16, tame: bool)

  /** How far a packet has come: its trail, its own sequence numbers, the hypotheses. */
  ghost predicate Walked(o: Outlet, env: Env, selected: Selected, nk: NeighborKey, now: u64, first: Candidates,
                         a: Ledger, own: Own, tlvs: seq<Tlv>, trail: seq<Snap>, rerouted: set<RouteKey>, bumps: nat,
                         b: Ledger, own': Own) {
    && SoFar(o, selected, nk, now, first, a, tlvs, trail, rerouted, b) && bumps <= SeqnoRequests(tlvs)
    && Bumped(own.originated, own.number, own'.originated, own'.number, bumps)
    && StaysTame(env, o.cfg.routerId, nk, tlvs, own.originated.Keys, own.number, bumps, own.tame, own'.tame)
  }

  lemma WalkedStart(o: Outlet, env: Env, selected: Selected, nk: NeighborKey, now: u64, first: Candidates, a: Ledger,
                    own: Own)
    requires Traced(RulesOf(o), first, a.candidates, nk, []) && Synced(own.originated, own.number)
    ensures Walked(o, env, selected, nk, now, first, a, own, [], [SnapOf(a)], {}, 0, a, own)
  {
    hide SoFar, StaysTame, Bumped, Synced, Traced;
    SoFarStart(o, selected, nk, now, first, a);
    TameStays(env, o.cfg.routerId, nk, own.originated.Keys, own.number, own.tame);
    NotBumped(own.originated, own.number);
  }

  lemma WalkedEnd(o: Outlet, env: Env, selected: Selected, nk: NeighborKey, now: u64, first: Candidates, a: Ledger,
                  own: Own, tlvs: seq<Tlv>, trail: seq<Snap>, rerouted: set<RouteKey>, bumps: nat, b: Ledger, own': Own)
    requires Walked(o, env, selected, nk, now, first, a, own, tlvs, trail, rerouted, bumps, b, own')
    ensures SoFar(o, selected, nk, now, first, a, tlvs, trail, rerouted, b) && bumps <= SeqnoRequests(tlvs)
    ensures Bumped(own.originated, own.number, own'.originated, own'.number, bumps)
    ensures StaysTame(env, o.cfg.routerId, nk, tlvs, own.originated.Keys, own.number, bumps, own.tame, own'.tame)
  {
  }

  lemma WalkedMore(o: Outlet, env: Env, selected: Selected, nk: NeighborKey, now: u64, first: Candidates, a: Ledger,
                   own: Own, tlvs: seq<Tlv>, trail: seq<Snap>, rerouted: set<RouteKey>, bumps: nat, b: Ledger,
                   own1: Own, tlv: Tlv, rerouted': set<RouteKey>, bumped: nat, c: Ledger, own2: Own)
    requires Walked(o, env, selected, nk, now, first, a, own, tlvs, trail, rerouted, bumps, b, own1)
    requires TlvTook(o, selected, nk, tlv, now, b, c) && bumped <= (if tlv.SeqnoRequest? then 1 else 0)
    requires var moved := tlv.Update? && tlv.update.key.Some? && Reroutes(b.candidates, nk, tlv.update);
      rerouted' == rerouted + (if moved then {tlv.update.key.value} else {})
    requires Bumped(own1.originated, own1.number, own2.originated, own2.number, bumped)
    requires StaysTame(env, o.cfg.routerId, nk, [tlv], own1.originated.Keys, own1.number, bumped, own1.tame, own2.tame)
    ensures Walked(o, env, selected, nk, now, first, a, own, tlvs + [tlv], trail + [SnapOf(c)], rerouted',
                   bumps + bumped, c, own2)
  {
    hide SoFar, StaysTame, Bumped, TlvTook, Reroutes;
    SoFarMore(o, selected, nk, now, first, a, tlvs, trail, rerouted, b, tlv, c, rerouted');
    BumpedIs(own.originated, own.number, own1.originated, own1.number, bumps);
    StaysTameMore(env, o.cfg.routerId, nk, tlvs, tlv, own.originated.Keys, own.number, bumps, bumped, own.tame,
                  own1.tame, own2.tame);
    BumpedMore(own.originated, own.number, own1.originated, own1.number, own2.originated, own2.number, bumps, bumped);
    assert (tlvs + [tlv])[..|tlvs|] == tlvs;
  }

  lemma SourcesAnswered(g: Ground, o: Outlet, cands: Candidates, pending: Pending, nk: NeighborKey, u: ResolvedUpdate,
                        now: u64, c: Candidate, out: set<Action>)
    requires Stores(g, cands, nk, u, now) && c == CandidateFrom(g, nk, u, now)
      && MeetsFeasibility(g.sources, (u.key.value, nk), c)
    requires out == Answers(o, pending, u.key.value, c.routerId, Distance(c.seqno, c.metric), now)
    ensures SourcesAfter(g, o, cands, pending, nk, u, now) ==
      if Mentions(out, (u.key.value, c.routerId)) then
        Maintain(g.sources, (u.key.value, c.routerId), Distance(c.seqno, c.metric), now) else g.sources
  {
    hide MeetsFeasibility, Mentions, Answers, Maintain, Permits, NoRoom, Regresses, SafeExtend;
  }

  lemma SourcesUnanswered(g: Ground, o: Outlet, cands: Candidates, pending: Pending, nk: NeighborKey, u: ResolvedUpdate,
                          now: u64)
    requires Stores(g, cands, nk, u, now) && !MeetsFeasibility(g.sources, (u.key.value, nk),
                                                               CandidateFrom(g, nk, u, now))
    ensures SourcesAfter(g, o, cands, pending, nk, u, now) == g.sources
  {
    hide MeetsFeasibility, Stores;
  }

  lemma NothingMentioned(out: set<Action>, sk: SourceKey, d: Distance)
    requires forall a :: a in out ==> !a.Send?
    ensures !Mentions(out, sk) && AllSay(out, sk, d) && Addressed(out)
  {
  }

  lemma TookNothing(o: Outlet, selected: Selected, nk: NeighborKey, u: ResolvedUpdate, now: u64, a: Ledger,
                    pending: Pending)
    requires var g := GroundOf(o.cfg, o.policy, selected, a);
      AfterUpdate(g, a.candidates, nk, u, now) == a.candidates && !Stores(g, a.candidates, nk, u, now)
    requires WaitsTraced(a.pending, pending, [])
    ensures Took(o, selected, nk, u, now, a, a.(pending := pending))
  {
    hide AfterUpdate, Stores, Priced, WaitsTraced, LinkCost;
    NothingTainted(RulesOf(o), CostOf(a.neighbors, nk), a.pending, a.candidates, selected, nk, [], a.tainted,
                   a.tainted);
  }

  lemma TookRetraction(o: Outlet, selected: Selected, nk: NeighborKey, u: ResolvedUpdate, now: u64, a: Ledger,
                       keys: set<CandidateKey>)
    requires u.metric == INFINITY && !(u.key.Some? && ForbiddenDestination(u.key.value.destination))
    requires keys == if u.key.None? then set ck | ck in a.candidates && ck.1 == nk else {(u.key.value, nk)}
    requires Priced(o.cfg.algebra, a.neighbors, a.candidates) ==>
      Priced(o.cfg.algebra, a.neighbors, RetractKeys(a.candidates, keys))
    ensures Took(o, selected, nk, u, now, a, a.(candidates := RetractKeys(a.candidates, keys)))
  {
    hide ForbiddenDestination, RetractKeys, Priced, LinkCost, WaitsTraced, TaintedBy, Absorbed;
    NothingTainted(RulesOf(o), CostOf(a.neighbors, nk), a.pending, a.candidates, selected, nk, [], a.tainted,
                   a.tainted);
    RetractedFacts(RulesOf(o), a.candidates, keys, nk, u);
    WaitsStart(a.pending);
  }

  lemma RefusedIsExpelled(o: Outlet, selected: Selected, nk: NeighborKey, u: ResolvedUpdate, a: Ledger)
    requires Teaches(u) && !Permits(GroundOf(o.cfg, o.policy, selected, a), nk, u)
    ensures Expels(RulesOf(o), nk, Update(u))
  {
  }

  lemma TookRemoval(o: Outlet, selected: Selected, nk: NeighborKey, u: ResolvedUpdate, now: u64, a: Ledger,
                    neighbors: Neighbors)
    requires var g := GroundOf(o.cfg, o.policy, selected, a); Usable(g, nk, u) && !Permits(g, nk, u)
    requires QualityKept(a.neighbors, neighbors)
    ensures Took(o, selected, nk, u, now, a,
                 a.(neighbors := neighbors, candidates := a.candidates - {(u.key.value, nk)}))
  {
    hide ForbiddenDestination, Permits, Priced, LinkCost, WaitsTraced, TaintedBy, Absorbed, QualityKept;
    NothingTainted(RulesOf(o), CostOf(a.neighbors, nk), a.pending, a.candidates, selected, nk, [], a.tainted,
                   a.tainted);
    assert Expels(RulesOf(o), nk, Update(u)) by { RefusedIsExpelled(o, selected, nk, u, a); }
    RemovedFacts(RulesOf(o), a.neighbors, neighbors, a.candidates, (u.key.value, nk), nk, u);
    WaitsStart(a.pending);
  }

  /** What storing a candidate relies on. */
  predicate Storable(cfg: Config, neighbors: Neighbors, cands: Candidates, sources: Sources, selected: Selected,
                     ck: CandidateKey, c: Candidate) {
    && ck.1 in neighbors
    && (ck in cands || (neighbors[ck.1].candidates < cfg.limits.maxPerNeighbor && |cands| < cfg.limits.maxCandidates))
    && c.routerId != cfg.routerId && (c.metric != INFINITY ==> c.advertised < c.metric)
    && (ck.0 in selected && Same(selected[ck.0], ck, c) ==> MeetsFeasibility(sources, ck, c))
  }

  lemma StoresStorable(g: Ground, cands: Candidates, nk: NeighborKey, u: ResolvedUpdate, now: u64, c: Candidate)
    requires Stores(g, cands, nk, u, now) && c == CandidateFrom(g, nk, u, now)
    ensures Teaches(u) && nk in g.neighbors && c.routerId == u.routerId.value && c.seqno == u.seqno
      && c.nextHop == u.nextHop.value
    ensures Storable(g.cfg, g.neighbors, cands, g.sources, g.selected, (u.key.value, nk), c)
  {
    hide LinkCost, MeetsFeasibility, Same;
    StorableIs(g, cands, nk, u, now);
  }

  /** What was said about the candidate, and recorded. */
  ghost predicate Said(ck: CandidateKey, c: Candidate, now: u64, s: Sources, s': Sources, out: set<Action>,
                       told: bool) {
    var sk, d := (ck.0, c.routerId), Distance(c.seqno, c.metric);
    && AllSay(out, sk, d) && Addressed(out) && told == Mentions(out, sk) && (told ==> c.metric != INFINITY)
    && s' == if told then Maintain(s, sk, d, now) else s
  }

  lemma StoredBooks(cfg: Config, neighbors: Neighbors, cands: Candidates, s: Sources, selected: Selected,
                    ck: CandidateKey, c: Candidate)
    requires Balanced(cfg.limits, neighbors, cands) && Extended(cands) && Foreign(cfg.routerId, cands, selected)
    requires Storable(cfg, neighbors, cands, s, selected, ck, c)
    ensures Balanced(cfg.limits, Counting(neighbors, cands, ck), cands[ck := c]) && Extended(cands[ck := c])
    ensures Foreign(cfg.routerId, cands[ck := c], selected)
  {
    hide Balanced, Counting, MeetsFeasibility, Same;
    StoredIsBalanced(cfg.limits, neighbors, cands, ck, c);
  }

  /** Storing keeps the invariants within the hypotheses, and leaves a settled
      selection settled where nothing it looks at changed. */
  lemma StoredAll(env: Env, cfg: Config, neighbors: Neighbors, cands: Candidates, s: Sources, s': Sources,
                  selected: Selected, originated: Originated, sequenceNumber: u16, tainted: set<RouteKey>,
                  ck: CandidateKey, c: Candidate, now: u64, out: set<Action>, told: bool, pending: set<RouteKey>,
                  quiet: bool)
    requires Extended(cands) && Foreign(cfg.routerId, cands, selected)
    requires Storable(cfg, neighbors, cands, s, selected, ck, c) && Said(ck, c, now, s, s', out, told)
    requires quiet ==> ck in cands && Alike(cands[ck], c) && Stable(cfg.selection, cands, s, selected, pending)
    requires Tame(env, cfg.routerId, cands, s, selected, originated, sequenceNumber)
      && Conditioned(cands, s, selected, tainted)
    requires InWindow(env.base((ck.0, c.routerId)), c.seqno) && env.owner(ck.1.interface, c.nextHop) == ck.1.address
    ensures Tame(env, cfg.routerId, cands[ck := c], s', selected, originated, sequenceNumber)
    ensures Conditioned(cands[ck := c], s', selected, Exempted(tainted, told, cands, selected, ck, c))
    ensures Improved(env, now, s, s') && Covered(env, now, s', out)
    ensures quiet ==> Stable(cfg.selection, cands[ck := c], s', selected, pending)
  {
    hide Balanced, Extended, Foreign, Tame, Conditioned, Stable, Improved, Covered, Alike, Counting, MeetsFeasibility,
         Same, Exempted, AllSay, Addressed, Maintain, Mentions, InWindow;
    var t := Exempted(tainted, told, cands, selected, ck, c);
    StoredKeepsAll(env, cfg.routerId, cands, s, s', selected, originated, sequenceNumber, tainted, ck, c, now, told, t);
    AfterStoring(env, cfg, cands, s, s', selected, originated, sequenceNumber, pending, ck, c, now, out, quiet);
  }

  /** The ledger once a candidate is stored. */
  function Filed(a: Ledger, selected: Selected, ck: CandidateKey, c: Candidate, sources: Sources, pending: Pending,
                 told: bool): Ledger
    requires ck.1 in a.neighbors
  {
    Ledger(Counting(a.neighbors, a.candidates, ck), a.candidates[ck := c], sources, pending,
           Exempted(a.tainted, told, a.candidates, selected, ck, c))
  }

  lemma TookStored(o: Outlet, selected: Selected, nk: NeighborKey, u: ResolvedUpdate, now: u64, a: Ledger, c: Candidate,
                   sources: Sources, pending: Pending, told: bool)
    requires Stores(GroundOf(o.cfg, o.policy, selected, a), a.candidates, nk, u, now)
    requires c == CandidateFrom(GroundOf(o.cfg, o.policy, selected, a), nk, u, now)
    requires HasRoom(o.cfg.limits, a.candidates, (u.key.value, nk))
    requires sources == SourcesAfter(GroundOf(o.cfg, o.policy, selected, a), o, a.candidates, a.pending, nk, u, now)
    requires WaitsTraced(a.pending, pending, []) && (told ==> c.metric != INFINITY && WaitedFor(a.pending, u))
    ensures Took(o, selected, nk, u, now, a, Filed(a, selected, (u.key.value, nk), c, sources, pending, told))
  {
    hide ForbiddenDestination, Permits, NoRoom, Regresses, Priced, WaitsTraced, TaintedBy, Absorbed, QualityKept,
         SafeExtend, SourcesAfter, CostOf, WaitedFor, Exempted;
    var g := GroundOf(o.cfg, o.policy, selected, a);
    StorableIs(g, a.candidates, nk, u, now);
    StoresWelcome(g, a.candidates, nk, u, now);
    CostIs(a.neighbors, nk);
    StoredFacts(RulesOf(o), a.neighbors, a.candidates, (u.key.value, nk), c, nk, u, now);
    AnsweringTaints(RulesOf(o), CostOf(a.neighbors, nk), a.pending, a.candidates, selected, nk, u, c, now, a.tainted,
                    told,
                    Exempted(a.tainted, told, a.candidates, selected, (u.key.value, nk), c));
  }

  /** Exactly when an update costs the selected route of its key the feasibility
      condition: somebody is told a distance that is strictly better than what
      was recorded and that the selected route's own offer does not beat. */
  lemma UpdateCostsCondition(g: Ground, o: Outlet, cands: Candidates, pending: Pending, nk: NeighborKey,
                             u: ResolvedUpdate, now: u64, k: RouteKey)
    requires KeepsCondition(cands, g.sources, g.selected, k)
    ensures KeepsCondition(AfterUpdate(g, cands, nk, u, now), SourcesAfter(g, o, cands, pending, nk, u, now),
                           g.selected, k) <==>
      !(&& Answered(g, o, cands, pending, nk, u, now) && k == u.key.value
        && var sk, d := (k, u.routerId.value), Told(g, nk, u, now);
        && !Backs(AfterUpdate(g, cands, nk, u, now), g.selected, k, u.routerId.value, d)
        && (sk in g.sources ==> d.FeasibleAgainst(g.sources[sk].distance)))
  {
    hide AfterUpdate, Mentions, Backs, CandidateFrom;
    var after := AfterUpdate(g, cands, nk, u, now);
    UpdateKeepsCondition(g, cands, nk, u, now, k);
    if Answered(g, o, cands, pending, nk, u, now) {
      var sk, d := (u.key.value, u.routerId.value), Told(g, nk, u, now);
      if k == u.key.value {
        AnnouncingCostsCondition(after, g.sources, g.selected, k, u.routerId.value, d, now);
      } else {
        ElsewhereKeepsCondition(after, g.sources, g.selected, k, sk, d, now);
      }
    }
  }

  lemma ElsewhereKeepsCondition(cands: Candidates, s: Sources, selected: Selected, k: RouteKey, sk: SourceKey,
                                d: Distance, now: u64)
    requires KeepsCondition(cands, s, selected, k) && sk.0 != k
    ensures KeepsCondition(cands, Maintain(s, sk, d, now), selected, k)
  {
  }

  // ----- asking for lost keys
  /** Requests are kept; for the keys in `done` one is pending wherever somebody can be asked. */
  ghost predicate Asked(cands: Candidates, sources: Sources, selected: Selected, before: Selected, was: Pending,
                        done: set<RouteKey>, requests: Pending) {
    && done <= before.Keys
    && RequestsKept(was, requests)
    && (forall sk :: sk in requests && sk !in was ==>
          && sk.0 in done && sk.1 == before[sk.0].routerId
          && requests[sk].seqno == AskFor(sources, sk, before[sk.0].seqno)
          && CanAsk(cands, sources, selected, sk.0, (sk.0, requests[sk].nextHop)))
    && (forall k, ck :: k in done && CanAsk(cands, sources, selected, k, ck) ==> (k, before[k].routerId) in requests)
  }

  /** Every request that is newly pending was sent to its target. */
  predicate Spoken(was: Pending, requests: Pending, now: u64, out: set<Action>) {
    forall sk :: sk in requests && sk !in was ==>
      Request(requests[sk].nextHop.interface, requests[sk].nextHop.address, sk.0, sk.1, requests[sk].seqno,
              requests[sk].hopCount, Urgent(now)) in out
  }

  lemma AskedStart(cands: Candidates, sources: Sources, selected: Selected, before: Selected, was: Pending)
    ensures Asked(cands, sources, selected, before, was, {}, was)
  {
    hide CanAsk;
  }

  lemma AskedOne(cands: Candidates, sources: Sources, selected: Selected, before: Selected, was: Pending,
                 done: set<RouteKey>, requests: Pending, k: RouteKey, target: CandidateKey, p: PendingRequest)
    requires Asked(cands, sources, selected, before, was, done, requests) && k in before
      && (k, before[k].routerId) !in requests
    requires CanAsk(cands, sources, selected, k, target) && p.nextHop == target.1 && p.requester == None
    requires p.seqno == AskFor(sources, (k, before[k].routerId), before[k].seqno)
    ensures Asked(cands, sources, selected, before, was, done + {k}, requests[(k, before[k].routerId) := p])
  {
    hide IsFeasible;
    assert target == (k, p.nextHop);
  }

  lemma NobodyToAsk(cands: Candidates, sources: Sources, selected: Selected, before: Selected, was: Pending,
                    done: set<RouteKey>, requests: Pending, k: RouteKey, targets: set<CandidateKey>)
    requires Asked(cands, sources, selected, before, was, done, requests) && k in before
    requires targets == set ck | ck in cands && CanAsk(cands, sources, selected, k, ck)
    requires targets == {} || (k, before[k].routerId) in requests
    ensures Asked(cands, sources, selected, before, was, done + {k}, requests)
  {
    hide IsFeasible;
    forall ck | CanAsk(cands, sources, selected, k, ck) ensures ck in targets {
    }
  }

  /** A stored candidate counts for its neighbour if it is new. */
  function Counting(neighbors: Neighbors, cands: Candidates, ck: CandidateKey): Neighbors
    requires ck.1 in neighbors
  {
    if ck !in cands then WithCount(neighbors, ck.1, neighbors[ck.1].candidates + 1) else neighbors
  }

  /** What storing an update establishes within the hypotheses. */
  lemma AfterStoring(env: Env, cfg: Config, cands: Candidates, s: Sources, s': Sources, selected: Selected,
                     originated: Originated, sequenceNumber: u16, pending: set<RouteKey>, ck: CandidateKey,
                     c: Candidate, now: u64, out: set<Action>, quiet: bool)
    requires Tame(env, cfg.routerId, cands, s, selected, originated, sequenceNumber)
    requires Tame(env, cfg.routerId, cands[ck := c], s', selected, originated, sequenceNumber)
      && Improved(env, now, s, s')
    requires AllSay(out, (ck.0, c.routerId), Distance(c.seqno, c.metric)) && Addressed(out)
    requires s' == if Mentions(out, (ck.0, c.routerId)) then
      Maintain(s, (ck.0, c.routerId), Distance(c.seqno, c.metric), now) else s
    requires quiet ==> ck in cands && Alike(cands[ck], c) && Stable(cfg.selection, cands, s, selected, pending)
    ensures quiet ==> Stable(cfg.selection, cands[ck := c], s', selected, pending)
    ensures Covered(env, now, s', out)
  {
    hide SourcesIn, Improved, Stable, AllSay, Addressed, Mentions, Maintain, InWindow, Covered, StableKey;
    if quiet {
      AlikeStaysStable(cfg.selection, cands, cands[ck := c], s, selected, pending);
      StableShrinks(env, cfg.selection, now, cands[ck := c], s, s', selected, pending);
    }
    assert cands[ck := c][ck] == c;
    AnswersCovered(env, s, out, (ck.0, c.routerId), Distance(c.seqno, c.metric), now);
  }

  lemma RemovedFacts(rules: Rules, neighbors: Neighbors, neighbors': Neighbors, cands: Candidates,
                     ck: CandidateKey, nk: NeighborKey, u: ResolvedUpdate)
    requires QualityKept(neighbors, neighbors') && Expels(rules, nk, Update(u))
    ensures Absorbed(rules, cands, cands - {ck}, nk, u)
    ensures Priced(rules.cfg.algebra, neighbors, cands) ==> Priced(rules.cfg.algebra, neighbors', cands - {ck})
    ensures ck !in cands ==> cands - {ck} == cands
  {
    hide QualityKept, LinkCost;
    if Priced(rules.cfg.algebra, neighbors, cands) {
      QualityKeepsPrices(rules.cfg.algebra, neighbors, neighbors', cands);
    }
  }

  lemma StoredFacts(rules: Rules, neighbors: Neighbors, cands: Candidates, ck: CandidateKey, c: Candidate,
                    nk: NeighborKey, u: ResolvedUpdate, now: u64)
    requires Teaches(u) && Welcome(rules, nk, u) && nk in neighbors && ck == (u.key.value, nk)
    requires HasRoom(rules.cfg.limits, cands, ck)
    requires c == Learned(u, SafeExtend(rules.cfg.algebra, u.metric, LinkCost(neighbors[nk])), now)
    ensures Absorbed(rules, cands, cands[ck := c], nk, u)
    ensures QualityKept(neighbors, Counting(neighbors, cands, ck))
    ensures Priced(rules.cfg.algebra, neighbors, cands) ==>
      Priced(rules.cfg.algebra, Counting(neighbors, cands, ck), cands[ck := c])
  {
    hide SafeExtend, LinkCost, Absorbed, Welcome, HasRoom;
    StoredAbsorbed(rules, cands, ck, c, nk, u);
    if Priced(rules.cfg.algebra, neighbors, cands) {
      QualityKeepsPrices(rules.cfg.algebra, neighbors, Counting(neighbors, cands, ck), cands[ck := c]);
    }
  }

  lemma StoredAbsorbed(rules: Rules, cands: Candidates, ck: CandidateKey, c: Candidate, nk: NeighborKey,
                       u: ResolvedUpdate)
    requires Teaches(u) && Welcome(rules, nk, u) && ck == (u.key.value, nk) && HasRoom(rules.cfg.limits, cands, ck)
    requires c.routerId == u.routerId.value && c.nextHop == u.nextHop.value
      && c.Offered() == Distance(u.seqno, u.metric)
    ensures Absorbed(rules, cands, cands[ck := c], nk, u)
  {
    hide Welcome, Expels, CandidatesOf;
  }

  lemma AnswersCovered(env: Env, s: Sources, out: set<Action>, sk: SourceKey, d: Distance, now: u64)
    requires AllSay(out, sk, d) && Addressed(out) && SourcesIn(env, s) && InWindow(env.base(sk), d.seqno)
    ensures Covered(env, now, if Mentions(out, sk) then Maintain(s, sk, d, now) else s, out)
  {
    hide InWindow, NotWorse, Maintain;
    MaintainImproves(env, s, sk, d, now);
    forall a | a in out && a.Send? && a.update.metric != INFINITY ensures FiniteSend(a) && Mentions(out, sk) {
      assert SourceOf(a) == sk;
    }
  }

  lemma NothingToCover(env: Env, now: u64, sources: Sources, out: set<Action>)
    requires forall a :: a in out && a.Send? ==> a.update.metric == INFINITY
    ensures Covered(env, now, sources, out)
  {
  }

  /** Retractions of some keys on every interface. */
  function Retracts(o: Outlet, keys: set<RouteKey>, sequenceNumber: u16, now: u64): set<Action> {
    set k, name | k in keys && name in o.interfaces ::
      Send(name, Group(o, name), Retraction(k, Some(o.cfg.routerId), o.interfaces[name].policy.updateIntervalCs,
                                            sequenceNumber), Urgent(now))
  }

  lemma NothingRetracted(o: Outlet, originated: Originated, selected: Selected, sequenceNumber: u16, now: u64)
    ensures Retracts(o, {} - originated.Keys - selected.Keys, sequenceNumber, now) == {}
  {
  }

  lemma RetractsNothingFinite(o: Outlet, keys: set<RouteKey>, sequenceNumber: u16, now: u64)
    ensures forall a :: a in Retracts(o, keys, sequenceNumber, now) && a.Send? ==> a.update.metric == INFINITY
  {
  }

  lemma RetractsOneMore(o: Outlet, done: set<RouteKey>, originated: Originated, selected: Selected, sequenceNumber: u16,
                        now: u64, k: RouteKey)
    ensures Retracts(o, (done + {k}) - originated.Keys - selected.Keys, sequenceNumber, now)
         <= Retracts(o, done - originated.Keys - selected.Keys, sequenceNumber, now)
            + if k in originated || k in selected then {} else Retracts(o, {k}, sequenceNumber, now)
  {
    forall a | a in Retracts(o, (done + {k}) - originated.Keys - selected.Keys, sequenceNumber, now)
      ensures a in Retracts(o, done - originated.Keys - selected.Keys, sequenceNumber, now)
                   + if k in originated || k in selected then {} else Retracts(o, {k}, sequenceNumber, now)
    {
      var k', name :| k' in (done + {k}) - originated.Keys - selected.Keys && name in o.interfaces
        && a == Send(name, Group(o, name), Retraction(k', Some(o.cfg.routerId),
            o.interfaces[name].policy.updateIntervalCs, sequenceNumber), Urgent(now));
      if k' in done - originated.Keys - selected.Keys {
        assert a in Retracts(o, done - originated.Keys - selected.Keys, sequenceNumber, now);
      } else {
        assert a in Retracts(o, {k}, sequenceNumber, now);
      }
    }
  }

  lemma TracedLonger(rules: Rules, cands: Candidates, nk: NeighborKey, tlvs: seq<Tlv>)
    ensures Traced(rules, cands, cands, nk, tlvs)
  {
  }

  lemma HeldSameKeys(owed: Deadlines, now: u64, advertisedUntil: Deadlines, selected: Selected, o: Originated,
                     o': Originated, tombstones: Deadlines, n: u16, n': u16, bumps: nat)
    requires Held(owed, now, advertisedUntil, selected, o, tombstones, {}) && Bumped(o, n, o', n', bumps)
    ensures Held(owed, now, advertisedUntil, selected, o', tombstones, {})
  {
  }

  lemma SubduedItself(cands: Candidates)
    ensures Subdued(cands, cands)
  {
  }

  lemma CostsElsewhere(neighbors: Neighbors, neighbors': Neighbors, nk: NeighborKey)
    requires OnlyAt(nk, neighbors, neighbors')
    ensures forall n :: n in neighbors' && n !in {nk} ==>
      n in neighbors && LinkCost(neighbors'[n]) == LinkCost(neighbors[n])
  {
    hide LinkCost;
  }

  predicate Forwards(cands: Candidates, key: RouteKey, routerId: RouterId, requester: NeighborKey, ck: CandidateKey) {
    ck in cands && ck.0 == key && cands[ck].routerId == routerId && ck.1 != requester
  }

  /** Strictly ahead in the order (infeasible, metric, seqno). */
  predicate AskedBefore(cands: Candidates, sources: Sources, selected: Selected, a: CandidateKey, b: CandidateKey)
    requires a in cands && b in cands
  {
    var fa, fb := IsFeasible(sources, selected, a, cands[a]), IsFeasible(sources, selected, b, cands[b]);
    || (fa && !fb)
    || (fa == fb && cands[a].metric < cands[b].metric)
    || (fa == fb && cands[a].metric == cands[b].metric && cands[a].seqno < cands[b].seqno)
  }

  lemma AskedChains(cands: Candidates, sources: Sources, selected: Selected, a: CandidateKey, b: CandidateKey,
                    c: CandidateKey)
    requires a in cands && b in cands && c in cands
    requires AskedBefore(cands, sources, selected, a, b) && AskedBefore(cands, sources, selected, b, c)
    ensures AskedBefore(cands, sources, selected, a, c)
  {
    hide IsFeasible;
  }

  /** `target` is a best neighbour to forward a seqno request to. */
  ghost predicate BestTarget(cands: Candidates, sources: Sources, selected: Selected, key: RouteKey, routerId: RouterId,
                             requester: NeighborKey, target: CandidateKey) {
    && Forwards(cands, key, routerId, requester, target)
    && forall ck :: ck in cands && Forwards(cands, key, routerId, requester, ck) ==>
      !AskedBefore(cands, sources, selected, ck, target)
  }

  // ----- what becomes of a seqno request

  datatype Course = Answer | Serve | Refuse | Forward

  function CourseOf(self: RouterId, originated: Originated, selected: Selected, pending: Pending,
                    recent: map<SourceKey, (u16, u64)>, key: RouteKey, seqno: u16, hopCount: u8, routerId: RouterId,
                    now: u64): Course {
    var sk := (key, routerId);
    if key in originated && routerId != self then Answer
    else if key in selected && (selected[key].routerId != routerId || Reaches(selected[key].seqno, seqno)) then Answer
    else if key in originated then Serve
    else if hopCount <= 1 then Refuse
    else if sk in pending && Reaches(pending[sk].seqno, seqno) then Refuse
    else if sk in recent && recent[sk].1 >= now && Reaches(recent[sk].0, seqno) then Refuse
    else Forward
  }

  /** The announcement that answers a request: the own origin, or the selected route. */
  function AnswerTo(o: Outlet, self: RouterId, originated: Originated, selected: Selected, key: RouteKey,
                    routerId: RouterId, to: NeighborKey, now: u64): Action
    requires key in selected || (key in originated && routerId != self)
  {
    if key in originated && routerId != self then
      Announce(o, to.interface, to.address, key, self, Distance(originated[key].seqno, originated[key].metric),
               Urgent(now))
    else
      Announce(o, to.interface, to.address, key, selected[key].routerId,
               Distance(selected[key].seqno, selected[key].metric), Urgent(now))
  }

  /** The reply to a route request: the own origin, the selected route, or a retraction. */
  function RouteReply(o: Outlet, self: RouterId, originated: Originated, selected: Selected, sequenceNumber: u16,
                      key: RouteKey, to: NeighborKey, now: u64): Action {
    if key in originated then
      Announce(o, to.interface, to.address, key, self, Distance(originated[key].seqno, originated[key].metric),
               Urgent(now))
    else if key in selected then
      Announce(o, to.interface, to.address, key, selected[key].routerId,
               Distance(selected[key].seqno, selected[key].metric), Urgent(now))
    else
      Send(to.interface, to.address, Retraction(key, None, UpdateInterval(o.cfg, o.interfaces, to.interface),
                                                sequenceNumber), Urgent(now))
  }

  /** The request went to a best neighbour with one hop less, or there was nobody to ask. */
  ghost predicate Passed(cands: Candidates, sources: Sources, selected: Selected, requester: NeighborKey, key: RouteKey,
                         seqno: u16, hopCount: u8, routerId: RouterId, now: u64, pending: Pending, pending': Pending,
                         out: set<Action>) {
    || ((forall ck :: ck in cands ==> !Forwards(cands, key, routerId, requester, ck)) && pending' == pending
      && out == {})
    || (hopCount > 1
        && exists target ::
             && BestTarget(cands, sources, selected, key, routerId, requester, target)
             && pending' == pending[(key, routerId) :=
                  PendingRequest(seqno, hopCount - 1, target.1, Some(requester), REQUEST_RETRIES,
                                 SatAdd(now, REQUEST_RETRY_INITIAL_MS))]
             && out == {Request(target.1.interface, target.1.address, key, routerId, seqno, hopCount - 1, Urgent(now))})
  }

  /** While a forwarded request is pending, neither it nor an older one is forwarded again, whoever asks. */
  lemma ForwardedOnce(self: RouterId, originated: Originated, selected: Selected, cands: Candidates, sources: Sources,
                      requester: NeighborKey, key: RouteKey, seqno: u16, hopCount: u8, routerId: RouterId, now: u64,
                      pending: Pending, pending': Pending, out: set<Action>, recent: map<SourceKey, (u16, u64)>,
                      again: u16, hops: u8, later: u64)
    requires Passed(cands, sources, selected, requester, key, seqno, hopCount, routerId, now, pending, pending', out)
      && out != {}
    requires Reaches(seqno, again)
    ensures CourseOf(self, originated, selected, pending', recent, key, again, hops, routerId, later) != Forward
  {
    hide BestTarget;
  }

  lemma ImprovedItself(env: Env, now: u64, s: Sources)
    ensures Improved(env, now, s, s)
  {
  }

  lemma CoveredMore(env: Env, now: u64, s: Sources, out: set<Action>, quiet: set<Action>)
    requires Covered(env, now, s, out) && forall a :: a in quiet && a.Send? ==> a.update.metric == INFINITY
    ensures Covered(env, now, s, out + quiet)
  {
  }

  lemma ReplyIsHonest(o: Outlet, cands: Candidates, originated: Originated, selected: Selected, key: RouteKey,
                      routerId: RouterId, d: Distance, to: NeighborKey, now: u64)
    requires Foreign(o.cfg.routerId, cands, selected)
    requires (routerId == o.cfg.routerId && key in originated
      && d == Distance(originated[key].seqno, originated[key].metric))
      || (key in selected && routerId == selected[key].routerId
        && d == Distance(selected[key].seqno, selected[key].metric))
    ensures var out := {Announce(o, to.interface, to.address, key, routerId, d, Urgent(now))};
      && Honest(o.cfg.routerId, selected, out) && Addressed(out) && Consistent(out) && About(Some(key), out)
      && forall a :: a in out && FiniteSend(a) && SourceOf(a).1 == o.cfg.routerId ==>
           SourceOf(a).0 in originated && DistanceOf(a).seqno == originated[SourceOf(a).0].seqno
  {
    hide Unavailable;
  }

  lemma StoredIsBalanced(limits: Limits, neighbors: Neighbors, cands: Candidates, ck: CandidateKey, c: Candidate)
    requires Balanced(limits, neighbors, cands) && ck.1 in neighbors
    requires ck in cands || (neighbors[ck.1].candidates < limits.maxPerNeighbor && |cands| < limits.maxCandidates)
    ensures Balanced(limits, Counting(neighbors, cands, ck), cands[ck := c])
  {
    hide Balanced;
    if ck !in cands {
      AdmitKeeps(limits, neighbors, cands, ck, c);
    } else {
      InPlaceKeeps(limits, neighbors, cands, neighbors, cands[ck := c]);
    }
  }

  lemma ChangeSendsAreLearned(o: Outlet, selected: Selected, changed: set<RouteKey>, now: u64)
    requires changed <= selected.Keys
    ensures OnlyLearned(selected, ChangeSends(o, selected, changed, now))
  {
    hide Suppressed, Unavailable;
  }

  /** Lost keys outside `todo` have their tombstones. */
  ghost predicate Burying(cands: Candidates, longest: u16, advertisedUntil: Deadlines, before: Selected,
                          tombstones: Deadlines, now: u64, selected: Selected, todo: set<RouteKey>,
                          tombstones': Deadlines) {
    && todo <= before.Keys - selected.Keys
    && tombstones'.Keys == (tombstones.Keys - selected.Keys - todo) + (before.Keys - selected.Keys - todo)
      + (tombstones.Keys * todo)
    && (forall k :: k in before && k !in selected && k !in todo ==>
      IsHold(cands, longest, advertisedUntil, k, now, tombstones'[k]))
    && (forall k :: k in tombstones && k !in selected && k !in before ==> tombstones'[k] == tombstones[k])
  }

  lemma BuryStart(cands: Candidates, longest: u16, advertisedUntil: Deadlines, before: Selected, tombstones: Deadlines,
                  now: u64, selected: Selected)
    ensures Burying(cands, longest, advertisedUntil, before, tombstones, now, selected, before.Keys - selected.Keys,
                    tombstones - selected.Keys)
  {
  }

  lemma BuryOne(cands: Candidates, longest: u16, advertisedUntil: Deadlines, before: Selected, tombstones: Deadlines,
                now: u64, selected: Selected, todo: set<RouteKey>, tombstones': Deadlines, k: RouteKey, latest: u64)
    requires Burying(cands, longest, advertisedUntil, before, tombstones, now, selected, todo, tombstones')
    requires k in todo && IsLatest(cands, k, now, latest)
    ensures Burying(cands, longest, advertisedUntil, before, tombstones, now, selected, todo - {k},
                    tombstones'[k := Max(Max(latest, Lifetime(now, longest)), Until(advertisedUntil, k))])
  {
    hide IsLatest;
    assert IsHold(cands, longest, advertisedUntil, k, now,
                  Max(Max(latest, Lifetime(now, longest)), Until(advertisedUntil, k)));
  }

  lemma BuryEnd(cands: Candidates, longest: u16, advertisedUntil: Deadlines, before: Selected, tombstones: Deadlines,
                now: u64, selected: Selected, tombstones': Deadlines)
    requires Burying(cands, longest, advertisedUntil, before, tombstones, now, selected, {}, tombstones')
    ensures Buried(cands, longest, advertisedUntil, before, tombstones, now, selected, tombstones')
  {
    hide IsHold;
  }

  lemma BuriedIsDisjoint(cands: Candidates, longest: u16, advertisedUntil: Deadlines, before: Selected,
                         tombstones: Deadlines, now: u64, selected: Selected, tombstones': Deadlines)
    requires Buried(cands, longest, advertisedUntil, before, tombstones, now, selected, tombstones')
    ensures Apart(selected, tombstones')
  {
    hide IsHold;
  }

  lemma LearnedStart(selected: Selected)
    ensures OnlyLearned(selected, {}) && Addressed({})
  {
  }

  lemma LearnedIsHonest(self: RouterId, cands: Candidates, selected: Selected, out: set<Action>)
    requires OnlyLearned(selected, out) && Foreign(self, cands, selected)
    ensures Honest(self, selected, out) && forall a :: a in out && FiniteSend(a) ==> SourceOf(a).1 != self
  {
  }

  lemma LearnedIsWritten(self: RouterId, selected: Selected, out: set<Action>, now: u64, s: Sources, s': Sources)
    requires OnlyLearned(selected, out) && Recorded(s, out, now, s')
    ensures Written(self, selected, now, s, s')
  {
    hide Recorded;
    assert Honest(self, selected, out);
  }

  /** Actions that announce nothing finite leave a pass as it is. */
  lemma QuietAddition(s: Sources, s': Sources, out: set<Action>, quiet: set<Action>, now: u64, selected: Selected)
    requires Recorded(s, out, now, s') && OnlyLearned(selected, out) && Addressed(out)
    requires forall a :: a in quiet && a.Send? ==> a.update.metric == INFINITY
    ensures Recorded(s, out + quiet, now, s') && OnlyLearned(selected, out + quiet) && Addressed(out + quiet)
  {
    forall sk ensures Mentions(out + quiet, sk) <==> Mentions(out, sk) {
      if Mentions(out, sk) {
        var a :| a in out && FiniteSend(a) && SourceOf(a) == sk;
        assert a in out + quiet;
      }
    }
  }

  lemma NothingFinite(o: Outlet, lost: set<RouteKey>, before: Selected, requests: set<Action>, now: u64)
    requires lost <= before.Keys && forall a :: a in requests ==> a.Request?
    ensures forall a :: a in requests + Retractions(o, lost, before, now) && a.Send? ==> a.update.metric == INFINITY
  {
  }

  lemma NothingAnnounced(o: Outlet, before: Selected, selected: Selected, now: u64)
    requires before == selected
    ensures Retractions(o, before.Keys - selected.Keys, before, now) == {}
    ensures ChangeSends(o, selected, ChangedKeys(before, selected), now) == {}
  {
    assert ChangedKeys(before, selected) == {};
  }

  /** Everything a reselection establishes within the hypotheses. */
  lemma AfterReselection(env: Env, cfg: Config, cands: Candidates, s: Sources, before: Selected, m: Memory, now: u64,
                         selected: Selected, m': Memory, originated: Originated, sequenceNumber: u16,
                         tainted: set<RouteKey>, s': Sources, out: set<Action>)
    requires Reselected(cfg.selection, cands, s, before, m, now, selected, m') && Foreign(cfg.routerId, cands, selected)
    requires Tame(env, cfg.routerId, cands, s, selected, originated, sequenceNumber)
      && Synced(originated, sequenceNumber)
    requires Conditioned(cands, s, before, tainted) && Extended(cands)
    requires Recorded(s, out, now, s') && OnlyLearned(selected, out) && Addressed(out)
    ensures Tame(env, cfg.routerId, cands, s', selected, originated, sequenceNumber)
    ensures Conditioned(cands, s', selected, StillTainted(tainted, before, selected))
    ensures Stable(cfg.selection, cands, s', selected, m'.pending.Keys) && AllBacked(cands, selected, {})
    ensures Improved(env, now, s, s') && Covered(env, now, s', out)
  {
    hide Reselected, CandidatesIn, SourcesIn, Foreign, Conditioned, Extended, Recorded, Honest, Addressed, Stable,
         AllBacked, Improved, Covered, InWindow, StillTainted, FiniteSend, OnlyLearned;
    LearnedIsHonest(cfg.routerId, cands, selected, out);
    ReselectedIsStable(env, cfg.selection, cands, s, before, m, now, selected, m');
    StableIsBacked(env, cfg.selection, cands, s, selected, m'.pending.Keys);
    ReselectionKeepsConditioned(env, cfg.selection, cands, s, before, m, now, selected, m', tainted);
    PassIsTame(env, cfg.routerId, cands, s, s', selected, originated, sequenceNumber, out, now);
    BackedEverywhere(None, cands, selected, StillTainted(tainted, before, selected));
    AboutAnything(out);
    PassKeepsConditioned(cfg.routerId, cands, s, out, now, s', selected, StillTainted(tainted, before, selected), None);
    StableShrinks(env, cfg.selection, now, cands, s, s', selected, m'.pending.Keys);
  }

  lemma BackedEverywhere(only: Option<RouteKey>, cands: Candidates, selected: Selected, tainted: set<RouteKey>)
    requires AllBacked(cands, selected, {})
    ensures BackedFor(only, cands, selected, tainted)
  {
  }

  lemma AboutAnything(out: set<Action>)
    ensures About(None, out)
  {
  }

  lemma RecordedStart(s: Sources, now: u64)
    ensures Recorded(s, {}, now, s)
  {
  }

  lemma ConsistentPart(out: set<Action>, part: set<Action>)
    requires Consistent(out) && part <= out
    ensures Consistent(part)
  {
  }

  /** One pass of announcements within the hypotheses. */
  lemma PassIsTame(env: Env, self: RouterId, cands: Candidates, s: Sources, s': Sources, selected: Selected,
                   originated: Originated, sequenceNumber: u16, out: set<Action>, now: u64)
    requires Tame(env, self, cands, s, selected, originated, sequenceNumber) && Honest(self, selected, out)
      && Addressed(out)
    requires forall a :: a in out && FiniteSend(a) && SourceOf(a).1 == self ==>
      SourceOf(a).0 in originated && DistanceOf(a).seqno == originated[SourceOf(a).0].seqno
    requires Synced(originated, sequenceNumber) && Recorded(s, out, now, s')
    ensures Tame(env, self, cands, s', selected, originated, sequenceNumber)
    ensures Improved(env, now, s, s') && Covered(env, now, s', out)
  {
    hide Recorded, InWindow, CandidatesIn, SourcesIn, Honest, Addressed, Improved, Covered;
    OutIsIn(env, self, cands, s, selected, originated, sequenceNumber, out);
    RecordedCovers(env, s, out, now, s');
  }

  // ----- aging candidates

  /** An expired candidate becomes unreachable for one more lifetime. */
  function Lapse(c: Candidate, now: u64): Candidate { Retract(c).(expires := Lifetime(now, c.intervalCs)) }

  lemma LapseIsSubdued(cands: Candidates, ck: CandidateKey, now: u64)
    requires ck in cands
    ensures Subdued(cands, cands[ck := Lapse(cands[ck], now)])
      && (Extended(cands) ==> Extended(cands[ck := Lapse(cands[ck], now)]))
  {
  }

  lemma LapseStaysPriced(algebra: (u16, u16) -> u16, neighbors: Neighbors, cands: Candidates, ck: CandidateKey,
                         now: u64)
    requires Priced(algebra, neighbors, cands) && ck in cands
    ensures Priced(algebra, neighbors, cands[ck := Lapse(cands[ck], now)])
  {
  }

  lemma QualityTwice(a: Neighbors, b: Neighbors, c: Neighbors)
    requires QualityKept(a, b) && QualityKept(b, c)
    ensures QualityKept(a, c)
  {
  }

  lemma QualityItself(a: Neighbors)
    ensures QualityKept(a, a)
  {
  }

  lemma CostsThroughQuality(neighbors: Neighbors, aged: Neighbors, counted: Neighbors, who: set<NeighborKey>)
    requires CostsKept(neighbors, aged, who) && QualityKept(aged, counted)
    ensures CostsKept(neighbors, counted, who)
  {
    forall nk | nk in counted && nk !in who ensures nk in neighbors
      && LinkCost(counted[nk]) == LinkCost(neighbors[nk]) {
      assert LinkCost(counted[nk]) == LinkCost(aged[nk]);
    }
  }

  lemma AttachedFewer(neighbors: Neighbors, cands: Candidates, fewer: Candidates)
    requires Attached(neighbors, cands) && Subdued(cands, fewer)
    ensures Attached(neighbors, fewer)
  {
  }

  function ExpiredCandidates(cands: Candidates, now: u64): set<CandidateKey> {
    set ck | ck in cands && cands[ck].expires < now
  }

  function LapseKeys(cands: Candidates, keys: set<CandidateKey>, now: u64): Candidates {
    map ck | ck in cands && !(ck in keys && cands[ck].metric == INFINITY) :: if ck in keys then Lapse(cands[ck], now)
      else cands[ck]
  }

  lemma LapseNone(cands: Candidates, now: u64)
    ensures LapseKeys(cands, {}, now) == cands
  {
  }

  lemma LapseOne(cands: Candidates, done: set<CandidateKey>, ck: CandidateKey, now: u64)
    requires ck in cands && ck !in done
    ensures ck in LapseKeys(cands, done, now) && LapseKeys(cands, done, now)[ck] == cands[ck]
    ensures cands[ck].metric == INFINITY ==> LapseKeys(cands, done + {ck}, now) == LapseKeys(cands, done, now) - {ck}
    ensures cands[ck].metric != INFINITY ==>
      LapseKeys(cands, done + {ck}, now) == LapseKeys(cands, done, now)[ck := Lapse(cands[ck], now)]
  {
  }

  /** Aging left the books, prices and selection inputs where recomputing finds them. */
  lemma RepricedAfterAging(algebra: (u16, u16) -> u16, limits: Limits, neighbors: Neighbors, cands0: Candidates,
                           aged: Neighbors, counted: Neighbors, cands: Candidates, who: set<NeighborKey>)
    requires Balanced(limits, neighbors, cands0) && Subdued(cands0, cands) && Priced(algebra, neighbors, cands)
    requires CostsKept(neighbors, aged, who) && QualityKept(aged, counted)
    ensures Priced(algebra, counted, Reprice(cands, algebra, counted, who))
  {
    hide Balanced, Subdued, Priced, QualityKept, LinkCost, Reprice;
    BalancedIsAttached(limits, neighbors, cands0);
    AttachedFewer(neighbors, cands0, cands);
    CostsThroughQuality(neighbors, aged, counted, who);
    RepriceRestores(cands, algebra, neighbors, counted, who);
  }

  lemma ApartStillDue(selected: Selected, tombstones: Deadlines, now: u64)
    requires Apart(selected, tombstones)
    ensures Apart(selected, StillDue(tombstones, now))
  {
  }

  // ----- retries and periods

  predicate IsDue(p: PendingRequest, now: u64) { now >= p.nextRetry }

  function Retries(requests: Pending, now: u64): set<Action> {
    set sk | sk in requests && IsDue(requests[sk], now) && requests[sk].retriesLeft > 0 ::
      Request(requests[sk].nextHop.interface, requests[sk].nextHop.address, sk.0, sk.1, requests[sk].seqno,
              requests[sk].hopCount, Urgent(now))
  }

  /** Each retry doubles the wait; a request without retries left is dropped. */
  function Retried(requests: Pending, now: u64): Pending {
    map sk | sk in requests && !(IsDue(requests[sk], now) && requests[sk].retriesLeft == 0) ::
      if IsDue(requests[sk], now) then
        requests[sk].(retriesLeft := requests[sk].retriesLeft - 1,
                      nextRetry := SatAdd(now, REQUEST_RETRY_INITIAL_MS * Pow2(SatSub(REQUEST_RETRIES,
                          requests[sk].retriesLeft) + 1)))
      else requests[sk]
  }

  /** What a tick does to the pending requests: some may be raised, then the due ones are sent again or given up. */
  ghost predicate RequestsRan(was: Pending, now: u64, pending: Pending, out: set<Action>) {
    exists asked :: RequestsKept(was, asked) && pending == Retried(asked, now) && Retries(asked, now) <= out
  }

  lemma RanWith(was: Pending, asked: Pending, now: u64, pending: Pending, out: set<Action>)
    requires RequestsKept(was, asked) && pending == Retried(asked, now) && Retries(asked, now) <= out
    ensures RequestsRan(was, now, pending, out)
  {
  }

  /** Requests raised before a tick make no difference to it. */
  lemma RanAfter(was: Pending, mid: Pending, now: u64, pending: Pending, said: set<Action>, out: set<Action>)
    requires RequestsKept(was, mid) && RequestsRan(mid, now, pending, said) && said <= out
    ensures RequestsRan(was, now, pending, out)
  {
    hide Retried, Retries;
    var asked :| RequestsKept(mid, asked) && pending == Retried(asked, now) && Retries(asked, now) <= said;
    KeptTwice(was, mid, asked);
    RanWith(was, asked, now, pending, out);
  }

  lemma KeptItself(pending: Pending)
    ensures RequestsKept(pending, pending)
  {
  }

  lemma KeptTwice(was: Pending, mid: Pending, requests: Pending)
    requires RequestsKept(was, mid) && RequestsKept(mid, requests)
    ensures RequestsKept(was, requests)
  {
  }

  /** `next_periodic_deadline`: keep the phase unless it was missed by a whole period. */
  function NextPeriodic(deadline: u64, now: u64, intervalCs: u16): (next: u64)
    ensures intervalCs > 0 && now < U64_MAX ==> next > now
  {
    var anchored := SatAdd(deadline, intervalCs * 10);
    if anchored > now then anchored else SatAdd(now, intervalCs * 10)
  }

  /** Repeats that are due are counted down and put off, the last one is forgotten. */
  function CountedDown(adverts: map<RouteKey, (u64, nat)>, now: u64): map<RouteKey, (u64, nat)> {
    map k | k in adverts && (now < adverts[k].0 || adverts[k].1 > 1) ::
      if now < adverts[k].0 then adverts[k] else (SatAdd(now, 1_000), adverts[k].1 - 1)
  }

  predicate UpdateDue(interface: Interface, now: u64) { SatAdd(now, MAX_TRIGGERED_JITTER_MS) >= interface.nextUpdate }

  function Rescheduled(interfaces: Interfaces, now: u64): Interfaces {
    map n | n in interfaces ::
      if UpdateDue(interfaces[n], now) then
        interfaces[n].(nextUpdate := NextPeriodic(interfaces[n].nextUpdate, now, interfaces[n].policy.updateIntervalCs))
      else interfaces[n]
  }

  function Silent(neighbors: Neighbors, senses: map<NeighborKey, TickSense>): set<NeighborKey> {
    set nk | nk in neighbors && nk in senses && senses[nk].silent
  }

  /** The candidate table after a tick: silent neighbours' gone, the expired retracted or dropped, the rest at the new
      costs. */
  function AfterClock(cands: Candidates, algebra: (u16, u16) -> u16, neighbors: Neighbors, neighbors': Neighbors,
                      senses: map<NeighborKey, TickSense>, now: u64): Candidates {
    var left := WithoutNeighbors(cands, Silent(neighbors, senses));
    Reprice(LapseKeys(left, ExpiredCandidates(left, now), now), algebra, neighbors', Noted(neighbors, senses, now))
  }

  /** No candidate past its time can be used after a tick, and exactly the unusable ones past it are gone. */
  lemma AfterClockMeans(cands: Candidates, algebra: (u16, u16) -> u16, neighbors: Neighbors, neighbors': Neighbors,
                        senses: map<NeighborKey, TickSense>, now: u64, ck: CandidateKey)
    ensures var after := AfterClock(cands, algebra, neighbors, neighbors', senses, now);
      && (ck in after <==>
            ck in cands && ck.1 !in Silent(neighbors, senses)
              && (cands[ck].expires >= now || cands[ck].metric != INFINITY))
      && (ck in after && cands[ck].expires < now ==> after[ck].advertised == INFINITY && after[ck].metric == INFINITY)
      && (ck in after && cands[ck].expires >= now ==>
        after[ck].advertised == cands[ck].advertised && after[ck].expires == cands[ck].expires)
  {
    hide Silent, Noted, LinkCost;
  }

  function StillRecent(m: map<SourceKey, (u16, u64)>, now: u64): map<SourceKey, (u16, u64)> {
    map sk | sk in m && m[sk].1 >= now :: m[sk]
  }

  predicate Snapshots(out: set<Action>) { exists a :: a in out && a.RoutesChanged? }

  /** Quiet actions extend an event without effect on the table. */
  lemma GoQuietly(env: Env, now: u64, s0: Sources, s: Sources, out: set<Action>, quiet: set<Action>)
    requires Going(env, now, s0, s, out) && forall a :: a in quiet && a.Send? ==> a.update.metric == INFINITY
    ensures Going(env, now, s0, s, out + quiet)
  {
    hide Covers;
    CoveredMore(env, now, s, out, quiet);
  }

  lemma CollectGoes(env: Env, now: u64, s: Sources)
    requires SourcesIn(env, s)
    ensures Going(env, now, s, Collect(s, now), {})
  {
    GoingStart(env, now, s);
    CollectGoesOn(env, now, s, s, {});
  }

  lemma RetriesSendNothing(requests: Pending, now: u64)
    ensures forall a :: a in Retries(requests, now) ==> a.Request?
  {
  }

  lemma GoAged(env: Env, now: u64, s0: Sources, s: Sources, s': Sources, out: set<Action>, quiet: set<Action>)
    requires Going(env, now, s0, s, {}) && Going(env, now, s, s', out)
    requires forall a :: a in quiet && a.Send? ==> a.update.metric == INFINITY
    ensures Going(env, now, s0, s', out + quiet)
  {
    hide Going;
    GoFurther(env, now, s0, s, s', {}, out);
    assert {} + out == out;
    GoQuietly(env, now, s0, s', out, quiet);
  }

  // ----- interface events

  /** Forgetting neighbours with their candidates keeps the books and the prices, and offers nothing new. */
  lemma DroppedFacts(limits: Limits, algebra: (u16, u16) -> u16, neighbors: Neighbors, cands: Candidates,
                     gone: set<NeighborKey>)
    requires Balanced(limits, neighbors, cands) && Priced(algebra, neighbors, cands)
    ensures Balanced(limits, neighbors - gone, WithoutNeighbors(cands, gone))
      && Priced(algebra, neighbors - gone, WithoutNeighbors(cands, gone))
    ensures Subdued(cands, WithoutNeighbors(cands, gone))
      && (Extended(cands) ==> Extended(WithoutNeighbors(cands, gone)))
  {
    hide Balanced, LinkCost, SafeExtend, Subdued, Extended;
    DropKeeps(limits, neighbors, cands, gone, WithoutNeighbors(cands, gone));
    BalancedIsAttached(limits, neighbors, cands);
    DroppingIsSubdued(neighbors, cands, gone);
  }

  function OnInterface(neighbors: Neighbors,
                       name: string): set<NeighborKey> { set nk | nk in neighbors && nk.interface == name }

  /** Metric state rebuilt from observations under a new policy. */
  function Rebuilt(neighbors: Neighbors, name: string, etx: bool, senses: map<NeighborKey, TickSense>): Neighbors {
    map nk | nk in neighbors ::
      if nk.interface == name then
        neighbors[nk].(etx := etx, penalty := 0, rx := if nk in senses then senses[nk].rx else neighbors[nk].rx)
      else neighbors[nk]
  }

  lemma RebuiltIsBalanced(limits: Limits, neighbors: Neighbors, cands: Candidates, name: string, etx: bool,
                          senses: map<NeighborKey, TickSense>)
    requires Balanced(limits, neighbors, cands)
    ensures Balanced(limits, Rebuilt(neighbors, name, etx, senses), cands)
  {
    hide Balanced;
    InPlaceKeeps(limits, neighbors, cands, Rebuilt(neighbors, name, etx, senses), cands);
  }

  lemma RepriceAll(algebra: (u16, u16) -> u16, limits: Limits, neighbors: Neighbors, cands: Candidates)
    ensures Priced(algebra, neighbors, Reprice(cands, algebra, neighbors, neighbors.Keys))
  {
    hide LinkCost, SafeExtend;
  }

  // ----- origin events

  lemma HeldWithOrigin(owed: Deadlines, now: u64, advertisedUntil: Deadlines, selected: Selected,
                       originated: Originated, tombstones: Deadlines, key: RouteKey, originated': Originated)
    requires Held(owed, now, advertisedUntil, selected, originated, tombstones, {})
      && originated.Keys + {key} <= originated'.Keys
    ensures Held(owed, now, advertisedUntil, selected, originated', tombstones - {key}, {})
  {
  }

  lemma HeldWithout(owed: Deadlines, now: u64, advertisedUntil: Deadlines, selected: Selected, originated: Originated,
                    tombstones: Deadlines, originated': Originated, gone: set<RouteKey>)
    requires Held(owed, now, advertisedUntil, selected, originated, tombstones, {})
      && originated.Keys <= originated'.Keys + gone
    ensures Held(owed, now, advertisedUntil, selected, originated', tombstones, gone)
  {
  }

  /** `hold_withdrawal` redeems the exemption of one key. */
  lemma HeldAgain(owed: Deadlines, now: u64, advertisedUntil: Deadlines, selected: Selected, originated: Originated,
                  tombstones: Deadlines, exempt: set<RouteKey>, key: RouteKey, until: u64)
    requires Held(owed, now, advertisedUntil, selected, originated, tombstones, exempt)
    ensures key in selected ==> Held(owed, now, advertisedUntil, selected, originated, tombstones, exempt - {key})
    ensures until >= Until(advertisedUntil, key) ==>
      Held(owed, now, advertisedUntil, selected, originated, tombstones[key := until], exempt - {key})
  {
  }

  lemma ApartPut(selected: Selected, tombstones: Deadlines, key: RouteKey, until: u64)
    requires Apart(selected, tombstones) && key !in selected
    ensures Apart(selected, tombstones[key := until])
  {
  }

  lemma ApartFewer(selected: Selected, tombstones: Deadlines, gone: set<RouteKey>)
    requires Apart(selected, tombstones)
    ensures Apart(selected, tombstones - gone)
  {
  }

  lemma HeldUnburied(owed: Deadlines, now: u64, advertisedUntil: Deadlines, selected: Selected, originated: Originated,
                     tombstones: Deadlines)
    requires Held(owed, now, advertisedUntil, selected, originated, tombstones, {})
    ensures Held(owed, now, advertisedUntil, selected, originated, tombstones - originated.Keys, {})
  {
  }

  /** A key may join the origins within the hypotheses if its window holds the number. */
  lemma OriginKeepsTame(env: Env, self: RouterId, cands: Candidates, sources: Sources, selected: Selected,
                        originated: Originated, sequenceNumber: u16, originated': Originated)
    requires Tame(env, self, cands, sources, selected, originated, sequenceNumber)
    requires forall k :: k in originated' ==> InWindow(env.base((k, self)), sequenceNumber)
    ensures Tame(env, self, cands, sources, selected, originated', sequenceNumber)
  {
  }

  /** One origin set to a metric; the number moves on exactly when the metric got worse. */
  predicate OriginSet(o: Originated, n: u16, o': Originated, n': u16, key: RouteKey, metric: u16, bumps: nat) {
    && bumps == (if key in o && metric > o[key].metric then 1 else 0)
    && n' == WrapAdd16(n, bumps) && o' == Stamped(o, n')[key := Origin(metric, n')]
  }

  lemma SettingOrigin(o: Originated, n: u16, o1: Originated, n1: u16, key: RouteKey, metric: u16, bumps: nat)
    requires Bumped(o, n, o1, n1, bumps) && bumps == (if key in o && metric > o[key].metric then 1 else 0)
    ensures OriginSet(o, n, o1[key := Origin(metric, n1)], n1, key, metric, bumps)
    ensures o.Keys + {key} <= o1[key := Origin(metric, n1)].Keys
  {
  }

  /** All origins replaced; the number moves on exactly when some kept origin got worse. */
  predicate OriginsReplaced(o: Originated, n: u16, o': Originated, n': u16, origins: map<RouteKey, u16>, bumps: nat) {
    && bumps == (if GetsWorse(o, origins) then 1 else 0)
    && n' == WrapAdd16(n, bumps) && o' == map k | k in origins :: Origin(origins[k], n')
  }

  predicate GetsWorse(o: Originated, origins: map<RouteKey, u16>) {
    exists k :: k in o && k in origins && origins[k] > o[k].metric
  }

  predicate SameOrigins(o: Originated, origins: map<RouteKey, u16>) {
    o.Keys == origins.Keys && forall k :: k in o ==> o[k].metric == origins[k]
  }

  lemma ReplacedBySame(o: Originated, n: u16, origins: map<RouteKey, u16>)
    requires SameOrigins(o, origins) && Synced(o, n)
    ensures OriginsReplaced(o, n, o, n, origins, 0)
  {
  }

  function Numbered(origins: map<RouteKey, u16>, n: u16): Originated { map k | k in origins :: Origin(origins[k], n) }

  lemma NumberedIsSynced(origins: map<RouteKey, u16>, n: u16)
    requires forall k :: k in origins ==> origins[k] != INFINITY
    ensures Synced(Numbered(origins, n), n) && Numbered(origins, n).Keys == origins.Keys
  {
  }

  lemma Replacing(o: Originated, n: u16, o1: Originated, n1: u16, origins: map<RouteKey, u16>, bumps: nat)
    requires Bumped(o, n, o1, n1, bumps) && bumps == (if GetsWorse(o, origins) then 1 else 0)
    ensures OriginsReplaced(o, n, Numbered(origins, n1), n1, origins, bumps)
    ensures o.Keys <= Numbered(origins, n1).Keys + (o.Keys - origins.Keys)
  {
    hide GetsWorse;
  }

  // ----- policy events

  /** The candidates a policy keeps: reachable ones it accepts. */
  function Admitted(cands: Candidates, policy: RoutePolicy): Candidates {
    map ck | ck in cands && cands[ck].advertised != INFINITY
             && policy.accept(Import(ck.0, ck.1, cands[ck].nextHop, cands[ck].routerId, cands[ck].seqno,
                                     cands[ck].advertised)) :: cands[ck]
  }

  function Recounted(neighbors: Neighbors, cands: Candidates): Neighbors {
    map nk | nk in neighbors :: neighbors[nk].(candidates := |CandidatesOf(cands, nk)|)
  }

  lemma AdmittedKeeps(limits: Limits, algebra: (u16, u16) -> u16, neighbors: Neighbors, cands: Candidates,
                      policy: RoutePolicy)
    requires Balanced(limits, neighbors, cands)
    ensures var left := Admitted(cands, policy);
      && Balanced(limits, Recounted(neighbors, left), left) && Subdued(cands, left)
        && (Extended(cands) ==> Extended(left))
      && (Priced(algebra, neighbors, cands) ==> Priced(algebra, Recounted(neighbors, left), left))
  {
    hide CandidatesOf;
    var left := Admitted(cands, policy);
    var counted := Recounted(neighbors, left);
    assert Counted(counted, left);
    RecountKeeps(limits, neighbors, cands, counted, left);
    if Priced(algebra, neighbors, cands) {
      FewerStayPriced(algebra, neighbors, cands, left);
      assert QualityKept(neighbors, counted);
      QualityKeepsPrices(algebra, neighbors, counted, left);
    }
  }

  // ----- events

  /** One input; what Hello histories and RTT samples yield comes with it. */
  datatype Event =
    | InterfaceUp(name: string, addresses: seq<IpAddr>, ifacePolicy: InterfacePolicy, now: u64,
                  ticks: map<NeighborKey, TickSense>)
    | InterfacePolicyChanged(name: string, ifacePolicy: InterfacePolicy, resetMetric: bool, now: u64,
                             senses: map<NeighborKey, TickSense>, ticks: map<NeighborKey, TickSense>)
    | InterfaceAddressesChanged(name: string, addresses: seq<IpAddr>, now: u64)
    | InterfaceDown(name: string, now: u64)
    | PacketReceived(interface: string, source: IpAddr, tlvs: seq<Tlv>, now: u64, sense: Sense)
    | Originate(key: RouteKey, metric: u16, now: u64)
    | Withdraw(key: RouteKey, now: u64)
    | ReplaceOrigins(origins: map<RouteKey, u16>, now: u64)
    | ReplaceRoutePolicy(routePolicy: RoutePolicy, now: u64)
    | Tick(now: u64, ticks: map<NeighborKey, TickSense>)

  datatype ConfigError = ZeroInterval | InvalidRouteKey | InvalidOriginMetric

  predicate CanonicalKey(k: RouteKey) { NewRouteKey(k.destination, k.source) == Some(k) }

  function ValidateOrigin(k: RouteKey, metric: u16): Option<ConfigError> {
    if !CanonicalKey(k) then Some(InvalidRouteKey) else if metric == INFINITY then Some(InvalidOriginMetric) else None
  }

  predicate ZeroIntervals(p: InterfacePolicy) { p.helloIntervalCs == 0 || p.updateIntervalCs == 0 }

  /** `Event::validate`; of several bad origins, any one may be reported. */
  predicate Rejects(ev: Event, e: ConfigError) {
    match ev
    case InterfaceUp(_, _, p, _, _) => ZeroIntervals(p) && e == ZeroInterval
    case InterfacePolicyChanged(_, p, _, _, _, _) => ZeroIntervals(p) && e == ZeroInterval
    case Originate(k, metric, _) => ValidateOrigin(k, metric) == Some(e)
    case Withdraw(k, _) => !CanonicalKey(k) && e == InvalidRouteKey
    case ReplaceOrigins(origins, _) => exists k :: k in origins && ValidateOrigin(k, origins[k]) == Some(e)
    case _ => false
  }

  predicate Accepted(ev: Event) {
    match ev
    case InterfaceUp(_, _, p, _, _) => !ZeroIntervals(p)
    case InterfacePolicyChanged(_, p, _, _, _, _) => !ZeroIntervals(p)
    case Originate(k, metric, _) => ValidateOrigin(k, metric) == None
    case Withdraw(k, _) => CanonicalKey(k)
    case ReplaceOrigins(origins, _) => forall k :: k in origins ==> ValidateOrigin(k, origins[k]) == None
    case _ => true
  }

  /** The tables events act on. */
  datatype View = View(policy: RoutePolicy, interfaces: Interfaces, neighbors: Neighbors, candidates: Candidates,
                       sources: Sources, pending: Pending, originated: Originated, sequenceNumber: u16,
                       selected: Selected, tombstones: map<RouteKey, u64>)

  predicate Clocked(cfg: Config, senses: map<NeighborKey, TickSense>, now: u64, a: View, b: View) {
    && b.candidates == AfterClock(a.candidates, cfg.algebra, a.neighbors, b.neighbors, senses, now)
    && QualityKept(Aged(a.neighbors, senses, Silent(a.neighbors, senses), now), b.neighbors)
  }

  function PolicyPut(interfaces: Interfaces, name: string, p: InterfacePolicy, now: u64): Interfaces {
    if name in interfaces then
      Rescheduled(interfaces[name := interfaces[name].(policy := p, nextUpdate := now)], now)
    else interfaces
  }

  /** What each event does to the tables it is about. */
  ghost predicate Performed(cfg: Config, ev: Event, a: View, b: View) {
    match ev
    case InterfaceUp(name, addresses, p, now, ticks) =>
      && b.interfaces == Rescheduled(if name in a.interfaces then a.interfaces
        else a.interfaces[name := Interface(addresses, p, now)], now)
      && Clocked(cfg, ticks, now, a, b)
    case InterfacePolicyChanged(name, p, _, now, _, _) => b.interfaces == PolicyPut(a.interfaces, name, p, now)
    case InterfaceAddressesChanged(name, addresses, _) =>
      b.interfaces == if name in a.interfaces then a.interfaces[name := a.interfaces[name].(addresses := addresses)]
        else a.interfaces
    case InterfaceDown(name, _) =>
      && b.interfaces == a.interfaces - {name} && b.neighbors == a.neighbors - OnInterface(a.neighbors, name)
      && b.candidates == WithoutNeighbors(a.candidates, OnInterface(a.neighbors, name))
    case PacketReceived(interface, source, tlvs, now, sense) =>
      var nk := NeighborKey(interface, source);
      if Admits(cfg, a.interfaces, a.neighbors, nk, tlvs) then
        exists trail :: Processed(Outlet(cfg, a.policy, a.interfaces), a.selected, nk, tlvs, now, sense,
                                  Snap(a.neighbors, a.candidates, a.sources, a.pending), trail, b.neighbors,
                                    b.candidates)
      else b == a
    case Originate(key, metric, _) =>
      exists n :: OriginSet(a.originated, a.sequenceNumber, b.originated, b.sequenceNumber, key, metric, n)
    case Withdraw(key, _) =>
      b.originated == a.originated - {key} && (key in a.originated && key !in b.selected ==> key in b.tombstones)
    case ReplaceOrigins(origins, _) =>
      && (exists n :: OriginsReplaced(a.originated, a.sequenceNumber, b.originated, b.sequenceNumber, origins, n))
      && forall k :: k in a.originated && k !in origins && k !in b.selected ==> k in b.tombstones
    case ReplaceRoutePolicy(p, _) =>
      b.policy == p && b.candidates == Admitted(a.candidates, p)
    case Tick(now, ticks) =>
      b.interfaces == Rescheduled(a.interfaces, now) && Clocked(cfg, ticks, now, a, b)
  }

  /** Every reachable candidate was there before, or a received packet offers it. */
  ghost predicate Accounted(rules: Rules, ev: Event, cands: Candidates, cands': Candidates) {
    if ev.PacketReceived? then Traced(rules, cands, cands', NeighborKey(ev.interface, ev.source), ev.tlvs)
      else Subdued(cands, cands')
  }

  function MostBumps(ev: Event): nat { if ev.PacketReceived? then SeqnoRequests(ev.tlvs) else 1 }

  /** A continuously originated key keeps its distance or gets a strictly feasible one. */
  predicate OriginsImprove(o: Originated, o': Originated) {
    forall k :: k in o && k in o' ==>
      o'[k] == o[k] || Distance(o'[k].seqno, o'[k].metric).FeasibleAgainst(Distance(o[k].seqno, o[k].metric))
  }

  lemma NewerIsGreater(n: u16, bumps: nat)
    requires 0 < bumps < 0x8000
    ensures SeqnoGt(WrapAdd16(n, bumps), n)
  {
  }

  lemma BumpedImproves(o: Originated, n: u16, o': Originated, n': u16, bumps: nat)
    requires Synced(o, n) && Bumped(o, n, o', n', bumps) && bumps < 0x8000
    ensures OriginsImprove(o, o')
  {
    if bumps > 0 { NewerIsGreater(n, bumps); }
  }

  lemma SetImproves(o: Originated, n: u16, o': Originated, n': u16, key: RouteKey, metric: u16, bumps: nat)
    requires Synced(o, n) && OriginSet(o, n, o', n', key, metric, bumps)
    ensures OriginsImprove(o, o') && bumps <= 1 && n' == WrapAdd16(n, bumps)
  {
    if bumps > 0 { NewerIsGreater(n, bumps); }
  }

  lemma ReplacedImproves(o: Originated, n: u16, o': Originated, n': u16, origins: map<RouteKey, u16>, bumps: nat)
    requires Synced(o, n) && OriginsReplaced(o, n, o', n', origins, bumps)
    ensures OriginsImprove(o, o') && bumps <= 1 && n' == WrapAdd16(n, bumps)
  {
    if bumps > 0 { NewerIsGreater(n, bumps); }
  }

  // ----- lifetimes of what was announced

  predicate SentLifetime(a: Action, k: RouteKey, until: u64) {
    a.Send? && a.update.metric != INFINITY && a.update.key == Some(k)
      && until == Lifetime(a.deadline, a.update.intervalCs)
  }

  /** Every announced lifetime is recorded, and nothing recorded shrinks. */
  predicate LifetimesNoted(au: Deadlines, out: set<Action>, au': Deadlines) {
    && (forall k :: k in au ==> k in au' && au[k] <= au'[k])
    && (forall a :: a in out && a.Send? && a.update.metric != INFINITY && a.update.key.Some? ==>
          a.update.key.value in au' && Lifetime(a.deadline, a.update.intervalCs) <= au'[a.update.key.value])
    && (forall k :: k in au' ==> (k in au && au'[k] == au[k]) || exists a :: a in out && SentLifetime(a, k, au'[k]))
  }

  function NoteOne(au: Deadlines, a: Action): Deadlines {
    if a.Send? && a.update.metric != INFINITY && a.update.key.Some? then
      au[a.update.key.value := Max(Until(au, a.update.key.value), Lifetime(a.deadline, a.update.intervalCs))]
    else au
  }

  lemma NotedStart(au: Deadlines)
    ensures LifetimesNoted(au, {}, au)
  {
  }

  lemma NotedOne(au: Deadlines, done: set<Action>, au1: Deadlines, a: Action)
    requires LifetimesNoted(au, done, au1)
    ensures LifetimesNoted(au, done + {a}, NoteOne(au1, a))
  {
    var more, au2 := done + {a}, NoteOne(au1, a);
    forall k | k in au2 ensures (k in au && au2[k] == au[k]) || exists b :: b in more && SentLifetime(b, k, au2[k]) {
      if k in au1 && au2[k] == au1[k] && !(k in au && au1[k] == au[k]) {
        var b :| b in done && SentLifetime(b, k, au1[k]);
        assert b in more;
      } else if !(k in au1 && au2[k] == au1[k]) {
        assert a in more && SentLifetime(a, k, au2[k]);
      }
    }
  }

  lemma HeldMoreAdvertised(owed: Deadlines, now: u64, au: Deadlines, selected: Selected, originated: Originated,
                           tombstones: Deadlines, out: set<Action>, au': Deadlines)
    requires Held(owed, now, au, selected, originated, tombstones, {}) && LifetimesNoted(au, out, au')
    ensures Held(owed, now, au', selected, originated, tombstones, {})
  {
  }

  lemma FewerImprove(o: Originated, key: RouteKey)
    ensures OriginsImprove(o, o - {key})
  {
  }

  lemma SameImproves(o: Originated)
    ensures OriginsImprove(o, o)
  {
  }

  lemma RejectedIsNotAccepted(ev: Event, e: ConfigError)
    requires Rejects(ev, e)
    ensures !Accepted(ev)
  {
  }

  /** A packet may undercut the key; no other event does. */
  predicate UndercutBy(rules: Rules, ev: Event, neighbors: Neighbors, pending: Pending, cands: Candidates,
                       selected: Selected, k: RouteKey) {
    ev.PacketReceived?
    && var nk := NeighborKey(ev.interface, ev.source);
       Undercuts(rules, CostOf(neighbors, nk), pending, cands, selected, nk, ev.tlvs, k)
  }

  predicate TaintedByEvent(rules: Rules, ev: Event, neighbors: Neighbors, pending: Pending, cands: Candidates,
                           selected: Selected, t: set<RouteKey>, t': set<RouteKey>) {
    forall k :: k in t' && k !in t ==> UndercutBy(rules, ev, neighbors, pending, cands, selected, k)
  }

  lemma NotTaintedByEvent(rules: Rules, ev: Event, neighbors: Neighbors, pending: Pending, cands: Candidates,
                          selected: Selected, t: set<RouteKey>, t': set<RouteKey>)
    requires t' <= t
    ensures TaintedByEvent(rules, ev, neighbors, pending, cands, selected, t, t')
  {
    hide UndercutBy;
  }

  /** The selected keys whose route has lost its feasibility condition. */
  ghost function Weak(cands: Candidates, sources: Sources, selected: Selected): set<RouteKey> {
    set k | k in selected && !KeepsCondition(cands, sources, selected, k)
  }

  lemma WeakIsConditioned(cands: Candidates, sources: Sources, selected: Selected)
    ensures Conditioned(cands, sources, selected, Weak(cands, sources, selected))
  {
    hide KeepsCondition;
  }

  /** Only a packet that undercuts a key costs its route the feasibility condition. */
  ghost predicate Weakens(rules: Rules, ev: Event, neighbors: Neighbors, pending: Pending, cands: Candidates,
                          selected: Selected, weak: set<RouteKey>, weak': set<RouteKey>) {
    forall k :: k in weak' ==> k in weak || UndercutBy(rules, ev, neighbors, pending, cands, selected, k)
  }

  lemma ConditionedWeakens(rules: Rules, ev: Event, neighbors: Neighbors, pending: Pending, cands: Candidates,
                           selected: Selected, weak: set<RouteKey>, t': set<RouteKey>, cands': Candidates,
                           sources': Sources, selected': Selected)
    requires TaintedByEvent(rules, ev, neighbors, pending, cands, selected, weak, t')
      && Conditioned(cands', sources', selected', t')
    ensures Weakens(rules, ev, neighbors, pending, cands, selected, weak, Weak(cands', sources', selected'))
  {
    hide UndercutBy, KeepsCondition;
  }

  /** The event keeps to the hypotheses: received updates to windows and owners, own numbers to their windows. */
  ghost predicate Behaved(env: Env, self: RouterId, ev: Event, keys: set<RouteKey>, n: u16, bumps: nat) {
    && (ev.PacketReceived? ==> Behaves(env, NeighborKey(ev.interface, ev.source), ev.tlvs))
    && Windowed(env, self, keys, n, bumps)
  }

  // ----- what each event's looks look at

  /** The tables of an engine between two looks of one event. */
  datatype Stage = Stage(neighbors: Neighbors, candidates: Candidates, sources: Sources, selected: Selected,
                         memory: Memory)

  function StageOf(v: View, m: Memory): Stage { Stage(v.neighbors, v.candidates, v.sources, v.selected, m) }

  /** Another transport: the interface's neighbours and their candidates go, then there is a look. */
  ghost predicate Moved(cfg: Config, now: u64, name: string, a: Stage, x: Stage) {
    && x.neighbors == a.neighbors - OnInterface(a.neighbors, name)
    && x.candidates == WithoutNeighbors(a.candidates, OnInterface(a.neighbors, name))
    && Reselected(cfg.selection, x.candidates, a.sources, a.selected, a.memory, now, x.selected, x.memory)
    && Written(cfg.routerId, x.selected, now, a.sources, x.sources)
  }

  /** Metrics start over: all candidates are repriced, and there may be a look. */
  ghost predicate Restarted(cfg: Config, now: u64, name: string, etx: bool, senses: map<NeighborKey, TickSense>,
                            x: Stage, y: Stage) {
    && y.neighbors == Rebuilt(x.neighbors, name, etx, senses)
    && y.candidates == Reprice(x.candidates, cfg.algebra, y.neighbors, y.neighbors.Keys)
    && OneLook(cfg.selection, now, y.candidates, x.sources, x.selected, x.memory, y.selected, y.memory)
    && Written(cfg.routerId, y.selected, now, x.sources, y.sources)
  }

  /** The tick that ends a change of interface policy, after one announcement pass. */
  ghost predicate RanOn(cfg: Config, now: u64, ticks: map<NeighborKey, TickSense>, y: Stage, told: Sources, b: Stage) {
    && Written(cfg.routerId, y.selected, now, y.sources, told)
    && b.candidates == AfterClock(y.candidates, cfg.algebra, y.neighbors, b.neighbors, ticks, now)
    && ClockLook(cfg.selection, now, b.candidates, told, y.selected, y.memory, b.selected, b.memory)
  }

  /** The stages of a change of interface policy. */
  ghost predicate Restaged(cfg: Config, ev: Event, interfaces: Interfaces, a: Stage, x: Stage, y: Stage, told: Sources,
                           b: Stage)
    requires ev.InterfacePolicyChanged? && ev.name in interfaces
  {
    && (if interfaces[ev.name].policy.v4Transport != ev.ifacePolicy.v4Transport then Moved(cfg, ev.now, ev.name, a, x)
        else x == a)
    && (if ev.resetMetric then Restarted(cfg, ev.now, ev.name, ev.ifacePolicy.etx, ev.senses, x, y) else y == x)
    && RanOn(cfg, ev.now, ev.ticks, y, told, b)
  }

  /** How an event moves selection and memory: by looks at its own tables. All events but a change of
      interface policy look at most once, at the candidates they leave. */
  ghost predicate Evolved(cfg: Config, ev: Event, a: View, m: Memory, b: View, m': Memory) {
    match ev
    case InterfaceUp(_, _, _, now, _) =>
      ClockLook(cfg.selection, now, b.candidates, a.sources, a.selected, m, b.selected, m')
    case InterfacePolicyChanged(name, _, _, _, _, _) =>
      if name in a.interfaces then
        exists x, y, told :: Restaged(cfg, ev, a.interfaces, StageOf(a, m), x, y, told, StageOf(b, m'))
      else b.selected == a.selected && m' == m
    case InterfaceAddressesChanged(_, _, _) => b.selected == a.selected && m' == m
    case InterfaceDown(_, now) =>
      Reselected(cfg.selection, b.candidates, a.sources, a.selected, m, now, b.selected, m')
    case PacketReceived(interface, source, tlvs, now, sense) =>
      var nk := NeighborKey(interface, source);
      if Admits(cfg, a.interfaces, a.neighbors, nk, tlvs) then
        exists trail :: PacketLook(cfg, nk, tlvs, now, sense, a, m, trail, b, m')
      else b.selected == a.selected && m' == m
    case Originate(_, _, now) => OneLook(cfg.selection, now, b.candidates, a.sources, a.selected, m, b.selected, m')
    case Withdraw(_, now) => Reselected(cfg.selection, b.candidates, a.sources, a.selected, m, now, b.selected, m')
    case ReplaceOrigins(_, now) => OneLook(cfg.selection, now, b.candidates, a.sources, a.selected, m, b.selected, m')
    case ReplaceRoutePolicy(_, now) =>
      Reselected(cfg.selection, b.candidates, a.sources, a.selected, m, now, b.selected, m')
    case Tick(now, _) => ClockLook(cfg.selection, now, b.candidates, a.sources, a.selected, m, b.selected, m')
  }

  /** The look of a packet, at the tables its last TLV left. */
  ghost predicate PacketLook(cfg: Config, nk: NeighborKey, tlvs: seq<Tlv>, now: u64, sense: Sense, a: View, m: Memory,
                             trail: seq<Snap>, b: View, m': Memory) {
    && |trail| == |tlvs| + 1
    && Processed(Outlet(cfg, a.policy, a.interfaces), a.selected, nk, tlvs, now, sense,
                 Snap(a.neighbors, a.candidates, a.sources, a.pending), trail, b.neighbors, b.candidates)
    && OneLook(cfg.selection, now, b.candidates, trail[|tlvs|].sources, a.selected, m, b.selected, m')
  }

  /** Everything the promises between events speak of. */
  datatype Moment = Moment(view: View, memory: Memory, tame: bool, tainted: set<RouteKey>)

  /** The events that let the clock run. */
  predicate Clocks(ev: Event) { ev.Tick? || ev.InterfaceUp? }

  /** A change of policy lets the clock run too, on an interface the engine has. */
  predicate Ticks(interfaces: Interfaces, ev: Event) {
    Clocks(ev) || (ev.InterfacePolicyChanged? && ev.name in interfaces)
  }

  /** The events that say what this router originates. */
  predicate OfOrigins(ev: Event) { ev.Originate? || ev.Withdraw? || ev.ReplaceOrigins? }

  /** What every handled event keeps and does. */
  ghost predicate EventTook(cfg: Config, env: Env, ev: Event, a: Moment, b: Moment, out: set<Action>, bumps: nat) {
    && (b.tame ==> a.tame && Going(env, ev.now, a.view.sources, b.view.sources, out))
    && (var keys := a.view.originated.Keys + b.view.originated.Keys;
        a.tame && Behaved(env, cfg.routerId, ev, keys, a.view.sequenceNumber, bumps) ==> b.tame)
    && Accounted(Rules(cfg, a.view.policy), ev, a.view.candidates, b.view.candidates)
    && bumps <= MostBumps(ev) && b.view.sequenceNumber == WrapAdd16(a.view.sequenceNumber, bumps)
    && (bumps < 0x8000 ==> OriginsImprove(a.view.originated, b.view.originated))
    && (a.tame ==> TaintedByEvent(Rules(cfg, a.view.policy), ev, b.view.neighbors, a.view.pending, a.view.candidates,
                                  a.view.selected, a.tainted, b.tainted))
    && Performed(cfg, ev, a.view, b.view)
    && Evolved(cfg, ev, a.view, a.memory, b.view, b.memory)
    && (Ticks(a.view.interfaces, ev) ==> RequestsRan(a.view.pending, ev.now, b.view.pending, out))
    && (!OfOrigins(ev) ==> b.view.originated.Keys == a.view.originated.Keys)
  }

  /** An event other than a packet teaches nothing and undercuts nothing. */
  lemma LocalEvent(cfg: Config, env: Env, ev: Event, a: Moment, b: Moment, out: set<Action>, bumps: nat)
    requires !ev.PacketReceived? && (b.tame ==> a.tame && Going(env, ev.now, a.view.sources, b.view.sources, out))
    requires var keys := a.view.originated.Keys + b.view.originated.Keys;
      a.tame && Windowed(env, cfg.routerId, keys, a.view.sequenceNumber, bumps) ==> b.tame
    requires Subdued(a.view.candidates, b.view.candidates) && b.tainted <= a.tainted
    requires bumps <= 1 && b.view.sequenceNumber == WrapAdd16(a.view.sequenceNumber, bumps)
      && OriginsImprove(a.view.originated, b.view.originated)
    requires Performed(cfg, ev, a.view, b.view)
      && Evolved(cfg, ev, a.view, a.memory, b.view, b.memory)
    requires Ticks(a.view.interfaces, ev) ==> RequestsRan(a.view.pending, ev.now, b.view.pending, out)
    requires !OfOrigins(ev) ==> b.view.originated.Keys == a.view.originated.Keys
    ensures EventTook(cfg, env, ev, a, b, out, bumps)
  {
    hide Going, Subdued, OriginsImprove, Performed, Evolved, TaintedByEvent, Windowed, RequestsRan;
    NotTaintedByEvent(Rules(cfg, a.view.policy), ev, b.view.neighbors, a.view.pending, a.view.candidates,
                      a.view.selected, a.tainted, b.tainted);
  }

  lemma EventFacts(cfg: Config, env: Env, ev: Event, a: Moment, b: Moment, out: set<Action>, bumps: nat)
    requires EventTook(cfg, env, ev, a, b, out, bumps)
    requires a.tainted == Weak(a.view.candidates, a.view.sources, a.view.selected)
    requires b.tame ==> Conditioned(b.view.candidates, b.view.sources, b.view.selected, b.tainted)
    ensures b.tame ==> a.tame && Going(env, ev.now, a.view.sources, b.view.sources, out)
    ensures var keys := a.view.originated.Keys + b.view.originated.Keys;
      a.tame && Behaved(env, cfg.routerId, ev, keys, a.view.sequenceNumber, bumps) ==> b.tame
    ensures Accounted(Rules(cfg, a.view.policy), ev, a.view.candidates, b.view.candidates)
    ensures bumps <= MostBumps(ev) && b.view.sequenceNumber == WrapAdd16(a.view.sequenceNumber, bumps)
    ensures bumps < 0x8000 ==> OriginsImprove(a.view.originated, b.view.originated)
    ensures b.tame ==> Weakens(Rules(cfg, a.view.policy), ev, b.view.neighbors, a.view.pending, a.view.candidates,
                               a.view.selected, Weak(a.view.candidates, a.view.sources, a.view.selected),
                               Weak(b.view.candidates, b.view.sources, b.view.selected))
    ensures Performed(cfg, ev, a.view, b.view)
    ensures Evolved(cfg, ev, a.view, a.memory, b.view, b.memory)
    ensures Ticks(a.view.interfaces, ev) ==> RequestsRan(a.view.pending, ev.now, b.view.pending, out)
    ensures !OfOrigins(ev) ==> b.view.originated.Keys == a.view.originated.Keys
  {
    hide Going, Accounted, OriginsImprove, Performed, Evolved, Weak, Weakens, Conditioned, TaintedByEvent, Behaved,
         RequestsRan;
    if b.tame {
      ConditionedWeakens(Rules(cfg, a.view.policy), ev, b.view.neighbors, a.view.pending, a.view.candidates,
                         a.view.selected, a.tainted, b.tainted, b.view.candidates, b.view.sources, b.view.selected);
    }
  }

  lemma PacketEvolves(ev: Event, cfg: Config, env: Env, tame: bool, backed: bool, l: Ledger, trail: seq<Snap>, a: View,
                      m: Memory, b: View, m': Memory, tainted': set<RouteKey>)
    requires ev.PacketReceived? && l.neighbors == a.neighbors && l.candidates == a.candidates && l.sources == a.sources
    requires l.pending == a.pending
    requires var nk := NeighborKey(ev.interface, ev.source);
      if Admits(cfg, a.interfaces, a.neighbors, nk, ev.tlvs) then
        && |trail| == |ev.tlvs| + 1
        && PacketTook(Outlet(cfg, a.policy, a.interfaces), a.selected, nk, ev.tlvs, ev.now, ev.sense, backed, l, trail,
                      b.neighbors, b.candidates, tainted')
        && Concluded(cfg, env, tame, ev.now, trail[|ev.tlvs|], b.sources, a.selected, m, b.selected, m')
      else b.selected == a.selected && m' == m
    ensures Evolved(cfg, ev, a, m, b, m')
  {
    hide Admits, Traced, OnlyUndercut, CostOf, Reselected, ImprovedLive, Applied, Observed;
    var nk := NeighborKey(ev.interface, ev.source);
    if Admits(cfg, a.interfaces, a.neighbors, nk, ev.tlvs) {
      assert PacketLook(cfg, nk, ev.tlvs, ev.now, ev.sense, a, m, trail, b, m');
    }
  }

  /** A received packet's account, in the terms of its event. */
  lemma PacketFacts(ev: Event, cfg: Config, policy: RoutePolicy, interfaces: Interfaces, selected: Selected,
                    backed: bool, a: Ledger, trail: seq<Snap>, before: View, after: View, tainted': set<RouteKey>)
    requires ev.PacketReceived? && before.policy == policy && before.interfaces == interfaces
      && before.selected == selected
    requires before.neighbors == a.neighbors && before.candidates == a.candidates && before.sources == a.sources
      && before.pending == a.pending
    requires var nk := NeighborKey(ev.interface, ev.source);
      if Admits(cfg, interfaces, a.neighbors, nk, ev.tlvs) then
        PacketTook(Outlet(cfg, policy, interfaces), selected, nk, ev.tlvs, ev.now, ev.sense, backed, a, trail,
                   after.neighbors, after.candidates, tainted')
      else after == before && tainted' == a.tainted
    ensures Traced(Rules(cfg, policy), a.candidates, after.candidates, NeighborKey(ev.interface, ev.source), ev.tlvs)
    ensures Performed(cfg, ev, before, after)
    ensures backed ==> TaintedByEvent(Rules(cfg, policy), ev, after.neighbors, a.pending, a.candidates, selected,
                                      a.tainted, tainted')
  {
    hide Admits, Traced, Undercuts, CostOf, Processed;
    var nk := NeighborKey(ev.interface, ev.source);
    if !Admits(cfg, interfaces, a.neighbors, nk, ev.tlvs) {
      TracedLonger(Rules(cfg, policy), a.candidates, nk, ev.tlvs);
    }
  }

  /** Every announced lifetime is on record. */
  predicate AllNoted(out: set<Action>, au: Deadlines) {
    forall a :: a in out && a.Send? && a.update.metric != INFINITY && a.update.key.Some? ==>
      a.update.key.value in au && Lifetime(a.deadline, a.update.intervalCs) <= au[a.update.key.value]
  }

  lemma NotedAll(au: Deadlines, out: set<Action>, au': Deadlines)
    requires LifetimesNoted(au, out, au')
    ensures AllNoted(out, au')
  {
  }
}
