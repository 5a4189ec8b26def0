/** How candidates change, and what each kind of change preserves
    (crates/babel-protocol/src/engine/rib.rs:8-255; engine/timers.rs:26-69). */
module Updating {
  import opened Model
  import opened WireTypes
  import opened EngineTypes
  import opened Hysteresis
  import opened Feasibility
  import opened Reselection
  import opened Bookkeeping
  import opened Announcing

  function Retract(c: Candidate): Candidate { c.(advertised := INFINITY, metric := INFINITY) }

  /** The given candidates become unreachable; the rest stay as they are. */
  function RetractKeys(cands: Candidates, keys: set<CandidateKey>): Candidates {
    map ck | ck in cands :: if ck in keys then Retract(cands[ck]) else cands[ck]
  }

  /** `recompute_candidate_metrics` for the neighbours in `who`. */
  function Reprice(cands: Candidates, algebra: (u16, u16) -> u16, neighbors: Neighbors,
                   who: set<NeighborKey>): Candidates {
    map ck | ck in cands ::
      if ck.1 in who && ck.1 in neighbors then
        cands[ck].(metric := SafeExtend(algebra, cands[ck].advertised, LinkCost(neighbors[ck.1])))
      else cands[ck]
  }

  /** No candidate offers anything it did not offer before. */
  predicate Subdued(cands: Candidates, cands': Candidates) {
    forall ck :: ck in cands' ==>
      && ck in cands && cands'[ck].routerId == cands[ck].routerId && cands'[ck].seqno == cands[ck].seqno
      && cands'[ck].nextHop == cands[ck].nextHop
      && (cands'[ck].advertised == cands[ck].advertised || cands'[ck].advertised == INFINITY)
  }

  predicate AllForeign(self: RouterId, cands: Candidates) { forall ck :: ck in cands ==> cands[ck].routerId != self }

  lemma SubduedStaysIn(env: Env, self: RouterId, cands: Candidates, cands': Candidates)
    requires Subdued(cands, cands')
    ensures CandidatesIn(env, cands) ==> CandidatesIn(env, cands')
    ensures AllForeign(self, cands) ==> AllForeign(self, cands')
  {
    hide InWindow;
  }

  lemma SubduedKeepsCondition(cands: Candidates, cands': Candidates, sources: Sources, selected: Selected, k: RouteKey)
    requires Subdued(cands, cands') && KeepsCondition(cands, sources, selected, k)
    ensures KeepsCondition(cands', sources, selected, k)
  {
    if k in selected {
      forall ck | ck in cands' && ck.0 == k && Same(selected[k], ck, cands'[ck]) && cands'[ck].advertised != INFINITY
        ensures MeetsFeasibility(sources, ck, cands'[ck])
      {
        assert Same(selected[k], ck, cands[ck]);
      }
    }
  }

  lemma RetractIsSubdued(cands: Candidates, keys: set<CandidateKey>)
    ensures Subdued(cands, RetractKeys(cands, keys)) && RetractKeys(cands, keys).Keys == cands.Keys
    ensures Extended(cands) ==> Extended(RetractKeys(cands, keys))
  {
  }

  lemma RetractStaysPriced(cands: Candidates, keys: set<CandidateKey>, algebra: (u16, u16) -> u16, neighbors: Neighbors)
    requires Priced(algebra, neighbors, cands)
    ensures Priced(algebra, neighbors, RetractKeys(cands, keys))
  {
  }

  lemma RepriceIsSubdued(cands: Candidates, algebra: (u16, u16) -> u16, neighbors: Neighbors, who: set<NeighborKey>)
    ensures var cands' := Reprice(cands, algebra, neighbors, who);
      && Subdued(cands, cands') && cands'.Keys == cands.Keys && (Extended(cands) ==> Extended(cands'))
  {
    hide LinkCost;
  }

  /** After a change of some links' quality, repricing those neighbours restores every metric. */
  lemma RepriceRestores(cands: Candidates, algebra: (u16, u16) -> u16, neighbors: Neighbors, neighbors': Neighbors,
                        who: set<NeighborKey>)
    requires Priced(algebra, neighbors, cands) && forall ck :: ck in cands ==> ck.1 in neighbors
    requires forall nk :: nk in neighbors' && nk !in who ==>
      nk in neighbors && LinkCost(neighbors'[nk]) == LinkCost(neighbors[nk])
    ensures Priced(algebra, neighbors', Reprice(cands, algebra, neighbors', who))
  {
    hide LinkCost, SafeExtend;
  }

  lemma RemoveIsSubdued(cands: Candidates, gone: set<CandidateKey>)
    ensures Subdued(cands, cands - gone) && (Extended(cands) ==> Extended(cands - gone))
  {
  }

  // ----- a stored update

  function Learned(u: ResolvedUpdate, metric: u16, now: u64): Candidate
    requires u.routerId.Some? && u.nextHop.Some?
  {
    Candidate(u.routerId.value, u.seqno, u.metric, metric, u.nextHop.value, u.intervalCs, Lifetime(now, u.intervalCs))
  }

  /** Selection sees no difference. */
  predicate Alike(a: Candidate, b: Candidate) {
    a.routerId == b.routerId && a.seqno == b.seqno && a.metric == b.metric && a.advertised == b.advertised
      && a.nextHop == b.nextHop
  }

  predicate AllAlike(cands: Candidates, cands': Candidates) {
    cands'.Keys == cands.Keys && forall ck :: ck in cands ==> Alike(cands[ck], cands'[ck])
  }

  lemma AlikeStaysStable(cfg: Selection, cands: Candidates, cands': Candidates, sources: Sources, selected: Selected,
                         pending: set<RouteKey>)
    requires AllAlike(cands, cands') && Stable(cfg, cands, sources, selected, pending)
    ensures Stable(cfg, cands', sources, selected, pending)
  {
    hide Significant;
    forall k ensures StableKey(cfg, cands', sources, selected, pending, k) {
      assert StableKey(cfg, cands, sources, selected, pending, k);
      forall ck | ck in cands' ensures Eligible(cands', sources, selected, ck) <==>
        Eligible(cands, sources, selected, ck) {
        assert Alike(cands[ck], cands'[ck]);
      }
      if k in selected {
        var here :| here in cands && here.0 == k && cands[here].metric < INFINITY
          && selected[k] == FromCandidate(here, cands[here]);
        assert here in cands' && cands'[here].metric < INFINITY && selected[k] == FromCandidate(here, cands'[here]);
      }
    }
  }

  /** A key's own condition after an update was stored: the candidate is feasible
      if it is the selected one, and answering requests with it costs nothing
      where the selected route backs the answer. */
  lemma StoredKeepsCondition(cands: Candidates, s: Sources, s': Sources, selected: Selected, ck: CandidateKey,
                             c: Candidate, now: u64, answered: bool)
    requires KeepsCondition(cands, s, selected, ck.0)
    requires ck.0 in selected && Same(selected[ck.0], ck, c) ==> MeetsFeasibility(s, ck, c)
    requires s' == if answered then Maintain(s, (ck.0, c.routerId), Distance(c.seqno, c.metric), now) else s
    requires answered ==> Backs(cands[ck := c], selected, ck.0, c.routerId, Distance(c.seqno, c.metric))
    ensures KeepsCondition(cands[ck := c], s', selected, ck.0)
  {
    hide Backs, Maintain;
    assert KeepsCondition(cands[ck := c], s, selected, ck.0);
    if answered { AnnouncingKeepsCondition(cands[ck := c], s, selected, ck.0, c.routerId, Distance(c.seqno, c.metric),
                                           now); }
  }

  /** Other keys are not concerned. */
  lemma StoredElsewhere(cands: Candidates, s: Sources, s': Sources, selected: Selected, ck: CandidateKey, c: Candidate,
                        k: RouteKey)
    requires k != ck.0 && KeepsCondition(cands, s, selected, k)
    requires forall sk: SourceKey :: sk.0 == k ==> (sk in s' <==> sk in s) && (sk in s ==> s'[sk] == s[sk])
    ensures KeepsCondition(cands[ck := c], s', selected, k)
  {
    if k in selected {
      var stored := cands[ck := c];
      forall other | other in stored && other.0 == k && Same(selected[k], other, stored[other])
        && stored[other].advertised != INFINITY
        ensures MeetsFeasibility(s', other, stored[other])
      {
        assert other in cands && stored[other] == cands[other];
      }
    }
  }

  // ----- what one update does to the candidates

  /** What an update is judged against. */
  datatype Ground = Ground(cfg: Config, policy: RoutePolicy, neighbors: Neighbors, sources: Sources, selected: Selected)

  /** The update is finite, complete, foreign, from a known neighbour and forwardable. */
  predicate Usable(g: Ground, nk: NeighborKey, u: ResolvedUpdate) {
    && Teaches(u) && !ForbiddenDestination(u.key.value.destination) && u.routerId.value != g.cfg.routerId
      && nk in g.neighbors
    && !(u.key.value.destination.family == V4 && u.nextHop.value.family == V6 && !g.cfg.ipv4ViaIpv6)
  }

  predicate Permits(g: Ground, nk: NeighborKey, u: ResolvedUpdate)
    requires Teaches(u)
  {
    g.policy.accept(Import(u.key.value, nk, u.nextHop.value, u.routerId.value, u.seqno, u.metric))
  }

  function CandidateFrom(g: Ground, nk: NeighborKey, u: ResolvedUpdate, now: u64): Candidate
    requires Usable(g, nk, u)
  {
    Learned(u, SafeExtend(g.cfg.algebra, u.metric, LinkCost(g.neighbors[nk])), now)
  }

  predicate NoRoom(g: Ground, cands: Candidates, nk: NeighborKey, u: ResolvedUpdate)
    requires Usable(g, nk, u)
  {
    (u.key.value, nk) !in cands
    && (g.neighbors[nk].candidates >= g.cfg.limits.maxPerNeighbor || |cands| >= g.cfg.limits.maxCandidates)
  }

  /** The route in use turned infeasible: its last feasible offer is kept. */
  predicate Regresses(g: Ground, nk: NeighborKey, u: ResolvedUpdate, now: u64)
    requires Usable(g, nk, u)
  {
    var ck, c := (u.key.value, nk), CandidateFrom(g, nk, u, now);
    ck.0 in g.selected && Same(g.selected[ck.0], ck, c) && !MeetsFeasibility(g.sources, ck, c)
  }

  predicate Stores(g: Ground, cands: Candidates, nk: NeighborKey, u: ResolvedUpdate, now: u64) {
    Usable(g, nk, u) && Permits(g, nk, u) && !NoRoom(g, cands, nk, u) && !Regresses(g, nk, u, now)
  }

  function AfterStore(g: Ground, cands: Candidates, nk: NeighborKey, u: ResolvedUpdate, now: u64): Candidates
    requires Usable(g, nk, u)
  {
    if !Permits(g, nk, u) then cands - {(u.key.value, nk)}
    else if NoRoom(g, cands, nk, u) || Regresses(g, nk, u, now) then cands
    else cands[(u.key.value, nk) := CandidateFrom(g, nk, u, now)]
  }

  /** `receive_update` on the candidate table. */
  function AfterUpdate(g: Ground, cands: Candidates, nk: NeighborKey, u: ResolvedUpdate, now: u64): Candidates {
    if u.metric == INFINITY then
      if u.key.None? then RetractKeys(cands, set ck | ck in cands && ck.1 == nk)
      else if ForbiddenDestination(u.key.value.destination) then cands
      else RetractKeys(cands, {(u.key.value, nk)})
    else if !Usable(g, nk, u) then cands
    else AfterStore(g, cands, nk, u, now)
  }

  /** No update costs the selected route its feasibility condition. */
  lemma UpdateKeepsCondition(g: Ground, cands: Candidates, nk: NeighborKey, u: ResolvedUpdate, now: u64, k: RouteKey)
    requires KeepsCondition(cands, g.sources, g.selected, k)
    ensures KeepsCondition(AfterUpdate(g, cands, nk, u, now), g.sources, g.selected, k)
  {
    hide ForbiddenDestination, SafeExtend, LinkCost, MeetsFeasibility;
    var after := AfterUpdate(g, cands, nk, u, now);
    if k in g.selected {
      forall ck | ck in after && ck.0 == k && Same(g.selected[k], ck, after[ck]) && after[ck].advertised != INFINITY
        ensures MeetsFeasibility(g.sources, ck, after[ck])
      {
        if ck in cands && after[ck] == cands[ck] { assert Same(g.selected[k], ck, cands[ck]); }
      }
    }
  }

  lemma RegressKnows(g: Ground, nk: NeighborKey, u: ResolvedUpdate, now: u64)
    requires Usable(g, nk, u) && Regresses(g, nk, u, now)
    ensures (u.key.value, u.routerId.value) in g.sources
  {
  }

  lemma StorableIs(g: Ground, cands: Candidates, nk: NeighborKey, u: ResolvedUpdate, now: u64)
    requires Stores(g, cands, nk, u, now)
    ensures Usable(g, nk, u) && Teaches(u) && nk in g.neighbors && u.routerId.value != g.cfg.routerId
    ensures CandidateFrom(g, nk, u, now) == Learned(u, SafeExtend(g.cfg.algebra, u.metric, LinkCost(g.neighbors[nk])),
                                                    now)
    ensures (u.key.value, nk) in cands
      || (g.neighbors[nk].candidates < g.cfg.limits.maxPerNeighbor && |cands| < g.cfg.limits.maxCandidates)
    ensures u.key.value in g.selected && Same(g.selected[u.key.value], (u.key.value, nk),
                                              CandidateFrom(g, nk, u, now)) ==>
      MeetsFeasibility(g.sources, (u.key.value, nk), CandidateFrom(g, nk, u, now))
  {
  }

  lemma RetractedAlike(cands: Candidates, keys: set<CandidateKey>)
    ensures AllAlike(cands, RetractKeys(cands, keys)) <==> RetractKeys(cands, keys) == cands
  {
    var after := RetractKeys(cands, keys);
    if AllAlike(cands, after) {
      forall ck | ck in cands ensures after[ck] == cands[ck] {
        assert Alike(cands[ck], after[ck]);
      }
    }
  }

  lemma StoredAlike(cands: Candidates, ck: CandidateKey, c: Candidate)
    ensures AllAlike(cands, cands[ck := c]) <==> ck in cands && Alike(cands[ck], c)
  {
    if AllAlike(cands, cands[ck := c]) {
      assert ck in cands[ck := c].Keys;
      assert Alike(cands[ck], cands[ck := c][ck]);
    }
  }

  lemma RemovedAlike(cands: Candidates, ck: CandidateKey)
    ensures AllAlike(cands, cands - {ck}) <==> ck !in cands
  {
    if ck in cands {
      assert ck in cands.Keys && ck !in (cands - {ck}).Keys;
    } else {
      assert cands - {ck} == cands;
    }
  }

  lemma AlikeItself(cands: Candidates)
    ensures AllAlike(cands, cands)
  {
  }

  function CostOf(neighbors: Neighbors, nk: NeighborKey): Option<u16> {
    if nk in neighbors then Some(LinkCost(neighbors[nk])) else None
  }

  lemma CostIs(neighbors: Neighbors, nk: NeighborKey)
    requires nk in neighbors
    ensures CostOf(neighbors, nk) == Some(LinkCost(neighbors[nk]))
  {
  }

  // ----- where candidates come from

  /** Same offer: router, distance and next hop. */
  predicate Kin(a: Candidate, b: Candidate) {
    a.routerId == b.routerId && a.Offered() == b.Offered() && a.nextHop == b.nextHop
  }

  /** A finite update that names everything a candidate needs. */
  predicate Teaches(u: ResolvedUpdate) { u.metric != INFINITY && u.key.Some? && u.routerId.Some? && u.nextHop.Some? }

  /** What decides on an update whatever the tables hold. */
  datatype Rules = Rules(cfg: Config, policy: RoutePolicy)

  function RulesOf(o: Outlet): Rules { Rules(o.cfg, o.policy) }

  /** The update is finite and complete, and neither the configuration nor the import policy turns it away. */
  predicate Welcome(rules: Rules, nk: NeighborKey, u: ResolvedUpdate) {
    && Teaches(u) && !ForbiddenDestination(u.key.value.destination) && u.routerId.value != rules.cfg.routerId
    && !(u.key.value.destination.family == V4 && u.nextHop.value.family == V6 && !rules.cfg.ipv4ViaIpv6)
    && rules.policy.accept(Import(u.key.value, nk, u.nextHop.value, u.routerId.value, u.seqno, u.metric))
  }

  lemma StoresWelcome(g: Ground, cands: Candidates, nk: NeighborKey, u: ResolvedUpdate, now: u64)
    requires Stores(g, cands, nk, u, now)
    ensures Welcome(Rules(g.cfg, g.policy), nk, u)
  {
    hide ForbiddenDestination, NoRoom, Regresses;
  }

  /** The candidate is there, or both limits leave room for it. */
  predicate HasRoom(limits: Limits, cands: Candidates, ck: CandidateKey) {
    ck in cands || (|cands| < limits.maxCandidates && |CandidatesOf(cands, ck.1)| < limits.maxPerNeighbor)
  }

  /** The import policy turns the update away, which takes out the candidate it stands for. */
  predicate Expels(rules: Rules, nk: NeighborKey, tlv: Tlv) {
    && tlv.Update? && Teaches(tlv.update)
    && var u := tlv.update;
    !rules.policy.accept(Import(u.key.value, nk, u.nextHop.value, u.routerId.value, u.seqno, u.metric))
  }

  predicate SomeExpels(rules: Rules, nk: NeighborKey, tlvs: seq<Tlv>) {
    exists i :: 0 <= i < |tlvs| && Expels(rules, nk, tlvs[i])
  }

  /** No candidate is gone, and each was there or found room. */
  predicate Grown(limits: Limits, cands: Candidates, cands': Candidates) {
    cands.Keys <= cands'.Keys && forall ck :: ck in cands' ==> HasRoom(limits, cands, ck)
  }

  /** Room in a table that has only grown is room before. */
  lemma RoomBefore(limits: Limits, cands: Candidates, cands': Candidates, ck: CandidateKey)
    requires Grown(limits, cands, cands') && HasRoom(limits, cands', ck)
    ensures HasRoom(limits, cands, ck)
  {
    if ck !in cands' {
      SetSmaller(cands.Keys, cands'.Keys);
      SetSmaller(CandidatesOf(cands, ck.1), CandidatesOf(cands', ck.1));
      assert |cands| == |cands.Keys| && |cands'| == |cands'.Keys|;
    }
  }

  lemma GrownTwice(limits: Limits, a: Candidates, b: Candidates, c: Candidates)
    requires Grown(limits, a, b) && Grown(limits, b, c)
    ensures Grown(limits, a, c)
  {
    hide HasRoom;
    forall ck | ck in c ensures HasRoom(limits, a, ck) { RoomBefore(limits, a, b, ck); }
  }

  lemma StoresHasRoom(g: Ground, cands: Candidates, nk: NeighborKey, u: ResolvedUpdate, now: u64)
    requires Stores(g, cands, nk, u, now) && Balanced(g.cfg.limits, g.neighbors, cands)
    ensures HasRoom(g.cfg.limits, cands, (u.key.value, nk))
  {
    hide ForbiddenDestination, Regresses, Permits, CandidatesOf;
  }

  /** The candidate is what this TLV from this neighbour offered. */
  predicate OfferedBy(rules: Rules, tlv: Tlv, nk: NeighborKey, ck: CandidateKey, c: Candidate) {
    && tlv.Update? && Welcome(rules, nk, tlv.update) && ck == (tlv.update.key.value, nk)
    && c.routerId == tlv.update.routerId.value && c.nextHop == tlv.update.nextHop.value
    && c.Offered() == Distance(tlv.update.seqno, tlv.update.metric)
  }

  /** Every reachable offer was there before or is in the packet; and the table has only grown, within the
      limits, unless the policy expelled something. */
  predicate Traced(rules: Rules, cands: Candidates, cands': Candidates, nk: NeighborKey, tlvs: seq<Tlv>) {
    && (forall ck :: ck in cands' && cands'[ck].advertised != INFINITY ==>
          || (ck in cands && Kin(cands[ck], cands'[ck]))
          || (exists i :: 0 <= i < |tlvs| && OfferedBy(rules, tlvs[i], nk, ck, cands'[ck])))
    && (SomeExpels(rules, nk, tlvs) || Grown(rules.cfg.limits, cands, cands'))
  }

  /** Where a candidate may come from: it was there, was retracted, or is the update itself. */
  predicate Absorbed(rules: Rules, cands: Candidates, cands': Candidates, nk: NeighborKey, u: ResolvedUpdate) {
    && (forall ck :: ck in cands' ==>
          || (ck in cands && cands'[ck] == cands[ck])
          || cands'[ck].advertised == INFINITY
          || OfferedBy(rules, Update(u), nk, ck, cands'[ck]))
    && (Expels(rules, nk, Update(u)) || Grown(rules.cfg.limits, cands, cands'))
  }

  lemma TracedStart(rules: Rules, cands: Candidates, nk: NeighborKey)
    ensures Traced(rules, cands, cands, nk, [])
  {
  }

  lemma ExpelsMore(rules: Rules, nk: NeighborKey, tlvs: seq<Tlv>, tlv: Tlv)
    ensures SomeExpels(rules, nk, tlvs) || Expels(rules, nk, tlv) ==> SomeExpels(rules, nk, tlvs + [tlv])
  {
    hide Expels;
    var more := tlvs + [tlv];
    assert more[|tlvs|] == tlv && forall i :: 0 <= i < |tlvs| ==> more[i] == tlvs[i];
  }

  lemma TracedAbsorb(rules: Rules, cands: Candidates, c1: Candidates, c2: Candidates, nk: NeighborKey, tlvs: seq<Tlv>,
                     u: ResolvedUpdate)
    requires Traced(rules, cands, c1, nk, tlvs) && Absorbed(rules, c1, c2, nk, u)
    ensures Traced(rules, cands, c2, nk, tlvs + [Update(u)])
  {
    hide Kin, OfferedBy, Expels, SomeExpels, Grown;
    var more := tlvs + [Update(u)];
    ExpelsMore(rules, nk, tlvs, Update(u));
    if !SomeExpels(rules, nk, more) { GrownTwice(rules.cfg.limits, cands, c1, c2); }
    forall ck | ck in c2 && c2[ck].advertised != INFINITY
      ensures (ck in cands && Kin(cands[ck], c2[ck]))
        || (exists i :: 0 <= i < |more| && OfferedBy(rules, more[i], nk, ck, c2[ck]))
    {
      if OfferedBy(rules, Update(u), nk, ck, c2[ck]) {
        assert more[|tlvs|] == Update(u);
      } else if exists i :: 0 <= i < |tlvs| && OfferedBy(rules, tlvs[i], nk, ck, c1[ck]) {
        var i :| 0 <= i < |tlvs| && OfferedBy(rules, tlvs[i], nk, ck, c1[ck]);
        assert more[i] == tlvs[i];
      }
    }
  }

  lemma TracedSkip(rules: Rules, cands: Candidates, c1: Candidates, nk: NeighborKey, tlvs: seq<Tlv>, tlv: Tlv)
    requires Traced(rules, cands, c1, nk, tlvs)
    ensures Traced(rules, cands, c1, nk, tlvs + [tlv])
  {
    hide Kin, OfferedBy, Expels, SomeExpels, Grown;
    var more := tlvs + [tlv];
    ExpelsMore(rules, nk, tlvs, tlv);
    assert forall i :: 0 <= i < |tlvs| ==> more[i] == tlvs[i];
  }

  /** Candidates changed in place, none of them offering more than before. */
  lemma TracedSubdue(rules: Rules, cands: Candidates, c1: Candidates, c2: Candidates, nk: NeighborKey, tlvs: seq<Tlv>)
    requires Traced(rules, cands, c1, nk, tlvs) && Subdued(c1, c2) && c2.Keys == c1.Keys
    ensures Traced(rules, cands, c2, nk, tlvs)
  {
    hide SomeExpels, HasRoom;
    forall ck | ck in c2 && c2[ck].advertised != INFINITY
      ensures (ck in cands && Kin(cands[ck], c2[ck]))
        || (exists i :: 0 <= i < |tlvs| && OfferedBy(rules, tlvs[i], nk, ck, c2[ck]))
    {
      if !(ck in cands && Kin(cands[ck], c1[ck])) {
        var i :| 0 <= i < |tlvs| && OfferedBy(rules, tlvs[i], nk, ck, c1[ck]);
        assert OfferedBy(rules, tlvs[i], nk, ck, c2[ck]);
      }
    }
  }

  lemma SubduedTwice(a: Candidates, b: Candidates, c: Candidates)
    requires Subdued(a, b) && Subdued(b, c)
    ensures Subdued(a, c)
  {
  }
}
