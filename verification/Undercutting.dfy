/** When an engine announces a distance that the route it has selected does not
    beat: a pending request is answered with another candidate
    (crates/babel-protocol/src/engine/rib.rs:135-164), or a request is answered
    from a selected entry that the same packet has already made worse
    (crates/babel-protocol/src/engine/neighbors.rs:237-302). */
module Undercutting {
  import opened Model
  import opened WireTypes
  import opened EngineTypes
  import opened Hysteresis
  import opened Feasibility
  import opened Reselection
  import opened Updating

  type Pending = map<SourceKey, PendingRequest>

  predicate Reaches(have: u16, want: u16) { have == want || SeqnoGt(have, want) }

  /** An update with this router and number settles a request for that router and number. */
  predicate Reached(routerId: RouterId, seqno: u16, wantedId: RouterId, wanted: u16) {
    wantedId != routerId || Reaches(seqno, wanted)
  }

  predicate Satisfies(key: RouteKey, routerId: RouterId, seqno: u16, sk: SourceKey, p: PendingRequest) {
    sk.0 == key && Reached(routerId, seqno, sk.1, p.seqno)
  }

  /** Some neighbour waits for what this update brings. */
  predicate WaitedFor(pending: Pending, u: ResolvedUpdate)
    requires Teaches(u)
  {
    exists sk :: sk in pending && pending[sk].requester.Some?
      && Satisfies(u.key.value, u.routerId.value, u.seqno, sk, pending[sk])
  }

  /** The selected route is another neighbour's, of the same router, and does not beat what an answer with this update
      would announce. */
  predicate Overtakes(rules: Rules, cost: Option<u16>, cands: Candidates, selected: Selected,
                      nk: NeighborKey, u: ResolvedUpdate) {
    && Welcome(rules, nk, u) && cost.Some?
    && var metric := SafeExtend(rules.cfg.algebra, u.metric, cost.value);
    && metric != INFINITY
    && !Backs(cands - {(u.key.value, nk)}, selected, u.key.value, u.routerId.value, Distance(u.seqno, metric))
  }

  /** The update makes the selected route no better than its selected entry. */
  predicate Spoils(rules: Rules, selected: Selected, nk: NeighborKey, u: ResolvedUpdate, k: RouteKey) {
    && Welcome(rules, nk, u) && u.key.value == k && k in selected
    && IdentOf(selected[k]) == Ident(u.routerId.value, u.nextHop.value, nk.interface)
    && !Distance(u.seqno, u.metric).FeasibleAgainst(Distance(selected[k].seqno, selected[k].metric))
  }

  /** The TLV asks for the selected entry of this key. */
  predicate Asks(tlv: Tlv, k: RouteKey) {
    || (tlv.RouteRequest? && (tlv.requestKey.None? || tlv.requestKey.value == k))
    || (tlv.SeqnoRequest? && tlv.key == k)
  }

  // ----- a whole packet, judged on the tables before it

  /** Somebody waited before the packet, or an earlier TLV of it asked. */
  predicate Awaited(pending: Pending, tlvs: seq<Tlv>, u: ResolvedUpdate)
    requires Teaches(u)
  {
    || WaitedFor(pending, u)
    || (exists j :: 0 <= j < |tlvs| && tlvs[j].SeqnoRequest? && tlvs[j].key == u.key.value
                    && Reached(u.routerId.value, u.seqno, tlvs[j].routerId, tlvs[j].seqno))
  }

  /** The update finds room before the packet, or after something the packet expels. */
  predicate FindsRoom(rules: Rules, cands: Candidates, nk: NeighborKey, tlvs: seq<Tlv>, u: ResolvedUpdate)
    requires Teaches(u)
  {
    HasRoom(rules.cfg.limits, cands, (u.key.value, nk)) || SomeExpels(rules, nk, tlvs)
  }

  predicate AnswersPast(rules: Rules, cost: Option<u16>, pending: Pending, cands: Candidates,
                        selected: Selected, nk: NeighborKey, tlvs: seq<Tlv>, k: RouteKey) {
    exists i :: 0 <= i < |tlvs| && tlvs[i].Update? && Overtakes(rules, cost, cands, selected, nk, tlvs[i].update)
                && tlvs[i].update.key.value == k && Awaited(pending, tlvs[..i], tlvs[i].update)
                && FindsRoom(rules, cands, nk, tlvs[..i], tlvs[i].update)
  }

  predicate AsksAfterSpoiling(rules: Rules, selected: Selected, nk: NeighborKey, tlvs: seq<Tlv>, k: RouteKey) {
    exists i, j :: 0 <= i < j < |tlvs| && tlvs[i].Update? && Spoils(rules, selected, nk, tlvs[i].update, k)
                   && Asks(tlvs[j], k)
  }

  /** The packet may make the engine announce, for this key, a distance its selected route does not beat. */
  predicate Undercuts(rules: Rules, cost: Option<u16>, pending: Pending, cands: Candidates,
                      selected: Selected, nk: NeighborKey, tlvs: seq<Tlv>, k: RouteKey) {
    AnswersPast(rules, cost, pending, cands, selected, nk, tlvs, k) || AsksAfterSpoiling(rules, selected, nk, tlvs, k)
  }

  /** Nobody waits for an answer and the packet asks for nothing: no key is undercut. */
  lemma QuietPacket(rules: Rules, cost: Option<u16>, pending: Pending, cands: Candidates,
                    selected: Selected, nk: NeighborKey, tlvs: seq<Tlv>, k: RouteKey)
    requires forall sk :: sk in pending ==> pending[sk].requester.None?
    requires forall i :: 0 <= i < |tlvs| ==> !tlvs[i].RouteRequest? && !tlvs[i].SeqnoRequest?
    ensures !Undercuts(rules, cost, pending, cands, selected, nk, tlvs, k)
  {
    hide Overtakes, Spoils;
  }

  /** Answering with the selected route's own update overtakes nothing. */
  lemma SelectedSenderIsSafe(env: Env, rules: Rules, cost: Option<u16>, cands: Candidates,
                             selected: Selected, nk: NeighborKey, u: ResolvedUpdate)
    requires CandidatesIn(env, cands) && Teaches(u) && u.key.value in selected
    requires var r := selected[u.key.value];
    r.interface == nk.interface && env.owner(r.interface, r.nextHop) == nk.address
    ensures !Overtakes(rules, cost, cands, selected, nk, u)
  {
    hide SafeExtend, InWindow;
  }

  // ----- from the tables at each TLV back to those before the packet

  /** Whoever waits waited before, or asked in this packet. */
  predicate WaitsTraced(before: Pending, after: Pending, tlvs: seq<Tlv>) {
    forall sk :: sk in after && after[sk].requester.Some? ==>
      || (sk in before && before[sk] == after[sk])
      || (exists j :: 0 <= j < |tlvs| && tlvs[j].SeqnoRequest? && (tlvs[j].key, tlvs[j].routerId) == sk
                      && tlvs[j].seqno == after[sk].seqno)
  }

  lemma WaitsStart(pending: Pending)
    ensures WaitsTraced(pending, pending, [])
  {
  }

  lemma WaitsMore(before: Pending, mid: Pending, after: Pending, tlvs: seq<Tlv>, tlv: Tlv)
    requires WaitsTraced(before, mid, tlvs) && WaitsTraced(mid, after, [tlv])
    ensures WaitsTraced(before, after, tlvs + [tlv])
  {
    var more := tlvs + [tlv];
    forall sk | sk in after && after[sk].requester.Some? && !(sk in before && before[sk] == after[sk])
      ensures exists j :: 0 <= j < |more| && more[j].SeqnoRequest? && (more[j].key, more[j].routerId) == sk
                          && more[j].seqno == after[sk].seqno
    {
      if sk in mid && mid[sk] == after[sk] {
        var j :| 0 <= j < |tlvs| && tlvs[j].SeqnoRequest? && (tlvs[j].key, tlvs[j].routerId) == sk
          && tlvs[j].seqno == after[sk].seqno;
        assert more[j] == tlvs[j];
      } else {
        assert more[|tlvs|] == [tlv][0];
      }
    }
  }

  lemma WaitedWasAwaited(before: Pending, now_: Pending, tlvs: seq<Tlv>, u: ResolvedUpdate)
    requires WaitsTraced(before, now_, tlvs) && Teaches(u) && WaitedFor(now_, u)
    ensures Awaited(before, tlvs, u)
  {
    var sk :| sk in now_ && now_[sk].requester.Some? && Satisfies(u.key.value, u.routerId.value, u.seqno, sk, now_[sk]);
    if !(sk in before && before[sk] == now_[sk]) {
      var j :| 0 <= j < |tlvs| && tlvs[j].SeqnoRequest? && (tlvs[j].key, tlvs[j].routerId) == sk
        && tlvs[j].seqno == now_[sk].seqno;
    }
  }

  /** Other neighbours' candidates offer what they did before the packet. */
  lemma OvertakesTraced(rules: Rules, cost: Option<u16>, first: Candidates, cands: Candidates,
                        selected: Selected, nk: NeighborKey, tlvs: seq<Tlv>, u: ResolvedUpdate)
    requires Traced(rules, first, cands, nk, tlvs) && Overtakes(rules, cost, cands, selected, nk, u)
    ensures Overtakes(rules, cost, first, selected, nk, u)
  {
    hide SafeExtend;
    var k, d := u.key.value, Distance(u.seqno, SafeExtend(rules.cfg.algebra, u.metric, cost.value));
    var beside := cands - {(k, nk)};
    var ck :| ck in beside && ck.0 == k && Same(selected[k], ck, beside[ck]) && beside[ck].advertised != INFINITY
      && !beside[ck].Offered().FeasibleAgainst(d);
    assert ck in cands && cands[ck] == beside[ck] && ck.1 != nk;
    assert ck in first && Kin(first[ck], cands[ck]);
    assert (first - {(k, nk)})[ck] == first[ck];
  }

  /** An entry that was backed before the packet was spoiled by one of its updates. */
  lemma UnbackedWasSpoiled(rules: Rules, first: Candidates, cands: Candidates, selected: Selected,
                           nk: NeighborKey, tlvs: seq<Tlv>, k: RouteKey)
    returns (i: nat)
    requires Traced(rules, first, cands, nk, tlvs) && Backed(first, selected, k) && !Backed(cands, selected, k)
    ensures i < |tlvs| && tlvs[i].Update? && Spoils(rules, selected, nk, tlvs[i].update, k)
  {
    var d := Distance(selected[k].seqno, selected[k].metric);
    var ck :| ck in cands && ck.0 == k && Same(selected[k], ck, cands[ck]) && cands[ck].advertised != INFINITY
      && !cands[ck].Offered().FeasibleAgainst(d);
    i :| 0 <= i < |tlvs| && OfferedBy(rules, tlvs[i], nk, ck, cands[ck]);
  }

  /** What one TLV adds to the keys announced past their selected route. */
  predicate TaintsBy(rules: Rules, cost: Option<u16>, pending: Pending, cands: Candidates,
                     selected: Selected, nk: NeighborKey, tlv: Tlv, k: RouteKey) {
    if tlv.Update? then
      Overtakes(rules, cost, cands, selected, nk, tlv.update) && tlv.update.key.value == k
        && WaitedFor(pending, tlv.update) && HasRoom(rules.cfg.limits, cands, (k, nk))
    else Asks(tlv, k) && !Backed(cands, selected, k)
  }

  predicate TaintedBy(rules: Rules, cost: Option<u16>, pending: Pending, cands: Candidates,
                      selected: Selected, nk: NeighborKey, tlv: Tlv, t: set<RouteKey>, t': set<RouteKey>) {
    forall k :: k in t' && k !in t ==> TaintsBy(rules, cost, pending, cands, selected, nk, tlv, k)
  }

  predicate OnlyUndercut(rules: Rules, cost: Option<u16>, pending: Pending, cands: Candidates,
                         selected: Selected, nk: NeighborKey, tlvs: seq<Tlv>, t: set<RouteKey>, t': set<RouteKey>) {
    forall k :: k in t' && k !in t ==> Undercuts(rules, cost, pending, cands, selected, nk, tlvs, k)
  }

  lemma TaintIsUndercut(rules: Rules, cost: Option<u16>, pending: Pending, mid: Pending,
                        first: Candidates, cands: Candidates, selected: Selected, nk: NeighborKey, tlvs: seq<Tlv>,
                        tlv: Tlv, k: RouteKey)
    requires Traced(rules, first, cands, nk, tlvs) && WaitsTraced(pending, mid, tlvs) && Backed(first, selected, k)
    requires TaintsBy(rules, cost, mid, cands, selected, nk, tlv, k)
    ensures Undercuts(rules, cost, pending, first, selected, nk, tlvs + [tlv], k)
  {
    hide Traced, Overtakes, Backed, Spoils, WaitsTraced, Awaited, HasRoom, SomeExpels;
    var more, n := tlvs + [tlv], |tlvs|;
    assert more[n] == tlv && more[..n] == tlvs;
    if tlv.Update? {
      OvertakesTraced(rules, cost, first, cands, selected, nk, tlvs, tlv.update);
      OvertakesTeaches(rules, cost, first, selected, nk, tlv.update);
      WaitedWasAwaited(pending, mid, tlvs, tlv.update);
      RoomTraced(rules, first, cands, nk, tlvs, tlv.update);
      assert AnswersPast(rules, cost, pending, first, selected, nk, more, k);
    } else {
      var i := UnbackedWasSpoiled(rules, first, cands, selected, nk, tlvs, k);
      assert more[i] == tlvs[i];
    }
  }

  lemma RoomTraced(rules: Rules, first: Candidates, cands: Candidates, nk: NeighborKey, tlvs: seq<Tlv>,
                   u: ResolvedUpdate)
    requires Traced(rules, first, cands, nk, tlvs) && Teaches(u)
    requires HasRoom(rules.cfg.limits, cands, (u.key.value, nk))
    ensures FindsRoom(rules, first, nk, tlvs, u)
  {
    hide HasRoom, SomeExpels, Grown;
    if Grown(rules.cfg.limits, first, cands) { RoomBefore(rules.cfg.limits, first, cands, (u.key.value, nk)); }
  }

  lemma OvertakesTeaches(rules: Rules, cost: Option<u16>, cands: Candidates, selected: Selected,
                         nk: NeighborKey, u: ResolvedUpdate)
    requires Overtakes(rules, cost, cands, selected, nk, u)
    ensures Teaches(u)
  {
  }

  lemma UndercutsLonger(rules: Rules, cost: Option<u16>, pending: Pending, cands: Candidates,
                        selected: Selected, nk: NeighborKey, tlvs: seq<Tlv>, tlv: Tlv, k: RouteKey)
    requires Undercuts(rules, cost, pending, cands, selected, nk, tlvs, k)
    ensures Undercuts(rules, cost, pending, cands, selected, nk, tlvs + [tlv], k)
  {
    hide Overtakes, Spoils, Awaited, FindsRoom;
    var more := tlvs + [tlv];
    if AnswersPast(rules, cost, pending, cands, selected, nk, tlvs, k) {
      var i :| 0 <= i < |tlvs| && tlvs[i].Update? && Overtakes(rules, cost, cands, selected, nk, tlvs[i].update)
        && (OvertakesTeaches(rules, cost, cands, selected, nk, tlvs[i].update); tlvs[i].update.key.value == k)
        && Awaited(pending, tlvs[..i], tlvs[i].update) && FindsRoom(rules, cands, nk, tlvs[..i], tlvs[i].update);
      assert more[i] == tlvs[i] && more[..i] == tlvs[..i];
    } else {
      var i, j :| 0 <= i < j < |tlvs| && tlvs[i].Update? && Spoils(rules, selected, nk, tlvs[i].update, k)
                  && Asks(tlvs[j], k);
      assert more[i] == tlvs[i] && more[j] == tlvs[j];
    }
  }

  lemma UndercutMore(rules: Rules, cost: Option<u16>, pending: Pending, mid: Pending, first: Candidates,
                     cands: Candidates, selected: Selected, nk: NeighborKey, tlvs: seq<Tlv>, tlv: Tlv,
                     t0: set<RouteKey>, t: set<RouteKey>, t': set<RouteKey>)
    requires Traced(rules, first, cands, nk, tlvs) && WaitsTraced(pending, mid, tlvs) && forall k :: k in selected ==>
      Backed(first, selected, k)
    requires OnlyUndercut(rules, cost, pending, first, selected, nk, tlvs, t0, t)
    requires TaintedBy(rules, cost, mid, cands, selected, nk, tlv, t, t')
    ensures OnlyUndercut(rules, cost, pending, first, selected, nk, tlvs + [tlv], t0, t')
  {
    hide Traced, WaitsTraced, Undercuts, TaintsBy, Backed;
    forall k | k in t' && k !in t0 ensures Undercuts(rules, cost, pending, first, selected, nk, tlvs + [tlv], k) {
      if k in t {
        UndercutsLonger(rules, cost, pending, first, selected, nk, tlvs, tlv, k);
      } else {
        assert Backed(first, selected, k) by { UnselectedIsBacked(first, selected, k); }
        TaintIsUndercut(rules, cost, pending, mid, first, cands, selected, nk, tlvs, tlv, k);
      }
    }
  }

  lemma UnselectedIsBacked(cands: Candidates, selected: Selected, k: RouteKey)
    ensures k !in selected ==> Backed(cands, selected, k)
  {
  }

  /** What an answer with a stored candidate may overtake is another neighbour's route. */
  lemma OvertakenBeside(cands: Candidates, selected: Selected, ck: CandidateKey, c: Candidate)
    requires c.advertised < c.metric && !Backs(cands[ck := c], selected, ck.0, c.routerId, Distance(c.seqno, c.metric))
    ensures !Backs(cands - {ck}, selected, ck.0, c.routerId, Distance(c.seqno, c.metric))
  {
    var d, stored := Distance(c.seqno, c.metric), cands[ck := c];
    var other :| other in stored && other.0 == ck.0 && Same(selected[ck.0], other, stored[other])
      && stored[other].advertised != INFINITY
      && !stored[other].Offered().FeasibleAgainst(d);
    assert other != ck;
    assert (cands - {ck})[other] == stored[other];
  }

  // ----- what the engine's own steps do

  lemma NothingTainted(rules: Rules, cost: Option<u16>, pending: Pending, cands: Candidates,
                       selected: Selected, nk: NeighborKey, tlvs: seq<Tlv>, t: set<RouteKey>, t': set<RouteKey>)
    requires t' <= t
    ensures OnlyUndercut(rules, cost, pending, cands, selected, nk, tlvs, t, t')
    ensures forall tlv :: TaintedBy(rules, cost, pending, cands, selected, nk, tlv, t, t')
  {
    hide Undercuts, TaintsBy;
  }

  lemma FewerTainted(rules: Rules, cost: Option<u16>, pending: Pending, cands: Candidates,
                     selected: Selected, nk: NeighborKey, tlvs: seq<Tlv>, t: set<RouteKey>, t': set<RouteKey>,
                     t'': set<RouteKey>)
    requires OnlyUndercut(rules, cost, pending, cands, selected, nk, tlvs, t, t') && t'' <= t'
    ensures OnlyUndercut(rules, cost, pending, cands, selected, nk, tlvs, t, t'')
  {
    hide Undercuts;
  }

  lemma WaitsWider(before: Pending, after: Pending, tlvs: seq<Tlv>)
    requires WaitsTraced(before, after, [])
    ensures WaitsTraced(before, after, tlvs)
  {
  }

  /** At most the request for this source was added, with this number. */
  predicate WaitsAt(before: Pending, after: Pending, sk: SourceKey, seqno: u16) {
    forall other :: other in after && after[other].requester.Some? ==>
      (other in before && before[other] == after[other]) || (other == sk && after[other].seqno == seqno)
  }

  lemma WaitsForTlv(before: Pending, after: Pending, tlv: Tlv)
    requires tlv.SeqnoRequest? && WaitsAt(before, after, (tlv.key, tlv.routerId), tlv.seqno)
    ensures WaitsTraced(before, after, [tlv])
  {
    assert [tlv][0] == tlv;
  }

  lemma AskingTaints(rules: Rules, cost: Option<u16>, pending: Pending, cands: Candidates,
                     selected: Selected, nk: NeighborKey, tlv: Tlv, t: set<RouteKey>, t': set<RouteKey>)
    requires !tlv.Update? && forall k :: k in t' && k !in t ==> Asks(tlv, k) && !Backed(cands, selected, k)
    ensures TaintedBy(rules, cost, pending, cands, selected, nk, tlv, t, t')
  {
    hide Backed, Asks, Overtakes;
  }

  /** The exempt keys after a candidate was stored, and somebody was told of it or not. */
  function Exempted(t: set<RouteKey>, told: bool, cands: Candidates, selected: Selected, ck: CandidateKey,
                    c: Candidate): set<RouteKey> {
    if told && !Backs(cands[ck := c], selected, ck.0, c.routerId, Distance(c.seqno, c.metric)) then t + {ck.0} else t
  }

  /** Storing a candidate taints its key only where an answer overtakes the selected route. */
  lemma AnsweringTaints(rules: Rules, cost: Option<u16>, pending: Pending, cands: Candidates,
                        selected: Selected, nk: NeighborKey, u: ResolvedUpdate, c: Candidate, now: u64,
                        t: set<RouteKey>, answered: bool, t': set<RouteKey>)
    requires Welcome(rules, nk, u) && cost.Some?
    requires c == Learned(u, SafeExtend(rules.cfg.algebra, u.metric, cost.value), now)
    requires answered ==>
      c.metric != INFINITY && WaitedFor(pending, u) && HasRoom(rules.cfg.limits, cands, (u.key.value, nk))
    requires t' == Exempted(t, answered, cands, selected, (u.key.value, nk), c)
    ensures t <= t' && TaintedBy(rules, cost, pending, cands, selected, nk, Update(u), t, t')
  {
    hide WaitedFor, Backs, HasRoom;
    var ck := (u.key.value, nk);
    if t' != t { OvertakenBeside(cands, selected, ck, c); }
  }
}
