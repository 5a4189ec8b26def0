/** The synchronous routing engine, updated in place by every event
    (crates/babel-protocol/src/engine.rs and the files of its engine directory). */
module Engines {
  import opened Model
  import opened WireTypes
  import opened EngineTypes
  import opened Hysteresis
  import opened Feasibility
  import opened Reselection
  import opened Switching
  import opened Choosing
  import opened Bookkeeping
  import opened Announcing
  import opened Withdrawal
  import opened Updating
  import opened Undercutting
  import opened EngineInvariants
  import opened Requests

  /** The last applicable IHU decides. */
  method HearAll(n: Neighbor, tlvs: seq<Tlv>, local: seq<IpAddr>, now: u64) returns (n': Neighbor)
    ensures Heard(n, tlvs, local, now, n')
  {
    n' := n;
    for i := 0 to |tlvs|
      invariant n'.candidates == n.candidates && n'.rx == n.rx && n'.penalty == n.penalty && n'.etx == n.etx
      invariant forall k ::
        (&& 0 <= k < i && Applies(tlvs[k], local)
         && (forall j :: k < j < i ==> !Applies(tlvs[j], local))) ==>
        n'.tx == tlvs[k].rxcost && n'.lastIhu == Some(now) && n'.ihuIntervalCs == tlvs[k].intervalCs
      invariant (forall k :: 0 <= k < i ==> !Applies(tlvs[k], local)) ==> n' == n
    {
      if Applies(tlvs[i], local) {
        n' := n'.(tx := tlvs[i].rxcost, lastIhu := Some(now), ihuIntervalCs := tlvs[i].intervalCs);
      }
    }
  }

  // ----- burying lost keys
  method LongestInterval(cfg: Config, interfaces: Interfaces) returns (longest: u16)
    ensures IsLongest(cfg, interfaces, longest)
  {
    if interfaces == map[] { return cfg.updateIntervalCs; }
    var todo := interfaces.Keys;
    var first :| first in todo;
    longest := interfaces[first].policy.updateIntervalCs;
    while todo != {}
      invariant todo <= interfaces.Keys
      invariant exists n :: n in interfaces && interfaces[n].policy.updateIntervalCs == longest
      invariant forall n :: n in interfaces.Keys - todo ==> interfaces[n].policy.updateIntervalCs <= longest
      decreases todo
    {
      var n :| n in todo;
      if interfaces[n].policy.updateIntervalCs > longest { longest := interfaces[n].policy.updateIntervalCs; }
      todo := todo - {n};
    }
  }

  method LatestExpiry(candidates: Candidates, k: RouteKey, now: u64) returns (latest: u64)
    ensures IsLatest(candidates, k, now, latest)
  {
    var todo := candidates.Keys;
    var found := false;
    latest := now;
    while todo != {}
      invariant todo <= candidates.Keys
      invariant !found ==> latest == now && forall ck :: ck in candidates.Keys - todo ==> ck.0 != k
      invariant found ==> exists ck :: ck in candidates && ck.0 == k && candidates[ck].expires == latest
      invariant found ==> forall ck :: ck in candidates.Keys - todo && ck.0 == k ==> candidates[ck].expires <= latest
      decreases todo
    {
      var ck :| ck in todo;
      if ck.0 == k {
        if !found || candidates[ck].expires > latest { latest := candidates[ck].expires; }
        found := true;
      }
      todo := todo - {ck};
    }
  }

  /** Selected keys stop being unreachable; lost keys become so. */
  method Bury(cfg: Config, interfaces: Interfaces, candidates: Candidates, advertisedUntil: Deadlines, before: Selected,
              selected: Selected, was: Deadlines, now: u64) returns (tombstones: Deadlines, longest: u16)
    ensures IsLongest(cfg, interfaces, longest)
    ensures Buried(candidates, longest, advertisedUntil, before, was, now, selected, tombstones)
  {
    hide IsLongest, IsLatest, Burying, Buried;
    var limit := LongestInterval(cfg, interfaces);
    longest := limit;
    var todo := before.Keys - selected.Keys;
    BuryStart(candidates, limit, advertisedUntil, before, was, now, selected);
    tombstones := was - selected.Keys;
    while todo != {}
      invariant Burying(candidates, limit, advertisedUntil, before, was, now, selected, todo, tombstones)
      decreases todo
    {
      var k :| k in todo;
      var latest := LatestExpiry(candidates, k, now);
      BuryOne(candidates, limit, advertisedUntil, before, was, now, selected, todo, tombstones, k, latest);
      tombstones := tombstones[k := Max(Max(latest, Lifetime(now, limit)), Until(advertisedUntil, k))];
      todo := todo - {k};
    }
    BuryEnd(candidates, limit, advertisedUntil, before, was, now, selected, tombstones);
  }

  class Engine {
    const cfg: Config
    var policy: RoutePolicy
    var interfaces: Interfaces
    var lastFullUpdate: map<string, u64>
    var neighbors: Neighbors
    var candidates: Candidates
    var sources: Sources
    var originated: Originated
    var selected: Selected
    var pendingRequests: Pending
    var recentRequests: map<SourceKey, (u16, u64)>
    var tombstones: Deadlines
    var advertisedUntil: Deadlines
    var pendingAdvertisements: map<RouteKey, (u64, nat)>
    var memory: Memory
    var generation: u64
    var sequenceNumber: u16

    // Hypotheses and promises tracked for the proofs.
    ghost const env: Env
    ghost var tame: bool               // every input so far kept to the windows and owners of `env`
    ghost var tainted: set<RouteKey>   // keys exempt from the feasibility condition during an event
    ghost var owed: Deadlines          // lifetimes recorded before the last event that could drop the key
    ghost var clock: u64

    ghost predicate Valid()
      reads `neighbors, `candidates, `sources, `originated, `selected, `tombstones, `sequenceNumber, `tame, `tainted
    {
      && Balanced(cfg.limits, neighbors, candidates)
      && Extended(candidates) && Foreign(cfg.routerId, candidates, selected)
      && Apart(selected, tombstones)
      && Synced(originated, sequenceNumber)
      && (tame ==> Tame(env, cfg.routerId, candidates, sources, selected, originated, sequenceNumber))
      && (tame ==> Conditioned(candidates, sources, selected, tainted))
    }

    constructor (cfg: Config, policy: RoutePolicy, sequenceNumber: u16, ghost env: Env)
      ensures this.cfg == cfg && this.env == env && this.sequenceNumber == sequenceNumber && tame && clock == 0
        && tainted == {}
      ensures neighbors == map[] && candidates == map[] && sources == map[] && selected == map[] && originated == map[]
      ensures Steady(clock)
    {
      this.cfg, this.policy, this.sequenceNumber, this.env := cfg, policy, sequenceNumber, env;
      interfaces, lastFullUpdate, neighbors, candidates, sources := map[], map[], map[], map[], map[];
      originated, selected, pendingRequests, recentRequests := map[], map[], map[], map[];
      tombstones, advertisedUntil, pendingAdvertisements, memory := map[], map[], map[], Memory(map[], map[], {});
      generation, tame, tainted, owed, clock := 0, true, {}, map[], 0;
    }

    function Out(): Outlet
      reads `policy, `interfaces
    {
      Outlet(cfg, policy, interfaces)
    }

    ghost predicate Settled()
      reads `candidates, `sources, `selected, `memory
    {
      Stable(cfg.selection, candidates, sources, selected, memory.pending.Keys)
    }

    /** Record every finite announcement of one pass in the source table. */
    method Record(out: set<Action>, now: u64)
      requires Consistent(out)
      modifies `sources
      ensures Recorded(old(sources), out, now, sources)
    {
      hide Recorded, Consistent, FiniteSend;
      var todo := out;
      RecordedStart(sources, now);
      assert out - todo == {};
      while todo != {}
        invariant todo <= out && Recorded(old(sources), out - todo, now, sources)
        decreases todo
      {
        var a :| a in todo;
        ghost var done := out - todo;
        assert out - (todo - {a}) == done + {a};
        ConsistentPart(out, done + {a});
        if FiniteSend(a) {
          RecordOne(old(sources), done, now, sources, a);
          sources := Maintain(sources, SourceOf(a), DistanceOf(a), now);
        } else {
          RecordSkip(old(sources), done, now, sources, a);
        }
        todo := todo - {a};
      }
      assert out - todo == out;
    }

    /** `send_updates`: announce the wanted routes on the given interface, or on all. */
    method SendUpdates(now: u64, only: Option<RouteKey>, interface: Option<string>, deadline: Option<u64>)
      returns (out: set<Action>)
      requires Valid()
      requires tame ==> BackedFor(only, candidates, selected, tainted)
      modifies `sources, `lastFullUpdate
      ensures Valid()
      ensures tame && old(Settled()) ==> Settled()
      ensures out == UpdateSends(Out(), originated, selected, tombstones.Keys - originated.Keys, sequenceNumber, only,
                                 if interface.Some? then {interface.value} else interfaces.Keys, deadline, now)
      ensures Recorded(old(sources), out, now, sources) && Written(cfg.routerId, selected, now, old(sources), sources)
      ensures tame ==> Improved(env, now, old(sources), sources) && Covered(env, now, sources, out)
    {
      hide Balanced, Extended, Apart, Conditioned, Recorded, UpdateSends, Honest, Consistent, Addressed, Improved,
           Covered, SendsIn, Stable, BackedFor, About, CandidatesIn, SourcesIn, InWindow, FiniteSend, Written;
      var names := if interface.Some? then {interface.value} else interfaces.Keys;
      var gone := tombstones.Keys - originated.Keys;
      out := UpdateSends(Out(), originated, selected, gone, sequenceNumber, only, names, deadline, now);
      SendsAreHonest(Out(), originated, selected, gone, sequenceNumber, only, names, deadline, now);
      Record(out, now);
      WrittenBy(cfg.routerId, selected, out, now, old(sources), sources);
      if only.None? {
        var told := set n | n in names && n in interfaces
          && SendsOn(Out(), originated, selected, gone, sequenceNumber, only, n,
                                                                   DeadlineOn(Out(), n, deadline, now)) != {};
        lastFullUpdate := lastFullUpdate + map n | n in told :: now;
      }
      if tame {
        PassIsTame(env, cfg.routerId, candidates, old(sources), sources, selected, originated, sequenceNumber, out,
                   now);
        PassKeepsConditioned(cfg.routerId, candidates, old(sources), out, now, sources, selected, tainted, only);
        if Stable(cfg.selection, candidates, old(sources), selected, memory.pending.Keys) {
          StableShrinks(env, cfg.selection, now, candidates, old(sources), sources, selected, memory.pending.Keys);
        }
      }
    }

    /** `originate_seqno_request`. */
    method RequestSeqno(key: RouteKey, routerId: RouterId, seqno: u16, hopCount: u8, nextHop: NeighborKey,
                        requester: Option<NeighborKey>, now: u64) returns (out: set<Action>)
      modifies `pendingRequests
      ensures pendingRequests == old(pendingRequests)[(key, routerId) :=
        PendingRequest(seqno, hopCount, nextHop, requester, REQUEST_RETRIES, SatAdd(now, REQUEST_RETRY_INITIAL_MS))]
      ensures out == {Request(nextHop.interface, nextHop.address, key, routerId, seqno, hopCount, Urgent(now))}
      ensures requester.None? ==> WaitsTraced(old(pendingRequests), pendingRequests, [])
    {
      pendingRequests := pendingRequests[(key, routerId) :=
        PendingRequest(seqno, hopCount, nextHop, requester, REQUEST_RETRIES, SatAdd(now, REQUEST_RETRY_INITIAL_MS))];
      out := {Request(nextHop.interface, nextHop.address, key, routerId, seqno, hopCount, Urgent(now))};
    }

    /** Ask for a newer sequence number for every lost key that somebody still offers. */
    method RequestLost(before: Selected, now: u64) returns (out: set<Action>)
      modifies `pendingRequests
      ensures forall a :: a in out ==> a.Request?
      ensures Asked(candidates, sources, selected, before, old(pendingRequests), before.Keys - selected.Keys,
                    pendingRequests)
      ensures Spoken(old(pendingRequests), pendingRequests, now, out)
    {
      hide Asked, CanAsk;
      out := {};
      var lost := before.Keys - selected.Keys;
      var todo := lost;
      AskedStart(candidates, sources, selected, before, pendingRequests);
      assert lost - todo == {};
      while todo != {}
        invariant todo <= lost && forall a :: a in out ==> a.Request?
        invariant Asked(candidates, sources, selected, before, old(pendingRequests), lost - todo, pendingRequests)
        invariant Spoken(old(pendingRequests), pendingRequests, now, out)
        decreases todo
      {
        var k :| k in todo;
        var sk := (k, before[k].routerId);
        var targets := set ck | ck in candidates && CanAsk(candidates, sources, selected, k, ck);
        ghost var requests, done := pendingRequests, lost - todo;
        assert lost - (todo - {k}) == done + {k};
        if sk !in pendingRequests && targets != {} {
          var target :| target in targets;
          var ask := RequestSeqno(k, sk.1, AskFor(sources, sk, before[k].seqno), REQUEST_HOP_COUNT, target.1, None,
                                  now);
          AskedOne(candidates, sources, selected, before, old(pendingRequests), done, requests, k, target,
                   pendingRequests[sk]);
          out := out + ask;
        } else {
          NobodyToAsk(candidates, sources, selected, before, old(pendingRequests), done, requests, k, targets);
        }
        todo := todo - {k};
      }
      assert lost - todo == lost;
    }

    method RepeatAdvertisements(keys: set<RouteKey>, now: u64)
      modifies `pendingAdvertisements
      ensures pendingAdvertisements == old(pendingAdvertisements) + map k | k in keys :: (SatAdd(now, 1_000), 2)
    {
      pendingAdvertisements := pendingAdvertisements + map k | k in keys :: (SatAdd(now, 1_000), 2);
    }

    /** `selected_delta`: retract what was lost, announce what changed. */
    method SelectedDelta(before: Selected, now: u64) returns (out: set<Action>)
      modifies `sources, `pendingRequests, `pendingAdvertisements
      ensures Recorded(old(sources), out, now, sources)
      ensures Retractions(Out(), before.Keys - selected.Keys, before, now) <= out
      ensures ChangeSends(Out(), selected, ChangedKeys(before, selected), now) <= out
      ensures OnlyLearned(selected, out) && Addressed(out)
      ensures RequestsKept(old(pendingRequests), pendingRequests)
      ensures Asked(candidates, old(sources), selected, before, old(pendingRequests), before.Keys - selected.Keys,
                    pendingRequests)
      ensures Spoken(old(pendingRequests), pendingRequests, now, out)
      ensures forall k :: k in (before.Keys - selected.Keys) + ChangedKeys(before, selected) ==>
        k in pendingAdvertisements && pendingAdvertisements[k] == (SatAdd(now, 1_000), 2)
    {
      hide Recorded, OnlyLearned, Addressed, Consistent, ChangeSends, Retractions, FiniteSend, Notable, CanAsk;
      var lost, changed := before.Keys - selected.Keys, ChangedKeys(before, selected);
      RepeatAdvertisements(lost + changed, now);
      var requests := RequestLost(before, now);
      var announced := ChangeSends(Out(), selected, changed, now);
      ChangeSendsAreHonest(Out(), selected, changed, now);
      ChangeSendsAreLearned(Out(), selected, changed, now);
      Record(announced, now);
      var retracted := Retractions(Out(), lost, before, now);
      out := announced + (requests + retracted);
      NothingFinite(Out(), lost, before, requests, now);
      QuietAddition(old(sources), sources, announced, requests + retracted, now, selected);
    }

    /** `reselect`: choose for every key, bury what was lost, announce what changed. */
    method Reselect(now: u64) returns (out: set<Action>, ghost longest: u16)
      requires Valid()
      modifies `selected, `memory, `tombstones, `generation, `sources, `pendingRequests, `pendingAdvertisements,
               `tainted
      ensures Valid()
      ensures Reselected(cfg.selection, candidates, old(sources), old(selected), old(memory), now, selected, memory)
      ensures IsLongest(cfg, interfaces, longest)
      ensures Buried(candidates, longest, advertisedUntil, old(selected), old(tombstones), now, selected, tombstones)
      ensures tainted == StillTainted(old(tainted), old(selected), selected)
      ensures Recorded(old(sources), out, now, sources) && Written(cfg.routerId, selected, now, old(sources), sources)
      ensures Reported(Out(), old(selected), selected, old(tombstones).Keys, tombstones.Keys, generation, now, out)
      ensures RequestsKept(old(pendingRequests), pendingRequests)
      ensures tame ==> Settled()
      ensures tame ==> Improved(env, now, old(sources), sources) && Covered(env, now, sources, out)
    {
      hide Balanced, Extended, Foreign, Apart, Tame, Conditioned, Recorded, Reselected, Buried, IsLongest, OnlyLearned,
           Addressed, Improved, Covered, Stable, AllBacked, Reported, RequestsKept, StillTainted, Synced, Written;
      var before, buried := selected, tombstones.Keys;
      ghost var wasSources, wasTainted := sources, tainted;
      var next, mem := ChooseAll(cfg.selection, candidates, sources, selected, memory, now);
      ReselectionKeeps(env, cfg, candidates, sources, before, memory, now, next, mem, originated, sequenceNumber);
      var unreachable, limit := Bury(cfg, interfaces, candidates, advertisedUntil, before, next, tombstones, now);
      BuriedIsDisjoint(candidates, limit, advertisedUntil, before, tombstones, now, next, unreachable);
      selected, memory, tombstones, longest := next, mem, unreachable, limit;
      tainted := StillTainted(tainted, before, selected);
      out := Report(before, buried, now);
      LearnedIsWritten(cfg.routerId, selected, out, now, old(sources), sources);
      if tame {
        AfterReselection(env, cfg, candidates, wasSources, before, old(memory), now, selected, memory, originated,
                         sequenceNumber,
                         wasTainted, sources, out);
      }
    }

    method Report(before: Selected, buried: set<RouteKey>, now: u64) returns (out: set<Action>)
      modifies `generation, `sources, `pendingRequests, `pendingAdvertisements
      ensures Reported(Out(), before, selected, buried, tombstones.Keys, generation, now, out)
      ensures Recorded(old(sources), out, now, sources) && OnlyLearned(selected, out) && Addressed(out)
      ensures RequestsKept(old(pendingRequests), pendingRequests)
    {
      hide Recorded, OnlyLearned, Addressed, ChangeSends, Retractions, Asked, Spoken, ChangedKeys;
      if selected != before || tombstones.Keys != buried {
        generation := (generation + 1) % 0x1_0000_0000_0000_0000;
        var snapshot := {RoutesChanged(generation, selected, tombstones.Keys)};
        var delta := SelectedDelta(before, now);
        QuietAddition(old(sources), sources, delta, snapshot, now, selected);
        out := delta + snapshot;
      } else {
        out := {};
        RecordedStart(sources, now);
        NothingAnnounced(Out(), before, selected, now);
        LearnedStart(selected);
      }
    }

    // ----- receiving routes

    method RetractCandidates(keys: set<CandidateKey>) returns (changed: bool)
      requires Valid()
      modifies `candidates
      ensures Valid()
      ensures candidates == RetractKeys(old(candidates), keys) && (changed <==> candidates != old(candidates))
      ensures Priced(cfg.algebra, neighbors, old(candidates)) ==> Priced(cfg.algebra, neighbors, candidates)
    {
      hide Balanced, Extended, Foreign, Apart, Tame, Conditioned, Synced, Subdued, Priced, RetractKeys;
      var retracted := RetractKeys(candidates, keys);
      RetractIsSubdued(candidates, keys);
      if Priced(cfg.algebra, neighbors, candidates) { RetractStaysPriced(candidates, keys, cfg.algebra, neighbors); }
      SubduedKeepsAll(env, cfg.routerId, candidates, retracted, sources, selected, originated, sequenceNumber, tainted);
      InPlaceKeeps(cfg.limits, neighbors, candidates, neighbors, retracted);
      changed := retracted != candidates;
      candidates := retracted;
    }

    method RemoveCandidate(ck: CandidateKey) returns (removed: bool)
      requires Valid()
      modifies `candidates, `neighbors
      ensures Valid()
      ensures removed == (ck in old(candidates)) && candidates == old(candidates) - {ck}
      ensures QualityKept(old(neighbors), neighbors)
    {
      hide Balanced, Extended, Foreign, Apart, Tame, Conditioned, Synced, Subdued;
      removed := ck in candidates;
      if removed {
        RemoveKeeps(cfg.limits, neighbors, candidates, ck);
        RemoveIsSubdued(candidates, {ck});
        SubduedKeepsAll(env, cfg.routerId, candidates, candidates - {ck}, sources, selected, originated, sequenceNumber,
                        tainted);
        candidates := candidates - {ck};
        neighbors := WithCount(neighbors, ck.1, neighbors[ck.1].candidates - 1);
      } else {
        assert candidates - {ck} == candidates;
      }
    }

    /** Answer every request this distance satisfies. */
    method AnswerPending(key: RouteKey, routerId: RouterId, d: Distance, now: u64) returns (out: set<Action>)
      modifies `pendingRequests, `recentRequests, `sources
      ensures out == Answers(Out(), old(pendingRequests), key, routerId, d, now)
      ensures sources == if Mentions(out, (key, routerId)) then Maintain(old(sources), (key, routerId), d, now)
        else old(sources)
      ensures pendingRequests == map sk | sk in old(pendingRequests)
                && !Satisfies(key, routerId, d.seqno, sk, old(pendingRequests)[sk]) :: old(pendingRequests)[sk]
      ensures Closed(old(pendingRequests), pendingRequests, old(recentRequests), recentRequests, now)
      ensures WaitsTraced(old(pendingRequests), pendingRequests, [])
    {
      hide Recorded, Mentions, Answers, FiniteSend, Satisfies;
      out := Answers(Out(), pendingRequests, key, routerId, d, now);
      AnswersSay(Out(), pendingRequests, key, routerId, d, now);
      var satisfied := set sk | sk in pendingRequests && Satisfies(key, routerId, d.seqno, sk, pendingRequests[sk]);
      recentRequests := recentRequests
        + map sk | sk in satisfied :: (pendingRequests[sk].seqno, SatAdd(now, RECENT_REQUEST_MS));
      pendingRequests := map sk | sk in pendingRequests && sk !in satisfied :: pendingRequests[sk];
      Record(out, now);
      SaySame(old(sources), out, (key, routerId), d, now, sources);
    }

    ghost function Books(): Ledger
      reads `neighbors, `candidates, `sources, `pendingRequests, `tainted
    {
      Ledger(neighbors, candidates, sources, pendingRequests, tainted)
    }

    /** The admission part of `receive_update`, for a finite update that names everything. */
    method StoreUpdate(nk: NeighborKey, u: ResolvedUpdate, now: u64) returns (changed: bool, out: set<Action>)
      requires Valid() && Usable(Ground(cfg, policy, neighbors, sources, selected), nk, u)
      requires tame ==> Acceptable(env, nk, u)
      modifies `candidates, `neighbors, `sources, `pendingRequests, `recentRequests, `tainted
      ensures Valid() && Took(Out(), selected, nk, u, now, old(Books()), Books())
      ensures tame && !changed && old(Settled()) ==> Settled()
      ensures tame ==> Improved(env, now, old(sources), sources) && Covered(env, now, sources, out)
      ensures changed <==> !AllAlike(old(candidates), candidates)
    {
      hide Balanced, Extended, Foreign, Apart, Tame, Conditioned, Synced, Stable, Improved, Covered, Took, QualityKept,
           CandidatesIn, SourcesIn, SafeExtend, LinkCost, ForbiddenDestination, AllAlike, Alike, Permits, Regresses,
           NoRoom, CandidateFrom, MeetsFeasibility, Same, Learned, WaitsTraced, Priced;
      var g := Ground(cfg, policy, neighbors, sources, selected);
      var key, ck := u.key.value, (u.key.value, nk);
      changed, out := false, {};
      AlikeItself(candidates);
      NothingToCover(env, now, sources, out);
      ImprovedItself(env, now, sources);
      WaitsStart(pendingRequests);
      if !Permits(g, nk, u) {
        changed := RemoveCandidate(ck);
        TookRemoval(Out(), selected, nk, u, now, old(Books()), neighbors);
        RemovedAlike(old(candidates), ck);
        assert ck !in old(candidates) ==> old(candidates) - {ck} == old(candidates);
      } else if NoRoom(g, candidates, nk, u) {
        TookNothing(Out(), selected, nk, u, now, Books(), pendingRequests);
      } else if Regresses(g, nk, u, now) {
        RegressKnows(g, nk, u, now);
        var seqno := WrapAdd16(sources[(key, u.routerId.value)].distance.seqno, 1);
        out := RequestSeqno(key, u.routerId.value, seqno, REQUEST_HOP_COUNT, nk, None, now);
        NothingToCover(env, now, sources, out);
        TookNothing(Out(), selected, nk, u, now, old(Books()), pendingRequests);
      } else {
        StoredAlike(candidates, ck, CandidateFrom(g, nk, u, now));
        changed, out := LearnUpdate(nk, u, CandidateFrom(g, nk, u, now), now);
      }
    }

    /** Answer or raise requests, then store the candidate. */
    method LearnUpdate(nk: NeighborKey, u: ResolvedUpdate, c: Candidate, now: u64)
      returns (changed: bool, out: set<Action>)
      requires Valid() && Stores(Ground(cfg, policy, neighbors, sources, selected), candidates, nk, u, now)
      requires c == CandidateFrom(Ground(cfg, policy, neighbors, sources, selected), nk, u, now)
      requires tame ==> Acceptable(env, nk, u)
      modifies `candidates, `neighbors, `sources, `pendingRequests, `recentRequests, `tainted
      ensures Valid() && Took(Out(), selected, nk, u, now, old(Books()), Books())
      ensures candidates == old(candidates)[(u.key.value, nk) := c]
      ensures changed <==> (u.key.value, nk) !in old(candidates) || !Alike(old(candidates)[(u.key.value, nk)], c)
      ensures tame && !changed && old(Settled()) ==> Settled()
      ensures tame ==> Improved(env, now, old(sources), sources) && Covered(env, now, sources, out)
    {
      hide Balanced, Extended, Foreign, Apart, Tame, Conditioned, Synced, Stable, Improved, Covered, Stores,
           CandidateFrom, Alike, Counting, Took, Storable, Said, Exempted, InWindow, HasRoom;
      StoresHasRoom(Ground(cfg, policy, neighbors, sources, selected), candidates, nk, u, now);
      StoresStorable(Ground(cfg, policy, neighbors, sources, selected), candidates, nk, u, now, c);
      var ck := (u.key.value, nk);
      ghost var told;
      out, told := Resolve(nk, u, c, now);
      changed := ck !in candidates || !Alike(candidates[ck], c);
      StoredBooks(cfg, neighbors, candidates, old(sources), selected, ck, c);
      if tame {
        StoredAll(env, cfg, neighbors, candidates, old(sources), sources, selected, originated, sequenceNumber, tainted,
                  ck, c, now, out, told,
                  memory.pending.Keys, !changed && old(Settled()));
      }
      tainted := Exempted(tainted, told, candidates, selected, ck, c);
      candidates, neighbors := candidates[ck := c], Counting(neighbors, candidates, ck);
    }

    /** Requests a feasible candidate answers, or the request an infeasible one calls for. */
    method Resolve(nk: NeighborKey, u: ResolvedUpdate, c: Candidate, now: u64)
      returns (out: set<Action>, ghost told: bool)
      requires var g := Ground(cfg, policy, neighbors, sources, selected);
        Stores(g, candidates, nk, u, now) && c == CandidateFrom(g, nk, u, now)
      requires HasRoom(cfg.limits, candidates, (u.key.value, nk))
      modifies `sources, `pendingRequests, `recentRequests
      ensures Said((u.key.value, nk), c, now, old(sources), sources, out, told)
      ensures nk in neighbors
        && Took(Out(), selected, nk, u, now, old(Books()),
                Filed(old(Books()), selected, (u.key.value, nk), c, sources, pendingRequests, told))
    {
      hide Answers, Maintain, Stores, WaitsTraced, WaitedFor, CandidateFrom, SourcesAfter, AllSay, Addressed,
           FiniteSend, Storable, Took, Filed, HasRoom;
      StoresStorable(Ground(cfg, policy, neighbors, sources, selected), candidates, nk, u, now, c);
      ghost var g := Ground(cfg, policy, neighbors, sources, selected);
      var key, ck, sk := u.key.value, (u.key.value, nk), (u.key.value, c.routerId);
      out := {};
      WaitsStart(pendingRequests);
      if MeetsFeasibility(sources, ck, c) {
        AnswersSay(Out(), pendingRequests, key, c.routerId, Distance(c.seqno, c.metric), now);
        out := AnswerPending(key, c.routerId, Distance(c.seqno, c.metric), now);
        SourcesAnswered(g, Out(), candidates, old(pendingRequests), nk, u, now, c, out);
        if Mentions(out, sk) { AnswersWaited(Out(), old(pendingRequests), u, c.metric, now, sk); }
      } else {
        SourcesUnanswered(g, Out(), candidates, pendingRequests, nk, u, now);
        if sk !in pendingRequests && (key !in selected || c.metric < selected[key].metric) {
          out := RequestSeqno(key, c.routerId, WrapAdd16(sources[sk].distance.seqno, 1), REQUEST_HOP_COUNT, nk, None,
                              now);
        }
        NothingMentioned(out, sk, Distance(c.seqno, c.metric));
      }
      told := Mentions(out, sk);
      TookStored(Out(), selected, nk, u, now, old(Books()), c, sources, pendingRequests, told);
    }

    /** `receive_update`: whether selection inputs changed, and what to send. */
    method ReceiveUpdate(nk: NeighborKey, u: ResolvedUpdate, now: u64) returns (changed: bool, out: set<Action>)
      requires Valid()
      modifies `candidates, `neighbors, `sources, `pendingRequests, `recentRequests, `tainted, `tame
      ensures Valid() && Took(Out(), selected, nk, u, now, old(Books()), Books())
      ensures tame <==> old(tame) && Acceptable(env, nk, u)
      ensures tame && !changed && old(Settled()) ==> Settled()
      ensures tame ==> Improved(env, now, old(sources), sources) && Covered(env, now, sources, out)
      ensures changed <==> !AllAlike(old(candidates), candidates)
    {
      hide Balanced, Extended, Foreign, Apart, Tame, Conditioned, Synced, Priced, Stable, Improved, Covered, Took,
           Acceptable, ForbiddenDestination, RetractKeys, AllAlike, AfterStore, WaitsTraced, Permits, NoRoom, Regresses;
      AlikeItself(candidates);
      tame := tame && Acceptable(env, nk, u);
      changed, out := false, {};
      NothingToCover(env, now, sources, out);
      ImprovedItself(env, now, sources);
      WaitsStart(pendingRequests);
      if u.metric == INFINITY && !(u.key.Some? && ForbiddenDestination(u.key.value.destination)) {
        var keys := if u.key.None? then set ck | ck in candidates && ck.1 == nk else {(u.key.value, nk)};
        changed := RetractCandidates(keys);
        TookRetraction(Out(), selected, nk, u, now, old(Books()), keys);
        RetractedAlike(old(candidates), keys);
      } else if Usable(Ground(cfg, policy, neighbors, sources, selected), nk, u) {
        changed, out := StoreUpdate(nk, u, now);
      } else {
        TookNothing(Out(), selected, nk, u, now, Books(), pendingRequests);
      }
    }

    // ----- answering requests

    /** `update_action_to_candidate` for an own origin or the selected route. */
    method Reply(key: RouteKey, routerId: RouterId, d: Distance, to: NeighborKey, now: u64) returns (out: set<Action>)
      requires Valid() && (tame ==> BackedFor(Some(key), candidates, selected, tainted))
      requires (routerId == cfg.routerId && key in originated
        && d == Distance(originated[key].seqno, originated[key].metric))
        || (key in selected && routerId == selected[key].routerId
          && d == Distance(selected[key].seqno, selected[key].metric))
      modifies `sources
      ensures Valid()
      ensures out == {Announce(Out(), to.interface, to.address, key, routerId, d, Urgent(now))}
      ensures Written(cfg.routerId, selected, now, old(sources), sources)
      ensures tame ==> Improved(env, now, old(sources), sources) && Covered(env, now, sources, out)
    {
      hide Balanced, Extended, Apart, Conditioned, Recorded, Improved, Covered, BackedFor, CandidatesIn, SourcesIn,
           InWindow, Addressed, Consistent, Honest, About, Written;
      out := {Announce(Out(), to.interface, to.address, key, routerId, d, Urgent(now))};
      ReplyIsHonest(Out(), candidates, originated, selected, key, routerId, d, to, now);
      Record(out, now);
      WrittenBy(cfg.routerId, selected, out, now, old(sources), sources);
      if tame {
        PassIsTame(env, cfg.routerId, candidates, old(sources), sources, selected, originated, sequenceNumber, out,
                   now);
        PassKeepsConditioned(cfg.routerId, candidates, old(sources), out, now, sources, selected, tainted, Some(key));
      }
    }

    method ReplyToRouteRequest(key: RouteKey, to: NeighborKey, now: u64) returns (out: set<Action>)
      requires Valid() && (tame ==> BackedFor(Some(key), candidates, selected, tainted))
      modifies `sources
      ensures Valid()
      ensures out == {RouteReply(Out(), cfg.routerId, originated, selected, sequenceNumber, key, to, now)}
      ensures Written(cfg.routerId, selected, now, old(sources), sources)
      ensures tame ==> Improved(env, now, old(sources), sources) && Covered(env, now, sources, out)
    {
      hide Balanced, Extended, Foreign, Apart, Tame, Conditioned, Synced, Improved, Covered, BackedFor, Written;
      NothingWritten(cfg.routerId, selected, now, sources);
      if key in originated {
        out := Reply(key, cfg.routerId, Distance(originated[key].seqno, originated[key].metric), to, now);
      } else if key in selected {
        out := Reply(key, selected[key].routerId, Distance(selected[key].seqno, selected[key].metric), to, now);
      } else {
        out := {Send(to.interface, to.address, Retraction(key, None, UpdateInterval(cfg, interfaces, to.interface),
                                                          sequenceNumber), Urgent(now))};
        NothingToCover(env, now, sources, out);
        ImprovedItself(env, now, sources);
      }
    }

    method Bump()
      requires Valid()
      modifies `sequenceNumber, `originated, `tame
      ensures Valid()
      ensures Bumped(old(originated), old(sequenceNumber), originated, sequenceNumber, 1)
      ensures tame <==> old(tame) && OwnIn(env, cfg.routerId, originated, sequenceNumber)
      ensures old(tame) && Windowed(env, cfg.routerId, old(originated).Keys, old(sequenceNumber), 1) ==> tame
    {
      hide Balanced, Extended, Foreign, Apart, Conditioned, CandidatesIn, SourcesIn, InWindow;
      sequenceNumber := WrapAdd16(sequenceNumber, 1);
      originated := Stamped(originated, sequenceNumber);
      if tame && Windowed(env, cfg.routerId, old(originated).Keys, old(sequenceNumber), 1) {
        WindowedOwn(env, cfg.routerId, old(originated).Keys, old(sequenceNumber), 1, originated);
      }
      tame := tame && OwnIn(env, cfg.routerId, originated, sequenceNumber);
    }

    /** The neighbour a seqno request is forwarded to: feasible first, then by metric and sequence number. */
    method PickTarget(key: RouteKey, routerId: RouterId, requester: NeighborKey) returns (target: Option<CandidateKey>)
      ensures target.None? ==> forall ck :: ck in candidates ==> !Forwards(candidates, key, routerId, requester, ck)
      ensures target.Some? ==> BestTarget(candidates, sources, selected, key, routerId, requester, target.value)
    {
      hide IsFeasible;
      var todo := set ck | ck in candidates && Forwards(candidates, key, routerId, requester, ck);
      ghost var all := todo;
      target := None;
      while todo != {}
        invariant todo <= all && (target.None? ==> todo == all)
        invariant target.Some? ==> target.value in all
        invariant target.Some? ==> forall ck :: ck in all - todo ==>
          !AskedBefore(candidates, sources, selected, ck, target.value)
        decreases todo
      {
        var ck :| ck in todo;
        if target.None? || AskedBefore(candidates, sources, selected, ck, target.value) {
          ghost var was := target;
          target := Some(ck);
          forall seen | seen in all - todo ensures !AskedBefore(candidates, sources, selected, seen, ck) {
            if AskedBefore(candidates, sources, selected, seen, ck) {
              AskedChains(candidates, sources, selected, seen, ck, was.value);
            }
          }
        }
        todo := todo - {ck};
      }
      assert forall ck :: ck in candidates && Forwards(candidates, key, routerId, requester, ck) ==> ck in all;
    }

    /** A request for an own origin: at most one bump, then the update on every interface. */
    method ServeOwn(key: RouteKey, seqno: u16, now: u64) returns (out: set<Action>, ghost bumps: nat)
      requires Valid() && key in originated && (tame ==> BackedFor(Some(key), candidates, selected, tainted))
      modifies `sources, `lastFullUpdate, `sequenceNumber, `originated, `tame
      ensures Valid() && Bumped(old(originated), old(sequenceNumber), originated, sequenceNumber, bumps)
      ensures tame ==> old(tame) && Improved(env, now, old(sources), sources) && Covered(env, now, sources, out)
      ensures bumps == (if SeqnoGt(seqno, old(originated)[key].seqno) then 1 else 0)
      ensures out == UpdateSends(Out(), originated, selected, tombstones.Keys - originated.Keys, sequenceNumber,
                                 Some(key),
                                 interfaces.Keys, Some(Urgent(now)), now)
                     + (if bumps == 1 then {SequenceNumberChanged(sequenceNumber)} else {})
      ensures Written(cfg.routerId, selected, now, old(sources), sources)
      ensures old(tame) && Windowed(env, cfg.routerId, old(originated).Keys, old(sequenceNumber), bumps) ==> tame
    {
      hide Balanced, Extended, Foreign, Apart, Tame, Conditioned, Improved, Covered, BackedFor, Bumped, UpdateSends,
           Recorded, Windowed, OwnIn, Written;
      bumps := 0;
      NotBumped(originated, sequenceNumber);
      var told: set<Action> := {};
      if SeqnoGt(seqno, originated[key].seqno) {
        Bump();
        bumps, told := 1, {SequenceNumberChanged(sequenceNumber)};
      }
      var updates := SendUpdates(now, Some(key), None, Some(Urgent(now)));
      if tame { CoveredMore(env, now, sources, updates, told); }
      out := updates + told;
    }

    method ForwardRequest(requester: NeighborKey, key: RouteKey, seqno: u16, hopCount: u8, routerId: RouterId, now: u64)
      returns (out: set<Action>)
      requires hopCount > 1
      modifies `pendingRequests
      ensures Passed(candidates, sources, selected, requester, key, seqno, hopCount, routerId, now,
                     old(pendingRequests), pendingRequests, out)
      ensures forall a :: a in out ==> !a.Send?
      ensures WaitsAt(old(pendingRequests), pendingRequests, (key, routerId), seqno)
    {
      hide BestTarget, Forwards;
      var target := PickTarget(key, routerId, requester);
      if target.None? { return {}; }
      out := RequestSeqno(key, routerId, seqno, hopCount - 1, target.value.1, Some(requester), now);
    }

    /** What a seqno request comes to: an answer, an own update, a forwarded request, or nothing. */
    twostate predicate SeqnoHandled(requester: NeighborKey, key: RouteKey, seqno: u16, hopCount: u8, routerId: RouterId,
                                    now: u64, out: set<Action>, bumps: nat)
      reads this
    {
      var course := CourseOf(cfg.routerId, old(originated), selected, old(pendingRequests), recentRequests, key, seqno,
                             hopCount, routerId, now);
      && (bumps == 1 <==> course == Serve && SeqnoGt(seqno, old(originated)[key].seqno))
      && (course == Answer ==> out == {AnswerTo(Out(), cfg.routerId, old(originated), selected, key, routerId,
                                                requester, now)})
      && (course == Serve ==>
            out == UpdateSends(Out(), originated, selected, tombstones.Keys - originated.Keys, sequenceNumber,
                               Some(key), interfaces.Keys,
                               Some(Urgent(now)), now)
                   + (if bumps == 1 then {SequenceNumberChanged(sequenceNumber)} else {}))
      && (course == Refuse ==> out == {})
      && (if course == Forward then
            Passed(candidates, old(sources), selected, requester, key, seqno, hopCount, routerId, now,
                   old(pendingRequests), pendingRequests, out)
          else pendingRequests == old(pendingRequests))
    }

    /** `handle_seqno_request`. */
    method HandleSeqnoRequest(requester: NeighborKey, key: RouteKey, seqno: u16, hopCount: u8, routerId: RouterId,
                              now: u64)
      returns (out: set<Action>, ghost bumps: nat)
      requires Valid() && (tame ==> BackedFor(Some(key), candidates, selected, tainted))
      modifies `sources, `lastFullUpdate, `pendingRequests, `sequenceNumber, `originated, `tame
      ensures Valid() && bumps <= 1 && Bumped(old(originated), old(sequenceNumber), originated, sequenceNumber, bumps)
      ensures tame ==> old(tame) && Improved(env, now, old(sources), sources) && Covered(env, now, sources, out)
      ensures SeqnoHandled(requester, key, seqno, hopCount, routerId, now, out, bumps)
      ensures Written(cfg.routerId, selected, now, old(sources), sources)
      ensures WaitsAt(old(pendingRequests), pendingRequests, (key, routerId), seqno)
      ensures old(tame) && Windowed(env, cfg.routerId, old(originated).Keys, old(sequenceNumber), bumps) ==> tame
    {
      hide Balanced, Extended, Foreign, Apart, Tame, Conditioned, Improved, Covered, BackedFor, Bumped, IsFeasible,
           UpdateSends, Passed, Announce, Windowed, Written;
      NothingWritten(cfg.routerId, selected, now, sources);
      bumps, out := 0, {};
      NotBumped(originated, sequenceNumber);
      NothingToCover(env, now, sources, out);
      ImprovedItself(env, now, sources);
      match CourseOf(cfg.routerId, originated, selected, pendingRequests, recentRequests, key, seqno, hopCount,
                     routerId, now)
      case Answer =>
        if key in originated && routerId != cfg.routerId {
          out := Reply(key, cfg.routerId, Distance(originated[key].seqno, originated[key].metric), requester, now);
        } else {
          out := Reply(key, selected[key].routerId, Distance(selected[key].seqno, selected[key].metric), requester,
                       now);
        }
      case Serve =>
        out, bumps := ServeOwn(key, seqno, now);
      case Refuse =>
      case Forward =>
        out := ForwardRequest(requester, key, seqno, hopCount, routerId, now);
        NothingToCover(env, now, sources, out);
    }

    /** `recompute_candidate_metrics` for some neighbours. */
    method Recompute(who: set<NeighborKey>) returns (changed: bool)
      requires Valid()
      modifies `candidates
      ensures Valid()
      ensures candidates == Reprice(old(candidates), cfg.algebra, neighbors, who)
        && (changed <==> candidates != old(candidates))
    {
      hide Balanced, Extended, Foreign, Apart, Tame, Conditioned, Synced, Subdued, Reprice;
      var priced := Reprice(candidates, cfg.algebra, neighbors, who);
      RepriceIsSubdued(candidates, cfg.algebra, neighbors, who);
      SubduedKeepsAll(env, cfg.routerId, candidates, priced, sources, selected, originated, sequenceNumber, tainted);
      InPlaceKeeps(cfg.limits, neighbors, candidates, neighbors, priced);
      changed := priced != candidates;
      candidates := priced;
    }

    // ----- receiving packets

    /** Hello, RTT and IHU observations of one packet. */
    method Observe(nk: NeighborKey, tlvs: seq<Tlv>, now: u64, sense: Sense)
      requires Valid() && nk.interface in interfaces
      requires nk !in neighbors && HasHello(tlvs) ==> |neighbors| < cfg.limits.maxNeighbors
      modifies `neighbors
      ensures Valid() && OnlyAt(nk, old(neighbors), neighbors)
      ensures nk in neighbors <==> nk in old(neighbors) || HasHello(tlvs)
      ensures var greeted := Greeted(old(neighbors), nk, tlvs, interfaces[nk.interface].policy, sense);
        && (nk in neighbors <==> nk in greeted)
        && (nk in neighbors && nk in greeted ==>
          Heard(greeted[nk], tlvs, interfaces[nk.interface].addresses, now, neighbors[nk]))
    {
      hide Balanced, Extended, Foreign, Apart, Tame, Conditioned, Synced, OnlyAt, HasHello, Greeted, Applies, Heard;
      var local := interfaces[nk.interface].addresses;
      GreetedOnlyAt(neighbors, nk, tlvs, interfaces[nk.interface].policy, sense);
      var now_ := Greeted(neighbors, nk, tlvs, interfaces[nk.interface].policy, sense);
      if nk in now_ {
        var n := HearAll(now_[nk], tlvs, local, now);
        HeardKeepsCount(now_[nk], tlvs, local, now, n);
        OnlyAtTwice(nk, neighbors, now_, n);
        now_ := now_[nk := n];
      }
      OnlyAtKeepsBalance(cfg.limits, neighbors, candidates, nk, now_);
      neighbors := now_;
    }

    /** Observe, then bring this neighbour's candidate metrics up to date. */
    method Listen(nk: NeighborKey, tlvs: seq<Tlv>, now: u64, sense: Sense) returns (changed: bool)
      requires Valid() && Priced(cfg.algebra, neighbors, candidates) && nk.interface in interfaces
      requires nk !in neighbors && HasHello(tlvs) ==> |neighbors| < cfg.limits.maxNeighbors
      modifies `neighbors, `candidates
      ensures Valid() && Priced(cfg.algebra, neighbors, candidates)
      ensures Observed(cfg, interfaces, nk, tlvs, now, sense, old(neighbors), old(candidates), Now())
      ensures Subdued(old(candidates), candidates) && (!changed ==> candidates == old(candidates))
    {
      hide Balanced, Extended, Foreign, Apart, Tame, Conditioned, Synced, OnlyAt, HasHello, Priced, Subdued, LinkCost,
           Reprice, Heard, Greeted;
      ghost var was := neighbors;
      var before := CostOf(neighbors, nk);
      assert Attached(neighbors, candidates) by { BalancedIsAttached(cfg.limits, neighbors, candidates); }
      Observe(nk, tlvs, now, sense);
      changed := false;
      SubduedItself(candidates);
      if before != CostOf(neighbors, nk) {
        CostsElsewhere(was, neighbors, nk);
        RepriceRestores(candidates, cfg.algebra, was, neighbors, {nk});
        RepriceIsSubdued(candidates, cfg.algebra, neighbors, {nk});
        changed := Recompute({nk});
      } else {
        SameCostSamePrices(cfg.algebra, cfg.limits, was, candidates, nk, neighbors);
      }
    }

    /** A route request: one reply, or a full update where the interface has not had one lately. */
    method ServeRouteRequest(nk: NeighborKey, key: Option<RouteKey>, now: u64) returns (out: set<Action>)
      requires Valid() && (tame ==> BackedFor(key, candidates, selected, tainted))
      modifies `sources, `lastFullUpdate
      ensures Valid()
      ensures out == RequestedUpdates(nk, key, now, old(FullUpdateAllowed(nk.interface, now)))
      ensures Written(cfg.routerId, selected, now, old(sources), sources)
      ensures tame ==> Improved(env, now, old(sources), sources) && Covered(env, now, sources, out)
    {
      hide Engine.Valid, Improved, Covered, BackedFor, UpdateSends, Recorded, RouteReply, Written;
      NothingWritten(cfg.routerId, selected, now, sources);
      out := {};
      if key.Some? {
        out := ReplyToRouteRequest(key.value, nk, now);
      } else if FullUpdateAllowed(nk.interface, now) {
        out := SendUpdates(now, None, Some(nk.interface), Some(Urgent(now)));
      } else {
        NothingToCover(env, now, sources, out);
        ImprovedItself(env, now, sources);
      }
    }

    function RequestedUpdates(nk: NeighborKey, key: Option<RouteKey>, now: u64, allowed: bool): set<Action>
      reads `policy, `interfaces, `originated, `selected, `sequenceNumber, `tombstones
    {
      if key.Some? then {RouteReply(Out(), cfg.routerId, originated, selected, sequenceNumber, key.value, nk, now)}
      else if allowed then
        UpdateSends(Out(), originated, selected, tombstones.Keys - originated.Keys, sequenceNumber, None,
                    {nk.interface}, Some(Urgent(now)), now)
      else {}
    }

    /** One route TLV. */
    method ProcessTlv(nk: NeighborKey, tlv: Tlv, now: u64) returns (changed: bool, out: set<Action>, ghost bumps: nat)
      requires Valid() && Priced(cfg.algebra, neighbors, candidates)
      modifies `candidates, `neighbors, `sources, `lastFullUpdate, `pendingRequests, `recentRequests, `sequenceNumber,
               `originated,
               `tame, `tainted
      ensures Valid() && Priced(cfg.algebra, neighbors, candidates)
      ensures tame ==> old(tame) && Improved(env, now, old(sources), sources) && Covered(env, now, sources, out)
      ensures tame && !changed && old(Settled()) ==> Settled()
      ensures bumps <= (if tlv.SeqnoRequest? then 1 else 0)
      ensures Bumped(old(originated), old(sequenceNumber), originated, sequenceNumber, bumps)
      ensures TlvTook(Out(), selected, nk, tlv, now, old(Books()), Books())
      ensures tlv.RouteRequest? ==> out == RequestedUpdates(nk, tlv.requestKey, now,
                                                            old(FullUpdateAllowed(nk.interface, now)))
      ensures tlv.SeqnoRequest? ==> SeqnoHandled(nk, tlv.key, tlv.seqno, tlv.hopCount, tlv.routerId, now, out, bumps)
      ensures StaysTame(env, cfg.routerId, nk, [tlv], old(originated).Keys, old(sequenceNumber), bumps, old(tame), tame)
    {
      hide Balanced, Extended, Foreign, Apart, Tame, Conditioned, Priced, Stable, Improved, Covered, Bumped, Absorbed,
           Unbacked, BackedFor, Acceptable, QualityKept, AllAlike, Engine.RequestedUpdates, CourseOf, AnswerTo,
           UpdateSends, Passed, TaintedBy, WaitsAt, CostOf, Took, TlvTook, Windowed, OwnIn, StaysTame, Written;
      changed, out, bumps := false, {}, 0;
      NotBumped(originated, sequenceNumber);
      NothingToCover(env, now, sources, out);
      ImprovedItself(env, now, sources);
      match tlv
      case Update(u) =>
        changed, out := ReceiveUpdate(nk, u, now);
        TameAfterTlv(env, cfg.routerId, nk, tlv, old(originated).Keys, old(sequenceNumber), bumps, old(tame), tame);
        TookTlv(Out(), selected, nk, u, now, old(Books()), Books(), tlv);
      case RouteRequest(key, _) =>
        changed := true;
        Spoil(key, tlv, nk);
        out := ServeRouteRequest(nk, key, now);
        TameAfterTlv(env, cfg.routerId, nk, tlv, old(originated).Keys, old(sequenceNumber), bumps, old(tame), tame);
        TookRequest(Out(), selected, nk, tlv, now, old(Books()), sources, pendingRequests, tainted);
      case SeqnoRequest(key, seqno, hopCount, routerId, _) =>
        changed := true;
        Spoil(Some(key), tlv, nk);
        out, bumps := HandleSeqnoRequest(nk, key, seqno, hopCount, routerId, now);
        TameAfterTlv(env, cfg.routerId, nk, tlv, old(originated).Keys, old(sequenceNumber), bumps, old(tame), tame);
        TookRequest(Out(), selected, nk, tlv, now, old(Books()), sources, pendingRequests, tainted);
      case _ =>
        TameAfterTlv(env, cfg.routerId, nk, tlv, old(originated).Keys, old(sequenceNumber), bumps, old(tame), tame);
        TookQuietly(Out(), selected, nk, tlv, now, Books());
    }

    ghost function Now(): Snap
      reads `neighbors, `candidates, `sources, `pendingRequests
    {
      Snap(neighbors, candidates, sources, pendingRequests)
    }

    /** Note the keys whose answer the selected route's own offer no longer backs. */
    ghost method Spoil(only: Option<RouteKey>, tlv: Tlv, nk: NeighborKey)
      requires Valid() && !tlv.Update? && forall k :: Wanted(only, k) ==> Asks(tlv, k)
      modifies `tainted
      ensures Valid() && BackedFor(only, candidates, selected, tainted)
      ensures TaintedBy(RulesOf(Out()), CostOf(neighbors, nk), pendingRequests, candidates, selected, nk, tlv,
                        old(tainted), tainted)
    {
      hide Balanced, Extended, Foreign, Apart, Tame, Synced, Conditioned, BackedFor, Backed, TaintedBy, CostOf, Wanted,
           Asks;
      TaintingIsSafe(only, candidates, sources, selected, tainted);
      ghost var more := tainted + Unbacked(only, candidates, selected);
      AskingTaints(RulesOf(Out()), CostOf(neighbors, nk), pendingRequests, candidates, selected, nk, tlv, tainted,
                   more);
      tainted := more;
    }

    predicate FullUpdateAllowed(name: string, now: u64)
      reads this
    {
      var hello := if name in interfaces then interfaces[name].policy.helloIntervalCs else cfg.helloIntervalCs;
      name !in interfaces || name !in lastFullUpdate || SatSub(now, lastFullUpdate[name]) >= hello * 10
    }

    /** All route TLVs of a packet, in order. */
    method ProcessAll(nk: NeighborKey, tlvs: seq<Tlv>, now: u64, dirty: bool, ghost first: Candidates)
      returns (changed: bool, out: set<Action>, rerouted: set<RouteKey>, ghost bumps: nat, ghost trail: seq<Snap>)
      requires Valid() && Priced(cfg.algebra, neighbors, candidates) && (tame && !dirty ==> Settled())
      requires Traced(RulesOf(Out()), first, candidates, nk, [])
      modifies `candidates, `neighbors, `sources, `lastFullUpdate, `pendingRequests, `recentRequests, `sequenceNumber,
               `originated,
               `tame, `tainted
      ensures Valid() && Priced(cfg.algebra, neighbors, candidates)
      ensures tame ==> old(tame) && Going(env, now, old(sources), sources, out)
      ensures tame && !changed ==> Settled()
      ensures bumps <= SeqnoRequests(tlvs) && Bumped(old(originated), old(sequenceNumber), originated, sequenceNumber,
                                                     bumps)
      ensures SoFar(Out(), selected, nk, now, first, old(Books()), tlvs, trail, rerouted, Books())
      ensures StaysTame(env, cfg.routerId, nk, tlvs, old(originated).Keys, old(sequenceNumber), bumps, old(tame), tame)
    {
      hide Engine.Valid, Priced, Stable, Improved, Covered, Traced, Going, Reroutes, TlvTook, Walked, Bumped,
           Engine.SeqnoHandled, Engine.RequestedUpdates, SourcesIn, CandidatesIn, Synced, StaysTame;
      changed, out, rerouted, bumps, trail := dirty, {}, {}, 0, [Now()];
      assert tlvs[..0] == [];
      SyncedNow();
      WalkedStart(Out(), env, selected, nk, now, first, Books(), OwnNow());
      if tame {
        ValidIsIn();
        GoingStart(env, now, sources);
      }
      for i := 0 to |tlvs|
        invariant Valid() && Priced(cfg.algebra, neighbors, candidates)
        invariant tame ==> old(tame) && Going(env, now, old(sources), sources, out)
        invariant tame && !changed ==> Settled()
        invariant Walked(Out(), env, selected, nk, now, first, old(Books()), old(OwnNow()), tlvs[..i], trail, rerouted,
                         bumps, Books(), OwnNow())
      {
        assert tlvs[..i + 1] == tlvs[..i] + [tlvs[i]];
        ghost var b, own, moved := Books(), OwnNow(), rerouted;
        if tlvs[i].Update? && tlvs[i].update.key.Some? && Reroutes(candidates, nk, tlvs[i].update) {
          rerouted := rerouted + {tlvs[i].update.key.value};
        }
        var touched, more, bumped := ProcessTlv(nk, tlvs[i], now);
        WalkedMore(Out(), env, selected, nk, now, first, old(Books()), old(OwnNow()), tlvs[..i], trail, moved, bumps, b,
                   own, tlvs[i], rerouted, bumped, Books(), OwnNow());
        if tame {
          ValidIsIn();
          GoOn(env, now, old(sources), b.sources, sources, out, more);
        }
        trail := trail + [Now()];
        changed, out, bumps := changed || touched, out + more, bumps + bumped;
      }
      assert tlvs[..|tlvs|] == tlvs;
      WalkedEnd(Out(), env, selected, nk, now, first, old(Books()), old(OwnNow()), tlvs, trail, rerouted, bumps,
                Books(), OwnNow());
    }

    ghost function OwnNow(): Own
      reads `originated, `sequenceNumber, `tame
    {
      Own(originated, sequenceNumber, tame)
    }

    /** A candidate changed its router: repeat what is selected, or retract. */
    method AnnounceRerouted(keys: set<RouteKey>, now: u64) returns (out: set<Action>)
      requires Valid() && (tame ==> Settled())
      modifies `sources, `lastFullUpdate
      ensures Valid() && (tame ==> Settled()) && (tame ==> Going(env, now, old(sources), sources, out))
      ensures Readvertised(keys, now, out)
    {
      hide Balanced, Extended, Foreign, Apart, Synced, Conditioned, Stable, Improved, Covered, Going, CandidatesIn,
           SourcesIn, InWindow, BackedFor, AllBacked, UpdateSends, Recorded, Retracts;
      out := {};
      NothingRetracted(Out(), originated, selected, sequenceNumber, now);
      assert Readvertised({}, now, out);
      assert keys - keys == {};
      if tame { GoingStart(env, now, sources); }
      var todo := keys;
      while todo != {}
        invariant todo <= keys && Valid() && (tame ==> Settled())
          && (tame ==> Going(env, now, old(sources), sources, out))
        invariant Readvertised(keys - todo, now, out)
        decreases todo
      {
        var k :| k in todo;
        ghost var s := sources;
        var more: set<Action>;
        if tame {
          StableIsBacked(env, cfg.selection, candidates, sources, selected, memory.pending.Keys);
          BackedEverywhere(Some(k), candidates, selected, tainted);
        }
        if k in originated || k in selected {
          more := SendUpdates(now, Some(k), None, Some(Urgent(now)));
        } else {
          more := Retracts(Out(), {k}, sequenceNumber, now);
          RetractsNothingFinite(Out(), {k}, sequenceNumber, now);
          NothingToCover(env, now, sources, more);
          ImprovedItself(env, now, sources);
        }
        if tame { GoOn(env, now, old(sources), s, sources, out, more); }
        RetractsOneMore(Out(), keys - todo, originated, selected, sequenceNumber, now, k);
        assert keys - (todo - {k}) == (keys - todo) + {k};
        out, todo := out + more, todo - {k};
      }
      assert keys - todo == keys;
    }

    lemma ReadvertisedMore(keys: set<RouteKey>, now: u64, out: set<Action>, more: set<Action>)
      requires Readvertised(keys, now, more)
      ensures Readvertised(keys, now, out + more)
    {
      hide Retracts, Engine.OwnUpdates;
    }

    /** Each of these keys is announced anew where it is selected or originated, and retracted where it is not. */
    ghost predicate Readvertised(keys: set<RouteKey>, now: u64, out: set<Action>)
      reads `policy, `interfaces, `originated, `selected, `sequenceNumber, `tombstones
    {
      && (forall k :: k in keys && (k in originated || k in selected) ==>
        OwnUpdates(Some(k), None, Some(Urgent(now)), now) <= out)
      && Retracts(Out(), keys - originated.Keys - selected.Keys, sequenceNumber, now) <= out
    }

    ghost function Tables(): Stage
      reads `neighbors, `candidates, `sources, `selected, `memory
    {
      Stage(neighbors, candidates, sources, selected, memory)
    }

    ghost function Look(): View
      reads `policy, `interfaces, `neighbors, `candidates, `sources, `pendingRequests, `originated, `sequenceNumber,
            `selected, `tombstones
    {
      View(policy, interfaces, neighbors, candidates, sources, pendingRequests, originated, sequenceNumber, selected,
           tombstones)
    }

    ghost function HoldView(): HoldState
      reads `owed, `clock, `advertisedUntil, `selected, `originated, `tombstones
    {
      HoldState(owed, clock, advertisedUntil, selected, originated, tombstones)
    }

    /** What holds between events, at time `now`. */
    ghost predicate Steady(now: u64)
      reads `neighbors, `candidates, `sources, `originated, `selected, `tombstones, `sequenceNumber, `tame, `tainted,
            `memory, `owed,
            `advertisedUntil
    {
      && Valid() && Priced(cfg.algebra, neighbors, candidates) && (tame ==> Settled())
      && Held(owed, now, advertisedUntil, selected, originated, tombstones, {})
    }

    /** Reselect, with the hold promise kept for all but the exempted keys. */
    method ReselectNow(now: u64, ghost exempt: set<RouteKey>) returns (out: set<Action>)
      requires Valid() && Held(owed, now, advertisedUntil, selected, originated, tombstones, exempt)
      modifies `selected, `memory, `tombstones, `generation, `sources, `pendingRequests, `pendingAdvertisements,
               `tainted
      ensures Valid() && (tame ==> Settled())
        && Held(owed, now, advertisedUntil, selected, originated, tombstones, exempt)
      ensures tame ==> Going(env, now, old(sources), sources, out)
      ensures tainted <= old(tainted)
      ensures Reselected(cfg.selection, candidates, old(sources), old(selected), old(memory), now, selected, memory)
      ensures Written(cfg.routerId, selected, now, old(sources), sources)
      ensures RequestsKept(old(pendingRequests), pendingRequests)
    {
      hide Balanced, Extended, Foreign, Apart, Synced, Conditioned, Stable, Improved, Covered, Going, Held,
           CandidatesIn, SourcesIn, InWindow, Buried, IsLongest, Recorded, Reported, RequestsKept, Reselected,
           AllBacked, Written;
      if tame { GoingStart(env, now, sources); }
      ghost var longest;
      out, longest := Reselect(now);
      HeldAfterReselect(owed, now, advertisedUntil, old(selected), originated, old(tombstones), exempt, candidates,
                        longest, selected, tombstones);
      if tame {
        GoOn(env, now, old(sources), old(sources), sources, {}, out);
        assert {} + out == out;
      }
    }

    /** Reselect if selection inputs changed. */
    method SettleUp(changed: bool, now: u64) returns (out: set<Action>)
      requires Valid() && Priced(cfg.algebra, neighbors, candidates) && (tame && !changed ==> Settled())
      requires Held(owed, now, advertisedUntil, selected, originated, tombstones, {})
      modifies `selected, `memory, `tombstones, `generation, `sources, `pendingRequests, `pendingAdvertisements,
               `tainted
      ensures Steady(now) && (tame ==> Going(env, now, old(sources), sources, out))
      ensures tainted <= old(tainted)
      ensures if changed then Reselected(cfg.selection, candidates, old(sources), old(selected), old(memory), now,
                                         selected, memory)
              else selected == old(selected) && memory == old(memory)
      ensures Written(cfg.routerId, selected, now, old(sources), sources)
      ensures RequestsKept(old(pendingRequests), pendingRequests)
    {
      hide Engine.Valid, Priced, Stable, Going, Held, SourcesIn, CandidatesIn, Reselected, Written;
      NothingWritten(cfg.routerId, selected, now, sources);
      out := {};
      if changed {
        out := ReselectNow(now, {});
      } else if tame {
        ValidIsIn();
        GoingStart(env, now, sources);
      }
    }

    /** `receive`: observations first, then routes, then one reselection if needed. */
    method Receive(interface: string, source: IpAddr, tlvs: seq<Tlv>, now: u64, sense: Sense)
      returns (out: set<Action>, ghost bumps: nat, ghost trail: seq<Snap>)
      requires Steady(now)
      modifies this
      ensures Steady(now) && owed == old(owed) && clock == old(clock) && advertisedUntil == old(advertisedUntil)
      ensures policy == old(policy) && interfaces == old(interfaces)
      ensures tame ==> old(tame) && Going(env, now, old(sources), sources, out)
      ensures bumps <= SeqnoRequests(tlvs) && Bumped(old(originated), old(sequenceNumber), originated, sequenceNumber,
                                                     bumps)
      ensures var nk := NeighborKey(interface, source);
        if old(Admits(cfg, interfaces, neighbors, nk, tlvs)) then
          && PacketTook(Out(), old(selected), nk, tlvs, now, sense, old(tame), old(Books()), trail, neighbors,
                        candidates, tainted)
          && |trail| == |tlvs| + 1 && Readvertised(Rerouted(nk, tlvs, trail), now, out)
          && Concluded(cfg, env, tame, now, trail[|tlvs|], sources, old(selected), old(memory), selected, memory)
        else unchanged(this) && out == {}
      ensures StaysTame(env, cfg.routerId, NeighborKey(interface, source), tlvs, old(originated).Keys,
                        old(sequenceNumber), bumps, old(tame), tame)
    {
      hide Balanced, Extended, Foreign, Apart, Conditioned, Priced, Stable, Bumped, PacketTook, Going, Held,
           CandidatesIn, SourcesIn, InWindow, HasHello, Concluded, Rerouted, Engine.Readvertised, StaysTame;
      var nk := NeighborKey(interface, source);
      if !Admits(cfg, interfaces, neighbors, nk, tlvs) {
        out, bumps, trail := {}, 0, [];
        TameStays(env, cfg.routerId, nk, originated.Keys, sequenceNumber, tame);
        TameKept(env, cfg.routerId, nk, tlvs, originated.Keys, sequenceNumber, 0, tame);
        NotBumped(originated, sequenceNumber);
        if tame { GoingStart(env, now, sources); }
        return;
      }
      out, bumps, trail := ReceiveFrom(nk, tlvs, now, sense);
    }

    method ReceiveFrom(nk: NeighborKey, tlvs: seq<Tlv>, now: u64, sense: Sense)
      returns (out: set<Action>, ghost bumps: nat, ghost trail: seq<Snap>)
      requires Steady(now) && nk.interface in interfaces
      requires nk !in neighbors && HasHello(tlvs) ==> |neighbors| < cfg.limits.maxNeighbors
      modifies `selected, `memory, `tombstones, `generation, `sources, `pendingRequests, `pendingAdvertisements,
               `tainted,
               `neighbors, `candidates, `lastFullUpdate, `recentRequests, `sequenceNumber, `originated, `tame
      ensures Steady(now)
      ensures tame ==> old(tame) && Going(env, now, old(sources), sources, out)
      ensures bumps <= SeqnoRequests(tlvs) && Bumped(old(originated), old(sequenceNumber), originated, sequenceNumber,
                                                     bumps)
      ensures PacketTook(Out(), old(selected), nk, tlvs, now, sense, old(tame), old(Books()), trail, neighbors,
                         candidates, tainted)
      ensures |trail| == |tlvs| + 1 && Readvertised(Rerouted(nk, tlvs, trail), now, out)
      ensures Concluded(cfg, env, tame, now, trail[|tlvs|], sources, old(selected), old(memory), selected, memory)
      ensures StaysTame(env, cfg.routerId, nk, tlvs, old(originated).Keys, old(sequenceNumber), bumps, old(tame), tame)
    {
      hide Engine.Valid, Engine.Steady, Stable, Priced, Bumped, Going, Held, HasHello, PacketTook, Concluded,
           Reselected, Rerouted, Engine.Readvertised, StaysTame;
      var dirty, updates, rerouted;
      dirty, updates, rerouted, bumps, trail := ReceiveRoutes(nk, tlvs, now, sense);
      ghost var s, t := sources, tainted;
      var rest := Conclude(dirty, rerouted, now);
      PacketEnds(Out(), old(selected), nk, tlvs, now, sense, old(tame), old(Books()), trail, neighbors, candidates, t,
                 tainted);
      ConcludesWith(cfg, env, tame, now, trail[|tlvs|], s, sources, old(selected), old(memory), selected, memory, rest,
                    dirty);
      if tame { GoFurther(env, now, old(sources), s, sources, updates, rest); }
      ReadvertisedMore(rerouted, now, updates, rest);
      out := updates + rest;
    }

    method ReceiveRoutes(nk: NeighborKey, tlvs: seq<Tlv>, now: u64, sense: Sense)
      returns (dirty: bool, out: set<Action>, rerouted: set<RouteKey>, ghost bumps: nat, ghost trail: seq<Snap>)
      requires Steady(now) && nk.interface in interfaces
      requires nk !in neighbors && HasHello(tlvs) ==> |neighbors| < cfg.limits.maxNeighbors
      modifies `sources, `pendingRequests, `tainted, `neighbors, `candidates, `lastFullUpdate, `recentRequests,
               `sequenceNumber,
               `originated, `tame
      ensures Valid() && Priced(cfg.algebra, neighbors, candidates) && (tame && !dirty ==> Settled())
      ensures Held(owed, now, advertisedUntil, selected, originated, tombstones, {})
      ensures tame ==> old(tame) && Going(env, now, old(sources), sources, out)
      ensures bumps <= SeqnoRequests(tlvs) && Bumped(old(originated), old(sequenceNumber), originated, sequenceNumber,
                                                     bumps)
      ensures PacketTook(Out(), selected, nk, tlvs, now, sense, old(tame), old(Books()), trail, neighbors, candidates,
                         tainted)
      ensures |trail| == |tlvs| + 1 && trail[|tlvs|] == Now() && rerouted == Rerouted(nk, tlvs, trail)
      ensures StaysTame(env, cfg.routerId, nk, tlvs, old(originated).Keys, old(sequenceNumber), bumps, old(tame), tame)
    {
      hide Engine.Valid, Stable, Priced, Bumped, Going, HasHello, AllBacked, PacketTook, Observed, SoFar, Held,
           Rerouted, StaysTame;
      if tame { ValidIsBacked(); }
      ghost var mid;
      dirty, out, rerouted, bumps, trail, mid := HearAndApply(nk, tlvs, now, sense);
      SoFarEnds(Out(), selected, nk, tlvs, now, sense, old(Books()), mid, trail, rerouted, Books());
      PacketBacked(Out(), selected, nk, tlvs, now, sense, old(tame), old(Books()), trail, neighbors, candidates,
                   tainted);
      HeldSameKeys(owed, now, advertisedUntil, selected, old(originated), originated, tombstones, old(sequenceNumber),
                   sequenceNumber, bumps);
    }

    /** The packet's observations, then its TLVs. */
    method HearAndApply(nk: NeighborKey, tlvs: seq<Tlv>, now: u64, sense: Sense)
      returns (dirty: bool, out: set<Action>, rerouted: set<RouteKey>, ghost bumps: nat, ghost trail: seq<Snap>,
               ghost mid: Ledger)
      requires Valid() && Priced(cfg.algebra, neighbors, candidates) && (tame ==> Settled())
        && nk.interface in interfaces
      requires nk !in neighbors && HasHello(tlvs) ==> |neighbors| < cfg.limits.maxNeighbors
      modifies `sources, `pendingRequests, `tainted, `neighbors, `candidates, `lastFullUpdate, `recentRequests,
               `sequenceNumber,
               `originated, `tame
      ensures Valid() && Priced(cfg.algebra, neighbors, candidates) && (tame && !dirty ==> Settled())
      ensures tame ==> old(tame) && Going(env, now, old(sources), sources, out)
      ensures bumps <= SeqnoRequests(tlvs) && Bumped(old(originated), old(sequenceNumber), originated, sequenceNumber,
                                                     bumps)
      ensures mid.sources == old(sources) && mid.pending == old(pendingRequests) && mid.tainted == old(tainted)
      ensures Observed(cfg, interfaces, nk, tlvs, now, sense, old(neighbors), old(candidates), SnapOf(mid))
      ensures SoFar(Out(), selected, nk, now, old(candidates), mid, tlvs, trail, rerouted, Books())
      ensures StaysTame(env, cfg.routerId, nk, tlvs, old(originated).Keys, old(sequenceNumber), bumps, old(tame), tame)
    {
      hide Engine.Valid, Stable, Priced, Bumped, Traced, Going, Subdued, HasHello, Observed, SoFar, StaysTame;
      TracedStart(RulesOf(Out()), candidates, nk);
      dirty := Listen(nk, tlvs, now, sense);
      ObservedKeys(cfg, interfaces, nk, tlvs, now, sense, old(neighbors), old(candidates), Now());
      TracedSubdue(RulesOf(Out()), old(candidates), old(candidates), candidates, nk, []);
      mid := Books();
      dirty, out, rerouted, bumps, trail := ProcessAll(nk, tlvs, now, dirty, old(candidates));
    }

    /** Reselect if needed, then repeat the keys whose candidate changed its router. */
    method Conclude(dirty: bool, rerouted: set<RouteKey>, now: u64) returns (out: set<Action>)
      requires Valid() && Priced(cfg.algebra, neighbors, candidates) && (tame && !dirty ==> Settled())
      requires Held(owed, now, advertisedUntil, selected, originated, tombstones, {})
      modifies `selected, `memory, `tombstones, `generation, `sources, `pendingRequests, `pendingAdvertisements,
               `tainted, `lastFullUpdate
      ensures Steady(now) && (tame ==> Going(env, now, old(sources), sources, out))
      ensures tainted <= old(tainted)
      ensures if dirty then Reselected(cfg.selection, candidates, old(sources), old(selected), old(memory), now,
                                       selected, memory)
              else selected == old(selected) && memory == old(memory)
      ensures Readvertised(rerouted, now, out)
    {
      hide Engine.Valid, Stable, Priced, Going, Held, Reselected, Written, RequestsKept, Engine.Readvertised;
      var reselected := SettleUp(dirty, now);
      ghost var s := sources;
      var announced := AnnounceRerouted(rerouted, now);
      if tame { GoFurther(env, now, old(sources), s, sources, reselected, announced); }
      ReadvertisedMore(rerouted, now, reselected, announced);
      out := reselected + announced;
    }

    // ----- the clock

    /** Hello timers, silent neighbours and IHU expiry; returns whose link cost may have changed. */
    method AgeNeighbors(now: u64, senses: map<NeighborKey, TickSense>) returns (who: set<NeighborKey>, lost: bool)
      requires Valid() && Priced(cfg.algebra, neighbors, candidates)
      modifies `neighbors, `candidates
      ensures Valid()
      ensures neighbors == Aged(old(neighbors), senses, Silent(old(neighbors), senses), now)
      ensures candidates == WithoutNeighbors(old(candidates), Silent(old(neighbors), senses))
      ensures who == Noted(old(neighbors), senses, now) && CostsKept(old(neighbors), neighbors, who)
      ensures Subdued(old(candidates), candidates) && (!lost ==> candidates == old(candidates))
      ensures Priced(cfg.algebra, old(neighbors), candidates)
    {
      hide Balanced, Extended, Foreign, Apart, Tame, Conditioned, Synced, Subdued, Priced, CostsKept, Noted, Aged,
           LinkCost, Silent;
      who := Noted(neighbors, senses, now);
      var silent := Silent(neighbors, senses);
      lost := silent != {};
      var left := WithoutNeighbors(candidates, silent);
      AgingIsBalanced(cfg.limits, neighbors, candidates, senses, silent, now);
      AgingNotesCosts(neighbors, senses, silent, now);
      BalancedIsAttached(cfg.limits, neighbors, candidates);
      DroppingIsSubdued(neighbors, candidates, silent);
      FewerStayPriced(cfg.algebra, neighbors, candidates, left);
      SubduedKeepsAll(env, cfg.routerId, candidates, left, sources, selected, originated, sequenceNumber, tainted);
      candidates, neighbors := left, Aged(neighbors, senses, silent, now);
    }

    /** Expired candidates: reachable ones become unreachable, unreachable ones go. */
    method AgeCandidates(now: u64, ghost prices: Neighbors) returns (aged: bool)
      requires Valid() && Priced(cfg.algebra, prices, candidates)
      modifies `neighbors, `candidates
      ensures Valid() && Priced(cfg.algebra, prices, candidates)
      ensures QualityKept(old(neighbors), neighbors) && Subdued(old(candidates), candidates)
      ensures candidates == LapseKeys(old(candidates), ExpiredCandidates(old(candidates), now), now)
      ensures !aged ==> candidates == old(candidates)
    {
      hide Balanced, Extended, Foreign, Apart, Tame, Conditioned, Synced, Subdued, Priced, QualityKept, LapseKeys;
      var todo := ExpiredCandidates(candidates, now);
      ghost var expired := todo;
      aged := todo != {};
      QualityItself(neighbors);
      SubduedItself(candidates);
      LapseNone(candidates, now);
      assert expired - todo == {};
      while todo != {}
        invariant Valid() && Priced(cfg.algebra, prices, candidates)
        invariant QualityKept(old(neighbors), neighbors) && Subdued(old(candidates), candidates)
        invariant todo <= expired && candidates == LapseKeys(old(candidates), expired - todo, now)
        decreases todo
      {
        var ck :| ck in todo;
        ghost var c, n := candidates, neighbors;
        LapseOne(old(candidates), expired - todo, ck, now);
        assert expired - (todo - {ck}) == (expired - todo) + {ck};
        if candidates[ck].metric == INFINITY {
          RemoveIsSubdued(candidates, {ck});
          FewerStayPriced(cfg.algebra, prices, candidates, candidates - {ck});
          var removed := RemoveCandidate(ck);
          QualityTwice(old(neighbors), n, neighbors);
        } else {
          LapseIsSubdued(candidates, ck, now);
          LapseStaysPriced(cfg.algebra, prices, candidates, ck, now);
          var lapsed := candidates[ck := Lapse(candidates[ck], now)];
          SubduedKeepsAll(env, cfg.routerId, candidates, lapsed, sources, selected, originated, sequenceNumber,
                          tainted);
          InPlaceKeeps(cfg.limits, neighbors, candidates, neighbors, lapsed);
          candidates := lapsed;
        }
        SubduedTwice(old(candidates), c, candidates);
        todo := todo - {ck};
      }
      assert expired - todo == expired;
    }

    /** Neighbours, candidates and metrics brought up to `now`; says whether selection inputs changed. */
    method AgeRoutes(now: u64, senses: map<NeighborKey, TickSense>) returns (dirty: bool)
      requires Valid() && Priced(cfg.algebra, neighbors, candidates)
      modifies `neighbors, `candidates
      ensures Valid() && Priced(cfg.algebra, neighbors, candidates)
      ensures Subdued(old(candidates), candidates) && (!dirty ==> candidates == old(candidates))
      ensures candidates == AfterClock(old(candidates), cfg.algebra, old(neighbors), neighbors, senses, now)
      ensures QualityKept(Aged(old(neighbors), senses, Silent(old(neighbors), senses), now), neighbors)
    {
      hide Engine.Valid, Subdued, Priced, QualityKept, CostsKept, Reprice, Noted, Balanced, LapseKeys, Aged, Silent,
           WithoutNeighbors;
      ghost var n0, c0 := neighbors, candidates;
      assert Balanced(cfg.limits, neighbors, candidates) by { ValidIsBalanced(); }
      var who, lost := AgeNeighbors(now, senses);
      ghost var n1, c1 := neighbors, candidates;
      var aged := AgeCandidates(now, n0);
      ghost var c2 := candidates;
      SubduedTwice(c0, c1, c2);
      RepricedAfterAging(cfg.algebra, cfg.limits, n0, c0, n1, neighbors, c2, who);
      RepriceIsSubdued(c2, cfg.algebra, neighbors, who);
      var repriced := Recompute(who);
      SubduedTwice(c0, c2, candidates);
      dirty := lost || aged || repriced;
    }

    lemma ValidIsBalanced()
      requires Valid()
      ensures Balanced(cfg.limits, neighbors, candidates)
    {
    }

    /** Tombstones, lifetimes, sources and recent requests that have run out. */
    method AgeTables(now: u64) returns (dirty: bool)
      requires Valid() && Held(owed, now, advertisedUntil, selected, originated, tombstones, {})
      modifies `tombstones, `advertisedUntil, `sources, `recentRequests
      ensures Valid() && Held(owed, now, advertisedUntil, selected, originated, tombstones, {})
      ensures sources == Collect(old(sources), now)
      ensures tombstones == StillDue(old(tombstones), now) && advertisedUntil == StillDue(old(advertisedUntil), now)
      ensures recentRequests == StillRecent(old(recentRequests), now)
      ensures !dirty ==> sources == old(sources)
    {
      hide Balanced, Extended, Foreign, Apart, Tame, Conditioned, Synced, Held, Collect, StillDue, StillRecent, Shrank;
      var live, until, kept := StillDue(tombstones, now), StillDue(advertisedUntil, now), Collect(sources, now);
      ExpiryKeepsHeld(owed, now, advertisedUntil, selected, originated, tombstones, {});
      ApartStillDue(selected, tombstones, now);
      CollectKeeps(env, cfg.routerId, candidates, sources, selected, originated, sequenceNumber, tainted, now);
      dirty := Shrank(tombstones, live) || Shrank(sources, kept);
      tombstones, advertisedUntil, sources, recentRequests := live, until, kept, StillRecent(recentRequests, now);
    }

    /** Retry due seqno requests, or give them up after the last retry. */
    method RetryRequests(now: u64) returns (out: set<Action>)
      modifies `pendingRequests, `recentRequests
      ensures out == Retries(old(pendingRequests), now)
      ensures pendingRequests == Retried(old(pendingRequests), now)
      ensures Closed(old(pendingRequests), pendingRequests, old(recentRequests), recentRequests, now)
    {
      out := Retries(pendingRequests, now);
      recentRequests := recentRequests
        + map sk | sk in pendingRequests && IsDue(pendingRequests[sk], now) && pendingRequests[sk].retriesLeft == 0 ::
            (pendingRequests[sk].seqno, SatAdd(now, RECENT_REQUEST_MS));
      pendingRequests := Retried(pendingRequests, now);
    }

    /** Repeat recent changes a few times. */
    method RepeatDue(now: u64) returns (out: set<Action>)
      requires Valid() && (tame ==> Settled())
      modifies `sources, `lastFullUpdate, `pendingAdvertisements
      ensures Valid() && (tame ==> Settled()) && (tame ==> Going(env, now, old(sources), sources, out))
      ensures pendingAdvertisements == CountedDown(old(pendingAdvertisements), now)
      ensures forall k :: k in old(pendingAdvertisements) && now >= old(pendingAdvertisements)[k].0 ==>
        OwnUpdates(Some(k), None, Some(Urgent(now)), now) <= out
    {
      hide Balanced, Extended, Foreign, Apart, Synced, Conditioned, Stable, Improved, Covered, Going, CandidatesIn,
           SourcesIn, InWindow, BackedFor, AllBacked, UpdateSends, Recorded;
      out := {};
      if tame { GoingStart(env, now, sources); }
      var todo := set k | k in pendingAdvertisements && now >= pendingAdvertisements[k].0;
      ghost var due := todo;
      pendingAdvertisements := CountedDown(pendingAdvertisements, now);
      while todo != {}
        invariant Valid() && (tame ==> Settled()) && (tame ==> Going(env, now, old(sources), sources, out))
        invariant todo <= due && pendingAdvertisements == CountedDown(old(pendingAdvertisements), now)
        invariant forall k :: k in due - todo ==> OwnUpdates(Some(k), None, Some(Urgent(now)), now) <= out
        decreases todo
      {
        var k :| k in todo;
        ghost var s := sources;
        if tame {
          StableIsBacked(env, cfg.selection, candidates, sources, selected, memory.pending.Keys);
          BackedEverywhere(Some(k), candidates, selected, tainted);
        }
        var more := SendUpdates(now, Some(k), None, Some(Urgent(now)));
        if tame { GoOn(env, now, old(sources), s, sources, out, more); }
        out, todo := out + more, todo - {k};
      }
    }

    /** The announcements a pass makes, for one key or all, on one interface or all. */
    function OwnUpdates(only: Option<RouteKey>, interface: Option<string>, deadline: Option<u64>, now: u64): set<Action>
      reads `policy, `interfaces, `originated, `selected, `sequenceNumber, `tombstones
    {
      UpdateSends(Out(), originated, selected, tombstones.Keys - originated.Keys, sequenceNumber, only,
                  if interface.Some? then {interface.value} else interfaces.Keys, deadline, now)
    }

    /** Full updates on every interface whose period is up. */
    method PeriodicUpdates(now: u64) returns (out: set<Action>)
      requires Valid() && (tame ==> Settled())
      modifies `sources, `lastFullUpdate, `interfaces
      ensures Valid() && (tame ==> Settled()) && (tame ==> Going(env, now, old(sources), sources, out))
      ensures interfaces == Rescheduled(old(interfaces), now)
      ensures forall n :: n in old(interfaces) && UpdateDue(old(interfaces)[n], now) ==>
        OwnUpdates(None, Some(n), Some(old(interfaces)[n].nextUpdate), now) <= out
    {
      hide Balanced, Extended, Foreign, Apart, Synced, Conditioned, Stable, Improved, Covered, Going, CandidatesIn,
           SourcesIn, InWindow, BackedFor, AllBacked, UpdateSends, Recorded, Rescheduled, UpdateDue;
      out := {};
      if tame { GoingStart(env, now, sources); }
      var was, todo := interfaces, set n | n in interfaces && UpdateDue(interfaces[n], now);
      ghost var due := todo;
      interfaces := Rescheduled(interfaces, now);
      while todo != {}
        invariant Valid() && (tame ==> Settled()) && (tame ==> Going(env, now, old(sources), sources, out))
        invariant todo <= due && interfaces == Rescheduled(was, now)
        invariant forall n :: n in due - todo ==> OwnUpdates(None, Some(n), Some(was[n].nextUpdate), now) <= out
        decreases todo
      {
        var n :| n in todo;
        ghost var s := sources;
        if tame {
          StableIsBacked(env, cfg.selection, candidates, sources, selected, memory.pending.Keys);
          BackedEverywhere(None, candidates, selected, tainted);
        }
        var more := SendUpdates(now, None, Some(n), Some(was[n].nextUpdate));
        if tame { GoOn(env, now, old(sources), s, sources, out, more); }
        out, todo := out + more, todo - {n};
      }
    }

    /** Everything brought up to `now`; says whether selection inputs changed. */
    method Age(now: u64, senses: map<NeighborKey, TickSense>) returns (dirty: bool)
      requires Steady(now)
      modifies `neighbors, `candidates, `tombstones, `sources, `advertisedUntil, `recentRequests
      ensures Valid() && Priced(cfg.algebra, neighbors, candidates) && (tame && !dirty ==> Settled())
      ensures Held(owed, now, advertisedUntil, selected, originated, tombstones, {})
      ensures Subdued(old(candidates), candidates) && (tame ==> Going(env, now, old(sources), sources, {}))
      ensures candidates == AfterClock(old(candidates), cfg.algebra, old(neighbors), neighbors, senses, now)
      ensures QualityKept(Aged(old(neighbors), senses, Silent(old(neighbors), senses), now), neighbors)
      ensures sources == Collect(old(sources), now)
    {
      hide Engine.Valid, Stable, Priced, Going, Held, Subdued, Collect, StillDue, SourcesIn, AfterClock, Aged, Silent,
           QualityKept;
      if tame {
        ValidIsIn();
        CollectGoes(env, now, sources);
      }
      var routes := AgeRoutes(now, senses);
      var tables := AgeTables(now);
      dirty := routes || tables;
    }

    /** The first half of `tick`: age everything, then reselect if anything that matters changed. */
    method TickRoutes(now: u64, senses: map<NeighborKey, TickSense>) returns (out: set<Action>)
      requires Steady(now)
      modifies `neighbors, `candidates, `selected, `memory, `tombstones, `generation, `sources, `pendingRequests,
               `pendingAdvertisements,
               `tainted, `advertisedUntil, `recentRequests
      ensures Steady(now) && (tame ==> Going(env, now, old(sources), sources, out))
      ensures Subdued(old(candidates), candidates)
      ensures tainted <= old(tainted)
      ensures candidates == AfterClock(old(candidates), cfg.algebra, old(neighbors), neighbors, senses, now)
      ensures QualityKept(Aged(old(neighbors), senses, Silent(old(neighbors), senses), now), neighbors)
      ensures ClockLook(cfg.selection, now, candidates, old(sources), old(selected), old(memory), selected, memory)
      ensures RequestsKept(old(pendingRequests), pendingRequests)
    {
      hide Engine.Valid, Stable, Priced, Going, Held, Subdued, AfterClock, Aged, Silent, QualityKept,
           Reselected, Collect, Written, RequestsKept;
      var wasTombstones := |tombstones|;
      var dirty := Age(now, senses);
      ghost var s := sources;
      var reselected := SettleUp(dirty || memory.pending != map[], now);
      var snapshot: set<Action> := {};
      if wasTombstones != |tombstones| && !Snapshots(reselected) {
        generation := (generation + 1) % 0x1_0000_0000_0000_0000;
        snapshot := {RoutesChanged(generation, selected, tombstones.Keys)};
      }
      out := reselected + snapshot;
      if tame { GoAged(env, now, old(sources), s, sources, reselected, snapshot); }
    }

    lemma ValidIsIn()
      requires Valid() && tame
      ensures SourcesIn(env, sources) && CandidatesIn(env, candidates)
    {
    }

    /** Repeats and periodic updates that are due. */
    method TickUpdates(now: u64) returns (out: set<Action>)
      requires Steady(now)
      modifies `sources, `pendingAdvertisements, `lastFullUpdate, `interfaces
      ensures Steady(now) && (tame ==> Going(env, now, old(sources), sources, out))
      ensures pendingAdvertisements == CountedDown(old(pendingAdvertisements), now)
        && interfaces == Rescheduled(old(interfaces), now)
    {
      hide Engine.Valid, Stable, Priced, Going, Held, CountedDown, Rescheduled, UpdateDue, UpdateSends, SourcesIn,
           Engine.OwnUpdates;
      var repeats := RepeatDue(now);
      ghost var s := sources;
      var periodic := PeriodicUpdates(now);
      out := repeats + periodic;
      if tame { GoFurther(env, now, old(sources), s, sources, repeats, periodic); }
    }

    /** The second half of `tick`: retries, repeats and periodic updates. */
    method TickSends(now: u64) returns (out: set<Action>)
      requires Steady(now)
      modifies `sources, `pendingRequests, `pendingAdvertisements, `recentRequests, `lastFullUpdate, `interfaces
      ensures Steady(now) && (tame ==> Going(env, now, old(sources), sources, out))
      ensures pendingRequests == Retried(old(pendingRequests), now) && Retries(old(pendingRequests), now) <= out
      ensures pendingAdvertisements == CountedDown(old(pendingAdvertisements), now)
        && interfaces == Rescheduled(old(interfaces), now)
    {
      hide Engine.Steady, Going, Retries, Retried, CountedDown, Rescheduled, Closed;
      var retries := RetryRequests(now);
      RetriesSendNothing(old(pendingRequests), now);
      var updates := TickUpdates(now);
      out := updates + retries;
      if tame { GoQuietly(env, now, old(sources), sources, updates, retries); }
    }

    method Tick(now: u64, senses: map<NeighborKey, TickSense>) returns (out: set<Action>)
      requires Steady(now)
      modifies `neighbors, `candidates, `selected, `memory, `tombstones, `generation, `sources, `pendingRequests,
               `pendingAdvertisements,
               `tainted, `advertisedUntil, `recentRequests, `lastFullUpdate, `interfaces
      ensures Steady(now) && (tame ==> Going(env, now, old(sources), sources, out))
      ensures Subdued(old(candidates), candidates)
      ensures tainted <= old(tainted)
      ensures candidates == AfterClock(old(candidates), cfg.algebra, old(neighbors), neighbors, senses, now)
      ensures QualityKept(Aged(old(neighbors), senses, Silent(old(neighbors), senses), now), neighbors)
      ensures interfaces == Rescheduled(old(interfaces), now)
      ensures ClockLook(cfg.selection, now, candidates, old(sources), old(selected), old(memory), selected, memory)
      ensures RequestsRan(old(pendingRequests), now, pendingRequests, out)
    {
      hide Engine.Valid, Stable, Priced, Going, Held, Subdued, AfterClock, Aged, Silent, QualityKept, Rescheduled,
           CountedDown, Retries, Retried, ClockLook, RequestsKept;
      var routes := TickRoutes(now, senses);
      ghost var s, asked := sources, pendingRequests;
      var sends := TickSends(now);
      if tame { GoFurther(env, now, old(sources), s, sources, routes, sends); }
      out := routes + sends;
      RanWith(old(pendingRequests), asked, now, pendingRequests, out);
    }

    // ----- interface events

    /** Forget some neighbours and everything learned from them. */
    method DropNeighbors(gone: set<NeighborKey>)
      requires Valid() && Priced(cfg.algebra, neighbors, candidates)
      modifies `neighbors, `candidates
      ensures Valid() && Priced(cfg.algebra, neighbors, candidates) && Subdued(old(candidates), candidates)
      ensures neighbors == old(neighbors) - gone && candidates == WithoutNeighbors(old(candidates), gone)
    {
      hide Balanced, Extended, Foreign, Apart, Tame, Conditioned, Synced, Subdued, Priced, WithoutNeighbors;
      DroppedFacts(cfg.limits, cfg.algebra, neighbors, candidates, gone);
      SubduedKeepsAll(env, cfg.routerId, candidates, WithoutNeighbors(candidates, gone), sources, selected, originated,
                      sequenceNumber, tainted);
      candidates, neighbors := WithoutNeighbors(candidates, gone), neighbors - gone;
    }

    /** Announce with a selection that is settled, so that nothing stale is said. */
    method SendSettled(now: u64, only: Option<RouteKey>, interface: Option<string>, deadline: Option<u64>)
      returns (out: set<Action>)
      requires Valid() && (tame ==> Settled())
      modifies `sources, `lastFullUpdate
      ensures Valid() && (tame ==> Settled()) && (tame ==> Going(env, now, old(sources), sources, out))
      ensures out == OwnUpdates(only, interface, deadline, now)
      ensures Written(cfg.routerId, selected, now, old(sources), sources)
    {
      hide Balanced, Extended, Foreign, Apart, Synced, Conditioned, Stable, Improved, Covered, Going, CandidatesIn,
           SourcesIn, InWindow, BackedFor, AllBacked, UpdateSends, Recorded, Written;
      if tame {
        GoingStart(env, now, sources);
        StableIsBacked(env, cfg.selection, candidates, sources, selected, memory.pending.Keys);
        BackedEverywhere(only, candidates, selected, tainted);
      }
      out := SendUpdates(now, only, interface, deadline);
      if tame {
        GoOn(env, now, old(sources), old(sources), sources, {}, out);
        assert {} + out == out;
      }
    }

    method InterfaceUp(name: string, addresses: seq<IpAddr>, ifacePolicy: InterfacePolicy, now: u64,
                       senses: map<NeighborKey, TickSense>)
      returns (out: set<Action>)
      requires Steady(now)
      modifies `neighbors, `candidates, `selected, `memory, `tombstones, `generation, `sources, `pendingRequests,
               `pendingAdvertisements,
               `tainted, `advertisedUntil, `recentRequests, `lastFullUpdate, `interfaces
      ensures Steady(now) && (tame ==> Going(env, now, old(sources), sources, out))
        && Subdued(old(candidates), candidates)
      ensures tainted <= old(tainted)
      ensures interfaces == Rescheduled(if name in old(interfaces) then old(interfaces)
                                        else old(interfaces)[name := Interface(addresses, ifacePolicy, now)], now)
      ensures candidates == AfterClock(old(candidates), cfg.algebra, old(neighbors), neighbors, senses, now)
      ensures QualityKept(Aged(old(neighbors), senses, Silent(old(neighbors), senses), now), neighbors)
      ensures ClockLook(cfg.selection, now, candidates, old(sources), old(selected), old(memory), selected, memory)
      ensures RequestsRan(old(pendingRequests), now, pendingRequests, out)
    {
      hide Engine.Steady, Going, Subdued, Rescheduled, AfterClock, Aged, Silent, QualityKept, ClockLook,
           RequestsRan;
      if name !in interfaces {
        interfaces := interfaces[name := Interface(addresses, ifacePolicy, now)];
        lastFullUpdate := lastFullUpdate - {name};
      }
      out := Tick(now, senses);
    }

    method InterfaceAddressesChanged(name: string, addresses: seq<IpAddr>, now: u64) returns (out: set<Action>)
      requires Steady(now)
      modifies `sources, `lastFullUpdate, `interfaces
      ensures Steady(now) && (tame ==> Going(env, now, old(sources), sources, out))
      ensures interfaces == if name in old(interfaces) then
        old(interfaces)[name := old(interfaces)[name].(addresses := addresses)] else old(interfaces)
      ensures out == if name in old(interfaces) && old(interfaces)[name].addresses == addresses then {}
                     else OwnUpdates(None, Some(name), Some(Urgent(now)), now)
    {
      hide Engine.Valid, Stable, Priced, Going, Held, SourcesIn, CandidatesIn, UpdateSends, Engine.OwnUpdates;
      if name in interfaces {
        if interfaces[name].addresses == addresses {
          if tame {
            ValidIsIn();
            GoingStart(env, now, sources);
          }
          return {};
        }
        interfaces := interfaces[name := interfaces[name].(addresses := addresses)];
        lastFullUpdate := lastFullUpdate - {name};
      }
      out := SendSettled(now, None, Some(name), Some(Urgent(now)));
    }

    method InterfaceDown(name: string, now: u64) returns (out: set<Action>)
      requires Steady(now)
      modifies `interfaces, `neighbors, `candidates, `selected, `memory, `tombstones, `generation, `sources,
               `pendingRequests,
               `pendingAdvertisements, `tainted
      ensures Steady(now) && (tame ==> Going(env, now, old(sources), sources, out))
        && Subdued(old(candidates), candidates)
      ensures interfaces == old(interfaces) - {name} && forall nk :: nk in neighbors ==> nk.interface != name
      ensures tainted <= old(tainted)
      ensures neighbors == old(neighbors) - OnInterface(old(neighbors), name)
        && candidates == WithoutNeighbors(old(candidates), OnInterface(old(neighbors), name))
      ensures Reselected(cfg.selection, candidates, old(sources), old(selected), old(memory), now, selected, memory)
    {
      hide Engine.Valid, Stable, Priced, Going, Held, Subdued, WithoutNeighbors, Reselected, Written,
           RequestsKept;
      interfaces := interfaces - {name};
      DropNeighbors(OnInterface(neighbors, name));
      out := SettleUp(true, now);
    }

    /** Rebuild metric state on an interface and reprice every candidate. */
    method ResetMetrics(name: string, etx: bool, senses: map<NeighborKey, TickSense>) returns (changed: bool)
      requires Valid()
      modifies `neighbors, `candidates
      ensures Valid() && Priced(cfg.algebra, neighbors, candidates)
      ensures neighbors == Rebuilt(old(neighbors), name, etx, senses)
      ensures candidates == Reprice(old(candidates), cfg.algebra, neighbors, neighbors.Keys)
      ensures Subdued(old(candidates), candidates) && (!changed ==> candidates == old(candidates))
    {
      hide Balanced, Extended, Foreign, Apart, Tame, Conditioned, Synced, Subdued, Priced, Rebuilt, Reprice;
      RebuiltIsBalanced(cfg.limits, neighbors, candidates, name, etx, senses);
      neighbors := Rebuilt(neighbors, name, etx, senses);
      RepriceAll(cfg.algebra, cfg.limits, neighbors, candidates);
      RepriceIsSubdued(candidates, cfg.algebra, neighbors, neighbors.Keys);
      changed := Recompute(neighbors.Keys);
    }

    /** The transport changed: the old family's adjacencies are gone. */
    method SwitchTransport(name: string, now: u64) returns (out: set<Action>)
      requires Steady(now)
      modifies `neighbors, `candidates, `selected, `memory, `tombstones, `generation, `sources, `pendingRequests,
               `pendingAdvertisements, `tainted
      ensures Steady(now) && (tame ==> Going(env, now, old(sources), sources, out))
        && Subdued(old(candidates), candidates)
      ensures tainted <= old(tainted)
      ensures neighbors == old(neighbors) - OnInterface(old(neighbors), name)
        && candidates == WithoutNeighbors(old(candidates), OnInterface(old(neighbors), name))
      ensures Moved(cfg, now, name, old(Tables()), Tables()) && RequestsKept(old(pendingRequests), pendingRequests)
    {
      hide Engine.Valid, Stable, Priced, Going, Held, Subdued, WithoutNeighbors, OnInterface, Reselected,
           Written, RequestsKept;
      DropNeighbors(OnInterface(neighbors, name));
      out := SettleUp(true, now);
    }

    method ResetAndSettle(name: string, etx: bool, senses: map<NeighborKey, TickSense>, now: u64)
      returns (out: set<Action>)
      requires Steady(now)
      modifies `neighbors, `candidates, `selected, `memory, `tombstones, `generation, `sources, `pendingRequests,
               `pendingAdvertisements, `tainted
      ensures Steady(now) && (tame ==> Going(env, now, old(sources), sources, out))
        && Subdued(old(candidates), candidates)
      ensures tainted <= old(tainted)
      ensures neighbors == Rebuilt(old(neighbors), name, etx, senses)
      ensures Restarted(cfg, now, name, etx, senses, old(Tables()), Tables())
      ensures RequestsKept(old(pendingRequests), pendingRequests)
    {
      hide Engine.Valid, Stable, Priced, Going, Held, Subdued, Rebuilt, Reprice, Reselected, Written,
           RequestsKept;
      var changed := ResetMetrics(name, etx, senses);
      out := SettleUp(changed, now);
    }

    lemma StartingOut(now: u64)
      requires Steady(now) && tame
      ensures Going(env, now, sources, sources, {})
    {
      hide Engine.Valid, Stable, Priced, Going, Held, SourcesIn, CandidatesIn;
      ValidIsIn();
      GoingStart(env, now, sources);
    }

    /** The part of `interface_policy_changed` before its tick. */
    method ApplyPolicy(name: string, ifacePolicy: InterfacePolicy, resetMetric: bool, now: u64,
                       senses: map<NeighborKey, TickSense>)
      returns (out: set<Action>, ghost moved: Stage)
      requires Steady(now) && name in interfaces
      modifies `interfaces, `lastFullUpdate, `neighbors, `candidates, `selected, `memory, `tombstones, `generation,
               `sources, `pendingRequests, `pendingAdvertisements, `tainted
      ensures Steady(now) && (tame ==> Going(env, now, old(sources), sources, out))
      ensures Subdued(old(candidates), candidates) && tainted <= old(tainted)
      ensures interfaces == old(interfaces)[name := old(interfaces)[name].(policy := ifacePolicy, nextUpdate := now)]
      ensures if old(interfaces)[name].policy.v4Transport != ifacePolicy.v4Transport then
                Moved(cfg, now, name, old(Tables()), moved)
              else moved == old(Tables())
      ensures if resetMetric then Restarted(cfg, now, name, ifacePolicy.etx, senses, moved, Tables())
              else Tables() == moved
      ensures RequestsKept(old(pendingRequests), pendingRequests)
    {
      hide Engine.Steady, Going, Subdued, Moved, Restarted, Rebuilt, WithoutNeighbors, OnInterface;
      var transportChanged := interfaces[name].policy.v4Transport != ifacePolicy.v4Transport;
      interfaces := interfaces[name := interfaces[name].(policy := ifacePolicy, nextUpdate := now)];
      lastFullUpdate := lastFullUpdate - {name};
      out := {};
      SubduedItself(candidates);
      if tame { StartingOut(now); }
      if transportChanged { out := SwitchTransport(name, now); }
      moved := Tables();
      if resetMetric {
        ghost var c, s, p := candidates, sources, pendingRequests;
        var more := ResetAndSettle(name, ifacePolicy.etx, senses, now);
        KeptTwice(old(pendingRequests), p, pendingRequests);
        SubduedTwice(old(candidates), c, candidates);
        if tame { GoFurther(env, now, old(sources), s, sources, out, more); }
        out := out + more;
      }
    }

    method InterfacePolicyChanged(ev: Event) returns (out: set<Action>)
      requires Steady(ev.now) && ev.InterfacePolicyChanged?
      modifies `neighbors, `candidates, `selected, `memory, `tombstones, `generation, `sources, `pendingRequests,
               `pendingAdvertisements, `tainted, `advertisedUntil, `recentRequests, `lastFullUpdate, `interfaces
      ensures Steady(ev.now) && (tame ==> Going(env, ev.now, old(sources), sources, out))
      ensures Subdued(old(candidates), candidates) && tainted <= old(tainted)
      ensures interfaces == PolicyPut(old(interfaces), ev.name, ev.ifacePolicy, ev.now)
      ensures Evolved(cfg, ev, old(Look()), old(memory), Look(), memory)
      ensures Ticks(old(interfaces), ev) ==> RequestsRan(old(pendingRequests), ev.now, pendingRequests, out)
    {
      hide Engine.Steady, Going, Subdued, Rescheduled, Moved, Restarted, RanOn, RequestsKept, RequestsRan;
      var now := ev.now;
      if ev.name !in interfaces {
        SubduedItself(candidates);
        if tame { StartingOut(now); }
        return {};
      }
      var applied;
      ghost var x, y, told, c, s, p;
      applied, x := ApplyPolicy(ev.name, ev.ifacePolicy, ev.resetMetric, now, ev.senses);
      y, c, s, p := Tables(), candidates, sources, pendingRequests;
      var rest;
      rest, told := SendAndTick(ev.name, now, ev.ticks);
      SubduedTwice(old(candidates), c, candidates);
      if tame { GoFurther(env, now, old(sources), s, sources, applied, rest); }
      out := applied + rest;
      RanAfter(old(pendingRequests), p, now, pendingRequests, rest, out);
      assert Restaged(cfg, ev, old(Look()).interfaces, StageOf(old(Look()), old(memory)), x, y, told,
                      StageOf(Look(), memory));
    }

    method SendAndTick(name: string, now: u64, ticks: map<NeighborKey, TickSense>)
      returns (out: set<Action>, ghost told: Sources)
      requires Steady(now)
      modifies `neighbors, `candidates, `selected, `memory, `tombstones, `generation, `sources, `pendingRequests,
               `pendingAdvertisements, `tainted, `advertisedUntil, `recentRequests, `lastFullUpdate, `interfaces
      ensures Steady(now) && (tame ==> Going(env, now, old(sources), sources, out))
      ensures Subdued(old(candidates), candidates) && tainted <= old(tainted)
      ensures interfaces == Rescheduled(old(interfaces), now)
      ensures RanOn(cfg, now, ticks, old(Tables()), told, Tables())
      ensures RequestsRan(old(pendingRequests), now, pendingRequests, out)
    {
      hide Engine.Valid, Stable, Priced, Going, Held, Subdued, UpdateSends, Rescheduled, AfterClock, Aged, Silent,
           QualityKept, Engine.OwnUpdates, ClockLook, Written, RequestsRan, RequestsKept;
      var sends := SendSettled(now, None, Some(name), Some(Urgent(now)));
      told := sources;
      var ticked := Tick(now, ticks);
      if tame { GoFurther(env, now, old(sources), told, sources, sends, ticked); }
      out := sends + ticked;
      KeptItself(old(pendingRequests));
      RanAfter(old(pendingRequests), old(pendingRequests), now, pendingRequests, ticked, out);
    }

    // ----- origin events

    /** `route_snapshot`. */
    method Snapshot() returns (out: set<Action>)
      modifies `generation
      ensures out == {RoutesChanged(generation, selected, tombstones.Keys)}
    {
      generation := (generation + 1) % 0x1_0000_0000_0000_0000;
      out := {RoutesChanged(generation, selected, tombstones.Keys)};
    }

    /** A new sequence number where one is needed. */
    method BumpIf(needed: bool) returns (out: set<Action>, ghost bumps: nat)
      requires Valid()
      modifies `originated, `sequenceNumber, `tame
      ensures Valid() && (tame ==> old(tame)) && bumps == (if needed then 1 else 0)
      ensures Bumped(old(originated), old(sequenceNumber), originated, sequenceNumber, bumps)
      ensures out == if needed then {SequenceNumberChanged(sequenceNumber)} else {}
      ensures old(tame) && Windowed(env, cfg.routerId, old(originated).Keys, old(sequenceNumber), bumps) ==> tame
    {
      hide Engine.Valid, Bumped, InWindow, Windowed;
      out, bumps := {}, 0;
      SyncedNotBumped();
      if needed {
        Bump();
        out, bumps := {SequenceNumberChanged(sequenceNumber)}, 1;
      }
    }

    lemma SyncedNotBumped()
      requires Valid()
      ensures Bumped(originated, sequenceNumber, originated, sequenceNumber, 0)
    {
      NotBumped(originated, sequenceNumber);
    }

    /** Take a set of origins over, at the current sequence number. */
    method PutOrigins(own: Originated)
      requires Valid() && Synced(own, sequenceNumber)
      modifies `originated, `tame
      ensures Valid() && originated == own && (tame <==> old(tame) && OwnIn(env, cfg.routerId, own, sequenceNumber))
    {
      hide Balanced, Extended, Foreign, Apart, Tame, Conditioned, InWindow;
      tame := tame && OwnIn(env, cfg.routerId, own, sequenceNumber);
      if tame { OriginKeepsTame(env, cfg.routerId, candidates, sources, selected, originated, sequenceNumber, own); }
      originated := own;
    }

    /** The key is no longer held unreachable, and will be repeated. */
    method Revive(key: RouteKey, now: u64) returns (out: set<Action>)
      requires Valid()
      modifies `tombstones, `generation, `pendingAdvertisements
      ensures Valid() && tombstones == old(tombstones) - {key}
      ensures forall a :: a in out ==> a.RoutesChanged?
    {
      hide Balanced, Extended, Foreign, Apart, Tame, Conditioned, Synced;
      out := {};
      ApartFewer(selected, tombstones, {key});
      if key in tombstones {
        tombstones := tombstones - {key};
        out := Snapshot();
      } else {
        assert tombstones - {key} == tombstones;
      }
      RepeatAdvertisements({key}, now);
    }

    /** Enter the origin; a worse metric needs a new sequence number. */
    method EnterOrigin(key: RouteKey, metric: u16) returns (out: set<Action>, ghost bumps: nat)
      requires Valid() && metric != INFINITY
      modifies `originated, `sequenceNumber, `tame
      ensures Valid() && (tame ==> old(tame))
      ensures OriginSet(old(originated), old(sequenceNumber), originated, sequenceNumber, key, metric, bumps)
      ensures old(originated).Keys + {key} <= originated.Keys
      ensures forall a :: a in out ==> a.SequenceNumberChanged?
      ensures var keys := old(originated).Keys + originated.Keys;
        old(tame) && Windowed(env, cfg.routerId, keys, old(sequenceNumber), bumps) ==> tame
    {
      hide Engine.Valid, Synced, Bumped, OriginSet, Windowed, OwnIn;
      ghost var o, n := originated, sequenceNumber;
      out, bumps := BumpIf(key in originated && metric > originated[key].metric);
      SyncedWith(key, metric);
      SettingOrigin(o, n, originated, sequenceNumber, key, metric, bumps);
      ghost var own := originated[key := Origin(metric, sequenceNumber)];
      if old(tame) && Windowed(env, cfg.routerId, o.Keys + own.Keys, n, bumps) {
        WindowedFewer(env, cfg.routerId, o.Keys + own.Keys, n, bumps, o.Keys, bumps);
        WindowedOwn(env, cfg.routerId, o.Keys + own.Keys, n, bumps, own);
      }
      PutOrigins(originated[key := Origin(metric, sequenceNumber)]);
    }

    /** Record an origin, which ends its unreachability. */
    method SetOrigin(key: RouteKey, metric: u16, now: u64) returns (out: set<Action>, ghost bumps: nat)
      requires Valid() && Held(owed, now, advertisedUntil, selected, originated, tombstones, {}) && metric != INFINITY
      modifies `originated, `sequenceNumber, `tombstones, `tame, `generation, `pendingAdvertisements
      ensures Valid() && Held(owed, now, advertisedUntil, selected, originated, tombstones, {}) && (tame ==> old(tame))
      ensures OriginSet(old(originated), old(sequenceNumber), originated, sequenceNumber, key, metric, bumps)
      ensures tombstones == old(tombstones) - {key} && forall a :: a in out ==> !a.Send?
      ensures var keys := old(originated).Keys + originated.Keys;
        old(tame) && Windowed(env, cfg.routerId, keys, old(sequenceNumber), bumps) ==> tame
    {
      hide Engine.Valid, Held, OriginSet, Windowed;
      ghost var o, t := originated, tombstones;
      var snapshot := Revive(key, now);
      var told;
      told, bumps := EnterOrigin(key, metric);
      HeldWithOrigin(owed, now, advertisedUntil, selected, o, t, key, originated);
      out := snapshot + told;
    }

    lemma SyncedWith(key: RouteKey, metric: u16)
      requires Valid() && metric != INFINITY
      ensures Synced(originated[key := Origin(metric, sequenceNumber)], sequenceNumber)
    {
    }

    /** Reselect, then announce one key or all. */
    method ReselectAndSend(now: u64, only: Option<RouteKey>, deadline: Option<u64>) returns (out: set<Action>)
      requires Valid() && Priced(cfg.algebra, neighbors, candidates)
      requires Held(owed, now, advertisedUntil, selected, originated, tombstones, {})
      modifies `selected, `memory, `tombstones, `generation, `sources, `pendingRequests, `pendingAdvertisements,
               `tainted, `lastFullUpdate
      ensures Steady(now) && (tame ==> Going(env, now, old(sources), sources, out))
      ensures tainted <= old(tainted)
      ensures OwnUpdates(only, None, deadline, now) <= out
      ensures Reselected(cfg.selection, candidates, old(sources), old(selected), old(memory), now, selected, memory)
    {
      hide Engine.Valid, Stable, Priced, Going, Held, UpdateSends, Reselected, Engine.OwnUpdates,
           Written, RequestsKept;
      var reselected := SettleUp(true, now);
      ghost var s := sources;
      var sends := SendSettled(now, only, None, deadline);
      if tame { GoFurther(env, now, old(sources), s, sources, reselected, sends); }
      out := reselected + sends;
    }

    method Originate(key: RouteKey, metric: u16, now: u64) returns (out: set<Action>, ghost bumps: nat)
      requires Steady(now) && metric != INFINITY
      modifies `originated, `sequenceNumber, `tame, `selected, `memory, `tombstones, `generation, `sources,
               `pendingRequests,
               `pendingAdvertisements, `tainted, `lastFullUpdate
      ensures Steady(now) && (tame ==> old(tame) && Going(env, now, old(sources), sources, out))
      ensures OriginSet(old(originated), old(sequenceNumber), originated, sequenceNumber, key, metric, bumps)
      ensures tainted <= old(tainted)
      ensures if key in old(originated) && old(originated)[key].metric == metric then out == {}
              else OwnUpdates(Some(key), None, None, now) <= out
      ensures OneLook(cfg.selection, now, candidates, old(sources), old(selected), old(memory), selected, memory)
      ensures var keys := old(originated).Keys + originated.Keys;
        old(tame) && Windowed(env, cfg.routerId, keys, old(sequenceNumber), bumps) ==> tame
    {
      hide Engine.Valid, Stable, Priced, Going, Held, OriginSet, SourcesIn, CandidatesIn, Reselected, Engine.OwnUpdates,
           Windowed;
      if key in originated && originated[key].metric == metric {
        AlreadySet(key);
        if tame { StartingOut(now); }
        return {}, 0;
      }
      var told;
      told, bumps := SetOrigin(key, metric, now);
      var sends := ReselectAndSend(now, Some(key), None);
      if tame { GoQuietly(env, now, old(sources), sources, sends, told); }
      out := sends + told;
    }

    lemma AlreadySet(key: RouteKey)
      requires Valid() && key in originated
      ensures OriginSet(originated, sequenceNumber, originated, sequenceNumber, key, originated[key].metric, 0)
    {
    }

    /** `hold_withdrawal` for a key that is not selected. */
    method HoldWithdrawal(key: RouteKey, now: u64, ghost exempt: set<RouteKey>) returns (ghost longest: u16)
      requires Valid() && Held(owed, now, advertisedUntil, selected, originated, tombstones, exempt) && key !in selected
      modifies `tombstones
      ensures Valid() && Held(owed, now, advertisedUntil, selected, originated, tombstones, exempt - {key})
      ensures IsLongest(cfg, interfaces, longest)
      ensures tombstones == old(tombstones)[key := Max(Lifetime(now, longest), Until(advertisedUntil, key))]
    {
      hide Balanced, Extended, Foreign, Apart, Tame, Conditioned, Synced, Held, IsLongest;
      var interval := LongestInterval(cfg, interfaces);
      longest := interval;
      var until := Max(Lifetime(now, interval), Until(advertisedUntil, key));
      HeldAgain(owed, now, advertisedUntil, selected, originated, tombstones, exempt, key, until);
      ApartPut(selected, tombstones, key, until);
      tombstones := tombstones[key := until];
    }

    method Withdraw(key: RouteKey, now: u64) returns (out: set<Action>)
      requires Steady(now)
      modifies `originated, `tame, `selected, `memory, `tombstones, `generation, `sources, `pendingRequests,
               `pendingAdvertisements, `tainted, `lastFullUpdate
      ensures Steady(now) && (tame ==> old(tame) && Going(env, now, old(sources), sources, out))
      ensures originated == old(originated) - {key}
      ensures tainted <= old(tainted)
      ensures key in old(originated) ==> OwnUpdates(Some(key), None, Some(Urgent(now)), now) <= out
      ensures key in old(originated) && key !in selected ==>
        key in tombstones && tombstones[key] >= Until(advertisedUntil, key)
      ensures Reselected(cfg.selection, candidates, old(sources), old(selected), old(memory), now, selected, memory)
      ensures var keys := old(originated).Keys + originated.Keys;
        old(tame) && Windowed(env, cfg.routerId, keys, sequenceNumber, 0) ==> tame
    {
      hide Engine.Valid, Stable, Priced, Going, Held, Synced, Engine.OwnUpdates, Reselected, Written,
           RequestsKept, Windowed;
      var existed := key in originated;
      ghost var o := originated;
      HeldWithout(owed, now, advertisedUntil, selected, o, tombstones, o - {key}, if existed then {key} else {});
      DropOrigin(key);
      ghost var s := sources;
      var reselected := ReselectNow(now, if existed then {key} else {});
      out := reselected;
      if existed {
        ghost var s' := sources;
        var rest := FinishWithdrawal(key, now);
        if tame { GoFurther(env, now, s, s', sources, reselected, rest); }
        out := reselected + rest;
      }
    }

    method DropOrigin(key: RouteKey)
      requires Valid()
      modifies `originated, `tame
      ensures Valid() && originated == old(originated) - {key} && (tame ==> old(tame))
      ensures var keys := old(originated).Keys + originated.Keys;
        old(tame) && Windowed(env, cfg.routerId, keys, sequenceNumber, 0) ==> tame
    {
      hide Engine.Valid, Synced, Windowed, OwnIn;
      ghost var o, keys := originated, originated.Keys + (originated - {key}).Keys;
      SyncedWithout({key});
      if tame && Windowed(env, cfg.routerId, keys, sequenceNumber, 0) {
        WindowedOwn(env, cfg.routerId, keys, sequenceNumber, 0, o - {key});
      }
      PutOrigins(originated - {key});
    }

    /** Hold the key unless somebody else offers it. */
    method HoldIfLost(key: RouteKey, now: u64, ghost exempt: set<RouteKey>)
      requires Valid() && Held(owed, now, advertisedUntil, selected, originated, tombstones, exempt)
      modifies `tombstones
      ensures Valid() && Held(owed, now, advertisedUntil, selected, originated, tombstones, exempt - {key})
      ensures key in selected ==> tombstones == old(tombstones)
      ensures key !in selected ==> key in tombstones && tombstones[key] >= Until(advertisedUntil, key)
      ensures forall k :: k != key && k in old(tombstones) ==> k in tombstones && tombstones[k] == old(tombstones)[k]
    {
      hide Engine.Valid, Held, IsLongest;
      if key !in selected {
        ghost var longest := HoldWithdrawal(key, now, exempt);
      } else {
        HeldAgain(owed, now, advertisedUntil, selected, originated, tombstones, exempt, key, 0);
      }
    }

    /** Repeat and announce what is left of a withdrawn key. */
    method AnnounceWithdrawn(key: RouteKey, now: u64) returns (out: set<Action>)
      requires Valid() && (tame ==> Settled())
      modifies `sources, `pendingAdvertisements, `lastFullUpdate
      ensures Valid() && (tame ==> Settled()) && (tame ==> Going(env, now, old(sources), sources, out))
      ensures out == OwnUpdates(Some(key), None, Some(Urgent(now)), now)
    {
      hide Engine.Valid, Stable, Going, UpdateSends, Engine.OwnUpdates;
      RepeatAdvertisements({key}, now);
      out := SendSettled(now, Some(key), None, Some(Urgent(now)));
    }

    method FinishWithdrawal(key: RouteKey, now: u64) returns (out: set<Action>)
      requires Valid() && (tame ==> Settled())
        && Held(owed, now, advertisedUntil, selected, originated, tombstones, {key})
      modifies `tombstones, `generation, `sources, `pendingAdvertisements, `lastFullUpdate
      ensures Valid() && (tame ==> Settled()) && Held(owed, now, advertisedUntil, selected, originated, tombstones, {})
      ensures tame ==> Going(env, now, old(sources), sources, out)
      ensures OwnUpdates(Some(key), None, Some(Urgent(now)), now) <= out
      ensures key !in selected ==> key in tombstones && tombstones[key] >= Until(advertisedUntil, key)
    {
      hide Engine.Valid, Stable, Going, Held, Engine.OwnUpdates;
      assert {key} - {key} == {};
      HoldIfLost(key, now, {key});
      var snapshot: set<Action> := {};
      if key !in selected { snapshot := Snapshot(); }
      var sends := AnnounceWithdrawn(key, now);
      if tame { GoQuietly(env, now, old(sources), sources, sends, snapshot); }
      out := sends + snapshot;
    }

    lemma SyncedWithout(keys: set<RouteKey>)
      requires Valid()
      ensures Synced(originated - keys, sequenceNumber)
    {
    }

    /** Number the new origins and take them over. */
    method SwapOrigins(origins: map<RouteKey, u16>) returns (out: set<Action>, ghost bumps: nat)
      requires Valid() && forall k :: k in origins ==> origins[k] != INFINITY
      modifies `originated, `sequenceNumber, `tame
      ensures Valid() && (tame ==> old(tame))
      ensures OriginsReplaced(old(originated), old(sequenceNumber), originated, sequenceNumber, origins, bumps)
      ensures originated.Keys == origins.Keys
      ensures old(originated).Keys <= originated.Keys + (old(originated).Keys - origins.Keys)
      ensures forall a :: a in out ==> !a.Send?
      ensures var keys := old(originated).Keys + originated.Keys;
        old(tame) && Windowed(env, cfg.routerId, keys, old(sequenceNumber), bumps) ==> tame
    {
      hide Engine.Valid, Synced, Bumped, OriginsReplaced, Numbered, GetsWorse, Windowed, OwnIn;
      ghost var o, n := originated, sequenceNumber;
      out, bumps := BumpIf(GetsWorse(originated, origins));
      Replacing(o, n, originated, sequenceNumber, origins, bumps);
      NumberedIsSynced(origins, sequenceNumber);
      BumpedIs(o, n, originated, sequenceNumber, bumps);
      ghost var own := Numbered(origins, sequenceNumber);
      if old(tame) && Windowed(env, cfg.routerId, o.Keys + own.Keys, n, bumps) {
        WindowedFewer(env, cfg.routerId, o.Keys + own.Keys, n, bumps, o.Keys, bumps);
        WindowedOwn(env, cfg.routerId, o.Keys + own.Keys, n, bumps, own);
      }
      PutOrigins(Numbered(origins, sequenceNumber));
    }

    /** Hold and announce every removed origin. */
    method WithdrawAll(removed: set<RouteKey>, now: u64) returns (out: set<Action>)
      requires Valid() && (tame ==> Settled())
        && Held(owed, now, advertisedUntil, selected, originated, tombstones, removed)
      modifies `tombstones, `sources, `pendingAdvertisements, `lastFullUpdate
      ensures Valid() && (tame ==> Settled()) && Held(owed, now, advertisedUntil, selected, originated, tombstones, {})
      ensures tame ==> Going(env, now, old(sources), sources, out)
      ensures forall k :: k in removed && k !in selected ==>
        k in tombstones && tombstones[k] >= Until(advertisedUntil, k)
    {
      hide Engine.Valid, Stable, Going, Held, SourcesIn, CandidatesIn, Engine.OwnUpdates;
      out := {};
      if tame {
        ValidIsIn();
        GoingStart(env, now, sources);
      }
      var todo := removed;
      while todo != {}
        invariant Valid() && (tame ==> Settled())
          && Held(owed, now, advertisedUntil, selected, originated, tombstones, todo)
        invariant tame ==> Going(env, now, old(sources), sources, out)
        invariant forall k :: k in removed && k !in todo && k !in selected ==>
          k in tombstones && tombstones[k] >= Until(advertisedUntil, k)
        decreases todo
      {
        var k :| k in todo;
        ghost var s := sources;
        HoldIfLost(k, now, todo);
        var more := AnnounceWithdrawn(k, now);
        if tame { GoFurther(env, now, old(sources), s, sources, out, more); }
        out, todo := out + more, todo - {k};
      }
    }

    /** Nothing originated is unreachable; announce everything. */
    method AnnounceOrigins(now: u64) returns (out: set<Action>)
      requires Steady(now)
      modifies `tombstones, `generation, `sources, `pendingAdvertisements, `lastFullUpdate
      ensures Steady(now) && (tame ==> Going(env, now, old(sources), sources, out))
      ensures tombstones == old(tombstones) - originated.Keys
      ensures OwnUpdates(None, None, None, now) <= out
    {
      hide Balanced, Extended, Foreign, Apart, Tame, Conditioned, Synced, Stable, Priced, Going, Held, UpdateSends,
           Engine.OwnUpdates;
      ApartFewer(selected, tombstones, originated.Keys);
      HeldUnburied(owed, now, advertisedUntil, selected, originated, tombstones);
      tombstones := tombstones - originated.Keys;
      RepeatAdvertisements(originated.Keys, now);
      var snapshot := Snapshot();
      var sends := SendSettled(now, None, None, None);
      if tame { GoQuietly(env, now, old(sources), sources, sends, snapshot); }
      out := sends + snapshot;
    }

    method ReplaceOrigins(origins: map<RouteKey, u16>, now: u64) returns (out: set<Action>, ghost bumps: nat)
      requires Steady(now) && forall k :: k in origins ==> origins[k] != INFINITY
      modifies `originated, `sequenceNumber, `tame, `selected, `memory, `tombstones, `generation, `sources,
               `pendingRequests,
               `pendingAdvertisements, `tainted, `lastFullUpdate
      ensures Steady(now) && (tame ==> old(tame) && Going(env, now, old(sources), sources, out))
      ensures OriginsReplaced(old(originated), old(sequenceNumber), originated, sequenceNumber, origins, bumps)
      ensures tainted <= old(tainted)
      ensures if SameOrigins(old(originated), origins) then out == {} else OwnUpdates(None, None, None, now) <= out
      ensures forall k :: k in old(originated) && k !in origins && k !in selected ==>
        k in tombstones && tombstones[k] >= Until(advertisedUntil, k)
      ensures OneLook(cfg.selection, now, candidates, old(sources), old(selected), old(memory), selected, memory)
      ensures var keys := old(originated).Keys + originated.Keys;
        old(tame) && Windowed(env, cfg.routerId, keys, old(sequenceNumber), bumps) ==> tame
    {
      hide Engine.Valid, Stable, Priced, Going, Held, OriginsReplaced, SourcesIn, CandidatesIn, SameOrigins,
           Engine.OwnUpdates, Reselected, Windowed;
      if SameOrigins(originated, origins) {
        ReplacedAlready(origins);
        if tame { StartingOut(now); }
        return {}, 0;
      }
      var removed := originated.Keys - origins.Keys;
      ghost var o := originated;
      var told;
      told, bumps := SwapOrigins(origins);
      HeldWithout(owed, now, advertisedUntil, selected, o, tombstones, originated, removed);
      var rest := SettleOrigins(removed, now);
      if tame { GoQuietly(env, now, old(sources), sources, rest, told); }
      out := rest + told;
    }

    lemma ReplacedAlready(origins: map<RouteKey, u16>)
      requires Valid() && SameOrigins(originated, origins)
      ensures OriginsReplaced(originated, sequenceNumber, originated, sequenceNumber, origins, 0)
        && originated.Keys == origins.Keys
    {
      ReplacedBySame(originated, sequenceNumber, origins);
    }

    /** Reselect, withdraw what was removed, announce the rest. */
    method SettleOrigins(removed: set<RouteKey>, now: u64) returns (out: set<Action>)
      requires Valid() && Priced(cfg.algebra, neighbors, candidates)
      requires Held(owed, now, advertisedUntil, selected, originated, tombstones, removed)
      modifies `selected, `memory, `tombstones, `generation, `sources, `pendingRequests, `pendingAdvertisements,
               `tainted, `lastFullUpdate
      ensures Steady(now) && (tame ==> Going(env, now, old(sources), sources, out))
      ensures tainted <= old(tainted)
      ensures OwnUpdates(None, None, None, now) <= out && tombstones.Keys !! originated.Keys
      ensures forall k :: k in removed && k !in selected && k !in originated ==>
        k in tombstones && tombstones[k] >= Until(advertisedUntil, k)
      ensures Reselected(cfg.selection, candidates, old(sources), old(selected), old(memory), now, selected, memory)
    {
      hide Engine.Valid, Stable, Priced, Going, Held, Engine.OwnUpdates, Reselected, Written, RequestsKept;
      var reselected := ReselectNow(now, removed);
      ghost var s := sources;
      var withdrawn := WithdrawAll(removed, now);
      ghost var s' := sources;
      var announced := AnnounceOrigins(now);
      if tame {
        GoFurther(env, now, old(sources), s, s', reselected, withdrawn);
        GoFurther(env, now, old(sources), s', sources, reselected + withdrawn, announced);
      }
      out := reselected + withdrawn + announced;
    }

    /** Keep what the new policy accepts, and recount. */
    method Readmit(newPolicy: RoutePolicy)
      requires Valid() && Priced(cfg.algebra, neighbors, candidates)
      modifies `policy, `candidates, `neighbors, `pendingRequests
      ensures Valid() && Priced(cfg.algebra, neighbors, candidates) && Subdued(old(candidates), candidates)
      ensures policy == newPolicy && candidates == Admitted(old(candidates), newPolicy)
        && neighbors == Recounted(old(neighbors), candidates)
      ensures pendingRequests == StillAskable(old(pendingRequests), candidates)
    {
      hide Balanced, Extended, Foreign, Apart, Tame, Conditioned, Synced, Subdued, Priced, Admitted, Recounted;
      AdmittedKeeps(cfg.limits, cfg.algebra, neighbors, candidates, newPolicy);
      var left := Admitted(candidates, newPolicy);
      SubduedKeepsAll(env, cfg.routerId, candidates, left, sources, selected, originated, sequenceNumber, tainted);
      policy, candidates, neighbors := newPolicy, left, Recounted(neighbors, left);
      pendingRequests := StillAskable(pendingRequests, candidates);
    }

    method ReplaceRoutePolicy(newPolicy: RoutePolicy, now: u64) returns (out: set<Action>)
      requires Steady(now)
      modifies `policy, `candidates, `neighbors, `selected, `memory, `tombstones, `generation, `sources,
               `pendingRequests,
               `pendingAdvertisements, `tainted, `lastFullUpdate
      ensures Steady(now) && (tame ==> Going(env, now, old(sources), sources, out))
      ensures Subdued(old(candidates), candidates) && InvalidatePendingSends in out
      ensures tainted <= old(tainted)
      ensures policy == newPolicy && candidates == Admitted(old(candidates), newPolicy)
        && OwnUpdates(None, None, Some(Urgent(now)), now) <= out
      ensures Reselected(cfg.selection, candidates, old(sources), old(selected), old(memory), now, selected, memory)
    {
      hide Engine.Valid, Stable, Priced, Going, Held, Subdued, Admitted, Recounted, Engine.OwnUpdates,
           Reselected;
      Readmit(newPolicy);
      var sends := ReselectAndRepeat(now);
      if tame { GoQuietly(env, now, old(sources), sources, sends, {InvalidatePendingSends}); }
      out := sends + {InvalidatePendingSends};
    }

    method ReselectAndRepeat(now: u64) returns (out: set<Action>)
      requires Valid() && Priced(cfg.algebra, neighbors, candidates)
      requires Held(owed, now, advertisedUntil, selected, originated, tombstones, {})
      modifies `selected, `memory, `tombstones, `generation, `sources, `pendingRequests, `pendingAdvertisements,
               `tainted, `lastFullUpdate
      ensures Steady(now) && (tame ==> Going(env, now, old(sources), sources, out))
      ensures tainted <= old(tainted)
      ensures OwnUpdates(None, None, Some(Urgent(now)), now) <= out
      ensures Reselected(cfg.selection, candidates, old(sources), old(selected), old(memory), now, selected, memory)
    {
      hide Engine.Valid, Stable, Priced, Going, Held, UpdateSends, Engine.OwnUpdates, Reselected, Written,
           RequestsKept;
      var reselected := SettleUp(true, now);
      ghost var s := sources;
      RepeatAdvertisements(originated.Keys + selected.Keys + tombstones.Keys, now);
      var sends := SendSettled(now, None, None, Some(Urgent(now)));
      if tame { GoFurther(env, now, old(sources), s, sources, reselected, sends); }
      out := reselected + sends;
    }

    // ----- events

    ghost function Instant(): Moment
      reads `policy, `interfaces, `neighbors, `candidates, `sources, `pendingRequests, `originated, `sequenceNumber,
            `selected, `tombstones,
            `memory, `tame, `tainted
    {
      Moment(Look(), memory, tame, tainted)
    }

    /** An origin event, with what it does to origin distances. */
    method OriginEvent(ev: Event) returns (out: set<Action>, ghost bumps: nat)
      requires Steady(ev.now) && Accepted(ev) && OfOrigins(ev)
      modifies `originated, `sequenceNumber, `tame, `selected, `memory, `tombstones, `generation, `sources,
               `pendingRequests,
               `pendingAdvertisements, `tainted, `lastFullUpdate
      ensures Steady(ev.now) && (tame ==> old(tame) && Going(env, ev.now, old(sources), sources, out))
      ensures bumps <= 1 && sequenceNumber == WrapAdd16(old(sequenceNumber), bumps)
        && OriginsImprove(old(originated), originated)
      ensures tainted <= old(tainted) && Performed(cfg, ev, old(Look()), Look())
      ensures Evolved(cfg, ev, old(Look()), old(memory), Look(), memory)
      ensures var keys := old(originated).Keys + originated.Keys;
        old(tame) && Windowed(env, cfg.routerId, keys, old(sequenceNumber), bumps) ==> tame
    {
      hide Engine.Valid, Stable, Priced, Going, Held, OriginsImprove, Synced, Engine.OwnUpdates, OriginSet,
           OriginsReplaced, OneLook, Reselected, Windowed;
      SyncedNow();
      ghost var o, n := originated, sequenceNumber;
      match ev
      case Originate(key, metric, now) =>
        out, bumps := Originate(key, metric, now);
        SetImproves(o, n, originated, sequenceNumber, key, metric, bumps);
      case Withdraw(key, now) =>
        out := Withdraw(key, now);
        bumps := 0;
        FewerImprove(o, key);
      case ReplaceOrigins(origins, now) =>
        out, bumps := ReplaceOrigins(origins, now);
        ReplacedImproves(o, n, originated, sequenceNumber, origins, bumps);
    }

    method HandleOrigin(ev: Event) returns (out: set<Action>, ghost bumps: nat)
      requires Steady(ev.now) && Accepted(ev) && OfOrigins(ev)
      modifies `originated, `sequenceNumber, `tame, `selected, `memory, `tombstones, `generation, `sources,
               `pendingRequests,
               `pendingAdvertisements, `tainted, `lastFullUpdate
      ensures Steady(ev.now) && EventTook(cfg, env, ev, old(Instant()), Instant(), out, bumps)
    {
      hide Engine.Steady, Going, OriginsImprove, Performed, Evolved, Subdued, EventTook, Accepted, Windowed;
      SubduedItself(candidates);
      out, bumps := OriginEvent(ev);
      LocalEvent(cfg, env, ev, old(Instant()), Instant(), out, bumps);
    }

    lemma SyncedNow()
      requires Valid()
      ensures Synced(originated, sequenceNumber)
    {
    }

    predicate OfInterface(ev: Event) {
      ev.InterfaceUp? || ev.InterfacePolicyChanged? || ev.InterfaceAddressesChanged? || ev.InterfaceDown?
    }

    method InterfaceEvent(ev: Event) returns (out: set<Action>)
      requires Steady(ev.now) && OfInterface(ev)
      modifies `policy, `neighbors, `candidates, `selected, `memory, `tombstones, `generation, `sources,
               `pendingRequests, `pendingAdvertisements, `tainted, `advertisedUntil, `recentRequests,
               `lastFullUpdate, `interfaces
      ensures Steady(ev.now) && (tame ==> Going(env, ev.now, old(sources), sources, out))
      ensures Subdued(old(candidates), candidates) && tainted <= old(tainted)
      ensures Performed(cfg, ev, old(Look()), Look())
      ensures Evolved(cfg, ev, old(Look()), old(memory), Look(), memory)
      ensures Ticks(old(interfaces), ev) ==> RequestsRan(old(pendingRequests), ev.now, pendingRequests, out)
    {
      hide Engine.Steady, Going, Subdued, Rescheduled, AfterClock, Aged, Silent, QualityKept, OnInterface,
           WithoutNeighbors, Engine.OwnUpdates, Reselected, ClockLook, Restaged,
           RequestsRan;
      match ev
      case InterfaceUp(name, addresses, ifacePolicy, now, ticks) =>
        out := InterfaceUp(name, addresses, ifacePolicy, now, ticks);
      case InterfacePolicyChanged(name, ifacePolicy, resetMetric, now, senses, ticks) =>
        out := InterfacePolicyChanged(ev);
      case InterfaceAddressesChanged(name, addresses, now) =>
        SubduedItself(candidates);
        out := InterfaceAddressesChanged(name, addresses, now);
      case InterfaceDown(name, now) =>
        out := InterfaceDown(name, now);
    }

    /** An interface, policy or clock event: origins stay as they are. */
    method OtherEvent(ev: Event) returns (out: set<Action>)
      requires Steady(ev.now) && !OfOrigins(ev) && !ev.PacketReceived?
      modifies `policy, `neighbors, `candidates, `selected, `memory, `tombstones, `generation, `sources,
               `pendingRequests, `pendingAdvertisements, `tainted, `advertisedUntil, `recentRequests,
               `lastFullUpdate, `interfaces
      ensures Steady(ev.now) && (tame ==> Going(env, ev.now, old(sources), sources, out))
      ensures Subdued(old(candidates), candidates) && tainted <= old(tainted)
      ensures Performed(cfg, ev, old(Look()), Look())
      ensures Evolved(cfg, ev, old(Look()), old(memory), Look(), memory)
      ensures Ticks(old(interfaces), ev) ==> RequestsRan(old(pendingRequests), ev.now, pendingRequests, out)
    {
      hide Engine.Steady, Going, Subdued, Rescheduled, AfterClock, Aged, Silent, QualityKept, Admitted, OnInterface,
           WithoutNeighbors, Engine.OwnUpdates, Reselected, ClockLook, Restaged,
           RequestsRan;
      if OfInterface(ev) {
        out := InterfaceEvent(ev);
      } else if ev.Tick? {
        out := Tick(ev.now, ev.ticks);
      } else {
        out := ReplaceRoutePolicy(ev.routePolicy, ev.now);
      }
    }

    method HandleOther(ev: Event) returns (out: set<Action>)
      requires Steady(ev.now) && !OfOrigins(ev) && !ev.PacketReceived?
      modifies `policy, `neighbors, `candidates, `selected, `memory, `tombstones, `generation, `sources,
               `pendingRequests, `pendingAdvertisements,
               `tainted, `advertisedUntil, `recentRequests, `lastFullUpdate, `interfaces
      ensures Steady(ev.now) && EventTook(cfg, env, ev, old(Instant()), Instant(), out, 0)
    {
      hide Engine.Steady, Going, OriginsImprove, Performed, Evolved, Subdued, EventTook, Windowed,
           RequestsRan;
      SameImproves(originated);
      out := OtherEvent(ev);
      LocalEvent(cfg, env, ev, old(Instant()), Instant(), out, 0);
    }

    method HandlePacket(ev: Event) returns (out: set<Action>, ghost bumps: nat)
      requires Steady(ev.now) && ev.PacketReceived?
      modifies this
      ensures Steady(ev.now) && owed == old(owed) && clock == old(clock)
      ensures EventTook(cfg, env, ev, old(Instant()), Instant(), out, bumps)
    {
      hide Engine.Valid, Stable, Priced, Going, Held, Traced, OriginsImprove, Synced, Bumped, PacketTook, Admits,
           Evolved, Concluded, Performed, TaintedByEvent, Rerouted, Engine.Readvertised, Windowed, Behaves;
      SyncedNow();
      ghost var o, n, trail := originated, sequenceNumber, [];
      out, bumps, trail := Receive(ev.interface, ev.source, ev.tlvs, ev.now, ev.sense);
      if old(tame) && Behaved(env, cfg.routerId, ev, o.Keys + originated.Keys, n, bumps) {
        WindowedFewer(env, cfg.routerId, o.Keys + originated.Keys, n, bumps, o.Keys, bumps);
      }
      PacketFacts(ev, cfg, policy, interfaces, old(selected), old(tame), old(Books()), trail, old(Look()), Look(),
                  tainted);
      PacketEvolves(ev, cfg, env, tame, old(tame), old(Books()), trail, old(Look()), old(memory), Look(), memory,
                    tainted);
      BumpedIs(o, n, originated, sequenceNumber, bumps);
      if bumps < 0x8000 { BumpedImproves(o, n, originated, sequenceNumber, bumps); }
    }

    method HandleValidated(ev: Event) returns (out: set<Action>, ghost bumps: nat)
      requires Steady(ev.now) && Accepted(ev)
      modifies this
      ensures Steady(ev.now) && owed == old(owed) && clock == old(clock)
      ensures EventTook(cfg, env, ev, old(Instant()), Instant(), out, bumps)
    {
      hide Engine.Steady, EventTook;
      if ev.PacketReceived? {
        out, bumps := HandlePacket(ev);
      } else if OfOrigins(ev) {
        out, bumps := HandleOrigin(ev);
      } else {
        bumps := 0;
        out := HandleOther(ev);
      }
    }

    /** Remember how long each announced route may be believed. */
    method NoteLifetimes(out: set<Action>)
      modifies `advertisedUntil
      ensures LifetimesNoted(old(advertisedUntil), out, advertisedUntil)
    {
      hide LifetimesNoted, NoteOne;
      var todo := out;
      NotedStart(advertisedUntil);
      assert out - todo == {};
      while todo != {}
        invariant todo <= out && LifetimesNoted(old(advertisedUntil), out - todo, advertisedUntil)
        decreases todo
      {
        var a :| a in todo;
        NotedOne(old(advertisedUntil), out - todo, advertisedUntil, a);
        assert out - (todo - {a}) == (out - todo) + {a};
        advertisedUntil := NoteOne(advertisedUntil, a);
        todo := todo - {a};
      }
      assert out - todo == out;
    }

    method Validate(ev: Event) returns (r: Option<ConfigError>)
      ensures r.None? ==> Accepted(ev)
      ensures r.Some? ==> Rejects(ev, r.value)
    {
      match ev
      case InterfaceUp(_, _, p, _, _) => r := if ZeroIntervals(p) then Some(ZeroInterval) else None;
      case InterfacePolicyChanged(_, p, _, _, _, _) => r := if ZeroIntervals(p) then Some(ZeroInterval) else None;
      case Originate(k, metric, _) => r := ValidateOrigin(k, metric);
      case Withdraw(k, _) => r := if CanonicalKey(k) then None else Some(InvalidRouteKey);
      case ReplaceOrigins(origins, _) =>
        r := None;
        var todo := origins.Keys;
        while todo != {}
          invariant todo <= origins.Keys && r.None?
          invariant forall k :: k in origins.Keys - todo ==> ValidateOrigin(k, origins[k]) == None
          decreases todo
        {
          var k :| k in todo;
          if ValidateOrigin(k, origins[k]).Some? { return ValidateOrigin(k, origins[k]); }
          todo := todo - {k};
        }
      case _ => r := None;
    }

    /** `try_handle`: an invalid event changes nothing; a valid one keeps every
        promise made between events. */
    method TryHandle(ev: Event) returns (r: Result<set<Action>, ConfigError>, ghost bumps: nat)
      requires Steady(clock) && ev.now >= clock
      modifies this
      ensures Steady(clock)
      ensures r.Ok? <==> Accepted(ev)
      ensures r.Err? ==> Rejects(ev, r.error) && unchanged(this)
      ensures r.Ok? ==> clock == ev.now && HoldStep(old(HoldView()), HoldView())
      ensures r.Ok? && tame ==> old(tame) && Going(env, ev.now, old(sources), sources, r.value)
      ensures r.Ok? ==> Accounted(Rules(cfg, old(policy)), ev, old(candidates), candidates)
      ensures r.Ok? ==> bumps <= MostBumps(ev) && sequenceNumber == WrapAdd16(old(sequenceNumber), bumps)
      ensures r.Ok? && bumps < 0x8000 ==> OriginsImprove(old(originated), originated)
      ensures r.Ok? && tame ==> Weakens(Rules(cfg, old(policy)), ev, neighbors, old(pendingRequests), old(candidates),
                                        old(selected),
                                        old(Weak(candidates, sources, selected)), Weak(candidates, sources, selected))
      ensures r.Ok? ==> AllNoted(r.value, advertisedUntil)
      ensures r.Ok? ==> Performed(cfg, ev, old(Look()), Look())
      ensures r.Ok? ==> Evolved(cfg, ev, old(Look()), old(memory), Look(), memory)
      ensures r.Ok? && Ticks(old(interfaces), ev) ==>
        RequestsRan(old(pendingRequests), ev.now, pendingRequests, r.value)
      ensures r.Ok? && !OfOrigins(ev) ==> originated.Keys == old(originated).Keys
      ensures var keys := old(originated).Keys + originated.Keys;
        r.Ok? && old(tame) && Behaved(env, cfg.routerId, ev, keys, old(sequenceNumber), bumps) ==> tame
    {
      hide Engine.Steady, Going, Accounted, OriginsImprove, HoldStep, Accepted, Rejects, AllNoted, Performed, Weak,
           Weakens, Evolved, MostBumps, Behaved, RequestsRan;
      bumps := 0;
      var invalid := Validate(ev);
      if invalid.Some? {
        RejectedIsNotAccepted(ev, invalid.value);
        return Err(invalid.value), bumps;
      }
      var out;
      out, bumps := Handle(ev);
      r := Ok(out);
    }

    /** A validated event, with the keys whose route is already weak exempted first. */
    method Handle(ev: Event) returns (out: set<Action>, ghost bumps: nat)
      requires Steady(clock) && ev.now >= clock && Accepted(ev)
      modifies this
      ensures Steady(clock) && clock == ev.now && HoldStep(old(HoldView()), HoldView())
      ensures tame ==> old(tame) && Going(env, ev.now, old(sources), sources, out)
      ensures Accounted(Rules(cfg, old(policy)), ev, old(candidates), candidates) && AllNoted(out, advertisedUntil)
      ensures bumps <= MostBumps(ev) && sequenceNumber == WrapAdd16(old(sequenceNumber), bumps)
      ensures bumps < 0x8000 ==> OriginsImprove(old(originated), originated)
      ensures tame ==> Weakens(Rules(cfg, old(policy)), ev, neighbors, old(pendingRequests), old(candidates),
                               old(selected),
                               old(Weak(candidates, sources, selected)), Weak(candidates, sources, selected))
      ensures Performed(cfg, ev, old(Look()), Look())
      ensures Evolved(cfg, ev, old(Look()), old(memory), Look(), memory)
      ensures Ticks(old(interfaces), ev) ==> RequestsRan(old(pendingRequests), ev.now, pendingRequests, out)
      ensures !OfOrigins(ev) ==> originated.Keys == old(originated).Keys
      ensures var keys := old(originated).Keys + originated.Keys;
        old(tame) && Behaved(env, cfg.routerId, ev, keys, old(sequenceNumber), bumps) ==> tame
    {
      hide Engine.Steady, Going, Accounted, OriginsImprove, AllNoted, HoldStep, Accepted, MostBumps, Performed, Weak,
           Weakens, Conditioned, Evolved, EventTook, Behaved, RequestsRan;
      Refresh();
      ghost var a := Instant();
      out, bumps := HandleOwing(ev);
      if tame { ConditionedNow(); }
      EventFacts(cfg, env, ev, a, Instant(), out, bumps);
    }

    /** Lifetimes recorded so far become owed, new ones are recorded after. */
    method HandleOwing(ev: Event) returns (out: set<Action>, ghost bumps: nat)
      requires Steady(clock) && ev.now >= clock && Accepted(ev)
      modifies this
      ensures Steady(clock) && clock == ev.now && HoldStep(old(HoldView()), HoldView())
      ensures EventTook(cfg, env, ev, old(Instant()), Instant(), out, bumps) && AllNoted(out, advertisedUntil)
    {
      hide Engine.Valid, Stable, Priced, Held, AllNoted, Owe, Accepted, EventTook;
      OweKeeps(owed, clock, ev.now, advertisedUntil, selected, originated, tombstones);
      owed := Owe(owed, advertisedUntil, selected, originated);
      out, bumps := HandleAndNote(ev);
      clock := ev.now;
    }

    /** Between events exactly the keys whose route lost its condition are exempt. */
    ghost method Refresh()
      requires Steady(clock)
      modifies `tainted
      ensures Steady(clock) && tainted == Weak(candidates, sources, selected)
    {
      hide Balanced, Extended, Foreign, Apart, Tame, Synced, Conditioned, Stable, Priced, Held, Weak;
      WeakIsConditioned(candidates, sources, selected);
      tainted := Weak(candidates, sources, selected);
    }

    lemma ConditionedNow()
      requires Steady(clock) && tame
      ensures Conditioned(candidates, sources, selected, tainted)
    {
    }

    method HandleAndNote(ev: Event) returns (out: set<Action>, ghost bumps: nat)
      requires Steady(ev.now) && Accepted(ev)
      modifies this
      ensures Steady(ev.now) && owed == old(owed) && clock == old(clock)
      ensures EventTook(cfg, env, ev, old(Instant()), Instant(), out, bumps) && AllNoted(out, advertisedUntil)
    {
      hide Engine.Valid, Stable, Priced, Held, AllNoted, LifetimesNoted, Accepted, EventTook;
      out, bumps := HandleValidated(ev);
      ghost var au := advertisedUntil;
      NoteLifetimes(out);
      NotedAll(au, out, advertisedUntil);
      HeldMoreAdvertised(owed, ev.now, au, selected, originated, tombstones, out, advertisedUntil);
    }

    lemma ValidIsBacked()
      requires Valid() && tame && Settled()
      ensures AllBacked(candidates, selected, {})
    {
      hide Balanced, Foreign, Apart, Synced, Conditioned, Stable, CandidatesIn, SourcesIn, InWindow, AllBacked;
      StableIsBacked(env, cfg.selection, candidates, sources, selected, memory.pending.Keys);
    }

    /** Skipping is sound: between events without a pending switch, whatever a
        reselection at any time would choose is what is selected already. */
    lemma ReselectingIsIdle(now: u64, next: Selected, mem: Memory)
      requires Steady(clock) && tame && memory.pending == map[]
      requires Reselected(cfg.selection, candidates, sources, selected, memory, now, next, mem)
      ensures next == selected
    {
      hide Balanced, Extended, Foreign, Apart, Synced, Conditioned, Priced, Held, Stable, Reselected, CandidatesIn,
           SourcesIn, InWindow;
      assert memory.pending.Keys == {};
      SkippingIsSound(env, cfg.selection, candidates, sources, selected, memory, now, next, mem);
    }
  }
}
