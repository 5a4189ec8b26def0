/** What `reselect` decides for every key, and why skipping it is sound
    (crates/babel-protocol/src/engine/rib.rs:257-357, 396-401). */
module Reselection {
  import opened Model
  import opened EngineTypes
  import opened Hysteresis
  import opened Feasibility

  /** Hysteresis memory of the whole engine. */
  datatype Memory = Memory(pending: map<RouteKey, PendingSwitch>, since: map<RouteKey, u64>, settled: set<RouteKey>)

  function Lookup<T>(m: map<RouteKey, T>, k: RouteKey): Option<T> { if k in m then Some(m[k]) else None }

  function IdentOf(r: SelectedRoute): Ident { Ident(r.routerId, r.nextHop, r.interface) }

  function Known(selected: Selected, m: Memory, k: RouteKey): KeyState {
    var chosen := if k in selected then Some(IdentOf(selected[k])) else None;
    KeyState(chosen, Lookup(m.pending, k), Lookup(m.since, k), k in m.settled)
  }

  predicate EligibleFor(cands: Candidates, sources: Sources, selected: Selected, k: RouteKey, ck: CandidateKey) {
    ck in cands && ck.0 == k && Eligible(cands, sources, selected, ck)
  }

  function EligibleSet(cands: Candidates, sources: Sources, selected: Selected, k: RouteKey): set<CandidateKey> {
    set ck | ck in cands && EligibleFor(cands, sources, selected, k, ck)
  }

  /** The eligible candidate with the selected route's identity, if there is one. */
  predicate IsCurrent(cands: Candidates, sources: Sources, selected: Selected, k: RouteKey, cur: Option<CandidateKey>) {
    if cur.Some? then
      k in selected && EligibleFor(cands, sources, selected, k, cur.value)
        && Same(selected[k], cur.value, cands[cur.value])
    else
      k in selected ==> forall ck :: ck in cands && EligibleFor(cands, sources, selected, k, ck) ==>
        !Same(selected[k], ck, cands[ck])
  }

  predicate IsBest(cands: Candidates, sources: Sources, selected: Selected, k: RouteKey, best: CandidateKey) {
    && EligibleFor(cands, sources, selected, k, best)
    && forall ck :: ck in cands && EligibleFor(cands, sources, selected, k, ck) ==> Preferred(cands, best, ck)
  }

  lemma ChosenThere(cands: Candidates, sources: Sources, selected: Selected, k: RouteKey, cur: Option<CandidateKey>,
                    best: CandidateKey)
    requires IsCurrent(cands, sources, selected, k, cur) && IsBest(cands, sources, selected, k, best)
    ensures best in cands && (cur.Some? ==> cur.value in cands)
  {
  }

  function LookAt(cands: Candidates, now: u64, cur: Option<CandidateKey>, best: CandidateKey): Look
    requires best in cands && (cur.Some? ==> cur.value in cands)
  {
    Look(now, if cur.Some? then Some(cands[cur.value].metric) else None, IdentOf(FromCandidate(best, cands[best])),
         cands[best].metric)
  }

  /** The candidate taken when this is current and that is best. */
  function Taken(cfg: Selection, st: KeyState, cands: Candidates, now: u64, cur: Option<CandidateKey>,
                 best: CandidateKey): CandidateKey
    requires best in cands && (cur.Some? ==> cur.value in cands)
  {
    if cur.Some? && Decide(cfg, st, LookAt(cands, now, cur, best)).chosen == st.chosen then cur.value else best
  }

  predicate Chose(cfg: Selection, cands: Candidates, sources: Sources, selected: Selected, m: Memory, now: u64,
                  k: RouteKey, cur: Option<CandidateKey>, best: CandidateKey, selected': Selected, m': Memory) {
    && IsCurrent(cands, sources, selected, k, cur) && IsBest(cands, sources, selected, k, best)
    && k in selected'
    && var st := Known(selected, m, k);
    && Known(selected', m', k) == Decide(cfg, st, LookAt(cands, now, cur, best))
    && var taken := Taken(cfg, st, cands, now, cur, best);
    selected'[k] == FromCandidate(taken, cands[taken])
  }

  predicate Absent(selected': Selected, m': Memory, k: RouteKey) {
    k !in selected' && k !in m'.pending && k !in m'.since && k !in m'.settled
  }

  ghost predicate KeyReselected(cfg: Selection, cands: Candidates, sources: Sources, selected: Selected, m: Memory,
                                now: u64, k: RouteKey, selected': Selected, m': Memory) {
    if EligibleSet(cands, sources, selected, k) == {} then Absent(selected', m', k)
    else exists cur, best :: Chose(cfg, cands, sources, selected, m, now, k, cur, best, selected', m')
  }

  /** Every key is decided by the rule; keys without eligible candidates are forgotten. */
  ghost predicate Reselected(cfg: Selection, cands: Candidates, sources: Sources, selected: Selected, m: Memory,
                             now: u64, selected': Selected, m': Memory) {
    forall k :: KeyReselected(cfg, cands, sources, selected, m, now, k, selected', m')
  }

  // ----- stability

  /** Selection and candidates agree on this key: whoever is selected is an
      eligible candidate as it stands, and nobody eligible clears the margins
      unless a switch is already pending. */
  predicate StableKey(cfg: Selection, cands: Candidates, sources: Sources, selected: Selected, pending: set<RouteKey>,
                      k: RouteKey) {
    && (k !in selected ==> forall ck :: ck in cands && ck.0 == k ==> !Eligible(cands, sources, selected, ck))
    && (k in selected ==>
          && (exists ck :: ck in cands && ck.0 == k && cands[ck].metric < INFINITY
                           && selected[k] == FromCandidate(ck, cands[ck]))
          && (k in pending ||
              forall ck :: ck in cands && ck.0 == k && Eligible(cands, sources, selected, ck) ==>
                !Significant(cands[ck].metric, selected[k].metric, cfg)))
  }

  ghost predicate Stable(cfg: Selection, cands: Candidates, sources: Sources, selected: Selected,
                         pending: set<RouteKey>) {
    forall k :: StableKey(cfg, cands, sources, selected, pending, k)
  }

  lemma NotAheadOfItself(metric: u16, other: u16, cfg: Selection)
    requires other <= metric
    ensures !Significant(metric, other, cfg)
  {
  }

  lemma AnyEligible(cands: Candidates, sources: Sources, selected: Selected, k: RouteKey, ck: CandidateKey)
    requires EligibleFor(cands, sources, selected, k, ck)
    ensures ck in EligibleSet(cands, sources, selected, k)
  {
  }

  lemma TakenIsEligible(cfg: Selection, cands: Candidates, sources: Sources, selected: Selected, m: Memory, now: u64,
                        k: RouteKey, cur: Option<CandidateKey>, best: CandidateKey)
    requires IsCurrent(cands, sources, selected, k, cur) && IsBest(cands, sources, selected, k, best)
    ensures EligibleFor(cands, sources, selected, k, Taken(cfg, Known(selected, m, k), cands, now, cur, best))
  {
    hide Decide, Eligible, Preferred;
  }

  /** After a choice, nobody still eligible clears the margins over what was
      taken, unless the switch is pending. */
  lemma ChosenIsStable(env: Env, cfg: Selection, cands: Candidates, sources: Sources, selected: Selected, m: Memory,
                       now: u64, k: RouteKey, cur: Option<CandidateKey>, best: CandidateKey, selected': Selected,
                       m': Memory, ck: CandidateKey)
    requires CandidatesIn(env, cands)
    requires Chose(cfg, cands, sources, selected, m, now, k, cur, best, selected', m')
    requires ck in cands && ck.0 == k && Eligible(cands, sources, selected', ck) && k !in m'.pending
    ensures !Significant(cands[ck].metric, selected'[k].metric, cfg)
  {
    hide RankLess, Significant, InWindow;
    var st := Known(selected, m, k);
    var taken := Taken(cfg, st, cands, now, cur, best);
    TakenIsEligible(cfg, cands, sources, selected, m, now, k, cur, best);
    if Same(selected'[k], ck, cands[ck]) {
      IdentityIsUnique(env, cands, ck, taken, selected'[k]);
      NotAheadOfItself(cands[ck].metric, selected'[k].metric, cfg);
    } else {
      assert EligibleFor(cands, sources, selected, k, ck);
      PreferredByMetric(cands, best, ck);
      KeptIsNotBeaten(env, cfg, cands, sources, selected, m, now, k, cur, best, selected', m');
      if Significant(cands[ck].metric, selected'[k].metric, cfg) {
        SignificantIsMonotone(cands[best].metric, cands[ck].metric, selected'[k].metric, cfg);
      }
    }
  }

  lemma KeptIsNotBeaten(env: Env, cfg: Selection, cands: Candidates, sources: Sources, selected: Selected, m: Memory,
                        now: u64, k: RouteKey, cur: Option<CandidateKey>, best: CandidateKey, selected': Selected,
                        m': Memory)
    requires CandidatesIn(env, cands)
    requires Chose(cfg, cands, sources, selected, m, now, k, cur, best, selected', m') && k !in m'.pending
    ensures !Significant(cands[best].metric, selected'[k].metric, cfg)
  {
    hide RankLess, InWindow, Eligible, Preferred, Significant;
    var st := Known(selected, m, k);
    var taken := Taken(cfg, st, cands, now, cur, best);
    if taken == best {
      NotAheadOfItself(cands[best].metric, selected'[k].metric, cfg);
    } else if Same(selected[k], best, cands[best]) {
      IdentityIsUnique(env, cands, best, cur.value, selected[k]);
    }
  }

  lemma ReselectedIsStable(env: Env, cfg: Selection, cands: Candidates, sources: Sources, selected: Selected, m: Memory,
                           now: u64, selected': Selected, m': Memory)
    requires CandidatesIn(env, cands) && Reselected(cfg, cands, sources, selected, m, now, selected', m')
    ensures Stable(cfg, cands, sources, selected', m'.pending.Keys)
  {
    hide Chose, Significant, CandidatesIn;
    forall k ensures StableKey(cfg, cands, sources, selected', m'.pending.Keys, k) {
      assert KeyReselected(cfg, cands, sources, selected, m, now, k, selected', m');
      KeyIsStable(env, cfg, cands, sources, selected, m, now, k, selected', m');
    }
  }

  lemma KeyIsStable(env: Env, cfg: Selection, cands: Candidates, sources: Sources, selected: Selected, m: Memory,
                    now: u64, k: RouteKey, selected': Selected, m': Memory)
    requires CandidatesIn(env, cands) && KeyReselected(cfg, cands, sources, selected, m, now, k, selected', m')
    ensures StableKey(cfg, cands, sources, selected', m'.pending.Keys, k)
  {
    hide Significant, CandidatesIn, Decide, Preferred;
    if EligibleSet(cands, sources, selected, k) == {} {
      forall ck | ck in cands && ck.0 == k ensures !Eligible(cands, sources, selected', ck) {
        if Eligible(cands, sources, selected, ck) { AnyEligible(cands, sources, selected, k, ck); }
      }
    } else {
      var cur, best :| Chose(cfg, cands, sources, selected, m, now, k, cur, best, selected', m');
      TakenIsEligible(cfg, cands, sources, selected, m, now, k, cur, best);
      if k !in m'.pending {
        forall ck | ck in cands && ck.0 == k && Eligible(cands, sources, selected', ck)
          ensures !Significant(cands[ck].metric, selected'[k].metric, cfg)
        {
          ChosenIsStable(env, cfg, cands, sources, selected, m, now, k, cur, best, selected', m', ck);
        }
      }
    }
  }

  /** Better recorded distances leave a stable selection stable. */
  lemma StableShrinks(env: Env, cfg: Selection, now: u64, cands: Candidates, s: Sources, s': Sources,
                      selected: Selected, pending: set<RouteKey>)
    requires SourcesIn(env, s) && SourcesIn(env, s') && Improved(env, now, s, s') && CandidatesIn(env, cands)
    requires Stable(cfg, cands, s, selected, pending)
    ensures Stable(cfg, cands, s', selected, pending)
  {
    hide Significant, SourcesIn, Improved, CandidatesIn, Eligible;
    forall k ensures StableKey(cfg, cands, s', selected, pending, k) {
      assert StableKey(cfg, cands, s, selected, pending, k);
      forall ck | ck in cands && Eligible(cands, s', selected, ck) ensures Eligible(cands, s, selected, ck) {
        EligibleShrinks(env, now, cands, s, s', selected, ck);
      }
    }
  }

  /** Skipping is sound: on a stable key without a pending switch, reselecting
      at any later time changes nothing. */
  lemma StableKeyIsIdle(env: Env, cfg: Selection, cands: Candidates, sources: Sources, selected: Selected, m: Memory,
                        now: u64, k: RouteKey, selected': Selected, m': Memory)
    requires CandidatesIn(env, cands) && StableKey(cfg, cands, sources, selected, m.pending.Keys, k) && k !in m.pending
    requires KeyReselected(cfg, cands, sources, selected, m, now, k, selected', m')
    ensures Lookup(selected', k) == Lookup(selected, k)
  {
    hide CandidatesIn, Preferred, Significant;
    if k in selected {
      var here :| here in cands && here.0 == k && cands[here].metric < INFINITY
        && selected[k] == FromCandidate(here, cands[here]);
      assert EligibleFor(cands, sources, selected, k, here);
      AnyEligible(cands, sources, selected, k, here);
      var cur, best :| Chose(cfg, cands, sources, selected, m, now, k, cur, best, selected', m');
      IdentityIsUnique(env, cands, cur.value, here, selected[k]);
      assert !Tempting(cfg, Known(selected, m, k), LookAt(cands, now, cur, best));
    } else {
      assert EligibleSet(cands, sources, selected, k) == {};
    }
  }

  lemma SkippingIsSound(env: Env, cfg: Selection, cands: Candidates, sources: Sources, selected: Selected, m: Memory,
                        now: u64, selected': Selected, m': Memory)
    requires CandidatesIn(env, cands) && Stable(cfg, cands, sources, selected, m.pending.Keys) && m.pending == map[]
    requires Reselected(cfg, cands, sources, selected, m, now, selected', m')
    ensures selected' == selected
  {
    hide CandidatesIn, StableKey, KeyReselected;
    forall k ensures Lookup(selected', k) == Lookup(selected, k) {
      assert StableKey(cfg, cands, sources, selected, m.pending.Keys, k);
      assert KeyReselected(cfg, cands, sources, selected, m, now, k, selected', m');
      StableKeyIsIdle(env, cfg, cands, sources, selected, m, now, k, selected', m');
    }
    forall k ensures k in selected' <==> k in selected {
      assert Lookup(selected', k) == Lookup(selected, k);
    }
    forall k | k in selected ensures selected'[k] == selected[k] {
      assert Lookup(selected', k) == Lookup(selected, k);
    }
  }

  // ----- the selected route keeps the feasibility condition

  /** Every candidate that is retained as selected also meets the condition. */
  predicate KeepsCondition(cands: Candidates, sources: Sources, selected: Selected, k: RouteKey) {
    k in selected ==>
      forall ck :: ck in cands && ck.0 == k && Same(selected[k], ck, cands[ck]) && cands[ck].advertised != INFINITY ==>
        MeetsFeasibility(sources, ck, cands[ck])
  }

  /** A reselection that moves a key to another route re-establishes the condition. */
  lemma MovingMeetsCondition(env: Env, cfg: Selection, cands: Candidates, sources: Sources, selected: Selected,
                             m: Memory, now: u64, k: RouteKey, selected': Selected, m': Memory)
    requires CandidatesIn(env, cands) && KeyReselected(cfg, cands, sources, selected, m, now, k, selected', m')
    requires k in selected && k in selected' && IdentOf(selected[k]) == IdentOf(selected'[k]) ==>
      KeepsCondition(cands, sources, selected, k)
    ensures KeepsCondition(cands, sources, selected', k)
  {
    hide CandidatesIn, Preferred, Significant, Decide;
    if k in selected' {
      var cur, best :| Chose(cfg, cands, sources, selected, m, now, k, cur, best, selected', m');
      TakenIsEligible(cfg, cands, sources, selected, m, now, k, cur, best);
      var taken := Taken(cfg, Known(selected, m, k), cands, now, cur, best);
      forall ck | ck in cands && ck.0 == k && Same(selected'[k], ck, cands[ck]) && cands[ck].advertised != INFINITY
        ensures MeetsFeasibility(sources, ck, cands[ck])
      {
        IdentityIsUnique(env, cands, ck, taken, selected'[k]);
      }
    }
  }

  /** Announcing `d` for this route and router records nothing that the
      selected route's own offer does not beat. */
  predicate Backs(cands: Candidates, selected: Selected, k: RouteKey, routerId: RouterId, d: Distance) {
    k in selected && selected[k].routerId == routerId ==>
      forall ck :: ck in cands && ck.0 == k && Same(selected[k], ck, cands[ck]) && cands[ck].advertised != INFINITY ==>
        cands[ck].Offered().FeasibleAgainst(d)
  }

  /** An announcement the selected route's offer beats does not cost it the condition. */
  lemma AnnouncingKeepsCondition(cands: Candidates, s: Sources, selected: Selected, k: RouteKey, routerId: RouterId,
                                 d: Distance, now: u64)
    requires KeepsCondition(cands, s, selected, k) && Backs(cands, selected, k, routerId, d)
    ensures KeepsCondition(cands, Maintain(s, (k, routerId), d, now), selected, k)
  {
  }

  /** Exactly when an announcement leaves the condition standing: the selected
      route's offer beats it, or something at least as good was recorded before. */
  lemma AnnouncingCostsCondition(cands: Candidates, s: Sources, selected: Selected, k: RouteKey, routerId: RouterId,
                                 d: Distance, now: u64)
    requires KeepsCondition(cands, s, selected, k)
    ensures KeepsCondition(cands, Maintain(s, (k, routerId), d, now), selected, k) <==>
      Backs(cands, selected, k, routerId, d) || ((k, routerId) in s && !d.FeasibleAgainst(s[(k, routerId)].distance))
  {
    var sk := (k, routerId);
    var s' := Maintain(s, sk, d, now);
    if KeepsCondition(cands, s', selected, k) && !(sk in s && !d.FeasibleAgainst(s[sk].distance)) {
      assert s'[sk].distance == d;
      if k in selected && selected[k].routerId == routerId {
        forall ck | ck in cands && ck.0 == k && Same(selected[k], ck, cands[ck]) && cands[ck].advertised != INFINITY
          ensures cands[ck].Offered().FeasibleAgainst(d)
        {
          assert MeetsFeasibility(s', ck, cands[ck]);
        }
      }
    }
  }

  /** The selected entry may be announced as it stands. */
  predicate Backed(cands: Candidates, selected: Selected, k: RouteKey) {
    k in selected ==> Backs(cands, selected, k, selected[k].routerId, Distance(selected[k].seqno, selected[k].metric))
  }
}
