/** The selection loop of `reselect`
    (crates/babel-protocol/src/engine/rib.rs:257-356, 396-401). */
module Choosing {
  import opened Model
  import opened EngineTypes
  import opened Hysteresis
  import opened Feasibility
  import opened Reselection

  /** The preferred one of some eligible candidates. */
  method PickBest(cands: Candidates, sources: Sources, selected: Selected, k: RouteKey) returns (best: CandidateKey)
    requires EligibleSet(cands, sources, selected, k) != {}
    ensures IsBest(cands, sources, selected, k, best)
  {
    hide Eligible, Preferred;
    var todo := EligibleSet(cands, sources, selected, k);
    best :| best in todo;
    todo := todo - {best};
    PreferredToItself(cands, best);
    while todo != {}
      invariant best in cands && EligibleFor(cands, sources, selected, k, best)
      invariant todo <= EligibleSet(cands, sources, selected, k)
      invariant forall ck :: ck in EligibleSet(cands, sources, selected, k) - todo ==>
        ck in cands && Preferred(cands, best, ck)
      decreases todo
    {
      var ck :| ck in todo;
      PreferredToItself(cands, ck);
      if !Preferred(cands, best, ck) {
        PreferredIsTotal(cands, best, ck);
        BestOfMore(cands, EligibleSet(cands, sources, selected, k) - todo, best, ck);
        best := ck;
      }
      todo := todo - {ck};
    }
  }

  lemma PreferredToItself(cands: Candidates, a: CandidateKey)
    requires a in cands
    ensures Preferred(cands, a, a)
  {
    Irreflexive(Rank(a, cands[a]));
  }

  lemma BestOfMore(cands: Candidates, seen: set<CandidateKey>, best: CandidateKey, better: CandidateKey)
    requires best in cands && better in cands && Preferred(cands, better, best)
    requires forall ck :: ck in seen ==> ck in cands && Preferred(cands, best, ck)
    ensures forall ck :: ck in seen ==> Preferred(cands, better, ck)
  {
    hide Preferred;
    forall ck | ck in seen ensures Preferred(cands, better, ck) {
      PreferredChains(cands, better, best, ck);
    }
  }

  method FindCurrent(cands: Candidates, sources: Sources, selected: Selected, k: RouteKey)
    returns (cur: Option<CandidateKey>)
    ensures IsCurrent(cands, sources, selected, k, cur)
  {
    hide Eligible, Same;
    cur := None;
    if k in selected {
      var todo := EligibleSet(cands, sources, selected, k);
      while todo != {}
        invariant todo <= EligibleSet(cands, sources, selected, k)
        invariant forall ck :: ck in EligibleSet(cands, sources, selected, k) - todo ==>
          !Same(selected[k], ck, cands[ck])
        decreases todo
      {
        var ck :| ck in todo;
        if Same(selected[k], ck, cands[ck]) { return Some(ck); }
        todo := todo - {ck};
      }
      forall ck | ck in cands && EligibleFor(cands, sources, selected, k, ck) ensures !Same(selected[k], ck,
          cands[ck]) {
        AnyEligible(cands, sources, selected, k, ck);
      }
    }
  }

  function Put<T>(m: map<RouteKey, T>, k: RouteKey, v: Option<T>): map<RouteKey, T> {
    if v.Some? then m[k := v.value] else m - {k}
  }

  function Remember(m: Memory, k: RouteKey, st: KeyState): Memory {
    var settled := if st.settled then m.settled + {k} else m.settled - {k};
    Memory(Put(m.pending, k, st.pending), Put(m.since, k, st.since), settled)
  }

  function Forget(m: Memory, keep: set<RouteKey>): Memory {
    Memory(map k | k in m.pending && k in keep :: m.pending[k],
           map k | k in m.since && k in keep :: m.since[k],
           m.settled * keep)
  }

  lemma RememberOne(m: Memory, k: RouteKey, st: KeyState, selected: Selected, other: RouteKey)
    ensures Known(selected, Remember(m, k, st), k) == st.(chosen := Known(selected, m, k).chosen)
    ensures other != k ==> Known(selected, Remember(m, k, st), other) == Known(selected, m, other)
  {
  }

  /** A key's outcome depends on nothing recorded for other keys. */
  lemma KeyFrame(cfg: Selection, cands: Candidates, sources: Sources, selected: Selected, m: Memory, now: u64,
                 k: RouteKey, s1: Selected, m1: Memory, s2: Selected, m2: Memory)
    requires KeyReselected(cfg, cands, sources, selected, m, now, k, s1, m1)
    requires Known(s1, m1, k) == Known(s2, m2, k) && Lookup(s1, k) == Lookup(s2, k)
    ensures KeyReselected(cfg, cands, sources, selected, m, now, k, s2, m2)
  {
    hide IsCurrent, IsBest, Decide, EligibleFor, Taken;
    if EligibleSet(cands, sources, selected, k) != {} {
      var cur, best :| Chose(cfg, cands, sources, selected, m, now, k, cur, best, s1, m1);
      assert Chose(cfg, cands, sources, selected, m, now, k, cur, best, s2, m2);
    }
  }

  /** One key's turn. */
  method ChooseOne(cfg: Selection, cands: Candidates, sources: Sources, selected: Selected, m: Memory, now: u64,
                   k: RouteKey, next: Selected, mem: Memory) returns (next': Selected, mem': Memory)
    requires EligibleSet(cands, sources, selected, k) != {}
    requires Lookup(mem.pending, k) == Lookup(m.pending, k) && Lookup(mem.since, k) == Lookup(m.since, k)
    requires k in mem.settled <==> k in m.settled
    ensures KeyReselected(cfg, cands, sources, selected, m, now, k, next', mem')
    ensures next'.Keys == next.Keys + {k}
    ensures forall other :: other != k ==>
      Lookup(next', other) == Lookup(next, other) && Known(next', mem', other) == Known(next, mem, other)
  {
    hide IsCurrent, IsBest, Decide, Eligible, Preferred;
    var cur := FindCurrent(cands, sources, selected, k);
    var best := PickBest(cands, sources, selected, k);
    ChosenThere(cands, sources, selected, k, cur, best);
    var st := Known(selected, m, k);
    var st' := Decide(cfg, st, LookAt(cands, now, cur, best));
    var taken := Taken(cfg, st, cands, now, cur, best);
    TakenIdentity(cfg, cands, sources, selected, m, now, k, cur, best);
    next', mem' := next[k := FromCandidate(taken, cands[taken])], Remember(mem, k, st');
    forall other ensures other != k ==> Known(next', mem', other) == Known(next, mem, other) {
      RememberOne(mem, k, st', next', other);
    }
    RememberOne(mem, k, st', next', k);
    assert Chose(cfg, cands, sources, selected, m, now, k, cur, best, next', mem');
  }

  /** What is taken has the identity the rule decided on. */
  lemma TakenIdentity(cfg: Selection, cands: Candidates, sources: Sources, selected: Selected, m: Memory, now: u64,
                      k: RouteKey, cur: Option<CandidateKey>, best: CandidateKey)
    requires IsCurrent(cands, sources, selected, k, cur) && IsBest(cands, sources, selected, k, best)
    ensures var st := Known(selected, m, k);
      var taken := Taken(cfg, st, cands, now, cur, best);
      && taken in cands
      && Decide(cfg, st, LookAt(cands, now, cur, best)).chosen == Some(IdentOf(FromCandidate(taken, cands[taken])))
  {
    hide Eligible, Preferred, Significant;
  }

  /** Every key with eligible candidates takes its turn; the others are forgotten. */
  method ChooseAll(cfg: Selection, cands: Candidates, sources: Sources, selected: Selected, m: Memory, now: u64)
    returns (selected': Selected, m': Memory)
    ensures Reselected(cfg, cands, sources, selected, m, now, selected', m')
  {
    hide KeyReselected, Eligible, Known, Forget;
    var keys := set ck | ck in cands && Eligible(cands, sources, selected, ck) :: ck.0;
    var todo, next: Selected, mem := keys, map[], m;
    while todo != {}
      invariant todo <= keys && next.Keys == keys - todo
      invariant forall k :: k in keys - todo ==> KeyReselected(cfg, cands, sources, selected, m, now, k, next, mem)
      invariant forall k :: k !in keys - todo ==> Known(next, mem, k) == Known(next, m, k)
      decreases todo
    {
      var k :| k in todo;
      var ck :| ck in cands && ck.0 == k && Eligible(cands, sources, selected, ck);
      AnyEligible(cands, sources, selected, k, ck);
      SameMemory(next, mem, m, k);
      var next', mem' := ChooseOne(cfg, cands, sources, selected, m, now, k, next, mem);
      forall other | other in keys - todo ensures KeyReselected(cfg, cands, sources, selected, m, now, other, next',
                                                                mem') {
        KeyFrame(cfg, cands, sources, selected, m, now, other, next, mem, next', mem');
      }
      forall other | other !in keys - (todo - {k}) ensures Known(next', mem', other) == Known(next', m, other) {
        assert Known(next, mem, other) == Known(next, m, other);
        KnownElsewhere(next, next', mem, mem', m, other);
      }
      next, mem, todo := next', mem', todo - {k};
    }
    selected', m' := next, Forget(mem, next.Keys);
    forall k ensures KeyReselected(cfg, cands, sources, selected, m, now, k, selected', m') {
      ForgetKeeps(next, mem, k);
      if k in keys {
        KeyFrame(cfg, cands, sources, selected, m, now, k, next, mem, selected', m');
      } else {
        NoneEligible(cfg, cands, sources, selected, m, now, k, keys, selected', m');
      }
    }
  }

  lemma SameMemory(selected: Selected, m1: Memory, m2: Memory, k: RouteKey)
    requires Known(selected, m1, k) == Known(selected, m2, k)
    ensures Lookup(m1.pending, k) == Lookup(m2.pending, k) && Lookup(m1.since, k) == Lookup(m2.since, k)
    ensures k in m1.settled <==> k in m2.settled
  {
  }

  lemma KnownElsewhere(next: Selected, next': Selected, mem: Memory, mem': Memory, m: Memory, k: RouteKey)
    requires Known(next', mem', k) == Known(next, mem, k) && Known(next, mem, k) == Known(next, m, k)
    ensures Known(next', mem', k) == Known(next', m, k)
  {
  }

  lemma ForgetKeeps(next: Selected, mem: Memory, k: RouteKey)
    ensures k in next ==> Known(next, Forget(mem, next.Keys), k) == Known(next, mem, k)
    ensures k !in next ==> Absent(next, Forget(mem, next.Keys), k)
  {
  }

  lemma NoneEligible(cfg: Selection, cands: Candidates, sources: Sources, selected: Selected, m: Memory, now: u64,
                     k: RouteKey, keys: set<RouteKey>, selected': Selected, m': Memory)
    requires keys == set ck | ck in cands && Eligible(cands, sources, selected, ck) :: ck.0
    requires k !in keys && Absent(selected', m', k)
    ensures KeyReselected(cfg, cands, sources, selected, m, now, k, selected', m')
  {
    hide Eligible;
    assert EligibleSet(cands, sources, selected, k) == {};
  }
}
