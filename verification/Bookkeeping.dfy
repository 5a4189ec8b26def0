/** Candidate counts, limits and stored metrics
    (crates/babel-protocol/src/engine/rib.rs:59-97, 184-255; engine/timers.rs:26-69;
    engine/policy.rs:12-31; engine/neighbors.rs:79-88). */
module Bookkeeping {
  import opened Model
  import opened EngineTypes

  function CandidatesOf(cands: Candidates, nk: NeighborKey): set<CandidateKey> {
    set ck | ck in cands && ck.1 == nk
  }

  /** Every candidate's neighbour exists. */
  predicate Attached(neighbors: Neighbors, cands: Candidates) {
    forall ck :: ck in cands ==> ck.1 in neighbors
  }

  /** Each neighbour's counter is the number of its candidates. */
  predicate Counted(neighbors: Neighbors, cands: Candidates) {
    forall nk :: nk in neighbors ==> neighbors[nk].candidates == |CandidatesOf(cands, nk)|
  }

  predicate WithinLimits(limits: Limits, neighbors: Neighbors, cands: Candidates) {
    && |neighbors| <= limits.maxNeighbors && |cands| <= limits.maxCandidates
    && forall nk :: nk in neighbors ==> neighbors[nk].candidates <= limits.maxPerNeighbor
  }

  predicate Balanced(limits: Limits, neighbors: Neighbors, cands: Candidates) {
    Attached(neighbors, cands) && Counted(neighbors, cands) && WithinLimits(limits, neighbors, cands)
  }

  /** Each stored metric is the advertised one extended by the current link cost. */
  predicate Priced(algebra: (u16, u16) -> u16, neighbors: Neighbors, cands: Candidates) {
    forall ck :: ck in cands && ck.1 in neighbors ==>
      cands[ck].metric == SafeExtend(algebra, cands[ck].advertised, LinkCost(neighbors[ck.1]))
  }

  function WithCount(neighbors: Neighbors, nk: NeighborKey, count: nat): Neighbors
    requires nk in neighbors
  {
    neighbors[nk := neighbors[nk].(candidates := count)]
  }

  lemma SetSmaller<T>(a: set<T>, b: set<T>)
    requires a <= b
    ensures |a| <= |b|
  {
    if a != {} {
      var x :| x in a;
      SetSmaller(a - {x}, b - {x});
    }
  }

  lemma CountAfterAdd(cands: Candidates, ck: CandidateKey, c: Candidate, nk: NeighborKey)
    requires ck !in cands
    ensures |CandidatesOf(cands[ck := c], nk)| == |CandidatesOf(cands, nk)| + if nk == ck.1 then 1 else 0
  {
    if nk == ck.1 {
      assert CandidatesOf(cands[ck := c], nk) == CandidatesOf(cands, nk) + {ck};
    } else {
      assert CandidatesOf(cands[ck := c], nk) == CandidatesOf(cands, nk);
    }
  }

  lemma CountAfterRemove(cands: Candidates, ck: CandidateKey, nk: NeighborKey)
    requires ck in cands
    ensures |CandidatesOf(cands, nk)| == |CandidatesOf(cands - {ck}, nk)| + if nk == ck.1 then 1 else 0
  {
    if nk == ck.1 {
      assert CandidatesOf(cands, nk) == CandidatesOf(cands - {ck}, nk) + {ck};
    } else {
      assert CandidatesOf(cands - {ck}, nk) == CandidatesOf(cands, nk);
    }
  }

  lemma SizeAfterPut<K, V>(m: map<K, V>, k: K, v: V)
    ensures |m[k := v]| == |m| + if k in m then 0 else 1
  {
    assert m[k := v].Keys == m.Keys + {k};
    assert |m[k := v]| == |m[k := v].Keys| && |m| == |m.Keys|;
  }

  lemma SizeAfterRemove<K, V>(m: map<K, V>, k: K)
    requires k in m
    ensures |m - {k}| == |m| - 1
  {
    assert (m - {k}).Keys == m.Keys - {k};
    assert |m - {k}| == |(m - {k}).Keys| && |m| == |m.Keys|;
  }

  /** Admitting a new candidate, below both limits. */
  lemma AdmitKeeps(limits: Limits, neighbors: Neighbors, cands: Candidates, ck: CandidateKey, c: Candidate)
    requires Balanced(limits, neighbors, cands) && ck !in cands && ck.1 in neighbors
    requires |cands| < limits.maxCandidates && neighbors[ck.1].candidates < limits.maxPerNeighbor
    ensures Balanced(limits, WithCount(neighbors, ck.1, neighbors[ck.1].candidates + 1), cands[ck := c])
  {
    hide CandidatesOf;
    SizeAfterPut(cands, ck, c);
    SizeAfterPut(neighbors, ck.1, neighbors[ck.1].(candidates := neighbors[ck.1].candidates + 1));
    forall nk | nk in neighbors
      ensures |CandidatesOf(cands[ck := c], nk)| == |CandidatesOf(cands, nk)| + if nk == ck.1 then 1 else 0
    {
      CountAfterAdd(cands, ck, c, nk);
    }
  }

  /** Removing one candidate: its neighbour's counter cannot underflow. */
  lemma RemoveKeeps(limits: Limits, neighbors: Neighbors, cands: Candidates, ck: CandidateKey)
    requires Balanced(limits, neighbors, cands) && ck in cands
    ensures ck.1 in neighbors && neighbors[ck.1].candidates > 0
    ensures Balanced(limits, WithCount(neighbors, ck.1, neighbors[ck.1].candidates - 1), cands - {ck})
  {
    hide CandidatesOf;
    CountAfterRemove(cands, ck, ck.1);
    SizeAfterRemove(cands, ck);
    SizeAfterPut(neighbors, ck.1, neighbors[ck.1].(candidates := neighbors[ck.1].candidates - 1));
    forall nk | nk in neighbors
      ensures |CandidatesOf(cands, nk)| == |CandidatesOf(cands - {ck}, nk)| + if nk == ck.1 then 1 else 0
    {
      CountAfterRemove(cands, ck, nk);
    }
  }

  /** Changing candidates in place, or link quality, keeps the counts. */
  lemma InPlaceKeeps(limits: Limits, neighbors: Neighbors, cands: Candidates, neighbors': Neighbors, cands': Candidates)
    requires Balanced(limits, neighbors, cands) && cands'.Keys == cands.Keys && neighbors'.Keys == neighbors.Keys
    requires forall nk :: nk in neighbors ==> neighbors'[nk].candidates == neighbors[nk].candidates
    ensures Balanced(limits, neighbors', cands')
  {
    assert |neighbors'| == |neighbors'.Keys| && |cands'| == |cands'.Keys|;
    assert |neighbors| == |neighbors.Keys| && |cands| == |cands.Keys|;
    forall nk | nk in neighbors' ensures neighbors'[nk].candidates == |CandidatesOf(cands', nk)| {
      assert CandidatesOf(cands', nk) == CandidatesOf(cands, nk);
    }
  }

  /** Dropping neighbours together with exactly their candidates. */
  lemma DropKeeps(limits: Limits, neighbors: Neighbors, cands: Candidates, gone: set<NeighborKey>, cands': Candidates)
    requires Balanced(limits, neighbors, cands)
    requires cands'.Keys == set ck | ck in cands && ck.1 !in gone
    ensures Balanced(limits, neighbors - gone, cands')
  {
    var left := neighbors - gone;
    assert |left| == |left.Keys| && |cands'| == |cands'.Keys| && |neighbors| == |neighbors.Keys|
      && |cands| == |cands.Keys|;
    SetSmaller(left.Keys, neighbors.Keys);
    SetSmaller(cands'.Keys, cands.Keys);
    forall nk | nk in left ensures left[nk].candidates == |CandidatesOf(cands', nk)| {
      assert CandidatesOf(cands', nk) == CandidatesOf(cands, nk);
    }
  }

  /** A new neighbour starts without candidates. */
  lemma MeetKeeps(limits: Limits, neighbors: Neighbors, cands: Candidates, nk: NeighborKey, n: Neighbor)
    requires Balanced(limits, neighbors, cands) && nk !in neighbors && |neighbors| < limits.maxNeighbors
      && n.candidates == 0
    ensures Balanced(limits, neighbors[nk := n], cands)
  {
    SizeAfterPut(neighbors, nk, n);
    assert CandidatesOf(cands, nk) == {};
  }

  /** Recounting from scratch after some candidates were dropped. */
  lemma RecountKeeps(limits: Limits, neighbors: Neighbors, cands: Candidates, neighbors': Neighbors, cands': Candidates)
    requires Balanced(limits, neighbors, cands) && cands'.Keys <= cands.Keys && neighbors'.Keys == neighbors.Keys
    requires Counted(neighbors', cands')
    ensures Balanced(limits, neighbors', cands')
  {
    assert |neighbors'| == |neighbors'.Keys| && |cands'| == |cands'.Keys|;
    assert |neighbors| == |neighbors.Keys| && |cands| == |cands.Keys|;
    SetSmaller(cands'.Keys, cands.Keys);
    forall nk | nk in neighbors' ensures neighbors'[nk].candidates <= limits.maxPerNeighbor {
      SetSmaller(CandidatesOf(cands', nk), CandidatesOf(cands, nk));
    }
  }
}
