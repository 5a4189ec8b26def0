/** Hysteresis over whole runs of the engine: its selection and memory move only
    by rounds of reselection, so that every switch away from a usable route has
    been earned (crates/babel-protocol/src/engine/rib.rs:257-357). */
module Switching {
  import opened Model
  import opened EngineTypes
  import opened Hysteresis
  import opened Feasibility
  import opened Reselection

  /** One reselection: what it looked at, and what it left. */
  datatype Round = Round(cands: Candidates, sources: Sources, now: u64, selected: Selected, memory: Memory)

  function SelectedBefore(s: Selected, rounds: seq<Round>, i: nat): Selected
    requires i <= |rounds|
  {
    if i == 0 then s else rounds[i - 1].selected
  }

  function MemoryBefore(m: Memory, rounds: seq<Round>, i: nat): Memory
    requires i <= |rounds|
  {
    if i == 0 then m else rounds[i - 1].memory
  }

  ghost predicate Follows(cfg: Selection, s: Selected, m: Memory, r: Round) {
    Reselected(cfg, r.cands, r.sources, s, m, r.now, r.selected, r.memory)
  }

  /** Each round starts from what the one before left. */
  ghost predicate Chain(cfg: Selection, s: Selected, m: Memory, rounds: seq<Round>) {
    forall i :: 0 <= i < |rounds| ==> Follows(cfg, SelectedBefore(s, rounds, i), MemoryBefore(m, rounds, i), rounds[i])
  }

  // ----- one key through the rounds

  /** What a round sees of this key. */
  ghost predicate Sees(r: Round, before: Selected, k: RouteKey, look: Look) {
    exists cur: Option<CandidateKey>, best ::
      && IsCurrent(r.cands, r.sources, before, k, cur) && IsBest(r.cands, r.sources, before, k, best)
      && look == LookAt(r.cands, r.now, cur, best)
  }

  function KnownAt(s: Selected, m: Memory, rounds: seq<Round>, i: nat, k: RouteKey): KeyState
    requires i <= |rounds|
  {
    Known(SelectedBefore(s, rounds, i), MemoryBefore(m, rounds, i), k)
  }

  /** The looks at this key since it was last without a usable candidate. */
  ghost predicate Looked(cfg: Selection, s: Selected, m: Memory, rounds: seq<Round>, n: nat, k: RouteKey, start: nat,
                         looks: seq<Look>) {
    && n <= |rounds| && start + |looks| == n && KnownAt(s, m, rounds, start, k).pending.None?
    && (forall i :: 0 <= i < |looks| ==> Sees(rounds[start + i], SelectedBefore(s, rounds, start + i), k, looks[i]))
    && (forall i :: 0 <= i <= |looks| ==>
          After(cfg, KnownAt(s, m, rounds, start, k), looks[..i]) == KnownAt(s, m, rounds, start + i, k))
  }

  lemma RoundLook(cfg: Selection, s: Selected, m: Memory, r: Round, k: RouteKey) returns (look: Look)
    requires Follows(cfg, s, m, r) && EligibleSet(r.cands, r.sources, s, k) != {}
    ensures Sees(r, s, k, look) && Known(r.selected, r.memory, k) == Decide(cfg, Known(s, m, k), look)
  {
    hide IsCurrent, IsBest, Decide;
    assert KeyReselected(cfg, r.cands, r.sources, s, m, r.now, k, r.selected, r.memory);
    var cur, best :| Chose(cfg, r.cands, r.sources, s, m, r.now, k, cur, best, r.selected, r.memory);
    ChosenThere(r.cands, r.sources, s, k, cur, best);
    look := LookAt(r.cands, r.now, cur, best);
  }

  lemma {:induction false} LooksOf(cfg: Selection, s: Selected, m: Memory, rounds: seq<Round>, n: nat, k: RouteKey)
    returns (start: nat, looks: seq<Look>)
    requires Chain(cfg, s, m, rounds) && n <= |rounds| && k !in m.pending
    ensures Looked(cfg, s, m, rounds, n, k, start, looks)
    decreases n
  {
    hide Follows, Sees, Decide;
    if n == 0 {
      start, looks := 0, [];
    } else {
      var before, mem, r := SelectedBefore(s, rounds, n - 1), MemoryBefore(m, rounds, n - 1), rounds[n - 1];
      assert Follows(cfg, before, mem, r);
      if EligibleSet(r.cands, r.sources, before, k) == {} {
        ForgottenByRound(cfg, before, mem, r, k);
        start, looks := n, [];
      } else {
        var done;
        start, done := LooksOf(cfg, s, m, rounds, n - 1, k);
        var look := RoundLook(cfg, before, mem, r, k);
        looks := done + [look];
        LookedMore(cfg, s, m, rounds, n, k, start, done, look);
      }
    }
  }

  lemma ForgottenByRound(cfg: Selection, s: Selected, m: Memory, r: Round, k: RouteKey)
    requires Follows(cfg, s, m, r) && EligibleSet(r.cands, r.sources, s, k) == {}
    ensures Known(r.selected, r.memory, k).pending.None?
  {
    assert KeyReselected(cfg, r.cands, r.sources, s, m, r.now, k, r.selected, r.memory);
  }

  lemma LookedMore(cfg: Selection, s: Selected, m: Memory, rounds: seq<Round>, n: nat, k: RouteKey, start: nat,
                   done: seq<Look>, look: Look)
    requires 0 < n <= |rounds| && Looked(cfg, s, m, rounds, n - 1, k, start, done)
    requires Sees(rounds[n - 1], SelectedBefore(s, rounds, n - 1), k, look)
    requires KnownAt(s, m, rounds, n, k) == Decide(cfg, KnownAt(s, m, rounds, n - 1, k), look)
    ensures Looked(cfg, s, m, rounds, n, k, start, done + [look])
  {
    hide Sees, Decide, KnownAt, SelectedBefore, After;
    var looks, st := done + [look], KnownAt(s, m, rounds, start, k);
    forall i | 0 <= i <= |looks| ensures After(cfg, st, looks[..i]) == KnownAt(s, m, rounds, start + i, k) {
      if i <= |done| {
        assert looks[..i] == done[..i];
      } else {
        assert looks[..i] == looks && done[..|done|] == done;
        AfterMore(cfg, st, done, look);
        assert start + |done| == n - 1;
      }
    }
    forall i | 0 <= i < |looks| ensures Sees(rounds[start + i], SelectedBefore(s, rounds, start + i), k, looks[i]) {
      if i < |done| { assert looks[i] == done[i]; }
    }
  }

  lemma AfterMore(cfg: Selection, st: KeyState, looks: seq<Look>, look: Look)
    ensures After(cfg, st, looks + [look]) == Decide(cfg, After(cfg, st, looks), look)
  {
    hide Decide;
    assert (looks + [look])[..|looks|] == looks;
  }

  // ----- every switch is earned

  /** Round `n` moves a settled key off a route that is still usable. */
  predicate Leaves(s: Selected, m: Memory, rounds: seq<Round>, n: nat, k: RouteKey) {
    && n < |rounds|
    && var before, r := SelectedBefore(s, rounds, n), rounds[n];
    && k in before && k in MemoryBefore(m, rounds, n).settled && k in r.selected
      && IdentOf(r.selected[k]) != IdentOf(before[k])
    && exists ck :: ck in r.cands && EligibleFor(r.cands, r.sources, before, k, ck) && Same(before[k], ck, r.cands[ck])
  }

  /** This round saw `from` selected and usable, and `to` best and ahead of it by both margins. */
  ghost predicate SawAhead(cfg: Selection, r: Round, before: Selected, k: RouteKey, from: Ident, to: Ident) {
    && k in before && IdentOf(before[k]) == from
    && exists look :: Sees(r, before, k, look) && look.current.Some? && look.best == to
                      && Significant(look.bestMetric, look.current.value, cfg)
  }

  /** Since a round at least `betterFor` earlier, every round saw the same route ahead of the same one. */
  ghost predicate Deserved(cfg: Selection, s: Selected, rounds: seq<Round>, n: nat, k: RouteKey)
    requires n < |rounds| && k in SelectedBefore(s, rounds, n) && k in rounds[n].selected
  {
    exists q :: && 0 <= q <= n && SatSub(rounds[n].now, rounds[q].now) >= cfg.betterFor
                && forall i :: q <= i <= n ==>
                     SawAhead(cfg, rounds[i], SelectedBefore(s, rounds, i), k, IdentOf(SelectedBefore(s, rounds, n)[k]),
                              IdentOf(rounds[n].selected[k]))
  }

  lemma SeesCurrent(r: Round, before: Selected, k: RouteKey, look: Look, ck: CandidateKey)
    requires Sees(r, before, k, look) && k in before
    requires ck in r.cands && EligibleFor(r.cands, r.sources, before, k, ck) && Same(before[k], ck, r.cands[ck])
    ensures look.current.Some? && look.now == r.now
  {
    hide EligibleFor;
  }

  lemma SeesNow(r: Round, before: Selected, k: RouteKey, look: Look)
    requires Sees(r, before, k, look)
    ensures look.now == r.now
  {
    hide IsCurrent, IsBest;
    var cur: Option<CandidateKey>, best :|
      && IsCurrent(r.cands, r.sources, before, k, cur) && IsBest(r.cands, r.sources, before, k, best)
      && (ChosenThere(r.cands, r.sources, before, k, cur, best); look == LookAt(r.cands, r.now, cur, best));
  }

  /** A settled key leaves a usable route only when that has been earned. */
  lemma LeavingIsDeserved(cfg: Selection, s: Selected, m: Memory, rounds: seq<Round>, n: nat, k: RouteKey)
    requires Chain(cfg, s, m, rounds) && k !in m.pending && Leaves(s, m, rounds, n, k)
    ensures Deserved(cfg, s, rounds, n, k)
  {
    hide Chain, Follows, Sees, Decide, Significant, EligibleFor, Same, Looked, Deserved, After, Insists;
    var start, looks := LooksOf(cfg, s, m, rounds, n, k);
    LookedEnd(cfg, s, m, rounds, n, k, start, looks);
    ChainAt(cfg, s, m, rounds, n);
    var st, before, mem, r := KnownAt(s, m, rounds, start, k), SelectedBefore(s, rounds, n), MemoryBefore(m, rounds, n),
      rounds[n];
    var ck :| ck in r.cands && EligibleFor(r.cands, r.sources, before, k, ck) && Same(before[k], ck, r.cands[ck]);
    assert ck in EligibleSet(r.cands, r.sources, before, k);
    var last := RoundLook(cfg, before, mem, r, k);
    SeesCurrent(r, before, k, last, ck);
    var q := SwitchIsEarned(cfg, st, looks, last);
    Translated(cfg, s, m, rounds, n, k, start, looks, last, q);
  }

  lemma LookedEnd(cfg: Selection, s: Selected, m: Memory, rounds: seq<Round>, n: nat, k: RouteKey, start: nat,
                  looks: seq<Look>)
    requires Looked(cfg, s, m, rounds, n, k, start, looks)
    ensures n <= |rounds| && start <= n && KnownAt(s, m, rounds, start, k).pending.None?
    ensures After(cfg, KnownAt(s, m, rounds, start, k), looks) == KnownAt(s, m, rounds, n, k)
  {
    hide Sees, After, KnownAt;
    assert looks[..|looks|] == looks;
  }

  lemma ChainAt(cfg: Selection, s: Selected, m: Memory, rounds: seq<Round>, n: nat)
    requires Chain(cfg, s, m, rounds) && n < |rounds|
    ensures Follows(cfg, SelectedBefore(s, rounds, n), MemoryBefore(m, rounds, n), rounds[n])
  {
    hide Follows;
  }

  lemma Translated(cfg: Selection, s: Selected, m: Memory, rounds: seq<Round>, n: nat, k: RouteKey, start: nat,
                   looks: seq<Look>, last: Look, q: nat)
    requires Looked(cfg, s, m, rounds, n, k, start, looks) && n < |rounds|
      && Sees(rounds[n], SelectedBefore(s, rounds, n), k, last)
    requires k in SelectedBefore(s, rounds, n) && k in rounds[n].selected && last.best == IdentOf(rounds[n].selected[k])
    requires q <= |looks| && SatSub(last.now, (looks + [last])[q].now) >= cfg.betterFor
    requires Insists(cfg, KnownAt(s, m, rounds, start, k), looks + [last], q, IdentOf(SelectedBefore(s, rounds, n)[k]),
                     last.best)
    ensures Deserved(cfg, s, rounds, n, k)
  {
    hide Sees, Decide, Significant;
    var all, st, from := looks + [last], KnownAt(s, m, rounds, start, k), IdentOf(SelectedBefore(s, rounds, n)[k]);
    forall i | start + q <= i <= n ensures SawAhead(cfg, rounds[i], SelectedBefore(s, rounds, i), k, from, last.best) {
      var j := i - start;
      assert all[j].current.Some? && all[j].best == last.best && After(cfg, st, all[..j]).chosen == Some(from)
        && Significant(all[j].bestMetric, all[j].current.value, cfg);
      assert all[..j] == looks[..j];
      assert KnownAt(s, m, rounds, i, k).chosen == Some(from);
      assert Sees(rounds[i], SelectedBefore(s, rounds, i), k, all[j]);
    }
    SeesNow(rounds[n], SelectedBefore(s, rounds, n), k, last);
    if q < |looks| { SeesNow(rounds[start + q], SelectedBefore(s, rounds, start + q), k, looks[q]); }
  }

  // ----- paths: the states of the engine, with and without a look in between

  /** A state of the engine as far as selection goes: its candidates, the source table its last look
      used, what it has selected, what it remembers, and when. */
  datatype Chosen = Chosen(candidates: Candidates, seen: Sources, selected: Selected, memory: Memory, clock: u64)

  /** Either nothing moved, or this is a reselection on these tables. */
  ghost predicate OneLook(cfg: Selection, now: u64, cands: Candidates, seen: Sources, s: Selected, m: Memory,
                          s': Selected, m': Memory) {
    (s' == s && m' == m) || Reselected(cfg, cands, seen, s, m, now, s', m')
  }

  /** The look of a tick: expired records are gone, and while a switch is pending there is a look. */
  ghost predicate ClockLook(cfg: Selection, now: u64, cands: Candidates, sources: Sources, s: Selected, m: Memory,
                            s': Selected, m': Memory) {
    && OneLook(cfg, now, cands, Collect(sources, now), s, m, s', m')
    && (m.pending != map[] ==> Reselected(cfg, cands, Collect(sources, now), s, m, now, s', m'))
  }

  ghost predicate Step(cfg: Selection, a: Chosen, b: Chosen) {
    && a.clock <= b.clock
    && OneLook(cfg, b.clock, b.candidates, b.seen, a.selected, a.memory, b.selected, b.memory)
  }

  ghost predicate Path(cfg: Selection, path: seq<Chosen>) {
    path != [] && forall i :: 0 <= i < |path| - 1 ==> Step(cfg, path[i], path[i + 1])
  }

  predicate Quiet(a: Chosen, b: Chosen) { b.selected == a.selected && b.memory == a.memory }

  /** The step is a reselection on the tables it ends in; one that changes nothing counts too. */
  ghost predicate Looks(cfg: Selection, a: Chosen, b: Chosen) {
    Reselected(cfg, b.candidates, b.seen, a.selected, a.memory, b.clock, b.selected, b.memory)
  }

  function RoundOf(c: Chosen): Round { Round(c.candidates, c.seen, c.clock, c.selected, c.memory) }

  /** The rounds of a path and its looks, every one of them; all other steps are quiet. */
  ghost predicate Threads(cfg: Selection, path: seq<Chosen>, rounds: seq<Round>, at: seq<nat>)
    requires path != []
  {
    && |rounds| == |at| && Chain(cfg, path[0].selected, path[0].memory, rounds)
    && (forall j :: 0 <= j < |at| ==> at[j] < |path| - 1 && IsLook(path, rounds, at, j))
    && Rising(at)
    && (forall i :: 0 <= i < |path| - 1 ==> i in at || IsStill(cfg, path, i))
    && SelectedBefore(path[0].selected, rounds, |rounds|) == path[|path| - 1].selected
    && MemoryBefore(path[0].memory, rounds, |rounds|) == path[|path| - 1].memory
  }

  /** The step does not look and leaves the selection and its memory as they are. */
  ghost predicate IsStill(cfg: Selection, path: seq<Chosen>, i: nat)
    requires i + 1 < |path|
  {
    Quiet(path[i], path[i + 1]) && !Looks(cfg, path[i], path[i + 1])
  }

  predicate Rising(at: seq<nat>) { forall i, j :: 0 <= i < j < |at| ==> at[i] < at[j] }

  predicate IsLook(path: seq<Chosen>, rounds: seq<Round>, at: seq<nat>, j: nat)
    requires path != [] && j < |at| == |rounds| && at[j] < |path| - 1
  {
    && rounds[j] == RoundOf(path[at[j] + 1])
    && SelectedBefore(path[0].selected, rounds, j) == path[at[j]].selected
    && MemoryBefore(path[0].memory, rounds, j) == path[at[j]].memory
  }

  lemma {:induction false} ThreadsOf(cfg: Selection, path: seq<Chosen>) returns (rounds: seq<Round>, at: seq<nat>)
    requires Path(cfg, path)
    ensures Threads(cfg, path, rounds, at)
    decreases |path|
  {
    hide Step, Chain, Threads;
    var n := |path| - 1;
    if n == 0 {
      rounds, at := [], [];
      ThreadsStart(cfg, path);
    } else {
      var front := path[..n];
      forall i | 0 <= i < |front| - 1 ensures Step(cfg, front[i], front[i + 1]) {
        assert Step(cfg, path[i], path[i + 1]);
      }
      rounds, at := ThreadsOf(cfg, front);
      assert Step(cfg, path[n - 1], path[n - 1 + 1]);
      assert path == front + [path[n]];
      if Looks(cfg, path[n - 1], path[n]) {
        ThreadsLook(cfg, front, rounds, at, path[n]);
        rounds, at := rounds + [RoundOf(path[n])], at + [n - 1];
      } else {
        ThreadsQuiet(cfg, front, rounds, at, path[n]);
      }
    }
  }

  lemma ThreadsStart(cfg: Selection, path: seq<Chosen>)
    requires |path| == 1
    ensures Threads(cfg, path, [], [])
  {
  }

  lemma ThreadsQuiet(cfg: Selection, path: seq<Chosen>, rounds: seq<Round>, at: seq<nat>, c: Chosen)
    requires path != [] && Threads(cfg, path, rounds, at)
    requires Step(cfg, path[|path| - 1], c) && !Looks(cfg, path[|path| - 1], c)
    ensures Threads(cfg, path + [c], rounds, at)
  {
    hide Chain, SelectedBefore, MemoryBefore, Reselected;
    var more := path + [c];
    forall j | 0 <= j < |at| ensures at[j] < |more| - 1 && IsLook(more, rounds, at, j) {
      assert IsLook(path, rounds, at, j);
    }
    forall i | 0 <= i < |more| - 1 ensures i in at || IsStill(cfg, more, i) {
      if i < |path| - 1 {
        assert more[i] == path[i] && more[i + 1] == path[i + 1];
        assert i in at || IsStill(cfg, path, i);
      }
    }
  }

  lemma ThreadsLook(cfg: Selection, path: seq<Chosen>, rounds: seq<Round>, at: seq<nat>, c: Chosen)
    requires path != [] && Threads(cfg, path, rounds, at)
    requires Step(cfg, path[|path| - 1], c) && Looks(cfg, path[|path| - 1], c)
    ensures Threads(cfg, path + [c], rounds + [RoundOf(c)], at + [|path| - 1])
  {
    hide Chain, SelectedBefore, MemoryBefore, Reselected;
    var n, more := |path| - 1, path + [c];
    var rounds', at' := rounds + [RoundOf(c)], at + [n];
    ChainMore(cfg, path[0].selected, path[0].memory, rounds, RoundOf(c));
    forall j | 0 <= j < |at'| ensures at'[j] < |more| - 1 && IsLook(more, rounds', at', j) {
      BeforeMore(path[0].selected, path[0].memory, rounds, RoundOf(c), j);
      if j < |at| { assert at'[j] == at[j] && IsLook(path, rounds, at, j); }
    }
    BeforeMore(path[0].selected, path[0].memory, rounds, RoundOf(c), |rounds|);
    forall i | 0 <= i < |more| - 1 ensures i in at' || IsStill(cfg, more, i) {
      if i < n {
        assert more[i] == path[i] && more[i + 1] == path[i + 1];
        assert i in at || IsStill(cfg, path, i);
        if i in at { var j :| 0 <= j < |at| && at[j] == i; assert at'[j] == i; }
      } else {
        assert at'[|at|] == i;
      }
    }
  }

  lemma BeforeMore(s: Selected, m: Memory, rounds: seq<Round>, r: Round, j: nat)
    requires j <= |rounds|
    ensures SelectedBefore(s, rounds + [r], j) == SelectedBefore(s, rounds, j)
    ensures MemoryBefore(m, rounds + [r], j) == MemoryBefore(m, rounds, j)
    ensures SelectedBefore(s, rounds + [r], |rounds| + 1) == r.selected
    ensures MemoryBefore(m, rounds + [r], |rounds| + 1) == r.memory
  {
  }

  lemma ChainMore(cfg: Selection, s: Selected, m: Memory, rounds: seq<Round>, r: Round)
    requires Chain(cfg, s, m, rounds)
    requires Follows(cfg, SelectedBefore(s, rounds, |rounds|), MemoryBefore(m, rounds, |rounds|), r)
    ensures Chain(cfg, s, m, rounds + [r])
  {
    hide Follows, SelectedBefore, MemoryBefore;
    var more := rounds + [r];
    forall i | 0 <= i < |more| ensures Follows(cfg, SelectedBefore(s, more, i), MemoryBefore(m, more, i), more[i]) {
      BeforeMore(s, m, rounds, r, i);
    }
  }

  // ----- every switch on a path is earned

  /** The table still holds the selected route of this key, and it can be reached. */
  predicate Holds(cands: Candidates, selected: Selected, k: RouteKey) {
    && k in selected
    && exists ck :: ck in cands && ck.0 == k && Same(selected[k], ck, cands[ck]) && cands[ck].metric < INFINITY
  }

  /** The step moves a settled key to another route although the candidates after it still hold the old one. */
  predicate Switches(a: Chosen, b: Chosen, k: RouteKey) {
    && k in a.selected && k in a.memory.settled && k in b.selected && IdentOf(b.selected[k]) != IdentOf(a.selected[k])
    && Holds(b.candidates, a.selected, k)
  }

  /** In this table the route `to` is best for the key, and ahead of the selected route by both margins. */
  ghost predicate Ahead(cfg: Selection, b: Chosen, before: Selected, k: RouteKey, to: Ident) {
    exists f, t :: IsAhead(cfg, b, before, k, to, f, t)
  }

  ghost predicate IsAhead(cfg: Selection, b: Chosen, before: Selected, k: RouteKey, to: Ident, f: CandidateKey,
                          t: CandidateKey) {
    && k in before && f in b.candidates && t in b.candidates
    && f.0 == k && Same(before[k], f, b.candidates[f]) && b.candidates[f].metric < INFINITY
    && IsBest(b.candidates, b.seen, before, k, t) && IdentOf(FromCandidate(t, b.candidates[t])) == to
    && Significant(b.candidates[t].metric, b.candidates[f].metric, cfg)
  }

  /** From some step on, at least `betterFor` earlier, up to this one the key stood on the same route, and
      every look found the same other route ahead of it in the candidates of that moment. */
  ghost predicate Justified(cfg: Selection, path: seq<Chosen>, n: nat, k: RouteKey)
    requires n + 1 < |path| && k in path[n].selected && k in path[n + 1].selected
  {
    exists q: nat :: EarnedSince(cfg, path, n, k, q)
  }

  ghost predicate EarnedSince(cfg: Selection, path: seq<Chosen>, n: nat, k: RouteKey, q: nat)
    requires n + 1 < |path| && k in path[n].selected && k in path[n + 1].selected
  {
    var from, to := IdentOf(path[n].selected[k]), IdentOf(path[n + 1].selected[k]);
    && q <= n && SatSub(path[n + 1].clock, path[q + 1].clock) >= cfg.betterFor
    && Ahead(cfg, path[q + 1], path[q].selected, k, to) && Ahead(cfg, path[n + 1], path[n].selected, k, to)
    && forall i: nat :: q <= i <= n ==> StandsOn(cfg, path, i, k, from, to)
  }

  /** At step `i` the key stands on `from`. A step that looks finds `to` ahead; any other is quiet. */
  ghost predicate StandsOn(cfg: Selection, path: seq<Chosen>, i: nat, k: RouteKey, from: Ident, to: Ident) {
    && i + 1 < |path| && k in path[i].selected && IdentOf(path[i].selected[k]) == from
    && (if Looks(cfg, path[i], path[i + 1]) then Ahead(cfg, path[i + 1], path[i].selected, k, to)
        else Quiet(path[i], path[i + 1]))
  }

  lemma SawIsAhead(cfg: Selection, c: Chosen, before: Selected, k: RouteKey, from: Ident, to: Ident)
    requires SawAhead(cfg, RoundOf(c), before, k, from, to)
    ensures Ahead(cfg, c, before, k, to)
  {
    hide IsBest, Significant, EligibleFor;
    var look :| Sees(RoundOf(c), before, k, look) && look.current.Some? && look.best == to
                && Significant(look.bestMetric, look.current.value, cfg);
    var cur: Option<CandidateKey>, best :|
      && IsCurrent(c.candidates, c.seen, before, k, cur) && IsBest(c.candidates, c.seen, before, k, best)
      && (ChosenThere(c.candidates, c.seen, before, k, cur, best); look == LookAt(c.candidates, c.clock, cur, best));
    ChosenThere(c.candidates, c.seen, before, k, cur, best);
    CurrentIsHeld(c.candidates, c.seen, before, k, cur.value);
    assert IsAhead(cfg, c, before, k, to, cur.value, best);
  }

  lemma CurrentIsHeld(cands: Candidates, seen: Sources, before: Selected, k: RouteKey, ck: CandidateKey)
    requires IsCurrent(cands, seen, before, k, Some(ck))
    ensures k in before && ck in cands && ck.0 == k && Same(before[k], ck, cands[ck]) && cands[ck].metric < INFINITY
  {
  }

  lemma SwitchesLeave(path: seq<Chosen>, rounds: seq<Round>, at: seq<nat>, j: nat, k: RouteKey)
    requires path != [] && j < |at| == |rounds| && at[j] < |path| - 1 && IsLook(path, rounds, at, j)
    requires Switches(path[at[j]], path[at[j] + 1], k)
    ensures Leaves(path[0].selected, path[0].memory, rounds, j, k)
  {
    var b, before := path[at[j] + 1], path[at[j]].selected;
    var ck :| ck in b.candidates && ck.0 == k && Same(before[k], ck, b.candidates[ck])
              && b.candidates[ck].metric < INFINITY;
    assert EligibleFor(b.candidates, b.seen, before, k, ck);
  }

  lemma {:induction false} QuietStretch(path: seq<Chosen>, i: nat, j: nat)
    requires i <= j < |path| && forall l :: i <= l < j ==> Quiet(path[l], path[l + 1])
    ensures path[j].selected == path[i].selected
    decreases j - i
  {
    if i < j {
      QuietStretch(path, i, j - 1);
      assert Quiet(path[j - 1], path[j - 1 + 1]);
    }
  }

  /** The first look at or after a step that lies before some look. */
  lemma NextLook(at: seq<nat>, i: nat, n: nat) returns (j: nat)
    requires Rising(at) && n < |at| && i <= at[n]
    ensures j <= n && i <= at[j] && (j > 0 ==> at[j - 1] < i)
  {
    j := n;
    while j > 0 && at[j - 1] >= i
      invariant j <= n && i <= at[j]
    {
      j := j - 1;
    }
  }

  /** Between two neighbouring looks there is none. */
  lemma NoLookBetween(at: seq<nat>, j: nat, m: nat)
    requires Rising(at) && j < |at| && m < at[j] && (j > 0 ==> at[j - 1] < m)
    ensures m !in at
  {
    forall x | 0 <= x < |at| ensures at[x] != m {
    }
  }

  /** Any step of any path that moves a settled key off a route its candidates still hold is earned. */
  lemma SwitchesAreEarned(cfg: Selection, path: seq<Chosen>, n: nat, k: RouteKey)
    requires Path(cfg, path) && n + 1 < |path| && k !in path[0].memory.pending && Switches(path[n], path[n + 1], k)
    ensures Justified(cfg, path, n, k)
  {
    hide Path, Step, Chain, Leaves, Deserved, Threads;
    var rounds, at := ThreadsOf(cfg, path);
    var j := LookAtStep(cfg, path, rounds, at, n);
    SwitchesLeave(path, rounds, at, j, k);
    LeavesSelected(path[0].selected, path[0].memory, rounds, j, k);
    ThreadsChain(cfg, path, rounds, at);
    LeavingIsDeserved(cfg, path[0].selected, path[0].memory, rounds, j, k);
    DeservedIsEarned(cfg, path, rounds, at, j, k);
  }

  lemma ThreadsChain(cfg: Selection, path: seq<Chosen>, rounds: seq<Round>, at: seq<nat>)
    requires path != [] && Threads(cfg, path, rounds, at)
    ensures Chain(cfg, path[0].selected, path[0].memory, rounds)
  {
  }

  lemma LookAtStep(cfg: Selection, path: seq<Chosen>, rounds: seq<Round>, at: seq<nat>, n: nat) returns (j: nat)
    requires path != [] && Threads(cfg, path, rounds, at) && n + 1 < |path| && !Quiet(path[n], path[n + 1])
    ensures j < |at| == |rounds| && at[j] == n && IsLook(path, rounds, at, j)
  {
    hide Chain, Looks;
    assert n in at || IsStill(cfg, path, n);
    j :| 0 <= j < |at| && at[j] == n;
  }

  /** Step `i` found `to` ahead while the key stood on `from`. */
  ghost predicate LookAhead(cfg: Selection, path: seq<Chosen>, i: nat, k: RouteKey, from: Ident, to: Ident) {
    && i + 1 < |path| && k in path[i].selected && IdentOf(path[i].selected[k]) == from
    && Ahead(cfg, path[i + 1], path[i].selected, k, to)
  }

  lemma DeservedIsEarned(cfg: Selection, path: seq<Chosen>, rounds: seq<Round>, at: seq<nat>, j: nat, k: RouteKey)
    requires path != [] && Threads(cfg, path, rounds, at) && j < |at| == |rounds|
    requires at[j] + 1 < |path| && IsLook(path, rounds, at, j)
    requires k in path[at[j]].selected && k in path[at[j] + 1].selected
    requires k in SelectedBefore(path[0].selected, rounds, j) && k in rounds[j].selected
    requires Deserved(cfg, path[0].selected, rounds, j, k)
    ensures Justified(cfg, path, at[j], k)
  {
    hide Threads, LookAhead, SawAhead, SelectedBefore, MemoryBefore, EarnedSince;
    var from, to := IdentOf(path[at[j]].selected[k]), IdentOf(path[at[j] + 1].selected[k]);
    var q: nat :| q <= j && SatSub(rounds[j].now, rounds[q].now) >= cfg.betterFor
      && forall i :: q <= i <= j ==>
           SawAhead(cfg, rounds[i], SelectedBefore(path[0].selected, rounds, i), k, from, to);
    forall l: nat | q <= l <= j && l < |at| ensures LookAhead(cfg, path, at[l], k, from, to) {
      SawAt(cfg, path, rounds, at, l, k, from, to);
    }
    EarnedFrom(cfg, path, rounds, at, j, q, k, from, to);
  }

  ghost predicate AllAhead(cfg: Selection, path: seq<Chosen>, at: seq<nat>, q: nat, j: nat, k: RouteKey, from: Ident,
                           to: Ident) {
    forall l: nat :: q <= l <= j && l < |at| ==> LookAhead(cfg, path, at[l], k, from, to)
  }

  lemma EarnedFrom(cfg: Selection, path: seq<Chosen>, rounds: seq<Round>, at: seq<nat>, j: nat, q: nat, k: RouteKey,
                   from: Ident, to: Ident)
    requires q <= j < |at| == |rounds| && SatSub(rounds[j].now, rounds[q].now) >= cfg.betterFor
    requires at[j] + 1 < |path| && k in path[at[j]].selected && k in path[at[j] + 1].selected
    requires from == IdentOf(path[at[j]].selected[k]) && to == IdentOf(path[at[j] + 1].selected[k])
    requires Threads(cfg, path, rounds, at) && AllAhead(cfg, path, at, q, j, k, from, to)
    ensures EarnedSince(cfg, path, at[j], k, at[q])
  {
    hide Chain, Ahead, SelectedBefore, MemoryBefore, Rising, StandsOn;
    assert IsLook(path, rounds, at, q) && IsLook(path, rounds, at, j);
    assert LookAhead(cfg, path, at[q], k, from, to) && LookAhead(cfg, path, at[j], k, from, to);
    NotAfter(at, q, j);
    forall i: nat | at[q] <= i <= at[j] ensures StandsOn(cfg, path, i, k, from, to) {
      var l := NextLook(at, i, j);
      NotBefore(at, q, l, i);
      StandsUntil(cfg, path, rounds, at, i, l, k, from, to);
    }
  }

  lemma StandsUntil(cfg: Selection, path: seq<Chosen>, rounds: seq<Round>, at: seq<nat>, i: nat, l: nat, k: RouteKey,
                    from: Ident, to: Ident)
    requires path != [] && Threads(cfg, path, rounds, at) && l < |at| && i <= at[l] && (l > 0 ==> at[l - 1] < i)
    requires LookAhead(cfg, path, at[l], k, from, to)
    ensures StandsOn(cfg, path, i, k, from, to)
  {
    hide Threads, Ahead, Looks;
    StretchToLook(cfg, path, rounds, at, i, l);
    LooksThere(cfg, path, rounds, at, l);
  }

  lemma LooksThere(cfg: Selection, path: seq<Chosen>, rounds: seq<Round>, at: seq<nat>, l: nat)
    requires path != [] && Threads(cfg, path, rounds, at) && l < |at|
    ensures at[l] < |path| - 1 && Looks(cfg, path[at[l]], path[at[l] + 1])
  {
    hide Reselected, SelectedBefore, MemoryBefore, Rising, IsStill;
    assert IsLook(path, rounds, at, l);
  }

  lemma NotAfter(at: seq<nat>, q: nat, j: nat)
    requires Rising(at) && q <= j < |at|
    ensures at[q] <= at[j]
  {
  }

  lemma SawAt(cfg: Selection, path: seq<Chosen>, rounds: seq<Round>, at: seq<nat>, l: nat, k: RouteKey, from: Ident,
              to: Ident)
    requires path != [] && Threads(cfg, path, rounds, at) && l < |at| == |rounds|
    requires SawAhead(cfg, rounds[l], SelectedBefore(path[0].selected, rounds, l), k, from, to)
    ensures LookAhead(cfg, path, at[l], k, from, to)
  {
    hide Chain, Ahead, Sees, SelectedBefore, MemoryBefore;
    assert IsLook(path, rounds, at, l);
    SawIsAhead(cfg, path[at[l] + 1], path[at[l]].selected, k, from, to);
  }

  lemma NotBefore(at: seq<nat>, q: nat, l: nat, i: nat)
    requires Rising(at) && q < |at| && l < |at| && at[q] <= i <= at[l]
    ensures q <= l
  {
  }

  /** Up to the next look every step is still. */
  lemma StretchToLook(cfg: Selection, path: seq<Chosen>, rounds: seq<Round>, at: seq<nat>, i: nat, l: nat)
    requires path != [] && Threads(cfg, path, rounds, at) && l < |at| && i <= at[l] && (l > 0 ==> at[l - 1] < i)
    ensures at[l] < |path| - 1 && path[at[l]].selected == path[i].selected
    ensures i == at[l] || IsStill(cfg, path, i)
  {
    hide Chain, SelectedBefore, MemoryBefore, Rising, Looks;
    assert IsLook(path, rounds, at, l);
    forall m: nat | i <= m < at[l] ensures IsStill(cfg, path, m) {
      NoLookBetween(at, l, m);
      assert m in at || IsStill(cfg, path, m);
    }
    forall m: nat | i <= m < at[l] ensures Quiet(path[m], path[m + 1]) { assert IsStill(cfg, path, m); }
    QuietStretch(path, i, at[l]);
  }

  lemma LeavesSelected(s: Selected, m: Memory, rounds: seq<Round>, n: nat, k: RouteKey)
    requires Leaves(s, m, rounds, n, k)
    ensures k in SelectedBefore(s, rounds, n) && k in rounds[n].selected
  {
  }
}
