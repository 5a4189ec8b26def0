/** Feasibility distances, eligibility and the choice among candidates
    (crates/babel-protocol/src/engine/rib.rs:215-232, 257-356, 538-551;
    engine/sources.rs:131-151). */
module Feasibility {
  import opened Model
  import opened WireTypes
  import opened EngineTypes
  import opened Hysteresis

  /** Hypotheses about the surroundings: a half-window for the sequence numbers
      of each source, and who owns each next hop on an interface. */
  datatype Env = Env(base: SourceKey -> u16, owner: (string, IpAddr) -> IpAddr)

  // ----- distances inside one window

  predicate Better(base: u16, a: Distance, b: Distance) {
    Offset(base, a.seqno) > Offset(base, b.seqno) || (a.seqno == b.seqno && a.metric < b.metric)
  }

  predicate NotWorse(base: u16, a: Distance, b: Distance) { a == b || Better(base, a, b) }

  lemma FeasibleIsBetter(base: u16, a: Distance, b: Distance)
    requires InWindow(base, a.seqno) && InWindow(base, b.seqno)
    ensures a.FeasibleAgainst(b) <==> Better(base, a, b)
  {
    SeqnoGtInWindow(base, a.seqno, b.seqno);
  }

  lemma BetterChains(base: u16, a: Distance, b: Distance, c: Distance)
    requires InWindow(base, a.seqno) && InWindow(base, b.seqno) && InWindow(base, c.seqno)
    requires Better(base, a, b) && NotWorse(base, b, c)
    ensures Better(base, a, c)
  {
    SeqnoGtInWindow(base, a.seqno, b.seqno);
    SeqnoGtInWindow(base, b.seqno, c.seqno);
    SeqnoGtInWindow(base, a.seqno, c.seqno);
  }

  lemma NotWorseChains(base: u16, a: Distance, b: Distance, c: Distance)
    requires InWindow(base, a.seqno) && InWindow(base, b.seqno) && InWindow(base, c.seqno)
    requires NotWorse(base, a, b) && NotWorse(base, b, c)
    ensures NotWorse(base, a, c)
  {
    if a != b { BetterChains(base, a, b, c); }
  }

  lemma NotBothWays(base: u16, a: Distance, b: Distance)
    requires InWindow(base, a.seqno) && InWindow(base, b.seqno) && NotWorse(base, a, b)
    ensures !Better(base, b, a)
  {
    SeqnoGtInWindow(base, a.seqno, b.seqno);
  }

  // ----- the source table

  /** `maintain_source`: keep the best distance ever advertised, refresh its lifetime. */
  function Maintain(sources: Sources, sk: SourceKey, d: Distance, now: u64): Sources {
    var expires := SatAdd(now, SOURCE_GC_TIME_MS);
    if sk in sources && !d.FeasibleAgainst(sources[sk].distance) then
      sources[sk := Source(sources[sk].distance, expires)]
    else sources[sk := Source(d, expires)]
  }

  ghost predicate SourcesIn(env: Env, sources: Sources) {
    forall sk :: sk in sources ==> InWindow(env.base(sk), sources[sk].distance.seqno)
  }

  /** Nothing recorded gets worse, and nothing fresh at `now` goes stale. */
  ghost predicate Improved(env: Env, now: u64, s: Sources, s': Sources) {
    forall sk :: sk in s ==>
      && sk in s' && NotWorse(env.base(sk), s'[sk].distance, s[sk].distance)
      && (s[sk].expires >= now ==> s'[sk].expires >= now)
  }

  /** An advertisement is covered: the recorded distance is at least as good. */
  ghost predicate Covers(env: Env, now: u64, sources: Sources, u: OutboundUpdate) {
    u.metric != INFINITY ==>
      && u.key.Some? && u.routerId.Some?
      && var sk := (u.key.value, u.routerId.value);
      && sk in sources && sources[sk].expires >= now
      && InWindow(env.base(sk), u.seqno)
      && NotWorse(env.base(sk), sources[sk].distance, Distance(u.seqno, u.metric))
  }

  ghost predicate Covered(env: Env, now: u64, sources: Sources, out: set<Action>) {
    forall a :: a in out && a.Send? ==> Covers(env, now, sources, a.update)
  }

  lemma MaintainImproves(env: Env, sources: Sources, sk: SourceKey, d: Distance, now: u64)
    requires SourcesIn(env, sources) && InWindow(env.base(sk), d.seqno)
    ensures var s' := Maintain(sources, sk, d, now);
      && SourcesIn(env, s') && Improved(env, now, sources, s')
      && sk in s' && s'[sk].expires >= now && NotWorse(env.base(sk), s'[sk].distance, d)
      && forall other :: other != sk ==>
        (other in s' <==> other in sources) && (other in sources ==> s'[other] == sources[other])
  {
    if sk in sources {
      var old_ := sources[sk].distance;
      FeasibleIsBetter(env.base(sk), d, old_);
      SeqnoGtInWindow(env.base(sk), d.seqno, old_.seqno);
    }
  }

  /** As `Improved`, for the entries that have not expired at `now`. */
  ghost predicate ImprovedLive(env: Env, now: u64, s: Sources, s': Sources) {
    forall sk :: sk in s && s[sk].expires >= now ==>
      sk in s' && NotWorse(env.base(sk), s'[sk].distance, s[sk].distance) && s'[sk].expires >= now
  }

  /** An event under way: from table `s0` to `s`, with everything announced so far covered. */
  ghost predicate Going(env: Env, now: u64, s0: Sources, s: Sources, out: set<Action>) {
    SourcesIn(env, s0) && SourcesIn(env, s) && ImprovedLive(env, now, s0, s) && Covered(env, now, s, out)
  }

  lemma GoingStart(env: Env, now: u64, s: Sources)
    requires SourcesIn(env, s)
    ensures Going(env, now, s, s, {})
  {
  }

  lemma LiveTwice(env: Env, now: u64, a: Sources, b: Sources, c: Sources)
    requires SourcesIn(env, a) && SourcesIn(env, b) && SourcesIn(env, c)
    requires ImprovedLive(env, now, a, b) && ImprovedLive(env, now, b, c)
    ensures ImprovedLive(env, now, a, c)
  {
    hide NotWorse, InWindow;
    forall sk | sk in a && a[sk].expires >= now ensures sk in c
      && NotWorse(env.base(sk), c[sk].distance, a[sk].distance) {
      NotWorseChains(env.base(sk), c[sk].distance, b[sk].distance, a[sk].distance);
    }
  }

  lemma CoveredStaysLive(env: Env, now: u64, s: Sources, s': Sources, out: set<Action>)
    requires SourcesIn(env, s) && SourcesIn(env, s') && ImprovedLive(env, now, s, s') && Covered(env, now, s, out)
    ensures Covered(env, now, s', out)
  {
    hide NotWorse, InWindow;
    forall a | a in out && a.Send? ensures Covers(env, now, s', a.update) {
      var u := a.update;
      assert Covers(env, now, s, u);
      if u.metric != INFINITY {
        var sk := (u.key.value, u.routerId.value);
        NotWorseChains(env.base(sk), s'[sk].distance, s[sk].distance, Distance(u.seqno, u.metric));
      }
    }
  }

  /** The next step of an event, with what it announces. */
  lemma GoOn(env: Env, now: u64, s0: Sources, s: Sources, s': Sources, out: set<Action>, more: set<Action>)
    requires Going(env, now, s0, s, out) && SourcesIn(env, s') && Improved(env, now, s, s')
      && Covered(env, now, s', more)
    ensures Going(env, now, s0, s', out + more)
  {
    hide NotWorse, InWindow, Covers;
    LiveTwice(env, now, s0, s, s');
    CoveredStaysLive(env, now, s, s', out);
  }

  /** Two stretches of one event. */
  lemma GoFurther(env: Env, now: u64, s0: Sources, s: Sources, s': Sources, out: set<Action>, more: set<Action>)
    requires Going(env, now, s0, s, out) && Going(env, now, s, s', more)
    ensures Going(env, now, s0, s', out + more)
  {
    hide NotWorse, InWindow, Covers;
    LiveTwice(env, now, s0, s, s');
    CoveredStaysLive(env, now, s, s', out);
  }

  /** Collecting entries that have expired interrupts nothing. */
  function Collect(s: Sources, now: u64): Sources { map sk | sk in s && s[sk].expires >= now :: s[sk] }

  lemma CollectGoesOn(env: Env, now: u64, s0: Sources, s: Sources, out: set<Action>)
    requires Going(env, now, s0, s, out)
    ensures Going(env, now, s0, Collect(s, now), out)
  {
    hide NotWorse, InWindow;
    forall sk | sk in s && s[sk].expires >= now ensures NotWorse(env.base(sk), s[sk].distance, s[sk].distance) {
      NotWorseItself(env.base(sk), s[sk].distance);
    }
    LiveTwice(env, now, s0, s, Collect(s, now));
    CoveredStaysLive(env, now, s, Collect(s, now), out);
  }

  lemma NotWorseItself(base: u16, d: Distance)
    ensures NotWorse(base, d, d)
  {
  }

  /** In the engine's own terms: a covered advertisement is not strictly better
      than the recorded distance. */
  lemma CoveredIsNotBetter(env: Env, now: u64, sources: Sources, u: OutboundUpdate)
    requires SourcesIn(env, sources) && Covers(env, now, sources, u) && u.metric != INFINITY
    ensures u.key.Some? && u.routerId.Some?
    ensures var sk := (u.key.value, u.routerId.value);
      sk in sources && !Distance(u.seqno, u.metric).FeasibleAgainst(sources[sk].distance)
  {
    var sk := (u.key.value, u.routerId.value);
    var d := Distance(u.seqno, u.metric);
    FeasibleIsBetter(env.base(sk), d, sources[sk].distance);
    NotBothWays(env.base(sk), sources[sk].distance, d);
  }

  /** Without one window the table can drift in a circle: three advertisements,
      each better than the one before, leave the first one uncovered. */
  lemma WindowIsNeeded(sk: SourceKey, now: u64)
    ensures var first := Distance(0, 10);
      var s := Maintain(Maintain(Maintain(map[], sk, first, now), sk, Distance(0x5555, 10), now), sk,
                        Distance(0xaaaa, 10), now);
      first.FeasibleAgainst(s[sk].distance)
  {
    SeqnoGtIsCyclic();
  }

  // ----- which candidates may be selected

  predicate Same(route: SelectedRoute, ck: CandidateKey, c: Candidate) {
    route.routerId == c.routerId && route.interface == ck.1.interface && route.nextHop == c.nextHop
  }

  predicate MeetsFeasibility(sources: Sources, ck: CandidateKey, c: Candidate) {
    (ck.0, c.routerId) in sources ==> c.Offered().FeasibleAgainst(sources[(ck.0, c.routerId)].distance)
  }

  /** `candidate_is_feasible`. */
  predicate IsFeasible(sources: Sources, selected: Selected, ck: CandidateKey, c: Candidate) {
    (ck.0 in selected && Same(selected[ck.0], ck, c)) || MeetsFeasibility(sources, ck, c)
  }

  predicate Eligible(cands: Candidates, sources: Sources, selected: Selected, ck: CandidateKey) {
    ck in cands && cands[ck].metric < INFINITY && IsFeasible(sources, selected, ck, cands[ck])
  }

  ghost predicate CandidatesIn(env: Env, cands: Candidates) {
    forall ck :: ck in cands ==>
      && InWindow(env.base((ck.0, cands[ck].routerId)), cands[ck].seqno)
      && env.owner(ck.1.interface, cands[ck].nextHop) == ck.1.address
  }

  /** Within the hypotheses, identity picks out one candidate. */
  lemma IdentityIsUnique(env: Env, cands: Candidates, a: CandidateKey, b: CandidateKey, route: SelectedRoute)
    requires CandidatesIn(env, cands) && a in cands && b in cands && a.0 == b.0
    requires Same(route, a, cands[a]) && Same(route, b, cands[b])
    ensures a == b
  {
    assert env.owner(a.1.interface, cands[a].nextHop) == a.1.address;
    assert env.owner(b.1.interface, cands[b].nextHop) == b.1.address;
  }

  /** Better recorded distances only take candidates away. */
  lemma EligibleShrinks(env: Env, now: u64, cands: Candidates, s: Sources, s': Sources, selected: Selected,
                        ck: CandidateKey)
    requires SourcesIn(env, s) && SourcesIn(env, s') && Improved(env, now, s, s') && CandidatesIn(env, cands)
    requires Eligible(cands, s', selected, ck)
    ensures Eligible(cands, s, selected, ck)
  {
    hide NotWorse, Better, InWindow;
    var c, sk := cands[ck], (ck.0, cands[ck].routerId);
    if sk in s {
      FeasibleIsBetter(env.base(sk), c.Offered(), s'[sk].distance);
      FeasibleIsBetter(env.base(sk), c.Offered(), s[sk].distance);
      if Better(env.base(sk), c.Offered(), s'[sk].distance) {
        BetterChains(env.base(sk), c.Offered(), s'[sk].distance, s[sk].distance);
      }
    }
  }

  // ----- order of preference

  function Chars(s: string): seq<int> { seq(|s|, i requires 0 <= i < |s| => s[i] as int) }

  /** The tuple `candidate_order` compares. */
  function Rank(ck: CandidateKey, c: Candidate): seq<seq<int>> {
    [[c.metric], c.routerId.octets, Chars(ck.1.interface), [if c.nextHop.family == V4 then 4 else 6] + c.nextHop.octets]
  }

  predicate RankLess(a: seq<seq<int>>, b: seq<seq<int>>) {
    if b == [] then false
    else if a == [] then true
    else LexLess(a[0], b[0]) || (a[0] == b[0] && RankLess(a[1..], b[1..]))
  }

  lemma {:induction false} LexTransitive(a: seq<int>, b: seq<int>, c: seq<int>)
    requires LexLess(a, b) && LexLess(b, c)
    ensures LexLess(a, c)
  {
    if a != [] && a[0] == b[0] && b[0] == c[0] { LexTransitive(a[1..], b[1..], c[1..]); }
  }

  lemma {:induction false} LexTotal(a: seq<int>, b: seq<int>)
    ensures LexLess(a, b) || a == b || LexLess(b, a)
  {
    if a != [] && b != [] && a[0] == b[0] {
      LexTotal(a[1..], b[1..]);
      assert a == [a[0]] + a[1..] && b == [b[0]] + b[1..];
    }
  }

  lemma {:induction false} RankTransitive(a: seq<seq<int>>, b: seq<seq<int>>, c: seq<seq<int>>)
    requires RankLess(a, b) && RankLess(b, c)
    ensures RankLess(a, c)
  {
    if a != [] {
      if LexLess(a[0], b[0]) && LexLess(b[0], c[0]) {
        LexTransitive(a[0], b[0], c[0]);
      } else if a[0] == b[0] && b[0] == c[0] {
        RankTransitive(a[1..], b[1..], c[1..]);
      }
    }
  }

  lemma {:induction false} RankTotal(a: seq<seq<int>>, b: seq<seq<int>>)
    ensures RankLess(a, b) || a == b || RankLess(b, a)
  {
    if a != [] && b != [] {
      LexTotal(a[0], b[0]);
      if a[0] == b[0] {
        RankTotal(a[1..], b[1..]);
        assert a == [a[0]] + a[1..] && b == [b[0]] + b[1..];
      }
    }
  }

  /** Not ranked after: `a` may be chosen before `b`. */
  predicate Preferred(cands: Candidates, a: CandidateKey, b: CandidateKey)
    requires a in cands && b in cands
  {
    !RankLess(Rank(b, cands[b]), Rank(a, cands[a]))
  }

  lemma PreferredChains(cands: Candidates, a: CandidateKey, b: CandidateKey, c: CandidateKey)
    requires a in cands && b in cands && c in cands && Preferred(cands, a, b) && Preferred(cands, b, c)
    ensures Preferred(cands, a, c)
  {
    hide RankLess, Rank;
    var x, y, z := Rank(a, cands[a]), Rank(b, cands[b]), Rank(c, cands[c]);
    if RankLess(z, x) {
      RankTotal(x, y);
      RankTotal(y, z);
      if RankLess(x, y) { RankTransitive(z, x, y); }
    }
  }

  lemma PreferredIsTotal(cands: Candidates, a: CandidateKey, b: CandidateKey)
    requires a in cands && b in cands && !Preferred(cands, a, b)
    ensures Preferred(cands, b, a)
  {
    hide RankLess, Rank;
    var x, y := Rank(a, cands[a]), Rank(b, cands[b]);
    if RankLess(x, y) {
      RankTransitive(x, y, x);
      Irreflexive(x);
    }
  }

  lemma {:induction false} Irreflexive(a: seq<seq<int>>)
    ensures !RankLess(a, a)
  {
    if a != [] {
      LexIrreflexive(a[0]);
      Irreflexive(a[1..]);
    }
  }

  lemma {:induction false} LexIrreflexive(a: seq<int>)
    ensures !LexLess(a, a)
  {
    if a != [] { LexIrreflexive(a[1..]); }
  }

  lemma PreferredByMetric(cands: Candidates, a: CandidateKey, b: CandidateKey)
    requires a in cands && b in cands && Preferred(cands, a, b)
    ensures cands[a].metric <= cands[b].metric
  {
  }
}
