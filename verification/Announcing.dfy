/** What the engine announces, and what it records about it
    (crates/babel-protocol/src/engine/output.rs; engine/sources.rs:131-151). */
module Announcing {
  import opened Model
  import opened WireTypes
  import opened EngineTypes
  import opened Feasibility
  import opened Reselection

  /** Everything an announcement depends on besides the route itself. */
  datatype Outlet = Outlet(cfg: Config, policy: RoutePolicy, interfaces: Interfaces)

  type Originated = map<RouteKey, Origin>

  predicate FiniteSend(a: Action) {
    a.Send? && a.update.metric != INFINITY && a.update.key.Some? && a.update.routerId.Some?
  }

  function SourceOf(a: Action): SourceKey
    requires FiniteSend(a)
  {
    (a.update.key.value, a.update.routerId.value)
  }

  function DistanceOf(a: Action): Distance
    requires FiniteSend(a)
  {
    Distance(a.update.seqno, a.update.metric)
  }

  // ----- the announcements of one pass

  predicate Wanted(only: Option<RouteKey>, k: RouteKey) { only.None? || only.value == k }

  function Announce(o: Outlet, name: string, destination: IpAddr, k: RouteKey, routerId: RouterId, d: Distance,
                    deadline: u64): Action {
    Send(name, destination, Advertise(o.cfg, o.policy, o.interfaces, name, k, routerId, d.seqno, d.metric), deadline)
  }

  function Group(o: Outlet, name: string): IpAddr {
    MulticastAddress(name in o.interfaces && o.interfaces[name].policy.v4Transport)
  }

  function OwnSend(o: Outlet, originated: Originated, name: string, deadline: u64, k: RouteKey): Action
    requires k in originated
  {
    Announce(o, name, Group(o, name), k, o.cfg.routerId, Distance(originated[k].seqno, originated[k].metric), deadline)
  }

  function LearnedSend(o: Outlet, selected: Selected, name: string, deadline: u64, k: RouteKey): Action
    requires k in selected
  {
    Announce(o, name, Group(o, name), k, selected[k].routerId, Distance(selected[k].seqno, selected[k].metric),
             deadline)
  }

  /** Split horizon: a finite route is not announced where it was learned. */
  predicate Suppressed(o: Outlet, selected: Selected, name: string, deadline: u64, k: RouteKey)
    requires k in selected
  {
    && name in o.interfaces && o.interfaces[name].policy.splitHorizon && selected[k].interface == name
    && LearnedSend(o, selected, name, deadline, k).update.metric != INFINITY
  }

  function OwnSends(o: Outlet, originated: Originated, only: Option<RouteKey>, name: string,
                    deadline: u64): set<Action> {
    set k | k in originated && Wanted(only, k) :: OwnSend(o, originated, name, deadline, k)
  }

  function LearnedSends(o: Outlet, selected: Selected, only: Option<RouteKey>, name: string,
                        deadline: u64): set<Action> {
    set k | k in selected && Wanted(only, k) && !Suppressed(o, selected, name, deadline, k) ::
      LearnedSend(o, selected, name, deadline, k)
  }

  function TombstoneSends(o: Outlet, gone: set<RouteKey>, sequenceNumber: u16, only: Option<RouteKey>, name: string,
                          deadline: u64): set<Action> {
    set k | k in gone && Wanted(only, k) ::
      Announce(o, name, Group(o, name), k, o.cfg.routerId, Distance(sequenceNumber, INFINITY), deadline)
  }

  /** `send_updates` on one interface. */
  function SendsOn(o: Outlet, originated: Originated, selected: Selected, gone: set<RouteKey>, sequenceNumber: u16,
                   only: Option<RouteKey>, name: string, deadline: u64): set<Action> {
    OwnSends(o, originated, only, name, deadline) + LearnedSends(o, selected, only, name, deadline)
    + TombstoneSends(o, gone, sequenceNumber, only, name, deadline)
  }

  /** `send_retraction` for several lost keys at once. */
  function Retractions(o: Outlet, lost: set<RouteKey>, before: Selected, now: u64): set<Action>
    requires lost <= before.Keys
  {
    set k, name | k in lost && name in o.interfaces ::
      Send(name, Group(o, name),
           Retraction(k, Some(o.cfg.routerId), o.interfaces[name].policy.updateIntervalCs, before[k].seqno),
             Urgent(now))
  }

  /** `advertise_learned` for the keys whose route changed. */
  function ChangeSends(o: Outlet, selected: Selected, changed: set<RouteKey>, now: u64): set<Action>
    requires changed <= selected.Keys
  {
    set k, name | k in changed && name in o.interfaces && !Suppressed(o, selected, name, Urgent(now), k) ::
      LearnedSend(o, selected, name, Urgent(now), k)
  }

  // ----- recording

  function MaintainedEntry(s: Sources, sk: SourceKey, d: Distance, now: u64): Source {
    Source(if sk in s && !d.FeasibleAgainst(s[sk].distance) then s[sk].distance else d, SatAdd(now, SOURCE_GC_TIME_MS))
  }

  lemma MaintainIsEntry(s: Sources, sk: SourceKey, d: Distance, now: u64)
    ensures Maintain(s, sk, d, now) == s[sk := MaintainedEntry(s, sk, d, now)]
  {
  }

  /** One pass announces at most one finite distance per source. */
  predicate Consistent(out: set<Action>) {
    forall a, b :: a in out && b in out && FiniteSend(a) && FiniteSend(b) && SourceOf(a) == SourceOf(b) ==>
      DistanceOf(a) == DistanceOf(b)
  }

  predicate Mentions(out: set<Action>, sk: SourceKey) {
    exists a :: a in out && FiniteSend(a) && SourceOf(a) == sk
  }

  /** The table after recording exactly the finite announcements of one pass. */
  ghost predicate Recorded(s: Sources, out: set<Action>, now: u64, s': Sources) {
    && (forall sk :: sk in s' <==> sk in s || Mentions(out, sk))
    && (forall sk :: sk in s && !Mentions(out, sk) ==> s'[sk] == s[sk])
    && (forall a :: a in out && FiniteSend(a) ==>
          SourceOf(a) in s' && s'[SourceOf(a)] == MaintainedEntry(s, SourceOf(a), DistanceOf(a), now))
  }

  lemma RecordOne(s: Sources, done: set<Action>, now: u64, s1: Sources, a: Action)
    requires Recorded(s, done, now, s1) && Consistent(done + {a}) && FiniteSend(a)
    ensures Recorded(s, done + {a}, now, Maintain(s1, SourceOf(a), DistanceOf(a), now))
  {
    var sk, d, more := SourceOf(a), DistanceOf(a), done + {a};
    var s2 := Maintain(s1, sk, d, now);
    assert a in more;
    assert Mentions(more, sk);
    forall other | other != sk ensures Mentions(more, other) <==> Mentions(done, other) {
      MentionsOther(done, a, other);
    }
    forall b | b in more && FiniteSend(b)
      ensures SourceOf(b) in s2 && s2[SourceOf(b)] == MaintainedEntry(s, SourceOf(b), DistanceOf(b), now)
    {
      if SourceOf(b) == sk {
        if Mentions(done, sk) {
          var c :| c in done && FiniteSend(c) && SourceOf(c) == sk;
          assert c in more;
        }
      }
    }
  }

  lemma MentionsOther(done: set<Action>, a: Action, other: SourceKey)
    requires FiniteSend(a) && SourceOf(a) != other
    ensures Mentions(done + {a}, other) <==> Mentions(done, other)
  {
    if Mentions(done, other) {
      var b :| b in done && FiniteSend(b) && SourceOf(b) == other;
      assert b in done + {a};
    }
  }

  lemma RecordSkip(s: Sources, done: set<Action>, now: u64, s1: Sources, a: Action)
    requires Recorded(s, done, now, s1) && !FiniteSend(a)
    ensures Recorded(s, done + {a}, now, s1)
  {
    forall sk ensures Mentions(done + {a}, sk) <==> Mentions(done, sk) {
      if Mentions(done, sk) {
        var b :| b in done && FiniteSend(b) && SourceOf(b) == sk;
        assert b in done + {a};
      }
    }
  }

  ghost predicate SendsIn(env: Env, out: set<Action>) {
    forall a :: a in out && FiniteSend(a) ==> InWindow(env.base(SourceOf(a)), DistanceOf(a).seqno)
  }

  /** A finite announcement always names its route and router. */
  predicate Addressed(out: set<Action>) {
    forall a :: a in out && a.Send? && a.update.metric != INFINITY ==> FiniteSend(a)
  }

  /** Recording keeps every distance, improves some, and covers all that was announced. */
  lemma RecordedCovers(env: Env, s: Sources, out: set<Action>, now: u64, s': Sources)
    requires SourcesIn(env, s) && SendsIn(env, out) && Recorded(s, out, now, s') && Addressed(out)
    ensures SourcesIn(env, s') && Improved(env, now, s, s') && Covered(env, now, s', out)
  {
    hide InWindow, NotWorse;
    forall a | a in out && FiniteSend(a)
      ensures var sk := SourceOf(a);
        && sk in s' && s'[sk].expires >= now && InWindow(env.base(sk), s'[sk].distance.seqno)
        && NotWorse(env.base(sk), s'[sk].distance, DistanceOf(a))
        && (sk in s ==> NotWorse(env.base(sk), s'[sk].distance, s[sk].distance))
    {
      var sk := SourceOf(a);
      MaintainIsEntry(s, sk, DistanceOf(a), now);
      MaintainImproves(env, s, sk, DistanceOf(a), now);
    }
    forall sk | sk in s' ensures InWindow(env.base(sk), s'[sk].distance.seqno) {
      if Mentions(out, sk) {
        var a :| a in out && FiniteSend(a) && SourceOf(a) == sk;
      }
    }
    forall sk | sk in s
      ensures sk in s' && NotWorse(env.base(sk), s'[sk].distance, s[sk].distance)
        && (s[sk].expires >= now ==> s'[sk].expires >= now)
    {
      if Mentions(out, sk) {
        var a :| a in out && FiniteSend(a) && SourceOf(a) == sk;
      } else {
        NotWorseItself(env.base(sk), s[sk].distance);
      }
    }
    forall a | a in out && a.Send? ensures Covers(env, now, s', a.update) {
      if a.update.metric != INFINITY { assert FiniteSend(a); }
    }
  }

  // ----- what a pass may announce

  /** Finite announcements speak of own origins or of selected routes as they stand. */
  predicate Honest(self: RouterId, selected: Selected, out: set<Action>) {
    forall a :: a in out && FiniteSend(a) ==>
      var (k, r) := SourceOf(a);
      || r == self
      || (&& k in selected && selected[k].routerId == r
          && DistanceOf(a) == Distance(selected[k].seqno, selected[k].metric))
  }

  /** The source table after one pass of announcements, each this router's own or a selected route's. */
  ghost predicate Written(self: RouterId, selected: Selected, now: u64, s: Sources, s': Sources) {
    exists out :: Honest(self, selected, out) && Recorded(s, out, now, s')
  }

  lemma WrittenBy(self: RouterId, selected: Selected, out: set<Action>, now: u64, s: Sources, s': Sources)
    requires Honest(self, selected, out) && Recorded(s, out, now, s')
    ensures Written(self, selected, now, s, s')
  {
    hide Honest, Recorded;
  }

  lemma NothingWritten(self: RouterId, selected: Selected, now: u64, s: Sources)
    ensures Written(self, selected, now, s, s)
  {
    assert Honest(self, selected, {}) && Recorded(s, {}, now, s);
  }

  predicate Extended(cands: Candidates) {
    forall ck :: ck in cands && cands[ck].metric != INFINITY ==> cands[ck].advertised < cands[ck].metric
  }

  /** The finite announcements concern only the wanted keys. */
  predicate About(only: Option<RouteKey>, out: set<Action>) {
    forall a :: a in out && FiniteSend(a) ==> Wanted(only, SourceOf(a).0)
  }

  /** A pass about other keys leaves this key's condition alone. */
  lemma UnconcernedKeepsCondition(cands: Candidates, s: Sources, out: set<Action>, now: u64, s': Sources,
                                  selected: Selected, only: Option<RouteKey>, k: RouteKey)
    requires Recorded(s, out, now, s') && About(only, out) && !Wanted(only, k) && KeepsCondition(cands, s, selected, k)
    ensures KeepsCondition(cands, s', selected, k)
  {
    forall r: RouterId ensures !Mentions(out, (k, r)) {
    }
  }

  /** Announcing backed routes keeps the feasibility condition of every key. */
  lemma RecordedKeepsCondition(self: RouterId, cands: Candidates, s: Sources, out: set<Action>, now: u64, s': Sources,
                               selected: Selected, k: RouteKey)
    requires Recorded(s, out, now, s') && Honest(self, selected, out)
    requires Backed(cands, selected, k) && KeepsCondition(cands, s, selected, k)
    requires k in selected ==> selected[k].routerId != self
    ensures KeepsCondition(cands, s', selected, k)
  {
    if k in selected {
      var sk, d := (k, selected[k].routerId), Distance(selected[k].seqno, selected[k].metric);
      AnnouncingKeepsCondition(cands, s, selected, k, sk.1, d, now);
      if Mentions(out, sk) {
        var a :| a in out && FiniteSend(a) && SourceOf(a) == sk;
        MaintainIsEntry(s, sk, d, now);
      }
      assert sk in s' ==> s'[sk] == if Mentions(out, sk) then Maintain(s, sk, d, now)[sk] else s[sk];
    }
  }

  function DeadlineOn(o: Outlet, name: string, deadline: Option<u64>, now: u64): u64 {
    if deadline.Some? then deadline.value
    else if name in o.interfaces then Triggered(now, o.interfaces[name].policy.helloIntervalCs)
    else Triggered(now, o.cfg.helloIntervalCs)
  }

  /** `send_updates`: every wanted route on every listed interface that exists. */
  function UpdateSends(o: Outlet, originated: Originated, selected: Selected, gone: set<RouteKey>, sequenceNumber: u16,
                       only: Option<RouteKey>, names: set<string>, deadline: Option<u64>, now: u64): set<Action> {
    set name, a | name in names && name in o.interfaces
                  && a in SendsOn(o, originated, selected, gone, sequenceNumber, only, name,
                                  DeadlineOn(o, name, deadline, now)) :: a
  }

  lemma SendsAreHonest(o: Outlet, originated: Originated, selected: Selected, gone: set<RouteKey>, sequenceNumber: u16,
                       only: Option<RouteKey>, names: set<string>, deadline: Option<u64>, now: u64)
    requires forall k :: k in selected ==> selected[k].routerId != o.cfg.routerId
    ensures var out := UpdateSends(o, originated, selected, gone, sequenceNumber, only, names, deadline, now);
      && Honest(o.cfg.routerId, selected, out) && Addressed(out) && Consistent(out)
      && About(only, out)
      && forall a :: a in out && FiniteSend(a) && SourceOf(a).1 == o.cfg.routerId ==>
           SourceOf(a).0 in originated && DistanceOf(a).seqno == originated[SourceOf(a).0].seqno
  {
    hide SendsOn;
    var out := UpdateSends(o, originated, selected, gone, sequenceNumber, only, names, deadline, now);
    forall a | a in out && a.Send? && a.update.metric != INFINITY ensures FiniteSend(a) {
      var name :| name in names && name in o.interfaces
        && a in SendsOn(o, originated, selected, gone, sequenceNumber, only, name, DeadlineOn(o, name, deadline, now));
      SendsAddressed(o, originated, selected, gone, sequenceNumber, only, name, DeadlineOn(o, name, deadline, now));
    }
    forall a | a in out && FiniteSend(a)
      ensures Wanted(only, SourceOf(a).0)
      ensures var (k, r) := SourceOf(a);
        if r == o.cfg.routerId then
          k in originated && DistanceOf(a) == Distance(originated[k].seqno, originated[k].metric)
        else
          && k in selected && selected[k].routerId == r
          && DistanceOf(a) == Distance(selected[k].seqno, selected[k].metric)
    {
      var name :| name in names && name in o.interfaces
        && a in SendsOn(o, originated, selected, gone, sequenceNumber, only, name, DeadlineOn(o, name, deadline, now));
      AdvertisesItself(o, originated, selected, gone, sequenceNumber, only, name, DeadlineOn(o, name, deadline, now),
                       a);
    }
  }

  lemma SendsAddressed(o: Outlet, originated: Originated, selected: Selected, gone: set<RouteKey>, sequenceNumber: u16,
                       only: Option<RouteKey>, name: string, deadline: u64)
    ensures Addressed(SendsOn(o, originated, selected, gone, sequenceNumber, only, name, deadline))
  {
    hide Suppressed, Unavailable;
  }

  lemma AdvertisesItself(o: Outlet, originated: Originated, selected: Selected, gone: set<RouteKey>,
                         sequenceNumber: u16, only: Option<RouteKey>, name: string, deadline: u64, a: Action)
    requires a in SendsOn(o, originated, selected, gone, sequenceNumber, only, name, deadline) && FiniteSend(a)
    requires forall k :: k in selected ==> selected[k].routerId != o.cfg.routerId
    ensures Wanted(only, SourceOf(a).0)
    ensures var (k, r) := SourceOf(a);
      if r == o.cfg.routerId then
        k in originated && DistanceOf(a) == Distance(originated[k].seqno, originated[k].metric)
      else
        && k in selected && selected[k].routerId == r
        && DistanceOf(a) == Distance(selected[k].seqno, selected[k].metric)
  {
    hide Suppressed, Unavailable;
  }

  lemma ChangeSendsAreHonest(o: Outlet, selected: Selected, changed: set<RouteKey>, now: u64)
    requires changed <= selected.Keys
    ensures var out := ChangeSends(o, selected, changed, now);
      Honest(o.cfg.routerId, selected, out) && Addressed(out) && Consistent(out)
  {
    hide Suppressed, Unavailable;
  }
}
