/** Hysteresis over runs of the engine: no settled key leaves a route its own candidates still
    hold unless the other route was ahead for the whole dwell time
    (crates/babel-protocol/src/engine/rib.rs:257-357). */
module Dwelling {
  import opened Model
  import opened WireTypes
  import opened EngineTypes
  import opened Feasibility
  import opened Hysteresis
  import opened Reselection
  import opened Switching
  import opened Announcing
  import opened Updating
  import opened EngineInvariants
  import opened Withdrawal
  import opened Engines

  // ----- switches of one path are far apart

  lemma {:induction false} ClockRises(cfg: Selection, path: seq<Chosen>, i: nat, j: nat)
    requires Path(cfg, path) && i <= j < |path|
    ensures path[i].clock <= path[j].clock
    decreases j - i
  {
    hide OneLook;
    if i < j {
      ClockRises(cfg, path, i, j - 1);
      assert Step(cfg, path[j - 1], path[j - 1 + 1]);
    }
  }

  /** Two switches of a settled key between routes that stay within reach lie at least `betterFor` apart. */
  lemma SwitchesAreApart(cfg: Selection, path: seq<Chosen>, n: nat, m: nat, k: RouteKey)
    requires Path(cfg, path) && n < m && m + 1 < |path| && k !in path[0].memory.pending
    requires Switches(path[n], path[n + 1], k) && Switches(path[m], path[m + 1], k)
    ensures SatSub(path[m + 1].clock, path[n + 1].clock) >= cfg.betterFor
  {
    hide Path, Ahead, Holds, EarnedSince;
    SwitchesAreEarned(cfg, path, m, k);
    var q: nat :| EarnedSince(cfg, path, m, k, q);
    if q <= n {
      StoodStill(cfg, path, m, k, q, n);
      StoodStill(cfg, path, m, k, q, n + 1);
      assert false;
    }
    DwellTime(cfg, path, m, k, q);
    ClockRises(cfg, path, n + 1, q + 1);
  }

  lemma StoodStill(cfg: Selection, path: seq<Chosen>, m: nat, k: RouteKey, q: nat, i: nat)
    requires m + 1 < |path| && k in path[m].selected && k in path[m + 1].selected
    requires EarnedSince(cfg, path, m, k, q) && q <= i <= m
    ensures k in path[i].selected && IdentOf(path[i].selected[k]) == IdentOf(path[m].selected[k])
  {
    hide Ahead;
    assert StandsOn(cfg, path, i, k, IdentOf(path[m].selected[k]), IdentOf(path[m + 1].selected[k]));
  }

  lemma DwellTime(cfg: Selection, path: seq<Chosen>, m: nat, k: RouteKey, q: nat)
    requires m + 1 < |path| && k in path[m].selected && k in path[m + 1].selected
    requires EarnedSince(cfg, path, m, k, q)
    ensures q <= m && SatSub(path[m + 1].clock, path[q + 1].clock) >= cfg.betterFor
  {
    hide Ahead, StandsOn;
  }

  // ----- an event as steps

  /** The source table an event's only look uses. */
  ghost predicate SeenBy(cfg: Config, ev: Event, a: View, b: View, seen: Sources) {
    match ev
    case InterfaceUp(_, _, _, now, _) => seen == Collect(a.sources, now)
    case Tick(now, _) => seen == Collect(a.sources, now)
    case PacketReceived(interface, source, tlvs, now, sense) =>
      var nk := NeighborKey(interface, source);
      if Admits(cfg, a.interfaces, a.neighbors, nk, tlvs) then
        exists trail :: LeftBy(cfg, nk, tlvs, now, sense, a, trail, b, seen)
      else seen == a.sources
    case _ => seen == a.sources
  }

  /** The table the last TLV of a packet left. */
  ghost predicate LeftBy(cfg: Config, nk: NeighborKey, tlvs: seq<Tlv>, now: u64, sense: Sense, a: View,
                         trail: seq<Snap>, b: View, seen: Sources) {
    && |trail| == |tlvs| + 1 && seen == trail[|tlvs|].sources
    && Processed(Outlet(cfg, a.policy, a.interfaces), a.selected, nk, tlvs, now, sense,
                 Snap(a.neighbors, a.candidates, a.sources, a.pending), trail, b.neighbors, b.candidates)
  }

  predicate Shows(c: Chosen, m: Moment) {
    c.candidates == m.view.candidates && c.selected == m.view.selected && c.memory == m.memory
  }

  predicate AtStage(c: Chosen, x: Stage) {
    c.candidates == x.candidates && c.selected == x.selected && c.memory == x.memory
  }

  /** The three steps of a change of interface policy, named by its stages. */
  ghost predicate Stages(cfg: Config, ev: Event, a: Moment, b: Moment, path: seq<Chosen>)
    requires ev.InterfacePolicyChanged? && |path| == 3
  {
    if ev.name in a.view.interfaces then
      exists x, y, told :: StagesWith(cfg, ev, a, b, path, x, y, told)
    else path[0].candidates == a.view.candidates && path[1].candidates == a.view.candidates
  }

  ghost predicate StagesWith(cfg: Config, ev: Event, a: Moment, b: Moment, path: seq<Chosen>, x: Stage, y: Stage,
                             told: Sources)
    requires ev.InterfacePolicyChanged? && ev.name in a.view.interfaces && |path| == 3
  {
    && Restaged(cfg, ev, a.view.interfaces, StageOf(a.view, a.memory), x, y, told, StageOf(b.view, b.memory))
    && AtStage(path[0], x) && path[0].seen == a.view.sources
    && AtStage(path[1], y) && path[1].seen == x.sources
    && path[2].seen == Collect(told, ev.now)
  }

  function StepsOf(ev: Event): nat { if ev.InterfacePolicyChanged? then 3 else 1 }

  /** An event's steps: one, at the candidates it leaves, or three for a change of interface policy. */
  ghost predicate EventSteps(cfg: Config, ev: Event, a: Moment, b: Moment, path: seq<Chosen>) {
    && |path| == StepsOf(ev) && Shows(path[|path| - 1], b)
    && (forall i :: 0 <= i < |path| ==> path[i].clock == ev.now)
    && (if ev.InterfacePolicyChanged? then Stages(cfg, ev, a, b, path)
        else SeenBy(cfg, ev, a.view, b.view, path[0].seen))
  }

  ghost predicate Evolves(cfg: Config, ev: Event, a: Moment, b: Moment) {
    Evolved(cfg, ev, a.view, a.memory, b.view, b.memory)
  }

  lemma OneStep(cfg: Config, ev: Event, a: Moment, b: Moment, first: Chosen, seen: Sources) returns (path: seq<Chosen>)
    requires !ev.InterfacePolicyChanged? && Shows(first, a) && first.clock <= ev.now
    requires SeenBy(cfg, ev, a.view, b.view, seen)
    requires OneLook(cfg.selection, ev.now, b.view.candidates, seen, a.view.selected, a.memory, b.view.selected,
                     b.memory)
    ensures EventSteps(cfg, ev, a, b, path) && Path(cfg.selection, [first] + path)
  {
    hide OneLook, SeenBy;
    path := [Chosen(b.view.candidates, seen, b.view.selected, b.memory, ev.now)];
  }

  lemma PacketSteps(cfg: Config, ev: Event, a: Moment, b: Moment, first: Chosen) returns (path: seq<Chosen>)
    requires ev.PacketReceived? && Evolves(cfg, ev, a, b) && Shows(first, a) && first.clock <= ev.now
    ensures EventSteps(cfg, ev, a, b, path) && Path(cfg.selection, [first] + path)
  {
    hide OneLook, Admits, Processed;
    var nk := NeighborKey(ev.interface, ev.source);
    if Admits(cfg, a.view.interfaces, a.view.neighbors, nk, ev.tlvs) {
      var trail: seq<Snap> :| PacketLook(cfg, nk, ev.tlvs, ev.now, ev.sense, a.view, a.memory, trail, b.view, b.memory);
      var seen := trail[|ev.tlvs|].sources;
      assert LeftBy(cfg, nk, ev.tlvs, ev.now, ev.sense, a.view, trail, b.view, seen);
      path := OneStep(cfg, ev, a, b, first, seen);
    } else {
      StillLook(cfg.selection, ev.now, b.view.candidates, a.view.sources, a.view.selected, a.memory);
      path := OneStep(cfg, ev, a, b, first, a.view.sources);
    }
  }

  lemma StillLook(cfg: Selection, now: u64, cands: Candidates, seen: Sources, s: Selected, m: Memory)
    ensures OneLook(cfg, now, cands, seen, s, m, s, m)
  {
  }

  lemma PolicySteps(cfg: Config, ev: Event, a: Moment, b: Moment, first: Chosen) returns (path: seq<Chosen>)
    requires ev.InterfacePolicyChanged? && Evolves(cfg, ev, a, b) && Shows(first, a) && first.clock <= ev.now
    ensures EventSteps(cfg, ev, a, b, path) && Path(cfg.selection, [first] + path)
  {
    hide OneLook, Restaged;
    if ev.name in a.view.interfaces {
      var x, y, told :| Restaged(cfg, ev, a.view.interfaces, StageOf(a.view, a.memory), x, y, told,
                                 StageOf(b.view, b.memory));
      path := StagedSteps(cfg, ev, a, b, first, x, y, told);
    } else {
      var c := Chosen(a.view.candidates, a.view.sources, a.view.selected, a.memory, ev.now);
      path := [c, c, c.(candidates := b.view.candidates)];
      StillLook(cfg.selection, ev.now, a.view.candidates, a.view.sources, a.view.selected, a.memory);
      StillLook(cfg.selection, ev.now, b.view.candidates, a.view.sources, a.view.selected, a.memory);
      ThreeSteps(cfg.selection, first, path);
    }
  }

  lemma StagedSteps(cfg: Config, ev: Event, a: Moment, b: Moment, first: Chosen, x: Stage, y: Stage, told: Sources)
    returns (path: seq<Chosen>)
    requires ev.InterfacePolicyChanged? && ev.name in a.view.interfaces && Shows(first, a) && first.clock <= ev.now
    requires Restaged(cfg, ev, a.view.interfaces, StageOf(a.view, a.memory), x, y, told, StageOf(b.view, b.memory))
    ensures EventSteps(cfg, ev, a, b, path) && Path(cfg.selection, [first] + path)
  {
    hide OneLook, Restaged, Collect;
    var c0 := Chosen(x.candidates, a.view.sources, x.selected, x.memory, ev.now);
    var c1 := Chosen(y.candidates, x.sources, y.selected, y.memory, ev.now);
    var c2 := Chosen(b.view.candidates, Collect(told, ev.now), b.view.selected, b.memory, ev.now);
    path := [c0, c1, c2];
    StageLooks(cfg, ev, a, b, x, y, told);
    assert StagesWith(cfg, ev, a, b, path, x, y, told);
    ThreeSteps(cfg.selection, first, path);
  }

  lemma ThreeSteps(cfg: Selection, first: Chosen, path: seq<Chosen>)
    requires |path| == 3 && Step(cfg, first, path[0]) && Step(cfg, path[0], path[1]) && Step(cfg, path[1], path[2])
    ensures Path(cfg, [first] + path)
  {
    hide Step;
    var all := [first] + path;
    assert all[1] == path[0] && all[2] == path[1] && all[3] == path[2];
  }

  lemma StageLooks(cfg: Config, ev: Event, a: Moment, b: Moment, x: Stage, y: Stage, told: Sources)
    requires ev.InterfacePolicyChanged? && ev.name in a.view.interfaces
    requires Restaged(cfg, ev, a.view.interfaces, StageOf(a.view, a.memory), x, y, told, StageOf(b.view, b.memory))
    ensures OneLook(cfg.selection, ev.now, x.candidates, a.view.sources, a.view.selected, a.memory, x.selected,
                    x.memory)
    ensures OneLook(cfg.selection, ev.now, y.candidates, x.sources, x.selected, x.memory, y.selected, y.memory)
    ensures OneLook(cfg.selection, ev.now, b.view.candidates, Collect(told, ev.now), y.selected, y.memory,
                    b.view.selected, b.memory)
  {
    hide Reselected, Written, AfterClock, Rebuilt, Reprice, WithoutNeighbors, OnInterface, Collect;
  }

  lemma StepsOfEvent(cfg: Config, ev: Event, a: Moment, b: Moment, first: Chosen) returns (path: seq<Chosen>)
    requires Evolves(cfg, ev, a, b) && Shows(first, a) && first.clock <= ev.now
    ensures EventSteps(cfg, ev, a, b, path) && Path(cfg.selection, [first] + path)
  {
    hide EventSteps, Path, Shows, Reselected, Collect;
    if ev.PacketReceived? {
      path := PacketSteps(cfg, ev, a, b, first);
    } else if ev.InterfacePolicyChanged? {
      path := PolicySteps(cfg, ev, a, b, first);
    } else {
      var seen := if Clocks(ev) then Collect(a.view.sources, ev.now) else a.view.sources;
      path := OneStep(cfg, ev, a, b, first, seen);
    }
  }

  // ----- runs

  /** A run of the engine: each event moves selection and memory as `TryHandle` promises. */
  ghost predicate EngineRun(cfg: Config, events: seq<Event>, moments: seq<Moment>) {
    && |moments| == |events| + 1
    && (forall e :: 0 <= e < |events| ==> Evolves(cfg, events[e], moments[e], moments[e + 1]))
    && (forall e :: 0 < e < |events| ==> events[e - 1].now <= events[e].now)
  }

  /** The path passes through the moments of the run, at the places `at`, by the steps of its events. */
  ghost predicate Unfolds(cfg: Config, events: seq<Event>, moments: seq<Moment>, path: seq<Chosen>, at: seq<nat>) {
    && |moments| == |events| + 1 == |at| && path != [] && at[0] == 0 && at[|events|] == |path| - 1
    && Shows(path[0], moments[0]) && Shows(path[|path| - 1], moments[|events|])
    && (forall e :: 0 <= e < |events| ==> Spans(cfg, events, moments, path, at, e))
  }

  ghost predicate Spans(cfg: Config, events: seq<Event>, moments: seq<Moment>, path: seq<Chosen>, at: seq<nat>, e: nat)
    requires e < |events| && |moments| == |events| + 1 == |at|
  {
    && at[e] <= at[e + 1] < |path| && Shows(path[at[e]], moments[e])
    && EventSteps(cfg, events[e], moments[e], moments[e + 1], path[at[e] + 1..at[e + 1] + 1])
  }

  /** Every run of the engine is a path of looks at its own tables. */
  lemma {:induction false} RunIsPath(cfg: Config, events: seq<Event>, moments: seq<Moment>, t: u64)
    returns (path: seq<Chosen>, at: seq<nat>)
    requires EngineRun(cfg, events, moments) && (events != [] ==> t <= events[0].now)
    ensures Path(cfg.selection, path) && Unfolds(cfg, events, moments, path, at)
    ensures path != [] && path[|path| - 1].clock == if events == [] then t else events[|events| - 1].now
    ensures moments != [] && path[0].memory == moments[0].memory
    decreases |events|
  {
    hide EngineRun, Evolves, Unfolds, Path;
    var n := |events|;
    RunParts(cfg, events, moments);
    if n == 0 {
      var v := moments[0].view;
      path, at := [Chosen(v.candidates, v.sources, v.selected, moments[0].memory, t)], [0];
      UnfoldsNothing(cfg, moments[0], path[0]);
      Standing(cfg.selection, path[0]);
      assert moments == [moments[0]] && events == [];
    } else {
      path, at := RunIsPath(cfg, events[..n - 1], moments[..n], t);
      PathIsThere(cfg.selection, path);
      path, at := PathGrows(cfg, events[..n - 1], moments[..n], path, at, events[n - 1], moments[n]);
      assert events[..n - 1] + [events[n - 1]] == events && moments[..n] + [moments[n]] == moments;
    }
  }

  lemma PathIsThere(cfg: Selection, path: seq<Chosen>)
    requires Path(cfg, path)
    ensures path != []
  {
  }

  /** A run is a run up to its last event, and that event. */
  lemma RunParts(cfg: Config, events: seq<Event>, moments: seq<Moment>)
    requires EngineRun(cfg, events, moments)
    ensures var n := |events|;
      && |moments| == n + 1
      && (n > 0 ==>
            && EngineRun(cfg, events[..n - 1], moments[..n])
            && Evolves(cfg, events[n - 1], moments[n - 1], moments[n])
            && (n > 1 ==> events[n - 2].now <= events[n - 1].now))
  {
    hide Evolves;
    var n := |events|;
    if n > 0 {
      var front, seen := events[..n - 1], moments[..n];
      forall e | 0 <= e < |front| ensures Evolves(cfg, front[e], seen[e], seen[e + 1]) {
        assert Evolves(cfg, events[e], moments[e], moments[e + 1]);
      }
      assert Evolves(cfg, events[n - 1], moments[n - 1], moments[n - 1 + 1]);
      forall e | 0 < e < |front| ensures front[e - 1].now <= front[e].now {
        assert events[e - 1].now <= events[e].now;
      }
    }
  }

  lemma PathGrows(cfg: Config, events: seq<Event>, moments: seq<Moment>, path: seq<Chosen>, at: seq<nat>, ev: Event,
                  b: Moment)
    returns (path': seq<Chosen>, at': seq<nat>)
    requires path != [] && Path(cfg.selection, path) && path[|path| - 1].clock <= ev.now && moments != []
    requires Unfolds(cfg, events, moments, path, at) && Evolves(cfg, ev, moments[|moments| - 1], b)
    ensures Path(cfg.selection, path') && Unfolds(cfg, events + [ev], moments + [b], path', at')
    ensures path' != [] && path'[0] == path[0] && path'[|path'| - 1].clock == ev.now
  {
    hide Step, Evolves, Unfolds, EventSteps;
    UnfoldsEnd(cfg, events, moments, path, at);
    var a := moments[|moments| - 1];
    var more := StepsOfEvent(cfg, ev, a, b, path[|path| - 1]);
    PathsJoin(cfg.selection, path, more);
    UnfoldsMore(cfg, events, moments, path, at, ev, b, more);
    LastOf(cfg, ev, a, b, more);
    path', at' := path + more, at + [|path| + |more| - 1];
  }

  lemma Standing(cfg: Selection, c: Chosen)
    ensures Path(cfg, [c])
  {
  }

  lemma UnfoldsNothing(cfg: Config, m: Moment, c: Chosen)
    requires Shows(c, m)
    ensures Unfolds(cfg, [], [m], [c], [0])
  {
  }

  lemma UnfoldsEnd(cfg: Config, events: seq<Event>, moments: seq<Moment>, path: seq<Chosen>, at: seq<nat>)
    requires Unfolds(cfg, events, moments, path, at)
    ensures path != [] && |moments| == |events| + 1 && Shows(path[|path| - 1], moments[|moments| - 1])
  {
  }

  lemma LastOf(cfg: Config, ev: Event, a: Moment, b: Moment, path: seq<Chosen>)
    requires EventSteps(cfg, ev, a, b, path)
    ensures |path| > 0 && path[|path| - 1].clock == ev.now
  {
  }

  lemma PathsJoin(cfg: Selection, path: seq<Chosen>, more: seq<Chosen>)
    requires path != [] && Path(cfg, path) && Path(cfg, [path[|path| - 1]] + more)
    ensures Path(cfg, path + more)
  {
    hide Step;
    var all, tail, n := path + more, [path[|path| - 1]] + more, |path| - 1;
    forall i | 0 <= i < |all| - 1 ensures Step(cfg, all[i], all[i + 1]) {
      if i < n {
        assert all[i] == path[i] && all[i + 1] == path[i + 1];
      } else {
        assert all[i] == tail[i - n] && all[i + 1] == tail[i - n + 1];
        assert Step(cfg, tail[i - n], tail[i - n + 1]);
      }
    }
  }

  lemma UnfoldsMore(cfg: Config, events: seq<Event>, moments: seq<Moment>, path: seq<Chosen>, at: seq<nat>, ev: Event,
                    b: Moment, more: seq<Chosen>)
    requires Unfolds(cfg, events, moments, path, at)
    requires |moments| == |events| + 1 && EventSteps(cfg, ev, moments[|moments| - 1], b, more)
    ensures Unfolds(cfg, events + [ev], moments + [b], path + more, at + [|path| + |more| - 1])
  {
    hide EventSteps, Shows;
    LastShown(cfg, ev, moments[|events|], b, more);
    var events', moments', all, at' := events + [ev], moments + [b], path + more, at + [|path| + |more| - 1];
    forall e | 0 <= e < |events'| ensures Spans(cfg, events', moments', all, at', e) {
      if e < |events| {
        assert Spans(cfg, events, moments, path, at, e);
        assert at'[e] == at[e] && at'[e + 1] == at[e + 1];
        assert all[at[e] + 1..at[e + 1] + 1] == path[at[e] + 1..at[e + 1] + 1];
      } else {
        assert at'[e] == |path| - 1;
        assert all[|path|..|path| + |more|] == more;
      }
    }
  }

  lemma LastShown(cfg: Config, ev: Event, a: Moment, b: Moment, path: seq<Chosen>)
    requires EventSteps(cfg, ev, a, b, path)
    ensures |path| > 0 && Shows(path[|path| - 1], b)
  {
  }

  /** Over any run of the engine that starts without a pending switch for this key: whenever the
      key, settled, leaves a route that the candidates of that moment still hold, then since a step at
      least `betterFor` earlier every look found the new route best and ahead of the old one by both
      margins, in the candidates of its moment; and two such switches are at least `betterFor` apart. */
  lemma EverySwitchIsEarned(cfg: Config, events: seq<Event>, moments: seq<Moment>, t: u64, k: RouteKey)
    returns (path: seq<Chosen>, at: seq<nat>)
    requires EngineRun(cfg, events, moments) && (events != [] ==> t <= events[0].now)
    requires moments != [] && k !in moments[0].memory.pending
    ensures Path(cfg.selection, path) && Unfolds(cfg, events, moments, path, at)
    ensures forall n :: 0 <= n && n + 1 < |path| && Switches(path[n], path[n + 1], k) ==>
      Justified(cfg.selection, path, n, k)
    ensures forall n, m :: 0 <= n < m && m + 1 < |path| && Switches(path[n], path[n + 1], k)
                           && Switches(path[m], path[m + 1], k) ==>
      SatSub(path[m + 1].clock, path[n + 1].clock) >= cfg.selection.betterFor
  {
    hide EngineRun, Path, Unfolds, Justified, Switches;
    path, at := RunIsPath(cfg, events, moments, t);
    forall n | 0 <= n && n + 1 < |path| && Switches(path[n], path[n + 1], k)
      ensures k in path[n].selected && k in path[n + 1].selected && Justified(cfg.selection, path, n, k)
    {
      SwitchesSelected(path[n], path[n + 1], k);
      SwitchesAreEarned(cfg.selection, path, n, k);
    }
    forall n, m | 0 <= n < m && m + 1 < |path| && Switches(path[n], path[n + 1], k)
                  && Switches(path[m], path[m + 1], k)
      ensures SatSub(path[m + 1].clock, path[n + 1].clock) >= cfg.selection.betterFor
    {
      SwitchesAreApart(cfg.selection, path, n, m, k);
    }
  }

  lemma SwitchesSelected(a: Chosen, b: Chosen, k: RouteKey)
    requires Switches(a, b, k)
    ensures k in a.selected && k in b.selected
  {
  }

  // ----- the same between events

  /** The event moves a settled key to another route although the engine's candidates still hold the old one. */
  predicate SwitchEvent(a: Moment, b: Moment, k: RouteKey) {
    && k in a.view.selected && k in a.memory.settled && k in b.view.selected
    && IdentOf(b.view.selected[k]) != IdentOf(a.view.selected[k]) && Holds(b.view.candidates, a.view.selected, k)
  }

  /** Where the path stands before and after an event that is not a change of interface policy. */
  lemma EventPlace(cfg: Config, events: seq<Event>, moments: seq<Moment>, path: seq<Chosen>, at: seq<nat>, e: nat)
    requires Unfolds(cfg, events, moments, path, at) && e < |events| && |at| == |moments| == |events| + 1
    requires !events[e].InterfacePolicyChanged?
    ensures at[e + 1] == at[e] + 1 < |path| && path[at[e] + 1].clock == events[e].now
    ensures Shows(path[at[e]], moments[e]) && Shows(path[at[e] + 1], moments[e + 1])
  {
    hide Shows, SeenBy, Stages;
    assert Spans(cfg, events, moments, path, at, e);
    var steps := path[at[e] + 1..at[e + 1] + 1];
    assert steps[0] == path[at[e] + 1] && steps[0].clock == events[e].now;
  }

  /** Later events lie further along the path, whatever comes between them. */
  lemma {:induction false} PlacesRise(cfg: Config, events: seq<Event>, moments: seq<Moment>, path: seq<Chosen>,
                                      at: seq<nat>, d: nat, e: nat)
    requires Unfolds(cfg, events, moments, path, at) && d < e < |at| == |moments|
    ensures at[d] < at[e]
    decreases e - d
  {
    hide Shows, SeenBy, Stages;
    assert Spans(cfg, events, moments, path, at, e - 1);
    if d < e - 1 { PlacesRise(cfg, events, moments, path, at, d, e - 1); }
  }

  lemma SwitchEventIsStep(a: Moment, b: Moment, c: Chosen, d: Chosen, k: RouteKey)
    requires Shows(c, a) && Shows(d, b) && SwitchEvent(a, b, k)
    ensures Switches(c, d, k)
  {
  }

  lemma StepAtEvent(cfg: Config, events: seq<Event>, moments: seq<Moment>, path: seq<Chosen>, at: seq<nat>, e: nat,
                    k: RouteKey)
    requires Unfolds(cfg, events, moments, path, at) && e < |events| && |at| == |moments| == |events| + 1
    requires !events[e].InterfacePolicyChanged? && SwitchEvent(moments[e], moments[e + 1], k)
    ensures at[e] + 1 < |path| && path[at[e] + 1].clock == events[e].now
    ensures Switches(path[at[e]], path[at[e] + 1], k)
  {
    hide Unfolds, Shows, SwitchEvent, Switches;
    EventPlace(cfg, events, moments, path, at, e);
    SwitchEventIsStep(moments[e], moments[e + 1], path[at[e]], path[at[e] + 1], k);
  }

  lemma UnfoldsLength(cfg: Config, events: seq<Event>, moments: seq<Moment>, path: seq<Chosen>, at: seq<nat>)
    requires Unfolds(cfg, events, moments, path, at)
    ensures |at| == |moments|
  {
  }

  /** A settled key whose routes stay within the engine's candidates is not switched twice within `betterFor`,
      whatever happens between the two events. A change of interface policy is several reselections, not one
      switch; `EverySwitchIsEarned` speaks of each. */
  lemma SwitchEventsAreApart(cfg: Config, events: seq<Event>, moments: seq<Moment>, k: RouteKey, d: nat, e: nat)
    requires EngineRun(cfg, events, moments) && d < e < |events| && |moments| == |events| + 1
    requires k !in moments[0].memory.pending
    requires !events[d].InterfacePolicyChanged? && !events[e].InterfacePolicyChanged?
    requires SwitchEvent(moments[d], moments[d + 1], k) && SwitchEvent(moments[e], moments[e + 1], k)
    ensures SatSub(events[e].now, events[d].now) >= cfg.selection.betterFor
  {
    hide EngineRun, Unfolds, SwitchEvent, Switches, Path;
    var path, at := RunIsPath(cfg, events, moments, events[0].now);
    UnfoldsLength(cfg, events, moments, path, at);
    StepAtEvent(cfg, events, moments, path, at, d, k);
    StepAtEvent(cfg, events, moments, path, at, e, k);
    PlacesRise(cfg, events, moments, path, at, d, e);
    SwitchesAreApart(cfg.selection, path, at[d], at[e], k);
  }

  // ----- the engine class runs like this

  function AcceptedOf(events: seq<Event>): seq<Event> {
    if events == [] then []
    else
      var front, last := AcceptedOf(events[..|events| - 1]), events[|events| - 1];
      if Accepted(last) then front + [last] else front
  }

  lemma AcceptedMore(events: seq<Event>, i: nat)
    requires i < |events|
    ensures AcceptedOf(events[..i + 1]) == if Accepted(events[i]) then AcceptedOf(events[..i]) + [events[i]]
                                           else AcceptedOf(events[..i])
  {
    hide Accepted;
    assert events[..i + 1][..i] == events[..i];
  }

  lemma RunMore(cfg: Config, events: seq<Event>, moments: seq<Moment>, ev: Event, b: Moment)
    requires EngineRun(cfg, events, moments) && moments != [] && Evolves(cfg, ev, moments[|moments| - 1], b)
    requires events != [] ==> events[|events| - 1].now <= ev.now
    ensures EngineRun(cfg, events + [ev], moments + [b])
  {
    hide Evolves;
    var more, seen := events + [ev], moments + [b];
    forall e | 0 <= e < |more| ensures Evolves(cfg, more[e], seen[e], seen[e + 1]) {
      if e < |events| { assert Evolves(cfg, events[e], moments[e], moments[e + 1]); }
    }
  }

  /** The engine, handed any events in the order of their time, makes such a run of the valid ones. */
  method Drive(e: Engine, events: seq<Event>) returns (ghost moments: seq<Moment>, ghost holds: seq<HoldState>)
    requires e.Steady(e.clock) && (events != [] ==> e.clock <= events[0].now)
    requires forall i :: 0 < i < |events| ==> events[i - 1].now <= events[i].now
    modifies e
    ensures e.Steady(e.clock) && EngineRun(e.cfg, AcceptedOf(events), moments)
    ensures moments != [] && moments[0].view == old(e.Look()) && moments[0].memory == old(e.memory)
    ensures moments[|moments| - 1].view == e.Look() && moments[|moments| - 1].memory == e.memory
    ensures HoldRun(holds) && |holds| == |moments| && holds[0] == old(e.HoldView())
      && holds[|holds| - 1] == e.HoldView()
  {
    hide Engine.Steady, EngineRun, Evolved, Accepted, Going, Performed, Weakens, HoldStep, HoldRun, AllNoted,
         AcceptedOf;
    moments, holds := [e.Instant()], [e.HoldView()];
    EmptyRun(e.cfg, moments[0]);
    HoldRunStart(e.HoldView());
    assert events[..0] == [];
    for i := 0 to |events|
      invariant e.Steady(e.clock) && (i < |events| ==> e.clock <= events[i].now)
      invariant EngineRun(e.cfg, AcceptedOf(events[..i]), moments) && LastBy(AcceptedOf(events[..i]), e.clock)
      invariant moments != [] && moments[0].view == old(e.Look()) && moments[0].memory == old(e.memory)
      invariant moments[|moments| - 1].view == e.Look() && moments[|moments| - 1].memory == e.memory
      invariant HoldRun(holds) && |holds| == |moments| && holds[0] == old(e.HoldView())
      invariant holds[|holds| - 1] == e.HoldView()
    {
      AcceptedMore(events, i);
      var r, bumps := e.TryHandle(events[i]);
      if r.Ok? {
        RunMore(e.cfg, AcceptedOf(events[..i]), moments, events[i], e.Instant());
        HoldRunMore(holds, e.HoldView());
        moments, holds := moments + [e.Instant()], holds + [e.HoldView()];
      }
    }
    assert events[..|events|] == events;
  }

  lemma EmptyRun(cfg: Config, m: Moment)
    ensures EngineRun(cfg, AcceptedOf([]), [m])
  {
  }

  predicate LastBy(events: seq<Event>, t: u64) { events != [] ==> events[|events| - 1].now <= t }
}
