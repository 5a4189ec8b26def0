/** Switching one route under hysteresis
    (crates/babel-protocol/src/engine/rib.rs:269-356, 547-571). */
module Hysteresis {
  import opened Model
  import opened EngineTypes

  /** What identifies a route among the candidates for one key. */
  datatype Ident = Ident(routerId: RouterId, nextHop: IpAddr, interface: string)

  datatype PendingSwitch = PendingSwitch(ident: Ident, since: u64, peak: u16)

  /** What is remembered about one key between reselections. */
  datatype KeyState = KeyState(chosen: Option<Ident>, pending: Option<PendingSwitch>, since: Option<u64>, settled: bool)

  /** What one reselection sees: the current route's metric if it is still
      eligible, and the best eligible candidate. */
  datatype Look = Look(now: u64, current: Option<u16>, best: Ident, bestMetric: u16)

  /** Both margins are met. */
  predicate Significant(better: u16, worse: u16, cfg: Selection) {
    var improvement := SatSub(worse, better);
    var percentage := Min((worse * cfg.marginPercent + 99) / 100, U16_MAX);
    improvement >= Max(cfg.marginMetric, percentage) && improvement > 0
  }

  lemma SignificantIsMonotone(better: u16, other: u16, worse: u16, cfg: Selection)
    requires better <= other && Significant(other, worse, cfg)
    ensures Significant(better, worse, cfg)
  {
  }

  function Since(st: KeyState, now: u64): u64 { if st.since.Some? then st.since.value else now }

  predicate Settled(cfg: Selection, st: KeyState, now: u64) {
    st.settled || SatSub(now, Since(st, now)) >= cfg.betterFor
  }

  /** The pending switch this look continues or starts, with the current route's peak. */
  function Waiting(st: KeyState, look: Look): PendingSwitch
    requires look.current.Some?
  {
    var p := if st.pending.Some? && st.pending.value.ident == look.best then st.pending.value
             else PendingSwitch(look.best, look.now, look.current.value);
    p.(peak := Max(p.peak, look.current.value))
  }

  /** The alternative differs from an eligible current route and clears both margins. */
  predicate Tempting(cfg: Selection, st: KeyState, look: Look) {
    look.current.Some? && st.chosen != Some(look.best) && Significant(look.bestMetric, look.current.value, cfg)
  }

  /** The branch of `reselect` for one key with eligible candidates. */
  function Decide(cfg: Selection, st: KeyState, look: Look): (st': KeyState)
    ensures st'.chosen.Some?
  {
    var settled := Settled(cfg, st, look.now);
    var since := if st.settled then st.since else Some(Since(st, look.now));
    if look.current.None? || st.chosen.None? then
      KeyState(Some(look.best), None, if settled then since else Some(look.now), settled)
    else if !Tempting(cfg, st, look) then KeyState(st.chosen, None, since, settled)
    else if !settled then KeyState(Some(look.best), None, Some(look.now), false)
    else
      var p := Waiting(st, look);
      if Significant(look.current.value, p.peak, cfg) then
        KeyState(st.chosen, Some(PendingSwitch(p.ident, look.now, look.current.value)), since, true)
      else if SatSub(look.now, p.since) >= cfg.betterFor then KeyState(Some(look.best), None, since, true)
      else KeyState(st.chosen, Some(p), since, true)
  }

  // ----- whole runs

  function After(cfg: Selection, st: KeyState, looks: seq<Look>): KeyState {
    if looks == [] then st else Decide(cfg, After(cfg, st, looks[..|looks| - 1]), looks[|looks| - 1])
  }

  /** From look `m` on, every look saw the eligible route `from` current and
      `to` best, ahead by both margins. */
  predicate Insists(cfg: Selection, st: KeyState, looks: seq<Look>, m: nat, from: Ident, to: Ident) {
    && m < |looks|
    && forall i :: m <= i < |looks| ==>
         && looks[i].current.Some? && looks[i].best == to && After(cfg, st, looks[..i]).chosen == Some(from)
         && Significant(looks[i].bestMetric, looks[i].current.value, cfg)
  }

  /** What a pending switch witnesses about the looks so far. */
  predicate Earned(cfg: Selection, st: KeyState, looks: seq<Look>) {
    var s := After(cfg, st, looks);
    s.pending.Some? ==>
      && s.chosen.Some?
      && exists m :: 0 <= m < |looks| && looks[m].now == s.pending.value.since
           && Insists(cfg, st, looks, m, s.chosen.value, s.pending.value.ident)
  }

  lemma InsistsLonger(cfg: Selection, st: KeyState, looks: seq<Look>, last: Look, m: nat, from: Ident, to: Ident)
    requires Insists(cfg, st, looks, m, from, to) && After(cfg, st, looks).chosen == Some(from)
    requires last.current.Some? && last.best == to && Significant(last.bestMetric, last.current.value, cfg)
    ensures Insists(cfg, st, looks + [last], m, from, to)
  {
    var more := looks + [last];
    forall i | m <= i < |more| ensures
      && more[i].current.Some? && more[i].best == to && After(cfg, st, more[..i]).chosen == Some(from)
      && Significant(more[i].bestMetric, more[i].current.value, cfg)
    {
      if i < |looks| { assert more[..i] == looks[..i]; } else { assert more[..i] == looks; }
    }
  }

  lemma InsistsOnce(cfg: Selection, st: KeyState, looks: seq<Look>, last: Look, from: Ident)
    requires After(cfg, st, looks).chosen == Some(from)
    requires last.current.Some? && Significant(last.bestMetric, last.current.value, cfg)
    ensures Insists(cfg, st, looks + [last], |looks|, from, last.best)
  {
    assert (looks + [last])[..|looks|] == looks;
  }

  /** The waiting switch before the dwell test has been earned up to this look. */
  lemma WaitingEarned(cfg: Selection, st: KeyState, looks: seq<Look>, last: Look) returns (m: nat)
    requires Earned(cfg, st, looks) && Tempting(cfg, After(cfg, st, looks), last)
    requires After(cfg, st, looks).chosen.Some?
    ensures m < |looks| + 1 && (looks + [last])[m].now == Waiting(After(cfg, st, looks), last).since
    ensures Insists(cfg, st, looks + [last], m, After(cfg, st, looks).chosen.value, last.best)
  {
    hide Insists, Significant;
    var s := After(cfg, st, looks);
    if s.pending.Some? && s.pending.value.ident == last.best {
      m :| 0 <= m < |looks| && looks[m].now == s.pending.value.since
        && Insists(cfg, st, looks, m, s.chosen.value, s.pending.value.ident);
      InsistsLonger(cfg, st, looks, last, m, s.chosen.value, last.best);
    } else {
      m := |looks|;
      InsistsOnce(cfg, st, looks, last, s.chosen.value);
    }
  }

  lemma {:induction false} AllEarned(cfg: Selection, st: KeyState, looks: seq<Look>)
    requires st.pending.None?
    ensures Earned(cfg, st, looks)
    decreases |looks|
  {
    hide Insists, Significant;
    if looks != [] {
      var n := |looks| - 1;
      var before, last := looks[..n], looks[n];
      AllEarned(cfg, st, before);
      assert looks == before + [last];
      var s := After(cfg, st, before);
      if After(cfg, st, looks).pending.Some? {
        var m := WaitingEarned(cfg, st, before, last);
        InsistsOnce(cfg, st, before, last, s.chosen.value);
      }
    }
  }

  /** Over any run of reselections: if a settled key leaves a route that is still
      eligible, then since some look at least `betterFor` earlier every look saw
      that same alternative best and ahead of that same route by both margins. */
  lemma SwitchIsEarned(cfg: Selection, st: KeyState, looks: seq<Look>, last: Look) returns (m: nat)
    requires st.pending.None?
    requires var s := After(cfg, st, looks);
      && s.chosen.Some? && s.settled && last.current.Some? && Decide(cfg, s, last).chosen != s.chosen
    ensures m <= |looks| && SatSub(last.now, (looks + [last])[m].now) >= cfg.betterFor
    ensures Insists(cfg, st, looks + [last], m, After(cfg, st, looks).chosen.value, last.best)
    ensures Decide(cfg, After(cfg, st, looks), last).chosen == Some(last.best)
  {
    hide Insists, Significant;
    AllEarned(cfg, st, looks);
    m := WaitingEarned(cfg, st, looks, last);
  }
}
