/** Holding a withdrawn route unreachable until old advertisements have run out
    (crates/babel-protocol/src/engine.rs:216-237, 398-411; engine/rib.rs:357-395). */
module Withdrawal {
  import opened Model
  import opened EngineTypes
  import opened Announcing

  type Deadlines = map<RouteKey, u64>

  function Until(m: Deadlines, k: RouteKey): u64 { if k in m then m[k] else 0 }

  /** The longest update interval in use, or the configured one without interfaces. */
  predicate IsLongest(cfg: Config, interfaces: Interfaces, longest: u16) {
    if interfaces == map[] then longest == cfg.updateIntervalCs
    else
      && (exists n :: n in interfaces && interfaces[n].policy.updateIntervalCs == longest)
      && (forall n :: n in interfaces ==> interfaces[n].policy.updateIntervalCs <= longest)
  }

  /** The last expiry among a key's candidates, or now without candidates. */
  predicate IsLatest(cands: Candidates, k: RouteKey, now: u64, latest: u64) {
    if forall ck :: ck in cands ==> ck.0 != k then latest == now
    else
      && (exists ck :: ck in cands && ck.0 == k && cands[ck].expires == latest)
      && (forall ck :: ck in cands && ck.0 == k ==> cands[ck].expires <= latest)
  }

  /** A lost key's hold covers its candidates, one update lifetime, and every
      advertisement lifetime recorded so far. */
  ghost predicate IsHold(cands: Candidates, longest: u16, advertisedUntil: Deadlines, k: RouteKey, now: u64,
                         until: u64) {
    exists latest: u64 :: IsLatest(cands, k, now, latest)
      && until == Max(Max(latest, Lifetime(now, longest)), Until(advertisedUntil, k))
  }

  /** Tombstones across a reselection: gone for selected keys, set for lost keys. */
  ghost predicate Buried(cands: Candidates, longest: u16, advertisedUntil: Deadlines, before: Selected,
                         tombstones: Deadlines, now: u64, selected: Selected, tombstones': Deadlines) {
    && (forall k :: k in tombstones' <==> k !in selected && (k in tombstones || k in before))
    && (forall k :: k in before && k !in selected ==>
      k in tombstones' && IsHold(cands, longest, advertisedUntil, k, now, tombstones'[k]))
    && (forall k :: k in tombstones && k !in selected && k !in before ==>
      k in tombstones' && tombstones'[k] == tombstones[k])
  }

  /** The hold promise: a key in `owed` that is neither selected nor originated
      is unreachable until the owed lifetime has passed. */
  predicate Held(owed: Deadlines, now: u64, advertisedUntil: Deadlines, selected: Selected, originated: Originated,
                 tombstones: Deadlines, exempt: set<RouteKey>) {
    forall k :: k in owed && owed[k] >= now ==>
      && k in advertisedUntil && advertisedUntil[k] >= owed[k]
      && (k in selected || k in originated || k in exempt || (k in tombstones && tombstones[k] >= owed[k]))
  }

  lemma HeldAfterReselect(owed: Deadlines, now: u64, advertisedUntil: Deadlines, before: Selected,
                          originated: Originated, tombstones: Deadlines, exempt: set<RouteKey>, cands: Candidates,
                          longest: u16, selected: Selected, tombstones': Deadlines)
    requires Held(owed, now, advertisedUntil, before, originated, tombstones, exempt)
    requires Buried(cands, longest, advertisedUntil, before, tombstones, now, selected, tombstones')
    ensures Held(owed, now, advertisedUntil, selected, originated, tombstones', exempt)
  {
    hide IsLatest;
    forall k | k in owed && owed[k] >= now
      ensures k in advertisedUntil && advertisedUntil[k] >= owed[k]
      ensures k in selected || k in originated || k in exempt || (k in tombstones' && tombstones'[k] >= owed[k])
    {
      if k in before && k !in selected {
        assert IsHold(cands, longest, advertisedUntil, k, now, tombstones'[k]);
      }
    }
  }

  /** At the start of an event: what is recorded for live keys becomes owed. */
  function Owe(owed: Deadlines, advertisedUntil: Deadlines, selected: Selected, originated: Originated): Deadlines {
    owed + map k | k in advertisedUntil && (k in selected || k in originated) :: advertisedUntil[k]
  }

  lemma OweKeeps(owed: Deadlines, clock: u64, now: u64, advertisedUntil: Deadlines, selected: Selected,
                 originated: Originated, tombstones: Deadlines)
    requires Held(owed, clock, advertisedUntil, selected, originated, tombstones, {}) && clock <= now
    ensures Held(Owe(owed, advertisedUntil, selected, originated), now, advertisedUntil, selected, originated,
                 tombstones, {})
  {
  }

  function StillDue(m: Deadlines, now: u64): Deadlines { map k | k in m && m[k] >= now :: m[k] }

  /** Expired tombstones and lifetimes may go: they are behind `now`. */
  lemma ExpiryKeepsHeld(owed: Deadlines, now: u64, advertisedUntil: Deadlines, selected: Selected,
                        originated: Originated, tombstones: Deadlines, exempt: set<RouteKey>)
    requires Held(owed, now, advertisedUntil, selected, originated, tombstones, exempt)
    ensures Held(owed, now, StillDue(advertisedUntil, now), selected, originated, StillDue(tombstones, now), exempt)
  {
  }

  // ----- over whole runs

  /** What the promise speaks of, after each event. */
  datatype HoldState = HoldState(owed: Deadlines, clock: u64, advertisedUntil: Deadlines, selected: Selected,
                                 originated: Originated, tombstones: Deadlines)
  {
    predicate Live(k: RouteKey) { k in selected || k in originated }
  }

  /** One event: lifetimes of live keys become owed, time moves on, the promise holds. */
  predicate HoldStep(a: HoldState, b: HoldState) {
    && b.owed == Owe(a.owed, a.advertisedUntil, a.selected, a.originated) && a.clock <= b.clock
    && Held(b.owed, b.clock, b.advertisedUntil, b.selected, b.originated, b.tombstones, {})
  }

  predicate HoldRun(run: seq<HoldState>) { forall n :: 0 <= n < |run| - 1 ==> HoldStep(run[n], run[n + 1]) }

  lemma HoldRunStart(a: HoldState)
    ensures HoldRun([a])
  {
  }

  lemma HoldRunMore(run: seq<HoldState>, b: HoldState)
    requires HoldRun(run) && (run != [] ==> HoldStep(run[|run| - 1], b))
    ensures HoldRun(run + [b])
  {
    hide HoldStep;
    var more := run + [b];
    forall n | 0 <= n < |more| - 1 ensures HoldStep(more[n], more[n + 1]) {
      if n < |run| - 1 { assert HoldStep(run[n], run[n + 1]); }
    }
  }

  lemma {:induction false} StillOwed(run: seq<HoldState>, i: nat, j: nat, k: RouteKey)
    requires HoldRun(run) && i < j < |run|
    requires run[i].Live(k) && k in run[i].advertisedUntil && forall n :: i < n < j ==> !run[n].Live(k)
    ensures k in run[j].owed && run[j].owed[k] == run[i].advertisedUntil[k]
    decreases j
  {
    assert HoldStep(run[j - 1], run[j - 1 + 1]);
    if j > i + 1 { StillOwed(run, i, j - 1, k); }
  }

  /** Over any run: a key dropped after event `i` is a tombstone after every later
      event, until it is live again or the lifetime recorded before the dropping
      event has passed. */
  lemma HoldOverRun(run: seq<HoldState>, i: nat, j: nat, k: RouteKey)
    requires HoldRun(run) && i < j < |run|
    requires run[i].Live(k) && k in run[i].advertisedUntil && forall n :: i < n <= j ==> !run[n].Live(k)
    requires run[j].clock <= run[i].advertisedUntil[k]
    ensures k in run[j].tombstones && run[j].tombstones[k] >= run[i].advertisedUntil[k]
  {
    StillOwed(run, i, j, k);
    assert HoldStep(run[j - 1], run[j - 1 + 1]);
  }
}
