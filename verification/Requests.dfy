/** The life of a seqno request after it was raised
    (crates/babel-protocol/src/engine/timers.rs:137-167, rib.rs:135-164, sources.rs:55-129). */
module Requests {
  import opened Model
  import opened EngineTypes
  import opened Announcing
  import opened Undercutting
  import opened EngineInvariants

  type Recent = map<SourceKey, (u16, u64)>

  // ----- a closed request is remembered

  /** Every request that left the table is remembered with its sequence number for a while. */
  predicate Closed(pending: Pending, pending': Pending, recent: Recent, recent': Recent, now: u64) {
    recent' == recent + map sk | sk in pending && sk !in pending' :: (pending[sk].seqno, SatAdd(now, RECENT_REQUEST_MS))
  }

  /** A request that was answered or given up is not forwarded again while it is remembered,
      whoever repeats it, with whatever hop count. */
  lemma ClosedIsNotForwarded(self: RouterId, originated: Originated, selected: Selected, pending: Pending,
                             pending': Pending, recent: Recent, recent': Recent, now: u64, sk: SourceKey, again: u16,
                             hops: u8, later: u64)
    requires Closed(pending, pending', recent, recent', now) && sk in pending && sk !in pending'
    requires Reaches(pending[sk].seqno, again) && later <= SatAdd(now, RECENT_REQUEST_MS)
    ensures CourseOf(self, originated, selected, pending', StillRecent(recent', later), sk.0, again, hops, sk.1, later)
            != Forward
  {
    assert recent'[sk] == (pending[sk].seqno, SatAdd(now, RECENT_REQUEST_MS));
  }

  // ----- retries are bounded

  predicate SpeaksFor(out: set<Action>, sk: SourceKey) {
    exists a :: a in out && a.Request? && (a.key, a.routerId) == sk
  }

  /** The pending requests of an engine between its ticks, as `TryHandle` promises. */
  /** A run as one request sees it: ticks, at the times given, and between them events that leave it alone. */
  ghost predicate RequestRun(pendings: seq<Pending>, ticks: seq<Option<u64>>, outs: seq<set<Action>>, sk: SourceKey) {
    && |pendings| == |ticks| + 1 && |outs| == |ticks|
    && forall i :: 0 <= i < |ticks| ==> RequestMoved(pendings[i], ticks[i], pendings[i + 1], outs[i], sk)
  }

  ghost predicate RequestMoved(was: Pending, tick: Option<u64>, pending: Pending, out: set<Action>, sk: SourceKey) {
    if tick.Some? then RequestsRan(was, tick.value, pending, out)
    else (sk in pending <==> sk in was) && (sk in was ==> pending[sk] == was[sk])
  }

  predicate DueAt(pendings: seq<Pending>, sk: SourceKey, ticks: seq<Option<u64>>, i: nat)
    requires i < |ticks| < |pendings|
  {
    ticks[i].Some? && sk in pendings[i] && IsDue(pendings[i][sk], ticks[i].value)
  }

  /** How many ticks among the first `n` events find the request pending and due. */
  function TimesDue(pendings: seq<Pending>, sk: SourceKey, ticks: seq<Option<u64>>, n: nat): nat
    requires n <= |ticks| < |pendings|
  {
    if n == 0 then 0 else TimesDue(pendings, sk, ticks, n - 1) + (if DueAt(pendings, sk, ticks, n - 1) then 1 else 0)
  }

  /** One tick: a request that is not due stays, a due one is sent again with one retry less, or is
      given up if none is left. */
  lemma TickRequest(was: Pending, now: u64, pending: Pending, out: set<Action>, sk: SourceKey)
    requires RequestsRan(was, now, pending, out) && sk in was
    ensures sk !in pending <==> IsDue(was[sk], now) && was[sk].retriesLeft == 0
    ensures !IsDue(was[sk], now) ==> pending[sk] == was[sk]
    ensures IsDue(was[sk], now) && was[sk].retriesLeft > 0 ==>
      && SpeaksFor(out, sk) && pending[sk].retriesLeft == was[sk].retriesLeft - 1
      && pending[sk] == was[sk].(retriesLeft := pending[sk].retriesLeft, nextRetry := pending[sk].nextRetry)
  {
    hide Pow2;
    var asked :| RequestsKept(was, asked) && pending == Retried(asked, now) && Retries(asked, now) <= out;
    var p := asked[sk];
    if IsDue(p, now) && p.retriesLeft > 0 {
      assert Request(p.nextHop.interface, p.nextHop.address, sk.0, sk.1, p.seqno, p.hopCount, Urgent(now))
             in Retries(asked, now);
    }
  }

  /** Over any run whose other events leave the request alone, as long as it is pending: each tick that
      finds it due sends it again and takes one retry, the tick after the last retry gives it up, and
      otherwise it is the request it was. */
  lemma {:induction false} RetriesAreBounded(pendings: seq<Pending>, ticks: seq<Option<u64>>, outs: seq<set<Action>>,
                                             sk: SourceKey, n: nat)
    requires RequestRun(pendings, ticks, outs, sk) && n <= |ticks| && sk in pendings[0]
    requires forall i :: 0 <= i < n ==> sk in pendings[i]
    ensures var r, due := pendings[0][sk].retriesLeft, TimesDue(pendings, sk, ticks, n);
      && due <= r + 1 && (sk in pendings[n] <==> due <= r)
      && (due <= r ==>
            var p := pendings[n][sk];
            p.retriesLeft == r - due && p == pendings[0][sk].(retriesLeft := p.retriesLeft, nextRetry := p.nextRetry))
    ensures forall i :: 0 <= i < n && DueAt(pendings, sk, ticks, i) && pendings[i][sk].retriesLeft > 0 ==>
      SpeaksFor(outs[i], sk)
    decreases n
  {
    hide RequestsRan, IsDue, SpeaksFor;
    if n > 0 {
      var i := n - 1;
      RetriesAreBounded(pendings, ticks, outs, sk, i);
      assert RequestMoved(pendings[i], ticks[i], pendings[i + 1], outs[i], sk);
      if ticks[i].Some? { TickRequest(pendings[i], ticks[i].value, pendings[n], outs[i], sk); }
    }
  }

  /** The wait before attempt `n` of a request raised with all its retries: 2, 4, 8 and 16 seconds. */
  function Waits(n: nat): nat { REQUEST_RETRY_INITIAL_MS * Pow2(n) }

  /** The longer a request has been repeated, the longer the wait. */
  lemma RetryBacksOff(pending: Pending, sk: SourceKey, now: u64)
    requires sk in pending && IsDue(pending[sk], now) && 0 < pending[sk].retriesLeft <= REQUEST_RETRIES
    ensures sk in Retried(pending, now)
    ensures Retried(pending, now)[sk].nextRetry
      == SatAdd(now, Waits(REQUEST_RETRIES - Retried(pending, now)[sk].retriesLeft))
  {
  }

  // ----- requests and candidates

  /** The requests whose target still offers the route. */
  function StillAskable(pending: Pending, cands: Candidates): Pending {
    map sk | sk in pending && (sk.0, pending[sk].nextHop) in cands :: pending[sk]
  }
}
