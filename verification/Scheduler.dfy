/** Per-interface output scheduler (crates/babel-router/src/output.rs). */
module Scheduler {
  import opened Model
  import opened WirePrefix
  import opened WireTypes
  import opened WireRoundTrip
  import opened Packetizer

  const DEADLINE_MARGIN_MS: nat := 5

  /** Semantic TLVs waiting for their random delay; `count` intents were merged. */
  datatype Batch = Batch(destination: IpAddr, tlvs: seq<OutboundTlv>, release: u64, deadline: u64, expires: u64,
                         count: nat)

  datatype Datagram = Datagram(destination: IpAddr, bytes: Bytes, deadline: u64, expires: u64)

  /** One submitted TLV with the timing its own intent asked for. */
  datatype Ticket = Ticket(destination: IpAddr, tlv: OutboundTlv, deadline: u64, expires: u64)

  function Tlvs(tickets: seq<Ticket>): (r: seq<OutboundTlv>)
    ensures |r| == |tickets|
  {
    seq(|tickets|, i requires 0 <= i < |tickets| => tickets[i].tlv)
  }

  function Tickets(destination: IpAddr, tlvs: seq<OutboundTlv>, deadline: u64, expires: u64): (r: seq<Ticket>)
    ensures |r| == |tlvs| && Tlvs(r) == tlvs
  {
    seq(|tlvs|, i requires 0 <= i < |tlvs| => Ticket(destination, tlvs[i], deadline, expires))
  }

  /** Timing no laxer than any ticket asked for, and the same destination. */
  predicate Honours(destination: IpAddr, deadline: u64, expires: u64, tickets: seq<Ticket>) {
    forall i :: 0 <= i < |tickets| ==>
      tickets[i].destination == destination && deadline <= tickets[i].deadline && expires <= tickets[i].expires
  }

  predicate BatchHolds(b: Batch, tickets: seq<Ticket>) {
    Tlvs(tickets) == b.tlvs && Honours(b.destination, b.deadline, b.expires, tickets)
  }

  /** Decoded alone, the datagram shows exactly these tickets' TLVs. */
  ghost predicate DatagramHolds(d: Datagram, tickets: seq<Ticket>) {
    && Honours(d.destination, d.deadline, d.expires, tickets)
    && forall source :: (forall t :: t in Tlvs(tickets) ==> Fits(t, source)) ==> Arrives(d.bytes, Tlvs(tickets), source)
  }

  // ----- ticket accounting

  function Total(groups: seq<seq<Ticket>>): multiset<Ticket> {
    if groups == [] then multiset{} else Total(groups[..|groups| - 1]) + multiset(groups[|groups| - 1])
  }

  lemma TotalPush(groups: seq<seq<Ticket>>, last: seq<Ticket>)
    ensures Total(groups + [last]) == Total(groups) + multiset(last)
  {
    assert (groups + [last])[..|groups|] == groups;
  }

  lemma {:induction false} TotalAppend(a: seq<seq<Ticket>>, b: seq<seq<Ticket>>)
    ensures Total(a + b) == Total(a) + Total(b)
    decreases |b|
  {
    if b == [] {
      assert a + b == a;
    } else {
      var n := |b| - 1;
      TotalAppend(a, b[..n]);
      assert a + b == (a + b[..n]) + [b[n]];
      TotalPush(a + b[..n], b[n]);
    }
  }

  lemma TotalRemove(groups: seq<seq<Ticket>>, i: nat)
    requires i < |groups|
    ensures Total(groups) == Total(groups[..i] + groups[i + 1..]) + multiset(groups[i])
  {
    hide Total;
    assert groups == (groups[..i] + [groups[i]]) + groups[i + 1..];
    TotalAppend(groups[..i] + [groups[i]], groups[i + 1..]);
    TotalPush(groups[..i], groups[i]);
    TotalAppend(groups[..i], groups[i + 1..]);
  }

  lemma TotalGrow(groups: seq<seq<Ticket>>, i: nat, more: seq<Ticket>)
    requires i < |groups|
    ensures Total(groups[i := groups[i] + more]) == Total(groups) + multiset(more)
  {
    hide Total;
    var grown := groups[i := groups[i] + more];
    TotalRemove(groups, i);
    TotalRemove(grown, i);
    assert grown[..i] + grown[i + 1..] == groups[..i] + groups[i + 1..];
  }

  /** Tickets cut along the packetizer's chunks. */
  function Cut(tickets: seq<Ticket>, chunks: seq<seq<OutboundTlv>>): (r: seq<seq<Ticket>>)
    requires Flatten(chunks) == Tlvs(tickets)
    ensures |r| == |chunks|
    decreases |chunks|
  {
    if chunks == [] then []
    else
      var m := |chunks| - 1;
      var n := |tickets| - |chunks[m]|;
      assert Tlvs(tickets[..n]) == Flatten(chunks)[..n] == Flatten(chunks[..m]);
      Cut(tickets[..n], chunks[..m]) + [tickets[n..]]
  }

  lemma {:induction false} CutLosesNothing(tickets: seq<Ticket>, chunks: seq<seq<OutboundTlv>>)
    requires Flatten(chunks) == Tlvs(tickets)
    ensures Total(Cut(tickets, chunks)) == multiset(tickets)
    decreases |chunks|
  {
    if chunks != [] {
      var m := |chunks| - 1;
      var n := |tickets| - |chunks[m]|;
      assert Tlvs(tickets[..n]) == Flatten(chunks)[..n] == Flatten(chunks[..m]);
      CutLosesNothing(tickets[..n], chunks[..m]);
      TotalPush(Cut(tickets[..n], chunks[..m]), tickets[n..]);
      assert tickets == tickets[..n] + tickets[n..];
    }
  }

  lemma {:induction false} CutPiece(tickets: seq<Ticket>, chunks: seq<seq<OutboundTlv>>, i: nat)
    requires Flatten(chunks) == Tlvs(tickets) && i < |chunks|
    ensures Tlvs(Cut(tickets, chunks)[i]) == chunks[i]
    ensures forall t :: t in Cut(tickets, chunks)[i] ==> t in tickets
    decreases |chunks|
  {
    var m := |chunks| - 1;
    var n := |tickets| - |chunks[m]|;
    assert Tlvs(tickets[..n]) == Flatten(chunks)[..n] == Flatten(chunks[..m]);
    if i < m {
      CutPiece(tickets[..n], chunks[..m], i);
    } else {
      assert Tlvs(tickets[n..]) == Flatten(chunks)[n..] == chunks[m];
    }
  }

  // ----- enqueueing

  /** `JitterRandom::bounded` for one raw draw. */
  function Bounded(draw: u64, inclusiveMax: u64): (r: u64)
    ensures r <= inclusiveMax
  {
    if inclusiveMax == 0 then 0 else draw % SatAdd(inclusiveMax, 1)
  }

  /** When a new intent is released: inside the jitter window, and early enough
      to leave the transport its margin before the deadline. */
  function ReleaseTime(now: u64, deadline: u64, maxJitter: u64, draw: u64): (r: u64)
    ensures now <= r <= SatAdd(now, maxJitter)
    ensures deadline >= now + DEADLINE_MARGIN_MS ==> r <= deadline - DEADLINE_MARGIN_MS
    ensures deadline < now + DEADLINE_MARGIN_MS ==> r == now
  {
    var remaining := SatSub(deadline, now);
    SatAdd(now, Bounded(draw, Min(SatSub(remaining, Min(DEADLINE_MARGIN_MS, remaining)), maxJitter)))
  }

  /** Index of the batch for a destination, or the length if there is none. */
  function Find(pending: seq<Batch>, destination: IpAddr): (i: nat)
    ensures i <= |pending|
    ensures i < |pending| ==> pending[i].destination == destination
    ensures forall k :: 0 <= k < i ==> pending[k].destination != destination
  {
    if pending == [] then 0
    else if pending[0].destination == destination then 0
    else 1 + Find(pending[1..], destination)
  }

  function Merge(b: Batch, tlvs: seq<OutboundTlv>, release: u64, deadline: u64, expires: u64): Batch {
    Batch(b.destination, b.tlvs + tlvs, Min(b.release, release), Min(b.deadline, deadline), Min(b.expires, expires),
          b.count + 1)
  }

  // ----- wake-up time

  function Sooner(a: Option<u64>, b: Option<u64>): Option<u64> {
    if a.None? then b else if b.None? then a else Some(Min(a.value, b.value))
  }

  function PendingWake(pending: seq<Batch>): Option<u64> {
    if pending == [] then None else Sooner(Some(Min(pending[0].release, pending[0].deadline)),
                                           PendingWake(pending[1..]))
  }

  function ReadyWake(ready: seq<Datagram>, nextSend: u64): Option<u64> {
    if ready == [] then None else Sooner(Some(Min(nextSend, ready[0].deadline)), ReadyWake(ready[1..], nextSend))
  }

  predicate Due(b: Batch, now: u64) { now >= b.release || now >= b.deadline }

  /** A time is before a wake-up when there is none or it lies in the future. */
  predicate Before(now: u64, wake: Option<u64>) { wake.None? || now < wake.value }

  /** `next_wake_ms`. */
  function Wake(pending: seq<Batch>, ready: seq<Datagram>, nextSend: u64): Option<u64> {
    Sooner(PendingWake(pending), ReadyWake(ready, nextSend))
  }

  predicate NothingDue(pending: seq<Batch>, ready: seq<Datagram>, nextSend: u64, now: u64) {
    && (forall i :: 0 <= i < |pending| ==> !Due(pending[i], now))
    && NoneReady(ready, nextSend, now)
  }

  /** The wake-up time is the first moment at which anything is due. */
  lemma WakeIsFirstDue(pending: seq<Batch>, ready: seq<Datagram>, nextSend: u64, now: u64)
    ensures Before(now, Wake(pending, ready, nextSend)) <==> NothingDue(pending, ready, nextSend, now)
  {
    PendingWakeIsLeast(pending, now);
    ReadyWakeIsLeast(ready, nextSend, now);
  }

  lemma {:induction false} PendingWakeIsLeast(pending: seq<Batch>, now: u64)
    ensures Before(now, PendingWake(pending)) <==> forall i :: 0 <= i < |pending| ==> !Due(pending[i], now)
  {
    if pending != [] {
      PendingWakeIsLeast(pending[1..], now);
      assert forall i :: 1 <= i < |pending| ==> pending[i] == pending[1..][i - 1];
      if forall i :: 0 <= i < |pending| ==> !Due(pending[i], now) {
        assert forall i :: 0 <= i < |pending[1..]| ==> pending[1..][i] == pending[i + 1];
      }
    }
  }

  lemma {:induction false} ReadyWakeIsLeast(ready: seq<Datagram>, nextSend: u64, now: u64)
    ensures Before(now, ReadyWake(ready, nextSend))
       <==> forall i :: 0 <= i < |ready| ==> now < Min(nextSend, ready[i].deadline)
  {
    if ready != [] {
      ReadyWakeIsLeast(ready[1..], nextSend, now);
      assert forall i :: 1 <= i < |ready| ==> ready[i] == ready[1..][i - 1];
      if forall i :: 0 <= i < |ready| ==> now < Min(nextSend, ready[i].deadline) {
        assert forall i :: 0 <= i < |ready[1..]| ==> ready[1..][i] == ready[i + 1];
      }
    }
  }

  // ----- due work

  /** The batches left waiting, in order. */
  function NotDue(pending: seq<Batch>, now: u64): (r: seq<Batch>)
    ensures |r| <= |pending|
  {
    if pending == [] then []
    else
      var n := |pending| - 1;
      NotDue(pending[..n], now) + if Due(pending[n], now) then [] else [pending[n]]
  }

  lemma {:induction false} NotDueIsNotDue(pending: seq<Batch>, now: u64)
    ensures forall b :: b in NotDue(pending, now) <==> b in pending && !Due(b, now)
  {
    if pending != [] {
      var n := |pending| - 1;
      NotDueIsNotDue(pending[..n], now);
      assert pending == pending[..n] + [pending[n]];
    }
  }

  lemma {:induction false} NotDueKeepsAll(pending: seq<Batch>, now: u64)
    requires forall i :: 0 <= i < |pending| ==> !Due(pending[i], now)
    ensures NotDue(pending, now) == pending
  {
    if pending != [] { NotDueKeepsAll(pending[..|pending| - 1], now); }
  }

  /** The batches that have not expired, in order. */
  function LiveBatches(pending: seq<Batch>, now: u64): seq<Batch> {
    if pending == [] then []
    else
      var n := |pending| - 1;
      LiveBatches(pending[..n], now) + if now >= pending[n].expires then [] else [pending[n]]
  }

  /** Intents in expired batches. */
  function ExpiredIntents(pending: seq<Batch>, now: u64): nat {
    if pending == [] then 0
    else
      var n := |pending| - 1;
      ExpiredIntents(pending[..n], now) + if now >= pending[n].expires then pending[n].count else 0
  }

  function LiveDatagrams(ready: seq<Datagram>, now: u64): seq<Datagram> {
    if ready == [] then []
    else
      var n := |ready| - 1;
      LiveDatagrams(ready[..n], now) + if now < ready[n].expires then [ready[n]] else []
  }

  /** Order in which ready datagrams leave. */
  predicate LeavesBefore(a: Datagram, b: Datagram, nextSend: u64) {
    var x, y := Min(nextSend, a.deadline), Min(nextSend, b.deadline);
    x < y || (x == y && a.deadline <= b.deadline)
  }

  /** None of the queued datagrams should have left before `d`. */
  predicate LeavesFirst(d: Datagram, queued: seq<Datagram>, nextSend: u64) {
    forall i :: 0 <= i < |queued| ==> LeavesBefore(d, queued[i], nextSend)
  }

  predicate NoneReady(ready: seq<Datagram>, nextSend: u64, now: u64) {
    forall i :: 0 <= i < |ready| ==> now < Min(nextSend, ready[i].deadline)
  }

  /** `left` is `queued` with one occurrence of `d` taken out. */
  predicate Without(queued: seq<Datagram>, left: seq<Datagram>, d: Datagram) {
    exists i :: 0 <= i < |queued| && queued[i] == d && left == queued[..i] + queued[i + 1..]
  }

  lemma NextDecides(ready: seq<Datagram>, i: nat, nextSend: u64, now: u64)
    requires IsNext(ready, i, nextSend)
    ensures NoneReady(ready, nextSend, now) <==> now < Min(nextSend, ready[i].deadline)
    ensures LeavesFirst(ready[i], ready[..i] + ready[i + 1..], nextSend)
    ensures Without(ready, ready[..i] + ready[i + 1..], ready[i])
  {
    assert ready == ready[..i] + [ready[i]] + ready[i + 1..];
    assert LeavesBefore(ready[i], ready[i], nextSend);
    if now < Min(nextSend, ready[i].deadline) {
      forall k | 0 <= k < |ready| ensures now < Min(nextSend, ready[k].deadline) {
        assert LeavesBefore(ready[i], ready[k], nextSend);
      }
    }
  }

  /** Index of the datagram `min_by_key` picks: the first of the least. */
  predicate IsNext(ready: seq<Datagram>, i: nat, nextSend: u64) {
    && i < |ready|
    && (forall k :: 0 <= k < |ready| ==> LeavesBefore(ready[i], ready[k], nextSend))
    && (forall k :: 0 <= k < i ==> !LeavesBefore(ready[k], ready[i], nextSend))
  }

  method PickNext(ready: seq<Datagram>, nextSend: u64) returns (i: nat)
    requires ready != []
    ensures IsNext(ready, i, nextSend)
  {
    i := 0;
    for k := 1 to |ready|
      invariant i < k
      invariant forall j :: 0 <= j < k ==> LeavesBefore(ready[i], ready[j], nextSend)
      invariant forall j :: 0 <= j < i ==> !LeavesBefore(ready[j], ready[i], nextSend)
    {
      if !LeavesBefore(ready[i], ready[k], nextSend) { i := k; }
    }
  }

  predicate OnePerDestination(pending: seq<Batch>) {
    forall i, j :: 0 <= i < j < |pending| ==> pending[i].destination != pending[j].destination
  }

  ghost predicate AllBatchesHold(pending: seq<Batch>, orders: seq<seq<Ticket>>) {
    |orders| == |pending| && forall i :: 0 <= i < |pending| ==> BatchHolds(pending[i], orders[i])
  }

  ghost predicate AllDatagramsHold(ready: seq<Datagram>, cargo: seq<seq<Ticket>>) {
    |cargo| == |ready| && forall i :: 0 <= i < |ready| ==> DatagramHolds(ready[i], cargo[i])
  }

  lemma SameCount(pending: seq<Batch>, orders: seq<seq<Ticket>>)
    requires AllBatchesHold(pending, orders)
    ensures |orders| == |pending|
  {
  }

  lemma MergedHold(pending: seq<Batch>, orders: seq<seq<Ticket>>, i: nat, tlvs: seq<OutboundTlv>, release: u64,
                   deadline: u64, expires: u64)
    requires AllBatchesHold(pending, orders) && OnePerDestination(pending) && i < |pending|
    ensures var merged := pending[i := Merge(pending[i], tlvs, release, deadline, expires)];
      && AllBatchesHold(merged, orders[i := orders[i] + Tickets(pending[i].destination, tlvs, deadline, expires)])
      && OnePerDestination(merged)
  {
    MergeHolds(pending[i], orders[i], tlvs, release, deadline, expires);
  }

  lemma MergeHolds(b: Batch, tickets: seq<Ticket>, tlvs: seq<OutboundTlv>, release: u64, deadline: u64, expires: u64)
    requires BatchHolds(b, tickets)
    ensures BatchHolds(Merge(b, tlvs, release, deadline, expires),
                       tickets + Tickets(b.destination, tlvs, deadline, expires))
  {
  }

  lemma PushedHold(pending: seq<Batch>, orders: seq<seq<Ticket>>, destination: IpAddr, tlvs: seq<OutboundTlv>,
                   release: u64, deadline: u64, expires: u64)
    requires AllBatchesHold(pending, orders) && OnePerDestination(pending)
    requires forall k :: 0 <= k < |pending| ==> pending[k].destination != destination
    ensures var pushed := pending + [Batch(destination, tlvs, release, deadline, expires, 1)];
      && AllBatchesHold(pushed, orders + [Tickets(destination, tlvs, deadline, expires)])
      && OnePerDestination(pushed)
  {
  }

  /** The datagrams of one encoded batch hold its tickets, each in one of them. */
  lemma PacketsHold(b: Batch, tickets: seq<Ticket>, packets: seq<Bytes>, chunks: seq<seq<OutboundTlv>>, bodyBudget: nat,
                    made: seq<Datagram>)
    requires BatchHolds(b, tickets) && Shipped(packets, chunks, bodyBudget) && Flatten(chunks) == b.tlvs
    requires |made| == |packets|
    requires forall i :: 0 <= i < |made| ==> made[i] == Datagram(b.destination, packets[i], b.deadline, b.expires)
    ensures AllDatagramsHold(made, Cut(tickets, chunks))
    ensures Total(Cut(tickets, chunks)) == multiset(tickets)
  {
    hide Cut, Arrives, Fits, Flatten, Total, Tlvs, OneHello, Grouped;
    CutLosesNothing(tickets, chunks);
    var cut := Cut(tickets, chunks);
    forall i | 0 <= i < |made| ensures DatagramHolds(made[i], cut[i]) {
      CutPiece(tickets, chunks, i);
      assert Ships(packets[i], chunks[i], bodyBudget);
      assert forall k :: 0 <= k < |cut[i]| ==> cut[i][k] in tickets;
    }
  }

  /** Every submitted ticket is accounted for, with multiplicity. */
  ghost predicate Balanced(submitted: multiset<Ticket>, orders: seq<seq<Ticket>>, cargo: seq<seq<Ticket>>,
                           sent: multiset<Ticket>, expired: multiset<Ticket>, rejected: multiset<Ticket>) {
    submitted == Total(orders) + Total(cargo) + sent + expired + rejected
  }

  lemma BalanceMove(submitted: multiset<Ticket>, orders: seq<seq<Ticket>>, cargo: seq<seq<Ticket>>,
                    sent: multiset<Ticket>, expired: multiset<Ticket>, rejected: multiset<Ticket>, i: nat,
                    cut: seq<seq<Ticket>>)
    requires Balanced(submitted, orders, cargo, sent, expired, rejected) && i < |orders|
    ensures Balanced(submitted, orders[..i] + orders[i + 1..], cargo, sent, expired, rejected + multiset(orders[i]))
    ensures Total(cut) == multiset(orders[i]) ==>
      Balanced(submitted, orders[..i] + orders[i + 1..], cargo + cut, sent, expired, rejected)
  {
    hide Total;
    TotalRemove(orders, i);
    TotalAppend(cargo, cut);
  }

  lemma BalanceSend(submitted: multiset<Ticket>, orders: seq<seq<Ticket>>, cargo: seq<seq<Ticket>>,
                    sent: multiset<Ticket>, expired: multiset<Ticket>, rejected: multiset<Ticket>, i: nat)
    requires Balanced(submitted, orders, cargo, sent, expired, rejected) && i < |cargo|
    ensures Balanced(submitted, orders, cargo[..i] + cargo[i + 1..], sent + multiset(cargo[i]), expired, rejected)
  {
    hide Total;
    TotalRemove(cargo, i);
  }

  lemma BalanceExpire(submitted: multiset<Ticket>, orders: seq<seq<Ticket>>, cargo: seq<seq<Ticket>>,
                      sent: multiset<Ticket>, expired: multiset<Ticket>, rejected: multiset<Ticket>,
                      keptOrders: seq<seq<Ticket>>, keptCargo: seq<seq<Ticket>>, late: multiset<Ticket>,
                      stale: multiset<Ticket>)
    requires Balanced(submitted, orders, cargo, sent, expired, rejected)
    requires Total(orders) == Total(keptOrders) + late && Total(cargo) == Total(keptCargo) + stale
    ensures Balanced(submitted, keptOrders, keptCargo, sent, expired + late + stale, rejected)
  {
    hide Total;
  }

  // ----- work on values, one pass each

  method RetainBatches(pending: seq<Batch>, ghost orders: seq<seq<Ticket>>, now: u64)
    returns (kept: seq<Batch>, intents: nat, ghost keptOrders: seq<seq<Ticket>>, ghost gone: multiset<Ticket>)
    requires AllBatchesHold(pending, orders) && OnePerDestination(pending)
    ensures kept == LiveBatches(pending, now) && intents == ExpiredIntents(pending, now)
    ensures AllBatchesHold(kept, keptOrders) && OnePerDestination(kept)
    ensures Total(orders) == Total(keptOrders) + gone
  {
    hide AllBatchesHold, OnePerDestination, Total;
    SameCount(pending, orders);
    kept, intents, keptOrders, gone := [], 0, [], multiset{};
    NothingHolds();
    for i := 0 to |pending|
      invariant kept == LiveBatches(pending[..i], now) && intents == ExpiredIntents(pending[..i], now)
      invariant AllBatchesHold(kept, keptOrders) && OnePerDestination(kept)
      invariant forall b :: b in kept ==> b in pending[..i]
      invariant Total(orders[..i]) == Total(keptOrders) + gone
    {
      assert pending[..i + 1][..i] == pending[..i];
      assert pending[..i + 1] == pending[..i] + [pending[i]];
      assert orders[..i + 1] == orders[..i] + [orders[i]];
      TotalPush(orders[..i], orders[i]);
      if now >= pending[i].expires {
        intents := intents + pending[i].count;
        gone := gone + multiset(orders[i]);
      } else {
        KeptHold(pending, orders, i, kept, keptOrders);
        TotalPush(keptOrders, orders[i]);
        kept, keptOrders := kept + [pending[i]], keptOrders + [orders[i]];
      }
    }
    assert pending[..|pending|] == pending && orders[..|pending|] == orders;
  }

  method RetainDatagrams(ready: seq<Datagram>, ghost cargo: seq<seq<Ticket>>, now: u64)
    returns (kept: seq<Datagram>, ghost keptCargo: seq<seq<Ticket>>, ghost gone: multiset<Ticket>)
    requires AllDatagramsHold(ready, cargo)
    ensures kept == LiveDatagrams(ready, now) && |kept| <= |ready|
    ensures AllDatagramsHold(kept, keptCargo)
    ensures Total(cargo) == Total(keptCargo) + gone
  {
    hide AllDatagramsHold, Total;
    SameCargo(ready, cargo);
    kept, keptCargo, gone := [], [], multiset{};
    NothingHolds();
    for i := 0 to |ready|
      invariant kept == LiveDatagrams(ready[..i], now) && |kept| <= i
      invariant AllDatagramsHold(kept, keptCargo)
      invariant Total(cargo[..i]) == Total(keptCargo) + gone
    {
      assert ready[..i + 1][..i] == ready[..i];
      assert cargo[..i + 1] == cargo[..i] + [cargo[i]];
      TotalPush(cargo[..i], cargo[i]);
      if now < ready[i].expires {
        DatagramPushed(ready, cargo, i, kept, keptCargo);
        TotalPush(keptCargo, cargo[i]);
        kept, keptCargo := kept + [ready[i]], keptCargo + [cargo[i]];
      } else {
        gone := gone + multiset(cargo[i]);
      }
    }
    assert ready[..|ready|] == ready && cargo[..|ready|] == cargo;
  }

  /** Encode one batch into datagrams that inherit its destination and timing. */
  method PacketizeBatch(batch: Batch, ghost tickets: seq<Ticket>, payloadBudget: nat)
    returns (r: Result<seq<Datagram>, WireError>, ghost cut: seq<seq<Ticket>>)
    requires BatchHolds(batch, tickets)
    ensures r.Ok? ==> r.value != [] && AllDatagramsHold(r.value, cut) && Total(cut) == multiset(tickets)
    ensures r.Ok? ==> forall i :: 0 <= i < |r.value| ==> |r.value[i].bytes| <= payloadBudget
  {
    hide AllDatagramsHold, Total, Shipped, Flatten, Sendable, Cut, Tlvs, Honours;
    cut := [];
    var packets, chunks := EncodePackets(batch.tlvs, payloadBudget);
    if packets.Err? { return Err(packets.error), cut; }
    var made := seq(|packets.value|, i requires 0 <= i < |packets.value| =>
      Datagram(batch.destination, packets.value[i], batch.deadline, batch.expires));
    ghost var bodyBudget := Min(payloadBudget, MAX_PACKET_SIZE) - 4;
    PacketsHold(batch, tickets, packets.value, chunks, bodyBudget, made);
    SmallPackets(packets.value, chunks, bodyBudget);
    cut := Cut(tickets, chunks);
    r := Ok(made);
  }

  /** Batches before `j` of `was` have been looked at; those not due are still there. */
  ghost predicate Scanned(was: seq<Batch>, wasOrders: seq<seq<Ticket>>, pending: seq<Batch>, orders: seq<seq<Ticket>>,
                          index: nat, j: nat, now: u64) {
    && |wasOrders| == |was| && j <= |was| && index == |NotDue(was[..j], now)|
    && pending == NotDue(was[..j], now) + was[j..]
    && |orders| == |pending| && orders[index..] == wasOrders[j..]
    && (index == j ==> orders == wasOrders)
  }

  /** One due batch was refused: it alone has left the queue, into `rejected`. */
  ghost predicate Refused(was: seq<Batch>, wasOrders: seq<seq<Ticket>>, pending: seq<Batch>,
                          wasRejected: multiset<Ticket>, rejected: multiset<Ticket>, now: u64) {
    && |wasOrders| == |was|
    && exists i :: 0 <= i < |was| && Due(was[i], now)
         && pending == NotDue(was[..i], now) + was[i + 1..] && rejected == wasRejected + multiset(wasOrders[i])
  }

  predicate Grown(was: seq<Datagram>, ready: seq<Datagram>, payloadBudget: nat) {
    was <= ready && forall i :: |was| <= i < |ready| ==> |ready[i].bytes| <= payloadBudget
  }

  lemma GrownMore(was: seq<Datagram>, ready: seq<Datagram>, made: seq<Datagram>, payloadBudget: nat)
    requires Grown(was, ready, payloadBudget) && forall i :: 0 <= i < |made| ==> |made[i].bytes| <= payloadBudget
    ensures Grown(was, ready + made, payloadBudget)
  {
  }

  lemma GrownTwice(was: seq<Datagram>, mid: seq<Datagram>, ready: seq<Datagram>, payloadBudget: nat)
    requires Grown(was, mid, payloadBudget) && Grown(mid, ready, payloadBudget)
    ensures Grown(was, ready, payloadBudget)
  {
  }

  lemma RefusedAt(was: seq<Batch>, wasOrders: seq<seq<Ticket>>, pending: seq<Batch>, wasRejected: multiset<Ticket>,
                  now: u64, i: nat)
    requires |wasOrders| == |was| && i < |was| && Due(was[i], now) && pending == NotDue(was[..i], now) + was[i + 1..]
    ensures Refused(was, wasOrders, pending, wasRejected, wasRejected + multiset(wasOrders[i]), now)
  {
  }

  lemma RefusedShortens(was: seq<Batch>, wasOrders: seq<seq<Ticket>>, pending: seq<Batch>,
                        wasRejected: multiset<Ticket>, rejected: multiset<Ticket>, now: u64)
    requires Refused(was, wasOrders, pending, wasRejected, rejected, now)
    ensures |pending| < |was| && exists i :: 0 <= i < |was| && Due(was[i], now)
  {
    hide NotDue;
  }

  lemma ScanStart(was: seq<Batch>, wasOrders: seq<seq<Ticket>>, now: u64)
    requires |wasOrders| == |was|
    ensures Scanned(was, wasOrders, was, wasOrders, 0, 0, now)
  {
    assert NotDue(was[..0], now) == [] && was[0..] == was && wasOrders[0..] == wasOrders;
  }

  lemma ScanStep(was: seq<Batch>, wasOrders: seq<seq<Ticket>>, pending: seq<Batch>, orders: seq<seq<Ticket>>,
                 index: nat, j: nat, now: u64)
    requires Scanned(was, wasOrders, pending, orders, index, j, now) && index < |pending|
    ensures j < |was| && pending[index] == was[j] && orders[index] == wasOrders[j]
    ensures !Due(was[j], now) ==> Scanned(was, wasOrders, pending, orders, index + 1, j + 1, now)
    ensures Due(was[j], now) ==>
      && Scanned(was, wasOrders, pending[..index] + pending[index + 1..], orders[..index] + orders[index + 1..], index,
                 j + 1, now)
      && pending[..index] + pending[index + 1..] == NotDue(was[..j], now) + was[j + 1..]
      && index < j + 1
  {
    hide Due;
    assert was[..j + 1][..j] == was[..j] && was[..j + 1][j] == was[j];
    assert orders[index..][0] == wasOrders[j..][0];
    assert orders[index..][1..] == wasOrders[j..][1..];
    assert orders[index..][1..] == orders[index + 1..] && wasOrders[j..][1..] == wasOrders[j + 1..];
    if Due(was[j], now) {
      var left := orders[..index] + orders[index + 1..];
      assert left[index..] == orders[index + 1..];
    }
    ShorterScan(was, j, now);
  }

  lemma {:induction false} ShorterScan(was: seq<Batch>, j: nat, now: u64)
    requires j <= |was|
    ensures |NotDue(was[..j], now)| <= j
  {
  }

  lemma ScanEnd(was: seq<Batch>, wasOrders: seq<seq<Ticket>>, pending: seq<Batch>, orders: seq<seq<Ticket>>,
                index: nat, j: nat, now: u64)
    requires Scanned(was, wasOrders, pending, orders, index, j, now) && index >= |pending|
    ensures pending == NotDue(was, now) && |pending| == index && j == |was|
    ensures index == |was| ==> orders == wasOrders
  {
    assert was[..|was|] == was;
  }

  class OutputScheduler {
    var pending: seq<Batch>
    var ready: seq<Datagram>
    var nextSend: u64
    const pacing: u64

    // Where every submitted ticket is.
    ghost var orders: seq<seq<Ticket>>
    ghost var cargo: seq<seq<Ticket>>
    ghost var submitted: multiset<Ticket>
    ghost var sent: multiset<Ticket>
    ghost var expired: multiset<Ticket>
    ghost var rejected: multiset<Ticket>

    /** Every submitted ticket is pending, in one ready datagram, sent, expired or rejected. */
    ghost predicate Valid()
      reads this
    {
      && OnePerDestination(pending)
      && AllBatchesHold(pending, orders)
      && AllDatagramsHold(ready, cargo)
      && Balanced(submitted, orders, cargo, sent, expired, rejected)
    }

    function NextWake(): Option<u64>
      reads this
    {
      Wake(pending, ready, nextSend)
    }

    constructor (pacing: u64)
      ensures Valid() && pending == [] && ready == [] && nextSend == 0 && submitted == multiset{}
      ensures this.pacing == pacing
    {
      pending, ready, nextSend, this.pacing := [], [], 0, pacing;
      orders, cargo := [], [];
      submitted, sent, expired, rejected := multiset{}, multiset{}, multiset{}, multiset{};
    }

    method Enqueue(destination: IpAddr, tlvs: seq<OutboundTlv>, deadline: u64, maxJitter: u64, expires: u64, now: u64,
                   draw: u64)
      requires Valid()
      modifies `pending, `orders, `submitted
      ensures Valid()
      ensures submitted == old(submitted) + multiset(Tickets(destination, tlvs, deadline, expires))
      ensures var release := ReleaseTime(now, deadline, maxJitter, draw);
        var i := Find(old(pending), destination);
        pending ==
          if i < |old(pending)| then old(pending)[i := Merge(old(pending)[i], tlvs, release, deadline, expires)]
          else old(pending) + [Batch(destination, tlvs, release, deadline, expires, 1)]
    {
      hide AllDatagramsHold, AllBatchesHold, OnePerDestination, ReleaseTime, Total, Tickets, Merge;
      var release := ReleaseTime(now, deadline, maxJitter, draw);
      ghost var tickets := Tickets(destination, tlvs, deadline, expires);
      var i := 0;
      while i < |pending| && pending[i].destination != destination
        invariant i <= |pending|
        invariant forall k :: 0 <= k < i ==> pending[k].destination != destination
      {
        i := i + 1;
      }
      assert i == Find(pending, destination);
      assert |orders| == |pending| by { SameCount(pending, orders); }
      submitted := submitted + multiset(tickets);
      if i < |pending| {
        MergedHold(pending, orders, i, tlvs, release, deadline, expires);
        TotalGrow(orders, i, tickets);
        pending := pending[i := Merge(pending[i], tlvs, release, deadline, expires)];
        orders := orders[i := orders[i] + tickets];
      } else {
        PushedHold(pending, orders, destination, tlvs, release, deadline, expires);
        TotalPush(orders, tickets);
        pending := pending + [Batch(destination, tlvs, release, deadline, expires, 1)];
        orders := orders + [tickets];
      }
    }

    /** Drop expired work, pending or encoded; returns how many intents and datagrams. */
    method Expire(now: u64) returns (intents: nat, datagrams: nat)
      requires Valid()
      modifies `pending, `orders, `ready, `cargo, `expired
      ensures Valid()
      ensures pending == LiveBatches(old(pending), now) && ready == LiveDatagrams(old(ready), now)
      ensures intents == ExpiredIntents(old(pending), now) && datagrams == |old(ready)| - |ready|
    {
      hide AllDatagramsHold, AllBatchesHold, OnePerDestination, Balanced, Total, LiveBatches, LiveDatagrams,
           ExpiredIntents;
      var batches, dropped, keptOrders, late := RetainBatches(pending, orders, now);
      var datagramsLeft, keptCargo, stale := RetainDatagrams(ready, cargo, now);
      BalanceExpire(submitted, orders, cargo, sent, expired, rejected, keptOrders, keptCargo, late, stale);
      intents, datagrams := dropped, |ready| - |datagramsLeft|;
      pending, orders := batches, keptOrders;
      ready, cargo := datagramsLeft, keptCargo;
      expired := expired + late + stale;
    }

    /** Encode one batch: its datagrams join those ready, or all of it is refused. */
    method PacketizeAt(index: nat, payloadBudget: nat) returns (r: Result<(), WireError>)
      requires Valid() && index < |pending| == |orders|
      modifies `pending, `orders, `ready, `cargo, `rejected
      ensures Valid()
      ensures pending == old(pending)[..index] + old(pending)[index + 1..]
      ensures orders == old(orders)[..index] + old(orders)[index + 1..]
      ensures Grown(old(ready), ready, payloadBudget)
      ensures rejected == if r.Ok? then old(rejected) else old(rejected) + multiset(old(orders)[index])
    {
      hide AllDatagramsHold, AllBatchesHold, OnePerDestination, Balanced, Total, BatchHolds, Grown;
      ghost var tickets := orders[index];
      RemovedHold(pending, orders, index);
      var made, cut := PacketizeBatch(pending[index], tickets, payloadBudget);
      BalanceMove(submitted, orders, cargo, sent, expired, rejected, index, cut);
      pending, orders := pending[..index] + pending[index + 1..], orders[..index] + orders[index + 1..];
      GrownStart(ready, payloadBudget);
      if made.Err? {
        rejected := rejected + multiset(tickets);
        return Err(made.error);
      }
      DatagramsAppended(ready, cargo, made.value, cut);
      GrownMore(ready, ready, made.value, payloadBudget);
      ready, cargo := ready + made.value, cargo + cut;
      r := Ok(());
    }

    /** Encode every due batch; a batch the encoder refuses is dropped and reported. */
    method PacketizeDue(now: u64, payloadBudget: nat) returns (r: Result<(), WireError>)
      requires Valid()
      modifies `pending, `orders, `ready, `cargo, `rejected
      ensures Valid() && Grown(old(ready), ready, payloadBudget)
      ensures r.Ok? ==> pending == NotDue(old(pending), now) && rejected == old(rejected)
      ensures r.Ok? && |pending| == |old(pending)| ==>
        ready == old(ready) && cargo == old(cargo) && orders == old(orders)
      ensures r.Err? ==> Refused(old(pending), old(orders), pending, old(rejected), rejected, now)
    {
      hide OutputScheduler.Valid, Scanned, NotDue, Refused, Grown, Due;
      ghost var was, wasOrders := pending, orders;
      InOrder();
      ScanStart(was, wasOrders, now);
      GrownStart(ready, payloadBudget);
      var index := 0;
      ghost var j := 0;
      while index < |pending|
        invariant Valid()
        invariant Scanned(was, wasOrders, pending, orders, index, j, now)
        invariant j <= |was| && index <= j && rejected == old(rejected)
        invariant Grown(old(ready), ready, payloadBudget)
        invariant index == j ==> ready == old(ready) && cargo == old(cargo)
        decreases |was| - j
      {
        InOrder();
        ScanStep(was, wasOrders, pending, orders, index, j, now);
        if !Due(pending[index], now) {
          index, j := index + 1, j + 1;
          continue;
        }
        ghost var before := ready;
        r := PacketizeAt(index, payloadBudget);
        GrownTwice(old(ready), before, ready, payloadBudget);
        if r.Err? {
          RefusedAt(was, wasOrders, pending, old(rejected), now, j);
          return;
        }
        j := j + 1;
      }
      ScanEnd(was, wasOrders, pending, orders, index, j, now);
      r := Ok(());
    }

    lemma InOrder()
      requires Valid()
      ensures |orders| == |pending|
    {
      SameCount(pending, orders);
    }

    /** Send the next ready datagram if its time has come. */
    method SendNext(now: u64) returns (r: Option<Datagram>, ghost carried: seq<Ticket>)
      requires Valid()
      modifies `ready, `cargo, `sent, `nextSend
      ensures Valid()
      ensures r.None? <==> NoneReady(old(ready), old(nextSend), now)
      ensures r.None? ==> ready == old(ready) && cargo == old(cargo) && sent == old(sent) && nextSend == old(nextSend)
      ensures r.Some? ==>
        && DatagramHolds(r.value, carried) && sent == old(sent) + multiset(carried)
        && Without(old(ready), ready, r.value)
        && nextSend == SatAdd(now, pacing)
        && now >= Min(old(nextSend), r.value.deadline) && LeavesFirst(r.value, ready, old(nextSend))
    {
      hide AllDatagramsHold, AllBatchesHold, OnePerDestination, Balanced, Total, DatagramHolds, IsNext, LeavesFirst,
           NoneReady, Without;
      r, carried := None, [];
      if ready == [] {
        assert NoneReady([], nextSend, now) by { NoneInEmpty(nextSend, now); }
        return;
      }
      var index := PickNext(ready, nextSend);
      assert index < |ready| by { NextIndex(ready, index, nextSend); }
      NextDecides(ready, index, nextSend, now);
      if now < Min(nextSend, ready[index].deadline) { return; }
      SameCargo(ready, cargo);
      r, carried := Some(ready[index]), cargo[index];
      DatagramRemoved(ready, cargo, index);
      BalanceSend(submitted, orders, cargo, sent, expired, rejected, index);
      ready, cargo := ready[..index] + ready[index + 1..], cargo[..index] + cargo[index + 1..];
      sent := sent + multiset(carried);
      nextSend := SatAdd(now, pacing);
    }

    /** Send at most one datagram.  Nothing happens before the wake-up time; from
        then on a call sends, drops one refused batch, or leaves the next wake-up
        strictly in the future. */
    method PopDue(now: u64, payloadBudget: nat)
      returns (r: Result<Option<Datagram>, WireError>, ghost carried: seq<Ticket>)
      requires Valid()
      modifies `pending, `orders, `ready, `cargo, `rejected, `sent, `nextSend
      ensures Valid()
      ensures Before(now, old(NextWake())) ==>
        && r == Ok(None) && pending == old(pending) && ready == old(ready) && orders == old(orders)
          && cargo == old(cargo)
      ensures r == Ok(None) ==>
        && Before(now, NextWake()) && sent == old(sent) && rejected == old(rejected) && nextSend == old(nextSend)
      ensures r.Err? ==>
        && Refused(old(pending), old(orders), pending, old(rejected), rejected, now) && |pending| < |old(pending)|
        && sent == old(sent) && nextSend == old(nextSend)
      ensures r.Ok? && r.value.Some? ==>
        && DatagramHolds(r.value.value, carried) && sent == old(sent) + multiset(carried) && rejected == old(rejected)
        && nextSend == SatAdd(now, pacing)
        && now >= Min(old(nextSend), r.value.value.deadline)
        && LeavesFirst(r.value.value, ready, old(nextSend))
    {
      hide AllDatagramsHold, AllBatchesHold, OnePerDestination, Balanced, Total, NotDue, Wake, DatagramHolds, Refused,
           Grown, LeavesFirst, NoneReady, Due;
      carried := [];
      WakeIsFirstDue(pending, ready, nextSend, now);
      if NothingDue(pending, ready, nextSend, now) { NotDueKeepsAll(pending, now); }
      var done := PacketizeDue(now, payloadBudget);
      if done.Err? {
        RefusedShortens(old(pending), old(orders), pending, old(rejected), rejected, now);
        return Err(done.error), carried;
      }
      NotDueIsNotDue(old(pending), now);
      var d, tickets := SendNext(now);
      WakeIsFirstDue(pending, ready, nextSend, now);
      r, carried := Ok(d), tickets;
    }
  }

  lemma NextIndex(ready: seq<Datagram>, i: nat, nextSend: u64)
    requires IsNext(ready, i, nextSend)
    ensures i < |ready|
  {
  }

  lemma NoneInEmpty(nextSend: u64, now: u64)
    ensures NoneReady([], nextSend, now)
  {
  }

  lemma GrownStart(ready: seq<Datagram>, payloadBudget: nat)
    ensures Grown(ready, ready, payloadBudget)
  {
  }

  lemma NothingHolds()
    ensures AllBatchesHold([], []) && AllDatagramsHold([], []) && OnePerDestination([]) && Total([]) == multiset{}
  {
  }

  lemma SameCargo(ready: seq<Datagram>, cargo: seq<seq<Ticket>>)
    requires AllDatagramsHold(ready, cargo)
    ensures |cargo| == |ready|
  {
  }

  lemma KeptHold(pending: seq<Batch>, orders: seq<seq<Ticket>>, i: nat, kept: seq<Batch>, keptOrders: seq<seq<Ticket>>)
    requires AllBatchesHold(pending, orders) && OnePerDestination(pending) && i < |pending|
    requires AllBatchesHold(kept, keptOrders) && OnePerDestination(kept) && forall b :: b in kept ==> b in pending[..i]
    ensures AllBatchesHold(kept + [pending[i]], keptOrders + [orders[i]]) && OnePerDestination(kept + [pending[i]])
  {
    hide BatchHolds;
    forall k | 0 <= k < |kept| ensures kept[k].destination != pending[i].destination {
      assert kept[k] in pending[..i];
    }
  }

  lemma RemovedHold(pending: seq<Batch>, orders: seq<seq<Ticket>>, i: nat)
    requires AllBatchesHold(pending, orders) && OnePerDestination(pending) && i < |pending|
    ensures AllBatchesHold(pending[..i] + pending[i + 1..], orders[..i] + orders[i + 1..])
    ensures OnePerDestination(pending[..i] + pending[i + 1..]) && BatchHolds(pending[i], orders[i])
  {
    hide BatchHolds;
  }

  lemma DatagramPushed(ready: seq<Datagram>, cargo: seq<seq<Ticket>>, i: nat, kept: seq<Datagram>,
                       keptCargo: seq<seq<Ticket>>)
    requires AllDatagramsHold(ready, cargo) && i < |ready| && AllDatagramsHold(kept, keptCargo)
    ensures AllDatagramsHold(kept + [ready[i]], keptCargo + [cargo[i]])
  {
    hide DatagramHolds;
  }

  lemma DatagramsAppended(ready: seq<Datagram>, cargo: seq<seq<Ticket>>, made: seq<Datagram>, cut: seq<seq<Ticket>>)
    requires AllDatagramsHold(ready, cargo) && AllDatagramsHold(made, cut)
    ensures AllDatagramsHold(ready + made, cargo + cut)
  {
    hide DatagramHolds;
  }

  lemma DatagramRemoved(ready: seq<Datagram>, cargo: seq<seq<Ticket>>, i: nat)
    requires AllDatagramsHold(ready, cargo) && i < |ready|
    ensures AllDatagramsHold(ready[..i] + ready[i + 1..], cargo[..i] + cargo[i + 1..])
      && DatagramHolds(ready[i], cargo[i])
  {
    hide DatagramHolds;
  }

  lemma SmallPackets(packets: seq<Bytes>, chunks: seq<seq<OutboundTlv>>, bodyBudget: nat)
    requires Shipped(packets, chunks, bodyBudget)
    ensures forall i :: 0 <= i < |packets| ==> |packets[i]| <= bodyBudget + 4
  {
    hide Arrives, OneHello, Grouped, Fits;
    assert forall i :: 0 <= i < |packets| ==> Ships(packets[i], chunks[i], bodyBudget);
  }
}
