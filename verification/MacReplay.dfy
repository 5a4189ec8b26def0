/** Replay safety over whole runs: honest signers, one strict receiver, and a
    network that delivers any octets at any time (RFC 8967 section 4.4 and
    section 3.1 of RFC 9467; crates/babel-protocol/src/mac.rs:216-371). */
module MacReplay {
  import opened Model
  import opened WirePrefix
  import opened Mac

  /** One datagram an honest session has signed. */
  datatype Entry = Entry(ep: Endpoints, packet: Bytes, pc: u32, index: Bytes)

  /** An accepted datagram: which log entry it was, and its octets with trailer. */
  datatype Acceptance = Acceptance(pos: nat, packet: Bytes)

  /** Log lengths when the peer's index was last settled and its nonce was drawn. */
  datatype Mark = Mark(anchor: nat, nonceAt: nat)

  datatype World = World(
    signers: map<SocketAddr, Signer>, used: set<Bytes>, log: seq<Entry>,
    receiver: Receiver, now: u64, accepted: seq<Acceptance>, marks: map<SocketAddr, Mark>)

  datatype Setting = Setting(config: Config, digest: Digest, maxPeers: nat, family: Family)

  datatype Event =
    | Boot(source: SocketAddr, index: Bytes)                        // a signer starts or restarts
    | SignOne(ep: Endpoints, packet: Bytes, draw: Option<Bytes>)    // a signer sends
    | Deliver(datagram: Bytes, to: Endpoints, at: u64, nonce: Option<Bytes>)
    | Restart                                                       // the receiver loses its state

  const Start := World(map[], {}, [], Receiver(map[], None), 0, [], map[])

  // ----- what a body says

  /** The first acceptable PC TLV. */
  function FirstPc(body: seq<Tv>): Option<(u32, Bytes)> {
    if body == [] then None
    else
      var n := |body| - 1;
      var before := FirstPc(body[..n]);
      if before.Some? then before
      else if body[n].type_ == PC && 4 <= |body[n].value| <= 36 then Some((Be32(body[n].value), body[n].value[4..]))
      else None
  }

  predicate HasReply(body: seq<Tv>, nonce: Bytes) {
    exists i :: 0 <= i < |body| && body[i].type_ == REPLY && body[i].value == nonce
  }

  /** The receive loop finds the first PC, and succeeds exactly when a reply
      carries the live nonce. */
  lemma {:induction false} ScanMeans(body: seq<Tv>, nonce: Option<(Bytes, u64)>, now: u64, multicast: bool)
    requires nonce.Some? ==> |nonce.value.0| == 16
    ensures ScanAll(body, nonce, now, multicast).counter == FirstPc(body)
    ensures ScanAll(body, nonce, now, multicast).success
       <==> nonce.Some? && now < nonce.value.1 && HasReply(body, nonce.value.0)
  {
    if body != [] {
      var n := |body| - 1;
      ScanMeans(body[..n], nonce, now, multicast);
      if nonce.Some? { ReplyPush(body, nonce.value.0); }
    }
  }

  lemma ReplyPush(body: seq<Tv>, nonce: Bytes)
    requires body != []
    ensures HasReply(body, nonce) <==>
      HasReply(body[..|body| - 1], nonce) || (body[|body| - 1].type_ == REPLY && body[|body| - 1].value == nonce)
  {
    var n := |body| - 1;
    if HasReply(body[..n], nonce) {
      var i :| 0 <= i < n && body[..n][i].type_ == REPLY && body[..n][i].value == nonce;
      assert body[i] == body[..n][i];
    }
    if HasReply(body, nonce) {
      var i :| 0 <= i < |body| && body[i].type_ == REPLY && body[i].value == nonce;
      if i < n { assert body[..n][i] == body[i]; }
    }
  }

  function Body(e: Entry): seq<Tv>
    requires WellFormed(e)
  {
    Tlvs(e.packet[4..]).value
  }

  predicate WellFormed(e: Entry) {
    BodyEnd(e.packet) == Ok(|e.packet|) && Tlvs(e.packet[4..]).Ok?
      && FirstPc(Tlvs(e.packet[4..]).value) == Some((e.pc, e.index))
  }

  // ----- steps

  predicate Fits16(draw: Option<Bytes>) { draw.Some? ==> |draw.value| == 16 }

  /** A nonce nobody has been asked for yet. */
  predicate Unheard(log: seq<Entry>, nonce: Bytes) {
    forall i :: 0 <= i < |log| && WellFormed(log[i]) ==> !HasReply(Body(log[i]), nonce)
  }

  predicate IsEntry(e: Entry, packet: Bytes, ep: Endpoints) {
    && BodyEnd(packet).Ok?
    && AuthenticatedBytes(ep, packet[..BodyEnd(packet).value]).Ok?
    && AuthenticatedBytes(e.ep, e.packet) == AuthenticatedBytes(ep, packet[..BodyEnd(packet).value])
  }

  /** Hypotheses: fresh indices and nonces, a monotonic clock, one address
      family, and an unforgeable tag. */
  predicate Allowed(s: Setting, w: World, ev: Event) {
    match ev
    case Boot(_, index) => |index| == 16 && index !in w.used
    case SignOne(ep, _, draw) =>
      ep.source in w.signers && ValidEndpoints(ep, s.family) && Fits16(draw) && (draw.Some? ==> draw.value !in w.used)
    case Deliver(packet, ep, now, draw) =>
      && now >= w.now && ValidEndpoints(ep, s.family) && Fits16(draw) && (draw.Some? ==> Unheard(w.log, draw.value))
      && (MacValid(s.config, s.digest, packet, ep) ==> exists i :: 0 <= i < |w.log| && IsEntry(w.log[i], packet, ep))
    case Restart => true
  }

  function Find(log: seq<Entry>, packet: Bytes, ep: Endpoints): (i: nat)
    ensures i <= |log|
    ensures i < |log| ==> IsEntry(log[i], packet, ep)
    ensures (exists k :: 0 <= k < |log| && IsEntry(log[k], packet, ep)) ==> i < |log|
  {
    if log == [] then 0
    else if IsEntry(log[|log| - 1], packet, ep) then |log| - 1
    else
      var i := Find(log[..|log| - 1], packet, ep);
      if i < |log| - 1 then i else |log|
  }

  function NextMark(w: World, source: SocketAddr, before: map<SocketAddr, Peer>, after: map<SocketAddr, Peer>): Mark {
    if source !in after || source !in before || source !in w.marks then Mark(|w.log|, |w.log|)
    else
      Mark(if after[source].index != before[source].index then |w.log| else w.marks[source].anchor,
           if after[source].nonce != before[source].nonce then |w.log| else w.marks[source].nonceAt)
  }

  predicate ValidSigners(w: World) { forall a :: a in w.signers ==> ValidSigner(w.signers[a]) }

  function Apply(s: Setting, w: World, ev: Event): World
    requires ValidSigners(w) && Allowed(s, w, ev)
  {
    match ev
    case Boot(source, index) => w.(signers := w.signers[source := Signer(index, 0)], used := w.used + {index})
    case SignOne(ep, packet, draw) =>
      var old_ := w.signers[ep.source];
      var (signer, out) := Sign(old_, packet, ep, draw);
      var w1 := w.(signers := w.signers[ep.source := signer], used := w.used + {signer.index});
      if out.Err? then w1
      else w1.(log := w.log + [Entry(ep, out.value, signer.counter - 1, signer.index)])
    case Deliver(packet, ep, now, draw) =>
      var (receiver, reception) := Receive(w.receiver, s.config, s.digest, s.maxPeers, packet, ep, now, draw);
      var before := Alive(w.receiver, now).peers;
      w.(receiver := receiver, now := now,
         accepted := if reception.accepted then w.accepted + [Acceptance(Find(w.log, packet, ep), packet)]
           else w.accepted,
         marks := w.marks[ep.source := NextMark(w, ep.source, before, receiver.peers)])
    case Restart => w.(receiver := Receiver(map[], None))
  }

  // ----- honest signers never reuse a counter

  predicate LogOrdered(log: seq<Entry>) {
    forall i, j :: 0 <= i < j < |log| && log[i].ep.source == log[j].ep.source && log[i].index == log[j].index
      ==> log[i].pc < log[j].pc
  }

  predicate EntryOk(s: Setting, w: World, e: Entry) {
    && WellFormed(e) && ValidEndpoints(e.ep, s.family) && e.index in w.used
    && (e.ep.source in w.signers && w.signers[e.ep.source].index == e.index ==> e.pc < w.signers[e.ep.source].counter)
  }

  predicate SignersOk(s: Setting, w: World) {
    && ValidSigners(w)
    && (forall a :: a in w.signers ==> w.signers[a].index in w.used)
    && (forall i :: 0 <= i < |w.log| ==> EntryOk(s, w, w.log[i]))
    && LogOrdered(w.log)
  }

  lemma {:induction false} NoPcFound(body: seq<Tv>)
    requires forall i :: 0 <= i < |body| ==> body[i].type_ != PC
    ensures FirstPc(body) == None
  {
    if body != [] { NoPcFound(body[..|body| - 1]); }
  }

  /** A signed datagram carries its (counter, index), and the signer moves past it. */
  lemma SignedEntry(signer: Signer, packet: Bytes, ep: Endpoints, draw: Option<Bytes>)
    requires ValidSigner(signer) && Fits16(draw) && Sign(signer, packet, ep, draw).1.Ok?
    ensures var (next, out) := Sign(signer, packet, ep, draw);
      && next.counter > 0 && WellFormed(Entry(ep, out.value, next.counter - 1, next.index))
      && ((next.index == signer.index && next.counter == signer.counter + 1)
          || (draw.Some? && next == Signer(draw.value, 1)))
  {
    hide Tlvs, WithPc, BodyEnd, PcValue;
    var now := Allocating(signer, draw).value;
    var out := WithPc(packet, now);
    WithPcBody(packet, now, []);
    assert out + [] == out;
    var front := Tlvs(packet[4..]).value;
    NoPcFound(front);
    var body := front + [Tv(PC, PcValue(now))];
    assert body[..|body| - 1] == front;
  }

  lemma SignKeepsOrder(s: Setting, w: World, ev: Event)
    requires SignersOk(s, w) && Allowed(s, w, ev) && !ev.Deliver?
    ensures SignersOk(s, Apply(s, w, ev)) && w.log <= Apply(s, w, ev).log
  {
    hide WellFormed, Sign, ValidEndpoints, Unheard;
    var w' := Apply(s, w, ev);
    if ev.SignOne? {
      var signer := w.signers[ev.ep.source];
      var out := Sign(signer, ev.packet, ev.ep, ev.draw).1;
      SignerAfter(signer, ev.packet, ev.ep, ev.draw);
      if out.Ok? {
        SignedEntry(signer, ev.packet, ev.ep, ev.draw);
        var next := w'.signers[ev.ep.source];
        forall i | 0 <= i < |w.log| && w.log[i].ep.source == ev.ep.source && w.log[i].index == next.index
          ensures w.log[i].pc < next.counter - 1
        {
          assert EntryOk(s, w, w.log[i]);
        }
      }
      forall i | 0 <= i < |w.log| ensures EntryOk(s, w', w.log[i]) {
        assert EntryOk(s, w, w.log[i]);
      }
    } else if ev.Boot? {
      forall i | 0 <= i < |w.log| ensures EntryOk(s, w', w.log[i]) {
        assert EntryOk(s, w, w.log[i]);
      }
    }
  }

  /** Failed or not, signing never moves a signer back. */
  lemma SignerAfter(signer: Signer, packet: Bytes, ep: Endpoints, draw: Option<Bytes>)
    requires ValidSigner(signer) && Fits16(draw)
    ensures var next := Sign(signer, packet, ep, draw).0;
      || (next.index == signer.index && next.counter >= signer.counter)
      || (draw.Some? && next == Signer(draw.value, 1))
  {
    hide Unsigned, WithPc;
  }

  // ----- what a peer entry remembers of everything accepted

  function Counter(p: Peer, multicast: bool): u32 { if multicast then p.multicast else p.unicast }

  predicate Remembers(e: Entry, pos: nat, p: Peer, mark: Mark, now: u64)
    requires WellFormed(e)
  {
    && (p.index == Some(e.index) ==> e.pc <= Counter(p, Multicast(e.ep.destination.ip)))
    && (p.index != Some(e.index) ==> pos < mark.anchor)
    && (p.nonce.Some? && HasReply(Body(e), p.nonce.value.0) ==> now >= p.nonce.value.1)
  }

  predicate NonceOk(log: seq<Entry>, p: Peer, mark: Mark) {
    && mark.anchor <= |log|
    && (p.nonce.Some? ==>
          |p.nonce.value.0| == 16 && mark.anchor <= mark.nonceAt <= |log|
            && Unheard(log[..mark.nonceAt], p.nonce.value.0))
  }

  predicate AllWellFormed(log: seq<Entry>) { forall i :: 0 <= i < |log| ==> WellFormed(log[i]) }

  predicate InLog(log: seq<Entry>, accepted: seq<Acceptance>) {
    forall i :: 0 <= i < |accepted| ==> accepted[i].pos < |log|
  }

  predicate RemembersAll(log: seq<Entry>, accepted: seq<Acceptance>, source: SocketAddr, p: Peer, mark: Mark, now: u64)
    requires AllWellFormed(log) && InLog(log, accepted)
  {
    forall i :: 0 <= i < |accepted| && log[accepted[i].pos].ep.source == source ==>
      Remembers(log[accepted[i].pos], accepted[i].pos, p, mark, now)
  }

  /** Each counter is the counter of some accepted datagram with the peer's index. */
  predicate Witnessed(log: seq<Entry>, accepted: seq<Acceptance>, source: SocketAddr, p: Peer, pc: u32)
    requires InLog(log, accepted)
  {
    p.index.Some? ==>
      exists i :: 0 <= i < |accepted| && log[accepted[i].pos].ep.source == source
        && log[accepted[i].pos].index == p.index.value && log[accepted[i].pos].pc == pc
  }

  predicate PeerOk(log: seq<Entry>, accepted: seq<Acceptance>, source: SocketAddr, p: Peer, mark: Mark, now: u64)
    requires AllWellFormed(log) && InLog(log, accepted)
  {
    && NonceOk(log, p, mark) && RemembersAll(log, accepted, source, p, mark, now)
    && Witnessed(log, accepted, source, p, p.unicast) && Witnessed(log, accepted, source, p, p.multicast)
  }

  lemma NewPeerOk(log: seq<Entry>, accepted: seq<Acceptance>, source: SocketAddr, now: u64)
    requires AllWellFormed(log) && InLog(log, accepted)
    ensures PeerOk(log, accepted, source, NewPeer(now), Mark(|log|, |log|), now)
  {
    hide HasReply, Unheard;
  }

  /** The condition: a reply that proves the index already in use must not carry
      a counter older than one already recorded. */
  predicate Orderly(p: Peer, scan: Scan) {
    scan.success && scan.counter.Some? && p.index == Some(scan.counter.value.1) ==>
      scan.counter.value.0 >= p.unicast && scan.counter.value.0 >= p.multicast
  }

  function Remark(log: seq<Entry>, p: Peer, q: Peer, mark: Mark): Mark {
    Mark(if q.index != p.index then |log| else mark.anchor, if q.nonce != p.nonce then |log| else mark.nonceAt)
  }

  /** The counter path: newer than everything remembered, so not seen before. */
  lemma CounterIsNew(log: seq<Entry>, accepted: seq<Acceptance>, source: SocketAddr, p: Peer, mark: Mark, now: u64,
                     pos: nat, packet: Bytes, q: Peer)
    requires AllWellFormed(log) && InLog(log, accepted) && PeerOk(log, accepted, source, p, mark, now)
    requires pos < |log| && log[pos].ep.source == source
    requires var e := log[pos]; var mc := Multicast(e.ep.destination.ip);
      && p.index == Some(e.index) && e.pc > Counter(p, mc)
      && q.index == p.index && q.nonce == p.nonce && Counter(q, mc) == e.pc && Counter(q, !mc) == Counter(p, !mc)
      && (p.nonce.Some? && HasReply(Body(e), p.nonce.value.0) ==> now >= p.nonce.value.1)
    ensures forall i :: 0 <= i < |accepted| ==> accepted[i].pos != pos
    ensures InLog(log, accepted + [Acceptance(pos, packet)])
    ensures PeerOk(log, accepted + [Acceptance(pos, packet)], source, q, mark, now)
  {
    hide HasReply, Unheard, WellFormed, Multicast;
    forall i | 0 <= i < |accepted| && log[accepted[i].pos].ep.source == source
      ensures Remembers(log[accepted[i].pos], accepted[i].pos, q, mark, now) && accepted[i].pos != pos
    {
      assert Remembers(log[accepted[i].pos], accepted[i].pos, p, mark, now);
    }
    var more := accepted + [Acceptance(pos, packet)];
    assert more[|accepted|].pos == pos;
    var other := if Multicast(log[pos].ep.destination.ip) then p.unicast else p.multicast;
    assert Witnessed(log, accepted, source, p, other);
    var i :| 0 <= i < |accepted| && log[accepted[i].pos].ep.source == source
      && log[accepted[i].pos].index == p.index.value && log[accepted[i].pos].pc == other;
    assert more[i] == accepted[i];
  }

  lemma HeardLater(log: seq<Entry>, cut: nat, nonce: Bytes, pos: nat)
    requires AllWellFormed(log) && cut <= |log| && Unheard(log[..cut], nonce)
    requires pos < |log| && HasReply(Body(log[pos]), nonce)
    ensures pos >= cut
  {
    hide HasReply, WellFormed;
    assert forall i :: 0 <= i < cut ==> log[..cut][i] == log[i];
  }

  /** The challenge path: the reply was signed after the nonce was drawn, so
      after everything accepted under another index. */
  lemma ReplyIsNew(log: seq<Entry>, accepted: seq<Acceptance>, source: SocketAddr, p: Peer, mark: Mark, now: u64,
                   pos: nat, packet: Bytes, q: Peer)
    requires AllWellFormed(log) && InLog(log, accepted) && PeerOk(log, accepted, source, p, mark, now)
      && LogOrdered(log)
    requires pos < |log| && log[pos].ep.source == source
    requires p.nonce.Some? && now < p.nonce.value.1 && HasReply(Body(log[pos]), p.nonce.value.0)
    requires var e := log[pos];
      && q.index == Some(e.index) && q.unicast == e.pc && q.multicast == e.pc && q.nonce == None
    ensures forall i :: 0 <= i < |accepted| ==> accepted[i].pos != pos
    ensures InLog(log, accepted + [Acceptance(pos, packet)])
    ensures (p.index == q.index ==> log[pos].pc >= p.unicast && log[pos].pc >= p.multicast) ==>
      PeerOk(log, accepted + [Acceptance(pos, packet)], source, q, Remark(log, p, q, mark), now)
  {
    hide HasReply, WellFormed, Multicast;
    var e, n := log[pos], p.nonce.value.0;
    HeardLater(log, mark.nonceAt, n, pos);
    var more, mark' := accepted + [Acceptance(pos, packet)], Remark(log, p, q, mark);
    forall i | 0 <= i < |accepted| && log[accepted[i].pos].ep.source == source
      ensures accepted[i].pos != pos
      ensures (p.index == q.index ==> e.pc >= p.unicast && e.pc >= p.multicast) ==>
        Remembers(log[accepted[i].pos], accepted[i].pos, q, mark', now)
    {
      assert Remembers(log[accepted[i].pos], accepted[i].pos, p, mark, now);
    }
    assert more[|accepted|].pos == pos;
    assert Remembers(e, pos, q, mark', now);
  }

  /** No challenge succeeded: counters and index stay, at most a new nonce is out. */
  lemma UnansweredKeeps(log: seq<Entry>, accepted: seq<Acceptance>, source: SocketAddr, p: Peer, mark: Mark, now: u64,
                        q: Peer)
    requires AllWellFormed(log) && InLog(log, accepted) && PeerOk(log, accepted, source, p, mark, now)
    requires q.index == p.index && q.unicast == p.unicast && q.multicast == p.multicast
    requires q.nonce == p.nonce || (q.nonce.Some? && |q.nonce.value.0| == 16 && Unheard(log, q.nonce.value.0))
    ensures PeerOk(log, accepted, source, q, Remark(log, p, q, mark), now)
  {
    hide HasReply, WellFormed, Multicast;
    var mark' := Remark(log, p, q, mark);
    assert log[..|log|] == log;
    forall i | 0 <= i < |accepted| && log[accepted[i].pos].ep.source == source
      ensures Remembers(log[accepted[i].pos], accepted[i].pos, q, mark', now)
    {
      assert Remembers(log[accepted[i].pos], accepted[i].pos, p, mark, now);
    }
  }

  /** Time passing and the log growing change nothing for a peer. */
  lemma PeerStays(log: seq<Entry>, longer: seq<Entry>, accepted: seq<Acceptance>, source: SocketAddr, p: Peer,
                  mark: Mark, now: u64, later: u64)
    requires AllWellFormed(log) && InLog(log, accepted) && PeerOk(log, accepted, source, p, mark, now)
    requires log <= longer && AllWellFormed(longer) && now <= later
    ensures InLog(longer, accepted) && PeerOk(longer, accepted, source, p, mark, later)
  {
    hide HasReply, WellFormed, Multicast, Unheard;
    if p.nonce.Some? { assert longer[..mark.nonceAt] == log[..mark.nonceAt]; }
    forall i | 0 <= i < |accepted| && longer[accepted[i].pos].ep.source == source
      ensures Remembers(longer[accepted[i].pos], accepted[i].pos, p, mark, later)
    {
      assert Remembers(log[accepted[i].pos], accepted[i].pos, p, mark, now);
    }
    WitnessStays(log, longer, accepted, source, p, p.unicast);
    WitnessStays(log, longer, accepted, source, p, p.multicast);
  }

  lemma WitnessStays(log: seq<Entry>, longer: seq<Entry>, accepted: seq<Acceptance>, source: SocketAddr, p: Peer,
                     pc: u32)
    requires InLog(log, accepted) && log <= longer && Witnessed(log, accepted, source, p, pc)
    ensures InLog(longer, accepted) && Witnessed(longer, accepted, source, p, pc)
  {
    if p.index.Some? {
      var i :| 0 <= i < |accepted| && log[accepted[i].pos].ep.source == source
        && log[accepted[i].pos].index == p.index.value && log[accepted[i].pos].pc == pc;
      assert longer[accepted[i].pos] == log[accepted[i].pos];
    }
  }

  /** What another source has accepted does not concern this peer. */
  lemma OtherSource(log: seq<Entry>, accepted: seq<Acceptance>, source: SocketAddr, p: Peer, mark: Mark, now: u64,
                    a: Acceptance)
    requires AllWellFormed(log) && InLog(log, accepted) && PeerOk(log, accepted, source, p, mark, now)
    requires a.pos < |log| && log[a.pos].ep.source != source
    ensures InLog(log, accepted + [a]) && PeerOk(log, accepted + [a], source, p, mark, now)
  {
    hide HasReply, WellFormed, Multicast, Unheard, Remembers;
    var more := accepted + [a];
    assert forall i :: 0 <= i < |accepted| ==> more[i] == accepted[i];
  }

  // ----- the invariant

  predicate AcceptanceOk(s: Setting, w: World, a: Acceptance) {
    && a.pos < |w.log|
    && MacValid(s.config, s.digest, a.packet, w.log[a.pos].ep)
    && a.packet[..BodyEnd(a.packet).value] == w.log[a.pos].packet
  }

  predicate Distinct(accepted: seq<Acceptance>) {
    forall i, j :: 0 <= i < j < |accepted| ==> accepted[i].pos != accepted[j].pos
  }

  predicate PeersOk(w: World, peers: map<SocketAddr, Peer>, now: u64)
    requires AllWellFormed(w.log) && InLog(w.log, w.accepted)
  {
    forall t :: t in peers ==> t in w.marks && PeerOk(w.log, w.accepted, t, peers[t], w.marks[t], now)
  }

  predicate Inv(s: Setting, w: World) {
    && ValidSigners(w) && SignersOk(s, w)
    && AllWellFormed(w.log) && InLog(w.log, w.accepted)
    && (forall i :: 0 <= i < |w.accepted| ==> AcceptanceOk(s, w, w.accepted[i]))
    && Distinct(w.accepted)
    && PeersOk(w, w.receiver.peers, w.now)
  }

  /** A delivery is dropped with nothing but expiry, or is one logged entry put
      to the counter and challenge rules. */
  predicate Settles(s: Setting, w: World, ev: Event)
    requires ev.Deliver? && Fits16(ev.nonce)
  {
    var pos := Find(w.log, ev.datagram, ev.to);
    && pos < |w.log| && WellFormed(w.log[pos]) && w.log[pos].ep == ev.to
    && MacValid(s.config, s.digest, ev.datagram, ev.to)
    && ev.datagram[..BodyEnd(ev.datagram).value] == w.log[pos].packet
    && Receive(w.receiver, s.config, s.digest, s.maxPeers, ev.datagram, ev.to, ev.at, ev.nonce)
       == Settle(Admit(Alive(w.receiver, ev.at), ev.to.source, ev.at), s.config, Body(w.log[pos]), ev.to, ev.at,
                 ev.nonce)
  }

  lemma EntryFound(s: Setting, w: World, ev: Event)
    requires SignersOk(s, w) && ev.Deliver? && Allowed(s, w, ev) && MacValid(s.config, s.digest, ev.datagram, ev.to)
    ensures var pos := Find(w.log, ev.datagram, ev.to);
      && pos < |w.log| && WellFormed(w.log[pos]) && w.log[pos].ep == ev.to
      && ev.datagram[..BodyEnd(ev.datagram).value] == w.log[pos].packet
      && Tlvs(ev.datagram[4..BodyEnd(ev.datagram).value]) == Ok(Body(w.log[pos]))
  {
    hide Tlvs, LogOrdered, MacMatches, ValidEndpoints, Unheard, FirstPc, BodyEnd;
    var pos := Find(w.log, ev.datagram, ev.to);
    var end := BodyEnd(ev.datagram).value;
    assert EntryOk(s, w, w.log[pos]);
    AuthenticatedBytesInjective(w.log[pos].ep, w.log[pos].packet, ev.to, ev.datagram[..end], s.family);
    assert ev.datagram[..end][4..] == ev.datagram[4..end];
  }

  lemma DeliverCases(s: Setting, w: World, ev: Event)
    requires SignersOk(s, w) && !s.config.acceptUnverified && ev.Deliver? && Allowed(s, w, ev)
    ensures Settles(s, w, ev)
      || Receive(w.receiver, s.config, s.digest, s.maxPeers, ev.datagram, ev.to, ev.at, ev.nonce)
        == (Alive(w.receiver, ev.at), Refuse)
  {
    hide SignersOk, Tlvs, MacMatches, ValidEndpoints, Unheard, FirstPc, BodyEnd, Settle, Alive, Find, IsEntry,
         WellFormed;
    if MacValid(s.config, s.digest, ev.datagram, ev.to) { EntryFound(s, w, ev); }
  }

  /** The peer a delivery is judged against, and what the loop finds in it. */
  function PeerFor(w: World, ev: Event): Peer
    requires ev.Deliver?
  {
    Admit(Alive(w.receiver, ev.at), ev.to.source, ev.at).peers[ev.to.source]
  }

  function ScanFor(w: World, ev: Event): Scan
    requires ev.Deliver? && BodyEnd(ev.datagram).Ok?
    requires Tlvs(ev.datagram[4..BodyEnd(ev.datagram).value]).Ok?
  {
    ScanAll(Tlvs(ev.datagram[4..BodyEnd(ev.datagram).value]).value, PeerFor(w, ev).nonce, ev.at,
            Multicast(ev.to.destination.ip))
  }

  /** Checkable before the call: the datagram is not an authentic reply that confirms the current
      index with an old counter. */
  predicate OrderlyStep(s: Setting, w: World, ev: Event) {
    && ev.Deliver? && MacValid(s.config, s.digest, ev.datagram, ev.to)
    && BodyEnd(ev.datagram).Ok? && Tlvs(ev.datagram[4..BodyEnd(ev.datagram).value]).Ok?
    ==> Orderly(PeerFor(w, ev), ScanFor(w, ev))
  }

  /** Before judging, the source's peer is there and remembers everything. */
  lemma PeerBefore(s: Setting, w: World, ev: Event)
    requires Inv(s, w) && ev.Deliver? && Allowed(s, w, ev)
    ensures var before := Alive(w.receiver, ev.at).peers;
      && PeersOk(w, before, ev.at)
      && var mark := if ev.to.source in before then w.marks[ev.to.source] else Mark(|w.log|, |w.log|);
      PeerOk(w.log, w.accepted, ev.to.source, PeerFor(w, ev), mark, ev.at)
  {
    hide PeerOk, SignersOk, Distinct, AcceptanceOk, Unheard, MacValid, IsEntry, ValidEndpoints, WellFormed;
    var before := Alive(w.receiver, ev.at).peers;
    forall t | t in before ensures t in w.marks && PeerOk(w.log, w.accepted, t, before[t], w.marks[t], ev.at) {
      PeerStays(w.log, w.log, w.accepted, t, before[t], w.marks[t], w.now, ev.at);
    }
    NewPeerOk(w.log, w.accepted, ev.to.source, ev.at);
  }

  /** The peer after judging one logged entry, and whether it was new. */
  lemma JudgedPeer(log: seq<Entry>, accepted: seq<Acceptance>, p: Peer, mark: Mark, now: u64, pos: nat, packet: Bytes,
                   scan: Scan, p': Peer, q: Peer)
    requires AllWellFormed(log) && InLog(log, accepted) && LogOrdered(log) && pos < |log|
    requires PeerOk(log, accepted, log[pos].ep.source, p, mark, now)
    requires scan == ScanAll(Body(log[pos]), p.nonce, now, Multicast(log[pos].ep.destination.ip)) && Orderly(p, scan)
    requires p' == Replied(p, scan, now) && Judge(p', scan, now, Multicast(log[pos].ep.destination.ip)) == Fresh(q)
    ensures forall i :: 0 <= i < |accepted| ==> accepted[i].pos != pos
    ensures InLog(log, accepted + [Acceptance(pos, packet)])
    ensures PeerOk(log, accepted + [Acceptance(pos, packet)], log[pos].ep.source, q, Remark(log, p, q, mark), now)
  {
    hide PeerOk, Remembers, HasReply, Multicast, ScanAll, FirstPc, Tlvs, LogOrdered;
    NonceLength(log, accepted, log[pos].ep.source, p, mark, now);
    ScanMeans(Body(log[pos]), p.nonce, now, Multicast(log[pos].ep.destination.ip));
    if scan.success {
      ReplyIsNew(log, accepted, log[pos].ep.source, p, mark, now, pos, packet, q);
    } else {
      CounterIsNew(log, accepted, log[pos].ep.source, p, mark, now, pos, packet, q);
    }
  }

  lemma NonceLength(log: seq<Entry>, accepted: seq<Acceptance>, source: SocketAddr, p: Peer, mark: Mark, now: u64)
    requires AllWellFormed(log) && InLog(log, accepted) && PeerOk(log, accepted, source, p, mark, now)
    ensures p.nonce.Some? ==> |p.nonce.value.0| == 16
  {
  }

  /** How settling changes the peer map. */
  lemma SettleEffect(r: Receiver, config: Config, body: seq<Tv>, ep: Endpoints, now: u64, draw: Option<Bytes>)
    requires ep.source in r.peers && Fits16(draw) && !config.acceptUnverified
    ensures var (r', reception) := Settle(r, config, body, ep, now, draw);
      var p := r.peers[ep.source];
      var scan := ScanAll(body, p.nonce, now, Multicast(ep.destination.ip));
      && ep.source in r'.peers && r'.peers == r.peers[ep.source := r'.peers[ep.source]]
      && var q := r'.peers[ep.source];
      && (reception.accepted <==> Judge(Replied(p, scan, now), scan, now, Multicast(ep.destination.ip)).Fresh?)
      && (reception.accepted ==> Judge(Replied(p, scan, now), scan, now, Multicast(ep.destination.ip)) == Fresh(q))
      && (!reception.accepted ==>
            && q.index == p.index && q.unicast == p.unicast && q.multicast == p.multicast
            && (q.nonce == p.nonce || (draw.Some? && q.nonce.Some? && q.nonce.value.0 == draw.value)))
  {
    hide ScanAll, Control, Multicast;
  }

  lemma {:induction false} DeliverKeeps(s: Setting, w: World, ev: Event)
    requires Inv(s, w) && !s.config.acceptUnverified && ev.Deliver? && Allowed(s, w, ev) && OrderlyStep(s, w, ev)
    ensures Inv(s, Apply(s, w, ev))
  {
    hide PeerOk, SignersOk, AcceptanceOk, Unheard, MacValid, IsEntry, ValidEndpoints, WellFormed, Settles, Settle,
         Alive, Receive, Orderly, ScanAll, Find;
    var w' := Apply(s, w, ev);
    SameSigners(s, w, w');
    DeliverCases(s, w, ev);
    PeerBefore(s, w, ev);
    if Settles(s, w, ev) {
      SettledKeeps(s, w, ev);
    } else {
      DroppedKeeps(s, w, ev);
    }
  }

  lemma SameSigners(s: Setting, w: World, w': World)
    requires SignersOk(s, w) && w'.signers == w.signers && w'.used == w.used && w'.log == w.log
    ensures SignersOk(s, w')
  {
    hide WellFormed;
    assert forall i :: 0 <= i < |w.log| ==> EntryOk(s, w, w.log[i]);
  }

  lemma DroppedKeeps(s: Setting, w: World, ev: Event)
    requires Inv(s, w) && ev.Deliver? && Allowed(s, w, ev)
    requires PeersOk(w, Alive(w.receiver, ev.at).peers, ev.at) && SignersOk(s, Apply(s, w, ev))
    requires Receive(w.receiver, s.config, s.digest, s.maxPeers, ev.datagram, ev.to, ev.at, ev.nonce)
      == (Alive(w.receiver, ev.at), Refuse)
    ensures Inv(s, Apply(s, w, ev))
  {
    hide PeerOk, SignersOk, MacValid, WellFormed, Receive, Unheard, IsEntry, ValidEndpoints, Find, BodyEnd;
    var w', before := Apply(s, w, ev), Alive(w.receiver, ev.at).peers;
    forall t | t in before ensures t in w'.marks && PeerOk(w'.log, w'.accepted, t, before[t], w'.marks[t], ev.at) {
    }
    assert forall i :: 0 <= i < |w.accepted| ==> AcceptanceOk(s, w, w.accepted[i]);
  }

  /** The judged source: what was accepted was new, and its peer still remembers everything. */
  lemma SettledSource(s: Setting, w: World, ev: Event)
    requires Inv(s, w) && !s.config.acceptUnverified && ev.Deliver? && Allowed(s, w, ev) && OrderlyStep(s, w, ev)
    requires Settles(s, w, ev)
    ensures var w' := Apply(s, w, ev);
      && InLog(w'.log, w'.accepted) && Distinct(w'.accepted)
      && ev.to.source in w'.receiver.peers && ev.to.source in w'.marks
      && PeerOk(w'.log, w'.accepted, ev.to.source, w'.receiver.peers[ev.to.source], w'.marks[ev.to.source], ev.at)
  {
    hide PeerOk, AcceptanceOk, MacValid, Receive, Unheard, IsEntry, ValidEndpoints, Find, BodyEnd, Settle, Orderly,
         ScanAll, Tlvs, Judge, Alive, PeersOk, FirstPc, Multicast, EntryOk, LogOrdered, ValidSigners, Replied;
    var w', source := Apply(s, w, ev), ev.to.source;
    var before := Alive(w.receiver, ev.at).peers;
    var pos := Find(w.log, ev.datagram, ev.to);
    var r := Admit(Alive(w.receiver, ev.at), source, ev.at);
    SettleEffect(r, s.config, Body(w.log[pos]), ev.to, ev.at, ev.nonce);
    PeerBefore(s, w, ev);
    SameBody(s, w, ev);
    var p, q := r.peers[source], w'.receiver.peers[source];
    if source in before { MarkThere(w, before, ev.at, source); }
    var mark := if source in before then w.marks[source] else Mark(|w.log|, |w.log|);
    assert w'.marks[source] == Remark(w.log, p, q, mark);
    var scan := ScanAll(Body(w.log[pos]), p.nonce, ev.at, Multicast(ev.to.destination.ip));
    if Judge(Replied(p, scan, ev.at), scan, ev.at, Multicast(ev.to.destination.ip)).Fresh? {
      JudgedPeer(w.log, w.accepted, p, mark, ev.at, pos, ev.datagram, scan, Replied(p, scan, ev.at), q);
    } else {
      UnansweredKeeps(w.log, w.accepted, source, p, mark, ev.at, q);
    }
  }

  lemma MarkThere(w: World, peers: map<SocketAddr, Peer>, now: u64, t: SocketAddr)
    requires AllWellFormed(w.log) && InLog(w.log, w.accepted) && PeersOk(w, peers, now) && t in peers
    ensures t in w.marks && PeerOk(w.log, w.accepted, t, peers[t], w.marks[t], now)
  {
  }

  /** The body the receiver parses is the body of the logged entry. */
  lemma SameBody(s: Setting, w: World, ev: Event)
    requires SignersOk(s, w) && ev.Deliver? && Fits16(ev.nonce) && Settles(s, w, ev)
    ensures BodyEnd(ev.datagram).Ok?
    ensures Tlvs(ev.datagram[4..BodyEnd(ev.datagram).value]) == Ok(Body(w.log[Find(w.log, ev.datagram, ev.to)]))
  {
    hide Tlvs, Receive, Settle, Find, EntryOk, LogOrdered, MacMatches, FirstPc;
    var end := BodyEnd(ev.datagram).value;
    assert ev.datagram[..end][4..] == ev.datagram[4..end];
  }

  lemma SettledKeeps(s: Setting, w: World, ev: Event)
    requires Inv(s, w) && !s.config.acceptUnverified && ev.Deliver? && Allowed(s, w, ev) && OrderlyStep(s, w, ev)
    requires Settles(s, w, ev) && SignersOk(s, Apply(s, w, ev)) && PeersOk(w, Alive(w.receiver, ev.at).peers, ev.at)
    ensures Inv(s, Apply(s, w, ev))
  {
    hide PeerOk, SignersOk, MacValid, WellFormed, Receive, Unheard, IsEntry, ValidEndpoints, Find, BodyEnd, Settle,
         OrderlyStep, ScanAll, Tlvs, Judge, Distinct, Alive, Multicast, Replied;
    var w', source := Apply(s, w, ev), ev.to.source;
    var before := Alive(w.receiver, ev.at).peers;
    var pos := Find(w.log, ev.datagram, ev.to);
    SettleEffect(Admit(Alive(w.receiver, ev.at), source, ev.at), s.config, Body(w.log[pos]), ev.to, ev.at, ev.nonce);
    SettledSource(s, w, ev);
    var a := Acceptance(pos, ev.datagram);
    forall t | t in w'.receiver.peers && t != source
      ensures t in w'.marks && PeerOk(w'.log, w'.accepted, t, w'.receiver.peers[t], w'.marks[t], ev.at)
    {
      assert t in before && w'.receiver.peers[t] == before[t];
      if w'.accepted != w.accepted { OtherSource(w.log, w.accepted, t, before[t], w.marks[t], ev.at, a); }
    }
    forall i | 0 <= i < |w'.accepted| ensures AcceptanceOk(s, w', w'.accepted[i]) {
      if i < |w.accepted| { assert AcceptanceOk(s, w, w.accepted[i]); }
    }
  }

  // ----- runs

  /** Every event satisfies the hypotheses, and no authentic reply confirms an index late. */
  ghost predicate Runs(s: Setting, events: seq<Event>, w: World)
    decreases |events|
  {
    if events == [] then w == Start
    else
      var last := events[|events| - 1];
      exists v ::
        && Runs(s, events[..|events| - 1], v) && ValidSigners(v)
        && Allowed(s, v, last) && OrderlyStep(s, v, last) && w == Apply(s, v, last)
  }

  lemma StepKeeps(s: Setting, w: World, ev: Event)
    requires Inv(s, w) && !s.config.acceptUnverified && Allowed(s, w, ev) && OrderlyStep(s, w, ev)
    ensures Inv(s, Apply(s, w, ev))
  {
    if ev.Deliver? {
      DeliverKeeps(s, w, ev);
    } else {
      QuietKeeps(s, w, ev);
    }
  }

  lemma QuietKeeps(s: Setting, w: World, ev: Event)
    requires Inv(s, w) && Allowed(s, w, ev) && !ev.Deliver?
    ensures Inv(s, Apply(s, w, ev))
  {
    hide PeerOk, MacValid, Sign, Unheard, ValidEndpoints, BodyEnd, WellFormed, Distinct, LogOrdered;
    SignKeepsOrder(s, w, ev);
    var w' := Apply(s, w, ev);
    assert forall i :: 0 <= i < |w'.log| ==> EntryOk(s, w', w'.log[i]);
    forall t | t in w'.receiver.peers
      ensures t in w'.marks && PeerOk(w'.log, w'.accepted, t, w'.receiver.peers[t], w'.marks[t], w'.now)
    {
      PeerStays(w.log, w'.log, w.accepted, t, w.receiver.peers[t], w.marks[t], w.now, w'.now);
    }
    forall i | 0 <= i < |w'.accepted| ensures AcceptanceOk(s, w', w'.accepted[i]) {
      assert AcceptanceOk(s, w, w.accepted[i]);
    }
  }

  lemma {:induction false} RunKeeps(s: Setting, events: seq<Event>, w: World)
    requires !s.config.acceptUnverified && Runs(s, events, w)
    ensures Inv(s, w)
    decreases |events|
  {
    hide Inv, Allowed, OrderlyStep, Apply;
    if events == [] {
      StartOk(s);
    } else {
      var last := events[|events| - 1];
      var v :| Runs(s, events[..|events| - 1], v) && ValidSigners(v)
        && Allowed(s, v, last) && OrderlyStep(s, v, last) && w == Apply(s, v, last);
      RunKeeps(s, events[..|events| - 1], v);
      StepKeeps(s, v, last);
    }
  }

  lemma StartOk(s: Setting)
    ensures Inv(s, Start)
  {
  }

  /** In every run, over restarts, index changes, challenges and peer expiry, no
      signed datagram is accepted twice, and no two signed datagrams of one
      source share (index, counter). */
  lemma NoReplay(s: Setting, events: seq<Event>, w: World)
    requires !s.config.acceptUnverified && Runs(s, events, w)
    ensures forall i, j :: 0 <= i < j < |w.accepted| ==>
      && w.accepted[i].pos < |w.log| && w.accepted[j].pos < |w.log|
      && var a, b := w.log[w.accepted[i].pos], w.log[w.accepted[j].pos];
         (a.ep, a.packet) != (b.ep, b.packet)
    ensures forall i, j :: 0 <= i < j < |w.log| ==>
      (w.log[i].ep.source, w.log[i].index, w.log[i].pc) != (w.log[j].ep.source, w.log[j].index, w.log[j].pc)
  {
    hide PeersOk, AcceptanceOk;
    RunKeeps(s, events, w);
    forall i, j | 0 <= i < |w.log| && 0 <= j < |w.log| && i != j
      ensures (w.log[i].ep, w.log[i].packet) != (w.log[j].ep, w.log[j].packet)
    {
      assert EntryOk(s, w, w.log[i]) && EntryOk(s, w, w.log[j]);
    }
  }

  // ----- the condition is needed

  /** When an authentic reply confirms the current index with an older counter, some datagram
      accepted before is accepted again at once. */
  lemma LateReplyReplays(s: Setting, w: World, ev: Event)
    requires Inv(s, w) && !s.config.acceptUnverified && ev.Deliver? && Allowed(s, w, ev)
    requires !OrderlyStep(s, w, ev) && ev.at < U64_MAX
    ensures exists a :: (a in w.accepted && a.pos < |w.log|
      && Receive(Apply(s, w, ev).receiver, s.config, s.digest, s.maxPeers, a.packet, w.log[a.pos].ep, ev.at,
                 None).1.accepted)
  {
    hide PeerOk, AcceptanceOk, MacValid, Receive, Unheard, IsEntry, ValidEndpoints, Find, BodyEnd, ScanAll, Tlvs,
         Settle, Alive, PeersOk, FirstPc, Multicast, EntryOk, LogOrdered, ValidSigners;
    var w', source := Apply(s, w, ev), ev.to.source;
    var pos := Find(w.log, ev.datagram, ev.to);
    var r := Admit(Alive(w.receiver, ev.at), source, ev.at);
    KnownSettles(s, w, ev);
    SettleEffect(r, s.config, Body(w.log[pos]), ev.to, ev.at, ev.nonce);
    PeerBefore(s, w, ev);
    SameBody(s, w, ev);
    var p, q := r.peers[source], w'.receiver.peers[source];
    MarkThere(w, Alive(w.receiver, ev.at).peers, ev.at, source);
    var mark := w.marks[source];
    var worse := if q.unicast < p.unicast then p.unicast else p.multicast;
    var i := Witness(w, source, p, mark, ev.at, worse);
    ReacceptedNow(s, w, w.accepted[i], w'.receiver, ev.at);
    assert w.accepted[i] in w.accepted;
  }

  /** A valid datagram from a known peer is always put to the rules. */
  lemma KnownSettles(s: Setting, w: World, ev: Event)
    requires SignersOk(s, w) && ev.Deliver? && Allowed(s, w, ev) && MacValid(s.config, s.digest, ev.datagram, ev.to)
    requires ev.to.source in Alive(w.receiver, ev.at).peers
    ensures Settles(s, w, ev)
  {
    hide SignersOk, Tlvs, MacMatches, ValidEndpoints, Unheard, FirstPc, BodyEnd, Settle, Alive, Find, IsEntry,
         WellFormed;
    EntryFound(s, w, ev);
  }

  lemma Witness(w: World, source: SocketAddr, p: Peer, mark: Mark, now: u64, pc: u32) returns (i: nat)
    requires AllWellFormed(w.log) && InLog(w.log, w.accepted) && PeerOk(w.log, w.accepted, source, p, mark, now)
    requires p.index.Some? && (pc == p.unicast || pc == p.multicast)
    ensures i < |w.accepted| && w.log[w.accepted[i].pos].ep.source == source
    ensures w.log[w.accepted[i].pos].index == p.index.value && w.log[w.accepted[i].pos].pc == pc
  {
    hide NonceOk, RemembersAll;
    assert Witnessed(w.log, w.accepted, source, p, pc);
    i :| 0 <= i < |w.accepted| && w.log[w.accepted[i].pos].ep.source == source
      && w.log[w.accepted[i].pos].index == p.index.value && w.log[w.accepted[i].pos].pc == pc;
  }

  /** An accepted datagram passes again once both counters are below its own. */
  lemma ReacceptedNow(s: Setting, w: World, a: Acceptance, r: Receiver, now: u64)
    requires SignersOk(s, w) && AcceptanceOk(s, w, a) && !s.config.acceptUnverified
    requires var e := w.log[a.pos]; var p := e.ep.source;
      && p in r.peers && now < r.peers[p].expires && r.peers[p].index == Some(e.index) && r.peers[p].nonce == None
      && r.peers[p].unicast < e.pc && r.peers[p].multicast < e.pc
    ensures Receive(r, s.config, s.digest, s.maxPeers, a.packet, w.log[a.pos].ep, now, None).1.accepted
  {
    hide Tlvs, FirstPc, ScanAll, Multicast, MacMatches, LogOrdered, BodyEnd, Control;
    var e := w.log[a.pos];
    assert EntryOk(s, w, e);
    var end := BodyEnd(a.packet).value;
    assert a.packet[..end][4..] == a.packet[4..end];
    ScanMeans(Body(e), None, now, Multicast(e.ep.destination.ip));
    SettleEffect(Alive(r, now), s.config, Body(e), e.ep, now, None);
  }
}
