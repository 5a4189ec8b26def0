/** A run that reaches a late challenge reply: a datagram of the sender's previous
    index draws a challenge while the current index is known, the reply is
    delayed, and a newer datagram is accepted before it
    (crates/babel-protocol/src/mac.rs:308-371). */
module MacLateReply {
  import opened Model
  import opened WirePrefix
  import opened WireTypes
  import opened Mac
  import opened MacReplay

  /** A strict receiver that shares the sender's keys and has room for it. */
  ghost predicate Ordinary(s: Setting, ep: Endpoints) {
    && !s.config.acceptUnverified && s.config.keys != [] && ProperDigest(s.digest) && s.maxPeers > 0
    && ValidEndpoints(ep, s.family) && !Multicast(ep.destination.ip)
  }

  // ----- packets and entries

  const PLAIN: Bytes := [42, 2, 0, 0]

  function ReplyPacket(nonce: Bytes): Bytes
    requires |nonce| == 16
  {
    Control(REPLY, nonce)
  }

  predicate Small(packet: Bytes) { Unsigned(packet) && |packet| <= 100 }

  function Signed(ep: Endpoints, packet: Bytes, sg: Signer): Entry
    requires Small(packet) && ValidSigner(sg)
  {
    Entry(ep, WithPc(packet, sg), sg.counter, sg.index)
  }

  lemma PlainIsSmall()
    ensures Small(PLAIN) && Tlvs(PLAIN[4..]) == Ok([])
  {
    assert PLAIN[4..] == [] && PLAIN[2..4] == [0, 0];
  }

  lemma ReplyIsSmall(nonce: Bytes)
    requires |nonce| == 16
    ensures Small(ReplyPacket(nonce)) && Tlvs(ReplyPacket(nonce)[4..]) == Ok([Tv(REPLY, nonce)])
  {
    hide Tlvs;
    var p := ReplyPacket(nonce);
    assert p[2..4] == ToBe16(18) && p[4..] == [REPLY, |nonce|] + nonce;
    TlvsSingle(REPLY, nonce);
  }

  /** A signed packet is a well-formed entry whose body is the packet's and one PC. */
  lemma SignedBody(ep: Endpoints, packet: Bytes, sg: Signer)
    requires Small(packet) && ValidSigner(sg)
    ensures var e := Signed(ep, packet, sg); WellFormed(e) && Body(e) == Tlvs(packet[4..]).value + [Tv(PC, PcValue(sg))]
  {
    hide Tlvs, WithPc, BodyEnd, PcValue;
    WithPcBody(packet, sg, []);
    var out := WithPc(packet, sg);
    assert out + [] == out;
    var front := Tlvs(packet[4..]).value;
    NoPcFound(front);
    var body := front + [Tv(PC, PcValue(sg))];
    assert body[..|body| - 1] == front;
  }

  lemma PlainSaysNothing(ep: Endpoints, sg: Signer, nonce: Bytes)
    requires ValidSigner(sg)
    ensures Small(PLAIN) && WellFormed(Signed(ep, PLAIN, sg)) && !HasReply(Body(Signed(ep, PLAIN, sg)), nonce)
  {
    hide WellFormed, Tlvs, PcValue, WithPc;
    PlainIsSmall();
    SignedBody(ep, PLAIN, sg);
  }

  lemma ReplySays(ep: Endpoints, sg: Signer, nonce: Bytes, other: Bytes)
    requires ValidSigner(sg) && |nonce| == 16
    ensures Small(ReplyPacket(nonce)) && WellFormed(Signed(ep, ReplyPacket(nonce), sg))
    ensures HasReply(Body(Signed(ep, ReplyPacket(nonce), sg)), other) <==> other == nonce
  {
    hide WellFormed, Tlvs, PcValue, WithPc, Control;
    ReplyIsSmall(nonce);
    SignedBody(ep, ReplyPacket(nonce), sg);
    var body := Body(Signed(ep, ReplyPacket(nonce), sg));
    assert body[0] == Tv(REPLY, nonce) && body[1].type_ == PC;
  }

  // ----- steps of a run

  lemma RunsOn(s: Setting, events: seq<Event>, w: World, ev: Event)
    requires Runs(s, events, w) && ValidSigners(w) && Allowed(s, w, ev) && OrderlyStep(s, w, ev)
    ensures Runs(s, events + [ev], Apply(s, w, ev))
  {
    hide Allowed, OrderlyStep, Apply;
    var more := events + [ev];
    assert more[..|more| - 1] == events && more[|more| - 1] == ev;
  }

  lemma Boots(s: Setting, events: seq<Event>, w: World, source: SocketAddr, index: Bytes) returns (more: seq<Event>)
    requires !s.config.acceptUnverified && Runs(s, events, w) && |index| == 16 && index !in w.used
    ensures Runs(s, more, w.(signers := w.signers[source := Signer(index, 0)], used := w.used + {index}))
  {
    hide Runs;
    assert ValidSigners(w) by { RunKeeps(s, events, w); }
    RunsOn(s, events, w, Boot(source, index));
    more := events + [Boot(source, index)];
  }

  function AfterSigning(w: World, ep: Endpoints, packet: Bytes): World
    requires ep.source in w.signers && ValidSigner(w.signers[ep.source]) && w.signers[ep.source].counter < 100
      && Small(packet)
  {
    var sg := w.signers[ep.source];
    w.(signers := w.signers[ep.source := Signer(sg.index, sg.counter + 1)],
       used := w.used + {sg.index}, log := w.log + [Signed(ep, packet, sg)])
  }

  lemma Signs(s: Setting, events: seq<Event>, w: World, ep: Endpoints, packet: Bytes) returns (more: seq<Event>)
    requires Ordinary(s, ep) && Runs(s, events, w)
    requires ep.source in w.signers && ValidSigner(w.signers[ep.source]) && w.signers[ep.source].counter < 100
      && Small(packet)
    ensures Runs(s, more, AfterSigning(w, ep, packet))
  {
    hide Runs, Unsigned, WithPc;
    assert ValidSigners(w) by { RunKeeps(s, events, w); }
    var ev := SignOne(ep, packet, None);
    RunsOn(s, events, w, ev);
    more := events + [ev];
  }

  /** The datagram of a logged entry, with its trailer. */
  function Datagram(s: Setting, e: Entry): Bytes
    requires AuthenticatedBytes(e.ep, e.packet).Ok?
  {
    e.packet + Trailer(s.config.keys, s.digest, AuthenticatedBytes(e.ep, e.packet).value)
  }

  lemma Joined(a: Bytes, b: Bytes)
    requires |a| >= 4
    ensures (a + b)[2..4] == a[2..4] && (a + b)[..|a|] == a && (a + b)[|a|..] == b
  {
  }

  lemma DatagramIsValid(s: Setting, e: Entry)
    requires Ordinary(s, e.ep) && WellFormed(e)
    ensures AuthenticatedBytes(e.ep, e.packet).Ok?
    ensures var d := Datagram(s, e);
      BodyEnd(d) == Ok(|e.packet|) && d[..|e.packet|] == e.packet && MacValid(s.config, s.digest, d, e.ep)
  {
    hide Tlvs, Trailer, FirstPc;
    var data := AuthenticatedBytes(e.ep, e.packet).value;
    var tail, d, n := Trailer(s.config.keys, s.digest, data), Datagram(s, e), |e.packet|;
    Joined(e.packet, tail);
    TrailerReads(s.config.keys, s.digest, data);
    assert Tlvs(tail).value[0] == Tv(MAC, s.digest(s.config.keys[0], data));
  }

  function Delivery(s: Setting, e: Entry, at: u64, nonce: Option<Bytes>): Event
    requires AuthenticatedBytes(e.ep, e.packet).Ok?
  {
    Deliver(Datagram(s, e), e.ep, at, nonce)
  }

  /** A logged entry that arrives is put to the counter and challenge rules. */
  lemma Arrives(s: Setting, events: seq<Event>, w: World, i: nat, at: u64, nonce: Option<Bytes>)
    requires Runs(s, events, w) && i < |w.log| && Ordinary(s, w.log[i].ep) && WellFormed(w.log[i])
    requires at >= w.now && Fits16(nonce) && (nonce.Some? ==> Unheard(w.log, nonce.value))
    requires w.receiver.peers.Keys <= {w.log[i].ep.source}
    ensures AuthenticatedBytes(w.log[i].ep, w.log[i].packet).Ok? && ValidSigners(w) && Inv(s, w)
    ensures var ev := Delivery(s, w.log[i], at, nonce);
      && Allowed(s, w, ev) && MacValid(s.config, s.digest, ev.datagram, ev.to)
      && BodyEnd(ev.datagram).Ok? && Tlvs(ev.datagram[4..BodyEnd(ev.datagram).value]) == Ok(Body(w.log[i]))
      && Receive(w.receiver, s.config, s.digest, s.maxPeers, ev.datagram, ev.to, at, nonce)
         == Settle(Admit(Alive(w.receiver, at), ev.to.source, at), s.config, Body(w.log[i]), ev.to, at, nonce)
  {
    hide Runs, Inv, MacValid, Tlvs, FirstPc, Settle, Unheard, ValidEndpoints;
    var e := w.log[i];
    RunKeeps(s, events, w);
    assert ValidSigners(w) by { InvSigners(s, w); }
    DatagramIsValid(s, e);
    var d := Datagram(s, e);
    assert d[4..|e.packet|] == e.packet[4..] by { assert d[..|e.packet|][4..] == d[4..|e.packet|]; }
    assert IsEntry(w.log[i], d, e.ep);
    OneAlive(w.receiver, at, e.ep.source);
  }

  lemma InvSigners(s: Setting, w: World)
    requires Inv(s, w)
    ensures ValidSigners(w)
  {
  }

  lemma OneAlive(r: Receiver, at: u64, source: SocketAddr)
    requires r.peers.Keys <= {source}
    ensures source in Alive(r, at).peers || |Alive(r, at).peers| == 0
  {
    var alive := Alive(r, at).peers;
    if source !in alive { assert alive.Keys == {}; }
  }

  // ----- what an arrival does to the only peer

  /** The sender as the receiver knows it. */
  predicate Knows(r: Receiver, source: SocketAddr, index: Option<Bytes>, unicast: u32, nonce: Option<(Bytes, u64)>) {
    && r.peers.Keys == {source}
    && var p := r.peers[source];
    p.index == index && p.unicast == unicast && p.nonce == nonce && p.expires >= 300_000
  }

  /** Before the first arrival the sender counts as a peer without an index. */
  predicate Meets(r: Receiver, source: SocketAddr, index: Option<Bytes>, unicast: u32, nonce: Option<(Bytes, u64)>) {
    || (r.peers == map[] && index.None? && unicast == 0 && nonce.None?)
    || Knows(r, source, index, unicast, nonce)
  }

  lemma Admitted(r: Receiver, source: SocketAddr, index: Option<Bytes>, unicast: u32, nonce: Option<(Bytes, u64)>,
                 at: u64)
    requires Meets(r, source, index, unicast, nonce) && at < 1_000
    ensures Knows(Admit(Alive(r, at), source, at), source, index, unicast, nonce)
    ensures Admit(Alive(r, at), source, at).lastChallenge == r.lastChallenge
  {
    if r.peers == map[] {
      assert Alive(r, at).peers == map[];
    } else {
      assert Alive(r, at).peers == r.peers;
    }
  }

  /** The counter is found, and only a reply with the live nonce counts. */
  lemma ScanIs(e: Entry, nonce: Option<(Bytes, u64)>, at: u64)
    requires WellFormed(e) && (nonce.Some? ==> |nonce.value.0| == 16)
    ensures var scan := ScanAll(Body(e), nonce, at, false);
      && scan.counter == Some((e.pc, e.index))
      && (scan.success <==> nonce.Some? && at < nonce.value.1 && HasReply(Body(e), nonce.value.0))
  {
    hide Tlvs, ScanAll, HasReply, FirstPc, BodyEnd;
    ScanMeans(Body(e), nonce, at, false);
  }

  /** The same world, with another receiver and a later clock. */
  predicate Moved(w: World, w': World, at: u64) {
    w'.signers == w.signers && w'.used == w.used && w'.log == w.log && w'.now == at
  }

  lemma Challenged(s: Setting, events: seq<Event>, w: World, i: nat, at: u64, nonce: Bytes, index: Option<Bytes>,
                   unicast: u32)
    returns (more: seq<Event>, w': World)
    requires Runs(s, events, w) && i < |w.log| && Ordinary(s, w.log[i].ep) && WellFormed(w.log[i])
    requires w.now <= at < 1_000 && |nonce| == 16 && Unheard(w.log, nonce)
    requires Meets(w.receiver, w.log[i].ep.source, index, unicast, None) && index != Some(w.log[i].index)
      && RateOk(w.receiver.lastChallenge, at)
    ensures Runs(s, more, w') && Moved(w, w', at) && w'.receiver.lastChallenge == Some(at)
    ensures Knows(w'.receiver, w.log[i].ep.source, index, unicast, Some((nonce, at + CHALLENGE_MS)))
  {
    hide Runs, Inv, WellFormed, MacValid, Tlvs, ScanAll, Unheard, ValidEndpoints, Receive, Alive, Control, BodyEnd,
         HasReply, Multicast, Allowed;
    var e := w.log[i];
    Arrives(s, events, w, i, at, Some(nonce));
    Admitted(w.receiver, e.ep.source, index, unicast, None, at);
    ScanIs(e, None, at);
    var ev := Delivery(s, e, at, Some(nonce));
    RunsOn(s, events, w, ev);
    more, w' := events + [ev], Apply(s, w, ev);
  }

  lemma Confirmed(s: Setting, events: seq<Event>, w: World, i: nat, at: u64, nonce: (Bytes, u64), index: Option<Bytes>,
                  unicast: u32)
    returns (more: seq<Event>, w': World)
    requires Runs(s, events, w) && i < |w.log| && Ordinary(s, w.log[i].ep) && WellFormed(w.log[i])
    requires w.now <= at < 1_000 && |nonce.0| == 16 && at < nonce.1 && HasReply(Body(w.log[i]), nonce.0)
    requires Knows(w.receiver, w.log[i].ep.source, index, unicast, Some(nonce)) && index != Some(w.log[i].index)
    ensures Runs(s, more, w') && Moved(w, w', at) && w'.receiver.lastChallenge == w.receiver.lastChallenge
    ensures Knows(w'.receiver, w.log[i].ep.source, Some(w.log[i].index), w.log[i].pc, None)
  {
    hide Runs, Inv, WellFormed, MacValid, Tlvs, ScanAll, ValidEndpoints, Receive, Alive, Control, BodyEnd, HasReply,
         Multicast, Allowed;
    var e := w.log[i];
    Arrives(s, events, w, i, at, None);
    Admitted(w.receiver, e.ep.source, index, unicast, Some(nonce), at);
    ScanIs(e, Some(nonce), at);
    var ev := Delivery(s, e, at, None);
    RunsOn(s, events, w, ev);
    more, w' := events + [ev], Apply(s, w, ev);
  }

  lemma Counted(s: Setting, events: seq<Event>, w: World, i: nat, at: u64, nonce: Option<(Bytes, u64)>, unicast: u32)
    returns (more: seq<Event>, w': World)
    requires Runs(s, events, w) && i < |w.log| && Ordinary(s, w.log[i].ep) && WellFormed(w.log[i])
    requires w.now <= at < 1_000 && (nonce.Some? ==> |nonce.value.0| == 16 && !HasReply(Body(w.log[i]), nonce.value.0))
    requires Knows(w.receiver, w.log[i].ep.source, Some(w.log[i].index), unicast, nonce) && unicast < w.log[i].pc
    ensures Runs(s, more, w') && Moved(w, w', at) && w'.receiver.lastChallenge == w.receiver.lastChallenge
    ensures Knows(w'.receiver, w.log[i].ep.source, Some(w.log[i].index), w.log[i].pc, nonce)
  {
    hide Runs, Inv, WellFormed, MacValid, Tlvs, ScanAll, ValidEndpoints, Receive, Alive, Control, BodyEnd, HasReply,
         Multicast, Allowed;
    var e := w.log[i];
    Arrives(s, events, w, i, at, None);
    Admitted(w.receiver, e.ep.source, Some(e.index), unicast, nonce, at);
    ScanIs(e, nonce, at);
    var ev := Delivery(s, e, at, None);
    RunsOn(s, events, w, ev);
    more, w' := events + [ev], Apply(s, w, ev);
  }

  // ----- the run

  /** The sender signs one datagram, restarts under another index and signs one more. */
  lemma Restarted(s: Setting, ep: Endpoints, older: Bytes, newer: Bytes) returns (events: seq<Event>, w: World)
    requires Ordinary(s, ep) && |older| == 16 && |newer| == 16 && older != newer
    ensures Small(PLAIN) && Runs(s, events, w) && w.receiver == Receiver(map[], None) && w.now == 0
    ensures w.signers == map[ep.source := Signer(newer, 1)]
    ensures w.log == [Signed(ep, PLAIN, Signer(older, 0)), Signed(ep, PLAIN, Signer(newer, 0))]
  {
    hide Unsigned, WithPc, Apply, Allowed;
    PlainIsSmall();
    assert Runs(s, [], Start);
    var w1 := Start.(signers := map[ep.source := Signer(older, 0)], used := {older});
    events := Boots(s, [], Start, ep.source, older);
    assert w1 == Start.(signers := Start.signers[ep.source := Signer(older, 0)], used := Start.used + {older});
    events := Signs(s, events, w1, ep, PLAIN);
    var w2 := AfterSigning(w1, ep, PLAIN);
    events := Boots(s, events, w2, ep.source, newer);
    var w3 := w2.(signers := w2.signers[ep.source := Signer(newer, 0)], used := w2.used + {newer});
    events := Signs(s, events, w3, ep, PLAIN);
    w := AfterSigning(w3, ep, PLAIN);
  }

  function Sent(ep: Endpoints, index: Bytes, counter: u32): Entry
    requires |index| == 16
  {
    PlainIsSmall();
    Signed(ep, PLAIN, Signer(index, counter))
  }

  function Answer(ep: Endpoints, index: Bytes, counter: u32, nonce: Bytes): Entry
    requires |index| == 16 && |nonce| == 16
  {
    ReplyIsSmall(nonce);
    Signed(ep, ReplyPacket(nonce), Signer(index, counter))
  }

  /** The first challenge is answered: the new index is known with counter 1. */
  lemma Introduced(s: Setting, ep: Endpoints, older: Bytes, newer: Bytes, nonce: Bytes)
    returns (events: seq<Event>, w: World)
    requires Ordinary(s, ep) && |older| == 16 && |newer| == 16 && older != newer && |nonce| == 16
    ensures Runs(s, events, w) && w.now == 0 && w.receiver.lastChallenge == Some(0)
    ensures Knows(w.receiver, ep.source, Some(newer), 1, None) && w.signers == map[ep.source := Signer(newer, 2)]
    ensures w.log == [Sent(ep, older, 0), Sent(ep, newer, 0), Answer(ep, newer, 1, nonce)]
  {
    hide Runs, WellFormed, Small, WithPc, HasReply, Ordinary;
    events, w := Restarted(s, ep, older, newer);
    PlainSaysNothing(ep, Signer(older, 0), nonce);
    PlainSaysNothing(ep, Signer(newer, 0), nonce);
    events, w := Challenged(s, events, w, 1, 0, nonce, None, 0);
    ReplySays(ep, Signer(newer, 1), nonce, nonce);
    events := Signs(s, events, w, ep, ReplyPacket(nonce));
    w := AfterSigning(w, ep, ReplyPacket(nonce));
    events, w := Confirmed(s, events, w, 2, 0, (nonce, CHALLENGE_MS), None, 0);
  }

  /** A datagram of the old index draws a second challenge; its answer is signed, and the
      datagram signed after the answer arrives before it. */
  lemma Delayed(s: Setting, ep: Endpoints, older: Bytes, newer: Bytes, nonce: Bytes, second: Bytes)
    returns (events: seq<Event>, w: World)
    requires Ordinary(s, ep) && |older| == 16 && |newer| == 16 && older != newer
    requires |nonce| == 16 && |second| == 16 && nonce != second
    ensures Runs(s, events, w) && w.now == 301
    ensures Knows(w.receiver, ep.source, Some(newer), 3, Some((second, 300 + CHALLENGE_MS)))
    ensures |w.log| == 5 && w.log[3] == Answer(ep, newer, 2, second)
  {
    hide Runs, WellFormed, Small, WithPc, HasReply, Ordinary;
    events, w := Introduced(s, ep, older, newer, nonce);
    PlainSaysNothing(ep, Signer(older, 0), second);
    PlainSaysNothing(ep, Signer(newer, 0), second);
    ReplySays(ep, Signer(newer, 1), nonce, second);
    events, w := Challenged(s, events, w, 0, 300, second, Some(newer), 1);
    ReplySays(ep, Signer(newer, 2), second, second);
    events := Signs(s, events, w, ep, ReplyPacket(second));
    w := AfterSigning(w, ep, ReplyPacket(second));
    PlainSaysNothing(ep, Signer(newer, 3), second);
    events := Signs(s, events, w, ep, PLAIN);
    w := AfterSigning(w, ep, PLAIN);
    events, w := Counted(s, events, w, 4, 301, Some((second, 300 + CHALLENGE_MS)), 1);
  }

  /** For every strict setting and any two indices and nonces there is an orderly run after which
      the delayed answer is allowed to arrive, is not orderly, and makes the receiver accept a
      datagram it accepted before. */
  lemma LateReplyRun(s: Setting, ep: Endpoints, older: Bytes, newer: Bytes, nonce: Bytes, second: Bytes)
    returns (events: seq<Event>, w: World, last: Event)
    requires Ordinary(s, ep) && |older| == 16 && |newer| == 16 && older != newer
    requires |nonce| == 16 && |second| == 16 && nonce != second
    ensures Runs(s, events, w) && last.Deliver? && Allowed(s, w, last) && !OrderlyStep(s, w, last)
    ensures exists a :: (a in w.accepted && a.pos < |w.log|
      && Receive(Apply(s, w, last).receiver, s.config, s.digest, s.maxPeers, a.packet, w.log[a.pos].ep, last.at,
                 None).1.accepted)
  {
    hide Runs, Inv, WellFormed, MacValid, Tlvs, ScanAll, ValidEndpoints, Receive, Alive, Control, BodyEnd, HasReply,
         Multicast, Allowed, Apply;
    events, w := Delayed(s, ep, older, newer, nonce, second);
    ReplySays(ep, Signer(newer, 2), second, second);
    Arrives(s, events, w, 3, 302, None);
    var live := Some((second, 300 + CHALLENGE_MS));
    Admitted(w.receiver, ep.source, Some(newer), 3, live, 302);
    ScanIs(w.log[3], live, 302);
    last := Delivery(s, w.log[3], 302, None);
    LateReplyReplays(s, w, last);
  }

  /** Such a setting exists, and so does the run. */
  lemma LateReplyHappens() returns (s: Setting, events: seq<Event>, w: World, last: Event)
    ensures !s.config.acceptUnverified && Runs(s, events, w)
    ensures last.Deliver? && Allowed(s, w, last) && !OrderlyStep(s, w, last)
  {
    hide Runs, Allowed, OrderlyStep, Apply, Receive;
    var digest: Digest := (k: MacKey, data: Bytes) => Zeros(DigestLen(k.algorithm));
    s := Setting(Config([MacKey(HmacSha256, [1])], false), digest, 1, V4);
    var from, to := SocketAddr(IpAddr(V4, [192, 0, 2, 1]), 6696), SocketAddr(IpAddr(V4, [192, 0, 2, 2]), 6696);
    var ep := Endpoints(from, to);
    var older, newer: Bytes := seq(16, _ => 1), seq(16, _ => 2);
    assert older[0] != newer[0];
    events, w, last := LateReplyRun(s, ep, older, newer, older, newer);
  }
}
