/** Packet authentication: framing, signing and the receive decision
    (crates/babel-protocol/src/mac.rs, RFC 8967 sections 4.2 to 4.4). */
module Mac {
  import opened Model
  import opened WirePrefix
  import opened WireTypes

  const MAC: u8 := 16
  const PC: u8 := 17
  const REQUEST: u8 := 18
  const REPLY: u8 := 19
  const RATE_MS: nat := 300
  const CHALLENGE_MS: nat := 30_000
  const EXPIRE_MS: nat := 300_000

  datatype Algorithm = HmacSha256 | Blake2s128

  datatype MacKey = MacKey(algorithm: Algorithm, bytes: Bytes)

  datatype MacError = BadPacket | Entropy

  /** The keyed hash, as an arbitrary function. */
  type Digest = (MacKey, Bytes) -> Bytes

  datatype SocketAddr = SocketAddr(ip: IpAddr, port: u16)

  datatype Endpoints = Endpoints(source: SocketAddr, destination: SocketAddr)

  predicate Multicast(ip: IpAddr) {
    |ip.octets| > 0 && (if ip.family == V4 then 224 <= ip.octets[0] < 240 else ip.octets[0] == 0xff)
  }

  // ----- framing

  datatype Tv = Tv(type_: u8, value: Bytes)

  function BodyEnd(packet: Bytes): (r: Result<nat, MacError>)
    ensures r.Ok? ==> 4 <= r.value <= |packet|
  {
    if |packet| < 4 || packet[0] != 42 || packet[1] != 2 then Err(BadPacket)
    else
      var end := 4 + Be16(packet[2..4]);
      if end > |packet| then Err(BadPacket) else Ok(end)
  }

  function Cons(head: Tv, rest: Result<seq<Tv>, MacError>): Result<seq<Tv>, MacError> {
    if rest.Err? then rest else Ok([head] + rest.value)
  }

  /** All elements, padding skipped. */
  function Tlvs(bytes: Bytes): Result<seq<Tv>, MacError>
    decreases |bytes|
  {
    if bytes == [] then Ok([])
    else
      match NextFrame(bytes)
      case Padding(rest) => Tlvs(rest)
      case Item(type_, value, rest) => Cons(Tv(type_, value), Tlvs(rest))
      case Truncated(_) => Err(BadPacket)
  }

  method TlvsLoop(bytes: Bytes) returns (r: Result<seq<Tv>, MacError>)
    ensures r == Tlvs(bytes)
  {
    hide NextFrame;
    var out: seq<Tv>, at := [], 0;
    assert bytes[0..] == bytes;
    PrefixedNothing(Tlvs(bytes));
    while at < |bytes|
      invariant at <= |bytes|
      invariant Tlvs(bytes) == Prefixed(out, Tlvs(bytes[at..]))
    {
      FrameAt(bytes, at);
      var type_ := bytes[at];
      if type_ == 0 {
        at := at + 1;
        continue;
      }
      if at + 1 >= |bytes| { return Err(BadPacket); }
      var len: nat := bytes[at + 1];
      if len > |bytes| - (at + 2) { return Err(BadPacket); }
      var item := Tv(type_, bytes[at + 2..at + 2 + len]);
      PrefixedCons(out, item, Tlvs(bytes[at + 2 + len..]));
      out, at := out + [item], at + 2 + len;
    }
    assert bytes[at..] == [] && out + [] == out;
    r := Ok(out);
  }

  function Prefixed(front: seq<Tv>, rest: Result<seq<Tv>, MacError>): Result<seq<Tv>, MacError> {
    if rest.Err? then rest else Ok(front + rest.value)
  }

  lemma PrefixedNothing(r: Result<seq<Tv>, MacError>)
    ensures Prefixed([], r) == r
  {
    if r.Ok? { assert [] + r.value == r.value; }
  }

  lemma PrefixedCons(front: seq<Tv>, item: Tv, rest: Result<seq<Tv>, MacError>)
    ensures Prefixed(front, Cons(item, rest)) == Prefixed(front + [item], rest)
  {
    if rest.Ok? { assert front + ([item] + rest.value) == front + [item] + rest.value; }
  }

  /** Framing is compositional after a well-formed front part. */
  lemma {:induction false} TlvsAppend(a: Bytes, b: Bytes)
    requires Tlvs(a).Ok?
    ensures Tlvs(a + b) == Prefixed(Tlvs(a).value, Tlvs(b))
    decreases |a|
  {
    if a == [] {
      assert a + b == b;
      PrefixedNothing(Tlvs(b));
    } else {
      NextFrameAppend(a, b);
      match NextFrame(a)
      case Padding(rest) => TlvsAppend(rest, b);
      case Item(type_, value, rest) =>
        TlvsAppend(rest, b);
        ConsPrefixed(Tv(type_, value), Tlvs(rest).value, Tlvs(b));
    }
  }

  lemma ConsPrefixed(item: Tv, front: seq<Tv>, rest: Result<seq<Tv>, MacError>)
    ensures Cons(item, Prefixed(front, rest)) == Prefixed([item] + front, rest)
  {
    if rest.Ok? { assert [item] + (front + rest.value) == [item] + front + rest.value; }
  }

  lemma TlvsPut(type_: u8, value: Bytes, rest: Bytes)
    requires type_ != 0 && |value| <= 255
    ensures Tlvs([type_, |value|] + value + rest) == Cons(Tv(type_, value), Tlvs(rest))
  {
    NextFramePut(type_, value, rest);
  }

  lemma TlvsEmpty()
    ensures Tlvs([]) == Ok([])
  {
  }

  lemma TlvsSingle(type_: u8, value: Bytes)
    requires type_ != 0 && |value| <= 255
    ensures Tlvs([type_, |value|] + value) == Ok([Tv(type_, value)])
  {
    hide Tlvs;
    TlvsPut(type_, value, []);
    TlvsEmpty();
    assert [Tv(type_, value)] + [] == [Tv(type_, value)];
    assert [type_, |value|] + value + [] == [type_, |value|] + value;
  }

  function Control(type_: u8, nonce: Bytes): Bytes
    requires |nonce| <= 255
  {
    [42, 2] + ToBe16(|nonce| + 2) + [type_, |nonce|] + nonce
  }

  // ----- what is authenticated

  function AuthenticatedBytes(ep: Endpoints, packet: Bytes): Result<Bytes, MacError> {
    if ep.source.ip.family != ep.destination.ip.family then Err(BadPacket)
    else
      Ok(ep.source.ip.octets + ToBe16(ep.source.port) + ep.destination.ip.octets + ToBe16(ep.destination.port) + packet)
  }

  predicate ValidEndpoints(ep: Endpoints, family: Family) {
    && ep.source.ip.family == family && ep.destination.ip.family == family
    && ValidAddress(ep.source.ip) && ValidAddress(ep.destination.ip)
  }

  /** Within one address family the authenticated octets determine both
      endpoints and the packet. */
  lemma AuthenticatedBytesInjective(e1: Endpoints, p1: Bytes, e2: Endpoints, p2: Bytes, family: Family)
    requires ValidEndpoints(e1, family) && ValidEndpoints(e2, family)
    requires AuthenticatedBytes(e1, p1) == AuthenticatedBytes(e2, p2)
    ensures e1 == e2 && p1 == p2
  {
    hide ToBe16;
    var n := if family == V4 then 4 else 16;
    var d1, d2 := AuthenticatedBytes(e1, p1).value, AuthenticatedBytes(e2, p2).value;
    Sliced(e1, p1, n);
    Sliced(e2, p2, n);
    assert Be16(ToBe16(e1.source.port)) == e1.source.port && Be16(ToBe16(e2.source.port)) == e2.source.port;
    assert Be16(ToBe16(e1.destination.port)) == e1.destination.port;
    assert Be16(ToBe16(e2.destination.port)) == e2.destination.port;
  }

  lemma Sliced(e: Endpoints, p: Bytes, n: nat)
    requires |e.source.ip.octets| == n && |e.destination.ip.octets| == n && AuthenticatedBytes(e, p).Ok?
    ensures var d := AuthenticatedBytes(e, p).value;
      && |d| == 2 * n + 4 + |p|
      && d[..n] == e.source.ip.octets && d[n..n + 2] == ToBe16(e.source.port)
      && d[n + 2..2 * n + 2] == e.destination.ip.octets && d[2 * n + 2..2 * n + 4] == ToBe16(e.destination.port)
      && d[2 * n + 4..] == p
  {
    hide ToBe16;
  }

  // ----- signing

  /** The outgoing half of a session. */
  datatype Signer = Signer(index: Bytes, counter: u32)

  predicate ValidSigner(s: Signer) { |s.index| == 16 }

  predicate Unsigned(packet: Bytes) {
    && BodyEnd(packet) == Ok(|packet|)
    && Tlvs(packet[4..]).Ok?
    && forall i :: 0 <= i < |Tlvs(packet[4..]).value| ==> Tlvs(packet[4..]).value[i].type_ !in {PC, MAC}
  }

  function PcValue(s: Signer): (v: Bytes)
    requires ValidSigner(s)
    ensures |v| == 20 && Be32(v) == s.counter && v[4..] == s.index
  {
    var v := ToBe32(s.counter) + s.index;
    assert v[..4] == ToBe32(s.counter);
    assert v[2..4] == ToBe32(s.counter)[2..];
    v
  }

  /** The packet with its PC TLV and body length, before the MAC trailer. */
  function WithPc(packet: Bytes, s: Signer): (out: Bytes)
    requires |packet| >= 4 && ValidSigner(s) && |packet| + 18 <= 0xffff
    ensures |out| == |packet| + 22
  {
    packet[..2] + ToBe16(|packet| + 18) + packet[4..] + ([PC, 20] + PcValue(s))
  }

  /** The signer that allocates the next counter: a spent one draws a new index. */
  function Allocating(s: Signer, draw: Option<Bytes>): Option<Signer> {
    if s.counter < U32_MAX then Some(s) else if draw.None? then None else Some(Signer(draw.value, 0))
  }

  /** One MAC TLV per key. */
  function Trailer(keys: seq<MacKey>, digest: Digest, data: Bytes): Bytes {
    if keys == [] then []
    else
      var n := |keys| - 1;
      var tag := digest(keys[n], data);
      Trailer(keys[..n], digest, data) + ([MAC, |tag| % 0x100] + tag)
  }

  /** What `sign` frames (without the trailer), and the signer afterwards. */
  function Sign(s: Signer, packet: Bytes, ep: Endpoints, draw: Option<Bytes>): (r: (Signer, Result<Bytes, MacError>))
    requires ValidSigner(s) && (draw.Some? ==> |draw.value| == 16)
    ensures ValidSigner(r.0)
  {
    if !Unsigned(packet) then (s, Err(BadPacket))
    else
      var now := Allocating(s, draw);
      if now.None? then (s, Err(Entropy))
      else
        var next := now.value.(counter := now.value.counter + 1);
        if |packet| + 18 > 0xffff || ep.source.ip.family != ep.destination.ip.family then (next, Err(BadPacket))
        else (next, Ok(WithPc(packet, now.value)))
  }

  function DigestLen(a: Algorithm): nat { if a == HmacSha256 then 32 else 16 }

  ghost predicate ProperDigest(digest: Digest) {
    forall k: MacKey, data: Bytes :: |digest(k, data)| == DigestLen(k.algorithm)
  }

  function Overhead(keys: seq<MacKey>): nat {
    22 + TrailerLen(keys)
  }

  function TrailerLen(keys: seq<MacKey>): nat {
    if keys == [] then 0 else TrailerLen(keys[..|keys| - 1]) + 2 + DigestLen(keys[|keys| - 1].algorithm)
  }

  /** The trailer holds one tag per key, reads back, and has the reserved size. */
  lemma {:induction false} TrailerReads(keys: seq<MacKey>, digest: Digest, data: Bytes)
    requires ProperDigest(digest)
    ensures |Trailer(keys, digest, data)| == TrailerLen(keys)
    ensures Tlvs(Trailer(keys, digest, data)).Ok?
    ensures var items := Tlvs(Trailer(keys, digest, data)).value;
      |items| == |keys| && forall i :: 0 <= i < |keys| ==> items[i] == Tv(MAC, digest(keys[i], data))
    decreases |keys|
  {
    hide Tlvs;
    if keys == [] {
      TlvsEmpty();
    } else {
      var n := |keys| - 1;
      var tag := digest(keys[n], data);
      TrailerReads(keys[..n], digest, data);
      TlvsSingle(MAC, tag);
      TlvsAppend(Trailer(keys[..n], digest, data), [MAC, |tag|] + tag);
    }
  }

  // ----- checking

  datatype Config = Config(keys: seq<MacKey>, acceptUnverified: bool)

  predicate MacMatches(trailer: seq<Tv>, keys: seq<MacKey>, digest: Digest, data: Bytes) {
    exists k, i :: 0 <= k < |keys| && 0 <= i < |trailer| && trailer[i].type_ == MAC
      && trailer[i].value == digest(keys[k], data)
  }

  /** Some key's tag over the endpoints and body is in the trailer. */
  predicate MacValid(config: Config, digest: Digest, packet: Bytes, ep: Endpoints) {
    && BodyEnd(packet).Ok?
    && var end := BodyEnd(packet).value;
    && Tlvs(packet[end..]).Ok?
    && AuthenticatedBytes(ep, packet[..end]).Ok?
    && MacMatches(Tlvs(packet[end..]).value, config.keys, digest, AuthenticatedBytes(ep, packet[..end]).value)
  }

  lemma WithPcBody(packet: Bytes, s: Signer, tail: Bytes)
    requires Unsigned(packet) && ValidSigner(s) && |packet| + 18 <= 0xffff
    ensures var out := WithPc(packet, s);
      && BodyEnd(out + tail) == Ok(|out|) && (out + tail)[..|out|] == out && (out + tail)[|out|..] == tail
      && Tlvs(out[4..]) == Ok(Tlvs(packet[4..]).value + [Tv(PC, PcValue(s))])
  {
    hide PcValue, ToBe16, Tlvs;
    var out := WithPc(packet, s);
    assert (out + tail)[2..4] == ToBe16(|packet| + 18);
    assert out[4..] == packet[4..] + ([PC, 20] + PcValue(s));
    TlvsSingle(PC, PcValue(s));
    TlvsAppend(packet[4..], [PC, 20] + PcValue(s));
  }

  /** Signing and checking fit together: whoever shares a key with the signer
      finds the datagram valid, and it is longer by exactly the overhead. */
  lemma SignedIsValid(s: Signer, packet: Bytes, ep: Endpoints, draw: Option<Bytes>, keys: seq<MacKey>, digest: Digest,
                      config: Config)
    requires ValidSigner(s) && (draw.Some? ==> |draw.value| == 16) && ProperDigest(digest)
    requires Sign(s, packet, ep, draw).1.Ok?
    requires exists k :: k in keys && k in config.keys
    ensures var out := Sign(s, packet, ep, draw).1.value;
      && AuthenticatedBytes(ep, out).Ok?
      && var datagram := out + Trailer(keys, digest, AuthenticatedBytes(ep, out).value);
      && MacValid(config, digest, datagram, ep) && |datagram| == |packet| + Overhead(keys)
  {
    hide Tlvs, WithPc, BodyEnd, Trailer;
    var out := Sign(s, packet, ep, draw).1.value;
    var data := AuthenticatedBytes(ep, out).value;
    TrailerReads(keys, digest, data);
    var tail := Trailer(keys, digest, data);
    WithPcBody(packet, Allocating(s, draw).value, tail);
    var k :| k in keys && k in config.keys;
    var i :| 0 <= i < |keys| && keys[i] == k;
    var j :| 0 <= j < |config.keys| && config.keys[j] == k;
    assert Tlvs(tail).value[i] == Tv(MAC, digest(config.keys[j], data));
  }

  // ----- receiving

  datatype Peer = Peer(index: Option<Bytes>, unicast: u32, multicast: u32, nonce: Option<(Bytes, u64)>,
                       lastReply: Option<u64>, expires: u64)

  function NewPeer(now: u64): Peer { Peer(None, 0, 0, None, None, SatAdd(now, EXPIRE_MS)) }

  datatype Receiver = Receiver(peers: map<SocketAddr, Peer>, lastChallenge: Option<u64>)

  datatype Reception = Reception(accepted: bool, controls: seq<Bytes>)

  /** What the TLV loop of `receive_inner` collects. */
  datatype Scan = Scan(counter: Option<(u32, Bytes)>, request: Option<Bytes>, success: bool)

  predicate Answers(nonce: Option<(Bytes, u64)>, now: u64, value: Bytes) {
    nonce.Some? && now < nonce.value.1 && nonce.value.0 == value
  }

  function ScanOne(acc: Scan, t: Tv, nonce: Option<(Bytes, u64)>, now: u64, multicast: bool): Scan {
    if t.type_ == PC && acc.counter.None? && 4 <= |t.value| <= 36 then
      acc.(counter := Some((Be32(t.value), t.value[4..])))
    else if t.type_ == REQUEST && |t.value| <= 192 && !multicast then acc.(request := Some(t.value))
    else if t.type_ == REPLY && |t.value| <= 192 then acc.(success := acc.success || Answers(nonce, now, t.value))
    else acc
  }

  const NoScan := Scan(None, None, false)

  function ScanAll(body: seq<Tv>, nonce: Option<(Bytes, u64)>, now: u64, multicast: bool): (s: Scan)
    ensures s.request.Some? ==> |s.request.value| <= 192
  {
    if body == [] then NoScan
    else ScanOne(ScanAll(body[..|body| - 1], nonce, now, multicast), body[|body| - 1], nonce, now, multicast)
  }

  predicate RateOk(last: Option<u64>, now: u64) { last.None? || SatSub(now, last.value) >= RATE_MS }

  /** The peer after a challenge reply may have been sent. */
  function Replied(peer: Peer, scan: Scan, now: u64): Peer {
    if scan.request.Some? && RateOk(peer.lastReply, now) then peer.(lastReply := Some(now)) else peer
  }

  function Replies(peer: Peer, scan: Scan, now: u64): seq<Bytes>
    requires scan.request.Some? ==> |scan.request.value| <= 192
  {
    if scan.request.Some? && RateOk(peer.lastReply, now) then [Control(REPLY, scan.request.value)] else []
  }

  /** What the counter and challenge rules decide for one valid packet. */
  datatype Verdict =
    | Fresh(peer: Peer)        // accepted, with the peer's new state
    | Stale                    // not newer than the recorded counter
    | Challenge                // unknown index: ask for proof of freshness
    | NoCounter

  function Judge(peer: Peer, scan: Scan, now: u64, multicast: bool): Verdict {
    if scan.counter.None? then NoCounter
    else
      var (pc, index) := scan.counter.value;
      if scan.success then
        Fresh(peer.(nonce := None, index := Some(index), unicast := pc, multicast := pc,
                    expires := SatAdd(now, EXPIRE_MS)))
      else if peer.index != Some(index) then Challenge
      else if pc <= (if multicast then peer.multicast else peer.unicast) then Stale
      else if multicast then Fresh(peer.(multicast := pc, expires := SatAdd(now, EXPIRE_MS)))
      else Fresh(peer.(unicast := pc, expires := SatAdd(now, EXPIRE_MS)))
  }

  function Alive(r: Receiver, now: u64): Receiver {
    r.(peers := map a | a in r.peers && now < r.peers[a].expires :: r.peers[a])
  }

  /** A packet past authentication, for the peer found or created for its source. */
  function Settle(r: Receiver, config: Config, body: seq<Tv>, ep: Endpoints, now: u64, draw: Option<Bytes>): (Receiver,
      Reception)
    requires ep.source in r.peers && (draw.Some? ==> |draw.value| == 16)
  {
    var peer, multicast := r.peers[ep.source], Multicast(ep.destination.ip);
    var scan := ScanAll(body, peer.nonce, now, multicast);
    var p, controls := Replied(peer, scan, now), Replies(peer, scan, now);
    var r1 := r.(peers := r.peers[ep.source := p]);
    match Judge(p, scan, now, multicast)
    case NoCounter => (r1, Reception(config.acceptUnverified, controls))
    case Stale => (r1, Reception(config.acceptUnverified, controls))
    case Fresh(q) => (r1.(peers := r1.peers[ep.source := q]), Reception(true, controls))
    case Challenge =>
      if !RateOk(r.lastChallenge, now) then (r1, Reception(config.acceptUnverified, controls))
      else if draw.None? then (r1, Reception(false, []))
      else
        (Receiver(r1.peers[ep.source := p.(nonce := Some((draw.value, SatAdd(now, CHALLENGE_MS))))], Some(now)),
         Reception(config.acceptUnverified, controls + [Control(REQUEST, draw.value)]))
  }

  function Admit(r: Receiver, source: SocketAddr, now: u64): (r': Receiver)
    ensures source in r'.peers
  {
    if source in r.peers then r else r.(peers := r.peers[source := NewPeer(now)])
  }

  const Refuse := Reception(false, [])

  /** `MacSession::receive`. */
  function Receive(r: Receiver, config: Config, digest: Digest, maxPeers: nat, packet: Bytes, ep: Endpoints, now: u64,
                   draw: Option<Bytes>): (Receiver, Reception)
    requires draw.Some? ==> |draw.value| == 16
  {
    var alive := Alive(r, now);
    if BodyEnd(packet).Err? then (alive, Refuse)
    else if !config.acceptUnverified && !MacValid(config, digest, packet, ep) then (alive, Refuse)
    else
      var body := Tlvs(packet[4..BodyEnd(packet).value]);
      if body.Err? then (alive, Refuse)
      else if ep.source !in alive.peers && |alive.peers| >= maxPeers then
        (alive, Reception(config.acceptUnverified, []))
      else Settle(Admit(alive, ep.source, now), config, body.value, ep, now, draw)
  }
}
