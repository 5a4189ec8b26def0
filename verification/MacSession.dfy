/** The per-interface authentication session, updated in place
    (crates/babel-protocol/src/mac.rs:176-371). */
module MacSessions {
  import opened Model
  import opened WirePrefix
  import opened Mac

  class MacSession {
    const config: Config
    const digest: Digest
    const maxPeers: nat
    var index: Bytes
    var counter: u32
    var peers: map<SocketAddr, Peer>
    var lastChallenge: Option<u64>

    predicate Valid()
      reads this
    {
      |index| == 16
    }

    function Outgoing(): Signer
      reads this
    {
      Signer(index, counter)
    }

    function Incoming(): Receiver
      reads this
    {
      Receiver(peers, lastChallenge)
    }

    constructor (config: Config, digest: Digest, maxPeers: nat, index: Bytes)
      requires |index| == 16
      ensures Valid() && Outgoing() == Signer(index, 0) && Incoming() == Receiver(map[], None)
      ensures this.config == config && this.digest == digest && this.maxPeers == maxPeers
    {
      this.config, this.digest, this.maxPeers := config, digest, maxPeers;
      this.index, counter, peers, lastChallenge := index, 0, map[], None;
    }

    /** Allocate the next (index, counter), frame the packet and append one tag per key. */
    method SignPacket(packet: Bytes, ep: Endpoints, draw: Option<Bytes>) returns (r: Result<Bytes, MacError>)
      requires Valid() && (draw.Some? ==> |draw.value| == 16)
      modifies `index, `counter
      ensures Valid()
      ensures Outgoing() == Sign(old(Outgoing()), packet, ep, draw).0
      ensures var body := Sign(old(Outgoing()), packet, ep, draw).1;
        r == if body.Err? then Err(body.error)
             else Ok(body.value + Trailer(config.keys, digest, AuthenticatedBytes(ep, body.value).value))
    {
      hide Tlvs, PcValue, Trailer;
      var end := BodyEnd(packet);
      if end.Err? { return Err(BadPacket); }
      if end.value != |packet| { return Err(BadPacket); }
      assert packet[4..end.value] == packet[4..];
      var body := TlvsLoop(packet[4..]);
      if body.Err? { return Err(BadPacket); }
      for i := 0 to |body.value|
        invariant forall k :: 0 <= k < i ==> body.value[k].type_ !in {PC, MAC}
        invariant Outgoing() == old(Outgoing())
      {
        if body.value[i].type_ == PC || body.value[i].type_ == MAC { return Err(BadPacket); }
      }
      assert Unsigned(packet);
      if counter == U32_MAX {
        if draw.None? { return Err(Entropy); }
        index, counter := draw.value, 0;
      }
      var signer := Signer(index, counter);
      counter := counter + 1;
      if |packet| + 18 > 0xffff { return Err(BadPacket); }
      var out := WithPc(packet, signer);
      var data := AuthenticatedBytes(ep, out);
      if data.Err? { return Err(data.error); }
      var trailer := AppendTags(data.value);
      r := Ok(out + trailer);
    }

    method AppendTags(data: Bytes) returns (out: Bytes)
      ensures out == Trailer(config.keys, digest, data)
    {
      out := [];
      for i := 0 to |config.keys|
        invariant out == Trailer(config.keys[..i], digest, data)
      {
        assert config.keys[..i + 1][..i] == config.keys[..i];
        var tag := digest(config.keys[i], data);
        out := out + ([MAC, |tag| % 0x100] + tag);
      }
      assert config.keys[..|config.keys|] == config.keys;
    }

    method Expire(now: u64)
      modifies `peers
      ensures Incoming() == Alive(old(Incoming()), now)
    {
      peers := map a | a in peers && now < peers[a].expires :: peers[a];
    }

    /** The whole receive path: expiry, authentication, admission, counters and challenges. */
    method ReceivePacket(packet: Bytes, ep: Endpoints, now: u64, draw: Option<Bytes>) returns (r: Reception)
      requires draw.Some? ==> |draw.value| == 16
      modifies `peers, `lastChallenge
      ensures (Incoming(), r) == Receive(old(Incoming()), config, digest, maxPeers, packet, ep, now, draw)
    {
      hide Tlvs, Settle, Alive, MacMatches;
      Expire(now);
      var end := BodyEnd(packet);
      if end.Err? { return Refuse; }
      if !config.acceptUnverified {
        var trailer := TlvsLoop(packet[end.value..]);
        if trailer.Err? { return Refuse; }
        var data := AuthenticatedBytes(ep, packet[..end.value]);
        if data.Err? { return Refuse; }
        var valid := CheckTags(trailer.value, data.value);
        if !valid { return Refuse; }
      }
      var body := TlvsLoop(packet[4..end.value]);
      if body.Err? { return Refuse; }
      if ep.source !in peers && |peers| >= maxPeers { return Reception(config.acceptUnverified, []); }
      if ep.source !in peers { peers := peers[ep.source := NewPeer(now)]; }
      r := SettlePacket(body.value, ep, now, draw);
    }

    method CheckTags(trailer: seq<Tv>, data: Bytes) returns (valid: bool)
      ensures valid == MacMatches(trailer, config.keys, digest, data)
    {
      valid := false;
      for k := 0 to |config.keys|
        invariant valid == exists j, i :: 0 <= j < k && 0 <= i < |trailer| && trailer[i].type_ == MAC
                                          && trailer[i].value == digest(config.keys[j], data)
      {
        var tag := digest(config.keys[k], data);
        for i := 0 to |trailer|
          invariant valid == exists j, l :: 0 <= j <= k && 0 <= l < |trailer| && (j < k || l < i)
                                            && trailer[l].type_ == MAC
                                              && trailer[l].value == digest(config.keys[j], data)
        {
          if trailer[i].type_ == MAC && trailer[i].value == tag { valid := true; }
        }
      }
    }

    method SettlePacket(body: seq<Tv>, ep: Endpoints, now: u64, draw: Option<Bytes>) returns (r: Reception)
      requires ep.source in peers && (draw.Some? ==> |draw.value| == 16)
      modifies `peers, `lastChallenge
      ensures (Incoming(), r) == Settle(old(Incoming()), config, body, ep, now, draw)
    {
      hide ScanOne, Control;
      var peer, multicast := peers[ep.source], Multicast(ep.destination.ip);
      var scan := NoScan;
      for i := 0 to |body|
        invariant scan == ScanAll(body[..i], peer.nonce, now, multicast)
      {
        assert body[..i + 1][..i] == body[..i];
        scan := ScanOne(scan, body[i], peer.nonce, now, multicast);
      }
      assert body[..|body|] == body;
      r := Reception(config.acceptUnverified, []);
      if scan.request.Some? && RateOk(peer.lastReply, now) {
        peer := peer.(lastReply := Some(now));
        r := r.(controls := [Control(REPLY, scan.request.value)]);
      }
      peers := peers[ep.source := peer];
      if scan.counter.None? { return; }
      var (pc, index) := scan.counter.value;
      if scan.success {
        peer := peer.(nonce := None, index := Some(index), unicast := pc, multicast := pc);
      } else if peer.index != Some(index) {
        if RateOk(lastChallenge, now) {
          if draw.None? { return Refuse; }
          peers := peers[ep.source := peer.(nonce := Some((draw.value, SatAdd(now, CHALLENGE_MS))))];
          lastChallenge := Some(now);
          r := r.(controls := r.controls + [Control(REQUEST, draw.value)]);
        }
        return;
      } else if multicast {
        if pc <= peer.multicast { return; }
        peer := peer.(multicast := pc);
      } else {
        if pc <= peer.unicast { return; }
        peer := peer.(unicast := pc);
      }
      peers := peers[ep.source := peer.(expires := SatAdd(now, EXPIRE_MS))];
      r := r.(accepted := true);
    }
  }
}
