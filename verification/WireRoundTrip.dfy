/** Encoding followed by decoding gives back what the sender meant. */
module WireRoundTrip {
  import opened Model
  import opened WirePrefix
  import opened WireTypes
  import opened WireDecode
  import opened WireEncode

  // ----- what is sent and what must arrive

  /** Sub-TLVs that mean the same on both sides in a given enclosing TLV. */
  predicate SubFits(v: SubTlv, context: SubContext) {
    match v
    case SubPad1 => true
    case SubPadN(_) => true
    case TimestampHello(_) => context.HelloContext?
    case TimestampIhu(_, _) => context.IhuContext?
    case SubUnknown(type_, _) => type_ != 0 && type_ != SUBTLV_PADN && type_ != SUBTLV_TIMESTAMP && type_ < 0x80
  }

  predicate SubsFit(values: seq<SubTlv>, context: SubContext) {
    forall i :: 0 <= i < |values| ==> SubFits(values[i], context)
  }

  /** Canonical keys (`RouteKey::new`). */
  predicate ValidKey(k: RouteKey) {
    && ValidNet(k.destination)
    && (k.source.Some? ==>
          && ValidNet(k.source.value) && k.source.value.bits != []
          && k.source.value.family == k.destination.family)
  }

  function NeededFamily(u: OutboundUpdate): Family
    requires u.key.Some?
  {
    if u.v4ViaV6 || u.key.value.destination.family == V6 then V6 else V4
  }

  /** Updates the engine emits for a packet sent from `source`. */
  predicate UpdateFits(u: OutboundUpdate, source: IpAddr) {
    if u.key.None? then u.metric == INFINITY && !u.v4ViaV6 && u.subTlvs == []
    else
      && ValidKey(u.key.value)
      && (u.v4ViaV6 ==> u.key.value.destination.family == V4)
      && SubsFit(u.subTlvs, PrefixContext(AeForKey(u.key.value, u.v4ViaV6)))
      && (u.metric != INFINITY ==>
            && u.routerId.Some? && ValidRouterId(u.routerId.value)
            && (if u.nextHop.Some? then Representable(u.nextHop.value) && u.nextHop.value.family == NeededFamily(u)
                else source.family == NeededFamily(u)))
  }

  predicate Fits(tlv: OutboundTlv, source: IpAddr) {
    match tlv
    case OutPad1 => true
    case OutPadN(_) => true
    case OutAckRequest(_, _) => true
    case OutAck(_) => true
    case OutHello(_, _, _, subs) => SubsFit(subs, HelloContext)
    case OutIhu(address, _, _, subs) =>
      SubsFit(subs, IhuContext) && (address.Some? ==> Representable(address.value))
    case OutUpdate(u) => UpdateFits(u, source)
    case OutRouteRequest(key, subs) =>
      match key {
        case None => SubsFit(subs, PrefixContext(Wildcard))
        case Some(k) => ValidKey(k) && SubsFit(subs, PrefixContext(AeForKey(k, false)))
      }
    case OutSeqnoRequest(key, _, _, routerId, subs) =>
      ValidKey(key) && ValidRouterId(routerId) && SubsFit(subs, PrefixContext(AeForKey(key, false)))
    case OutUnknown(type_, _) => type_ > TLV_SEQNO_REQUEST
  }

  /** A received Update says what was meant.  Finite ones resolve Router-ID and
      next hop; a retraction only promises key, sequence number, interval and metric. */
  predicate MeansUpdate(u: OutboundUpdate, source: IpAddr, got: ResolvedUpdate) {
    && got.key == u.key && got.intervalCs == u.intervalCs && got.seqno == u.seqno && got.metric == u.metric
    && got.v4ViaV6 == u.v4ViaV6 && got.subTlvs == u.subTlvs
    && (if u.metric == INFINITY then got.nextHop.None?
        else got.routerId == u.routerId && got.nextHop == Some(if u.nextHop.Some? then u.nextHop.value else source))
  }

  predicate Means(tlv: OutboundTlv, source: IpAddr, got: Tlv) {
    match tlv
    case OutPad1 => got == Pad1
    case OutPadN(padding) => got == PadN(padding)
    case OutAckRequest(nonce, intervalCs) => got == AckRequest(nonce, intervalCs)
    case OutAck(nonce) => got == Ack(nonce)
    case OutHello(unicast, seqno, intervalCs, subs) => got == Hello(unicast, seqno, intervalCs, subs)
    case OutIhu(address, rxcost, intervalCs, subs) => got == Ihu(address, rxcost, intervalCs, subs)
    case OutUpdate(u) => got.Update? && MeansUpdate(u, source, got.update)
    case OutRouteRequest(key, subs) => got == RouteRequest(key, subs)
    case OutSeqnoRequest(key, seqno, hopCount, routerId, subs) =>
      got == SeqnoRequest(key, seqno, hopCount, routerId, subs)
    case OutUnknown(type_, value) => got == Unknown(type_, value)
  }

  /** Decoded TLVs without the context TLVs the packetizer inserted. */
  function Visible(tlvs: seq<Tlv>): seq<Tlv> {
    if tlvs == [] then [] else Shown(tlvs[0]) + Visible(tlvs[1..])
  }

  function Shown(t: Tlv): seq<Tlv> { if t.RouterIdTlv? || t.NextHop? then [] else [t] }

  predicate AllMean(sent: seq<OutboundTlv>, source: IpAddr, got: seq<Tlv>) {
    |sent| == |got| && forall i :: 0 <= i < |sent| ==> Means(sent[i], source, got[i])
  }

  lemma {:induction false} VisibleAppend(a: seq<Tlv>, b: seq<Tlv>)
    ensures Visible(a + b) == Visible(a) + Visible(b)
  {
    hide Shown;
    if a == [] {
      assert a + b == b;
    } else {
      VisibleAppend(a[1..], b);
      assert (a + b)[1..] == a[1..] + b;
    }
  }

  // ----- sub-TLVs

  lemma SubTlvRoundTrip(v: SubTlv, context: SubContext, destination: Option<IpNet>, acc: SubTlvs, rest: Bytes)
    requires SubFits(v, context) && EncodeSubTlv(v).Ok?
    ensures var data := EncodeSubTlv(v).value + rest;
      data != [] && DecodeSubTlvs(data, context, destination, acc)
                 == DecodeSubTlvs(rest, context, destination, acc.(values := acc.values + [v]))
  {
    hide DecodePrefix, SourcePrefixOf;
    var data := EncodeSubTlv(v).value + rest;
    if v == SubPad1 {
      assert data[1..] == rest;
    } else {
      var type_, body := data[0], EncodeSubTlv(v).value[2..];
      NextFramePut(type_, body, rest);
      assert [type_, |body|] + body + rest == data;
      SubBody(v, context, destination, acc, body);
    }
  }

  lemma SubBody(v: SubTlv, context: SubContext, destination: Option<IpNet>, acc: SubTlvs, body: Bytes)
    requires SubFits(v, context) && EncodeSubTlv(v).Ok? && v != SubPad1
    requires body == EncodeSubTlv(v).value[2..]
    ensures AddSubTlv(acc, EncodeSubTlv(v).value[0], body, context, destination)
         == acc.(values := acc.values + [v])
  {
    hide DecodePrefix, SourcePrefixOf;
    match v
    case TimestampHello(t) =>
      assert body == ToBe32(t);
    case TimestampIhu(origin, received) =>
      assert body == ToBe32(origin) + ToBe32(received);
      assert body[4..] == ToBe32(received);
      Be32Front(ToBe32(origin), ToBe32(received));
    case _ =>
  }

  lemma {:induction false} SubTlvsRoundTrip(values: seq<SubTlv>, context: SubContext, destination: Option<IpNet>,
                                            acc: SubTlvs)
    requires SubsFit(values, context) && EncodeSubTlvs(values).Ok?
    ensures DecodeSubTlvs(EncodeSubTlvs(values).value, context, destination, acc)
         == Ok(acc.(values := acc.values + values))
    decreases |values|
  {
    hide AddSubTlv, EncodeSubTlv, SubFits, NextFrame;
    if values == [] {
      assert acc.values + values == acc.values;
    } else {
      var rest := EncodeSubTlvs(values[1..]).value;
      assert SubFits(values[0], context);
      SubTlvRoundTrip(values[0], context, destination, acc, rest);
      var acc' := acc.(values := acc.values + [values[0]]);
      SubTlvsRoundTrip(values[1..], context, destination, acc');
      assert acc.values + [values[0]] + values[1..] == acc.values + values;
    }
  }

  /** Source prefix and sub-TLVs after a destination. */
  lemma TailRoundTrip(key: RouteKey, ae: AddressEncoding, values: seq<SubTlv>)
    requires ValidKey(key) && AeCarries(ae, key.destination.family)
    requires SubsFit(values, PrefixContext(ae)) && EncodeTail(key.source, ae, values).Ok?
    ensures DecodeSubTlvs(EncodeTail(key.source, ae, values).value, PrefixContext(ae), Some(key.destination), NoSubTlvs)
         == Ok(SubTlvs(values, key.source, false))
  {
    hide DecodeSubTlvs, EncodeSubTlvs, SubFits;
    var context, destination := PrefixContext(ae), Some(key.destination);
    var subs := EncodeSubTlvs(values).value;
    var acc := SubTlvs([], key.source, false);
    SubTlvsRoundTrip(values, context, destination, acc);
    assert [] + values == values;
    if key.source.None? {
      assert [] + subs == subs;
    } else {
      SourcePrefixFirst(key, ae, subs);
    }
  }

  lemma SourcePrefixFirst(key: RouteKey, ae: AddressEncoding, rest: Bytes)
    requires ValidKey(key) && AeCarries(ae, key.destination.family) && key.source.Some?
    requires EncodeSourcePrefix(key.source, ae).Ok?
    ensures DecodeSubTlvs(EncodeSourcePrefix(key.source, ae).value + rest, PrefixContext(ae), Some(key.destination),
                          NoSubTlvs)
         == DecodeSubTlvs(rest, PrefixContext(ae), Some(key.destination), SubTlvs([], key.source, false))
  {
    hide PrefixWireBytes;
    var s := key.source.value;
    var body := [|s.bits|] + PrefixWireBytes(s, ae);
    var data := EncodeSourcePrefix(key.source, ae).value + rest;
    NextFramePut(SUBTLV_SOURCE_PREFIX, body, rest);
    assert data == [SUBTLV_SOURCE_PREFIX, |body|] + body + rest;
    SourcePrefixBody(key, ae, body);
  }

  lemma SourcePrefixBody(key: RouteKey, ae: AddressEncoding, body: Bytes)
    requires ValidKey(key) && AeCarries(ae, key.destination.family) && key.source.Some?
    requires body == [|key.source.value.bits|] + PrefixWireBytes(key.source.value, ae)
    ensures AddSubTlv(NoSubTlvs, SUBTLV_SOURCE_PREFIX, body, PrefixContext(ae), Some(key.destination))
         == SubTlvs([], key.source, false)
  {
    hide DecodePrefix, PrefixWireBytes, PrefixEncodedLen;
    var s := key.source.value;
    PrefixRoundTrip(s, ae);
    var wire := PrefixWireBytes(s, ae);
    assert body[1..1 + |wire|] == wire;
  }

  // ----- one TLV at a time

  lemma SingleTlv(type_: u8, value: Bytes, state: ParserState)
    requires type_ != 0 && |value| <= 255 && DecodeTlv(type_, value, state).Ok?
    ensures var step := DecodeTlv(type_, value, state).value;
            DecodeBody([type_, |value|] + value, state) == Ok((Listed(step.0), step.1))
  {
    hide DecodeTlv;
    var data := [type_, |value|] + value;
    NextFramePut(type_, value, []);
    assert data + [] == data;
    var step := DecodeTlv(type_, value, state).value;
    assert DecodeBody([], step.1) == Ok(([], step.1));
    assert Listed(step.0) + [] == Listed(step.0);
  }

  /** Which decoder a TLV type selects. */
  lemma Dispatch(type_: u8, value: Bytes, state: ParserState)
    ensures type_ == TLV_HELLO ==> DecodeTlv(type_, value, state) == DecodeHello(value, state)
    ensures type_ == TLV_IHU ==> DecodeTlv(type_, value, state) == DecodeIhu(value, state)
    ensures type_ == TLV_ROUTER_ID ==> DecodeTlv(type_, value, state) == DecodeRouterId(value, state)
    ensures type_ == TLV_NEXT_HOP ==> DecodeTlv(type_, value, state) == DecodeNextHop(value, state)
    ensures type_ == TLV_UPDATE ==> DecodeTlv(type_, value, state) == DecodeUpdate(value, state)
    ensures type_ == TLV_ROUTE_REQUEST ==> DecodeTlv(type_, value, state) == DecodeRouteRequest(value, state)
    ensures type_ == TLV_SEQNO_REQUEST ==> DecodeTlv(type_, value, state) == DecodeSeqnoRequest(value, state)
  {
    hide DecodeHello, DecodeIhu, DecodeRouterId, DecodeNextHop, DecodeUpdate, DecodeRouteRequest, DecodeSeqnoRequest;
  }

  lemma HelloRoundTrip(unicast: bool, seqno: u16, intervalCs: u16, subs: seq<SubTlv>, state: ParserState)
    requires SubsFit(subs, HelloContext) && EncodeSubTlvs(subs).Ok?
    ensures var value := [if unicast then 0x80 else 0, 0] + ToBe16(seqno) + ToBe16(intervalCs)
      + EncodeSubTlvs(subs).value;
            DecodeTlv(TLV_HELLO, value, state) == Ok((Some(Hello(unicast, seqno, intervalCs, subs)), state))
  {
    hide DecodeTlv, DecodeIhu, DecodeRouterId, DecodeNextHop, DecodeUpdate, DecodeRouteRequest, DecodeSeqnoRequest;
    hide DecodeSubTlvs, EncodeSubTlvs, SubFits;
    var tail := EncodeSubTlvs(subs).value;
    var value := [if unicast then 0x80 else 0, 0] + ToBe16(seqno) + ToBe16(intervalCs) + tail;
    Dispatch(TLV_HELLO, value, state);
    assert value[6..] == tail;
    assert value[4..] == ToBe16(intervalCs) + tail;
    assert value[2..] == ToBe16(seqno) + (ToBe16(intervalCs) + tail);
    SubTlvsRoundTrip(subs, HelloContext, None, NoSubTlvs);
    assert [] + subs == subs;
  }

  lemma IhuRoundTrip(address: Option<IpAddr>, rxcost: u16, intervalCs: u16, subs: seq<SubTlv>, state: ParserState)
    requires SubsFit(subs, IhuContext) && EncodeSubTlvs(subs).Ok? && intervalCs != 0
    requires address.Some? ==> Representable(address.value)
    ensures var (ae, octets) := if address.None? then (Wildcard, []) else EncodeAddress(address.value);
            var value := [AeOctet(ae), 0] + ToBe16(rxcost) + ToBe16(intervalCs) + octets + EncodeSubTlvs(subs).value;
            DecodeTlv(TLV_IHU, value, state) == Ok((Some(Ihu(address, rxcost, intervalCs, subs)), state))
  {
    hide DecodeTlv, DecodeIhu, DecodeSubTlvs, EncodeSubTlvs, SubFits, EncodeAddress, DecodeAddress, Representable,
         AeOctet, ToBe16;
    if address.Some? { EncodedFamily(address.value); AddressRoundTrip(address.value); }
    var (ae, octets) := if address.None? then (Wildcard, []) else EncodeAddress(address.value);
    var tail := EncodeSubTlvs(subs).value;
    Dispatch(TLV_IHU, [AeOctet(ae), 0] + ToBe16(rxcost) + ToBe16(intervalCs) + octets + tail, state);
    SubTlvsRoundTrip(subs, IhuContext, None, NoSubTlvs);
    assert [] + subs == subs;
    if address.None? { assert DecodeAddress(Wildcard, octets) == None by { WildcardHasNoAddress(octets); } }
    IhuReads(ae, octets, rxcost, intervalCs, tail, state);
  }

  /** The decoder finds each field of an IHU where the encoder put it. */
  lemma IhuReads(ae: AddressEncoding, octets: Bytes, rxcost: u16, intervalCs: u16, tail: Bytes, state: ParserState)
    requires ae != Ipv4ViaIpv6 && |octets| == AddressLen(ae) && intervalCs != 0
    ensures var value := [AeOctet(ae), 0] + ToBe16(rxcost) + ToBe16(intervalCs) + octets + tail;
            var sub := DecodeSubTlvs(tail, IhuContext, None, NoSubTlvs);
            var subs := if sub.Ok? then sub.value.values else [];
            DecodeIhu(value, state) == Accepted(sub, Ihu(DecodeAddress(ae, octets), rxcost, intervalCs, subs), state)
  {
    hide DecodeSubTlvs, DecodeAddress, AddressLen, AeOctet, Accepted, ToBe16;
    var value := [AeOctet(ae), 0] + ToBe16(rxcost) + ToBe16(intervalCs) + octets + tail;
    assert value[6..6 + |octets|] == octets;
    assert value[6 + |octets|..] == tail;
    assert value[4..] == ToBe16(intervalCs) + (octets + tail);
    assert value[2..] == ToBe16(rxcost) + value[4..];
    Be16Front(ToBe16(intervalCs), octets + tail);
    Be16Front(ToBe16(rxcost), value[4..]);
  }

  lemma WildcardHasNoAddress(data: Bytes)
    ensures DecodeAddress(Wildcard, data) == None
  {
  }

  lemma EncodedFamily(a: IpAddr)
    requires Representable(a)
    ensures ValidAddress(a) && EncodeAddress(a).0 in {Ipv4, Ipv6, Ipv6LinkLocal}
  {
  }

  lemma NoSubTlvsDecode()
    ensures DecodeSubTlvs([], HelloContext, None, NoSubTlvs) == Ok(NoSubTlvs)
  {
  }

  lemma RouterIdRoundTrip(id: RouterId, state: ParserState)
    requires ValidRouterId(id)
    ensures DecodeTlv(TLV_ROUTER_ID, [0, 0] + id.octets, state)
      == Ok((Some(RouterIdTlv(id)), state.(routerId := Some(id))))
  {
    NoSubTlvsDecode();
    hide DecodeSubTlvs;
    hide DecodeTlv, DecodeHello, DecodeIhu, DecodeNextHop, DecodeUpdate, DecodeRouteRequest, DecodeSeqnoRequest;
    var value := [0, 0] + id.octets;
    Dispatch(TLV_ROUTER_ID, value, state);
    assert value[2..10] == id.octets && value[10..] == [];
  }

  lemma NextHopRoundTrip(a: IpAddr, state: ParserState)
    requires Representable(a)
    ensures var (ae, octets) := EncodeAddress(a);
      DecodeTlv(TLV_NEXT_HOP, [AeOctet(ae), 0] + octets, state)
      == Ok((Some(NextHop(a)), if a.family == V4 then state.(nextHopV4 := Some(a)) else state.(nextHopV6 := Some(a))))
  {
    NoSubTlvsDecode();
    hide DecodeSubTlvs, AeOctet;
    hide DecodeTlv, DecodeHello, DecodeIhu, DecodeRouterId, DecodeUpdate, DecodeRouteRequest, DecodeSeqnoRequest;
    hide EncodeAddress, DecodeAddress, Representable;
    EncodedFamily(a);
    AddressRoundTrip(a);
    var (ae, octets) := EncodeAddress(a);
    var value := [AeOctet(ae), 0] + octets;
    Dispatch(TLV_NEXT_HOP, value, state);
    assert value[2..2 + |octets|] == octets && value[2 + |octets|..] == [];
    assert AeFromOctet(value[0]) == Some(ae);
  }

  lemma AckRoundTrips(nonce: u16, intervalCs: u16, state: ParserState)
    ensures DecodeTlv(TLV_ACK, ToBe16(nonce), state) == Ok((Some(Ack(nonce)), state))
    ensures intervalCs != 0 ==>
      DecodeTlv(TLV_ACK_REQ, [0, 0] + ToBe16(nonce) + ToBe16(intervalCs), state)
      == Ok((Some(AckRequest(nonce, intervalCs)), state))
  {
    var value := [0, 0] + ToBe16(nonce) + ToBe16(intervalCs);
    assert value[6..] == [] && value[4..] == ToBe16(intervalCs);
    assert value[2..] == ToBe16(nonce) + ToBe16(intervalCs);
    assert ToBe16(nonce)[2..] == [];
  }

  lemma WildcardRequestRoundTrip(subs: seq<SubTlv>, state: ParserState)
    requires SubsFit(subs, PrefixContext(Wildcard)) && EncodeSubTlvs(subs).Ok?
    ensures DecodeTlv(TLV_ROUTE_REQUEST, [0, 0] + EncodeSubTlvs(subs).value, state)
         == Ok((Some(RouteRequest(None, subs)), state))
  {
    hide DecodeTlv, DecodeHello, DecodeIhu, DecodeRouterId, DecodeNextHop, DecodeUpdate, DecodeSeqnoRequest;
    hide DecodeSubTlvs, EncodeSubTlvs, SubFits;
    var value := [0, 0] + EncodeSubTlvs(subs).value;
    Dispatch(TLV_ROUTE_REQUEST, value, state);
    assert value[2..] == EncodeSubTlvs(subs).value;
    SubTlvsRoundTrip(subs, PrefixContext(Wildcard), None, NoSubTlvs);
    assert [] + subs == subs;
  }

  lemma KeyComesBack(key: RouteKey)
    requires ValidKey(key)
    ensures NewRouteKey(key.destination, key.source) == Some(key)
  {
  }

  lemma RouteRequestRoundTrip(key: RouteKey, subs: seq<SubTlv>, state: ParserState)
    requires ValidKey(key) && SubsFit(subs, PrefixContext(AeForKey(key, false)))
    requires EncodeTail(key.source, AeForKey(key, false), subs).Ok?
    ensures var ae := AeForKey(key, false);
            var value := [AeOctet(ae), |key.destination.bits|] + PrefixWireBytes(key.destination, ae)
                         + EncodeTail(key.source, ae, subs).value;
            DecodeTlv(TLV_ROUTE_REQUEST, value, state) == Ok((Some(RouteRequest(Some(key), subs)), state))
  {
    hide DecodeTlv, DecodeHello, DecodeIhu, DecodeRouterId, DecodeNextHop, DecodeUpdate, DecodeSeqnoRequest;
    hide DecodeSubTlvs, EncodeTail, SubFits, DecodePrefix, PrefixWireBytes, PrefixEncodedLen, NewRouteKey;
    var ae := AeForKey(key, false);
    var wire, tail := PrefixWireBytes(key.destination, ae), EncodeTail(key.source, ae, subs).value;
    var value := [AeOctet(ae), |key.destination.bits|] + wire + tail;
    Dispatch(TLV_ROUTE_REQUEST, value, state);
    PrefixRoundTrip(key.destination, ae);
    TailRoundTrip(key, ae, subs);
    KeyComesBack(key);
    assert value[2..2 + |wire|] == wire && value[2 + |wire|..] == tail;
  }

  lemma ValidIdHasEight(id: RouterId)
    requires ValidRouterId(id)
    ensures |id.octets| == 8
  {
  }

  lemma SeqnoRequestRoundTrip(key: RouteKey, seqno: u16, hopCount: u8, routerId: RouterId, subs: seq<SubTlv>,
                              state: ParserState)
    requires ValidKey(key) && SubsFit(subs, PrefixContext(AeForKey(key, false))) && hopCount != 0
    requires ValidRouterId(routerId) && EncodeTail(key.source, AeForKey(key, false), subs).Ok?
    ensures var ae := AeForKey(key, false);
            var value := [AeOctet(ae), |key.destination.bits|] + ToBe16(seqno) + [hopCount, 0] + routerId.octets
                         + PrefixWireBytes(key.destination, ae) + EncodeTail(key.source, ae, subs).value;
            DecodeTlv(TLV_SEQNO_REQUEST, value, state)
            == Ok((Some(SeqnoRequest(key, seqno, hopCount, routerId, subs)), state))
  {
    hide DecodeTlv, DecodeHello, DecodeIhu, DecodeRouterId, DecodeNextHop, DecodeUpdate, DecodeRouteRequest;
    hide DecodeSubTlvs, EncodeTail, SubFits, DecodePrefix, PrefixWireBytes, PrefixEncodedLen, NewRouteKey, ToBe16,
         ValidRouterId;
    var ae := AeForKey(key, false);
    var wire, tail := PrefixWireBytes(key.destination, ae), EncodeTail(key.source, ae, subs).value;
    ValidIdHasEight(routerId);
    var head := [AeOctet(ae), |key.destination.bits|] + ToBe16(seqno) + [hopCount, 0] + routerId.octets;
    var value := head + wire + tail;
    Dispatch(TLV_SEQNO_REQUEST, value, state);
    PrefixRoundTrip(key.destination, ae);
    TailRoundTrip(key, ae, subs);
    KeyComesBack(key);
    assert value[14..14 + |wire|] == wire && value[14 + |wire|..] == tail;
    assert value[6..14] == routerId.octets;
    assert value[2..] == ToBe16(seqno) + value[4..];
    Be16Front(ToBe16(seqno), value[4..]);
  }

  // ----- Updates

  lemma HeaderFields(ae: AddressEncoding, plen: u8, u: OutboundUpdate, rest: Bytes)
    ensures var value := UpdateHeader(ae, plen, u) + rest;
      && value[0] == AeOctet(ae) && value[1] == 0 && value[2] == plen && value[3] == 0
      && Be16(value[4..]) == u.intervalCs && Be16(value[6..]) == u.seqno && Be16(value[8..]) == u.metric
  {
    hide ToBe16;
    var value := UpdateHeader(ae, plen, u) + rest;
    assert value[4..] == ToBe16(u.intervalCs) + value[6..];
    assert value[6..] == ToBe16(u.seqno) + value[8..];
    assert value[8..] == ToBe16(u.metric) + value[10..];
    Be16Front(ToBe16(u.intervalCs), value[6..]);
    Be16Front(ToBe16(u.seqno), value[8..]);
    Be16Front(ToBe16(u.metric), value[10..]);
  }

  /** The Update TLV itself, in a context that resolves its Router-ID and next hop. */
  lemma UpdateBodyRoundTrip(u: OutboundUpdate, source: IpAddr, state: ParserState)
    requires UpdateFits(u, source) && u.key.Some? && u.intervalCs != 0
    requires EncodeTail(u.key.value.source, AeForKey(u.key.value, u.v4ViaV6), u.subTlvs).Ok?
    requires u.metric != INFINITY ==>
      && state.routerId == u.routerId
      && (if NeededFamily(u) == V6 then state.nextHopV6 else state.nextHopV4)
         == Some(if u.nextHop.Some? then u.nextHop.value else source)
    ensures var ae := AeForKey(u.key.value, u.v4ViaV6);
      var value := UpdateHeader(ae, |u.key.value.destination.bits|, u)
                   + PrefixWireBytes(u.key.value.destination, ae)
                   + EncodeTail(u.key.value.source, ae, u.subTlvs).value;
      var r := DecodeTlv(TLV_UPDATE, value, state);
      && r.Ok? && r.value.1 == state && r.value.0.Some?
      && r.value.0.value.Update? && MeansUpdate(u, source, r.value.0.value.update)
  {
    hide DecodeTlv, DecodeHello, DecodeIhu, DecodeRouterId, DecodeNextHop, DecodeRouteRequest, DecodeSeqnoRequest;
    hide DecodeSubTlvs, EncodeTail, SubFits, DecodePrefix, PrefixWireBytes, PrefixEncodedLen, NewRouteKey,
         UpdateHeader, AfterPrefix, FinishUpdate, MeansUpdate, Be16, UpdateFits;
    UpdateFitsParts(u, source);
    var key := u.key.value;
    var ae, plen := AeForKey(key, u.v4ViaV6), |key.destination.bits|;
    var wire, tail := PrefixWireBytes(key.destination, ae), EncodeTail(key.source, ae, u.subTlvs).value;
    var value := UpdateHeader(ae, plen, u) + wire + tail;
    Dispatch(TLV_UPDATE, value, state);
    assert value == UpdateHeader(ae, plen, u) + (wire + tail);
    HeaderFields(ae, plen, u, wire + tail);
    PrefixRoundTrip(key.destination, ae);
    assert value[10..10 + |wire|] == wire && value[10 + |wire|..] == tail;
    var previous := if ae in state.prefixes then Some(state.prefixes[ae]) else None;
    ExplicitIgnoresDefault(ae, plen, wire, previous);
    NoFlagsNoContext(state, ae, key.destination);
    FinishRoundTrip(u, source, state, value, tail);
  }

  lemma UpdateFitsParts(u: OutboundUpdate, source: IpAddr)
    requires UpdateFits(u, source) && u.key.Some?
    ensures ValidKey(u.key.value) && AeCarries(AeForKey(u.key.value, u.v4ViaV6), u.key.value.destination.family)
    ensures SubsFit(u.subTlvs, PrefixContext(AeForKey(u.key.value, u.v4ViaV6)))
  {
  }

  lemma ExplicitIgnoresDefault(ae: AddressEncoding, plen: u8, wire: Bytes, previous: Option<Bytes>)
    requires PrefixEncodedLen(ae, plen) == Some(|wire|)
    ensures DecodePrefix(ae, plen, 0, wire, previous) == DecodePrefix(ae, plen, 0, wire, None)
  {
    DecodeExplicit(ae, plen, wire, previous);
    DecodeExplicit(ae, plen, wire, None);
  }

  lemma NoFlagsNoContext(state: ParserState, ae: AddressEncoding, prefix: IpNet)
    ensures AfterPrefix(state, ae, 0, prefix) == state
  {
  }

  lemma FinishRoundTrip(u: OutboundUpdate, source: IpAddr, state: ParserState, value: Bytes, tail: Bytes)
    requires UpdateFits(u, source) && u.key.Some? && |value| >= 10
    requires EncodeTail(u.key.value.source, AeForKey(u.key.value, u.v4ViaV6), u.subTlvs) == Ok(tail)
    requires Be16(value[4..]) == u.intervalCs && Be16(value[6..]) == u.seqno && Be16(value[8..]) == u.metric
    requires u.metric != INFINITY ==>
      && state.routerId == u.routerId
      && (if NeededFamily(u) == V6 then state.nextHopV6 else state.nextHopV4)
         == Some(if u.nextHop.Some? then u.nextHop.value else source)
    ensures var r := FinishUpdate(value, AeForKey(u.key.value, u.v4ViaV6), u.key.value.destination, tail, state);
      && r.Ok? && r.value.1 == state && r.value.0.Some?
      && r.value.0.value.Update? && MeansUpdate(u, source, r.value.0.value.update)
  {
    hide DecodeSubTlvs, EncodeTail, SubFits, NewRouteKey, Be16;
    var key := u.key.value;
    TailRoundTrip(key, AeForKey(key, u.v4ViaV6), u.subTlvs);
    KeyComesBack(key);
  }

  lemma WildcardRoundTrip(u: OutboundUpdate, source: IpAddr, state: ParserState)
    requires UpdateFits(u, source) && u.key.None? && u.intervalCs != 0
    ensures var r := DecodeTlv(TLV_UPDATE, UpdateHeader(Wildcard, 0, u), state);
      && r.Ok? && r.value.1 == state && r.value.0.Some?
      && r.value.0.value.Update? && MeansUpdate(u, source, r.value.0.value.update)
  {
    hide DecodeTlv, DecodeHello, DecodeIhu, DecodeRouterId, DecodeNextHop, DecodeRouteRequest, DecodeSeqnoRequest;
    hide UpdateHeader, Be16;
    var value := UpdateHeader(Wildcard, 0, u);
    Dispatch(TLV_UPDATE, value, state);
    assert value + [] == value;
    HeaderFields(Wildcard, 0, u, []);
    assert value[10..] == [];
  }

  // ----- context on both sides

  /** The next hop of a family: the last one named, or the packet's source. */
  function Believed(named: Option<IpAddr>, source: IpAddr, family: Family): Option<IpAddr> {
    if named.Some? then named else if source.family == family then Some(source) else None
  }

  /** The receiver's context agrees with what the sender believes it to be. */
  predicate Agrees(ctx: EncodeContext, source: IpAddr, state: ParserState) {
    && (ctx.routerId.Some? ==> state.routerId == ctx.routerId)
    && state.nextHopV4 == Believed(ctx.nextHopV4, source, V4) && state.nextHopV6 == Believed(ctx.nextHopV6, source, V6)
  }

  lemma FreshAgrees(source: IpAddr)
    ensures Agrees(FreshContext, source, NewParserState(source))
  {
  }

  /** `requires_fresh_next_hop_context`: an Update that relies on the packet's
      source cannot follow an explicit next hop of the same family. */
  predicate NeedsFreshContext(tlv: OutboundTlv, ctx: EncodeContext) {
    && tlv.OutUpdate?
    && tlv.update.metric != INFINITY && tlv.update.nextHop.None?
    && (if tlv.update.v4ViaV6 || (tlv.update.key.Some? && tlv.update.key.value.destination.family == V6)
        then ctx.nextHopV6.Some? else ctx.nextHopV4.Some?)
  }

  /** The octets decode to exactly this outbound TLV and keep both contexts in step. */
  predicate Delivers(bytes: Bytes, tlv: OutboundTlv, ctx: EncodeContext, source: IpAddr, state: ParserState) {
    var r := DecodeBody(bytes, state);
    && r.Ok?
    && |Visible(r.value.0)| == 1 && Means(tlv, source, Visible(r.value.0)[0])
    && Agrees(NextContext(tlv, ctx), source, r.value.1)
  }

  lemma OneVisible(t: Tlv)
    requires !t.RouterIdTlv? && !t.NextHop?
    ensures Visible([t]) == [t]
  {
    assert [t][1..] == [];
  }

  lemma PlainTlvDelivers(tlv: OutboundTlv, ctx: EncodeContext, source: IpAddr, state: ParserState,
                         type_: u8, value: Bytes, got: Tlv)
    requires !tlv.OutUpdate? && type_ != 0 && |value| <= 255 && Agrees(ctx, source, state)
    requires DecodeTlv(type_, value, state) == Ok((Some(got), state)) && Means(tlv, source, got)
    ensures Delivers([type_, |value|] + value, tlv, ctx, source, state)
  {
    hide DecodeTlv, DecodeBody;
    SingleTlv(type_, value, state);
    OneVisible(got);
  }

  lemma NonUpdateDelivers(tlv: OutboundTlv, ctx: EncodeContext, source: IpAddr, state: ParserState)
    requires !tlv.OutUpdate? && Fits(tlv, source) && EncodeTlv(tlv, ctx).Ok? && Agrees(ctx, source, state)
    ensures Delivers(EncodeTlv(tlv, ctx).value, tlv, ctx, source, state)
  {
    hide DecodeTlv, DecodeBody, Delivers, Agrees, SubFits, EncodeTail, EncodeSubTlvs, ToBe16;
    match tlv
    case OutPad1 => PadDelivers(ctx, source, state);
    case OutPadN(padding) =>
      PaddingDecodes(padding, state);
      PlainTlvDelivers(tlv, ctx, source, state, TLV_PADN, padding, PadN(padding));
    case OutAckRequest(nonce, intervalCs) =>
      AckRoundTrips(nonce, intervalCs, state);
      PlainTlvDelivers(tlv, ctx, source, state, TLV_ACK_REQ, [0, 0] + ToBe16(nonce) + ToBe16(intervalCs),
                       AckRequest(nonce, intervalCs));
    case OutAck(nonce) =>
      AckRoundTrips(nonce, 1, state);
      PlainTlvDelivers(tlv, ctx, source, state, TLV_ACK, ToBe16(nonce), Ack(nonce));
    case OutHello(unicast, seqno, intervalCs, subs) =>
      HelloRoundTrip(unicast, seqno, intervalCs, subs, state);
      PlainTlvDelivers(tlv, ctx, source, state, TLV_HELLO,
        [if unicast then 0x80 else 0, 0] + ToBe16(seqno) + ToBe16(intervalCs) + EncodeSubTlvs(subs).value,
        Hello(unicast, seqno, intervalCs, subs));
    case OutIhu(address, rxcost, intervalCs, subs) =>
      IhuDelivers(tlv, ctx, source, state);
    case OutRouteRequest(key, subs) =>
      RouteRequestDelivers(tlv, ctx, source, state);
    case OutSeqnoRequest(key, seqno, hopCount, routerId, subs) =>
      SeqnoRequestDelivers(tlv, ctx, source, state);
    case OutUnknown(type_, value) =>
      UnknownDecodes(type_, value, state);
      PlainTlvDelivers(tlv, ctx, source, state, type_, value, Unknown(type_, value));
  }

  lemma PadDelivers(ctx: EncodeContext, source: IpAddr, state: ParserState)
    requires Agrees(ctx, source, state)
    ensures Delivers([0], OutPad1, ctx, source, state)
  {
    assert [0][1..] == [];
    assert DecodeBody([], state) == Ok(([], state));
    assert DecodeBody([0], state) == Ok(([Pad1] + [], state));
    OneVisible(Pad1);
    assert [Pad1] + [] == [Pad1];
  }

  lemma PaddingDecodes(padding: Bytes, state: ParserState)
    ensures DecodeTlv(TLV_PADN, padding, state) == Ok((Some(PadN(padding)), state))
  {
  }

  lemma UnknownDecodes(type_: u8, value: Bytes, state: ParserState)
    requires type_ > TLV_SEQNO_REQUEST
    ensures DecodeTlv(type_, value, state) == Ok((Some(Unknown(type_, value)), state))
  {
  }

  lemma IhuDelivers(tlv: OutboundTlv, ctx: EncodeContext, source: IpAddr, state: ParserState)
    requires tlv.OutIhu? && Fits(tlv, source) && EncodeTlv(tlv, ctx).Ok? && Agrees(ctx, source, state)
    ensures Delivers(EncodeTlv(tlv, ctx).value, tlv, ctx, source, state)
  {
    hide DecodeTlv, DecodeBody, Delivers, Agrees, SubFits, EncodeSubTlvs, ToBe16, EncodeAddress, Representable;
    var OutIhu(address, rxcost, intervalCs, subs) := tlv;
    IhuRoundTrip(address, rxcost, intervalCs, subs, state);
    var (ae, octets) := if address.None? then (Wildcard, []) else EncodeAddress(address.value);
    PlainTlvDelivers(tlv, ctx, source, state, TLV_IHU,
      [AeOctet(ae), 0] + ToBe16(rxcost) + ToBe16(intervalCs) + octets + EncodeSubTlvs(subs).value,
      Ihu(address, rxcost, intervalCs, subs));
  }

  lemma RouteRequestDelivers(tlv: OutboundTlv, ctx: EncodeContext, source: IpAddr, state: ParserState)
    requires tlv.OutRouteRequest? && Fits(tlv, source) && EncodeTlv(tlv, ctx).Ok? && Agrees(ctx, source, state)
    ensures Delivers(EncodeTlv(tlv, ctx).value, tlv, ctx, source, state)
  {
    hide DecodeTlv, DecodeBody, Delivers, Agrees, SubFits, EncodeSubTlvs, EncodeTail, PrefixWireBytes;
    var subs := tlv.subTlvs;
    match tlv.requestKey
    case None =>
      WildcardRequestRoundTrip(subs, state);
      PlainTlvDelivers(tlv, ctx, source, state, TLV_ROUTE_REQUEST, [0, 0] + EncodeSubTlvs(subs).value,
                       RouteRequest(None, subs));
    case Some(key) =>
      RouteRequestRoundTrip(key, subs, state);
      var ae := AeForKey(key, false);
      PlainTlvDelivers(tlv, ctx, source, state, TLV_ROUTE_REQUEST,
        [AeOctet(ae), |key.destination.bits|] + PrefixWireBytes(key.destination, ae)
        + EncodeTail(key.source, ae, subs).value, RouteRequest(Some(key), subs));
  }

  lemma SeqnoRequestDelivers(tlv: OutboundTlv, ctx: EncodeContext, source: IpAddr, state: ParserState)
    requires tlv.OutSeqnoRequest? && Fits(tlv, source) && EncodeTlv(tlv, ctx).Ok? && Agrees(ctx, source, state)
    ensures Delivers(EncodeTlv(tlv, ctx).value, tlv, ctx, source, state)
  {
    hide DecodeTlv, DecodeBody, Delivers, Agrees, SubFits, EncodeTail, PrefixWireBytes, ToBe16;
    var OutSeqnoRequest(key, seqno, hopCount, routerId, subs) := tlv;
    SeqnoRequestRoundTrip(key, seqno, hopCount, routerId, subs, state);
    var ae := AeForKey(key, false);
    PlainTlvDelivers(tlv, ctx, source, state, TLV_SEQNO_REQUEST,
      [AeOctet(ae), |key.destination.bits|] + ToBe16(seqno) + [hopCount, 0] + routerId.octets
      + PrefixWireBytes(key.destination, ae) + EncodeTail(key.source, ae, subs).value,
      SeqnoRequest(key, seqno, hopCount, routerId, subs));
  }

  // ----- Updates with their context TLVs

  /** Octets that change the context and show nothing. */
  predicate Sets(bytes: Bytes, state: ParserState, state': ParserState) {
    var r := DecodeBody(bytes, state);
    r.Ok? && Visible(r.value.0) == [] && r.value.1 == state'
  }

  lemma RouterIdPartSets(u: OutboundUpdate, ctx: EncodeContext, source: IpAddr, state: ParserState)
    requires UpdateFits(u, source) && RouterIdPart(u, ctx).Ok? && Agrees(ctx, source, state)
    ensures Sets(RouterIdPart(u, ctx).value, state, if Announces(u) then state.(routerId := u.routerId) else state)
  {
    hide DecodeTlv, SubFits;
    var bytes := RouterIdPart(u, ctx).value;
    if bytes != [] {
      var id := u.routerId.value;
      RouterIdRoundTrip(id, state);
      SingleTlv(TLV_ROUTER_ID, [0, 0] + id.octets, state);
      HiddenTlv(RouterIdTlv(id));
    }
  }

  lemma HiddenTlv(t: Tlv)
    requires t.RouterIdTlv? || t.NextHop?
    ensures Visible([t]) == []
  {
    assert [t][1..] == [];
  }

  function AfterNextHop(u: OutboundUpdate, state: ParserState): ParserState {
    if u.metric == INFINITY || u.nextHop.None? then state
    else if u.nextHop.value.family == V4 then state.(nextHopV4 := u.nextHop)
    else state.(nextHopV6 := u.nextHop)
  }

  lemma NextHopPartSets(u: OutboundUpdate, ctx: EncodeContext, source: IpAddr, state: ParserState)
    requires UpdateFits(u, source) && NextHopPart(u, ctx).Ok?
    requires state.nextHopV4 == Believed(ctx.nextHopV4, source, V4)
    requires state.nextHopV6 == Believed(ctx.nextHopV6, source, V6)
    ensures Sets(NextHopPart(u, ctx).value, state, AfterNextHop(u, state))
  {
    hide DecodeTlv, SubFits, EncodeAddress;
    var bytes := NextHopPart(u, ctx).value;
    if bytes != [] {
      var a := u.nextHop.value;
      NextHopRoundTrip(a, state);
      var (ae, octets) := EncodeAddress(a);
      SingleTlv(TLV_NEXT_HOP, [AeOctet(ae), 0] + octets, state);
      HiddenTlv(NextHop(a));
    }
  }

  lemma SetsThen(a: Bytes, b: Bytes, s0: ParserState, s1: ParserState, s2: ParserState)
    requires Sets(a, s0, s1) && Sets(b, s1, s2)
    ensures Sets(a + b, s0, s2)
  {
    hide DecodeBody;
    DecodeBodyAppend(a, b, s0);
    VisibleAppend(DecodeBody(a, s0).value.0, DecodeBody(b, s1).value.0);
  }

  lemma UpdatePartDelivers(u: OutboundUpdate, source: IpAddr, state: ParserState)
    requires UpdateFits(u, source) && u.intervalCs != 0 && EncodeUpdate(u).Ok?
    requires u.metric != INFINITY ==>
      && state.routerId == u.routerId
      && (if NeededFamily(u) == V6 then state.nextHopV6 else state.nextHopV4)
         == Some(if u.nextHop.Some? then u.nextHop.value else source)
    ensures var r := DecodeBody(EncodeUpdate(u).value, state);
      r.Ok? && r.value.1 == state && |Visible(r.value.0)| == 1 && Means(OutUpdate(u), source, Visible(r.value.0)[0])
  {
    hide DecodeTlv, DecodeBody, UpdateHeader, EncodeTail, PrefixWireBytes, UpdateFits, MeansUpdate;
    WildcardIsRetraction(u, source);
    if u.key.None? {
      WildcardRoundTrip(u, source, state);
      var value := UpdateHeader(Wildcard, 0, u);
      SingleTlv(TLV_UPDATE, value, state);
      OneVisible(DecodeTlv(TLV_UPDATE, value, state).value.0.value);
    } else {
      UpdateBodyRoundTrip(u, source, state);
      var key := u.key.value;
      var ae := AeForKey(key, u.v4ViaV6);
      var value := UpdateHeader(ae, |key.destination.bits|, u) + PrefixWireBytes(key.destination, ae)
                   + EncodeTail(key.source, ae, u.subTlvs).value;
      SingleTlv(TLV_UPDATE, value, state);
      OneVisible(DecodeTlv(TLV_UPDATE, value, state).value.0.value);
    }
  }

  lemma WildcardIsRetraction(u: OutboundUpdate, source: IpAddr)
    requires UpdateFits(u, source)
    ensures u.key.None? ==> u.metric == INFINITY
  {
  }

  lemma UpdateDelivers(u: OutboundUpdate, ctx: EncodeContext, source: IpAddr, state: ParserState)
    requires UpdateFits(u, source) && EncodeTlv(OutUpdate(u), ctx).Ok? && Agrees(ctx, source, state)
    requires !NeedsFreshContext(OutUpdate(u), ctx)
    ensures Delivers(EncodeTlv(OutUpdate(u), ctx).value, OutUpdate(u), ctx, source, state)
  {
    hide DecodeTlv, DecodeBody, EncodeUpdate, RouterIdPart, NextHopPart, MeansUpdate, SubFits, Means;
    var tlv := OutUpdate(u);
    UpdateIsThreeParts(u, ctx);
    var a, b, c := RouterIdPart(u, ctx).value, NextHopPart(u, ctx).value, EncodeUpdate(u).value;
    var s1 := if Announces(u) then state.(routerId := u.routerId) else state;
    var s2 := AfterNextHop(u, s1);
    RouterIdPartSets(u, ctx, source, state);
    NextHopPartSets(u, ctx, source, s1);
    SetsThen(a, b, state, s1, s2);
    assert EncodeTlv(tlv, ctx).value == (a + b) + c by { assert a + (b + c) == (a + b) + c; }
    UpdatePartDelivers(u, source, s2);
    DecodeBodyAppend(a + b, c, state);
    VisibleAppend(DecodeBody(a + b, state).value.0, DecodeBody(c, s2).value.0);
    var whole := DecodeBody((a + b) + c, state).value;
    assert Visible(whole.0) == Visible(DecodeBody(c, s2).value.0);
  }

  /** One outbound TLV arrives as meant and leaves both contexts in agreement. */
  lemma TlvDelivers(tlv: OutboundTlv, ctx: EncodeContext, source: IpAddr, state: ParserState)
    requires Fits(tlv, source) && EncodeTlv(tlv, ctx).Ok? && Agrees(ctx, source, state)
    requires !NeedsFreshContext(tlv, ctx)
    ensures Delivers(EncodeTlv(tlv, ctx).value, tlv, ctx, source, state)
  {
    hide *;
    if tlv.OutUpdate? {
      assert UpdateFits(tlv.update, source) by { FitsUpdate(tlv, source); }
      UpdateDelivers(tlv.update, ctx, source, state);
    } else {
      NonUpdateDelivers(tlv, ctx, source, state);
    }
  }

  lemma FitsUpdate(tlv: OutboundTlv, source: IpAddr)
    requires tlv.OutUpdate? && Fits(tlv, source)
    ensures UpdateFits(tlv.update, source)
  {
  }

  // ----- runs of TLVs

  /** No Update in the run relies on the source after an explicit next hop. */
  predicate ContextFlows(tlvs: seq<OutboundTlv>, ctx: EncodeContext)
    decreases |tlvs|
  {
    tlvs != [] ==> !NeedsFreshContext(tlvs[0], ctx) && ContextFlows(tlvs[1..], NextContext(tlvs[0], ctx))
  }

  lemma {:induction false} RunDelivers(tlvs: seq<OutboundTlv>, ctx: EncodeContext, source: IpAddr, state: ParserState)
    requires forall t :: t in tlvs ==> Fits(t, source)
    requires ContextFlows(tlvs, ctx) && EncodeAll(tlvs, ctx).Ok? && Agrees(ctx, source, state)
    ensures var r := DecodeBody(EncodeAll(tlvs, ctx).value, state);
      && r.Ok? && AllMean(tlvs, source, Visible(r.value.0))
      && Agrees(ContextAfterAll(tlvs, ctx), source, r.value.1)
    decreases |tlvs|
  {
    hide EncodeTlv, NextContext, Fits, NeedsFreshContext, Agrees, Means, DecodeTlv;
    if tlvs != [] {
      var bytes, rest := EncodeTlv(tlvs[0], ctx).value, EncodeAll(tlvs[1..], NextContext(tlvs[0], ctx)).value;
      TlvDelivers(tlvs[0], ctx, source, state);
      var first := DecodeBody(bytes, state).value;
      RunDelivers(tlvs[1..], NextContext(tlvs[0], ctx), source, first.1);
      DecodeBodyAppend(bytes, rest, state);
      var second := DecodeBody(rest, first.1).value;
      VisibleAppend(first.0, second.0);
    }
  }
}
