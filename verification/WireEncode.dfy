/** Encoding of semantic TLVs with outbound packet context
    (crates/babel-protocol/src/wire/encode.rs). */
module WireEncode {
  import opened Model
  import opened WirePrefix
  import opened WireTypes

  type Encoded = Result<Bytes, WireError>

  function Join(a: Encoded, b: Encoded): Encoded {
    if a.Err? then a else if b.Err? then b else Ok(a.value + b.value)
  }

  // ----- sub-TLVs

  function EncodeSubTlv(v: SubTlv): Encoded {
    match v
    case SubPad1 => Ok([0])
    case SubPadN(padding) =>
      if !AllZero(padding) then Err(InvalidTlv(SUBTLV_PADN)) else PutTlv(SUBTLV_PADN, padding)
    case TimestampHello(t) => PutTlv(SUBTLV_TIMESTAMP, ToBe32(t))
    case TimestampIhu(origin, received) => PutTlv(SUBTLV_TIMESTAMP, ToBe32(origin) + ToBe32(received))
    case SubUnknown(type_, value) => PutTlv(type_, value)
  }

  function EncodeSubTlvs(values: seq<SubTlv>): Encoded {
    if values == [] then Ok([]) else Join(EncodeSubTlv(values[0]), EncodeSubTlvs(values[1..]))
  }

  function EncodeSourcePrefix(source: Option<IpNet>, ae: AddressEncoding): Encoded {
    match source
    case None => Ok([])
    case Some(s) =>
      if |s.bits| > 255 then Err(BodyTooLarge)
      else PutTlv(SUBTLV_SOURCE_PREFIX, [|s.bits|] + PrefixWireBytes(s, ae))
  }

  /** The source prefix of a key, then the remaining sub-TLVs. */
  function EncodeTail(source: Option<IpNet>, ae: AddressEncoding, subs: seq<SubTlv>): Encoded {
    Join(EncodeSourcePrefix(source, ae), EncodeSubTlvs(subs))
  }

  /** A TLV whose value is a fixed part followed by an encoded tail. */
  function PutWithTail(type_: u8, fixed: Bytes, tail: Encoded): Encoded {
    if tail.Err? then tail else PutTlv(type_, fixed + tail.value)
  }

  // ----- context

  datatype EncodeContext = EncodeContext(
    routerId: Option<RouterId>, nextHopV4: Option<IpAddr>, nextHopV6: Option<IpAddr>)

  const FreshContext := EncodeContext(None, None, None)

  function EncodeRouterId(id: RouterId): Encoded { PutTlv(TLV_ROUTER_ID, [0, 0] + id.octets) }

  function EncodeNextHop(a: IpAddr): Encoded {
    if !ValidAddress(a) then Err(InvalidTlv(TLV_NEXT_HOP))
    else
      var (ae, octets) := EncodeAddress(a);
      PutTlv(TLV_NEXT_HOP, [AeOctet(ae), 0] + octets)
  }

  predicate Announces(u: OutboundUpdate) { u.key.Some? && u.metric != INFINITY }

  predicate UsesV6Context(u: OutboundUpdate) {
    u.v4ViaV6 || (u.nextHop.Some? && u.nextHop.value.family == V6)
  }

  /** Router-ID TLV, only when the context does not already say so. */
  function RouterIdPart(u: OutboundUpdate, ctx: EncodeContext): Encoded {
    if !Announces(u) then Ok([])
    else if u.routerId.None? then Err(MissingRouterId)
    else if ctx.routerId == u.routerId then Ok([])
    else EncodeRouterId(u.routerId.value)
  }

  /** Next-Hop TLV for an explicit next hop the context does not hold yet. */
  function NextHopPart(u: OutboundUpdate, ctx: EncodeContext): Encoded {
    if u.metric == INFINITY || u.nextHop.None? then Ok([])
    else if (if UsesV6Context(u) then ctx.nextHopV6 else ctx.nextHopV4) == u.nextHop then Ok([])
    else EncodeNextHop(u.nextHop.value)
  }

  function ContextAfter(u: OutboundUpdate, ctx: EncodeContext): EncodeContext {
    var c1 := if Announces(u) then ctx.(routerId := u.routerId) else ctx;
    if u.metric == INFINITY || u.nextHop.None? then c1
    else if UsesV6Context(u) then c1.(nextHopV6 := u.nextHop)
    else c1.(nextHopV4 := u.nextHop)
  }

  function UpdateHeader(ae: AddressEncoding, plen: u8, u: OutboundUpdate): (h: Bytes)
    ensures |h| == 10
  {
    [AeOctet(ae), 0, plen, 0] + ToBe16(u.intervalCs) + ToBe16(u.seqno) + ToBe16(u.metric)
  }

  function EncodeUpdate(u: OutboundUpdate): Encoded {
    match u.key
    case None => PutTlv(TLV_UPDATE, UpdateHeader(Wildcard, 0, u))
    case Some(key) =>
      var ae := AeForKey(key, u.v4ViaV6);
      if |key.destination.bits| > 255 then Err(BodyTooLarge)
      else
        PutWithTail(TLV_UPDATE,
          UpdateHeader(ae, |key.destination.bits|, u) + PrefixWireBytes(key.destination, ae),
          EncodeTail(key.source, ae, u.subTlvs))
  }

  // ----- one outbound TLV

  function EncodeIhu(address: Option<IpAddr>, rxcost: u16, intervalCs: u16, subs: seq<SubTlv>): Encoded {
    if intervalCs == 0 || (address.Some? && !ValidAddress(address.value)) then Err(InvalidTlv(TLV_IHU))
    else
      var (ae, octets) := if address.None? then (Wildcard, []) else EncodeAddress(address.value);
      PutWithTail(TLV_IHU, [AeOctet(ae), 0] + ToBe16(rxcost) + ToBe16(intervalCs) + octets, EncodeSubTlvs(subs))
  }

  function EncodeRouteRequest(key: Option<RouteKey>, subs: seq<SubTlv>): Encoded {
    match key
    case None => PutWithTail(TLV_ROUTE_REQUEST, [0, 0], EncodeSubTlvs(subs))
    case Some(k) =>
      var ae := AeForKey(k, false);
      if |k.destination.bits| > 255 then Err(BodyTooLarge)
      else
        PutWithTail(TLV_ROUTE_REQUEST,
          [AeOctet(ae), |k.destination.bits|] + PrefixWireBytes(k.destination, ae), EncodeTail(k.source, ae, subs))
  }

  function EncodeSeqnoRequest(key: RouteKey, seqno: u16, hopCount: u8, routerId: RouterId, subs: seq<SubTlv>): Encoded {
    var ae := AeForKey(key, false);
    if hopCount == 0 then Err(InvalidTlv(TLV_SEQNO_REQUEST))
    else if |key.destination.bits| > 255 then Err(BodyTooLarge)
    else
      PutWithTail(TLV_SEQNO_REQUEST,
        [AeOctet(ae), |key.destination.bits|] + ToBe16(seqno) + [hopCount, 0] + routerId.octets
        + PrefixWireBytes(key.destination, ae),
        EncodeTail(key.source, ae, subs))
  }

  /** The octets one outbound TLV adds to a packet with the given context. */
  function EncodeTlv(tlv: OutboundTlv, ctx: EncodeContext): Encoded {
    match tlv
    case OutPad1 => Ok([0])
    case OutPadN(padding) =>
      if !AllZero(padding) then Err(InvalidTlv(TLV_PADN)) else PutTlv(TLV_PADN, padding)
    case OutAckRequest(nonce, intervalCs) =>
      if intervalCs == 0 then Err(InvalidTlv(TLV_ACK_REQ))
      else PutTlv(TLV_ACK_REQ, [0, 0] + ToBe16(nonce) + ToBe16(intervalCs))
    case OutAck(nonce) => PutTlv(TLV_ACK, ToBe16(nonce))
    case OutHello(unicast, seqno, intervalCs, subs) =>
      PutWithTail(TLV_HELLO,
        [if unicast then 0x80 else 0, 0] + ToBe16(seqno) + ToBe16(intervalCs), EncodeSubTlvs(subs))
    case OutIhu(address, rxcost, intervalCs, subs) => EncodeIhu(address, rxcost, intervalCs, subs)
    case OutUpdate(u) =>
      if u.intervalCs == 0 then Err(InvalidTlv(TLV_UPDATE))
      else Join(RouterIdPart(u, ctx), Join(NextHopPart(u, ctx), EncodeUpdate(u)))
    case OutRouteRequest(key, subs) => EncodeRouteRequest(key, subs)
    case OutSeqnoRequest(key, seqno, hopCount, routerId, subs) =>
      EncodeSeqnoRequest(key, seqno, hopCount, routerId, subs)
    case OutUnknown(type_, value) => PutTlv(type_, value)
  }

  function NextContext(tlv: OutboundTlv, ctx: EncodeContext): EncodeContext {
    if tlv.OutUpdate? then ContextAfter(tlv.update, ctx) else ctx
  }

  /** A run of TLVs in one packet. */
  function EncodeAll(tlvs: seq<OutboundTlv>, ctx: EncodeContext): Encoded
    decreases |tlvs|
  {
    if tlvs == [] then Ok([])
    else Join(EncodeTlv(tlvs[0], ctx), EncodeAll(tlvs[1..], NextContext(tlvs[0], ctx)))
  }

  function ContextAfterAll(tlvs: seq<OutboundTlv>, ctx: EncodeContext): EncodeContext
    decreases |tlvs|
  {
    if tlvs == [] then ctx else ContextAfterAll(tlvs[1..], NextContext(tlvs[0], ctx))
  }

  lemma {:induction false} EncodeAllAppend(a: seq<OutboundTlv>, b: seq<OutboundTlv>, ctx: EncodeContext)
    ensures ContextAfterAll(a + b, ctx) == ContextAfterAll(b, ContextAfterAll(a, ctx))
    ensures EncodeAll(a, ctx).Ok? ==>
      EncodeAll(a + b, ctx) == Join(EncodeAll(a, ctx), EncodeAll(b, ContextAfterAll(a, ctx)))
    decreases |a|
  {
    hide EncodeTlv, NextContext;
    if a == [] {
      assert a + b == b;
      if EncodeAll(b, ctx).Ok? { assert [] + EncodeAll(b, ctx).value == EncodeAll(b, ctx).value; }
    } else {
      var next := NextContext(a[0], ctx);
      assert (a + b)[1..] == a[1..] + b;
      EncodeAllAppend(a[1..], b, next);
      if EncodeAll(a, ctx).Ok? && EncodeAll(b, ContextAfterAll(a, ctx)).Ok? {
        var x, y, z := EncodeTlv(a[0], ctx).value, EncodeAll(a[1..], next).value,
                       EncodeAll(b, ContextAfterAll(a, ctx)).value;
        assert x + (y + z) == x + y + z;
      }
    }
  }

  // ----- the encoder as it runs: append to a buffer, update the context

  class Encoder {
    var out: Bytes
    var context: EncodeContext

    constructor (initial: EncodeContext)
      ensures out == [] && context == initial
    {
      out, context := [], initial;
    }

    /** `encode_outbound_tlv`; on error the buffer may hold a partial TLV. */
    method Put(tlv: OutboundTlv) returns (r: Result<(), WireError>)
      modifies this
      ensures var e := EncodeTlv(tlv, old(context));
        && (r.Ok? <==> e.Ok?)
        && (r.Err? ==> r.error == e.error)
        && (r.Ok? ==> out == old(out) + e.value && context == NextContext(tlv, old(context)))
    {
      hide PutTlv, EncodeTlv, EncodeUpdate, EncodeRouterId, EncodeNextHop, EncodeIhu, EncodeRouteRequest,
           EncodeSeqnoRequest, PutWithTail;
      if !tlv.OutUpdate? {
        var e := EncodeTlv(tlv, context);
        if e.Err? { return Err(e.error); }
        out := out + e.value;
        return Ok(());
      }
      var u := tlv.update;
      ghost var start, ctx := out, context;
      UpdateIsThreeParts(u, ctx);
      if u.intervalCs == 0 { return Err(InvalidTlv(TLV_UPDATE)); }
      if u.key.Some? && u.metric != INFINITY {
        if u.routerId.None? { return Err(MissingRouterId); }
        if context.routerId != u.routerId {
          var id := EncodeRouterId(u.routerId.value);
          if id.Err? { return Err(id.error); }
          out := out + id.value;
          context := context.(routerId := u.routerId);
        }
      }
      assert RouterIdPart(u, ctx).Ok? && out == start + RouterIdPart(u, ctx).value;
      ghost var middle := out;
      if u.metric != INFINITY && u.nextHop.Some? {
        var active := if UsesV6Context(u) then context.nextHopV6 else context.nextHopV4;
        if active != u.nextHop {
          var hop := EncodeNextHop(u.nextHop.value);
          if hop.Err? { return Err(hop.error); }
          out := out + hop.value;
          if UsesV6Context(u) { context := context.(nextHopV6 := u.nextHop); }
          else { context := context.(nextHopV4 := u.nextHop); }
        }
      }
      assert NextHopPart(u, ctx).Ok? && out == middle + NextHopPart(u, ctx).value;
      var body := EncodeUpdate(u);
      if body.Err? { return Err(body.error); }
      out := out + body.value;
      r := Ok(());
    }
  }

  lemma UpdateIsThreeParts(u: OutboundUpdate, ctx: EncodeContext)
    ensures EncodeTlv(OutUpdate(u), ctx) ==
      if u.intervalCs == 0 then Err(InvalidTlv(TLV_UPDATE))
      else Join(RouterIdPart(u, ctx), Join(NextHopPart(u, ctx), EncodeUpdate(u)))
  {
  }
}
