/** Decoded and outbound TLVs (crates/babel-protocol/src/wire.rs). */
module WireTypes {
  import opened Model
  import opened WirePrefix

  const TLV_PADN: u8 := 1
  const TLV_ACK_REQ: u8 := 2
  const TLV_ACK: u8 := 3
  const TLV_HELLO: u8 := 4
  const TLV_IHU: u8 := 5
  const TLV_ROUTER_ID: u8 := 6
  const TLV_NEXT_HOP: u8 := 7
  const TLV_UPDATE: u8 := 8
  const TLV_ROUTE_REQUEST: u8 := 9
  const TLV_SEQNO_REQUEST: u8 := 10

  const SUBTLV_PADN: u8 := 1
  const SUBTLV_TIMESTAMP: u8 := 3
  const SUBTLV_SOURCE_PREFIX: u8 := 128

  datatype SubTlv =
    | SubPad1
    | SubPadN(padding: Bytes)
    | TimestampHello(timestamp: u32)
    | TimestampIhu(origin: u32, received: u32)
    | SubUnknown(type_: u8, value: Bytes)

  /** An inbound Update with its packet context resolved. */
  datatype ResolvedUpdate = ResolvedUpdate(
    key: Option<RouteKey>, routerId: Option<RouterId>, nextHop: Option<IpAddr>,
    intervalCs: u16, seqno: u16, metric: u16, v4ViaV6: bool, subTlvs: seq<SubTlv>)

  datatype Tlv =
    | Pad1
    | PadN(padding: Bytes)
    | AckRequest(nonce: u16, intervalCs: u16)
    | Ack(nonce: u16)
    | Hello(unicast: bool, seqno: u16, intervalCs: u16, subTlvs: seq<SubTlv>)
    | Ihu(address: Option<IpAddr>, rxcost: u16, intervalCs: u16, subTlvs: seq<SubTlv>)
    | RouterIdTlv(id: RouterId)
    | NextHop(nextHop: IpAddr)
    | Update(update: ResolvedUpdate)
    | RouteRequest(requestKey: Option<RouteKey>, subTlvs: seq<SubTlv>)
    | SeqnoRequest(key: RouteKey, seqno: u16, hopCount: u8, routerId: RouterId, subTlvs: seq<SubTlv>)
    | Unknown(type_: u8, value: Bytes)

  /** What the sender means; the packetizer adds Router-ID and Next-Hop TLVs. */
  datatype OutboundUpdate = OutboundUpdate(
    key: Option<RouteKey>, routerId: Option<RouterId>, nextHop: Option<IpAddr>,
    intervalCs: u16, seqno: u16, metric: u16, v4ViaV6: bool, subTlvs: seq<SubTlv>)

  datatype OutboundTlv =
    | OutPad1
    | OutPadN(padding: Bytes)
    | OutAckRequest(nonce: u16, intervalCs: u16)
    | OutAck(nonce: u16)
    | OutHello(unicast: bool, seqno: u16, intervalCs: u16, subTlvs: seq<SubTlv>)
    | OutIhu(address: Option<IpAddr>, rxcost: u16, intervalCs: u16, subTlvs: seq<SubTlv>)
    | OutUpdate(update: OutboundUpdate)
    | OutRouteRequest(requestKey: Option<RouteKey>, subTlvs: seq<SubTlv>)
    | OutSeqnoRequest(key: RouteKey, seqno: u16, hopCount: u8, routerId: RouterId, subTlvs: seq<SubTlv>)
    | OutUnknown(type_: u8, value: Bytes)

  // ----- framing shared by TLVs and sub-TLVs

  /** The first element of a non-empty TLV sequence. */
  datatype Frame = Padding(rest: Bytes) | Item(type_: u8, value: Bytes, rest: Bytes) | Truncated(type_: u8)

  function NextFrame(data: Bytes): (f: Frame)
    requires data != []
    ensures !f.Truncated? ==> |f.rest| < |data|
  {
    if data[0] == 0 then Padding(data[1..])
    else if |data| < 2 || |data| - 2 < data[1] then Truncated(data[0])
    else Item(data[0], data[2..2 + data[1]], data[2 + data[1]..])
  }

  /** The frame that starts at an offset, in terms of the whole buffer. */
  lemma FrameAt(data: Bytes, offset: nat)
    requires offset < |data|
    ensures NextFrame(data[offset..]) ==
      if data[offset] == 0 then Padding(data[offset + 1..])
      else if offset + 1 >= |data| || |data| - (offset + 2) < data[offset + 1] then Truncated(data[offset])
      else
        var len: nat := data[offset + 1];
        Item(data[offset], data[offset + 2..offset + 2 + len], data[offset + 2 + len..])
  {
    var here := data[offset..];
    if data[offset] == 0 {
      assert here[1..] == data[offset + 1..];
    } else if offset + 1 < |data| && |data| - (offset + 2) >= data[offset + 1] {
      var len: nat := data[offset + 1];
      assert here[2..2 + len] == data[offset + 2..offset + 2 + len];
      assert here[2 + len..] == data[offset + 2 + len..];
    }
  }

  /** A framed element keeps its meaning whatever follows it. */
  lemma NextFrameAppend(a: Bytes, b: Bytes)
    requires a != [] && !NextFrame(a).Truncated?
    ensures NextFrame(a + b) == NextFrame(a).(rest := NextFrame(a).rest + b)
  {
    assert (a + b)[0] == a[0];
    if a[0] == 0 {
      assert (a + b)[1..] == a[1..] + b;
    } else {
      var n: nat := 2 + a[1] as int;
      assert (a + b)[2..n] == a[2..n];
      assert (a + b)[n..] == a[n..] + b;
    }
  }

  /** A TLV written by `PutTlv` reads back as one element. */
  lemma NextFramePut(type_: u8, value: Bytes, rest: Bytes)
    requires type_ != 0 && |value| <= 255
    ensures NextFrame([type_, |value|] + value + rest) == Item(type_, value, rest)
  {
    var data := [type_, |value|] + value + rest;
    assert data[2..2 + |value|] == value;
    assert data[2 + |value|..] == rest;
  }
}
