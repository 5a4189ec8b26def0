/** Packet framing, TLV validation and inbound context resolution
    (crates/babel-protocol/src/wire/decode.rs). */
module WireDecode {
  import opened Model
  import opened WirePrefix
  import opened WireTypes

  datatype ParserState = ParserState(
    routerId: Option<RouterId>, prefixes: map<AddressEncoding, Bytes>,
    nextHopV4: Option<IpAddr>, nextHopV6: Option<IpAddr>)

  function NewParserState(source: IpAddr): ParserState {
    if source.family == V4 then ParserState(None, map[], Some(source), None)
    else ParserState(None, map[], None, Some(source))
  }

  // ----- sub-TLVs

  datatype SubContext = HelloContext | IhuContext | PrefixContext(ae: AddressEncoding)

  datatype SubTlvs = SubTlvs(values: seq<SubTlv>, sourcePrefix: Option<IpNet>, mandatoryUnknown: bool)

  const NoSubTlvs := SubTlvs([], None, false)

  /** The source prefix a sub-TLV body carries, if the enclosing TLV may have one. */
  function SourcePrefixOf(acc: SubTlvs, body: Bytes, context: SubContext, destination: Option<IpNet>): Option<IpNet> {
    if !context.PrefixContext? then None
    else if acc.sourcePrefix.Some? || context.ae == Wildcard || body == [] || body[0] == 0 then None
    else
      var size := PrefixEncodedLen(context.ae, body[0]);
      if size.None? || |body| < 1 + size.value then None
      else
        var prefix := DecodePrefix(context.ae, body[0], 0, body[1..1 + size.value], None);
        if prefix.Some? && destination.Some? && destination.value.family != prefix.value.family then None else prefix
  }

  function AddSubTlv(acc: SubTlvs, type_: u8, body: Bytes, context: SubContext, destination: Option<IpNet>): SubTlvs {
    if type_ == SUBTLV_PADN then acc.(values := acc.values + [SubPadN(body)])
    else if type_ == SUBTLV_TIMESTAMP then
      if context.HelloContext? && |body| >= 4 then acc.(values := acc.values + [TimestampHello(Be32(body))])
      else if context.IhuContext? && |body| >= 8 then
        acc.(values := acc.values + [TimestampIhu(Be32(body), Be32(body[4..]))])
      else acc.(values := acc.values + [SubUnknown(type_, body)])
    else if type_ == SUBTLV_SOURCE_PREFIX then
      var prefix := SourcePrefixOf(acc, body, context, destination);
      if prefix.None? then acc.(mandatoryUnknown := true) else acc.(sourcePrefix := prefix)
    else
      SubTlvs(acc.values + [SubUnknown(type_, body)], acc.sourcePrefix, acc.mandatoryUnknown || type_ >= 0x80)
  }

  function DecodeSubTlvs(data: Bytes, context: SubContext, destination: Option<IpNet>, acc: SubTlvs)
    : Result<SubTlvs, WireError>
    decreases |data|
  {
    if data == [] then Ok(acc)
    else
      match NextFrame(data)
      case Padding(rest) => DecodeSubTlvs(rest, context, destination, acc.(values := acc.values + [SubPad1]))
      case Item(type_, body, rest) =>
        DecodeSubTlvs(rest, context, destination, AddSubTlv(acc, type_, body, context, destination))
      case Truncated(type_) => Err(InvalidTlv(type_))
  }

  method DecodeSubTlvsLoop(data: Bytes, context: SubContext, destination: Option<IpNet>)
    returns (r: Result<SubTlvs, WireError>)
    ensures r == DecodeSubTlvs(data, context, destination, NoSubTlvs)
  {
    hide AddSubTlv, NextFrame;
    var acc, offset := NoSubTlvs, 0;
    assert data[0..] == data;
    while offset < |data|
      invariant 0 <= offset <= |data|
      invariant DecodeSubTlvs(data, context, destination, NoSubTlvs)
             == DecodeSubTlvs(data[offset..], context, destination, acc)
    {
      var type_ := data[offset];
      FrameAt(data, offset);
      offset := offset + 1;
      if type_ == 0 {
        acc := acc.(values := acc.values + [SubPad1]);
        continue;
      }
      if offset >= |data| { return Err(InvalidTlv(type_)); }
      var len: nat := data[offset];
      offset := offset + 1;
      if |data| - offset < len { return Err(InvalidTlv(type_)); }
      var body := data[offset..offset + len];
      offset := offset + len;
      acc := AddSubTlv(acc, type_, body, context, destination);
    }
    assert data[offset..] == [];
    r := Ok(acc);
  }

  // ----- one TLV

  type Step = Result<(Option<Tlv>, ParserState), WireError>

  /** The TLV, unless an unknown mandatory sub-TLV discards it. */
  function Accepted(sub: Result<SubTlvs, WireError>, tlv: Tlv, state: ParserState): Step {
    match sub
    case Err(e) => Err(e)
    case Ok(s) => Ok((if s.mandatoryUnknown then None else Some(tlv), state))
  }

  function DecodeHello(value: Bytes, state: ParserState): Step {
    if |value| < 6 then Err(InvalidTlv(TLV_HELLO))
    else
      var sub := DecodeSubTlvs(value[6..], HelloContext, None, NoSubTlvs);
      Accepted(sub, Hello(value[0] >= 0x80, Be16(value[2..]), Be16(value[4..]),
                          if sub.Ok? then sub.value.values else []), state)
  }

  function DecodeIhu(value: Bytes, state: ParserState): Step {
    if |value| < 6 then Err(InvalidTlv(TLV_IHU))
    else
      var ae := AeFromOctet(value[0]);
      if ae.None? || ae.value == Ipv4ViaIpv6 then Ok((None, state))
      else
        var n := AddressLen(ae.value);
        if |value| < 6 + n || Be16(value[4..]) == 0 then Err(InvalidTlv(TLV_IHU))
        else
          var address := DecodeAddress(ae.value, value[6..6 + n]);
          var sub := DecodeSubTlvs(value[6 + n..], IhuContext, None, NoSubTlvs);
          Accepted(sub, Ihu(address, Be16(value[2..]), Be16(value[4..]),
                            if sub.Ok? then sub.value.values else []), state)
  }

  function DecodeRouterId(value: Bytes, state: ParserState): Step {
    if |value| < 10 then Err(InvalidTlv(TLV_ROUTER_ID))
    else
      var id := NewRouterId(value[2..10]);
      if id.None? then Err(InvalidTlv(TLV_ROUTER_ID))
      else
        Accepted(DecodeSubTlvs(value[10..], HelloContext, None, NoSubTlvs), RouterIdTlv(id.value),
                 state.(routerId := id))
  }

  function DecodeNextHop(value: Bytes, state: ParserState): Step {
    if |value| < 2 then Err(InvalidTlv(TLV_NEXT_HOP))
    else
      var ae := AeFromOctet(value[0]);
      if ae.None? || ae.value == Wildcard || ae.value == Ipv4ViaIpv6 then Ok((None, state))
      else
        var n := AddressLen(ae.value);
        if |value| < 2 + n then Err(InvalidTlv(TLV_NEXT_HOP))
        else
          var address := DecodeAddress(ae.value, value[2..2 + n]);
          if address.None? then Err(InvalidTlv(TLV_NEXT_HOP))
          else
            var state' := if address.value.family == V4 then state.(nextHopV4 := address)
                          else state.(nextHopV6 := address);
            Accepted(DecodeSubTlvs(value[2 + n..], HelloContext, None, NoSubTlvs), NextHop(address.value), state')
  }

  function DecodeWildcardUpdate(value: Bytes, state: ParserState): Step
    requires |value| >= 10
  {
    if Be16(value[8..]) != INFINITY || value[2] != 0 || value[3] != 0 then Ok((None, state))
    else
      var sub := DecodeSubTlvs(value[10..], PrefixContext(Wildcard), None, NoSubTlvs);
      if sub.Err? then Err(sub.error)
      else if sub.value.mandatoryUnknown || sub.value.sourcePrefix.Some? then Ok((None, state))
      else
        Ok((Some(Update(ResolvedUpdate(None, None, None, Be16(value[4..]), Be16(value[6..]), INFINITY, false,
                                       sub.value.values))), state))
  }

  /** Parser context after an Update's prefix is known: flag 0x80 makes it the
      default prefix of its encoding, flag 0x40 takes the Router-ID from it. */
  function AfterPrefix(state: ParserState, ae: AddressEncoding, flags: u8, prefix: IpNet): ParserState {
    var wire := PrefixWireBytes(prefix, ae);
    var padded := if |wire| <= AddressLen(ae) then wire + Zeros(AddressLen(ae) - |wire|) else wire[..AddressLen(ae)];
    var s1 := if flags >= 0x80 then state.(prefixes := state.prefixes[ae := padded]) else state;
    if flags / 64 % 2 == 1 then
      s1.(routerId := if ValidNet(prefix) then NewRouterId(RouterIdFromPrefix(prefix)) else None)
    else s1
  }

  /** The rest of an Update once its destination prefix is known. */
  function FinishUpdate(value: Bytes, ae: AddressEncoding, prefix: IpNet, subs: Bytes, state: ParserState): Step
    requires |value| >= 10
  {
    var sub := DecodeSubTlvs(subs, PrefixContext(ae), Some(prefix), NoSubTlvs);
    if sub.Err? then Err(sub.error)
    else if sub.value.mandatoryUnknown then Ok((None, state))
    else
      var key := NewRouteKey(prefix, sub.value.sourcePrefix);
      var metric := Be16(value[8..]);
      var nextHop :=
        if metric == INFINITY then None
        else if ae == Ipv4ViaIpv6 || prefix.family == V6 then state.nextHopV6
        else state.nextHopV4;
      if key.None? then Err(InvalidTlv(TLV_UPDATE))
      else if metric != INFINITY && (state.routerId.None? || nextHop.None?) then Ok((None, state))
      else
        Ok((Some(Update(ResolvedUpdate(key, state.routerId, nextHop, Be16(value[4..]), Be16(value[6..]), metric,
                                       ae == Ipv4ViaIpv6, sub.value.values))), state))
  }

  function DecodeUpdate(value: Bytes, state: ParserState): Step {
    if |value| < 10 then Err(InvalidTlv(TLV_UPDATE))
    else
      var ae := AeFromOctet(value[0]);
      if ae.None? then Ok((None, state))
      else if Be16(value[4..]) == 0 then Err(InvalidTlv(TLV_UPDATE))
      else if ae.value == Wildcard then DecodeWildcardUpdate(value, state)
      else
        var plen, omitted := value[2], value[3];
        if ae.value == Ipv6LinkLocal && omitted != 0 then Ok((None, state))
        else
          var size := PrefixEncodedLen(ae.value, plen);
          if size.None? || omitted > size.value || |value| < 10 + size.value - omitted then
            Err(InvalidTlv(TLV_UPDATE))
          else
            var end := 10 + size.value - omitted;
            var previous := if ae.value in state.prefixes then Some(state.prefixes[ae.value]) else None;
            var prefix := DecodePrefix(ae.value, plen, omitted, value[10..end], previous);
            if prefix.None? then Ok((None, state))
            else
              FinishUpdate(value, ae.value, prefix.value, value[end..],
                           AfterPrefix(state, ae.value, value[1], prefix.value))
  }

  function DecodeRouteRequest(value: Bytes, state: ParserState): Step {
    if |value| < 2 then Err(InvalidTlv(TLV_ROUTE_REQUEST))
    else
      var ae := AeFromOctet(value[0]);
      if ae.None? then Ok((None, state))
      else if ae.value == Wildcard then
        if value[1] != 0 then Ok((None, state))
        else
          var sub := DecodeSubTlvs(value[2..], PrefixContext(Wildcard), None, NoSubTlvs);
          if sub.Err? then Err(sub.error)
          else if sub.value.mandatoryUnknown || sub.value.sourcePrefix.Some? then Ok((None, state))
          else Ok((Some(RouteRequest(None, sub.value.values)), state))
      else
        var size := PrefixEncodedLen(ae.value, value[1]);
        if size.None? || |value| < 2 + size.value then Err(InvalidTlv(TLV_ROUTE_REQUEST))
        else
          var prefix := DecodePrefix(ae.value, value[1], 0, value[2..2 + size.value], None);
          if prefix.None? then Err(InvalidTlv(TLV_ROUTE_REQUEST))
          else
            var sub := DecodeSubTlvs(value[2 + size.value..], PrefixContext(ae.value), prefix, NoSubTlvs);
            if sub.Err? then Err(sub.error)
            else if sub.value.mandatoryUnknown then Ok((None, state))
            else
              var key := NewRouteKey(prefix.value, sub.value.sourcePrefix);
              if key.None? then Err(InvalidTlv(TLV_ROUTE_REQUEST))
              else Ok((Some(RouteRequest(key, sub.value.values)), state))
  }

  function DecodeSeqnoRequest(value: Bytes, state: ParserState): Step {
    if |value| < 14 then Err(InvalidTlv(TLV_SEQNO_REQUEST))
    else
      var ae := AeFromOctet(value[0]);
      if ae.None? || ae.value == Wildcard then Ok((None, state))
      else
        var size := PrefixEncodedLen(ae.value, value[1]);
        if size.None? || |value| < 14 + size.value || value[4] == 0 then Err(InvalidTlv(TLV_SEQNO_REQUEST))
        else
          var routerId := NewRouterId(value[6..14]);
          var prefix := DecodePrefix(ae.value, value[1], 0, value[14..14 + size.value], None);
          if routerId.None? || prefix.None? then Err(InvalidTlv(TLV_SEQNO_REQUEST))
          else
            var sub := DecodeSubTlvs(value[14 + size.value..], PrefixContext(ae.value), prefix, NoSubTlvs);
            if sub.Err? then Err(sub.error)
            else if sub.value.mandatoryUnknown then Ok((None, state))
            else
              var key := NewRouteKey(prefix.value, sub.value.sourcePrefix);
              if key.None? then Err(InvalidTlv(TLV_SEQNO_REQUEST))
              else
                Ok((Some(SeqnoRequest(key.value, Be16(value[2..]), value[4], routerId.value, sub.value.values)), state))
  }

  function DecodeTlv(type_: u8, value: Bytes, state: ParserState): Step {
    if type_ == TLV_PADN then Ok((Some(PadN(value)), state))
    else if type_ == TLV_ACK_REQ then
      if |value| < 6 || Be16(value[4..]) == 0 then Err(InvalidTlv(TLV_ACK_REQ))
      else
        Accepted(DecodeSubTlvs(value[6..], HelloContext, None, NoSubTlvs),
                 AckRequest(Be16(value[2..]), Be16(value[4..])), state)
    else if type_ == TLV_ACK then
      if |value| < 2 then Err(InvalidTlv(TLV_ACK))
      else Accepted(DecodeSubTlvs(value[2..], HelloContext, None, NoSubTlvs), Ack(Be16(value)), state)
    else if type_ == TLV_HELLO then DecodeHello(value, state)
    else if type_ == TLV_IHU then DecodeIhu(value, state)
    else if type_ == TLV_ROUTER_ID then DecodeRouterId(value, state)
    else if type_ == TLV_NEXT_HOP then DecodeNextHop(value, state)
    else if type_ == TLV_UPDATE then DecodeUpdate(value, state)
    else if type_ == TLV_ROUTE_REQUEST then DecodeRouteRequest(value, state)
    else if type_ == TLV_SEQNO_REQUEST then DecodeSeqnoRequest(value, state)
    else Ok((Some(Unknown(type_, value)), state))
  }

  // ----- a whole body

  type Body = Result<(seq<Tlv>, ParserState), WireError>

  function Prepend(tlvs: seq<Tlv>, r: Body): Body {
    match r
    case Err(e) => Err(e)
    case Ok(v) => Ok((tlvs + v.0, v.1))
  }

  function Listed(tlv: Option<Tlv>): seq<Tlv> { if tlv.None? then [] else [tlv.value] }

  function DecodeBody(body: Bytes, state: ParserState): Body
    decreases |body|
  {
    if body == [] then Ok(([], state))
    else
      match NextFrame(body)
      case Padding(rest) => Prepend([Pad1], DecodeBody(rest, state))
      case Truncated(type_) => Err(TruncatedTlv(type_))
      case Item(type_, value, rest) =>
        match DecodeTlv(type_, value, state)
        case Err(e) => Err(e)
        case Ok(step) => Prepend(Listed(step.0), DecodeBody(rest, step.1))
  }

  const MAGIC: u8 := 42
  const VERSION: u8 := 2

  /** The body bytes of a datagram; bytes after the declared length are ignored. */
  function PacketBody(data: Bytes): Result<Bytes, WireError> {
    if |data| < 4 then Err(ShortHeader)
    else if data[0] != MAGIC then Err(BadMagic)
    else if data[1] != VERSION then Err(UnsupportedVersion(data[1]))
    else if |data| < 4 + Be16(data[2..]) then Err(TruncatedBody)
    else Ok(data[4..4 + Be16(data[2..])])
  }

  function DecodePacket(data: Bytes, source: IpAddr): Result<seq<Tlv>, WireError> {
    match PacketBody(data)
    case Err(e) => Err(e)
    case Ok(body) =>
      match DecodeBody(body, NewParserState(source))
      case Err(e) => Err(e)
      case Ok(v) => Ok(v.0)
  }

  method DecodePacketLoop(data: Bytes, source: IpAddr) returns (r: Result<seq<Tlv>, WireError>)
    ensures r == DecodePacket(data, source)
  {
    hide DecodeTlv, Prepend, NextFrame;
    var framed := PacketBody(data);
    if framed.Err? { return Err(framed.error); }
    var body := framed.value;
    var state := NewParserState(source);
    var tlvs: seq<Tlv>, offset := [], 0;
    assert body[0..] == body;
    PrependNothing(DecodeBody(body, state));
    while offset < |body|
      invariant 0 <= offset <= |body|
      invariant DecodeBody(body, NewParserState(source)) == Prepend(tlvs, DecodeBody(body[offset..], state))
    {
      var type_ := body[offset];
      FrameAt(body, offset);
      offset := offset + 1;
      if type_ == 0 {
        PrependTwice(tlvs, [Pad1], DecodeBody(body[offset..], state));
        tlvs := tlvs + [Pad1];
        continue;
      }
      PrependError(tlvs, DecodeBody(body[offset - 1..], state));
      if offset >= |body| { return Err(TruncatedTlv(type_)); }
      var len: nat := body[offset];
      offset := offset + 1;
      if |body| - offset < len { return Err(TruncatedTlv(type_)); }
      var value := body[offset..offset + len];
      offset := offset + len;
      var step := DecodeTlv(type_, value, state);
      if step.Err? { return Err(step.error); }
      state := step.value.1;
      PrependTwice(tlvs, Listed(step.value.0), DecodeBody(body[offset..], state));
      tlvs := tlvs + Listed(step.value.0);
    }
    assert body[offset..] == [];
    PrependLast(tlvs, state);
    r := Ok(tlvs);
  }

  lemma PrependNothing(r: Body)
    ensures Prepend([], r) == r
  {
    if r.Ok? { assert [] + r.value.0 == r.value.0; }
  }

  lemma PrependLast(a: seq<Tlv>, state: ParserState)
    ensures Prepend(a, Ok(([], state))) == Ok((a, state))
  {
    assert a + [] == a;
  }

  lemma PrependError(a: seq<Tlv>, r: Body)
    ensures r.Err? ==> Prepend(a, r) == r
  {
  }

  lemma PrependTwice(a: seq<Tlv>, b: seq<Tlv>, r: Body)
    ensures Prepend(a, Prepend(b, r)) == Prepend(a + b, r)
  {
    if r.Ok? { assert a + (b + r.value.0) == a + b + r.value.0; }
  }

  /** Decoding is compositional: a well-formed front part only hands its
      context on to what follows. */
  lemma {:induction false} DecodeBodyAppend(a: Bytes, b: Bytes, state: ParserState)
    requires DecodeBody(a, state).Ok?
    ensures DecodeBody(a + b, state)
         == var front := DecodeBody(a, state).value; Prepend(front.0, DecodeBody(b, front.1))
    decreases |a|
  {
    if a == [] {
      assert a + b == b;
      PrependNothing(DecodeBody(b, state));
    } else {
      NextFrameAppend(a, b);
      match NextFrame(a)
      case Padding(rest) =>
        DecodeBodyAppend(rest, b, state);
        var front := DecodeBody(rest, state).value;
        PrependTwice([Pad1], front.0, DecodeBody(b, front.1));
      case Item(type_, value, rest) =>
        var step := DecodeTlv(type_, value, state).value;
        DecodeBodyAppend(rest, b, step.1);
        var front := DecodeBody(rest, step.1).value;
        PrependTwice(Listed(step.0), front.0, DecodeBody(b, front.1));
    }
  }
}
