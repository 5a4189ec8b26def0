/** MTU-bounded datagrams and packet context resets
    (crates/babel-protocol/src/wire/packetizer.rs:77-176). */
module Packetizer {
  import opened Model
  import opened WirePrefix
  import opened WireTypes
  import opened WireDecode
  import opened WireEncode
  import opened WireRoundTrip

  const MAX_PACKET_SIZE: nat := 0xffff + 4

  // ----- groups that must share a datagram

  predicate TimestampedHello(t: OutboundTlv) {
    t.OutHello? && exists i :: 0 <= i < |t.subTlvs| && t.subTlvs[i].TimestampHello?
  }

  predicate TimestampedIhu(t: OutboundTlv) {
    t.OutIhu? && exists i :: 0 <= i < |t.subTlvs| && t.subTlvs[i].TimestampIhu?
  }

  function IhuRun(tlvs: seq<OutboundTlv>): (n: nat)
    ensures n <= |tlvs|
    ensures forall i :: 0 <= i < n ==> tlvs[i].OutIhu?
  {
    if tlvs != [] && tlvs[0].OutIhu? then 1 + IhuRun(tlvs[1..]) else 0
  }

  /** A timestamped Hello travels with the IHUs right after it. */
  function GroupLen(tlvs: seq<OutboundTlv>): (n: nat)
    requires tlvs != []
    ensures 1 <= n <= |tlvs|
  {
    if TimestampedHello(tlvs[0]) then 1 + IhuRun(tlvs[1..]) else 1
  }

  /** Every group can be encoded and fits an empty datagram. */
  predicate Sendable(tlvs: seq<OutboundTlv>, bodyBudget: nat)
    decreases |tlvs|
  {
    tlvs != [] ==>
      var n := GroupLen(tlvs);
      && !TimestampedIhu(tlvs[0])
      && EncodeAll(tlvs[..n], FreshContext).Ok?
      && |EncodeAll(tlvs[..n], FreshContext).value| <= bodyBudget
      && Sendable(tlvs[n..], bodyBudget)
  }

  // ----- what one datagram promises

  function FinishPacket(body: Bytes): Bytes
    requires |body| <= 0xffff
  {
    [MAGIC, VERSION] + ToBe16(|body|) + body
  }

  /** The datagram, decoded alone, shows exactly these TLVs as meant. */
  predicate Arrives(datagram: Bytes, sent: seq<OutboundTlv>, source: IpAddr) {
    var r := DecodePacket(datagram, source);
    r.Ok? && AllMean(sent, source, Visible(r.value))
  }

  predicate OneHello(chunk: seq<OutboundTlv>) {
    forall i, j :: 0 <= i < j < |chunk| ==> !(chunk[i].OutHello? && chunk[j].OutHello?)
  }

  /** Every timestamped IHU has its timestamped Hello in the same datagram,
      with nothing but IHUs in between. */
  predicate Grouped(chunk: seq<OutboundTlv>) {
    forall j :: 0 <= j < |chunk| && TimestampedIhu(chunk[j]) ==> HasHello(chunk, j)
  }

  predicate HasHello(chunk: seq<OutboundTlv>, j: nat)
    requires j < |chunk|
  {
    exists i :: 0 <= i < j && TimestampedHello(chunk[i]) && forall k :: i < k < j ==> chunk[k].OutIhu?
  }

  /** A datagram under construction or finished: its TLVs, octets and size. */
  ghost predicate Carries(body: Bytes, chunk: seq<OutboundTlv>, bodyBudget: nat) {
    && EncodeAll(chunk, FreshContext) == Ok(body) && |body| <= bodyBudget
    && ContextFlows(chunk, FreshContext)
    && OneHello(chunk) && Grouped(chunk)
  }

  lemma FinishedBody(body: Bytes)
    requires |body| <= 0xffff
    ensures PacketBody(FinishPacket(body)) == Ok(body)
  {
    var d := FinishPacket(body);
    assert d[2..] == ToBe16(|body|) + body;
    Be16Front(ToBe16(|body|), body);
    assert d[4..4 + |body|] == body;
  }

  lemma CarriedArrives(body: Bytes, chunk: seq<OutboundTlv>, bodyBudget: nat, source: IpAddr)
    requires Carries(body, chunk, bodyBudget) && |body| <= 0xffff
    requires forall t :: t in chunk ==> Fits(t, source)
    ensures Arrives(FinishPacket(body), chunk, source)
  {
    hide FinishPacket, DecodeBody, EncodeAll, ContextFlows, Agrees, Fits, Visible, AllMean, PacketBody;
    FinishedBody(body);
    FreshAgrees(source);
    RunDelivers(chunk, FreshContext, source, NewParserState(source));
  }

  // ----- encoding a group

  method EncodeGroup(group: seq<OutboundTlv>, ctx: EncodeContext)
    returns (r: Result<Bytes, WireError>, ctx': EncodeContext)
    ensures r == EncodeAll(group, ctx)
    ensures ctx' == ContextAfterAll(group, ctx) || r.Err?
  {
    hide EncodeTlv, NextContext;
    var encoder := new Encoder(ctx);
    ctx' := ctx;
    for i := 0 to |group|
      invariant EncodeAll(group[..i], ctx) == Ok(encoder.out)
      invariant encoder.context == ContextAfterAll(group[..i], ctx)
    {
      SplitAt(group, i, ctx);
      var put := encoder.Put(group[i]);
      if put.Err? { return Err(put.error), ctx; }
    }
    assert group[..|group|] == group;
    r, ctx' := Ok(encoder.out), encoder.context;
  }

  lemma SplitAt(group: seq<OutboundTlv>, i: nat, ctx: EncodeContext)
    requires i < |group| && EncodeAll(group[..i], ctx).Ok?
    ensures var mid := ContextAfterAll(group[..i], ctx);
      && ContextAfterAll(group[..i + 1], ctx) == NextContext(group[i], mid)
      && EncodeAll(group[..i + 1], ctx) == Join(EncodeAll(group[..i], ctx), EncodeTlv(group[i], mid))
      && (EncodeTlv(group[i], mid).Err? ==> EncodeAll(group, ctx) == EncodeTlv(group[i], mid))
  {
    hide EncodeTlv, NextContext;
    var mid := ContextAfterAll(group[..i], ctx);
    assert group[..i + 1] == group[..i] + [group[i]];
    EncodeAllAppend(group[..i], [group[i]], ctx);
    EncodeSingle(group[i], mid);
    assert group == group[..i] + group[i..];
    EncodeAllAppend(group[..i], group[i..], ctx);
    assert group[i..][0] == group[i];
  }

  lemma EncodeSingle(t: OutboundTlv, ctx: EncodeContext)
    ensures EncodeAll([t], ctx) == EncodeTlv(t, ctx)
    ensures ContextAfterAll([t], ctx) == NextContext(t, ctx)
  {
    hide EncodeTlv, NextContext;
    var rest := [t][1..];
    assert rest == [];
    assert EncodeAll(rest, NextContext(t, ctx)) == Ok([]);
    if EncodeTlv(t, ctx).Ok? {
      assert EncodeTlv(t, ctx).value + [] == EncodeTlv(t, ctx).value;
    }
  }

  // ----- growing a datagram by one group

  /** A group: one TLV, or a timestamped Hello and IHUs. */
  predicate IsGroup(group: seq<OutboundTlv>) {
    && group != [] && !TimestampedIhu(group[0])
    && (forall i :: 1 <= i < |group| ==> group[i].OutIhu?)
    && (|group| > 1 ==> TimestampedHello(group[0]))
  }

  lemma {:induction false} FlowsAppend(a: seq<OutboundTlv>, b: seq<OutboundTlv>, ctx: EncodeContext)
    requires ContextFlows(a, ctx) && ContextFlows(b, ContextAfterAll(a, ctx))
    ensures ContextFlows(a + b, ctx)
    decreases |a|
  {
    hide NextContext, NeedsFreshContext;
    if a == [] {
      assert a + b == b;
    } else {
      assert (a + b)[1..] == a[1..] + b;
      FlowsAppend(a[1..], b, NextContext(a[0], ctx));
    }
  }

  lemma {:induction false} IhusFlow(ihus: seq<OutboundTlv>, ctx: EncodeContext)
    requires forall i :: 0 <= i < |ihus| ==> ihus[i].OutIhu?
    ensures ContextFlows(ihus, ctx)
    decreases |ihus|
  {
    if ihus != [] { IhusFlow(ihus[1..], NextContext(ihus[0], ctx)); }
  }

  lemma GroupFlows(group: seq<OutboundTlv>, ctx: EncodeContext)
    requires IsGroup(group) && !NeedsFreshContext(group[0], ctx)
    ensures ContextFlows(group, ctx)
  {
    IhusFlow(group[1..], NextContext(group[0], ctx));
  }

  lemma ChunkGrows(chunk: seq<OutboundTlv>, body: Bytes, group: seq<OutboundTlv>, encoded: Bytes, bodyBudget: nat)
    requires Carries(body, chunk, bodyBudget) && IsGroup(group)
    requires EncodeAll(group, ContextAfterAll(chunk, FreshContext)) == Ok(encoded)
    requires |body| + |encoded| <= bodyBudget
    requires !NeedsFreshContext(group[0], ContextAfterAll(chunk, FreshContext))
    requires group[0].OutHello? ==> forall i :: 0 <= i < |chunk| ==> !chunk[i].OutHello?
    ensures Carries(body + encoded, chunk + group, bodyBudget)
  {
    hide EncodeAll, NeedsFreshContext, TimestampedHello, TimestampedIhu, ContextAfterAll, ContextFlows;
    EncodeAllAppend(chunk, group, FreshContext);
    GroupFlows(group, ContextAfterAll(chunk, FreshContext));
    FlowsAppend(chunk, group, FreshContext);
    GroupedAppend(chunk, group);
  }

  lemma GroupedAppend(chunk: seq<OutboundTlv>, group: seq<OutboundTlv>)
    requires Grouped(chunk) && IsGroup(group)
    ensures Grouped(chunk + group)
  {
    hide TimestampedHello, TimestampedIhu;
    var all, n := chunk + group, |chunk|;
    forall j | 0 <= j < |all| && TimestampedIhu(all[j]) ensures HasHello(all, j) {
      if j < n {
        assert HasHello(chunk, j);
        var i :| 0 <= i < j && TimestampedHello(chunk[i]) && forall k :: i < k < j ==> chunk[k].OutIhu?;
        assert all[i] == chunk[i] && forall k :: i < k < j ==> all[k] == chunk[k];
      } else {
        assert all[j] == group[j - n] && all[n] == group[0];
        assert forall k :: n < k < j ==> all[k] == group[k - n];
      }
    }
  }

  /** A TLV never takes more room with context than without. */
  lemma ContextOnlySaves(t: OutboundTlv, ctx: EncodeContext)
    requires EncodeTlv(t, FreshContext).Ok?
    ensures EncodeTlv(t, ctx).Ok? && |EncodeTlv(t, ctx).value| <= |EncodeTlv(t, FreshContext).value|
  {
    hide EncodeUpdate, EncodeRouterId, EncodeNextHop, PutTlv, PutWithTail, EncodeIhu, EncodeRouteRequest,
         EncodeSeqnoRequest;
  }

  lemma {:induction false} GroupOnlySaves(group: seq<OutboundTlv>, ctx: EncodeContext)
    requires |group| > 1 ==> forall i :: 0 <= i < |group| ==> !group[i].OutUpdate?
    requires EncodeAll(group, FreshContext).Ok?
    ensures EncodeAll(group, ctx).Ok? && |EncodeAll(group, ctx).value| <= |EncodeAll(group, FreshContext).value|
    decreases |group|
  {
    hide EncodeTlv;
    if group != [] {
      ContextOnlySaves(group[0], ctx);
      if |group| > 1 {
        GroupOnlySaves(group[1..], ctx);
      } else {
        EncodeSingle(group[0], ctx);
        EncodeSingle(group[0], FreshContext);
        assert group == [group[0]];
      }
    }
  }

  lemma EncodingIsNotEmpty(t: OutboundTlv, ctx: EncodeContext)
    requires EncodeTlv(t, ctx).Ok?
    ensures |EncodeTlv(t, ctx).value| > 0
  {
    hide UpdateHeader, EncodeTail, PrefixWireBytes, RouterIdPart, NextHopPart, EncodeSubTlvs, EncodeAddress, ToBe16;
  }

  lemma EmptyBodyMeansEmptyChunk(chunk: seq<OutboundTlv>)
    requires EncodeAll(chunk, FreshContext) == Ok([])
    ensures chunk == []
  {
    hide EncodeTlv;
    if chunk != [] {
      EncodingIsNotEmpty(chunk[0], FreshContext);
      assert false;
    }
  }

  lemma EmptyCarries(bodyBudget: nat)
    ensures Carries([], [], bodyBudget)
    ensures ContextAfterAll([], FreshContext) == FreshContext
  {
  }

  function Flatten(chunks: seq<seq<OutboundTlv>>): seq<OutboundTlv> {
    if chunks == [] then [] else Flatten(chunks[..|chunks| - 1]) + chunks[|chunks| - 1]
  }

  lemma FlattenPush(chunks: seq<seq<OutboundTlv>>, chunk: seq<OutboundTlv>)
    ensures Flatten(chunks + [chunk]) == Flatten(chunks) + chunk
  {
    assert (chunks + [chunk])[..|chunks|] == chunks;
  }

  /** What the finished datagrams promise. */
  ghost predicate Shipped(packets: seq<Bytes>, chunks: seq<seq<OutboundTlv>>, bodyBudget: nat) {
    && |packets| == |chunks|
    && forall i :: 0 <= i < |packets| ==> Ships(packets[i], chunks[i], bodyBudget)
  }

  ghost predicate Ships(packet: Bytes, chunk: seq<OutboundTlv>, bodyBudget: nat) {
    && |packet| <= bodyBudget + 4
    && OneHello(chunk) && Grouped(chunk)
    && forall source :: (forall t :: t in chunk ==> Fits(t, source)) ==> Arrives(packet, chunk, source)
  }

  lemma FinishedShips(body: Bytes, chunk: seq<OutboundTlv>, bodyBudget: nat)
    requires Carries(body, chunk, bodyBudget) && bodyBudget <= 0xffff
    ensures Ships(FinishPacket(body), chunk, bodyBudget)
  {
    hide Arrives, OneHello, Grouped, EncodeAll, ContextFlows, Fits;
    forall source | forall t :: t in chunk ==> Fits(t, source) ensures Arrives(FinishPacket(body), chunk, source) {
      CarriedArrives(body, chunk, bodyBudget, source);
    }
  }

  lemma ShippedPush(packets: seq<Bytes>, chunks: seq<seq<OutboundTlv>>, body: Bytes, chunk: seq<OutboundTlv>,
                    bodyBudget: nat)
    requires Shipped(packets, chunks, bodyBudget) && Carries(body, chunk, bodyBudget) && bodyBudget <= 0xffff
    ensures Shipped(packets + [FinishPacket(body)], chunks + [chunk], bodyBudget)
  {
    hide Ships, Carries, FinishPacket;
    assert |body| <= 0xffff by { CarriesSmall(body, chunk, bodyBudget); }
    FinishedShips(body, chunk, bodyBudget);
  }

  lemma CarriesSmall(body: Bytes, chunk: seq<OutboundTlv>, bodyBudget: nat)
    requires Carries(body, chunk, bodyBudget)
    ensures |body| <= bodyBudget
  {
  }

  method GroupEnd(tlvs: seq<OutboundTlv>, offset: nat) returns (end: nat)
    requires offset < |tlvs|
    ensures end == offset + GroupLen(tlvs[offset..])
  {
    hide TimestampedHello;
    end := offset + 1;
    if TimestampedHello(tlvs[offset]) {
      ghost var rest := tlvs[offset..][1..];
      while end < |tlvs| && tlvs[end].OutIhu?
        invariant offset + 1 <= end <= |tlvs|
        invariant IhuRun(rest) == end - offset - 1 + IhuRun(tlvs[end..])
      {
        assert tlvs[end..][1..] == tlvs[end + 1..];
        end := end + 1;
      }
    }
  }

  lemma GroupIsGroup(tlvs: seq<OutboundTlv>)
    requires tlvs != [] && !TimestampedIhu(tlvs[0])
    ensures IsGroup(tlvs[..GroupLen(tlvs)])
    ensures var g := tlvs[..GroupLen(tlvs)]; |g| > 1 ==> forall i :: 0 <= i < |g| ==> !g[i].OutUpdate?
  {
    hide TimestampedIhu;
    var g := tlvs[..GroupLen(tlvs)];
    forall i | 1 <= i < |g| ensures g[i].OutIhu? {
      assert g[i] == tlvs[1..][i - 1];
    }
  }

  /** The state of the loop between groups: finished datagrams and the open one. */
  ghost predicate Between(tlvs: seq<OutboundTlv>, offset: nat, packets: seq<Bytes>, chunks: seq<seq<OutboundTlv>>,
                          chunk: seq<OutboundTlv>, body: Bytes, context: EncodeContext, hasHello: bool,
                          bodyBudget: nat) {
    && offset <= |tlvs|
    && Shipped(packets, chunks, bodyBudget)
    && Carries(body, chunk, bodyBudget)
    && context == ContextAfterAll(chunk, FreshContext)
    && (hasHello <==> exists i :: 0 <= i < |chunk| && chunk[i].OutHello?)
    && Flatten(chunks) + chunk == tlvs[..offset]
    && (Sendable(tlvs, bodyBudget) ==> Sendable(tlvs[offset..], bodyBudget))
  }

  lemma Flush(tlvs: seq<OutboundTlv>, offset: nat, packets: seq<Bytes>, chunks: seq<seq<OutboundTlv>>,
              chunk: seq<OutboundTlv>, body: Bytes, context: EncodeContext, hasHello: bool, bodyBudget: nat)
    requires Between(tlvs, offset, packets, chunks, chunk, body, context, hasHello, bodyBudget) && bodyBudget <= 0xffff
    ensures |body| <= 0xffff
    ensures Between(tlvs, offset, packets + [FinishPacket(body)], chunks + [chunk], [], [], FreshContext, false,
                    bodyBudget)
  {
    hide Shipped, Carries, Sendable, Flatten, FinishPacket;
    CarriesSmall(body, chunk, bodyBudget);
    ShippedPush(packets, chunks, body, chunk, bodyBudget);
    EmptyCarries(bodyBudget);
    FlattenPush(chunks, chunk);
    assert Flatten(chunks + [chunk]) + [] == Flatten(chunks + [chunk]);
  }

  lemma Grow(tlvs: seq<OutboundTlv>, offset: nat, packets: seq<Bytes>, chunks: seq<seq<OutboundTlv>>,
             chunk: seq<OutboundTlv>, body: Bytes, context: EncodeContext, hasHello: bool, bodyBudget: nat,
             end: nat, encoded: Bytes)
    requires Between(tlvs, offset, packets, chunks, chunk, body, context, hasHello, bodyBudget)
    requires offset < |tlvs| && end == offset + GroupLen(tlvs[offset..]) && !TimestampedIhu(tlvs[offset])
    requires EncodeAll(tlvs[offset..end], context) == Ok(encoded) && |body| + |encoded| <= bodyBudget
    requires !NeedsFreshContext(tlvs[offset], context) && !(tlvs[offset].OutHello? && hasHello)
    ensures Between(tlvs, end, packets, chunks, chunk + tlvs[offset..end], body + encoded,
                    ContextAfterAll(tlvs[offset..end], context), hasHello || tlvs[offset].OutHello?, bodyBudget)
  {
    hide Shipped, Carries, Flatten, NeedsFreshContext, EncodeAll, TimestampedIhu, ContextAfterAll;
    var here, group := tlvs[offset..], tlvs[offset..end];
    assert here[..GroupLen(here)] == group && here[0] == tlvs[offset] && here[GroupLen(here)..] == tlvs[end..];
    GroupIsGroup(here);
    ChunkGrows(chunk, body, group, encoded, bodyBudget);
    EncodeAllAppendContext(chunk, group);
    assert tlvs[..offset] + group == tlvs[..end];
    assert Flatten(chunks) + (chunk + group) == (Flatten(chunks) + chunk) + group;
    HelloInGroup(chunk, group);
  }

  lemma HelloInGroup(chunk: seq<OutboundTlv>, group: seq<OutboundTlv>)
    requires IsGroup(group)
    ensures (exists i :: 0 <= i < |chunk + group| && (chunk + group)[i].OutHello?)
            <==> (exists i :: 0 <= i < |chunk| && chunk[i].OutHello?) || group[0].OutHello?
  {
    var all, n := chunk + group, |chunk|;
    if exists i :: 0 <= i < |chunk| && chunk[i].OutHello? {
      var i :| 0 <= i < |chunk| && chunk[i].OutHello?;
      assert all[i].OutHello?;
    }
    if group[0].OutHello? { assert all[n].OutHello?; }
    if exists i :: 0 <= i < |all| && all[i].OutHello? {
      var i :| 0 <= i < |all| && all[i].OutHello?;
      if i >= n { assert group[i - n].OutHello?; }
    }
  }

  lemma EncodeAllAppendContext(a: seq<OutboundTlv>, b: seq<OutboundTlv>)
    ensures ContextAfterAll(a + b, FreshContext) == ContextAfterAll(b, ContextAfterAll(a, FreshContext))
  {
    EncodeAllAppend(a, b, FreshContext);
  }

  /** The first group of a sendable list encodes in any context, and fits. */
  lemma SendableGroup(tlvs: seq<OutboundTlv>, bodyBudget: nat, ctx: EncodeContext)
    requires tlvs != [] && Sendable(tlvs, bodyBudget)
    ensures var g := tlvs[..GroupLen(tlvs)];
      !TimestampedIhu(tlvs[0]) && EncodeAll(g, ctx).Ok? && |EncodeAll(g, ctx).value| <= bodyBudget
  {
    hide EncodeAll, TimestampedIhu;
    GroupIsGroup(tlvs);
    GroupOnlySaves(tlvs[..GroupLen(tlvs)], ctx);
  }

  /** Split TLVs into datagrams: every TLV goes into exactly one datagram, in
      order; every datagram is within budget and, decoded alone from any source
      the TLVs were meant for, yields its TLVs with Router-ID and next hop
      resolved.  A list whose groups fit empty datagrams is never refused. */
  method EncodePackets(tlvs: seq<OutboundTlv>, maxPacketSize: nat)
    returns (r: Result<seq<Bytes>, WireError>, ghost chunks: seq<seq<OutboundTlv>>)
    ensures maxPacketSize < 4 <==> r == Err(PacketBudgetTooSmall)
    ensures r.Ok? ==>
      && 1 <= |r.value| && Flatten(chunks) == tlvs
      && Shipped(r.value, chunks, Min(maxPacketSize, MAX_PACKET_SIZE) - 4)
    ensures maxPacketSize >= 4 && Sendable(tlvs, Min(maxPacketSize, MAX_PACKET_SIZE) - 4) ==> r.Ok?
  {
    hide Between, Sendable, EncodeAll, ContextAfterAll, TimestampedIhu, TimestampedHello, NeedsFreshContext, GroupLen,
         Shipped, Flatten;
    chunks := [];
    if maxPacketSize < 4 { return Err(PacketBudgetTooSmall), chunks; }
    var bodyBudget := Min(maxPacketSize, MAX_PACKET_SIZE) - 4;
    var packets: seq<Bytes>, body: Bytes := [], [];
    var context, offset, hasHello := FreshContext, 0, false;
    ghost var chunk: seq<OutboundTlv> := [];
    Start(tlvs, bodyBudget);
    while offset < |tlvs|
      invariant Between(tlvs, offset, packets, chunks, chunk, body, context, hasHello, bodyBudget)
      decreases |tlvs| - offset
    {
      BetweenFacts(tlvs, offset, packets, chunks, chunk, body, context, hasHello, bodyBudget);
      var tlv := tlvs[offset];
      var end := GroupEnd(tlvs, offset);
      assert tlvs[offset..][..GroupLen(tlvs[offset..])] == tlvs[offset..end];
      if Sendable(tlvs[offset..], bodyBudget) {
        SendableGroup(tlvs[offset..], bodyBudget, context);
        SendableGroup(tlvs[offset..], bodyBudget, FreshContext);
      }
      if TimestampedIhu(tlv) { return Err(InvalidTlv(TLV_IHU)), chunks; }
      var group := tlvs[offset..end];
      if body != [] && (NeedsFreshContext(tlv, context) || (tlv.OutHello? && hasHello)) {
        Flush(tlvs, offset, packets, chunks, chunk, body, context, hasHello, bodyBudget);
        packets, chunks, chunk := packets + [FinishPacket(body)], chunks + [chunk], [];
        body, context, hasHello := [], FreshContext, false;
      }
      NotStale(tlvs, offset, packets, chunks, chunk, body, context, hasHello, bodyBudget);
      var encoded, next := EncodeGroup(group, context);
      if encoded.Err? {
        NotSpecialError(group, context);
        return Err(encoded.error), chunks;
      }
      if |encoded.value| > bodyBudget { return Err(BodyTooLarge), chunks; }
      if body != [] && |body| + |encoded.value| > bodyBudget {
        Flush(tlvs, offset, packets, chunks, chunk, body, context, hasHello, bodyBudget);
        packets, chunks, chunk := packets + [FinishPacket(body)], chunks + [chunk], [];
        body, context, hasHello := [], FreshContext, false;
        NotStale(tlvs, offset, packets, chunks, chunk, body, context, hasHello, bodyBudget);
        encoded, next := EncodeGroup(group, context);
        if encoded.Err? {
          NotSpecialError(group, context);
          return Err(encoded.error), chunks;
        }
        if |encoded.value| > bodyBudget { return Err(BodyTooLarge), chunks; }
      }
      Grow(tlvs, offset, packets, chunks, chunk, body, context, hasHello, bodyBudget, end, encoded.value);
      body, context, hasHello := body + encoded.value, next, hasHello || tlv.OutHello?;
      offset, chunk := end, chunk + group;
    }
    BetweenFacts(tlvs, offset, packets, chunks, chunk, body, context, hasHello, bodyBudget);
    Flush(tlvs, offset, packets, chunks, chunk, body, context, hasHello, bodyBudget);
    packets, chunks := packets + [FinishPacket(body)], chunks + [chunk];
    Finish(tlvs, packets, chunks, bodyBudget);
    r := Ok(packets);
  }

  lemma Start(tlvs: seq<OutboundTlv>, bodyBudget: nat)
    ensures Between(tlvs, 0, [], [], [], [], FreshContext, false, bodyBudget)
  {
    hide Carries, Sendable;
    EmptyCarries(bodyBudget);
    assert tlvs[0..] == tlvs && tlvs[..0] == [];
  }

  lemma Finish(tlvs: seq<OutboundTlv>, packets: seq<Bytes>, chunks: seq<seq<OutboundTlv>>, bodyBudget: nat)
    requires Between(tlvs, |tlvs|, packets, chunks, [], [], FreshContext, false, bodyBudget)
    ensures Shipped(packets, chunks, bodyBudget) && Flatten(chunks) == tlvs
  {
    hide Shipped, Carries, Sendable, Flatten;
    assert tlvs[..|tlvs|] == tlvs && Flatten(chunks) + [] == Flatten(chunks);
  }

  lemma BetweenFacts(tlvs: seq<OutboundTlv>, offset: nat, packets: seq<Bytes>, chunks: seq<seq<OutboundTlv>>,
                     chunk: seq<OutboundTlv>, body: Bytes, context: EncodeContext, hasHello: bool, bodyBudget: nat)
    requires Between(tlvs, offset, packets, chunks, chunk, body, context, hasHello, bodyBudget)
    ensures offset <= |tlvs| && |body| <= bodyBudget
    ensures Sendable(tlvs, bodyBudget) ==> Sendable(tlvs[offset..], bodyBudget)
  {
  }

  /** An empty body means a fresh context, so nothing stale can be relied on. */
  lemma NotStale(tlvs: seq<OutboundTlv>, offset: nat, packets: seq<Bytes>, chunks: seq<seq<OutboundTlv>>,
                 chunk: seq<OutboundTlv>, body: Bytes, context: EncodeContext, hasHello: bool, bodyBudget: nat)
    requires Between(tlvs, offset, packets, chunks, chunk, body, context, hasHello, bodyBudget) && offset < |tlvs|
    ensures body == [] ==> context == FreshContext && !NeedsFreshContext(tlvs[offset], context) && !hasHello
  {
    hide Shipped, Sendable, Flatten, ContextFlows, OneHello, Grouped;
    if body == [] { EmptyBodyMeansEmptyChunk(chunk); }
  }

  lemma {:induction false} NotSpecialError(group: seq<OutboundTlv>, ctx: EncodeContext)
    ensures EncodeAll(group, ctx).Err? ==> EncodeAll(group, ctx).error != PacketBudgetTooSmall
    decreases |group|
  {
    hide NextContext, EncodeTlv;
    if group != [] {
      TlvErrors(group[0], ctx);
      NotSpecialError(group[1..], NextContext(group[0], ctx));
    }
  }

  lemma TlvErrors(t: OutboundTlv, ctx: EncodeContext)
    ensures EncodeTlv(t, ctx).Err? ==> EncodeTlv(t, ctx).error != PacketBudgetTooSmall
  {
    hide UpdateHeader, PrefixWireBytes, EncodeAddress, ToBe16, EncodeSubTlvs, EncodeTail;
    if t.OutHello? || t.OutIhu? || t.OutRouteRequest? || t.OutSeqnoRequest? { SubErrors(t.subTlvs); }
    if t.OutRouteRequest? && t.requestKey.Some? {
      TailErrors(t.requestKey.value.source, AeForKey(t.requestKey.value, false), t.subTlvs);
    }
    if t.OutSeqnoRequest? { TailErrors(t.key.source, AeForKey(t.key, false), t.subTlvs); }
    if t.OutUpdate? && t.update.key.Some? {
      TailErrors(t.update.key.value.source, AeForKey(t.update.key.value, t.update.v4ViaV6), t.update.subTlvs);
    }
  }

  lemma TailErrors(source: Option<IpNet>, ae: AddressEncoding, subs: seq<SubTlv>)
    ensures EncodeTail(source, ae, subs).Err? ==> EncodeTail(source, ae, subs).error != PacketBudgetTooSmall
  {
    hide PrefixWireBytes, EncodeSubTlvs;
    SubErrors(subs);
  }

  lemma {:induction false} SubErrors(values: seq<SubTlv>)
    ensures EncodeSubTlvs(values).Err? ==> EncodeSubTlvs(values).error != PacketBudgetTooSmall
  {
    if values != [] { SubErrors(values[1..]); }
  }
}
