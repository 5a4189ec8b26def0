/** Prefix compression: octets an Update omits come from the default prefix of
    its encoding (crates/babel-protocol/src/wire/decode.rs:240-262). */
module WireCompression {
  import opened Model
  import opened WirePrefix
  import opened WireTypes
  import opened WireDecode

  /** One element of a TLV stream. */
  datatype Element = Gap | Block(type_: u8, value: Bytes)

  predicate WellFramed(stream: seq<Element>) {
    forall i :: 0 <= i < |stream| && stream[i].Block? ==> stream[i].type_ != 0 && |stream[i].value| <= 255
  }

  function Octets(stream: seq<Element>): Bytes
    requires WellFramed(stream)
  {
    if stream == [] then []
    else (if stream[0].Gap? then [0] else [stream[0].type_, |stream[0].value|] + stream[0].value) + Octets(stream[1..])
  }

  /** Drop the first `k` prefix octets of an Update value and say so in its Omitted field. */
  function Omit(value: Bytes, k: u8): Bytes
    requires |value| >= 10 + k
  {
    value[..3] + [k] + value[4..10] + value[10 + k..]
  }

  /** The Update carries its whole prefix, and its first `k` octets are those of
      the default prefix for its encoding. */
  predicate Shares(value: Bytes, k: u8, state: ParserState) {
    && |value| >= 10 && value[3] == 0
    && AeFromOctet(value[0]).Some?
    && var ae := AeFromOctet(value[0]).value;
    && ae != Wildcard && ae != Ipv6LinkLocal
    && PrefixEncodedLen(ae, value[2]).Some?
    && k <= PrefixEncodedLen(ae, value[2]).value
    && |value| >= 10 + PrefixEncodedLen(ae, value[2]).value
    && ae in state.prefixes && k <= |state.prefixes[ae]|
    && state.prefixes[ae][..k] == value[10..10 + k]
  }

  lemma OmitFields(value: Bytes, k: u8)
    requires |value| >= 10 + k
    ensures var packed := Omit(value, k);
      && |packed| == |value| - k
      && packed[..3] == value[..3] && packed[3] == k
      && packed[4..10] == value[4..10] && packed[10..] == value[10 + k..]
  {
  }

  lemma SharedPrefix(value: Bytes, k: u8, state: ParserState)
    requires Shares(value, k, state)
    ensures var ae := AeFromOctet(value[0]).value;
      var size := PrefixEncodedLen(ae, value[2]).value;
      var previous := Some(state.prefixes[ae]);
      && DecodePrefix(ae, value[2], k, Omit(value, k)[10..10 + size - k], previous)
         == DecodePrefix(ae, value[2], 0, value[10..10 + size], previous)
      && Omit(value, k)[10 + size - k..] == value[10 + size..]
  {
    hide PrefixEncodedLen, PrefixFromOctets, AeFromOctet;
    OmitFields(value, k);
    var ae := AeFromOctet(value[0]).value;
    var size := PrefixEncodedLen(ae, value[2]).value;
    var suffix, plain := Omit(value, k)[10..10 + size - k], value[10..10 + size];
    assert suffix == value[10 + k..10 + size];
    assert suffix[..size - k] == suffix && plain[..size - 0] == plain;
    assert value[10..10 + k] + suffix == plain;
    assert [] + plain == plain;
    assert k == 0 ==> [] + suffix == plain;
  }

  /** The header fields the rest of the decoder reads are not moved. */
  lemma SameFinish(value: Bytes, packed: Bytes, ae: AddressEncoding, prefix: IpNet, subs: Bytes, state: ParserState)
    requires |value| >= 10 && |packed| >= 10 && packed[4..10] == value[4..10]
    ensures FinishUpdate(packed, ae, prefix, subs, state) == FinishUpdate(value, ae, prefix, subs, state)
  {
    hide DecodeSubTlvs, NewRouteKey;
    assert forall i :: 4 <= i < 10 ==> packed[i] == packed[4..10][i - 4] && value[i] == value[4..10][i - 4];
  }

  /** One compressed Update has the same meaning and the same effect on context. */
  lemma OmittedUpdateDecodes(value: Bytes, k: u8, state: ParserState)
    requires Shares(value, k, state)
    ensures DecodeUpdate(Omit(value, k), state) == DecodeUpdate(value, state)
  {
    hide PrefixEncodedLen, DecodePrefix, AeFromOctet, FinishUpdate, AfterPrefix, DecodeWildcardUpdate, Omit;
    var packed := Omit(value, k);
    OmitFields(value, k);
    SharedPrefix(value, k, state);
    var ae := AeFromOctet(value[0]).value;
    var size := PrefixEncodedLen(ae, value[2]).value;
    assert packed[..3][0] == value[..3][0] && packed[..3][1] == value[..3][1] && packed[..3][2] == value[..3][2];
    assert Be16(packed[4..]) == Be16(value[4..]) by {
      assert packed[4..10][0] == value[4..10][0] && packed[4..10][1] == value[4..10][1];
    }
    var prefix := DecodePrefix(ae, value[2], 0, value[10..10 + size], Some(state.prefixes[ae]));
    if prefix.Some? {
      SameFinish(value, packed, ae, prefix.value, value[10 + size..], AfterPrefix(state, ae, value[1], prefix.value));
    }
  }

  /** `packed` is `plain` with leading octets omitted from any of its Updates,
      each time shared with the default prefix in force at that point. */
  predicate Compresses(plain: seq<Element>, packed: seq<Element>, state: ParserState)
    decreases |plain|
  {
    if plain == [] then packed == []
    else
      && packed != []
      && (packed[0] == plain[0] || OmittedBlock(plain[0], packed[0], state))
      && (plain[0].Gap? ==> Compresses(plain[1..], packed[1..], state))
      && (plain[0].Block? ==>
            var step := DecodeTlv(plain[0].type_, plain[0].value, state);
            step.Ok? ==> Compresses(plain[1..], packed[1..], step.value.1))
  }

  predicate OmittedBlock(plain: Element, packed: Element, state: ParserState) {
    && plain.Block? && plain.type_ == TLV_UPDATE && packed.Block? && packed.type_ == TLV_UPDATE
    && exists k: u8 :: Shares(plain.value, k, state) && packed.value == Omit(plain.value, k)
  }

  lemma BlockDecodes(plain: Element, packed: Element, state: ParserState)
    requires plain.Block? && (packed == plain || OmittedBlock(plain, packed, state))
    ensures packed.Block? && DecodeTlv(packed.type_, packed.value, state) == DecodeTlv(plain.type_, plain.value, state)
  {
    hide DecodeUpdate, Omit, DecodeHello, DecodeIhu, DecodeRouterId, DecodeNextHop, DecodeRouteRequest,
         DecodeSeqnoRequest, DecodeSubTlvs;
    if packed != plain {
      var k: u8 :| Shares(plain.value, k, state) && packed.value == Omit(plain.value, k);
      OmittedUpdateDecodes(plain.value, k, state);
    }
  }

  lemma DecodeElement(stream: seq<Element>, state: ParserState)
    requires WellFramed(stream) && stream != []
    ensures stream[0].Gap? ==>
      DecodeBody(Octets(stream), state) == Prepend([Pad1], DecodeBody(Octets(stream[1..]), state))
    ensures stream[0].Block? ==>
      var step := DecodeTlv(stream[0].type_, stream[0].value, state);
      DecodeBody(Octets(stream), state) ==
        if step.Err? then Err(step.error) else Prepend(Listed(step.value.0),
                                                       DecodeBody(Octets(stream[1..]), step.value.1))
  {
    hide DecodeTlv, Prepend;
    var rest := Octets(stream[1..]);
    if stream[0].Gap? {
      assert ([0] + rest)[1..] == rest;
    } else {
      NextFramePut(stream[0].type_, stream[0].value, rest);
    }
  }

  /** A compressed stream decodes exactly as its uncompressed form: same TLVs,
      same error, same context at the end. */
  lemma {:induction false} CompressionPreservesMeaning(plain: seq<Element>, packed: seq<Element>, state: ParserState)
    requires WellFramed(plain) && WellFramed(packed) && Compresses(plain, packed, state)
    ensures DecodeBody(Octets(packed), state) == DecodeBody(Octets(plain), state)
    decreases |plain|
  {
    hide DecodeTlv, Prepend, DecodeBody, Octets, OmittedBlock;
    if plain != [] {
      DecodeElement(plain, state);
      DecodeElement(packed, state);
      if plain[0].Gap? {
        assert packed[0].Gap? by { GapStays(plain[0], packed[0], state); }
        CompressionPreservesMeaning(plain[1..], packed[1..], state);
      } else {
        BlockDecodes(plain[0], packed[0], state);
        var step := DecodeTlv(plain[0].type_, plain[0].value, state);
        if step.Ok? { CompressionPreservesMeaning(plain[1..], packed[1..], step.value.1); }
      }
    } else {
      assert Octets(packed) == Octets(plain);
    }
  }

  lemma GapStays(plain: Element, packed: Element, state: ParserState)
    requires plain.Gap? && (packed == plain || OmittedBlock(plain, packed, state))
    ensures packed.Gap?
  {
  }
}
