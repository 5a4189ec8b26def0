/** Octets, addresses and prefixes on the wire
    (crates/babel-protocol/src/wire/prefix.rs, wire.rs). */
module WirePrefix {
  import opened Model

  type Bytes = seq<u8>

  datatype WireError =
    | ShortHeader
    | BadMagic
    | UnsupportedVersion(version: u8)
    | TruncatedBody
    | TruncatedTlv(type_: u8)
    | InvalidTlv(type_: u8)
    | BodyTooLarge
    | MissingRouterId
    | PacketBudgetTooSmall

  datatype AddressEncoding = Wildcard | Ipv4 | Ipv6 | Ipv6LinkLocal | Ipv4ViaIpv6

  function AeFromOctet(value: u8): Option<AddressEncoding> {
    match value
    case 0 => Some(Wildcard)
    case 1 => Some(Ipv4)
    case 2 => Some(Ipv6)
    case 3 => Some(Ipv6LinkLocal)
    case 4 => Some(Ipv4ViaIpv6)
    case _ => None
  }

  function AeOctet(ae: AddressEncoding): (o: u8)
    ensures AeFromOctet(o) == Some(ae)
  {
    match ae
    case Wildcard => 0
    case Ipv4 => 1
    case Ipv6 => 2
    case Ipv6LinkLocal => 3
    case Ipv4ViaIpv6 => 4
  }

  function AddressLen(ae: AddressEncoding): nat {
    match ae
    case Wildcard => 0
    case Ipv4 => 4
    case Ipv4ViaIpv6 => 4
    case Ipv6 => 16
    case Ipv6LinkLocal => 8
  }

  function MaxPrefixBits(ae: AddressEncoding): nat {
    match ae
    case Wildcard => 0
    case Ipv4 => 32
    case Ipv4ViaIpv6 => 32
    case Ipv6 => 128
    case Ipv6LinkLocal => 128
  }

  // ----- big-endian integers

  function Be16(data: Bytes): u16
    requires |data| >= 2
  {
    (data[0] as int) * 256 + data[1]
  }

  function ToBe16(x: u16): (b: Bytes)
    ensures |b| == 2 && Be16(b) == x
  {
    [x / 256, x % 256]
  }

  function Be32(data: Bytes): u32
    requires |data| >= 4
  {
    (Be16(data) as int) * 0x1_0000 + Be16(data[2..])
  }

  function ToBe32(x: u32): (b: Bytes)
    ensures |b| == 4 && Be32(b) == x
  {
    var b := ToBe16(x / 0x1_0000) + ToBe16(x % 0x1_0000);
    assert b[2..] == ToBe16(x % 0x1_0000);
    assert Be16(b) == Be16(ToBe16(x / 0x1_0000));
    b
  }

  lemma Be16Front(a: Bytes, b: Bytes)
    requires |a| >= 2
    ensures Be16(a + b) == Be16(a)
  {
  }

  lemma Be32Front(a: Bytes, b: Bytes)
    requires |a| >= 4
    ensures Be32(a + b) == Be32(a)
  {
    assert (a + b)[2..] == a[2..] + b;
    Be16Front(a, b);
    Be16Front(a[2..], b);
  }

  // ----- bits and octets

  function Zeros(n: nat): Bytes { seq(n, _ => 0) }

  function Falses(n: nat): seq<bool> { seq(n, _ => false) }

  function Bit(b: bool): nat { if b then 1 else 0 }

  /** The low `n` bits of a number, most significant first. */
  function LowBits(x: nat, n: nat): (s: seq<bool>)
    ensures |s| == n
  {
    if n == 0 then [] else LowBits(x / 2, n - 1) + [x % 2 == 1]
  }

  function BitsValue(s: seq<bool>): (x: nat)
    ensures x < Pow2(|s|)
  {
    if s == [] then 0 else 2 * BitsValue(s[..|s| - 1]) + Bit(s[|s| - 1])
  }

  lemma {:induction false} BitsRoundTrip(s: seq<bool>)
    ensures LowBits(BitsValue(s), |s|) == s
  {
    if s != [] {
      BitsRoundTrip(s[..|s| - 1]);
      Halve(BitsValue(s[..|s| - 1]), Bit(s[|s| - 1]));
    }
  }

  function OctetBits(o: u8): (s: seq<bool>)
    ensures |s| == 8
  {
    LowBits(o, 8)
  }

  function BitsOctet(s: seq<bool>): u8
    requires |s| == 8
  {
    assert Pow2(8) == 256;
    BitsValue(s)
  }

  lemma OctetRoundTrip(s: seq<bool>)
    requires |s| == 8
    ensures OctetBits(BitsOctet(s)) == s
  {
    BitsRoundTrip(s);
  }

  /** The octets that carry a bit string, the last one padded with zero bits. */
  function Pack(bits: seq<bool>): (o: Bytes)
    ensures |o| == (|bits| + 7) / 8
  {
    if |bits| == 0 then []
    else if |bits| < 8 then [BitsOctet(bits + Falses(8 - |bits|))]
    else [BitsOctet(bits[..8])] + Pack(bits[8..])
  }

  function Unpack(octets: Bytes): (s: seq<bool>)
    ensures |s| == 8 * |octets|
  {
    if octets == [] then [] else OctetBits(octets[0]) + Unpack(octets[1..])
  }

  lemma {:induction false} UnpackPack(bits: seq<bool>)
    ensures bits <= Unpack(Pack(bits))
  {
    if |bits| == 0 {
    } else if |bits| < 8 {
      OctetRoundTrip(bits + Falses(8 - |bits|));
      assert Unpack(Pack(bits)) == bits + Falses(8 - |bits|);
    } else {
      OctetRoundTrip(bits[..8]);
      UnpackPack(bits[8..]);
      assert Pack(bits)[1..] == Pack(bits[8..]);
      assert bits == bits[..8] + bits[8..];
    }
  }

  // ----- prefixes

  function PrefixEncodedLen(ae: AddressEncoding, plen: u8): Option<nat> {
    if plen > MaxPrefixBits(ae) then None
    else if ae == Ipv6LinkLocal then (if plen >= 64 then Some((plen + 7) / 8 - 8) else None)
    else Some((plen + 7) / 8)
  }

  /** The first 64 bits of fe80::/64. */
  function LinkLocalBits(): (s: seq<bool>)
    ensures |s| == 64
  {
    OctetBits(0xfe) + OctetBits(0x80) + Falses(48)
  }

  /** Prefix from its explicit octets; host bits of the last octet are dropped. */
  function PrefixFromOctets(ae: AddressEncoding, plen: u8, encoded: Bytes): Option<IpNet>
    requires PrefixEncodedLen(ae, plen) == Some(|encoded|)
  {
    match ae
    case Wildcard => None
    case Ipv4 => Some(IpNet(V4, Unpack(encoded)[..plen]))
    case Ipv4ViaIpv6 => Some(IpNet(V4, Unpack(encoded)[..plen]))
    case Ipv6 => Some(IpNet(V6, Unpack(encoded)[..plen]))
    case Ipv6LinkLocal => Some(IpNet(V6, LinkLocalBits() + Unpack(encoded)[..plen - 64]))
  }

  /** `decode_prefix`: `omitted` leading octets come from the default prefix. */
  function DecodePrefix(ae: AddressEncoding, plen: u8, omitted: nat, suffix: Bytes,
                        previous: Option<Bytes>): Option<IpNet> {
    var size := PrefixEncodedLen(ae, plen);
    if size.None? || omitted > size.value || |suffix| < size.value - omitted then None
    else if omitted > 0 && (previous.None? || |previous.value| < omitted) then None
    else
      var inherited := if omitted > 0 then previous.value[..omitted] else [];
      PrefixFromOctets(ae, plen, inherited + suffix[..size.value - omitted])
  }

  predicate ValidNet(n: IpNet) {
    match n.family
    case V4 => |n.bits| <= 32
    case V6 => |n.bits| <= 128
  }

  /** `prefix_wire_bytes`. */
  function PrefixWireBytes(prefix: IpNet, ae: AddressEncoding): Bytes {
    if ae == Ipv6LinkLocal && prefix.family == V6 then
      if |prefix.bits| < 64 then [] else Pack(prefix.bits[64..])
    else Pack(prefix.bits)
  }

  function AeForKey(key: RouteKey, v4ViaV6: bool): AddressEncoding {
    if key.destination.family == V4 then (if v4ViaV6 then Ipv4ViaIpv6 else Ipv4) else Ipv6
  }

  predicate AeCarries(ae: AddressEncoding, family: Family) {
    match ae
    case Wildcard => false
    case Ipv4 => family == V4
    case Ipv4ViaIpv6 => family == V4
    case Ipv6 => family == V6
    case Ipv6LinkLocal => false
  }

  /** Every prefix comes back from its own octets. */
  lemma PrefixRoundTrip(prefix: IpNet, ae: AddressEncoding)
    requires ValidNet(prefix) && AeCarries(ae, prefix.family)
    ensures var wire := PrefixWireBytes(prefix, ae);
      && PrefixEncodedLen(ae, |prefix.bits|) == Some(|wire|)
      && DecodePrefix(ae, |prefix.bits|, 0, wire, None) == Some(prefix)
  {
    UnpackPack(prefix.bits);
    var wire := PrefixWireBytes(prefix, ae);
    assert Unpack(wire)[..|prefix.bits|] == prefix.bits;
    DecodeExplicit(ae, |prefix.bits|, wire, None);
  }

  /** Without omitted octets the default prefix plays no part. */
  lemma DecodeExplicit(ae: AddressEncoding, plen: u8, wire: Bytes, previous: Option<Bytes>)
    requires PrefixEncodedLen(ae, plen) == Some(|wire|)
    ensures DecodePrefix(ae, plen, 0, wire, previous) == PrefixFromOctets(ae, plen, wire)
  {
    assert [] + wire[..|wire|] == wire;
  }

  /** Octets of the address behind a prefix. */
  function PrefixAddressOctets(prefix: IpNet): Bytes
    requires ValidNet(prefix)
  {
    Pack(prefix.bits) + Zeros((if prefix.family == V4 then 4 else 16) - |Pack(prefix.bits)|)
  }

  function RouterIdFromPrefix(prefix: IpNet): (o: Bytes)
    requires ValidNet(prefix)
    ensures |o| == 8
  {
    var octets := PrefixAddressOctets(prefix);
    if prefix.family == V4 then Zeros(4) + octets else octets[8..]
  }

  predicate ValidRouterId(id: RouterId) {
    |id.octets| == 8 && id.octets != Zeros(8) && id.octets != seq(8, _ => 0xff)
  }

  /** `RouterId::new`. */
  function NewRouterId(octets: Bytes): Option<RouterId> {
    if ValidRouterId(RouterId(octets)) then Some(RouterId(octets)) else None
  }

  // ----- addresses

  predicate ValidAddress(a: IpAddr) {
    match a.family
    case V4 => |a.octets| == 4
    case V6 => |a.octets| == 16
  }

  /** fe80::/10. */
  predicate UnicastLinkLocal(a: IpAddr) {
    a.family == V6 && |a.octets| == 16 && a.octets[0] == 0xfe && a.octets[1] / 64 == 2
  }

  function LinkLocalOctets(): Bytes { [0xfe, 0x80, 0, 0, 0, 0, 0, 0] }

  function DecodeAddress(ae: AddressEncoding, data: Bytes): Option<IpAddr> {
    match ae
    case Ipv4 => if |data| == 4 then Some(IpAddr(V4, data)) else None
    case Ipv6 => if |data| == 16 then Some(IpAddr(V6, data)) else None
    case Ipv6LinkLocal => if |data| == 8 then Some(IpAddr(V6, LinkLocalOctets() + data)) else None
    case _ => None
  }

  function EncodeAddress(a: IpAddr): (AddressEncoding, Bytes)
    requires ValidAddress(a)
  {
    if a.family == V4 then (Ipv4, a.octets)
    else if UnicastLinkLocal(a) then (Ipv6LinkLocal, a.octets[8..])
    else (Ipv6, a.octets)
  }

  /** Addresses the eight-octet link-local form can carry: fe80::/64, or not link-local at all. */
  predicate Representable(a: IpAddr) {
    ValidAddress(a) && (UnicastLinkLocal(a) ==> a.octets[..8] == LinkLocalOctets())
  }

  /** An address survives the wire exactly when it is representable. */
  lemma AddressRoundTrip(a: IpAddr)
    requires ValidAddress(a)
    ensures var (ae, bytes) := EncodeAddress(a);
      && |bytes| == AddressLen(ae)
      && DecodeAddress(ae, bytes).Some?
      && (DecodeAddress(ae, bytes) == Some(a) <==> Representable(a))
  {
    if UnicastLinkLocal(a) {
      assert a.octets == a.octets[..8] + a.octets[8..];
    }
  }

  // ----- TLV framing

  function PutTlv(type_: u8, value: Bytes): Result<Bytes, WireError> {
    if |value| > 255 then Err(BodyTooLarge) else Ok([type_, |value|] + value)
  }

  predicate AllZero(value: Bytes) { forall i :: 0 <= i < |value| ==> value[i] == 0 }
}
