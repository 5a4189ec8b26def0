/** Integer widths, route identities and sequence-number arithmetic shared by
    every component (crates/babel-protocol/src/model.rs). */
module Model {

  type u8 = x: int | 0 <= x < 0x100
  type u16 = x: int | 0 <= x < 0x1_0000
  type u32 = x: int | 0 <= x < 0x1_0000_0000
  type u64 = x: int | 0 <= x < 0x1_0000_0000_0000_0000

  const U16_MAX: u16 := 0xffff
  const U32_MAX: u32 := 0xffff_ffff
  const U64_MAX: u64 := 0xffff_ffff_ffff_ffff

  /** Unreachable metric and saturation value. */
  const INFINITY: u16 := 0xffff

  datatype Option<+T> = None | Some(value: T)

  datatype Result<+T, +E> = Ok(value: T) | Err(error: E)

  function Pow2(n: nat): (p: nat)
    ensures p > 0
  {
    if n == 0 then 1 else 2 * Pow2(n - 1)
  }

  lemma Halve(x: nat, b: nat)
    requires b <= 1
    ensures (2 * x + b) / 2 == x && (2 * x + b) % 2 == b
  {
  }

  function Min(a: int, b: int): int { if a <= b then a else b }

  function Max(a: int, b: int): int { if a <= b then b else a }

  /** `u64::saturating_add`. */
  function SatAdd(a: u64, b: nat): u64 {
    if a + b <= U64_MAX then a + b else U64_MAX
  }

  /** `saturating_sub` at any unsigned width. */
  function SatSub(a: nat, b: nat): nat {
    if b <= a then a - b else 0
  }

  // ----- addresses, prefixes and routes

  datatype Family = V4 | V6

  /** A canonical prefix: only the bits its length covers exist. */
  datatype IpNet = IpNet(family: Family, bits: seq<bool>) {
    /** `ipnet::IpNet::contains`. */
    predicate Contains(inner: IpNet) { family == inner.family && bits <= inner.bits }
  }

  datatype IpAddr = IpAddr(family: Family, octets: seq<u8>)

  datatype RouterId = RouterId(octets: seq<u8>)

  /** A destination and optional source prefix. */
  datatype RouteKey = RouteKey(destination: IpNet, source: Option<IpNet>)

  /** `RouteKey::new`: a zero-length source prefix is no source at all. */
  function NewRouteKey(destination: IpNet, source: Option<IpNet>): Option<RouteKey> {
    if source.Some? && source.value.family != destination.family then None
    else if source.Some? && source.value.bits == [] then Some(RouteKey(destination, None))
    else Some(RouteKey(destination, source))
  }

  datatype SelectedRoute = SelectedRoute(
    key: RouteKey, routerId: RouterId, seqno: u16, metric: u16, nextHop: IpAddr, interface: string)

  // ----- sequence numbers

  /** `u16::wrapping_add`. */
  function WrapAdd16(a: u16, b: nat): u16 { (a + b) % 0x1_0000 }

  /** `u16::wrapping_sub`. */
  function WrapSub16(a: u16, b: u16): u16 { (a - b) % 0x1_0000 }

  /** Sequence-number comparison modulo 2^16; values exactly half the space
      apart are incomparable. */
  predicate SeqnoGt(a: u16, b: u16) {
    var delta := WrapSub16(a, b);
    delta != 0 && delta < 0x8000
  }

  datatype Distance = Distance(seqno: u16, metric: u16) {
    /** Strict feasibility of this advertisement against recorded history. */
    predicate FeasibleAgainst(recorded: Distance) {
      || SeqnoGt(seqno, recorded.seqno)
      || (seqno == recorded.seqno && metric < recorded.metric)
    }
  }

  /** All sequence numbers within half the space above `base` are linearly ordered. */
  predicate InWindow(base: u16, s: u16) { WrapSub16(s, base) < 0x8000 }

  /** Position of a sequence number above the window's base. */
  function Offset(base: u16, s: u16): nat { WrapSub16(s, base) }

  lemma SeqnoGtInWindow(base: u16, a: u16, b: u16)
    requires InWindow(base, a) && InWindow(base, b)
    ensures SeqnoGt(a, b) <==> Offset(base, a) > Offset(base, b)
    ensures a == b <==> Offset(base, a) == Offset(base, b)
  {
  }

  /** Outside one window the comparison is not transitive: three numbers can
      beat each other in a circle. */
  lemma SeqnoGtIsCyclic()
    ensures SeqnoGt(0x5555, 0) && SeqnoGt(0xaaaa, 0x5555) && SeqnoGt(0, 0xaaaa)
  {
  }
}
