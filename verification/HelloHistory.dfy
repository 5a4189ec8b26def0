/** The 16-entry Hello history and its catch-up timer
    (crates/babel-protocol/src/metric.rs, engine/timers.rs).

    The history is a 16-bit shift register.  It is proved against the list of
    the latest Hello outcomes, newest first, that RFC 8966 Appendix A.1 talks about. */
module Hello {
  import opened Model

  // ----- the specification: a list of at most sixteen outcomes

  /** What the register stands for: outcomes newest first, and the next expected number. */
  datatype View = View(outcomes: seq<bool>, expected: Option<u16>)

  function Newest16(s: seq<bool>): seq<bool> { s[..Min(16, |s|)] }

  function Misses(n: nat): seq<bool> { seq(n, _ => false) }

  /** `count` Hellos were expected and none arrived. */
  function AfterMisses(v: View, count: nat): View {
    if v.expected.None? then v
    else View(Newest16(Misses(count) + v.outcomes), Some(WrapAdd16(v.expected.value, count)))
  }

  /** A Hello arrived: fast-forward over a gap of at most 16, undo at most 16,
      otherwise restart the history. */
  function AfterHello(v: View, seqno: u16): View {
    var next := Some(WrapAdd16(seqno, 1));
    if v.expected.None? then View([true], next)
    else
      var forward := WrapSub16(seqno, v.expected.value);
      var backward := WrapSub16(v.expected.value, seqno);
      if forward <= 16 then
        View(Newest16([true] + Newest16(Misses(forward) + v.outcomes)), next)
      else if backward <= 16 then
        View(Newest16([true] + v.outcomes[Min(backward, |v.outcomes|)..]), next)
      else View([true], next)
  }

  // ----- bits

  /** `x << c` on a 16-bit register. */
  function Shl16(x: u16, c: nat): u16
    decreases c
  {
    if c == 0 then x else Shl16(x * 2 % 0x1_0000, c - 1)
  }

  /** `x >> c` on a 16-bit register for `c` below the width. */
  function Shr16(x: u16, c: nat): u16
    decreases c
  {
    if c == 0 then x else Shr16(x / 2, c - 1)
  }

  /** The low `len` bits, least significant first. */
  function Bits(x: nat, len: nat): (s: seq<bool>)
    ensures |s| == len
  {
    if len == 0 then [] else [x % 2 == 1] + Bits(x / 2, len - 1)
  }

  function CountOnes(x: nat): nat {
    if x == 0 then 0 else x % 2 + CountOnes(x / 2)
  }

  function Trues(s: seq<bool>): nat {
    if s == [] then 0 else (if s[0] then 1 else 0) + Trues(s[1..])
  }

  lemma {:induction false} BitsTake(x: nat, len: nat, k: nat)
    requires k <= len
    ensures Bits(x, len)[..k] == Bits(x, k)
  {
    if k > 0 {
      BitsTake(x / 2, len - 1, k - 1);
      assert Bits(x, len)[..k] == [x % 2 == 1] + Bits(x / 2, len - 1)[..k - 1];
    }
  }

  lemma {:induction false} BitsModulo(x: nat, len: nat)
    ensures Bits(x % Pow2(len), len) == Bits(x, len)
  {
    if len > 0 {
      ModHalf(x, Pow2(len - 1));
      BitsModulo(x / 2, len - 1);
    }
  }

  lemma ModHalf(x: nat, p: nat)
    requires p > 0
    ensures x % (2 * p) / 2 == (x / 2) % p
    ensures x % (2 * p) % 2 == x % 2
  {
    var h := x / 2;
    var q, r := h / p, h % p;
    assert h == q * p + r;
    assert x == q * (2 * p) + (2 * r + x % 2);
    var t := 2 * r + x % 2;
    assert 0 <= t < 2 * p;
    DivModUnique(x, 2 * p, q, t);
  }

  lemma DivModUnique(x: nat, d: nat, q: nat, r: nat)
    requires d > 0 && r < d && x == q * d + r
    ensures x / d == q && x % d == r
  {
    var q', r' := x / d, x % d;
    if q' < q {
      Stride(q, q', d);
    } else if q < q' {
      Stride(q', q, d);
    }
  }

  lemma Stride(a: nat, b: nat, d: nat)
    requires b < a
    ensures b * d + d <= a * d
  {
    assert a * d - b * d == (a - b) * d;
    assert (a - b) * d == d + (a - b - 1) * d;
  }

  /** Shifting one bit in pushes one outcome on the list. */
  lemma PushBit(x: u16, len: nat, b: nat)
    requires len <= 16 && x < Pow2(len) && b <= 1
    ensures Stands((x * 2 + b) % 0x1_0000, Min(16, len + 1), Newest16([b == 1] + Bits(x, len)))
  {
    hide Pow2, Bits;
    BitsOfPushed(x, len, b);
    if len < 16 {
      RoomForOne(x, len, b);
    } else {
      OldestDropsOut(x * 2 + b);
    }
  }

  lemma RoomForOne(x: nat, len: nat, b: nat)
    requires len < 16 && x < Pow2(len) && b <= 1
    ensures (x * 2 + b) % 0x1_0000 == x * 2 + b < Pow2(len + 1)
  {
    Pow2At16();
    PowMonotone(len + 1, 16);
  }

  lemma OldestDropsOut(full: nat)
    ensures full % 0x1_0000 < Pow2(16)
    ensures Bits(full % 0x1_0000, 16) == Bits(full, 17)[..16]
  {
    Pow2At16();
    BitsModulo(full, 16);
    BitsTake(full, 17, 16);
  }

  lemma BitsOfPushed(x: nat, len: nat, b: nat)
    requires b <= 1
    ensures Bits(x * 2 + b, len + 1) == [b == 1] + Bits(x, len)
  {
    Halve(x, b);
  }

  lemma Pow2At16()
    ensures Pow2(16) == 0x1_0000
  {
    assert Pow2(4) == 16;
    assert Pow2(8) == 16 * 16;
    assert Pow2(12) == 16 * 256;
  }

  lemma {:induction false} PowMonotone(a: nat, b: nat)
    requires a <= b
    ensures Pow2(a) <= Pow2(b)
    decreases b - a
  {
    if a < b { PowMonotone(a + 1, b); }
  }

  /** A left shift by fewer than 16 pushes that many misses. */
  lemma {:induction false} ShlPushesMisses(x: u16, len: nat, c: nat)
    requires len <= 16 && x < Pow2(len)
    ensures var n := Min(16, len + c);
            Shl16(x, c) < Pow2(n) && Bits(Shl16(x, c), n) == Newest16(Misses(c) + Bits(x, len))
    decreases c
  {
    if c == 0 {
      assert Misses(0) + Bits(x, len) == Bits(x, len);
    } else {
      PushBit(x, len, 0);
      var y, n := x * 2 % 0x1_0000, Min(16, len + 1);
      ShlPushesMisses(y, n, c - 1);
      PushThenPush(Bits(x, len), c - 1);
    }
  }

  lemma SixteenMissesSuffice(s: seq<bool>, count: nat)
    ensures Newest16(Misses(Min(count, 16)) + s) == Newest16(Misses(count) + s)
  {
  }

  lemma WrapCount(a: u16, count: nat)
    ensures WrapAdd16(a, count % 0x1_0000) == WrapAdd16(a, count)
  {
  }

  lemma PushThenPush(s: seq<bool>, c: nat)
    ensures Newest16(Misses(c) + Newest16([false] + s)) == Newest16(Misses(c + 1) + s)
  {
    assert Misses(c + 1) + s == Misses(c) + ([false] + s);
  }

  /** A right shift forgets the newest outcomes. */
  lemma {:induction false} ShrDropsNewest(x: u16, len: nat, c: nat)
    requires len <= 16 && x < Pow2(len)
    ensures Shr16(x, c) < Pow2(SatSub(len, c))
    ensures Bits(Shr16(x, c), SatSub(len, c)) == Bits(x, len)[Min(c, len)..]
    decreases c
  {
    if c > 0 {
      if len == 0 {
        ShrDropsNewest(x / 2, 0, c - 1);
      } else {
        ShrDropsNewest(x / 2, len - 1, c - 1);
        assert Bits(x, len)[Min(c, len)..] == Bits(x / 2, len - 1)[Min(c, len) - 1..];
      }
    }
  }

  lemma {:induction false} ZeroBits(len: nat)
    ensures Bits(0, len) == Misses(len)
  {
    if len > 0 {
      ZeroBits(len - 1);
      assert Misses(len) == [false] + Misses(len - 1);
    }
  }

  lemma {:induction false} CountOnesOfBits(x: nat, len: nat)
    requires x < Pow2(len)
    ensures CountOnes(x) == Trues(Bits(x, len))
  {
    if len > 0 {
      CountOnesOfBits(x / 2, len - 1);
      assert Bits(x, len)[1..] == Bits(x / 2, len - 1);
    }
  }

  lemma {:induction false} TruesAppend(a: seq<bool>, b: seq<bool>)
    ensures Trues(a + b) == Trues(a) + Trues(b)
  {
    if a == [] {
      assert a + b == b;
    } else {
      TruesAppend(a[1..], b);
      assert (a + b)[1..] == a[1..] + b;
    }
  }

  lemma {:induction false} TruesOfMisses(n: nat)
    ensures Trues(Misses(n)) == 0
  {
    if n > 0 {
      TruesOfMisses(n - 1);
      assert Misses(n)[1..] == Misses(n - 1);
    }
  }

  lemma {:induction false} HighBitsClear(x: nat, len: nat, more: nat)
    requires x < Pow2(len)
    ensures Bits(x, len + more) == Bits(x, len) + Misses(more)
  {
    if len == 0 {
      ZeroBits(more);
    } else {
      HighBitsClear(x / 2, len - 1, more);
    }
  }

  // ----- the register

  class HelloHistory {
    var bits: u16
    var samples: u8
    var expected: Option<u16>

    constructor ()
      ensures Valid() && Abstract() == View([], None)
    {
      bits, samples, expected := 0, 0, None;
    }

    /** At most 16 samples and no set bit above the sample count. */
    ghost predicate Valid()
      reads this
    {
      && samples <= 16
      && bits < Pow2(samples)
      && (expected.None? ==> samples == 0)
    }

    ghost function Abstract(): View
      reads this
    {
      View(Bits(bits, samples), expected)
    }

    method AppendMissed(count: u8)
      requires Valid() && expected.Some?
      modifies this
      ensures Valid() && expected == old(expected)
      ensures Abstract().outcomes == Newest16(Misses(count) + old(Abstract()).outcomes)
    {
      if count >= 16 {
        ghost var was := Bits(bits, samples);
        assert Newest16(Misses(count) + was) == Misses(16);
        ZeroBits(16);
        Pow2At16();
        bits, samples := 0, 16;
      } else {
        ShlPushesMisses(bits, samples, count);
        bits := Shl16(bits, count);
        samples := Min(samples + count, 16);
      }
    }

    /** Record a received Hello.  `bits >>= backward` uses the processor's
        masked shift, so a full-width shift by 16 leaves the register alone:
        the list is refined exactly when that does not lose the undo. */
    method Record(seqno: u16) returns (restarted: bool)
      requires Valid()
      modifies this
      ensures expected == Some(WrapAdd16(seqno, 1)) && 0 < samples <= 16
      ensures restarted <==>
              && old(expected).Some?
              && WrapSub16(seqno, old(expected).value) > 16
              && WrapSub16(old(expected).value, seqno) > 16
      ensures (Valid() && Abstract() == AfterHello(old(Abstract()), seqno))
              <==> !UndoIsLost(old(Abstract()), seqno)
    {
      hide Bits, Pow2, Newest16, Misses, Shr16;
      restarted := false;
      ghost var was := Abstract();
      if expected.None? {
        Start(seqno);
        return;
      }
      var forward := WrapSub16(seqno, expected.value);
      var backward := WrapSub16(expected.value, seqno);
      if forward <= 16 {
        AppendMissed(forward);
        HeardAhead(was, bits, samples, seqno);
        PushHeard(seqno);
      } else if backward <= 16 {
        HeardBehind(was, bits, samples, seqno);
        bits := Shr16(bits, backward % 16);
        samples := SatSub(samples, backward);
        PushHeard(seqno);
      } else {
        BothWays(seqno, expected.value);
        restarted := true;
        Start(seqno);
      }
    }

    method Start(seqno: u16)
      modifies this
      ensures Valid() && samples == 1 && Abstract() == View([true], Some(WrapAdd16(seqno, 1)))
    {
      bits, samples, expected := 1, 1, Some(WrapAdd16(seqno, 1));
      StandsForOneHello(1);
    }

    method PushHeard(seqno: u16)
      requires samples <= 16
      modifies this
      ensures bits == (old(bits) * 2 + 1) % 0x1_0000
      ensures samples == Min(old(samples) + 1, 16)
      ensures expected == Some(WrapAdd16(seqno, 1))
    {
      bits := (bits * 2 + 1) % 0x1_0000;
      samples := Min(samples + 1, 16);
      expected := Some(WrapAdd16(seqno, 1));
    }

    method MissedMany(count: u64)
      requires Valid()
      modifies this
      ensures Valid() && Abstract() == AfterMisses(old(Abstract()), count)
    {
      if expected.Some? {
        SixteenMissesSuffice(Bits(bits, samples), count);
        WrapCount(expected.value, count);
        AppendMissed(Min(count, 16));
        expected := Some(WrapAdd16(expected.value, count % 0x1_0000));
      } else {
        assert Bits(bits, samples) == [];
      }
    }

    /** Hellos received among the newest `window` outcomes. */
    method Received(window: u8) returns (n: nat)
      requires Valid() && 1 <= window <= 16
      ensures n == Trues(Bits(bits, samples)[..Min(window, samples)])
    {
      n := CountOnes(bits % Pow2(window));
      CountInWindow(bits, samples, window);
    }
  }

  /** The one undo the register gets wrong: a Hello exactly 16 behind the
      expected number while any of the 15 newest Hellos was received. */
  predicate UndoIsLost(v: View, seqno: u16) {
    && v.expected.Some?
    && WrapSub16(v.expected.value, seqno) == 16
    && true in v.outcomes[..Min(15, |v.outcomes|)]
  }

  /** Two Hellos in a row and then one 16 behind lose the undo. */
  lemma LostUndoExample()
    ensures var v := AfterHello(AfterHello(View([], None), 0x100), 0x101); UndoIsLost(v, 0xf2)
  {
    var v := AfterHello(AfterHello(View([], None), 0x100), 0x101);
    assert v.outcomes == [true, true];
    assert v.outcomes[..2][0];
  }

  lemma NewestFifteen(bits: u16, len: nat)
    requires len <= 16 && bits < Pow2(len)
    ensures bits % 0x8000 == 0 <==> true !in Bits(bits, len)[..Min(15, len)]
  {
    assert Pow2(15) == 0x8000 by { Pow2At16(); }
    BitsModulo(bits, 15);
    AllMisses(bits % 0x8000, 15);
    if len < 15 {
      HighBitsClear(bits, len, 15 - len);
    } else {
      BitsTake(bits, len, 15);
    }
  }

  lemma {:induction false} AllMisses(x: nat, len: nat)
    requires x < Pow2(len)
    ensures x == 0 <==> true !in Bits(x, len)
  {
    if len > 0 {
      AllMisses(x / 2, len - 1);
    }
  }

  lemma BothWays(a: u16, b: u16)
    ensures WrapSub16(a, b) + WrapSub16(b, a) in {0, 0x1_0000}
  {
  }

  /** The register `x` with `n` samples stands for the list `s`. */
  ghost predicate Stands(x: nat, n: nat, s: seq<bool>) { x < Pow2(n) && Bits(x, n) == s }

  lemma HeardAhead(v: View, x: u16, n: nat, seqno: u16)
    requires v.expected.Some? && WrapSub16(seqno, v.expected.value) <= 16 && n <= 16
    requires Stands(x, n, Newest16(Misses(WrapSub16(seqno, v.expected.value)) + v.outcomes))
    ensures Stands((x * 2 + 1) % 0x1_0000, Min(n + 1, 16), AfterHello(v, seqno).outcomes)
    ensures !UndoIsLost(v, seqno)
  {
    BothWays(seqno, v.expected.value);
    PushBit(x, n, 1);
  }

  lemma HeardBehind(v: View, x: u16, n: nat, seqno: u16)
    requires v.expected.Some? && WrapSub16(seqno, v.expected.value) > 16
    requires WrapSub16(v.expected.value, seqno) <= 16
    requires n <= 16 && Stands(x, n, v.outcomes)
    ensures var back := WrapSub16(v.expected.value, seqno);
            Stands((Shr16(x, back % 16) * 2 + 1) % 0x1_0000, Min(SatSub(n, back) + 1, 16),
                   AfterHello(v, seqno).outcomes)
            <==> !UndoIsLost(v, seqno)
  {
    hide Stands, Shr16, Newest16, Bits, Pow2;
    var back := WrapSub16(v.expected.value, seqno);
    StandsBits(x, n, v.outcomes);
    if back < 16 {
      UndoThenPush(x, n, back);
    } else {
      UndoOfSixteen(x, n);
    }
  }

  lemma StandsBits(x: nat, n: nat, s: seq<bool>)
    requires Stands(x, n, s)
    ensures x < Pow2(n) && Bits(x, n) == s && |s| == n
  {
  }

  lemma UndoOfSixteen(x: u16, n: nat)
    requires n <= 16 && x < Pow2(n)
    ensures Stands((Shr16(x, 0) * 2 + 1) % 0x1_0000, 1, Newest16([true] + Bits(x, n)[n..]))
            <==> true !in Bits(x, n)[..Min(15, n)]
  {
    hide Stands, Newest16, Bits, Pow2;
    FullWidthUndo(x, n);
    NewestFifteen(x, n);
  }

  lemma UndoThenPush(x: u16, n: nat, back: nat)
    requires n <= 16 && x < Pow2(n) && back < 16
    ensures Stands((Shr16(x, back) * 2 + 1) % 0x1_0000, Min(SatSub(n, back) + 1, 16),
                   Newest16([true] + Bits(x, n)[Min(back, n)..]))
  {
    ShrDropsNewest(x, n, back);
    PushBit(Shr16(x, back), SatSub(n, back), 1);
  }

  lemma FullWidthUndo(bits: u16, len: nat)
    requires len <= 16
    ensures Stands((bits * 2 + 1) % 0x1_0000, 1, Newest16([true] + Bits(bits, len)[len..]))
            <==> bits % 0x8000 == 0
  {
    var s := Bits(bits, len)[len..];
    assert Newest16([true] + s) == [true];
    OddRegister(bits);
    StandsForOneHello((bits * 2 + 1) % 0x1_0000);
  }

  lemma StandsForOneHello(y: nat)
    ensures Stands(y, 1, [true]) <==> y == 1
  {
    assert Pow2(1) == 2;
    assert Bits(y, 1) == [y % 2 == 1];
  }

  lemma OddRegister(bits: u16)
    ensures (bits * 2 + 1) % 0x1_0000 == 1 <==> bits % 0x8000 == 0
  {
  }

  lemma CountInWindow(bits: u16, len: nat, window: nat)
    requires len <= 16 && bits < Pow2(len)
    ensures CountOnes(bits % Pow2(window)) == Trues(Bits(bits, len)[..Min(window, len)])
  {
    var low := bits % Pow2(window);
    CountOnesOfBits(low, window);
    BitsModulo(bits, window);
    if window <= len {
      BitsTake(bits, len, window);
    } else {
      HighBitsClear(bits, len, window - len);
      TruesAppend(Bits(bits, len), Misses(window - len));
      TruesOfMisses(window - len);
      assert Bits(bits, len)[..len] == Bits(bits, len);
    }
  }

  // ----- whole runs

  datatype Observation = Heard(seqno: u16) | Missed(count: u64)

  function AfterAll(v: View, run: seq<Observation>): View
    decreases |run|
  {
    if run == [] then v else AfterAll(After(v, run[0]), run[1..])
  }

  function After(v: View, o: Observation): View {
    match o
    case Heard(seqno) => AfterHello(v, seqno)
    case Missed(count) => AfterMisses(v, count)
  }

  predicate NoUndoLost(v: View, run: seq<Observation>)
    decreases |run|
  {
    run != [] ==>
      && (run[0].Heard? ==> !UndoIsLost(v, run[0].seqno))
      && NoUndoLost(After(v, run[0]), run[1..])
  }

  /** Over any run of Hellos and expiries that loses no undo, the register
      stands for the list of the newest outcomes. */
  method Replay(run: seq<Observation>) returns (h: HelloHistory)
    requires NoUndoLost(View([], None), run)
    ensures fresh(h) && h.Valid() && h.Abstract() == AfterAll(View([], None), run)
  {
    h := new HelloHistory();
    for i := 0 to |run|
      invariant fresh(h) && h.Valid()
      invariant NoUndoLost(h.Abstract(), run[i..])
      invariant AfterAll(h.Abstract(), run[i..]) == AfterAll(View([], None), run)
    {
      assert run[i..][1..] == run[i + 1..];
      match run[i]
      case Heard(seqno) => var _ := h.Record(seqno);
      case Missed(count) => h.MissedMany(count);
    }
  }

  // ----- the expiry timer

  datatype HelloTimer = HelloTimer(intervalCs: u16, nextExpiryMs: u64)

  function IntervalMs(t: HelloTimer): nat { Max(t.intervalCs * 10, 1) }

  /** Closed form: all expiries up to `now` at once. */
  function Advance(t: HelloTimer, v: View, now: u64): (HelloTimer, View) {
    if now < t.nextExpiryMs then (t, v)
    else
      var missed := 1 + (now - t.nextExpiryMs) / IntervalMs(t);
      (t.(nextExpiryMs := SatAdd(t.nextExpiryMs, missed * IntervalMs(t))), AfterMisses(v, missed))
  }

  /** Reference: one expiry at a time. */
  ghost function AdvanceOneByOne(t: HelloTimer, v: View, now: u64): (HelloTimer, View)
    requires now + IntervalMs(t) <= U64_MAX
    decreases SatSub(now + 1, t.nextExpiryMs)
  {
    if now < t.nextExpiryMs then (t, v)
    else AdvanceOneByOne(t.(nextExpiryMs := t.nextExpiryMs + IntervalMs(t)), AfterMisses(v, 1), now)
  }

  lemma MissesCompose(v: View, a: nat, b: nat)
    requires |v.outcomes| <= 16
    ensures AfterMisses(AfterMisses(v, a), b) == AfterMisses(v, a + b)
  {
    hide Newest16, Misses, WrapAdd16;
    if v.expected.Some? {
      MissesAdd(a, b, v.outcomes);
      NewestOfNewest(Misses(b), Misses(a) + v.outcomes);
      WrapTwice(v.expected.value, a, b);
    }
  }

  lemma MissesAdd(a: nat, b: nat, s: seq<bool>)
    ensures Misses(a + b) + s == Misses(b) + (Misses(a) + s)
  {
  }

  lemma NewestOfNewest(front: seq<bool>, s: seq<bool>)
    ensures Newest16(front + Newest16(s)) == Newest16(front + s)
  {
  }

  lemma WrapTwice(x: u16, a: nat, b: nat)
    ensures WrapAdd16(WrapAdd16(x, a), b) == WrapAdd16(x, a + b)
  {
  }

  lemma {:induction false} CatchUpIsIterated(t: HelloTimer, v: View, now: u64)
    requires now + IntervalMs(t) <= U64_MAX && |v.outcomes| <= 16
    ensures Advance(t, v, now) == AdvanceOneByOne(t, v, now)
    decreases SatSub(now + 1, t.nextExpiryMs)
  {
    if now >= t.nextExpiryMs {
      var i := IntervalMs(t);
      CatchUpIsIterated(t.(nextExpiryMs := t.nextExpiryMs + i), AfterMisses(v, 1), now);
      AdvanceUnrolls(t, v, now);
    }
  }

  lemma AdvanceUnrolls(t: HelloTimer, v: View, now: u64)
    requires t.nextExpiryMs <= now && now + IntervalMs(t) <= U64_MAX && |v.outcomes| <= 16
    ensures Advance(t, v, now)
         == Advance(t.(nextExpiryMs := t.nextExpiryMs + IntervalMs(t)), AfterMisses(v, 1), now)
  {
    var i, late := IntervalMs(t), now - t.nextExpiryMs;
    QuotientBound(late, i);
    if late < i {
      DivModUnique(late, i, 0, late);
    } else {
      QuotientStep(late, i);
      var rest := 1 + (late - i) / i;
      MissesCompose(v, 1, rest);
      assert (1 + rest) * i == i + rest * i;
    }
  }

  lemma QuotientStep(x: nat, d: nat)
    requires d > 0 && x >= d
    ensures x / d == 1 + (x - d) / d
  {
    var q, r := (x - d) / d, (x - d) % d;
    assert (q + 1) * d == q * d + d;
    DivModUnique(x, d, q + 1, r);
  }

  lemma QuotientBound(x: nat, d: nat)
    requires d > 0
    ensures (1 + x / d) * d <= x + d
  {
    assert (1 + x / d) * d == d + x / d * d;
  }

  /** Advancing at `t1` and then at `t2` equals advancing once at `t2`:
      missed ticks can be coalesced without changing history or expiry. */
  lemma {:induction false} CatchUpCoalesces(t: HelloTimer, v: View, t1: u64, t2: u64)
    requires t1 <= t2 && t2 + IntervalMs(t) <= U64_MAX && |v.outcomes| <= 16
    ensures var (tm, vm) := Advance(t, v, t1); Advance(tm, vm, t2) == Advance(t, v, t2)
  {
    CatchUpIsIterated(t, v, t1);
    CatchUpIsIterated(t, v, t2);
    IteratedCoalesces(t, v, t1, t2);
    var (tm, vm) := Advance(t, v, t1);
    CatchUpIsIterated(tm, vm, t2);
  }

  lemma {:induction false} IteratedCoalesces(t: HelloTimer, v: View, t1: u64, t2: u64)
    requires t1 <= t2 && t2 + IntervalMs(t) <= U64_MAX
    ensures var (tm, vm) := AdvanceOneByOne(t, v, t1);
            tm.intervalCs == t.intervalCs && AdvanceOneByOne(tm, vm, t2) == AdvanceOneByOne(t, v, t2)
    decreases SatSub(t1 + 1, t.nextExpiryMs)
  {
    if t1 >= t.nextExpiryMs {
      IteratedCoalesces(t.(nextExpiryMs := t.nextExpiryMs + IntervalMs(t)), AfterMisses(v, 1), t1, t2);
    }
  }

  /** `advance_hello_timer`. */
  method AdvanceTimer(timer: Option<HelloTimer>, history: HelloHistory, now: u64)
    returns (timer': Option<HelloTimer>)
    requires history.Valid()
    requires timer.Some? && timer.value.nextExpiryMs <= now ==>
      1 + (now - timer.value.nextExpiryMs) / IntervalMs(timer.value) <= U64_MAX
    modifies history
    ensures history.Valid()
    ensures timer.None? ==> timer'.None? && history.Abstract() == old(history.Abstract())
    ensures timer.Some? ==>
      timer'.Some? && (timer'.value, history.Abstract()) == Advance(timer.value, old(history.Abstract()), now)
  {
    timer' := timer;
    if timer.None? || now < timer.value.nextExpiryMs { return; }
    var value := timer.value;
    var interval := IntervalMs(value);
    var missed := 1 + (now - value.nextExpiryMs) / interval;
    QuotientBelow(now - value.nextExpiryMs, interval, 1);
    history.MissedMany(missed);
    var span := Min(missed * interval, U64_MAX);
    timer' := Some(value.(nextExpiryMs := SatAdd(value.nextExpiryMs, span)));
  }

  lemma QuotientBelow(x: nat, d: nat, k: nat)
    requires 0 < k <= d
    ensures 0 <= x / d && k * (x / d) <= x && 0 <= (1 + x / d) * d
  {
    var q, r := x / d, x % d;
    DivModUnique(x, d, q, r);
    GrowsInFactor(q, k, d);
  }

  lemma GrowsInFactor(q: nat, k: nat, d: nat)
    requires k <= d
    ensures k * q <= d * q
  {
    assert d * q == k * q + (d - k) * q;
  }

  /** The precondition leaves out one call only: a zero interval, an expiry at zero and the last
      representable time, where counting the expiries overflows. */
  lemma OverflowIsOneCall(t: HelloTimer, now: u64)
    requires t.nextExpiryMs <= now
    ensures 1 + (now - t.nextExpiryMs) / IntervalMs(t) > U64_MAX <==>
            t.intervalCs == 0 && t.nextExpiryMs == 0 && now == U64_MAX
  {
    var x, d := now - t.nextExpiryMs, IntervalMs(t);
    QuotientBelow(x, d, if d == 1 then 1 else 2);
    assert x / 1 == x;
  }
}
