/** Send-time rewriting of Hello timestamps
    (crates/babel-protocol/src/wire/packetizer.rs:17-75). */
module WireTimestamp {
  import opened Model
  import opened WirePrefix
  import opened WireTypes
  import opened WireDecode

  /** Rewritten octets, and the error that stopped the rewrite, if any. */
  datatype Stamped = Stamped(octets: Bytes, error: Option<WireError>)

  function After(done: Bytes, rest: Stamped): (r: Stamped)
    ensures |r.octets| == |done| + |rest.octets|
  {
    Stamped(done + rest.octets, rest.error)
  }

  function StampSubTlv(type_: u8, body: Bytes, timestamp: u32): (r: Bytes)
    ensures |r| == |body|
  {
    if type_ == SUBTLV_TIMESTAMP && |body| >= 4 then ToBe32(timestamp) + body[4..] else body
  }

  /** The sub-TLVs of one Hello. */
  function StampSubs(data: Bytes, timestamp: u32): (r: Stamped)
    ensures |r.octets| == |data|
    decreases |data|
  {
    if data == [] then Stamped([], None)
    else
      match NextFrame(data)
      case Padding(rest) => After([0], StampSubs(rest, timestamp))
      case Item(type_, body, rest) =>
        After([type_, |body|] + StampSubTlv(type_, body, timestamp), StampSubs(rest, timestamp))
      case Truncated(_) => Stamped(data, Some(InvalidTlv(TLV_HELLO)))
  }

  function StampTlv(type_: u8, value: Bytes, timestamp: u32): (r: Stamped)
    ensures |r.octets| == |value|
  {
    if type_ == TLV_HELLO && |value| >= 6 then After(value[..6], StampSubs(value[6..], timestamp))
    else Stamped(value, None)
  }

  function StampBody(body: Bytes, timestamp: u32): (r: Stamped)
    ensures |r.octets| == |body|
    decreases |body|
  {
    if body == [] then Stamped([], None)
    else
      match NextFrame(body)
      case Padding(rest) => After([0], StampBody(rest, timestamp))
      case Truncated(type_) => Stamped(body, Some(TruncatedTlv(type_)))
      case Item(type_, value, rest) =>
        var tlv := StampTlv(type_, value, timestamp);
        if tlv.error.Some? then Stamped([type_, |value|] + tlv.octets + rest, tlv.error)
        else After([type_, |value|] + tlv.octets, StampBody(rest, timestamp))
  }

  /** The whole datagram: header checks, then the declared body. */
  function StampPacket(data: Bytes, timestamp: u32): (r: Stamped)
    ensures |r.octets| == |data|
  {
    match PacketBody(data)
    case Err(e) => Stamped(data, Some(e))
    case Ok(body) =>
      var r := StampBody(body, timestamp);
      Stamped(data[..4] + r.octets + data[4 + |body|..], r.error)
  }

  // ----- the rewrite in place

  lemma AfterTwice(a: Bytes, b: Bytes, r: Stamped)
    ensures After(a, After(b, r)) == After(a + b, r)
  {
    assert a + (b + r.octets) == a + b + r.octets;
  }

  /** Rewrite one sub-TLV body of `len` octets. */
  method StampOne(data: array<u8>, type_: u8, at: nat, len: nat, timestamp: u32)
    requires at + len <= data.Length
    modifies data
    ensures data[..] == old(data[..at]) + StampSubTlv(type_, old(data[at..at + len]), timestamp) + old(data[at + len..])
  {
    hide ToBe32;
    ghost var was := data[..];
    if type_ == SUBTLV_TIMESTAMP && len >= 4 {
      CopyOctets(data, at, ToBe32(timestamp));
      assert was[at..at + len][4..] + was[at + len..] == was[at + 4..];
    } else {
      assert was == was[..at] + was[at..at + len] + was[at + len..];
    }
  }

  /** A rewrite under way: `done` has replaced the first `at` octets of `was`. */
  ghost predicate Doing(all: Bytes, head: Bytes, done: Bytes, was: Bytes, at: nat, tail: Bytes, timestamp: u32) {
    && at <= |was| && |done| == at
    && all == head + (done + was[at..]) + tail
    && StampSubs(was, timestamp) == After(done, StampSubs(was[at..], timestamp))
  }

  ghost predicate Finished(all: Bytes, head: Bytes, was: Bytes, tail: Bytes, timestamp: u32, error: Option<WireError>) {
    all == head + StampSubs(was, timestamp).octets + tail && error == StampSubs(was, timestamp).error
  }

  lemma Begin(head: Bytes, was: Bytes, tail: Bytes, timestamp: u32)
    ensures Doing(head + was + tail, head, [], was, 0, tail, timestamp)
  {
    hide StampSubs;
    AfterNothing(StampSubs(was, timestamp));
    assert was[0..] == was && [] + was == was;
  }

  lemma ReadAt(all: Bytes, head: Bytes, done: Bytes, was: Bytes, at: nat, tail: Bytes, timestamp: u32, i: nat)
    requires Doing(all, head, done, was, at, tail, timestamp) && at <= i < |was|
    ensures |head| + i < |all| && all[|head| + i] == was[i]
  {
    assert all[|head| + i] == (done + was[at..])[i] == was[at..][i - at];
  }

  lemma Pad(all: Bytes, head: Bytes, done: Bytes, was: Bytes, at: nat, tail: Bytes, timestamp: u32)
    requires Doing(all, head, done, was, at, tail, timestamp) && at < |was| && was[at] == 0
    ensures Doing(all, head, done + [0], was, at + 1, tail, timestamp)
  {
    hide StampSubs;
    SubsAt(was, at, timestamp);
    AfterTwice(done, [0], StampSubs(was[at + 1..], timestamp));
    assert done + was[at..] == (done + [0]) + was[at + 1..];
  }

  lemma Cut(all: Bytes, head: Bytes, done: Bytes, was: Bytes, at: nat, tail: Bytes, timestamp: u32)
    requires Doing(all, head, done, was, at, tail, timestamp) && at < |was| && was[at] != 0
    requires at + 1 >= |was| || |was| - (at + 2) < was[at + 1]
    ensures Finished(all, head, was, tail, timestamp, Some(InvalidTlv(TLV_HELLO)))
  {
    hide StampSubs;
    SubsAt(was, at, timestamp);
  }

  lemma Done(all: Bytes, head: Bytes, done: Bytes, was: Bytes, tail: Bytes, timestamp: u32)
    requires Doing(all, head, done, was, |was|, tail, timestamp)
    ensures Finished(all, head, was, tail, timestamp, None)
  {
    hide StampSubs;
    assert was[|was|..] == [];
    EndOfSubs(done, timestamp);
  }

  /** Rewriting the body of the element at `at` extends what is done by that element. */
  lemma Replaced(all: Bytes, head: Bytes, done: Bytes, was: Bytes, at: nat, tail: Bytes, timestamp: u32, len: nat)
    requires Doing(all, head, done, was, at, tail, timestamp)
    requires at + 1 < |was| && was[at] != 0 && was[at + 1] == len && at + 2 + len <= |was|
    ensures var from := |head| + at + 2;
      && from + len <= |all|
      && var body := StampSubTlv(was[at], all[from..from + len], timestamp);
      Doing(all[..from] + body + all[from + len..], head, done + ([was[at], len] + body), was, at + 2 + len, tail,
            timestamp)
  {
    hide StampSubs, StampSubTlv;
    var from, n := |head| + at + 2, at + 2 + len;
    SubsAt(was, at, timestamp);
    Pieces(head, done, was, at, len, tail);
    var body := StampSubTlv(was[at], all[from..from + len], timestamp);
    AfterTwice(done, [was[at], len] + body, StampSubs(was[n..], timestamp));
    assert head + (done + [was[at], len]) + body + (was[n..] + tail)
        == head + ((done + ([was[at], len] + body)) + was[n..]) + tail;
  }

  lemma Pieces(head: Bytes, done: Bytes, was: Bytes, at: nat, len: nat, tail: Bytes)
    requires |done| == at && at + 2 + len <= |was|
    ensures var all, from, n := head + (done + was[at..]) + tail, |head| + at + 2, at + 2 + len;
      && from + len <= |all|
      && all[..from] == head + (done + [was[at], was[at + 1]])
      && all[from..from + len] == was[at + 2..n]
      && all[from + len..] == was[n..] + tail
  {
    var all, n := head + (done + was[at..]) + tail, at + 2 + len;
    assert was[at..] == [was[at], was[at + 1]] + was[at + 2..n] + was[n..];
    assert all == (head + (done + [was[at], was[at + 1]])) + was[at + 2..n] + (was[n..] + tail);
  }

  /** Rewrite the sub-TLVs between `start` and `end`. */
  method StampSubsInPlace(data: array<u8>, start: nat, end: nat, timestamp: u32) returns (error: Option<WireError>)
    requires start <= end <= data.Length
    modifies data
    ensures Finished(data[..], old(data[..start]), old(data[start..end]), old(data[end..]), timestamp, error)
  {
    hide StampSubTlv, Doing, Finished;
    ghost var head, was, tail := data[..start], data[start..end], data[end..];
    ghost var done: Bytes := [];
    var sub := start;
    Begin(head, was, tail, timestamp);
    assert data[..] == head + was + tail;
    while sub < end
      invariant start <= sub <= end
      invariant Doing(data[..], head, done, was, sub - start, tail, timestamp)
    {
      ghost var at := sub - start;
      ReadAt(data[..], head, done, was, at, tail, timestamp, at);
      var type_ := data[sub];
      sub := sub + 1;
      if type_ == 0 {
        Pad(data[..], head, done, was, at, tail, timestamp);
        done := done + [0];
        continue;
      }
      if sub >= end {
        Cut(data[..], head, done, was, at, tail, timestamp);
        return Some(InvalidTlv(TLV_HELLO));
      }
      ReadAt(data[..], head, done, was, at, tail, timestamp, at + 1);
      var len: nat := data[sub];
      sub := sub + 1;
      if end - sub < len {
        Cut(data[..], head, done, was, at, tail, timestamp);
        return Some(InvalidTlv(TLV_HELLO));
      }
      Replaced(data[..], head, done, was, at, tail, timestamp, len);
      done := done + ([type_, len] + StampSubTlv(type_, data[..][sub..sub + len], timestamp));
      StampOne(data, type_, sub, len, timestamp);
      sub := sub + len;
    }
    Done(data[..], head, done, was, tail, timestamp);
    error := None;
  }

  lemma AfterNothing(r: Stamped)
    ensures After([], r) == r
  {
    assert [] + r.octets == r.octets;
  }

  lemma EndOfSubs(done: Bytes, timestamp: u32)
    ensures After(done, StampSubs([], timestamp)) == Stamped(done, None)
  {
    assert done + [] == done;
  }

  /** One step of `StampSubs` in terms of the whole buffer. */
  lemma SubsAt(was: Bytes, at: nat, timestamp: u32)
    requires at < |was|
    ensures StampSubs(was[at..], timestamp) ==
      if was[at] == 0 then After([0], StampSubs(was[at + 1..], timestamp))
      else if at + 1 >= |was| || |was| - (at + 2) < was[at + 1] then Stamped(was[at..], Some(InvalidTlv(TLV_HELLO)))
      else
        var len: nat := was[at + 1];
        After([was[at], len] + StampSubTlv(was[at], was[at + 2..at + 2 + len], timestamp),
              StampSubs(was[at + 2 + len..], timestamp))
  {
    hide NextFrame, ToBe32;
    FrameAt(was, at);
  }

  lemma BodyAt(was: Bytes, at: nat, timestamp: u32)
    requires at < |was|
    ensures StampBody(was[at..], timestamp) ==
      if was[at] == 0 then After([0], StampBody(was[at + 1..], timestamp))
      else if at + 1 >= |was| || |was| - (at + 2) < was[at + 1] then Stamped(was[at..], Some(TruncatedTlv(was[at])))
      else
        var len: nat := was[at + 1];
        var tlv := StampTlv(was[at], was[at + 2..at + 2 + len], timestamp);
        if tlv.error.Some? then Stamped([was[at], len] + tlv.octets + was[at + 2 + len..], tlv.error)
        else After([was[at], len] + tlv.octets, StampBody(was[at + 2 + len..], timestamp))
  {
    hide NextFrame, StampTlv;
    FrameAt(was, at);
  }

  method CopyOctets(data: array<u8>, at: nat, octets: Bytes)
    requires at + |octets| <= data.Length
    modifies data
    ensures data[..] == old(data[..at]) + octets + old(data[at + |octets|..])
  {
    for i := 0 to |octets|
      invariant data[..at] == old(data[..at])
      invariant data[at..at + i] == octets[..i]
      invariant data[at + |octets|..] == old(data[at + |octets|..])
    {
      data[at + i] := octets[i];
    }
  }

  /** Rewrite one TLV value of `len` octets. */
  method StampTlvInPlace(data: array<u8>, type_: u8, at: nat, len: nat, timestamp: u32)
    returns (error: Option<WireError>)
    requires at + len <= data.Length
    modifies data
    ensures var tlv := StampTlv(type_, old(data[at..at + len]), timestamp);
      && data[..] == old(data[..at]) + tlv.octets + old(data[at + len..])
      && error == tlv.error
  {
    hide StampSubs, StampTlv, Finished;
    ghost var was := data[..];
    error := None;
    if type_ == TLV_HELLO && len >= 6 {
      error := StampSubsInPlace(data, at + 6, at + len, timestamp);
      HelloFinished(data[..], was, at, len, timestamp, error);
    } else {
      LeftAlone(type_, was, at, len, timestamp);
    }
  }

  lemma HelloFinished(all: Bytes, was: Bytes, at: nat, len: nat, timestamp: u32, error: Option<WireError>)
    requires at + len <= |was| && len >= 6
    requires Finished(all, was[..at + 6], was[at + 6..at + len], was[at + len..], timestamp, error)
    ensures var tlv := StampTlv(TLV_HELLO, was[at..at + len], timestamp);
      all == was[..at] + tlv.octets + was[at + len..] && error == tlv.error
  {
    hide StampSubs;
    assert was[at..at + len][..6] == was[at..at + 6] && was[at..at + len][6..] == was[at + 6..at + len];
    assert was[..at + 6] == was[..at] + was[at..at + 6];
  }

  lemma LeftAlone(type_: u8, was: Bytes, at: nat, len: nat, timestamp: u32)
    requires at + len <= |was| && !(type_ == TLV_HELLO && len >= 6)
    ensures var tlv := StampTlv(type_, was[at..at + len], timestamp);
      was == was[..at] + tlv.octets + was[at + len..] && tlv.error == None
  {
    assert was == was[..at] + was[at..at + len] + was[at + len..];
  }

  ghost predicate BodyDoing(all: Bytes, head: Bytes, done: Bytes, was: Bytes, at: nat, tail: Bytes, timestamp: u32) {
    && at <= |was| && |done| == at
    && all == head + (done + was[at..]) + tail
    && StampBody(was, timestamp) == After(done, StampBody(was[at..], timestamp))
  }

  ghost predicate BodyFinished(all: Bytes, head: Bytes, was: Bytes, tail: Bytes, timestamp: u32,
                               error: Option<WireError>) {
    all == head + StampBody(was, timestamp).octets + tail && error == StampBody(was, timestamp).error
  }

  lemma BodyBegin(head: Bytes, was: Bytes, tail: Bytes, timestamp: u32)
    ensures BodyDoing(head + was + tail, head, [], was, 0, tail, timestamp)
  {
    hide StampBody;
    AfterNothing(StampBody(was, timestamp));
    assert was[0..] == was && [] + was == was;
  }

  lemma BodyReadAt(all: Bytes, head: Bytes, done: Bytes, was: Bytes, at: nat, tail: Bytes, timestamp: u32, i: nat)
    requires BodyDoing(all, head, done, was, at, tail, timestamp) && at <= i < |was|
    ensures |head| + i < |all| && all[|head| + i] == was[i]
  {
    assert all[|head| + i] == (done + was[at..])[i] == was[at..][i - at];
  }

  lemma BodyPad(all: Bytes, head: Bytes, done: Bytes, was: Bytes, at: nat, tail: Bytes, timestamp: u32)
    requires BodyDoing(all, head, done, was, at, tail, timestamp) && at < |was| && was[at] == 0
    ensures BodyDoing(all, head, done + [0], was, at + 1, tail, timestamp)
  {
    hide StampBody;
    BodyAt(was, at, timestamp);
    AfterTwice(done, [0], StampBody(was[at + 1..], timestamp));
    assert done + was[at..] == (done + [0]) + was[at + 1..];
  }

  lemma BodyCut(all: Bytes, head: Bytes, done: Bytes, was: Bytes, at: nat, tail: Bytes, timestamp: u32)
    requires BodyDoing(all, head, done, was, at, tail, timestamp) && at < |was| && was[at] != 0
    requires at + 1 >= |was| || |was| - (at + 2) < was[at + 1]
    ensures BodyFinished(all, head, was, tail, timestamp, Some(TruncatedTlv(was[at])))
  {
    hide StampBody;
    BodyAt(was, at, timestamp);
  }

  lemma BodyDone(all: Bytes, head: Bytes, done: Bytes, was: Bytes, tail: Bytes, timestamp: u32)
    requires BodyDoing(all, head, done, was, |was|, tail, timestamp)
    ensures BodyFinished(all, head, was, tail, timestamp, None)
  {
    assert was[|was|..] == [] && done + [] == done;
  }

  lemma TlvReplaced(all: Bytes, head: Bytes, done: Bytes, was: Bytes, at: nat, tail: Bytes, timestamp: u32, len: nat)
    requires BodyDoing(all, head, done, was, at, tail, timestamp)
    requires at + 1 < |was| && was[at] != 0 && was[at + 1] == len && at + 2 + len <= |was|
    ensures var from := |head| + at + 2;
      && from + len <= |all|
      && var tlv := StampTlv(was[at], all[from..from + len], timestamp);
      var now := all[..from] + tlv.octets + all[from + len..];
      && (tlv.error.None? ==>
            BodyDoing(now, head, done + ([was[at], len] + tlv.octets), was, at + 2 + len, tail, timestamp))
      && (tlv.error.Some? ==> BodyFinished(now, head, was, tail, timestamp, tlv.error))
  {
    hide StampBody, StampTlv;
    var from, n := |head| + at + 2, at + 2 + len;
    BodyAt(was, at, timestamp);
    Pieces(head, done, was, at, len, tail);
    var tlv := StampTlv(was[at], all[from..from + len], timestamp);
    AfterTwice(done, [was[at], len] + tlv.octets, StampBody(was[n..], timestamp));
    assert head + (done + [was[at], len]) + tlv.octets + (was[n..] + tail)
        == head + ((done + ([was[at], len] + tlv.octets)) + was[n..]) + tail;
    assert done + ([was[at], len] + tlv.octets) + was[n..] == done + ([was[at], len] + tlv.octets + was[n..]);
  }

  /** `stamp_hello_timestamps`. */
  method StampHelloTimestamps(data: array<u8>, timestamp: u32) returns (error: Option<WireError>)
    modifies data
    ensures Stamped(data[..], error) == StampPacket(old(data[..]), timestamp)
  {
    hide StampBody, StampTlv, BodyDoing;
    var framed := PacketBody(data[..]);
    if framed.Err? { return Some(framed.error); }
    var end := 4 + Be16(data[2..]);
    ghost var all, head, was, tail := data[..], data[..4], data[4..end], data[end..];
    ghost var done: Bytes := [];
    var offset := 4;
    assert data[..] == head + was + tail && framed.value == was;
    BodyBegin(head, was, tail, timestamp);
    while offset < end
      invariant 4 <= offset <= end
      invariant BodyDoing(data[..], head, done, was, offset - 4, tail, timestamp)
    {
      ghost var at := offset - 4;
      BodyReadAt(data[..], head, done, was, at, tail, timestamp, at);
      var type_ := data[offset];
      offset := offset + 1;
      if type_ == 0 {
        BodyPad(data[..], head, done, was, at, tail, timestamp);
        done := done + [0];
        continue;
      }
      if offset >= end {
        BodyCut(data[..], head, done, was, at, tail, timestamp);
        return Some(TruncatedTlv(type_));
      }
      BodyReadAt(data[..], head, done, was, at, tail, timestamp, at + 1);
      var len: nat := data[offset];
      offset := offset + 1;
      if end - offset < len {
        BodyCut(data[..], head, done, was, at, tail, timestamp);
        return Some(TruncatedTlv(type_));
      }
      TlvReplaced(data[..], head, done, was, at, tail, timestamp, len);
      ghost var tlv := StampTlv(type_, data[..][offset..offset + len], timestamp);
      var failed := StampTlvInPlace(data, type_, offset, len, timestamp);
      if failed.Some? { return failed; }
      done := done + ([type_, len] + tlv.octets);
      offset := offset + len;
    }
    BodyDone(data[..], head, done, was, tail, timestamp);
    error := None;
  }

  // ----- stamping commutes with decoding

  function StampValue(s: SubTlv, timestamp: u32): SubTlv {
    if s.TimestampHello? then TimestampHello(timestamp) else s
  }

  function StampValues(subs: seq<SubTlv>, timestamp: u32): (r: seq<SubTlv>)
    ensures |r| == |subs|
  {
    seq(|subs|, i requires 0 <= i < |subs| => StampValue(subs[i], timestamp))
  }

  /** The intended effect on decoded TLVs: every Hello timestamp replaced, nothing else. */
  function StampDecoded(tlv: Tlv, timestamp: u32): Tlv {
    match tlv
    case Hello(unicast, seqno, intervalCs, subTlvs) => Hello(unicast, seqno, intervalCs,
                                                             StampValues(subTlvs, timestamp))
    case _ => tlv
  }

  function StampAll(tlvs: seq<Tlv>, timestamp: u32): (r: seq<Tlv>)
    ensures |r| == |tlvs|
  {
    seq(|tlvs|, i requires 0 <= i < |tlvs| => StampDecoded(tlvs[i], timestamp))
  }

  function StampAcc(acc: SubTlvs, timestamp: u32): SubTlvs { acc.(values := StampValues(acc.values, timestamp)) }

  lemma StampPush(subs: seq<SubTlv>, s: SubTlv, timestamp: u32)
    ensures StampValues(subs + [s], timestamp) == StampValues(subs, timestamp) + [StampValue(s, timestamp)]
  {
  }

  lemma StampedSubTlv(acc: SubTlvs, type_: u8, body: Bytes, timestamp: u32)
    ensures AddSubTlv(StampAcc(acc, timestamp), type_, StampSubTlv(type_, body, timestamp), HelloContext, None)
         == StampAcc(AddSubTlv(acc, type_, body, HelloContext, None), timestamp)
  {
    hide StampValues, ToBe32;
    StampPush(acc.values, SubPadN(body), timestamp);
    StampPush(acc.values, SubUnknown(type_, body), timestamp);
    if |body| >= 4 {
      StampPush(acc.values, TimestampHello(Be32(body)), timestamp);
      Be32Front(ToBe32(timestamp), body[4..]);
    }
  }

  lemma {:induction false} StampedSubsDecode(data: Bytes, acc: SubTlvs, timestamp: u32)
    requires DecodeSubTlvs(data, HelloContext, None, acc).Ok?
    ensures StampSubs(data, timestamp).error.None?
    ensures DecodeSubTlvs(StampSubs(data, timestamp).octets, HelloContext, None, StampAcc(acc, timestamp))
         == Ok(StampAcc(DecodeSubTlvs(data, HelloContext, None, acc).value, timestamp))
    decreases |data|
  {
    hide AddSubTlv, StampSubTlv, StampValues;
    if data != [] {
      var stamped := StampSubs(data, timestamp).octets;
      match NextFrame(data)
      case Padding(rest) =>
        assert stamped[1..] == StampSubs(rest, timestamp).octets;
        StampPush(acc.values, SubPad1, timestamp);
        StampedSubsDecode(rest, acc.(values := acc.values + [SubPad1]), timestamp);
      case Item(type_, body, rest) =>
        NextFramePut(type_, StampSubTlv(type_, body, timestamp), StampSubs(rest, timestamp).octets);
        StampedSubTlv(acc, type_, body, timestamp);
        StampedSubsDecode(rest, AddSubTlv(acc, type_, body, HelloContext, None), timestamp);
    }
  }

  lemma StampedTlvDecodes(type_: u8, value: Bytes, state: ParserState, timestamp: u32)
    requires DecodeTlv(type_, value, state).Ok?
    ensures StampTlv(type_, value, timestamp).error.None?
    ensures var was := DecodeTlv(type_, value, state).value;
      var now := DecodeTlv(type_, StampTlv(type_, value, timestamp).octets, state);
      now == Ok((if was.0.None? then None else Some(StampDecoded(was.0.value, timestamp)), was.1))
  {
    hide DecodeSubTlvs, StampSubs, DecodeIhu, DecodeRouterId, DecodeNextHop, DecodeUpdate, DecodeRouteRequest,
         DecodeSeqnoRequest, StampValues;
    if type_ == TLV_HELLO {
      StampedHelloDecodes(value, state, timestamp);
    } else {
      NotHello(type_, value, state);
    }
  }

  lemma StampedHelloDecodes(value: Bytes, state: ParserState, timestamp: u32)
    requires DecodeHello(value, state).Ok?
    ensures StampTlv(TLV_HELLO, value, timestamp).error.None?
    ensures var was := DecodeHello(value, state).value;
      DecodeHello(StampTlv(TLV_HELLO, value, timestamp).octets, state)
      == Ok((if was.0.None? then None else Some(StampDecoded(was.0.value, timestamp)), was.1))
  {
    hide DecodeSubTlvs, StampSubs, StampValues;
    var now := StampTlv(TLV_HELLO, value, timestamp).octets;
    assert now[6..] == StampSubs(value[6..], timestamp).octets;
    StampedSubsDecode(value[6..], NoSubTlvs, timestamp);
    assert StampAcc(NoSubTlvs, timestamp) == NoSubTlvs by { assert StampValues([], timestamp) == []; }
    assert forall i :: 0 <= i < 6 ==> now[i] == value[i];
    assert Be16(now[2..]) == Be16(value[2..]) && Be16(now[4..]) == Be16(value[4..]);
  }

  /** Only a Hello TLV decodes to a Hello. */
  lemma NotHello(type_: u8, value: Bytes, state: ParserState)
    requires type_ != TLV_HELLO
    ensures DecodeTlv(type_, value, state).Ok? && DecodeTlv(type_, value, state).value.0.Some?
      ==> !DecodeTlv(type_, value, state).value.0.value.Hello?
  {
    hide DecodeSubTlvs, DecodePrefix, AfterPrefix, NewRouteKey, PrefixEncodedLen;
  }

  lemma StampAllPrepend(a: seq<Tlv>, b: seq<Tlv>, timestamp: u32)
    ensures StampAll(a + b, timestamp) == StampAll(a, timestamp) + StampAll(b, timestamp)
  {
    hide StampDecoded;
  }

  lemma {:induction false} StampedBodyDecodes(body: Bytes, state: ParserState, timestamp: u32)
    requires DecodeBody(body, state).Ok?
    ensures StampBody(body, timestamp).error.None?
    ensures var was := DecodeBody(body, state).value;
      DecodeBody(StampBody(body, timestamp).octets, state) == Ok((StampAll(was.0, timestamp), was.1))
    decreases |body|
  {
    hide DecodeTlv, StampTlv, StampAll;
    if body == [] {
      assert StampAll([], timestamp) == [] by { StampNone(timestamp); }
    } else {
      match NextFrame(body)
      case Padding(rest) =>
        assert StampBody(body, timestamp).octets[1..] == StampBody(rest, timestamp).octets;
        StampedBodyDecodes(rest, state, timestamp);
        StampAllPrepend([Pad1], DecodeBody(rest, state).value.0, timestamp);
        StampSingle(Some(Pad1), timestamp);
      case Item(type_, value, rest) =>
        var step := DecodeTlv(type_, value, state).value;
        StampedTlvDecodes(type_, value, state, timestamp);
        StampedBodyDecodes(rest, step.1, timestamp);
        NextFramePut(type_, StampTlv(type_, value, timestamp).octets, StampBody(rest, timestamp).octets);
        StampAllPrepend(Listed(step.0), DecodeBody(rest, step.1).value.0, timestamp);
        StampSingle(step.0, timestamp);
    }
  }

  lemma StampNone(timestamp: u32)
    ensures StampAll([], timestamp) == []
  {
  }

  lemma StampSingle(tlv: Option<Tlv>, timestamp: u32)
    ensures StampAll(Listed(tlv), timestamp)
         == Listed(if tlv.None? then None else Some(StampDecoded(tlv.value, timestamp)))
  {
    hide StampDecoded;
  }

  /** If a datagram decodes, stamping succeeds, keeps the length, and the
      result decodes to the same TLVs with every Hello timestamp replaced. */
  lemma StampingCommutes(data: Bytes, source: IpAddr, timestamp: u32)
    requires DecodePacket(data, source).Ok?
    ensures var r := StampPacket(data, timestamp);
      && r.error.None? && |r.octets| == |data|
      && DecodePacket(r.octets, source) == Ok(StampAll(DecodePacket(data, source).value, timestamp))
  {
    hide DecodeBody, StampBody, StampAll;
    var body := PacketBody(data).value;
    StampedBodyDecodes(body, NewParserState(source), timestamp);
    var stamped := StampBody(body, timestamp).octets;
    var now := StampPacket(data, timestamp).octets;
    assert now[..4] == data[..4];
    assert forall i :: 0 <= i < 4 ==> now[i] == now[..4][i] && data[i] == data[..4][i];
    assert now[4..4 + |body|] == stamped;
  }
}
