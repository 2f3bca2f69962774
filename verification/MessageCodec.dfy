/**
 * The 17-segment message frame: what is written, what is read back, and when a stream of frames reads back
 * as the list it was written from. Topics and properties are the bytes of their UTF-8 form, hosts the bytes
 * of their address and port.
 */
module MessageCodec {
  import opened Messages

  // ---- big-endian integers ------------------------------------------------------------------------

  function Pow256(w: nat): (r: nat)
    ensures r >= 1
  {
    if w == 0 then 1 else 256 * Pow256(w - 1)
  }

  function Bytes(n: nat, w: nat): (r: seq<nat>)
    ensures |r| == w && IsBytes(r)
  {
    if w == 0 then [] else Bytes(n / 256, w - 1) + [n % 256]
  }

  function Number(s: seq<nat>): nat {
    if s == [] then 0 else Number(s[..|s| - 1]) * 256 + s[|s| - 1]
  }

  lemma {:induction false} NumberReadsBytes(n: nat, w: nat)
    requires n < Pow256(w)
    ensures Number(Bytes(n, w)) == n
  {
    if w > 0 {
      NumberReadsBytes(n / 256, w - 1);
      assert Bytes(n, w)[..w - 1] == Bytes(n / 256, w - 1);
    }
  }

  predicate Signed(v: int, w: nat) {
    0 - Pow256(w) <= 2 * v < Pow256(w)
  }

  /** A signed field, in two's complement. */
  function Field(v: int, w: nat): (r: seq<nat>)
    requires Signed(v, w)
    ensures |r| == w && IsBytes(r)
  {
    Bytes(if v < 0 then v + Pow256(w) else v, w)
  }

  function Read(s: seq<nat>): int {
    var n := Number(s);
    if 2 * n >= Pow256(|s|) then n - Pow256(|s|) else n
  }

  lemma ReadsField(v: int, w: nat)
    requires Signed(v, w)
    ensures Read(Field(v, w)) == v
  {
    NumberReadsBytes(if v < 0 then v + Pow256(w) else v, w);
  }

  lemma {:induction false} NumberFits(s: seq<nat>)
    requires IsBytes(s)
    ensures Number(s) < Pow256(|s|)
  {
    if s != [] {
      NumberFits(s[..|s| - 1]);
    }
  }

  /** A number can be written in a field exactly when some bytes of that width read as it. */
  lemma SignedIff(v: int, w: nat)
    ensures Signed(v, w) <==> exists s: seq<nat> :: |s| == w && IsBytes(s) && Read(s) == v
  {
    if Signed(v, w) {
      ReadsField(v, w);
    }
    if s: seq<nat> :| |s| == w && IsBytes(s) && Read(s) == v {
      NumberFits(s);
    }
  }

  // ---- which byte of a number stands where ---------------------------------------------------------

  function Digit(v: int, place: nat): int {
    v / Pow256(place) % 256
  }

  /** Two's complement, the most significant byte first, as a big-endian integer of that many bytes is packed. */
  predicate Packs(s: seq<nat>, v: int) {
    forall k :: 0 <= k < |s| ==> s[k] == Digit(v, |s| - 1 - k)
  }

  lemma {:induction false} PowAdds(a: nat, b: nat)
    ensures Pow256(a + b) == Pow256(a) * Pow256(b)
  {
    if a > 0 {
      PowAdds(a - 1, b);
      assert 256 * (Pow256(a - 1) * Pow256(b)) == (256 * Pow256(a - 1)) * Pow256(b);
    }
  }

  lemma Quotient(n: int, d: nat, u: int, rest: nat)
    requires d > 0 && n == d * u + rest && rest < d
    ensures n / d == u
  {
    var q := n / d;
    assert n == d * q + n % d;
    assert q < u ==> d * (q + 1) <= d * u;
    assert q > u ==> d * (u + 1) <= d * q;
  }

  lemma DividesTwice(n: nat, k: nat)
    requires k > 0
    ensures n / 256 / k == n / (256 * k)
  {
    var q := n / 256;
    var u, v := q / k, q % k;
    assert q == k * u + v && 256 * (k * u) == (256 * k) * u;
    Quotient(n, 256 * k, u, 256 * v + n % 256);
  }

  lemma {:induction false} ByteAt(n: nat, w: nat, k: nat)
    requires k < w
    ensures Bytes(n, w)[k] == Digit(n, w - 1 - k)
  {
    if k == w - 1 {
      assert Pow256(0) == 1;
    } else {
      ByteAt(n / 256, w - 1, k);
      DividesTwice(n, Pow256(w - 2 - k));
    }
  }

  lemma AddsQuotients(v: int, d: nat, e: nat)
    requires d > 0
    ensures (v + d * e) / d == v / d + e
  {
    var q := v / d;
    assert v == d * q + v % d;
    assert d * (q + e) == d * q + d * e;
    Quotient(v + d * e, d, q + e, v % d);
  }

  lemma SameLowByte(q: int, m: nat)
    ensures (q + 256 * m) % 256 == q % 256
  {
  }

  lemma TurnsOver(v: int, d: nat, m: nat, p: nat)
    requires d > 0 && p == d * (256 * m)
    ensures (v + p) / d % 256 == v / d % 256
  {
    AddsQuotients(v, d, 256 * m);
    SameLowByte(v / d, m);
  }

  lemma Wraps(v: int, w: nat, place: nat)
    requires place < w
    ensures Digit(v + Pow256(w), place) == Digit(v, place)
  {
    PowAdds(place, w - place);
    TurnsOver(v, Pow256(place), Pow256(w - place - 1), Pow256(w));
  }

  lemma BytesPack(n: nat, w: nat)
    ensures Packs(Bytes(n, w), n)
  {
    forall k | 0 <= k < w ensures Bytes(n, w)[k] == Digit(n, w - 1 - k) {
      ByteAt(n, w, k);
    }
  }

  lemma FieldPacks(v: int, w: nat)
    requires Signed(v, w)
    ensures Packs(Field(v, w), v)
  {
    BytesPack(if v < 0 then v + Pow256(w) else v, w);
    forall place | 0 <= place < w ensures Digit(v + Pow256(w), place) == Digit(v, place) {
      Wraps(v, w, place);
    }
  }

  // ---- the frame ----------------------------------------------------------------------------------

  const MAGIC_V1: int := -626843481
  const MAGIC_V2: int := -626843477

  /** `storeSize` is the size the message carries, which need not be the size it takes. */
  datatype Frame = Frame(v2: bool, storeSize: int, crc: nat, queueId: int, flag: int, queueOffset: int,
                         physicalOffset: int, sysFlag: int, bornTime: int, bornHost: seq<nat>, storeTime: int,
                         storeHost: seq<nat>, reconsumeTimes: int, preparedOffset: int, body: seq<nat>,
                         topic: seq<nat>, properties: seq<nat>)

  /** Bit 4 and bit 5 of the system flag say whether the two hosts are IPv6 addresses. */
  function BornHostLength(sysFlag: int): nat {
    if sysFlag / 16 % 2 == 1 then 20 else 8
  }

  function StoreHostLength(sysFlag: int): nat {
    if sysFlag / 32 % 2 == 1 then 20 else 8
  }

  function TopicWidth(v2: bool): nat {
    if v2 then 2 else 1
  }

  function ComputedSize(f: Frame): nat {
    4 + 4 + 4 + 4 + 4 + 8 + 8 + 4 + 8 + 8 + |f.bornHost| + |f.storeHost| + 4 + 8
    + 4 + |f.body| + TopicWidth(f.v2) + |f.topic| + 2 + |f.properties|
  }

  /** A message that carries a larger size than it takes is written with the larger one. */
  function WrittenSize(f: Frame): int {
    if f.storeSize > ComputedSize(f) then f.storeSize else ComputedSize(f)
  }

  predicate Fits(f: Frame) {
    && Signed(WrittenSize(f), 4) && f.crc < Pow256(4) && Signed(f.queueId, 4) && Signed(f.flag, 4)
    && Signed(f.queueOffset, 8) && Signed(f.physicalOffset, 8) && Signed(f.sysFlag, 4) && Signed(f.bornTime, 8)
    && |f.bornHost| == BornHostLength(f.sysFlag) && Signed(f.storeTime, 8)
    && |f.storeHost| == StoreHostLength(f.sysFlag) && Signed(f.reconsumeTimes, 4) && Signed(f.preparedOffset, 8)
    && Signed(|f.body|, 4) && |f.topic| < Pow256(TopicWidth(f.v2)) && |f.properties| < Pow256(2)
    && IsBytes(f.bornHost) && IsBytes(f.storeHost) && IsBytes(f.body) && IsBytes(f.topic) && IsBytes(f.properties)
  }

  /** Segments 1 to 9, always 48 bytes. */
  function Prefix(f: Frame): (r: seq<nat>)
    requires Fits(f)
    ensures |r| == 48
  {
    Field(WrittenSize(f), 4) + Field(if f.v2 then MAGIC_V2 else MAGIC_V1, 4) + Bytes(f.crc, 4) + Field(f.queueId, 4)
    + Field(f.flag, 4) + Field(f.queueOffset, 8) + Field(f.physicalOffset, 8) + Field(f.sysFlag, 4)
    + Field(f.bornTime, 8)
  }

  /** Segments 10 to 14. */
  function Middle(f: Frame): (r: seq<nat>)
    requires Fits(f)
    ensures |r| == |f.bornHost| + |f.storeHost| + 20
  {
    f.bornHost + Field(f.storeTime, 8) + f.storeHost + Field(f.reconsumeTimes, 4) + Field(f.preparedOffset, 8)
  }

  /** Segments 15 to 17, each behind its length. */
  function Tail(f: Frame): (r: seq<nat>)
    requires Fits(f)
    ensures |r| == 4 + |f.body| + TopicWidth(f.v2) + |f.topic| + 2 + |f.properties|
  {
    Field(|f.body|, 4) + (f.body
    + (Bytes(|f.topic|, TopicWidth(f.v2)) + (f.topic
    + (Bytes(|f.properties|, 2) + f.properties))))
  }

  function Encode(f: Frame): (r: seq<nat>)
    requires Fits(f)
    ensures |r| == ComputedSize(f)
  {
    Prefix(f) + (Middle(f) + Tail(f))
  }

  /** A slice stops at the end of what it is taken from. */
  function Upto(s: seq<nat>, n: int): seq<nat> {
    if n <= 0 then [] else if n < |s| then s[..n] else s
  }

  function From(s: seq<nat>, n: int): seq<nat> {
    if n <= 0 then s else if n < |s| then s[n..] else []
  }

  function DecodeProperties(s: seq<nat>): Option<seq<nat>> {
    if |s| < 2 then None else Some(Upto(s[2..], Number(s[..2])))
  }

  function DecodeTopic(v2: bool, s: seq<nat>): Option<(seq<nat>, seq<nat>)> {
    var w := TopicWidth(v2);
    if |s| < w then None
    else
      var n := Number(s[..w]);
      var properties := DecodeProperties(From(s[w..], n));
      if properties.None? then None else Some((Upto(s[w..], n), properties.value))
  }

  function DecodeTail(v2: bool, s: seq<nat>): Option<(seq<nat>, seq<nat>, seq<nat>)> {
    if |s| < 4 then None
    else
      var n := Read(s[..4]);
      var rest := DecodeTopic(v2, From(s[4..], n));
      if rest.None? then None else Some((Upto(s[4..], n), rest.value.0, rest.value.1))
  }

  /** The bytes of one frame, possibly followed by others; None when a field cannot be read. */
  function Decode(s: seq<nat>): Option<Frame> {
    if |s| < 48 then None
    else
      var magic := Read(s[4..8]);
      var sysFlag := Read(s[36..40]);
      var b, c := BornHostLength(sysFlag), StoreHostLength(sysFlag);
      if (magic != MAGIC_V1 && magic != MAGIC_V2) || |s| < 48 + b + 8 + c + 12 then None
      else
        var v2 := magic == MAGIC_V2;
        var m := s[48..];
        var tail := DecodeTail(v2, m[b + 8 + c + 12..]);
        if tail.None? then None
        else
          Some(Frame(v2, Read(s[..4]), Number(s[8..12]), Read(s[12..16]), Read(s[16..20]), Read(s[20..28]),
                     Read(s[28..36]), sysFlag, Read(s[40..48]), m[..b], Read(m[b..b + 8]), m[b + 8..b + 8 + c],
                     Read(m[b + 8 + c..b + 8 + c + 4]), Read(m[b + 8 + c + 4..b + 8 + c + 12]),
                     tail.value.0, tail.value.1, tail.value.2))
  }

  // ---- one frame ----------------------------------------------------------------------------------

  lemma CutsAt(a: seq<nat>, b: seq<nat>)
    ensures (a + b)[..|a|] == a && (a + b)[|a|..] == b
    ensures Upto(a + b, |a|) == a && From(a + b, |a|) == b
  {
  }

  lemma PropertiesRead(properties: seq<nat>, extra: seq<nat>)
    requires |properties| < Pow256(2)
    ensures DecodeProperties(Bytes(|properties|, 2) + (properties + extra)) == Some(properties)
  {
    CutsAt(Bytes(|properties|, 2), properties + extra);
    NumberReadsBytes(|properties|, 2);
    CutsAt(properties, extra);
    hide Bytes, Number, Pow256;
  }

  lemma TopicReads(v2: bool, topic: seq<nat>, rest: seq<nat>, properties: seq<nat>)
    requires |topic| < Pow256(TopicWidth(v2)) && DecodeProperties(rest) == Some(properties)
    ensures DecodeTopic(v2, Bytes(|topic|, TopicWidth(v2)) + (topic + rest)) == Some((topic, properties))
  {
    CutsAt(Bytes(|topic|, TopicWidth(v2)), topic + rest);
    NumberReadsBytes(|topic|, TopicWidth(v2));
    CutsAt(topic, rest);
    hide Bytes, Number, Pow256, DecodeProperties;
  }

  lemma BodyReads(v2: bool, body: seq<nat>, rest: seq<nat>, topic: seq<nat>, properties: seq<nat>)
    requires Signed(|body|, 4) && DecodeTopic(v2, rest) == Some((topic, properties))
    ensures DecodeTail(v2, Field(|body|, 4) + (body + rest)) == Some((body, topic, properties))
  {
    ReadsField(|body|, 4);
    CutsAt(Field(|body|, 4), body + rest);
    CutsAt(body, rest);
    hide DecodeTopic, Field, Read;
  }

  lemma Regroup(a: seq<nat>, b: seq<nat>, c: seq<nat>, d: seq<nat>, e: seq<nat>, g: seq<nat>, x: seq<nat>)
    ensures (a + (b + (c + (d + (e + g))))) + x == a + (b + (c + (d + (e + (g + x)))))
  {
    assert (e + g) + x == e + (g + x);
    assert (d + (e + g)) + x == d + ((e + g) + x);
    assert (c + (d + (e + g))) + x == c + ((d + (e + g)) + x);
    assert (b + (c + (d + (e + g)))) + x == b + ((c + (d + (e + g))) + x);
    assert (a + (b + (c + (d + (e + g))))) + x == a + ((b + (c + (d + (e + g)))) + x);
  }

  lemma TailReads(f: Frame, extra: seq<nat>)
    requires Fits(f)
    ensures DecodeTail(f.v2, Tail(f) + extra) == Some((f.body, f.topic, f.properties))
  {
    var w := TopicWidth(f.v2);
    var last := Bytes(|f.properties|, 2) + (f.properties + extra);
    var rest := Bytes(|f.topic|, w) + (f.topic + last);
    PropertiesRead(f.properties, extra);
    TopicReads(f.v2, f.topic, last, f.properties);
    BodyReads(f.v2, f.body, rest, f.topic, f.properties);
    Regroup(Field(|f.body|, 4), f.body, Bytes(|f.topic|, w), f.topic, Bytes(|f.properties|, 2), f.properties, extra);
    hide Bytes, Number, Pow256, DecodeTopic, DecodeTail, Field, Read;
  }

  lemma PrefixSlices(f: Frame, p: seq<nat>)
    requires Fits(f) && p == Prefix(f)
    ensures p[0..4] == Field(WrittenSize(f), 4) && p[4..8] == Field(if f.v2 then MAGIC_V2 else MAGIC_V1, 4)
    ensures p[8..12] == Bytes(f.crc, 4) && p[12..16] == Field(f.queueId, 4) && p[16..20] == Field(f.flag, 4)
    ensures p[20..28] == Field(f.queueOffset, 8) && p[28..36] == Field(f.physicalOffset, 8)
    ensures p[36..40] == Field(f.sysFlag, 4) && p[40..48] == Field(f.bornTime, 8)
  {
  }

  lemma PrefixReads(f: Frame, p: seq<nat>)
    requires Fits(f) && p == Prefix(f)
    ensures Read(p[..4]) == WrittenSize(f) && Read(p[4..8]) == (if f.v2 then MAGIC_V2 else MAGIC_V1)
    ensures Number(p[8..12]) == f.crc && Read(p[12..16]) == f.queueId && Read(p[16..20]) == f.flag
    ensures Read(p[20..28]) == f.queueOffset && Read(p[28..36]) == f.physicalOffset
    ensures Read(p[36..40]) == f.sysFlag && Read(p[40..48]) == f.bornTime
  {
    PrefixSlices(f, p);
    assert p[..4] == p[0..4];
    hide Prefix, Field, Read, Bytes, Number;
    ReadsField(WrittenSize(f), 4);
    ReadsField(if f.v2 then MAGIC_V2 else MAGIC_V1, 4);
    NumberReadsBytes(f.crc, 4);
    ReadsField(f.queueId, 4);
    ReadsField(f.flag, 4);
    ReadsField(f.queueOffset, 8);
    ReadsField(f.physicalOffset, 8);
    ReadsField(f.sysFlag, 4);
    ReadsField(f.bornTime, 8);
  }

  lemma MiddleSlices(f: Frame, m: seq<nat>)
    requires Fits(f) && m == Middle(f)
    ensures var b, c := |f.bornHost|, |f.storeHost|;
      && m[0..b] == f.bornHost && m[b..b + 8] == Field(f.storeTime, 8) && m[b + 8..b + 8 + c] == f.storeHost
      && m[b + 8 + c..b + 12 + c] == Field(f.reconsumeTimes, 4) && m[b + 12 + c..b + 20 + c] == Field(f.preparedOffset, 8)
  {
  }

  lemma MiddleReads(f: Frame, m: seq<nat>)
    requires Fits(f) && m == Middle(f)
    ensures var b, c := |f.bornHost|, |f.storeHost|;
      && m[..b] == f.bornHost && Read(m[b..b + 8]) == f.storeTime && m[b + 8..b + 8 + c] == f.storeHost
      && Read(m[b + 8 + c..b + 8 + c + 4]) == f.reconsumeTimes
      && Read(m[b + 8 + c + 4..b + 8 + c + 12]) == f.preparedOffset
  {
    MiddleSlices(f, m);
    hide Middle, Field, Read;
    ReadsField(f.storeTime, 8);
    ReadsField(f.reconsumeTimes, 4);
    ReadsField(f.preparedOffset, 8);
  }

  lemma SliceFurther(s: seq<nat>, start: nat, r: seq<nat>, i: nat, j: nat)
    requires start + |r| <= |s| && s[start..start + |r|] == r && i <= j <= |r|
    ensures s[start + i..start + j] == r[i..j]
  {
    forall k | i <= k < j ensures s[start + k] == r[k] {
      assert s[start..start + |r|][k] == s[start + k];
    }
  }

  /** Segments 1 to 9 stand at the same places in every frame of either version. */
  lemma FixedLayout(f: Frame)
    requires Fits(f)
    ensures var s := Encode(f);
      && |s| >= 48
      && Packs(s[0..4], WrittenSize(f)) && Packs(s[4..8], if f.v2 then -626843477 else -626843481)
      && Packs(s[8..12], f.crc) && Packs(s[12..16], f.queueId) && Packs(s[16..20], f.flag)
      && Packs(s[20..28], f.queueOffset) && Packs(s[28..36], f.physicalOffset)
      && Packs(s[36..40], f.sysFlag) && Packs(s[40..48], f.bornTime)
  {
    var s, p := Encode(f), Prefix(f);
    PrefixSlices(f, p);
    FieldPacks(WrittenSize(f), 4);
    FieldPacks(if f.v2 then MAGIC_V2 else MAGIC_V1, 4);
    BytesPack(f.crc, 4);
    FieldPacks(f.queueId, 4);
    FieldPacks(f.flag, 4);
    FieldPacks(f.queueOffset, 8);
    FieldPacks(f.physicalOffset, 8);
    FieldPacks(f.sysFlag, 4);
    FieldPacks(f.bornTime, 8);
    hide Prefix, Middle, Tail, Packs, Field, Bytes;
    assert s[..48] == p;
    SameSlice(s, p, 0, 4);
    SameSlice(s, p, 4, 8);
    SameSlice(s, p, 8, 12);
    SameSlice(s, p, 12, 16);
    SameSlice(s, p, 16, 20);
    SameSlice(s, p, 20, 28);
    SameSlice(s, p, 28, 36);
    SameSlice(s, p, 36, 40);
    SameSlice(s, p, 40, 48);
  }

  lemma MiddleLayout(f: Frame, m: seq<nat>)
    requires Fits(f) && m == Middle(f)
    ensures var b, c := |f.bornHost|, |f.storeHost|;
      && m[0..b] == f.bornHost && Packs(m[b..b + 8], f.storeTime) && m[b + 8..b + 8 + c] == f.storeHost
      && Packs(m[b + 8 + c..b + 12 + c], f.reconsumeTimes) && Packs(m[b + 12 + c..b + 20 + c], f.preparedOffset)
  {
    MiddleSlices(f, m);
    FieldPacks(f.storeTime, 8);
    FieldPacks(f.reconsumeTimes, 4);
    FieldPacks(f.preparedOffset, 8);
    hide Middle, Packs, Field;
  }

  lemma MiddleStands(f: Frame)
    requires Fits(f)
    ensures |f.bornHost| == (if f.sysFlag / 16 % 2 == 1 then 20 else 8)
    ensures |f.storeHost| == (if f.sysFlag / 32 % 2 == 1 then 20 else 8)
    ensures |Encode(f)| >= 48 + |Middle(f)| && Encode(f)[48..48 + |Middle(f)|] == Middle(f)
  {
    hide Prefix, Middle, Tail, Signed;
  }

  /** Segments 10 to 14: each host takes 20 bytes where its bit of the system flag is set and 8 where it is not. */
  lemma HostLayout(f: Frame)
    requires Fits(f)
    ensures var s := Encode(f);
      var store := 48 + |f.bornHost|;
      var times := store + 8 + |f.storeHost|;
      && |f.bornHost| == (if f.sysFlag / 16 % 2 == 1 then 20 else 8)
      && |f.storeHost| == (if f.sysFlag / 32 % 2 == 1 then 20 else 8)
      && |s| >= times + 12
      && s[48..store] == f.bornHost && Packs(s[store..store + 8], f.storeTime) && s[store + 8..times] == f.storeHost
      && Packs(s[times..times + 4], f.reconsumeTimes) && Packs(s[times + 4..times + 12], f.preparedOffset)
  {
    var s, m := Encode(f), Middle(f);
    var b, c := |f.bornHost|, |f.storeHost|;
    MiddleLayout(f, m);
    MiddleStands(f);
    hide Encode, Middle, Fits, Packs;
    SliceFurther(s, 48, m, 0, b);
    SliceFurther(s, 48, m, b, b + 8);
    SliceFurther(s, 48, m, b + 8, b + 8 + c);
    SliceFurther(s, 48, m, b + 8 + c, b + 12 + c);
    SliceFurther(s, 48, m, b + 12 + c, b + 20 + c);
  }

  lemma Stands(before: seq<nat>, length: seq<nat>, data: seq<nat>, rest: seq<nat>, s: seq<nat>)
    requires s == before + (length + (data + rest))
    ensures var i := |before|;
      s[i..i + |length|] == length && s[i + |length|..i + |length| + |data|] == data
  {
  }

  /** Segment 15: the body behind four bytes of length. */
  lemma BodyLayout(f: Frame)
    requires Fits(f)
    ensures var s := Encode(f);
      var body := 68 + |f.bornHost| + |f.storeHost|;
      |s| >= body + 4 + |f.body| && Packs(s[body..body + 4], |f.body|) && s[body + 4..body + 4 + |f.body|] == f.body
  {
    var before, length := Prefix(f) + Middle(f), Field(|f.body|, 4);
    var rest := Bytes(|f.topic|, TopicWidth(f.v2)) + (f.topic + (Bytes(|f.properties|, 2) + f.properties));
    FieldPacks(|f.body|, 4);
    assert Encode(f) == before + (length + (f.body + rest));
    hide Prefix, Middle, Tail, Encode, Field, Bytes, Packs, Fits;
    Stands(before, length, f.body, rest, Encode(f));
  }

  /** Segment 16: the topic behind one byte of length in the first version and two in the second. */
  lemma TopicLayout(f: Frame)
    requires Fits(f)
    ensures var s := Encode(f);
      var topic := 72 + |f.bornHost| + |f.storeHost| + |f.body|;
      var w := if f.v2 then 2 else 1;
      |s| >= topic + w + |f.topic| && Packs(s[topic..topic + w], |f.topic|)
      && s[topic + w..topic + w + |f.topic|] == f.topic
  {
    var w := TopicWidth(f.v2);
    var before, length := Prefix(f) + Middle(f) + (Field(|f.body|, 4) + f.body), Bytes(|f.topic|, w);
    var rest := Bytes(|f.properties|, 2) + f.properties;
    BytesPack(|f.topic|, w);
    assert Tail(f) == (Field(|f.body|, 4) + f.body) + (length + (f.topic + rest));
    hide Prefix, Middle, Tail, Field, Bytes, Packs, Fits;
    assert Encode(f) == before + (length + (f.topic + rest));
    Stands(before, length, f.topic, rest, Encode(f));
  }

  lemma Paired(a: seq<nat>, b: seq<nat>, c: seq<nat>, d: seq<nat>, rest: seq<nat>)
    ensures a + (b + (c + (d + rest))) == a + b + (c + d) + rest
  {
    assert c + (d + rest) == (c + d) + rest;
    assert a + (b + ((c + d) + rest)) == (a + b) + ((c + d) + rest);
  }

  lemma Regrouped(a: seq<nat>, b: seq<nat>, c: seq<nat>, d: seq<nat>)
    ensures a + (b + (c + d)) == a + b + c + d
  {
  }

  lemma BeforeProperties(f: Frame) returns (before: seq<nat>)
    requires Fits(f)
    ensures |before| == 72 + |f.bornHost| + |f.storeHost| + |f.body| + TopicWidth(f.v2) + |f.topic|
    ensures Encode(f) == before + (Bytes(|f.properties|, 2) + f.properties)
  {
    var start := Field(|f.body|, 4) + f.body + (Bytes(|f.topic|, TopicWidth(f.v2)) + f.topic);
    before := Prefix(f) + Middle(f) + start;
    hide Prefix, Middle, Field, Bytes, Fits;
    var last := Bytes(|f.properties|, 2) + f.properties;
    assert Tail(f) == start + last by {
      Paired(Field(|f.body|, 4), f.body, Bytes(|f.topic|, TopicWidth(f.v2)), f.topic, last);
    }
    hide Tail;
    Regrouped(Prefix(f), Middle(f), start, last);
  }

  /** Segment 17: the properties behind two bytes of length, and nothing after them. */
  lemma PropertiesLayout(f: Frame)
    requires Fits(f)
    ensures var s := Encode(f);
      var properties := 72 + |f.bornHost| + |f.storeHost| + |f.body| + (if f.v2 then 2 else 1) + |f.topic|;
      |s| == properties + 2 + |f.properties| && Packs(s[properties..properties + 2], |f.properties|)
      && s[properties + 2..] == f.properties
  {
    var length := Bytes(|f.properties|, 2);
    BytesPack(|f.properties|, 2);
    hide Encode, Bytes, Packs, Fits;
    var before := BeforeProperties(f);
    assert f.properties + [] == f.properties;
    Stands(before, length, f.properties, [], Encode(f));
  }

  lemma PartsOf(f: Frame, extra: seq<nat>)
    requires Fits(f)
    ensures var s := Encode(f) + extra;
      && s[..48] == Prefix(f) && s[48..] == Middle(f) + (Tail(f) + extra)
      && (Middle(f) + (Tail(f) + extra))[..|Middle(f)|] == Middle(f)
      && (Middle(f) + (Tail(f) + extra))[|Middle(f)|..] == Tail(f) + extra
  {
    hide Prefix, Middle, Tail, Fits;
    assert Encode(f) + extra == Prefix(f) + (Middle(f) + (Tail(f) + extra));
  }

  lemma SameSlice(s: seq<nat>, p: seq<nat>, i: nat, j: nat)
    requires |p| <= |s| && s[..|p|] == p && i <= j <= |p|
    ensures s[i..j] == p[i..j]
  {
    forall k | i <= k < j ensures s[k] == p[k] {
      assert s[..|p|][k] == s[k];
    }
  }

  lemma PrefixOf(f: Frame, s: seq<nat>)
    requires Fits(f) && |s| >= 48 && s[..48] == Prefix(f)
    ensures Read(s[..4]) == WrittenSize(f) && Read(s[4..8]) == (if f.v2 then MAGIC_V2 else MAGIC_V1)
    ensures Number(s[8..12]) == f.crc && Read(s[12..16]) == f.queueId && Read(s[16..20]) == f.flag
    ensures Read(s[20..28]) == f.queueOffset && Read(s[28..36]) == f.physicalOffset
    ensures Read(s[36..40]) == f.sysFlag && Read(s[40..48]) == f.bornTime
  {
    var p := Prefix(f);
    PrefixReads(f, p);
    hide Prefix, Fits, Read, Number;
    SameSlice(s, p, 0, 4);
    SameSlice(s, p, 4, 8);
    SameSlice(s, p, 8, 12);
    SameSlice(s, p, 12, 16);
    SameSlice(s, p, 16, 20);
    SameSlice(s, p, 20, 28);
    SameSlice(s, p, 28, 36);
    SameSlice(s, p, 36, 40);
    SameSlice(s, p, 40, 48);
    assert s[..4] == s[0..4] && p[..4] == p[0..4];
  }

  lemma MiddleOf(f: Frame, r: seq<nat>)
    requires Fits(f) && |r| >= |Middle(f)| && r[..|Middle(f)|] == Middle(f)
    ensures var b, c := |f.bornHost|, |f.storeHost|;
      && r[..b] == f.bornHost && Read(r[b..b + 8]) == f.storeTime && r[b + 8..b + 8 + c] == f.storeHost
      && Read(r[b + 8 + c..b + 8 + c + 4]) == f.reconsumeTimes
      && Read(r[b + 8 + c + 4..b + 8 + c + 12]) == f.preparedOffset
  {
    var m, b, c := Middle(f), |f.bornHost|, |f.storeHost|;
    MiddleReads(f, m);
    hide Middle, Fits, Read;
    SameSlice(r, m, 0, b);
    SameSlice(r, m, b, b + 8);
    SameSlice(r, m, b + 8, b + 8 + c);
    SameSlice(r, m, b + 8 + c, b + 8 + c + 4);
    SameSlice(r, m, b + 8 + c + 4, b + 8 + c + 12);
    assert r[..b] == r[0..b] && m[..b] == m[0..b];
  }

  /** A frame reads back as itself, with the size it was written with, whatever follows it. */
  lemma FrameReadsBack(f: Frame, extra: seq<nat>)
    requires Fits(f)
    ensures Decode(Encode(f) + extra) == Some(f.(storeSize := WrittenSize(f)))
  {
    var s := Encode(f) + extra;
    PartsOf(f, extra);
    PrefixOf(f, s);
    MiddleOf(f, s[48..]);
    TailReads(f, extra);
    hide Prefix, Middle, Tail, Encode, Number, Read, DecodeTail, Pow256;
  }

  /** The frame is written segment by segment into a growing buffer. */
  method WriteFrame(f: Frame) returns (buffer: Option<seq<nat>>)
    ensures buffer == if Fits(f) then Some(Encode(f)) else None
  {
    if !Fits(f) {
      return None;
    }
    var buf := Field(WrittenSize(f), 4);
    buf := buf + Field(if f.v2 then MAGIC_V2 else MAGIC_V1, 4);
    buf := buf + Bytes(f.crc, 4);
    buf := buf + Field(f.queueId, 4);
    buf := buf + Field(f.flag, 4);
    buf := buf + Field(f.queueOffset, 8);
    buf := buf + Field(f.physicalOffset, 8);
    buf := buf + Field(f.sysFlag, 4);
    buf := buf + Field(f.bornTime, 8);
    assert buf == Prefix(f);
    var tail := WriteMiddle(f);
    hide Prefix, Middle, Tail, Fits;
    buffer := Some(buf + tail);
  }

  method WriteMiddle(f: Frame) returns (buf: seq<nat>)
    requires Fits(f)
    ensures buf == Middle(f) + Tail(f)
  {
    buf := f.bornHost;
    buf := buf + Field(f.storeTime, 8);
    buf := buf + f.storeHost;
    buf := buf + Field(f.reconsumeTimes, 4);
    buf := buf + Field(f.preparedOffset, 8);
    assert buf == Middle(f);
    var tail := Field(|f.body|, 4);
    tail := tail + f.body;
    tail := tail + Bytes(|f.topic|, TopicWidth(f.v2));
    tail := tail + f.topic;
    tail := tail + Bytes(|f.properties|, 2);
    tail := tail + f.properties;
    Flat(Field(|f.body|, 4), f.body, Bytes(|f.topic|, TopicWidth(f.v2)), f.topic, Bytes(|f.properties|, 2), f.properties);
    buf := buf + tail;
  }

  lemma Flat(a: seq<nat>, b: seq<nat>, c: seq<nat>, d: seq<nat>, e: seq<nat>, g: seq<nat>)
    ensures a + b + c + d + e + g == a + (b + (c + (d + (e + g))))
  {
    assert a + b + c + d + e + g == a + b + c + d + (e + g);
    assert a + b + c + d + (e + g) == a + b + c + (d + (e + g));
    assert a + b + c + (d + (e + g)) == a + b + (c + (d + (e + g)));
  }

  // ---- a stream of frames -------------------------------------------------------------------------

  predicate AllFit(fs: seq<Frame>) {
    forall i :: 0 <= i < |fs| ==> Fits(fs[i])
  }

  function Join(fs: seq<Frame>): seq<nat>
    requires AllFit(fs)
  {
    if fs == [] then [] else Encode(fs[0]) + Join(fs[1..])
  }

  /** What a reader of the written frames should see. */
  function AsWritten(fs: seq<Frame>): (r: seq<Frame>)
    ensures |r| == |fs|
    ensures forall i :: 0 <= i < |r| ==> r[i] == fs[i].(storeSize := WrittenSize(fs[i]))
  {
    seq(|fs|, i requires 0 <= i < |fs| => fs[i].(storeSize := WrittenSize(fs[i])))
  }

  /** Frames are walked by the sizes they declare, up to the first that cannot be read. */
  function DecodeAll(s: seq<nat>): seq<Frame>
    decreases |s|
  {
    if |s| < 4 then []
    else
      var n := Read(s[..4]);
      if n <= 0 || n > |s| then []
      else
        var f := Decode(s[..n]);
        if f.None? then [] else [f.value] + DecodeAll(s[n..])
  }

  /** Whether the walk can take a frame here, and where it then goes on. */
  function NextFrame(s: seq<nat>): Option<(nat, Frame)> {
    if |s| < 4 then None
    else
      var n := Read(s[..4]);
      if n <= 0 || n > |s| then None
      else
        var f := Decode(s[..n]);
        if f.None? then None else Some((n, f.value))
  }

  lemma WalkFromHere(s: seq<nat>)
    ensures NextFrame(s).None? ==> DecodeAll(s) == []
    ensures NextFrame(s).Some? ==>
      var (n, f) := NextFrame(s).value; 0 < n <= |s| && DecodeAll(s) == [f] + DecodeAll(s[n..])
  {
    hide Decode, Read;
  }

  lemma Further(raw: seq<nat>, pos: nat, n: nat)
    requires pos + n <= |raw|
    ensures raw[pos..][..n] == raw[pos..pos + n] && raw[pos..][n..] == raw[pos + n..]
  {
  }

  method ReadFrame(raw: seq<nat>, pos: nat) returns (next: Option<(nat, Frame)>)
    requires pos < |raw|
    ensures next == NextFrame(raw[pos..])
  {
    hide Decode, Read;
    if |raw| - pos < 4 {
      return None;
    }
    Further(raw, pos, 4);
    var n := Read(raw[pos..pos + 4]);
    if n <= 0 || n > |raw| - pos {
      return None;
    }
    Further(raw, pos, n);
    var f := Decode(raw[pos..pos + n]);
    next := if f.None? then None else Some((n, f.value));
  }

  method DecodeMessages(raw: seq<nat>) returns (result: seq<Frame>)
    ensures result == DecodeAll(raw)
  {
    hide DecodeAll, NextFrame, Decode, Read;
    result := [];
    var pos := 0;
    assert raw[0..] == raw;
    while pos < |raw|
      invariant 0 <= pos <= |raw|
      invariant DecodeAll(raw) == result + DecodeAll(raw[pos..])
      decreases |raw| - pos
    {
      var next := ReadFrame(raw, pos);
      WalkFromHere(raw[pos..]);
      if next.None? {
        assert result + [] == result;
        return;
      }
      var (n, f) := next.value;
      Further(raw, pos, n);
      result := result + [f];
      pos := pos + n;
    }
    NothingLeft();
    assert raw[pos..] == [] && result + [] == result;
  }

  lemma NothingLeft()
    ensures DecodeAll([]) == []
  {
  }

  lemma FirstFrame(f: Frame, rest: seq<nat>)
    requires Fits(f) && f.storeSize <= ComputedSize(f)
    ensures DecodeAll(Encode(f) + rest) == [f.(storeSize := WrittenSize(f))] + DecodeAll(rest)
  {
    var s := Encode(f) + rest;
    var n := ComputedSize(f);
    PartsOf(f, rest);
    PrefixOf(f, s);
    FrameReadsBack(f, []);
    assert Encode(f) + [] == Encode(f);
    hide Encode, Prefix, Middle, Tail, Decode, Read;
    assert s[..n] == Encode(f) && s[n..] == rest;
  }

  lemma AsWrittenAgain(fs: seq<Frame>)
    requires fs != []
    ensures AsWritten(fs) == [fs[0].(storeSize := WrittenSize(fs[0]))] + AsWritten(fs[1..])
  {
    hide WrittenSize;
  }

  lemma {:induction false} StreamReadsBack(fs: seq<Frame>)
    requires AllFit(fs) && forall i :: 0 <= i < |fs| ==> fs[i].storeSize <= ComputedSize(fs[i])
    ensures DecodeAll(Join(fs)) == AsWritten(fs)
  {
    if fs != [] {
      StreamReadsBack(fs[1..]);
      FirstFrame(fs[0], Join(fs[1..]));
      AsWrittenAgain(fs);
      hide Encode, DecodeAll, Fits, WrittenSize, AsWritten;
    }
  }

  function DeclaredBytes(fs: seq<Frame>): int {
    if fs == [] then 0 else fs[0].storeSize + DeclaredBytes(fs[1..])
  }

  lemma DecodedSize(s: seq<nat>)
    ensures Decode(s).Some? ==> |s| >= 4 && Decode(s).value.storeSize == Read(s[..4])
  {
  }

  /** What a walk accepts never declares more bytes than there are. */
  lemma {:induction false} WalkStaysInside(s: seq<nat>)
    ensures DeclaredBytes(DecodeAll(s)) <= |s|
    decreases |s|
  {
    if |s| >= 4 {
      var n := Read(s[..4]);
      if 0 < n <= |s| {
        DecodedSize(s[..n]);
        assert |s[..n]| >= 4 ==> s[..n][..4] == s[..4];
        WalkStaysInside(s[n..]);
        hide Decode, Read;
        if Decode(s[..n]).Some? {
          var all := DecodeAll(s);
          assert all[1..] == DecodeAll(s[n..]);
        }
      }
    }
  }

  lemma {:induction false} WrittenBytes(fs: seq<Frame>)
    requires AllFit(fs)
    ensures DeclaredBytes(AsWritten(fs)) >= |Join(fs)|
    ensures DeclaredBytes(AsWritten(fs)) == |Join(fs)| <==>
      forall i :: 0 <= i < |fs| ==> fs[i].storeSize <= ComputedSize(fs[i])
  {
    if fs != [] {
      WrittenBytes(fs[1..]);
      AsWrittenAgain(fs);
      hide Encode, Fits, AsWritten;
    }
  }

  /**
   * A stream of frames reads back as the list it was written from exactly when no message carries a size
   * larger than the bytes it takes: a larger one is written into the frame and makes the walk overshoot.
   */
  lemma StreamReadsBackIff(fs: seq<Frame>)
    requires AllFit(fs)
    ensures DecodeAll(Join(fs)) == AsWritten(fs) <==>
      forall i :: 0 <= i < |fs| ==> fs[i].storeSize <= ComputedSize(fs[i])
  {
    WrittenBytes(fs);
    WalkStaysInside(Join(fs));
    if forall i :: 0 <= i < |fs| ==> fs[i].storeSize <= ComputedSize(fs[i]) {
      StreamReadsBack(fs);
    }
    hide DecodeAll, Join, Fits;
  }
}
