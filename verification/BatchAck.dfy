/**
 * The body of a POP batch acknowledgement: checkpoints merged into one entry per pop, the acknowledged
 * offsets packed as bits relative to the checkpoint, the bits as minimal little-endian bytes, the bytes in
 * Base64 (section 4 of RFC 4648).
 */
module BatchAck {
  import opened Messages

  // ---- bits of a byte -----------------------------------------------------------------------------

  function Exp2(k: nat): (r: nat)
    ensures r >= 1
  {
    if k == 0 then 1 else 2 * Exp2(k - 1)
  }

  predicate Bit(b: nat, k: nat) {
    if k == 0 then b % 2 == 1 else Bit(b / 2, k - 1)
  }

  function SetBit(b: nat, k: nat): nat {
    if Bit(b, k) then b else b + Exp2(k)
  }

  lemma {:induction false} SetBitMeaning(b: nat, j: nat, k: nat)
    ensures Bit(SetBit(b, j), k) <==> Bit(b, k) || j == k
  {
    if j > 0 {
      assert SetBit(b, j) / 2 == SetBit(b / 2, j - 1) && SetBit(b, j) % 2 == b % 2;
      if k > 0 {
        SetBitMeaning(b / 2, j - 1, k - 1);
      }
    } else if k > 0 {
      assert SetBit(b, 0) / 2 == b / 2;
    }
  }

  lemma {:induction false} SetBitFits(b: nat, k: nat, width: nat)
    requires b < Exp2(width) && k < width
    ensures SetBit(b, k) < Exp2(width)
  {
    assert Exp2(width) == 2 * Exp2(width - 1);
    if k > 0 {
      assert Exp2(k) == 2 * Exp2(k - 1) && (Bit(b, k) <==> Bit(b / 2, k - 1));
      SetBitFits(b / 2, k - 1, width - 1);
      hide Bit, Exp2;
      assert SetBit(b, k) / 2 == SetBit(b / 2, k - 1);
    }
  }

  lemma {:induction false} ZeroHasNoBits(k: nat)
    ensures !Bit(0, k)
  {
    if k > 0 {
      ZeroHasNoBits(k - 1);
    }
  }

  lemma {:induction false} HighBitsAreZero(b: nat, k: nat, width: nat)
    requires b < Exp2(width) && width <= k
    ensures !Bit(b, k)
  {
    if width == 0 {
      ZeroHasNoBits(k);
    } else {
      HighBitsAreZero(b / 2, k - 1, width - 1);
    }
  }

  /** Two numbers with the same bits are the same number. */
  lemma {:induction false} BitsDetermine(a: nat, b: nat)
    requires forall k: nat :: Bit(a, k) <==> Bit(b, k)
    ensures a == b
    decreases a + b
  {
    assert Bit(a, 0) <==> Bit(b, 0);
    if a + b > 0 {
      forall k: nat ensures Bit(a / 2, k) <==> Bit(b / 2, k) {
        assert Bit(a, k + 1) <==> Bit(b, k + 1);
      }
      BitsDetermine(a / 2, b / 2);
    }
  }

  // ---- the bit set and its bytes ------------------------------------------------------------------

  /** Bit `i` is bit `i % 8` of byte `i / 8`. */
  predicate Marked(data: seq<nat>, i: nat) {
    i / 8 < |data| && Bit(data[i / 8], i % 8)
  }

  /** Exactly these bits, in no more bytes than they need. */
  ghost predicate Packs(data: seq<nat>, bits: set<nat>) {
    && IsBytes(data)
    && (forall i: nat :: Marked(data, i) <==> i in bits)
    && (data != [] ==> data[|data| - 1] != 0)
  }

  method Greatest(bits: set<nat>) returns (top: nat)
    requires bits != {}
    ensures top in bits && forall i :: i in bits ==> i <= top
  {
    top :| top in bits;
    var rest := bits - {top};
    while rest != {}
      invariant top in bits && rest <= bits
      invariant forall i :: i in bits && i !in rest ==> i <= top
      decreases rest
    {
      var i :| i in rest;
      rest := rest - {i};
      if top < i {
        top := i;
      }
    }
  }

  method ToBytes(bits: set<nat>) returns (data: seq<nat>)
    ensures Packs(data, bits)
  {
    if bits == {} {
      return [];
    }
    var top := Greatest(bits);
    var out := new nat[top / 8 + 1](_ => 0);
    forall i: nat ensures !Marked(out[..], i) {
      ZeroHasNoBits(i % 8);
    }
    var rest := bits;
    while rest != {}
      invariant rest <= bits && out.Length == top / 8 + 1
      invariant IsBytes(out[..])
      invariant forall i: nat :: Marked(out[..], i) <==> i in bits && i !in rest
      decreases rest
    {
      var i :| i in rest;
      rest := rest - {i};
      ghost var was := out[..];
      MarkOne(was, i);
      out[i / 8] := SetBit(out[i / 8], i % 8);
      assert out[..] == was[i / 8 := SetBit(was[i / 8], i % 8)];
    }
    data := out[..];
    assert Marked(data, top);
    ZeroHasNoBits(top % 8);
  }

  lemma MarkOne(data: seq<nat>, i: nat)
    requires IsBytes(data) && i / 8 < |data|
    ensures var marked := data[i / 8 := SetBit(data[i / 8], i % 8)];
      IsBytes(marked) && forall j: nat :: Marked(marked, j) <==> Marked(data, j) || j == i
  {
    var marked := data[i / 8 := SetBit(data[i / 8], i % 8)];
    assert Exp2(8) == 256;
    SetBitFits(data[i / 8], i % 8, 8);
    forall j: nat ensures Marked(marked, j) <==> Marked(data, j) || j == i {
      SetBitMeaning(data[i / 8], i % 8, j % 8);
      assert j == j / 8 * 8 + j % 8 && i == i / 8 * 8 + i % 8;
    }
  }

  method FromBytes(data: seq<nat>) returns (bits: set<nat>)
    requires IsBytes(data)
    ensures forall i: nat :: i in bits <==> Marked(data, i)
  {
    bits := {};
    for n := 0 to |data|
      invariant forall i: nat :: i in bits <==> i < 8 * n && Marked(data, i)
    {
      if data[n] == 0 {
        forall i | 8 * n <= i < 8 * (n + 1) ensures !Marked(data, i) {
          ZeroHasNoBits(i % 8);
        }
      } else {
        for k := 0 to 8
          invariant forall i: nat :: i in bits <==> i < 8 * n + k && Marked(data, i)
        {
          assert (8 * n + k) / 8 == n && (8 * n + k) % 8 == k;
          if Bit(data[n], k) {
            bits := bits + {8 * n + k};
          }
        }
      }
    }
  }

  lemma {:induction false} NonzeroHasABit(b: nat, width: nat) returns (k: nat)
    requires 0 < b < Exp2(width)
    ensures k < width && Bit(b, k)
  {
    if b % 2 == 1 {
      k := 0;
    } else {
      var j := NonzeroHasABit(b / 2, width - 1);
      k := j + 1;
    }
  }

  lemma NoShorterPacking(a: seq<nat>, b: seq<nat>, bits: set<nat>)
    requires Packs(a, bits) && Packs(b, bits)
    ensures |b| <= |a|
  {
    if b != [] {
      var n := |b| - 1;
      assert Exp2(8) == 256;
      var k := NonzeroHasABit(b[n], 8);
      assert (8 * n + k) / 8 == n && (8 * n + k) % 8 == k;
      assert Marked(b, 8 * n + k);
      assert Marked(a, 8 * n + k);
    }
  }

  /** A set has exactly one packed form. */
  lemma PackingIsUnique(a: seq<nat>, b: seq<nat>, bits: set<nat>)
    requires Packs(a, bits) && Packs(b, bits)
    ensures a == b
  {
    NoShorterPacking(a, b, bits);
    NoShorterPacking(b, a, bits);
    forall n | 0 <= n < |a| ensures a[n] == b[n] {
      SameByte(a, b, n);
    }
  }

  lemma SameByte(a: seq<nat>, b: seq<nat>, n: nat)
    requires IsBytes(a) && IsBytes(b) && n < |a| && |a| == |b|
    requires forall i: nat :: Marked(a, i) <==> Marked(b, i)
    ensures a[n] == b[n]
  {
    assert Exp2(8) == 256;
    forall k: nat ensures Bit(a[n], k) <==> Bit(b[n], k) {
      if k < 8 {
        assert (8 * n + k) / 8 == n && (8 * n + k) % 8 == k;
        assert Marked(a, 8 * n + k) <==> Marked(b, 8 * n + k);
      } else {
        HighBitsAreZero(a[n], k, 8);
        HighBitsAreZero(b[n], k, 8);
      }
    }
    BitsDetermine(a[n], b[n]);
  }

  /** The number the bytes write, the first byte the least significant. */
  function Little(data: seq<nat>): nat {
    if data == [] then 0 else data[0] + 256 * Little(data[1..])
  }

  lemma {:induction false} BitIs(n: nat, k: nat)
    ensures Bit(n, k) <==> n / Exp2(k) % 2 == 1
  {
    if k > 0 {
      BitIs(n / 2, k - 1);
      HalvesFirst(n, Exp2(k - 1));
    }
  }

  lemma Quotient(n: nat, d: nat, u: nat, rest: nat)
    requires d > 0 && n == d * u + rest && rest < d
    ensures n / d == u
  {
    var q := n / d;
    assert n == d * q + n % d;
    assert q < u ==> d * (q + 1) <= d * u;
    assert q > u ==> d * (u + 1) <= d * q;
  }

  lemma HalvesFirst(n: nat, d: nat)
    requires d > 0
    ensures n / 2 / d == n / (2 * d)
  {
    var q := n / 2;
    var u, v := q / d, q % d;
    assert q == d * u + v && 2 * (d * u) == (2 * d) * u;
    Quotient(n, 2 * d, u, 2 * v + n % 2);
  }

  lemma {:induction false} LowBits(b: nat, rest: nat, k: nat, width: nat)
    requires b < Exp2(width)
    ensures Bit(b + Exp2(width) * rest, k) <==> if k < width then Bit(b, k) else Bit(rest, k - width)
  {
    if width > 0 {
      assert Exp2(width) * rest == 2 * (Exp2(width - 1) * rest);
      assert (b + Exp2(width) * rest) / 2 == b / 2 + Exp2(width - 1) * rest;
      if k > 0 {
        LowBits(b / 2, rest, k - 1, width - 1);
      }
    }
  }

  /** A bit is marked exactly when it is set in the little-endian number the bytes write. */
  lemma {:induction false} MarkedIsTheBit(data: seq<nat>, i: nat)
    requires IsBytes(data)
    ensures Marked(data, i) <==> Little(data) / Exp2(i) % 2 == 1
  {
    BitIs(Little(data), i);
    if data == [] {
      ZeroHasNoBits(i);
    } else {
      assert Exp2(8) == 256;
      LowBits(data[0], Little(data[1..]), i, 8);
      if i >= 8 {
        MarkedIsTheBit(data[1..], i - 8);
        BitIs(Little(data[1..]), i - 8);
        assert (i - 8) / 8 == i / 8 - 1 && (i - 8) % 8 == i % 8;
      }
    }
  }

  // ---- Base64 -------------------------------------------------------------------------------------

  /** The alphabet of section 4 of RFC 4648. */
  function Symbol(v: nat): char
    requires v < 64
  {
    if v < 26 then (v + 65) as char
    else if v < 52 then (v + 71) as char
    else if v < 62 then (v - 4) as char
    else if v == 62 then '+' else '/'
  }

  function Value(c: char): Option<nat> {
    if 'A' <= c <= 'Z' then Some(c as int - 65)
    else if 'a' <= c <= 'z' then Some(c as int - 71)
    else if '0' <= c <= '9' then Some(c as int + 4)
    else if c == '+' then Some(62)
    else if c == '/' then Some(63)
    else None
  }

  lemma SymbolIsRead(v: nat)
    requires v < 64
    ensures Value(Symbol(v)) == Some(v) && Symbol(v) != '='
  {
  }

  /** Capital letters, small letters, digits, plus and slash, each kind in its own order. */
  lemma SymbolOrder(v: nat)
    requires v < 64
    ensures Symbol(0) == 'A' && Symbol(26) == 'a' && Symbol(52) == '0' && Symbol(62) == '+' && Symbol(63) == '/'
    ensures v !in {0, 26, 52, 62, 63} ==> Symbol(v) as int == Symbol(v - 1) as int + 1
  {
  }

  function Encode(data: seq<nat>): string
    requires IsBytes(data)
  {
    if data == [] then ""
    else if |data| == 1 then
      [Symbol(data[0] / 4), Symbol(data[0] % 4 * 16), '=', '=']
    else if |data| == 2 then
      [Symbol(data[0] / 4), Symbol(data[0] % 4 * 16 + data[1] / 16), Symbol(data[1] % 16 * 4), '=']
    else
      [Symbol(data[0] / 4), Symbol(data[0] % 4 * 16 + data[1] / 16),
       Symbol(data[1] % 16 * 4 + data[2] / 64), Symbol(data[2] % 64)] + Encode(data[3..])
  }

  /** The bytes of one group of four symbols, `=` standing for what is not there. */
  function Group(text: string): Option<seq<nat>>
    requires |text| == 4
  {
    var a, b := Value(text[0]), Value(text[1]);
    if a.None? || b.None? then None
    else
      var first := a.value * 4 + b.value / 16;
      if text[2] == '=' then (if text[3] == '=' then Some([first]) else None)
      else
        var c := Value(text[2]);
        if c.None? then None
        else
          var second := b.value % 16 * 16 + c.value / 4;
          if text[3] == '=' then Some([first, second])
          else
            var d := Value(text[3]);
            if d.None? then None else Some([first, second, c.value % 4 * 64 + d.value])
  }

  function Decode(text: string): Option<seq<nat>> {
    if text == "" then Some([])
    else if |text| < 4 then None
    else
      var head := Group(text[..4]);
      if head.None? then None
      else if |head.value| < 3 then (if |text| == 4 then head else None)
      else
        var rest := Decode(text[4..]);
        if rest.None? then None else Some(head.value + rest.value)
  }

  lemma GroupOfOne(a: nat)
    requires a < 256
    ensures Group([Symbol(a / 4), Symbol(a % 4 * 16), '=', '=']) == Some([a])
  {
    SymbolIsRead(a / 4);
    SymbolIsRead(a % 4 * 16);
    hide Symbol, Value;
  }

  lemma GroupOfTwo(a: nat, b: nat)
    requires a < 256 && b < 256
    ensures Group([Symbol(a / 4), Symbol(a % 4 * 16 + b / 16), Symbol(b % 16 * 4), '=']) == Some([a, b])
  {
    SymbolIsRead(a / 4);
    SymbolIsRead(a % 4 * 16 + b / 16);
    SymbolIsRead(b % 16 * 4);
    hide Symbol, Value;
  }

  lemma GroupOfThree(a: nat, b: nat, c: nat)
    requires a < 256 && b < 256 && c < 256
    ensures Group([Symbol(a / 4), Symbol(a % 4 * 16 + b / 16), Symbol(b % 16 * 4 + c / 64), Symbol(c % 64)])
      == Some([a, b, c])
  {
    SymbolIsRead(a / 4);
    SymbolIsRead(a % 4 * 16 + b / 16);
    SymbolIsRead(b % 16 * 4 + c / 64);
    SymbolIsRead(c % 64);
    hide Symbol, Value;
    assert a / 4 * 4 + (a % 4 * 16 + b / 16) / 16 == a;
    assert (a % 4 * 16 + b / 16) % 16 * 16 + (b % 16 * 4 + c / 64) / 4 == b;
    assert (b % 16 * 4 + c / 64) % 4 * 64 + c % 64 == c;
  }

  lemma DecodeOneGroup(head: string, tail: string, bytes: seq<nat>, rest: seq<nat>)
    requires |head| == 4 && Group(head) == Some(bytes)
    requires if |bytes| < 3 then tail == "" && rest == [] else Decode(tail) == Some(rest)
    ensures Decode(head + tail) == Some(bytes + rest)
  {
    hide Group;
    var text := head + tail;
    assert text[..4] == head && text[4..] == tail && bytes + [] == bytes;
  }

  lemma ShortEncodingIsRead(data: seq<nat>)
    requires IsBytes(data) && 1 <= |data| <= 2
    ensures Decode(Encode(data)) == Some(data)
  {
    if |data| == 1 {
      GroupOfOne(data[0]);
      assert data == [data[0]];
    } else {
      GroupOfTwo(data[0], data[1]);
      assert data == [data[0], data[1]];
    }
    hide Group, Symbol, Decode;
    DecodeOneGroup(Encode(data), "", data, []);
    assert Encode(data) + "" == Encode(data) && data + [] == data;
  }

  lemma {:induction false} DecodeReadsEncode(data: seq<nat>)
    requires IsBytes(data)
    ensures Decode(Encode(data)) == Some(data)
  {
    if 1 <= |data| <= 2 {
      ShortEncodingIsRead(data);
    } else if |data| > 2 {
      var head := [Symbol(data[0] / 4), Symbol(data[0] % 4 * 16 + data[1] / 16),
                   Symbol(data[1] % 16 * 4 + data[2] / 64), Symbol(data[2] % 64)];
      GroupOfThree(data[0], data[1], data[2]);
      DecodeReadsEncode(data[3..]);
      assert Encode(data) == head + Encode(data[3..]);
      hide Group, Symbol, Decode, Encode;
      DecodeOneGroup(head, Encode(data[3..]), [data[0], data[1], data[2]], data[3..]);
      assert data == [data[0], data[1], data[2]] + data[3..];
    }
  }

  /** The four symbols write this number of 24 bits. */
  predicate WritesGroup(four: string, value: nat) {
    && |four| == 4 && (forall j :: 0 <= j < 4 ==> Value(four[j]).Some?)
    && value == ((Value(four[0]).value * 64 + Value(four[1]).value) * 64 + Value(four[2]).value) * 64
                + Value(four[3]).value
  }

  lemma ThreeBytes(a: nat, b: nat, c: nat)
    requires a < 256 && b < 256 && c < 256
    ensures var four := [Symbol(a / 4), Symbol(a % 4 * 16 + b / 16), Symbol(b % 16 * 4 + c / 64), Symbol(c % 64)];
      WritesGroup(four, (a * 256 + b) * 256 + c)
  {
    SymbolIsRead(a / 4);
    SymbolIsRead(a % 4 * 16 + b / 16);
    SymbolIsRead(b % 16 * 4 + c / 64);
    SymbolIsRead(c % 64);
    hide Symbol, Value;
  }

  /**
   * Every three bytes are the four symbols of the same number of 24 bits. One or two bytes at the end are filled up
   * with zero bits, and the symbols that would write nothing else stand as `=`.
   */
  lemma EncodesByGroups(data: seq<nat>) returns (four: string)
    requires IsBytes(data) && data != []
    ensures |four| == 4
    ensures |data| >= 3 ==>
      Encode(data) == four + Encode(data[3..]) && WritesGroup(four, (data[0] * 256 + data[1]) * 256 + data[2])
    ensures |data| == 2 ==>
      Encode(data) == four[..3] + "=" && four[3] == 'A' && WritesGroup(four, (data[0] * 256 + data[1]) * 256)
    ensures |data| == 1 ==>
      Encode(data) == four[..2] + "==" && four[2..] == "AA" && WritesGroup(four, data[0] * 256 * 256)
  {
    var a, b, c := data[0], if |data| > 1 then data[1] else 0, if |data| > 2 then data[2] else 0;
    four := [Symbol(a / 4), Symbol(a % 4 * 16 + b / 16), Symbol(b % 16 * 4 + c / 64), Symbol(c % 64)];
    ThreeBytes(a, b, c);
    assert Symbol(0) == 'A';
    hide Symbol, WritesGroup;
    if |data| == 3 {
      assert data[3..] == [];
    }
  }

  // ---- merging checkpoints ------------------------------------------------------------------------

  /** A POP checkpoint, as far as acknowledging reads it. */
  datatype Checkpoint = Checkpoint(retry: string, queueId: int, ckOffset: int, popTime: int,
                                   queueOffset: int, reviveQueueId: int, invisibleTime: int, brokerName: string)

  /** The pop a checkpoint comes from. */
  datatype Key = Key(retry: string, queueId: int, ckOffset: int, popTime: int)

  datatype Entry = Entry(key: Key, reviveQueueId: int, invisibleTime: int, bits: set<nat>)

  function KeyOf(c: Checkpoint): Key {
    Key(c.retry, c.queueId, c.ckOffset, c.popTime)
  }

  /** The offsets an entry acknowledges. */
  function Acked(e: Entry): set<int> {
    set b | b in e.bits :: e.key.ckOffset + b
  }

  /** The offsets a list of checkpoints asks to acknowledge for one pop. */
  function Asked(cs: seq<Checkpoint>, key: Key): set<int> {
    set c | c in cs && KeyOf(c) == key :: c.queueOffset
  }

  datatype Body = Body(brokerName: Option<string>, acks: seq<Entry>)

  predicate InRange(cs: seq<Checkpoint>) {
    forall i :: 0 <= i < |cs| ==> cs[i].ckOffset <= cs[i].queueOffset
  }

  /** The first checkpoint of its pop. */
  predicate IsFirstOf(cs: seq<Checkpoint>, c: Checkpoint) {
    exists i :: 0 <= i < |cs| && cs[i] == c && forall j :: 0 <= j < i ==> KeyOf(cs[j]) != KeyOf(c)
  }

  /** One entry per pop, in the order the pops first appear, acknowledging exactly what was asked. */
  ghost predicate Merges(acks: seq<Entry>, cs: seq<Checkpoint>) {
    && (forall i, j :: 0 <= i < j < |acks| ==> acks[i].key != acks[j].key)
    && (forall c :: c in cs ==> exists i :: 0 <= i < |acks| && acks[i].key == KeyOf(c))
    && (forall i :: 0 <= i < |acks| ==> Describes(acks[i], cs))
  }

  ghost predicate Describes(e: Entry, cs: seq<Checkpoint>) {
    && Acked(e) == Asked(cs, e.key)
    && exists c :: IsFirstOf(cs, c) && KeyOf(c) == e.key
         && e.reviveQueueId == c.reviveQueueId && e.invisibleTime == c.invisibleTime
  }

  function IndexOf(acks: seq<Entry>, key: Key): (r: nat)
    ensures r <= |acks|
    ensures r < |acks| ==> acks[r].key == key
    ensures r == |acks| ==> forall i :: 0 <= i < |acks| ==> acks[i].key != key
  {
    if acks == [] then 0
    else if acks[0].key == key then 0
    else 1 + IndexOf(acks[1..], key)
  }

  /** Merge one more checkpoint; a queue offset below its checkpoint offset is refused. */
  function Merge(acks: seq<Entry>, c: Checkpoint): (r: seq<Entry>)
    requires c.ckOffset <= c.queueOffset
  {
    var i := IndexOf(acks, KeyOf(c));
    var bit := c.queueOffset - c.ckOffset;
    if i < |acks| then acks[i := acks[i].(bits := acks[i].bits + {bit})]
    else acks + [Entry(KeyOf(c), c.reviveQueueId, c.invisibleTime, {bit})]
  }

  method FromCheckpoints(cs: seq<Checkpoint>) returns (body: Option<Body>)
    ensures body.None? <==> exists c :: c in cs && c.queueOffset < c.ckOffset
    ensures body.Some? ==> Merges(body.value.acks, cs)
    ensures body.Some? ==> body.value.brokerName == if cs == [] then None else Some(cs[0].brokerName)
  {
    var brokerName := None;
    var acks := [];
    ghost var done := [];
    NothingMerged();
    hide Merges, Merge;
    for n := 0 to |cs|
      invariant done == cs[..n] && Merges(acks, done)
      invariant forall i :: 0 <= i < n ==> cs[i].ckOffset <= cs[i].queueOffset
      invariant brokerName == if n == 0 then None else Some(cs[0].brokerName)
    {
      var c := cs[n];
      if brokerName.None? {
        brokerName := Some(c.brokerName);
      }
      if c.queueOffset < c.ckOffset {
        return None;
      }
      MergeKeeps(acks, done, c);
      done := done + [c];
      acks := Merge(acks, c);
    }
    assert done == cs;
    body := Some(Body(brokerName, acks));
  }

  lemma NothingMerged()
    ensures Merges([], [])
  {
  }

  lemma StillFirst(cs: seq<Checkpoint>, c: Checkpoint, d: Checkpoint)
    requires IsFirstOf(cs, d)
    ensures IsFirstOf(cs + [c], d)
  {
    var i :| 0 <= i < |cs| && cs[i] == d && forall j :: 0 <= j < i ==> KeyOf(cs[j]) != KeyOf(d);
    assert (cs + [c])[i] == d;
    forall j | 0 <= j < i ensures KeyOf((cs + [c])[j]) != KeyOf(d) {
      assert (cs + [c])[j] == cs[j];
    }
  }

  lemma AskedOneMore(cs: seq<Checkpoint>, c: Checkpoint, key: Key)
    ensures Asked(cs + [c], key) == if KeyOf(c) == key then Asked(cs, key) + {c.queueOffset} else Asked(cs, key)
  {
  }

  lemma AckedOneMore(e: Entry, bit: nat)
    ensures Acked(e.(bits := e.bits + {bit})) == Acked(e) + {e.key.ckOffset + bit}
  {
  }

  lemma MergedKeys(acks: seq<Entry>, cs: seq<Checkpoint>, c: Checkpoint)
    requires Merges(acks, cs) && c.ckOffset <= c.queueOffset
    ensures var r := Merge(acks, c);
      && (forall i, j :: 0 <= i < j < |r| ==> r[i].key != r[j].key)
      && (forall d :: d in cs + [c] ==> exists i :: 0 <= i < |r| && r[i].key == KeyOf(d))
  {
    hide Describes, Asked, Acked;
    var at, r := IndexOf(acks, KeyOf(c)), Merge(acks, c);
    assert r[at].key == KeyOf(c);
    forall d | d in cs ensures exists i :: 0 <= i < |r| && r[i].key == KeyOf(d) {
      var i :| 0 <= i < |acks| && acks[i].key == KeyOf(d);
      assert r[i].key == KeyOf(d);
    }
  }

  lemma NoneOfThisPop(acks: seq<Entry>, cs: seq<Checkpoint>, key: Key)
    requires Merges(acks, cs) && IndexOf(acks, key) == |acks|
    ensures forall d :: d in cs ==> KeyOf(d) != key
  {
    hide Describes;
    forall d | d in cs ensures KeyOf(d) != key {
      var i :| 0 <= i < |acks| && acks[i].key == KeyOf(d);
    }
  }

  lemma MergedEntry(acks: seq<Entry>, cs: seq<Checkpoint>, c: Checkpoint, i: nat)
    requires Merges(acks, cs) && c.ckOffset <= c.queueOffset && i < |Merge(acks, c)|
    ensures Describes(Merge(acks, c)[i], cs + [c])
  {
    var at := IndexOf(acks, KeyOf(c));
    if i != at {
      assert acks[i].key != KeyOf(c);
      OtherEntry(acks[i], cs, c);
    } else if at < |acks| {
      SameEntry(acks[at], cs, c);
    } else {
      NoneOfThisPop(acks, cs, KeyOf(c));
      NewEntry(cs, c);
    }
  }

  lemma MergeKeeps(acks: seq<Entry>, cs: seq<Checkpoint>, c: Checkpoint)
    requires Merges(acks, cs) && c.ckOffset <= c.queueOffset
    ensures Merges(Merge(acks, c), cs + [c])
  {
    MergedKeys(acks, cs, c);
    forall i | 0 <= i < |Merge(acks, c)| ensures Describes(Merge(acks, c)[i], cs + [c]) {
      MergedEntry(acks, cs, c, i);
    }
    hide Describes, Merge;
  }

  lemma OtherEntry(e: Entry, cs: seq<Checkpoint>, c: Checkpoint)
    requires Describes(e, cs) && e.key != KeyOf(c)
    ensures Describes(e, cs + [c])
  {
    AskedOneMore(cs, c, e.key);
    var d :| IsFirstOf(cs, d) && KeyOf(d) == e.key
      && e.reviveQueueId == d.reviveQueueId && e.invisibleTime == d.invisibleTime;
    StillFirst(cs, c, d);
  }

  lemma SameEntry(e: Entry, cs: seq<Checkpoint>, c: Checkpoint)
    requires Describes(e, cs) && e.key == KeyOf(c) && c.ckOffset <= c.queueOffset
    ensures Describes(e.(bits := e.bits + {c.queueOffset - c.ckOffset}), cs + [c])
  {
    AskedOneMore(cs, c, e.key);
    AckedOneMore(e, c.queueOffset - c.ckOffset);
    var d :| IsFirstOf(cs, d) && KeyOf(d) == e.key
      && e.reviveQueueId == d.reviveQueueId && e.invisibleTime == d.invisibleTime;
    StillFirst(cs, c, d);
  }

  lemma NewEntry(cs: seq<Checkpoint>, c: Checkpoint)
    requires c.ckOffset <= c.queueOffset
    requires forall d :: d in cs ==> KeyOf(d) != KeyOf(c)
    ensures Describes(Entry(KeyOf(c), c.reviveQueueId, c.invisibleTime, {c.queueOffset - c.ckOffset}), cs + [c])
  {
    var e := Entry(KeyOf(c), c.reviveQueueId, c.invisibleTime, {c.queueOffset - c.ckOffset});
    AskedOneMore(cs, c, KeyOf(c));
    assert Asked(cs, KeyOf(c)) == {};
    assert Acked(e) == {c.queueOffset};
    assert (cs + [c])[|cs|] == c;
    assert IsFirstOf(cs + [c], c);
  }

  /** Every checkpoint is acknowledged by the entry of its pop, at the distance of its offset from the pop's. */
  lemma CheckpointIsInAnEntry(acks: seq<Entry>, cs: seq<Checkpoint>, c: Checkpoint) returns (e: Entry)
    requires Merges(acks, cs) && c in cs
    ensures e in acks && e.key.retry == c.retry && e.key.queueId == c.queueId
    ensures e.key.ckOffset == c.ckOffset && e.key.popTime == c.popTime
    ensures exists bit :: bit in e.bits && c.queueOffset == c.ckOffset + bit
  {
    var i :| 0 <= i < |acks| && acks[i].key == KeyOf(c);
    e := acks[i];
    assert Describes(e, cs) && c.queueOffset in Asked(cs, e.key);
    assert c.queueOffset in Acked(e);
  }

  /** And every bit of every entry is some checkpoint's; the rest of the entry comes from the first of its pop. */
  lemma BitIsACheckpoint(acks: seq<Entry>, cs: seq<Checkpoint>, e: Entry, bit: nat) returns (c: Checkpoint)
    requires Merges(acks, cs) && e in acks && bit in e.bits
    ensures c in cs && c.retry == e.key.retry && c.queueId == e.key.queueId
    ensures c.ckOffset == e.key.ckOffset && c.popTime == e.key.popTime && c.queueOffset == e.key.ckOffset + bit
  {
    assert Describes(e, cs) && e.key.ckOffset + bit in Acked(e);
    assert e.key.ckOffset + bit in Asked(cs, e.key);
    c :| c in cs && KeyOf(c) == e.key && c.queueOffset == e.key.ckOffset + bit;
  }

  lemma EntryIsTheFirst(acks: seq<Entry>, cs: seq<Checkpoint>, e: Entry) returns (i: nat)
    requires Merges(acks, cs) && e in acks
    ensures i < |cs| && cs[i].reviveQueueId == e.reviveQueueId && cs[i].invisibleTime == e.invisibleTime
    ensures Key(cs[i].retry, cs[i].queueId, cs[i].ckOffset, cs[i].popTime) == e.key
    ensures forall j :: 0 <= j < i ==> Key(cs[j].retry, cs[j].queueId, cs[j].ckOffset, cs[j].popTime) != e.key
  {
    assert Describes(e, cs);
    var c :| IsFirstOf(cs, c) && KeyOf(c) == e.key
      && e.reviveQueueId == c.reviveQueueId && e.invisibleTime == c.invisibleTime;
    i :| 0 <= i < |cs| && cs[i] == c && forall j :: 0 <= j < i ==> KeyOf(cs[j]) != KeyOf(c);
    forall j | 0 <= j < i ensures Key(cs[j].retry, cs[j].queueId, cs[j].ckOffset, cs[j].popTime) != e.key {
      assert KeyOf(cs[j]) != KeyOf(c);
    }
  }

  // ---- there and back -----------------------------------------------------------------------------

  /** An entry's text on the wire and the offsets a reader of that text takes from it. */
  method Travel(e: Entry) returns (text: string, offsets: set<int>)
    ensures offsets == Acked(e)
  {
    var data := ToBytes(e.bits);
    text := Encode(data);
    DecodeReadsEncode(data);
    var read := Decode(text);
    var bits := FromBytes(read.value);
    assert bits == e.bits;
    offsets := set b | b in bits :: e.key.ckOffset + b;
  }

  /** A list of checkpoints, merged, sent and read back, acknowledges per pop exactly what it asked for. */
  method RoundTrip(cs: seq<Checkpoint>) returns (keys: seq<Key>, offsets: seq<set<int>>)
    requires InRange(cs)
    ensures |keys| == |offsets|
    ensures forall i, j :: 0 <= i < j < |keys| ==> keys[i] != keys[j]
    ensures forall c :: c in cs ==> KeyOf(c) in keys
    ensures forall i :: 0 <= i < |keys| ==> offsets[i] == Asked(cs, keys[i])
  {
    var body := FromCheckpoints(cs);
    var acks := body.value.acks;
    keys, offsets := [], [];
    for i := 0 to |acks|
      invariant |keys| == |offsets| == i
      invariant forall j :: 0 <= j < i ==> keys[j] == acks[j].key && offsets[j] == Asked(cs, keys[j])
    {
      var _, seen := Travel(acks[i]);
      assert Describes(acks[i], cs);
      keys, offsets := keys + [acks[i].key], offsets + [seen];
    }
    forall c | c in cs ensures KeyOf(c) in keys {
      var i :| 0 <= i < |acks| && acks[i].key == KeyOf(c);
      assert keys[i] == KeyOf(c);
    }
  }

  // ---- the merge key as text ----------------------------------------------------------------------

  function Digits(n: nat): string {
    if n < 10 then [(n + 48) as char] else Digits(n / 10) + [(n % 10 + 48) as char]
  }

  function Decimal(i: int): string {
    if i < 0 then "-" + Digits(-i) else Digits(i)
  }

  function KeyText(k: Key): string {
    ((k.retry + "@" + Decimal(k.queueId)) + "@" + Decimal(k.ckOffset)) + "@" + Decimal(k.popTime)
  }

  function Number(text: string): int {
    if text == "" then 0 else Number(text[..|text| - 1]) * 10 + (text[|text| - 1] as int - 48)
  }

  lemma {:induction false} NumberReadsDigits(n: nat)
    ensures Number(Digits(n)) == n && Digits(n) != "" && '@' !in Digits(n) && Digits(n)[0] != '-'
  {
    if n >= 10 {
      NumberReadsDigits(n / 10);
      assert Digits(n)[..|Digits(n)| - 1] == Digits(n / 10);
    } else {
      assert Digits(n)[..0] == "";
    }
  }

  lemma DecimalIsInjective(i: int, j: int)
    ensures '@' !in Decimal(i)
    ensures Decimal(i) == Decimal(j) ==> i == j
  {
    NumberReadsDigits(if i < 0 then -i else i);
    NumberReadsDigits(if j < 0 then -j else j);
    if Decimal(i) == Decimal(j) && i < 0 {
      assert Decimal(j)[0] == '-';
      assert Decimal(i)[1..] == Digits(-i) && Decimal(j)[1..] == Digits(-j);
    }
  }

  /** The last separator splits a text one way only. */
  lemma SplitAtLast(x: string, s: string, y: string, t: string)
    requires x + "@" + s == y + "@" + t && '@' !in s && '@' !in t
    ensures x == y && s == t
  {
    var whole := x + "@" + s;
    assert whole[|x|] == '@' && whole[|y|] == '@';
    forall i | |x| < i < |whole| ensures whole[i] != '@' {
      assert whole[i] == s[i - |x| - 1];
    }
    forall i | |y| < i < |whole| ensures whole[i] != '@' {
      assert whole[i] == t[i - |y| - 1];
    }
    assert x == whole[..|x|] && y == whole[..|y|];
    assert s == whole[|x| + 1..] && t == whole[|y| + 1..];
  }

  lemma SplitNumber(x: string, i: int, y: string, j: int)
    requires x + "@" + Decimal(i) == y + "@" + Decimal(j)
    ensures x == y && i == j
  {
    DecimalIsInjective(i, j);
    DecimalIsInjective(j, i);
    hide Decimal;
    SplitAtLast(x, Decimal(i), y, Decimal(j));
  }

  /** Checkpoints fall together exactly when their four fields agree, although the key is joined as text. */
  lemma KeyTextIsInjective(a: Key, b: Key)
    ensures KeyText(a) == KeyText(b) <==> a == b
  {
    hide Decimal;
    if KeyText(a) == KeyText(b) {
      SplitNumber((a.retry + "@" + Decimal(a.queueId)) + "@" + Decimal(a.ckOffset), a.popTime,
                  (b.retry + "@" + Decimal(b.queueId)) + "@" + Decimal(b.ckOffset), b.popTime);
      SplitNumber(a.retry + "@" + Decimal(a.queueId), a.ckOffset, b.retry + "@" + Decimal(b.queueId), b.ckOffset);
      SplitNumber(a.retry, a.queueId, b.retry, b.queueId);
    }
  }
}
