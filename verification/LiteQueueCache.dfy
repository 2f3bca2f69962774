/** The incremental view of one queue inside the lite-pull consumer's shared buffer: cached offsets,
    body bytes, offset boundaries and the pull rounds that are still represented. */
module LiteQueueCache {
  import opened Messages

  function Sum(s: seq<nat>): nat {
    if s == [] then 0 else s[0] + Sum(s[1..])
  }

  predicate AllPositive(s: seq<nat>) {
    forall i | 0 <= i < |s| :: s[i] > 0
  }

  predicate Sorted(s: seq<nat>) {
    forall i, j | 0 <= i < j < |s| :: s[i] <= s[j]
  }

  /** What is left after the first occurrence of `x` is taken out (everything, when there is none). */
  function RemoveFirst(s: seq<nat>, x: nat): seq<nat> {
    if s == [] then []
    else if s[0] == x then s[1..]
    else [s[0]] + RemoveFirst(s[1..], x)
  }

  lemma {:induction false} RemoveFirstMembers(s: seq<nat>, x: nat)
    ensures |RemoveFirst(s, x)| == if x in s then |s| - 1 else |s|
    ensures forall y | y in RemoveFirst(s, x) :: y in s
    ensures forall y | y in s && y != x :: y in RemoveFirst(s, x)
    ensures x !in s ==> RemoveFirst(s, x) == s
  {
    if s != [] {
      assert s == [s[0]] + s[1..];
      if s[0] != x { RemoveFirstMembers(s[1..], x); }
    }
  }

  /** One message is charged to the oldest round that still holds any. */
  function ChargeOldest(rounds: seq<nat>): seq<nat> {
    if rounds == [] then []
    else if rounds[0] <= 1 then rounds[1..]
    else [rounds[0] - 1] + rounds[1..]
  }

  lemma {:induction false} SumConcat(a: seq<nat>, b: seq<nat>)
    ensures Sum(a + b) == Sum(a) + Sum(b)
  {
    if a == [] {
      assert a + b == b;
    } else {
      assert (a + b)[1..] == a[1..] + b;
      SumConcat(a[1..], b);
    }
  }

  lemma ChargeOldestSum(rounds: seq<nat>)
    requires rounds != [] && AllPositive(rounds)
    ensures AllPositive(ChargeOldest(rounds))
    ensures Sum(ChargeOldest(rounds)) == Sum(rounds) - 1
  {
    var r := ChargeOldest(rounds);
    if rounds[0] > 1 {
      assert r[1..] == rounds[1..];
    }
  }

  /** One message after the other is charged to the oldest round. */
  function ChargeTimes(rounds: seq<nat>, n: nat): seq<nat>
    decreases n
  {
    if n == 0 then rounds else ChargeTimes(ChargeOldest(rounds), n - 1)
  }

  /** The pending rounds after `n` messages have left; a queue that has none left starts over. */
  function ChargeAll(rounds: seq<nat>, n: nat, empty: bool): seq<nat> {
    if n == 0 then rounds else if empty then [] else ChargeTimes(rounds, n)
  }

  /** The cache of one queue as a value. `rounds` counts how many messages each pending pull round still holds. The code
      does not keep `groups`, the cached offsets by the round that brought them, nor `open`, the offsets whose round is
      not recorded yet. */
  datatype Cached = Cached(offsets: seq<nat>, size: int, low: nat, high: nat, rounds: seq<nat>,
                           groups: seq<seq<nat>>, open: seq<nat>)

  predicate Bounds(offsets: seq<nat>, low: nat, high: nat) {
    if offsets == [] then low == 0 && high == 0 else Least(low, offsets) && Greatest(high, offsets)
  }

  /** The boundaries describe exactly the cached offsets; an empty cache reads as all zeros. */
  predicate Bounded(c: Cached) {
    Bounds(c.offsets, c.low, c.high) && c.offsets == Flatten(c.groups) + c.open && NoneEmpty(c.groups)
  }

  /** Between pull rounds: every pending round holds something and together they hold everything. */
  predicate Accounted(c: Cached) {
    Bounded(c) && c.open == [] && AllPositive(c.rounds) && Sum(c.rounds) == |c.offsets|
  }

  /** The pending rounds are those of the cached rows: one per group, with as many messages as it still has here. */
  predicate CountsRounds(c: Cached) {
    c.open == [] && c.rounds == Lengths(c.groups)
  }

  const EMPTY_CACHE: Cached := Cached([], 0, 0, 0, [], [], [])

  function WithRow(c: Cached, m: Message): Cached {
    var grown := c.(offsets := c.offsets + [m.offset], size := c.size + m.bodySize, open := c.open + [m.offset]);
    if c.offsets == [] then grown.(low := m.offset, high := m.offset)
    else if m.offset < c.low then grown.(low := m.offset)
    else if m.offset > c.high then grown.(high := m.offset)
    else grown
  }

  function WithRound(c: Cached, count: nat): Cached {
    c.(rounds := c.rounds + (if count > 0 then [count] else []),
       groups := c.groups + (if c.open != [] then [c.open] else []), open := [])
  }

  function WithoutRow(c: Cached, m: Message): Cached {
    var left := RemoveFirst(c.offsets, m.offset);
    var kept := RemoveFromGroups(c.groups, m.offset);
    if left == [] then Cached([], 0, 0, 0, [], kept, c.open)
    else if m.offset == c.low || m.offset == c.high then
      Cached(left, c.size - m.bodySize, MinOf(left), MaxOf(left), ChargeOldest(c.rounds), kept, c.open)
    else Cached(left, c.size - m.bodySize, c.low, c.high, ChargeOldest(c.rounds), kept, c.open)
  }

  /** The accumulator of one queue, updated in place. */
  class QueueCache {
    var offsets: seq<nat>
    var size: int
    var minOffset: nat
    var maxOffset: nat
    var rounds: seq<nat>
    ghost var groups: seq<seq<nat>>
    ghost var open: seq<nat>

    ghost function View(): Cached
      reads this
    {
      Cached(offsets, size, minOffset, maxOffset, rounds, groups, open)
    }

    constructor ()
      ensures View() == EMPTY_CACHE
    {
      offsets, size, minOffset, maxOffset, rounds := [], 0, 0, 0, [];
      groups, open := [], [];
    }

    function Count(): nat
      reads this
    {
      |offsets|
    }

    function PendingRounds(): nat
      reads this
    {
      |rounds|
    }

    /** Highest minus lowest cached offset. */
    function Span(): (r: int)
      requires Bounded(View())
      reads this
      ensures offsets == [] ==> r == 0
      ensures offsets != [] ==> r == MaxOf(offsets) - MinOf(offsets)
    {
      if offsets != [] then ExtremesAreUnique(offsets, minOffset, maxOffset);
        if |offsets| > 1 then maxOffset - minOffset else 0
      else 0
    }

    /** Records that one pull round left `count` messages in the buffer. */
    method BeginRound(count: nat)
      modifies this`rounds, this`groups, this`open
      ensures View() == WithRound(old(View()), count)
    {
      if count > 0 {
        rounds := rounds + [count];
      }
      groups, open := groups + (if open != [] then [open] else []), [];
    }

    method Add(m: Message)
      requires Bounded(View())
      modifies this`offsets, this`size, this`minOffset, this`maxOffset, this`open
      ensures View() == WithRow(old(View()), m)
    {
      offsets := offsets + [m.offset];
      open := open + [m.offset];
      size := size + m.bodySize;
      if |offsets| == 1 {
        minOffset, maxOffset := m.offset, m.offset;
        return;
      }
      if m.offset < minOffset {
        minOffset := m.offset;
      } else if m.offset > maxOffset {
        maxOffset := m.offset;
      }
    }

    /** Takes one message out: its bytes, its offset and one unit of the oldest pending round. */
    method Remove(m: Message)
      modifies this
      ensures View() == WithoutRow(old(View()), m)
    {
      RemoveHeadOrNone(offsets, m.offset);
      hide RemoveFromGroups, MinOf, MaxOf, Least, Greatest, RemoveFirst;
      size := size - m.bodySize;
      rounds := ChargeOldest(rounds);
      groups := RemoveFromGroups(groups, m.offset);
      if offsets != [] && offsets[0] == m.offset {
        offsets := offsets[1..];
      } else if m.offset in offsets {
        offsets := RemoveFirst(offsets, m.offset);
      }
      if offsets == [] {
        size, minOffset, maxOffset, rounds := 0, 0, 0, [];
      } else if m.offset == minOffset || m.offset == maxOffset {
        minOffset := MinOf(offsets);
        maxOffset := MaxOf(offsets);
      }
    }
  }

  lemma RemoveHeadOrNone(s: seq<nat>, x: nat)
    ensures s != [] && s[0] == x ==> RemoveFirst(s, x) == s[1..]
    ensures x !in s ==> RemoveFirst(s, x) == s
  {
    RemoveFirstMembers(s, x);
  }

  // ---- what every update of the cache keeps ----

  lemma BoundsGrow(s: seq<nat>, low: nat, high: nat, x: nat)
    requires Bounds(s, low, high)
    ensures s == [] ==> Bounds(s + [x], x, x)
    ensures s != [] ==> Bounds(s + [x], if x < low then x else low, if x > high && x >= low then x else high)
  {
    assert (s + [x])[|s|] == x;
    assert forall y | y in s + [x] :: y in s || y == x;
  }

  /** Adding rows and then recording their number as one round keeps everything accounted for, round by round. */
  lemma RowKeepsBounds(c: Cached, m: Message)
    requires Bounded(c)
    ensures Bounded(WithRow(c, m))
    ensures WithRow(c, m).rounds == c.rounds && WithRow(c, m).groups == c.groups
  {
    BoundsGrow(c.offsets, c.low, c.high, m.offset);
    hide Flatten, NoneEmpty, Bounds;
    assert Flatten(c.groups) + (c.open + [m.offset]) == Flatten(c.groups) + c.open + [m.offset];
  }

  lemma RoundKeepsAccounts(c: Cached)
    requires Bounded(c) && AllPositive(c.rounds) && Sum(c.rounds) == |Flatten(c.groups)|
    ensures Accounted(WithRound(c, |c.open|))
    ensures c.rounds == Lengths(c.groups) ==> CountsRounds(WithRound(c, |c.open|))
  {
    if c.open == [] {
      assert c.groups + [] == c.groups && c.rounds + [] == c.rounds;
    } else {
      SumConcat(c.rounds, [|c.open|]);
      LengthsConcat(c.groups, [c.open]);
      FlattenConcat(c.groups, [c.open]);
      assert Flatten([c.open]) == c.open && Lengths([c.open]) == [|c.open|];
    }
  }

  /** Only a removed boundary can move a boundary. */
  lemma BoundsStay(offsets: seq<nat>, low: nat, high: nat, x: nat)
    requires Bounds(offsets, low, high) && RemoveFirst(offsets, x) != [] && x != low && x != high
    ensures Bounds(RemoveFirst(offsets, x), low, high)
  {
    RemoveFirstMembers(offsets, x);
  }

  /** Taking a cached row out keeps everything accounted for. The pending rounds stay those of the cached rows exactly
      when the row belonged to the oldest round, or to a later one before which there are only rounds of one row. */
  lemma RemovalKeepsAccounts(c: Cached, m: Message)
    requires Accounted(c) && m.offset in c.offsets
    ensures Accounted(WithoutRow(c, m))
    ensures CountsRounds(c) ==> (CountsRounds(WithoutRow(c, m)) <==> ChargedToItsRound(c.groups, m.offset))
  {
    assert Flatten(c.groups) + [] == Flatten(c.groups);
    RemovalFacts(c.offsets, c.groups, c.rounds, m.offset);
    var d := WithoutRow(c, m);
    hide Flatten, NoneEmpty, Lengths, RemoveFromGroups, ChargedToItsRound, Sum, AllPositive, ChargeOldest;
    assert Flatten(d.groups) + [] == Flatten(d.groups);
    if d.offsets != [] && m.offset != c.low && m.offset != c.high {
      BoundsStay(c.offsets, c.low, c.high, m.offset);
    }
  }

  /** What a removal does to the flat list, to the list by rounds and to the counters. */
  lemma RemovalFacts(offsets: seq<nat>, groups: seq<seq<nat>>, rounds: seq<nat>, x: nat)
    requires offsets == Flatten(groups) && NoneEmpty(groups)
    ensures var left, kept := RemoveFirst(offsets, x), RemoveFromGroups(groups, x);
            && left == Flatten(kept) && NoneEmpty(kept)
            && (left == [] ==> kept == [] && Lengths(kept) == [] && Sum([]) == 0 && AllPositive([]))
            && (x !in offsets ==> left == offsets)
            && (x in offsets && AllPositive(rounds) && Sum(rounds) == |offsets| ==>
                  AllPositive(ChargeOldest(rounds)) && Sum(ChargeOldest(rounds)) == |left|)
            && (x in offsets ==> (Lengths(kept) == ChargeOldest(Lengths(groups)) <==> ChargedToItsRound(groups, x)))
            && (x in offsets && left == [] ==> ChargedToItsRound(groups, x))
  {
    RemoveFirstMembers(offsets, x);
    GroupsFollowOffsets(groups, x);
    NothingGrouped(RemoveFromGroups(groups, x));
    RemovalIsChargedRightIff(groups, x);
    if x in offsets && RemoveFirst(offsets, x) == [] {
      assert offsets == [x];
      LastRowIsOfTheOldestRound(groups, x);
    }
    if x in offsets && AllPositive(rounds) && Sum(rounds) == |offsets| {
      ChargeOldestSum(rounds);
    }
  }

  lemma LastRowIsOfTheOldestRound(groups: seq<seq<nat>>, x: nat)
    requires NoneEmpty(groups) && Flatten(groups) == [x]
    ensures ChargedToItsRound(groups, x)
  {
    assert groups[0] != [] && groups[0][0] == Flatten(groups)[0];
  }

  // ---- what the pending rounds mean ----

  /** The cached offsets of a queue, grouped by the pull round that brought them. */
  function Flatten(groups: seq<seq<nat>>): seq<nat> {
    if groups == [] then [] else groups[0] + Flatten(groups[1..])
  }

  function Lengths(groups: seq<seq<nat>>): (r: seq<nat>)
    ensures |r| == |groups|
  {
    if groups == [] then [] else [|groups[0]|] + Lengths(groups[1..])
  }

  predicate NoneEmpty(groups: seq<seq<nat>>) {
    forall i | 0 <= i < |groups| :: groups[i] != []
  }

  /** The first cached row equal to `x` leaves the round it came with; a round with nothing left goes. */
  function RemoveFromGroups(groups: seq<seq<nat>>, x: nat): seq<seq<nat>> {
    if groups == [] then []
    else if x in groups[0] then
      var rest := RemoveFirst(groups[0], x);
      (if rest == [] then [] else [rest]) + groups[1..]
    else [groups[0]] + RemoveFromGroups(groups[1..], x)
  }

  lemma {:induction false} RemoveFirstInPrefix(a: seq<nat>, b: seq<nat>, x: nat)
    ensures RemoveFirst(a + b, x) == if x in a then RemoveFirst(a, x) + b else a + RemoveFirst(b, x)
  {
    if a == [] {
      assert a + b == b;
    } else {
      assert (a + b)[1..] == a[1..] + b;
      if a[0] == x {
      } else {
        RemoveFirstInPrefix(a[1..], b, x);
        assert a == [a[0]] + a[1..];
      }
    }
  }

  /** Grouping is only bookkeeping: the cached offsets shrink exactly as the flat list does. */
  lemma {:induction false} GroupsFollowOffsets(groups: seq<seq<nat>>, x: nat)
    requires NoneEmpty(groups)
    ensures Flatten(RemoveFromGroups(groups, x)) == RemoveFirst(Flatten(groups), x)
    ensures NoneEmpty(RemoveFromGroups(groups, x))
  {
    if groups != [] {
      RemoveFirstInPrefix(groups[0], Flatten(groups[1..]), x);
      if x in groups[0] {
        RemoveFirstMembers(groups[0], x);
        var rest := RemoveFirst(groups[0], x);
        if rest == [] {
          assert [] + groups[1..] == groups[1..];
        } else {
          assert ([rest] + groups[1..])[1..] == groups[1..];
        }
      } else {
        GroupsFollowOffsets(groups[1..], x);
        var tail := RemoveFromGroups(groups[1..], x);
        assert ([groups[0]] + tail)[1..] == tail;
      }
    }
  }

  lemma {:induction false} FlattenConcat(a: seq<seq<nat>>, b: seq<seq<nat>>)
    ensures Flatten(a + b) == Flatten(a) + Flatten(b)
  {
    if a == [] {
      assert a + b == b;
    } else {
      assert (a + b)[1..] == a[1..] + b;
      FlattenConcat(a[1..], b);
    }
  }

  lemma {:induction false} LengthsConcat(a: seq<seq<nat>>, b: seq<seq<nat>>)
    ensures Lengths(a + b) == Lengths(a) + Lengths(b)
  {
    if a == [] {
      assert a + b == b;
    } else {
      assert (a + b)[1..] == a[1..] + b;
      LengthsConcat(a[1..], b);
    }
  }

  lemma NothingGrouped(groups: seq<seq<nat>>)
    requires NoneEmpty(groups)
    ensures Flatten(groups) == [] <==> groups == []
  {
    if groups != [] { assert groups[0] != []; }
  }

  lemma {:induction false} LengthsSum(groups: seq<seq<nat>>)
    ensures Sum(Lengths(groups)) == |Flatten(groups)|
    ensures NoneEmpty(groups) ==> AllPositive(Lengths(groups))
  {
    if groups != [] {
      LengthsSum(groups[1..]);
    }
  }

  /** The position of the round that brought the first cached row equal to `x`. */
  function RoundOf(groups: seq<seq<nat>>, x: nat): (i: nat)
    requires x in Flatten(groups)
    ensures i < |groups|
  {
    if x in groups[0] then 0 else 1 + RoundOf(groups[1..], x)
  }

  /** Round `i` holds one message less; a round with nothing left goes. */
  function Lessen(l: seq<nat>, i: nat): seq<nat>
    requires i < |l|
  {
    if i > 0 then [l[0]] + Lessen(l[1..], i - 1)
    else ChargeOldest(l)
  }

  predicate AllOnes(l: seq<nat>) {
    forall j | 0 <= j < |l| :: l[j] == 1
  }

  /** A row of the oldest round, or of a later one that together with all before it holds one row each. */
  predicate ChargedToItsRound(groups: seq<seq<nat>>, x: nat) {
    x in Flatten(groups) ==> (RoundOf(groups, x) == 0 || AllOnes(Lengths(groups)[..RoundOf(groups, x) + 1]))
  }

  lemma LengthsOfFirst(round: seq<nat>, groups: seq<seq<nat>>)
    ensures Lengths([round] + groups) == [|round|] + Lengths(groups)
  {
    assert ([round] + groups)[1..] == groups;
  }

  lemma FirstRoundLessens(first: seq<nat>, groups: seq<seq<nat>>, rest: seq<nat>)
    requires first != [] && |rest| == |first| - 1
    ensures Lengths((if rest == [] then [] else [rest]) + groups) == ChargeOldest([|first|] + Lengths(groups))
  {
    if rest == [] {
      assert [] + groups == groups;
    } else {
      LengthsOfFirst(rest, groups);
    }
  }

  lemma {:induction false} LengthsAfterRemoval(groups: seq<seq<nat>>, x: nat)
    requires x in Flatten(groups) && NoneEmpty(groups)
    ensures Lengths(RemoveFromGroups(groups, x)) == Lessen(Lengths(groups), RoundOf(groups, x))
  {
    var rest := RemoveFirst(groups[0], x);
    if x in groups[0] {
      assert RoundOf(groups, x) == 0;
      RemoveFirstMembers(groups[0], x);
      FirstRoundLessens(groups[0], groups[1..], rest);
      hide RoundOf, Flatten, RemoveFirst;
    } else {
      LengthsAfterRemoval(groups[1..], x);
      LengthsOfFirst(groups[0], RemoveFromGroups(groups[1..], x));
      var tail := Lengths(groups[1..]);
      assert Lengths(groups)[1..] == tail;
      hide ChargeOldest, Flatten, RemoveFirst;
    }
  }

  lemma {:induction false} LessenIsChargeIff(l: seq<nat>, i: nat)
    requires AllPositive(l) && i < |l|
    ensures Lessen(l, i) == ChargeOldest(l) <==> i == 0 || AllOnes(l[..i + 1])
  {
    if i > 0 {
      LessenIsChargeIff(l[1..], i - 1);
      var tail := Lessen(l[1..], i - 1);
      assert l[..i + 1] == [l[0]] + l[1..][..i];
      assert ([l[0]] + tail)[0] == l[0] && ([l[0]] + tail)[1..] == tail;
      if l[0] > 1 {
        assert l[..i + 1][0] == l[0];
      } else if l[1] == 1 {
        assert l[1..] == [1] + l[1..][1..] && ChargeOldest(l[1..]) == l[1..][1..];
        if i == 1 { assert l[..2] == [1, 1]; }
      } else {
        assert l[1..][0] != 1;
        assert l[..i + 1][1] == l[1];
      }
    }
  }

  /** Charging the oldest round is right for a row that leaves exactly when the row belongs to it, or the rounds up to
      its own hold one row each. */
  lemma RemovalIsChargedRightIff(groups: seq<seq<nat>>, x: nat)
    requires NoneEmpty(groups)
    ensures x in Flatten(groups) ==>
              (Lengths(RemoveFromGroups(groups, x)) == ChargeOldest(Lengths(groups)) <==> ChargedToItsRound(groups, x))
  {
    if x in Flatten(groups) {
      LengthsAfterRemoval(groups, x);
      LengthsSum(groups);
      LessenIsChargeIff(Lengths(groups), RoundOf(groups, x));
      hide Lessen, Lengths, Flatten, RemoveFromGroups, RoundOf, ChargeOldest, AllOnes;
    }
  }

  // ---- several rows leave, one after the other ----

  function RemoveEach(s: seq<nat>, xs: seq<nat>): seq<nat>
    decreases |xs|
  {
    if xs == [] then s else RemoveEach(RemoveFirst(s, xs[0]), xs[1..])
  }

  function RemoveEachFromGroups(groups: seq<seq<nat>>, xs: seq<nat>): seq<seq<nat>>
    decreases |xs|
  {
    if xs == [] then groups else RemoveEachFromGroups(RemoveFromGroups(groups, xs[0]), xs[1..])
  }

  lemma {:induction false} GroupsFollowEach(groups: seq<seq<nat>>, xs: seq<nat>)
    requires NoneEmpty(groups)
    ensures Flatten(RemoveEachFromGroups(groups, xs)) == RemoveEach(Flatten(groups), xs)
    ensures NoneEmpty(RemoveEachFromGroups(groups, xs))
    decreases |xs|
  {
    if xs != [] {
      GroupsFollowOffsets(groups, xs[0]);
      GroupsFollowEach(RemoveFromGroups(groups, xs[0]), xs[1..]);
    }
  }

  lemma {:induction false} RemoveHeads(s: seq<nat>, k: nat)
    requires k <= |s|
    ensures RemoveEach(s, s[..k]) == s[k..]
    decreases k
  {
    if k > 0 {
      assert s[..k][0] == s[0] && s[..k][1..] == s[1..][..k - 1];
      RemoveHeads(s[1..], k - 1);
    }
  }

  lemma {:induction false} ChargeTimesSum(rounds: seq<nat>, n: nat)
    requires AllPositive(rounds) && n <= Sum(rounds)
    ensures AllPositive(ChargeTimes(rounds, n)) && Sum(ChargeTimes(rounds, n)) == Sum(rounds) - n
    decreases n
  {
    if n > 0 {
      ChargeOldestSum(rounds);
      ChargeTimesSum(ChargeOldest(rounds), n - 1);
    }
  }

  lemma {:induction false} ChargeTimesMore(rounds: seq<nat>, a: nat, b: nat)
    ensures ChargeTimes(ChargeTimes(rounds, a), b) == ChargeTimes(rounds, a + b)
    decreases a
  {
    if a > 0 { ChargeTimesMore(ChargeOldest(rounds), a - 1, b); }
  }

  lemma NoSumNoRounds(rounds: seq<nat>)
    requires AllPositive(rounds) && Sum(rounds) == 0
    ensures rounds == []
  {
  }

  lemma HeadIsChargedRight(groups: seq<seq<nat>>)
    requires NoneEmpty(groups) && Flatten(groups) != []
    ensures Lengths(RemoveFromGroups(groups, Flatten(groups)[0])) == ChargeOldest(Lengths(groups))
  {
    assert groups != [] && groups[0] != [] && Flatten(groups)[0] == groups[0][0];
    LengthsAfterRemoval(groups, groups[0][0]);
  }

  /** Rows that leave from the head are all charged to their own rounds. */
  lemma {:induction false} HeadsAreChargedRight(groups: seq<seq<nat>>, k: nat)
    requires NoneEmpty(groups) && k <= |Flatten(groups)|
    ensures Lengths(RemoveEachFromGroups(groups, Flatten(groups)[..k])) == ChargeTimes(Lengths(groups), k)
    decreases k
  {
    if k > 0 {
      var all := Flatten(groups);
      HeadIsChargedRight(groups);
      GroupsFollowOffsets(groups, all[0]);
      assert RemoveFirst(all, all[0]) == all[1..];
      assert all[..k][0] == all[0] && all[..k][1..] == all[1..][..k - 1];
      hide Lengths, Flatten, RemoveFromGroups, ChargeOldest, RemoveFirst, NoneEmpty;
      HeadsAreChargedRight(RemoveFromGroups(groups, all[0]), k - 1);
    }
  }

  /** What a seek leaves of a queue's cached offsets. */
  function Prune(s: seq<nat>, target: nat): seq<nat> {
    if s == [] then []
    else if s[0] < target then Prune(s[1..], target)
    else [s[0]] + Prune(s[1..], target)
  }

  /** What a seek drops of them, in order. */
  function Dropped(s: seq<nat>, target: nat): seq<nat> {
    if s == [] then []
    else if s[0] < target then [s[0]] + Dropped(s[1..], target)
    else Dropped(s[1..], target)
  }

  lemma {:induction false} PruneMembers(s: seq<nat>, target: nat)
    ensures forall x | x in Prune(s, target) :: x >= target && x in s
    ensures forall x | x in Dropped(s, target) :: x < target && x in s
    ensures |Dropped(s, target)| + |Prune(s, target)| == |s|
  {
    if s != [] { PruneMembers(s[1..], target); }
  }

  /** Taking the dropped offsets out one by one, each at its first occurrence, leaves what the seek keeps. */
  lemma {:induction false} RemoveDropped(s: seq<nat>, target: nat)
    ensures RemoveEach(s, Dropped(s, target)) == Prune(s, target)
  {
    if s != [] {
      RemoveDropped(s[1..], target);
      PruneMembers(s[1..], target);
      if s[0] < target {
        assert Dropped(s, target)[1..] == Dropped(s[1..], target);
      } else {
        RemoveEachPast(s[0], s[1..], Dropped(s[1..], target));
        assert [s[0]] + s[1..] == s;
      }
    }
  }

  lemma {:induction false} RemoveEachPast(x: nat, s: seq<nat>, xs: seq<nat>)
    requires x !in xs
    ensures RemoveEach([x] + s, xs) == [x] + RemoveEach(s, xs)
    decreases |xs|
  {
    if xs != [] {
      assert ([x] + s)[1..] == s;
      RemoveEachPast(x, RemoveFirst(s, xs[0]), xs[1..]);
    }
  }

  predicate PrunesPrefix(s: seq<nat>, target: nat) {
    exists k :: 0 <= k <= |s| && Prune(s, target) == s[k..]
  }

  lemma {:induction false} PruneConcat(a: seq<nat>, b: seq<nat>, target: nat)
    ensures Prune(a + b, target) == Prune(a, target) + Prune(b, target)
  {
    if a == [] {
      assert a + b == b;
    } else {
      assert (a + b)[1..] == a[1..] + b;
      PruneConcat(a[1..], b, target);
    }
  }

  lemma {:induction false} PruneSorted(s: seq<nat>, target: nat)
    requires Sorted(s)
    ensures PrunesPrefix(s, target)
  {
    if s == [] {
      assert Prune(s, target) == s[0..];
    } else if s[0] < target {
      PruneSorted(s[1..], target);
      var k :| 0 <= k <= |s[1..]| && Prune(s[1..], target) == s[1..][k..];
      assert s[1..][k..] == s[k + 1..];
    } else {
      PruneNothing(s, target);
      assert Prune(s, target) == s[0..];
    }
  }

  lemma {:induction false} PruneNothing(s: seq<nat>, target: nat)
    requires forall i | 0 <= i < |s| :: s[i] >= target
    ensures Prune(s, target) == s
  {
    if s != [] {
      PruneNothing(s[1..], target);
      assert s == [s[0]] + s[1..];
    }
  }

  lemma {:induction false} PruneKeeps(s: seq<nat>, target: nat, i: nat)
    requires i < |s| && s[i] >= target
    ensures Prune(s, target) != []
  {
    if i > 0 { PruneKeeps(s[1..], target, i - 1); }
  }

  /** With an inversion in the cache, no suffix is what a seek to the larger offset leaves. */
  lemma InversionIsNoSuffix(s: seq<nat>, i: nat, j: nat, k: nat)
    requires i < j < |s| && s[i] > s[j] && k <= |s|
    ensures Prune(s, s[i]) != s[k..]
  {
    var target := s[i];
    if Prune(s, target) == s[k..] {
      SuffixIsKept(s, k, target);
      assert j < k;
      assert s == s[..k] + s[k..];
      PruneConcat(s[..k], s[k..], target);
      PruneKeeps(s[..k], target, i);
    }
  }

  lemma SuffixIsKept(s: seq<nat>, k: nat, target: nat)
    requires k <= |s| && Prune(s, target) == s[k..]
    ensures Prune(s[k..], target) == s[k..]
    ensures forall x | k <= x < |s| :: s[x] >= target
  {
    PruneMembers(s, target);
    forall x | k <= x < |s| ensures s[x] >= target {
      assert s[k..][x - k] in Prune(s, target);
    }
    PruneNothing(s[k..], target);
  }

  /** A seek only ever drops a prefix of a queue's cached offsets, whatever its target, exactly when the
      cached offsets are in order. */
  lemma PruneIsPrefixIffSorted(s: seq<nat>)
    ensures (forall target: nat :: PrunesPrefix(s, target)) <==> Sorted(s)
  {
    if Sorted(s) {
      forall target: nat ensures PrunesPrefix(s, target) { PruneSorted(s, target); }
    } else {
      var i, j :| 0 <= i < j < |s| && s[i] > s[j];
      forall k | 0 <= k <= |s| ensures Prune(s, s[i]) != s[k..] { InversionIsNoSuffix(s, i, j, k); }
      assert !PrunesPrefix(s, s[i]);
    }
  }
}
