/**
 * How the queues of a topic are divided among the instances of a group. Every instance computes its own
 * share from the same two sorted lists; nothing else coordinates them.
 */
module Allocation {
  import opened Messages

  /** The position of the first occurrence, or the length of the list. */
  function First(cids: seq<string>, cid: string): (r: nat)
    ensures r <= |cids|
    ensures r < |cids| ==> cids[r] == cid && cid !in cids[..r]
    ensures r == |cids| ==> cid !in cids
  {
    if cids == [] then 0
    else if cids[0] == cid then 0
    else 1 + First(cids[1..], cid)
  }

  lemma {:induction false} FirstOf(cids: seq<string>, i: nat)
    requires i < |cids|
    ensures First(cids, cids[i]) <= i
    ensures (forall j :: 0 <= j < i ==> cids[j] != cids[i]) ==> First(cids, cids[i]) == i
  {
    if cids[0] != cids[i] {
      FirstOf(cids[1..], i - 1);
    }
  }

  /** An instance that is not in the list, or an empty list, gets nothing. */
  predicate Takes(cid: string, mqs: seq<MessageQueue>, cids: seq<string>) {
    cid != "" && mqs != [] && cid in cids
  }

  // ---- the average strategy: contiguous segments --------------------------------------------------

  /** The first position of the segment of instance `i`, of `n`, over `m` queues. */
  function Start(m: nat, n: nat, i: nat): nat
    requires n > 0
  {
    i * (m / n) + (if i < m % n then i else m % n)
  }

  /** The bounds as they are computed: by the size of the share and by who gets one more. */
  function Bounds(m: nat, n: nat, i: nat): (int, int)
    requires n > 0
  {
    var average, mod := m / n, m % n;
    if average == 0 then (if i < m then (i, i + 1) else (m, m))
    else if mod > 0 && i < mod then (i * (average + 1), i * (average + 1) + average + 1)
    else
      var start := mod * (average + 1) + (i - mod) * average;
      (start, start + average)
  }

  function Averagely(cid: string, mqs: seq<MessageQueue>, cids: seq<string>): seq<MessageQueue> {
    if !Takes(cid, mqs, cids) then []
    else
      var i := First(cids, cid);
      var (start, end) := Bounds(|mqs|, |cids|, i);
      BoundsAre(|mqs|, |cids|, i);
      mqs[start..end]
  }

  lemma StartNext(m: nat, n: nat, i: nat)
    requires n > 0
    ensures Start(m, n, i + 1) == Start(m, n, i) + m / n + (if i < m % n then 1 else 0)
  {
    assert (i + 1) * (m / n) == i * (m / n) + m / n;
  }

  lemma {:induction false} StartGrows(m: nat, n: nat, i: nat, j: nat)
    requires n > 0 && i <= j
    ensures Start(m, n, i) <= Start(m, n, j)
    decreases j - i
  {
    if i < j {
      StartNext(m, n, j - 1);
      StartGrows(m, n, i, j - 1);
    }
  }

  lemma StartEnds(m: nat, n: nat)
    requires n > 0
    ensures Start(m, n, 0) == 0 && Start(m, n, n) == m
  {
    assert m == n * (m / n) + m % n;
  }

  /** The two formulas of the code are one, and stay inside the list. */
  lemma SegmentFits(m: nat, n: nat, i: nat)
    requires n > 0 && i < n
    ensures Start(m, n, i) <= Start(m, n, i + 1) <= m
    ensures i < m % n ==> i * (m / n + 1) == Start(m, n, i)
    ensures i >= m % n ==> m % n * (m / n + 1) + (i - m % n) * (m / n) == Start(m, n, i)
    ensures Start(m, n, i + 1) == Start(m, n, i) + m / n + (if i < m % n then 1 else 0)
  {
    StartNext(m, n, i);
    StartGrows(m, n, i + 1, n);
    StartEnds(m, n);
    var a, r := m / n, m % n;
    assert i * (a + 1) == i * a + i;
    if i >= r {
      assert r * (a + 1) == r * a + r;
      assert (i - r) * a == i * a - r * a;
    }
  }

  lemma BoundsAre(m: nat, n: nat, i: nat)
    requires n > 0 && i < n
    ensures Bounds(m, n, i) == (Start(m, n, i), Start(m, n, i + 1))
    ensures Start(m, n, i) <= Start(m, n, i + 1) <= m
  {
    SegmentFits(m, n, i);
    if m / n == 0 {
      FewQueues(m, n, i);
      FewQueues(m, n, i + 1);
    }
    hide Start;
  }

  lemma AveragelyIsASegment(cid: string, mqs: seq<MessageQueue>, cids: seq<string>)
    requires Takes(cid, mqs, cids)
    ensures var i := First(cids, cid);
      && i < |cids| && Start(|mqs|, |cids|, i) <= Start(|mqs|, |cids|, i + 1) <= |mqs|
      && Averagely(cid, mqs, cids) == mqs[Start(|mqs|, |cids|, i)..Start(|mqs|, |cids|, i + 1)]
  {
    hide Start, Bounds, First;
    BoundsAre(|mqs|, |cids|, First(cids, cid));
  }

  lemma FewQueues(m: nat, n: nat, i: nat)
    requires n > 0 && m / n == 0
    ensures m % n == m && Start(m, n, i) == if i < m then i else m
  {
    assert m == n * (m / n) + m % n;
    assert i * (m / n) == 0;
  }

  /** The shares of the first `k` instances, one after the other. */
  function Shares(mqs: seq<MessageQueue>, cids: seq<string>, k: nat): seq<MessageQueue>
    requires k <= |cids|
  {
    if k == 0 then [] else Shares(mqs, cids, k - 1) + Averagely(cids[k - 1], mqs, cids)
  }

  /** With distinct ids the i-th instance takes the i-th segment. */
  lemma ShareAt(mqs: seq<MessageQueue>, cids: seq<string>, i: nat)
    requires Distinct(cids) && "" !in cids && i < |cids|
    ensures Start(|mqs|, |cids|, i) <= Start(|mqs|, |cids|, i + 1) <= |mqs|
    ensures Averagely(cids[i], mqs, cids) == mqs[Start(|mqs|, |cids|, i)..Start(|mqs|, |cids|, i + 1)]
  {
    FirstOf(cids, i);
    SegmentFits(|mqs|, |cids|, i);
    if mqs != [] {
      AveragelyIsASegment(cids[i], mqs, cids);
    }
    hide Averagely, Start, First;
  }

  lemma {:induction false} SharesReach(mqs: seq<MessageQueue>, cids: seq<string>, k: nat)
    requires Distinct(cids) && "" !in cids && k <= |cids| && cids != []
    ensures Start(|mqs|, |cids|, k) <= |mqs|
    ensures Shares(mqs, cids, k) == mqs[..Start(|mqs|, |cids|, k)]
  {
    hide Averagely, Start, First, Distinct;
    if k == 0 {
      StartEnds(|mqs|, |cids|);
    } else {
      SharesReach(mqs, cids, k - 1);
      ShareAt(mqs, cids, k - 1);
    }
  }

  /** Laid end to end, the shares are the list itself: nothing is missing, nothing is given twice. */
  lemma AveragelyPartitions(mqs: seq<MessageQueue>, cids: seq<string>)
    requires Distinct(cids) && "" !in cids && cids != []
    ensures Shares(mqs, cids, |cids|) == mqs
  {
    SharesReach(mqs, cids, |cids|);
    StartEnds(|mqs|, |cids|);
  }

  lemma AveragelyIsEven(mqs: seq<MessageQueue>, cids: seq<string>, a: string, b: string)
    requires Takes(a, mqs, cids) && Takes(b, mqs, cids)
    ensures |Averagely(a, mqs, cids)| <= |Averagely(b, mqs, cids)| + 1
  {
    AveragelyIsASegment(a, mqs, cids);
    AveragelyIsASegment(b, mqs, cids);
    SegmentFits(|mqs|, |cids|, First(cids, a));
    SegmentFits(|mqs|, |cids|, First(cids, b));
  }

  // ---- the circle strategy: every n-th queue ------------------------------------------------------

  method AveragelyByCircle(cid: string, mqs: seq<MessageQueue>, cids: seq<string>) returns (share: seq<MessageQueue>)
    ensures share == Circle(cid, mqs, cids)
  {
    share := [];
    if !Takes(cid, mqs, cids) {
      return;
    }
    var i := First(cids, cid);
    ghost var from := i;
    while i < |mqs|
      invariant share + Every(mqs, i, |cids|) == Every(mqs, from, |cids|)
      decreases |mqs| - i
    {
      share := share + [mqs[i]];
      i := i + |cids|;
    }
  }

  function Every(mqs: seq<MessageQueue>, i: nat, step: nat): seq<MessageQueue>
    requires step > 0
    decreases |mqs| - i
  {
    if i < |mqs| then [mqs[i]] + Every(mqs, i + step, step) else []
  }

  function Circle(cid: string, mqs: seq<MessageQueue>, cids: seq<string>): seq<MessageQueue> {
    if !Takes(cid, mqs, cids) then [] else Every(mqs, First(cids, cid), |cids|)
  }

  /** How many of the positions i, i + step, ... lie below m. */
  function Turns(m: nat, i: nat, step: nat): nat
    requires step > 0
    decreases m - i
  {
    if i < m then 1 + Turns(m, i + step, step) else 0
  }

  lemma {:induction false} EveryIs(mqs: seq<MessageQueue>, i: nat, step: nat)
    requires step > 0
    ensures |Every(mqs, i, step)| == Turns(|mqs|, i, step)
    decreases |mqs| - i
  {
    if i < |mqs| {
      EveryIs(mqs, i + step, step);
    }
  }

  lemma {:induction false} EveryAt(mqs: seq<MessageQueue>, i: nat, step: nat, j: nat)
    requires step > 0
    ensures j < |Every(mqs, i, step)| <==> i + j * step < |mqs|
    ensures j < |Every(mqs, i, step)| ==> Every(mqs, i, step)[j] == mqs[i + j * step]
    decreases j
  {
    if j > 0 {
      assert i + step + (j - 1) * step == i + j * step;
      if i < |mqs| {
        EveryAt(mqs, i + step, step, j - 1);
      }
    }
  }

  lemma Remainder(k: nat, n: nat, r: nat, q: nat)
    requires n > 0 && r < n && k == r + q * n
    ensures k % n == r && k / n == q
  {
    assert k == n * (k / n) + k % n;
    assert n * (k / n - q) == r - k % n;
    Multiple(n, k / n - q);
  }

  lemma Multiple(n: nat, d: int)
    requires n > 0
    ensures 0 - n < n * d < n ==> d == 0
  {
  }

  lemma CircleHolds(mqs: seq<MessageQueue>, cids: seq<string>, k: nat, c: string, q: nat)
    requires Takes(c, mqs, cids) && k < |mqs| && k == First(cids, c) + q * |cids|
    ensures mqs[k] in Circle(c, mqs, cids)
  {
    EveryAt(mqs, First(cids, c), |cids|, q);
    hide Every, First;
    assert Every(mqs, First(cids, c), |cids|)[q] == mqs[k];
  }

  lemma Quotient(k: nat, n: nat)
    requires n > 0
    ensures k == k % n + k / n * n
  {
  }

  lemma CircleSlot(mqs: seq<MessageQueue>, cids: seq<string>, k: nat, c: string, j: nat)
    requires Distinct(mqs) && Takes(c, mqs, cids) && k < |mqs|
    requires j < |Circle(c, mqs, cids)| && Circle(c, mqs, cids)[j] == mqs[k]
    ensures k % |cids| == First(cids, c)
  {
    EveryAt(mqs, First(cids, c), |cids|, j);
    hide Every, First;
    assert k == First(cids, c) + j * |cids|;
    Remainder(k, |cids|, First(cids, c), j);
  }

  /** The queue at position k belongs to the instance whose id comes first at k mod n. */
  lemma CircleGives(mqs: seq<MessageQueue>, cids: seq<string>, k: nat, c: string)
    requires Distinct(mqs) && Takes(c, mqs, cids) && k < |mqs|
    ensures mqs[k] in Circle(c, mqs, cids) <==> k % |cids| == First(cids, c)
  {
    if mqs[k] in Circle(c, mqs, cids) {
      var j :| 0 <= j < |Circle(c, mqs, cids)| && Circle(c, mqs, cids)[j] == mqs[k];
      CircleSlot(mqs, cids, k, c, j);
    } else if k % |cids| == First(cids, c) {
      Quotient(k, |cids|);
      CircleHolds(mqs, cids, k, c, k / |cids|);
    }
  }

  /** With distinct ids that is instance k mod n, and nobody else. */
  lemma CircleOwner(mqs: seq<MessageQueue>, cids: seq<string>, k: nat, i: nat)
    requires Distinct(mqs) && Distinct(cids) && "" !in cids && k < |mqs| && i < |cids|
    ensures mqs[k] in Circle(cids[i], mqs, cids) <==> k % |cids| == i
  {
    FirstOf(cids, i);
    CircleGives(mqs, cids, k, cids[i]);
    hide Circle;
  }

  lemma {:induction false} LaterTurnsAreFewer(m: nat, i: nat, j: nat, step: nat)
    requires step > 0 && i <= j
    ensures Turns(m, j, step) <= Turns(m, i, step)
    decreases m - i
  {
    if i < m {
      LaterTurnsAreFewer(m, i + step, j + step, step);
    }
  }

  lemma CircleIsEven(mqs: seq<MessageQueue>, cids: seq<string>, a: string, b: string)
    requires Takes(a, mqs, cids) && Takes(b, mqs, cids)
    ensures |Circle(a, mqs, cids)| <= |Circle(b, mqs, cids)| + 1
  {
    var i, j := First(cids, a), First(cids, b);
    EveryIs(mqs, i, |cids|);
    EveryIs(mqs, j, |cids|);
    LaterTurnsAreFewer(|mqs|, j, i + |cids|, |cids|);
  }

  // ---- which queues nobody gets -------------------------------------------------------------------

  predicate InSegment(m: nat, n: nat, i: nat, k: nat)
    requires n > 0
  {
    Start(m, n, i) <= k < Start(m, n, i + 1)
  }

  lemma SegmentsAreDisjoint(m: nat, n: nat, i: nat, j: nat, k: nat)
    requires n > 0 && InSegment(m, n, i, k) && InSegment(m, n, j, k)
    ensures i == j
  {
    if i < j {
      StartGrows(m, n, i + 1, j);
    } else if j < i {
      StartGrows(m, n, j + 1, i);
    }
  }

  lemma {:induction false} SegmentOf(m: nat, n: nat, k: nat, j: nat) returns (i: nat)
    requires n > 0 && k < Start(m, n, j) && j <= n
    ensures i < j && InSegment(m, n, i, k)
  {
    if j > 0 && k < Start(m, n, j - 1) {
      i := SegmentOf(m, n, k, j - 1);
    } else {
      i := j - 1;
      assert Start(m, n, 0) == 0;
    }
  }

  /** A segment is empty exactly when there are no more queues than instances before it. */
  lemma SegmentIsEmptyIff(m: nat, n: nat, i: nat)
    requires n > 0 && i < n
    ensures Start(m, n, i) == Start(m, n, i + 1) <==> m <= i
  {
    StartNext(m, n, i);
    assert m == n * (m / n) + m % n;
    if m / n == 0 {
      assert m == m % n;
    } else {
      assert m >= n by { assert n * (m / n) >= n; }
    }
  }

  type Strategy = (string, seq<MessageQueue>, seq<string>) -> seq<MessageQueue>

  ghost predicate Covered(s: Strategy, mqs: seq<MessageQueue>, cids: seq<string>, q: MessageQueue) {
    exists c :: c in cids && q in s(c, mqs, cids)
  }

  /** Every queue is in somebody's share. */
  ghost predicate Covers(s: Strategy, mqs: seq<MessageQueue>, cids: seq<string>) {
    forall q :: q in mqs ==> Covered(s, mqs, cids, q)
  }

  /** The instance at position i has a name, and not that of an earlier one. */
  predicate HasOwnName(cids: seq<string>, i: nat)
    requires i < |cids|
  {
    cids[i] != "" && cids[i] !in cids[..i]
  }

  /** The segment of position i goes to the instance whose id comes first there. */
  lemma AveragelyGives(mqs: seq<MessageQueue>, cids: seq<string>, k: nat, c: string)
    requires Distinct(mqs) && Takes(c, mqs, cids) && k < |mqs|
    ensures mqs[k] in Averagely(c, mqs, cids) <==> InSegment(|mqs|, |cids|, First(cids, c), k)
  {
    AveragelyIsASegment(c, mqs, cids);
    hide Start, Averagely, First;
    var i := First(cids, c);
    var lo, hi := Start(|mqs|, |cids|, i), Start(|mqs|, |cids|, i + 1);
    if lo <= k < hi {
      assert mqs[lo..hi][k - lo] == mqs[k];
    }
  }

  lemma AveragelyCoveredIff(mqs: seq<MessageQueue>, cids: seq<string>, k: nat, i: nat)
    requires Distinct(mqs) && k < |mqs| && i < |cids| && InSegment(|mqs|, |cids|, i, k)
    ensures Covered(Averagely, mqs, cids, mqs[k]) <==> HasOwnName(cids, i)
  {
    hide Averagely, InSegment;
    if Covered(Averagely, mqs, cids, mqs[k]) {
      var c :| c in cids && mqs[k] in Averagely(c, mqs, cids);
      assert Takes(c, mqs, cids) by { TakersOnly(c, mqs, cids); }
      AveragelyGives(mqs, cids, k, c);
      SegmentsAreDisjoint(|mqs|, |cids|, i, First(cids, c), k);
    }
    if HasOwnName(cids, i) {
      FirstOf(cids, i);
      AveragelyGives(mqs, cids, k, cids[i]);
    }
  }

  lemma TakersOnly(c: string, mqs: seq<MessageQueue>, cids: seq<string>)
    ensures !Takes(c, mqs, cids) ==> Averagely(c, mqs, cids) == [] && Circle(c, mqs, cids) == []
  {
  }

  /**
   * All queues are given out exactly when every instance that would get some has a name of its own: a
   * repeated id computes the share of its first position, an empty one computes none, and in both cases the
   * share of that position goes to nobody.
   */
  lemma AveragelyCoversIff(mqs: seq<MessageQueue>, cids: seq<string>)
    requires Distinct(mqs)
    ensures Covers(Averagely, mqs, cids)
       <==> mqs == [] || (cids != [] && forall i :: 0 <= i < |cids| && i < |mqs| ==> HasOwnName(cids, i))
  {
    hide Averagely, InSegment, HasOwnName, Distinct;
    var m, n := |mqs|, |cids|;
    if mqs != [] && cids != [] {
      forall i | 0 <= i < n && i < m && Covers(Averagely, mqs, cids) ensures HasOwnName(cids, i) {
        var k := SegmentStarts(m, n, i);
        assert mqs[k] in mqs;
        AveragelyCoveredIff(mqs, cids, k, i);
      }
      forall k | 0 <= k < m && (forall i :: 0 <= i < n && i < m ==> HasOwnName(cids, i))
        ensures Covered(Averagely, mqs, cids, mqs[k])
      {
        var i := SegmentHolds(m, n, k);
        AveragelyCoveredIff(mqs, cids, k, i);
      }
    } else if mqs != [] {
      assert mqs[0] in mqs;
    }
    hide Covered;
  }

  lemma SegmentStarts(m: nat, n: nat, i: nat) returns (k: nat)
    requires i < n && i < m
    ensures k < m && InSegment(m, n, i, k)
  {
    k := Start(m, n, i);
    SegmentIsEmptyIff(m, n, i);
    SegmentFits(m, n, i);
  }

  lemma SegmentHolds(m: nat, n: nat, k: nat) returns (i: nat)
    requires n > 0 && k < m
    ensures i < n && i < m && InSegment(m, n, i, k)
  {
    StartEnds(m, n);
    i := SegmentOf(m, n, k, n);
    SegmentIsEmptyIff(m, n, i);
  }

  /** The instance whose turn position k is. */
  function Turn(k: nat, n: nat): (r: nat)
    requires n > 0
    ensures r < n && r <= k && (k < n ==> r == k)
  {
    k % n
  }

  lemma CircleCoveredIff(mqs: seq<MessageQueue>, cids: seq<string>, k: nat)
    requires Distinct(mqs) && k < |mqs| && cids != []
    ensures Covered(Circle, mqs, cids, mqs[k]) <==> HasOwnName(cids, Turn(k, |cids|))
  {
    var i := Turn(k, |cids|);
    hide Circle;
    if Covered(Circle, mqs, cids, mqs[k]) {
      var c :| c in cids && mqs[k] in Circle(c, mqs, cids);
      assert Takes(c, mqs, cids) by { TakersOnly(c, mqs, cids); }
      CircleGives(mqs, cids, k, c);
    }
    if HasOwnName(cids, i) {
      FirstOf(cids, i);
      CircleGives(mqs, cids, k, cids[i]);
    }
  }

  /** The same condition decides for the circle. */
  lemma CircleCoversIff(mqs: seq<MessageQueue>, cids: seq<string>)
    requires Distinct(mqs)
    ensures Covers(Circle, mqs, cids)
       <==> mqs == [] || (cids != [] && forall i :: 0 <= i < |cids| && i < |mqs| ==> HasOwnName(cids, i))
  {
    hide Circle, HasOwnName, Distinct, Turn;
    if mqs != [] && cids != [] {
      forall i | 0 <= i < |cids| && i < |mqs| && Covers(Circle, mqs, cids) ensures HasOwnName(cids, i) {
        assert mqs[i] in mqs;
        CircleCoveredIff(mqs, cids, i);
      }
      forall k | 0 <= k < |mqs| && (forall i :: 0 <= i < |cids| && i < |mqs| ==> HasOwnName(cids, i))
        ensures Covered(Circle, mqs, cids, mqs[k])
      {
        CircleCoveredIff(mqs, cids, k);
      }
    } else if mqs != [] {
      assert mqs[0] in mqs;
    }
    hide Covered;
  }

  /** Two instances with one id over four queues: the last two queues belong to nobody. */
  lemma RepeatedIdLosesQueues(mqs: seq<MessageQueue>)
    requires |mqs| == 4
    ensures Averagely("a", mqs, ["a", "a"]) == mqs[..2]
  {
    AveragelyIsASegment("a", mqs, ["a", "a"]);
  }

  /** An empty id: the first of two queues belongs to nobody. */
  lemma EmptyIdLosesQueues(mqs: seq<MessageQueue>)
    requires |mqs| == 2 && Distinct(mqs)
    ensures !Covered(Averagely, mqs, ["", "b"], mqs[0]) && !Covered(Circle, mqs, ["", "b"], mqs[0])
  {
    assert InSegment(2, 2, 0, 0);
    AveragelyCoveredIff(mqs, ["", "b"], 0, 0);
    CircleCoveredIff(mqs, ["", "b"], 0);
  }

  // ---- fair strategies ----------------------------------------------------------------------------

  /** Among distinct instances, every queue goes to exactly one. */
  ghost predicate OneOwner(s: Strategy, mqs: seq<MessageQueue>, cids: seq<string>, q: MessageQueue) {
    exists c :: c in cids && q in s(c, mqs, cids) && forall d :: d in cids && q in s(d, mqs, cids) ==> d == c
  }

  predicate Instances(cids: seq<string>) {
    Distinct(cids) && "" !in cids && cids != []
  }

  ghost predicate Fair(s: Strategy) {
    && (forall mqs, cids, q :: Distinct(mqs) && Instances(cids) && q in mqs ==> OneOwner(s, mqs, cids, q))
    && (forall c, mqs, cids, q :: q in s(c, mqs, cids) ==> q in mqs)
  }

  lemma AveragelyOwner(mqs: seq<MessageQueue>, cids: seq<string>, k: nat, i: nat)
    requires Distinct(mqs) && Instances(cids) && k < |mqs| && i < |cids|
    ensures mqs[k] in Averagely(cids[i], mqs, cids) <==> InSegment(|mqs|, |cids|, i, k)
  {
    FirstOf(cids, i);
    AveragelyGives(mqs, cids, k, cids[i]);
    hide Averagely;
  }

  lemma AveragelyHasOneOwner(mqs: seq<MessageQueue>, cids: seq<string>, q: MessageQueue)
    requires Distinct(mqs) && Instances(cids) && q in mqs
    ensures OneOwner(Averagely, mqs, cids, q)
  {
    var k :| 0 <= k < |mqs| && mqs[k] == q;
    StartEnds(|mqs|, |cids|);
    var i := SegmentOf(|mqs|, |cids|, k, |cids|);
    AveragelyOwner(mqs, cids, k, i);
    forall d | d in cids && q in Averagely(d, mqs, cids) ensures d == cids[i] {
      var j :| 0 <= j < |cids| && cids[j] == d;
      AveragelyOwner(mqs, cids, k, j);
      SegmentsAreDisjoint(|mqs|, |cids|, i, j, k);
    }
    hide Start, Averagely;
    assert cids[i] in cids;
  }

  lemma AveragelyIsFair()
    ensures Fair(Averagely)
  {
    forall mqs, cids, q | Distinct(mqs) && Instances(cids) && q in mqs ensures OneOwner(Averagely, mqs, cids, q) {
      AveragelyHasOneOwner(mqs, cids, q);
    }
    forall c, mqs, cids, q | q in Averagely(c, mqs, cids) ensures q in mqs {
      AveragelyIsASegment(c, mqs, cids);
    }
  }

  lemma CircleHasOneOwner(mqs: seq<MessageQueue>, cids: seq<string>, q: MessageQueue)
    requires Distinct(mqs) && Instances(cids) && q in mqs
    ensures OneOwner(Circle, mqs, cids, q)
  {
    var k :| 0 <= k < |mqs| && mqs[k] == q;
    var i := k % |cids|;
    CircleOwner(mqs, cids, k, i);
    forall d | d in cids && q in Circle(d, mqs, cids) ensures d == cids[i] {
      var j :| 0 <= j < |cids| && cids[j] == d;
      CircleOwner(mqs, cids, k, j);
    }
    hide Circle;
    assert cids[i] in cids;
  }

  lemma {:induction false} EveryFrom(mqs: seq<MessageQueue>, i: nat, step: nat)
    requires step > 0
    ensures forall q :: q in Every(mqs, i, step) ==> q in mqs
    decreases |mqs| - i
  {
    if i < |mqs| {
      EveryFrom(mqs, i + step, step);
    }
  }

  lemma CircleIsFair()
    ensures Fair(Circle)
  {
    forall mqs, cids, q | Distinct(mqs) && Instances(cids) && q in mqs ensures OneOwner(Circle, mqs, cids, q) {
      CircleHasOneOwner(mqs, cids, q);
    }
    forall c, mqs, cids, q | q in Circle(c, mqs, cids) ensures q in mqs {
      EveryFrom(mqs, First(cids, c), |cids|);
    }
  }

  // ---- rooms --------------------------------------------------------------------------------------

  /** Who stands where; the empty text means the resolver could not tell. */
  datatype Rooms = Rooms(ofQueue: MessageQueue -> string, ofClient: string -> string)

  function QueuesIn(rooms: Rooms, room: string, mqs: seq<MessageQueue>): (r: seq<MessageQueue>)
    ensures forall q :: q in r <==> q in mqs && rooms.ofQueue(q) == room
  {
    if mqs == [] then []
    else if rooms.ofQueue(mqs[0]) == room then [mqs[0]] + QueuesIn(rooms, room, mqs[1..])
    else QueuesIn(rooms, room, mqs[1..])
  }

  function ClientsIn(rooms: Rooms, room: string, cids: seq<string>): (r: seq<string>)
    ensures forall c :: c in r <==> c in cids && rooms.ofClient(c) == room
  {
    if cids == [] then []
    else if rooms.ofClient(cids[0]) == room then [cids[0]] + ClientsIn(rooms, room, cids[1..])
    else ClientsIn(rooms, room, cids[1..])
  }

  /** Rooms whose queues have no instance next to them are shared by everybody. */
  function Orphans(s: Strategy, rooms: Rooms, cid: string, mqs: seq<MessageQueue>, cids: seq<string>,
                   order: seq<string>): seq<MessageQueue> {
    if order == [] then []
    else
      (if order[0] != rooms.ofClient(cid) && ClientsIn(rooms, order[0], cids) == []
       then s(cid, QueuesIn(rooms, order[0], mqs), cids) else [])
      + Orphans(s, rooms, cid, mqs, cids, order[1..])
  }

  predicate Located(rooms: Rooms, mqs: seq<MessageQueue>, cids: seq<string>) {
    (forall q :: q in mqs ==> rooms.ofQueue(q) != "") && (forall c :: c in cids ==> rooms.ofClient(c) != "")
  }

  /** `order` lists the rooms of the queues, each once; an unknown room makes the strategy fail. */
  function Nearby(s: Strategy, rooms: Rooms, order: seq<string>, cid: string, mqs: seq<MessageQueue>,
                  cids: seq<string>): Option<seq<MessageQueue>> {
    if !Takes(cid, mqs, cids) then Some([])
    else if !Located(rooms, mqs, cids) then None
    else
      var room := rooms.ofClient(cid);
      var mine := QueuesIn(rooms, room, mqs);
      Some((if mine == [] then [] else s(cid, mine, ClientsIn(rooms, room, cids)))
           + Orphans(s, rooms, cid, mqs, cids, order))
  }

  predicate ListsRooms(order: seq<string>, rooms: Rooms, mqs: seq<MessageQueue>) {
    Distinct(order) && forall q :: q in mqs ==> rooms.ofQueue(q) in order
  }

  /** In a single room the layer adds nothing. */
  lemma SingleRoomIsTheInnerStrategy(s: Strategy, rooms: Rooms, room: string, cid: string, mqs: seq<MessageQueue>,
                                     cids: seq<string>)
    requires room != "" && Takes(cid, mqs, cids)
    requires (forall q :: q in mqs ==> rooms.ofQueue(q) == room)
    requires (forall c :: c in cids ==> rooms.ofClient(c) == room)
    ensures Nearby(s, rooms, [room], cid, mqs, cids) == Some(s(cid, mqs, cids))
  {
    AllIn(rooms, room, mqs, cids);
    assert [room][1..] == [] && Orphans(s, rooms, cid, mqs, cids, [room]) == [];
    assert s(cid, mqs, cids) + [] == s(cid, mqs, cids);
  }

  lemma {:induction false} AllIn(rooms: Rooms, room: string, mqs: seq<MessageQueue>, cids: seq<string>)
    requires (forall q :: q in mqs ==> rooms.ofQueue(q) == room)
    requires (forall c :: c in cids ==> rooms.ofClient(c) == room)
    ensures QueuesIn(rooms, room, mqs) == mqs && ClientsIn(rooms, room, cids) == cids
    decreases |mqs| + |cids|
  {
    if mqs != [] {
      AllIn(rooms, room, mqs[1..], cids);
    } else if cids != [] {
      AllIn(rooms, room, mqs, cids[1..]);
    }
  }

  lemma {:induction false} DistinctIn(rooms: Rooms, room: string, mqs: seq<MessageQueue>)
    requires Distinct(mqs)
    ensures Distinct(QueuesIn(rooms, room, mqs))
  {
    if mqs != [] {
      DistinctIn(rooms, room, mqs[1..]);
      assert mqs[0] !in mqs[1..];
    }
  }

  lemma {:induction false} DistinctClientsIn(rooms: Rooms, room: string, cids: seq<string>)
    requires Distinct(cids)
    ensures Distinct(ClientsIn(rooms, room, cids))
  {
    if cids != [] {
      DistinctClientsIn(rooms, room, cids[1..]);
      assert cids[0] !in cids[1..];
    }
  }

  /** What an instance gets from rooms without instances. */
  lemma {:induction false} OrphansGive(s: Strategy, rooms: Rooms, cid: string, mqs: seq<MessageQueue>,
                                       cids: seq<string>, order: seq<string>, q: MessageQueue)
    requires Fair(s) && Distinct(order)
    ensures var room := rooms.ofQueue(q);
      q in Orphans(s, rooms, cid, mqs, cids, order) <==>
        && room in order && room != rooms.ofClient(cid) && ClientsIn(rooms, room, cids) == []
        && q in s(cid, QueuesIn(rooms, room, mqs), cids)
    decreases |order|
  {
    if order != [] {
      OrphansGive(s, rooms, cid, mqs, cids, order[1..], q);
      assert order[0] !in order[1..];
      assert q in s(cid, QueuesIn(rooms, order[0], mqs), cids) ==> q in QueuesIn(rooms, order[0], mqs);
    }
  }

  predicate Gets(s: Strategy, rooms: Rooms, order: seq<string>, c: string, mqs: seq<MessageQueue>, cids: seq<string>,
                 q: MessageQueue) {
    Nearby(s, rooms, order, c, mqs, cids).Some? && q in Nearby(s, rooms, order, c, mqs, cids).value
  }

  ghost predicate OnlyOne(s: Strategy, rooms: Rooms, order: seq<string>, c: string, mqs: seq<MessageQueue>,
                          cids: seq<string>, q: MessageQueue) {
    forall d :: d in cids && Gets(s, rooms, order, d, mqs, cids, q) ==> d == c
  }

  lemma NearbyGives(s: Strategy, rooms: Rooms, order: seq<string>, c: string, mqs: seq<MessageQueue>,
                    cids: seq<string>, q: MessageQueue)
    requires Fair(s) && Instances(cids) && ListsRooms(order, rooms, mqs) && Located(rooms, mqs, cids)
    requires q in mqs && c in cids
    ensures var room := rooms.ofQueue(q);
      Gets(s, rooms, order, c, mqs, cids, q) <==>
        if ClientsIn(rooms, room, cids) != []
        then rooms.ofClient(c) == room && q in s(c, QueuesIn(rooms, room, mqs), ClientsIn(rooms, room, cids))
        else q in s(c, QueuesIn(rooms, room, mqs), cids)
  {
    var room, mine := rooms.ofQueue(q), rooms.ofClient(c);
    OrphansGive(s, rooms, c, mqs, cids, order, q);
    assert c in ClientsIn(rooms, mine, cids);
    hide Orphans;
    assert q in QueuesIn(rooms, room, mqs);
    assert q in s(c, QueuesIn(rooms, mine, mqs), ClientsIn(rooms, mine, cids)) ==> q in QueuesIn(rooms, mine, mqs);
  }

  /** A fair strategy stays fair under the room layer: every queue still has exactly one owner. */
  lemma NearbyHasOneOwner(s: Strategy, rooms: Rooms, order: seq<string>, mqs: seq<MessageQueue>, cids: seq<string>,
                          q: MessageQueue)
    requires Fair(s) && Distinct(mqs) && Instances(cids) && ListsRooms(order, rooms, mqs) && Located(rooms, mqs, cids)
    requires q in mqs
    ensures exists c :: c in cids && Gets(s, rooms, order, c, mqs, cids, q) && OnlyOne(s, rooms, order, c, mqs, cids, q)
  {
    var room := rooms.ofQueue(q);
    var there := ClientsIn(rooms, room, cids);
    var ms, cs := QueuesIn(rooms, room, mqs), if there != [] then there else cids;
    DistinctIn(rooms, room, mqs);
    DistinctClientsIn(rooms, room, cids);
    assert OneOwner(s, ms, cs, q);
    var c :| c in cs && q in s(c, ms, cs) && forall d :: d in cs && q in s(d, ms, cs) ==> d == c;
    NearbyGives(s, rooms, order, c, mqs, cids, q);
    forall d | d in cids && Gets(s, rooms, order, d, mqs, cids, q) ensures d == c {
      NearbyGives(s, rooms, order, d, mqs, cids, q);
    }
  }
}
