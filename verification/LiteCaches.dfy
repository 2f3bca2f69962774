/** The accumulators of all queues of the lite-pull consumer, as one value beside the shared buffer. */
module LiteCaches {
  import opened Messages
  import opened LiteQueueCache
  import opened LiteSpec

  type Caches = map<MessageQueue, Cached>

  function CachedAt(cs: Caches, q: MessageQueue): Cached {
    if q in cs then cs[q] else EMPTY_CACHE
  }

  function CountOf(m: map<MessageQueue, nat>, q: MessageQueue): nat {
    if q in m then m[q] else 0
  }

  // ---- what the operations do to the accumulators ----

  function AddRow(cs: Caches, m: Message): Caches {
    cs[m.queue := WithRow(CachedAt(cs, m.queue), m)]
  }

  function AddRows(cs: Caches, rows: seq<Message>): Caches
    decreases |rows|
  {
    if rows == [] then cs else AddRow(AddRows(cs, rows[..|rows| - 1]), rows[|rows| - 1])
  }

  /** How many rows there are per queue. */
  function Tally(rows: seq<Message>): map<MessageQueue, nat>
    decreases |rows|
  {
    if rows == [] then map[]
    else
      var t, q := Tally(rows[..|rows| - 1]), rows[|rows| - 1].queue;
      t[q := CountOf(t, q) + 1]
  }

  /** One pull round per touched queue. */
  function CloseRounds(cs: Caches, arrived: map<MessageQueue, nat>): Caches {
    map q | q in cs :: if q in arrived then WithRound(cs[q], arrived[q]) else cs[q]
  }

  /** A queue revoked earlier has no accumulator to subtract from. */
  function RemoveRow(cs: Caches, m: Message): Caches {
    if m.queue in cs then cs[m.queue := WithoutRow(cs[m.queue], m)] else cs
  }

  function RemoveRows(cs: Caches, rows: seq<Message>): Caches
    decreases |rows|
  {
    if rows == [] then cs else RemoveRow(RemoveRows(cs, rows[..|rows| - 1]), rows[|rows| - 1])
  }

  function RoundsOf(cs: Caches): map<MessageQueue, seq<nat>> {
    map q | q in cs :: cs[q].rounds
  }

  // ---- what they are to say ----

  /** Offsets, bytes, boundaries and rounds are those of the rows `mine`. */
  predicate Tells(c: Cached, mine: seq<Message>) {
    Accounted(c) && c.offsets == Offsets(mine) && c.size == BodyBytes(mine)
  }

  /** Every accumulator equals recomputation from the buffer, and no row is unaccounted for. */
  ghost predicate Faithful(cs: Caches, buffer: seq<Message>) {
    && (forall q | q in cs :: Tells(cs[q], RowsOf(q, buffer)))
    && (forall q | q !in cs :: RowsOf(q, buffer) == [])
  }

  /** The pending rounds of every queue are those of its cached rows. */
  predicate AllCountRounds(cs: Caches) {
    forall q | q in cs :: CountsRounds(cs[q])
  }

  // ---- the buffer grows ----

  function WithRows(c: Cached, rows: seq<Message>): Cached
    decreases |rows|
  {
    if rows == [] then c else WithRow(WithRows(c, rows[..|rows| - 1]), rows[|rows| - 1])
  }

  lemma {:induction false} RowsOfLast(q: MessageQueue, rows: seq<Message>)
    requires rows != []
    ensures var front, m := rows[..|rows| - 1], rows[|rows| - 1];
            RowsOf(q, rows) == RowsOf(q, front) + (if m.queue == q then [m] else [])
  {
    var front, m := rows[..|rows| - 1], rows[|rows| - 1];
    assert rows == front + [m];
    RowsOfConcat(q, front, [m]);
  }

  /** Per queue, adding rows adds that queue's rows. */
  lemma {:induction false} AddRowsPerQueue(cs: Caches, rows: seq<Message>, q: MessageQueue)
    ensures q in AddRows(cs, rows) <==> q in cs || RowsOf(q, rows) != []
    ensures CachedAt(AddRows(cs, rows), q) == WithRows(CachedAt(cs, q), RowsOf(q, rows))
    decreases |rows|
  {
    if rows != [] {
      var front, m := rows[..|rows| - 1], rows[|rows| - 1];
      AddRowsPerQueue(cs, front, q);
      RowsOfLast(q, rows);
      var mine := RowsOf(q, front);
      assert (mine + [m])[..|mine|] == mine && mine + [] == mine;
    }
  }

  lemma {:induction false} TallyPerQueue(rows: seq<Message>, q: MessageQueue)
    ensures q in Tally(rows) <==> RowsOf(q, rows) != []
    ensures CountOf(Tally(rows), q) == |RowsOf(q, rows)|
    decreases |rows|
  {
    if rows != [] {
      TallyPerQueue(rows[..|rows| - 1], q);
      RowsOfLast(q, rows);
    }
  }

  lemma OneRowMore(c: Cached, m: Message)
    requires Bounded(c)
    ensures var d := WithRow(c, m);
            && Bounded(d) && d.rounds == c.rounds && d.groups == c.groups
            && d.offsets == c.offsets + [m.offset] && d.size == c.size + m.bodySize && d.open == c.open + [m.offset]
  {
    RowKeepsBounds(c, m);
    hide Bounded;
  }

  lemma Joined(a: seq<nat>, front: seq<Message>, m: Message)
    ensures a + Offsets(front) + [m.offset] == a + Offsets(front + [m])
    ensures BodyBytes(front + [m]) == BodyBytes(front) + m.bodySize
  {
    OffsetsConcat(front, [m]);
    BodyBytesConcat(front, [m]);
    assert Offsets([m]) == [m.offset] && BodyBytes([m]) == m.bodySize;
  }

  lemma {:induction false} WithRowsAdds(c: Cached, rows: seq<Message>)
    requires Bounded(c)
    ensures var d := WithRows(c, rows);
            && Bounded(d) && d.rounds == c.rounds && d.groups == c.groups
            && d.offsets == c.offsets + Offsets(rows) && d.size == c.size + BodyBytes(rows)
            && d.open == c.open + Offsets(rows)
    decreases |rows|
  {
    if rows == [] {
      assert c.offsets + [] == c.offsets && c.open + [] == c.open;
    } else {
      var front, m := rows[..|rows| - 1], rows[|rows| - 1];
      WithRowsAdds(c, front);
      hide Bounded, WithRow, BodyBytes;
      OneRowMore(WithRows(c, front), m);
      assert rows == front + [m];
      Joined(c.offsets, front, m);
      Joined(c.open, front, m);
    }
  }

  /** A round of rows of one queue, added and recorded. */
  lemma RoundTells(c: Cached, mine: seq<Message>, rows: seq<Message>)
    requires Tells(c, mine)
    ensures var d := WithRound(WithRows(c, rows), |rows|);
            && Tells(d, mine + rows) && d.rounds == c.rounds + (if rows == [] then [] else [|rows|])
            && (CountsRounds(c) ==> CountsRounds(d))
  {
    var d := WithRows(c, rows);
    assert Bounded(c) && Flatten(c.groups) + [] == Flatten(c.groups) && Sum(c.rounds) == |Flatten(c.groups)|;
    assert AllPositive(c.rounds) && c.open + Offsets(rows) == Offsets(rows);
    WithRowsAdds(c, rows);
    hide Bounded, Sum, AllPositive, Flatten, Lengths, WithRows, BodyBytes;
    RoundKeepsAccounts(d);
    OffsetsConcat(mine, rows);
    BodyBytesConcat(mine, rows);
    hide Accounted;
  }

  lemma NothingRecorded(c: Cached, mine: seq<Message>)
    requires Tells(c, mine)
    ensures WithRound(WithRows(c, []), 0) == c
  {
    assert c.rounds + [] == c.rounds && c.groups + [] == c.groups;
  }

  lemma EmptyTells()
    ensures Tells(EMPTY_CACHE, []) && CountsRounds(EMPTY_CACHE)
  {
  }

  function Appended(cs: Caches, rows: seq<Message>): Caches {
    CloseRounds(AddRows(cs, rows), Tally(rows))
  }

  lemma AppendPerQueue(cs: Caches, buffer: seq<Message>, rows: seq<Message>, q: MessageQueue)
    requires Faithful(cs, buffer)
    ensures q in Appended(cs, rows) <==> q in cs || RowsOf(q, rows) != []
    ensures var c := CachedAt(Appended(cs, rows), q);
            && Tells(c, RowsOf(q, buffer) + RowsOf(q, rows))
            && c.rounds == CachedAt(cs, q).rounds + (if RowsOf(q, rows) == [] then [] else [|RowsOf(q, rows)|])
            && (CountsRounds(CachedAt(cs, q)) ==> CountsRounds(c))
  {
    AddRowsPerQueue(cs, rows, q);
    TallyPerQueue(rows, q);
    EmptyTells();
    assert Tells(CachedAt(cs, q), RowsOf(q, buffer));
    RoundTells(CachedAt(cs, q), RowsOf(q, buffer), RowsOf(q, rows));
    if RowsOf(q, rows) == [] { NothingRecorded(CachedAt(cs, q), RowsOf(q, buffer)); }
    hide Tells, CountsRounds, AddRows, Tally, WithRows, WithRound, RowsOf;
  }

  lemma AppendRounds(cs: Caches, buffer: seq<Message>, rows: seq<Message>)
    requires Faithful(cs, buffer)
    ensures RoundsOf(Appended(cs, rows)) == Enrolled(RoundsOf(cs), rows)
  {
    var a, b := RoundsOf(Appended(cs, rows)), Enrolled(RoundsOf(cs), rows);
    hide Appended, RowsOf;
    forall q ensures (q in a <==> q in b) && (q in a ==> a[q] == b[q]) {
      AppendPerQueue(cs, buffer, rows, q);
      BringsIff(rows, q);
      hide Tells, CountsRounds, Faithful;
    }
  }

  lemma AppendTells(cs: Caches, buffer: seq<Message>, rows: seq<Message>)
    requires Faithful(cs, buffer)
    ensures Faithful(Appended(cs, rows), buffer + rows)
  {
    var ds := Appended(cs, rows);
    hide Appended, RowsOf, Tells;
    forall q
      ensures q in ds ==> Tells(ds[q], RowsOf(q, buffer + rows))
      ensures q !in ds ==> RowsOf(q, buffer + rows) == []
    {
      AppendPerQueue(cs, buffer, rows, q);
      RowsOfConcat(q, buffer, rows);
      hide CountsRounds;
    }
  }

  /** Enqueueing a pull round keeps every accumulator equal to recomputation, adds one round per touched queue, and
      keeps the pending rounds those of the cached rows. */
  lemma AppendKeeps(cs: Caches, buffer: seq<Message>, rows: seq<Message>)
    requires Faithful(cs, buffer)
    ensures Faithful(Appended(cs, rows), buffer + rows)
    ensures RoundsOf(Appended(cs, rows)) == Enrolled(RoundsOf(cs), rows)
    ensures AllCountRounds(cs) ==> AllCountRounds(Appended(cs, rows))
  {
    AppendTells(cs, buffer, rows);
    AppendRounds(cs, buffer, rows);
    if AllCountRounds(cs) {
      EmptyTells();
      forall q | q in Appended(cs, rows) ensures CountsRounds(Appended(cs, rows)[q]) {
        AppendPerQueue(cs, buffer, rows, q);
        hide Tells, CountsRounds, Appended, RowsOf, Faithful;
      }
    }
    hide Faithful, Appended, RoundsOf, Enrolled;
  }

  // ---- the buffer shrinks ----

  lemma HeadIsOfTheOldestRound(c: Cached, x: nat)
    requires Accounted(c) && c.offsets != [] && c.offsets[0] == x
    ensures ChargedToItsRound(c.groups, x)
  {
    assert Flatten(c.groups) + [] == Flatten(c.groups);
    NothingGrouped(c.groups);
    assert c.groups[0][0] == x && x in c.groups[0];
  }

  /** A row of the queue leaves, its first occurrence. */
  lemma RemovalTells(c: Cached, mine: seq<Message>, m: Message, left: seq<Message>)
    requires Tells(c, mine) && m.offset in c.offsets
    requires Offsets(left) == RemoveFirst(Offsets(mine), m.offset) && BodyBytes(left) == BodyBytes(mine) - m.bodySize
    ensures var d := WithoutRow(c, m);
            && Tells(d, left) && d.rounds == (if left == [] then [] else ChargeOldest(c.rounds))
            && (CountsRounds(c) && mine[0].offset == m.offset ==> CountsRounds(d))
  {
    RemovalKeepsAccounts(c, m);
    if mine[0].offset == m.offset { HeadIsOfTheOldestRound(c, m.offset); }
    hide RemoveFirst, Accounted, CountsRounds, ChargedToItsRound, ChargeOldest, MinOf, MaxOf;
    assert |Offsets(left)| == |left|;
  }

  lemma NoRowsNoRounds(c: Cached)
    requires Tells(c, [])
    ensures c.rounds == []
  {
    NoSumNoRounds(c.rounds);
  }

  lemma HeadRow(m: Message, tail: seq<Message>)
    ensures Offsets([m] + tail) == [m.offset] + Offsets(tail) && m.offset in Offsets([m] + tail)
    ensures RemoveFirst(Offsets([m] + tail), m.offset) == Offsets(tail)
    ensures BodyBytes([m] + tail) == m.bodySize + BodyBytes(tail)
  {
    assert ([m] + tail)[1..] == tail;
    var s := Offsets([m] + tail);
    assert s == [m.offset] + Offsets(tail);
    RemoveHeadOrNone(s, m.offset);
  }

  lemma TakeTells(cs: Caches, m: Message, rest: seq<Message>)
    requires Faithful(cs, [m] + rest)
    ensures Faithful(RemoveRow(cs, m), rest)
    ensures AllCountRounds(cs) ==> AllCountRounds(RemoveRow(cs, m))
  {
    var ds := RemoveRow(cs, m);
    hide WithoutRow, Tells, CountsRounds, ChargeAll;
    assert ([m] + rest)[1..] == rest;
    forall q
      ensures q in ds ==> Tells(ds[q], RowsOf(q, rest)) && (AllCountRounds(cs) ==> CountsRounds(ds[q]))
      ensures q !in ds ==> RowsOf(q, rest) == []
    {
      if q in cs { TakePerQueue(cs[q], q, m, rest); }
    }
  }

  lemma TakeRounds(cs: Caches, m: Message, rest: seq<Message>)
    requires Faithful(cs, [m] + rest)
    ensures RoundsOf(RemoveRow(cs, m)) == Charged(RoundsOf(cs), [m], rest)
  {
    var a, b := RoundsOf(RemoveRow(cs, m)), Charged(RoundsOf(cs), [m], rest);
    hide WithoutRow, Tells, CountsRounds, ChargeAll, RowsOf;
    assert a.Keys == b.Keys;
    forall q | q in cs ensures a[q] == b[q] {
      TakePerQueue(cs[q], q, m, rest);
    }
  }

  /** The oldest row of the buffer leaves: it is the oldest of its queue and belongs to its queue's oldest round. */
  lemma TakeKeeps(cs: Caches, m: Message, rest: seq<Message>)
    requires Faithful(cs, [m] + rest)
    ensures Faithful(RemoveRow(cs, m), rest)
    ensures RoundsOf(RemoveRow(cs, m)) == Charged(RoundsOf(cs), [m], rest)
    ensures AllCountRounds(cs) ==> AllCountRounds(RemoveRow(cs, m))
  {
    hide Faithful, AllCountRounds, RemoveRow, RoundsOf, Charged;
    TakeTells(cs, m, rest);
    TakeRounds(cs, m, rest);
  }

  lemma TakePerQueue(c: Cached, q: MessageQueue, m: Message, rest: seq<Message>)
    requires Tells(c, RowsOf(q, [m] + rest))
    ensures var d := if m.queue == q then WithoutRow(c, m) else c;
            && Tells(d, RowsOf(q, rest))
            && d.rounds == ChargeAll(c.rounds, |RowsOf(q, [m])|, RowsOf(q, rest) == [])
            && (CountsRounds(c) ==> CountsRounds(d))
  {
    assert ([m] + rest)[1..] == rest;
    if m.queue == q {
      assert RowsOf(q, [m]) == [m];
      var tail := RowsOf(q, rest);
      HeadRow(m, tail);
      RemovalTells(c, [m] + tail, m, tail);
      assert ChargeTimes(c.rounds, 1) == ChargeOldest(c.rounds);
    } else {
      assert RowsOf(q, [m]) == [];
    }
  }

  lemma ChargeAllMore(rounds: seq<nat>, a: nat, b: nat, between: bool, empty: bool)
    requires (between ==> b == 0) && (b == 0 ==> between == empty)
    ensures ChargeAll(ChargeAll(rounds, a, between), b, empty) == ChargeAll(rounds, a + b, empty)
  {
    ChargeTimesMore(rounds, a, b);
  }

  /** Charging for more rows is charging again. */
  lemma ChargedMore(rounds: map<MessageQueue, seq<nat>>, gone: seq<Message>, m: Message, rest: seq<Message>)
    ensures Charged(Charged(rounds, gone, [m] + rest), [m], rest) == Charged(rounds, gone + [m], rest)
  {
    hide ChargeAll, RowsOf;
    forall q | q in rounds
      ensures Charged(Charged(rounds, gone, [m] + rest), [m], rest)[q] == Charged(rounds, gone + [m], rest)[q]
    {
      RowsOfConcat(q, [m], rest);
      RowsOfConcat(q, gone, [m]);
      ChargeAllMore(rounds[q], |RowsOf(q, gone)|, |RowsOf(q, [m])|, RowsOf(q, [m] + rest) == [], RowsOf(q, rest) == []);
    }
  }

  lemma ChargedNothing(cs: Caches, buffer: seq<Message>)
    ensures Charged(RoundsOf(cs), [], buffer) == RoundsOf(cs)
  {
  }

  /** With an empty buffer no round is pending. */
  lemma EmptyBufferHasNoRounds(cs: Caches)
    requires Faithful(cs, [])
    ensures TotalRounds(RoundsOf(cs)) == 0
  {
    forall q | q in cs ensures RoundsOf(cs)[q] == [] { NoRowsNoRounds(cs[q]); }
    NoRoundsAtAll(RoundsOf(cs));
  }

  // ---- a seek prunes ----

  /** The rows left once the first outdated one is gone. */
  ghost function DropFirstOutdated(q: MessageQueue, target: nat, rows: seq<Message>): seq<Message> {
    if rows == [] then []
    else if Outdated(q, target, rows[0]) then rows[1..]
    else [rows[0]] + DropFirstOutdated(q, target, rows[1..])
  }

  lemma {:induction false} DropFirstOutdatedRows(q: MessageQueue, target: nat, rows: seq<Message>)
    requires Pruned(q, target, rows) != []
    requires forall m | m in rows :: m.queue == q
    ensures var p := Pruned(q, target, rows);
            var r := DropFirstOutdated(q, target, rows);
            && p[0] in rows
            && Pruned(q, target, r) == p[1..] && Kept(q, target, r) == Kept(q, target, rows)
            && BodyBytes(r) == BodyBytes(rows) - p[0].bodySize
            && forall m | m in r :: m.queue == q
  {
    assert rows == [rows[0]] + rows[1..];
    assert rows[0] in rows;
    if !Outdated(q, target, rows[0]) {
      var t := DropFirstOutdated(q, target, rows[1..]);
      DropFirstOutdatedRows(q, target, rows[1..]);
      assert ([rows[0]] + t)[1..] == t;
    }
  }

  lemma {:induction false} DropFirstOutdatedOffsets(q: MessageQueue, target: nat, rows: seq<Message>)
    requires Pruned(q, target, rows) != []
    requires forall m | m in rows :: m.queue == q
    ensures var p := Pruned(q, target, rows)[0].offset;
            Offsets(DropFirstOutdated(q, target, rows)) == RemoveFirst(Offsets(rows), p) && p in Offsets(rows)
  {
    hide BodyBytes, Kept;
    assert Offsets(rows)[1..] == Offsets(rows[1..]) && Offsets(rows)[0] == rows[0].offset;
    assert rows[0] in rows;
    if !Outdated(q, target, rows[0]) {
      var p, t := Pruned(q, target, rows), DropFirstOutdated(q, target, rows[1..]);
      DropFirstOutdatedOffsets(q, target, rows[1..]);
      PrunedAreOutdated(q, target, rows[1..]);
      assert p[0] in Pruned(q, target, rows[1..]);
      assert Offsets([rows[0]] + t) == [rows[0].offset] + Offsets(t);
      assert rows[0].offset != p[0].offset && p[0].offset in Offsets(rows)[1..];
    }
  }

  /** Taking the first outdated row out is what the accumulator does with its offset: the first cached
      occurrence of that offset is that very row. */
  lemma DropFirstOutdatedFacts(q: MessageQueue, target: nat, rows: seq<Message>)
    requires Pruned(q, target, rows) != []
    requires forall m | m in rows :: m.queue == q
    ensures var p := Pruned(q, target, rows);
            var r := DropFirstOutdated(q, target, rows);
            && p[0] in rows
            && Pruned(q, target, r) == p[1..] && Kept(q, target, r) == Kept(q, target, rows)
            && Offsets(r) == RemoveFirst(Offsets(rows), p[0].offset)
            && BodyBytes(r) == BodyBytes(rows) - p[0].bodySize
            && p[0].offset in Offsets(rows)
            && forall m | m in r :: m.queue == q
  {
    hide Pruned, Kept, DropFirstOutdated, BodyBytes, RemoveFirst;
    DropFirstOutdatedRows(q, target, rows);
    DropFirstOutdatedOffsets(q, target, rows);
  }

  lemma {:induction false} PrunedAreOutdated(q: MessageQueue, target: nat, rows: seq<Message>)
    ensures forall m | m in Pruned(q, target, rows) :: Outdated(q, target, m)
  {
    if rows != [] { PrunedAreOutdated(q, target, rows[1..]); }
  }

  lemma {:induction false} NothingPruned(q: MessageQueue, target: nat, rows: seq<Message>)
    requires Pruned(q, target, rows) == []
    ensures Kept(q, target, rows) == rows
  {
    if rows != [] {
      NothingPruned(q, target, rows[1..]);
      assert rows == [rows[0]] + rows[1..];
    }
  }

  /** The rows left once the first `k` outdated ones are gone. */
  ghost function DropOutdated(q: MessageQueue, target: nat, rows: seq<Message>, k: nat): seq<Message> {
    if k == 0 then rows else DropFirstOutdated(q, target, DropOutdated(q, target, rows, k - 1))
  }

  lemma {:induction false} DropOutdatedFacts(q: MessageQueue, target: nat, rows: seq<Message>, k: nat)
    requires k <= |Pruned(q, target, rows)| && forall m | m in rows :: m.queue == q
    ensures var r := DropOutdated(q, target, rows, k);
            && Pruned(q, target, r) == Pruned(q, target, rows)[k..] && Kept(q, target, r) == Kept(q, target, rows)
            && (forall m | m in r :: m.queue == q)
            && (Sorted(Offsets(rows)) ==> Sorted(Offsets(r)))
  {
    if k > 0 {
      var before := DropOutdated(q, target, rows, k - 1);
      DropOutdatedFacts(q, target, rows, k - 1);
      DropFirstOutdatedFacts(q, target, before);
      if Sorted(Offsets(before)) { SortedHeadIsOutdated(q, target, before); }
    }
  }

  /** Of rows in order the first outdated one is the first one. */
  lemma {:induction false} SortedHeadIsOutdated(q: MessageQueue, target: nat, rows: seq<Message>)
    requires Pruned(q, target, rows) != [] && Sorted(Offsets(rows)) && forall m | m in rows :: m.queue == q
    ensures Outdated(q, target, rows[0]) && Pruned(q, target, rows)[0] == rows[0]
    ensures DropFirstOutdated(q, target, rows) == rows[1..] && Sorted(Offsets(rows[1..]))
  {
    PrunedAreOutdated(q, target, rows);
    DropFirstOutdatedFacts(q, target, rows);
    var p := Pruned(q, target, rows)[0];
    assert p in rows && Outdated(q, target, p);
    var i :| 0 <= i < |rows| && rows[i] == p;
    assert Offsets(rows)[0] <= Offsets(rows)[i];
    assert rows[0] in rows && Outdated(q, target, rows[0]);
    assert Offsets(rows[1..]) == Offsets(rows)[1..];
  }

  function WithoutAll(c: Cached, rows: seq<Message>): Cached
    decreases |rows|
  {
    if rows == [] then c else WithoutRow(WithoutAll(c, rows[..|rows| - 1]), rows[|rows| - 1])
  }

  lemma {:induction false} RemoveRowsPerQueue(cs: Caches, rows: seq<Message>, q: MessageQueue, p: MessageQueue)
    requires forall m | m in rows :: m.queue == q
    ensures p in RemoveRows(cs, rows) <==> p in cs
    ensures p in cs ==> RemoveRows(cs, rows)[p] == if p == q then WithoutAll(cs[p], rows) else cs[p]
    decreases |rows|
  {
    if rows != [] {
      RemoveRowsPerQueue(cs, rows[..|rows| - 1], q, p);
      assert rows[|rows| - 1] in rows;
    }
  }

  /** After `k` of the outdated rows were taken out of the queue's accumulator. */
  lemma {:induction false} PruneTells(c: Cached, q: MessageQueue, target: nat, mine: seq<Message>, k: nat)
    requires Tells(c, mine) && k <= |Pruned(q, target, mine)| && forall m | m in mine :: m.queue == q
    ensures var d, left := WithoutAll(c, Pruned(q, target, mine)[..k]), DropOutdated(q, target, mine, k);
            && Tells(d, left) && d.rounds == (if left == [] then [] else ChargeTimes(c.rounds, k))
            && (CountsRounds(c) && Sorted(Offsets(mine)) ==> CountsRounds(d))
  {
    hide Tells, CountsRounds, Sorted, WithoutRow, ChargeTimes, Pruned, Kept, DropFirstOutdated;
    var gone := Pruned(q, target, mine);
    if k == 0 {
      NothingTakenOut(c, mine);
    } else {
      var d, before := WithoutAll(c, gone[..k - 1]), DropOutdated(q, target, mine, k - 1);
      PruneTells(c, q, target, mine, k - 1);
      DropOutdatedFacts(q, target, mine, k - 1);
      assert gone[..k][..k - 1] == gone[..k - 1] && gone[k - 1..][0] == gone[k - 1];
      assert before != [] by { DropFirstOutdatedFacts(q, target, before); }
      OneMorePruned(d, q, target, before);
      ChargeOnce(c.rounds, k);
    }
  }

  lemma NothingTakenOut(c: Cached, mine: seq<Message>)
    requires Tells(c, mine)
    ensures c.rounds == if mine == [] then [] else ChargeTimes(c.rounds, 0)
  {
    if mine == [] { NoRowsNoRounds(c); }
  }

  lemma ChargeOnce(rounds: seq<nat>, k: nat)
    requires k > 0
    ensures ChargeOldest(ChargeTimes(rounds, k - 1)) == ChargeTimes(rounds, k)
  {
    ChargeTimesMore(rounds, k - 1, 1);
    assert ChargeTimes(ChargeTimes(rounds, k - 1), 1) == ChargeOldest(ChargeTimes(rounds, k - 1));
  }

  lemma OneMorePruned(d: Cached, q: MessageQueue, target: nat, before: seq<Message>)
    requires Tells(d, before) && Pruned(q, target, before) != [] && forall m | m in before :: m.queue == q
    ensures var e, left := WithoutRow(d, Pruned(q, target, before)[0]), DropFirstOutdated(q, target, before);
            && Tells(e, left) && e.rounds == (if left == [] then [] else ChargeOldest(d.rounds))
            && (CountsRounds(d) && Sorted(Offsets(before)) ==> CountsRounds(e))
  {
    hide Sorted, WithoutRow, CountsRounds, Accounted;
    DropFirstOutdatedFacts(q, target, before);
    if Sorted(Offsets(before)) { SortedHeadIsOutdated(q, target, before); }
    RemovalTells(d, before, Pruned(q, target, before)[0], DropFirstOutdated(q, target, before));
  }

  lemma PrunePerQueue(cs: Caches, buffer: seq<Message>, q: MessageQueue, target: nat, p: MessageQueue)
    requires Faithful(cs, buffer) && p in cs
    ensures var gone, left := Pruned(q, target, buffer), Kept(q, target, buffer);
            && p in RemoveRows(cs, gone)
            && var d := RemoveRows(cs, gone)[p];
            && Tells(d, RowsOf(p, left))
            && d.rounds == ChargeAll(cs[p].rounds, |RowsOf(p, gone)|, RowsOf(p, left) == [])
            && (CountsRounds(cs[p]) && (p == q ==> Sorted(Offsets(RowsOf(q, buffer)))) ==> CountsRounds(d))
  {
    var gone, mine := Pruned(q, target, buffer), RowsOf(q, buffer);
    PrunedAreOutdated(q, target, buffer);
    RemoveRowsPerQueue(cs, gone, q, p);
    KeptRows(q, target, buffer, p);
    KeptSplits(q, target, buffer, p);
    RowsOfOwn(q, p, gone);
    hide Pruned, Kept, RemoveRows, Tells, CountsRounds, Sorted, ChargeTimes;
    if p == q {
      PruneOwn(cs[q], q, target, buffer, gone);
    } else {
      assert RowsOf(p, gone) == [];
    }
  }

  lemma PruneOwn(c: Cached, q: MessageQueue, target: nat, buffer: seq<Message>, gone: seq<Message>)
    requires Tells(c, RowsOf(q, buffer)) && gone == Pruned(q, target, buffer) == RowsOf(q, gone)
    ensures var d, left := WithoutAll(c, gone), RowsOf(q, Kept(q, target, buffer));
            && Tells(d, left) && d.rounds == ChargeAll(c.rounds, |gone|, left == [])
            && (CountsRounds(c) && Sorted(Offsets(RowsOf(q, buffer))) ==> CountsRounds(d))
  {
    var mine := RowsOf(q, buffer);
    KeptSplits(q, target, buffer, q);
    RowsOfBelong(q, buffer);
    hide Tells, CountsRounds, Sorted, ChargeTimes, RowsOf, Pruned, Kept;
    assert Pruned(q, target, mine) == gone;
    var k := |gone|;
    assert gone[..k] == gone && gone[k..] == [];
    PruneTells(c, q, target, mine, k);
    DropOutdatedFacts(q, target, mine, k);
    NothingPruned(q, target, DropOutdated(q, target, mine, k));
    assert k == 0 ==> WithoutAll(c, gone) == c;
  }

  /** A seek that prunes keeps every accumulator equal to recomputation. It keeps the pending rounds those of the cached
      rows if the queue's rows are in order. */
  lemma SeekPruneKeeps(cs: Caches, buffer: seq<Message>, q: MessageQueue, target: nat)
    requires Faithful(cs, buffer)
    ensures var gone, left := Pruned(q, target, buffer), Kept(q, target, buffer);
            && Faithful(RemoveRows(cs, gone), left)
            && RoundsOf(RemoveRows(cs, gone)) == Charged(RoundsOf(cs), gone, left)
            && (AllCountRounds(cs) && Sorted(Offsets(RowsOf(q, buffer))) ==> AllCountRounds(RemoveRows(cs, gone)))
  {
    var gone, left := Pruned(q, target, buffer), Kept(q, target, buffer);
    var ds := RemoveRows(cs, gone);
    PrunedAreOutdated(q, target, buffer);
    hide Pruned, Kept, RemoveRows, Tells, CountsRounds, Sorted, ChargeAll, RowsOf;
    forall p ensures p in ds <==> p in cs { RemoveRowsPerQueue(cs, gone, q, p); }
    forall p | p in cs
      ensures Tells(ds[p], RowsOf(p, left)) && ds[p].rounds == Charged(RoundsOf(cs), gone, left)[p]
      ensures AllCountRounds(cs) && Sorted(Offsets(RowsOf(q, buffer))) ==> CountsRounds(ds[p])
    {
      PrunePerQueue(cs, buffer, q, target, p);
    }
    forall p | p !in cs ensures RowsOf(p, left) == [] {
      KeptRows(q, target, buffer, p);
      KeptSplits(q, target, buffer, p);
      KeptOfNothing(q, target);
    }
    assert RoundsOf(ds).Keys == Charged(RoundsOf(cs), gone, left).Keys;
  }

  lemma KeptOfNothing(q: MessageQueue, target: nat)
    ensures Kept(q, target, []) == []
  {
  }
}
