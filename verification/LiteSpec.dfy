/** What each operation of the lite-pull consumer does to its tables and to the shared buffer, as functions. */
module LiteSpec {
  import opened Messages
  import opened LiteQueueCache

  /** One poll hands out at most this many messages. */
  const POLL_CAP: nat := 1024

  /** The consumer's tables: pull cursors, consumed cursors, the in-memory commit table, seek pins, paused
      queues, the one buffer shared by every assigned queue, and per queue how many messages each pending pull round
      still has in it. */
  datatype Lite = Lite(
    owned: set<MessageQueue>,
    next: map<MessageQueue, nat>,
    consumed: map<MessageQueue, nat>,
    table: map<MessageQueue, int>,
    pins: map<MessageQueue, nat>,
    paused: set<MessageQueue>,
    buffer: seq<Message>,
    rounds: map<MessageQueue, seq<nat>>)

  // ---- the buffer ----

  /** The rows of every queue outside `qs`. */
  function Without(qs: set<MessageQueue>, rows: seq<Message>): seq<Message> {
    if rows == [] then []
    else if rows[0].queue in qs then Without(qs, rows[1..])
    else [rows[0]] + Without(qs, rows[1..])
  }

  predicate Outdated(q: MessageQueue, target: nat, m: Message) {
    m.queue == q && m.offset < target
  }

  /** The rows a seek of `q` to `target` keeps. */
  function Kept(q: MessageQueue, target: nat, rows: seq<Message>): seq<Message> {
    if rows == [] then []
    else if Outdated(q, target, rows[0]) then Kept(q, target, rows[1..])
    else [rows[0]] + Kept(q, target, rows[1..])
  }

  /** The rows a seek of `q` to `target` drops. */
  function Pruned(q: MessageQueue, target: nat, rows: seq<Message>): seq<Message> {
    if rows == [] then []
    else if Outdated(q, target, rows[0]) then [rows[0]] + Pruned(q, target, rows[1..])
    else Pruned(q, target, rows[1..])
  }

  /** The consumed cursors moved by handing out `out`: per held queue, one past its highest offset. */
  function Advanced(held: set<MessageQueue>, out: seq<Message>): map<MessageQueue, nat> {
    if out == [] then map[]
    else
      var m := out[|out| - 1];
      var before := Advanced(held, out[..|out| - 1]);
      if m.queue in held && (m.queue in before ==> m.offset + 1 > before[m.queue])
      then before[m.queue := m.offset + 1]
      else before
  }

  // ---- the pending rounds ----

  function RoundsAt(rounds: map<MessageQueue, seq<nat>>, q: MessageQueue): seq<nat> {
    if q in rounds then rounds[q] else []
  }

  /** The rows `removed` have left the buffer and `left` remain: each row was charged to its queue's oldest round. */
  function Charged(rounds: map<MessageQueue, seq<nat>>, removed: seq<Message>, left: seq<Message>)
    : map<MessageQueue, seq<nat>>
  {
    map q | q in rounds :: ChargeAll(rounds[q], |RowsOf(q, removed)|, RowsOf(q, left) == [])
  }

  function QueuesOf(rows: seq<Message>): set<MessageQueue> {
    set m | m in rows :: m.queue
  }

  lemma {:induction false} BringsIff(rows: seq<Message>, q: MessageQueue)
    ensures q in QueuesOf(rows) <==> RowsOf(q, rows) != []
  {
    if rows != [] {
      assert rows == [rows[0]] + rows[1..];
      BringsIff(rows[1..], q);
    }
  }

  /** One round more for every queue that `rows` brings something for. */
  function Enrolled(rounds: map<MessageQueue, seq<nat>>, rows: seq<Message>): map<MessageQueue, seq<nat>> {
    map q | q in rounds.Keys + QueuesOf(rows) ::
      RoundsAt(rounds, q) + (if RowsOf(q, rows) == [] then [] else [|RowsOf(q, rows)|])
  }

  /** The rounds of all queues together. */
  ghost function TotalRounds(rounds: map<MessageQueue, seq<nat>>): nat {
    if rounds == map[] then 0
    else
      var q :| q in rounds;
      |rounds[q]| + TotalRounds(rounds - {q})
  }

  lemma {:induction false} TotalRemove(m: map<MessageQueue, seq<nat>>, q: MessageQueue)
    requires q in m
    ensures TotalRounds(m) == |m[q]| + TotalRounds(m - {q})
    decreases |m|
  {
    var p :| p in m && TotalRounds(m) == |m[p]| + TotalRounds(m - {p});
    if p != q {
      TotalRemove(m - {p}, q);
      TotalRemove(m - {q}, p);
      assert m - {p} - {q} == m - {q} - {p};
    }
  }

  lemma {:induction false} NoRoundsAtAll(rounds: map<MessageQueue, seq<nat>>)
    requires forall q | q in rounds :: rounds[q] == []
    ensures TotalRounds(rounds) == 0
    decreases |rounds|
  {
    if rounds != map[] {
      var q :| q in rounds;
      TotalRemove(rounds, q);
      NoRoundsAtAll(rounds - {q});
    }
  }

  // ---- operations ----

  function HandedOut(s: Lite): seq<Message> {
    if |s.buffer| <= POLL_CAP then s.buffer else s.buffer[..POLL_CAP]
  }

  /** The half of a poll under the buffer's lock: the rows leave the buffer. */
  function TakeOut(s: Lite): Lite {
    var out := HandedOut(s);
    s.(buffer := s.buffer[|out|..], rounds := Charged(s.rounds, out, s.buffer[|out|..]))
  }

  /** A whole poll: the rows leave the buffer, then the consumed cursors of the queues still known follow. */
  function HandOver(s: Lite): Lite {
    TakeOut(s).(consumed := s.consumed + Advanced(s.next.Keys, HandedOut(s)))
  }

  /** The half of a seek under the buffer's lock. */
  function PruneBelow(s: Lite, q: MessageQueue, target: nat): Lite {
    s.(buffer := Kept(q, target, s.buffer),
       rounds := Charged(s.rounds, Pruned(q, target, s.buffer), Kept(q, target, s.buffer)))
  }

  /** A whole seek: pin, pull cursor and consumed cursor are written, then the outdated rows leave. */
  function SeekTo(s: Lite, q: MessageQueue, target: nat): Lite {
    PruneBelow(s.(next := s.next[q := target], consumed := s.consumed[q := target], pins := s.pins[q := target]), q, target)
  }

  /** Everything per-queue goes with a revoked queue, except its slot in the commit table. */
  function Revoke(s: Lite, qs: set<MessageQueue>): Lite {
    s.(next := s.next - qs, consumed := s.consumed - qs, pins := s.pins - qs, paused := s.paused - qs,
       buffer := Without(qs, s.buffer), rounds := s.rounds - qs)
  }

  /** Start offsets only fill gaps: a queue that already has a pull cursor keeps it. */
  function Resolve(next: map<MessageQueue, nat>, queues: set<MessageQueue>, starts: map<MessageQueue, nat>)
    : map<MessageQueue, nat>
  {
    (map q | q in starts && q in queues :: starts[q]) + next
  }

  function AssignTo(s: Lite, queues: set<MessageQueue>, starts: map<MessageQueue, nat>): Lite {
    var r := Revoke(s, s.owned - queues);
    r.(owned := queues, next := Resolve(r.next, queues, starts))
  }

  /** White space, as the blanks at the ends of a topic name. */
  predicate Blank(topic: string) {
    forall c | c in topic :: c in {' ', '\t', '\n', '\r', '\U{0B}', '\U{0C}'}
  }

  /** The held queues of a topic; nobody's topic is blank. */
  function QueuesAbout(s: Lite, topic: string): set<MessageQueue> {
    if Blank(topic) then {} else set q | q in s.owned && q.topic == topic
  }

  /** The end of a subscription: the topic's queues leave at once with everything but their slots. */
  function UnsubscribeFrom(s: Lite, topic: string): Lite {
    Revoke(s, QueuesAbout(s, topic)).(owned := s.owned - QueuesAbout(s, topic))
  }

  /** The answer to a pull: rows that passed the filter and the broker's next offset. */
  datatype PullResult = PullResult(found: bool, rows: seq<Message>, next: nat)

  /** An answer counts only while the cursor still is what the request was sent with. */
  predicate Intact(s: Lite, q: MessageQueue, asked: nat) {
    q in s.next && s.next[q] == asked
  }

  function Follow(s: Lite, q: MessageQueue, asked: nat, r: PullResult): Lite {
    if Intact(s, q, asked) then s.(next := s.next[q := r.next]) else s
  }

  function Append(s: Lite, rows: seq<Message>): Lite {
    s.(buffer := s.buffer + rows, rounds := Enrolled(s.rounds, rows))
  }

  // ---- commits ----

  datatype Scope = Everything | At(offsets: map<MessageQueue, int>) | Cursors(queues: seq<MessageQueue>)

  function CursorOf(s: Lite, q: MessageQueue): int {
    if q in s.consumed then s.consumed[q] else -1
  }

  function Named(s: Lite, scope: Scope): set<MessageQueue> {
    match scope
    case Everything => s.owned
    case At(offsets) => offsets.Keys
    case Cursors(queues) => set q | q in queues
  }

  function Target(s: Lite, scope: Scope, q: MessageQueue): int {
    match scope
    case At(offsets) => if q in offsets then offsets[q] else -1
    case _ => CursorOf(s, q)
  }

  /** A value is written only for a queue that is held and has one. */
  predicate Writes(s: Lite, scope: Scope, q: MessageQueue) {
    q in Named(s, scope) && q in s.owned && Target(s, scope, q) != -1
  }

  function Written(s: Lite, scope: Scope): map<MessageQueue, int> {
    s.table + map q | q in Named(s, scope) && Writes(s, scope, q) :: Target(s, scope, q)
  }

  /** The in-memory table after a commit: persisting sweeps every queue the commit did not name, and a commit
      that names nobody does nothing. */
  function TableAfter(s: Lite, scope: Scope, persist: bool): map<MessageQueue, int> {
    if persist && Named(s, scope) != {}
    then map q | q in Written(s, scope) && q in Named(s, scope) :: Written(s, scope)[q]
    else Written(s, scope)
  }

  /** The broker's offsets after a commit; `reachable` are the queues whose update gets through. */
  function BrokerAfter(s: Lite, scope: Scope, persist: bool, reachable: set<MessageQueue>,
                       broker: map<MessageQueue, int>): map<MessageQueue, int>
  {
    if persist && Named(s, scope) != {}
    then broker + map q | q in TableAfter(s, scope, persist) && q in reachable :: TableAfter(s, scope, persist)[q]
    else broker
  }

  /** Asking for a committed offset fills the table from the broker when it has no slot. */
  function ReadBack(s: Lite, broker: map<MessageQueue, int>, q: MessageQueue): Lite {
    if q in s.table || q !in broker then s else s.(table := s.table[q := broker[q]])
  }

  /** A queue the round releases: its slot is sent out first and then forgotten with everything else. */
  function RebalanceTo(s: Lite, queues: set<MessageQueue>, starts: map<MessageQueue, nat>): Lite {
    var gone := s.owned - queues;
    var r := Revoke(s.(next := Resolve(s.next, queues - s.owned, starts)), gone);
    if queues == s.owned then s else r.(owned := queues, table := s.table - gone)
  }

  function BrokerAfterRebalance(s: Lite, queues: set<MessageQueue>, reachable: set<MessageQueue>,
                                broker: map<MessageQueue, int>): map<MessageQueue, int>
  {
    broker + map q | q in s.table && q in s.owned - queues && q in reachable :: s.table[q]
  }

  // ---- the cache gates ----

  datatype Limits = Limits(all: int, count: int, sizeMib: int, span: int, batch: nat)

  datatype Verdict = Admitted | OverAll | OverCount | OverSize | OverSpan

  /** The four gates in order, each strictly above its limit; a queue that is not held is never refused. */
  function Judge(limits: Limits, held: bool, pendingRounds: nat, count: nat, bytes: nat, span: int): Verdict {
    if !held then Admitted
    else if pendingRounds * limits.batch > limits.all then OverAll
    else if count > limits.count then OverCount
    else if bytes / MIB > limits.sizeMib then OverSize
    else if span > limits.span then OverSpan
    else Admitted
  }

  /** The span of a list of rows. */
  function SpanOf(rows: seq<Message>): int {
    if rows == [] then 0 else MaxOf(Offsets(rows)) - MinOf(Offsets(rows))
  }

  /** What the gates owe a queue, from the buffer and the pending rounds of all queues. */
  ghost function Due(s: Lite, limits: Limits, q: MessageQueue): Verdict {
    var rows := RowsOf(q, s.buffer);
    Judge(limits, q in s.owned, TotalRounds(s.rounds), |rows|, BodyBytes(rows), SpanOf(rows))
  }

  /** With nothing cached and no round pending only a negative limit refuses a held queue. */
  lemma EmptyIsAdmittedIff(s: Lite, limits: Limits, q: MessageQueue)
    requires s.buffer == [] && TotalRounds(s.rounds) == 0
    ensures Due(s, limits, q) == Admitted <==>
              q in s.owned ==> limits.all >= 0 && limits.count >= 0 && limits.sizeMib >= 0 && limits.span >= 0
  {
  }

  /** No two rows lie further apart than the span, and an empty list spans 0. */
  lemma SpanFitsIff(rows: seq<Message>, span: int)
    ensures SpanOf(rows) <= span <==>
              0 <= span && forall a, b | a in rows && b in rows :: a.offset - b.offset <= span
  {
    if rows != [] {
      var offsets := Offsets(rows);
      var hi :| 0 <= hi < |offsets| && offsets[hi] == MaxOf(offsets);
      var lo :| 0 <= lo < |offsets| && offsets[lo] == MinOf(offsets);
      assert rows[hi] in rows && rows[lo] in rows && rows[0] in rows;
      forall a, b | a in rows && b in rows ensures a.offset - b.offset <= SpanOf(rows) {
        var i :| 0 <= i < |rows| && rows[i] == a;
        var j :| 0 <= j < |rows| && rows[j] == b;
        assert offsets[i] in offsets && offsets[j] in offsets;
      }
    }
  }

  lemma MibFitsIff(bytes: nat, limit: int)
    ensures bytes / MIB > limit <==> bytes >= (limit + 1) * MIB
  {
  }

  /** What each verdict of the gates means, in the buffer and the pending rounds: they are asked in this order, and the
      first that is over its limit refuses a queue that is held. */
  lemma VerdictIff(s: Lite, limits: Limits, q: MessageQueue)
    ensures var rows := RowsOf(q, s.buffer);
            var apart := exists a, b :: a in rows && b in rows && a.offset - b.offset > limits.span;
            && (Due(s, limits, q) == OverAll <==> q in s.owned && TotalRounds(s.rounds) * limits.batch > limits.all)
            && (Due(s, limits, q) == OverCount <==>
                  q in s.owned && TotalRounds(s.rounds) * limits.batch <= limits.all && |rows| > limits.count)
            && (Due(s, limits, q) == OverSize <==>
                  && q in s.owned && TotalRounds(s.rounds) * limits.batch <= limits.all && |rows| <= limits.count
                  && BodyBytes(rows) >= (limits.sizeMib + 1) * MIB)
            && (Due(s, limits, q) == OverSpan <==>
                  && q in s.owned && TotalRounds(s.rounds) * limits.batch <= limits.all && |rows| <= limits.count
                  && BodyBytes(rows) < (limits.sizeMib + 1) * MIB && (limits.span < 0 || apart))
            && (Due(s, limits, q) == Admitted <==>
                  (q in s.owned ==>
                    && TotalRounds(s.rounds) * limits.batch <= limits.all && |rows| <= limits.count
                    && BodyBytes(rows) < (limits.sizeMib + 1) * MIB && limits.span >= 0
                    && forall a, b | a in rows && b in rows :: a.offset - b.offset <= limits.span))
  {
    var rows := RowsOf(q, s.buffer);
    SpanFitsIff(rows, limits.span);
    MibFitsIff(BodyBytes(rows), limits.sizeMib);
    hide RowsOf, BodyBytes, SpanOf, TotalRounds;
  }

  // ---- facts about the buffer functions ----

  lemma {:induction false} WithoutConcat(qs: set<MessageQueue>, a: seq<Message>, b: seq<Message>)
    ensures Without(qs, a + b) == Without(qs, a) + Without(qs, b)
  {
    if a == [] {
      assert a + b == b;
    } else {
      assert (a + b)[1..] == a[1..] + b;
      WithoutConcat(qs, a[1..], b);
    }
  }

  lemma {:induction false} KeptConcat(q: MessageQueue, target: nat, a: seq<Message>, b: seq<Message>)
    ensures Kept(q, target, a + b) == Kept(q, target, a) + Kept(q, target, b)
    ensures Pruned(q, target, a + b) == Pruned(q, target, a) + Pruned(q, target, b)
  {
    if a == [] {
      assert a + b == b;
    } else {
      assert (a + b)[1..] == a[1..] + b;
      KeptConcat(q, target, a[1..], b);
    }
  }

  lemma {:induction false} WithoutTwice(p: set<MessageQueue>, q: set<MessageQueue>, rows: seq<Message>)
    ensures Without(q, Without(p, rows)) == Without(p + q, rows)
  {
    if rows != [] { WithoutTwice(p, q, rows[1..]); }
  }

  lemma {:induction false} WithoutNobody(rows: seq<Message>)
    ensures Without({}, rows) == rows
  {
    if rows != [] {
      WithoutNobody(rows[1..]);
      assert rows == [rows[0]] + rows[1..];
    }
  }

  lemma RevokeNobody(s: Lite)
    ensures Revoke(s, {}) == s
  {
    WithoutNobody(s.buffer);
    assert s.next - {} == s.next && s.consumed - {} == s.consumed && s.pins - {} == s.pins && s.rounds - {} == s.rounds;
  }

  lemma RevokeMore(s: Lite, a: set<MessageQueue>, b: set<MessageQueue>)
    ensures Revoke(Revoke(s, a), b) == Revoke(s, a + b)
  {
    WithoutTwice(a, b, s.buffer);
    assert s.next - a - b == s.next - (a + b);
    assert s.consumed - a - b == s.consumed - (a + b);
    assert s.pins - a - b == s.pins - (a + b) && s.rounds - a - b == s.rounds - (a + b);
  }

  /** Dropping queues removes exactly their rows: every other queue keeps its rows in order. */
  lemma {:induction false} WithoutRows(qs: set<MessageQueue>, rows: seq<Message>, q: MessageQueue)
    ensures RowsOf(q, Without(qs, rows)) == if q in qs then [] else RowsOf(q, rows)
  {
    if rows != [] { WithoutRows(qs, rows[1..], q); }
  }

  lemma {:induction false} KeptSplits(q: MessageQueue, target: nat, rows: seq<Message>, p: MessageQueue)
    ensures RowsOf(p, Kept(q, target, rows)) == if p == q then Kept(q, target, RowsOf(q, rows)) else RowsOf(p, rows)
    ensures RowsOf(p, Pruned(q, target, rows)) == if p == q then Pruned(q, target, RowsOf(q, rows)) else []
  {
    if rows != [] {
      KeptSplits(q, target, rows[1..], p);
      var k, d, tail := Kept(q, target, rows[1..]), Pruned(q, target, rows[1..]), RowsOf(q, rows[1..]);
      assert ([rows[0]] + k)[1..] == k && ([rows[0]] + d)[1..] == d && ([rows[0]] + tail)[1..] == tail;
    }
  }

  lemma {:induction false} KeptOffsets(q: MessageQueue, target: nat, mine: seq<Message>)
    requires forall m | m in mine :: m.queue == q
    ensures Offsets(Kept(q, target, mine)) == Prune(Offsets(mine), target)
  {
    if mine != [] {
      KeptOffsets(q, target, mine[1..]);
      var k := Kept(q, target, mine[1..]);
      assert Offsets(mine) == [mine[0].offset] + Offsets(mine[1..]);
      assert Offsets([mine[0]] + k) == [mine[0].offset] + Offsets(k);
    }
  }

  /** A seek touches only its own queue, and there keeps exactly the rows at or past the target. */
  lemma KeptRows(q: MessageQueue, target: nat, rows: seq<Message>, p: MessageQueue)
    ensures p != q ==> RowsOf(p, Kept(q, target, rows)) == RowsOf(p, rows)
    ensures Offsets(RowsOf(q, Kept(q, target, rows))) == Prune(Offsets(RowsOf(q, rows)), target)
    ensures RowsOf(q, Kept(q, target, rows)) == Kept(q, target, RowsOf(q, rows))
    ensures RowsOf(p, Pruned(q, target, rows)) == if p == q then Pruned(q, target, RowsOf(q, rows)) else []
  {
    KeptSplits(q, target, rows, p);
    KeptSplits(q, target, rows, q);
    RowsOfBelong(q, rows);
    KeptOffsets(q, target, RowsOf(q, rows));
  }

  /** The consumed cursor a poll leaves for a queue is one past the highest offset it handed out for it; a queue
      that handed out nothing, or is not held, keeps its cursor. */
  lemma {:induction false} AdvancedMeaning(held: set<MessageQueue>, out: seq<Message>, q: MessageQueue)
    ensures q in Advanced(held, out) <==> q in held && RowsOf(q, out) != []
    ensures q in Advanced(held, out) ==>
              Advanced(held, out)[q] > 0 && Greatest(Advanced(held, out)[q] - 1, Offsets(RowsOf(q, out)))
  {
    if out != [] {
      var k := |out| - 1;
      var front, m := out[..k], out[k];
      AdvancedMeaning(held, front, q);
      assert out == front + [m];
      RowsOfConcat(q, front, [m]);
      if m.queue == q {
        assert RowsOf(q, [m]) == [m];
        var rows := RowsOf(q, front);
        assert Offsets(rows + [m]) == Offsets(rows) + [m.offset];
        assert (rows + [m])[|rows|] == m;
      } else {
        assert RowsOf(q, [m]) == [];
        assert RowsOf(q, out) == RowsOf(q, front);
      }
    }
  }

  // ---- what a commit means for one queue ----

  function Slot(m: map<MessageQueue, int>, q: MessageQueue): Option<int> {
    if q in m then Some(m[q]) else None
  }

  /** The commit table as a plain map: a named, held queue with a value takes it; a persisting commit that names
      somebody forgets the others; the broker hears only of named, reachable queues, and only when persisting. */
  lemma CommitMeansPerQueue(s: Lite, scope: Scope, persist: bool, reachable: set<MessageQueue>,
                            broker: map<MessageQueue, int>, q: MessageQueue)
    ensures var swept := persist && Named(s, scope) != {} && q !in Named(s, scope);
            Slot(TableAfter(s, scope, persist), q) ==
              if swept then None
              else if Writes(s, scope, q) then Some(Target(s, scope, q)) else Slot(s.table, q)
    ensures var slot := Slot(TableAfter(s, scope, persist), q);
            Slot(BrokerAfter(s, scope, persist, reachable, broker), q) ==
              if persist && q in Named(s, scope) && q in reachable && slot.Some? then slot else Slot(broker, q)
  {
    assert q in Named(s, scope) ==> Named(s, scope) != {};
  }

  /** What a commit of named offsets does to the slot of every queue, and what the broker hears. */
  lemma CommitAtStores(s: Lite, offsets: map<MessageQueue, int>, persist: bool, reachable: set<MessageQueue>,
                       broker: map<MessageQueue, int>, q: MessageQueue)
    ensures Slot(TableAfter(s, At(offsets), persist), q) ==
              if q in offsets && q in s.owned && offsets[q] != -1 then Some(offsets[q])
              else if persist && offsets != map[] && q !in offsets then None else Slot(s.table, q)
    ensures var slot := Slot(TableAfter(s, At(offsets), persist), q);
            Slot(BrokerAfter(s, At(offsets), persist, reachable, broker), q) ==
              if persist && offsets != map[] && q in reachable && slot.Some? then slot else Slot(broker, q)
  {
    CommitMeansPerQueue(s, At(offsets), persist, reachable, broker, q);
    assert offsets != map[] <==> offsets.Keys != {};
  }

  /** A commit of everything takes the consumed cursors of the held queues. */
  lemma CommitAllStores(s: Lite, persist: bool, reachable: set<MessageQueue>, broker: map<MessageQueue, int>,
                        q: MessageQueue)
    ensures Slot(TableAfter(s, Everything, persist), q) ==
              if q in s.owned && q in s.consumed then Some(s.consumed[q])
              else if persist && s.owned != {} && q !in s.owned then None else Slot(s.table, q)
    ensures var slot := Slot(TableAfter(s, Everything, persist), q);
            Slot(BrokerAfter(s, Everything, persist, reachable, broker), q) ==
              if persist && s.owned != {} && q in reachable && slot.Some? then slot else Slot(broker, q)
  {
    CommitMeansPerQueue(s, Everything, persist, reachable, broker, q);
  }

  /** A commit of a list of queues takes the consumed cursors of those among them that are held. */
  lemma CommitListStores(s: Lite, queues: seq<MessageQueue>, persist: bool, reachable: set<MessageQueue>,
                         broker: map<MessageQueue, int>, q: MessageQueue)
    ensures Slot(TableAfter(s, Cursors(queues), persist), q) ==
              if q in queues && q in s.owned && q in s.consumed then Some(s.consumed[q])
              else if persist && queues != [] && q !in queues then None else Slot(s.table, q)
    ensures var slot := Slot(TableAfter(s, Cursors(queues), persist), q);
            Slot(BrokerAfter(s, Cursors(queues), persist, reachable, broker), q) ==
              if persist && queues != [] && q in reachable && slot.Some? then slot else Slot(broker, q)
  {
    CommitMeansPerQueue(s, Cursors(queues), persist, reachable, broker, q);
    assert queues != [] ==> queues[0] in Named(s, Cursors(queues));
  }

  /** A round that assigns the same queues again is a stutter; otherwise a released queue keeps nothing, not even its
      slot, and the broker has been told the slot if it could be reached. */
  lemma RebalanceMeansPerQueue(s: Lite, queues: set<MessageQueue>, starts: map<MessageQueue, nat>,
                               reachable: set<MessageQueue>, broker: map<MessageQueue, int>, q: MessageQueue)
    ensures queues == s.owned ==> RebalanceTo(s, queues, starts) == s
    ensures q in s.owned - queues ==>
              var t := RebalanceTo(s, queues, starts);
              && q !in t.next && q !in t.consumed && q !in t.table && RowsOf(q, t.buffer) == []
              && Slot(BrokerAfterRebalance(s, queues, reachable, broker), q)
                 == if q in s.table && q in reachable then Some(s.table[q]) else Slot(broker, q)
    ensures q in s.owned && q in queues ==>
              var t := RebalanceTo(s, queues, starts);
              && Slot(t.table, q) == Slot(s.table, q) && RowsOf(q, t.buffer) == RowsOf(q, s.buffer)
              && Slot(BrokerAfterRebalance(s, queues, reachable, broker), q) == Slot(broker, q)
              && (q in s.next ==> q in t.next && t.next[q] == s.next[q])
  {
    WithoutRows(s.owned - queues, s.buffer, q);
  }

  // ---- what each operation leaves of one queue, table by table ----

  /** Everything the tables say about a queue. */
  datatype Entry = Entry(held: bool, next: Option<nat>, consumed: Option<nat>, slot: Option<int>, pin: Option<nat>,
                         paused: bool, rows: seq<Message>, rounds: seq<nat>)

  function Cursor(m: map<MessageQueue, nat>, q: MessageQueue): Option<nat> {
    if q in m then Some(m[q]) else None
  }

  function EntryOf(s: Lite, q: MessageQueue): Entry {
    Entry(q in s.owned, Cursor(s.next, q), Cursor(s.consumed, q), Slot(s.table, q), Cursor(s.pins, q), q in s.paused,
          RowsOf(q, s.buffer), RoundsAt(s.rounds, q))
  }

  /** A queue of which only the slot is left. */
  function Released(slot: Option<int>): Entry {
    Entry(false, None, None, slot, None, false, [], [])
  }

  lemma RevokeLeaves(s: Lite, qs: set<MessageQueue>, p: MessageQueue)
    ensures EntryOf(Revoke(s, qs), p) ==
              if p in qs then Released(Slot(s.table, p)).(held := p in s.owned) else EntryOf(s, p)
  {
    WithoutRows(qs, s.buffer, p);
  }

  /** An assignment holds the named queues, at the pull cursor they have or the start offset they get; of the others it
      held it leaves the slot, and those it did not hold it leaves alone. */
  lemma AssignLeaves(s: Lite, queues: set<MessageQueue>, starts: map<MessageQueue, nat>, p: MessageQueue)
    ensures EntryOf(AssignTo(s, queues, starts), p) ==
              if p in queues then
                EntryOf(s, p).(held := true, next := if p in s.next then Some(s.next[p]) else Cursor(starts, p))
              else if p in s.owned then Released(Slot(s.table, p)) else EntryOf(s, p)
  {
    RevokeLeaves(s, s.owned - queues, p);
    hide Without, RowsOf;
  }

  /** The end of a subscription leaves the held queues of its topic their slot, and all others alone; a topic of nothing
      but white space ends none. */
  lemma UnsubscribeLeaves(s: Lite, topic: string, p: MessageQueue)
    ensures EntryOf(UnsubscribeFrom(s, topic), p) ==
              if p in s.owned && p.topic == topic
                && exists c :: c in topic && c !in {' ', '\t', '\n', '\r', '\U{0B}', '\U{0C}'}
              then Released(Slot(s.table, p)) else EntryOf(s, p)
  {
    RevokeLeaves(s, QueuesAbout(s, topic), p);
    hide Without, RowsOf;
  }

  /** A rebalance does the same with the queues it takes over and releases, of which not even the slot is left; if nothing
      changes it does nothing. */
  lemma RebalanceLeaves(s: Lite, queues: set<MessageQueue>, starts: map<MessageQueue, nat>, p: MessageQueue)
    ensures EntryOf(RebalanceTo(s, queues, starts), p) ==
              if p in queues && p !in s.owned then
                EntryOf(s, p).(held := true, next := if p in s.next then Some(s.next[p]) else Cursor(starts, p))
              else if p in s.owned && p !in queues then Released(None) else EntryOf(s, p)
  {
    RevokeLeaves(s.(next := Resolve(s.next, queues - s.owned, starts)), s.owned - queues, p);
    hide Without, RowsOf;
  }

  lemma {:induction false} NothingToCharge(n: nat)
    ensures ChargeTimes([], n) == []
  {
    if n > 0 { NothingToCharge(n - 1); }
  }

  /** The rows that leave are charged, one after the other, to the oldest round of their queue; a queue none of whose rows
      leave keeps its rounds, and one that has no row left has no round left. */
  lemma ChargedLeaves(rounds: map<MessageQueue, seq<nat>>, removed: seq<Message>, left: seq<Message>, p: MessageQueue)
    ensures RoundsAt(Charged(rounds, removed, left), p) ==
              if RowsOf(p, removed) == [] then RoundsAt(rounds, p)
              else if RowsOf(p, left) == [] then [] else ChargeTimes(RoundsAt(rounds, p), |RowsOf(p, removed)|)
  {
    NothingToCharge(|RowsOf(p, removed)|);
    hide ChargeTimes, RowsOf;
  }

  /** A seek charges the rows it drops to the rounds of its queue, and to no other's. */
  lemma SeekCharges(s: Lite, q: MessageQueue, target: nat, p: MessageQueue)
    ensures var t, mine := SeekTo(s, q, target), RowsOf(q, s.buffer);
            var dropped := |mine| - |RowsOf(q, t.buffer)|;
            && 0 <= dropped
            && RoundsAt(t.rounds, p) ==
                 if p != q || dropped == 0 then RoundsAt(s.rounds, p)
                 else if dropped == |mine| then [] else ChargeTimes(RoundsAt(s.rounds, p), dropped)
  {
    KeptRows(q, target, s.buffer, p);
    KeptAndPruned(q, target, RowsOf(q, s.buffer));
    ChargedLeaves(s.rounds, Pruned(q, target, s.buffer), Kept(q, target, s.buffer), p);
    hide RowsOf, Kept, Pruned, Prune, Charged, RoundsAt, ChargeTimes;
  }

  /** It sets both cursors and the pin of its queue and keeps of its rows those at or past the target, in order. */
  lemma SeekLeaves(s: Lite, q: MessageQueue, target: nat, p: MessageQueue)
    ensures var t, mine := EntryOf(SeekTo(s, q, target), p), RowsOf(q, s.buffer);
            if p != q then t == EntryOf(s, p)
            else
              && t == EntryOf(s, q).(next := Some(target), consumed := Some(target), pin := Some(target),
                                     rows := t.rows, rounds := t.rounds)
              && Offsets(t.rows) == Prune(Offsets(mine), target)
              && forall m :: m in t.rows <==> m in mine && m.offset >= target
  {
    SeekCharges(s, q, target, p);
    KeptRows(q, target, s.buffer, p);
    RowsOfBelong(q, s.buffer);
    KeptMembers(q, target, RowsOf(q, s.buffer));
    hide RowsOf, Kept, Pruned, Prune, Charged, RoundsAt, ChargeTimes;
  }

  lemma {:induction false} KeptAndPruned(q: MessageQueue, target: nat, mine: seq<Message>)
    ensures |Kept(q, target, mine)| + |Pruned(q, target, mine)| == |mine|
  {
    if mine != [] { KeptAndPruned(q, target, mine[1..]); }
  }

  lemma {:induction false} KeptMembers(q: MessageQueue, target: nat, mine: seq<Message>)
    requires forall m | m in mine :: m.queue == q
    ensures forall m :: m in Kept(q, target, mine) <==> m in mine && m.offset >= target
  {
    if mine != [] {
      assert mine == [mine[0]] + mine[1..];
      KeptMembers(q, target, mine[1..]);
    }
  }

  /** A poll hands out the oldest rows, 1024 at most, and moves past them the consumed cursors of the queues that have a
      pull cursor. */
  lemma PollLeaves(s: Lite, p: MessageQueue)
    ensures var n := if |s.buffer| < 1024 then |s.buffer| else 1024;
            var mine := Offsets(RowsOf(p, s.buffer[..n]));
            var t := EntryOf(HandOver(s), p);
            && HandedOut(s) == s.buffer[..n] && HandOver(s).buffer == s.buffer[n..]
            && t == EntryOf(s, p).(rows := RowsOf(p, s.buffer[n..]), consumed := t.consumed, rounds := t.rounds)
            && (if p in s.next && mine != [] then
                  t.consumed.Some? && t.consumed.value > 0 && Greatest(t.consumed.value - 1, mine)
                else t.consumed == Cursor(s.consumed, p))
            && t.rounds == (if mine == [] then RoundsAt(s.rounds, p)
                            else if t.rows == [] then [] else ChargeTimes(RoundsAt(s.rounds, p), |mine|))
  {
    var n := if |s.buffer| < 1024 then |s.buffer| else 1024;
    assert HandedOut(s) == s.buffer[..n];
    AdvancedMeaning(s.next.Keys, s.buffer[..n], p);
    assert |Offsets(RowsOf(p, s.buffer[..n]))| == |RowsOf(p, s.buffer[..n])|;
    ChargedLeaves(s.rounds, s.buffer[..n], s.buffer[n..], p);
    hide RowsOf, Advanced, Charged, Greatest, ChargeTimes, RoundsAt;
  }

  /** Rows that arrive go behind those of their queue and count as one round more. */
  lemma AppendLeaves(s: Lite, rows: seq<Message>, p: MessageQueue)
    ensures var mine := RowsOf(p, rows);
            EntryOf(Append(s, rows), p) ==
              EntryOf(s, p).(rows := RowsOf(p, s.buffer) + mine,
                             rounds := RoundsAt(s.rounds, p) + if mine == [] then [] else [|mine|])
  {
    RowsOfConcat(p, s.buffer, rows);
    BringsIff(rows, p);
    hide RowsOf;
  }

  /** An answer moves the pull cursor of its queue if that still is where it was asked from, and nothing else. */
  lemma FollowLeaves(s: Lite, q: MessageQueue, asked: nat, r: PullResult, p: MessageQueue)
    ensures EntryOf(Follow(s, q, asked, r), p) ==
              if p == q && Cursor(s.next, q) == Some(asked) then EntryOf(s, p).(next := Some(r.next)) else EntryOf(s, p)
  {
  }

  /** Reading back fills a slot that is missing, from the broker. */
  lemma ReadBackLeaves(s: Lite, broker: map<MessageQueue, int>, q: MessageQueue, p: MessageQueue)
    ensures EntryOf(ReadBack(s, broker, q), p) ==
              if p == q && q !in s.table then EntryOf(s, p).(slot := Slot(broker, q)) else EntryOf(s, p)
  {
  }
}
