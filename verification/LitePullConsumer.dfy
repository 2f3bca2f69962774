/** The lite-pull consumer with its incremental per-queue accumulators. Every operation is proved against the
    corresponding function of LiteSpec on the plain tables, and the accumulators against recomputation from
    the buffer. */
module LitePullConsumer {
  import opened Messages
  import opened LiteQueueCache
  import opened LiteSpec
  import opened LiteCaches

  /** The broker's stored consume offsets of one group. */
  class OffsetStore {
    var offsets: map<MessageQueue, int>

    constructor (initial: map<MessageQueue, int>)
      ensures offsets == initial
    {
      offsets := initial;
    }
  }

  datatype SeekAnswer = Sought | NotHeld | NotRunning | IllegalOffset
  datatype CommittedAnswer = ReadRefused | Read(offset: Option<int>)

  datatype PollAnswer = Handed(messages: seq<Message>) | PollNotRunning | NegativeTimeout

  /** The rows a seek keeps and the rows it drops, in buffer order. */
  method Partition(q: MessageQueue, target: nat, rows: seq<Message>) returns (kept: seq<Message>, pruned: seq<Message>)
    ensures kept == Kept(q, target, rows) && pruned == Pruned(q, target, rows)
  {
    kept, pruned := [], [];
    for i := 0 to |rows|
      invariant kept == Kept(q, target, rows[..i]) && pruned == Pruned(q, target, rows[..i])
    {
      assert rows[..i + 1] == rows[..i] + [rows[i]];
      KeptConcat(q, target, rows[..i], [rows[i]]);
      if Outdated(q, target, rows[i]) {
        pruned := pruned + [rows[i]];
      } else {
        kept := kept + [rows[i]];
      }
    }
    assert rows[..|rows|] == rows;
  }

  method AdvanceCursors(held: set<MessageQueue>, out: seq<Message>) returns (advanced: map<MessageQueue, nat>)
    ensures advanced == Advanced(held, out)
  {
    advanced := map[];
    for i := 0 to |out|
      invariant advanced == Advanced(held, out[..i])
    {
      var m := out[i];
      assert out[..i + 1][..i] == out[..i];
      if m.queue in held {
        var nxt := m.offset + 1;
        if m.queue !in advanced || nxt > advanced[m.queue] {
          advanced := advanced[m.queue := nxt];
        }
      }
    }
    assert out[..|out|] == out;
  }

  method RowsWithout(q: MessageQueue, rows: seq<Message>) returns (kept: seq<Message>)
    ensures kept == Without({q}, rows)
  {
    kept := [];
    for i := 0 to |rows|
      invariant kept == Without({q}, rows[..i])
    {
      assert rows[..i + 1] == rows[..i] + [rows[i]];
      WithoutConcat({q}, rows[..i], [rows[i]]);
      if rows[i].queue != q {
        kept := kept + [rows[i]];
      }
    }
    assert rows[..|rows|] == rows;
  }

  class Consumer {
    var running: bool
    var owned: set<MessageQueue>
    var next: map<MessageQueue, nat>
    var consumed: map<MessageQueue, nat>
    var table: map<MessageQueue, int>
    var pins: map<MessageQueue, nat>
    var paused: set<MessageQueue>
    var buffer: seq<Message>
    var cache: map<MessageQueue, QueueCache>
    ghost var caches: Caches
    var allTrips: nat
    var queueTrips: nat
    var spanTrips: nat
    const limits: Limits

    /** The tables, with what the accumulators say about pending rounds. */
    ghost function View(): Lite
      reads this
    {
      Lite(owned, next, consumed, table, pins, paused, buffer, RoundsOf(caches))
    }

    /** `caches` holds the accumulators as values. */
    ghost predicate Mirrored()
      reads this`cache, this`caches, cache.Values
    {
      && (forall p, q | p in cache && q in cache && p != q :: cache[p] != cache[q])
      && caches.Keys == cache.Keys && forall q | q in cache :: cache[q].View() == caches[q]
    }

    /** Every accumulator equals recomputation from the buffer, and no row is unaccounted for. */
    ghost predicate Valid()
      reads this`cache, this`caches, this`buffer, cache.Values
    {
      Mirrored() && Faithful(caches, buffer)
    }

    /** The pending rounds of every queue are those of its cached rows. */
    ghost predicate CountsAllRounds()
      reads this`caches
    {
      AllCountRounds(caches)
    }

    constructor (limits: Limits)
      ensures Valid() && CountsAllRounds() && fresh(cache.Values)
      ensures this.limits == limits && !running
      ensures View() == Lite({}, map[], map[], map[], map[], {}, [], map[])
      ensures allTrips == 0 && queueTrips == 0 && spanTrips == 0
    {
      this.limits := limits;
      running := false;
      owned, next, consumed, table, pins, paused, buffer := {}, map[], map[], map[], map[], {}, [];
      cache, caches := map[], map[];
      allTrips, queueTrips, spanTrips := 0, 0, 0;
    }

    /** The one place the buffer grows. */
    method Enqueue(rows: seq<Message>)
      requires Valid()
      modifies this`buffer, this`cache, this`caches, cache.Values
      ensures Valid() && fresh(cache.Values - old(cache.Values))
      ensures View() == Append(old(View()), rows)
      ensures old(CountsAllRounds()) ==> CountsAllRounds()
    {
      hide Faithful, AllCountRounds, Enrolled, RoundsOf, AddRows, Tally, CloseRounds, Mirrored;
      AppendKeeps(caches, buffer, rows);
      TalliedAreAdded(caches, rows);
      var arrived := AddAll(rows);
      CloseAll(arrived);
      buffer := buffer + rows;
    }

    /** Adds the rows to their queues' accumulators and counts how many arrived per queue. */
    method AddAll(rows: seq<Message>) returns (arrived: map<MessageQueue, nat>)
      requires Valid()
      modifies this`cache, this`caches, cache.Values
      ensures Mirrored() && fresh(cache.Values - old(cache.Values))
      ensures caches == AddRows(old(caches), rows) && arrived == Tally(rows)
    {
      ghost var before, was := caches, buffer;
      hide WithRow, Bounded, Faithful, Mirrored, Tally, AddRows;
      NothingAdded(before);
      arrived := map[];
      for i := 0 to |rows|
        invariant Mirrored() && fresh(cache.Values - old(cache.Values))
        invariant caches == AddRows(before, rows[..i]) && arrived == Tally(rows[..i])
      {
        var m := rows[i];
        OneMoreAdded(before, rows, i);
        BoundedWhileAdding(before, was, rows[..i], m.queue);
        EnsureStat(m.queue);
        AddOne(m);
        arrived := arrived[m.queue := CountOf(arrived, m.queue) + 1];
      }
      assert rows[..|rows|] == rows;
    }

    method EnsureStat(key: MessageQueue)
      requires Mirrored()
      modifies this`cache, this`caches
      ensures key in cache && Mirrored() && fresh(cache.Values - old(cache.Values))
      ensures key in caches && caches == old(caches)[key := CachedAt(old(caches), key)]
    {
      if key !in cache {
        var stat := new QueueCache();
        cache, caches := cache[key := stat], caches[key := EMPTY_CACHE];
      }
    }

    method AddOne(m: Message)
      requires Mirrored() && m.queue in cache && m.queue in caches && Bounded(caches[m.queue])
      modifies cache.Values, this`caches
      ensures Mirrored() && caches == old(caches)[m.queue := WithRow(old(caches)[m.queue], m)]
    {
      hide WithRow, Bounded;
      var stat := cache[m.queue];
      stat.Add(m);
      Mirror(m.queue, stat);
    }

    /** One accumulator was updated; its value follows. */
    ghost method Mirror(key: MessageQueue, stat: QueueCache)
      requires key in cache && key in caches && cache[key] == stat && caches.Keys == cache.Keys
      requires forall p, q | p in cache && q in cache && p != q :: cache[p] != cache[q]
      requires forall q | q in cache && q != key :: cache[q].View() == caches[q]
      modifies this`caches
      ensures Mirrored() && caches == old(caches)[key := stat.View()]
    {
      caches := caches[key := stat.View()];
    }

    /** One pull round per touched queue. */
    method CloseAll(arrived: map<MessageQueue, nat>)
      requires Mirrored() && arrived.Keys <= caches.Keys
      modifies cache.Values, this`caches
      ensures Mirrored() && caches == CloseRounds(old(caches), arrived)
    {
      ghost var before := caches;
      var left := arrived.Keys;
      assert CloseRounds(before, arrived - left) == before;
      while left != {}
        invariant Mirrored() && left <= arrived.Keys && caches == CloseRounds(before, arrived - left)
        decreases left
      {
        var key :| key in left;
        CloseMore(before, arrived, left, key);
        assert key in caches && key in cache;
        hide Mirrored, WithRound, CloseRounds;
        CloseOne(key, arrived[key]);
        left := left - {key};
      }
      assert arrived - left == arrived;
    }

    method CloseOne(key: MessageQueue, count: nat)
      requires Mirrored() && key in cache && key in caches
      modifies cache.Values, this`caches
      ensures Mirrored() && caches == old(caches)[key := WithRound(old(caches)[key], count)]
    {
      hide WithRound;
      var stat := cache[key];
      stat.BeginRound(count);
      Mirror(key, stat);
    }

    /** Takes a row out of its queue's accumulator, if the queue still has one. */
    method Forget(m: Message)
      requires Mirrored()
      modifies cache.Values, this`caches
      ensures Mirrored() && caches == RemoveRow(old(caches), m)
    {
      hide WithoutRow, RemoveFromGroups;
      if m.queue in cache {
        var stat := cache[m.queue];
        stat.Remove(m);
        Mirror(m.queue, stat);
      }
    }

    /** The one place the buffer shrinks message by message. */
    method TakeFromBuffer() returns (m: Message)
      requires Valid() && buffer != []
      modifies this`buffer, cache.Values, this`caches
      ensures Valid()
      ensures m == old(buffer)[0] && buffer == old(buffer)[1..]
      ensures RoundsOf(caches) == Charged(old(RoundsOf(caches)), [m], buffer)
      ensures old(CountsAllRounds()) ==> CountsAllRounds()
    {
      hide Faithful, AllCountRounds, Charged, RemoveRow, RoundsOf, Mirrored;
      m := buffer[0];
      assert buffer == [m] + buffer[1..];
      TakeKeeps(caches, m, buffer[1..]);
      buffer := buffer[1..];
      Forget(m);
    }

    /** The locked half of a poll: takes rows off the head of the buffer until it is empty or POLL_CAP is reached. */
    method Drain() returns (out: seq<Message>)
      requires Valid()
      modifies this`buffer, cache.Values, this`caches
      ensures Valid() && out == HandedOut(old(View())) && View() == TakeOut(old(View()))
      ensures old(CountsAllRounds()) ==> CountsAllRounds()
    {
      ghost var before, rounds := buffer, RoundsOf(caches);
      out := [];
      hide Charged, CountsAllRounds, RoundsOf, Faithful, Mirrored;
      ChargedNothing(caches, buffer);
      hide Valid;
      while buffer != [] && |out| < POLL_CAP
        invariant Valid() && (old(CountsAllRounds()) ==> CountsAllRounds())
        invariant out + buffer == before && |out| <= POLL_CAP
        invariant RoundsOf(caches) == Charged(rounds, out, buffer)
        decreases |buffer|
      {
        ghost var rest := buffer[1..];
        assert buffer == [buffer[0]] + rest;
        ChargedMore(rounds, out, buffer[0], rest);
        var m := TakeFromBuffer();
        out := out + [m];
      }
      CutAtTheCap(before, out, buffer);
    }

    /** The unlocked half: the consumed cursors of the queues that still have a pull cursor follow the rows. */
    method MoveCursors(out: seq<Message>)
      modifies this`consumed
      ensures consumed == old(consumed) + Advanced(next.Keys, out)
    {
      var advanced := AdvanceCursors(next.Keys, out);
      consumed := consumed + advanced;
    }

    /** Hands out what the buffer holds, at most POLL_CAP messages, and moves the consumed cursors with them. */
    method Poll(timeout: int) returns (answer: PollAnswer)
      requires Valid()
      modifies this`buffer, this`consumed, cache.Values, this`caches
      ensures Valid() && (old(CountsAllRounds()) ==> CountsAllRounds())
      ensures !running ==> answer == PollNotRunning
      ensures running && timeout < 0 ==> answer == NegativeTimeout
      ensures running && timeout >= 0 ==> answer == Handed(HandedOut(old(View()))) && View() == HandOver(old(View()))
      ensures !answer.Handed? ==> View() == old(View())
    {
      hide Valid, CountsAllRounds, Charged, RoundsOf, Advanced, HandedOut;
      if !running { return PollNotRunning; }
      if timeout < 0 { return NegativeTimeout; }
      var out := Drain();
      MoveCursors(out);
      answer := Handed(out);
    }

    /** Rewrites both cursors of a held queue and drops its outdated rows. */
    method Seek(q: MessageQueue, target: nat, minOffset: nat, maxOffset: nat) returns (answer: SeekAnswer)
      requires Valid()
      modifies this`next, this`consumed, this`pins, this`buffer, cache.Values, this`caches
      ensures Valid()
      ensures answer == (if q !in owned then NotHeld else if !running then NotRunning
                         else if target < minOffset || target > maxOffset then IllegalOffset else Sought)
      ensures View() == if answer == Sought then SeekTo(old(View()), q, target) else old(View())
      ensures old(CountsAllRounds() && Sorted(Offsets(RowsOf(q, buffer)))) ==> CountsAllRounds()
    {
      hide Valid, CountsAllRounds, Charged, RoundsOf, Sorted;
      if q !in owned { return NotHeld; }
      if !running { return NotRunning; }
      if target < minOffset || target > maxOffset { return IllegalOffset; }
      pins := pins[q := target];
      next := next[q := target];
      consumed := consumed[q := target];
      PruneOutdated(q, target);
      answer := Sought;
    }

    /** The locked half of a seek: the outdated rows leave the buffer and, one by one, their queue's accumulator. */
    method PruneOutdated(q: MessageQueue, target: nat)
      requires Valid()
      modifies this`buffer, cache.Values, this`caches
      ensures Valid() && View() == PruneBelow(old(View()), q, target)
      ensures old(CountsAllRounds() && Sorted(Offsets(RowsOf(q, buffer)))) ==> CountsAllRounds()
    {
      hide Faithful, AllCountRounds, Charged, RemoveRows, RoundsOf, Sorted, Pruned, Kept, Mirrored, RowsOf;
      var kept, pruned := Partition(q, target, buffer);
      SeekPruneKeeps(caches, buffer, q, target);
      buffer := kept;
      ForgetAll(pruned);
    }

    method ForgetAll(rows: seq<Message>)
      requires Mirrored()
      modifies cache.Values, this`caches
      ensures Mirrored() && caches == RemoveRows(old(caches), rows)
    {
      ghost var before := caches;
      hide Mirrored, RemoveRow;
      for i := 0 to |rows|
        invariant Mirrored() && caches == RemoveRows(before, rows[..i])
      {
        assert rows[..i + 1][..i] == rows[..i];
        Forget(rows[i]);
      }
      assert rows[..|rows|] == rows;
    }

    method DropStat(q: MessageQueue)
      requires Mirrored()
      modifies this`cache, this`caches
      ensures Mirrored() && cache == old(cache) - {q} && caches == old(caches) - {q}
    {
      cache, caches := cache - {q}, caches - {q};
    }

    /** Forgets a revoked queue: its accumulator, its paused flag and the rows it left behind. */
    method DropQueueCache(q: MessageQueue)
      requires Valid()
      modifies this`cache, this`caches, this`paused, this`buffer
      ensures Valid() && cache == old(cache) - {q}
      ensures paused == old(paused) - {q} && buffer == Without({q}, old(buffer))
      ensures RoundsOf(caches) == old(RoundsOf(caches)) - {q}
      ensures old(CountsAllRounds()) ==> CountsAllRounds()
    {
      hide Faithful, AllCountRounds, RoundsOf, Without, Mirrored;
      DropTells(caches, buffer, q);
      DropStat(q);
      paused := paused - {q};
      var kept := RowsWithout(q, buffer);
      buffer := kept;
    }

    /** Drops the whole per-queue state of every queue in `gone`, one queue at a time. */
    method ReleaseAll(gone: set<MessageQueue>)
      requires Valid()
      modifies this`next, this`consumed, this`pins, this`paused, this`buffer, this`cache, this`caches
      ensures Valid() && cache == old(cache) - gone && (old(CountsAllRounds()) ==> CountsAllRounds())
      ensures View() == Revoke(old(View()), gone)
    {
      hide Valid, View, Revoke, CountsAllRounds;
      var left := gone;
      RevokeNobody(View());
      assert gone - left == {} && cache - {} == cache;
      while left != {}
        invariant left <= gone
        invariant Valid() && cache == old(cache) - (gone - left) && (old(CountsAllRounds()) ==> CountsAllRounds())
        invariant View() == Revoke(old(View()), gone - left)
        decreases left
      {
        var q :| q in left;
        ReleaseOne(q);
        RevokeMore(old(View()), gone - left, {q});
        assert gone - left + {q} == gone - (left - {q});
        left := left - {q};
      }
      assert gone - left == gone;
    }

    method ReleaseOne(q: MessageQueue)
      requires Valid()
      modifies this`next, this`consumed, this`pins, this`paused, this`buffer, this`cache, this`caches
      ensures Valid() && cache == old(cache) - {q} && (old(CountsAllRounds()) ==> CountsAllRounds())
      ensures View() == Revoke(old(View()), {q})
    {
      hide Valid, CountsAllRounds, RoundsOf;
      next := next - {q};
      consumed := consumed - {q};
      pins := pins - {q};
      DropQueueCache(q);
    }

    /** Replaces the held queues; an empty list is refused. `starts` are the offsets that could be resolved. */
    method Assign(queues: seq<MessageQueue>, starts: map<MessageQueue, nat>) returns (ok: bool)
      requires Valid()
      modifies this`owned, this`next, this`consumed, this`pins, this`paused, this`buffer, this`cache, this`caches
      ensures Valid() && cache.Values <= old(cache.Values) && (old(CountsAllRounds()) ==> CountsAllRounds())
      ensures ok == (queues != [])
      ensures View() == if ok then AssignTo(old(View()), (set q | q in queues), starts) else old(View())
    {
      hide Valid, CountsAllRounds, RoundsOf, Without;
      if queues == [] { return false; }
      var wanted := set q | q in queues;
      ReleaseAll(owned - wanted);
      owned := wanted;
      next := Resolve(next, wanted, starts);
      ok := true;
    }

    /** Ends the subscription to a topic: its queues leave at once, with everything but their slots; nothing is sent. */
    method Unsubscribe(topic: string)
      requires Valid()
      modifies this`owned, this`next, this`consumed, this`pins, this`paused, this`buffer, this`cache, this`caches
      ensures Valid() && cache.Values <= old(cache.Values) && (old(CountsAllRounds()) ==> CountsAllRounds())
      ensures View() == UnsubscribeFrom(old(View()), topic)
    {
      hide Valid, CountsAllRounds, RoundsOf, Without;
      RevokeNobody(View());
      assert owned - {} == owned;
      if Blank(topic) { return; }
      var revoked := set q | q in owned && q.topic == topic;
      owned := owned - revoked;
      ReleaseAll(revoked);
    }

    /** One rebalance round: a released queue's slot is sent to the broker before everything it had is dropped. */
    method Rebalance(queues: set<MessageQueue>, starts: map<MessageQueue, nat>, store: OffsetStore,
                     reachable: set<MessageQueue>)
      requires Valid()
      modifies this`owned, this`next, this`consumed, this`pins, this`paused, this`buffer, this`cache, this`caches, this`table,
               store
      ensures Valid() && cache.Values <= old(cache.Values) && (old(CountsAllRounds()) ==> CountsAllRounds())
      ensures View() == RebalanceTo(old(View()), queues, starts)
      ensures store.offsets == BrokerAfterRebalance(old(View()), queues, reachable, old(store.offsets))
    {
      hide Valid, Without, Resolve, CountsAllRounds, RoundsOf;
      if queues == owned { return; }
      var gone := owned - queues;
      next := Resolve(next, queues - owned, starts);
      owned := queues;
      PersistSlots(gone, store, reachable);
      table := table - gone;
      ReleaseAll(gone);
    }

    /** Sends the slots of the queues in `gone`, one by one. */
    method PersistSlots(gone: set<MessageQueue>, store: OffsetStore, reachable: set<MessageQueue>)
      modifies store
      ensures store.offsets == old(store.offsets) + map q | q in table && q in gone && q in reachable :: table[q]
    {
      var left := gone;
      while left != {}
        invariant left <= gone
        invariant store.offsets == old(store.offsets)
                                   + map q | q in table && q in gone - left && q in reachable :: table[q]
        decreases left
      {
        var q :| q in left;
        PersistOne(q, store, reachable);
        left := left - {q};
      }
      assert gone - left == gone;
    }

    /** Sends one queue's slot to the broker; a missing slot sends nothing and a failure is swallowed. */
    method PersistOne(q: MessageQueue, store: OffsetStore, reachable: set<MessageQueue>)
      modifies store
      ensures store.offsets == if q in table && q in reachable then old(store.offsets)[q := table[q]]
                               else old(store.offsets)
    {
      if q !in table { return; }
      if q in reachable {
        store.offsets := store.offsets[q := table[q]];
      }
    }

    /** Commits in one of three scopes; only `persist` reaches the broker. */
    method Commit(scope: Scope, persist: bool, store: OffsetStore, reachable: set<MessageQueue>)
      modifies this`table, store
      ensures table == TableAfter(old(View()), scope, persist)
      ensures store.offsets == BrokerAfter(old(View()), scope, persist, reachable, old(store.offsets))
    {
      var named := Named(Lite(owned, next, consumed, table, pins, paused, buffer, map[]), scope);
      if scope.At? && scope.offsets == map[] {
        NamesNobody(View(), scope, persist);
        return;
      }
      if scope.Cursors? && scope.queues == [] {
        NamesNobody(View(), scope, persist);
        return;
      }
      WriteTable(scope, named);
      if persist {
        PersistTable(named, store, reachable);
      }
    }

    method WriteTable(scope: Scope, named: set<MessageQueue>)
      requires named == Named(View(), scope)
      modifies this`table
      ensures table == Written(old(View()), scope)
    {
      ghost var before := View();
      ghost var writes := map q | q in named && Writes(before, scope, q) :: Target(before, scope, q);
      var left := named;
      assert writes - left == map[];
      while left != {}
        modifies this`table
        invariant left <= named
        invariant table == before.table + (writes - left)
        decreases left
      {
        var q :| q in left;
        var offset := match scope
          case At(offsets) => offsets[q]
          case _ => if q in consumed then consumed[q] else -1;
        assert (q in writes <==> offset != -1 && q in owned) && (q in writes ==> writes[q] == offset);
        if offset != -1 && q in owned {
          table := table[q := offset];
        }
        WriteMore(before.table, writes, left, q);
        left := left - {q};
      }
      assert writes - left == writes;
    }

    /** Sweeps the slots of queues outside `wanted` and sends the others; nothing at all when `wanted` is empty. */
    method PersistTable(wanted: set<MessageQueue>, store: OffsetStore, reachable: set<MessageQueue>)
      modifies this`table, store
      ensures table == if wanted == {} then old(table) else map q | q in old(table) && q in wanted :: old(table)[q]
      ensures store.offsets == if wanted == {} then old(store.offsets)
                               else old(store.offsets) + map q | q in table && q in reachable :: table[q]
    {
      if wanted == {} { return; }
      table := map q | q in table && q in wanted :: table[q];
      var left := table.Keys;
      while left != {}
        modifies store
        invariant left <= table.Keys
        invariant store.offsets == old(store.offsets)
                                   + map q | q in table && q !in left && q in reachable :: table[q]
        decreases left
      {
        var q :| q in left;
        PersistOne(q, store, reachable);
        left := left - {q};
      }
    }

    /** Memory first, then the broker, whose answer is filled back into the table; a stopped consumer refuses rather
        than answer as if nobody had committed. */
    method Committed(q: MessageQueue, store: OffsetStore) returns (answer: CommittedAnswer)
      modifies this`table
      ensures answer == if !running then ReadRefused
                        else if q in old(table) then Read(Some(old(table)[q]))
                        else if q in store.offsets then Read(Some(store.offsets[q])) else Read(None)
      ensures View() == if answer.Read? then ReadBack(old(View()), store.offsets, q) else old(View())
    {
      if !running { return ReadRefused; }
      if q in table { return Read(Some(table[q])); }
      if q !in store.offsets { return Read(None); }
      table := table[q := store.offsets[q]];
      answer := Read(Some(store.offsets[q]));
    }

    /** The test of a pull answer: whether the cursor still is what the request was sent with. */
    method JudgeAnswer(q: MessageQueue, asked: nat) returns (intact: bool)
      ensures intact == Intact(View(), q, asked)
    {
      intact := q in next && next[q] == asked;
    }

    /** The cursor half of a pull answer; `intact` says whether the rows may still be enqueued. */
    method FollowAnswer(q: MessageQueue, asked: nat, r: PullResult) returns (intact: bool)
      modifies this`next
      ensures intact == Intact(old(View()), q, asked)
      ensures View() == Follow(old(View()), q, asked, r)
    {
      intact := JudgeAnswer(q, asked);
      if intact {
        next := next[q := r.next];
      }
    }

    /** The rounds still represented in the buffer, over every queue. */
    method PendingRounds() returns (n: nat)
      requires Mirrored()
      ensures n == TotalRounds(View().rounds)
    {
      n := 0;
      ghost var all := View().rounds;
      ghost var todo := all;
      assert all.Keys == cache.Keys && forall q | q in cache :: all[q] == cache[q].rounds;
      var left := cache.Keys;
      while left != {}
        invariant left <= cache.Keys && todo.Keys == left
        invariant forall q | q in left :: todo[q] == cache[q].rounds
        invariant n + TotalRounds(todo) == TotalRounds(all)
        decreases left
      {
        var q :| q in left;
        TotalRemove(todo, q);
        n := n + cache[q].PendingRounds();
        left, todo := left - {q}, todo - {q};
      }
      assert todo == map[];
    }

    /** The numbers the gates read, from the accumulator; they are what the buffer really holds. */
    method Figures(q: MessageQueue) returns (count: nat, bytes: nat, span: int)
      requires Valid()
      ensures var rows := RowsOf(q, buffer);
              count == |rows| && bytes == BodyBytes(rows) && span == SpanOf(rows)
    {
      if q !in cache { return 0, 0, 0; }
      assert Tells(cache[q].View(), RowsOf(q, buffer));
      count, bytes, span := cache[q].Count(), cache[q].size, cache[q].Span();
    }

    /** Judges the four gates from the accumulators; the verdict is the one recomputation from the buffer gives. */
    method JudgeQueue(q: MessageQueue) returns (verdict: Verdict)
      requires Valid()
      ensures verdict == Due(View(), limits, q)
    {
      if q !in owned { return Admitted; }
      var pending := PendingRounds();
      var count, bytes, span := Figures(q);
      hide RoundsOf, TotalRounds, SpanOf, RowsOf, BodyBytes, Valid;
      if pending * limits.batch > limits.all { return OverAll; }
      if count > limits.count { return OverCount; }
      if bytes / MIB > limits.sizeMib { return OverSize; }
      if span > limits.span { return OverSpan; }
      verdict := Admitted;
    }

    /** The gate reopens: once everything is polled no round is pending, and a queue is admitted exactly when it is no
        longer held or no limit is negative. */
    lemma DrainedConsumerAdmitsIff(q: MessageQueue)
      requires Valid() && buffer == []
      ensures TotalRounds(View().rounds) == 0
      ensures Due(View(), limits, q) == Admitted <==>
                q in owned ==> limits.all >= 0 && limits.count >= 0 && limits.sizeMib >= 0 && limits.span >= 0
    {
      EmptyBufferHasNoRounds(caches);
      EmptyIsAdmittedIff(View(), limits, q);
    }

    /** One judged round: a refusal counts one trip of its gate family and changes nothing else. */
    method CacheFlowControlHit(q: MessageQueue) returns (hit: bool, verdict: Verdict)
      requires Valid()
      modifies this`allTrips, this`queueTrips, this`spanTrips
      ensures verdict == old(Due(View(), limits, q))
      ensures hit == (verdict != Admitted)
      ensures allTrips == old(allTrips) + (if verdict == OverAll then 1 else 0)
      ensures queueTrips == old(queueTrips) + (if verdict == OverCount || verdict == OverSize then 1 else 0)
      ensures spanTrips == old(spanTrips) + (if verdict == OverSpan then 1 else 0)
    {
      verdict := JudgeQueue(q);
      hit := verdict != Admitted;
      match verdict
      case Admitted =>
      case OverAll => allTrips := allTrips + 1;
      case OverCount => queueTrips := queueTrips + 1;
      case OverSize => queueTrips := queueTrips + 1;
      case OverSpan => spanTrips := spanTrips + 1;
    }
  }

  /** In the middle of an append every accumulator still has its boundaries. */
  lemma BoundedWhileAdding(cs: Caches, buffer: seq<Message>, rows: seq<Message>, q: MessageQueue)
    requires Faithful(cs, buffer)
    ensures Bounded(CachedAt(AddRows(cs, rows), q))
  {
    EmptyTells();
    assert Bounded(CachedAt(cs, q));
    AddRowsPerQueue(cs, rows, q);
    WithRowsAdds(CachedAt(cs, q), RowsOf(q, rows));
  }

  lemma CutAtTheCap(all: seq<Message>, out: seq<Message>, rest: seq<Message>)
    requires out + rest == all && |out| <= POLL_CAP && (rest == [] || |out| == POLL_CAP)
    ensures out == (if |all| <= POLL_CAP then all else all[..POLL_CAP]) && rest == all[|out|..]
  {
  }

  lemma NothingAdded(cs: Caches)
    ensures AddRows(cs, []) == cs && Tally([]) == map[]
  {
  }

  lemma OneMoreAdded(cs: Caches, rows: seq<Message>, i: nat)
    requires i < |rows|
    ensures var m, before, t := rows[i], AddRows(cs, rows[..i]), Tally(rows[..i]);
            && AddRows(cs, rows[..i + 1])
               == before[m.queue := CachedAt(before, m.queue)][m.queue := WithRow(CachedAt(before, m.queue), m)]
            && Tally(rows[..i + 1]) == t[m.queue := CountOf(t, m.queue) + 1]
  {
    assert rows[..i + 1][..i] == rows[..i];
    hide WithRow;
  }

  lemma TalliedAreAdded(cs: Caches, rows: seq<Message>)
    ensures Tally(rows).Keys <= AddRows(cs, rows).Keys
  {
    forall q | q in Tally(rows) ensures q in AddRows(cs, rows) {
      TallyPerQueue(rows, q);
      AddRowsPerQueue(cs, rows, q);
    }
  }

  lemma CloseMore(cs: Caches, arrived: map<MessageQueue, nat>, left: set<MessageQueue>, key: MessageQueue)
    requires key in left && left <= arrived.Keys && key in cs
    ensures key in CloseRounds(cs, arrived - left)
    ensures CloseRounds(cs, arrived - (left - {key}))
            == CloseRounds(cs, arrived - left)[key := WithRound(CloseRounds(cs, arrived - left)[key], arrived[key])]
  {
    hide WithRound;
  }

  /** A dropped queue takes its rows and its accumulator with it; the others are untouched. */
  lemma DropTells(cs: Caches, buffer: seq<Message>, q: MessageQueue)
    requires Faithful(cs, buffer)
    ensures Faithful(cs - {q}, Without({q}, buffer)) && RoundsOf(cs - {q}) == RoundsOf(cs) - {q}
    ensures AllCountRounds(cs) ==> AllCountRounds(cs - {q})
  {
    hide Tells, RowsOf, CountsRounds;
    forall p ensures RowsOf(p, Without({q}, buffer)) == if p == q then [] else RowsOf(p, buffer) {
      WithoutRows({q}, buffer, p);
    }
  }

  lemma NamesNobody(s: Lite, scope: Scope, persist: bool)
    requires Named(s, scope) == {}
    ensures TableAfter(s, scope, persist) == s.table
  {
    assert Written(s, scope) == s.table;
  }

  lemma WriteMore(t: map<MessageQueue, int>, writes: map<MessageQueue, int>, left: set<MessageQueue>, q: MessageQueue)
    requires q in left
    ensures t + (writes - (left - {q})) ==
            if q in writes then (t + (writes - left))[q := writes[q]] else t + (writes - left)
  {
  }
}
