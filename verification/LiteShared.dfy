/** The whole lite-pull consumer: all queues, the tables they share and the one buffer. Every run of it is, queue by
    queue, a run of the machine of one queue. */
module LiteShared {
  import opened Messages
  import opened LiteQueueCache
  import opened LiteSpec
  import opened LiteSteps
  import opened LiteRuns
  import opened LiteFailures

  /** Where the threads stand with one queue. */
  datatype Local = Local(pulling: Pulling, seeking: Seeking, leaving: Leaving, starting: Option<Start>,
                         committing: Option<nat>, reading: Option<int>, h: History)

  /** A poll takes rows of all queues out of the buffer, then looks up which queues are known, then writes their
      cursors. */
  datatype Polls = Nobody | Took(out: seq<Message>) | Knows(moves: map<MessageQueue, nat>)

  datatype World = World(lite: Lite, broker: map<MessageQueue, int>, polls: Polls, locals: map<MessageQueue, Local>)

  type Matches = MessageQueue -> (nat -> bool)

  function Get<T>(m: map<MessageQueue, T>, q: MessageQueue): Option<T> {
    if q in m then Some(m[q]) else None
  }

  function ViewOf(s: Lite, q: MessageQueue): QueueView {
    QueueView(q in s.owned, Get(s.next, q), Get(s.consumed, q), Get(s.table, q), Offsets(RowsOf(q, s.buffer)),
              RoundsAt(s.rounds, q))
  }

  function PollingOf(p: Polls, q: MessageQueue): Polling {
    match p
    case Nobody => NotPolling
    case Took(out) => Taken(Offsets(RowsOf(q, out)))
    case Knows(moves) => Looked(Get(moves, q))
  }

  function Project(s: World, q: MessageQueue): Q
    requires q in s.locals
  {
    var l := s.locals[q];
    Q(ViewOf(s.lite, q), Get(s.broker, q), l.pulling, PollingOf(s.polls, q), l.seeking, l.leaving, l.starting,
      l.committing, l.reading, l.h)
  }

  function LocalOf(s: Q): Local {
    Local(s.pulling, s.seeking, s.leaving, s.starting, s.committing, s.reading, s.h)
  }

  /** Nobody holds any of the queues yet; the broker may have committed offsets for them. */
  function Unassigned(queues: set<MessageQueue>, broker: map<MessageQueue, nat>): World {
    World(Lite({}, map[], map[], map[], map[], {}, [], map[]), broker, Nobody,
          map q | q in queues :: LocalOf(Begin(Get(broker, q))))
  }

  // ---- the steps ----

  /** A step that concerns one queue, an answer worked into the buffer, the three parts of a poll, or a crash. */
  datatype Deed =
    | On(q: MessageQueue, e: Event)
    | Enqueue(q: MessageQueue, rows: seq<Message>)
    | TakeRows(n: nat)
    | LookUpAll
    | MoveAll
    | CrashAll

  /** The steps that touch nothing but the entries of one queue. */
  predicate OfOneQueue(e: Event) {
    !(e.Take? || e.LookUp? || e.Move? || e.Arrive? || e.Crash?)
  }

  predicate Can(s: World, d: Deed) {
    match d
    case On(q, e) => q in s.locals && OfOneQueue(e) && Possible(Project(s, q), e)
    case Enqueue(q, rows) =>
      && q in s.locals && s.locals[q].pulling == Carrying(Offsets(rows)) && forall m | m in rows :: m.queue == q
    case TakeRows(n) => s.polls.Nobody? && n <= |s.lite.buffer| && n <= POLL_CAP
    case LookUpAll => s.polls.Took?
    case MoveAll => s.polls.Knows?
    case CrashAll => true
  }

  function DropTables(s: Lite, q: MessageQueue, leaving: Leaving): Lite
    requires leaving.Letting?
  {
    var without := s.(buffer := Without({q}, s.buffer), rounds := s.rounds - {q}, paused := s.paused - {q});
    match leaving.who
    case Assignment =>
      if leaving.done <= 1 then s.(consumed := s.consumed - {q}, pins := s.pins - {q})
      else if leaving.done == 2 then without
      else s.(owned := s.owned - {q})
    case Unsubscription =>
      if leaving.done <= 1 then s.(next := s.next - {q})
      else if leaving.done == 2 then s.(consumed := s.consumed - {q}, pins := s.pins - {q})
      else without
    case Rebalance =>
      if leaving.done <= 1 then s
      else if leaving.done == 2 then s.(next := s.next - {q})
      else if leaving.done == 3 then s.(consumed := s.consumed - {q})
      else if leaving.done == 4 then s.(table := s.table - {q}, pins := s.pins - {q})
      else without
  }

  /** What the step writes into the shared tables. */
  function TablesAfter(s: World, q: MessageQueue, e: Event): Lite
    requires Can(s, On(q, e))
  {
    var t, l := s.lite, s.locals[q];
    match e
    case OpenWrite => t.(next := t.next[q := l.pulling.start.at])
    case StartWrite => t.(next := t.next[q := l.starting.value.at])
    case Write => t.(next := t.next[q := l.pulling.next])
    case SeekPull => t.(next := t.next[q := l.seeking.target], pins := t.pins[q := l.seeking.target])
    case SeekCursor => t.(consumed := t.consumed[q := l.seeking.target])
    case SeekPrune => PruneBelow(t, q, l.seeking.target)
    case CommitWrite(kept) => if kept && l.committing.Some? then t.(table := t.table[q := l.committing.value]) else t
    case CommitAt(value, kept) => if kept then t.(table := t.table[q := value]) else t
    case Sweep => t.(table := t.table - {q})
    case Fill => if l.reading.Some? then t.(table := t.table[q := l.reading.value]) else t
    case Leave(who) => if who.Assignment? then t.(next := t.next - {q}) else t.(owned := t.owned - {q})
    case Drop(_) => DropTables(t, q, l.leaving)
    case Hold => t.(owned := t.owned + {q})
    case _ => t
  }

  /** What the step tells the broker. */
  function StoreAfter(s: World, q: MessageQueue, e: Event): map<MessageQueue, int>
    requires Can(s, On(q, e))
  {
    var sends := match e
      case Persist(reached) => reached
      case Drop(reached) => reached && s.locals[q].leaving.who.Rebalance? && s.locals[q].leaving.done <= 1
      case _ => false;
    if sends && q in s.lite.table then s.broker[q := s.lite.table[q]] else s.broker
  }

  /** The part of a poll under the buffer's lock. */
  function TakeTables(s: Lite, n: nat): Lite
    requires n <= |s.buffer|
  {
    s.(buffer := s.buffer[n..], rounds := Charged(s.rounds, s.buffer[..n], s.buffer[n..]))
  }

  function Does(w: Matches, s: World, d: Deed): World
    requires Can(s, d)
  {
    match d
    case On(q, e) =>
      World(TablesAfter(s, q, e), StoreAfter(s, q, e), s.polls,
            s.locals[q := LocalOf(Step(w(q), Project(s, q), e))])
    case Enqueue(q, rows) =>
      s.(lite := Append(s.lite, rows), locals := s.locals[q := LocalOf(OnArrive(Project(s, q)))])
    case TakeRows(n) =>
      World(TakeTables(s.lite, n), s.broker, Took(s.lite.buffer[..n]),
            map p | p in s.locals :: LocalOf(OnTake(Project(s, p), Share(s.lite, n, p))))
    case LookUpAll => s.(polls := Knows(Advanced(s.lite.next.Keys, s.polls.out)))
    case MoveAll => s.(lite := s.lite.(consumed := s.lite.consumed + s.polls.moves), polls := Nobody)
    case CrashAll =>
      World(Lite({}, map[], map[], map[], map[], {}, [], map[]), s.broker, Nobody,
            map p | p in s.locals :: LocalOf(Step(w(p), Project(s, p), Crash)))
  }

  /** How many rows of the queue are among the first `n` of the buffer. */
  function Share(s: Lite, n: nat, q: MessageQueue): (k: nat)
    requires n <= |s.buffer|
    ensures k <= |ViewOf(s, q).rows|
  {
    assert s.buffer == s.buffer[..n] + s.buffer[n..];
    RowsOfConcat(q, s.buffer[..n], s.buffer[n..]);
    |RowsOf(q, s.buffer[..n])|
  }

  /** The step of the queue that the deed is, if it is one. */
  function EventFor(s: World, d: Deed, p: MessageQueue): Option<Event>
    requires Can(s, d)
  {
    match d
    case On(q, e) => if p == q then Some(e) else None
    case Enqueue(q, _) => if p == q then Some(Arrive) else None
    case TakeRows(n) => Some(Take(Share(s.lite, n, p)))
    case LookUpAll => Some(LookUp)
    case MoveAll => Some(Move)
    case CrashAll => Some(Crash)
  }

  /** The queue takes the step, or none. */
  ghost predicate Follows(w: nat -> bool, s: Q, e: Option<Event>, t: Q) {
    if e.None? then t == s else Possible(s, e.value) && t == Step(w, s, e.value)
  }

  // ---- every step is a step of each queue, or none ----

  lemma NoChargeLeft(n: nat)
    ensures ChargeTimes([], n) == []
    decreases n
  {
    if n > 0 { NoChargeLeft(n - 1); }
  }

  lemma {:induction false} PrunedIsDropped(q: MessageQueue, target: nat, mine: seq<Message>)
    requires forall m | m in mine :: m.queue == q
    ensures |Pruned(q, target, mine)| == |Dropped(Offsets(mine), target)|
  {
    if mine != [] {
      assert Offsets(mine)[1..] == Offsets(mine[1..]);
      PrunedIsDropped(q, target, mine[1..]);
    }
  }

  lemma ChargedAt(rounds: map<MessageQueue, seq<nat>>, gone: seq<Message>, left: seq<Message>, p: MessageQueue)
    ensures RoundsAt(Charged(rounds, gone, left), p)
            == ChargeAll(RoundsAt(rounds, p), |RowsOf(p, gone)|, RowsOf(p, left) == [])
  {
    NoChargeLeft(|RowsOf(p, gone)|);
  }

  lemma PruneProjects(s: Lite, q: MessageQueue, target: nat, p: MessageQueue)
    ensures ViewOf(PruneBelow(s, q, target), p) == if p != q then ViewOf(s, p) else
              Shrunk(ViewOf(s, p), Dropped(ViewOf(s, p).rows, target), Prune(ViewOf(s, p).rows, target))
  {
    var gone, left, mine := Pruned(q, target, s.buffer), Kept(q, target, s.buffer), RowsOf(q, s.buffer);
    KeptRows(q, target, s.buffer, p);
    KeptSplits(q, target, s.buffer, p);
    RowsOfBelong(q, s.buffer);
    PrunedIsDropped(q, target, mine);
    ChargedAt(s.rounds, gone, left, p);
    hide RowsOf, Pruned, Kept, Prune, Dropped, Charged, ChargeTimes;
    assert Offsets(RowsOf(p, left)) == [] <==> RowsOf(p, left) == [];
  }

  lemma TakeProjects(s: Lite, n: nat, p: MessageQueue)
    requires n <= |s.buffer|
    ensures var v, k := ViewOf(s, p), Share(s, n, p);
            && Offsets(RowsOf(p, s.buffer[..n])) == v.rows[..k]
            && ViewOf(TakeTables(s, n), p) == Shrunk(v, v.rows[..k], v.rows[k..])
  {
    var gone, left := s.buffer[..n], s.buffer[n..];
    assert s.buffer == gone + left;
    RowsOfConcat(p, gone, left);
    OffsetsConcat(RowsOf(p, gone), RowsOf(p, left));
    ChargedAt(s.rounds, gone, left, p);
    hide RowsOf, Charged, ChargeTimes;
    var v, k := ViewOf(s, p), Share(s, n, p);
    assert v.rows[..k] == Offsets(RowsOf(p, gone)) && v.rows[k..] == Offsets(RowsOf(p, left));
  }

  lemma WithoutProjects(s: Lite, q: MessageQueue, p: MessageQueue)
    ensures ViewOf(s.(buffer := Without({q}, s.buffer), rounds := s.rounds - {q}, paused := s.paused - {q}), p)
            == if p == q then ViewOf(s, p).(rows := [], rounds := []) else ViewOf(s, p)
  {
    WithoutRows({q}, s.buffer, p);
  }

  lemma AppendProjects(s: Lite, rows: seq<Message>, q: MessageQueue, p: MessageQueue)
    requires forall m | m in rows :: m.queue == q
    ensures var v := ViewOf(s, p);
            ViewOf(Append(s, rows), p) ==
              if p != q || rows == [] then v else v.(rows := v.rows + Offsets(rows), rounds := v.rounds + [|rows|])
  {
    RowsOfConcat(p, s.buffer, rows);
    RowsOfOwn(q, p, rows);
    OffsetsConcat(RowsOf(p, s.buffer), RowsOf(p, rows));
    EnrolledAt(s.rounds, rows, p);
    hide RowsOf, Enrolled;
    var v := ViewOf(s, p);
    assert Offsets([]) == [] && v.rows + [] == v.rows && v.rounds + [] == v.rounds;
  }

  lemma EnrolledAt(rounds: map<MessageQueue, seq<nat>>, rows: seq<Message>, p: MessageQueue)
    ensures RoundsAt(Enrolled(rounds, rows), p)
            == RoundsAt(rounds, p) + (if RowsOf(p, rows) == [] then [] else [|RowsOf(p, rows)|])
  {
    BringsIff(rows, p);
  }

  lemma PutNext(s: Lite, q: MessageQueue, value: nat, p: MessageQueue)
    ensures ViewOf(s.(next := s.next[q := value]), p) == if p == q then ViewOf(s, p).(pull := Some(value)) else ViewOf(s, p)
  {
  }

  lemma PutPin(s: Lite, q: MessageQueue, value: nat, p: MessageQueue)
    ensures ViewOf(s.(pins := s.pins[q := value]), p) == ViewOf(s, p)
  {
  }

  lemma PutConsumed(s: Lite, q: MessageQueue, value: nat, p: MessageQueue)
    ensures ViewOf(s.(consumed := s.consumed[q := value]), p)
            == if p == q then ViewOf(s, p).(consumed := Some(value)) else ViewOf(s, p)
  {
  }

  lemma PutSlot(s: Lite, q: MessageQueue, value: int, p: MessageQueue)
    ensures ViewOf(s.(table := s.table[q := value]), p) == if p == q then ViewOf(s, p).(slot := Some(value)) else ViewOf(s, p)
  {
  }

  lemma CutEntries(s: Lite, q: MessageQueue, p: MessageQueue)
    ensures ViewOf(s.(next := s.next - {q}), p) == if p == q then ViewOf(s, p).(pull := None) else ViewOf(s, p)
    ensures ViewOf(s.(consumed := s.consumed - {q}), p) == if p == q then ViewOf(s, p).(consumed := None) else ViewOf(s, p)
    ensures ViewOf(s.(consumed := s.consumed - {q}, pins := s.pins - {q}), p)
            == if p == q then ViewOf(s, p).(consumed := None) else ViewOf(s, p)
    ensures ViewOf(s.(table := s.table - {q}), p) == if p == q then ViewOf(s, p).(slot := None) else ViewOf(s, p)
    ensures ViewOf(s.(table := s.table - {q}, pins := s.pins - {q}), p)
            == if p == q then ViewOf(s, p).(slot := None) else ViewOf(s, p)
  {
  }

  lemma PutOwned(s: Lite, q: MessageQueue, p: MessageQueue)
    ensures ViewOf(s.(owned := s.owned + {q}), p) == if p == q then ViewOf(s, p).(held := true) else ViewOf(s, p)
    ensures ViewOf(s.(owned := s.owned - {q}), p) == if p == q then ViewOf(s, p).(held := false) else ViewOf(s, p)
  {
  }

  /** The entries of the queue once it has taken one more step towards giving it up. */
  function DroppedView(v: QueueView, leaving: Leaving): QueueView
    requires leaving.Letting?
  {
    match leaving.who
    case Assignment =>
      if leaving.done <= 1 then v.(consumed := None)
      else if leaving.done == 2 then v.(rows := [], rounds := []) else v.(held := false)
    case Unsubscription =>
      if leaving.done <= 1 then v.(pull := None)
      else if leaving.done == 2 then v.(consumed := None) else v.(rows := [], rounds := [])
    case Rebalance =>
      if leaving.done <= 1 then v
      else if leaving.done == 2 then v.(pull := None)
      else if leaving.done == 3 then v.(consumed := None)
      else if leaving.done == 4 then v.(slot := None) else v.(rows := [], rounds := [])
  }

  lemma SharedDrops(s: Lite, q: MessageQueue, leaving: Leaving, p: MessageQueue)
    requires leaving.Letting?
    ensures ViewOf(DropTables(s, q, leaving), p) == if p == q then DroppedView(ViewOf(s, p), leaving) else ViewOf(s, p)
  {
    WithoutProjects(s, q, p);
    CutEntries(s, q, p);
    PutOwned(s, q, p);
    hide ViewOf;
  }

  /** What a step of a queue does to its own entries in the tables. */
  function ViewAfter(s: Q, e: Event): QueueView
    requires Possible(s, e)
  {
    var v := s.view;
    match e
    case OpenWrite => v.(pull := Some(s.pulling.start.at))
    case StartWrite => v.(pull := Some(s.starting.value.at))
    case Write => v.(pull := Some(s.pulling.next))
    case SeekPull => v.(pull := Some(s.seeking.target))
    case SeekCursor => v.(consumed := Some(s.seeking.target))
    case SeekPrune => Shrunk(v, Dropped(v.rows, s.seeking.target), Prune(v.rows, s.seeking.target))
    case CommitWrite(kept) => if kept && s.committing.Some? then v.(slot := Some(s.committing.value)) else v
    case CommitAt(value, kept) => if kept then v.(slot := Some(value)) else v
    case Sweep => v.(slot := None)
    case Fill => if s.reading.Some? then v.(slot := s.reading) else v
    case Leave(who) => if who.Assignment? then v.(pull := None) else v.(held := false)
    case Drop(_) => DroppedView(v, s.leaving)
    case Hold => v.(held := true)
    case _ => v
  }

  lemma StepView(w: nat -> bool, s: Q, e: Event)
    requires Possible(s, e) && OfOneQueue(e)
    ensures Step(w, s, e).view == ViewAfter(s, e) && Step(w, s, e).polling == s.polling
  {
    hide Live, MaxOf, Greatest, Undelivered, RemoveEachFromGroups, Prune, Dropped, ChargeAll;
  }

  lemma TablesView(s: World, q: MessageQueue, e: Event, p: MessageQueue)
    requires Can(s, On(q, e))
    ensures ViewOf(TablesAfter(s, q, e), p) == if p == q then ViewAfter(Project(s, q), e) else ViewOf(s.lite, p)
  {
    var t, l := s.lite, s.locals[q];
    hide ViewOf, PruneBelow, DropTables, DroppedView, Shrunk, Prune, Dropped;
    match e
    case OpenWrite => PutNext(t, q, l.pulling.start.at, p);
    case StartWrite => PutNext(t, q, l.starting.value.at, p);
    case Write => PutNext(t, q, l.pulling.next, p);
    case SeekPull =>
      PutNext(t, q, l.seeking.target, p);
      PutPin(t.(next := t.next[q := l.seeking.target]), q, l.seeking.target, p);
    case SeekCursor => PutConsumed(t, q, l.seeking.target, p);
    case SeekPrune => PruneProjects(t, q, l.seeking.target, p);
    case CommitWrite(kept) => if l.committing.Some? { PutSlot(t, q, l.committing.value, p); }
    case CommitAt(value, _) => PutSlot(t, q, value, p);
    case Sweep => CutEntries(t, q, p);
    case Fill => if l.reading.Some? { PutSlot(t, q, l.reading.value, p); }
    case Leave(_) =>
      CutEntries(t, q, p);
      PutOwned(t, q, p);
    case Drop(_) => SharedDrops(t, q, l.leaving, p);
    case Hold => PutOwned(t, q, p);
    case _ =>
  }

  lemma BrokerView(w: Matches, s: World, q: MessageQueue, e: Event, p: MessageQueue)
    requires Can(s, On(q, e))
    ensures Get(StoreAfter(s, q, e), p) == if p == q then Step(w(q), Project(s, q), e).broker else Get(s.broker, p)
  {
    hide Live, MaxOf, Greatest, Undelivered, RemoveEachFromGroups, Prune, Dropped, ChargeAll, RowsOf, Offsets;
  }

  lemma OneQueueProjects(w: Matches, s: World, q: MessageQueue, e: Event, p: MessageQueue)
    requires Can(s, On(q, e)) && p in s.locals
    ensures Follows(w(p), Project(s, p), EventFor(s, On(q, e), p), Project(Does(w, s, On(q, e)), p))
  {
    hide ViewOf, TablesAfter, StoreAfter, Step, Possible, ViewAfter;
    TablesView(s, q, e, p);
    BrokerView(w, s, q, e, p);
    StepView(w(q), Project(s, q), e);
  }

  lemma EnqueueProjects(w: Matches, s: World, q: MessageQueue, rows: seq<Message>, p: MessageQueue)
    requires Can(s, Enqueue(q, rows)) && p in s.locals
    ensures Follows(w(p), Project(s, p), EventFor(s, Enqueue(q, rows), p), Project(Does(w, s, Enqueue(q, rows)), p))
  {
    AppendProjects(s.lite, rows, q, p);
    assert |Offsets(rows)| == |rows|;
    assert p == q ==> Possible(Project(s, p), Arrive) && Step(w(p), Project(s, p), Arrive) == OnArrive(Project(s, p));
    hide ViewOf, Append, Step, Possible;
  }

  lemma TakeRowsProjects(w: Matches, s: World, n: nat, p: MessageQueue)
    requires Can(s, TakeRows(n)) && p in s.locals
    ensures Follows(w(p), Project(s, p), EventFor(s, TakeRows(n), p), Project(Does(w, s, TakeRows(n)), p))
  {
    var k := Share(s.lite, n, p);
    TakeProjects(s.lite, n, p);
    hide ViewOf, TakeTables, Share, RemoveEachFromGroups, Shrunk, RowsOf, Offsets, ChargeAll;
    var u := Project(s, p);
    assert Step(w(p), u, Take(k)) == OnTake(u, k);
  }

  lemma GreatestIsUnique(a: nat, b: nat, s: seq<nat>)
    requires Greatest(a, s) && Greatest(b, s)
    ensures a == b
  {
  }

  lemma LookUpProjects(w: Matches, s: World, p: MessageQueue)
    requires Can(s, LookUpAll) && p in s.locals
    ensures Follows(w(p), Project(s, p), EventFor(s, LookUpAll, p), Project(Does(w, s, LookUpAll), p))
  {
    var out := s.polls.out;
    var moves, mine := Advanced(s.lite.next.Keys, out), RowsOf(p, out);
    AdvancedMeaning(s.lite.next.Keys, out, p);
    assert |Offsets(mine)| == |mine|;
    hide Advanced, RowsOf;
    if p in s.lite.next && mine != [] {
      GreatestIsUnique(moves[p] - 1, MaxOf(Offsets(mine)), Offsets(mine));
    }
    hide Greatest, MaxOf;
  }

  lemma MoveProjects(w: Matches, s: World, p: MessageQueue)
    requires Can(s, MoveAll) && p in s.locals
    ensures Follows(w(p), Project(s, p), EventFor(s, MoveAll, p), Project(Does(w, s, MoveAll), p))
  {
    hide RowsOf, Offsets;
  }

  lemma CrashStep(w: nat -> bool, s: Q)
    ensures Possible(s, Crash)
    ensures Step(w, s, Crash) == Begin(None).(broker := s.broker, h := s.h.(on := false, groups := []))
  {
  }

  lemma CrashProjects(w: Matches, s: World, p: MessageQueue)
    requires p in s.locals
    ensures Follows(w(p), Project(s, p), EventFor(s, CrashAll, p), Project(Does(w, s, CrashAll), p))
  {
    hide Step, Possible;
    CrashStep(w(p), Project(s, p));
  }

  /** Whatever happens in the consumer is, for each queue, one step of that queue or none. */
  lemma DeedProjects(w: Matches, s: World, d: Deed, p: MessageQueue)
    requires Can(s, d) && p in s.locals
    ensures p in Does(w, s, d).locals
    ensures Follows(w(p), Project(s, p), EventFor(s, d, p), Project(Does(w, s, d), p))
  {
    hide Follows, Project, EventFor;
    match d
    case On(q, e) => OneQueueProjects(w, s, q, e, p);
    case Enqueue(q, rows) => EnqueueProjects(w, s, q, rows, p);
    case TakeRows(n) => TakeRowsProjects(w, s, n, p);
    case LookUpAll => LookUpProjects(w, s, p);
    case MoveAll => MoveProjects(w, s, p);
    case CrashAll => CrashProjects(w, s, p);
  }

  // ---- runs ----

  ghost predicate Happens(w: Matches, s: World, ds: seq<Deed>)
    decreases |ds|
  {
    ds == [] || (Can(s, ds[0]) && Happens(w, Does(w, s, ds[0]), ds[1..]))
  }

  ghost function Outcome(w: Matches, s: World, ds: seq<Deed>): World
    requires Happens(w, s, ds)
    decreases |ds|
  {
    if ds == [] then s else Outcome(w, Does(w, s, ds[0]), ds[1..])
  }

  /** The steps of one queue in a run of the consumer. */
  ghost function EventsFor(w: Matches, s: World, ds: seq<Deed>, p: MessageQueue): seq<Event>
    requires Happens(w, s, ds)
    decreases |ds|
  {
    if ds == [] then []
    else
      var e := EventFor(s, ds[0], p);
      (if e.Some? then [e.value] else []) + EventsFor(w, Does(w, s, ds[0]), ds[1..], p)
  }

  /** Every run of the consumer is, for each queue, a run of the machine of one queue. */
  lemma {:induction false} RunProjects(w: Matches, s: World, ds: seq<Deed>, p: MessageQueue)
    requires Happens(w, s, ds) && p in s.locals
    ensures p in Outcome(w, s, ds).locals
    ensures Moves(w(p), Project(s, p), EventsFor(w, s, ds, p))
    ensures Moved(w(p), Project(s, p), EventsFor(w, s, ds, p)) == Project(Outcome(w, s, ds), p)
    decreases |ds|
  {
    hide Can, Does, Project, Possible, Step, EventFor;
    if ds != [] {
      DeedProjects(w, s, ds[0], p);
      RunProjects(w, Does(w, s, ds[0]), ds[1..], p);
      var e, rest := EventFor(s, ds[0], p), EventsFor(w, Does(w, s, ds[0]), ds[1..], p);
      if e.Some? { assert ([e.value] + rest)[1..] == rest; } else { assert [] + rest == rest; }
    }
  }

  // ---- runs of clean steps ----

  ghost predicate CleanDeed(w: Matches, s: World, d: Deed)
    requires Can(s, d)
  {
    forall p | p in s.locals && EventFor(s, d, p).Some? :: Clean(w(p), Project(s, p), EventFor(s, d, p).value)
  }

  ghost predicate CleanRun(w: Matches, s: World, ds: seq<Deed>)
    requires Happens(w, s, ds)
    decreases |ds|
  {
    ds == [] || (CleanDeed(w, s, ds[0]) && CleanRun(w, Does(w, s, ds[0]), ds[1..]))
  }

  lemma {:induction false} CleanRunProjects(w: Matches, s: World, ds: seq<Deed>, p: MessageQueue)
    requires Happens(w, s, ds) && CleanRun(w, s, ds) && p in s.locals
    ensures p in Outcome(w, s, ds).locals
    ensures Runs(w(p), Project(s, p), EventsFor(w, s, ds, p))
    ensures After(w(p), Project(s, p), EventsFor(w, s, ds, p)) == Project(Outcome(w, s, ds), p)
    decreases |ds|
  {
    hide Can, Does, Project, Possible, Step, EventFor, Clean;
    if ds != [] {
      DeedProjects(w, s, ds[0], p);
      CleanRunProjects(w, Does(w, s, ds[0]), ds[1..], p);
      var e, rest := EventFor(s, ds[0], p), EventsFor(w, Does(w, s, ds[0]), ds[1..], p);
      if e.Some? { assert ([e.value] + rest)[1..] == rest; } else { assert [] + rest == rest; }
    }
  }

  /** From the start, after any run of clean steps of any threads on any number of queues: every queue is as
      promised. */
  lemma EveryQueueDeliversExactlyOnce(w: Matches, queues: set<MessageQueue>, broker: map<MessageQueue, nat>,
                                      ds: seq<Deed>, p: MessageQueue)
    requires p in queues && Happens(w, Unassigned(queues, broker), ds) && CleanRun(w, Unassigned(queues, broker), ds)
    ensures p in Outcome(w, Unassigned(queues, broker), ds).locals
    ensures var s := Project(Outcome(w, Unassigned(queues, broker), ds), p);
            Fine(w(p), s) && (s.h.on ==> Ascending(s.h.delivered + Staying(s) + Incoming(s)))
  {
    var start := Unassigned(queues, broker);
    assert Project(start, p) == Begin(Get(broker, p));
    CleanRunProjects(w, start, ds, p);
    hide Happens, CleanRun, Outcome, Project, Fine, Ascending;
    EveryRunDeliversExactlyOnce(w(p), Get(broker, p), EventsFor(w, start, ds, p));
  }
}
