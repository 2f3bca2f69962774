/** One queue of the lite-pull consumer, access by access. The tables of the consumer are plain dictionaries and only
    the buffer has a lock, so a step is one access to one table, or one section under the buffer's lock. The pull
    thread, a polling, a seeking, a committing and an asking thread, and those that take queues over and give them up
    may each be anywhere inside their work. */
module LiteSteps {
  import opened Messages
  import opened LiteQueueCache

  // ---- the offsets a queue has to deliver ----

  /** The offsets of [lo, hi) whose message matches the subscription and still exists. */
  function Live(w: nat -> bool, gone: set<nat>, lo: nat, hi: nat): seq<nat> {
    if hi <= lo then []
    else Live(w, gone, lo, hi - 1) + if w(hi - 1) && hi - 1 !in gone then [hi - 1] else []
  }

  function Between(lo: nat, hi: nat): (r: set<nat>)
    ensures forall o :: o in r <==> lo <= o < hi
  {
    if hi <= lo then {} else Between(lo, hi - 1) + {hi - 1}
  }

  predicate Ascending(s: seq<nat>) {
    forall i, j | 0 <= i < j < |s| :: s[i] < s[j]
  }

  /** No offset to deliver lies between the two. */
  predicate Dead(w: nat -> bool, gone: set<nat>, a: nat, b: nat) {
    Live(w, gone, a, b) == [] && Live(w, gone, b, a) == []
  }

  // ---- state ----

  /** What the consumer's tables say about one queue. */
  datatype QueueView = QueueView(held: bool, pull: Option<nat>, consumed: Option<nat>, slot: Option<int>,
                                 rows: seq<nat>, rounds: seq<nat>)

  /** A start offset that has been looked up: in the broker's offset table, or by the start policy. */
  datatype Start = Start(at: nat, known: bool)

  /** Where the pull thread stands with this queue. */
  datatype Pulling =
    | Resting
    | Targeted
    | Opening(start: Start)
    | Asked(at: nat)
    | Writing(from: nat, next: nat, found: seq<nat>, lost: bool)
    | Carrying(found: seq<nat>)

  /** Where a poll stands: it has taken rows out, or it knows the consumed cursor it will write. */
  datatype Polling = NotPolling | Taken(out: seq<nat>) | Looked(cursor: Option<nat>)

  datatype Seeking = NotSeeking | Checked(target: nat) | PullSet(target: nat) | CursorSet(target: nat)

  /** Who gives the queue up: an assignment or an end of the subscription, on a thread of the application, or a
      rebalance, which runs on the pull thread. */
  datatype Who = Assignment | Rebalance | Unsubscription

  datatype Leaving = Steady | Letting(who: Who, done: nat)

  /** What has happened: whether a replay is on, whether the queue was ever served outside one, where it began, how far
      it was pulled, what it has delivered; from where on offsets are asked for at all, everything ever delivered, what
      a seek or an explicit commit has jumped over, what the broker has declared gone, and the cached rows by the pull
      round that brought them. */
  datatype History = History(on: bool, stray: bool, origin: nat, reach: nat, delivered: seq<nat>, base: nat,
                             ever: set<nat>, skipped: set<nat>, gone: set<nat>, groups: seq<seq<nat>>)

  datatype Q = Q(view: QueueView, broker: Option<int>, pulling: Pulling, polling: Polling, seeking: Seeking,
                 leaving: Leaving, starting: Option<Start>, committing: Option<nat>, reading: Option<int>, h: History)

  const NO_VIEW: QueueView := QueueView(false, None, None, None, [], [])

  function Begin(broker: Option<nat>): Q {
    Q(NO_VIEW, if broker.Some? then Some(broker.value) else None, Resting, NotPolling, NotSeeking, Steady, None, None, None,
      History(false, false, 0, 0, [], if broker.Some? then broker.value else 0, {}, {}, {}, []))
  }

  datatype Event =
    | Target
    | Skip
    | Look(start: Start)
    | OpenWrite
    | Fail
    | Judge(next: nat, illegal: bool)
    | Write
    | Arrive
    | Take(k: nat)
    | LookUp
    | Move
    | SeekBegin(target: nat)
    | SeekPull
    | SeekCursor
    | SeekPrune
    | CommitRead
    | CommitWrite(kept: bool)
    | CommitAt(value: int, kept: bool)
    | Persist(reached: bool)
    | Sweep
    | Query
    | Fill
    | Leave(who: Who)
    | Drop(reached: bool)
    | Hold
    | Resolve(start: Start)
    | StartWrite
    | Crash

  // ---- which of its entries the queue still has a right to ----

  predicate PullStands(s: Q) {
    match s.leaving
    case Steady => s.view.held
    case Letting(who, done) => done <= (match who case Assignment => 0 case Rebalance => 2 case Unsubscription => 1)
  }

  predicate CursorStands(s: Q) {
    match s.leaving
    case Steady => s.view.held
    case Letting(who, done) => done <= (match who case Assignment => 1 case Rebalance => 3 case Unsubscription => 2)
  }

  predicate RowsStand(s: Q) {
    match s.leaving
    case Steady => s.view.held
    case Letting(who, done) => who.Assignment? ==> done <= 2
  }

  // ---- the steps ----

  function Later(a: nat, b: nat): nat {
    if a < b then b else a
  }

  /** A replay begins at a start offset: what lies below was settled before, or is not asked for. */
  function Opened(h: History, start: Start): History {
    h.(on := true, origin := start.at, reach := start.at, delivered := [],
       base := if start.known then h.base else Later(h.base, start.at))
  }

  /** A replay begins where a seek says: what lies below and was not delivered has been jumped over. */
  function Jumped(w: nat -> bool, h: History, target: nat): History {
    h.(on := true, origin := target, reach := target, delivered := [], skipped := h.skipped + Undelivered(w, h, target))
  }

  function Undelivered(w: nat -> bool, h: History, target: nat): set<nat> {
    set o | o in Between(h.base, target) && w(o) && o !in h.ever
  }

  function OnStart(s: Q, start: Start): Q {
    s.(view := s.view.(pull := Some(start.at)),
       h := if s.view.pull.None? then Opened(s.h, start) else s.h.(reach := start.at))
  }

  function OnJudge(w: nat -> bool, s: Q, next: nat, illegal: bool): Q
    requires s.pulling.Asked?
  {
    var at := s.pulling.at;
    if s.view.pull != Some(at) then s.(pulling := Resting)
    else if !illegal then s.(pulling := Writing(at, next, Live(w, s.h.gone, at, next), false))
    else if next >= at then s.(pulling := Writing(next, next, [], true))
    else s.(pulling := Writing(next, next, [], false), h := s.h.(origin := next, reach := next))
  }

  /** The offsets gone once the pending write of the pull cursor has landed. */
  function GoneThen(s: Q): set<nat> {
    if s.pulling.Writing? && s.pulling.lost && s.view.pull.Some? && s.view.pull.value <= s.pulling.next
    then s.h.gone + Between(s.view.pull.value, s.pulling.next) else s.h.gone
  }

  function OnWrite(s: Q): Q
    requires s.pulling.Writing?
  {
    s.(view := s.view.(pull := Some(s.pulling.next)), pulling := Carrying(s.pulling.found),
       h := s.h.(reach := s.pulling.next, gone := GoneThen(s), stray := s.h.stray || s.view.pull.None?))
  }

  function OnArrive(s: Q): Q
    requires s.pulling.Carrying?
  {
    var found := s.pulling.found;
    if found == [] then s.(pulling := Resting)
    else s.(view := s.view.(rows := s.view.rows + found, rounds := s.view.rounds + [|found|]), pulling := Resting,
            h := s.h.(groups := s.h.groups + [found]))
  }

  /** The rows `removed` have left the cache, one after the other; `left` remain. */
  function Shrunk(v: QueueView, removed: seq<nat>, left: seq<nat>): QueueView {
    v.(rows := left, rounds := ChargeAll(v.rounds, |removed|, left == []))
  }

  function OnTake(s: Q, k: nat): Q
    requires k <= |s.view.rows|
  {
    var out := s.view.rows[..k];
    s.(view := Shrunk(s.view, out, s.view.rows[k..]), polling := Taken(out),
       h := s.h.(delivered := s.h.delivered + out, ever := s.h.ever + (set o | o in out),
                 groups := RemoveEachFromGroups(s.h.groups, out), stray := s.h.stray || (k > 0 && !s.h.on)))
  }

  function OnLookUp(s: Q): Q
    requires s.polling.Taken?
  {
    var out := s.polling.out;
    s.(polling := Looked(if out == [] || s.view.pull.None? then None else Some(MaxOf(out) + 1)))
  }

  function OnMove(s: Q): Q
    requires s.polling.Looked?
  {
    s.(view := if s.polling.cursor.Some? then s.view.(consumed := s.polling.cursor) else s.view, polling := NotPolling)
  }

  function OnSeekPull(w: nat -> bool, s: Q): Q
    requires s.seeking.Checked?
  {
    var target := s.seeking.target;
    s.(view := s.view.(pull := Some(target)), seeking := PullSet(target), h := Jumped(w, s.h, target))
  }

  function OnSeekCursor(s: Q): Q
    requires s.seeking.PullSet?
  {
    s.(view := s.view.(consumed := Some(s.seeking.target)), seeking := CursorSet(s.seeking.target))
  }

  function OnSeekPrune(s: Q): Q
    requires s.seeking.CursorSet?
  {
    var target := s.seeking.target;
    var dropped := Dropped(s.view.rows, target);
    s.(view := Shrunk(s.view, dropped, Prune(s.view.rows, target)), seeking := NotSeeking,
       h := s.h.(groups := RemoveEachFromGroups(s.h.groups, dropped)))
  }

  /** A named offset is written for a held queue; `kept` says whether the queue was seen to be held. */
  function OnCommitAt(w: nat -> bool, s: Q, value: int, kept: bool): Q {
    var below := if value < 0 then 0 else value;
    if !kept then s
    else s.(view := s.view.(slot := Some(value)), h := s.h.(skipped := s.h.skipped + Undelivered(w, s.h, below)))
  }

  function OnPersist(s: Q, reached: bool): Q {
    s.(broker := if reached && s.view.slot.Some? then s.view.slot else s.broker)
  }

  function RowsDropped(s: Q): Q {
    s.(view := s.view.(rows := [], rounds := []), h := s.h.(on := false, groups := []))
  }

  /** An assignment gives up pull cursor, consumed cursor, rows and then the queue; the end of a subscription the queue
      first, then pull cursor, consumed cursor and rows; a rebalance the queue first, then it sends the slot and drops
      pull cursor, consumed cursor, slot and rows. */
  function OnDrop(s: Q, reached: bool): Q
    requires s.leaving.Letting?
  {
    var done := s.leaving.done;
    var t := s.(leaving := s.leaving.(done := done + 1));
    match s.leaving.who
    case Assignment =>
      if done <= 1 then t.(view := s.view.(consumed := None))
      else if done == 2 then RowsDropped(t)
      else s.(leaving := Steady, view := s.view.(held := false))
    case Unsubscription =>
      if done <= 1 then t.(view := s.view.(pull := None))
      else if done == 2 then t.(view := s.view.(consumed := None))
      else RowsDropped(s).(leaving := Steady)
    case Rebalance =>
      if done <= 1 then OnPersist(t, reached)
      else if done == 2 then t.(view := s.view.(pull := None))
      else if done == 3 then t.(view := s.view.(consumed := None))
      else if done == 4 then t.(view := s.view.(slot := None))
      else RowsDropped(s).(leaving := Steady)
  }

  function OnLeave(s: Q, who: Who): Q {
    var t := s.(leaving := Letting(who, 1));
    if who.Assignment? then t.(view := s.view.(pull := None)) else t.(view := s.view.(held := false))
  }

  /** Assignments and ends of subscriptions run on one thread of the application, a rebalance on the pull thread. So
      only the end of a subscription can come between the lookup of a start offset and its write, and then it is a
      rebalance that has looked it up. */
  predicate MayLeave(s: Q, who: Who) {
    && s.view.held && s.leaving.Steady?
    && (who.Rebalance? ==> s.pulling.Resting?)
    && (s.starting.Some? ==> who.Unsubscription? && s.pulling.Resting?)
  }

  /** A rebalance that knew the subscription before it ended may take the queue over while it is being given up. */
  predicate MayTakeOver(s: Q) {
    s.leaving.Steady? || (s.leaving.who.Unsubscription? && s.pulling.Resting?)
  }

  predicate Possible(s: Q, e: Event) {
    match e
    case Target => s.view.held && s.pulling.Resting?
    case Skip => s.pulling.Targeted?
    case Look(start) => s.pulling.Targeted? && (s.view.pull.None? ==> LooksUp(s, start))
    case OpenWrite => s.pulling.Opening?
    case Fail => s.pulling.Asked?
    case Judge(next, illegal) =>
      && s.pulling.Asked?
      && (!illegal ==> next >= s.pulling.at)
      && (illegal && next < s.pulling.at && s.view.pull == Some(s.pulling.at) ==> Untouched(s))
    case Write => s.pulling.Writing?
    case Arrive => s.pulling.Carrying?
    case Take(k) => s.polling.NotPolling? && k <= |s.view.rows|
    case LookUp => s.polling.Taken?
    case Move => s.polling.Looked?
    case SeekBegin(_) => s.view.held && s.seeking.NotSeeking?
    case SeekPull => s.seeking.Checked?
    case SeekCursor => s.seeking.PullSet?
    case SeekPrune => s.seeking.CursorSet?
    case Leave(who) => MayLeave(s, who)
    case Drop(_) => s.leaving.Letting?
    case Hold => !s.view.held && s.starting.None? && MayTakeOver(s)
    case Resolve(start) =>
      s.view.held && MayTakeOver(s) && s.view.pull.None? && s.starting.None? && LooksUp(s, start)
    case StartWrite => s.starting.Some?
    case _ => true
  }

  /** A start offset is the broker's committed offset, if there is one; a negative one starts nothing. */
  predicate LooksUp(s: Q, start: Start) {
    if s.broker.Some? && s.broker.value >= 0 then start.known && start.at == s.broker.value else !start.known
  }

  /** A broker corrects an offset backwards only when it is a start offset from which nothing was ever served. */
  predicate Untouched(s: Q) {
    && s.h.on && s.h.origin == s.h.reach && s.view.pull == Some(s.h.origin) && s.h.delivered == [] && s.view.rows == []
    && s.view.consumed.None? && s.polling.NotPolling? && s.seeking.NotSeeking?
  }

  function Step(w: nat -> bool, s: Q, e: Event): Q
    requires Possible(s, e)
  {
    match e
    case Target => s.(pulling := Targeted)
    case Skip => s.(pulling := Resting)
    case Look(start) => s.(pulling := if s.view.pull.Some? then Asked(s.view.pull.value) else Opening(start))
    case OpenWrite => OnStart(s.(pulling := Asked(s.pulling.start.at)), s.pulling.start)
    case Fail => s.(pulling := Resting)
    case Judge(next, illegal) => OnJudge(w, s, next, illegal)
    case Write => OnWrite(s)
    case Arrive => OnArrive(s)
    case Take(k) => OnTake(s, k)
    case LookUp => OnLookUp(s)
    case Move => OnMove(s)
    case SeekBegin(target) => s.(seeking := Checked(target))
    case SeekPull => OnSeekPull(w, s)
    case SeekCursor => OnSeekCursor(s)
    case SeekPrune => OnSeekPrune(s)
    case CommitRead => s.(committing := s.view.consumed)
    case CommitWrite(kept) =>
      s.(committing := None, view := if kept && s.committing.Some? then s.view.(slot := Some(s.committing.value)) else s.view)
    case CommitAt(value, kept) => OnCommitAt(w, s, value, kept)
    case Persist(reached) => OnPersist(s, reached)
    case Sweep => s.(view := s.view.(slot := None))
    case Query => s.(reading := if s.view.slot.None? then s.broker else None)
    case Fill => s.(reading := None, view := if s.reading.Some? then s.view.(slot := s.reading) else s.view)
    case Leave(who) => OnLeave(s, who)
    case Drop(reached) => OnDrop(s, reached)
    case Hold => s.(view := s.view.(held := true))
    case Resolve(start) => s.(starting := Some(start))
    case StartWrite => OnStart(s.(starting := None), s.starting.value)
    case Crash => Begin(None).(broker := s.broker, h := s.h.(on := false, groups := []))
  }

  // ---- runs ----

  /** The consumed cursor a poll that is under way will write, if the queue is still known to it then. */
  function Pending(s: Q): Option<nat> {
    match s.polling
    case NotPolling => None
    case Taken(out) => if out == [] then None else Some(MaxOf(out) + 1)
    case Looked(cursor) => cursor
  }

  /** The rows a pull has fetched and not enqueued yet. */
  function Incoming(s: Q): seq<nat> {
    match s.pulling
    case Writing(_, _, found, _) => found
    case Carrying(found) => found
    case _ => []
  }

  /** The rows that stay cached once a seek under way has pruned. */
  function Staying(s: Q): seq<nat> {
    match s.seeking
    case PullSet(target) => Prune(s.view.rows, target)
    case CursorSet(target) => Prune(s.view.rows, target)
    case _ => s.view.rows
  }

  predicate MidSeek(s: Q) {
    s.seeking.PullSet? || s.seeking.CursorSet?
  }

  /** Where a pull cursor set to `to` ends up: a pending write of the pull thread overwrites it. */
  function Landing(s: Q, to: nat): nat {
    if s.pulling.Writing? then s.pulling.next else to
  }

  /** Of a replay from `origin`, `have` and the rows on their way are exactly what lies between `origin` and the pull
      cursor to be, once the cursor is set to `to`: nothing will be pulled again and nothing is missed. */
  predicate Continues(w: nat -> bool, s: Q, origin: nat, have: seq<nat>, to: nat) {
    && origin <= Landing(s, to)
    && have + Incoming(s) == Live(w, GoneThen(s.(view := s.view.(pull := Some(to)))), origin, Landing(s, to))
  }

  /** The pull thread can still bring rows to a replay from `origin` whose pull cursor is at `to`: it is about to write
      a start offset the replay can take, or it has the queue in its round, or may take it in again. */
  predicate Pulls(w: nat -> bool, s: Q, origin: nat, to: nat) {
    if s.pulling.Opening? then origin <= s.pulling.start.at && Dead(w, s.h.gone, s.pulling.start.at, to)
    else s.view.held || s.pulling.Targeted? || (s.pulling.Asked? && s.pulling.at == to)
  }

  /** How far below `target` the rows of such a replay can come to lie. */
  function Reaching(w: nat -> bool, s: Q, origin: nat, to: nat, target: nat): nat {
    if Pulls(w, s, origin, to) || target < Landing(s, to) then target else Landing(s, to)
  }

  /** A poll under way writes the very cursor the replay starts with, or none, and so does a seek under way, unless the
      queue is being given up; and a seek under way prunes nothing the replay comes to deliver. */
  predicate LeavesCursors(w: nat -> bool, s: Q, to: nat) {
    && (s.leaving.Steady? && Pending(s).Some? ==> Pending(s).value == to)
    && (s.leaving.Steady? && s.seeking.PullSet? ==> s.seeking.target == to)
    && (MidSeek(s) ==>
          var gone := GoneThen(s.(view := s.view.(pull := Some(to))));
          Live(w, gone, to, Reaching(w, s, to, to, s.seeking.target)) == [])
  }

  /** The queue still has a right to its pull cursor, no row at or past the target stays or comes in, and unless the
      queue is being given up no poll writes another cursor. */
  predicate CleanSeek(w: nat -> bool, s: Q, target: nat) {
    PullStands(s) && Continues(w, s, target, Prune(s.view.rows, target), target) && LeavesCursors(w, s, target)
  }

  /** The first pull cursor of the queue, or one that nothing to deliver separates from where the replay already is. */
  predicate CleanStart(w: nat -> bool, s: Q, at: nat) {
    if s.view.pull.None? then Continues(w, s, at, s.view.rows, at) && LeavesCursors(w, s, at)
    else if s.pulling.Writing? then Continues(w, s, s.h.origin, s.h.delivered + Staying(s), at)
    else s.h.origin <= at && Dead(w, s.h.gone, at, s.h.reach)
  }

  /** The step does not land on an entry the queue has given up or that was moved meanwhile. */
  predicate Clean(w: nat -> bool, s: Q, e: Event) {
    match e
    case OpenWrite =>
      s.pulling.Opening? ==>
        PullStands(s) && CleanStart(w, s.(pulling := Asked(s.pulling.start.at)), s.pulling.start.at)
    case Write => PullStands(s) && s.view.pull.Some?
    case Arrive => s.pulling.Carrying? ==> s.pulling.found == [] || s.h.on
    case Take(k) => MidSeek(s) && k <= |s.view.rows| ==> forall o | o in s.view.rows[..k] :: o >= s.seeking.target
    case Move => s.polling.Looked? && s.polling.cursor.Some? ==> CursorStands(s) && (s.leaving.Steady? ==> s.h.on)
    case SeekPull => s.seeking.Checked? ==> CleanSeek(w, s, s.seeking.target)
    case SeekCursor =>
      CursorStands(s) && (s.leaving.Steady? ==> s.h.on && (s.h.delivered == [] || Pending(s).Some?))
    case Hold => s.leaving.Steady?
    case StartWrite => s.starting.Some? ==> PullStands(s) && CleanStart(w, s, s.starting.value.at)
    case _ => true
  }

  ghost predicate Runs(w: nat -> bool, s: Q, es: seq<Event>)
    decreases |es|
  {
    es == [] || (Possible(s, es[0]) && Clean(w, s, es[0]) && Runs(w, Step(w, s, es[0]), es[1..]))
  }

  ghost function After(w: nat -> bool, s: Q, es: seq<Event>): Q
    requires Runs(w, s, es)
    decreases |es|
  {
    if es == [] then s else After(w, Step(w, s, es[0]), es[1..])
  }

  // ---- facts about Live ----

  lemma {:induction false} LiveMembers(w: nat -> bool, gone: set<nat>, lo: nat, hi: nat)
    ensures forall o :: o in Live(w, gone, lo, hi) <==> lo <= o < hi && w(o) && o !in gone
    ensures Ascending(Live(w, gone, lo, hi))
  {
    if lo < hi {
      LiveMembers(w, gone, lo, hi - 1);
      var front := Live(w, gone, lo, hi - 1);
      var last := if w(hi - 1) && hi - 1 !in gone then [hi - 1] else [];
      assert forall o :: o in front + last <==> o in front || o in last;
      forall i, j | 0 <= i < j < |front + last| ensures (front + last)[i] < (front + last)[j] {
        assert (front + last)[i] == front[i] && front[i] in front;
      }
    }
  }

  lemma {:induction false} LiveSplit(w: nat -> bool, gone: set<nat>, lo: nat, mid: nat, hi: nat)
    requires lo <= mid <= hi
    ensures Live(w, gone, lo, hi) == Live(w, gone, lo, mid) + Live(w, gone, mid, hi)
  {
    if mid < hi { LiveSplit(w, gone, lo, mid, hi - 1); }
  }

  lemma {:induction false} LiveIgnoresLaterLoss(w: nat -> bool, gone: set<nat>, more: set<nat>, lo: nat, hi: nat)
    requires forall o | o in more :: o >= hi
    ensures Live(w, gone + more, lo, hi) == Live(w, gone, lo, hi)
  {
    if lo < hi { LiveIgnoresLaterLoss(w, gone, more, lo, hi - 1); }
  }

  lemma {:induction false} LiveAllGone(w: nat -> bool, gone: set<nat>, lo: nat, hi: nat)
    requires forall o | lo <= o < hi :: o in gone
    ensures Live(w, gone, lo, hi) == []
  {
    if lo < hi { LiveAllGone(w, gone, lo, hi - 1); }
  }

  /** What precedes the element at `n` are the live offsets below it. */
  lemma {:induction false} LivePrefix(w: nat -> bool, gone: set<nat>, lo: nat, hi: nat, n: nat)
    requires 0 < n <= |Live(w, gone, lo, hi)|
    ensures var all := Live(w, gone, lo, hi);
            lo <= all[n - 1] < hi && all[..n] == Live(w, gone, lo, all[n - 1] + 1)
    decreases hi
  {
    var all := Live(w, gone, lo, hi);
    var front := Live(w, gone, lo, hi - 1);
    if n <= |front| {
      LivePrefix(w, gone, lo, hi - 1, n);
      assert all[..n] == front[..n];
    } else {
      assert all[..n] == all;
    }
  }
}
