/**
 * The cache gates of the push consumer, the division of topic budgets into per-queue quotas, and what a
 * queue can come to hold between two divisions.
 */
module PushGates {
  import opened Messages
  import opened PushSpec
  import opened PushRuns

  const WARN_EVERY: nat := 1000

  datatype Limits = Limits(count: int, sizeMib: int, span: int)

  datatype Verdict = Admitted | OverCount | OverSize | OverSpan

  function Span(rows: seq<Message>): (r: int)
    ensures r >= 0
  {
    if rows == [] then 0 else MaxOf(Offsets(rows)) - MinOf(Offsets(rows))
  }

  /** The three gates in their fixed order; the ordered consumer does not judge the span. */
  function Judge(limits: Limits, orderly: bool, held: seq<Message>): Verdict {
    if |held| > limits.count then OverCount
    else if BodyBytes(held) / MIB > limits.sizeMib then OverSize
    else if !orderly && Span(held) > limits.span then OverSpan
    else Admitted
  }

  lemma SpanIsWithinIff(rows: seq<Message>, most: int)
    ensures Span(rows) <= most <==> 0 <= most && forall a, b :: a in rows && b in rows ==> a.offset <= b.offset + most
  {
    var os := Offsets(rows);
    if rows != [] {
      var low, high := MinOf(os), MaxOf(os);
      var i :| 0 <= i < |os| && os[i] == low;
      var j :| 0 <= j < |os| && os[j] == high;
      assert rows[i] in rows && rows[j] in rows;
      hide MinOf, MaxOf;
      forall a | a in rows ensures low <= a.offset <= high {
        var k :| 0 <= k < |rows| && rows[k] == a;
        assert os[k] in os;
      }
    }
  }

  lemma WholeMibIff(bytes: nat, most: int)
    ensures bytes / MIB <= most <==> bytes < (most + 1) * MIB
  {
  }

  /** A pull is admitted exactly when nothing is strictly over, a started mebibyte not counting as one. */
  lemma AdmittedIff(limits: Limits, orderly: bool, held: seq<Message>)
    ensures Judge(limits, orderly, held) == Admitted <==>
      && |held| <= limits.count
      && BodyBytes(held) < (limits.sizeMib + 1) * MIB
      && (orderly || (0 <= limits.span
        && forall a, b :: a in held && b in held ==> a.offset <= b.offset + limits.span))
  {
    SpanIsWithinIff(held, limits.span);
    WholeMibIff(BodyBytes(held), limits.sizeMib);
    hide Span, BodyBytes;
  }

  function Warned(trips: nat): nat {
    (trips + WARN_EVERY - 1) / WARN_EVERY
  }

  /** The knobs and the trip counter of one consumer. */
  class Gatekeeper {
    var limits: Limits
    var topicCount: int
    var topicSizeMib: int
    var trips: nat
    var warnings: nat

    ghost predicate Valid()
      reads this
    {
      warnings == Warned(trips)
    }

    constructor (limits: Limits, topicCount: int, topicSizeMib: int)
      ensures Valid() && trips == 0
      ensures this.limits == limits && this.topicCount == topicCount && this.topicSizeMib == topicSizeMib
    {
      this.limits, this.topicCount, this.topicSizeMib := limits, topicCount, topicSizeMib;
      trips, warnings := 0, 0;
    }

    method FlowControlHit(orderly: bool, held: seq<Message>) returns (hit: bool)
      requires Valid()
      modifies this`trips, this`warnings
      ensures Valid()
      ensures hit <==> Judge(limits, orderly, held) != Admitted
      ensures trips == old(trips) + (if hit then 1 else 0)
      ensures warnings == old(warnings) + (if hit && old(trips) % 1000 == 0 then 1 else 0)
    {
      var bytes := BytesOf(held);
      var span := SpanOf(held);
      hit := |held| > limits.count || bytes / MIB > limits.sizeMib || (!orderly && span > limits.span);
      if hit {
        trips := trips + 1;
        if (trips - 1) % WARN_EVERY == 0 {
          warnings := warnings + 1;
        }
      }
    }

    /** Overwrite the per-queue knobs with the budget's share; without a queue nothing changes. */
    method Divide(queues: nat)
      modifies this`limits
      ensures limits.span == old(limits).span
      ensures limits.count ==
        if queues == 0 || topicCount == -1 then old(limits).count else Quota(topicCount, queues)
      ensures limits.sizeMib ==
        if queues == 0 || topicSizeMib == -1 then old(limits).sizeMib else Quota(topicSizeMib, queues)
    {
      if queues == 0 {
        return;
      }
      if topicCount != -1 {
        limits := limits.(count := Quota(topicCount, queues));
      }
      if topicSizeMib != -1 {
        limits := limits.(sizeMib := Quota(topicSizeMib, queues));
      }
    }
  }

  method BytesOf(held: seq<Message>) returns (bytes: nat)
    ensures bytes == BodyBytes(held)
  {
    bytes := 0;
    for i := 0 to |held|
      invariant bytes == BodyBytes(held[..i])
    {
      BodyBytesConcat(held[..i], [held[i]]);
      assert held[..i + 1] == held[..i] + [held[i]];
      bytes := bytes + held[i].bodySize;
    }
    assert held[..|held|] == held;
  }

  method SpanOf(held: seq<Message>) returns (span: int)
    ensures span == Span(held)
  {
    if held == [] {
      return 0;
    }
    var low: nat, high: nat := held[0].offset, held[0].offset;
    ghost var os := Offsets(held);
    for i := 1 to |held|
      invariant Least(low, os[..i]) && Greatest(high, os[..i])
    {
      assert os[..i + 1] == os[..i] + [held[i].offset];
      if held[i].offset < low {
        low := held[i].offset;
      }
      if high < held[i].offset {
        high := held[i].offset;
      }
    }
    assert os[..|held|] == os;
    ExtremesAreUnique(os, low, high);
    span := high - low;
  }

  function Quota(budget: int, queues: nat): (r: int)
    requires queues > 0
    ensures r >= 1
  {
    if budget / queues < 1 then 1 else budget / queues
  }

  /** The quotas of all queues together spend the budget, short of one per queue, and at least one each. */
  lemma QuotasSpendTheBudget(budget: int, queues: nat)
    requires queues > 0
    ensures queues <= budget ==> budget - queues < Quota(budget, queues) * queues <= budget
    ensures budget < queues ==> Quota(budget, queues) == 1
  {
    assert budget == (budget / queues) * queues + budget % queues;
    if queues <= budget {
      assert budget / queues >= 1;
    } else {
      assert budget / queues < 1;
    }
  }

  // ---- what a queue can hold --------------------------------------------------------------------

  /** What the gate counts. */
  function Visible(s: Push): set<Msg> {
    Members(Entries(s))
  }

  /** The batch the dispatch thread works on, from its removal from the buffer to its deregistration. */
  function Handed(s: Push): set<Msg> {
    if s.hand.Idle? then {} else Members(s.hand.batch)
  }

  /** What the gate does not see: taken and not yet registered, or no longer listed and not yet done with. */
  function Hidden(s: Push): set<Msg> {
    Handed(s) - Visible(s)
  }

  function Outstanding(s: Push): set<Msg> {
    Visible(s) + Handed(s)
  }

  predicate Holds(s: Push, m: Msg) {
    m in s.inflight || m in s.pending || (!s.hand.Idle? && m in s.hand.batch)
  }

  /** What could not be sent back is part of the batch. */
  predicate FailedOfBatch(s: Push) {
    s.hand.Settling? ==> forall m :: m in s.hand.failed ==> m in s.hand.batch
  }

  lemma FailedStaysOfBatch(s: Push, e: Event)
    requires FailedOfBatch(s) && Enabled(s, e)
    ensures FailedOfBatch(After(s, e))
  {
    hide Head, NextOffset, MaxOffset, Others, Answer, Unlink;
  }

  function OffsetsIn(ms: set<Msg>): set<nat> {
    set m | m in ms :: m.offset
  }

  lemma {:induction false} AsManyOffsets(ms: set<Msg>)
    requires forall a, b :: a in ms && b in ms && a.offset == b.offset ==> a == b
    ensures |OffsetsIn(ms)| == |ms|
  {
    if m :| m in ms {
      var rest := ms - {m};
      AsManyOffsets(rest);
      assert ms == rest + {m} && OffsetsIn(ms) == OffsetsIn(rest) + {m.offset};
    }
  }

  /** Whether the entries are counted by identity or by queue offset, every guarded run counts the same. */
  lemma CountingOffsetsIsTheSame(broadcast: bool, es: seq<Event>)
    requires Runs(Fresh(broadcast), es) && Guarded(Fresh(broadcast), es)
    ensures |OffsetsIn(Visible(End(Fresh(broadcast), es)))| == |Visible(End(Fresh(broadcast), es))|
  {
    var s := End(Fresh(broadcast), es);
    EveryGuardedRunSettles(broadcast, es);
    hide Runs, Guarded, End;
    assert forall a, b :: a in Visible(s) && b in Visible(s) && a.offset == b.offset ==> a == b by {
      assert OwnGeneration(s);
      hide Conserved, OffsetSafe, SentOnce;
      assert forall a :: a in Visible(s) ==> a.epoch == s.epoch;
    }
    AsManyOffsets(Visible(s));
  }

  lemma DispatchHolds(s: Push, size: nat, m: Msg)
    requires s.hand.Idle? && s.pending != [] && Holds(OnTake(s, size), m)
    ensures Holds(s, m)
  {
    assert s.pending == s.pending[..BatchSize(s, size)] + s.pending[BatchSize(s, size)..];
  }

  lemma SweepHolds(s: Push, m: Msg)
    requires s.sweep.Returned? && Holds(OnSweepRemove(s), m)
    ensures Holds(s, m)
  {
  }

  lemma StepHolds(s: Push, e: Event, m: Msg)
    requires FailedOfBatch(s) && Enabled(s, e) && !e.Found? && Holds(After(s, e), m)
    ensures Holds(s, m)
  {
    hide Head, NextOffset, MaxOffset, Others, Answer, Unlink;
    match e
    case Take(size) => DispatchHolds(s, size, m);
    case SweepRemove => SweepHolds(s, m);
    case _ =>
  }

  /** Only an answer with rows makes a queue hold more, whatever else happens and however it overlaps. */
  lemma OnlyFoundGrows(s: Push, e: Event)
    requires FailedOfBatch(s) && Enabled(s, e) && !e.Found?
    ensures Outstanding(After(s, e)) <= Outstanding(s)
  {
    var t := After(s, e);
    hide After, Enabled, FailedOfBatch;
    forall m | m in Outstanding(t) ensures m in Outstanding(s) {
      assert Holds(t, m);
      StepHolds(s, e, m);
    }
  }

  // ---- every held message was pulled, below the cursor ------------------------------------------

  /** Whatever overlaps: what is held was pulled; nothing was pulled by a later generation than the present one, and
      what the present one pulled lies below its cursor, unless the broker corrected the cursor. */
  predicate PulledBelow(s: Push) {
    && (forall m :: m in Outstanding(s) ==> m in s.pulled)
    && (forall m :: m in s.pulled ==> m.epoch <= s.epoch)
    && (!s.owned ==> forall m :: m in s.pulled ==> m.epoch < s.epoch)
    && (!s.frozen ==> forall m :: m in s.pulled && m.epoch == s.epoch ==> m.offset < s.cursor)
  }

  /** The parts of the state an event other than a pull leaves alone. */
  lemma OnlyPullsPull(s: Push, e: Event)
    requires Enabled(s, e) && !e.Found?
    ensures After(s, e).pulled == s.pulled
    ensures !e.NoMatch? && !e.Illegal? && !e.Retire? && !e.Rebuild? ==>
      var t := After(s, e); t.epoch == s.epoch && t.owned == s.owned && t.frozen == s.frozen && t.cursor == s.cursor
  {
    hide Head, NextOffset, MaxOffset, Others, Answer, Unlink, Attached, Members, Raise, BatchSize, IsHead, Entries;
  }

  lemma FoundPulledBelow(s: Push, rows: seq<Msg>, next: nat)
    requires PulledBelow(s) && s.owned && !s.frozen && Answer(s, rows, next)
    ensures PulledBelow(OnFound(s, rows, next))
  {
    hide Ascending;
    assert Outstanding(OnFound(s, rows, next)) == Outstanding(s) + Members(rows);
    hide Outstanding;
  }

  lemma PulledStaysBelow(s: Push, e: Event)
    requires PulledBelow(s) && FailedOfBatch(s) && Enabled(s, e)
    ensures PulledBelow(After(s, e))
  {
    if e.Found? {
      FoundPulledBelow(s, e.rows, e.next);
    } else {
      OnlyFoundGrows(s, e);
      OnlyPullsPull(s, e);
      hide Outstanding, FailedOfBatch, Answer, Ascending, Head, IsHead, Others, NextOffset;
    }
  }

  // ---- a gated queue ------------------------------------------------------------------------------

  /** A queue whose pull thread asks the gate before each round; `open` while a pull it let through is on its way. */
  datatype Gated = Gated(queue: Push, open: bool, quota: nat)

  /** A division changes the quota at any time, also while a pull is on its way. */
  datatype Move = Ask | Act(event: Event) | Divide(quota: nat)

  function Held(g: Gated): nat {
    |Outstanding(g.queue)|
  }

  /** `batch` bounds the rows of one answer, `dispatch` the messages one dispatch takes. */
  predicate Allowed(g: Gated, m: Move, batch: nat, dispatch: nat) {
    m.Act? ==>
      && Enabled(g.queue, m.event)
      && (m.event.Found? ==> g.open && |m.event.rows| <= batch)
      && (m.event.Take? ==> m.event.size <= dispatch)
  }

  function Moved(g: Gated, m: Move): Gated
    requires m.Act? ==> Enabled(g.queue, m.event)
  {
    match m
    case Ask => g.(open := |Visible(g.queue)| <= g.quota)
    case Act(e) => g.(queue := After(g.queue, e), open := g.open && !e.Found?)
    case Divide(quota) => g.(quota := quota)
  }

  predicate Moves(g: Gated, ms: seq<Move>, batch: nat, dispatch: nat)
    decreases |ms|
  {
    ms == [] || (Allowed(g, ms[0], batch, dispatch) && Moves(Moved(g, ms[0]), ms[1..], batch, dispatch))
  }

  function Final(g: Gated, ms: seq<Move>, batch: nat, dispatch: nat): Gated
    requires Moves(g, ms, batch, dispatch)
    decreases |ms|
  {
    if ms == [] then g else Final(Moved(g, ms[0]), ms[1..], batch, dispatch)
  }

  /** Nobody holds the queue yet, in either message model, and the gate has a quota. */
  function Idling(broadcast: bool, quota: nat): Gated {
    Gated(Fresh(broadcast), false, quota)
  }

  predicate Starts(g: Gated) {
    g == Idling(g.queue.broadcast, g.quota)
  }

  /** Reached from the start by any run at all, with any divisions in it. */
  ghost predicate Reached(g: Gated, batch: nat, dispatch: nat) {
    exists start, ms :: Starts(start) && Moves(start, ms, batch, dispatch) && Final(start, ms, batch, dispatch) == g
  }

  lemma {:induction false} NoMoreThanListed(ms: seq<Msg>)
    ensures |Members(ms)| <= |ms|
  {
    if ms != [] {
      NoMoreThanListed(ms[1..]);
      assert Members(ms) == {ms[0]} + Members(ms[1..]);
    }
  }

  lemma Fewer(a: set<Msg>, b: set<Msg>)
    requires a <= b
    ensures |a| <= |b|
  {
    assert b == a + (b - a);
  }

  /** What is hidden from the gate is at most one dispatch. */
  predicate Sane(g: Gated, dispatch: nat) {
    && FailedOfBatch(g.queue) && PulledBelow(g.queue)
    && (!g.queue.hand.Idle? ==> |g.queue.hand.batch| <= dispatch)
  }

  lemma OneDispatch(s: Push, e: Event, dispatch: nat)
    requires Enabled(s, e) && 1 <= dispatch && (e.Take? ==> e.size <= dispatch)
    requires !s.hand.Idle? ==> |s.hand.batch| <= dispatch
    ensures !After(s, e).hand.Idle? ==> |After(s, e).hand.batch| <= dispatch
  {
    hide Head, NextOffset, MaxOffset, Others, Answer, Members, Attached, Unlink, Raise, IsHead;
  }

  lemma SaneStays(g: Gated, m: Move, batch: nat, dispatch: nat)
    requires 1 <= dispatch && Sane(g, dispatch) && Allowed(g, m, batch, dispatch)
    ensures Sane(Moved(g, m), dispatch)
  {
    if m.Act? {
      FailedStaysOfBatch(g.queue, m.event);
      PulledStaysBelow(g.queue, m.event);
      OneDispatch(g.queue, m.event, dispatch);
    }
    hide FailedOfBatch, PulledBelow, After, Enabled, Visible;
  }

  lemma {:induction false} RunIsSane(g: Gated, ms: seq<Move>, batch: nat, dispatch: nat)
    requires 1 <= dispatch && Sane(g, dispatch) && Moves(g, ms, batch, dispatch)
    ensures Sane(Final(g, ms, batch, dispatch), dispatch)
    decreases |ms|
  {
    hide Sane, Moved, Enabled;
    if ms != [] {
      SaneStays(g, ms[0], batch, dispatch);
      RunIsSane(Moved(g, ms[0]), ms[1..], batch, dispatch);
    }
  }

  lemma ReachedIsSane(g: Gated, batch: nat, dispatch: nat)
    requires 1 <= dispatch && Reached(g, batch, dispatch)
    ensures Sane(g, dispatch)
  {
    var start, ms :| Starts(start) && Moves(start, ms, batch, dispatch) && Final(start, ms, batch, dispatch) == g;
    assert Outstanding(start.queue) == {};
    assert Sane(start, dispatch);
    hide Sane, Moves, Final;
    RunIsSane(start, ms, batch, dispatch);
  }

  // ---- what a queue comes to hold -----------------------------------------------------------------

  /** What a queue holds, or will once the pull on its way has brought all it may bring. */
  function Coming(g: Gated, batch: nat): nat {
    Held(g) + (if g.open then batch else 0)
  }

  predicate Within(g: Gated, batch: nat, cap: nat) {
    Coming(g, batch) <= cap
  }

  /** The gate lets a pull through only where its answer still fits. */
  predicate AskFits(g: Gated, batch: nat, cap: nat) {
    |Visible(g.queue)| <= g.quota ==> Held(g) + batch <= cap
  }

  lemma FoundGrowsByItsRows(s: Push, rows: seq<Msg>, next: nat)
    ensures |Outstanding(OnFound(s, rows, next))| <= |Outstanding(s)| + |rows|
  {
    NoMoreThanListed(rows);
    assert Outstanding(OnFound(s, rows, next)) == Outstanding(s) + Members(rows);
  }

  lemma MoveStaysWithin(g: Gated, m: Move, batch: nat, dispatch: nat, cap: nat)
    requires FailedOfBatch(g.queue) && Within(g, batch, cap) && Allowed(g, m, batch, dispatch)
    requires m.Ask? ==> Held(g) <= cap && AskFits(g, batch, cap)
    ensures Within(Moved(g, m), batch, cap)
  {
    var s := g.queue;
    match m {
      case Ask => hide Visible, Outstanding, FailedOfBatch;
      case Divide(_) => hide Visible, Outstanding, FailedOfBatch;
      case Act(e) =>
        if e.Found? {
          FoundGrowsByItsRows(s, e.rows, e.next);
        } else {
          OnlyFoundGrows(s, e);
          Fewer(Outstanding(After(s, e)), Outstanding(s));
        }
        hide FailedOfBatch, Outstanding;
    }
  }

  /** No division, and whenever the gate is asked a pull it lets through still fits. */
  predicate FitsThroughout(g: Gated, ms: seq<Move>, batch: nat, dispatch: nat, cap: nat)
    requires Moves(g, ms, batch, dispatch)
    decreases |ms|
  {
    ms == [] || (&& !ms[0].Divide? && (ms[0].Ask? ==> AskFits(g, batch, cap))
                 && FitsThroughout(Moved(g, ms[0]), ms[1..], batch, dispatch, cap))
  }

  lemma {:induction false} RunStaysWithin(g: Gated, ms: seq<Move>, batch: nat, dispatch: nat, cap: nat)
    requires 1 <= dispatch && Sane(g, dispatch) && Within(g, batch, cap)
    requires Moves(g, ms, batch, dispatch) && FitsThroughout(g, ms, batch, dispatch, cap)
    ensures Held(Final(g, ms, batch, dispatch)) <= cap
    decreases |ms|
  {
    hide Moved, Enabled, FailedOfBatch, PulledBelow, Held, AskFits;
    if ms != [] {
      SaneStays(g, ms[0], batch, dispatch);
      MoveStaysWithin(g, ms[0], batch, dispatch, cap);
      RunStaysWithin(Moved(g, ms[0]), ms[1..], batch, dispatch, cap);
    }
  }

  lemma AskedCountsAllButTheBatch(s: Push, dispatch: nat)
    requires !s.hand.Idle? ==> |s.hand.batch| <= dispatch
    ensures |Outstanding(s)| <= |Visible(s)| + dispatch
  {
    if !s.hand.Idle? { NoMoreThanListed(s.hand.batch); }
    var v, h := Visible(s), Handed(s);
    assert |v + h| <= |v| + |h|;
  }

  predicate Undivided(ms: seq<Move>) {
    forall i :: 0 <= i < |ms| ==> !ms[i].Divide?
  }

  /** A pull the gate lets through fits below quota, one dispatch and one answer, always. */
  lemma {:induction false} AlwaysFits(g: Gated, ms: seq<Move>, batch: nat, dispatch: nat, cap: nat)
    requires 1 <= dispatch && Sane(g, dispatch) && Moves(g, ms, batch, dispatch) && Undivided(ms)
    requires g.quota + dispatch + batch <= cap
    ensures FitsThroughout(g, ms, batch, dispatch, cap)
    decreases |ms|
  {
    if ms != [] {
      assert !ms[0].Divide?;
      AskedCountsAllButTheBatch(g.queue, dispatch);
      SaneStays(g, ms[0], batch, dispatch);
      hide Sane, Enabled, Visible, Outstanding;
      AlwaysFits(Moved(g, ms[0]), ms[1..], batch, dispatch, cap);
    }
  }

  function Larger(a: nat, b: nat): nat {
    if a < b then b else a
  }

  /**
   * After a division, until the next: a queue never comes to hold more than what it held at the division, with one
   * answer if a pull was on its way then, or than the quota plus one dispatch, which the gate may not see, plus one
   * answer. Any run may precede the division and no interleaving is excluded.
   */
  lemma HeldIsBounded(g: Gated, ms: seq<Move>, batch: nat, dispatch: nat)
    requires 1 <= dispatch && Reached(g, batch, dispatch) && Moves(g, ms, batch, dispatch) && Undivided(ms)
    ensures Held(Final(g, ms, batch, dispatch)) <= Larger(Coming(g, batch), g.quota + dispatch + batch)
  {
    var cap := Larger(Coming(g, batch), g.quota + dispatch + batch);
    ReachedIsSane(g, batch, dispatch);
    hide Sane, Moves, Final, Held, FitsThroughout, Reached;
    AlwaysFits(g, ms, batch, dispatch, cap);
    RunStaysWithin(g, ms, batch, dispatch, cap);
  }

  // ---- exactly when the gate lets a queue past quota plus one answer ------------------------------

  /** The gate sees no more than the quota, and there is more. */
  predicate Overlooks(g: Gated) {
    |Visible(g.queue)| <= g.quota < Held(g)
  }

  function NextRows(s: Push, n: nat): (r: seq<Msg>)
    ensures |r| == n && forall i :: 0 <= i < n ==> r[i] == Msg(s.cursor + i, s.epoch)
  {
    seq(n, i requires 0 <= i < n => Msg(s.cursor + i, s.epoch))
  }

  lemma {:induction false} MembersOfNextRows(s: Push, n: nat)
    ensures |Members(NextRows(s, n))| == n
  {
    if n > 0 {
      MembersOfNextRows(s, n - 1);
      var rows, front := NextRows(s, n), NextRows(s, n - 1);
      assert rows == front + [Msg(s.cursor + n - 1, s.epoch)];
      assert Members(rows) == Members(front) + {Msg(s.cursor + n - 1, s.epoch)};
    }
  }

  lemma NextRowsAnswer(s: Push, n: nat)
    ensures Answer(s, NextRows(s, n), s.cursor + n)
  {
  }

  lemma NextRowsAreNew(s: Push, n: nat)
    requires PulledBelow(s) && !s.frozen
    ensures Outstanding(s) !! Members(NextRows(s, n))
  {
    forall m | m in Members(NextRows(s, n)) ensures m !in Outstanding(s) {
      assert m.epoch == s.epoch && m.offset >= s.cursor;
    }
  }

  lemma FoundAddsRows(s: Push, rows: seq<Msg>, next: nat)
    ensures Outstanding(OnFound(s, rows, next)) == Outstanding(s) + Members(rows)
    ensures Visible(OnFound(s, rows, next)) == Visible(s) + Members(rows)
  {
  }

  /** A full answer adds all its rows to what is held, and to what the gate sees. */
  lemma FullAnswer(s: Push, n: nat)
    requires PulledBelow(s) && s.owned && !s.frozen
    ensures Answer(s, NextRows(s, n), s.cursor + n)
    ensures |Outstanding(OnFound(s, NextRows(s, n), s.cursor + n))| == |Outstanding(s)| + n
    ensures |Visible(OnFound(s, NextRows(s, n), s.cursor + n))| == |Visible(s)| + n
  {
    var rows := NextRows(s, n);
    assert Visible(s) <= Outstanding(s);
    hide Outstanding, Members, Visible, Answer, PulledBelow, OnFound;
    NextRowsAnswer(s, n);
    MembersOfNextRows(s, n);
    NextRowsAreNew(s, n);
    FoundAddsRows(s, rows, s.cursor + n);
    var more := Members(rows);
    assert |Outstanding(s) + more| == |Outstanding(s)| + |more|;
    assert Visible(s) !! more && |Visible(s) + more| == |Visible(s)| + |more|;
  }

  /** After the gate was asked, an answer comes in and the queue holds more than quota plus one answer. */
  predicate Overruns(g: Gated, rows: seq<Msg>, next: nat, batch: nat) {
    var asked := Moved(g, Ask);
    && Allowed(asked, Act(Found(rows, next)), batch, 1)
    && Held(Moved(asked, Act(Found(rows, next)))) > g.quota + batch
  }

  /** In any state any run reaches: asking the gate can take the queue past quota plus one answer exactly when the gate
      overlooks something. */
  lemma GateOverrunsIff(g: Gated, batch: nat, dispatch: nat)
    requires 1 <= dispatch && Reached(g, batch, dispatch) && g.queue.owned && !g.queue.frozen
    ensures (exists rows, next :: Overruns(g, rows, next, batch)) <==> Overlooks(g)
  {
    ReachedIsSane(g, batch, dispatch);
    var s := g.queue;
    hide Reached, FailedOfBatch;
    if Overlooks(g) {
      FullAnswer(s, batch);
      hide PulledBelow, Visible, Outstanding, Answer;
      assert Overruns(g, NextRows(s, batch), s.cursor + batch, batch);
    } else {
      hide PulledBelow;
      forall rows, next ensures !Overruns(g, rows, next, batch) {
        FoundGrowsByItsRows(s, rows, next);
        hide Visible, Outstanding, Answer;
      }
    }
  }

  /** Whenever the gate is asked, it overlooks nothing. */
  predicate OverlooksNothing(g: Gated, ms: seq<Move>, batch: nat, dispatch: nat)
    requires Moves(g, ms, batch, dispatch)
    decreases |ms|
  {
    ms == [] || ((ms[0].Ask? ==> !Overlooks(g)) && OverlooksNothing(Moved(g, ms[0]), ms[1..], batch, dispatch))
  }

  lemma {:induction false} OverlooksNothingFits(g: Gated, ms: seq<Move>, batch: nat, dispatch: nat, cap: nat)
    requires Moves(g, ms, batch, dispatch) && Undivided(ms) && OverlooksNothing(g, ms, batch, dispatch)
    requires g.quota + batch <= cap
    ensures FitsThroughout(g, ms, batch, dispatch, cap)
    decreases |ms|
  {
    if ms != [] {
      assert !ms[0].Divide?;
      hide Enabled, Visible, Held;
      OverlooksNothingFits(Moved(g, ms[0]), ms[1..], batch, dispatch, cap);
    }
  }

  /** Then a queue stays within quota plus one answer, or within what it had coming at the division. */
  lemma SeeingAllKeepsTheQuota(g: Gated, ms: seq<Move>, batch: nat, dispatch: nat)
    requires 1 <= dispatch && Reached(g, batch, dispatch) && Moves(g, ms, batch, dispatch) && Undivided(ms)
    requires OverlooksNothing(g, ms, batch, dispatch)
    ensures Held(Final(g, ms, batch, dispatch)) <= Larger(Coming(g, batch), g.quota + batch)
  {
    var cap := Larger(Coming(g, batch), g.quota + batch);
    ReachedIsSane(g, batch, dispatch);
    hide Sane, Moves, Final, Held, FitsThroughout, Reached, OverlooksNothing;
    OverlooksNothingFits(g, ms, batch, dispatch, cap);
    RunStaysWithin(g, ms, batch, dispatch, cap);
  }

  // ---- all the queues of a topic ------------------------------------------------------------------

  function HeldInAll(gs: seq<Gated>): nat {
    if gs == [] then 0 else Held(gs[0]) + HeldInAll(gs[1..])
  }

  /** What a queue had coming at the division beyond what its share lets it hold. */
  function Excess(g: Gated, batch: nat, share: nat): nat {
    if Coming(g, batch) > share then Coming(g, batch) - share else 0
  }

  function ExcessInAll(gs: seq<Gated>, batch: nat, share: nat): nat {
    if gs == [] then 0 else Excess(gs[0], batch, share) + ExcessInAll(gs[1..], batch, share)
  }

  function Each(n: nat, k: nat): nat {
    n * k
  }

  lemma EachOfMore(n: nat, k: nat)
    ensures Each(0, k) == 0 && (n > 0 ==> Each(n, k) == k + Each(n - 1, k))
  {
    assert n * k == k + (n - 1) * k;
  }

  /** Since its division the queue went from `g` to `h` with nothing but its own moves. */
  ghost predicate Went(g: Gated, h: Gated, batch: nat, dispatch: nat) {
    exists ms :: Undivided(ms) && Moves(g, ms, batch, dispatch) && Final(g, ms, batch, dispatch) == h
  }

  lemma WentIsBounded(g: Gated, h: Gated, batch: nat, dispatch: nat)
    requires 1 <= dispatch && Reached(g, batch, dispatch) && Went(g, h, batch, dispatch)
    ensures Held(h) <= g.quota + dispatch + batch + Excess(g, batch, g.quota + dispatch + batch)
  {
    var ms :| Undivided(ms) && Moves(g, ms, batch, dispatch) && Final(g, ms, batch, dispatch) == h;
    hide Moves, Final, Held, Reached;
    HeldIsBounded(g, ms, batch, dispatch);
  }

  lemma {:induction false} AllAreBounded(gs: seq<Gated>, hs: seq<Gated>, quota: nat, batch: nat, dispatch: nat)
    requires |gs| == |hs| && 1 <= dispatch
    requires forall i :: 0 <= i < |gs| ==> gs[i].quota == quota && Reached(gs[i], batch, dispatch)
    requires forall i :: 0 <= i < |gs| ==> Went(gs[i], hs[i], batch, dispatch)
    ensures HeldInAll(hs) <= Each(|gs|, quota + dispatch + batch) + ExcessInAll(gs, batch, quota + dispatch + batch)
  {
    hide Reached, Went, Held, Each, Excess;
    EachOfMore(|gs|, quota + dispatch + batch);
    if gs != [] {
      WentIsBounded(gs[0], hs[0], batch, dispatch);
      AllAreBounded(gs[1..], hs[1..], quota, batch, dispatch);
    }
  }

  /** The budget of a topic of `n` queues, or one message per queue if that is more, and `more` for each queue. */
  function TopicBound(budget: nat, n: nat, more: nat): nat {
    (if n <= budget then budget else n) + Each(n, more)
  }

  /**
   * A topic's budget is divided among queues that hold whatever they hold, with whatever pulls on their way. Until
   * the next division they hold together at most the budget plus one dispatch and one answer per queue, plus what
   * each of them had coming beyond its share.
   */
  lemma TopicBudgetIsKept(gs: seq<Gated>, hs: seq<Gated>, budget: nat, batch: nat, dispatch: nat)
    requires gs != [] && |hs| == |gs| && 1 <= dispatch
    requires forall i :: 0 <= i < |gs| ==> gs[i].quota == Quota(budget, |gs|) && Reached(gs[i], batch, dispatch)
    requires forall i :: 0 <= i < |gs| ==> Went(gs[i], hs[i], batch, dispatch)
    ensures HeldInAll(hs) <= TopicBound(budget, |gs|, dispatch + batch)
                             + ExcessInAll(gs, batch, Quota(budget, |gs|) + dispatch + batch)
  {
    var quota := Quota(budget, |gs|);
    hide Reached, Went, HeldInAll, ExcessInAll, Quota, TopicBound, Each;
    AllAreBounded(gs, hs, quota, batch, dispatch);
    QuotasWithOverhead(budget, |gs|, dispatch + batch);
    assert quota + dispatch + batch == quota + (dispatch + batch);
  }

  lemma QuotasWithOverhead(budget: nat, n: nat, more: nat)
    requires n > 0
    ensures Each(n, Quota(budget, n) + more) <= TopicBound(budget, n, more)
  {
    QuotasSpendTheBudget(budget, n);
    var quota := Quota(budget, n);
    hide Quota;
    assert n * (quota + more) == quota * n + n * more;
  }

  // ---- both halves of the bound are reached ------------------------------------------------------

  ghost predicate Arrives(start: Gated, ms: seq<Move>, g: Gated, batch: nat, dispatch: nat) {
    Starts(start) && Moves(start, ms, batch, dispatch) && Final(start, ms, batch, dispatch) == g
  }

  lemma {:induction false} ExtendMoves(g: Gated, ms: seq<Move>, m: Move, batch: nat, dispatch: nat)
    requires Moves(g, ms, batch, dispatch) && Allowed(Final(g, ms, batch, dispatch), m, batch, dispatch)
    ensures Moves(g, ms + [m], batch, dispatch)
    ensures Final(g, ms + [m], batch, dispatch) == Moved(Final(g, ms, batch, dispatch), m)
    decreases |ms|
  {
    hide Moved, Enabled;
    if ms == [] {
      assert [m][1..] == [];
    } else {
      ExtendMoves(Moved(g, ms[0]), ms[1..], m, batch, dispatch);
      assert (ms + [m])[1..] == ms[1..] + [m];
    }
  }

  lemma Next(start: Gated, ms: seq<Move>, g: Gated, m: Move, batch: nat, dispatch: nat) returns (ns: seq<Move>, h: Gated)
    requires Arrives(start, ms, g, batch, dispatch) && Allowed(g, m, batch, dispatch)
    ensures h == Moved(g, m) && Arrives(start, ns, h, batch, dispatch)
    ensures Undivided(ms) && !m.Divide? ==> Undivided(ns)
  {
    ExtendMoves(start, ms, m, batch, dispatch);
    ns, h := ms + [m], Moved(g, m);
  }

  /** A pull that is on its way brings a full answer. */
  lemma AnswerInFull(start: Gated, ms: seq<Move>, g: Gated, batch: nat, dispatch: nat) returns (ns: seq<Move>, h: Gated)
    requires 1 <= dispatch && Arrives(start, ms, g, batch, dispatch) && g.open && g.queue.owned && !g.queue.frozen
    ensures Undivided(ms) ==> Undivided(ns)
    ensures Arrives(start, ns, h, batch, dispatch) && Held(h) == Held(g) + batch
    ensures |Visible(h.queue)| == |Visible(g.queue)| + batch
    ensures h.queue == OnFound(g.queue, NextRows(g.queue, batch), g.queue.cursor + batch) && h.quota == g.quota
  {
    assert Reached(g, batch, dispatch);
    ReachedIsSane(g, batch, dispatch);
    FullAnswer(g.queue, batch);
    hide Undivided, Arrives, Reached, Outstanding, PulledBelow, Visible;
    ns, h := Next(start, ms, g, Act(Found(NextRows(g.queue, batch), g.queue.cursor + batch)), batch, dispatch);
  }

  /** A queue just assigned, with one full answer in and the next pull let through. */
  lemma OneAnswerIn(start: Gated, batch: nat, dispatch: nat) returns (ms: seq<Move>, g: Gated)
    requires Starts(start) && 1 <= dispatch && batch <= start.quota
    ensures Arrives(start, ms, g, batch, dispatch) && g.open && g.queue.owned && !g.queue.frozen && Held(g) == batch
    ensures g.quota == start.quota && g.queue.hand.Idle? && g.queue.inflight == [] && |g.queue.pending| == batch
  {
    ms, g := [], start;
    assert Arrives(start, ms, g, batch, dispatch);
    assert Outstanding(g.queue) == {} && Visible(g.queue) == {};
    hide Arrives;
    ms, g := Next(start, ms, g, Act(Rebuild(0)), batch, dispatch);
    assert Outstanding(g.queue) == {} && Visible(g.queue) == {};
    ms, g := Next(start, ms, g, Ask, batch, dispatch);
    ms, g := AnswerInFull(start, ms, g, batch, dispatch);
    assert Visible(g.queue) == Outstanding(g.queue);
    hide Visible, Outstanding;
    ms, g := Next(start, ms, g, Ask, batch, dispatch);
  }

  /** The first half, for every old quota, new quota and size of answers: a pull let through under the old quota comes
      in after the division, and the queue holds what it held and a whole answer, however small its new quota is. */
  lemma LatePullComesInAnyway(start: Gated, after: nat, batch: nat, dispatch: nat)
    returns (ms: seq<Move>, g: Gated, ns: seq<Move>, h: Gated)
    requires 1 <= dispatch && Starts(start) && batch <= start.quota
    ensures Arrives(start, ms, g, batch, dispatch) && g.open && g.quota == after && Held(g) == batch
    ensures Undivided(ns) && Moves(g, ns, batch, dispatch) && Final(g, ns, batch, dispatch) == h
    ensures Held(h) == Coming(g, batch) == batch + batch
  {
    ms, g := OneAnswerIn(start, batch, dispatch);
    hide Arrives;
    ms, g := Next(start, ms, g, Divide(after), batch, dispatch);
    var all, t := AnswerInFull(start, ms, g, batch, dispatch);
    var s := g.queue;
    ns, h := [Act(Found(NextRows(s, batch), s.cursor + batch))], t;
    assert ns[1..] == [];
    assert Answer(s, NextRows(s, batch), s.cursor + batch);
    hide Answer, Held;
    assert Moved(g, ns[0]).queue == h.queue;
    h := Moved(g, ns[0]);
  }

  /** One more row, asked for while the gate sees no more than the quota. */
  lemma PullOne(start: Gated, ms: seq<Move>, g: Gated, batch: nat, dispatch: nat) returns (ns: seq<Move>, h: Gated)
    requires 1 <= dispatch && 1 <= batch && Arrives(start, ms, g, batch, dispatch) && |Visible(g.queue)| <= g.quota
    requires g.queue.owned && !g.queue.frozen
    ensures Undivided(ms) ==> Undivided(ns)
    ensures Arrives(start, ns, h, batch, dispatch) && h.quota == g.quota
    ensures Held(h) == Held(g) + 1 && |Visible(h.queue)| == |Visible(g.queue)| + 1
    ensures h.queue == OnFound(g.queue, NextRows(g.queue, 1), g.queue.cursor + 1)
  {
    assert Reached(g, batch, dispatch);
    ReachedIsSane(g, batch, dispatch);
    FullAnswer(g.queue, 1);
    hide Undivided, Arrives, Reached, Outstanding, PulledBelow, Visible;
    ns, h := Next(start, ms, g, Ask, batch, dispatch);
    ns, h := Next(start, ns, h, Act(Found(NextRows(g.queue, 1), g.queue.cursor + 1)), batch, dispatch);
  }

  /** Row by row the gate can be brought to see any number up to one past the quota. */
  lemma {:induction false} FillTo(start: Gated, ms: seq<Move>, g: Gated, batch: nat, dispatch: nat, n: nat)
    returns (ns: seq<Move>, h: Gated)
    requires 1 <= dispatch && 1 <= batch && Arrives(start, ms, g, batch, dispatch)
    requires |Visible(g.queue)| <= n <= g.quota + 1 && g.queue.owned && !g.queue.frozen
    ensures Undivided(ms) ==> Undivided(ns)
    ensures Arrives(start, ns, h, batch, dispatch) && h.quota == g.quota && h.queue.owned && !h.queue.frozen
    ensures |Visible(h.queue)| == n && Held(h) == Held(g) + n - |Visible(g.queue)|
    ensures h.queue.hand == g.queue.hand && h.queue.inflight == g.queue.inflight
    ensures |h.queue.pending| == |g.queue.pending| + n - |Visible(g.queue)|
    decreases n - |Visible(g.queue)|
  {
    hide Undivided, Arrives, Visible, Held;
    ns, h := ms, g;
    if |Visible(g.queue)| < n {
      ns, h := PullOne(start, ms, g, batch, dispatch);
      ns, h := FillTo(start, ns, h, batch, dispatch, n);
    }
  }

  lemma TakeHides(s: Push, n: nat)
    requires s.hand.Idle? && s.inflight == [] && 1 <= n == |s.pending|
    ensures Outstanding(OnTake(s, n)) == Outstanding(s) && Visible(OnTake(s, n)) == {}
  {
    assert s.pending[..n] == s.pending && s.pending[n..] == [];
    assert Entries(s) == s.pending && Entries(OnTake(s, n)) == [];
  }

  /** A batch of `dispatch` messages has been taken, and the gate sees nothing. */
  lemma AllTaken(start: Gated, batch: nat, dispatch: nat) returns (ms: seq<Move>, g: Gated)
    requires 1 <= batch && 1 <= dispatch <= start.quota + 1 && Starts(start)
    ensures Arrives(start, ms, g, batch, dispatch) && g.quota == start.quota
    ensures g.queue.owned && !g.queue.frozen && Undivided(ms)
    ensures Held(g) == dispatch && Visible(g.queue) == {}
  {
    ms, g := [], start;
    assert Arrives(start, ms, g, batch, dispatch) && Undivided(ms);
    hide Arrives, Undivided;
    ms, g := Next(start, ms, g, Act(Rebuild(0)), batch, dispatch);
    assert Outstanding(g.queue) == {} && Visible(g.queue) == {};
    hide Visible, Outstanding;
    ms, g := FillTo(start, ms, g, batch, dispatch, dispatch);
    TakeHides(g.queue, dispatch);
    ms, g := Next(start, ms, g, Act(Take(dispatch)), batch, dispatch);
  }

  /** The second half is reached too, for every quota, every size of answers and every dispatch of at most one more than
      the quota: the batch just taken is hidden from the gate. */
  lemma HiddenBatchSlipsPastTheGate(start: Gated, batch: nat, dispatch: nat) returns (ms: seq<Move>, g: Gated)
    requires 1 <= batch && 1 <= dispatch <= start.quota + 1 && Starts(start)
    ensures Arrives(start, ms, g, batch, dispatch) && g.quota == start.quota && Undivided(ms)
    ensures Held(g) == start.quota + dispatch + batch
  {
    hide Arrives, Undivided, Visible, Outstanding;
    ms, g := AllTaken(start, batch, dispatch);
    ms, g := FillTo(start, ms, g, batch, dispatch, start.quota);
    ms, g := Next(start, ms, g, Ask, batch, dispatch);
    ms, g := AnswerInFull(start, ms, g, batch, dispatch);
  }
}
