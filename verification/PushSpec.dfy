/**
 * One queue of the push consumer, as the lock sections of its four actors see it: the pull thread that
 * fills the buffer, the dispatch thread that takes a batch, runs the listener and settles the result, the
 * sweep that sends expired messages back, and the rebalance that retires and rebuilds the queue.
 *
 * A message object is identified by its queue offset and by the generation (epoch) of the buffer that
 * pulled it: within one generation the pull cursor only moves forward, so no offset is pulled twice.
 */
module PushSpec {
  import opened Messages

  datatype Msg = Msg(offset: nat, epoch: nat)

  /** Where the dispatch thread stands with the batch it took from this queue. */
  datatype Hand =
    | Idle
    | Taken(batch: seq<Msg>, epoch: nat)
    | Passed(batch: seq<Msg>, epoch: nat)
    | Listening(batch: seq<Msg>, epoch: nat)
    | Settling(batch: seq<Msg>, epoch: nat, at: nat, sure: bool, failed: seq<Msg>)
    | Settled(batch: seq<Msg>, epoch: nat, failed: seq<Msg>)
    | Closing(batch: seq<Msg>, epoch: nat)

  /** Where the sweep stands with the expired head it selected. */
  datatype Sweep = Resting | Picked(msg: Msg) | Returned(msg: Msg)

  /**
   * `pulled`, `acked`, `dropped` and `sent` record history; the rest is the consumer's own state.
   * `cursor` is the offset the next pull asks for, `offset` the consumed offset that gets committed.
   */
  datatype Push = Push(
    broadcast: bool,
    owned: bool,
    alive: bool,
    pending: seq<Msg>,
    inflight: seq<Msg>,
    epoch: nat,
    cursor: nat,
    offset: Option<nat>,
    frozen: bool,
    hand: Hand,
    sweep: Sweep,
    stamped: set<Msg>,
    pulled: set<Msg>,
    acked: set<Msg>,
    dropped: set<Msg>,
    sent: multiset<Msg>)

  function Fresh(broadcast: bool): Push {
    Push(broadcast, false, false, [], [], 0, 0, None, false, Idle, Resting, {}, {}, {}, {}, multiset{})
  }

  function Members(ms: seq<Msg>): set<Msg> {
    set m | m in ms
  }

  /** The messages of `ms` that the in-flight registration still lists. */
  function Attached(ms: seq<Msg>, inflight: seq<Msg>): set<Msg> {
    set m | m in ms && m in inflight
  }

  /** The messages of `ms` that are not in `gone`, in order. */
  function Others(ms: seq<Msg>, gone: seq<Msg>): (r: seq<Msg>)
    ensures forall m :: m in r <==> m in ms && m !in gone
  {
    if ms == [] then []
    else if ms[0] in gone then Others(ms[1..], gone)
    else [ms[0]] + Others(ms[1..], gone)
  }

  /** The first of the entries with the smallest queue offset. */
  function Head(ms: seq<Msg>): (r: Msg)
    requires ms != []
    ensures r in ms
    ensures forall m :: m in ms ==> r.offset <= m.offset
  {
    if |ms| == 1 then ms[0]
    else
      var rest := Head(ms[1..]);
      if ms[0].offset <= rest.offset then ms[0] else rest
  }

  function MaxOffset(ms: seq<Msg>): (r: nat)
    requires ms != []
    ensures exists m :: m in ms && m.offset == r
    ensures forall m :: m in ms ==> m.offset <= r
  {
    if |ms| == 1 then ms[0].offset
    else
      var rest := MaxOffset(ms[1..]);
      if ms[0].offset <= rest then rest else ms[0].offset
  }

  /** The offset a settled batch moves to: past what it settled, and never past what it put back. */
  function NextOffset(processed: seq<Msg>, failed: seq<Msg>): (r: nat)
    requires processed != []
    ensures r <= MaxOffset(processed) + 1
    ensures forall m :: m in failed ==> r <= m.offset
    ensures r == MaxOffset(processed) + 1 || exists m :: m in failed && m.offset == r
  {
    var top := MaxOffset(processed) + 1;
    if failed != [] && Head(failed).offset < top then Head(failed).offset else top
  }

  /** An offset never falls. */
  function Raise(offset: Option<nat>, to: nat): (r: Option<nat>)
    ensures r.Some? && r.value >= to && (offset.Some? ==> r.value >= offset.value)
    ensures r == Some(to) || r == offset
  {
    match offset
    case None => Some(to)
    case Some(c) => Some(if c < to then to else c)
  }

  datatype Status = Success | ReconsumeLater | Null | Raised

  /**
   * Where the tail to redeliver starts, given one more than the acknowledged index. The batch is cut with a
   * slice, and a negative bound of a slice counts from the end.
   */
  function TailStart(size: nat, bound: int): (r: nat)
    ensures r <= size
  {
    if bound >= 0 then (if bound < size then bound else size)
    else if size + bound < 0 then 0 else size + bound
  }

  /** One more than the index up to which the listener's answer acknowledges. */
  function AckBound(status: Status, ackIndex: int, size: nat): int {
    if status != Success then 0
    else if ackIndex >= size then size else ackIndex + 1
  }

  function Tail(batch: seq<Msg>, status: Status, ackIndex: int): seq<Msg> {
    batch[TailStart(|batch|, AckBound(status, ackIndex, |batch|))..]
  }

  /**
   * What is redelivered: the whole batch unless the listener reported success; after a success what lies behind the index
   * it set, nothing for an index past the end; and for an index below -1, which counts from the end, that many messages
   * less one, or the whole batch if there are not so many.
   */
  lemma TailIs(batch: seq<Msg>, status: Status, ackIndex: int)
    ensures status != Success ==> Tail(batch, status, ackIndex) == batch
    ensures status == Success && -1 <= ackIndex < |batch| ==> Tail(batch, status, ackIndex) == batch[ackIndex + 1..]
    ensures status == Success && ackIndex >= |batch| ==> Tail(batch, status, ackIndex) == []
    ensures status == Success && ackIndex < -1 ==>
              Tail(batch, status, ackIndex) ==
                if |batch| + ackIndex + 1 <= 0 then batch else batch[|batch| + ackIndex + 1..]
  {
    assert batch[0..] == batch && batch[|batch|..] == [];
  }

  /** The broker's answer to the attempt to send back `tail[i]` is `answers[i]`: those answered with `ok`. */
  function Answered(tail: seq<Msg>, attached: seq<Msg>, answers: seq<bool>, ok: bool): (r: seq<Msg>)
    requires |answers| == |tail|
    ensures forall m :: m in r ==> m in tail && m in attached
  {
    if tail == [] then []
    else
      var n := |tail| - 1;
      var front := Answered(tail[..n], attached, answers[..n], ok);
      if tail[n] in attached && answers[n] == ok then front + [tail[n]] else front
  }

  /** Everything attached is answered one way or the other, and nothing else. */
  lemma {:induction false} AttachedIsAnswered(tail: seq<Msg>, attached: seq<Msg>, answers: seq<bool>, m: Msg)
    requires |answers| == |tail|
    ensures m in Answered(tail, attached, answers, true) + Answered(tail, attached, answers, false)
       <==> m in tail && m in attached
  {
    if tail != [] {
      var n := |tail| - 1;
      AttachedIsAnswered(tail[..n], attached, answers[..n], m);
      assert tail == tail[..n] + [tail[n]];
    }
  }

  /** The messages of the tail that are no longer attached: swept, or of a revoked queue. */
  function Skipped(tail: seq<Msg>, attached: seq<Msg>): seq<Msg> {
    if tail == [] then []
    else
      var n := |tail| - 1;
      Skipped(tail[..n], attached) + (if tail[n] in attached then [] else [tail[n]])
  }

  function Entries(s: Push): seq<Msg> {
    s.inflight + s.pending
  }

  predicate IsHead(s: Push, m: Msg) {
    Entries(s) != [] && Head(Entries(s)) == m
  }

  function Unlink(ms: seq<Msg>, m: Msg): seq<Msg> {
    if ms != [] && ms[0] == m then ms[1..] else ms
  }

  datatype Event =
    | Found(rows: seq<Msg>, next: nat)
    | NoMatch(next: nat)
    | Illegal(next: nat)
    | Retire
    | Rebuild(start: nat)
    | Take(size: nat)
    | Enter
    | Register
    | Return(acks: nat)
    | Check
    | SendBack(ok: bool)
    | Requeue
    | Advance
    | Deregister
    | SweepPick
    | SweepSend(ok: bool)
    | SweepRemove

  predicate Ascending(ms: seq<Msg>) {
    forall i, j :: 0 <= i < j < |ms| ==> ms[i].offset < ms[j].offset
  }

  /** What a pull answer brings: new rows at or past the cursor it was asked with, in offset order. */
  predicate Answer(s: Push, rows: seq<Msg>, next: nat) {
    && s.cursor <= next
    && Ascending(rows)
    && forall m :: m in rows ==> m.epoch == s.epoch && s.cursor <= m.offset < next
  }

  // ---- the lock sections, one function each -----------------------------------------------------

  function OnFound(s: Push, rows: seq<Msg>, next: nat): Push {
    s.(alive := true, pending := s.pending + rows, cursor := next, pulled := s.pulled + Members(rows))
  }

  function OnNoMatch(s: Push, next: nat): Push {
    var t := s.(alive := true, cursor := next);
    if s.pending == [] && s.hand.Idle? then t.(offset := Raise(s.offset, next)) else t
  }

  function OnIllegal(s: Push, next: nat): Push {
    s.(alive := true, cursor := next, offset := Some(next), frozen := true)
  }

  function OnRetire(s: Push): Push {
    s.(owned := false, alive := false, pending := [], inflight := [], epoch := s.epoch + 1, offset := None)
  }

  function OnRebuild(s: Push, start: nat): Push {
    s.(owned := true, frozen := false, cursor := start)
  }

  /** How many messages one dispatch takes. */
  function BatchSize(s: Push, size: nat): (n: nat)
    requires s.pending != []
    ensures 1 <= n <= |s.pending|
  {
    var wanted := if size < 1 then 1 else size;
    if |s.pending| < wanted then |s.pending| else wanted
  }

  function OnTake(s: Push, size: nat): Push
    requires s.pending != []
  {
    var n := BatchSize(s, size);
    s.(pending := s.pending[n..], hand := Taken(s.pending[..n], s.epoch))
  }

  function OnEnter(s: Push): Push
    requires s.hand.Taken?
  {
    s.(hand := if s.hand.epoch == s.epoch then Passed(s.hand.batch, s.hand.epoch) else Idle)
  }

  function OnRegister(s: Push): Push
    requires s.hand.Passed?
  {
    s.(inflight := s.inflight + s.hand.batch,
       hand := Listening(s.hand.batch, s.hand.epoch),
       stamped := s.stamped + Members(s.hand.batch))
  }

  /** The listener's verdict, as the number of leading messages it acknowledged. */
  function OnReturn(s: Push, acks: nat): Push
    requires s.hand.Listening? && acks <= |s.hand.batch|
  {
    var acked := Attached(s.hand.batch[..acks], s.inflight);
    if s.broadcast then
      s.(hand := Settled(s.hand.batch, s.hand.epoch, []), acked := s.acked + acked,
         dropped := s.dropped + Attached(s.hand.batch[acks..], s.inflight))
    else
      s.(hand := Settling(s.hand.batch, s.hand.epoch, acks, false, []), acked := s.acked + acked)
  }

  predicate AtMessage(h: Hand) {
    h.Settling? && h.at < |h.batch|
  }

  function OnCheck(s: Push): Push
    requires AtMessage(s.hand)
  {
    var h := s.hand;
    s.(hand := if h.batch[h.at] in Entries(s) then h.(sure := true) else h.(at := h.at + 1))
  }

  function OnSendBack(s: Push, ok: bool): Push
    requires AtMessage(s.hand)
  {
    var h := s.hand;
    var m := h.batch[h.at];
    if ok then s.(hand := h.(at := h.at + 1, sure := false), sent := s.sent + multiset{m})
    else s.(hand := h.(at := h.at + 1, sure := false, failed := h.failed + [m]))
  }

  function OnRequeue(s: Push): Push
    requires s.hand.Settling?
  {
    s.(pending := if s.alive then s.hand.failed + s.pending else s.pending,
       hand := Settled(s.hand.batch, s.hand.epoch, s.hand.failed))
  }

  function OnAdvance(s: Push): Push
    requires s.hand.Settled?
  {
    var processed := Others(s.hand.batch, s.hand.failed);
    s.(hand := Closing(s.hand.batch, s.hand.epoch),
       offset := if processed == [] || s.hand.epoch != s.epoch || s.frozen then s.offset
                 else Raise(s.offset, NextOffset(processed, s.hand.failed)))
  }

  function OnDeregister(s: Push): Push
    requires s.hand.Closing?
  {
    s.(inflight := Others(s.inflight, s.hand.batch), hand := Idle)
  }

  function OnSweepPick(s: Push): Push
    requires Entries(s) != []
  {
    s.(sweep := Picked(Head(Entries(s))))
  }

  function OnSweepSend(s: Push, ok: bool): Push
    requires s.sweep.Picked?
  {
    if ok then s.(sweep := Returned(s.sweep.msg), sent := s.sent + multiset{s.sweep.msg})
    else s.(sweep := Resting)
  }

  function OnSweepRemove(s: Push): Push
    requires s.sweep.Returned?
  {
    var m := s.sweep.msg;
    if IsHead(s, m) then
      s.(sweep := Resting, inflight := Others(s.inflight, [m]), pending := Unlink(s.pending, m))
    else s.(sweep := Resting)
  }

  predicate Enabled(s: Push, e: Event) {
    match e
    case Found(rows, next) => s.owned && !s.frozen && Answer(s, rows, next)
    case NoMatch(next) => s.owned && !s.frozen && s.cursor <= next
    case Illegal(_) => s.owned && !s.frozen
    case Retire => s.owned
    case Rebuild(_) => !s.owned
    case Take(_) => s.hand.Idle? && s.owned && s.pending != []
    case Enter => s.hand.Taken?
    case Register => s.hand.Passed?
    case Return(acks) => s.hand.Listening? && acks <= |s.hand.batch|
    case Check => AtMessage(s.hand) && !s.hand.sure
    case SendBack(_) => AtMessage(s.hand) && s.hand.sure
    case Requeue => s.hand.Settling? && s.hand.at == |s.hand.batch|
    case Advance => s.hand.Settled?
    case Deregister => s.hand.Closing?
    case SweepPick => s.sweep.Resting? && Entries(s) != [] && Head(Entries(s)) in s.stamped
    case SweepSend(_) => s.sweep.Picked?
    case SweepRemove => s.sweep.Returned?
  }

  function After(s: Push, e: Event): Push
    requires Enabled(s, e)
  {
    match e
    case Found(rows, next) => OnFound(s, rows, next)
    case NoMatch(next) => OnNoMatch(s, next)
    case Illegal(next) => OnIllegal(s, next)
    case Retire => OnRetire(s)
    case Rebuild(start) => OnRebuild(s, start)
    case Take(size) => OnTake(s, size)
    case Enter => OnEnter(s)
    case Register => OnRegister(s)
    case Return(acks) => OnReturn(s, acks)
    case Check => OnCheck(s)
    case SendBack(ok) => OnSendBack(s, ok)
    case Requeue => OnRequeue(s)
    case Advance => OnAdvance(s)
    case Deregister => OnDeregister(s)
    case SweepPick => OnSweepPick(s)
    case SweepSend(ok) => OnSweepSend(s, ok)
    case SweepRemove => OnSweepRemove(s)
  }

  lemma AscendingIsDistinct(b: seq<Msg>, at: nat)
    requires Ascending(b) && at < |b|
    ensures b[at] !in b[..at] && b[at] !in b[at + 1..]
  {
  }

  lemma UnlinkDropsOne(ms: seq<Msg>, m: Msg)
    requires Ascending(ms)
    requires m in ms ==> ms[0] == m
    ensures forall x :: x in Unlink(ms, m) <==> x in ms && x != m
    ensures Ascending(Unlink(ms, m))
  {
    if ms != [] {
      assert ms == [ms[0]] + ms[1..];
      AscendingIsDistinct(ms, 0);
    }
  }
}
