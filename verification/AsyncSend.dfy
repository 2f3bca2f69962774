/**
 * Asynchronous sends behind two fair semaphores: one permit per send, then one permit per body byte. A send
 * refused at the second gate gives the first permit back and never reaches the executor.
 */
module AsyncSend {
  import opened FairSemaphore

  const MIN_SENDS: int := 10
  const MIN_BYTES: int := 1024 * 1024

  /** The configured capacities have floors. */
  function Capacity(configured: int, floor: int): (r: int)
    ensures r >= floor && r >= configured && (r == floor || r == configured)
  {
    if configured > floor then configured else floor
  }

  /** The bytes a send counts for: its body or bodies, an empty one and an empty batch for one. */
  function SendLength(bodies: seq<nat>): (r: nat)
    ensures r >= 1 && r >= |bodies|
    ensures |bodies| == 1 && bodies[0] > 0 ==> r == bodies[0]
  {
    assert |bodies| == 1 ==> SumLengths(bodies[1..]) == 0 && SumLengths(bodies) == if bodies[0] == 0 then 1 else bodies[0];
    var sum := SumLengths(bodies);
    if sum == 0 then 1 else sum
  }

  function SumLengths(bodies: seq<nat>): (r: nat)
    ensures r >= |bodies|
  {
    if bodies == [] then 0 else (if bodies[0] == 0 then 1 else bodies[0]) + SumLengths(bodies[1..])
  }

  /** A batch counts for its parts; nothing at all counts for one byte. */
  lemma {:induction false} SendLengthAdds(a: seq<nat>, b: seq<nat>)
    ensures SendLength([]) == 1
    ensures |a| == 1 ==> SendLength(a) == if a[0] == 0 then 1 else a[0]
    ensures a != [] && b != [] ==> SendLength(a + b) == SendLength(a) + SendLength(b)
  {
    SumLengthsAdds(a, b);
  }

  lemma {:induction false} SumLengthsAdds(a: seq<nat>, b: seq<nat>)
    ensures SumLengths(a + b) == SumLengths(a) + SumLengths(b)
  {
    if a == [] {
      assert a + b == b;
    } else {
      assert (a + b)[1..] == a[1..] + b;
      SumLengthsAdds(a[1..], b);
    }
  }

  datatype Stage = WaitsForSlot | HasSlot | WaitsForBytes | Submitted | Finished | Rejected

  datatype Send = Send(length: nat, stage: Stage)

  /** A send is named by its position; `landed` lists the sends handed to the executor. */
  datatype Gate = Gate(slots: Sem, bytes: Sem, sends: seq<Send>, landed: seq<nat>)

  function Opening(slots: int, bytes: int): Gate {
    Gate(FairSemaphore.Fresh(Capacity(slots, MIN_SENDS)), FairSemaphore.Fresh(Capacity(bytes, MIN_BYTES)), [], [])
  }

  function Slots(s: Send): nat {
    if s.stage.HasSlot? || s.stage.WaitsForBytes? || s.stage.Submitted? then 1 else 0
  }

  function Bytes(s: Send): nat {
    if s.stage.Submitted? then s.length else 0
  }

  function SlotsHeld(sends: seq<Send>): nat {
    if sends == [] then 0 else SlotsHeld(sends[..|sends| - 1]) + Slots(sends[|sends| - 1])
  }

  function BytesHeld(sends: seq<Send>): nat {
    if sends == [] then 0 else BytesHeld(sends[..|sends| - 1]) + Bytes(sends[|sends| - 1])
  }

  datatype Event =
    | Start(length: nat, spent: bool, late: bool)
    | SlotLook(k: nat, late: bool)
    | AskBytes(id: nat, spent: bool, late: bool)
    | BytesLook(k: nat, late: bool)
    | Complete(id: nat)
    | ResizeSlots(configured: int)
    | ResizeBytes(configured: int)

  predicate Enabled(g: Gate, e: Event) {
    match e
    case Start(length, _, _) => length >= 1
    case SlotLook(k, _) => k < |g.slots.queue| && g.slots.queue[k].id < |g.sends|
    case AskBytes(id, _, _) => id < |g.sends| && g.sends[id].stage.HasSlot?
    case BytesLook(k, _) => k < |g.bytes.queue| && g.bytes.queue[k].id < |g.sends|
    case Complete(id) => id < |g.sends| && (g.sends[id].stage.Submitted? || g.sends[id].stage.Finished?)
    case _ => true
  }

  function AfterSlot(o: Outcome): Stage {
    match o
    case Granted => HasSlot
    case Refused => Rejected
    case Waits => WaitsForSlot
  }

  function SetStage(sends: seq<Send>, id: nat, stage: Stage): seq<Send>
    requires id < |sends|
  {
    sends[id := sends[id].(stage := stage)]
  }

  /** What follows the byte gate: the executor, a longer wait, or the first permit back. */
  function AfterBytes(g: Gate, id: nat, bytes: Sem, o: Outcome): Gate
    requires id < |g.sends|
  {
    match o
    case Granted => Gate(g.slots, bytes, SetStage(g.sends, id, Submitted), g.landed + [id])
    case Refused => Gate(Release(g.slots, 1), bytes, SetStage(g.sends, id, Rejected), g.landed)
    case Waits => Gate(g.slots, bytes, SetStage(g.sends, id, WaitsForBytes), g.landed)
  }

  function OnStart(g: Gate, length: nat, spent: bool, late: bool): Gate {
    var id := |g.sends|;
    if spent then g.(sends := g.sends + [Send(length, Rejected)])
    else
      var o := OutcomeAt(Joined(g.slots, id, 1), |g.slots.queue|, false, late);
      g.(slots := Arrive(g.slots, id, 1, late), sends := g.sends + [Send(length, AfterSlot(o))])
  }

  function OnSlotLook(g: Gate, k: nat, late: bool): Gate
    requires k < |g.slots.queue| && g.slots.queue[k].id < |g.sends|
  {
    var id := g.slots.queue[k].id;
    g.(slots := Pass(g.slots, k, true, late),
       sends := SetStage(g.sends, id, AfterSlot(OutcomeAt(g.slots, k, true, late))))
  }

  function OnAskBytes(g: Gate, id: nat, spent: bool, late: bool): Gate
    requires id < |g.sends|
  {
    if spent then AfterBytes(g, id, g.bytes, Refused)
    else
      var length := g.sends[id].length;
      AfterBytes(g, id, Arrive(g.bytes, id, length, late),
                 OutcomeAt(Joined(g.bytes, id, length), |g.bytes.queue|, false, late))
  }

  function OnBytesLook(g: Gate, k: nat, late: bool): Gate
    requires k < |g.bytes.queue| && g.bytes.queue[k].id < |g.sends|
  {
    AfterBytes(g, g.bytes.queue[k].id, Pass(g.bytes, k, true, late), OutcomeAt(g.bytes, k, true, late))
  }

  /** The callback gives the permits back once, however often it is called. */
  function OnComplete(g: Gate, id: nat): Gate
    requires id < |g.sends|
  {
    if g.sends[id].stage.Finished? then g
    else
      g.(bytes := Release(g.bytes, g.sends[id].length), slots := Release(g.slots, 1),
         sends := SetStage(g.sends, id, Finished))
  }

  function After(g: Gate, e: Event): Gate
    requires Enabled(g, e)
  {
    match e
    case Start(length, spent, late) => OnStart(g, length, spent, late)
    case SlotLook(k, late) => OnSlotLook(g, k, late)
    case AskBytes(id, spent, late) => OnAskBytes(g, id, spent, late)
    case BytesLook(k, late) => OnBytesLook(g, k, late)
    case Complete(id) => OnComplete(g, id)
    case ResizeSlots(configured) => g.(slots := Resize(g.slots, Capacity(configured, MIN_SENDS)))
    case ResizeBytes(configured) => g.(bytes := Resize(g.bytes, Capacity(configured, MIN_BYTES)))
  }

  predicate Runs(g: Gate, es: seq<Event>)
    decreases |es|
  {
    es == [] || (Enabled(g, es[0]) && Runs(After(g, es[0]), es[1..]))
  }

  function End(g: Gate, es: seq<Event>): Gate
    requires Runs(g, es)
    decreases |es|
  {
    if es == [] then g else End(After(g, es[0]), es[1..])
  }

  // ---- what every run keeps -----------------------------------------------------------------------

  /** A queue lists, once each, sends that are at that gate. */
  predicate Lists(queue: seq<Ticket>, sends: seq<Send>, stage: Stage) {
    && (forall k :: 0 <= k < |queue| ==> queue[k].id < |sends| && sends[queue[k].id].stage == stage)
    && (forall i, j :: 0 <= i < j < |queue| ==> queue[i].id != queue[j].id)
  }

  predicate Priced(g: Gate) {
    && (forall k :: 0 <= k < |g.slots.queue| ==> g.slots.queue[k].permits == 1)
    && (forall k :: 0 <= k < |g.bytes.queue| && g.bytes.queue[k].id < |g.sends| ==>
          g.bytes.queue[k].permits == g.sends[g.bytes.queue[k].id].length)
    && (forall i :: 0 <= i < |g.sends| ==> g.sends[i].length >= 1)
  }

  predicate Queued(g: Gate) {
    Lists(g.slots.queue, g.sends, WaitsForSlot) && Lists(g.bytes.queue, g.sends, WaitsForBytes) && Priced(g)
  }

  /** Free permits and the sends in flight make up the capacity, at both gates. */
  predicate Accounted(g: Gate) {
    && g.slots.free + SlotsHeld(g.sends) == g.slots.total
    && g.bytes.free + BytesHeld(g.sends) == g.bytes.total
  }

  /** Exactly the sends that passed both gates were handed to the executor, once each. */
  predicate Landed(g: Gate) {
    && (forall i :: 0 <= i < |g.sends| ==>
          (i in g.landed <==> g.sends[i].stage.Submitted? || g.sends[i].stage.Finished?))
    && (forall i :: i in g.landed ==> i < |g.sends|)
    && (forall i, j :: 0 <= i < j < |g.landed| ==> g.landed[i] != g.landed[j])
  }

  predicate Inv(g: Gate) {
    Queued(g) && Accounted(g) && Landed(g)
  }

  lemma {:induction false} HeldAfterUpdate(sends: seq<Send>, id: nat, s: Send)
    requires id < |sends|
    ensures SlotsHeld(sends[id := s]) == SlotsHeld(sends) - Slots(sends[id]) + Slots(s)
    ensures BytesHeld(sends[id := s]) == BytesHeld(sends) - Bytes(sends[id]) + Bytes(s)
    decreases |sends|
  {
    var n := |sends| - 1;
    if id == n {
      assert sends[id := s][..n] == sends[..n];
    } else {
      HeldAfterUpdate(sends[..n], id, s);
      assert sends[id := s][..n] == sends[..n][id := s];
    }
  }

  lemma HeldAfterNew(sends: seq<Send>, s: Send)
    ensures SlotsHeld(sends + [s]) == SlotsHeld(sends) + Slots(s)
    ensures BytesHeld(sends + [s]) == BytesHeld(sends) + Bytes(s)
  {
    assert (sends + [s])[..|sends|] == sends;
  }

  /** The queue after one pass lists the sends still waiting there. */
  lemma PassLists(sem: Sem, sends: seq<Send>, k: nat, woken: bool, late: bool, stage: Stage, next: Stage)
    requires k < |sem.queue| && Lists(sem.queue, sends, stage)
    requires OutcomeAt(sem, k, woken, late) == Waits ==> next == stage
    ensures Lists(Pass(sem, k, woken, late).queue, SetStage(sends, sem.queue[k].id, next), stage)
  {
  }

  lemma JoinLists(sem: Sem, sends: seq<Send>, id: nat, permits: int, stage: Stage)
    requires Lists(sem.queue, sends, stage) && id < |sends| && sends[id].stage != stage
    ensures Lists(Joined(sem, id, permits).queue, SetStage(sends, id, stage), stage)
  {
  }

  lemma WokenLists(queue: seq<Ticket>, sends: seq<Send>, id: nat, stage: Stage, next: Stage)
    requires Lists(queue, sends, stage) && id < |sends| && sends[id].stage != stage && next != stage
    ensures Lists(queue, SetStage(sends, id, next), stage)
    ensures Lists(WakeAll(queue), SetStage(sends, id, next), stage)
  {
  }

  lemma NewcomerLists(queue: seq<Ticket>, sends: seq<Send>, s: Send, stage: Stage)
    requires Lists(queue, sends, stage)
    ensures Lists(queue, sends + [s], stage)
  {
  }

  lemma StartLists(g: Gate, length: nat, late: bool)
    requires Inv(g)
    ensures var t := OnStart(g, length, false, late);
      Lists(t.slots.queue, t.sends, WaitsForSlot) && Lists(t.bytes.queue, t.sends, WaitsForBytes)
  {
    var id, sem := |g.sends|, Joined(g.slots, |g.sends|, 1);
    var next := AfterSlot(OutcomeAt(sem, |g.slots.queue|, false, late));
    var at := g.sends + [Send(length, WaitsForSlot)];
    NewcomerLists(g.slots.queue, g.sends, Send(length, WaitsForSlot), WaitsForSlot);
    NewcomerLists(g.bytes.queue, g.sends, Send(length, next), WaitsForBytes);
    assert Lists(sem.queue, at, WaitsForSlot);
    PassLists(sem, at, |g.slots.queue|, false, late, WaitsForSlot, next);
    assert SetStage(at, id, next) == g.sends + [Send(length, next)];
    hide Lists, Accounted, Landed, Priced;
  }

  lemma StartPriced(g: Gate, length: nat, late: bool)
    requires Inv(g) && length >= 1
    ensures Priced(OnStart(g, length, false, late))
  {
    hide Accounted, Landed;
  }

  lemma StartQueued(g: Gate, length: nat, spent: bool, late: bool)
    requires Inv(g) && length >= 1
    ensures Queued(OnStart(g, length, spent, late))
  {
    if spent {
      NewcomerLists(g.slots.queue, g.sends, Send(length, Rejected), WaitsForSlot);
      NewcomerLists(g.bytes.queue, g.sends, Send(length, Rejected), WaitsForBytes);
    } else {
      StartLists(g, length, late);
      StartPriced(g, length, late);
    }
    hide Lists, Accounted, Landed;
  }

  lemma StartAccounted(g: Gate, length: nat, spent: bool, late: bool)
    requires Inv(g) && length >= 1
    ensures Accounted(OnStart(g, length, spent, late))
  {
    var o := OutcomeAt(Joined(g.slots, |g.sends|, 1), |g.slots.queue|, false, late);
    HeldAfterNew(g.sends, Send(length, if spent then Rejected else AfterSlot(o)));
  }

  lemma StartLanded(g: Gate, length: nat, spent: bool, late: bool)
    requires Inv(g) && length >= 1
    ensures Landed(OnStart(g, length, spent, late))
  {
  }

  lemma SlotLookQueued(g: Gate, k: nat, late: bool)
    requires Inv(g) && k < |g.slots.queue|
    ensures Queued(OnSlotLook(g, k, late))
  {
    var id, next := g.slots.queue[k].id, AfterSlot(OutcomeAt(g.slots, k, true, late));
    PassLists(g.slots, g.sends, k, true, late, WaitsForSlot, next);
    WokenLists(g.bytes.queue, g.sends, id, WaitsForBytes, next);
    hide Lists;
  }

  lemma SlotLookAccounted(g: Gate, k: nat, late: bool)
    requires Inv(g) && k < |g.slots.queue|
    ensures Accounted(OnSlotLook(g, k, late))
  {
    var id := g.slots.queue[k].id;
    HeldAfterUpdate(g.sends, id, g.sends[id].(stage := AfterSlot(OutcomeAt(g.slots, k, true, late))));
  }

  lemma SlotLookLanded(g: Gate, k: nat, late: bool)
    requires Inv(g) && k < |g.slots.queue|
    ensures Landed(OnSlotLook(g, k, late))
  {
  }

  lemma AskBytesQueued(g: Gate, id: nat, spent: bool, late: bool)
    requires Inv(g) && id < |g.sends| && g.sends[id].stage.HasSlot?
    ensures Queued(OnAskBytes(g, id, spent, late))
  {
    var next := OnAskBytes(g, id, spent, late).sends[id].stage;
    WokenLists(g.slots.queue, g.sends, id, WaitsForSlot, next);
    if spent {
      WokenLists(g.bytes.queue, g.sends, id, WaitsForBytes, next);
    } else {
      var at := SetStage(g.sends, id, WaitsForBytes);
      JoinLists(g.bytes, g.sends, id, g.sends[id].length, WaitsForBytes);
      PassLists(Joined(g.bytes, id, g.sends[id].length), at, |g.bytes.queue|, false, late, WaitsForBytes, next);
      assert SetStage(at, id, next) == SetStage(g.sends, id, next);
    }
    hide Lists;
  }

  lemma AskBytesAccounted(g: Gate, id: nat, spent: bool, late: bool)
    requires Inv(g) && id < |g.sends| && g.sends[id].stage.HasSlot?
    ensures Accounted(OnAskBytes(g, id, spent, late))
  {
    HeldAfterUpdate(g.sends, id, OnAskBytes(g, id, spent, late).sends[id]);
  }

  lemma AskBytesLanded(g: Gate, id: nat, spent: bool, late: bool)
    requires Inv(g) && id < |g.sends| && g.sends[id].stage.HasSlot?
    ensures Landed(OnAskBytes(g, id, spent, late))
  {
  }

  lemma BytesLookQueued(g: Gate, k: nat, late: bool)
    requires Inv(g) && k < |g.bytes.queue|
    ensures Queued(OnBytesLook(g, k, late))
  {
    var id := g.bytes.queue[k].id;
    var next := OnBytesLook(g, k, late).sends[id].stage;
    PassLists(g.bytes, g.sends, k, true, late, WaitsForBytes, next);
    WokenLists(g.slots.queue, g.sends, id, WaitsForSlot, next);
    hide Lists;
  }

  lemma BytesLookAccounted(g: Gate, k: nat, late: bool)
    requires Inv(g) && k < |g.bytes.queue|
    ensures Accounted(OnBytesLook(g, k, late))
  {
    var id := g.bytes.queue[k].id;
    HeldAfterUpdate(g.sends, id, OnBytesLook(g, k, late).sends[id]);
  }

  lemma BytesLookLanded(g: Gate, k: nat, late: bool)
    requires Inv(g) && k < |g.bytes.queue|
    ensures Landed(OnBytesLook(g, k, late))
  {
  }

  lemma CompleteQueued(g: Gate, id: nat)
    requires Inv(g) && id < |g.sends| && (g.sends[id].stage.Submitted? || g.sends[id].stage.Finished?)
    ensures Queued(OnComplete(g, id))
  {
  }

  lemma CompleteAccounted(g: Gate, id: nat)
    requires Inv(g) && id < |g.sends| && (g.sends[id].stage.Submitted? || g.sends[id].stage.Finished?)
    ensures Accounted(OnComplete(g, id))
  {
    HeldAfterUpdate(g.sends, id, OnComplete(g, id).sends[id]);
  }

  lemma CompleteLanded(g: Gate, id: nat)
    requires Inv(g) && id < |g.sends| && (g.sends[id].stage.Submitted? || g.sends[id].stage.Finished?)
    ensures Landed(OnComplete(g, id))
  {
  }

  lemma ResizeKeeps(g: Gate, total: int)
    requires Inv(g)
    ensures Inv(g.(slots := Resize(g.slots, total))) && Inv(g.(bytes := Resize(g.bytes, total)))
  {
  }

  lemma StepKeeps(g: Gate, e: Event)
    requires Inv(g) && Enabled(g, e)
    ensures Inv(After(g, e))
  {
    match e {
      case Start(length, spent, late) =>
        StartQueued(g, length, spent, late);
        StartAccounted(g, length, spent, late);
        StartLanded(g, length, spent, late);
      case SlotLook(k, late) =>
        SlotLookQueued(g, k, late);
        SlotLookAccounted(g, k, late);
        SlotLookLanded(g, k, late);
      case AskBytes(id, spent, late) =>
        AskBytesQueued(g, id, spent, late);
        AskBytesAccounted(g, id, spent, late);
        AskBytesLanded(g, id, spent, late);
      case BytesLook(k, late) =>
        BytesLookQueued(g, k, late);
        BytesLookAccounted(g, k, late);
        BytesLookLanded(g, k, late);
      case Complete(id) =>
        CompleteQueued(g, id);
        CompleteAccounted(g, id);
        CompleteLanded(g, id);
      case ResizeSlots(configured) => ResizeKeeps(g, Capacity(configured, MIN_SENDS));
      case ResizeBytes(configured) => ResizeKeeps(g, Capacity(configured, MIN_BYTES));
    }
    hide Queued, Accounted, Landed;
  }

  /**
   * Through every interleaving of sends, waits, refusals, completions and resizes: the permits add up at
   * both gates, and the executor got exactly the sends that passed both, each once.
   */
  lemma {:induction false} EveryRunAddsUp(g: Gate, es: seq<Event>)
    requires Inv(g) && Runs(g, es)
    ensures Inv(End(g, es))
    decreases |es|
  {
    hide Inv, After, Enabled;
    if es != [] {
      StepKeeps(g, es[0]);
      EveryRunAddsUp(After(g, es[0]), es[1..]);
    }
  }

  /** From a new gate on, whatever is asked: both capacities are what is free and what the sends in flight hold. */
  lemma PermitsAddUp(slots: int, bytes: int, es: seq<Event>, i: nat)
    requires Runs(Opening(slots, bytes), es) && i < |End(Opening(slots, bytes), es).sends|
    ensures var t := End(Opening(slots, bytes), es);
      && t.slots.free + SlotsHeld(t.sends) == t.slots.total && t.bytes.free + BytesHeld(t.sends) == t.bytes.total
      && (i in t.landed <==> t.sends[i].stage.Submitted? || t.sends[i].stage.Finished?)
      && (forall j, k :: 0 <= j < k < |t.landed| ==> t.landed[j] != t.landed[k])
  {
    EveryRunAddsUp(Opening(slots, bytes), es);
    hide Runs, End, SlotsHeld, BytesHeld;
  }

  lemma {:induction false} NothingHeld(sends: seq<Send>)
    requires forall i :: 0 <= i < |sends| ==> sends[i].stage.Finished? || sends[i].stage.Rejected?
    ensures SlotsHeld(sends) == 0 && BytesHeld(sends) == 0
  {
    if sends != [] {
      NothingHeld(sends[..|sends| - 1]);
    }
  }

  /** Once every send is finished or rejected, both semaphores are back at their present capacity. */
  lemma EverythingComesBack(slots: int, bytes: int, es: seq<Event>)
    requires Runs(Opening(slots, bytes), es)
    requires var t := End(Opening(slots, bytes), es);
      forall i :: 0 <= i < |t.sends| ==> t.sends[i].stage.Finished? || t.sends[i].stage.Rejected?
    ensures var t := End(Opening(slots, bytes), es);
      t.slots.free == t.slots.total && t.bytes.free == t.bytes.total
  {
    EveryRunAddsUp(Opening(slots, bytes), es);
    NothingHeld(End(Opening(slots, bytes), es).sends);
    hide Runs, End;
  }

  /** A rejected send was never handed to the executor. */
  lemma RejectedNeverLands(slots: int, bytes: int, es: seq<Event>, id: nat)
    requires Runs(Opening(slots, bytes), es)
    requires var t := End(Opening(slots, bytes), es); id < |t.sends| && t.sends[id].stage.Rejected?
    ensures id !in End(Opening(slots, bytes), es).landed
  {
    EveryRunAddsUp(Opening(slots, bytes), es);
    hide Runs, End;
  }

  /** A refusal at the byte gate gives the slot back and takes no byte. */
  lemma ByteRefusalRestoresTheSlot(g: Gate, id: nat, spent: bool, late: bool)
    requires Inv(g) && id < |g.sends| && g.sends[id].stage.HasSlot?
    requires OnAskBytes(g, id, spent, late).sends[id].stage.Rejected?
    ensures var t := OnAskBytes(g, id, spent, late);
      && t.slots.free == g.slots.free + 1 && t.bytes.free == g.bytes.free
      && t.landed == g.landed
  {
  }

  // ---- the flag that makes a callback give back once, test and mark as two steps -------------------

  /** `past` callers found the flag down and have not marked it yet; the permits were given back `given` times. */
  datatype Flag = Flag(up: bool, past: nat, given: nat)

  datatype Touch = Test | Mark

  predicate CanTouch(f: Flag, t: Touch) {
    t.Mark? ==> f.past > 0
  }

  function Touched(f: Flag, t: Touch): Flag
    requires CanTouch(f, t)
  {
    match t
    case Test => if f.up then f else f.(past := f.past + 1)
    case Mark => Flag(true, f.past - 1, f.given + 1)
  }

  /** Nobody tests the flag while another caller stands between its test and its mark. */
  predicate InTurn(f: Flag, t: Touch) {
    t.Test? ==> f.up || f.past == 0
  }

  /** A sequence of touches, each in its turn. */
  predicate TurnByTurn(f: Flag, ts: seq<Touch>)
    decreases |ts|
  {
    ts == [] || (CanTouch(f, ts[0]) && InTurn(f, ts[0]) && TurnByTurn(Touched(f, ts[0]), ts[1..]))
  }

  function LastFlag(f: Flag, ts: seq<Touch>): Flag
    requires TurnByTurn(f, ts)
    decreases |ts|
  {
    if ts == [] then f else LastFlag(Touched(f, ts[0]), ts[1..])
  }

  predicate Consistent(f: Flag) {
    f.given + f.past <= 1 && (f.up <==> f.given > 0)
  }

  lemma {:induction false} TurnsGiveBackOnce(f: Flag, ts: seq<Touch>)
    requires Consistent(f) && TurnByTurn(f, ts)
    ensures Consistent(LastFlag(f, ts))
    decreases |ts|
  {
    if ts != [] {
      TurnsGiveBackOnce(Touched(f, ts[0]), ts[1..]);
    }
  }

  ghost predicate NeverTwice(f: Flag) {
    forall ts :: TurnByTurn(f, ts) ==> LastFlag(f, ts).given <= 1
  }

  /** Permits are given back at most once, whatever follows in turn, exactly when the touch itself is in its turn. */
  lemma GivesBackOnceIff(f: Flag, t: Touch)
    requires Consistent(f) && CanTouch(f, t)
    ensures InTurn(f, t) <==> NeverTwice(Touched(f, t))
  {
    var u := Touched(f, t);
    if InTurn(f, t) {
      forall ts | TurnByTurn(u, ts) ensures LastFlag(u, ts).given <= 1 {
        TurnsGiveBackOnce(u, ts);
      }
    } else {
      var v := Touched(u, Mark);
      var w := Touched(v, Mark);
      assert [Mark, Mark][1..] == [Mark] && [Mark][1..] == [];
      assert TurnByTurn(v, [Mark]) && LastFlag(v, [Mark]) == w;
      assert TurnByTurn(u, [Mark, Mark]) && LastFlag(u, [Mark, Mark]) == w && w.given == 2;
    }
  }

  /** Permits given back a second time are more than the gates ever had. */
  lemma SecondReleaseOverfills(g: Gate, id: nat)
    requires Inv(g) && id < |g.sends| && g.sends[id].stage.Submitted?
    ensures var once, length := OnComplete(g, id), g.sends[id].length;
      var twice := once.(bytes := Release(once.bytes, length), slots := Release(once.slots, 1));
      && twice.bytes.free + BytesHeld(twice.sends) == twice.bytes.total + length
      && twice.slots.free + SlotsHeld(twice.sends) == twice.slots.total + 1
      && !Accounted(twice)
  {
    CompleteAccounted(g, id);
  }

  // ---- the gates as a send passes them ------------------------------------------------------------

  class BackPressure {
    const slots: Semaphore
    const bytes: Semaphore
    var sends: seq<Send>
    ghost var landed: seq<nat>

    ghost predicate Valid()
      reads this
    {
      slots != bytes
    }

    ghost function View(): Gate
      reads this, slots, bytes
    {
      Gate(slots.View(), bytes.View(), sends, landed)
    }

    constructor (maxSends: int, maxBytes: int)
      ensures Valid() && View() == Opening(maxSends, maxBytes)
    {
      slots := new Semaphore(Capacity(maxSends, MIN_SENDS));
      bytes := new Semaphore(Capacity(maxBytes, MIN_BYTES));
      sends, landed := [], [];
    }

    /** A send arrives; `spent` says its budget is used up before it asks. */
    method Begin(length: nat, spent: bool, late: bool) returns (id: nat)
      requires Valid()
      modifies this, slots
      ensures id == |old(sends)| && View() == OnStart(old(View()), length, spent, late)
      ensures |sends| == id + 1 && sends[..id] == old(sends) && sends[id].length == length
      ensures spent ==> sends[id].stage == Rejected && slots.View() == old(slots.View())
      ensures sends[id].stage == HasSlot <==> !spent && old(slots.queue) == [] && old(slots.free) >= 1
      ensures sends[id].stage == WaitsForSlot <==> !spent && !late && !(old(slots.queue) == [] && old(slots.free) >= 1)
      ensures slots.free == old(slots.free) - if sends[id].stage == HasSlot then 1 else 0
    {
      id := |sends|;
      if spent {
        sends := sends + [Send(length, Rejected)];
        return;
      }
      var outcome := slots.TryFirst(id, 1, late);
      sends := sends + [Send(length, AfterSlot(outcome))];
    }

    method LookForSlot(k: nat, late: bool)
      requires Valid() && k < |slots.queue| && slots.queue[k].id < |sends|
      modifies this, slots
      ensures View() == OnSlotLook(old(View()), k, late)
      ensures var id := old(slots.queue)[k].id;
        && (late ==> sends[id].stage == Rejected)
        && (!late && k == 0 && old(slots.queue)[0].permits <= old(slots.free) ==> sends[id].stage == HasSlot)
        && (!late && !(k == 0 && old(slots.queue)[0].permits <= old(slots.free)) ==> sends[id].stage == WaitsForSlot)
    {
      var id := slots.queue[k].id;
      var outcome := slots.LookAgain(k, true, late);
      sends := SetStage(sends, id, AfterSlot(outcome));
    }

    method AskForBytes(id: nat, spent: bool, late: bool)
      requires Valid() && id < |sends|
      modifies this, slots, bytes
      ensures View() == OnAskBytes(old(View()), id, spent, late)
      ensures spent ==> sends[id].stage == Rejected && bytes.View() == old(bytes.View())
      ensures sends[id].stage == Submitted <==>
        !spent && old(bytes.queue) == [] && old(sends)[id].length <= old(bytes.free)
      ensures sends[id].stage == WaitsForBytes <==>
        !spent && !late && !(old(bytes.queue) == [] && old(sends)[id].length <= old(bytes.free))
      ensures sends[id].stage == Rejected ==> slots.free == old(slots.free) + 1 && bytes.free == old(bytes.free)
      ensures sends[id].stage == Submitted ==>
        && bytes.free == old(bytes.free) - sends[id].length && slots.free == old(slots.free)
        && landed == old(landed) + [id]
    {
      var outcome := Refused;
      if !spent {
        outcome := bytes.TryFirst(id, sends[id].length, late);
      }
      PassOn(id, outcome);
    }

    method LookForBytes(k: nat, late: bool)
      requires Valid() && k < |bytes.queue| && bytes.queue[k].id < |sends|
      modifies this, slots, bytes
      ensures View() == OnBytesLook(old(View()), k, late)
      ensures var id := old(bytes.queue)[k].id;
        && (late ==> sends[id].stage == Rejected && slots.free == old(slots.free) + 1)
        && (!late && k == 0 && old(bytes.queue)[0].permits <= old(bytes.free) ==>
              sends[id].stage == Submitted && landed == old(landed) + [id])
        && (!late && !(k == 0 && old(bytes.queue)[0].permits <= old(bytes.free)) ==> sends[id].stage == WaitsForBytes)
    {
      var id := bytes.queue[k].id;
      var outcome := bytes.LookAgain(k, true, late);
      PassOn(id, outcome);
    }

    /** Hand a send to the executor, let it wait, or complete it with a refusal and give the slot back. */
    method PassOn(id: nat, outcome: Outcome)
      requires Valid() && id < |sends|
      modifies this, slots
      ensures View() == AfterBytes(old(View()), id, bytes.View(), outcome)
    {
      match outcome {
        case Granted =>
          sends, landed := SetStage(sends, id, Submitted), landed + [id];
        case Refused =>
          slots.GiveBackPermits(1);
          sends := SetStage(sends, id, Rejected);
        case Waits =>
          sends := SetStage(sends, id, WaitsForBytes);
      }
    }

    method CompleteSend(id: nat)
      requires Valid() && id < |sends|
      modifies this, slots, bytes
      ensures View() == OnComplete(old(View()), id)
      ensures old(sends)[id].stage == Finished ==> View() == old(View())
      ensures old(sends)[id].stage != Finished ==>
        && slots.free == old(slots.free) + 1 && bytes.free == old(bytes.free) + old(sends)[id].length
        && sends == old(sends)[id := old(sends)[id].(stage := Finished)] && landed == old(landed)
    {
      if sends[id].stage.Finished? {
        return;
      }
      bytes.GiveBackPermits(sends[id].length);
      slots.GiveBackPermits(1);
      sends := SetStage(sends, id, Finished);
    }
  }
}
