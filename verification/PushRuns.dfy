/** What every run of one push queue keeps: where each pulled message is, and what the offset may pass. */
module PushRuns {
  import opened Messages
  import opened PushSpec

  /** The runs the theorems speak about start from a queue nobody has been assigned yet. */
  predicate Runs(s: Push, es: seq<Event>)
    decreases |es|
  {
    es == [] || (Enabled(s, es[0]) && Runs(After(s, es[0]), es[1..]))
  }

  function End(s: Push, es: seq<Event>): Push
    requires Runs(s, es)
    decreases |es|
  {
    if es == [] then s else End(After(s, es[0]), es[1..])
  }

  /** The messages the dispatch thread still has to settle. */
  function InHand(s: Push): set<Msg> {
    match s.hand
    case Taken(b, _) => Members(b)
    case Passed(b, _) => Members(b)
    case Listening(b, _) => Attached(b, s.inflight)
    case Settling(b, _, at, _, failed) =>
      (if at <= |b| then Attached(b[at..], s.inflight) else {}) + Members(failed)
    case _ => {}
  }

  /** A message the sweep has returned to the broker counts as sent back, even while the queue lists it. */
  function Minus(ms: set<Msg>, sweep: Sweep): set<Msg> {
    if sweep.Returned? then ms - {sweep.msg} else ms
  }

  function Buffered(s: Push): set<Msg> {
    Minus(Members(s.pending), s.sweep)
  }

  function InFlight(s: Push): set<Msg> {
    Minus(InHand(s), s.sweep)
  }

  /** What this queue still owes: neither acknowledged nor back at the broker. */
  function Live(s: Push): set<Msg> {
    Buffered(s) + InFlight(s)
  }

  predicate ExactlyOne(a: bool, b: bool, c: bool, d: bool, e: bool) {
    && (a || b || c || d || e)
    && !(a && b) && !(a && c) && !(a && d) && !(a && e)
    && !(b && c) && !(b && d) && !(b && e)
    && !(c && d) && !(c && e) && !(d && e)
  }

  /** Every message pulled into the present buffer is in exactly one place. */
  predicate Conserved(s: Push) {
    forall m :: m in s.pulled && m.epoch == s.epoch ==>
      ExactlyOne(m in Buffered(s), m in InFlight(s), m in s.acked, m in s.sent, m in s.dropped)
  }

  /** What the queue lists was pulled into the present buffer; nothing of an earlier generation is left or put back. */
  predicate OwnGeneration(s: Push) {
    forall m :: m in Entries(s) ==> m.epoch == s.epoch && m in s.pulled
  }

  /** Nothing is sent back twice. */
  ghost predicate SentOnce(s: Push) {
    forall m :: s.sent[m] <= 1
  }

  /** The committed offset does not pass a message of this buffer that is still owed. */
  predicate OffsetSafe(s: Push) {
    !s.frozen && s.offset.Some? ==>
      forall m :: m in Live(s) && m.epoch == s.epoch ==> s.offset.value <= m.offset
  }

  /** What the settlement promises at any moment. */
  ghost predicate Promise(s: Push) {
    Conserved(s) && OwnGeneration(s) && SentOnce(s) && OffsetSafe(s)
  }

  /** What could not be sent back goes to the buffer it came from. */
  predicate RequeueFits(s: Push)
    requires s.hand.Settling?
  {
    s.hand.epoch == s.epoch || s.hand.failed == [] || !s.alive
  }

  /** The message is listed by the queue although its batch has already been settled, or is just being settled. */
  predicate UnderSettlement(s: Push, m: Msg) {
    && m in s.inflight
    && (s.hand.Settling? || ((s.hand.Settled? || s.hand.Closing?) && m !in s.pending))
  }

  /** The two actors do not lay hands on the same message: nobody takes, settles or buries the one the sweep is
      sending, the sweep does not pick one that is being settled, and nothing of a revoked generation is
      registered or put back. */
  predicate Apart(s: Push, e: Event) {
    match e
    case Take(_) => s.sweep.Resting? || s.sweep.msg !in s.pending
    case Register => s.hand.Passed? ==> s.hand.epoch == s.epoch && (s.sweep.Resting? || s.sweep.msg !in s.pending)
    case Return(_) => s.sweep.Resting? || s.sweep.msg !in s.inflight
    case Requeue => s.hand.Settling? ==> RequeueFits(s)
    case SweepPick => Entries(s) != [] ==> !UnderSettlement(s, Head(Entries(s)))
    case _ => true
  }

  predicate Guarded(s: Push, es: seq<Event>)
    requires Runs(s, es)
    decreases |es|
  {
    es == [] || (Apart(s, es[0]) && Guarded(After(s, es[0]), es[1..]))
  }

  // ---- the inductive invariant ------------------------------------------------------------------

  predicate Below(ms: seq<Msg>, ns: seq<Msg>) {
    forall m, n :: m in ms && n in ns ==> m.offset < n.offset
  }

  predicate BufferShape(s: Push) {
    && Ascending(s.pending)
    && s.acked <= s.pulled && s.dropped <= s.pulled
    && (forall m :: m in s.sent ==> m in s.pulled)
    && (forall m :: m in s.pending ==> m.epoch == s.epoch && m in s.pulled)
    && (!s.alive ==> s.pending == [])
    && (!s.owned ==> !s.alive && s.offset == None)
    && (s.offset.Some? && !s.frozen ==> s.offset.value <= s.cursor)
    && (forall m :: m in s.pulled ==> m.epoch <= s.epoch)
    && (!s.frozen ==> forall m :: m in s.pulled && m.epoch == s.epoch ==> m.offset < s.cursor)
    && (!s.owned ==> forall m :: m in s.pulled ==> m.epoch < s.epoch)
  }

  predicate HandShape(s: Push) {
    && (s.hand.Idle? ==> s.inflight == [])
    && (!s.hand.Idle? ==>
      && s.hand.batch != [] && s.hand.epoch <= s.epoch
      && (s.hand.epoch == s.epoch ==> s.alive)
      && Ascending(s.hand.batch)
      && (forall m :: m in s.hand.batch ==> m.epoch == s.hand.epoch && m in s.pulled)
      && (s.hand.Taken? || s.hand.Passed? ==> s.inflight == [])
      && (s.inflight != [] ==> s.hand.epoch == s.epoch)
      && (forall m :: m in s.inflight ==> m in s.hand.batch))
    && (s.hand.Settling? ==>
      && s.hand.at <= |s.hand.batch|
      && (s.hand.sure ==> s.hand.at < |s.hand.batch|)
      && Ascending(s.hand.failed)
      && (forall m :: m in s.hand.failed ==> m in s.hand.batch[..s.hand.at]))
    && (s.hand.Settled? ==> forall m :: m in s.hand.failed ==> m in s.hand.batch)
  }

  /** A batch of the present buffer precedes what is still buffered, except for what it put back. */
  predicate OrderShape(s: Push) {
    !s.hand.Idle? && s.hand.epoch == s.epoch ==>
      if s.hand.Settled? then
        forall m, b :: m in s.pending && b in s.hand.batch ==> m in s.hand.failed || b.offset < m.offset
      else s.hand.Closing? || Below(s.hand.batch, s.pending)
  }

  /** Where the message the sweep holds can be: at the head of the queue, or gone with its generation, and never where
      the dispatch thread has still to settle it. */
  predicate SweepShape(s: Push) {
    !s.sweep.Resting? ==>
      && s.sweep.msg in s.pulled
      && s.sent[s.sweep.msg] == (if s.sweep.Picked? then 0 else 1)
      && (s.sweep.msg.epoch == s.epoch ==> IsHead(s, s.sweep.msg) && !UnderSettlement(s, s.sweep.msg))
      && (s.hand.Taken? || s.hand.Passed? ==> s.sweep.msg !in s.hand.batch)
      && (s.hand.Settling? ==>
            && s.sweep.msg !in s.hand.failed
            && (s.hand.sure && s.hand.at < |s.hand.batch| ==> s.sweep.msg != s.hand.batch[s.hand.at]))
  }

  predicate Unsent(s: Push) {
    forall m :: m in Live(s) ==> s.sent[m] == 0
  }

  /** A message whose presence was just checked has not been sent back by anybody and stays attached. */
  predicate Checked(s: Push) {
    && (s.hand.Settling? && s.hand.sure && s.hand.at < |s.hand.batch| ==>
      && s.sent[s.hand.batch[s.hand.at]] == 0
      && (s.hand.epoch == s.epoch ==> s.hand.batch[s.hand.at] in s.inflight))
    && (s.hand.Settling? && s.hand.epoch == s.epoch ==> forall m :: m in s.hand.failed ==> m in s.inflight)
  }

  ghost predicate Ledger(s: Push) {
    Unsent(s) && SentOnce(s) && Conserved(s)
  }

  predicate Shape(s: Push) {
    BufferShape(s) && HandShape(s) && OrderShape(s) && SweepShape(s)
  }

  ghost predicate Inv(s: Push) {
    Shape(s) && Ledger(s) && Checked(s) && OffsetSafe(s)
  }

  lemma FreshHolds(broadcast: bool)
    ensures Inv(Fresh(broadcast))
  {
  }

  /** All entries are of the present generation. */
  lemma EntriesArePresent(s: Push)
    requires BufferShape(s) && HandShape(s)
    ensures OwnGeneration(s)
  {
  }

  lemma {:induction false} HeadStays(ms: seq<Msg>, rows: seq<Msg>)
    requires ms != []
    requires forall m, r :: m in ms && r in rows ==> m.offset <= r.offset
    ensures Head(ms + rows) == Head(ms)
  {
    if |ms| == 1 {
      assert (ms + rows)[1..] == rows;
    } else {
      assert (ms + rows)[1..] == ms[1..] + rows;
      HeadStays(ms[1..], rows);
    }
  }

  lemma AscendingJoins(a: seq<Msg>, b: seq<Msg>)
    requires Ascending(a) && Ascending(b) && Below(a, b)
    ensures Ascending(a + b)
  {
    forall i, j | 0 <= i < j < |a + b| ensures (a + b)[i].offset < (a + b)[j].offset {
      if i < |a| <= j {
        assert a[i] in a && b[j - |a|] in b;
      }
    }
  }

  lemma {:induction false} OthersOfAll(ms: seq<Msg>, gone: seq<Msg>)
    requires forall m :: m in ms ==> m in gone
    ensures Others(ms, gone) == []
  {
    if ms != [] {
      OthersOfAll(ms[1..], gone);
    }
  }

  lemma HeadIsFirst(s: Push, m: Msg)
    requires Ascending(s.pending) && IsHead(s, m) && m in s.pending
    ensures s.pending[0] == m
  {
    assert s.pending[0] in Entries(s);
    var i :| 0 <= i < |s.pending| && s.pending[i] == m;
  }

  lemma UnlinkTakesTheHead(s: Push, m: Msg)
    requires Ascending(s.pending) && IsHead(s, m)
    ensures forall x :: x in Unlink(s.pending, m) <==> x in s.pending && x != m
    ensures Ascending(Unlink(s.pending, m))
  {
    if m in s.pending {
      HeadIsFirst(s, m);
    }
    UnlinkDropsOne(s.pending, m);
  }

  predicate SameHistory(s: Push, t: Push) {
    && t.pulled == s.pulled && t.acked == s.acked && t.dropped == s.dropped && t.sent == s.sent
    && t.epoch == s.epoch
  }

  /** A step that moves no message keeps the ledger. */
  lemma SamePlaces(s: Push, t: Push)
    requires Ledger(s) && SameHistory(s, t)
    requires Buffered(t) == Buffered(s) && InFlight(t) == InFlight(s)
    ensures Ledger(t)
  {
  }

  /** A live message that goes back to the broker changes place, the others do not. */
  lemma Shipped(s: Push, t: Push, m: Msg)
    requires Ledger(s) && SameHistory(s.(sent := t.sent), t)
    requires t.sent == s.sent + multiset{m} && s.sent[m] == 0
    requires Buffered(t) == Buffered(s) - {m} && InFlight(t) == InFlight(s) - {m}
    requires m.epoch == s.epoch ==> m in Live(s)
    ensures Ledger(t)
  {
    hide Buffered, InFlight;
  }

  lemma FoundKeepsHead(s: Push, rows: seq<Msg>, next: nat)
    requires BufferShape(s) && HandShape(s) && SweepShape(s) && !s.frozen && Answer(s, rows, next)
    ensures SweepShape(OnFound(s, rows, next))
  {
    var t := OnFound(s, rows, next);
    hide Ascending;
    if !s.sweep.Resting? && s.sweep.msg in Entries(t) {
      assert s.sweep.msg in Entries(s);
      assert Entries(t) == Entries(s) + rows;
      HeadStays(Entries(s), rows);
    }
  }

  lemma FoundShape(s: Push, rows: seq<Msg>, next: nat)
    requires Shape(s) && s.owned && !s.frozen && Answer(s, rows, next)
    ensures Shape(OnFound(s, rows, next))
  {
    FoundKeepsHead(s, rows, next);
    AscendingJoins(s.pending, rows);
    hide SweepShape, Ascending;
  }

  lemma LiveIsPulled(s: Push)
    requires BufferShape(s) && HandShape(s)
    ensures Live(s) <= s.pulled
  {
    hide Ascending;
  }

  lemma RowsAreNew(s: Push, rows: seq<Msg>, next: nat)
    requires BufferShape(s) && !s.frozen && Answer(s, rows, next)
    ensures Members(rows) !! s.pulled
    ensures s.acked <= s.pulled && s.dropped <= s.pulled && forall m :: m in s.sent ==> m in s.pulled
  {
    hide Ascending;
  }

  lemma FoundLedger(s: Push, rows: seq<Msg>, next: nat)
    requires Shape(s) && Ledger(s) && Checked(s) && s.owned && !s.frozen && Answer(s, rows, next)
    ensures Ledger(OnFound(s, rows, next))
  {
    hide BufferShape, HandShape, OrderShape, SweepShape, Answer;
    var t := OnFound(s, rows, next);
    LiveIsPulled(s);
    RowsAreNew(s, rows, next);
    assert !s.sweep.Resting? ==> s.sweep.msg in s.pulled by { SweptIsPulled(s); }
    assert Buffered(t) == Buffered(s) + Members(rows);
    assert InFlight(t) == InFlight(s);
    hide Buffered, InFlight, Members;
  }

  lemma SweptIsPulled(s: Push)
    requires SweepShape(s)
    ensures !s.sweep.Resting? ==> s.sweep.msg in s.pulled
  {
  }

  lemma FoundOffsetSafe(s: Push, rows: seq<Msg>, next: nat)
    requires Shape(s) && OffsetSafe(s) && s.owned && !s.frozen && Answer(s, rows, next)
    ensures OffsetSafe(OnFound(s, rows, next))
  {
  }

  lemma FoundKeeps(s: Push, rows: seq<Msg>, next: nat)
    requires Inv(s) && s.owned && !s.frozen && Answer(s, rows, next)
    ensures Inv(OnFound(s, rows, next))
  {
    FoundShape(s, rows, next);
    FoundLedger(s, rows, next);
    FoundOffsetSafe(s, rows, next);
  }

  lemma NoMatchShape(s: Push, next: nat)
    requires Shape(s) && s.owned && !s.frozen && s.cursor <= next
    ensures Shape(OnNoMatch(s, next))
  {
  }

  lemma NoMatchLedger(s: Push, next: nat)
    requires Shape(s) && Ledger(s) && Checked(s) && s.owned && !s.frozen && s.cursor <= next
    ensures Ledger(OnNoMatch(s, next))
  {
    var t := OnNoMatch(s, next);
    assert Buffered(t) == Buffered(s);
    assert InFlight(t) == InFlight(s);
    SamePlaces(s, t);
  }

  lemma NoMatchOffsetSafe(s: Push, next: nat)
    requires Shape(s) && OffsetSafe(s) && s.owned && !s.frozen && s.cursor <= next
    ensures OffsetSafe(OnNoMatch(s, next))
  {
  }

  lemma NoMatchKeeps(s: Push, next: nat)
    requires Inv(s) && s.owned && !s.frozen && s.cursor <= next
    ensures Inv(OnNoMatch(s, next))
  {
    NoMatchShape(s, next);
    NoMatchLedger(s, next);
    NoMatchOffsetSafe(s, next);
  }

  lemma IllegalKeeps(s: Push, next: nat)
    requires Inv(s) && s.owned && !s.frozen
    ensures Inv(OnIllegal(s, next))
  {
    var t := OnIllegal(s, next);
    assert Buffered(t) == Buffered(s);
    assert InFlight(t) == InFlight(s);
    SamePlaces(s, t);
  }

  lemma RetireKeeps(s: Push)
    requires Inv(s) && s.owned
    ensures Inv(OnRetire(s))
  {
  }

  lemma RebuildKeeps(s: Push, start: nat)
    requires Inv(s) && !s.owned
    ensures Inv(OnRebuild(s, start))
  {
    var t := OnRebuild(s, start);
    assert Buffered(t) == Buffered(s);
    assert InFlight(t) == InFlight(s);
    SamePlaces(s, t);
  }

  /** A message of the present generation that the sweep holds is buffered while the dispatch thread holds nothing of
      it. */
  lemma HeldIsBuffered(s: Push)
    requires BufferShape(s) && HandShape(s) && OrderShape(s) && SweepShape(s)
    requires !s.sweep.Resting? && s.sweep.msg.epoch == s.epoch
    requires !s.hand.Listening?
    ensures s.sweep.msg in s.pending
  {
    assert s.sweep.msg in Entries(s);
  }

  lemma TakeShape(s: Push, size: nat)
    requires Shape(s) && s.hand.Idle? && s.owned && s.pending != [] && (s.sweep.Resting? || s.sweep.msg !in s.pending)
    ensures Shape(OnTake(s, size))
  {
    if !s.sweep.Resting? && s.sweep.msg.epoch == s.epoch { HeldIsBuffered(s); }
    var n := BatchSize(s, size);
    assert s.pending == s.pending[..n] + s.pending[n..];
  }

  lemma TakeLedger(s: Push, size: nat)
    requires Shape(s) && Ledger(s) && s.hand.Idle? && s.owned && s.pending != []
    requires s.sweep.Resting? || s.sweep.msg !in s.pending
    ensures Ledger(OnTake(s, size)) && Live(OnTake(s, size)) == Live(s)
  {
    var t, n := OnTake(s, size), BatchSize(s, size);
    var batch, rest := s.pending[..n], s.pending[n..];
    assert s.pending == batch + rest;
    assert Members(s.pending) == Members(batch) + Members(rest);
    assert Members(batch) !! Members(rest) by {
      forall m | m in batch ensures m !in rest {
        var i :| 0 <= i < n && s.pending[i] == m;
      }
    }
    assert Buffered(t) == Members(rest) && InFlight(t) == Members(batch) && InFlight(s) == {};
    assert Buffered(s) == Members(s.pending);
    hide Shape, Members;
  }

  lemma TakeKeeps(s: Push, size: nat)
    requires Inv(s) && s.hand.Idle? && s.owned && s.pending != [] && (s.sweep.Resting? || s.sweep.msg !in s.pending)
    ensures Inv(OnTake(s, size))
  {
    TakeShape(s, size);
    TakeLedger(s, size);
    hide Shape, Ledger, Live;
  }

  lemma EnterKeeps(s: Push)
    requires Inv(s) && s.hand.Taken?
    ensures Inv(OnEnter(s))
  {
  }

  lemma RegisterShape(s: Push)
    requires Shape(s) && s.hand.Passed? && s.hand.epoch == s.epoch && (s.sweep.Resting? || s.sweep.msg !in s.pending)
    ensures Shape(OnRegister(s))
  {
    if !s.sweep.Resting? && s.sweep.msg.epoch == s.epoch { HeldIsBuffered(s); }
    assert s.inflight + s.hand.batch == s.hand.batch;
    hide Ascending, Below, IsHead;
  }

  lemma RegisterLedger(s: Push)
    requires Shape(s) && Ledger(s) && s.hand.Passed?
    ensures Ledger(OnRegister(s)) && Live(OnRegister(s)) == Live(s)
  {
    var t := OnRegister(s);
    assert s.inflight + s.hand.batch == s.hand.batch;
    assert Attached(s.hand.batch, s.hand.batch) == Members(s.hand.batch);
    assert Buffered(t) == Buffered(s) && InFlight(t) == InFlight(s);
    SamePlaces(s, t);
  }

  lemma RegisterKeeps(s: Push)
    requires Inv(s) && s.hand.Passed? && s.hand.epoch == s.epoch && (s.sweep.Resting? || s.sweep.msg !in s.pending)
    ensures Inv(OnRegister(s))
  {
    RegisterShape(s);
    RegisterLedger(s);
    hide Shape, Ledger, Live;
  }

  lemma ReturnSweep(s: Push, acks: nat)
    requires SweepShape(s) && s.hand.Listening? && acks <= |s.hand.batch|
    requires (s.sweep.Resting? || s.sweep.msg !in s.inflight)
    ensures SweepShape(OnReturn(s, acks))
  {
    hide Head, Attached;
    assert Entries(OnReturn(s, acks)) == Entries(s);
  }

  lemma ReturnShape(s: Push, acks: nat)
    requires Shape(s) && s.hand.Listening? && acks <= |s.hand.batch| && (s.sweep.Resting? || s.sweep.msg !in s.inflight)
    ensures Shape(OnReturn(s, acks))
  {
    assert Ascending([]);
    hide SweepShape, Ascending, Below;
    ReturnSweep(s, acks);
  }

  /** The verdict divides what is attached of a batch in two. */
  lemma AttachedDivides(b: seq<Msg>, acks: nat, inflight: seq<Msg>)
    requires Ascending(b) && acks <= |b|
    ensures Attached(b, inflight) == Attached(b[..acks], inflight) + Attached(b[acks..], inflight)
    ensures Attached(b[..acks], inflight) !! Attached(b[acks..], inflight)
  {
    assert b == b[..acks] + b[acks..];
    forall m | m in b[..acks] ensures m !in b[acks..] {
      var i :| 0 <= i < acks && b[..acks][i] == m;
      assert b[i] == m;
    }
  }

  /** Outside the sweep's hands, what the listener holds of the queue is what it has in flight. */
  lemma ListeningHolds(s: Push)
    requires s.hand.Listening? && (s.sweep.Resting? || s.sweep.msg !in s.inflight)
    ensures InFlight(s) == Attached(s.hand.batch, s.inflight)
  {
  }

  lemma ReturnPlaces(s: Push, acks: nat)
    requires s.hand.Listening? && acks <= |s.hand.batch| && (s.sweep.Resting? || s.sweep.msg !in s.inflight)
    ensures Buffered(OnReturn(s, acks)) == Buffered(s)
    ensures InFlight(OnReturn(s, acks)) == if s.broadcast then {} else Attached(s.hand.batch[acks..], s.inflight)
  {
    assert Members([]) == {};
  }

  lemma ReturnLedger(s: Push, acks: nat)
    requires Shape(s) && Ledger(s) && s.hand.Listening? && acks <= |s.hand.batch|
    requires s.sweep.Resting? || s.sweep.msg !in s.inflight
    ensures Ledger(OnReturn(s, acks))
  {
    AttachedDivides(s.hand.batch, acks, s.inflight);
    hide Shape, Ascending, Attached, Members, Buffered, InFlight;
    ListeningHolds(s);
    ReturnPlaces(s, acks);
  }

  lemma ReturnOffsetSafe(s: Push, acks: nat)
    requires Shape(s) && OffsetSafe(s) && s.hand.Listening? && acks <= |s.hand.batch|
    ensures OffsetSafe(OnReturn(s, acks))
  {
  }

  lemma ReturnKeeps(s: Push, acks: nat)
    requires Inv(s) && s.hand.Listening? && acks <= |s.hand.batch| && (s.sweep.Resting? || s.sweep.msg !in s.inflight)
    ensures Inv(OnReturn(s, acks))
  {
    ReturnShape(s, acks);
    ReturnLedger(s, acks);
    ReturnOffsetSafe(s, acks);
  }

  lemma CheckShape(s: Push)
    requires Shape(s) && AtMessage(s.hand) && !s.hand.sure
    ensures Shape(OnCheck(s))
  {
  }

  lemma CheckLedger(s: Push)
    requires Shape(s) && Ledger(s) && Checked(s) && AtMessage(s.hand) && !s.hand.sure
    ensures Ledger(OnCheck(s))
  {
    var t := OnCheck(s);
    var b, at := s.hand.batch, s.hand.at;
    assert b[at..] == [b[at]] + b[at + 1..];
    assert InHand(t) == InHand(s);
    SamePlaces(s, t);
  }

  lemma CheckOffsetSafe(s: Push)
    requires Shape(s) && OffsetSafe(s) && AtMessage(s.hand) && !s.hand.sure
    ensures OffsetSafe(OnCheck(s))
  {
  }

  lemma CheckKeeps(s: Push)
    requires Inv(s) && AtMessage(s.hand) && !s.hand.sure
    ensures Inv(OnCheck(s))
  {
    CheckShape(s);
    CheckLedger(s);
    CheckOffsetSafe(s);
  }

  lemma FailedAscends(b: seq<Msg>, at: nat, failed: seq<Msg>)
    requires Ascending(b) && Ascending(failed) && at < |b|
    requires forall m :: m in failed ==> m in b[..at]
    ensures Ascending(failed + [b[at]])
    ensures forall m :: m in failed + [b[at]] ==> m in b[..at + 1]
  {
    assert b[..at + 1] == b[..at] + [b[at]];
    forall m | m in failed ensures m.offset < b[at].offset {
      var i :| 0 <= i < at && b[..at][i] == m;
    }
    AscendingJoins(failed, [b[at]]);
  }

  lemma SendBackHand(s: Push, ok: bool)
    requires HandShape(s) && AtMessage(s.hand) && s.hand.sure
    ensures HandShape(OnSendBack(s, ok))
  {
    FailedAscends(s.hand.batch, s.hand.at, s.hand.failed);
    hide Ascending;
  }

  lemma SendBackSweep(s: Push, ok: bool)
    requires SweepShape(s) && AtMessage(s.hand) && s.hand.sure
    ensures SweepShape(OnSendBack(s, ok))
  {
    var t := OnSendBack(s, ok);
    assert Entries(t) == Entries(s);
    hide Entries, Head;
  }

  lemma SendBackShape(s: Push, ok: bool)
    requires Shape(s) && AtMessage(s.hand) && s.hand.sure
    ensures Shape(OnSendBack(s, ok))
  {
    var t := OnSendBack(s, ok);
    SendBackHand(s, ok);
    SendBackSweep(s, ok);
    hide HandShape, SweepShape, Ascending, Below;
  }

  lemma OwedAfterOne(b: seq<Msg>, at: nat, inflight: seq<Msg>, failed: seq<Msg>)
    requires at < |b| && b[at] !in b[at + 1..] && b[at] !in failed
    ensures Attached(b[at + 1..], inflight) + Members(failed)
         == Attached(b[at..], inflight) + Members(failed) - {b[at]}
    ensures Attached(b[at + 1..], inflight) + Members(failed + [b[at]])
         == Attached(b[at..], inflight) + Members(failed) + {b[at]}
  {
    assert b[at..] == [b[at]] + b[at + 1..];
  }

  lemma SendBackPlaces(s: Push, ok: bool)
    requires AtMessage(s.hand) && (s.sweep.Resting? || s.sweep.msg != s.hand.batch[s.hand.at])
    requires s.hand.batch[s.hand.at] !in s.hand.batch[s.hand.at + 1..]
    requires s.hand.batch[s.hand.at] !in s.hand.failed
    ensures Buffered(OnSendBack(s, ok)) == Buffered(s)
    ensures ok ==> InFlight(OnSendBack(s, ok)) == InFlight(s) - {s.hand.batch[s.hand.at]}
    ensures !ok ==> InFlight(OnSendBack(s, ok)) == InFlight(s) + {s.hand.batch[s.hand.at]}
  {
    hide Attached, Members;
    var b, at, failed := s.hand.batch, s.hand.at, s.hand.failed;
    var t := OnSendBack(s, ok);
    assert InHand(s) == Attached(b[at..], s.inflight) + Members(failed);
    if ok {
      assert InHand(t) == Attached(b[at + 1..], s.inflight) + Members(failed);
    } else {
      assert InHand(t) == Attached(b[at + 1..], s.inflight) + Members(failed + [b[at]]);
    }
    OwedAfterOne(b, at, s.inflight, failed);
  }

  lemma SendBackLedger(s: Push, ok: bool)
    requires Shape(s) && Ledger(s) && Checked(s) && AtMessage(s.hand) && s.hand.sure
    ensures Ledger(OnSendBack(s, ok))
  {
    var t, m := OnSendBack(s, ok), s.hand.batch[s.hand.at];
    AscendingIsDistinct(s.hand.batch, s.hand.at);
    SendBackPlaces(s, ok);
    assert m.epoch == s.epoch ==> m in InFlight(s);
    assert m !in Buffered(s);
    if ok {
      Shipped(s, t, m);
    } else if m.epoch == s.epoch {
      SamePlaces(s, t);
    }
  }

  lemma SendBackOffsetSafe(s: Push, ok: bool)
    requires Shape(s) && Checked(s) && OffsetSafe(s) && AtMessage(s.hand) && s.hand.sure
    ensures OffsetSafe(OnSendBack(s, ok))
  {
  }

  lemma SendBackKeeps(s: Push, ok: bool)
    requires Inv(s) && AtMessage(s.hand) && s.hand.sure
    ensures Inv(OnSendBack(s, ok))
  {
    SendBackShape(s, ok);
    SendBackLedger(s, ok);
    SendBackOffsetSafe(s, ok);
  }

  /** While the sweep holds a buffered message the batch that is being settled lists nothing and has nothing to put
      back. */
  lemma NothingFailed(s: Push)
    requires Shape(s) && Checked(s) && s.hand.Settling? && s.hand.epoch == s.epoch
    requires !s.sweep.Resting? && s.sweep.msg.epoch == s.epoch
    ensures s.inflight == [] && s.hand.failed == []
  {
    HeldIsBuffered(s);
    assert forall x :: x in s.inflight ==> x in Entries(s);
    assert forall x :: x in s.inflight ==> s.sweep.msg.offset <= x.offset;
    assert forall x :: x in s.inflight ==> x.offset < s.sweep.msg.offset;
    assert forall x :: x in s.hand.failed ==> x in s.inflight;
    Nothing(s.inflight);
    Nothing(s.hand.failed);
  }

  lemma Nothing(ms: seq<Msg>)
    ensures (forall m :: m !in ms) ==> ms == []
  {
    if ms != [] { assert ms[0] in ms; }
  }

  lemma RequeueOrder(s: Push)
    requires Shape(s) && s.hand.Settling? && s.hand.at == |s.hand.batch| && s.hand.epoch == s.epoch
    ensures Ascending(s.hand.failed + s.pending)
    ensures forall m, b :: m in s.hand.failed + s.pending && b in s.hand.batch ==> m in s.hand.failed || b.offset < m.offset
  {
    assert Below(s.hand.failed, s.pending) by {
      forall m, n | m in s.hand.failed && n in s.pending ensures m.offset < n.offset {
        assert m in s.hand.batch[..s.hand.at];
      }
    }
    AscendingJoins(s.hand.failed, s.pending);
  }

  lemma RequeueLeavesThePending(s: Push)
    requires Shape(s) && Checked(s) && s.hand.Settling? && s.hand.at == |s.hand.batch| && RequeueFits(s)
    ensures s.hand.epoch != s.epoch ==> OnRequeue(s).pending == s.pending
    ensures !s.sweep.Resting? && s.sweep.msg.epoch == s.epoch ==> OnRequeue(s).pending == s.pending && s.inflight == []
  {
    if s.hand.epoch == s.epoch && !s.sweep.Resting? && s.sweep.msg.epoch == s.epoch {
      NothingFailed(s);
    }
    hide BufferShape, OrderShape, SweepShape, Checked, Ascending;
    assert [] + s.pending == s.pending;
  }

  lemma RequeueBuffer(s: Push)
    requires Shape(s) && Checked(s) && s.hand.Settling? && s.hand.at == |s.hand.batch| && RequeueFits(s)
    ensures BufferShape(OnRequeue(s)) && HandShape(OnRequeue(s))
  {
    RequeueLeavesThePending(s);
    if s.hand.epoch == s.epoch {
      RequeueOrder(s);
    }
    hide Ascending, Below, SweepShape;
  }

  lemma RequeueBatchOrder(s: Push)
    requires Shape(s) && Checked(s) && s.hand.Settling? && s.hand.at == |s.hand.batch| && RequeueFits(s)
    ensures OrderShape(OnRequeue(s))
  {
    if s.hand.epoch == s.epoch {
      RequeueOrder(s);
    }
    hide Ascending, Below, SweepShape, BufferShape, Checked;
  }

  lemma RequeueSweep(s: Push)
    requires Shape(s) && Checked(s) && s.hand.Settling? && s.hand.at == |s.hand.batch| && RequeueFits(s)
    ensures SweepShape(OnRequeue(s))
  {
    RequeueLeavesThePending(s);
    hide BufferShape, HandShape, OrderShape, Checked, Head;
  }

  lemma RequeueShape(s: Push)
    requires Shape(s) && Checked(s) && s.hand.Settling? && s.hand.at == |s.hand.batch| && RequeueFits(s)
    ensures Shape(OnRequeue(s))
  {
    RequeueBuffer(s);
    RequeueBatchOrder(s);
    RequeueSweep(s);
    hide BufferShape, HandShape, OrderShape, SweepShape;
  }

  lemma RequeueLedger(s: Push)
    requires Shape(s) && Ledger(s) && Checked(s) && s.hand.Settling? && s.hand.at == |s.hand.batch| && RequeueFits(s)
    ensures Ledger(OnRequeue(s))
  {
    var t := OnRequeue(s);
    assert s.hand.batch[s.hand.at..] == [];
    if s.hand.epoch == s.epoch {
      assert Buffered(t) == Buffered(s) + Members(s.hand.failed);
    } else {
      assert t.pending == s.pending;
    }
    assert InFlight(t) == {};
  }

  lemma RequeueOffsetSafe(s: Push)
    requires Shape(s) && OffsetSafe(s) && s.hand.Settling? && s.hand.at == |s.hand.batch| && RequeueFits(s)
    ensures OffsetSafe(OnRequeue(s))
  {
  }

  lemma RequeueKeeps(s: Push)
    requires Inv(s) && s.hand.Settling? && s.hand.at == |s.hand.batch| && RequeueFits(s)
    ensures Inv(OnRequeue(s))
  {
    RequeueShape(s);
    RequeueLedger(s);
    RequeueOffsetSafe(s);
  }

  lemma AdvanceShape(s: Push)
    requires Shape(s) && s.hand.Settled?
    ensures Shape(OnAdvance(s))
  {
  }

  lemma AdvanceLedger(s: Push)
    requires Shape(s) && Ledger(s) && Checked(s) && s.hand.Settled?
    ensures Ledger(OnAdvance(s))
  {
    var t := OnAdvance(s);
    assert Buffered(t) == Buffered(s);
    assert InFlight(t) == InFlight(s);
    SamePlaces(s, t);
  }

  /** The offset a settled batch commits is at most that of every message it leaves behind. */
  lemma NextOffsetStaysBehind(b: seq<Msg>, failed: seq<Msg>, rest: seq<Msg>)
    requires Others(b, failed) != [] && Below(b, rest)
    ensures forall m :: m in failed + rest ==> NextOffset(Others(b, failed), failed) <= m.offset
  {
    var processed := Others(b, failed);
    var max := MaxOffset(processed);
    var top :| top in processed && top.offset == max;
    hide Others, MaxOffset, NextOffset, Head;
    assert top in b;
  }

  lemma AdvanceStaysBehind(s: Push)
    requires OrderShape(s) && s.hand.Settled? && s.hand.epoch == s.epoch
    requires Others(s.hand.batch, s.hand.failed) != []
    ensures forall m :: m in s.pending ==>
      NextOffset(Others(s.hand.batch, s.hand.failed), s.hand.failed) <= m.offset
  {
    var failed := s.hand.failed;
    forall m | m in s.pending ensures NextOffset(Others(s.hand.batch, failed), failed) <= m.offset {
      if m !in failed { NextOffsetStaysBehind(s.hand.batch, failed, [m]); }
      hide Others, NextOffset, MaxOffset, Head;
      assert m !in failed ==> m in failed + [m];
    }
  }

  lemma AdvancePlaces(s: Push)
    requires s.hand.Settled?
    ensures Live(OnAdvance(s)) == Live(s) <= Members(s.pending)
  {
    hide Others, NextOffset, MaxOffset, Head, Members;
    assert InHand(OnAdvance(s)) == InHand(s) == {};
  }

  predicate Behind(offset: Option<nat>, ms: set<Msg>, epoch: nat) {
    offset.Some? ==> forall m :: m in ms && m.epoch == epoch ==> offset.value <= m.offset
  }

  lemma AdvanceOffsetSafe(s: Push)
    requires Shape(s) && OffsetSafe(s) && s.hand.Settled?
    ensures OffsetSafe(OnAdvance(s))
  {
    AdvancePlaces(s);
    if Others(s.hand.batch, s.hand.failed) != [] && s.hand.epoch == s.epoch {
      AdvanceStaysBehind(s);
    }
    hide Shape, Live, Others, MaxOffset, NextOffset, Head;
    if !s.frozen {
      assert Behind(s.offset, Live(s), s.epoch);
      assert Behind(OnAdvance(s).offset, Live(s), s.epoch);
    }
  }

  lemma AdvanceKeeps(s: Push)
    requires Inv(s) && s.hand.Settled?
    ensures Inv(OnAdvance(s))
  {
    AdvanceShape(s);
    AdvanceLedger(s);
    AdvanceOffsetSafe(s);
  }

  /** The smallest entry of a buffer in order is its head. */
  lemma SmallestIsHead(ms: seq<Msg>, m: Msg)
    requires Ascending(ms) && m in ms && forall x :: x in ms ==> m.offset <= x.offset
    ensures Head(ms) == m
  {
    var i :| 0 <= i < |ms| && ms[i] == m;
    var j :| 0 <= j < |ms| && ms[j] == Head(ms);
  }

  lemma DeregisterEntries(s: Push)
    requires HandShape(s) && s.hand.Closing?
    ensures Entries(OnDeregister(s)) == s.pending && OnDeregister(s).inflight == []
  {
    OthersOfAll(s.inflight, s.hand.batch);
  }

  lemma HeldHeadsTheBuffer(s: Push)
    requires BufferShape(s) && HandShape(s) && OrderShape(s) && SweepShape(s) && s.hand.Closing?
    requires !s.sweep.Resting? && s.sweep.msg.epoch == s.epoch
    ensures s.pending != [] && Head(s.pending) == s.sweep.msg
  {
    HeldIsBuffered(s);
    assert forall x :: x in s.pending ==> x in Entries(s);
    hide Ascending;
    SmallestIsHead(s.pending, s.sweep.msg);
  }

  lemma DeregisterSweep(s: Push)
    requires Shape(s) && s.hand.Closing?
    ensures SweepShape(OnDeregister(s))
  {
    hide BufferShape, HandShape, OrderShape, Head, Others;
    DeregisterEntries(s);
    if !s.sweep.Resting? && s.sweep.msg.epoch == s.epoch {
      HeldHeadsTheBuffer(s);
    }
  }

  lemma DeregisterShape(s: Push)
    requires Shape(s) && s.hand.Closing?
    ensures Shape(OnDeregister(s))
  {
    DeregisterSweep(s);
    OthersOfAll(s.inflight, s.hand.batch);
    hide SweepShape, Ascending, Head, Others, Below;
  }

  lemma DeregisterKeeps(s: Push)
    requires Inv(s) && s.hand.Closing?
    ensures Inv(OnDeregister(s))
  {
    var t := OnDeregister(s);
    DeregisterShape(s);
    OthersOfAll(s.inflight, s.hand.batch);
    assert Buffered(t) == Buffered(s);
    assert InFlight(t) == InFlight(s);
    SamePlaces(s, t);
    hide Shape;
  }

  /** What the sweep may pick is still owed. */
  lemma PickedIsLive(s: Push, m: Msg)
    requires Shape(s) && m in Entries(s) && !UnderSettlement(s, m)
    ensures m in Members(s.pending) + InHand(s)
    ensures s.hand.Settling? || s.hand.Settled? || s.hand.Closing? ==> m in s.pending
  {
    if m !in s.pending {
      assert m in s.inflight && s.hand.Listening?;
    }
  }

  /** The sweep picks nothing the dispatch thread has in its hand outside the queue's lists. */
  lemma PickedIsNotInHand(s: Push, m: Msg)
    requires BufferShape(s) && HandShape(s) && OrderShape(s) && Checked(s) && m in Entries(s) && !UnderSettlement(s, m)
    ensures s.hand.Taken? || s.hand.Passed? ==> m !in s.hand.batch
    ensures s.hand.Settling? ==> m !in s.hand.failed
    ensures s.hand.Settling? && s.hand.sure && s.hand.at < |s.hand.batch| ==> m != s.hand.batch[s.hand.at]
  {
    EntriesArePresent(s);
    hide Ascending;
  }

  lemma OnlyTheSweep(s: Push, sweep: Sweep)
    requires BufferShape(s) && HandShape(s) && OrderShape(s)
    ensures var t := s.(sweep := sweep); BufferShape(t) && HandShape(t) && OrderShape(t)
  {
    hide Ascending, Below;
  }

  lemma SweepPickShape(s: Push)
    requires Shape(s) && Checked(s) && Unsent(s) && s.sweep.Resting?
    requires Entries(s) != [] && !UnderSettlement(s, Head(Entries(s)))
    ensures Shape(OnSweepPick(s))
  {
    hide BufferShape, HandShape, OrderShape, Head, Checked;
    var m := Head(Entries(s));
    assert m in Live(s) by { PickedIsLive(s, m); }
    hide Live;
    assert m in s.pulled && m.epoch == s.epoch by { EntriesArePresent(s); }
    PickedIsNotInHand(s, m);
    OnlyTheSweep(s, Picked(m));
    assert Entries(OnSweepPick(s)) == Entries(s);
    hide Entries;
  }

  lemma SweepPickLedger(s: Push)
    requires Ledger(s) && s.sweep.Resting? && Entries(s) != []
    ensures Ledger(OnSweepPick(s)) && Live(OnSweepPick(s)) == Live(s)
  {
    var t := OnSweepPick(s);
    assert Buffered(t) == Buffered(s);
    assert InFlight(t) == InFlight(s);
    SamePlaces(s, t);
  }

  lemma SweepPickKeeps(s: Push)
    requires Inv(s) && s.sweep.Resting? && Entries(s) != [] && !UnderSettlement(s, Head(Entries(s)))
    ensures Inv(OnSweepPick(s))
  {
    SweepPickShape(s);
    SweepPickLedger(s);
    hide Shape, Ledger, Live;
  }

  lemma SweepSendShape(s: Push, ok: bool)
    requires Shape(s) && s.sweep.Picked?
    ensures Shape(OnSweepSend(s, ok))
  {
  }

  lemma HeldIsLive(s: Push)
    requires Shape(s) && s.sweep.Picked? && s.sweep.msg.epoch == s.epoch
    ensures s.sweep.msg in Live(s)
  {
    PickedIsLive(s, s.sweep.msg);
  }

  lemma SweepSendLedger(s: Push, ok: bool)
    requires Shape(s) && Ledger(s) && s.sweep.Picked?
    ensures Ledger(OnSweepSend(s, ok))
  {
    var t := OnSweepSend(s, ok);
    if s.sweep.msg.epoch == s.epoch { HeldIsLive(s); }
    assert s.sent[s.sweep.msg] == 0;
    hide Shape;
    if ok {
      assert Buffered(t) == Buffered(s) - {s.sweep.msg};
      assert InFlight(t) == InFlight(s) - {s.sweep.msg};
      Shipped(s, t, s.sweep.msg);
    } else {
      assert Buffered(t) == Buffered(s);
      assert InFlight(t) == InFlight(s);
      SamePlaces(s, t);
    }
  }

  lemma SweepSendOffsetSafe(s: Push, ok: bool)
    requires Shape(s) && OffsetSafe(s) && s.sweep.Picked?
    ensures OffsetSafe(OnSweepSend(s, ok))
  {
  }

  lemma SweepSendKeeps(s: Push, ok: bool)
    requires Inv(s) && s.sweep.Picked?
    ensures Inv(OnSweepSend(s, ok))
  {
    SweepSendShape(s, ok);
    SweepSendLedger(s, ok);
    SweepSendOffsetSafe(s, ok);
  }

  lemma SweepRemoveLinks(s: Push)
    requires Shape(s) && s.sweep.Returned?
    ensures var t, m := OnSweepRemove(s), s.sweep.msg;
      && (forall x :: x in t.pending <==> x in s.pending && x != m)
      && (forall x :: x in t.inflight <==> x in s.inflight && x != m)
  {
    var m := s.sweep.msg;
    if IsHead(s, m) {
      UnlinkTakesTheHead(s, m);
    } else {
      EntriesArePresent(s);
      assert m !in Entries(s);
    }
  }

  /** Nothing the dispatch thread has still to settle is the message the sweep has returned, but for a batch in the
      listener's hands. */
  lemma ReturnedIsNotOwed(s: Push)
    requires Shape(s) && s.sweep.Returned? && !s.hand.Listening?
    ensures s.sweep.msg !in InHand(s) && InFlight(s) == InHand(s)
    ensures s.hand.Settling? ==> s.sweep.msg !in s.inflight
  {
    EntriesArePresent(s);
    assert s.sweep.msg in s.inflight ==> s.sweep.msg in Entries(s);
    hide Ascending, Head;
  }

  lemma SweepRemovePlaces(s: Push)
    requires Shape(s) && s.sweep.Returned?
    ensures Buffered(OnSweepRemove(s)) == Buffered(s)
    ensures InFlight(OnSweepRemove(s)) == InFlight(s)
  {
    var t, m := OnSweepRemove(s), s.sweep.msg;
    SweepRemoveLinks(s);
    assert t.hand == s.hand && t.sweep == Resting;
    if !s.hand.Listening? { ReturnedIsNotOwed(s); }
    hide Shape, OnSweepRemove;
    LessOne(s.pending, t.pending, m);
    if s.hand.Listening? {
      LessOneAttached(s.hand.batch, s.inflight, t.inflight, m);
    } else if s.hand.Settling? && s.hand.at <= |s.hand.batch| {
      LessOneAttached(s.hand.batch[s.hand.at..], s.inflight, t.inflight, m);
    }
    hide Members, Attached;
  }

  lemma LessOne(ms: seq<Msg>, ns: seq<Msg>, m: Msg)
    requires forall x :: x in ns <==> x in ms && x != m
    ensures Members(ns) == Members(ms) - {m}
  {
  }

  lemma LessOneAttached(b: seq<Msg>, ms: seq<Msg>, ns: seq<Msg>, m: Msg)
    requires forall x :: x in ns <==> x in ms && x != m
    ensures Attached(b, ns) == Attached(b, ms) - {m}
  {
  }

  /** Lists that have only lost a message keep their shape. */
  lemma ListsShrink(s: Push, t: Push)
    requires BufferShape(s) && HandShape(s) && OrderShape(s)
    requires t == s.(pending := t.pending, inflight := t.inflight, sweep := t.sweep)
    requires (forall x :: x in t.pending ==> x in s.pending) && (forall x :: x in t.inflight ==> x in s.inflight)
    requires Ascending(t.pending)
    ensures BufferShape(t) && HandShape(t) && OrderShape(t)
  {
    Nothing(t.pending);
    Nothing(t.inflight);
    hide Ascending;
  }

  lemma CheckedStays(s: Push, t: Push, m: Msg)
    requires Checked(s) && t == s.(pending := t.pending, inflight := t.inflight, sweep := t.sweep)
    requires forall x :: x in t.inflight <==> x in s.inflight && x != m
    requires s.hand.Settling? ==> m !in s.inflight
    ensures Checked(t)
  {
  }

  lemma SweepRemoveShape(s: Push)
    requires Shape(s) && Checked(s) && s.sweep.Returned?
    ensures Shape(OnSweepRemove(s)) && Checked(OnSweepRemove(s))
  {
    var t := OnSweepRemove(s);
    SweepRemoveLinks(s);
    assert s.hand.Settling? ==> s.sweep.msg !in s.inflight by { if !s.hand.Listening? { ReturnedIsNotOwed(s); } }
    assert Ascending(t.pending) by { if IsHead(s, s.sweep.msg) { UnlinkTakesTheHead(s, s.sweep.msg); } }
    assert t == s.(pending := t.pending, inflight := t.inflight, sweep := Resting);
    hide BufferShape, HandShape, OrderShape, Checked, Head, Others, Unlink, IsHead, Ascending, OnSweepRemove;
    ListsShrink(s, t);
    CheckedStays(s, t, s.sweep.msg);
  }

  lemma SweepRemoveLedger(s: Push)
    requires Shape(s) && Ledger(s) && s.sweep.Returned?
    ensures Ledger(OnSweepRemove(s))
  {
    hide Ledger, Shape, Head, IsHead, Buffered, InFlight;
    SweepRemovePlaces(s);
    SamePlaces(s, OnSweepRemove(s));
  }

  lemma SweepRemoveOffsetSafe(s: Push)
    requires Shape(s) && OffsetSafe(s) && s.sweep.Returned?
    ensures OffsetSafe(OnSweepRemove(s))
  {
    SweepRemovePlaces(s);
  }

  lemma SweepRemoveKeeps(s: Push)
    requires Inv(s) && s.sweep.Returned?
    ensures Inv(OnSweepRemove(s))
  {
    SweepRemoveShape(s);
    SweepRemoveLedger(s);
    SweepRemoveOffsetSafe(s);
  }

  lemma StepKeeps(s: Push, e: Event)
    requires Inv(s) && Enabled(s, e) && Apart(s, e)
    ensures Inv(After(s, e))
  {
    hide Inv;
    match e
    case Found(rows, next) => FoundKeeps(s, rows, next);
    case NoMatch(next) => NoMatchKeeps(s, next);
    case Illegal(next) => IllegalKeeps(s, next);
    case Retire => RetireKeeps(s);
    case Rebuild(start) => RebuildKeeps(s, start);
    case Take(size) => TakeKeeps(s, size);
    case Enter => EnterKeeps(s);
    case Register => RegisterKeeps(s);
    case Return(acks) => ReturnKeeps(s, acks);
    case Check => CheckKeeps(s);
    case SendBack(ok) => SendBackKeeps(s, ok);
    case Requeue => RequeueKeeps(s);
    case Advance => AdvanceKeeps(s);
    case Deregister => DeregisterKeeps(s);
    case SweepPick => SweepPickKeeps(s);
    case SweepSend(ok) => SweepSendKeeps(s, ok);
    case SweepRemove => SweepRemoveKeeps(s);
  }

  lemma {:induction false} RunKeeps(s: Push, es: seq<Event>)
    requires Inv(s) && Runs(s, es) && Guarded(s, es)
    ensures Inv(End(s, es))
    decreases |es|
  {
    hide Inv, After, Enabled, Apart;
    if es != [] {
      StepKeeps(s, es[0]);
      RunKeeps(After(s, es[0]), es[1..]);
    }
  }

  // ---- what holds of every run ------------------------------------------------------------------

  /**
   * However pulls, dispatches, partial acknowledgements, sweeps, revokes and rebuilds interleave, as long
   * as no two of them overlap on the same message: every message of the present buffer is in exactly one
   * place, nothing goes back to the broker twice, and the committed offset passes nothing still owed.
   */
  lemma EveryGuardedRunSettles(broadcast: bool, es: seq<Event>)
    requires Runs(Fresh(broadcast), es) && Guarded(Fresh(broadcast), es)
    ensures Promise(End(Fresh(broadcast), es))
  {
    FreshHolds(broadcast);
    RunKeeps(Fresh(broadcast), es);
    InvPromises(End(Fresh(broadcast), es));
  }

  lemma InvPromises(s: Push)
    requires Inv(s)
    ensures Promise(s)
  {
    EntriesArePresent(s);
  }

  /** So a crash loses nothing: below the committed offset everything pulled was acknowledged or sent back. */
  lemma CommittedMeansSettled(es: seq<Event>, m: Msg)
    requires Runs(Fresh(false), es) && Guarded(Fresh(false), es)
    requires var s := End(Fresh(false), es);
      && m in s.pulled && m.epoch == s.epoch
      && !s.frozen && s.offset.Some? && m.offset < s.offset.value
    ensures var s := End(Fresh(false), es); m in s.acked || s.sent[m] == 1
  {
    EveryGuardedRunSettles(false, es);
    ModeKept(Fresh(false), es);
    hide Runs, Guarded, End;
  }

  /** Clustering drops nothing, broadcasting never reaches the send-back loop. */
  predicate Mode(s: Push) {
    && (!s.broadcast ==> s.dropped == {})
    && (s.broadcast ==> !s.hand.Settling?)
  }

  lemma {:induction false} ModeKept(s: Push, es: seq<Event>)
    requires Mode(s) && Runs(s, es)
    ensures Mode(End(s, es)) && End(s, es).broadcast == s.broadcast
    decreases |es|
  {
    if es != [] {
      ModeKept(After(s, es[0]), es[1..]);
    }
  }
}
