/** Every fair schedule of the lite-pull consumer delivers its backlogs: whatever the order in which polls, pulls and
    commits take their steps, as long as none of them is put off for ever. */
module LiteFairness {
  import opened Messages
  import opened LiteQueueCache
  import opened LiteSpec
  import opened LiteSteps
  import opened LiteRuns
  import opened LiteShared
  import opened LiteBacklog

  // ---- one queue that is being served ----

  /** Pulls, polls and commits. An answer reaches no further than the end of the backlog and moves on unless it is
      there. */
  predicate ServesStep(s: Q, e: Event, end: nat) {
    match e
    case Judge(next, illegal) =>
      !illegal && next <= end && (s.pulling.Asked? && s.pulling.at < end ==> s.pulling.at < next)
    case SeekBegin(_) => false
    case SeekPull => false
    case SeekCursor => false
    case SeekPrune => false
    case Leave(_) => false
    case Drop(_) => false
    case Hold => false
    case Resolve(_) => false
    case StartWrite => false
    case Crash => false
    case _ => true
  }

  /** An accepted answer that moves the queue on, if it is not at the end of its backlog. */
  predicate MovesOn(w: nat -> bool, s: Q, end: nat) {
    s.pulling.Writing? ==>
      && s.view.pull.Some? && !s.pulling.lost && s.view.pull.value <= s.pulling.next <= end
      && s.pulling.found == Live(w, s.h.gone, s.view.pull.value, s.pulling.next)
      && (s.view.pull.value < end ==> s.view.pull.value < s.pulling.next)
  }

  /** A held queue with a pull cursor that nobody seeks or gives up, or one that nobody holds. */
  predicate Serving(w: nat -> bool, s: Q, end: nat) {
    && s.leaving.Steady? && s.seeking.NotSeeking? && s.starting.None? && !s.pulling.Opening? && MovesOn(w, s, end)
    && (if s.view.held then s.view.pull.Some? && s.view.pull.value <= end else s.pulling.Resting? && Pending(s).None?)
    && (s.pulling.Asked? ==> s.view.pull == Some(s.pulling.at))
  }

  /** The replay is the same, and its pull cursor has not gone back. */
  predicate GoesOn(s: Q, t: Q) {
    && t.view.held == s.view.held && t.h.on == s.h.on && t.h.origin == s.h.origin && t.h.gone == s.h.gone
    && t.view.pull.Some? == s.view.pull.Some? && (s.view.pull.Some? ==> s.view.pull.value <= t.view.pull.value)
  }

  lemma HeldOrIdle(w: nat -> bool, s: Q, end: nat)
    requires Sound(w, s) && Serving(w, s, end)
    ensures PullStands(s) <==> s.view.held
    ensures s.view.held ==> s.h.on
    ensures !s.view.held ==> s.view.rows == [] && s.view.pull.None?
  {
    hide Exact, LiteRuns.Cursors, SeekShape, InOrder, Covered, Grouped, MovesOn, MaxOf, Greatest;
  }

  lemma AskingServes(w: nat -> bool, s: Q, e: Event, end: nat)
    requires Sound(w, s) && Serving(w, s, end) && Possible(s, e)
    requires e.Target? || e.Skip? || e.Look? || e.Fail?
    ensures Clean(w, s, e) && Serving(w, Step(w, s, e), end) && GoesOn(s, Step(w, s, e))
  {
    HeldOrIdle(w, s, end);
    hide Sound, Live, MaxOf, Greatest;
    var t := Step(w, s, e);
    assert t == s.(pulling := t.pulling) && Clean(w, s, e) && (t.pulling.Asked? ==> s.view.pull == Some(t.pulling.at));
    assert Pending(t) == Pending(s) && (t.pulling.Resting? || (s.view.held && (t.pulling.Targeted? || t.pulling.Asked?)));
    hide Pending, Step, Possible, Clean;
  }

  lemma AnswerServes(w: nat -> bool, s: Q, e: Event, end: nat)
    requires Sound(w, s) && Serving(w, s, end) && Possible(s, e) && ServesStep(s, e, end)
    requires e.OpenWrite? || e.Judge? || e.Write? || e.Arrive?
    ensures Clean(w, s, e) && Serving(w, Step(w, s, e), end) && GoesOn(s, Step(w, s, e))
  {
    HeldOrIdle(w, s, end);
    hide Sound, Live, MaxOf, Greatest;
    assert Pending(Step(w, s, e)) == Pending(s);
    hide Pending;
  }

  lemma PollingServes(w: nat -> bool, s: Q, e: Event, end: nat)
    requires Sound(w, s) && Serving(w, s, end) && Possible(s, e) && (e.Take? || e.LookUp? || e.Move?)
    ensures Clean(w, s, e) && Serving(w, Step(w, s, e), end) && GoesOn(s, Step(w, s, e))
  {
    HeldOrIdle(w, s, end);
    hide Sound, Live, MaxOf, Greatest, RemoveEachFromGroups, ChargeAll;
  }

  lemma CommittingServes(w: nat -> bool, s: Q, e: Event, end: nat)
    requires Serving(w, s, end) && Possible(s, e)
    requires e.CommitRead? || e.CommitWrite? || e.CommitAt? || e.Persist? || e.Sweep? || e.Query? || e.Fill?
    ensures Clean(w, s, e) && Serving(w, Step(w, s, e), end) && GoesOn(s, Step(w, s, e))
  {
    hide Live, MaxOf, Greatest, Undelivered;
    assert Pending(Step(w, s, e)) == Pending(s);
    hide Pending;
  }

  /** Such steps are clean and go on serving the queue. */
  lemma StepServes(w: nat -> bool, s: Q, e: Event, end: nat)
    requires Sound(w, s) && Serving(w, s, end) && Possible(s, e) && ServesStep(s, e, end)
    ensures Clean(w, s, e) && Serving(w, Step(w, s, e), end) && GoesOn(s, Step(w, s, e))
  {
    hide Sound, Serving, Clean, Step, GoesOn;
    match e
    case Take(_) => PollingServes(w, s, e, end);
    case LookUp => PollingServes(w, s, e, end);
    case Move => PollingServes(w, s, e, end);
    case CommitRead => CommittingServes(w, s, e, end);
    case CommitWrite(_) => CommittingServes(w, s, e, end);
    case CommitAt(_, _) => CommittingServes(w, s, e, end);
    case Persist(_) => CommittingServes(w, s, e, end);
    case Sweep => CommittingServes(w, s, e, end);
    case Query => CommittingServes(w, s, e, end);
    case Fill => CommittingServes(w, s, e, end);
    case Target => AskingServes(w, s, e, end);
    case Skip => AskingServes(w, s, e, end);
    case Look(_) => AskingServes(w, s, e, end);
    case Fail => AskingServes(w, s, e, end);
    case _ => AnswerServes(w, s, e, end);
  }

  /** No row is on its way into the cache. */
  predicate Landed(s: Q) {
    s.pulling.Carrying? ==> s.pulling.found == []
  }

  /** Once its pull cursor stands still, a queue fetches nothing more. */
  lemma StaysLanded(w: nat -> bool, s: Q, e: Event, end: nat)
    requires Serving(w, s, end) && Possible(s, e) && ServesStep(s, e, end) && Landed(s)
    requires Step(w, s, e).view.pull == s.view.pull
    ensures Landed(Step(w, s, e))
  {
    if s.pulling.Writing? { LiveBackwards(w, s.h.gone, s.pulling.next, s.pulling.next); }
    hide Live, MaxOf, Greatest, Undelivered, RemoveEachFromGroups, ChargeAll;
  }

  /** At the end of its backlog, with nothing cached or on its way: everything has been delivered. */
  lemma AllDelivered(w: nat -> bool, s: Q, end: nat)
    requires Sound(w, s) && Serving(w, s, end) && Landed(s) && s.view.held
    requires s.view.rows == [] && s.view.pull == Some(end)
    ensures s.h.delivered == Live(w, s.h.gone, s.h.origin, end)
  {
    HeldOrIdle(w, s, end);
    if s.pulling.Writing? { LiveBackwards(w, s.h.gone, end, end); }
    hide Live, Places, LiteRuns.Cursors, SeekShape, InOrder, Covered, Grouped, MaxOf, Greatest;
    assert Incoming(s) == [] && s.h.delivered + Staying(s) + Incoming(s) == s.h.delivered;
  }

  // ---- schedules ----

  /** What the queues match, the limits of the gates, where each backlog ends, and what happens: state after state, and
      the deeds in between. */
  datatype Story = Story(w: Matches, limits: Limits, end: MessageQueue -> nat, run: nat -> World, deeds: nat -> Deed)

  predicate Serves(s: World, d: Deed, end: MessageQueue -> nat)
    requires Can(s, d)
  {
    forall p | p in s.locals && EventFor(s, d, p).Some? :: ServesStep(Project(s, p), EventFor(s, d, p).value, end(p))
  }

  ghost predicate Good(w: Matches, s: World, end: MessageQueue -> nat) {
    && AllSound(w, s) && KnownRounds(s) && s.lite.owned <= s.locals.Keys
    && forall p | p in s.locals :: Serving(w(p), Project(s, p), end(p))
  }

  ghost predicate Happens(x: Story, n: nat) {
    && Can(x.run(n), x.deeds(n)) && !x.deeds(n).CrashAll? && Serves(x.run(n), x.deeds(n), x.end)
    && GatedDeed(x.run(n), x.deeds(n), x.limits) && x.run(n + 1) == Does(x.w, x.run(n), x.deeds(n))
  }

  /** A schedule that begins with served queues and goes on with pulls, polls and commits, each step where it may be. */
  ghost predicate Goes(x: Story) {
    NonNegative(x.limits) && Good(x.w, x.run(0), x.end) && forall n: nat :: Happens(x, n)
  }

  /** The buffer is empty, or a poll takes rows from it. */
  predicate Polls(x: Story, n: nat) {
    x.run(n).lite.buffer == [] || (x.deeds(n).TakeRows? && x.deeds(n).n > 0)
  }

  /** The gates refuse the queue, or an answer for it is accepted. */
  ghost predicate Pulls(x: Story, q: MessageQueue, n: nat) {
    Due(x.run(n).lite, x.limits, q) != Admitted || x.deeds(n) == On(q, Write)
  }

  /** The pull thread has no rows of the queue to enqueue. */
  predicate Enqueues(x: Story, q: MessageQueue, n: nat) {
    q in x.run(n).locals ==> !x.run(n).locals[q].pulling.Carrying?
  }

  ghost predicate PollsLater(x: Story, n: nat) {
    exists m: nat :: m >= n && Polls(x, m)
  }

  ghost predicate PullsLater(x: Story, q: MessageQueue, n: nat) {
    exists m: nat :: m >= n && Pulls(x, q, m)
  }

  ghost predicate EnqueuesLater(x: Story, q: MessageQueue, n: nat) {
    exists m: nat :: m >= n && Enqueues(x, q, m)
  }

  /** Nothing is put off for ever: not the next poll of a buffer that has rows, not the next answer for a queue that
      stays admitted, and not the rows of an answer. */
  ghost predicate Fair(x: Story) {
    && (forall n: nat :: PollsLater(x, n))
    && (forall n: nat, q :: q in x.run(0).lite.owned ==> PullsLater(x, q, n))
    && (forall n: nat, q :: EnqueuesLater(x, q, n))
  }

  // ---- what every step keeps ----

  lemma DeedServes(w: Matches, s: World, d: Deed, end: MessageQueue -> nat, p: MessageQueue)
    requires Can(s, d) && Serves(s, d, end) && p in s.locals
    requires Sound(w(p), Project(s, p)) && Serving(w(p), Project(s, p), end(p))
    ensures EventFor(s, d, p).Some? ==> Clean(w(p), Project(s, p), EventFor(s, d, p).value)
    ensures var t := Does(w, s, d);
            && p in t.locals && Serving(w(p), Project(t, p), end(p)) && GoesOn(Project(s, p), Project(t, p))
            && (Landed(Project(s, p)) && Project(t, p).view.pull == Project(s, p).view.pull ==> Landed(Project(t, p)))
  {
    DeedProjects(w, s, d, p);
    var u, e := Project(s, p), EventFor(s, d, p);
    var t := Project(Does(w, s, d), p);
    hide Sound, Project, Clean, EventFor, Does, Can;
    if e.Some? {
      StepServes(w(p), u, e.value, end(p));
      hide Serving, Step, Possible, GoesOn, Landed;
      if Landed(u) && t.view.pull == u.view.pull { StaysLanded(w(p), u, e.value, end(p)); }
    }
  }

  lemma StaysGood(w: Matches, s: World, d: Deed, end: MessageQueue -> nat)
    requires Good(w, s, end) && Can(s, d) && !d.CrashAll? && Serves(s, d, end)
    ensures CleanDeed(w, s, d) && Good(w, Does(w, s, d), end)
    ensures Does(w, s, d).locals.Keys == s.locals.Keys && Does(w, s, d).lite.owned == s.lite.owned
  {
    hide Sound, Project, Clean, EventFor, Does, Can, Serving, Landed, GoesOn, KnownRounds, Serves;
    var t := Does(w, s, d);
    SameQueues(w, s, d);
    RoundsStayKnown(w, s, d);
    SameOwned(w, s, d, end);
    forall p | p in s.locals
      ensures EventFor(s, d, p).Some? ==> Clean(w(p), Project(s, p), EventFor(s, d, p).value)
      ensures p in t.locals && Serving(w(p), Project(t, p), end(p))
    {
      DeedServes(w, s, d, end, p);
    }
    forall p | p in t.locals ensures Sound(w(p), Project(t, p)) { DeedKeepsSound(w, s, d, p); }
  }

  lemma SameOwned(w: Matches, s: World, d: Deed, end: MessageQueue -> nat)
    requires Can(s, d) && !d.CrashAll? && Serves(s, d, end)
    ensures Does(w, s, d).lite.owned == s.lite.owned
  {
    if d.On? { assert EventFor(s, d, d.q) == Some(d.e); }
    hide Project, Share, Step, Possible, Charged, Enrolled, Advanced;
  }

  lemma {:induction false} AlwaysGood(x: Story, n: nat)
    requires Goes(x)
    ensures Good(x.w, x.run(n), x.end) && x.run(n).locals.Keys == x.run(0).locals.Keys
    ensures x.run(n).lite.owned == x.run(0).lite.owned
  {
    hide Good, NonNegative, Can, Serves, GatedDeed, Does;
    if n > 0 {
      AlwaysGood(x, n - 1);
      assert Happens(x, n - 1);
      hide Goes;
      StaysGood(x.w, x.run(n - 1), x.deeds(n - 1), x.end);
    }
  }

  /** The queue after `n` deeds. */
  ghost function At(x: Story, q: MessageQueue, n: nat): Q
    requires Goes(x) && q in x.run(0).locals
  {
    AlwaysGood(x, n);
    Project(x.run(n), q)
  }

  lemma NextStep(x: Story, q: MessageQueue, n: nat)
    requires Goes(x) && q in x.run(0).locals
    ensures GoesOn(At(x, q, n), At(x, q, n + 1))
    ensures Landed(At(x, q, n)) && At(x, q, n + 1).view.pull == At(x, q, n).view.pull ==> Landed(At(x, q, n + 1))
  {
    AlwaysGood(x, n);
    AlwaysGood(x, n + 1);
    assert Happens(x, n);
    hide Goes, Can, Serves, GatedDeed, Does, Sound, Project, GoesOn, Landed, Serving;
    DeedServes(x.w, x.run(n), x.deeds(n), x.end, q);
  }

  lemma {:induction false} Onwards(x: Story, q: MessageQueue, n: nat, m: nat)
    requires Goes(x) && q in x.run(0).locals && n <= m
    ensures GoesOn(At(x, q, n), At(x, q, m))
    decreases m
  {
    hide Goes, At;
    if n < m {
      Onwards(x, q, n, m - 1);
      NextStep(x, q, m - 1);
    }
  }

  // ---- the pull cursors come to rest ----

  /** From `n` on the pull cursor of the queue stands still. */
  ghost predicate Still(x: Story, q: MessageQueue, n: nat)
    requires Goes(x) && q in x.run(0).locals
  {
    forall m: nat | m >= n :: At(x, q, m).view.pull == At(x, q, n).view.pull
  }

  lemma HeldAt(x: Story, q: MessageQueue, n: nat)
    requires Goes(x) && q in x.run(0).lite.owned
    ensures q in x.run(0).locals && Sound(x.w(q), At(x, q, n)) && Serving(x.w(q), At(x, q, n), x.end(q))
    ensures At(x, q, n).view.held && At(x, q, n).view.pull.Some? && At(x, q, n).view.pull.value <= x.end(q)
  {
    AlwaysGood(x, n);
    hide Sound, Happens;
  }

  /** How much of its backlog the queue has not pulled yet. */
  ghost function Ahead(x: Story, q: MessageQueue, n: nat): nat
    requires Goes(x) && q in x.run(0).lite.owned && q in x.run(0).locals
  {
    HeldAt(x, q, n);
    x.end(q) - At(x, q, n).view.pull.value
  }

  lemma {:induction false} ComesToRest(x: Story, q: MessageQueue, n: nat) returns (m: nat)
    requires Goes(x) && q in x.run(0).lite.owned && q in x.run(0).locals
    ensures m >= n && Still(x, q, m)
    decreases Ahead(x, q, n)
  {
    hide Goes, At, Sound, Serving;
    HeldAt(x, q, n);
    m := n;
    if !Still(x, q, n) {
      var k: nat :| k >= n && At(x, q, k).view.pull != At(x, q, n).view.pull;
      Onwards(x, q, n, k);
      HeldAt(x, q, k);
      m := ComesToRest(x, q, k);
    }
  }

  lemma StillLater(x: Story, q: MessageQueue, n: nat, m: nat)
    requires Goes(x) && q in x.run(0).locals && Still(x, q, n) && n <= m
    ensures Still(x, q, m)
  {
    hide Goes, At;
  }

  /** From `n` on the queue has no row on its way. */
  ghost predicate AllLanded(x: Story, q: MessageQueue, n: nat)
    requires Goes(x) && q in x.run(0).locals
  {
    forall m: nat | m >= n :: Landed(At(x, q, m))
  }

  lemma {:induction false} RemainsLanded(x: Story, q: MessageQueue, n: nat, m: nat)
    requires Goes(x) && q in x.run(0).locals && Still(x, q, n) && Landed(At(x, q, n)) && n <= m
    ensures Landed(At(x, q, m))
    decreases m
  {
    hide Goes, At, Landed, GoesOn;
    if n < m {
      RemainsLanded(x, q, n, m - 1);
      NextStep(x, q, m - 1);
    }
  }

  lemma EnqueuedIsLanded(x: Story, q: MessageQueue, n: nat)
    requires Goes(x) && q in x.run(0).locals && Enqueues(x, q, n)
    ensures Landed(At(x, q, n))
  {
    AlwaysGood(x, n);
    hide Goes, Good;
  }

  lemma Lands(x: Story, q: MessageQueue, n: nat) returns (m: nat)
    requires Goes(x) && Fair(x) && q in x.run(0).locals && Still(x, q, n)
    ensures m >= n && Still(x, q, m) && AllLanded(x, q, m)
  {
    hide Goes, At, Landed, Enqueues;
    assert EnqueuesLater(x, q, n);
    m :| m >= n && Enqueues(x, q, m);
    hide Fair;
    EnqueuedIsLanded(x, q, m);
    StillLater(x, q, n, m);
    forall k: nat | k >= m ensures Landed(At(x, q, k)) { RemainsLanded(x, q, m, k); }
  }

  lemma NotHeldLands(x: Story, q: MessageQueue, n: nat)
    requires Goes(x) && q in x.run(0).locals && q !in x.run(0).lite.owned
    ensures Landed(At(x, q, n))
  {
    AlwaysGood(x, n);
    assert Serving(x.w(q), Project(x.run(n), q), x.end(q));
    hide Sound, Goes, MovesOn;
  }

  /** From `n` on all these queues stand still and have no row on their way. */
  ghost predicate AtRest(x: Story, qs: set<MessageQueue>, n: nat)
    requires Goes(x) && qs <= x.run(0).locals.Keys
  {
    forall q | q in qs :: Still(x, q, n) && AllLanded(x, q, n)
  }

  lemma AtRestLater(x: Story, qs: set<MessageQueue>, n: nat, m: nat)
    requires Goes(x) && qs <= x.run(0).locals.Keys && AtRest(x, qs, n) && n <= m
    ensures AtRest(x, qs, m)
  {
    hide Goes, At, Landed;
    forall q | q in qs ensures Still(x, q, m) && AllLanded(x, q, m) { StillLater(x, q, n, m); }
  }

  lemma {:induction false} AllComeToRest(x: Story, qs: set<MessageQueue>) returns (n: nat)
    requires Goes(x) && Fair(x) && qs <= x.run(0).lite.owned && qs <= x.run(0).locals.Keys
    ensures AtRest(x, qs, n)
    decreases qs
  {
    hide Goes, Fair, Still, AllLanded;
    n := 0;
    if qs != {} {
      var q :| q in qs;
      var a := AllComeToRest(x, qs - {q});
      var b := ComesToRest(x, q, a);
      n := Lands(x, q, b);
      AtRestLater(x, qs - {q}, a, n);
    }
  }

  // ---- the buffer runs dry ----

  lemma BufferAfter(w: Matches, s: World, d: Deed, end: MessageQueue -> nat)
    requires Can(s, d) && !d.CrashAll? && Serves(s, d, end)
    requires d.Enqueue? ==> Landed(Project(s, d.q))
    ensures Does(w, s, d).lite.buffer == if d.TakeRows? then s.lite.buffer[d.n..] else s.lite.buffer
  {
    if d.On? { assert EventFor(s, d, d.q) == Some(d.e); }
    if d.Enqueue? { assert |Offsets(d.rows)| == |d.rows|; }
    hide Share, Step, Possible, Charged, Enrolled, Advanced, RowsOf;
  }

  lemma BufferNext(x: Story, n: nat)
    requires Goes(x) && forall q | q in x.run(0).locals :: Landed(At(x, q, n))
    ensures var b, c := x.run(n).lite.buffer, x.run(n + 1).lite.buffer;
            |c| <= |b| && (x.deeds(n).TakeRows? && x.deeds(n).n > 0 ==> |c| < |b|)
  {
    assert Happens(x, n);
    AlwaysGood(x, n);
    if x.deeds(n).Enqueue? {
      var q := x.deeds(n).q;
      assert q in x.run(n).locals;
      assert Landed(At(x, q, n));
    }
    hide Goes, Good, Serves, GatedDeed, Does, Landed, Project;
    BufferAfter(x.w, x.run(n), x.deeds(n), x.end);
  }

  lemma {:induction false} BufferShrinks(x: Story, n: nat, m: nat)
    requires Goes(x) && n <= m && forall k: nat, q | k >= n && q in x.run(0).locals :: Landed(At(x, q, k))
    ensures |x.run(m).lite.buffer| <= |x.run(n).lite.buffer|
    decreases m
  {
    hide Goes, At, Landed;
    if n < m {
      BufferShrinks(x, n, m - 1);
      BufferNext(x, m - 1);
    }
  }

  lemma {:induction false} RunsDry(x: Story, n: nat) returns (m: nat)
    requires Goes(x) && Fair(x) && forall k: nat, q | k >= n && q in x.run(0).locals :: Landed(At(x, q, k))
    ensures m >= n && forall k: nat | k >= m :: x.run(k).lite.buffer == []
    decreases |x.run(n).lite.buffer|
  {
    hide Goes, At, Landed;
    assert PollsLater(x, n);
    var a: nat :| a >= n && Polls(x, a);
    hide Fair;
    BufferShrinks(x, n, a);
    if x.run(a).lite.buffer == [] {
      m := a;
      forall k: nat | k >= m ensures x.run(k).lite.buffer == [] { BufferShrinks(x, m, k); }
    } else {
      BufferNext(x, a);
      m := RunsDry(x, a + 1);
    }
  }

  // ---- so everything is delivered ----

  /** While the buffer is empty, answers for the queue are accepted again and again. */
  lemma WritesLater(x: Story, q: MessageQueue, n: nat) returns (m: nat)
    requires Goes(x) && Fair(x) && q in x.run(0).lite.owned && forall k: nat | k >= n :: x.run(k).lite.buffer == []
    ensures m >= n && x.deeds(m) == On(q, Write)
  {
    hide Goes, Pulls;
    assert PullsLater(x, q, n);
    m :| m >= n && Pulls(x, q, m);
    hide Fair;
    AlwaysGood(x, m);
    OpenWhenEmpty(x, q, m);
  }

  lemma OpenWhenEmpty(x: Story, q: MessageQueue, n: nat)
    requires Goes(x) && q in x.run(n).lite.owned && x.run(n).lite.buffer == [] && Pulls(x, q, n)
    ensures x.deeds(n) == On(q, Write)
  {
    AlwaysGood(x, n);
    hide AllSound, KnownRounds, Due, NonNegative, Happens;
    EmptyBufferAdmitsIff(x.w, x.limits, x.run(n), q);
  }

  lemma WriteMoves(w: Matches, s: World, q: MessageQueue)
    requires Can(s, On(q, Write))
    ensures var t := Does(w, s, On(q, Write));
            && q in t.locals && Project(s, q).pulling.Writing?
            && Project(t, q).view.pull == Some(Project(s, q).pulling.next)
  {
    DeedProjects(w, s, On(q, Write), q);
    hide Does, Project;
  }

  lemma WritesNext(x: Story, q: MessageQueue, m: nat)
    requires Goes(x) && q in x.run(0).locals && x.deeds(m) == On(q, Write)
    ensures var s := At(x, q, m); s.pulling.Writing? && At(x, q, m + 1).view.pull == Some(s.pulling.next)
  {
    AlwaysGood(x, m);
    assert Happens(x, m);
    hide Goes, Good, Serves, GatedDeed, Can, Does, Project;
    WriteMoves(x.w, x.run(m), q);
  }

  /** A queue that stands still although its gate is open is at the end of its backlog. */
  lemma AtTheEnd(x: Story, q: MessageQueue, n: nat)
    requires Goes(x) && Fair(x) && q in x.run(0).lite.owned && q in x.run(0).locals && Still(x, q, n)
    requires forall k: nat | k >= n :: x.run(k).lite.buffer == []
    ensures At(x, q, n).view.pull == Some(x.end(q))
  {
    hide Goes, Fair, At, Sound, Live;
    var m := WritesLater(x, q, n);
    HeldAt(x, q, m);
    WritesNext(x, q, m);
    assert At(x, q, m).view.pull == At(x, q, n).view.pull == At(x, q, m + 1).view.pull;
  }

  lemma DeliveredAt(x: Story, q: MessageQueue, n: nat)
    requires Goes(x) && q in x.run(0).lite.owned && q in x.run(0).locals && x.run(n).lite.buffer == []
    requires Landed(At(x, q, n)) && At(x, q, n).view.pull == Some(x.end(q))
    ensures var h := At(x, q, n).h; h.delivered == Live(x.w(q), h.gone, h.origin, x.end(q))
  {
    assert At(x, q, n).view.rows == [] by { hide Goes, Landed; }
    hide Goes, At, Landed;
    HeldAt(x, q, n);
    AllDelivered(x.w(q), At(x, q, n), x.end(q));
  }

  /** In every fair schedule of polls, pulls and commits there comes a moment from which on every held queue has
      delivered its whole backlog, exactly: from the start of its replay to the end. */
  lemma EveryFairScheduleDelivers(x: Story) returns (n: nat)
    requires Goes(x) && Fair(x)
    ensures forall m: nat, q | m >= n && q in x.run(0).lite.owned ::
              && q in x.run(m).locals && x.run(m).lite.buffer == []
              && var h, k := x.run(0).locals[q].h, x.run(m).locals[q].h;
              k.origin == h.origin && k.gone == h.gone && k.delivered == Live(x.w(q), h.gone, h.origin, x.end(q))
  {
    var owned := x.run(0).lite.owned;
    assert owned <= x.run(0).locals.Keys;
    var a := AllComeToRest(x, owned);
    forall k: nat, q | k >= a && q in x.run(0).locals ensures Landed(At(x, q, k)) {
      if q in owned { assert AllLanded(x, q, a); } else { NotHeldLands(x, q, k); }
    }
    n := RunsDry(x, a);
    AtRestLater(x, owned, a, n);
    forall m: nat, q | m >= n && q in owned
      ensures q in x.run(m).locals && x.run(m).lite.buffer == []
      ensures var h, k := x.run(0).locals[q].h, x.run(m).locals[q].h;
              k.origin == h.origin && k.gone == h.gone && k.delivered == Live(x.w(q), h.gone, h.origin, x.end(q))
    {
      assert Still(x, q, n) && AllLanded(x, q, n);
      Ends(x, q, n, m);
    }
  }

  lemma Ends(x: Story, q: MessageQueue, n: nat, m: nat)
    requires Goes(x) && Fair(x) && q in x.run(0).lite.owned && q in x.run(0).locals && n <= m
    requires Still(x, q, n) && AllLanded(x, q, n) && forall k: nat | k >= n :: x.run(k).lite.buffer == []
    ensures q in x.run(m).locals
    ensures var h, k := x.run(0).locals[q].h, x.run(m).locals[q].h;
            k.origin == h.origin && k.gone == h.gone && k.delivered == Live(x.w(q), h.gone, h.origin, x.end(q))
  {
    AlwaysGood(x, m);
    AtTheEnd(x, q, n);
    assert Landed(At(x, q, m)) && At(x, q, m).view.pull == Some(x.end(q));
    assert At(x, q, m).h == x.run(m).locals[q].h && At(x, q, 0).h == x.run(0).locals[q].h;
    hide Goes, Fair, At, Landed, Still, AllLanded;
    Onwards(x, q, 0, m);
    DeliveredAt(x, q, m);
  }
}
