/** The gates of the lite-pull consumer always reopen: polling drains the buffer, and from a drained buffer every held
    queue is admitted, so that any backlog of any number of queues is delivered. */
module LiteBacklog {
  import opened Messages
  import opened LiteQueueCache
  import opened LiteSpec
  import opened LiteSteps
  import opened LiteRuns
  import opened LiteFailures
  import opened LiteShared

  // ---- building runs of the whole consumer ----

  /** A request goes out only when the gates admit the queue. */
  ghost predicate GatedDeed(s: World, d: Deed, limits: Limits) {
    d.On? && d.e.Look? ==> Due(s.lite, limits, d.q) == Admitted
  }

  /** Through the gates, by clean steps. */
  ghost predicate Passes(w: Matches, s: World, ds: seq<Deed>, limits: Limits)
    decreases |ds|
  {
    ds == [] || (&& Can(s, ds[0]) && CleanDeed(w, s, ds[0]) && GatedDeed(s, ds[0], limits)
                 && Passes(w, Does(w, s, ds[0]), ds[1..], limits))
  }

  ghost function End(w: Matches, s: World, ds: seq<Deed>, limits: Limits): World
    requires Passes(w, s, ds, limits)
    decreases |ds|
  {
    if ds == [] then s else End(w, Does(w, s, ds[0]), ds[1..], limits)
  }

  ghost predicate Leads(w: Matches, limits: Limits, s: World, ds: seq<Deed>, t: World) {
    Passes(w, s, ds, limits) && End(w, s, ds, limits) == t
  }

  lemma {:induction false} LeadsOn(w: Matches, limits: Limits, s: World, ds: seq<Deed>, d: Deed)
    requires Passes(w, s, ds, limits) && Can(End(w, s, ds, limits), d)
    requires CleanDeed(w, End(w, s, ds, limits), d) && GatedDeed(End(w, s, ds, limits), d, limits)
    ensures Passes(w, s, ds + [d], limits) && End(w, s, ds + [d], limits) == Does(w, End(w, s, ds, limits), d)
    decreases |ds|
  {
    hide Can, CleanDeed, GatedDeed, Does;
    if ds == [] {
      assert [d][1..] == [];
      assert [] + [d] == [d];
    } else {
      LeadsOn(w, limits, Does(w, s, ds[0]), ds[1..], d);
      assert (ds + [d])[1..] == ds[1..] + [d];
    }
  }

  lemma Do(w: Matches, limits: Limits, s: World, ds: seq<Deed>, t: World, d: Deed) returns (es: seq<Deed>, u: World)
    requires Leads(w, limits, s, ds, t) && Can(t, d) && CleanDeed(w, t, d) && GatedDeed(t, d, limits)
    ensures Leads(w, limits, s, es, u) && u == Does(w, t, d)
  {
    LeadsOn(w, limits, s, ds, d);
    es, u := ds + [d], Does(w, t, d);
  }

  /** A gated run of clean steps is a run of the consumer. */
  lemma {:induction false} PassesHappens(w: Matches, s: World, ds: seq<Deed>, limits: Limits)
    requires Passes(w, s, ds, limits)
    ensures Happens(w, s, ds) && CleanRun(w, s, ds) && Outcome(w, s, ds) == End(w, s, ds, limits)
    decreases |ds|
  {
    hide Can, CleanDeed, GatedDeed, Does;
    if ds != [] { PassesHappens(w, Does(w, s, ds[0]), ds[1..], limits); }
  }

  // ---- a consumer at rest ----

  predicate Rests(l: Local) {
    l.pulling.Resting? && l.seeking.NotSeeking? && l.leaving.Steady?
  }

  ghost predicate AllSound(w: Matches, s: World) {
    forall q | q in s.locals :: Sound(w(q), Project(s, q))
  }

  predicate KnownRounds(s: World) {
    forall q | q in s.lite.rounds :: q in s.locals
  }

  /** Nobody is in the middle of anything, every queue is sound, and every round and row belongs to a known queue. */
  ghost predicate Calm(w: Matches, s: World) {
    && s.polls.Nobody? && (forall q | q in s.locals :: Rests(s.locals[q]) && Sound(w(q), Project(s, q)))
    && (forall q | q in s.lite.rounds :: q in s.locals) && (forall m | m in s.lite.buffer :: m.queue in s.locals)
  }

  /** A deed of clean steps keeps every queue sound. */
  lemma DeedKeepsSound(w: Matches, s: World, d: Deed, p: MessageQueue)
    requires Can(s, d) && CleanDeed(w, s, d) && p in s.locals && Sound(w(p), Project(s, p))
    ensures p in Does(w, s, d).locals && Sound(w(p), Project(Does(w, s, d), p))
  {
    hide Sound, Project, Possible, Clean, Step, EventFor, Does, Can;
    DeedProjects(w, s, d, p);
    var e := EventFor(s, d, p);
    if e.Some? { StepKeeps(w(p), Project(s, p), e.value); }
  }

  // ---- draining ----

  /** The same queues are held and in the same replays. */
  predicate SameReplays(s: World, t: World) {
    && t.locals.Keys == s.locals.Keys && t.lite.owned == s.lite.owned
    && forall q | q in s.locals :: Alike(s.locals[q].h, t.locals[q].h)
  }

  predicate Alike(h: History, k: History) {
    k.on == h.on && k.origin == h.origin && k.gone == h.gone
  }

  lemma TakeIsClean(w: Matches, s: World, n: nat)
    requires Calm(w, s) && Can(s, TakeRows(n))
    ensures CleanDeed(w, s, TakeRows(n))
  {
    hide Sound;
  }

  lemma LookUpIsClean(w: Matches, s: World)
    requires Can(s, LookUpAll)
    ensures CleanDeed(w, s, LookUpAll)
  {
  }

  lemma MoveIsClean(w: Matches, s: World)
    requires Can(s, MoveAll)
    requires forall q | q in s.locals && q in s.polls.moves ::
               q in s.lite.owned && s.locals[q].h.on && s.locals[q].leaving.Steady?
    ensures CleanDeed(w, s, MoveAll)
  {
    hide Offsets, RowsOf;
  }

  lemma CachedIsServed(w: nat -> bool, s: Q)
    requires Sound(w, s) && s.leaving.Steady? && s.view.rows != []
    ensures s.h.on && s.view.held
  {
  }

  lemma AdvancedIsCached(s: Lite, n: nat, q: MessageQueue)
    requires n <= |s.buffer| && q in Advanced(s.next.Keys, s.buffer[..n])
    ensures ViewOf(s, q).rows != []
  {
    AdvancedMeaning(s.next.Keys, s.buffer[..n], q);
    assert s.buffer == s.buffer[..n] + s.buffer[n..];
    RowsOfConcat(q, s.buffer[..n], s.buffer[n..]);
    hide Advanced, RowsOf;
    assert |Offsets(RowsOf(q, s.buffer))| == |RowsOf(q, s.buffer)|;
  }

  /** The queues whose cursors a poll will write are held and served. */
  lemma MovesAreServed(w: nat -> bool, s: World, n: nat, q: MessageQueue)
    requires q in s.locals && Sound(w, Project(s, q)) && s.locals[q].leaving.Steady? && n <= |s.lite.buffer|
    requires q in Advanced(s.lite.next.Keys, s.lite.buffer[..n])
    ensures q in s.lite.owned && s.locals[q].h.on
  {
    AdvancedIsCached(s.lite, n, q);
    CachedIsServed(w, Project(s, q));
    hide Sound, Advanced, RowsOf;
  }

  lemma TakenLocals(w: Matches, s: World, n: nat, q: MessageQueue)
    requires Can(s, TakeRows(n)) && q in s.locals
    ensures var l, k := s.locals[q], Does(w, s, TakeRows(n)).locals[q];
            k == l.(h := k.h) && Alike(l.h, k.h)
  {
    hide Share, RemoveEachFromGroups, ChargeAll;
  }

  lemma StaysCalm(w: Matches, s: World, t: World)
    requires t.polls.Nobody? && (forall q | q in t.locals :: q in s.locals && Sound(w(q), Project(t, q)))
    requires Calm(w, s) && t.locals.Keys == s.locals.Keys
    requires forall q | q in s.locals :: t.locals[q] == s.locals[q].(h := t.locals[q].h)
    requires (forall q | q in t.lite.rounds :: q in s.lite.rounds)
    requires (forall m | m in t.lite.buffer :: m in s.lite.buffer)
    ensures Calm(w, t)
  {
    hide Sound, Project;
  }

  /** The three parts of a poll are clean. */
  lemma PollIsClean(w: Matches, s: World, n: nat)
    requires Calm(w, s) && Can(s, TakeRows(n))
    ensures CleanDeed(w, s, TakeRows(n))
    ensures var a := Does(w, s, TakeRows(n));
            && Can(a, LookUpAll) && CleanDeed(w, a, LookUpAll)
            && var b := Does(w, a, LookUpAll);
            && Can(b, MoveAll) && CleanDeed(w, b, MoveAll)
  {
    TakeIsClean(w, s, n);
    var a := Does(w, s, TakeRows(n));
    var b := Does(w, a, LookUpAll);
    hide Sound, Project, CleanDeed, Advanced, TakeTables;
    LookUpIsClean(w, a);
    forall q | q in b.locals && q in b.polls.moves
      ensures q in b.lite.owned && b.locals[q].h.on && b.locals[q].leaving.Steady?
    {
      MovesAreServed(w(q), s, n, q);
      TakenLocals(w, s, n, q);
      assert TakeTables(s.lite, n).owned == s.lite.owned && TakeTables(s.lite, n).next == s.lite.next by {
        TakeKeepsTables(s.lite, n);
      }
    }
    assert b.lite.owned == s.lite.owned by { TakeKeepsTables(s.lite, n); }
    MoveIsClean(w, b);
  }

  lemma TakeKeepsTables(s: Lite, n: nat)
    requires n <= |s.buffer|
    ensures var t := TakeTables(s, n); t.owned == s.owned && t.next == s.next && t.buffer == s.buffer[n..]
  {
  }

  lemma PollTables(w: Matches, s: World, n: nat)
    requires Can(s, TakeRows(n))
    ensures var t := Does(w, Does(w, Does(w, s, TakeRows(n)), LookUpAll), MoveAll);
            && SameReplays(s, t) && t.lite.next == s.lite.next && t.lite.buffer == s.lite.buffer[n..]
  {
    forall q | q in s.locals
      ensures Alike(s.locals[q].h, Does(w, s, TakeRows(n)).locals[q].h) { TakenLocals(w, s, n, q); }
    hide Advanced, Charged, Project, Share, Alike;
  }

  /** One poll: everything up to the cap leaves the buffer. */
  lemma PollOnce(w: Matches, limits: Limits, s0: World, ds: seq<Deed>, s: World, n: nat)
    returns (es: seq<Deed>, t: World)
    requires Leads(w, limits, s0, ds, s) && Calm(w, s) && Can(s, TakeRows(n))
    ensures Leads(w, limits, s0, es, t) && Calm(w, t) && SameReplays(s, t)
    ensures t.lite.next == s.lite.next && t.lite.buffer == s.lite.buffer[n..]
  {
    hide Leads, Calm, CleanDeed, Does, Can, SameReplays;
    PollIsClean(w, s, n);
    PollTables(w, s, n);
    es, t := Do(w, limits, s0, ds, s, TakeRows(n));
    var a := t;
    es, t := Do(w, limits, s0, es, t, LookUpAll);
    var b := t;
    es, t := Do(w, limits, s0, es, t, MoveAll);
    PollKeepsCalm(w, s, n, a, b, t);
  }

  lemma PollKeepsCalm(w: Matches, s: World, n: nat, a: World, b: World, t: World)
    requires Calm(w, s) && Can(s, TakeRows(n)) && CleanDeed(w, s, TakeRows(n)) && a == Does(w, s, TakeRows(n))
    requires CleanDeed(w, a, LookUpAll) && b == Does(w, a, LookUpAll)
    requires CleanDeed(w, b, MoveAll) && t == Does(w, b, MoveAll)
    ensures Calm(w, t)
  {
    hide Sound, Project, CleanDeed, Advanced, TakeTables;
    forall q | q in t.locals ensures q in s.locals && Sound(w(q), Project(t, q)) {
      DeedKeepsSound(w, s, TakeRows(n), q);
      DeedKeepsSound(w, a, LookUpAll, q);
      DeedKeepsSound(w, b, MoveAll, q);
    }
    forall q | q in s.locals ensures t.locals[q] == s.locals[q].(h := t.locals[q].h) { TakenLocals(w, s, n, q); }
    LeftAfter(s.lite, n);
    StaysCalm(w, s, t);
  }

  lemma LeftAfter(s: Lite, n: nat)
    requires n <= |s.buffer|
    ensures var t := TakeTables(s, n);
            (forall q | q in t.rounds :: q in s.rounds) && (forall m | m in t.buffer :: m in s.buffer)
  {
  }

  /** Polling empties the buffer, whatever queues its rows are of. */
  lemma {:induction false} DrainAll(w: Matches, limits: Limits, s0: World, ds: seq<Deed>, s: World)
    returns (es: seq<Deed>, t: World)
    requires Leads(w, limits, s0, ds, s) && Calm(w, s)
    ensures Leads(w, limits, s0, es, t) && Calm(w, t) && SameReplays(s, t)
    ensures t.lite.next == s.lite.next && t.lite.buffer == []
    decreases |s.lite.buffer|
  {
    hide Leads, Calm;
    es, t := ds, s;
    if s.lite.buffer != [] {
      var n := if |s.lite.buffer| <= POLL_CAP then |s.lite.buffer| else POLL_CAP;
      assert Can(s, TakeRows(n)) by { CalmCanTake(w, s, n); }
      es, t := PollOnce(w, limits, s0, ds, s, n);
      es, t := DrainAll(w, limits, s0, es, t);
    }
  }

  lemma CalmCanTake(w: Matches, s: World, n: nat)
    requires Calm(w, s) && n <= |s.lite.buffer| && n <= POLL_CAP
    ensures Can(s, TakeRows(n))
  {
  }

  // ---- the gate ----

  predicate NonNegative(limits: Limits) {
    limits.all >= 0 && limits.count >= 0 && limits.sizeMib >= 0 && limits.span >= 0
  }

  lemma NoRowsNoRounds(w: nat -> bool, s: Q)
    requires Sound(w, s) && s.view.rows == []
    ensures s.view.rounds == []
  {
    NothingGrouped(s.h.groups);
  }

  lemma EmptyBufferAdmitsIff(w: Matches, limits: Limits, s: World, q: MessageQueue)
    requires AllSound(w, s) && KnownRounds(s) && s.lite.buffer == [] && q in s.lite.owned
    ensures Due(s.lite, limits, q) == Admitted <==> NonNegative(limits)
  {
    hide Sound;
    forall p | p in s.lite.rounds ensures s.lite.rounds[p] == [] {
      assert Project(s, p).view.rows == [];
      NoRowsNoRounds(w(p), Project(s, p));
    }
    NoRoundsAtAll(s.lite.rounds);
    EmptyIsAdmittedIff(s.lite, limits, q);
  }

  lemma NoNewRounds(s: World, q: MessageQueue, e: Event)
    requires Can(s, On(q, e))
    ensures TablesAfter(s, q, e).rounds.Keys <= s.lite.rounds.Keys
  {
    hide Project, Possible, RowsOf, Without, Kept, Pruned, ChargeAll;
  }

  lemma RoundsStayKnown(w: Matches, s: World, d: Deed)
    requires Can(s, d) && KnownRounds(s)
    ensures KnownRounds(Does(w, s, d))
  {
    SameQueues(w, s, d);
    hide Project, Share, Step, Possible, RowsOf, TablesAfter, Advanced, ChargeAll;
    match d
    case On(q, e) => NoNewRounds(s, q, e);
    case Enqueue(q, rows) => assert Enrolled(s.lite.rounds, rows).Keys == s.lite.rounds.Keys + QueuesOf(rows);
    case _ =>
  }

  lemma {:induction false} CleanRunKeepsSound(w: Matches, s: World, ds: seq<Deed>)
    requires Happens(w, s, ds) && CleanRun(w, s, ds) && AllSound(w, s) && KnownRounds(s)
    ensures AllSound(w, Outcome(w, s, ds)) && KnownRounds(Outcome(w, s, ds))
    decreases |ds|
  {
    hide Can, CleanDeed, Does, Sound, Project, KnownRounds;
    if ds != [] {
      var t := Does(w, s, ds[0]);
      RoundsStayKnown(w, s, ds[0]);
      assert t.locals.Keys == s.locals.Keys by { SameQueues(w, s, ds[0]); }
      forall q | q in t.locals ensures Sound(w(q), Project(t, q)) { DeedKeepsSound(w, s, ds[0], q); }
      CleanRunKeepsSound(w, t, ds[1..]);
    }
  }

  lemma UnassignedIsSound(w: Matches, queues: set<MessageQueue>, broker: map<MessageQueue, nat>)
    ensures AllSound(w, Unassigned(queues, broker)) && KnownRounds(Unassigned(queues, broker))
  {
    var s := Unassigned(queues, broker);
    hide Sound;
    forall q | q in s.locals ensures Sound(w(q), Project(s, q)) {
      BeginIsSound(w(q), Get(broker, q));
      assert Project(s, q) == Begin(Get(broker, q));
    }
  }

  /** In every state that clean steps of any threads lead to: when the buffer is empty, the gate of every held queue is
      open exactly when no limit is negative. */
  lemma DrainedIsAdmittedIff(w: Matches, limits: Limits, queues: set<MessageQueue>, broker: map<MessageQueue, nat>,
                             ds: seq<Deed>, q: MessageQueue)
    requires Happens(w, Unassigned(queues, broker), ds) && CleanRun(w, Unassigned(queues, broker), ds)
    ensures var s := Outcome(w, Unassigned(queues, broker), ds);
            s.lite.buffer == [] && q in s.lite.owned ==> (Due(s.lite, limits, q) == Admitted <==> NonNegative(limits))
  {
    var s := Outcome(w, Unassigned(queues, broker), ds);
    hide Happens, CleanRun, Outcome, AllSound, KnownRounds, Due, NonNegative, Unassigned;
    UnassignedIsSound(w, queues, broker);
    CleanRunKeepsSound(w, Unassigned(queues, broker), ds);
    if s.lite.buffer == [] && q in s.lite.owned { EmptyBufferAdmitsIff(w, limits, s, q); }
  }

  // ---- one pull ----

  /** The rows of an answer, with whatever bodies they have. */
  function RowsFor(q: MessageQueue, offsets: seq<nat>, size: nat -> nat): (rows: seq<Message>)
    ensures Offsets(rows) == offsets && forall m | m in rows :: m.queue == q
  {
    seq(|offsets|, i requires 0 <= i < |offsets| => Message(q, offsets[i], size(offsets[i])))
  }

  /** A clean step of one queue, seen from the whole consumer. */
  lemma OnStep(w: Matches, s: World, q: MessageQueue, e: Event)
    requires q in s.locals && OfOneQueue(e) && Possible(Project(s, q), e) && Clean(w(q), Project(s, q), e)
    ensures Can(s, On(q, e)) && CleanDeed(w, s, On(q, e))
    ensures var t := Does(w, s, On(q, e));
            && q in t.locals && Project(t, q) == Step(w(q), Project(s, q), e)
            && t == World(TablesAfter(s, q, e), StoreAfter(s, q, e), s.polls, s.locals[q := t.locals[q]])
  {
    DeedProjects(w, s, On(q, e), q);
    hide Clean, Possible, Project, Step, TablesAfter, StoreAfter;
  }

  /** The queue, as a pull of it goes. */
  function Asking(w: nat -> bool, s: Q, next: nat): Q
    requires s.view.pull.Some?
  {
    s.(pulling := Writing(s.view.pull.value, next, Live(w, s.h.gone, s.view.pull.value, next), false))
  }

  lemma AskSteps(w: nat -> bool, s: Q, next: nat)
    requires s.pulling.Resting? && s.view.held && s.leaving.Steady? && s.view.pull.Some? && s.view.pull.value <= next
    ensures var a := s.(pulling := Targeted);
            var b := s.(pulling := Asked(s.view.pull.value));
            && Possible(s, Target) && Step(w, s, Target) == a
            && Possible(a, Look(Start(0, false))) && Step(w, a, Look(Start(0, false))) == b
            && Possible(b, Judge(next, false)) && Step(w, b, Judge(next, false)) == Asking(w, s, next)
  {
    hide Live;
  }

  /** The pull thread asks for the queue and is admitted. */
  lemma AskOnce(w: Matches, limits: Limits, s0: World, ds: seq<Deed>, s: World, q: MessageQueue, next: nat)
    returns (es: seq<Deed>, t: World)
    requires Leads(w, limits, s0, ds, s) && q in s.locals && Due(s.lite, limits, q) == Admitted
    requires Project(s, q).pulling.Resting? && Project(s, q).view.held && Project(s, q).leaving.Steady?
    requires Project(s, q).view.pull.Some? && Project(s, q).view.pull.value <= next
    ensures Leads(w, limits, s0, es, t) && q in t.locals && Project(t, q) == Asking(w(q), Project(s, q), next)
    ensures t == s.(locals := s.locals[q := t.locals[q]])
  {
    var u := Project(s, q);
    AskSteps(w(q), u, next);
    hide Leads, CleanDeed, Does, Project, Step, Possible, Asking, Due;
    OnStep(w, s, q, Target);
    es, t := Do(w, limits, s0, ds, s, On(q, Target));
    assert t == s.(locals := s.locals[q := t.locals[q]]);
    var a := t;
    OnStep(w, a, q, Look(Start(0, false)));
    es, t := Do(w, limits, s0, es, t, On(q, Look(Start(0, false))));
    assert t == s.(locals := s.locals[q := t.locals[q]]);
    OnStep(w, t, q, Judge(next, false));
    es, t := Do(w, limits, s0, es, t, On(q, Judge(next, false)));
  }

  /** And works the answer in. */
  lemma WorkInOnce(w: Matches, limits: Limits, s0: World, ds: seq<Deed>, s: World, q: MessageQueue, rows: seq<Message>)
    returns (es: seq<Deed>, t: World)
    requires Leads(w, limits, s0, ds, s) && q in s.locals && s.locals[q].pulling.Writing? && !s.locals[q].pulling.lost
    requires PullStands(Project(s, q)) && q in s.lite.next && s.locals[q].h.on
    requires Offsets(rows) == s.locals[q].pulling.found && forall m | m in rows :: m.queue == q
    ensures Leads(w, limits, s0, es, t)
    ensures t.lite == Append(s.lite.(next := s.lite.next[q := s.locals[q].pulling.next]), rows)
    ensures t.polls == s.polls && q in t.locals && t.locals == s.locals[q := t.locals[q]]
    ensures t.locals[q] == s.locals[q].(pulling := Resting, h := t.locals[q].h) && Alike(s.locals[q].h, t.locals[q].h)
  {
    hide Leads, CleanDeed, Append, RowsOf;
    OnStep(w, s, q, Write);
    es, t := Do(w, limits, s0, ds, s, On(q, Write));
    var a := t;
    assert a.locals[q].pulling == Carrying(Offsets(rows)) && a.locals[q].h.on;
    EnqueueIsClean(w, a, q, rows);
    es, t := Do(w, limits, s0, es, t, Enqueue(q, rows));
  }

  lemma EnqueueIsClean(w: Matches, s: World, q: MessageQueue, rows: seq<Message>)
    requires Can(s, Enqueue(q, rows)) && s.locals[q].h.on
    ensures CleanDeed(w, s, Enqueue(q, rows))
  {
    hide RowsOf, Offsets;
  }

  /** Clean steps keep all queues sound. */
  lemma {:induction false} RunKeepsSound(w: Matches, limits: Limits, s: World, ds: seq<Deed>)
    requires Passes(w, s, ds, limits) && AllSound(w, s)
    ensures AllSound(w, End(w, s, ds, limits))
    decreases |ds|
  {
    hide Can, CleanDeed, GatedDeed, Does, Sound, Project;
    if ds != [] {
      var t := Does(w, s, ds[0]);
      assert t.locals.Keys == s.locals.Keys by { SameQueues(w, s, ds[0]); }
      forall q | q in t.locals ensures Sound(w(q), Project(t, q)) { DeedKeepsSound(w, s, ds[0], q); }
      RunKeepsSound(w, limits, t, ds[1..]);
    }
  }

  lemma SameQueues(w: Matches, s: World, d: Deed)
    requires Can(s, d)
    ensures Does(w, s, d).locals.Keys == s.locals.Keys
  {
    hide Project, Share, Step, Possible;
  }

  lemma PullKeepsCalm(w: Matches, s: World, t: World, q: MessageQueue, rows: seq<Message>)
    requires Calm(w, s) && AllSound(w, t) && q in s.locals && q in t.locals && t.locals == s.locals[q := t.locals[q]]
    requires Rests(t.locals[q]) && t.polls.Nobody? && s.lite.buffer == [] && t.lite.buffer == rows
    requires t.lite.rounds == Enrolled(s.lite.rounds, rows) && forall m | m in rows :: m.queue == q
    ensures Calm(w, t)
  {
    hide Sound, Project;
  }

  lemma ReadyToPull(w: Matches, limits: Limits, s: World, q: MessageQueue)
    requires Calm(w, s) && s.lite.buffer == [] && NonNegative(limits)
    requires q in s.locals && q in s.lite.owned && q in s.lite.next
    ensures Due(s.lite, limits, q) == Admitted && s.polls.Nobody? && Rests(s.locals[q]) && s.locals[q].h.on
  {
    EmptyBufferAdmitsIff(w, limits, s, q);
    HeldIsServed(w(q), Project(s, q));
    hide Sound, Due, NonNegative;
  }

  /** What a pull of the queue leaves, as a whole. */
  predicate Pulled(s: World, q: MessageQueue, next: nat, rows: seq<Message>, t: World)
    requires q in s.locals
  {
    && t.lite == Append(s.lite.(next := s.lite.next[q := next]), rows) && t.polls == s.polls
    && q in t.locals && t.locals == s.locals[q := t.locals[q]]
    && t.locals[q] == s.locals[q].(h := t.locals[q].h) && Alike(s.locals[q].h, t.locals[q].h)
    && forall m | m in rows :: m.queue == q
  }

  lemma PullSteps(w: Matches, limits: Limits, s0: World, ds: seq<Deed>, s: World, q: MessageQueue, next: nat,
                  size: nat -> nat)
    returns (es: seq<Deed>, t: World, rows: seq<Message>)
    requires Leads(w, limits, s0, ds, s) && q in s.locals && q in s.lite.owned
    requires q in s.lite.next && s.lite.next[q] <= next
    requires Due(s.lite, limits, q) == Admitted && Rests(s.locals[q]) && s.locals[q].h.on
    ensures Leads(w, limits, s0, es, t) && Pulled(s, q, next, rows, t)
  {
    hide Leads, Due, Live, Append, Alike;
    es, t := AskOnce(w, limits, s0, ds, s, q, next);
    var a := t;
    assert a.locals[q] == s.locals[q].(pulling := a.locals[q].pulling) && a.locals[q].pulling.Writing?;
    hide RowsFor;
    rows := RowsFor(q, a.locals[q].pulling.found, size);
    es, t := WorkInOnce(w, limits, s0, es, a, q, rows);
  }

  /** One pull of a drained consumer: the queue's pull cursor moves on and the consumer rests again. */
  lemma PullOnce(w: Matches, limits: Limits, s0: World, ds: seq<Deed>, s: World, q: MessageQueue, next: nat,
                 size: nat -> nat)
    returns (es: seq<Deed>, t: World)
    requires AllSound(w, s0) && Leads(w, limits, s0, ds, s) && Calm(w, s) && s.lite.buffer == [] && NonNegative(limits)
    requires q in s.locals && q in s.lite.owned && q in s.lite.next && s.lite.next[q] <= next
    ensures Leads(w, limits, s0, es, t) && Calm(w, t) && SameReplays(s, t)
    ensures t.lite.next == s.lite.next[q := next]
  {
    hide Calm, Due, NonNegative, AllSound, Leads;
    ReadyToPull(w, limits, s, q);
    var rows;
    es, t, rows := PullSteps(w, limits, s0, ds, s, q, next, size);
    LeadsKeepsSound(w, limits, s0, es, t);
    hide Enrolled, Alike;
    assert [] + rows == rows;
    PullKeepsCalm(w, s, t, q, rows);
  }

  lemma LeadsKeepsSound(w: Matches, limits: Limits, s: World, ds: seq<Deed>, t: World)
    requires AllSound(w, s) && Leads(w, limits, s, ds, t)
    ensures AllSound(w, t)
  {
    RunKeepsSound(w, limits, s, ds);
  }

  lemma HeldIsServed(w: nat -> bool, s: Q)
    requires Sound(w, s) && s.leaving.Steady? && s.view.held && s.view.pull.Some?
    ensures s.h.on
  {
  }

  // ---- any backlog of any queues ----

  /** A plan names queues and how far each is pulled, in the order the answers come in. */
  predicate Plausible(next: map<MessageQueue, nat>, owned: set<MessageQueue>, plan: seq<(MessageQueue, nat)>)
    decreases |plan|
  {
    plan == [] || (&& plan[0].0 in owned && plan[0].0 in next && next[plan[0].0] <= plan[0].1
                   && Plausible(next[plan[0].0 := plan[0].1], owned, plan[1..]))
  }

  function Reached(next: map<MessageQueue, nat>, plan: seq<(MessageQueue, nat)>): map<MessageQueue, nat>
    decreases |plan|
  {
    if plan == [] then next else Reached(next[plan[0].0 := plan[0].1], plan[1..])
  }

  /** However the broker cuts the backlogs of the queues into answers, and in whatever order they come in, the consumer
      gets through its gates to a state in which everything is handed out. */
  lemma {:induction false} PlanIsCarriedOut(w: Matches, limits: Limits, s0: World, ds: seq<Deed>, s: World,
                                            plan: seq<(MessageQueue, nat)>, size: nat -> nat)
    returns (es: seq<Deed>, t: World)
    requires AllSound(w, s0) && Leads(w, limits, s0, ds, s) && Calm(w, s) && NonNegative(limits)
    requires Plausible(s.lite.next, s.lite.owned, plan) && s.lite.owned <= s.locals.Keys
    ensures Leads(w, limits, s0, es, t) && Calm(w, t) && SameReplays(s, t)
    ensures t.lite.next == Reached(s.lite.next, plan) && t.lite.buffer == []
    decreases |plan|
  {
    hide Calm, NonNegative, AllSound, Leads, Alike;
    es, t := DrainAll(w, limits, s0, ds, s);
    if plan != [] {
      var a := t;
      es, t := PullOnce(w, limits, s0, es, a, plan[0].0, plan[0].1, size);
      var b := t;
      es, t := PlanIsCarriedOut(w, limits, s0, es, b, plan[1..], size);
      ReplaysStay(s, a, b, t);
    }
  }

  lemma ReplaysStay(s: World, a: World, b: World, t: World)
    requires SameReplays(s, a) && SameReplays(a, b) && SameReplays(b, t)
    ensures SameReplays(s, t)
  {
  }

  /** So every backlog is delivered: of every held queue, everything from the start of its replay up to where the plan
      takes its pull cursor, exactly. */
  lemma BacklogIsDelivered(w: Matches, limits: Limits, s: World, plan: seq<(MessageQueue, nat)>, size: nat -> nat)
    returns (ds: seq<Deed>, t: World)
    requires Calm(w, s) && NonNegative(limits)
    requires Plausible(s.lite.next, s.lite.owned, plan) && s.lite.owned <= s.locals.Keys
    ensures Passes(w, s, ds, limits) && End(w, s, ds, limits) == t
    ensures t.lite.next == Reached(s.lite.next, plan) && SameReplays(s, t)
    ensures forall q | q in s.lite.owned && q in t.lite.next ::
              t.locals[q].h.delivered == Live(w(q), s.locals[q].h.gone, s.locals[q].h.origin, t.lite.next[q])
  {
    assert AllSound(w, s) && Leads(w, limits, s, [], s) by { hide Sound, Project; }
    hide Calm, NonNegative, AllSound;
    ds, t := PlanIsCarriedOut(w, limits, s, [], s, plan, size);
    forall q | q in s.lite.owned && q in t.lite.next
      ensures t.locals[q].h.delivered == Live(w(q), s.locals[q].h.gone, s.locals[q].h.origin, t.lite.next[q])
    {
      DeliveredAtRest(w, t, q);
    }
  }

  lemma AtRestAllIsDelivered(w: nat -> bool, s: Q)
    requires Sound(w, s) && s.pulling.Resting? && s.seeking.NotSeeking? && s.leaving.Steady?
    requires s.view.held && s.view.pull.Some? && s.view.rows == []
    ensures s.h.delivered == Live(w, s.h.gone, s.h.origin, s.view.pull.value)
  {
    HeldIsServed(w, s);
    SoundIsFine(w, s);
    hide Sound, Live;
    assert s.h.delivered + Staying(s) == s.h.delivered;
  }

  lemma DeliveredAtRest(w: Matches, s: World, q: MessageQueue)
    requires Calm(w, s) && s.lite.buffer == [] && q in s.locals && q in s.lite.owned && q in s.lite.next
    ensures s.locals[q].h.delivered == Live(w(q), s.locals[q].h.gone, s.locals[q].h.origin, s.lite.next[q])
  {
    assert Sound(w(q), Project(s, q)) && Rests(s.locals[q]);
    hide Sound, Calm, Live;
    AtRestAllIsDelivered(w(q), Project(s, q));
  }
}
