/** The order of the offsets of one lite-pull queue, and what its pending rounds account for. */
module LiteOrder {
  import opened Messages
  import opened LiteQueueCache
  import opened LiteSteps
  import opened LiteRuns
  import opened LiteFailures

  // ---- committed <= consumed <= pulled ----

  /** Committed, or about to be committed. */
  function Given(s: Q): set<int> {
    Value(s.view.slot) + Value(s.broker) + Value(s.reading) + Value(s.committing)
  }

  predicate Active(s: Q) {
    s.leaving.Steady? && s.view.held && s.h.on
  }

  predicate UpTo(values: set<int>, x: int) {
    forall v | v in values :: v <= x
  }

  /** Nothing is committed past the place where consumption stands, which has not passed the pull cursor to be; and the
      consumed cursor does not lie past it either, except while a seek has not written it yet. */
  predicate Ordered(s: Q) {
    Active(s) ==>
      && UpTo(Given(s), Expected(s))
      && (!s.seeking.PullSet? ==> UpTo(Value(s.view.consumed), Expected(s)))
      && Expected(s) <= Landing(s, s.h.reach)
  }

  /** A replay begins at or past everything committed, a commit names nothing past the place of consumption, and nobody
      reads the consumed cursor to commit it while a seek backwards is about to write it. */
  predicate Forward(s: Q, e: Event) {
    match e
    case SeekPull => s.seeking.Checked? ==> UpTo(Given(s), s.seeking.target)
    case OpenWrite => s.pulling.Opening? && s.view.pull.None? ==> UpTo(Given(s), s.pulling.start.at)
    case StartWrite => s.starting.Some? && s.view.pull.None? ==> UpTo(Given(s), s.starting.value.at)
    case Judge(next, _) =>
      s.pulling.Asked? && s.view.pull == Some(s.pulling.at) && next < s.pulling.at ==> UpTo(Given(s), next)
    case CommitRead => UpTo(Value(s.view.consumed), Expected(s))
    case CommitAt(value, kept) => kept ==> value <= Expected(s)
    case _ => true
  }

  ghost predicate Forwards(w: nat -> bool, s: Q, es: seq<Event>)
    requires Runs(w, s, es)
    decreases |es|
  {
    es == [] || ((Active(Step(w, s, es[0])) ==> Forward(s, es[0])) && Forwards(w, Step(w, s, es[0]), es[1..]))
  }

  /** Consumption does not fall back. */
  lemma TakeGoesOn(w: nat -> bool, s: Q, k: nat)
    requires k <= |s.view.rows| && Exact(w, OnTake(s, k)) && s.h.on
    ensures Expected(s) <= Expected(OnTake(s, k))
  {
    var t := OnTake(s, k);
    hide RemoveEachFromGroups, ChargeAll, Shrunk;
    ExactAscends(w, t);
    AscendingParts(t.h.delivered + Staying(t), Incoming(t));
    AscendingParts(t.h.delivered, Staying(t));
    hide Exact, Staying;
    if s.h.delivered != [] {
      assert t.h.delivered[|s.h.delivered| - 1] == s.h.delivered[|s.h.delivered| - 1];
    }
  }

  predicate Below(s: Q) {
    && UpTo(Given(s), Expected(s))
    && (!s.seeking.PullSet? ==> UpTo(Value(s.view.consumed), Expected(s)))
  }

  predicate BeginsReplay(s: Q, e: Event) {
    e.SeekPull? || ((e.OpenWrite? || e.StartWrite?) && s.view.pull.None?)
  }

  lemma BeginningBelow(w: nat -> bool, s: Q, e: Event)
    requires Possible(s, e) && Clean(w, s, e) && BeginsReplay(s, e) && Places(s) && Active(Step(w, s, e))
    ensures Below(Step(w, s, e)) <==> Forward(s, e)
  {
    hide Live, MaxOf, Greatest, Prune, Undelivered, Continues, Dead, LeavesCursors;
    var t := Step(w, s, e);
    assert Given(t) == Given(s);
    hide Given;
  }

  lemma JudgeBelow(w: nat -> bool, s: Q, next: nat, illegal: bool)
    requires Below(s) && Possible(s, Judge(next, illegal))
    ensures Below(OnJudge(w, s, next, illegal)) <==> Forward(s, Judge(next, illegal))
  {
    hide Live, MaxOf, Greatest;
    var t := OnJudge(w, s, next, illegal);
    assert Given(t) == Given(s);
    hide Given;
  }

  lemma TakeBelow(s: Q, k: nat)
    requires k <= |s.view.rows| && Below(s) && Expected(s) <= Expected(OnTake(s, k))
    ensures Below(OnTake(s, k))
  {
    hide RemoveEachFromGroups, ChargeAll;
    assert Given(OnTake(s, k)) == Given(s);
    hide Given;
  }

  lemma CursorBelow(w: nat -> bool, s: Q, e: Event)
    requires Below(s) && Cursors(s) && SeekShape(w, s) && Possible(s, e) && (e.Move? || e.SeekCursor?)
    requires Active(s) && s.h.origin <= Expected(s)
    ensures Below(Step(w, s, e))
  {
    hide Live, MaxOf, Greatest;
    assert Given(Step(w, s, e)) == Given(s);
    hide Given;
  }

  predicate Commits(e: Event) {
    e.CommitRead? || e.CommitWrite? || e.CommitAt? || e.Persist? || e.Sweep? || e.Query? || e.Fill?
  }

  lemma CommitBelow(w: nat -> bool, s: Q, e: Event)
    requires Below(s) && Possible(s, e) && Commits(e)
    ensures Below(Step(w, s, e)) <==> Forward(s, e)
  {
    hide Undelivered;
    assert Expected(Step(w, s, e)) == Expected(s);
  }

  lemma OtherBelow(w: nat -> bool, s: Q, e: Event)
    requires Below(s) && Possible(s, e) && !BeginsReplay(s, e) && !e.Judge? && !e.Take? && !e.Move? && !e.SeekCursor?
    requires !Commits(e) && Active(s) && Active(Step(w, s, e))
    ensures Below(Step(w, s, e)) && Forward(s, e)
  {
    hide Live, MaxOf, Greatest, Prune, Dropped, RemoveEachFromGroups, ChargeAll, Undelivered;
    var t := Step(w, s, e);
    assert Given(t) == Given(s) && Expected(t) == Expected(s) && t.view.consumed == s.view.consumed;
    hide Given;
  }

  lemma StaysActive(w: nat -> bool, s: Q, e: Event)
    requires Possible(s, e) && Clean(w, s, e) && Places(s) && !BeginsReplay(s, e) && Active(Step(w, s, e))
    ensures Active(s)
  {
    hide Live, MaxOf, Greatest, Prune, Dropped, RemoveEachFromGroups, ChargeAll, Undelivered, Continues, Dead;
  }

  /** While the queue is held and served, a step keeps the order if and only if it goes forward. */
  lemma StepKeepsOrderIff(w: nat -> bool, s: Q, e: Event)
    requires Sound(w, s) && Ordered(s) && Possible(s, e) && Clean(w, s, e) && Active(Step(w, s, e))
    ensures Ordered(Step(w, s, e)) <==> Forward(s, e)
  {
    var t := Step(w, s, e);
    StepKeeps(w, s, e);
    assert Exact(w, t) && Exact(w, s) && Places(s) && Cursors(s) && SeekShape(w, s);
    hide Sound;
    ExactAscends(w, t);
    if BeginsReplay(s, e) {
      BeginningBelow(w, s, e);
    } else {
      StaysActive(w, s, e);
      ExactAscends(w, s);
      hide Exact, Places, Cursors, SeekShape, Step, Possible, Clean, Given, Ascending;
      OrderGoesOn(w, s, e);
    }
  }

  lemma OrderGoesOn(w: nat -> bool, s: Q, e: Event)
    requires Below(s) && Possible(s, e) && !BeginsReplay(s, e) && Active(s) && Active(Step(w, s, e))
    requires Cursors(s) && SeekShape(w, s) && Exact(w, Step(w, s, e)) && s.h.origin <= Expected(s)
    ensures Below(Step(w, s, e)) <==> Forward(s, e)
  {
    hide Exact, Cursors, SeekShape, Below, Given;
    if e.Judge? {
      JudgeBelow(w, s, e.next, e.illegal);
    } else if e.Take? {
      TakeGoesOn(w, s, e.k);
      TakeBelow(s, e.k);
    } else if e.Move? || e.SeekCursor? {
      CursorBelow(w, s, e);
    } else if Commits(e) {
      CommitBelow(w, s, e);
    } else {
      OtherBelow(w, s, e);
    }
  }

  /** Committed offset <= consumed cursor <= pull cursor, through every run that goes forward. */
  lemma {:induction false} OffsetsStayOrdered(w: nat -> bool, s: Q, es: seq<Event>)
    requires Sound(w, s) && Ordered(s) && Runs(w, s, es) && Forwards(w, s, es)
    ensures Ordered(After(w, s, es))
    decreases |es|
  {
    hide Sound, Ordered, Step, Possible, Clean, Forward, Active;
    if es != [] {
      var t := Step(w, s, es[0]);
      StepKeeps(w, s, es[0]);
      if Active(t) { StepKeepsOrderIff(w, s, es[0]); } else { IdleIsOrdered(t); }
      OffsetsStayOrdered(w, t, es[1..]);
    }
  }

  lemma IdleIsOrdered(s: Q)
    requires !Active(s)
    ensures Ordered(s)
  {
  }

  // ---- the pending rounds, in any run at all ----

  /** The cached rows divide into the rounds that brought them, and the pending rounds account for all of them. */
  predicate Accounts(s: Q) {
    && Flatten(s.h.groups) == s.view.rows && NoneEmpty(s.h.groups)
    && AllPositive(s.view.rounds) && Sum(s.view.rounds) == |s.view.rows|
  }

  /** Rows that leave, in whatever order, leave groups and counters with what remains. */
  lemma AccountsShrink(s: Q, removed: seq<nat>, left: seq<nat>)
    requires Accounts(s) && RemoveEach(s.view.rows, removed) == left && |removed| + |left| == |s.view.rows|
    ensures Accounts(s.(view := Shrunk(s.view, removed, left),
                        h := s.h.(groups := RemoveEachFromGroups(s.h.groups, removed))))
  {
    GroupsFollowEach(s.h.groups, removed);
    ChargeTimesSum(s.view.rounds, |removed|);
    hide Flatten, NoneEmpty, AllPositive, RemoveEach, RemoveEachFromGroups, ChargeTimes;
    assert removed == [] ==> left == s.view.rows by { RemoveNone(s.view.rows, removed); }
    assert AllPositive([]) && Sum([]) == 0 by { NothingIsPositive(); }
  }

  lemma RemoveNone(rows: seq<nat>, removed: seq<nat>)
    ensures removed == [] ==> RemoveEach(rows, removed) == rows
  {
  }

  lemma NothingIsPositive()
    ensures AllPositive([])
  {
  }

  lemma AccountsGrow(s: Q)
    requires Accounts(s) && s.pulling.Carrying?
    ensures Accounts(OnArrive(s))
  {
    var found := s.pulling.found;
    FlattenConcat(s.h.groups, [found]);
    SumConcat(s.view.rounds, [|found|]);
    assert Flatten([found]) == found;
  }

  lemma AccountsStep(w: nat -> bool, s: Q, e: Event)
    requires Accounts(s) && Possible(s, e)
    ensures Accounts(Step(w, s, e))
  {
    if e.Take? {
      var out := s.view.rows[..e.k];
      RemoveHeads(s.view.rows, e.k);
      AccountsShrink(s, out, s.view.rows[e.k..]);
    } else if e.SeekPrune? {
      RemoveDropped(s.view.rows, s.seeking.target);
      PruneMembers(s.view.rows, s.seeking.target);
      AccountsShrink(s, Dropped(s.view.rows, s.seeking.target), Prune(s.view.rows, s.seeking.target));
    } else if e.Arrive? {
      AccountsGrow(s);
    } else {
      OtherAccounts(w, s, e);
    }
    hide Accounts;
  }

  /** The other steps leave the cache alone or empty it. */
  lemma CacheStaysOrGoes(w: nat -> bool, s: Q, e: Event)
    requires Possible(s, e) && !e.Take? && !e.SeekPrune? && !e.Arrive?
    ensures var t := Step(w, s, e);
            || (t.view.rows == s.view.rows && t.view.rounds == s.view.rounds && t.h.groups == s.h.groups)
            || (t.view.rows == [] && t.view.rounds == [] && t.h.groups == [])
  {
    hide Live, MaxOf, Greatest, Undelivered;
  }

  lemma OtherAccounts(w: nat -> bool, s: Q, e: Event)
    requires Accounts(s) && Possible(s, e) && !e.Take? && !e.SeekPrune? && !e.Arrive?
    ensures Accounts(Step(w, s, e))
  {
    CacheStaysOrGoes(w, s, e);
    NothingIsPositive();
    assert Flatten([]) == [] && NoneEmpty([]) && Sum([]) == 0;
    hide Step, Possible, Flatten, NoneEmpty, AllPositive, Sum;
  }

  /** In every run, clean or not, the pending rounds account for every cached row. */
  lemma {:induction false} RoundsAlwaysAccount(w: nat -> bool, s: Q, es: seq<Event>)
    requires Accounts(s) && Moves(w, s, es)
    ensures Accounts(Moved(w, s, es))
    decreases |es|
  {
    hide Accounts, Possible, Step;
    if es != [] {
      AccountsStep(w, s, es[0]);
      RoundsAlwaysAccount(w, Step(w, s, es[0]), es[1..]);
    }
  }
}
