/** Seeks that deliver twice, and the overlaps of the lite-pull threads that do happen, each from a fresh queue. */
module LiteOverlaps {
  import opened Messages
  import opened LiteQueueCache
  import opened LiteSteps
  import opened LiteRuns
  import opened LiteFailures

  // ---- delivering twice ----

  predicate Twice(s: Q) {
    exists i, j | 0 <= i < j < |s.h.delivered| :: s.h.delivered[i] == s.h.delivered[j]
  }

  /** What is and will be handed out ascends, and the pull cursor to be lies past all of it. */
  predicate Rising(s: Q) {
    var all := s.h.delivered + Staying(s) + Incoming(s);
    && s.leaving.Steady? && s.view.held && s.h.on && s.view.pull.Some?
    && Ascending(all) && forall o | o in all :: o < Landing(s, s.view.pull.value)
  }

  lemma RisingIsNotTwice(s: Q)
    requires Rising(s)
    ensures !Twice(s)
  {
    hide Staying;
    AscendingParts(s.h.delivered + Staying(s), Incoming(s));
    AscendingParts(s.h.delivered, Staying(s));
  }

  lemma JudgeRises(w: nat -> bool, s: Q, next: nat, illegal: bool)
    requires Rising(s) && Possible(s, Judge(next, illegal))
    ensures Rising(OnJudge(w, s, next, illegal))
  {
    var t := OnJudge(w, s, next, illegal);
    var have := s.h.delivered + Staying(s);
    assert Staying(t) == Staying(s) && have + [] == have;
    if s.view.pull == Some(s.pulling.at) && !illegal {
      LiveMembers(w, s.h.gone, s.pulling.at, next);
      AscendingJoins(have, Live(w, s.h.gone, s.pulling.at, next));
    } else if t.pulling.Writing? && next < s.pulling.at {
      assert have == [];
    }
  }

  lemma ArriveRises(s: Q)
    requires Rising(s) && s.pulling.Carrying?
    ensures Rising(OnArrive(s))
  {
    var t, found := OnArrive(s), s.pulling.found;
    var have := s.h.delivered + Staying(s);
    var more := if MidSeek(s) then Prune(found, s.seeking.target) else found;
    AscendingParts(have, found);
    if MidSeek(s) {
      PruneConcat(s.view.rows, found, s.seeking.target);
      PruneMembers(found, s.seeking.target);
      PruneAscends(found, s.seeking.target);
      AscendingJoins(have, more);
    }
    assert s.view.rows + [] == s.view.rows && Staying(s) + [] == Staying(s);
    assert Staying(t) == Staying(s) + more;
    Regroup(s.h.delivered, Staying(s), more);
    hide Staying, Prune;
    assert t.h.delivered + Staying(t) + [] == have + more;
    assert forall o | o in have + more :: o in have + found;
  }

  lemma PruneAscends(s: seq<nat>, target: nat)
    requires Ascending(s)
    ensures Ascending(Prune(s, target))
  {
    var k := PruneCuts(s, target);
    assert s == s[..k] + s[k..];
    AscendingParts(s[..k], s[k..]);
  }

  lemma TakeRises(w: nat -> bool, s: Q, k: nat)
    requires Rising(s) && k <= |s.view.rows| && Clean(w, s, Take(k))
    ensures Rising(OnTake(s, k))
  {
    var t := OnTake(s, k);
    TakenRows(w, s, k);
    Regroup(s.h.delivered, s.view.rows[..k], Staying(t));
    hide Staying, RemoveEachFromGroups, ChargeAll, Ascending;
  }

  lemma OtherStepRises(w: nat -> bool, s: Q, e: Event)
    requires Rising(s) && Possible(s, e) && Plain(e) && !e.Judge? && !e.Arrive? && !e.Take?
    ensures Rising(Step(w, s, e))
  {
    hide Live, MaxOf, Greatest, Prune, Ascending, RemoveEachFromGroups, ChargeAll, Dropped, Undelivered;
    var t := Step(w, s, e);
    assert Staying(t) == Staying(s) && Incoming(t) == Incoming(s) && t.h.delivered == s.h.delivered;
    assert Landing(t, t.view.pull.value) == Landing(s, s.view.pull.value);
  }

  lemma PlainStepRises(w: nat -> bool, s: Q, e: Event)
    requires Rising(s) && Possible(s, e) && Clean(w, s, e) && Plain(e)
    ensures Rising(Step(w, s, e))
  {
    if e.Judge? {
      JudgeRises(w, s, e.next, e.illegal);
    } else if e.Arrive? {
      ArriveRises(s);
    } else if e.Take? {
      TakeRises(w, s, e.k);
    } else {
      hide Rising, Clean;
      OtherStepRises(w, s, e);
    }
  }

  lemma {:induction false} PlainRunRises(w: nat -> bool, s: Q, es: seq<Event>)
    requires Rising(s) && Runs(w, s, es) && forall e | e in es :: Plain(e)
    ensures Rising(After(w, s, es))
    decreases |es|
  {
    hide Rising, Possible, Clean, Step, Plain;
    if es != [] {
      assert Plain(es[0]) && forall e | e in es[1..] :: e in es;
      PlainStepRises(w, s, es[0]);
      PlainRunRises(w, Step(w, s, es[0]), es[1..]);
    }
  }

  /** A cached row, or one on its way, that the seek will pull again. */
  predicate LeavesRowBehind(s: Q, target: nat) {
    exists o :: o in s.view.rows + Incoming(s) && o >= target
  }

  lemma PrunedRises(delivered: seq<nat>, rows: seq<nat>, more: seq<nat>, to: nat)
    requires Ascending(delivered + rows + more)
    ensures Ascending(Prune(rows, to) + more)
    ensures forall o | o in Prune(rows, to) + more :: o in rows + more && o in delivered + rows + more
    ensures (forall o | o in rows + more :: o < to) ==> forall o | o in Prune(rows, to) + more :: o < to
  {
    AscendingParts(delivered + rows, more);
    AscendingParts(delivered, rows);
    PruneMembers(rows, to);
    PruneAscends(rows, to);
    assert forall o | o in rows :: o in delivered + rows;
    AscendingJoins(Prune(rows, to), more);
  }

  lemma BelowLanding(w: nat -> bool, s: Q)
    requires Exact(w, s) && s.h.on
    ensures forall o | o in s.h.delivered + Staying(s) + Incoming(s) :: o < Landing(s, s.h.reach)
  {
    LiveMembers(w, GoneSoon(s), s.h.origin, Landing(s, s.h.reach));
    hide Live, Staying;
  }

  // ---- what the pull thread has in its hands, in any run at all ----

  /** The rows of an answer ascend, match and exist, and lie below the offset the answer names next. */
  predicate WellFetched(w: nat -> bool, s: Q) {
    && Ascending(Incoming(s)) && (forall o | o in Incoming(s) :: w(o) && o !in s.h.gone)
    && (s.pulling.Writing? ==>
          (s.pulling.lost ==> s.pulling.found == []) && forall o | o in s.pulling.found :: o < s.pulling.next)
  }

  lemma FetchedStep(w: nat -> bool, s: Q, e: Event)
    requires WellFetched(w, s) && Possible(s, e)
    ensures WellFetched(w, Step(w, s, e))
  {
    if e.Judge? && s.pulling.Asked? { LiveMembers(w, s.h.gone, s.pulling.at, e.next); }
    hide Live, MaxOf, Greatest, Prune, RemoveEachFromGroups, ChargeAll, Dropped, Undelivered, Ascending;
    assert Ascending([]) by { NothingAscends(); }
  }

  lemma NothingAscends()
    ensures Ascending([])
  {
  }

  lemma {:induction false} AlwaysWellFetched(w: nat -> bool, s: Q, es: seq<Event>)
    requires WellFetched(w, s) && Moves(w, s, es)
    ensures WellFetched(w, Moved(w, s, es))
    decreases |es|
  {
    hide WellFetched, Possible, Step;
    if es != [] {
      FetchedStep(w, s, es[0]);
      AlwaysWellFetched(w, Step(w, s, es[0]), es[1..]);
    }
  }

  /** Without a replay nothing is cached, and what is on its way ascends. */
  lemma FreshSeekRises(w: nat -> bool, s: Q)
    requires Places(s) && WellFetched(w, s) && s.seeking.Checked? && s.leaving.Steady? && s.view.held && !s.h.on
    requires s.pulling.Writing? || !LeavesRowBehind(s, s.seeking.target)
    ensures Rising(OnSeekPull(w, s))
  {
    var t, to := OnSeekPull(w, s), s.seeking.target;
    assert s.view.rows == [] && Prune([], to) == [];
    hide Live, Undelivered, Prune, Ascending;
    assert t.h.delivered + Staying(t) + Incoming(t) == Incoming(s);
    if !s.pulling.Writing? {
      forall o | o in Incoming(s) ensures o < to {
        assert o in s.view.rows + Incoming(s);
      }
    }
  }

  // ---- a pull thread that is about to write a start offset ----

  /** The pull thread is about to write a start offset, and what is and will be handed out ascends. */
  predicate Stalled(s: Q) {
    && s.leaving.Steady? && s.view.held && s.h.on && s.pulling.Opening?
    && Ascending(s.h.delivered + Staying(s))
  }

  lemma StalledStep(w: nat -> bool, s: Q, e: Event)
    requires Stalled(s) && Possible(s, e) && Clean(w, s, e) && Plain(e)
    ensures Stalled(Step(w, s, e))
  {
    if e.Take? {
      TakenRows(w, s, e.k);
      Regroup(s.h.delivered, s.view.rows[..e.k], Staying(OnTake(s, e.k)));
      hide Staying, RemoveEachFromGroups, ChargeAll, Ascending;
    } else {
      hide Live, MaxOf, Greatest, Prune, Ascending, RemoveEachFromGroups, ChargeAll, Dropped, Undelivered, Clean;
      var t := Step(w, s, e);
      assert Staying(t) == Staying(s) && t.h.delivered == s.h.delivered;
    }
  }

  lemma {:induction false} StaysStalled(w: nat -> bool, s: Q, es: seq<Event>)
    requires Stalled(s) && Runs(w, s, es) && forall e | e in es :: Plain(e)
    ensures !Twice(After(w, s, es))
    decreases |es|
  {
    if es == [] {
      AscendingParts(s.h.delivered, Staying(s));
      hide Staying;
    } else {
      hide Stalled, Possible, Clean, Step, Plain, Twice;
      assert Plain(es[0]) && forall e | e in es[1..] :: e in es;
      StalledStep(w, s, es[0]);
      StaysStalled(w, Step(w, s, es[0]), es[1..]);
    }
  }

  lemma SeekStalls(w: nat -> bool, s: Q)
    requires Grouped(s) && s.seeking.Checked? && s.leaving.Steady? && s.view.held && s.pulling.Opening?
    ensures Stalled(OnSeekPull(w, s))
  {
    var t := OnSeekPull(w, s);
    PruneAscends(s.view.rows, s.seeking.target);
    hide Live, Undelivered, Prune, Ascending, Flatten, Lengths, NoneEmpty;
    assert t.h.delivered + Staying(t) == Prune(s.view.rows, s.seeking.target);
  }

  lemma SeekRises(w: nat -> bool, s: Q)
    requires Exact(w, s) && s.seeking.Checked? && s.leaving.Steady? && s.view.held && s.h.on
    requires s.pulling.Writing? || !LeavesRowBehind(s, s.seeking.target)
    ensures Rising(OnSeekPull(w, s))
  {
    var t, to := OnSeekPull(w, s), s.seeking.target;
    hide Exact, Live, Undelivered, Prune, Ascending;
    ExactAscends(w, s);
    BelowLanding(w, s);
    assert Staying(s) == s.view.rows;
    PrunedRises(s.h.delivered, s.view.rows, Incoming(s), to);
    assert t.h.delivered + Staying(t) + Incoming(t) == Prune(s.view.rows, to) + Incoming(s);
    if !s.pulling.Writing? { assert forall o | o in s.view.rows + Incoming(s) :: o < to; }
  }

  /** The pull thread goes to the next round of this queue. */
  lemma NextRound(w: nat -> bool, s0: Q, es: seq<Event>, s: Q) returns (fs: seq<Event>, t: Q)
    requires Reaches(w, s0, es, s) && (s.pulling.Resting? || s.pulling.Targeted? || s.pulling.Asked?)
    requires s.leaving.Steady? && s.view.held && s.view.pull.Some?
    ensures GoesOn(es, fs)
    ensures Reaches(w, s0, fs, t) && t == s.(pulling := Asked(s.view.pull.value))
  {
    hide Reaches;
    fs, t := es, s;
    if t.pulling.Asked? { fs, t := Go(w, s0, fs, t, Fail); }
    if t.pulling.Resting? { fs, t := Go(w, s0, fs, t, Target); }
    fs, t := Go(w, s0, fs, t, Look(Start(0, false)));
  }

  /** Everything cached is handed out. */
  lemma HandOutAll(w: nat -> bool, s0: Q, es: seq<Event>, s: Q) returns (fs: seq<Event>, t: Q)
    requires Reaches(w, s0, es, s) && s.leaving.Steady? && s.view.held && s.h.on && s.view.pull.Some? && !MidSeek(s)
    ensures GoesOn(es, fs)
    ensures Reaches(w, s0, fs, t) && t.polling.NotPolling? && t.view.rows == []
    ensures t.h == s.h.(delivered := s.h.delivered + s.view.rows, ever := t.h.ever, groups := t.h.groups)
    ensures t.view.held && t.view.pull == s.view.pull && t.leaving == s.leaving
    ensures t.pulling == s.pulling && t.seeking == s.seeking
  {
    hide Reaches, RemoveEachFromGroups, ChargeAll, MaxOf, Greatest;
    fs, t := FinishPolling(w, s0, es, s);
    var k := |t.view.rows|;
    assert t.view.rows[..k] == t.view.rows && t.view.rows[k..] == [];
    fs, t := Go(w, s0, fs, t, Take(k));
    fs, t := FinishPolling(w, s0, fs, t);
  }

  /** What the seek left behind is handed out. */
  lemma LeftBehindIsHandedOut(w: nat -> bool, s: Q, r: nat) returns (es: seq<Event>, t: Q)
    requires s.seeking.Checked? && s.leaving.Steady? && s.view.held
    requires !s.pulling.Writing? && !s.pulling.Opening? && r in s.view.rows + Incoming(s) && r >= s.seeking.target
    ensures (forall e | e in es :: Plain(e)) && Reaches(w, OnSeekPull(w, s), es, t) && r in t.h.delivered
    ensures t.leaving.Steady? && t.view.held && t.h.on && t.view.pull == Some(s.seeking.target) && t.view.rows == []
    ensures !MidSeek(t) && t.h.gone == s.h.gone && (t.pulling.Resting? || t.pulling.Targeted? || t.pulling.Asked?)
  {
    hide Reaches, Prune, Undelivered;
    es, t := SettleSeek(w, s);
    assert r in t.view.rows by { if r in s.view.rows { PruneHas(s.view.rows, s.seeking.target, r); } }
    es, t := HandOutAll(w, OnSeekPull(w, s), es, t);
  }

  /** The pull thread fetches it again, and it is handed out again. */
  lemma PulledAgain(w: nat -> bool, s0: Q, es: seq<Event>, s: Q, r: nat) returns (fs: seq<Event>, t: Q)
    requires Reaches(w, s0, es, s) && s.leaving.Steady? && s.view.held && s.h.on && s.view.rows == [] && !MidSeek(s)
    requires s.pulling.Resting? || s.pulling.Targeted? || s.pulling.Asked?
    requires s.view.pull.Some? && s.view.pull.value <= r && w(r) && r !in s.h.gone && r in s.h.delivered
    ensures GoesOn(es, fs) && Reaches(w, s0, fs, t) && Twice(t)
  {
    hide Reaches, Live, Twice;
    var first, second := s.h.delivered, Live(w, s.h.gone, s.view.pull.value, r + 1);
    fs, t := NextRound(w, s0, es, s);
    fs, t := PullUpTo(w, s0, fs, t, r + 1);
    assert r in second by { LiveMembers(w, s.h.gone, s.view.pull.value, r + 1); }
    assert t.view.rows == [] + second == second;
    fs, t := HandOutAll(w, s0, fs, t);
    BothHave(t, first, second, r);
  }

  lemma SeekDeliversTwice(w: nat -> bool, s: Q) returns (es: seq<Event>, t: Q)
    requires Sound(w, s) && WellFetched(w, s) && s.seeking.Checked? && s.leaving.Steady? && s.view.held
    requires !s.pulling.Writing? && !s.pulling.Opening? && LeavesRowBehind(s, s.seeking.target)
    ensures (forall e | e in es :: Plain(e)) && Reaches(w, OnSeekPull(w, s), es, t) && Twice(t)
  {
    var r :| r in s.view.rows + Incoming(s) && r >= s.seeking.target;
    assert w(r) && r !in s.h.gone by {
      if s.h.on { CachedIsLive(w, s, r); } else { assert s.view.rows + Incoming(s) == Incoming(s); }
    }
    hide Sound, Reaches, OnSeekPull, Twice;
    es, t := LeftBehindIsHandedOut(w, s, r);
    es, t := PulledAgain(w, OnSeekPull(w, s), es, t, r);
  }

  lemma CachedIsLive(w: nat -> bool, s: Q, r: nat)
    requires Exact(w, s) && s.h.on && s.seeking.Checked? && !s.pulling.Writing? && r in s.view.rows + Incoming(s)
    ensures w(r) && r !in s.h.gone
  {
    LiveMembers(w, s.h.gone, s.h.origin, s.h.reach);
    hide Live;
    assert r in s.h.delivered + s.view.rows + Incoming(s);
  }

  lemma BothHave(s: Q, a: seq<nat>, b: seq<nat>, r: nat)
    requires s.h.delivered == a + b && r in a && r in b
    ensures Twice(s)
  {
    var i :| 0 <= i < |a| && a[i] == r;
    var j :| 0 <= j < |b| && b[j] == r;
    assert s.h.delivered[i] == r && s.h.delivered[|a| + j] == r;
  }

  /** A run of clean steps that neither begins a replay nor gives the queue up. */
  ghost predicate PlainRun(w: nat -> bool, s: Q, es: seq<Event>) {
    (forall e | e in es :: Plain(e)) && Runs(w, s, es)
  }

  lemma SeekIsHarmless(w: nat -> bool, s: Q)
    requires Sound(w, s) && WellFetched(w, s) && s.seeking.Checked? && s.leaving.Steady? && s.view.held
    requires s.pulling.Writing? || !LeavesRowBehind(s, s.seeking.target)
    ensures Rising(OnSeekPull(w, s))
  {
    hide Exact, Cursors, SeekShape, InOrder, Covered, Grouped, Rising, OnSeekPull, LeavesRowBehind, WellFetched, Places;
    if s.h.on { SeekRises(w, s); } else { FreshSeekRises(w, s); }
  }

  /** After a seek an offset is handed out twice, in some continuation, if and only if the seek leaves a row at or past
      its target cached or on its way into the cache, and the pull thread is not about to overwrite the pull cursor it
      has set, by an answer or a start offset. */
  lemma SeekDeliversTwiceIff(w: nat -> bool, s: Q)
    requires Sound(w, s) && WellFetched(w, s) && s.seeking.Checked? && s.leaving.Steady? && s.view.held
    ensures (exists es :: PlainRun(w, OnSeekPull(w, s), es) && Twice(After(w, OnSeekPull(w, s), es)))
            <==> !s.pulling.Writing? && !s.pulling.Opening? && LeavesRowBehind(s, s.seeking.target)
  {
    var u := OnSeekPull(w, s);
    assert Grouped(s);
    hide Sound, Rising, Stalled, OnSeekPull, Plain, Twice, Runs, After, LeavesRowBehind, WellFetched, Grouped;
    if s.pulling.Opening? {
      SeekStalls(w, s);
      forall es | PlainRun(w, u, es) ensures !Twice(After(w, u, es)) { StaysStalled(w, u, es); }
    } else if !s.pulling.Writing? && LeavesRowBehind(s, s.seeking.target) {
      var es, t := SeekDeliversTwice(w, s);
      assert PlainRun(w, u, es) && Twice(After(w, u, es));
    } else {
      SeekIsHarmless(w, s);
      forall es | PlainRun(w, u, es) ensures !Twice(After(w, u, es)) {
        PlainRunRises(w, u, es);
        RisingIsNotTwice(After(w, u, es));
      }
    }
  }

  // ---- overlaps that happen, each from a queue nobody has held yet ----

  ghost predicate Gets(w: nat -> bool, s: Q, es: seq<Event>, t: Q) {
    Moves(w, s, es) && Moved(w, s, es) == t
  }

  lemma {:induction false} MovesOn(w: nat -> bool, s: Q, es: seq<Event>, e: Event)
    requires Moves(w, s, es) && Possible(Moved(w, s, es), e)
    ensures Moves(w, s, es + [e]) && Moved(w, s, es + [e]) == Step(w, Moved(w, s, es), e)
    decreases |es|
  {
    hide Possible, Step;
    if es == [] {
      OneStep(w, s, e);
      assert [] + [e] == [e];
    } else {
      MovesOn(w, Step(w, s, es[0]), es[1..], e);
      assert (es + [e])[1..] == es[1..] + [e];
    }
  }

  lemma Then(w: nat -> bool, s: Q, es: seq<Event>, t: Q, e: Event) returns (fs: seq<Event>, u: Q)
    requires Gets(w, s, es, t) && Possible(t, e)
    ensures fs == es + [e] && u == Step(w, t, e) && Gets(w, s, fs, u)
  {
    MovesOn(w, s, es, e);
    fs, u := es + [e], Step(w, t, e);
  }

  /** A queue taken over at `at`, with the pull cursor at `pull` and the rows `groups` cached. */
  function Held(at: nat, pull: nat, groups: seq<seq<nat>>): Q {
    Begin(None).(view := QueueView(true, Some(pull), None, None, Flatten(groups), Lengths(groups)),
                 h := Begin(None).h.(on := true, origin := at, reach := pull, base := at, groups := groups))
  }

  lemma TakeOver(w: nat -> bool, at: nat) returns (es: seq<Event>, t: Q)
    ensures Gets(w, Begin(None), es, t) && t == Held(at, at, [])
  {
    var s := Begin(None);
    assert Gets(w, s, [], s);
    hide Gets, Live;
    es, t := Then(w, s, [], s, Hold);
    es, t := Then(w, s, es, t, Resolve(Start(at, false)));
    es, t := Then(w, s, es, t, StartWrite);
    assert t.view == QueueView(true, Some(at), None, None, [], []);
  }

  /** The pull thread asks at its cursor and is about to write the answer. */
  lemma AskUpTo(w: nat -> bool, s0: Q, es: seq<Event>, s: Q, next: nat) returns (fs: seq<Event>, t: Q)
    requires Gets(w, s0, es, s) && s.pulling.Resting? && s.view.held && s.leaving.Steady?
    requires s.view.pull.Some? && s.view.pull.value <= next
    ensures Gets(w, s0, fs, t)
    ensures t == s.(pulling := Writing(s.view.pull.value, next, Live(w, s.h.gone, s.view.pull.value, next), false))
  {
    hide Gets, Live;
    fs, t := Then(w, s0, es, s, Target);
    fs, t := Then(w, s0, fs, t, Look(Start(0, false)));
    fs, t := Then(w, s0, fs, t, Judge(next, false));
  }

  /** And works it in. */
  lemma WorkIn(w: nat -> bool, s0: Q, es: seq<Event>, s: Q) returns (fs: seq<Event>, t: Q)
    requires Gets(w, s0, es, s) && s.pulling.Writing? && s.pulling.found != [] && !s.pulling.lost && s.view.pull.Some?
    ensures Gets(w, s0, fs, t)
    ensures var found := s.pulling.found;
            t == s.(pulling := Resting,
                    view := s.view.(pull := Some(s.pulling.next), rows := s.view.rows + found,
                                    rounds := s.view.rounds + [|found|]),
                    h := s.h.(reach := s.pulling.next, groups := s.h.groups + [found]))
  {
    hide Gets;
    fs, t := Then(w, s0, es, s, Write);
    fs, t := Then(w, s0, fs, t, Arrive);
  }

  lemma SeekWhole(w: nat -> bool, s0: Q, es: seq<Event>, s: Q, target: nat) returns (fs: seq<Event>, t: Q)
    requires Gets(w, s0, es, s) && s.view.held && s.seeking.NotSeeking?
    ensures Gets(w, s0, fs, t)
    ensures t == s.(view := Shrunk(s.view.(pull := Some(target), consumed := Some(target)),
                                   Dropped(s.view.rows, target), Prune(s.view.rows, target)),
                    h := Jumped(w, s.h, target).(groups := RemoveEachFromGroups(s.h.groups, Dropped(s.view.rows, target))))
  {
    hide Gets, Undelivered, Prune, Dropped, RemoveEachFromGroups, ChargeAll;
    fs, t := Then(w, s0, es, s, SeekBegin(target));
    fs, t := Then(w, s0, fs, t, SeekPull);
    fs, t := Then(w, s0, fs, t, SeekCursor);
    fs, t := Then(w, s0, fs, t, SeekPrune);
  }

  /** Taken over at 0, offset 0 cached, sought to 0: the row is still cached, is pulled again, and both are handed
      out. */
  lemma SeekBackDeliversTwice(w: nat -> bool) returns (es: seq<Event>, t: Q)
    requires w(0)
    ensures Gets(w, Begin(None), es, t) && t.h.delivered == [0, 0] && t.h.origin == 0
  {
    var s := Begin(None);
    es, t := TakeOver(w, 0);
    assert Live(w, {}, 0, 1) == [0];
    hide Gets, Live, MaxOf, Greatest;
    es, t := AskUpTo(w, s, es, t, 1);
    es, t := WorkIn(w, s, es, t);
    assert t.view.rows == [0] && t.h.groups == [[0]];
    es, t := SeekWhole(w, s, es, t, 0);
    assert Prune([0], 0) == [0] && Dropped([0], 0) == [];
    es, t := AskUpTo(w, s, es, t, 1);
    es, t := WorkIn(w, s, es, t);
    assert t.view.rows == [0, 0] && t.view.rows[..2] == [0, 0];
    hide RemoveEachFromGroups, ChargeAll;
    es, t := Then(w, s, es, t, Take(2));
  }

  /** An offset the pull cursor has passed is neither delivered nor cached. */
  lemma MissedIsNotFine(w: nat -> bool, s: Q, o: nat)
    requires s.h.on && s.view.pull.Some? && Idle(s.pulling) && s.h.delivered == [] && s.seeking.NotSeeking?
    requires s.h.origin <= o < s.view.pull.value && w(o) && o !in s.h.gone && o !in s.view.rows
    ensures !Fine(w, s)
  {
    LiveMembers(w, s.h.gone, s.h.origin, s.view.pull.value);
    hide Live;
    assert s.h.delivered + Staying(s) == s.view.rows;
  }

  lemma SoughtWhileAnswered(w: nat -> bool) returns (es: seq<Event>, t: Q)
    ensures Gets(w, Begin(None), es, t) && t.pulling == Writing(5, 7, Live(w, {}, 5, 7), false) && t.h.delivered == []
    ensures t.view == QueueView(true, Some(0), Some(0), None, [], []) && t.h.origin == 0 && t.h.on && t.h.gone == {}
    ensures t.seeking.NotSeeking?
  {
    var s := Begin(None);
    es, t := TakeOver(w, 5);
    hide Gets, Live, Undelivered;
    es, t := AskUpTo(w, s, es, t, 7);
    es, t := SeekWhole(w, s, es, t, 0);
  }

  /** A seek to 0 between the test of an answer and the write of the pull cursor: the cursor ends at 7 and nothing below
      5 is ever pulled. */
  lemma AnswerOverwritesTheSeek(w: nat -> bool) returns (es: seq<Event>, t: Q)
    requires w(0) && w(5)
    ensures Gets(w, Begin(None), es, t) && t.view.pull == Some(7) && t.h.origin == 0 && t.view.consumed == Some(0)
    ensures t.pulling.Resting? && t.seeking.NotSeeking? && 0 !in t.view.rows && 5 in t.view.rows && !Fine(w, t)
  {
    es, t := SoughtWhileAnswered(w);
    LiveMembers(w, {}, 5, 7);
    hide Gets, Live, Fine;
    assert 5 in t.pulling.found && 0 !in t.pulling.found;
    es, t := WorkIn(w, Begin(None), es, t);
    MissedIsNotFine(w, t, 0);
  }

  /** A seek between the two halves of a poll: the consumed cursor ends past the pull cursor. */
  lemma PollOvertakesTheSeek(w: nat -> bool) returns (es: seq<Event>, t: Q)
    requires w(0)
    ensures Gets(w, Begin(None), es, t) && t.view.pull == Some(0) && t.view.consumed == Some(1)
    ensures t.polling.NotPolling? && t.seeking.NotSeeking? && t.pulling.Resting? && !Fine(w, t)
  {
    var s := Begin(None);
    es, t := TakeOver(w, 0);
    assert Live(w, {}, 0, 1) == [0];
    hide Gets, Live;
    es, t := AskUpTo(w, s, es, t, 1);
    es, t := WorkIn(w, s, es, t);
    assert t.view.rows == [0] && [0][..1] == [0] && [0][1..] == [];
    es, t := Then(w, s, es, t, Take(1));
    assert t.polling == Taken([0]) && t.view.rows == [];
    es, t := SeekWhole(w, s, es, t, 0);
    assert Prune([], 0) == [] && Dropped([], 0) == [];
    es, t := Then(w, s, es, t, LookUp);
    es, t := Then(w, s, es, t, Move);
  }

  lemma GiveUp(w: nat -> bool, s0: Q, es: seq<Event>, s: Q) returns (fs: seq<Event>, t: Q)
    requires Gets(w, s0, es, s) && s.view.held && s.leaving.Steady? && s.starting.None?
    ensures Gets(w, s0, fs, t)
    ensures t == s.(view := s.view.(held := false, pull := None, consumed := None, rows := [], rounds := []),
                    h := s.h.(on := false, groups := []))
  {
    hide Gets;
    fs, t := Then(w, s0, es, s, Leave(Assignment));
    fs, t := Then(w, s0, fs, t, Drop(false));
    fs, t := Then(w, s0, fs, t, Drop(false));
    fs, t := Then(w, s0, fs, t, Drop(false));
  }

  /** An assignment gives the queue up while an accepted answer is not enqueued yet: its rows are handed out
      afterwards. */
  lemma RowsOutliveTheRelease(w: nat -> bool) returns (es: seq<Event>, t: Q)
    requires w(0)
    ensures Gets(w, Begin(None), es, t) && !t.view.held && t.leaving.Steady? && t.h.delivered == [0] && t.h.stray
  {
    var s := Begin(None);
    es, t := TakeOver(w, 0);
    assert Live(w, {}, 0, 1) == [0];
    hide Gets, Live, RemoveEachFromGroups, ChargeAll;
    es, t := AskUpTo(w, s, es, t, 1);
    es, t := Then(w, s, es, t, Write);
    es, t := GiveUp(w, s, es, t);
    es, t := Then(w, s, es, t, Arrive);
    assert t.view.rows == [0] && [0][..1] == [0];
    es, t := Then(w, s, es, t, Take(1));
  }

  lemma OpenedWhileStarting(w: nat -> bool) returns (es: seq<Event>, t: Q)
    ensures Gets(w, Begin(None), es, t) && t == Held(0, 0, []).(pulling := Asked(0), starting := Some(Start(0, false)))
  {
    var s := Begin(None);
    assert Gets(w, s, [], s);
    hide Gets, Live;
    es, t := Then(w, s, [], s, Hold);
    es, t := Then(w, s, es, t, Resolve(Start(0, false)));
    es, t := Then(w, s, es, t, Target);
    es, t := Then(w, s, es, t, Look(Start(0, false)));
    es, t := Then(w, s, es, t, OpenWrite);
  }

  /** A start offset looked up before the pull thread found its own and pulled: written late, it takes the cursor
      back. */
  lemma LateStartPullsAgain(w: nat -> bool) returns (es: seq<Event>, t: Q)
    requires w(0)
    ensures Gets(w, Begin(None), es, t) && t.view.rows == [0] && t.view.pull == Some(0) && !Fine(w, t)
  {
    var s := Begin(None);
    es, t := OpenedWhileStarting(w);
    assert Live(w, {}, 0, 1) == [0] && Live(w, {}, 0, 0) == [];
    hide Gets, Live;
    es, t := Then(w, s, es, t, Judge(1, false));
    es, t := WorkIn(w, s, es, t);
    es, t := Then(w, s, es, t, StartWrite);
    assert t.h.delivered + Staying(t) == [0];
  }

  lemma EndSubscription(w: nat -> bool, s0: Q, es: seq<Event>, s: Q) returns (fs: seq<Event>, t: Q)
    requires Gets(w, s0, es, s) && MayLeave(s, Unsubscription)
    ensures Gets(w, s0, fs, t)
    ensures t == s.(view := s.view.(held := false, pull := None, consumed := None, rows := [], rounds := []),
                    h := s.h.(on := false, groups := []))
  {
    hide Gets;
    fs, t := Then(w, s0, es, s, Leave(Unsubscription));
    fs, t := Then(w, s0, fs, t, Drop(false));
    fs, t := Then(w, s0, fs, t, Drop(false));
    fs, t := Then(w, s0, fs, t, Drop(false));
  }

  /** A subscription ends while a rebalance has a start offset in its hands: the released queue gets a pull cursor. */
  lemma StartOutlivesTheUnsubscription(w: nat -> bool, at: nat) returns (es: seq<Event>, t: Q)
    ensures Gets(w, Begin(None), es, t) && !t.view.held && t.leaving.Steady? && t.view.pull == Some(at) && !Fine(w, t)
  {
    var s := Begin(None);
    assert Gets(w, s, [], s);
    hide Gets, Live;
    es, t := Then(w, s, [], s, Hold);
    es, t := Then(w, s, es, t, Resolve(Start(at, false)));
    es, t := EndSubscription(w, s, es, t);
    es, t := Then(w, s, es, t, StartWrite);
  }

  /** An offset that was asked for, still exists and was neither delivered nor jumped over. */
  predicate Owed(w: nat -> bool, h: History, o: nat) {
    h.base <= o && w(o) && o !in h.gone && o !in h.ever && o !in h.skipped
  }

  /** The queue is held, nobody has rows for it in its hands, and an offset behind its pull cursor is owed and not
      cached: it will not be pulled again. */
  predicate Loses(w: nat -> bool, s: Q, o: nat) {
    && s.view.held && s.leaving.Steady? && s.pulling.Resting? && s.view.pull.Some? && o < s.view.pull.value
    && Owed(w, s.h, o) && o !in s.view.rows
  }

  ghost predicate LosesAfter(w: nat -> bool, s: Q, es: seq<Event>, o: nat) {
    Moves(w, s, es) && Loses(w, Moved(w, s, es), o)
  }

  lemma OwedBefore(w: nat -> bool, s: Q, e: Event, o: nat)
    requires Possible(s, e) && Owed(w, Step(w, s, e).h, o)
    ensures Owed(w, s.h, o)
  {
    hide Live, MaxOf, Greatest, Undelivered, RemoveEachFromGroups, ChargeAll, Prune, Dropped;
  }

  lemma {:induction false} OwedFromTheStart(w: nat -> bool, s: Q, es: seq<Event>, o: nat)
    requires Moves(w, s, es) && Owed(w, Moved(w, s, es).h, o)
    ensures Owed(w, s.h, o)
    decreases |es|
  {
    hide Possible, Step, Owed;
    if es != [] {
      OwedFromTheStart(w, Step(w, s, es[0]), es[1..], o);
      OwedBefore(w, s, es[0], o);
    }
  }

  lemma OwedIsPastTheBroker(w: nat -> bool, s: Q, o: nat)
    requires Sound(w, s) && Owed(w, s.h, o) && s.broker.Some?
    ensures s.broker.value <= o
  {
    assert s.broker.value in Promised(s);
  }

  /** The cursors go, and the rows are left to be dropped. */
  lemma OnlyRowsLeft(w: nat -> bool, s0: Q, es: seq<Event>, s: Q) returns (fs: seq<Event>, t: Q)
    requires Gets(w, s0, es, s) && s.leaving.Letting? && s.leaving.who.Unsubscription? && 1 <= s.leaving.done <= 3
    requires s.leaving.done >= 2 ==> s.view.pull.None?
    ensures Gets(w, s0, fs, t)
    ensures t == s.(leaving := Letting(Unsubscription, 3), view := s.view.(pull := None, consumed := t.view.consumed))
  {
    hide Gets;
    fs, t := es, s;
    if t.leaving.done == 1 { fs, t := Then(w, s0, fs, t, Drop(false)); }
    if t.leaving.done == 2 { fs, t := Then(w, s0, fs, t, Drop(false)); }
  }

  /** The pull thread starts the queue and works an answer in. */
  lemma StartAndPull(w: nat -> bool, s0: Q, es: seq<Event>, s: Q, start: Start, next: nat)
    returns (fs: seq<Event>, t: Q)
    requires Gets(w, s0, es, s) && s.view.held && s.pulling.Resting? && s.view.pull.None? && LooksUp(s, start)
    requires start.at <= next
    ensures Gets(w, s0, fs, t) && t.view.held && t.pulling.Resting? && t.view.pull == Some(next)
    ensures t.leaving == s.leaving && t.h == Opened(s.h, start).(reach := next, groups := t.h.groups)
  {
    hide Gets, Live;
    fs, t := Then(w, s0, es, s, Target);
    fs, t := Then(w, s0, fs, t, Look(start));
    fs, t := Then(w, s0, fs, t, OpenWrite);
    fs, t := Then(w, s0, fs, t, Judge(next, false));
    fs, t := Then(w, s0, fs, t, Write);
    fs, t := Then(w, s0, fs, t, Arrive);
  }

  lemma TakenOverTooSoon(w: nat -> bool, s: Q, o: nat) returns (es: seq<Event>, t: Q)
    requires Sound(w, s) && Possible(s, Hold) && s.leaving.Letting?
    requires Owed(w, s.h, o)
    ensures Gets(w, Step(w, s, Hold), es, t) && Loses(w, t, o)
  {
    hide Live;
    if s.broker.Some? { OwedIsPastTheBroker(w, s, o); }
    Ending(w, s);
    hide Sound;
    var u := Step(w, s, Hold);
    assert u == s.(view := s.view.(held := true));
    assert Gets(w, u, [], u);
    hide Gets, Step, Possible;
    es, t := OnlyRowsLeft(w, u, [], u);
    var start := if s.broker.Some? && s.broker.value >= 0 then Start(s.broker.value, true) else Start(o, false);
    es, t := StartAndPull(w, u, es, t, start, o + 1);
    es, t := RowsGo(w, u, es, t);
  }

  lemma Ending(w: nat -> bool, s: Q)
    requires Sound(w, s) && Possible(s, Hold) && s.leaving.Letting?
    ensures s.leaving.who.Unsubscription? && s.pulling.Resting? && 1 <= s.leaving.done <= 3
    ensures s.leaving.done >= 2 ==> s.view.pull.None?
  {
    hide Exact, Cursors, SeekShape, InOrder, Covered, Grouped;
  }

  lemma RowsGo(w: nat -> bool, s0: Q, es: seq<Event>, s: Q) returns (fs: seq<Event>, t: Q)
    requires Gets(w, s0, es, s) && s.leaving == Letting(Unsubscription, 3)
    ensures Gets(w, s0, fs, t) && t == RowsDropped(s).(leaving := Steady)
  {
    hide Gets;
    fs, t := Then(w, s0, es, s, Drop(false));
  }

  /** A subscription is ending, and a rebalance takes the queue over before everything is dropped. Then a row can get lost
      behind the pull cursor, if and only if there is a row left to be delivered. */
  lemma TakeOverLosesIff(w: nat -> bool, s: Q)
    requires Sound(w, s) && Possible(s, Hold) && s.leaving.Letting?
    ensures (exists es, o :: LosesAfter(w, Step(w, s, Hold), es, o)) <==> exists o :: Owed(w, s.h, o)
  {
    var u := Step(w, s, Hold);
    assert u.h == s.h;
    hide Sound, Moves, Moved, Possible, Step;
    if o :| Owed(w, s.h, o) {
      var es, t := TakenOverTooSoon(w, s, o);
      assert LosesAfter(w, u, es, o);
    } else {
      forall es, o ensures !LosesAfter(w, u, es, o) {
        if LosesAfter(w, u, es, o) { OwedFromTheStart(w, u, es, o); }
      }
    }
  }

  lemma RowsOfTheRun(w: nat -> bool)
    requires w(10) && w(11)
    ensures Live(w, {}, 10, 12) == [10, 11] && Prune([10, 11], 3) == [10, 11] && Dropped([10, 11], 3) == []
    ensures RemoveEachFromGroups([[10, 11]], []) == [[10, 11]] && ChargeAll([2], 0, false) == [2]
  {
    assert Live(w, {}, 10, 11) == [10] && Live(w, {}, 10, 12) == [10] + [11];
    PruneNothing([10, 11], 3);
    PruneMembers([10, 11], 3);
  }

  lemma CachedAheadOfTheSeek(w: nat -> bool) returns (es: seq<Event>, t: Q)
    requires w(10) && w(11)
    ensures Gets(w, Begin(None), es, t) && t.pulling.Resting? && t.seeking.NotSeeking? && t.leaving.Steady?
    ensures t.view == QueueView(true, Some(3), Some(3), None, [10, 11], [2])
    ensures t.h.gone == {} && t.h.groups == [[10, 11]]
  {
    var s := Begin(None);
    es, t := TakeOver(w, 10);
    assert t.view.rows == [] && t.view.rounds == [] && t.h.groups == [];
    hide Gets, Live, Undelivered, Prune, Dropped, RemoveEachFromGroups, ChargeAll, Flatten, Lengths;
    RowsOfTheRun(w);
    es, t := AskUpTo(w, s, es, t, 12);
    es, t := WorkIn(w, s, es, t);
    assert t.view.rows == [10, 11] && t.view.rounds == [2] && t.h.groups == [[10, 11]];
    es, t := SeekWhole(w, s, es, t, 3);
  }

  /** Rows 10 and 11 of one round cached, sought back to 3, row 3 pulled, sought on to 4: the pruned row is charged to
      the round of 10 and 11. One round is left in the cache, two are counted. */
  lemma RoundsDrift(w: nat -> bool) returns (es: seq<Event>, t: Q)
    requires w(3) && w(10) && w(11)
    ensures Gets(w, Begin(None), es, t) && t.h.groups == [[10, 11]] && t.view.rounds == [1, 1]
  {
    var s := Begin(None);
    es, t := CachedAheadOfTheSeek(w);
    PruneTheLast();
    assert Live(w, {}, 3, 4) == [3];
    hide Gets, Live, Undelivered, Prune, Dropped, RemoveEachFromGroups, ChargeAll;
    es, t := AskUpTo(w, s, es, t, 4);
    es, t := WorkIn(w, s, es, t);
    assert t.view.rows == [10, 11, 3] && t.view.rounds == [2, 1] && t.h.groups == [[10, 11], [3]];
    es, t := SeekWhole(w, s, es, t, 4);
  }

  lemma PruneTheLast()
    ensures Dropped([10, 11, 3], 4) == [3] && Prune([10, 11, 3], 4) == [10, 11]
    ensures RemoveEachFromGroups([[10, 11], [3]], [3]) == [[10, 11]] && ChargeAll([2, 1], 1, false) == [1, 1]
  {
    assert [10, 11, 3][1..] == [11, 3] && [11, 3][1..] == [3];
    assert Dropped([3], 4) == [3] && Dropped([11, 3], 4) == [3] && Prune([3], 4) == [] && Prune([11, 3], 4) == [11];
    assert [[10, 11], [3]][1..] == [[3]] && RemoveFirst([3], 3) == [];
    assert RemoveFromGroups([[3]], 3) == [];
    assert RemoveFromGroups([[10, 11], [3]], 3) == [[10, 11]];
    assert [3][1..] == [];
  }
}
