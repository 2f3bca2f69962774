/** What goes wrong after a step that is not clean, and that nothing goes wrong otherwise. */
module LiteFailures {
  import opened Messages
  import opened LiteQueueCache
  import opened LiteSteps
  import opened LiteRuns

  // ---- building runs ----

  ghost predicate Reaches(w: nat -> bool, s: Q, es: seq<Event>, t: Q) {
    Runs(w, s, es) && After(w, s, es) == t
  }

  lemma {:induction false} Extend(w: nat -> bool, s: Q, es: seq<Event>, e: Event)
    requires Runs(w, s, es) && Possible(After(w, s, es), e) && Clean(w, After(w, s, es), e)
    ensures Runs(w, s, es + [e]) && After(w, s, es + [e]) == Step(w, After(w, s, es), e)
    decreases |es|
  {
    hide Possible, Clean, Step;
    if es == [] {
      assert [e][1..] == [];
    } else {
      Extend(w, Step(w, s, es[0]), es[1..], e);
      assert (es + [e])[1..] == es[1..] + [e];
    }
  }

  lemma Go(w: nat -> bool, s: Q, es: seq<Event>, t: Q, e: Event) returns (fs: seq<Event>, u: Q)
    requires Reaches(w, s, es, t) && Possible(t, e) && Clean(w, t, e)
    ensures fs == es + [e] && u == Step(w, t, e) && Reaches(w, s, fs, u)
  {
    Extend(w, s, es, e);
    fs, u := es + [e], Step(w, t, e);
  }

  lemma Stay(w: nat -> bool, s: Q)
    ensures Reaches(w, s, [], s)
  {
  }

  // ---- finishing what is under way ----

  /** A step that neither begins a replay nor gives the queue up. */
  predicate Plain(e: Event) {
    !(e.SeekPull? || e.OpenWrite? || e.StartWrite? || e.Leave? || e.Drop? || e.Hold? || e.Crash?)
  }

  /** A run goes on with plain steps. */
  predicate GoesOn(es: seq<Event>, fs: seq<Event>) {
    forall e | e in fs :: e in es || Plain(e)
  }

  /** A queue that is being given up is given up in the end; entries written after they were dropped stay. */
  lemma {:induction false} FinishLeaving(w: nat -> bool, s0: Q, es: seq<Event>, s: Q) returns (fs: seq<Event>, t: Q)
    requires Reaches(w, s0, es, s) && s.leaving.Letting? && 1 <= s.leaving.done
    requires s.view.held == s.leaving.who.Assignment?
    ensures Reaches(w, s0, fs, t) && t.leaving.Steady? && !t.view.held
    ensures !PullStands(s) ==> t.view.pull == s.view.pull
    ensures !CursorStands(s) ==> t.view.consumed == s.view.consumed
    decreases 6 - s.leaving.done
  {
    hide Reaches;
    fs, t := Go(w, s0, es, s, Drop(false));
    if t.leaving.Letting? {
      assert t.leaving.done == s.leaving.done + 1 <= 6;
      fs, t := FinishLeaving(w, s0, fs, t);
    }
  }

  /** The pull thread works in what it has in its hands. */
  lemma FinishPulling(w: nat -> bool, s0: Q, es: seq<Event>, s: Q) returns (fs: seq<Event>, t: Q)
    requires Reaches(w, s0, es, s) && s.h.on && PullStands(s) && s.view.pull.Some? && !Idle(s.pulling)
    ensures GoesOn(es, fs)
    ensures Reaches(w, s0, fs, t) && t.pulling.Resting? && t.view.pull.Some? && t.h.on
    ensures t.view.rows == s.view.rows + Incoming(s) && t.view.pull.value == Landing(s, s.view.pull.value)
    ensures t == s.(pulling := t.pulling, view := t.view,
                    h := s.h.(gone := GoneThen(s), reach := t.h.reach, groups := t.h.groups))
    ensures t.view.held == s.view.held && t.view.consumed == s.view.consumed
  {
    hide Reaches;
    fs, t := es, s;
    if t.pulling.Writing? {
      fs, t := Go(w, s0, fs, t, Write);
    }
    assert t.pulling.Carrying? && t.pulling.found == Incoming(s);
    assert s.view.rows + [] == s.view.rows;
    fs, t := Go(w, s0, fs, t, Arrive);
  }

  /** A seek under way writes its consumed cursor, if it has not, and prunes. */
  lemma FinishSeeking(w: nat -> bool, s0: Q, es: seq<Event>, s: Q) returns (fs: seq<Event>, t: Q)
    requires Reaches(w, s0, es, s) && MidSeek(s) && CursorStands(s)
    requires s.leaving.Steady? && s.seeking.PullSet? ==> s.h.on && (s.h.delivered == [] || Pending(s).Some?)
    ensures GoesOn(es, fs)
    ensures Reaches(w, s0, fs, t) && t.seeking.NotSeeking? && t.view.rows == Prune(s.view.rows, s.seeking.target)
    ensures t == s.(seeking := t.seeking,
                    view := s.view.(consumed := t.view.consumed, rows := t.view.rows, rounds := t.view.rounds),
                    h := s.h.(groups := t.h.groups))
    ensures t.view.consumed == if s.seeking.PullSet? then Some(s.seeking.target) else s.view.consumed
  {
    hide Reaches, MaxOf, Greatest;
    fs, t := es, s;
    if t.seeking.PullSet? {
      fs, t := Go(w, s0, fs, t, SeekCursor);
    }
    hide RemoveEachFromGroups, ChargeAll, Prune, Dropped;
    fs, t := Go(w, s0, fs, t, SeekPrune);
  }

  /** A poll under way writes the consumed cursor it has to write. */
  lemma FinishPolling(w: nat -> bool, s0: Q, es: seq<Event>, s: Q) returns (fs: seq<Event>, t: Q)
    requires Reaches(w, s0, es, s) && s.leaving.Steady? && s.view.held && s.h.on && s.view.pull.Some?
    ensures GoesOn(es, fs)
    ensures Reaches(w, s0, fs, t)
    ensures t == s.(polling := NotPolling, view := s.view.(consumed := t.view.consumed))
    ensures t.view.consumed == if Pending(s).Some? then Pending(s) else s.view.consumed
  {
    hide Reaches, MaxOf, Greatest;
    fs, t := es, s;
    if t.polling.Taken? {
      fs, t := Go(w, s0, fs, t, LookUp);
    }
    if t.polling.Looked? {
      fs, t := Go(w, s0, fs, t, Move);
    }
  }

  // ---- seeks ----

  /** The seek is over and the pull thread has worked in what it had. */
  lemma SettleSeek(w: nat -> bool, s: Q) returns (es: seq<Event>, t: Q)
    requires s.seeking.Checked? && PullStands(s)
    ensures forall e | e in es :: Plain(e)
    ensures Reaches(w, OnSeekPull(w, s), es, t) && t.seeking.NotSeeking? && Idle(t.pulling)
    ensures t.h.on && t.h.delivered == [] && t.h.origin == s.seeking.target
    ensures t.view.pull == Some(Landing(s, s.seeking.target))
    ensures t.view.rows == Prune(s.view.rows, s.seeking.target) + Incoming(s)
    ensures t.h.gone == GoneThen(s.(view := s.view.(pull := Some(s.seeking.target))))
    ensures t.leaving == s.leaving && t.view.held == s.view.held && t.polling == s.polling
    ensures t.pulling == (if Idle(s.pulling) then s.pulling else Resting) && t.view.consumed == Some(s.seeking.target)
  {
    hide Reaches, Undelivered, Prune;
    var u := OnSeekPull(w, s);
    Stay(w, u);
    es, t := FinishSeeking(w, u, [], u);
    assert t.view.rows + [] == t.view.rows;
    if !Idle(t.pulling) {
      es, t := FinishPulling(w, u, es, t);
    }
  }

  lemma SeekPullFails(w: nat -> bool, s: Q) returns (es: seq<Event>, t: Q)
    requires Places(s) && s.seeking.Checked? && !CleanSeek(w, s, s.seeking.target)
    ensures Reaches(w, OnSeekPull(w, s), es, t) && !Fine(w, t)
  {
    hide Reaches, Undelivered, Prune, Live, MaxOf, Greatest;
    var u, to := OnSeekPull(w, s), s.seeking.target;
    Stay(w, u);
    if !PullStands(s) {
      es, t := [], u;
      if s.leaving.Letting? { es, t := FinishLeaving(w, u, [], u); }
    } else {
      es, t := SettleSeek(w, s);
      if !Continues(w, s, to, Prune(s.view.rows, to), to) {
        assert t.h.delivered + Staying(t) == t.view.rows;
      } else {
        es, t := FinishPolling(w, u, es, t);
      }
    }
  }

  // ---- first pull cursors ----

  /** A replay has just begun, and a poll or a seek of an earlier one is about to write another consumed cursor. */
  lemma StaleCursorFails(w: nat -> bool, s0: Q, es: seq<Event>, s: Q) returns (fs: seq<Event>, t: Q)
    requires Reaches(w, s0, es, s) && s.leaving.Steady? && s.view.held
    requires s.h.on && s.h.delivered == [] && s.view.pull.Some?
    requires (s.seeking.PullSet? && s.seeking.target != s.h.origin) || (Pending(s).Some? && Pending(s).value != s.h.origin)
    ensures Reaches(w, s0, fs, t) && !Fine(w, t)
  {
    hide Reaches, Prune, Live, MaxOf, Greatest;
    fs, t := es, s;
    if s.seeking.PullSet? && s.seeking.target != s.h.origin {
      fs, t := FinishPolling(w, s0, fs, t);
      fs, t := FinishSeeking(w, s0, fs, t);
    } else {
      if MidSeek(t) { fs, t := FinishSeeking(w, s0, fs, t); }
      fs, t := FinishPolling(w, s0, fs, t);
    }
  }

  /** The pull thread asks from its cursor on and works the answer in. */
  lemma PullUpTo(w: nat -> bool, s0: Q, es: seq<Event>, s: Q, next: nat) returns (fs: seq<Event>, t: Q)
    requires Reaches(w, s0, es, s) && s.pulling.Asked? && PullStands(s) && s.h.on
    requires s.view.pull == Some(s.pulling.at) && s.pulling.at <= next
    ensures GoesOn(es, fs)
    ensures Reaches(w, s0, fs, t) && t.pulling.Resting? && t.view.pull == Some(next)
    ensures t.view.rows == s.view.rows + Live(w, s.h.gone, s.pulling.at, next)
    ensures t == s.(pulling := Resting, view := t.view, h := s.h.(reach := t.h.reach, groups := t.h.groups))
    ensures t.view.held == s.view.held && t.view.consumed == s.view.consumed
  {
    hide Reaches, Live;
    fs, t := Go(w, s0, es, s, Judge(next, false));
    fs, t := FinishPulling(w, s0, fs, t);
  }

  lemma {:induction false} PruneEverything(s: seq<nat>, target: nat)
    requires forall o | o in s :: o < target
    ensures Prune(s, target) == []
  {
    if s != [] {
      assert s[0] in s && forall o | o in s[1..] :: o in s;
      PruneEverything(s[1..], target);
    }
  }

  lemma PruneMisses(w: nat -> bool, gone: set<nat>, lo: nat, hi: nat, target: nat)
    requires Live(w, gone, lo, if target < hi then target else hi) != []
    ensures Prune(Live(w, gone, lo, hi), target) != Live(w, gone, lo, hi)
  {
    var rows, end := Live(w, gone, lo, hi), if target < hi then target else hi;
    PruneMembers(rows, target);
    LiveMembers(w, gone, lo, end);
    LiveMembers(w, gone, lo, hi);
    var o := Live(w, gone, lo, end)[0];
    assert o in Live(w, gone, lo, end) && o in rows && o !in Prune(rows, target);
  }

  /** A seek of an earlier replay is about to prune rows the new one has. */
  lemma StaleRowsPruned(w: nat -> bool, s: Q)
    requires s.h.on && s.h.delivered == [] && Idle(s.pulling) && s.view.pull.Some? && MidSeek(s)
    requires s.view.rows == Live(w, s.h.gone, s.h.origin, s.view.pull.value)
    requires var to, end := s.seeking.target, s.view.pull.value;
             Live(w, s.h.gone, s.h.origin, if to < end then to else end) != []
    ensures !Fine(w, s)
  {
    hide Live, Prune;
    PruneMisses(w, s.h.gone, s.h.origin, s.view.pull.value, s.seeking.target);
    assert s.h.delivered + Staying(s) == Prune(s.view.rows, s.seeking.target);
  }

  /** The pull thread asks for the queue, or will ask, from its pull cursor on. */
  predicate Asks(s: Q) {
    && s.view.pull.Some? && !s.pulling.Opening? && Idle(s.pulling)
    && (s.view.held || s.pulling.Targeted? || s.pulling == Asked(s.view.pull.value))
  }

  /** It does ask. */
  lemma Ask(w: nat -> bool, s0: Q, es: seq<Event>, s: Q) returns (fs: seq<Event>, t: Q)
    requires Reaches(w, s0, es, s) && Asks(s)
    ensures Reaches(w, s0, fs, t) && t == s.(pulling := Asked(s.view.pull.value))
  {
    hide Reaches;
    fs, t := es, s;
    if s.view.held {
      if t.pulling.Asked? { fs, t := Go(w, s0, fs, t, Fail); }
      if t.pulling.Resting? { fs, t := Go(w, s0, fs, t, Target); }
    }
    if t.pulling.Targeted? { fs, t := Go(w, s0, fs, t, Look(Start(0, false))); }
  }

  /** A seek of an earlier replay is about to prune rows the new one has to deliver. */
  lemma StalePruneFails(w: nat -> bool, s0: Q, es: seq<Event>, s: Q) returns (fs: seq<Event>, t: Q)
    requires Reaches(w, s0, es, s) && PullStands(s) && s.h.on && s.h.delivered == [] && Asks(s)
    requires s.h.origin <= s.view.pull.value && s.view.rows == Live(w, s.h.gone, s.h.origin, s.view.pull.value)
    requires MidSeek(s) && Live(w, s.h.gone, s.h.origin, s.seeking.target) != []
    ensures Reaches(w, s0, fs, t) && !Fine(w, t)
  {
    hide Reaches, Live, Prune, Fine;
    var from := s.view.pull.value;
    var end := Later(from, s.seeking.target);
    fs, t := Ask(w, s0, es, s);
    fs, t := PullUpTo(w, s0, fs, t, end);
    LiveSplit(w, s.h.gone, s.h.origin, from, end);
    StaleRowsPruned(w, t);
  }

  /** Two stretches with the same start and the same offsets have nothing to deliver between their ends. */
  lemma SameStretch(w: nat -> bool, gone: set<nat>, lo: nat, a: nat, b: nat)
    requires lo <= a && lo <= b && Live(w, gone, lo, a) == Live(w, gone, lo, b)
    ensures Dead(w, gone, a, b)
  {
    if a <= b {
      LiveSplit(w, gone, lo, a, b);
      assert Live(w, gone, lo, b)[|Live(w, gone, lo, a)|..] == Live(w, gone, a, b);
    } else {
      LiveSplit(w, gone, lo, b, a);
      assert Live(w, gone, lo, a)[|Live(w, gone, lo, b)|..] == Live(w, gone, b, a);
    }
  }

  lemma OpenWriteFails(w: nat -> bool, s: Q) returns (es: seq<Event>, t: Q)
    requires Sound(w, s) && s.pulling.Opening? && !Clean(w, s, OpenWrite)
    ensures Reaches(w, Step(w, s, OpenWrite), es, t) && !Fine(w, t)
  {
    var u, at := Step(w, s, OpenWrite), s.pulling.start.at;
    hide Reaches, MaxOf, Greatest, Prune, Covered, Grouped, InOrder;
    Stay(w, u);
    es, t := [], u;
    if !PullStands(s) {
      if s.leaving.Letting? { es, t := FinishLeaving(w, u, [], u); }
    } else if s.view.pull.None? {
      es, t := FirstStartFails(w, s.(pulling := Asked(at)), s.pulling.start);
    } else {
      assert s.h.delivered + Staying(s) + [] == s.h.delivered + Staying(s);
      assert Staying(u) == Staying(s);
      if Fine(w, u) { SameStretch(w, s.h.gone, s.h.origin, at, s.h.reach); }
    }
  }

  /** What the pull thread has in its hands during a seek lies at or past the target. */
  lemma IncomingPasses(w: nat -> bool, s: Q)
    requires Exact(w, s) && SeekShape(w, s) && s.h.on && MidSeek(s)
    ensures Prune(Incoming(s), s.seeking.target) == Incoming(s)
  {
    var hi, found := Landing(s, s.h.reach), Incoming(s);
    var end := Reach(w, s);
    assert end == s.seeking.target || end == hi;
    LiveMembers(w, GoneSoon(s), s.h.origin, hi);
    NothingLive(w, GoneSoon(s), s.h.origin, end);
    var have := s.h.delivered + Staying(s);
    hide Live, GoneThen, Staying, Prune, Reach;
    forall i | 0 <= i < |found| ensures found[i] >= s.seeking.target {
      assert (have + found)[|have| + i] == found[i];
      assert found[i] in Live(w, GoneSoon(s), s.h.origin, hi);
    }
    PruneNothing(found, s.seeking.target);
  }

  /** Working in what is in its hands adds exactly that to what stays cached. */
  lemma StayingGrows(w: nat -> bool, s: Q, rows: seq<nat>)
    requires Exact(w, s) && SeekShape(w, s) && s.h.on && rows == s.view.rows + Incoming(s)
    ensures Staying(s.(view := s.view.(rows := rows))) == Staying(s) + Incoming(s)
  {
    if MidSeek(s) {
      IncomingPasses(w, s);
      PruneConcat(s.view.rows, Incoming(s), s.seeking.target);
    }
  }

  /** A start offset written over a pull cursor that has moved on. */
  lemma LateStartFails(w: nat -> bool, s: Q, start: Start) returns (es: seq<Event>, t: Q)
    requires Sound(w, s) && PullStands(s) && s.view.pull.Some? && !CleanStart(w, s, start.at)
    ensures Reaches(w, OnStart(s, start), es, t) && !Fine(w, t)
  {
    var u, at := OnStart(s, start), start.at;
    hide Reaches, Prune, Covered, Grouped, InOrder, Cursors;
    Stay(w, u);
    es, t := [], u;
    assert Staying(u) == Staying(s);
    StayingGrows(w, s, s.view.rows + Incoming(s));
    if !Idle(s.pulling) {
      es, t := FinishPulling(w, u, [], u);
    } else {
      assert s.view.rows + Incoming(s) == s.view.rows;
    }
    assert Staying(t) == Staying(s) + Incoming(s);
    Regroup(s.h.delivered, Staying(s), Incoming(s));
    hide Staying;
    if !s.pulling.Writing? && Fine(w, t) { SameStretch(w, s.h.gone, s.h.origin, at, s.h.reach); }
  }

  /** Rows of an earlier replay come in after the first pull cursor. */
  lemma StaleRowsFail(w: nat -> bool, s: Q, start: Start) returns (es: seq<Event>, t: Q)
    requires s.view.rows == [] && PullStands(s) && s.view.pull.None?
    requires !Continues(w, s, start.at, [], start.at)
    ensures Reaches(w, OnStart(s, start), es, t) && !Fine(w, t)
  {
    var u := OnStart(s, start);
    hide Reaches, MaxOf, Greatest, Live;
    Stay(w, u);
    es, t := [], u;
    if MidSeek(t) { es, t := FinishSeeking(w, u, es, t); }
    assert t.view.rows == [];
    if !Idle(t.pulling) { es, t := FinishPulling(w, u, es, t); }
    hide Prune;
    assert t.h.delivered + Staying(t) == [] + Incoming(s);
  }

  /** The first pull cursor: the pull thread puts its own start offset over it and asks from there. */
  lemma OpenOverStart(w: nat -> bool, s: Q, start: Start) returns (es: seq<Event>, t: Q)
    requires s.view.rows == [] && PullStands(s) && s.view.pull.None?
    requires s.pulling.Opening? && Pulls(w, s, start.at, start.at)
    ensures Reaches(w, OnStart(s, start), es, t) && t.pulling.Asked?
    ensures t.view.pull == Some(t.pulling.at) && PullStands(t)
    ensures t.h.on && t.h.delivered == [] && t.view.rows == [] && t.h.origin == start.at && t.h.gone == s.h.gone
    ensures start.at <= t.pulling.at && Live(w, s.h.gone, start.at, t.pulling.at) == []
    ensures t.seeking == s.seeking
  {
    var u := OnStart(s, start);
    hide Reaches, Live;
    Stay(w, u);
    es, t := Go(w, u, [], u, OpenWrite);
  }

  /** What the pull thread has in its hands is worked in; if it writes its own start offset, it has and asks from
      there. */
  lemma WorkedIn(w: nat -> bool, s: Q, start: Start) returns (es: seq<Event>, t: Q)
    requires s.view.rows == [] && PullStands(s) && s.view.pull.None? && Continues(w, s, start.at, [], start.at)
    requires s.pulling.Opening? ==> Pulls(w, s, start.at, start.at)
    ensures Reaches(w, OnStart(s, start), es, t) && PullStands(t)
    ensures t.h.on && t.h.delivered == [] && t.seeking == s.seeking
    ensures t.h.origin == start.at && t.h.gone == GoneThen(s.(view := s.view.(pull := Some(start.at))))
    ensures t.view.pull.Some? && start.at <= t.view.pull.value && Idle(t.pulling) && !t.pulling.Opening?
    ensures t.view.rows == Live(w, t.h.gone, start.at, t.view.pull.value)
    ensures !s.pulling.Opening? ==> t.view.pull.value == Landing(s, start.at)
    ensures Pulls(w, s, start.at, start.at) ==> Asks(t)
  {
    var u, at := OnStart(s, start), start.at;
    hide Reaches, Live, Prune, Dead;
    Stay(w, u);
    es, t := [], u;
    assert [] + Incoming(s) == Incoming(s);
    if s.pulling.Opening? {
      es, t := OpenOverStart(w, s, start);
    } else if !Idle(t.pulling) {
      es, t := FinishPulling(w, u, es, t);
    } else {
      LiveEmpty(w, s.h.gone, at);
    }
  }

  /** A seek of an earlier replay is still about to prune when the first pull cursor is written. */
  lemma StalePruneAfterStart(w: nat -> bool, s: Q, start: Start) returns (es: seq<Event>, t: Q)
    requires s.view.rows == [] && PullStands(s) && s.view.pull.None? && MidSeek(s)
    requires Continues(w, s, start.at, [], start.at)
    requires var gone := GoneThen(s.(view := s.view.(pull := Some(start.at))));
             Live(w, gone, start.at, Reaching(w, s, start.at, start.at, s.seeking.target)) != []
    ensures Reaches(w, OnStart(s, start), es, t) && !Fine(w, t)
  {
    var u, at, to := OnStart(s, start), start.at, s.seeking.target;
    LiveBackwards(w, GoneThen(s.(view := s.view.(pull := Some(at)))), at, Reaching(w, s, at, at, to));
    assert s.pulling.Opening? ==> Pulls(w, s, at, at) by { hide Live; }
    hide Reaches, Live, Prune, Fine, Pulls, Continues;
    es, t := WorkedIn(w, s, start);
    var end := t.view.pull.value;
    if Live(w, t.h.gone, at, if to < end then to else end) != [] {
      StaleRowsPruned(w, t);
    } else {
      es, t := StalePruneFails(w, u, es, t);
    }
  }

  /** The first pull cursor of a queue somebody still has rows, cursors or a prune of an earlier replay for. */
  lemma FirstStartFails(w: nat -> bool, s: Q, start: Start) returns (es: seq<Event>, t: Q)
    requires s.view.rows == [] && PullStands(s) && s.view.pull.None? && !CleanStart(w, s, start.at)
    ensures Reaches(w, OnStart(s, start), es, t) && !Fine(w, t)
  {
    var u, at := OnStart(s, start), start.at;
    hide Reaches, MaxOf, Greatest, Live, Continues, Fine, Reaching, GoneThen;
    if !Continues(w, s, at, [], at) {
      es, t := StaleRowsFail(w, s, start);
    } else if MidSeek(s)
      && Live(w, GoneThen(s.(view := s.view.(pull := Some(at)))), at, Reaching(w, s, at, at, s.seeking.target)) != [] {
      es, t := StalePruneAfterStart(w, s, start);
    } else {
      Stay(w, u);
      es, t := StaleCursorFails(w, u, [], u);
    }
  }

  // ---- late writes ----

  lemma MoveFails(w: nat -> bool, s: Q) returns (es: seq<Event>, t: Q)
    requires Places(s) && s.polling.Looked? && !Clean(w, s, Move)
    ensures Reaches(w, OnMove(s), es, t) && !Fine(w, t)
  {
    hide Reaches, Live;
    Stay(w, OnMove(s));
    es, t := [], OnMove(s);
    if s.leaving.Letting? { es, t := FinishLeaving(w, OnMove(s), [], t); }
  }

  lemma SeekCursorFails(w: nat -> bool, s: Q) returns (es: seq<Event>, t: Q)
    requires Sound(w, s) && s.seeking.PullSet? && !Clean(w, s, SeekCursor)
    ensures Reaches(w, OnSeekCursor(s), es, t) && !Fine(w, t)
  {
    var u := OnSeekCursor(s);
    hide Reaches, Live, Prune, MaxOf, Greatest, Grouped, Covered;
    Stay(w, u);
    es, t := [], u;
    if s.leaving.Letting? {
      es, t := FinishLeaving(w, u, [], t);
    } else if s.view.held && s.h.on {
      assert s.h.origin < Expected(s) by { DeliveredPassesTheOrigin(w, s); }
      es, t := FinishSeeking(w, u, es, t);
      es, t := FinishPolling(w, u, es, t);
    }
  }

  lemma DeliveredPassesTheOrigin(w: nat -> bool, s: Q)
    requires InOrder(w, s) && s.h.delivered != []
    ensures s.h.origin < Expected(s)
  {
    LiveMembers(w, s.h.gone, s.h.origin, Expected(s));
    assert s.h.delivered[0] in Live(w, s.h.gone, s.h.origin, Expected(s));
  }

  lemma TakeFails(w: nat -> bool, s: Q, k: nat)
    requires Sound(w, s) && k <= |s.view.rows| && !Clean(w, s, Take(k))
    ensures !Fine(w, OnTake(s, k))
  {
    var t := OnTake(s, k);
    var o :| o in s.view.rows[..k] && o < s.seeking.target;
    assert o in s.view.rows && o < s.h.origin;
    LiveMembers(w, t.h.gone, t.h.origin, Expected(t));
    assert o in t.h.delivered;
    hide Live, Sound, RemoveEachFromGroups, ChargeAll;
  }

  /** A start offset written for a queue that has been given up stays. */
  lemma LateStartStays(w: nat -> bool, s: Q) returns (es: seq<Event>, t: Q)
    requires s.starting.Some? && !PullStands(s)
    requires s.leaving.Letting? ==> 1 <= s.leaving.done && s.view.held == s.leaving.who.Assignment?
    ensures Reaches(w, Step(w, s, StartWrite), es, t) && !Fine(w, t)
  {
    hide Reaches, Live;
    es, t := [], Step(w, s, StartWrite);
    Stay(w, t);
    if s.leaving.Letting? { es, t := FinishLeaving(w, t, [], t); }
  }

  lemma StartWriteFails(w: nat -> bool, s: Q) returns (es: seq<Event>, t: Q)
    requires Sound(w, s) && s.starting.Some? && !Clean(w, s, StartWrite)
    ensures Reaches(w, Step(w, s, StartWrite), es, t) && !Fine(w, t)
  {
    var u, start := s.(starting := None), s.starting.value;
    assert s.leaving.Letting? ==> 1 <= s.leaving.done && s.view.held == s.leaving.who.Assignment?;
    assert PullStands(s) && s.view.pull.None? ==> s.view.rows == [];
    if !PullStands(s) {
      es, t := LateStartStays(w, s);
      return;
    }
    hide Sound, Reaches, Fine, CleanStart, OnStart;
    StartIgnoresStarting(w, s, start.at);
    StartingForgotten(w, s);
    if s.view.pull.None? { es, t := FirstStartFails(w, u, start); } else { es, t := LateStartFails(w, u, start); }
  }

  lemma LatePullFails(w: nat -> bool, s: Q, e: Event)
    requires Sound(w, s) && Possible(s, e) && !Clean(w, s, e) && (e.Write? || e.Arrive?)
    ensures !Fine(w, Step(w, s, e))
  {
    hide Live;
  }

  /** After every step that is not clean, clean steps lead to a queue that is not as promised. */
  lemma DirtyFails(w: nat -> bool, s: Q, e: Event) returns (es: seq<Event>, t: Q)
    requires Sound(w, s) && Possible(s, e) && !Clean(w, s, e)
    ensures Reaches(w, Step(w, s, e), es, t) && !Fine(w, t)
  {
    es, t := [], Step(w, s, e);
    Stay(w, t);
    assert Places(s);
    hide Sound, Reaches, Fine, CleanSeek, CleanStart, Places;
    match e
    case SeekPull => es, t := SeekPullFails(w, s);
    case OpenWrite => es, t := OpenWriteFails(w, s);
    case StartWrite => es, t := StartWriteFails(w, s);
    case Write => LatePullFails(w, s, e);
    case Arrive => LatePullFails(w, s, e);
    case Take(k) => TakeFails(w, s, k);
    case Move => es, t := MoveFails(w, s);
    case SeekCursor => es, t := SeekCursorFails(w, s);
    case _ =>
  }

  /** The guard is exact: a step is clean if and only if the queue is as promised after every continuation. */
  lemma CleanIffAllStaysFine(w: nat -> bool, s: Q, e: Event)
    requires Sound(w, s) && Possible(s, e)
    ensures Clean(w, s, e) <==> forall es | Runs(w, Step(w, s, e), es) :: Fine(w, After(w, Step(w, s, e), es))
  {
    var u := Step(w, s, e);
    if Clean(w, s, e) {
      StepKeeps(w, s, e);
      hide Sound, Step, Possible, Clean, Fine, Runs, After;
      forall es | Runs(w, u, es) ensures Fine(w, After(w, u, es)) {
        RunKeeps(w, u, es);
        SoundIsFine(w, After(w, u, es));
      }
    } else {
      var es, t := DirtyFails(w, s, e);
      assert Runs(w, u, es) && !Fine(w, After(w, u, es));
    }
  }

  /** For a caller: while no answer is about to be written, a seek is clean exactly when no cached row and no row on its
      way lies at or past the target, and a poll under way writes no other cursor than the target. */
  lemma SeekIsCleanIff(w: nat -> bool, s: Q, target: nat)
    requires s.leaving.Steady? && s.view.held && s.seeking.Checked? && !s.pulling.Writing?
    ensures CleanSeek(w, s, target) <==>
              && (forall o | o in s.view.rows :: o < target) && Incoming(s) == []
              && (Pending(s).Some? ==> Pending(s).value == target)
  {
    LiveEmpty(w, GoneThen(s.(view := s.view.(pull := Some(target)))), target);
    PruneMembers(s.view.rows, target);
    if forall o | o in s.view.rows :: o < target {
      PruneEverything(s.view.rows, target);
    } else {
      var o :| o in s.view.rows && o >= target;
      PruneHas(s.view.rows, target, o);
    }
  }

  // ---- a queue that was given up ----

  /** Any steps at all, clean or not. */
  ghost predicate Moves(w: nat -> bool, s: Q, es: seq<Event>)
    decreases |es|
  {
    es == [] || (Possible(s, es[0]) && Moves(w, Step(w, s, es[0]), es[1..]))
  }

  ghost function Moved(w: nat -> bool, s: Q, es: seq<Event>): Q
    requires Moves(w, s, es)
    decreases |es|
  {
    if es == [] then s else Moved(w, Step(w, s, es[0]), es[1..])
  }

  predicate NothingLeft(s: Q) {
    s.view.pull.None? && s.view.consumed.None? && s.view.rows == []
  }

  /** Nobody is about to write a cursor or to add rows: the pull thread neither has the queue in its round nor an answer
      in its hands, no start offset has been looked up, no poll knows a cursor to write, and no seek has cursors left to
      write. */
  predicate Quiet(s: Q) {
    && s.starting.None? && (s.pulling.Resting? || s.pulling.Asked? || s.pulling == Carrying([]))
    && !(s.polling.Looked? && s.polling.cursor.Some?)
    && (s.seeking.NotSeeking? || s.seeking.CursorSet?)
  }

  predicate GivenUp(s: Q) {
    s.leaving.Steady? && !s.view.held && NothingLeft(s) && Quiet(s)
  }

  lemma GivenUpStays(w: nat -> bool, s: Q, e: Event)
    requires GivenUp(s) && Possible(s, e) && !e.Hold?
    ensures GivenUp(Step(w, s, e))
  {
    hide Live, MaxOf, Greatest, RemoveEachFromGroups, ChargeAll;
  }

  lemma {:induction false} GivenUpForGood(w: nat -> bool, s: Q, es: seq<Event>)
    requires GivenUp(s) && Moves(w, s, es) && Hold !in es
    ensures GivenUp(Moved(w, s, es))
    decreases |es|
  {
    hide GivenUp, Possible, Step;
    if es != [] {
      assert es[0] in es && forall e | e in es[1..] :: e in es;
      GivenUpStays(w, s, es[0]);
      GivenUpForGood(w, Step(w, s, es[0]), es[1..]);
    }
  }

  lemma OneStep(w: nat -> bool, s: Q, e: Event)
    requires Possible(s, e)
    ensures Moves(w, s, [e]) && Moved(w, s, [e]) == Step(w, s, e)
  {
    hide Possible, Step;
    assert [e][1..] == [];
  }

  lemma TwoSteps(w: nat -> bool, s: Q, e: Event, f: Event)
    requires Possible(s, e) && Possible(Step(w, s, e), f)
    ensures Moves(w, s, [e, f]) && Moved(w, s, [e, f]) == Step(w, Step(w, s, e), f)
  {
    hide Possible, Step;
    OneStep(w, Step(w, s, e), f);
    assert [e, f][1..] == [f];
  }

  /** Somebody who is about to write does write. */
  lemma LateWriter(w: nat -> bool, s: Q) returns (es: seq<Event>)
    requires s.leaving.Steady? && !s.view.held && NothingLeft(s)
    requires !Quiet(s)
    ensures Moves(w, s, es) && Hold !in es && !NothingLeft(Moved(w, s, es))
  {
    hide Moves, Moved, Live, MaxOf, Greatest, RemoveEachFromGroups, ChargeAll;
    if s.polling.Looked? && s.polling.cursor.Some? {
      OneStep(w, s, Move);
      es := [Move];
    } else if s.seeking.Checked? {
      OneStep(w, s, SeekPull);
      es := [SeekPull];
    } else if s.seeking.PullSet? {
      OneStep(w, s, SeekCursor);
      es := [SeekCursor];
    } else if s.pulling.Targeted? {
      var start := if s.broker.Some? && s.broker.value >= 0 then Start(s.broker.value, true) else Start(0, false);
      TwoSteps(w, s, Look(start), OpenWrite);
      es := [Look(start), OpenWrite];
    } else {
      var e := if s.starting.Some? then StartWrite
               else if s.pulling.Opening? then OpenWrite else if s.pulling.Writing? then Write else Arrive;
      OneStep(w, s, e);
      es := [e];
    }
  }

  /** A queue that was given up stays without cursors and rows, whatever the threads still do and until it is taken over
      again, if and only if nobody was about to write when it was given up. */
  lemma ReleaseIsFinalIff(w: nat -> bool, s: Q)
    requires Sound(w, s) && s.leaving.Steady? && !s.view.held
    ensures Quiet(s) <==> forall es | Moves(w, s, es) && Hold !in es :: NothingLeft(Moved(w, s, es))
  {
    assert NothingLeft(s);
    hide Sound, Moves, Moved;
    if Quiet(s) {
      forall es | Moves(w, s, es) && Hold !in es ensures NothingLeft(Moved(w, s, es)) { GivenUpForGood(w, s, es); }
    } else {
      var es := LateWriter(w, s);
    }
  }
}
