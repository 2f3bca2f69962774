/** What every run of one queue of the lite-pull consumer keeps, in every interleaving of its threads. */
module LiteRuns {
  import opened Messages
  import opened LiteQueueCache
  import opened LiteSteps

  // ---- the inductive invariant ----

  /** Entries exist only where the queue has a right to them, and a replay is on exactly while it has a pull cursor. */
  predicate Places(s: Q) {
    && (!PullStands(s) ==> s.view.pull.None?)
    && (!CursorStands(s) ==> s.view.consumed.None?)
    && (s.h.on ==> RowsStand(s)) && (!s.h.on ==> s.view.rows == [])
    && (PullStands(s) ==> (s.h.on <==> s.view.pull.Some?))
    && (s.leaving.Steady? && !s.h.on ==> s.view.consumed.None?)
    && (s.starting.Some? && !(s.leaving.Steady? && s.view.held) ==> s.pulling.Resting?)
    && (s.starting.Some? && s.leaving.Letting? ==> s.leaving.who.Unsubscription?)
    && (s.leaving.Letting? ==>
          && 1 <= s.leaving.done <= (if s.leaving.who.Rebalance? then 5 else 3)
          && s.view.held == s.leaving.who.Assignment?
          && (s.leaving.who.Rebalance? ==> s.pulling.Resting?))
  }

  /** Delivered, cached and on its way is exactly what lies between the start of the replay and the pull cursor. */
  ghost predicate Exact(w: nat -> bool, s: Q) {
    s.h.on ==>
      && Continues(w, s, s.h.origin, s.h.delivered + Staying(s), s.h.reach)
      && (s.view.pull.Some? && (!s.pulling.Writing? || s.pulling.lost) ==> s.view.pull.value == s.h.reach)
  }

  /** Where consumption of the replay stands. */
  function Expected(s: Q): nat {
    if s.h.delivered == [] then s.h.origin else s.h.delivered[|s.h.delivered| - 1] + 1
  }

  predicate CursorRight(s: Q) {
    s.view.consumed == Some(Expected(s)) || (s.view.consumed.None? && s.h.delivered == [])
  }

  predicate Cursors(s: Q) {
    && (s.leaving.Steady? && s.h.on && Pending(s).Some? ==> Pending(s).value == Expected(s))
    && (s.leaving.Steady? && s.h.on && !s.seeking.PullSet? && Pending(s).None? ==> CursorRight(s))
  }

  /** What will be gone once the pending write has landed on the pull cursor where it is. */
  function GoneSoon(s: Q): set<nat> {
    GoneThen(s.(view := s.view.(pull := Some(s.h.reach))))
  }

  /** Where a seek under way stands: what it is about to prune precedes the replay, and so does what it would prune of
      the rows to come, if any come. */
  ghost predicate SeekShape(w: nat -> bool, s: Q) {
    && (s.leaving.Steady? && s.h.on && s.seeking.PullSet? ==> s.seeking.target == s.h.origin)
    && (s.h.on && MidSeek(s) ==> Live(w, GoneSoon(s), s.h.origin, Reach(w, s)) == [])
    && (s.h.on && MidSeek(s) ==> forall o | o in s.view.rows && o < s.seeking.target :: o < s.h.origin)
  }

  /** How far below the target of a seek under way the rows of the replay can come to lie. */
  function Reach(w: nat -> bool, s: Q): nat {
    if MidSeek(s) then Reaching(w, s, s.h.origin, s.h.reach, s.seeking.target) else 0
  }

  /** Nothing was handed out but the replay's own offsets, from its start on and without a gap. */
  ghost predicate InOrder(w: nat -> bool, s: Q) {
    !s.h.stray && s.h.delivered == Live(w, s.h.gone, s.h.origin, Expected(s))
  }

  /** Below `x`, everything asked for that still exists has been delivered at some time or was jumped over on
      request. */
  ghost predicate Settled(w: nat -> bool, h: History, x: int) {
    forall o | h.base <= o < x && w(o) && o !in h.gone :: o in h.ever || o in h.skipped
  }

  function Value(x: Option<int>): set<int> {
    if x.Some? then {x.value} else {}
  }

  function Known(start: Option<Start>): set<int> {
    if start.Some? && start.value.known then {start.value.at} else {}
  }

  /** The offsets that are committed, or that somebody is about to commit or to start at. */
  function Promised(s: Q): set<int> {
    Value(s.view.consumed) + Value(s.view.slot) + Value(s.broker) + Value(s.reading) + Value(s.committing) + Value(Pending(s))
    + Value(if s.seeking.PullSet? then Some(s.seeking.target) else None)
    + Known(s.starting) + Known(if s.pulling.Opening? then Some(s.pulling.start) else None)
  }

  ghost predicate CoveredBy(w: nat -> bool, h: History, promised: set<int>) {
    && (forall o | o in h.delivered :: o in h.ever)
    && Settled(w, h, h.origin)
    && forall x | x in promised :: Settled(w, h, x)
  }

  ghost predicate Covered(w: nat -> bool, s: Q) {
    CoveredBy(w, s.h, Promised(s))
  }

  /** The cached rows ascend, and the pending rounds are those of the cached rows. */
  predicate InRounds(rows: seq<nat>, rounds: seq<nat>, groups: seq<seq<nat>>) {
    Flatten(groups) == rows && NoneEmpty(groups) && rounds == Lengths(groups) && Ascending(rows)
  }

  predicate Grouped(s: Q) {
    InRounds(s.view.rows, s.view.rounds, s.h.groups)
  }

  ghost predicate Sound(w: nat -> bool, s: Q) {
    && Places(s) && Exact(w, s) && Cursors(s) && SeekShape(w, s) && InOrder(w, s) && Covered(w, s) && Grouped(s)
  }

  lemma BeginIsSound(w: nat -> bool, broker: Option<nat>)
    ensures Sound(w, Begin(broker))
  {
  }

  // ---- facts the steps need ----

  /** A replay that is exact has delivered in order. */
  lemma PrefixIsInOrder(w: nat -> bool, h: History, rest: seq<nat>, hi: nat)
    requires h.origin <= hi && h.delivered + rest == Live(w, h.gone, h.origin, hi)
    ensures var end := if h.delivered == [] then h.origin else h.delivered[|h.delivered| - 1] + 1;
            h.origin <= end <= hi && h.delivered == Live(w, h.gone, h.origin, end)
  {
    var n := |h.delivered|;
    if n > 0 {
      LivePrefix(w, h.gone, h.origin, hi, n);
      assert (h.delivered + rest)[..n] == h.delivered && (h.delivered + rest)[n - 1] == h.delivered[n - 1];
    }
  }

  lemma AscendingParts(a: seq<nat>, b: seq<nat>)
    requires Ascending(a + b)
    ensures Ascending(a) && Ascending(b) && forall x, y | x in a && y in b :: x < y
  {
    forall i, j | 0 <= i < j < |a| ensures a[i] < a[j] {
      assert (a + b)[i] == a[i] && (a + b)[j] == a[j];
    }
    forall i, j | 0 <= i < j < |b| ensures b[i] < b[j] {
      assert (a + b)[|a| + i] == b[i] && (a + b)[|a| + j] == b[j];
    }
    forall x, y | x in a && y in b ensures x < y {
      var i :| 0 <= i < |a| && a[i] == x;
      var j :| 0 <= j < |b| && b[j] == y;
      assert (a + b)[i] == x && (a + b)[|a| + j] == y;
    }
  }

  lemma AscendingJoins(a: seq<nat>, b: seq<nat>)
    requires Ascending(a) && Ascending(b) && forall x, y | x in a && y in b :: x < y
    ensures Ascending(a + b)
  {
    forall i, j | 0 <= i < j < |a + b| ensures (a + b)[i] < (a + b)[j] {
      if i < |a| <= j { assert a[i] in a && b[j - |a|] in b; }
    }
  }

  lemma LastIsGreatest(s: seq<nat>)
    requires s != [] && Ascending(s)
    ensures MaxOf(s) == s[|s| - 1]
  {
    assert s[|s| - 1] in s;
    var i :| 0 <= i < |s| && s[i] == MaxOf(s);
  }

  /** Of ascending rows a seek drops a prefix. */
  lemma {:induction false} PruneCuts(s: seq<nat>, target: nat) returns (k: nat)
    requires Ascending(s)
    ensures k <= |s| && Dropped(s, target) == s[..k] && Prune(s, target) == s[k..]
    ensures (forall o | o in s[..k] :: o < target) && forall o | o in s[k..] :: o >= target
  {
    if s == [] {
      k := 0;
    } else if s[0] < target {
      k := PruneCuts(s[1..], target);
      assert s[..k + 1] == [s[0]] + s[1..][..k] && s[k + 1..] == s[1..][k..];
      k := k + 1;
    } else {
      k := 0;
      PruneNothing(s, target);
      PruneMembers(s, target);
      assert |Dropped(s, target)| == 0;
    }
  }

  lemma {:induction false} LiveFewer(w: nat -> bool, gone: set<nat>, more: set<nat>, lo: nat, hi: nat)
    requires Live(w, gone, lo, hi) == [] && gone <= more
    ensures Live(w, more, lo, hi) == []
  {
    if lo < hi { LiveFewer(w, gone, more, lo, hi - 1); }
  }

  lemma {:induction false} LiveShorter(w: nat -> bool, gone: set<nat>, lo: nat, a: nat, b: nat)
    requires Live(w, gone, lo, b) == [] && a <= b
    ensures Live(w, gone, lo, a) == []
    decreases b
  {
    if a < b { LiveShorter(w, gone, lo, a, b - 1); }
  }

  /** Moving the end of a stretch over offsets with nothing to deliver does not change it. */
  lemma LiveAcross(w: nat -> bool, gone: set<nat>, lo: nat, a: nat, b: nat)
    requires lo <= a && lo <= b && Dead(w, gone, a, b)
    ensures Live(w, gone, lo, a) == Live(w, gone, lo, b)
  {
    if a <= b { LiveSplit(w, gone, lo, a, b); } else { LiveSplit(w, gone, lo, b, a); }
  }

  /** Everything below the place where consumption stands is settled. */
  lemma ExpectedIsSettled(w: nat -> bool, s: Q)
    requires InOrder(w, s) && Settled(w, s.h, s.h.origin) && forall o | o in s.h.delivered :: o in s.h.ever
    ensures Settled(w, s.h, Expected(s))
  {
    LiveMembers(w, s.h.gone, s.h.origin, Expected(s));
  }

  /** Rows leave from the head: the rows by rounds and the counters follow. */
  lemma HeadsLeave(rows: seq<nat>, rounds: seq<nat>, groups: seq<seq<nat>>, k: nat)
    requires InRounds(rows, rounds, groups) && k <= |rows|
    ensures InRounds(rows[k..], ChargeAll(rounds, k, rows[k..] == []), RemoveEachFromGroups(groups, rows[..k]))
  {
    hide Flatten, Lengths, NoneEmpty, Ascending, RemoveEachFromGroups, RemoveEach, ChargeTimes;
    var out, left := rows[..k], rows[k..];
    GroupsFollowEach(groups, out);
    RemoveHeads(rows, k);
    HeadsAreChargedRight(groups, k);
    NothingGrouped(RemoveEachFromGroups(groups, out));
    assert rows == out + left;
    AscendingParts(out, left);
    NoRounds();
    if k == 0 { assert rows[..0] == [] && RemoveEachFromGroups(groups, []) == groups by { NothingRemoved(groups); } }
  }

  lemma NothingRemoved(groups: seq<seq<nat>>)
    ensures RemoveEachFromGroups(groups, []) == groups
  {
  }

  lemma NoRounds()
    ensures Lengths([]) == []
  {
  }

  // ---- frames ----

  /** Nothing the replay is made of has changed. */
  predicate SameReplay(s: Q, t: Q) {
    && t.h == s.h && t.view.rows == s.view.rows && t.view.rounds == s.view.rounds
    && t.view.pull == s.view.pull && t.seeking == s.seeking
    && (t.pulling == s.pulling || (Idle(s.pulling) && Idle(t.pulling)))
  }

  /** The pull thread has nothing in its hands. */
  predicate Idle(p: Pulling) {
    !p.Writing? && !p.Carrying?
  }

  lemma ReplayStays(w: nat -> bool, s: Q, t: Q)
    requires SameReplay(s, t) && Exact(w, s) && SeekShape(w, s) && InOrder(w, s) && Grouped(s)
    requires t.leaving == s.leaving && (s.h.on ==> Reach(w, t) <= Reach(w, s))
    ensures Exact(w, t) && SeekShape(w, t) && InOrder(w, t) && Grouped(t) && Expected(t) == Expected(s)
  {
    if s.h.on && MidSeek(s) { LiveShorter(w, GoneSoon(s), s.h.origin, Reach(w, t), Reach(w, s)); }
    hide Live, Prune, Flatten, Lengths, Ascending, NoneEmpty, Reaching;
    assert Staying(t) == Staying(s) && Incoming(t) == Incoming(s) && GoneSoon(t) == GoneSoon(s);
  }

  predicate Grows(h: History, k: History) {
    h.base <= k.base && h.ever <= k.ever && h.skipped <= k.skipped && h.gone <= k.gone
  }

  lemma SettledGrows(w: nat -> bool, h: History, k: History, x: int)
    requires Settled(w, h, x) && Grows(h, k)
    ensures Settled(w, k, x)
  {
  }

  lemma CoveredGrows(w: nat -> bool, h: History, k: History, promised: set<int>, more: set<int>, x: int)
    requires CoveredBy(w, h, promised) && Grows(h, k)
    requires k.delivered == h.delivered || forall o | o in k.delivered :: o in k.ever
    requires k.origin == h.origin || Settled(w, k, k.origin)
    requires more <= promised + {x} && (x in more ==> x in promised || Settled(w, k, x))
    ensures CoveredBy(w, k, more)
  {
    forall y | y in promised ensures Settled(w, k, y) { SettledGrows(w, h, k, y); }
    SettledGrows(w, h, k, h.origin);
    hide Settled;
  }

  /** A step that commits or promises nothing new, but `x`. */
  lemma PromisesStay(w: nat -> bool, s: Q, t: Q, x: int)
    requires Covered(w, s) && t.h == s.h && Promised(t) <= Promised(s) + {x}
    requires x in Promised(t) ==> x in Promised(s) || Settled(w, s.h, x)
    ensures Covered(w, t)
  {
    hide Settled, Promised;
  }

  // ---- what each step keeps ----

  /** An accepted answer extends the replay by what it found. */
  lemma JudgeContinues(w: nat -> bool, s: Q, next: nat, illegal: bool)
    requires s.pulling.Asked? && s.view.pull == Some(s.pulling.at) && s.h.reach == s.pulling.at
    requires Continues(w, s, s.h.origin, s.h.delivered + Staying(s), s.h.reach)
    requires illegal || next >= s.pulling.at
    requires next < s.pulling.at ==> s.h.delivered + Staying(s) == []
    ensures var t := OnJudge(w, s, next, illegal); Continues(w, t, t.h.origin, t.h.delivered + Staying(t), t.h.reach)
  {
    var t, at := OnJudge(w, s, next, illegal), s.pulling.at;
    var have := s.h.delivered + Staying(s);
    assert have + [] == have && Staying(t) == Staying(s);
    assert have == Live(w, s.h.gone, s.h.origin, at);
    hide Staying;
    if !illegal {
      LiveSplit(w, s.h.gone, s.h.origin, at, next);
    } else if next >= at {
      var more := s.h.gone + Between(at, next);
      LiveIgnoresLaterLoss(w, s.h.gone, Between(at, next), s.h.origin, at);
      LiveSplit(w, more, s.h.origin, at, next);
      LiveAllGone(w, more, at, next);
    }
  }

  lemma SparedStill(w: nat -> bool, s: Q, t: Q)
    requires Live(w, GoneSoon(s), s.h.origin, Reach(w, s)) == [] && t.h.origin == s.h.origin
    requires GoneSoon(s) <= GoneSoon(t) && Reach(w, t) <= Reach(w, s)
    ensures Live(w, GoneSoon(t), t.h.origin, Reach(w, t)) == []
  {
    hide Live, Reach, GoneThen;
    LiveShorter(w, GoneSoon(s), s.h.origin, Reach(w, t), Reach(w, s));
    LiveFewer(w, GoneSoon(s), GoneSoon(t), s.h.origin, Reach(w, t));
  }

  /** What the pull thread holds concerns only where it stands and what it will add. */
  lemma OnlyThePuller(w: nat -> bool, s: Q, next: Pulling)
    requires Cursors(s) && SeekShape(w, s) && InOrder(w, s) && Covered(w, s) && Grouped(s)
    requires !next.Opening? && GoneSoon(s) <= GoneSoon(s.(pulling := next))
    requires s.h.on ==> Reach(w, s.(pulling := next)) <= Reach(w, s)
    ensures var t := s.(pulling := next); Cursors(t) && SeekShape(w, t) && InOrder(w, t) && Covered(w, t) && Grouped(t)
  {
    var t := s.(pulling := next);
    if s.h.on && MidSeek(s) { SparedStill(w, s, t); }
    assert Promised(t) <= Promised(s);
    PromisesStay(w, s, t, 0);
    GroupedSame(s, t);
    hide Live, Prune, MaxOf, Greatest, Grouped, Covered, Promised, Reach;
  }

  /** An answer accepted as it is changes nothing but what the pull thread is about to write. */
  lemma JudgeForward(w: nat -> bool, s: Q, next: nat, illegal: bool)
    requires Sound(w, s) && s.pulling.Asked? && s.view.pull == Some(s.pulling.at) && next >= s.pulling.at
    ensures Sound(w, OnJudge(w, s, next, illegal))
  {
    var t := OnJudge(w, s, next, illegal);
    assert PullStands(s) && s.h.on && s.h.reach == s.pulling.at;
    JudgeContinues(w, s, next, illegal);
    OnlyThePuller(w, s, t.pulling);
    hide Live, Prune, MaxOf, Greatest, Continues, Covered, Grouped, Cursors, SeekShape, InOrder, Staying;
  }

  lemma GroupedSame(s: Q, t: Q)
    requires Grouped(s) && t.view.rows == s.view.rows && t.view.rounds == s.view.rounds && t.h.groups == s.h.groups
    ensures Grouped(t)
  {
    hide InRounds;
  }

  lemma JudgeBackward(w: nat -> bool, s: Q, next: nat)
    requires Sound(w, s) && s.pulling.Asked? && s.view.pull == Some(s.pulling.at) && next < s.pulling.at && Untouched(s)
    ensures Sound(w, OnJudge(w, s, next, true))
  {
    var t := OnJudge(w, s, next, true);
    assert PullStands(s) && s.h.on && s.h.reach == s.pulling.at && Staying(s) == [];
    JudgeContinues(w, s, next, true);
    LiveEmpty(w, s.h.gone, next);
    GroupedSame(s, t);
    assert Settled(w, t.h, next) by { assert Settled(w, s.h, s.h.origin); }
    assert Promised(t) == Promised(s);
    CoveredGrows(w, s.h, t.h, Promised(s), Promised(t), 0);
    hide Live, Prune, MaxOf, Greatest, Continues, CoveredBy, Grouped;
  }

  lemma JudgeKeeps(w: nat -> bool, s: Q, next: nat, illegal: bool)
    requires Sound(w, s) && Possible(s, Judge(next, illegal))
    ensures Sound(w, OnJudge(w, s, next, illegal))
  {
    if s.view.pull != Some(s.pulling.at) {
      PullerMovesOn(w, s, Resting);
    } else {
      hide Sound;
      if next >= s.pulling.at { JudgeForward(w, s, next, illegal); } else { JudgeBackward(w, s, next); }
    }
  }

  /** The pull thread moves on with nothing in its hands. */
  lemma PullerMovesOn(w: nat -> bool, s: Q, next: Pulling)
    requires Sound(w, s) && (s.leaving.Letting? && s.leaving.who.Rebalance? ==> next.Resting?)
    requires s.starting.Some? && !(s.leaving.Steady? && s.view.held) ==> next.Resting?
    requires Idle(s.pulling) && Idle(next)
    requires next.Opening? && next.start.known ==> Settled(w, s.h, next.start.at)
    requires s.h.on ==> Reach(w, s.(pulling := next)) <= Reach(w, s)
    ensures Sound(w, s.(pulling := next))
  {
    var t := s.(pulling := next);
    hide Exact, SeekShape, InOrder, Grouped, Covered, Settled, MaxOf, Greatest, Reach;
    ReplayStays(w, s, t);
    assert Pending(t) == Pending(s);
    hide Pending;
    PromisesStay(w, s, t, if next.Opening? then next.start.at else 0);
  }

  lemma LiveBackwards(w: nat -> bool, gone: set<nat>, lo: nat, hi: nat)
    ensures hi <= lo ==> Live(w, gone, lo, hi) == []
  {
  }

  lemma LiveEmpty(w: nat -> bool, gone: set<nat>, lo: nat)
    ensures Live(w, gone, lo, lo) == []
  {
  }

  lemma WriteOrder(w: nat -> bool, s: Q)
    requires s.pulling.Writing? && s.view.pull.Some? && s.h.on && !s.h.stray && Exact(w, s)
    ensures Exact(w, OnWrite(s)) && InOrder(w, OnWrite(s))
  {
    var t := OnWrite(s);
    var have, found := s.h.delivered + Staying(s), s.pulling.found;
    assert Staying(t) == Staying(s) && Expected(t) == Expected(s) && GoneSoon(s) == t.h.gone == GoneSoon(t);
    assert s.h.delivered + (Staying(s) + found) == have + found;
    hide Live, Staying;
    PrefixIsInOrder(w, t.h, Staying(s) + found, s.pulling.next);
  }

  lemma WriteShape(w: nat -> bool, s: Q)
    requires Places(s) && Cursors(s) && SeekShape(w, s) && s.pulling.Writing? && PullStands(s) && s.view.pull.Some?
    requires s.pulling.lost ==> s.view.pull.value == s.h.reach
    ensures var t := OnWrite(s); Places(t) && Cursors(t) && SeekShape(w, t)
  {
    var t := OnWrite(s);
    assert GoneSoon(s) == GoneSoon(t) && Reach(w, t) <= Reach(w, s) by { hide Dead; }
    if s.h.on && MidSeek(s) { SparedStill(w, s, t); }
    hide Live, MaxOf, Greatest, Reach;
    assert Pending(t) == Pending(s) && Expected(t) == Expected(s);
  }

  lemma WriteKeeps(w: nat -> bool, s: Q)
    requires Sound(w, s) && s.pulling.Writing? && PullStands(s) && s.view.pull.Some?
    ensures Sound(w, OnWrite(s))
  {
    hide Places, Exact, Cursors, SeekShape, InOrder, Grouped, Covered;
    WritingIsOn(w, s);
    WriteOrder(w, s);
    WriteShape(w, s);
    GroupedSame(s, OnWrite(s));
    WriteCovered(w, s);
  }

  lemma WritingIsOn(w: nat -> bool, s: Q)
    requires Places(s) && Exact(w, s) && InOrder(w, s) && s.pulling.Writing? && PullStands(s) && s.view.pull.Some?
    ensures s.h.on && !s.h.stray && (s.pulling.lost ==> s.view.pull.value == s.h.reach)
  {
    hide Live;
  }

  lemma WriteCovered(w: nat -> bool, s: Q)
    requires Covered(w, s) && s.pulling.Writing?
    ensures Covered(w, OnWrite(s))
  {
    var t := OnWrite(s);
    hide Settled, MaxOf, Greatest;
    assert Promised(t) == Promised(s);
    hide Promised;
    CoveredGrows(w, s.h, t.h, Promised(s), Promised(t), 0);
  }

  /** What a pull brings in the middle of a seek lies at or past the target. */
  lemma FoundPassesTheTarget(w: nat -> bool, s: Q)
    requires Exact(w, s) && SeekShape(w, s) && s.h.on && MidSeek(s) && s.pulling.Carrying?
    ensures forall o | o in s.pulling.found :: o >= s.seeking.target
  {
    LiveMembers(w, s.h.gone, s.h.origin, s.h.reach);
    NothingLive(w, s.h.gone, s.h.origin, Reach(w, s));
    var have := s.h.delivered + Staying(s);
    hide Live;
    forall o | o in s.pulling.found ensures o >= s.seeking.target {
      assert o in have + s.pulling.found;
    }
  }

  lemma ArrivedRows(w: nat -> bool, s: Q)
    requires Exact(w, s) && SeekShape(w, s) && Grouped(s) && s.h.on && s.pulling.Carrying?
    ensures var t := OnArrive(s);
            && Staying(t) == Staying(s) + s.pulling.found && Ascending(t.view.rows)
            && (MidSeek(s) ==> forall o | o in t.view.rows && o < s.seeking.target :: o in s.view.rows)
  {
    var rows, found := s.view.rows, s.pulling.found;
    LiveAscends(w, s.h.gone, s.h.origin, s.h.reach);
    hide Live;
    var have := s.h.delivered + Staying(s);
    assert Ascending(have + found);
    AscendingParts(have, found);
    if found == [] {
      assert rows + found == rows && Staying(s) + found == Staying(s);
    } else if MidSeek(s) {
      FoundPassesTheTarget(w, s);
      PruneConcat(rows, found, s.seeking.target);
      assert forall i | 0 <= i < |found| :: found[i] in found;
      PruneNothing(found, s.seeking.target);
      forall x, y | x in rows && y in found ensures x < y {
        if x >= s.seeking.target {
          PruneHas(rows, s.seeking.target, x);
          assert x in have;
        }
      }
      AscendingJoins(rows, found);
    } else {
      forall x, y | x in rows && y in found ensures x < y { assert x in have; }
      AscendingJoins(rows, found);
    }
  }

  lemma LiveAscends(w: nat -> bool, gone: set<nat>, lo: nat, hi: nat)
    ensures Ascending(Live(w, gone, lo, hi))
  {
    LiveMembers(w, gone, lo, hi);
  }

  lemma {:induction false} PruneHas(s: seq<nat>, target: nat, x: nat)
    requires x in s && x >= target
    ensures x in Prune(s, target)
  {
    if s[0] != x { PruneHas(s[1..], target, x); }
  }

  lemma ArriveExact(w: nat -> bool, s: Q)
    requires Exact(w, s) && SeekShape(w, s) && Grouped(s) && s.h.on && s.pulling.Carrying?
    ensures Exact(w, OnArrive(s)) && SeekShape(w, OnArrive(s))
  {
    var t, found := OnArrive(s), s.pulling.found;
    ArrivedRows(w, s);
    assert s.h.delivered + (Staying(s) + found) + [] == s.h.delivered + Staying(s) + found;
    hide Live, Staying, Grouped, Ascending, Prune;
    assert GoneSoon(t) == GoneSoon(s);
    hide GoneThen;
    assert Exact(w, t) by { hide SeekShape; }
    hide Exact;
    ArriveReach(w, s);
    hide Reach;
    if MidSeek(s) { LiveShorter(w, GoneSoon(s), s.h.origin, Reach(w, t), Reach(w, s)); }
  }

  lemma ArriveReach(w: nat -> bool, s: Q)
    requires s.pulling.Carrying?
    ensures Reach(w, OnArrive(s)) <= Reach(w, s)
  {
    hide Live, Dead;
  }

  lemma ArriveGrouped(s: Q)
    requires Grouped(s) && s.pulling.Carrying? && s.pulling.found != [] && Ascending(s.view.rows + s.pulling.found)
    ensures Grouped(OnArrive(s))
  {
    var found := s.pulling.found;
    FlattenConcat(s.h.groups, [found]);
    LengthsConcat(s.h.groups, [found]);
    assert Flatten([found]) == found && Lengths([found]) == [|found|];
    hide Flatten, Lengths, Ascending;
  }

  lemma ArriveKeeps(w: nat -> bool, s: Q)
    requires Sound(w, s) && s.pulling.Carrying? && (s.pulling.found == [] || s.h.on)
    ensures Sound(w, OnArrive(s))
  {
    var t, found := OnArrive(s), s.pulling.found;
    hide Places, Exact, Grouped, Covered, Cursors, SeekShape, InOrder, Ascending, Staying;
    ArrivePlaces(s);
    OnlyThePuller(w, s, Resting);
    if s.h.on {
      ArriveExact(w, s);
      ArrivedRows(w, s);
    } else {
      NoReplay(w, t);
      NoReplayNoSeek(w, t);
    }
    if found != [] {
      ArriveGrouped(s);
      ArriveRest(w, s.(pulling := Resting), t);
    }
  }

  lemma ArrivePlaces(s: Q)
    requires Places(s) && s.pulling.Carrying? && (s.pulling.found == [] || s.h.on)
    ensures Places(OnArrive(s))
  {
  }

  lemma NoReplayNoSeek(w: nat -> bool, s: Q)
    requires !s.h.on
    ensures SeekShape(w, s)
  {
  }

  lemma ArriveRest(w: nat -> bool, s: Q, t: Q)
    requires Cursors(s) && InOrder(w, s) && Covered(w, s)
    requires t == s.(view := s.view.(rows := t.view.rows, rounds := t.view.rounds), h := s.h.(groups := t.h.groups))
    ensures Cursors(t) && InOrder(w, t) && Covered(w, t)
  {
    assert Promised(t) == Promised(s);
    CoveredGrows(w, s.h, t.h, Promised(s), Promised(t), 0);
    hide Live, MaxOf, Greatest, CoveredBy, Promised;
  }

  lemma TakenRows(w: nat -> bool, s: Q, k: nat)
    requires k <= |s.view.rows|
    requires MidSeek(s) ==> forall o | o in s.view.rows[..k] :: o >= s.seeking.target
    ensures s.view.rows[..k] + Staying(OnTake(s, k)) == Staying(s)
  {
    var rows := s.view.rows;
    assert rows == rows[..k] + rows[k..];
    if MidSeek(s) {
      var out := rows[..k];
      assert forall i | 0 <= i < |out| :: out[i] in out;
      PruneConcat(out, rows[k..], s.seeking.target);
      PruneNothing(out, s.seeking.target);
    }
  }

  lemma Regroup(a: seq<nat>, b: seq<nat>, c: seq<nat>)
    ensures a + (b + c) == a + b + c
  {
  }

  lemma TakeExact(w: nat -> bool, s: Q, k: nat)
    requires Exact(w, s) && Grouped(s) && k <= |s.view.rows|
    requires MidSeek(s) ==> forall o | o in s.view.rows[..k] :: o >= s.seeking.target
    ensures Exact(w, OnTake(s, k))
  {
    hide Exact, Live, Staying, Grouped, RemoveEachFromGroups, ChargeAll, Prune;
    var t := OnTake(s, k);
    TakenRows(w, s, k);
    Regroup(s.h.delivered, s.view.rows[..k], Staying(t));
    TakenContinues(w, s, t);
  }

  lemma TakenContinues(w: nat -> bool, s: Q, t: Q)
    requires Exact(w, s) && t.pulling == s.pulling && t.view.pull == s.view.pull
    requires t.h.on == s.h.on && t.h.origin == s.h.origin && t.h.reach == s.h.reach && t.h.gone == s.h.gone
    requires t.h.delivered + Staying(t) == s.h.delivered + Staying(s)
    ensures Exact(w, t)
  {
    hide Live, Staying;
  }

  /** What was delivered lies below the pull cursor, where nothing is declared gone any more. */
  lemma ExactIsInOrder(w: nat -> bool, s: Q)
    requires Exact(w, s) && s.h.on
    ensures s.h.origin <= Expected(s) && s.h.delivered == Live(w, s.h.gone, s.h.origin, Expected(s))
  {
    var rest, hi := Staying(s) + Incoming(s), Landing(s, s.h.reach);
    Regroup(s.h.delivered, Staying(s), Incoming(s));
    assert s.h.delivered + rest == Live(w, GoneSoon(s), s.h.origin, hi) && s.h.origin <= hi;
    hide Staying, Live, Exact, Continues;
    PrefixIsInOrder(w, s.h.(gone := GoneSoon(s)), rest, hi);
    if GoneSoon(s) != s.h.gone && s.h.delivered != [] {
      LossLiesAhead(w, s, rest, hi);
    }
  }

  lemma LossLiesAhead(w: nat -> bool, s: Q, rest: seq<nat>, hi: nat)
    requires s.h.delivered != [] && s.h.delivered + rest == Live(w, GoneSoon(s), s.h.origin, hi)
    requires s.pulling.Writing? && s.pulling.next == hi
    ensures Live(w, GoneSoon(s), s.h.origin, Expected(s)) == Live(w, s.h.gone, s.h.origin, Expected(s))
  {
    var n := |s.h.delivered|;
    LiveMembers(w, GoneSoon(s), s.h.origin, hi);
    hide Live;
    assert (s.h.delivered + rest)[n - 1] == s.h.delivered[n - 1];
    assert s.h.delivered[n - 1] in Live(w, GoneSoon(s), s.h.origin, hi);
    if GoneSoon(s) != s.h.gone {
      LiveIgnoresLaterLoss(w, s.h.gone, Between(s.h.reach, hi), s.h.origin, Expected(s));
    }
  }

  lemma TakeCursor(s: Q, k: nat)
    requires Ascending(s.view.rows) && 0 < k <= |s.view.rows|
    ensures Pending(OnTake(s, k)) == Some(Expected(OnTake(s, k)))
  {
    var out := s.view.rows[..k];
    assert s.view.rows == out + s.view.rows[k..];
    AscendingParts(out, s.view.rows[k..]);
    LastIsGreatest(out);
    hide RemoveEachFromGroups, ChargeAll, Ascending, MaxOf, Greatest, Shrunk;
  }

  lemma TakeCovered(w: nat -> bool, s: Q, k: nat)
    requires Covered(w, s) && k <= |s.view.rows| && Ascending(s.view.rows) && InOrder(w, OnTake(s, k))
    ensures Covered(w, OnTake(s, k))
  {
    hide RemoveEachFromGroups, ChargeAll, Live, MaxOf, Greatest;
    var t := OnTake(s, k);
    assert forall o | o in t.h.delivered :: o in s.h.delivered || o in s.view.rows[..k];
    assert Settled(w, t.h, t.h.origin) by { SettledGrows(w, s.h, t.h, s.h.origin); }
    ExpectedIsSettled(w, t);
    if k > 0 { TakeCursor(s, k); }
    assert Promised(t) <= Promised(s) + {Expected(t) as int};
    hide Settled, Promised, Shrunk, InOrder, Expected;
    CoveredGrows(w, s.h, t.h, Promised(s), Promised(t), Expected(t));
  }

  lemma TakeShape(w: nat -> bool, s: Q, k: nat)
    requires Places(s) && Cursors(s) && SeekShape(w, s) && Ascending(s.view.rows)
    requires s.polling.NotPolling? && k <= |s.view.rows|
    ensures var t := OnTake(s, k); Places(t) && Cursors(t) && SeekShape(w, t)
  {
    hide RemoveEachFromGroups, ChargeAll, Ascending, Live, MaxOf, Greatest;
    var t := OnTake(s, k);
    if k > 0 {
      TakeCursor(s, k);
    } else {
      assert t.h.delivered == s.h.delivered;
    }
    assert forall o | o in t.view.rows :: o in s.view.rows;
  }

  lemma TakeKeeps(w: nat -> bool, s: Q, k: nat)
    requires Sound(w, s) && s.polling.NotPolling? && k <= |s.view.rows|
    requires MidSeek(s) ==> forall o | o in s.view.rows[..k] :: o >= s.seeking.target
    ensures Sound(w, OnTake(s, k))
  {
    var t := OnTake(s, k);
    TakeExact(w, s, k);
    if s.h.on {
      ExactIsInOrder(w, t);
    } else {
      assert k == 0 && t.h.delivered == s.h.delivered;
    }
    HeadsLeave(s.view.rows, s.view.rounds, s.h.groups, k);
    TakeShape(w, s, k);
    TakeCovered(w, s, k);
    hide Live, Exact, InRounds, CoveredBy, Cursors, SeekShape, Places, RemoveEachFromGroups, ChargeAll, Covered;
  }

  lemma LookUpKeeps(w: nat -> bool, s: Q)
    requires Sound(w, s) && s.polling.Taken?
    ensures Sound(w, OnLookUp(s))
  {
    var t := OnLookUp(s);
    ReplayStays(w, s, t);
    PromisesStay(w, s, t, 0);
    hide Exact, SeekShape, InOrder, Grouped, Covered, MaxOf, Greatest;
  }

  lemma MoveShape(w: nat -> bool, s: Q)
    requires Places(s) && Cursors(s) && Possible(s, Move) && Clean(w, s, Move)
    ensures Places(OnMove(s)) && Cursors(OnMove(s))
  {
    hide MaxOf, Greatest;
  }

  lemma MoveKeeps(w: nat -> bool, s: Q)
    requires Sound(w, s) && Possible(s, Move) && Clean(w, s, Move)
    ensures Sound(w, OnMove(s))
  {
    var t := OnMove(s);
    hide Places, Exact, Cursors, SeekShape, InOrder, Covered, Grouped, MaxOf, Greatest;
    ReplayStays(w, s, t);
    MoveShape(w, s);
    PromisesStay(w, s, t, 0);
  }

  lemma SeekPullCovered(w: nat -> bool, s: Q)
    requires Covered(w, s) && s.seeking.Checked?
    ensures Covered(w, OnSeekPull(w, s))
  {
    var t := OnSeekPull(w, s);
    hide MaxOf, Greatest;
    assert Promised(t) <= Promised(s) + {t.h.origin as int};
    assert Settled(w, t.h, t.h.origin);
    hide Settled, Promised, Undelivered;
    CoveredGrows(w, s.h, t.h, Promised(s), Promised(t), t.h.origin);
  }

  lemma SeekPullExact(w: nat -> bool, s: Q)
    requires s.seeking.Checked? && CleanSeek(w, s, s.seeking.target)
    ensures var t := OnSeekPull(w, s); Exact(w, t) && SeekShape(w, t)
  {
    var t := OnSeekPull(w, s);
    LiveBackwards(w, GoneSoon(t), t.h.origin, Reach(w, t));
    hide Live, Undelivered, LeavesCursors, Dead;
    assert [] + Prune(s.view.rows, s.seeking.target) == Prune(s.view.rows, s.seeking.target);
    assert Staying(t) == Prune(s.view.rows, s.seeking.target) && GoneSoon(t) == GoneThen(t);
    hide Prune;
  }

  lemma SeekPullShape(w: nat -> bool, s: Q)
    requires Places(s) && Cursors(s) && !s.h.stray && s.seeking.Checked? && CleanSeek(w, s, s.seeking.target)
    ensures var t := OnSeekPull(w, s); Places(t) && Cursors(t) && InOrder(w, t)
  {
    var t := OnSeekPull(w, s);
    LiveEmpty(w, s.h.gone, s.seeking.target);
    hide Live, Continues, Undelivered, MaxOf, Greatest, Prune;
    assert Pending(t) == Pending(s);
  }

  lemma SeekPullKeeps(w: nat -> bool, s: Q)
    requires Sound(w, s) && s.seeking.Checked? && CleanSeek(w, s, s.seeking.target)
    ensures Sound(w, OnSeekPull(w, s))
  {
    assert !s.h.stray;
    hide Places, Exact, Cursors, SeekShape, InOrder, Covered, Grouped, CleanSeek, Undelivered;
    SeekPullExact(w, s);
    SeekPullShape(w, s);
    SeekPullCovered(w, s);
    GroupedSame(s, OnSeekPull(w, s));
  }

  lemma SeekCursorShape(w: nat -> bool, s: Q)
    requires Places(s) && Cursors(s) && SeekShape(w, s) && s.seeking.PullSet? && Clean(w, s, SeekCursor)
    ensures var t := OnSeekCursor(s); Places(t) && Cursors(t) && SeekShape(w, t)
  {
    var t := OnSeekCursor(s);
    hide Live, MaxOf, Greatest, Dead;
    assert Pending(t) == Pending(s) && Expected(t) == Expected(s) && Reach(w, t) == Reach(w, s);
    hide Reach;
  }

  lemma SeekCursorKeeps(w: nat -> bool, s: Q)
    requires Sound(w, s) && s.seeking.PullSet? && Clean(w, s, SeekCursor)
    ensures Sound(w, OnSeekCursor(s))
  {
    var t := OnSeekCursor(s);
    assert InOrder(w, t) by { hide Live, Exact, Grouped, Covered; }
    hide Places, Exact, Cursors, SeekShape, InOrder, Covered, Grouped, Settled, Clean, MaxOf, Greatest;
    SeekCursorShape(w, s);
    GroupedSame(s, t);
    PromisesStay(w, s, t, s.seeking.target);
    assert Staying(t) == Staying(s);
    TakenContinues(w, s, t);
  }

  lemma PruneGrouped(s: Q)
    requires Grouped(s) && s.seeking.CursorSet?
    ensures Grouped(OnSeekPrune(s)) && forall o | o in OnSeekPrune(s).view.rows :: o in s.view.rows
  {
    var k := PruneCuts(s.view.rows, s.seeking.target);
    HeadsLeave(s.view.rows, s.view.rounds, s.h.groups, k);
    hide RemoveEachFromGroups, ChargeAll, Prune, Dropped, InRounds;
  }

  lemma SeekPruneShape(w: nat -> bool, s: Q)
    requires Places(s) && Cursors(s) && SeekShape(w, s) && InOrder(w, s) && s.seeking.CursorSet?
    requires s.view.rows == [] ==> OnSeekPrune(s).view.rows == []
    ensures var t := OnSeekPrune(s); Places(t) && Cursors(t) && SeekShape(w, t) && InOrder(w, t)
  {
    var t := OnSeekPrune(s);
    hide RemoveEachFromGroups, ChargeAll, Live, MaxOf, Greatest, Prune, Dropped;
    assert Pending(t) == Pending(s) && Expected(t) == Expected(s);
  }

  lemma SeekPruneCovered(w: nat -> bool, s: Q)
    requires Covered(w, s) && s.seeking.CursorSet?
    ensures Covered(w, OnSeekPrune(s))
  {
    var t := OnSeekPrune(s);
    hide RemoveEachFromGroups, ChargeAll, Prune, Dropped;
    assert Promised(t) == Promised(s);
    hide Promised, Settled;
    CoveredGrows(w, s.h, t.h, Promised(s), Promised(t), 0);
  }

  lemma SeekPruneKeeps(w: nat -> bool, s: Q)
    requires Sound(w, s) && s.seeking.CursorSet?
    ensures Sound(w, OnSeekPrune(s))
  {
    var t := OnSeekPrune(s);
    assert Staying(t) == Staying(s);
    hide Places, Exact, Cursors, SeekShape, InOrder, Covered, Grouped;
    hide RemoveEachFromGroups, ChargeAll, Prune, Dropped, Staying;
    PruneGrouped(s);
    assert s.view.rows == [] ==> t.view.rows == [] by {
      if t.view.rows != [] { assert t.view.rows[0] in s.view.rows; }
    }
    SeekPruneShape(w, s);
    SeekPruneCovered(w, s);
    TakenContinues(w, s, t);
  }

  // ---- first pull cursors ----

  lemma OpenedCovered(w: nat -> bool, s: Q, start: Start)
    requires Covered(w, s) && (start.known ==> Settled(w, s.h, start.at))
    ensures CoveredBy(w, Opened(s.h, start), Promised(s))
  {
    var h := Opened(s.h, start);
    assert Settled(w, h, h.origin) by {
      if start.known { SettledGrows(w, s.h, h, start.at); }
    }
    hide Settled, Promised;
    CoveredGrows(w, s.h, h, Promised(s), Promised(s), 0);
  }

  lemma FirstStartExact(w: nat -> bool, s: Q, start: Start)
    requires s.view.pull.None? && s.view.rows == [] && CleanStart(w, s, start.at)
    ensures Exact(w, OnStart(s, start))
  {
    var t := OnStart(s, start);
    hide Live, LeavesCursors;
    assert Staying(t) == [] && GoneSoon(t) == GoneThen(s.(view := s.view.(pull := Some(start.at))));
    assert t.h.delivered + Staying(t) == s.view.rows;
    hide Staying;
  }

  lemma FirstStartShape(w: nat -> bool, s: Q, start: Start)
    requires Places(s) && Cursors(s) && SeekShape(w, s) && !s.h.stray
    requires PullStands(s) && s.view.pull.None? && s.view.rows == [] && LeavesCursors(w, s, start.at)
    ensures var t := OnStart(s, start); Places(t) && Cursors(t) && SeekShape(w, t) && InOrder(w, t)
  {
    var t := OnStart(s, start);
    LiveEmpty(w, s.h.gone, start.at);
    hide Live, MaxOf, Greatest, Dead;
    assert Pending(t) == Pending(s) && GoneSoon(t) == GoneThen(s.(view := s.view.(pull := Some(start.at))));
    assert MidSeek(s) ==> Reach(w, t) == Reaching(w, s, start.at, start.at, s.seeking.target);
    hide Reach, Reaching, GoneThen;
  }

  lemma FirstStart(w: nat -> bool, s: Q, start: Start)
    requires Sound(w, s) && PullStands(s) && s.view.pull.None? && CleanStart(w, s, start.at)
    requires start.known ==> Settled(w, s.h, start.at)
    ensures Sound(w, OnStart(s, start))
  {
    var t := OnStart(s, start);
    assert s.view.rows == [] && !s.h.stray by { hide Live, Exact, Cursors, SeekShape, Covered, Grouped, CleanStart; }
    assert Promised(t) == Promised(s) by { hide Sound, CleanStart, MaxOf, Greatest; }
    assert LeavesCursors(w, s, start.at) by { hide Sound, Continues, LeavesCursors; }
    hide Exact, Places, Cursors, SeekShape, InOrder, Grouped, CoveredBy, Promised, CleanStart, Settled, LeavesCursors;
    FirstStartExact(w, s, start);
    FirstStartShape(w, s, start);
    OpenedCovered(w, s, start);
    GroupedSame(s, t);
  }

  lemma LaterStartExact(w: nat -> bool, s: Q, start: Start)
    requires Exact(w, s) && s.h.on && s.view.pull.Some? && CleanStart(w, s, start.at)
    ensures Exact(w, OnStart(s, start))
  {
    var t := OnStart(s, start);
    assert Staying(t) == Staying(s) && Incoming(t) == Incoming(s);
    if !s.pulling.Writing? {
      LiveAcross(w, s.h.gone, s.h.origin, start.at, s.h.reach);
      assert GoneSoon(t) == s.h.gone;
    } else {
      assert GoneSoon(t) == GoneThen(s.(view := s.view.(pull := Some(start.at))));
    }
    hide Live, Staying;
  }

  /** Nothing to deliver on either side of `b`: nothing across. */
  lemma DeadChain(w: nat -> bool, gone: set<nat>, a: nat, b: nat, c: nat)
    requires Dead(w, gone, a, b) && Dead(w, gone, b, c)
    ensures Dead(w, gone, a, c)
  {
    LiveMembers(w, gone, a, b);
    LiveMembers(w, gone, b, a);
    LiveMembers(w, gone, b, c);
    LiveMembers(w, gone, c, b);
    NothingLive(w, gone, a, c);
    NothingLive(w, gone, c, a);
    hide Live;
  }

  lemma NothingLive(w: nat -> bool, gone: set<nat>, lo: nat, hi: nat)
    ensures Live(w, gone, lo, hi) == [] <==> forall o | lo <= o < hi && w(o) :: o in gone
  {
    LiveMembers(w, gone, lo, hi);
    hide Live;
    if Live(w, gone, lo, hi) != [] { assert Live(w, gone, lo, hi)[0] in Live(w, gone, lo, hi); }
  }

  /** Two ways to lose offsets below `mid` that leave the same to deliver there leave the same further on. */
  lemma SameLoss(w: nat -> bool, a: set<nat>, b: set<nat>, lo: nat, mid: nat, hi: nat)
    requires Live(w, a, lo, mid) == Live(w, b, lo, mid) && Live(w, a, lo, hi) == []
    requires forall o | o >= mid :: o in a <==> o in b
    ensures Live(w, b, lo, hi) == []
  {
    LiveMembers(w, a, lo, mid);
    LiveMembers(w, b, lo, mid);
    NothingLive(w, a, lo, hi);
    NothingLive(w, b, lo, hi);
    hide Live;
    forall o | lo <= o < hi && w(o) ensures o in b {
      assert o < mid && o !in b ==> o in Live(w, b, lo, mid);
    }
  }

  /** What lies below `hi` in a replay pulled up to `a` also lies there when it is pulled up to `b`. */
  lemma SparedAcross(w: nat -> bool, gone: set<nat>, lo: nat, a: nat, b: nat, hi: nat)
    requires Dead(w, gone, b, a) && Live(w, gone, lo, if hi < a then hi else a) == []
    ensures Live(w, gone, lo, if hi < b then hi else b) == []
  {
    NothingLive(w, gone, lo, if hi < a then hi else a);
    NothingLive(w, gone, lo, if hi < b then hi else b);
    NothingLive(w, gone, a, b);
    hide Live;
  }

  lemma LaterStartSeek(w: nat -> bool, s: Q, start: Start)
    requires SeekShape(w, s) && Exact(w, s) && s.h.on && s.view.pull.Some? && CleanStart(w, s, start.at)
    requires s.view.held || s.pulling.Resting? || s.pulling.Opening?
    ensures SeekShape(w, OnStart(s, start))
  {
    var t := OnStart(s, start);
    assert GoneSoon(t) == GoneThen(s.(view := s.view.(pull := Some(start.at))));
    hide Live, Prune, Dead;
    if MidSeek(s) {
      var target := s.seeking.target;
      if s.pulling.Writing? {
        var have := s.h.delivered + Staying(s);
        assert have + Incoming(s) == Live(w, GoneSoon(s), s.h.origin, s.pulling.next);
        assert have + Incoming(s) == Live(w, GoneSoon(t), s.h.origin, s.pulling.next);
        SameLoss(w, GoneSoon(s), GoneSoon(t), s.h.origin, s.pulling.next, Reach(w, s));
      } else if Pulls(w, t, s.h.origin, start.at) {
        assert Pulls(w, s, s.h.origin, s.h.reach) by {
          if s.pulling.Opening? { DeadChain(w, s.h.gone, s.pulling.start.at, start.at, s.h.reach); }
        }
      } else if Pulls(w, s, s.h.origin, s.h.reach) {
        LiveShorter(w, s.h.gone, s.h.origin, Reach(w, t), target);
      } else {
        SparedAcross(w, s.h.gone, s.h.origin, s.h.reach, start.at, target);
      }
    }
  }

  lemma LaterStartShape(w: nat -> bool, s: Q, start: Start)
    requires Places(s) && Cursors(s) && InOrder(w, s) && PullStands(s) && s.view.pull.Some?
    ensures var t := OnStart(s, start); Places(t) && Cursors(t) && InOrder(w, t)
  {
    var t := OnStart(s, start);
    hide Live, MaxOf, Greatest;
    assert Pending(t) == Pending(s);
  }

  lemma LaterStart(w: nat -> bool, s: Q, start: Start)
    requires Sound(w, s) && PullStands(s) && s.view.pull.Some? && CleanStart(w, s, start.at)
    requires s.view.held || s.pulling.Resting? || s.pulling.Opening?
    ensures Sound(w, OnStart(s, start))
  {
    var t := OnStart(s, start);
    assert s.h.on;
    hide Exact, Places, Cursors, SeekShape, InOrder, Grouped, Covered, CleanStart;
    LaterStartExact(w, s, start);
    LaterStartSeek(w, s, start);
    LaterStartShape(w, s, start);
    LaterStartCovered(w, s, start);
    GroupedSame(s, t);
  }

  lemma LaterStartCovered(w: nat -> bool, s: Q, start: Start)
    requires Covered(w, s) && s.view.pull.Some?
    ensures Covered(w, OnStart(s, start))
  {
    var t := OnStart(s, start);
    hide Settled, MaxOf, Greatest;
    assert Promised(t) == Promised(s);
    hide Promised;
    CoveredGrows(w, s.h, t.h, Promised(s), Promised(t), 0);
  }

  lemma OpenWriteKeeps(w: nat -> bool, s: Q)
    requires Sound(w, s) && Possible(s, OpenWrite) && Clean(w, s, OpenWrite)
    ensures Sound(w, Step(w, s, OpenWrite))
  {
    var start := s.pulling.start;
    var t := s.(pulling := Asked(start.at));
    hide Sound, CleanStart, Settled, OnStart, Reach;
    OpeningPromise(w, s);
    OpeningStarts(w, s);
    if s.view.pull.None? {
      PullerMovesOn(w, s, Asked(start.at));
      FirstStart(w, t, start);
    } else {
      OpeningStartsClean(w, s);
      LaterStart(w, s, start);
      OpenedPulls(w, s);
      OpenedAlike(s);
      PullerMovesOn(w, OnStart(s, start), Asked(start.at));
    }
  }

  lemma OpeningStarts(w: nat -> bool, s: Q)
    requires Sound(w, s) && s.pulling.Opening? && PullStands(s)
    ensures s.leaving.Letting? ==> !s.leaving.who.Rebalance?
    ensures s.starting.Some? ==> s.leaving.Steady? && s.view.held
    ensures s.view.pull.None? ==> !s.h.on
  {
  }

  lemma OpenedAlike(s: Q)
    requires s.pulling.Opening?
    ensures var start := s.pulling.start;
      var t := OnStart(s, start);
      && t.(pulling := Asked(start.at)) == OnStart(s.(pulling := Asked(start.at)), start)
      && t.starting == s.starting && t.leaving == s.leaving && t.view.held == s.view.held && t.pulling == s.pulling
  {
  }

  lemma OpenedPulls(w: nat -> bool, s: Q)
    requires s.pulling.Opening? && s.view.pull.Some? && CleanStart(w, s, s.pulling.start.at)
    ensures var t := OnStart(s, s.pulling.start); Reach(w, t.(pulling := Asked(s.pulling.start.at))) <= Reach(w, t)
  {
    LiveEmpty(w, s.h.gone, s.pulling.start.at);
    hide Live;
  }

  lemma OpeningStartsClean(w: nat -> bool, s: Q)
    requires s.pulling.Opening? && s.view.pull.Some?
    ensures var at := s.pulling.start.at; CleanStart(w, s.(pulling := Asked(at)), at) ==> CleanStart(w, s, at)
  {
    hide Live;
  }

  lemma OpeningPromise(w: nat -> bool, s: Q)
    requires Sound(w, s) && s.pulling.Opening?
    ensures s.pulling.start.known ==> Settled(w, s.h, s.pulling.start.at)
  {
    assert s.pulling.start.known ==> s.pulling.start.at in Promised(s);
  }

  lemma StartingForgotten(w: nat -> bool, s: Q)
    requires Sound(w, s)
    ensures Sound(w, s.(starting := None))
  {
    var t := s.(starting := None);
    assert Promised(t) <= Promised(s) by { hide MaxOf, Greatest; }
    NotFurther(w, s, t);
    hide Places, Exact, Cursors, SeekShape, InOrder, Covered, Grouped, Settled, Promised, Reach;
    ReplayStays(w, s, t);
    PromisesStay(w, s, t, 0);
    SameShape(s, t);
  }

  lemma StartingPromise(w: nat -> bool, s: Q)
    requires Sound(w, s) && s.starting.Some?
    ensures s.view.held || s.pulling.Resting?
    ensures s.starting.value.known ==> Settled(w, s.h, s.starting.value.at)
  {
    assert s.starting.value.known ==> s.starting.value.at in Promised(s);
  }

  lemma StartIgnoresStarting(w: nat -> bool, s: Q, at: nat)
    ensures CleanStart(w, s.(starting := None), at) == CleanStart(w, s, at)
  {
    hide Live, Prune, MaxOf, Greatest;
    var t := s.(starting := None);
    assert Pending(t) == Pending(s) && Staying(t) == Staying(s);
  }

  lemma StartWriteKeeps(w: nat -> bool, s: Q)
    requires Sound(w, s) && Possible(s, StartWrite) && Clean(w, s, StartWrite)
    ensures Sound(w, Step(w, s, StartWrite))
  {
    hide Sound, Settled, CleanStart, OnStart;
    var start, t := s.starting.value, s.(starting := None);
    StartIgnoresStarting(w, s, start.at);
    StartingPromise(w, s);
    StartingForgotten(w, s);
    if s.view.pull.None? { FirstStart(w, t, start); } else { LaterStart(w, t, start); }
  }

  // ---- commits, giving up and taking over ----

  /** A step that writes only slots, commits or start offsets, of which `x` is the new one. */
  lemma OnlyPromises(w: nat -> bool, s: Q, t: Q, x: int)
    requires Sound(w, s)
    requires t == s.(view := s.view.(slot := t.view.slot), broker := t.broker, committing := t.committing,
                     reading := t.reading, starting := t.starting)
    requires t.starting.Some? ==> s.starting.Some? || (s.view.held && s.leaving.Steady?)
    requires Promised(t) <= Promised(s) + {x} && (x in Promised(t) ==> x in Promised(s) || Settled(w, s.h, x))
    ensures Sound(w, t)
  {
    NotFurther(w, s, t);
    hide Places, Exact, Cursors, SeekShape, InOrder, Covered, Grouped, Settled, Promised, Reach;
    ReplayStays(w, s, t);
    PromisesStay(w, s, t, x);
    SameShape(s, t);
  }

  lemma SameShape(s: Q, t: Q)
    requires Places(s) && Cursors(s) && t.h == s.h && t.leaving == s.leaving && t.pulling == s.pulling
    requires t.polling == s.polling && t.seeking == s.seeking
    requires t.view.held == s.view.held && t.view.pull == s.view.pull && t.view.consumed == s.view.consumed
    requires t.view.rows == s.view.rows
    requires t.starting.Some? ==> s.starting.Some? || (s.view.held && s.leaving.Steady?)
    ensures Places(t) && Cursors(t)
  {
    hide MaxOf, Greatest;
    assert Pending(t) == Pending(s) && Expected(t) == Expected(s);
  }

  lemma CommitAtKeeps(w: nat -> bool, s: Q, value: int, kept: bool)
    requires Sound(w, s)
    ensures Sound(w, OnCommitAt(w, s, value, kept))
  {
    hide Sound, MaxOf, Greatest;
    if kept {
      var below := if value < 0 then 0 else value;
      var u := s.(h := s.h.(skipped := s.h.skipped + Undelivered(w, s.h, below)));
      assert Settled(w, u.h, value);
      hide Settled, Undelivered;
      MoreSkipped(w, s, u);
      OnlyPromises(w, u, OnCommitAt(w, s, value, kept), value);
    }
  }

  lemma MoreSkipped(w: nat -> bool, s: Q, t: Q)
    requires Sound(w, s) && t == s.(h := s.h.(skipped := t.h.skipped)) && s.h.skipped <= t.h.skipped
    ensures Sound(w, t)
  {
    hide Places, Exact, Cursors, SeekShape, InOrder, Grouped, CoveredBy;
    assert Staying(t) == Staying(s) by { hide Prune; }
    DropPromises(s, t);
    hide Promised, Staying;
    CoveredGrows(w, s.h, t.h, Promised(s), Promised(t), 0);
    GroupedSame(s, t);
    TakenContinues(w, s, t);
    MoreSkippedShape(w, s, t);
  }

  lemma MoreSkippedShape(w: nat -> bool, s: Q, t: Q)
    requires Places(s) && Cursors(s) && SeekShape(w, s) && InOrder(w, s)
    requires t == s.(h := s.h.(skipped := t.h.skipped))
    ensures Places(t) && Cursors(t) && SeekShape(w, t) && InOrder(w, t)
  {
    hide Live, MaxOf, Greatest;
    assert Pending(t) == Pending(s) && Expected(t) == Expected(s);
  }

  lemma LeaveShape(s: Q, who: Who)
    requires Places(s) && Cursors(s) && Possible(s, Leave(who))
    ensures Places(OnLeave(s, who)) && Cursors(OnLeave(s, who))
  {
    hide MaxOf, Greatest;
    var t := OnLeave(s, who);
    assert Pending(t) == Pending(s) && Expected(t) == Expected(s);
  }

  /** The replay itself does not depend on who holds the queue. */
  lemma ReplayOnly(w: nat -> bool, s: Q, t: Q)
    requires SeekShape(w, s) && InOrder(w, s) && Grouped(s) && t.h == s.h
    requires t.seeking == s.seeking && t.pulling == s.pulling
    requires t.view.rows == s.view.rows && t.view.rounds == s.view.rounds && (t.view.held ==> s.view.held)
    requires t.leaving.Steady? ==> !s.h.on
    ensures SeekShape(w, t) && InOrder(w, t) && Grouped(t) && Staying(t) == Staying(s)
  {
    if s.h.on && MidSeek(s) {
      NotFurther(w, s, t);
      LiveShorter(w, GoneSoon(s), s.h.origin, Reach(w, t), Reach(w, s));
    }
    hide Live, InRounds, Prune, Reach;
    assert GoneSoon(t) == GoneSoon(s);
  }

  lemma NotFurther(w: nat -> bool, s: Q, t: Q)
    requires t.h == s.h && t.seeking == s.seeking && t.pulling == s.pulling && (t.view.held ==> s.view.held)
    ensures Reach(w, t) <= Reach(w, s)
  {
    hide Live, Dead;
  }

  lemma LeaveKeeps(w: nat -> bool, s: Q, who: Who)
    requires Sound(w, s) && Possible(s, Leave(who))
    ensures Sound(w, OnLeave(s, who))
  {
    hide Places, Exact, Cursors, SeekShape, InOrder, Covered, Grouped;
    var t := OnLeave(s, who);
    DropPromises(s, t);
    hide Promised;
    LeaveShape(s, who);
    ReplayOnly(w, s, t);
    PromisesStay(w, s, t, 0);
    if who.Assignment? { PullForgotten(w, s, t); } else { TakenContinues(w, s, t); }
  }

  lemma PullForgotten(w: nat -> bool, s: Q, t: Q)
    requires Exact(w, s) && t.view.pull.None? && t.pulling == s.pulling && t.h == s.h && Staying(t) == Staying(s)
    ensures Exact(w, t)
  {
    hide Live, Staying;
  }

  lemma RowsDroppedKeeps(w: nat -> bool, s: Q)
    requires Cursors(s) && SeekShape(w, s) && InOrder(w, s) && Covered(w, s)
    ensures var t := RowsDropped(s);
            Exact(w, t) && Cursors(t) && SeekShape(w, t) && InOrder(w, t) && Covered(w, t) && Grouped(t)
  {
    var t := RowsDropped(s);
    assert Promised(t) == Promised(s);
    CoveredGrows(w, s.h, t.h, Promised(s), Promised(t), 0);
    hide CoveredBy, Promised, Live, MaxOf, Greatest;
    assert Pending(t) == Pending(s) && Expected(t) == Expected(s);
  }

  /** The next entry to be given up are the rows. */
  predicate DropsRows(leaving: Leaving)
    requires leaving.Letting?
  {
    match leaving.who
    case Assignment => leaving.done == 2
    case Rebalance => leaving.done > 4
    case Unsubscription => leaving.done > 2
  }

  lemma DropPromises(s: Q, t: Q)
    requires t.polling == s.polling && t.starting == s.starting && t.pulling == s.pulling && t.reading == s.reading
    requires t.committing == s.committing && t.seeking == s.seeking
    requires t.view.consumed.None? || t.view.consumed == s.view.consumed
    requires t.view.slot.None? || t.view.slot == s.view.slot
    requires t.broker == s.broker || t.broker == s.view.slot
    ensures Promised(t) <= Promised(s)
  {
    hide MaxOf, Greatest;
    assert Pending(t) == Pending(s);
    hide Pending;
  }

  lemma DropRowsShape(s: Q, reached: bool)
    requires Places(s) && Cursors(s) && s.leaving.Letting?
    requires DropsRows(s.leaving)
    ensures Places(OnDrop(s, reached)) && Cursors(OnDrop(s, reached))
  {
    hide MaxOf, Greatest;
    var t := OnDrop(s, reached);
    assert Pending(t) == Pending(s) && Expected(t) == Expected(s);
  }

  lemma DropRows(w: nat -> bool, s: Q, reached: bool)
    requires Sound(w, s) && s.leaving.Letting?
    requires DropsRows(s.leaving)
    ensures Sound(w, OnDrop(s, reached))
  {
    hide Places, Exact, Cursors, SeekShape, InOrder, Covered, Grouped;
    var t, u := OnDrop(s, reached), RowsDropped(s);
    DropPromises(u, t);
    hide Promised;
    RowsDroppedKeeps(w, s);
    DropRowsShape(s, reached);
    ReplayOnly(w, u, t);
    PromisesStay(w, u, t, 0);
    NoReplay(w, t);
  }

  lemma DropEntriesShape(s: Q, reached: bool)
    requires Places(s) && Cursors(s) && s.leaving.Letting?
    requires !DropsRows(s.leaving)
    ensures Places(OnDrop(s, reached)) && Cursors(OnDrop(s, reached))
  {
    hide MaxOf, Greatest;
    var t := OnDrop(s, reached);
    assert Pending(t) == Pending(s) && Expected(t) == Expected(s);
  }

  lemma DropEntriesReplay(s: Q, reached: bool)
    requires Places(s) && s.leaving.Letting? && !DropsRows(s.leaving)
    ensures var t := OnDrop(s, reached);
            && t == s.(view := t.view, broker := t.broker, leaving := t.leaving)
            && t.view.rows == s.view.rows && t.view.rounds == s.view.rounds && (t.view.held ==> s.view.held)
            && (t.leaving.Steady? ==> !s.h.on) && (t.view.pull.None? || t.view.pull == s.view.pull)
            && (t.view.consumed.None? || t.view.consumed == s.view.consumed)
            && (t.view.slot.None? || t.view.slot == s.view.slot) && (t.broker == s.broker || t.broker == s.view.slot)
  {
  }

  lemma DropEntries(w: nat -> bool, s: Q, reached: bool)
    requires Sound(w, s) && s.leaving.Letting?
    requires !DropsRows(s.leaving)
    ensures Sound(w, OnDrop(s, reached))
  {
    DropEntriesShape(s, reached);
    DropEntriesReplay(s, reached);
    hide Places, Exact, Cursors, SeekShape, InOrder, Covered, Grouped;
    var t := OnDrop(s, reached);
    DropPromises(s, t);
    hide Promised, OnDrop;
    ReplayOnly(w, s, t);
    PromisesStay(w, s, t, 0);
    if t.view.pull == s.view.pull { TakenContinues(w, s, t); } else { PullForgotten(w, s, t); }
  }

  lemma HoldKeeps(w: nat -> bool, s: Q)
    requires Sound(w, s) && !s.view.held && s.leaving.Steady?
    ensures Sound(w, s.(view := s.view.(held := true)))
  {
    var t := s.(view := s.view.(held := true));
    assert !s.h.on;
    ReplayStays(w, s, t);
    PromisesStay(w, s, t, 0);
    hide Exact, SeekShape, InOrder, Grouped, Covered, MaxOf, Greatest;
    assert Pending(t) == Pending(s);
  }

  lemma CrashKeeps(w: nat -> bool, s: Q)
    requires Sound(w, s)
    ensures Sound(w, Step(w, s, Crash))
  {
    var t := Step(w, s, Crash);
    hide Places, Exact, Cursors, SeekShape, Grouped, InOrder, Covered;
    CrashInOrder(w, s);
    CrashCovered(w, s);
    NoReplay(w, t);
    CrashedShape(w, t);
  }

  lemma CrashInOrder(w: nat -> bool, s: Q)
    requires InOrder(w, s)
    ensures InOrder(w, Step(w, s, Crash))
  {
    hide Live;
  }

  lemma CrashCovered(w: nat -> bool, s: Q)
    requires Covered(w, s)
    ensures Covered(w, Step(w, s, Crash))
  {
    var t := Step(w, s, Crash);
    hide Settled, MaxOf, Greatest;
    assert Promised(t) <= Promised(s);
    hide Promised;
    CoveredGrows(w, s.h, t.h, Promised(s), Promised(t), 0);
  }

  lemma CrashedShape(w: nat -> bool, s: Q)
    requires s.view == NO_VIEW && s.leaving.Steady? && s.starting.None?
    requires s.polling.NotPolling? && s.seeking.NotSeeking?
    requires !s.h.on && s.h.groups == []
    ensures Places(s) && Cursors(s) && SeekShape(w, s) && Grouped(s)
  {
  }

  lemma NoReplay(w: nat -> bool, s: Q)
    requires !s.h.on
    ensures Exact(w, s)
  {
  }

  lemma ResolveKeeps(w: nat -> bool, s: Q, start: Start)
    requires Sound(w, s) && Possible(s, Resolve(start))
    ensures Sound(w, s.(starting := Some(start)))
  {
    var t := s.(starting := Some(start));
    assert start.known ==> start.at in Promised(s);
    assert Promised(t) <= Promised(s) + {start.at as int};
    assert !start.known ==> Promised(t) <= Promised(s);
    hide Sound, Settled, Promised;
    if start.known { OnlyPromises(w, s, t, start.at); } else { OnlyPromises(w, s, t, 0); }
  }

  lemma PromiseSteps(w: nat -> bool, s: Q, e: Event)
    requires Sound(w, s) && Possible(s, e)
    requires e.CommitRead? || e.CommitWrite? || e.Persist? || e.Sweep? || e.Query? || e.Fill?
    ensures Sound(w, Step(w, s, e))
  {
    PromisesOnlyMove(w, s, e);
    hide Sound, Promised, Settled, Step, Possible;
    OnlyPromises(w, s, Step(w, s, e), 0);
  }

  lemma PromisesOnlyMove(w: nat -> bool, s: Q, e: Event)
    requires Possible(s, e)
    requires e.CommitRead? || e.CommitWrite? || e.Persist? || e.Sweep? || e.Query? || e.Fill?
    ensures var t := Step(w, s, e);
            && Promised(t) <= Promised(s) && t.starting == s.starting && Settled(w, s.h, 0)
            && t == s.(view := s.view.(slot := t.view.slot), broker := t.broker, committing := t.committing,
                       reading := t.reading, starting := t.starting)
  {
    hide MaxOf, Greatest;
    var t := Step(w, s, e);
    assert Pending(t) == Pending(s);
    hide Pending;
  }

  lemma PullerSteps(w: nat -> bool, s: Q, e: Event)
    requires Sound(w, s) && Possible(s, e) && (e.Target? || e.Skip? || e.Look? || e.Fail?)
    ensures Sound(w, Step(w, s, e))
  {
    var t := Step(w, s, e);
    assert t == s.(pulling := t.pulling) && Idle(s.pulling) && Idle(t.pulling);
    assert t.pulling.Opening? && t.pulling.start.known ==> Settled(w, s.h, t.pulling.start.at) by {
      if t.pulling.Opening? && t.pulling.start.known { assert t.pulling.start.at in Promised(s); }
    }
    assert s.leaving.Letting? && s.leaving.who.Rebalance? ==> t.pulling.Resting?;
    hide Sound, Settled;
    PullerMovesOn(w, s, t.pulling);
  }

  lemma SeekBeginKeeps(w: nat -> bool, s: Q, target: nat)
    requires Sound(w, s) && s.seeking.NotSeeking?
    ensures Sound(w, s.(seeking := Checked(target)))
  {
    var t := s.(seeking := Checked(target));
    assert Promised(t) == Promised(s) && Staying(t) == Staying(s);
    GroupedSame(s, t);
    TakenContinues(w, s, t);
    hide CoveredBy, Promised, Grouped, Exact, Live, MaxOf, Greatest, Prune, Staying;
    assert Pending(t) == Pending(s) && Expected(t) == Expected(s);
  }

  /** Every clean step of every thread keeps the invariant. */
  lemma StepKeeps(w: nat -> bool, s: Q, e: Event)
    requires Sound(w, s) && Possible(s, e) && Clean(w, s, e)
    ensures Sound(w, Step(w, s, e))
  {
    hide Sound, CleanSeek, CleanStart;
    match e
    case OpenWrite => OpenWriteKeeps(w, s);
    case Judge(next, illegal) => JudgeKeeps(w, s, next, illegal);
    case Write => WriteKeeps(w, s);
    case Arrive => ArriveKeeps(w, s);
    case Take(k) => TakeKeeps(w, s, k);
    case LookUp => LookUpKeeps(w, s);
    case Move => MoveKeeps(w, s);
    case SeekBegin(target) => SeekBeginKeeps(w, s, target);
    case SeekPull => SeekPullKeeps(w, s);
    case SeekCursor => SeekCursorKeeps(w, s);
    case SeekPrune => SeekPruneKeeps(w, s);
    case CommitAt(value, kept) => CommitAtKeeps(w, s, value, kept);
    case Leave(who) => LeaveKeeps(w, s, who);
    case Drop(reached) => if DropsRows(s.leaving) { DropRows(w, s, reached); } else { DropEntries(w, s, reached); }
    case Hold => HoldKeeps(w, s);
    case Resolve(start) => ResolveKeeps(w, s, start);
    case StartWrite => StartWriteKeeps(w, s);
    case Crash => CrashKeeps(w, s);
    case Target => PullerSteps(w, s, e);
    case Skip => PullerSteps(w, s, e);
    case Look(_) => PullerSteps(w, s, e);
    case Fail => PullerSteps(w, s, e);
    case _ => PromiseSteps(w, s, e);
  }

  lemma {:induction false} RunKeeps(w: nat -> bool, s: Q, es: seq<Event>)
    requires Sound(w, s) && Runs(w, s, es)
    ensures Sound(w, After(w, s, es))
    decreases |es|
  {
    hide Sound, Step, Possible, Clean;
    if es != [] {
      StepKeeps(w, s, es[0]);
      RunKeeps(w, Step(w, s, es[0]), es[1..]);
    }
  }

  // ---- what holds of every run ----

  /** What the consumer promises about a queue at any moment. What it handed out is its replay, from the start on and
      without a gap. While no answer is being worked in, delivered and cached rows are exactly what lies between the
      start of the replay and the pull cursor. The consumed cursor of a queue that nobody is polling or seeking is one
      past the last row handed out. A queue without a replay caches nothing and has no consumed cursor, one that was given
      up has no cursor at all, and of one that is held nobody has entries left to drop because its subscription has
      ended. */
  ghost predicate Fine(w: nat -> bool, s: Q) {
    && InOrder(w, s)
    && (s.h.on && s.view.pull.Some? && Idle(s.pulling) ==>
          && s.h.origin <= s.view.pull.value
          && s.h.delivered + Staying(s) == Live(w, s.h.gone, s.h.origin, s.view.pull.value))
    && (!s.h.on ==> s.view.rows == [])
    && (s.leaving.Steady? && !s.h.on ==> s.view.consumed.None?)
    && (s.leaving.Steady? && s.h.on && s.view.held && s.polling.NotPolling? && !MidSeek(s) ==> CursorRight(s))
    && (s.leaving.Steady? && !s.view.held ==> s.view.pull.None? && s.view.consumed.None? && s.view.rows == [])
    && (s.view.held ==> s.leaving.Steady? || !s.leaving.who.Unsubscription?)
  }

  lemma SoundIsFine(w: nat -> bool, s: Q)
    requires Sound(w, s)
    ensures Fine(w, s)
  {
    hide Live, Grouped, Covered, MaxOf, Greatest, Prune;
    assert Incoming(s) == [] ==> s.h.delivered + Staying(s) + [] == s.h.delivered + Staying(s);
  }

  /** From a fresh start, after any run of clean steps of any thread, the queue is as promised; what was delivered, is
      cached or is on its way is without repetition; and no consumed cursor has passed the pull cursor. */
  lemma EveryRunDeliversExactlyOnce(w: nat -> bool, broker: Option<nat>, es: seq<Event>)
    requires Runs(w, Begin(broker), es)
    ensures var s := After(w, Begin(broker), es);
            && Fine(w, s)
            && (s.h.on ==> Ascending(s.h.delivered + Staying(s) + Incoming(s)))
            && (s.h.on ==> s.h.origin <= Expected(s) <= Landing(s, s.h.reach))
  {
    BeginIsSound(w, broker);
    RunKeeps(w, Begin(broker), es);
    var s := After(w, Begin(broker), es);
    SoundIsFine(w, s);
    if s.h.on { ExactAscends(w, s); }
  }

  lemma ExactAscends(w: nat -> bool, s: Q)
    requires Exact(w, s) && s.h.on
    ensures Ascending(s.h.delivered + Staying(s) + Incoming(s))
    ensures s.h.origin <= Expected(s) <= Landing(s, s.h.reach)
  {
    var rest, hi := Staying(s) + Incoming(s), Landing(s, s.h.reach);
    LiveAscends(w, GoneSoon(s), s.h.origin, hi);
    Regroup(s.h.delivered, Staying(s), Incoming(s));
    hide Live, Staying;
    PrefixIsInOrder(w, s.h.(gone := GoneSoon(s)), rest, hi);
  }

  /** Whatever happened before, a crash followed by a restart at the broker's offset skips nothing: every existing
      matching message below that offset has been delivered, or a seek or an explicit commit asked for it to be jumped
      over. */
  lemma CrashNeverSkips(w: nat -> bool, broker: Option<nat>, es: seq<Event>, b: nat)
    requires Runs(w, Begin(broker), es) && After(w, Begin(broker), es).broker == Some(b)
    ensures var s := After(w, Begin(broker), es);
            && (forall o | s.h.base <= o < b && w(o) && o !in s.h.gone :: o in s.h.ever || o in s.h.skipped)
            && Sound(w, Restarted(w, s, b))
            && Restarted(w, s, b).view == NO_VIEW.(held := true, pull := Some(b)) && Restarted(w, s, b).h.origin == b
  {
    BeginIsSound(w, broker);
    RunKeeps(w, Begin(broker), es);
    hide Runs, After, Restarted, Sound;
    RestartIsSound(w, After(w, Begin(broker), es), b);
  }

  lemma RestartIsSound(w: nat -> bool, s: Q, b: nat)
    requires Sound(w, s) && s.broker == Some(b)
    ensures Settled(w, s.h, b) && Sound(w, Restarted(w, s, b))
    ensures Restarted(w, s, b).view == NO_VIEW.(held := true, pull := Some(b)) && Restarted(w, s, b).h.origin == b
  {
    assert b as int in Promised(s);
    assert Settled(w, s.h, b);
    hide Sound, Settled, Promised;
    CrashKeeps(w, s);
    RestartFrom(w, Step(w, s, Crash), b);
  }

  lemma RestartFrom(w: nat -> bool, s: Q, b: nat)
    requires Sound(w, s) && s.view == NO_VIEW && s.leaving.Steady? && s.starting.None? && s.broker == Some(b)
    requires s.pulling.Resting? && s.polling.NotPolling? && s.seeking.NotSeeking?
    ensures Possible(s, Hold) && Possible(Step(w, s, Hold), Resolve(Start(b, true)))
    ensures Possible(Step(w, Step(w, s, Hold), Resolve(Start(b, true))), StartWrite)
    ensures var t := Step(w, Step(w, Step(w, s, Hold), Resolve(Start(b, true))), StartWrite);
            Sound(w, t) && t.view == NO_VIEW.(held := true, pull := Some(b)) && t.h.origin == b
  {
    hide Sound;
    HoldKeeps(w, s);
    var u := Step(w, s, Hold);
    ResolveKeeps(w, u, Start(b, true));
    var v := Step(w, u, Resolve(Start(b, true)));
    StartsClean(w, v, b);
    StartWriteKeeps(w, v);
  }

  lemma StartsClean(w: nat -> bool, s: Q, at: nat)
    requires s.pulling.Resting? && s.polling.NotPolling?
    requires s.seeking.NotSeeking? && s.view.pull.None? && s.view.rows == []
    ensures CleanStart(w, s, at)
  {
    LiveEmpty(w, s.h.gone, at);
    assert s.view.rows + [] == [];
  }

  /** The queue after a crash, taken over again at the broker's offset. */
  function Restarted(w: nat -> bool, s: Q, b: nat): Q
    requires s.broker == Some(b)
  {
    Step(w, Step(w, Step(w, Step(w, s, Crash), Hold), Resolve(Start(b, true))), StartWrite)
  }
}
