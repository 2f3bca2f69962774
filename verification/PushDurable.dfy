/** What the stored offset of a push queue promises across revokes, crashes and rebuilds. */
module PushDurable {
  import opened Messages
  import opened PushSpec
  import opened PushRuns

  /**
   * A client and the offset the broker stores for its group. The present buffer was started at `start`; `base` is where
   * consumption began, before any offset was stored; `late` are the offsets of revoked buffers, which are sent only
   * after the revoke, when the queue may have been rebuilt.
   */
  datatype Client = Client(push: Push, stored: Option<nat>, base: nat, start: nat, late: multiset<nat>)

  datatype Deed = Act(event: Event) | Persist | PersistLate(value: nat) | Crash

  /** A broker that leaves out no offset of the queue's log between the one it was asked for and the one it names
      next. */
  ghost predicate Faithful(log: iset<nat>, s: Push, e: Event) {
    match e
    case Found(rows, next) => forall o :: o in log && s.cursor <= o < next ==> Msg(o, s.epoch) in rows
    case NoMatch(next) => forall o :: o in log ==> !(s.cursor <= o < next)
    case Illegal(_) => false
    case _ => true
  }

  /** A rebuilt queue resumes at the stored offset; without one it starts wherever the start policy says. */
  ghost predicate Allowed(log: iset<nat>, c: Client, d: Deed) {
    match d
    case Act(e) =>
      && Enabled(c.push, e) && Apart(c.push, e) && Faithful(log, c.push, e)
      && (e.Rebuild? && c.stored.Some? ==> e.start == c.stored.value)
    case Persist => c.push.offset.Some?
    case PersistLate(value) => value in c.late
    case Crash => true
  }

  function Crashed(s: Push): Push {
    s.(owned := false, alive := false, pending := [], inflight := [], epoch := s.epoch + 1, offset := None,
       hand := Idle, sweep := Resting)
  }

  function Apply(c: Client, d: Deed): Client
    requires d.Act? ==> Enabled(c.push, d.event)
  {
    match d
    case Act(e) =>
      c.(push := After(c.push, e),
         start := if e.Rebuild? then e.start else c.start,
         base := if e.Rebuild? && c.stored.None? then Began(c, e.start) else c.base,
         late := if e.Retire? && c.push.offset.Some? then c.late + multiset{c.push.offset.value} else c.late)
    case Persist => c.(stored := c.push.offset)
    case PersistLate(value) => c.(stored := Some(value), late := c.late - multiset{value})
    case Crash => c.(push := Crashed(c.push), late := multiset{})
  }

  /** Consumption begins where the start policy says; while an offset is still on its way, not before where it began. */
  function Began(c: Client, start: nat): nat {
    if c.late == multiset{} || c.base <= start then start else c.base
  }

  ghost predicate Lives(log: iset<nat>, c: Client, ds: seq<Deed>)
    decreases |ds|
  {
    ds == [] || (Allowed(log, c, ds[0]) && Lives(log, Apply(c, ds[0]), ds[1..]))
  }

  ghost function Later(log: iset<nat>, c: Client, ds: seq<Deed>): Client
    requires Lives(log, c, ds)
    decreases |ds|
  {
    if ds == [] then c else Later(log, Apply(c, ds[0]), ds[1..])
  }

  /** Some buffer pulled the offset, and its message was acknowledged or sent back. */
  ghost predicate Done(s: Push, o: nat) {
    exists m :: m in s.pulled && m.offset == o && (m in s.acked || m in s.sent)
  }

  ghost predicate DoneBetween(log: iset<nat>, s: Push, from: nat, to: nat) {
    forall o :: o in log && from <= o < to ==> Done(s, o)
  }

  /** The present buffer has pulled everything from its start to its cursor. */
  ghost predicate NoGap(log: iset<nat>, c: Client) {
    c.push.owned ==>
      && c.start <= c.push.cursor
      && forall o :: o in log && c.start <= o < c.push.cursor ==> Msg(o, c.push.epoch) in c.push.pulled
  }

  ghost predicate Sane(s: Push) {
    Inv(s) && Mode(s) && !s.broadcast && !s.frozen
  }

  ghost predicate Kept(log: iset<nat>, c: Client) {
    && Sane(c.push) && NoGap(log, c)
    && (c.push.owned ==> DoneBetween(log, c.push, c.base, c.start))
    && (c.stored.Some? ==> DoneBetween(log, c.push, c.base, c.stored.value))
    && forall v | v in c.late :: DoneBetween(log, c.push, c.base, v)
  }

  /** Nothing is unpulled, unacknowledged or taken back from the broker. */
  predicate Remembers(s: Push, t: Push) {
    s.pulled <= t.pulled && s.acked <= t.acked && forall m :: m in s.sent ==> m in t.sent
  }

  lemma HistoryGrows(s: Push, e: Event)
    requires Enabled(s, e)
    ensures Remembers(s, After(s, e))
  {
    hide Head, NextOffset, MaxOffset, Others, Answer, Unlink, Attached, Members, BatchSize, Raise;
    match e
    case Found(_, _) =>
    case Return(_) =>
    case SendBack(_) =>
    case SweepSend(_) =>
    case _ => assert After(s, e).pulled == s.pulled && After(s, e).acked == s.acked && After(s, e).sent == s.sent;
  }

  lemma DoneStays(log: iset<nat>, s: Push, t: Push, from: nat, to: nat)
    requires DoneBetween(log, s, from, to) && Remembers(s, t)
    ensures DoneBetween(log, t, from, to)
  {
    forall o | o in log && from <= o < to ensures Done(t, o) {
      assert Done(s, o);
      var m :| m in s.pulled && m.offset == o && (m in s.acked || m in s.sent);
      assert m in t.acked || m in t.sent;
    }
  }

  /** Below the offset in memory everything the present buffer pulled is done. */
  lemma BelowTheOffsetIsDone(s: Push, o: nat)
    requires Sane(s) && s.offset.Some? && o < s.offset.value && Msg(o, s.epoch) in s.pulled
    ensures Done(s, o)
  {
    var m := Msg(o, s.epoch);
    assert m !in Live(s);
    hide Shape, Checked, Unsent, SentOnce, Buffered, InFlight;
  }

  lemma OffsetOfTheOwner(s: Push)
    requires Inv(s) && !s.frozen && s.offset.Some?
    ensures s.owned && s.offset.value <= s.cursor
  {
  }

  lemma OffsetIsDone(log: iset<nat>, c: Client)
    requires Kept(log, c) && c.push.offset.Some?
    ensures DoneBetween(log, c.push, c.base, c.push.offset.value)
  {
    OffsetOfTheOwner(c.push);
    hide Inv, Done;
    forall o | o in log && c.base <= o < c.push.offset.value ensures Done(c.push, o) {
      if c.start <= o {
        BelowTheOffsetIsDone(c.push, o);
      }
    }
  }

  lemma PersistKeeps(log: iset<nat>, c: Client)
    requires Kept(log, c) && c.push.offset.Some?
    ensures Kept(log, Apply(c, Persist))
  {
    OffsetIsDone(log, c);
    hide Sane, DoneBetween;
  }

  lemma PersistLateKeeps(log: iset<nat>, c: Client, value: nat)
    requires Kept(log, c) && value in c.late
    ensures Kept(log, Apply(c, PersistLate(value)))
  {
    hide Sane, DoneBetween;
    forall v | v in c.late - multiset{value} ensures v in c.late {}
  }

  lemma CrashKeeps(log: iset<nat>, c: Client)
    requires Kept(log, c)
    ensures Kept(log, Apply(c, Crash))
  {
    var s, t := c.push, Crashed(c.push);
    assert Inv(t);
    hide Inv;
    if c.stored.Some? { DoneStays(log, s, t, c.base, c.stored.value); }
  }

  lemma ActKeepsSane(s: Push, e: Event)
    requires Sane(s) && Enabled(s, e) && Apart(s, e) && !e.Illegal?
    ensures Sane(After(s, e))
  {
    hide Inv, Head, NextOffset, MaxOffset, Others, Answer, Unlink, Attached, Members, Apart, BatchSize, Raise;
    StepKeeps(s, e);
  }

  lemma ActKeepsNoGap(log: iset<nat>, c: Client, e: Event)
    requires NoGap(log, c) && Enabled(c.push, e) && Faithful(log, c.push, e)
    ensures NoGap(log, Apply(c, Act(e)))
  {
    hide Head, NextOffset, MaxOffset, Others, Unlink, Attached;
  }

  lemma ActKeeps(log: iset<nat>, c: Client, e: Event)
    requires Kept(log, c) && Allowed(log, c, Act(e))
    ensures Kept(log, Apply(c, Act(e)))
  {
    var s, d := c.push, Apply(c, Act(e));
    ActKeepsSane(s, e);
    ActKeepsNoGap(log, c, e);
    HistoryGrows(s, e);
    if c.stored.Some? { DoneStays(log, s, d.push, c.base, c.stored.value); }
    if s.owned { DoneStays(log, s, d.push, c.base, c.start); }
    if s.offset.Some? {
      OffsetIsDone(log, c);
      DoneStays(log, s, d.push, c.base, s.offset.value);
    }
    forall v | v in d.late ensures DoneBetween(log, d.push, c.base, v) {
      if v in c.late { DoneStays(log, s, d.push, c.base, v); }
    }
    assert d.push.owned ==> s.owned || e.Rebuild? by {
      hide Head, NextOffset, MaxOffset, Others, Unlink, Attached, Members, Answer;
    }
    hide Sane, NoGap, After, Faithful, Enabled, Apart, Done, Remembers;
  }

  lemma {:induction false} LifeKeeps(log: iset<nat>, c: Client, ds: seq<Deed>)
    requires Kept(log, c) && Lives(log, c, ds)
    ensures Kept(log, Later(log, c, ds))
    decreases |ds|
  {
    hide Kept, Apply;
    if ds != [] {
      match ds[0] {
        case Act(e) => ActKeeps(log, c, e);
        case Persist => PersistKeeps(log, c);
        case PersistLate(value) => PersistLateKeeps(log, c, value);
        case Crash => CrashKeeps(log, c);
      }
      LifeKeeps(log, Apply(c, ds[0]), ds[1..]);
    }
  }

  const START := Client(Fresh(false), None, 0, 0, multiset{})

  /**
   * Whatever revokes, crashes, rebuilds and stored offsets come between, those of revoked buffers as late as may be:
   * every offset of the log from where consumption began up to the stored one was pulled by some buffer and
   * acknowledged or sent back.
   */
  lemma NothingIsLost(log: iset<nat>, ds: seq<Deed>, o: nat)
    requires Lives(log, START, ds) && o in log
    requires var c := Later(log, START, ds); c.stored.Some? && c.base <= o < c.stored.value
    ensures Done(Later(log, START, ds).push, o)
  {
    FreshHolds(false);
    assert Kept(log, START);
    hide Done;
    LifeKeeps(log, START, ds);
  }

  // ---- exactly when a start policy loses nothing --------------------------------------------------

  /** The start policy is not asked again. */
  ghost predicate StartsNoMore(log: iset<nat>, c: Client, ds: seq<Deed>)
    requires Lives(log, c, ds)
    decreases |ds|
  {
    ds == [] || (&& !(ds[0].Act? && ds[0].event.Rebuild? && c.stored.None?)
                 && StartsNoMore(log, Apply(c, ds[0]), ds[1..]))
  }

  /** Whatever follows, until the start policy is asked again: all from `start` up to the stored offset is done. */
  ghost predicate LosesNothingFrom(log: iset<nat>, c: Client, start: nat) {
    forall ds | Lives(log, c, ds) && StartsNoMore(log, c, ds) :: StoredIsDone(log, Later(log, c, ds), start)
  }

  ghost predicate StoredIsDone(log: iset<nat>, c: Client, start: nat) {
    c.stored.Some? ==> DoneBetween(log, c.push, start, c.stored.value)
  }

  /** Where consumption began is only remembered. */
  lemma {:induction false} OnlyRemembered(log: iset<nat>, c: Client, ds: seq<Deed>, base: nat)
    requires Lives(log, c, ds) && StartsNoMore(log, c, ds)
    ensures Lives(log, c.(base := base), ds)
    ensures Later(log, c.(base := base), ds) == Later(log, c, ds).(base := base)
    decreases |ds|
  {
    if ds != [] {
      assert Apply(c.(base := base), ds[0]) == Apply(c, ds[0]).(base := base);
      hide Enabled, Apart, Faithful, After, Crashed;
      OnlyRemembered(log, Apply(c, ds[0]), ds[1..], base);
    }
  }

  lemma StartsKept(log: iset<nat>, c: Client, start: nat)
    requires Kept(log, c) && c.stored.None? && Allowed(log, c, Act(Rebuild(start)))
    requires forall v | v in c.late :: DoneBetween(log, c.push, start, v)
    ensures Kept(log, Apply(c, Act(Rebuild(start))).(base := start))
  {
    ActKeepsSane(c.push, Rebuild(start));
    var t := Apply(c, Act(Rebuild(start))).push;
    forall v | v in c.late ensures DoneBetween(log, t, start, v) { DoneStays(log, c.push, t, start, v); }
    hide Sane, Done;
  }

  /**
   * A queue is rebuilt while nothing is stored, so the start policy says where. From there on nothing is lost, whatever
   * happens until it is asked again, if and only if no offset still to be stored lies past a row that is not done.
   */
  lemma StartLosesNothingIff(log: iset<nat>, c: Client, start: nat)
    requires Kept(log, c) && c.stored.None? && Allowed(log, c, Act(Rebuild(start)))
    ensures LosesNothingFrom(log, Apply(c, Act(Rebuild(start))), start)
       <==> forall v | v in c.late :: DoneBetween(log, c.push, start, v)
  {
    var d := Apply(c, Act(Rebuild(start)));
    assert d.late == c.late && d.push.pulled == c.push.pulled && d.push.acked == c.push.acked;
    assert d.push.sent == c.push.sent;
    if forall v | v in c.late :: DoneBetween(log, c.push, start, v) {
      StartsKept(log, c, start);
      hide Kept, DoneBetween, Apply, Allowed;
      forall ds | Lives(log, d, ds) && StartsNoMore(log, d, ds) ensures StoredIsDone(log, Later(log, d, ds), start) {
        OnlyRemembered(log, d, ds, start);
        LifeKeeps(log, d.(base := start), ds);
        StoredIsKept(log, Later(log, d, ds).(base := start));
      }
    } else {
      var v: nat :| v in c.late && !DoneBetween(log, c.push, start, v);
      hide Kept;
      LateComesIn(log, d, v);
      assert !DoneBetween(log, d.push, start, v) by {
        if DoneBetween(log, d.push, start, v) { DoneStays(log, d.push, c.push, start, v); }
      }
    }
  }

  lemma StoredIsKept(log: iset<nat>, c: Client)
    requires Kept(log, c)
    ensures StoredIsDone(log, c, c.base)
  {
  }

  lemma LateComesIn(log: iset<nat>, c: Client, v: nat)
    requires v in c.late
    ensures Lives(log, c, [PersistLate(v)]) && StartsNoMore(log, c, [PersistLate(v)])
    ensures Later(log, c, [PersistLate(v)]).push == c.push && Later(log, c, [PersistLate(v)]).stored == Some(v)
  {
    assert [PersistLate(v)][1..] == [];
  }

  lemma {:induction false} OneMore(log: iset<nat>, c: Client, ds: seq<Deed>, d: Deed)
    requires Lives(log, c, ds) && Allowed(log, Later(log, c, ds), d)
    ensures Lives(log, c, ds + [d]) && Later(log, c, ds + [d]) == Apply(Later(log, c, ds), d)
    decreases |ds|
  {
    hide Enabled, Apart, Faithful, Apply;
    if ds == [] {
      assert [d][1..] == [];
    } else {
      OneMore(log, Apply(c, ds[0]), ds[1..], d);
      assert (ds + [d])[1..] == ds[1..] + [d];
    }
  }

  /**
   * Started at 5 and revoked with offset 6, a queue is rebuilt before that offset is stored, and the start policy now
   * says 3: once the offset arrives, a restart passes over row 3, which nobody has pulled.
   */
  lemma LateOffsetPassesTheRestart() returns (ds: seq<Deed>)
    ensures Lives(iset{3}, START, ds)
    ensures var c := Later(iset{3}, START, ds); c.start == 3 && c.stored == Some(6) && !Done(c.push, 3)
  {
    ds := [];
    var log := iset{3};
    var c := START;
    assert Later(log, START, []) == START;
    hide Lives, Later, Done;
    OneMore(log, START, ds, Act(Rebuild(5)));
    ds, c := ds + [Act(Rebuild(5))], Apply(c, Act(Rebuild(5)));
    OneMore(log, START, ds, Act(NoMatch(6)));
    ds, c := ds + [Act(NoMatch(6))], Apply(c, Act(NoMatch(6)));
    OneMore(log, START, ds, Act(Retire));
    ds, c := ds + [Act(Retire)], Apply(c, Act(Retire));
    OneMore(log, START, ds, Act(Rebuild(3)));
    ds, c := ds + [Act(Rebuild(3))], Apply(c, Act(Rebuild(3)));
    OneMore(log, START, ds, PersistLate(6));
    ds, c := ds + [PersistLate(6)], Apply(c, PersistLate(6));
    assert c == Later(log, START, ds) && c.push.pulled == {};
    NothingPulled(c.push, 3);
  }

  lemma NothingPulled(s: Push, o: nat)
    requires s.pulled == {}
    ensures !Done(s, o)
  {
  }
}
