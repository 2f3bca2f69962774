/** What a queue of the lite-pull consumer comes to cache. The gate is asked under the buffer's lock at the top of a pull,
    refuses a held queue that caches more than the limit, and never refuses one that is not held. */
module LiteGate {
  import opened Messages
  import opened LiteQueueCache
  import LiteSpec
  import opened LiteSteps
  import opened LiteRuns
  import opened LiteFailures
  import LiteShared

  // ---- pulls through the gate ----

  /** A queue, and whether the gate has let the pull through that the pull thread is about to send. */
  datatype Gated = Gated(queue: Q, open: bool)

  /** The gate is asked, or any of the threads takes a step. */
  datatype Move = Ask | Act(e: Event)

  /** No request goes out before the gate has let it through, and an answer carries at most `batch` rows. */
  predicate Allowed(w: nat -> bool, g: Gated, m: Move, limit: nat, batch: nat) {
    match m
    case Ask => g.queue.pulling.Targeted? && (g.queue.view.held ==> |g.queue.view.rows| <= limit)
    case Act(e) =>
      && Possible(g.queue, e) && (e.Look? ==> g.open)
      && (e.Judge? && g.queue.pulling.Asked? && !e.illegal ==>
            |Live(w, g.queue.h.gone, g.queue.pulling.at, e.next)| <= batch)
  }

  function Moved(w: nat -> bool, g: Gated, m: Move): Gated
    requires m.Act? ==> Possible(g.queue, m.e)
  {
    match m
    case Ask => g.(open := true)
    case Act(e) => var q := Step(w, g.queue, e); Gated(q, g.open && q.pulling.Targeted?)
  }

  ghost predicate Goes(w: nat -> bool, g: Gated, ms: seq<Move>, limit: nat, batch: nat)
    decreases |ms|
  {
    ms == [] || (Allowed(w, g, ms[0], limit, batch) && Goes(w, Moved(w, g, ms[0]), ms[1..], limit, batch))
  }

  ghost function Final(w: nat -> bool, g: Gated, ms: seq<Move>, limit: nat, batch: nat): Gated
    requires Goes(w, g, ms, limit, batch)
    decreases |ms|
  {
    if ms == [] then g else Final(w, Moved(w, g, ms[0]), ms[1..], limit, batch)
  }

  /** The steps are clean. */
  ghost predicate Cleanly(w: nat -> bool, g: Gated, ms: seq<Move>, limit: nat, batch: nat)
    requires Goes(w, g, ms, limit, batch)
    decreases |ms|
  {
    ms == [] || (&& (ms[0].Act? ==> Clean(w, g.queue, ms[0].e))
                 && Cleanly(w, Moved(w, g, ms[0]), ms[1..], limit, batch))
  }

  function Start(broker: Option<nat>): Gated {
    Gated(Begin(broker), false)
  }

  /** What the queue caches. */
  function Cached(g: Gated): nat {
    |g.queue.view.rows|
  }

  /** A pull has been let through and its rows are not enqueued yet. */
  predicate Through(g: Gated) {
    g.open || !(g.queue.pulling.Resting? || g.queue.pulling.Targeted?)
  }

  /** What it caches, or will once the pull that was let through has brought all it may bring. */
  function Coming(g: Gated, batch: nat): nat {
    Cached(g) + if Through(g) then batch else 0
  }

  predicate Sane(g: Gated, batch: nat) {
    && |Incoming(g.queue)| <= batch && (g.open ==> g.queue.pulling.Targeted?)
    && (g.queue.leaving.Letting? ==>
          && (g.queue.leaving.who.Assignment? ==> g.queue.view.held)
          && (g.queue.leaving.who.Rebalance? ==> !g.queue.view.held && g.queue.pulling.Resting?))
  }

  lemma StaysSane(w: nat -> bool, g: Gated, m: Move, limit: nat, batch: nat)
    requires Sane(g, batch) && Allowed(w, g, m, limit, batch)
    ensures Sane(Moved(w, g, m), batch)
  {
    hide Live, MaxOf, Greatest, Prune, Dropped, RemoveEachFromGroups, ChargeAll, Undelivered;
  }

  /** Only the gate lets more in. */
  lemma OnlyAskingGrows(w: nat -> bool, g: Gated, e: Event, limit: nat, batch: nat)
    requires Sane(g, batch) && Allowed(w, g, Act(e), limit, batch)
    ensures Coming(Moved(w, g, Act(e)), batch) <= Coming(g, batch)
  {
    if g.queue.seeking.CursorSet? { PruneMembers(g.queue.view.rows, g.queue.seeking.target); }
    hide Live, MaxOf, Greatest, Prune, Dropped, RemoveEachFromGroups, ChargeAll, Undelivered;
  }

  // ---- the bound ----

  /** While a subscription ends, one pull more can come in than at other times; once an assignment has dropped the rows
      and still holds the queue, one less. */
  function Cap(q: Q, limit: nat, batch: nat): nat {
    match q.leaving
    case Steady => limit + 2 * batch
    case Letting(who, done) =>
      if who.Unsubscription? then limit + 3 * batch
      else if who.Assignment? && done >= 3 then limit + batch else limit + 2 * batch
  }

  /** Within the cap, and still when the gate lets one more pull of a queue through that is not held. */
  predicate Bounded(g: Gated, limit: nat, batch: nat) {
    && Sane(g, batch) && Coming(g, batch) <= Cap(g.queue, limit, batch)
    && (g.queue.pulling.Targeted? && !g.open && !g.queue.view.held ==>
          Cached(g) + batch <= Cap(g.queue, limit, batch))
  }

  lemma AskStaysBounded(w: nat -> bool, g: Gated, limit: nat, batch: nat)
    requires Bounded(g, limit, batch) && Allowed(w, g, Ask, limit, batch)
    ensures Bounded(Moved(w, g, Ask), limit, batch)
  {
  }

  /** The steps that give a queue up or take it over. */
  predicate Changes(e: Event) {
    e.Leave? || e.Drop? || e.Hold? || e.Crash?
  }

  lemma ChangeStaysBounded(w: nat -> bool, g: Gated, e: Event, limit: nat, batch: nat)
    requires Bounded(g, limit, batch) && Allowed(w, g, Act(e), limit, batch) && Changes(e)
    ensures Bounded(Moved(w, g, Act(e)), limit, batch)
  {
    StaysSane(w, g, Act(e), limit, batch);
    OnlyAskingGrows(w, g, e, limit, batch);
    hide Sane;
    assert Sane(g, batch) && (g.queue.leaving.Letting? && g.queue.leaving.who.Assignment? ==> g.queue.view.held) by {
      hide Bounded, Allowed;
    }
  }

  lemma OtherStepsStay(w: nat -> bool, s: Q, e: Event)
    requires Possible(s, e) && !Changes(e)
    ensures var t := Step(w, s, e);
            t.leaving == s.leaving && t.view.held == s.view.held && (e.Target? ==> s.view.held)
    ensures Step(w, s, e).pulling.Targeted? ==> e.Target? || s.pulling.Targeted?
  {
    hide Live, MaxOf, Greatest, Prune, Dropped, RemoveEachFromGroups, ChargeAll, Undelivered;
  }

  lemma StepStaysBounded(w: nat -> bool, g: Gated, e: Event, limit: nat, batch: nat)
    requires Bounded(g, limit, batch) && Allowed(w, g, Act(e), limit, batch)
    ensures Bounded(Moved(w, g, Act(e)), limit, batch)
  {
    if Changes(e) {
      ChangeStaysBounded(w, g, e, limit, batch);
    } else {
      StaysSane(w, g, Act(e), limit, batch);
      OnlyAskingGrows(w, g, e, limit, batch);
      OtherStepsStay(w, g.queue, e);
      hide Sane, Step, Possible;
    }
  }

  lemma {:induction false} RunStaysBounded(w: nat -> bool, g: Gated, ms: seq<Move>, limit: nat, batch: nat)
    requires Goes(w, g, ms, limit, batch) && Bounded(g, limit, batch)
    ensures Bounded(Final(w, g, ms, limit, batch), limit, batch)
    decreases |ms|
  {
    hide Live, Possible, Bounded, Step;
    if ms != [] {
      if ms[0].Ask? { AskStaysBounded(w, g, limit, batch); } else { StepStaysBounded(w, g, ms[0].e, limit, batch); }
      RunStaysBounded(w, Moved(w, g, ms[0]), ms[1..], limit, batch);
    }
  }

  /** In every run from the start, clean or not, a queue caches at most the limit and three answers, and unless its
      subscription is just ending at most the limit and two. */
  lemma CacheStaysBounded(w: nat -> bool, broker: Option<nat>, ms: seq<Move>, limit: nat, batch: nat)
    requires Goes(w, Start(broker), ms, limit, batch)
    ensures var g := Final(w, Start(broker), ms, limit, batch);
            && Cached(g) <= Coming(g, batch) <= limit + 3 * batch
            && (g.queue.leaving.Steady? ==> Coming(g, batch) <= limit + 2 * batch)
  {
    assert Bounded(Start(broker), limit, batch);
    RunStaysBounded(w, Start(broker), ms, limit, batch);
  }

  // ---- clean runs ----

  function CleanCap(q: Q, limit: nat, batch: nat): nat {
    if q.leaving.Letting? && q.leaving.who.Unsubscription? then limit + 2 * batch else limit + batch
  }

  predicate CleanBounded(g: Gated, limit: nat, batch: nat) {
    && Sane(g, batch) && Coming(g, batch) <= CleanCap(g.queue, limit, batch)
    && (g.queue.pulling.Targeted? && !g.open && !g.queue.view.held ==>
          Cached(g) + batch <= CleanCap(g.queue, limit, batch))
  }

  lemma ReleasedIsEmpty(w: nat -> bool, s: Q)
    requires Sound(w, s) && s.leaving.Steady? && !s.view.held
    ensures s.view.rows == []
  {
  }

  lemma CleanAskStays(w: nat -> bool, g: Gated, limit: nat, batch: nat)
    requires CleanBounded(g, limit, batch) && Allowed(w, g, Ask, limit, batch) && Sound(w, g.queue)
    ensures CleanBounded(Moved(w, g, Ask), limit, batch)
  {
    if g.queue.leaving.Steady? && !g.queue.view.held { ReleasedIsEmpty(w, g.queue); }
    hide Sound;
  }

  lemma CleanStepStays(w: nat -> bool, g: Gated, e: Event, limit: nat, batch: nat)
    requires CleanBounded(g, limit, batch) && Allowed(w, g, Act(e), limit, batch)
    requires Sound(w, Moved(w, g, Act(e)).queue)
    ensures CleanBounded(Moved(w, g, Act(e)), limit, batch)
  {
    StaysSane(w, g, Act(e), limit, batch);
    OnlyAskingGrows(w, g, e, limit, batch);
    var h := Moved(w, g, Act(e));
    if h.queue.leaving.Steady? && !h.queue.view.held { ReleasedIsEmpty(w, h.queue); }
    hide Sound, Live;
    if Changes(e) {
      CleanChangeStays(w, g, e, limit, batch);
    } else {
      OtherStepsStay(w, g.queue, e);
      hide Sane, Step, Possible;
    }
  }

  lemma CleanChangeStays(w: nat -> bool, g: Gated, e: Event, limit: nat, batch: nat)
    requires CleanBounded(g, limit, batch) && Allowed(w, g, Act(e), limit, batch) && Changes(e)
    requires var h := Moved(w, g, Act(e));
             && Sane(h, batch) && Coming(h, batch) <= Coming(g, batch)
             && (h.queue.leaving.Steady? && !h.queue.view.held ==> Cached(h) == 0)
    ensures CleanBounded(Moved(w, g, Act(e)), limit, batch)
  {
    hide Live;
  }

  lemma {:induction false} CleanRunStays(w: nat -> bool, g: Gated, ms: seq<Move>, limit: nat, batch: nat)
    requires Goes(w, g, ms, limit, batch) && Cleanly(w, g, ms, limit, batch)
    requires CleanBounded(g, limit, batch) && Sound(w, g.queue)
    ensures CleanBounded(Final(w, g, ms, limit, batch), limit, batch)
    decreases |ms|
  {
    hide CleanBounded, Sound, Step, Clean, Possible, Live;
    if ms != [] {
      if ms[0].Ask? {
        CleanAskStays(w, g, limit, batch);
      } else {
        StepKeeps(w, g.queue, ms[0].e);
        CleanStepStays(w, g, ms[0].e, limit, batch);
      }
      CleanRunStays(w, Moved(w, g, ms[0]), ms[1..], limit, batch);
    }
  }

  /** In every run of clean steps a queue caches at most the limit and one answer, or two while its subscription ends. */
  lemma CleanCacheStaysBounded(w: nat -> bool, broker: Option<nat>, ms: seq<Move>, limit: nat, batch: nat)
    requires Goes(w, Start(broker), ms, limit, batch) && Cleanly(w, Start(broker), ms, limit, batch)
    ensures var g := Final(w, Start(broker), ms, limit, batch);
            Cached(g) <= Coming(g, batch) <= CleanCap(g.queue, limit, batch)
  {
    BeginIsSound(w, broker);
    assert CleanBounded(Start(broker), limit, batch);
    CleanRunStays(w, Start(broker), ms, limit, batch);
  }

  // ---- exactly when a queue gets past the limit and one answer ----

  predicate NeverAsks(ms: seq<Move>) {
    forall i | 0 <= i < |ms| :: ms[i].Act?
  }

  lemma {:induction false} NothingMoreComes(w: nat -> bool, g: Gated, ms: seq<Move>, limit: nat, batch: nat)
    requires Goes(w, g, ms, limit, batch) && NeverAsks(ms) && Sane(g, batch)
    ensures Coming(Final(w, g, ms, limit, batch), batch) <= Coming(g, batch)
    decreases |ms|
  {
    hide Live, Sane, Step, Coming, Possible;
    if ms != [] {
      assert ms[0].Act?;
      StaysSane(w, g, ms[0], limit, batch);
      OnlyAskingGrows(w, g, ms[0].e, limit, batch);
      NothingMoreComes(w, Moved(w, g, ms[0]), ms[1..], limit, batch);
    }
  }

  /** The gate is never asked about a queue that caches more than the limit. */
  ghost predicate SeesAll(w: nat -> bool, g: Gated, ms: seq<Move>, limit: nat, batch: nat)
    requires Goes(w, g, ms, limit, batch)
    decreases |ms|
  {
    ms == [] || (&& (ms[0].Ask? ==> Cached(g) <= limit)
                 && SeesAll(w, Moved(w, g, ms[0]), ms[1..], limit, batch))
  }

  /** Such runs, clean or not, stay within the limit and one answer. */
  lemma {:induction false} SeeingAllKeepsTheLimit(w: nat -> bool, g: Gated, ms: seq<Move>, limit: nat, batch: nat)
    requires Goes(w, g, ms, limit, batch) && SeesAll(w, g, ms, limit, batch)
    requires Sane(g, batch) && Coming(g, batch) <= limit + batch
    ensures Coming(Final(w, g, ms, limit, batch), batch) <= limit + batch
    decreases |ms|
  {
    hide Sane, Step, Possible;
    if ms != [] {
      StaysSane(w, g, ms[0], limit, batch);
      if ms[0].Act? { OnlyAskingGrows(w, g, ms[0].e, limit, batch); }
      SeeingAllKeepsTheLimit(w, Moved(w, g, ms[0]), ms[1..], limit, batch);
    }
  }

  // ---- building runs ----

  ghost predicate Arrives(w: nat -> bool, g: Gated, ms: seq<Move>, h: Gated, limit: nat, batch: nat, clean: bool) {
    && Goes(w, g, ms, limit, batch) && Final(w, g, ms, limit, batch) == h
    && (clean ==> Cleanly(w, g, ms, limit, batch))
  }

  lemma {:induction false} OneMore(w: nat -> bool, g: Gated, ms: seq<Move>, m: Move, limit: nat, batch: nat)
    requires Goes(w, g, ms, limit, batch) && Allowed(w, Final(w, g, ms, limit, batch), m, limit, batch)
    ensures Goes(w, g, ms + [m], limit, batch)
    ensures Final(w, g, ms + [m], limit, batch) == Moved(w, Final(w, g, ms, limit, batch), m)
    ensures Cleanly(w, g, ms, limit, batch) && (m.Act? ==> Clean(w, Final(w, g, ms, limit, batch).queue, m.e)) ==>
              Cleanly(w, g, ms + [m], limit, batch)
    decreases |ms|
  {
    hide Step, Clean, Possible, Live;
    if ms == [] {
      assert [m][1..] == [];
      assert [] + [m] == [m];
    } else {
      OneMore(w, Moved(w, g, ms[0]), ms[1..], m, limit, batch);
      assert (ms + [m])[1..] == ms[1..] + [m];
    }
  }

  lemma Next(w: nat -> bool, g: Gated, ms: seq<Move>, h: Gated, m: Move, limit: nat, batch: nat, clean: bool)
    returns (ns: seq<Move>, i: Gated)
    requires Arrives(w, g, ms, h, limit, batch, clean) && Allowed(w, h, m, limit, batch)
    requires clean && m.Act? ==> Clean(w, h.queue, m.e)
    ensures Arrives(w, g, ns, i, limit, batch, clean) && i == Moved(w, h, m) && ns == ms + [m]
  {
    hide Live, Clean, Possible, Step;
    OneMore(w, g, ms, m, limit, batch);
    ns, i := ms + [m], Moved(w, h, m);
  }

  // ---- offsets that never end ----

  predicate MatchesAt(w: nat -> bool, lo: nat, o: nat) {
    o >= lo && w(o)
  }

  ghost predicate MatchesPast(w: nat -> bool, lo: nat) {
    exists o: nat :: MatchesAt(w, lo, o)
  }

  /** Matching messages keep coming. */
  ghost predicate Endless(w: nat -> bool) {
    forall lo: nat :: MatchesPast(w, lo)
  }

  lemma {:induction false} Past(gone: set<nat>) returns (m: nat)
    ensures forall o | o in gone :: o < m
    decreases gone
  {
    m := 0;
    if gone != {} {
      var o :| o in gone;
      m := Past(gone - {o});
      assert forall x | x in gone :: x == o || x in gone - {o};
      if m <= o { m := o + 1; }
    }
  }

  lemma {:induction false} ManyLive(w: nat -> bool, gone: set<nat>, lo: nat, n: nat) returns (hi: nat)
    requires Endless(w)
    ensures lo <= hi && n <= |Live(w, gone, lo, hi)|
  {
    hi := lo;
    if n > 0 {
      hi := ManyLive(w, gone, lo, n - 1);
      var m := Past(gone);
      var from := if hi < m then m else hi;
      assert MatchesPast(w, from);
      var o: nat :| MatchesAt(w, from, o);
      LiveSplit(w, gone, lo, hi, o);
      hi := o + 1;
    }
  }

  lemma {:induction false} FirstLive(w: nat -> bool, gone: set<nat>, lo: nat, hi: nat, n: nat) returns (k: nat)
    requires lo <= hi && n <= |Live(w, gone, lo, hi)|
    ensures lo <= k <= hi && |Live(w, gone, lo, k)| == n
    decreases hi
  {
    k := hi;
    if n < |Live(w, gone, lo, hi)| { k := FirstLive(w, gone, lo, hi - 1, n); }
  }

  /** From anywhere on, any number of messages is to be had. */
  lemma Exactly(w: nat -> bool, gone: set<nat>, lo: nat, n: nat) returns (hi: nat)
    requires Endless(w)
    ensures lo <= hi && |Live(w, gone, lo, hi)| == n
  {
    hide Live, Endless;
    var far := ManyLive(w, gone, lo, n);
    hi := FirstLive(w, gone, lo, far, n);
  }

  // ---- pulls ----

  /** What a pull leaves: `n` rows more. */
  predicate Pulled(g: Gated, n: nat, h: Gated) {
    && !h.open && h.queue.pulling.Resting? && h.queue.view.pull.Some? && Cached(h) == Cached(g) + n
    && h.queue == g.queue.(pulling := Resting, view := h.queue.view, h := h.queue.h)
    && h.queue.view.held == g.queue.view.held
    && (g.queue.h.on ==> h.queue.h.on)
  }

  /** A pull that was let through is sent. */
  lemma Sent(w: nat -> bool, g0: Gated, ms: seq<Move>, g: Gated, limit: nat, batch: nat, clean: bool)
    returns (ks: seq<Move>, h: Gated)
    requires Arrives(w, g0, ms, g, limit, batch, clean)
    requires g.open && g.queue.pulling.Targeted? && (clean ==> g.queue.view.pull.Some?)
    ensures Arrives(w, g0, ms + ks, h, limit, batch, clean) && NeverAsks(ks)
    ensures h.queue.pulling.Asked? && h.queue.view.pull == Some(h.queue.pulling.at) && !h.open
    ensures h.queue == g.queue.(pulling := h.queue.pulling, h := h.queue.h,
                                view := g.queue.view.(pull := h.queue.view.pull))
    ensures g.queue.h.on ==> h.queue.h.on
  {
    hide Arrives, Live;
    var s := g.queue;
    var known := s.broker.Some? && s.broker.value >= 0;
    var start := if known then LiteSteps.Start(s.broker.value, true) else LiteSteps.Start(0, false);
    var ns;
    ns, h := Next(w, g0, ms, g, Act(Look(start)), limit, batch, clean);
    ks := [Act(Look(start))];
    if h.queue.pulling.Opening? {
      ns, h := Next(w, g0, ns, h, Act(OpenWrite), limit, batch, clean);
      assert ns == ms + [Act(Look(start)), Act(OpenWrite)];
      ks := [Act(Look(start)), Act(OpenWrite)];
    }
  }

  /** Its answer brings `n` rows. */
  lemma BroughtIn(w: nat -> bool, g0: Gated, ms: seq<Move>, g: Gated, n: nat, limit: nat, batch: nat, clean: bool)
    returns (ks: seq<Move>, h: Gated)
    requires Arrives(w, g0, ms, g, limit, batch, clean) && Endless(w) && n <= batch && !g.open
    requires g.queue.pulling.Asked? && g.queue.view.pull == Some(g.queue.pulling.at)
    requires clean ==> PullStands(g.queue) && g.queue.h.on
    ensures Arrives(w, g0, ms + ks, h, limit, batch, clean) && NeverAsks(ks) && Pulled(g, n, h)
  {
    hide Arrives, Endless, Live;
    var next := Exactly(w, g.queue.h.gone, g.queue.pulling.at, n);
    var ns;
    ns, h := Next(w, g0, ms, g, Act(Judge(next, false)), limit, batch, clean);
    ns, h := Next(w, g0, ns, h, Act(Write), limit, batch, clean);
    ns, h := Next(w, g0, ns, h, Act(Arrive), limit, batch, clean);
    ks := [Act(Judge(next, false)), Act(Write), Act(Arrive)];
    assert ns == ms + ks;
  }

  lemma Fetched(w: nat -> bool, g0: Gated, ms: seq<Move>, g: Gated, n: nat, limit: nat, batch: nat, clean: bool)
    returns (ks: seq<Move>, h: Gated)
    requires Arrives(w, g0, ms, g, limit, batch, clean) && Endless(w) && n <= batch
    requires g.open && g.queue.pulling.Targeted?
    requires clean ==> PullStands(g.queue) && g.queue.view.pull.Some? && g.queue.h.on
    ensures Arrives(w, g0, ms + ks, h, limit, batch, clean) && NeverAsks(ks) && Pulled(g, n, h)
  {
    hide Arrives, Endless;
    var js, i := Sent(w, g0, ms, g, limit, batch, clean);
    ks, h := BroughtIn(w, g0, ms + js, i, n, limit, batch, clean);
    assert ms + js + ks == ms + (js + ks);
    ks := js + ks;
  }

  /** Asking can take a queue past the limit and one answer exactly when it caches more than the limit already; the
      gate lets that happen only to a queue that is not held. */
  lemma AskOverrunsIff(w: nat -> bool, g: Gated, limit: nat, batch: nat)
    requires Endless(w) && Sane(g, batch) && !g.open && Allowed(w, g, Ask, limit, batch)
    ensures (exists ms :: Overruns(w, Moved(w, g, Ask), ms, limit, batch)) <==> Cached(g) > limit
    ensures Cached(g) > limit ==> !g.queue.view.held
  {
    var h := Moved(w, g, Ask);
    hide Endless;
    if Cached(g) > limit {
      assert Arrives(w, h, [], h, limit, batch, false);
      var ms, i := Fetched(w, h, [], h, batch, limit, batch, false);
      assert [] + ms == ms;
      assert Overruns(w, h, ms, limit, batch);
    } else {
      forall ms ensures !Overruns(w, h, ms, limit, batch) {
        if Goes(w, h, ms, limit, batch) && NeverAsks(ms) { NothingMoreComes(w, h, ms, limit, batch); }
      }
    }
  }

  /** With no other pull let through, more than the limit and one answer come to be cached. */
  ghost predicate Overruns(w: nat -> bool, g: Gated, ms: seq<Move>, limit: nat, batch: nat) {
    Goes(w, g, ms, limit, batch) && NeverAsks(ms) && Cached(Final(w, g, ms, limit, batch)) > limit + batch
  }

  // ---- the bounds are reached ----

  /** The queue is targeted and the gate lets it through. */
  lemma LetThrough(w: nat -> bool, g0: Gated, ms: seq<Move>, g: Gated, limit: nat, batch: nat, clean: bool)
    returns (ns: seq<Move>, h: Gated)
    requires Arrives(w, g0, ms, g, limit, batch, clean) && !g.open
    requires (g.queue.pulling.Resting? && g.queue.view.held) || g.queue.pulling.Targeted?
    requires g.queue.view.held ==> Cached(g) <= limit
    ensures Arrives(w, g0, ns, h, limit, batch, clean) && h == Gated(g.queue.(pulling := Targeted), true)
  {
    hide Arrives;
    ns, h := ms, g;
    if h.queue.pulling.Resting? { ns, h := Next(w, g0, ns, h, Act(Target), limit, batch, clean); }
    ns, h := Next(w, g0, ns, h, Ask, limit, batch, clean);
  }

  lemma PullOnce(w: nat -> bool, g0: Gated, ms: seq<Move>, g: Gated, n: nat, limit: nat, batch: nat, clean: bool)
    returns (ns: seq<Move>, h: Gated)
    requires Arrives(w, g0, ms, g, limit, batch, clean) && Endless(w) && n <= batch && !g.open
    requires (g.queue.pulling.Resting? && g.queue.view.held) || g.queue.pulling.Targeted?
    requires g.queue.view.held ==> Cached(g) <= limit
    requires clean ==> PullStands(g.queue) && g.queue.view.pull.Some? && g.queue.h.on
    ensures Arrives(w, g0, ns, h, limit, batch, clean) && Pulled(g, n, h)
  {
    hide Arrives, Endless;
    ns, h := LetThrough(w, g0, ms, g, limit, batch, clean);
    var ks;
    ks, h := Fetched(w, g0, ns, h, n, limit, batch, clean);
    ns := ns + ks;
  }

  /** A held queue that keeps being pulled. */
  predicate Held(g: Gated) {
    !g.open && g.queue.pulling.Resting? && g.queue.view.held
  }

  /** Pull after pull, until `n` rows are cached. */
  lemma {:induction false} FillTo(w: nat -> bool, g0: Gated, ms: seq<Move>, g: Gated, n: nat, limit: nat, batch: nat,
                                  clean: bool)
    returns (ns: seq<Move>, h: Gated)
    requires Arrives(w, g0, ms, g, limit, batch, clean) && Endless(w) && Held(g) && 1 <= batch
    requires Cached(g) <= n <= limit
    requires clean ==> g.queue.leaving.Steady? && g.queue.view.pull.Some? && g.queue.h.on
    ensures Arrives(w, g0, ns, h, limit, batch, clean) && Cached(h) == n && Held(h)
    ensures h.queue.leaving == g.queue.leaving && h.queue.seeking == g.queue.seeking
    ensures h.queue.starting == g.queue.starting
    ensures clean ==> h.queue.view.pull.Some? && h.queue.h.on
    decreases n - Cached(g)
  {
    hide Arrives, Endless;
    ns, h := ms, g;
    if Cached(g) < n {
      var k := if n - Cached(g) < batch then n - Cached(g) else batch;
      ns, h := PullOnce(w, g0, ms, g, k, limit, batch, clean);
      ns, h := FillTo(w, g0, ns, h, n, limit, batch, clean);
    }
  }

  /** Past the limit, by a whole answer. */
  lemma FillUp(w: nat -> bool, g0: Gated, ms: seq<Move>, g: Gated, limit: nat, batch: nat, clean: bool)
    returns (ns: seq<Move>, h: Gated)
    requires Arrives(w, g0, ms, g, limit, batch, clean) && Endless(w) && Held(g) && 1 <= batch
    requires Cached(g) <= limit
    requires clean ==> g.queue.leaving.Steady? && g.queue.view.pull.Some? && g.queue.h.on
    ensures Arrives(w, g0, ns, h, limit, batch, clean) && Cached(h) == limit + batch && Held(h)
    ensures h.queue.leaving == g.queue.leaving && h.queue.starting == g.queue.starting
    ensures clean ==> h.queue.view.pull.Some? && h.queue.h.on
  {
    hide Arrives, Endless;
    ns, h := FillTo(w, g0, ms, g, limit, limit, batch, clean);
    ns, h := PullOnce(w, g0, ns, h, batch, limit, batch, clean);
  }

  /** A queue nobody works on. */
  predicate Untaken(g: Gated) {
    && !g.open && g.queue.view == NO_VIEW && g.queue.broker.None? && g.queue.pulling.Resting? && g.queue.leaving.Steady?
    && g.queue.starting.None? && g.queue.seeking.NotSeeking? && g.queue.polling.NotPolling?
  }

  lemma Resolved(w: nat -> bool, g0: Gated, ms: seq<Move>, g: Gated, limit: nat, batch: nat)
    returns (ns: seq<Move>, h: Gated)
    requires Arrives(w, g0, ms, g, limit, batch, true) && Untaken(g)
    ensures Arrives(w, g0, ns, h, limit, batch, true)
    ensures h == Gated(g.queue.(view := NO_VIEW.(held := true), starting := Some(LiteSteps.Start(0, false))), false)
  {
    hide Arrives;
    ns, h := Next(w, g0, ms, g, Act(Hold), limit, batch, true);
    ns, h := Next(w, g0, ns, h, Act(Resolve(LiteSteps.Start(0, false))), limit, batch, true);
  }

  lemma TakenOver(w: nat -> bool, limit: nat, batch: nat) returns (ms: seq<Move>, g: Gated)
    ensures Arrives(w, Start(None), ms, g, limit, batch, true) && Held(g) && Cached(g) == 0
    ensures g.queue.leaving.Steady? && g.queue.starting.None? && g.queue.view.pull.Some? && g.queue.h.on
  {
    var s := Start(None);
    assert Arrives(w, s, [], s, limit, batch, true) && Untaken(s);
    hide Arrives, Start, CleanStart;
    ms, g := Resolved(w, s, [], s, limit, batch);
    StartsClean(w, g.queue, 0);
    ms, g := Next(w, s, ms, g, Act(StartWrite), limit, batch, true);
  }

  /** A subscription ends between the targeting of a queue and the question to the gate: one answer more comes in. */
  lemma EndsUnasked(w: nat -> bool, g0: Gated, ms: seq<Move>, g: Gated, limit: nat, batch: nat, clean: bool)
    returns (ns: seq<Move>, h: Gated)
    requires Arrives(w, g0, ms, g, limit, batch, clean) && Endless(w) && Held(g)
    requires g.queue.leaving.Steady? && g.queue.starting.None?
    requires clean ==> g.queue.view.pull.Some? && g.queue.h.on
    ensures Arrives(w, g0, ns, h, limit, batch, clean) && Cached(h) == Cached(g) + batch
    ensures h.queue.leaving.Letting? && h.queue.leaving.who.Unsubscription?
  {
    hide Arrives, Endless;
    ns, h := Next(w, g0, ms, g, Act(Target), limit, batch, clean);
    ns, h := Next(w, g0, ns, h, Act(Leave(Unsubscription)), limit, batch, clean);
    ns, h := PullOnce(w, g0, ns, h, batch, limit, batch, clean);
  }

  /** A run of clean steps that caches the limit and two answers, for every limit and size of answers. */
  lemma CleanBoundIsReached(w: nat -> bool, limit: nat, batch: nat) returns (ms: seq<Move>, g: Gated)
    requires Endless(w) && 1 <= batch
    ensures Goes(w, Start(None), ms, limit, batch) && Cleanly(w, Start(None), ms, limit, batch)
    ensures Final(w, Start(None), ms, limit, batch) == g && Cached(g) == limit + 2 * batch
  {
    var s := Start(None);
    assert batch + batch == 2 * batch;
    ms, g := TakenOver(w, limit, batch);
    ms, g := FillUp(w, s, ms, g, limit, batch, true);
    ms, g := EndsUnasked(w, s, ms, g, limit, batch, true);
  }

  /** An assignment drops the rows, and the queue is pulled on until it lets it go. */
  lemma FilledWhileAssigned(w: nat -> bool, limit: nat, batch: nat) returns (ms: seq<Move>, g: Gated)
    requires Endless(w) && 1 <= batch
    ensures Arrives(w, Start(None), ms, g, limit, batch, false) && Held(g) && Cached(g) == limit + batch
    ensures g.queue.leaving == Letting(Assignment, 3) && g.queue.starting.None?
  {
    var s := Start(None);
    ms, g := TakenOver(w, limit, batch);
    assert Arrives(w, s, ms, g, limit, batch, false);
    hide Arrives, Endless;
    ms, g := Next(w, s, ms, g, Act(Leave(Assignment)), limit, batch, false);
    ms, g := Next(w, s, ms, g, Act(Drop(false)), limit, batch, false);
    ms, g := Next(w, s, ms, g, Act(Drop(false)), limit, batch, false);
    ms, g := FillUp(w, s, ms, g, limit, batch, false);
  }

  /** Targeted once more before it is let go, and not refused after; then it is assigned again. */
  lemma AssignedAgain(w: nat -> bool, limit: nat, batch: nat) returns (ms: seq<Move>, g: Gated)
    requires Endless(w) && 1 <= batch
    ensures Arrives(w, Start(None), ms, g, limit, batch, false) && Held(g) && Cached(g) == limit + batch + batch
    ensures g.queue.leaving.Steady? && g.queue.starting.None?
  {
    var s := Start(None);
    ms, g := FilledWhileAssigned(w, limit, batch);
    hide Arrives, Endless;
    ms, g := Next(w, s, ms, g, Act(Target), limit, batch, false);
    ms, g := Next(w, s, ms, g, Act(Drop(false)), limit, batch, false);
    ms, g := PullOnce(w, s, ms, g, batch, limit, batch, false);
    ms, g := Next(w, s, ms, g, Act(Hold), limit, batch, false);
  }

  /** A run that caches the limit and three answers, for every limit and size of answers. */
  lemma BoundIsReached(w: nat -> bool, limit: nat, batch: nat) returns (ms: seq<Move>, g: Gated)
    requires Endless(w) && 1 <= batch
    ensures Goes(w, Start(None), ms, limit, batch)
    ensures Final(w, Start(None), ms, limit, batch) == g && Cached(g) == limit + 3 * batch
  {
    assert batch + batch + batch == 3 * batch;
    ms, g := AssignedAgain(w, limit, batch);
    ms, g := EndsUnasked(w, Start(None), ms, g, limit, batch, false);
  }

  // ---- the gate of the whole consumer ----

  /** The consumer, and the queues whose next pull the gate has let through. */
  datatype Consumer = Consumer(world: LiteShared.World, open: set<MessageQueue>)

  datatype Deed = AskFor(q: MessageQueue) | Do(d: LiteShared.Deed)

  /** The count limit; a negative one refuses every held queue. */
  function Limit(limits: LiteSpec.Limits): nat {
    if limits.count < 0 then 0 else limits.count
  }

  /** The gate admits a queue by all four limits, and answers carry at most a batch. */
  ghost predicate Can(w: LiteShared.Matches, s: Consumer, d: Deed, limits: LiteSpec.Limits) {
    match d
    case AskFor(q) =>
      && q in s.world.locals && s.world.locals[q].pulling.Targeted?
      && LiteSpec.Due(s.world.lite, limits, q) == LiteSpec.Admitted
    case Do(d) =>
      && LiteShared.Can(s.world, d)
      && (d.On? && d.e.Look? ==> d.q in s.open)
      && (d.On? && d.e.Judge? && s.world.locals[d.q].pulling.Asked? && !d.e.illegal ==>
            var l := s.world.locals[d.q];
            |Live(w(d.q), l.h.gone, l.pulling.at, d.e.next)| <= limits.batch)
  }

  function Does(w: LiteShared.Matches, s: Consumer, d: Deed): Consumer
    requires d.Do? ==> LiteShared.Can(s.world, d.d)
  {
    match d
    case AskFor(q) => s.(open := s.open + {q})
    case Do(d) =>
      var t := LiteShared.Does(w, s.world, d);
      Consumer(t, set q | q in s.open && q in t.locals && t.locals[q].pulling.Targeted?)
  }

  ghost predicate Happens(w: LiteShared.Matches, s: Consumer, ds: seq<Deed>, limits: LiteSpec.Limits)
    decreases |ds|
  {
    ds == [] || (Can(w, s, ds[0], limits) && Happens(w, Does(w, s, ds[0]), ds[1..], limits))
  }

  ghost function Outcome(w: LiteShared.Matches, s: Consumer, ds: seq<Deed>, limits: LiteSpec.Limits): Consumer
    requires Happens(w, s, ds, limits)
    decreases |ds|
  {
    if ds == [] then s else Outcome(w, Does(w, s, ds[0]), ds[1..], limits)
  }

  /** The consumer, seen from one of its queues. */
  function View(s: Consumer, p: MessageQueue): Gated
    requires p in s.world.locals
  {
    Gated(LiteShared.Project(s.world, p), p in s.open)
  }

  /** The move of the queue that the deed is, if it is one. */
  function MoveFor(s: Consumer, d: Deed, p: MessageQueue): Option<Move>
    requires d.Do? ==> LiteShared.Can(s.world, d.d)
  {
    match d
    case AskFor(q) => if p == q then Some(Ask) else None
    case Do(d) => var e := LiteShared.EventFor(s.world, d, p); if e.Some? then Some(Act(e.value)) else None
  }

  lemma AdmittedFits(s: LiteSpec.Lite, limits: LiteSpec.Limits, q: MessageQueue)
    requires LiteSpec.Due(s, limits, q) == LiteSpec.Admitted
    ensures LiteShared.ViewOf(s, q).held ==> |LiteShared.ViewOf(s, q).rows| <= Limit(limits)
  {
  }

  lemma AskProjects(w: LiteShared.Matches, s: Consumer, q: MessageQueue, p: MessageQueue, limits: LiteSpec.Limits)
    requires Can(w, s, AskFor(q), limits) && p in s.world.locals
    ensures p == q ==> Allowed(w(p), View(s, p), Ask, Limit(limits), limits.batch)
    ensures View(Does(w, s, AskFor(q)), p) == if p == q then Moved(w(p), View(s, p), Ask) else View(s, p)
  {
    AdmittedFits(s.world.lite, limits, q);
    hide LiteShared.ViewOf, LiteSpec.Due;
  }

  /** Every deed is a move of each queue through the gate, or none. */
  lemma DeedProjects(w: LiteShared.Matches, s: Consumer, d: Deed, p: MessageQueue, limits: LiteSpec.Limits)
    requires Can(w, s, d, limits) && p in s.world.locals && (p in s.open ==> s.world.locals[p].pulling.Targeted?)
    ensures var t, m := Does(w, s, d), MoveFor(s, d, p);
            && p in t.world.locals && (p in t.open ==> t.world.locals[p].pulling.Targeted?)
            && (m.None? ==> View(t, p) == View(s, p))
            && (m.Some? ==> Allowed(w(p), View(s, p), m.value, Limit(limits), limits.batch)
                            && View(t, p) == Moved(w(p), View(s, p), m.value))
  {
    if d.AskFor? {
      AskProjects(w, s, d.q, p, limits);
    } else {
      LiteShared.DeedProjects(w, s.world, d.d, p);
      hide LiteShared.ViewOf, LiteShared.Does, Step, Possible, Live, LiteShared.Share;
    }
  }

  ghost function MovesFor(w: LiteShared.Matches, s: Consumer, ds: seq<Deed>, p: MessageQueue, limits: LiteSpec.Limits)
    : seq<Move>
    requires Happens(w, s, ds, limits)
    decreases |ds|
  {
    if ds == [] then []
    else
      var m := MoveFor(s, ds[0], p);
      (if m.Some? then [m.value] else []) + MovesFor(w, Does(w, s, ds[0]), ds[1..], p, limits)
  }

  /** Every run of the consumer through its gate is, for each queue, a run through the gate of one queue. */
  lemma {:induction false} RunProjects(w: LiteShared.Matches, s: Consumer, ds: seq<Deed>, p: MessageQueue,
                                       limits: LiteSpec.Limits)
    requires Happens(w, s, ds, limits) && p in s.world.locals
    requires p in s.open ==> s.world.locals[p].pulling.Targeted?
    ensures p in Outcome(w, s, ds, limits).world.locals
    ensures Goes(w(p), View(s, p), MovesFor(w, s, ds, p, limits), Limit(limits), limits.batch)
    ensures Final(w(p), View(s, p), MovesFor(w, s, ds, p, limits), Limit(limits), limits.batch)
            == View(Outcome(w, s, ds, limits), p)
    decreases |ds|
  {
    hide LiteShared.Can, LiteSpec.Due, Live, Does, View, Allowed, Moved, MoveFor;
    if ds != [] {
      DeedProjects(w, s, ds[0], p, limits);
      var t := Does(w, s, ds[0]);
      RunProjects(w, t, ds[1..], p, limits);
      var m, rest := MoveFor(s, ds[0], p), MovesFor(w, t, ds[1..], p, limits);
      if m.Some? { assert ([m.value] + rest)[1..] == rest; } else { assert [] + rest == rest; }
    }
  }

  /** Whatever the threads of the consumer do with any number of queues, no queue comes to cache more than the count limit
      and three batches. */
  lemma EveryCacheIsBounded(w: LiteShared.Matches, queues: set<MessageQueue>, broker: map<MessageQueue, nat>,
                            ds: seq<Deed>, p: MessageQueue, limits: LiteSpec.Limits)
    requires p in queues && Happens(w, Consumer(LiteShared.Unassigned(queues, broker), {}), ds, limits)
    ensures var t := Outcome(w, Consumer(LiteShared.Unassigned(queues, broker), {}), ds, limits);
            |RowsOf(p, t.world.lite.buffer)| <= Limit(limits) + 3 * limits.batch
  {
    var s := Consumer(LiteShared.Unassigned(queues, broker), {});
    assert View(s, p) == Start(LiteShared.Get(broker, p));
    RunProjects(w, s, ds, p, limits);
    var t := Outcome(w, s, ds, limits);
    assert Cached(View(t, p)) == |RowsOf(p, t.world.lite.buffer)|;
    hide Happens, Outcome, View;
    CacheStaysBounded(w(p), LiteShared.Get(broker, p), MovesFor(w, s, ds, p, limits), Limit(limits), limits.batch);
  }
}
