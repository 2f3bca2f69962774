/**
 * The fair semaphore behind asynchronous back-pressure: a counter, a queue of tickets in arrival order, and
 * a condition every change of the head or the counter signals. A ticket is awake while its thread is about
 * to look at the head again.
 */
module FairSemaphore {
  datatype Ticket = Ticket(id: nat, permits: int, awake: bool)

  /** `lent`, `arrivals` and `grants` record history. */
  datatype Sem = Sem(total: int, free: int, queue: seq<Ticket>, lent: int, arrivals: seq<nat>, grants: seq<nat>)

  function Fresh(total: int): Sem {
    Sem(total, total, [], 0, [], [])
  }

  datatype Outcome = Granted | Refused | Waits

  function WakeAll(queue: seq<Ticket>): (r: seq<Ticket>)
    ensures |r| == |queue|
    ensures forall i :: 0 <= i < |r| ==> r[i] == queue[i].(awake := true)
  {
    seq(|queue|, i requires 0 <= i < |queue| => queue[i].(awake := true))
  }

  function Ids(queue: seq<Ticket>): (r: seq<nat>)
    ensures |r| == |queue|
    ensures forall i :: 0 <= i < |r| ==> r[i] == queue[i].id
  {
    seq(|queue|, i requires 0 <= i < |queue| => queue[i].id)
  }

  function Without<T>(s: seq<T>, k: nat): seq<T>
    requires k < |s|
  {
    s[..k] + s[k + 1..]
  }

  /** One pass of the acquire loop by the ticket at `k`; `late` says its budget is used up. */
  function OutcomeAt(s: Sem, k: nat, woken: bool, late: bool): Outcome
    requires k < |s.queue|
  {
    if woken && late then Refused
    else if k == 0 && s.free >= s.queue[0].permits then Granted
    else if late then Refused
    else Waits
  }

  function Pass(s: Sem, k: nat, woken: bool, late: bool): Sem
    requires k < |s.queue|
  {
    match OutcomeAt(s, k, woken, late)
    case Refused => s.(queue := WakeAll(Without(s.queue, k)))
    case Granted =>
      var t := s.queue[0];
      s.(queue := WakeAll(s.queue[1..]), free := s.free - t.permits, lent := s.lent + t.permits,
         grants := s.grants + [t.id])
    case Waits => s.(queue := s.queue[k := s.queue[k].(awake := false)])
  }

  function Joined(s: Sem, id: nat, permits: int): Sem {
    s.(queue := s.queue + [Ticket(id, permits, true)], arrivals := s.arrivals + [id])
  }

  /** A call of try_acquire up to its first wait: take a ticket and look once, even on an empty budget. */
  function Arrive(s: Sem, id: nat, permits: int, late: bool): Sem {
    Pass(Joined(s, id, permits), |s.queue|, false, late)
  }

  function Release(s: Sem, permits: int): Sem {
    if permits <= 0 then s
    else s.(free := s.free + permits, lent := s.lent - permits, queue := WakeAll(s.queue))
  }

  function Resize(s: Sem, total: int): Sem {
    s.(free := s.free + total - s.total, total := total, queue := WakeAll(s.queue))
  }

  datatype Event =
    | Join(id: nat, permits: int, late: bool)
    | Look(k: nat, late: bool)
    | GiveBack(permits: int)
    | SetTotal(total: int)

  predicate Enabled(s: Sem, e: Event) {
    e.Look? ==> e.k < |s.queue|
  }

  function After(s: Sem, e: Event): Sem
    requires Enabled(s, e)
  {
    match e
    case Join(id, permits, late) => Arrive(s, id, permits, late)
    case Look(k, late) => Pass(s, k, true, late)
    case GiveBack(permits) => Release(s, permits)
    case SetTotal(total) => Resize(s, total)
  }

  predicate Runs(s: Sem, es: seq<Event>)
    decreases |es|
  {
    es == [] || (Enabled(s, es[0]) && Runs(After(s, es[0]), es[1..]))
  }

  function End(s: Sem, es: seq<Event>): Sem
    requires Runs(s, es)
    decreases |es|
  {
    if es == [] then s else End(After(s, es[0]), es[1..])
  }

  // ---- what every run keeps -----------------------------------------------------------------------

  /** `a` can be had from `b` by leaving elements out. */
  predicate Subsequence(a: seq<nat>, b: seq<nat>) {
    a == [] || (b != [] &&
      (if a[|a| - 1] == b[|b| - 1] then Subsequence(a[..|a| - 1], b[..|b| - 1]) else Subsequence(a, b[..|b| - 1])))
  }

  /** Nothing is lost or made: what is free and what is lent is the total, negative while over-lent after a shrink. */
  predicate Balanced(s: Sem) {
    s.free + s.lent == s.total
  }

  /** Grants, then waiters, are in arrival order. */
  predicate Fair(s: Sem) {
    Subsequence(s.grants + Ids(s.queue), s.arrivals)
  }

  /** No wake-up is lost: a head that could be served is not asleep. */
  predicate NoLostWakeup(s: Sem) {
    s.queue != [] && s.free >= s.queue[0].permits ==> s.queue[0].awake
  }

  predicate Inv(s: Sem) {
    Balanced(s) && Fair(s) && NoLostWakeup(s)
  }

  lemma {:induction false} DropsLeft(a: seq<nat>, b: seq<nat>, x: nat)
    requires Subsequence(a, b)
    ensures Subsequence(a, b + [x])
    decreases |b|, 1
  {
    if a != [] {
      assert (b + [x])[..|b|] == b;
      if a[|a| - 1] == x {
        ShorterFits(a, b);
      }
    }
  }

  lemma {:induction false} ShorterFits(a: seq<nat>, b: seq<nat>)
    requires Subsequence(a, b) && a != []
    ensures Subsequence(a[..|a| - 1], b)
    decreases |b|, 0
  {
    var n := |b| - 1;
    assert b == b[..n] + [b[n]];
    if a[|a| - 1] == b[n] {
      DropsLeft(a[..|a| - 1], b[..n], b[n]);
    } else {
      ShorterFits(a, b[..n]);
      DropsLeft(a[..|a| - 1], b[..n], b[n]);
    }
  }

  lemma {:induction false} LeavingOutFits(a: seq<nat>, b: seq<nat>, k: nat)
    requires Subsequence(a, b) && k < |a|
    ensures Subsequence(Without(a, k), b)
    decreases |b|
  {
    var n, m := |b| - 1, |a| - 1;
    if k == m {
      assert Without(a, k) == a[..m];
      ShorterFits(a, b);
    } else if a[m] == b[n] {
      LeavingOutFits(a[..m], b[..n], k);
      assert Without(a, k)[..m - 1] == Without(a[..m], k);
    } else {
      LeavingOutFits(a, b[..n], k);
    }
  }

  lemma IdsWithout(queue: seq<Ticket>, k: nat)
    requires k < |queue|
    ensures Ids(WakeAll(Without(queue, k))) == Without(Ids(queue), k)
  {
  }

  lemma WithoutBehind(a: seq<nat>, b: seq<nat>, k: nat)
    requires k < |b|
    ensures Without(a + b, |a| + k) == a + Without(b, k)
  {
  }

  lemma PassKeepsOrder(s: Sem, k: nat, woken: bool, late: bool)
    requires k < |s.queue| && Fair(s)
    ensures Fair(Pass(s, k, woken, late))
  {
    var t := Pass(s, k, woken, late);
    var all := s.grants + Ids(s.queue);
    hide Subsequence;
    match OutcomeAt(s, k, woken, late) {
      case Refused =>
        LeavingOutFits(all, s.arrivals, |s.grants| + k);
        IdsWithout(s.queue, k);
        WithoutBehind(s.grants, Ids(s.queue), k);
      case Granted =>
        assert t.grants + Ids(t.queue) == all;
      case Waits =>
        assert t.grants + Ids(t.queue) == all;
    }
  }

  lemma JoinKeepsOrder(s: Sem, id: nat, permits: int)
    requires Fair(s)
    ensures Fair(Joined(s, id, permits))
  {
    var t := Joined(s, id, permits);
    var all := s.grants + Ids(s.queue);
    assert t.grants + Ids(t.queue) == all + [id];
    assert (all + [id])[..|all|] == all && (s.arrivals + [id])[..|s.arrivals|] == s.arrivals;
  }

  lemma StepKeeps(s: Sem, e: Event)
    requires Inv(s) && Enabled(s, e)
    ensures Inv(After(s, e))
  {
    match e {
      case Join(id, permits, late) =>
        JoinKeepsOrder(s, id, permits);
        PassKeepsOrder(Joined(s, id, permits), |s.queue|, false, late);
      case Look(k, late) =>
        PassKeepsOrder(s, k, true, late);
      case GiveBack(_) =>
        assert Ids(After(s, e).queue) == Ids(s.queue);
      case SetTotal(_) =>
        assert Ids(After(s, e).queue) == Ids(s.queue);
    }
    hide Subsequence;
  }

  /** Through every run of acquires, refusals, releases and resizes. */
  lemma {:induction false} EveryRunKeeps(s: Sem, es: seq<Event>)
    requires Inv(s) && Runs(s, es)
    ensures Inv(End(s, es))
    decreases |es|
  {
    hide Inv, After, Enabled;
    if es != [] {
      StepKeeps(s, es[0]);
      EveryRunKeeps(After(s, es[0]), es[1..]);
    }
  }

  /**
   * From a new semaphore on: what is free and what is lent always make the total, grants and then waiters are arrivals
   * in their order, and a first waiter there is room for is never asleep.
   */
  lemma EveryRunFromTheStart(total: int, es: seq<Event>)
    requires Runs(Fresh(total), es)
    ensures var s := End(Fresh(total), es);
      && s.free + s.lent == s.total
      && Subsequence(s.grants + Ids(s.queue), s.arrivals)
      && (s.queue != [] && s.queue[0].permits <= s.free ==> s.queue[0].awake)
  {
    assert Inv(Fresh(total));
    EveryRunKeeps(Fresh(total), es);
  }

  // ---- an expansion serves the waiters it makes room for --------------------------------------------

  function Wanted(queue: seq<Ticket>): int {
    if queue == [] then 0 else queue[0].permits + Wanted(queue[1..])
  }

  predicate NonNegative(queue: seq<Ticket>) {
    forall i :: 0 <= i < |queue| ==> queue[i].permits >= 0
  }

  lemma {:induction false} WantedAwake(queue: seq<Ticket>, woken: seq<Ticket>)
    requires |woken| == |queue| && forall i :: 0 <= i < |queue| ==> woken[i].permits == queue[i].permits
    ensures Wanted(woken) == Wanted(queue)
  {
    if queue != [] {
      WantedAwake(queue[1..], woken[1..]);
    }
  }

  lemma WantedIsNonNegative(queue: seq<Ticket>)
    requires NonNegative(queue)
    ensures Wanted(queue) >= 0
  {
    if queue != [] {
      WantedIsNonNegative(queue[1..]);
    }
  }

  function Looks(n: nat): seq<Event> {
    if n == 0 then [] else [Look(0, false)] + Looks(n - 1)
  }

  /** With room for the first `n` waiters, each looking once in turn serves them all, in order. */
  lemma {:induction false} RoomServesTheFirst(s: Sem, n: nat)
    requires n <= |s.queue| && NonNegative(s.queue) && Wanted(s.queue[..n]) <= s.free
    ensures Runs(s, Looks(n))
    ensures End(s, Looks(n)).grants == s.grants + Ids(s.queue[..n])
    ensures End(s, Looks(n)).free == s.free - Wanted(s.queue[..n])
    decreases n
  {
    if n > 0 {
      var first := s.queue[..n];
      assert first[1..] == s.queue[1..][..n - 1];
      WantedIsNonNegative(first[1..]);
      var t := Pass(s, 0, true, false);
      assert OutcomeAt(s, 0, true, false) == Granted;
      WantedAwake(first[1..], t.queue[..n - 1]);
      RoomServesTheFirst(t, n - 1);
      assert Looks(n)[1..] == Looks(n - 1);
      assert s.grants + [first[0].id] + Ids(t.queue[..n - 1]) == s.grants + Ids(first);
    }
  }

  /** Raising the total by what the first `n` waiters want gets them through. */
  lemma ExpansionWakesWaiters(s: Sem, total: int, n: nat)
    requires n <= |s.queue| && NonNegative(s.queue)
    requires Wanted(s.queue[..n]) <= s.free + total - s.total
    ensures var t := Resize(s, total);
      Runs(t, Looks(n)) && End(t, Looks(n)).grants == s.grants + Ids(s.queue[..n])
  {
    var t := Resize(s, total);
    WantedAwake(s.queue[..n], t.queue[..n]);
    RoomServesTheFirst(t, n);
    assert Ids(t.queue[..n]) == Ids(s.queue[..n]);
  }

  // ---- the semaphore as it runs -------------------------------------------------------------------

  class Semaphore {
    var total: int
    var free: int
    var queue: seq<Ticket>
    ghost var lent: int
    ghost var arrivals: seq<nat>
    ghost var grants: seq<nat>

    ghost function View(): Sem
      reads this
    {
      Sem(total, free, queue, lent, arrivals, grants)
    }

    constructor (permits: int)
      ensures View() == Fresh(permits)
    {
      total, free, queue := permits, permits, [];
      lent, arrivals, grants := 0, [], [];
    }

    method NotifyAll()
      modifies this`queue
      ensures queue == WakeAll(old(queue))
    {
      var woken := [];
      for i := 0 to |queue|
        invariant woken == WakeAll(queue[..i])
        invariant queue == old(queue)
      {
        woken := woken + [queue[i].(awake := true)];
      }
      assert queue[..|queue|] == queue;
      queue := woken;
    }

    /** Take a ticket and look once. */
    method TryFirst(id: nat, permits: int, late: bool) returns (outcome: Outcome)
      modifies this
      ensures View() == Arrive(old(View()), id, permits, late)
      ensures outcome == OutcomeAt(Joined(old(View()), id, permits), |old(queue)|, false, late)
    {
      queue, arrivals := queue + [Ticket(id, permits, true)], arrivals + [id];
      outcome := LookAgain(|queue| - 1, false, late);
    }

    method LookAgain(k: nat, woken: bool, late: bool) returns (outcome: Outcome)
      requires k < |queue|
      modifies this
      ensures View() == Pass(old(View()), k, woken, late)
      ensures outcome == OutcomeAt(old(View()), k, woken, late)
      ensures outcome.Granted? <==> k == 0 && old(queue)[k].permits <= old(free) && !(woken && late)
      ensures outcome.Refused? ==> late
      ensures outcome.Granted? ==>
        free == old(free) - old(queue)[k].permits && grants == old(grants) + [old(queue)[k].id]
      ensures !outcome.Granted? ==> free == old(free) && grants == old(grants)
      ensures outcome.Waits? ==> !late && queue == old(queue)[k := old(queue)[k].(awake := false)]
      ensures !outcome.Waits? ==>
        Ids(queue) == Ids(old(queue)[..k] + old(queue)[k + 1..]) && forall i :: 0 <= i < |queue| ==> queue[i].awake
    {
      if woken && late {
        LeaveQueue(k);
        return Refused;
      }
      if k == 0 && free >= queue[0].permits {
        var t := queue[0];
        queue, free := queue[1..], free - t.permits;
        lent, grants := lent + t.permits, grants + [t.id];
        NotifyAll();
        return Granted;
      }
      if late {
        LeaveQueue(k);
        return Refused;
      }
      queue := queue[k := queue[k].(awake := false)];
      return Waits;
    }

    method LeaveQueue(k: nat)
      requires k < |queue|
      modifies this`queue
      ensures queue == WakeAll(Without(old(queue), k))
    {
      queue := queue[..k] + queue[k + 1..];
      NotifyAll();
    }

    method GiveBackPermits(permits: int)
      modifies this
      ensures View() == Release(old(View()), permits)
      ensures free == old(free) + (if permits > 0 then permits else 0) && total == old(total)
      ensures permits > 0 ==> forall i :: 0 <= i < |queue| ==> queue[i] == old(queue)[i].(awake := true)
    {
      if permits <= 0 {
        return;
      }
      free, lent := free + permits, lent - permits;
      NotifyAll();
    }

    method SetTotalPermits(permits: int)
      modifies this
      ensures View() == Resize(old(View()), permits)
      ensures total == permits && total - free == old(total) - old(free)
      ensures forall i :: 0 <= i < |queue| ==> queue[i] == old(queue)[i].(awake := true)
    {
      free := free + permits - total;
      total := permits;
      NotifyAll();
    }
  }
}
