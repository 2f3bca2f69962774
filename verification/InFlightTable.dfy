/**
 * The table of requests in flight. Readers, the sweeper and dying connections race for the entries: whoever
 * pops an entry owns its outcome, and delivers it later, outside the lock. A synchronous caller waits for
 * the outcome itself; an asynchronous one is called back.
 */
module InFlightTable {
  import opened Messages

  const GRACE_MILLIS: int := 1000

  datatype Outcome = Answered | Expired | ConnectionDead | WriteFailed

  datatype Phase = Writing | Waiting | Gone

  /** `conn` is the connection the request was claimed for, before the first byte is written. */
  datatype Request = Request(async: bool, conn: Option<nat>, began: int, timeout: int, phase: Phase, answer: Option<Outcome>)

  datatype Claim = Claim(id: nat, outcome: Outcome)

  /** `claims` were popped and wait for delivery; `done` lists what callers were told. */
  datatype Net = Net(reqs: map<nat, Request>, table: set<nat>, claims: seq<Claim>, done: seq<Claim>)

  function Fresh(): Net {
    Net(map[], {}, [], [])
  }

  datatype Event =
    | Issue(id: nat, async: bool, now: int, timeout: int)
    | Connect(id: nat, conn: nat)
    | Written(id: nat)
    | WriteFails(id: nat)
    | Answer(id: nat)
    | ConnectionDies(conn: nat, order: seq<nat>)
    | Sweep(now: int, order: seq<nat>)
    | Deliver(k: nat)
    | Wake(id: nat)
    | GiveUp(id: nat)

  function OwnedBy(s: Net, conn: nat): set<nat> {
    set id | id in s.table && id in s.reqs && s.reqs[id].conn == Some(conn)
  }

  function Overdue(s: Net, now: int): set<nat> {
    set id | id in s.table && id in s.reqs && now - s.reqs[id].began > s.reqs[id].timeout + GRACE_MILLIS
  }

  /** The order in which a scan walks the table does not matter, as long as it meets each entry once. */
  predicate Walks(order: seq<nat>, ids: set<nat>) {
    && (forall id :: id in ids ==> id in order)
    && (forall id :: id in order ==> id in ids)
    && (forall i, j :: 0 <= i < j < |order| ==> order[i] != order[j])
  }

  function Claims(order: seq<nat>, outcome: Outcome): (r: seq<Claim>)
    ensures |r| == |order|
    ensures forall i :: 0 <= i < |r| ==> r[i] == Claim(order[i], outcome)
  {
    seq(|order|, i requires 0 <= i < |order| => Claim(order[i], outcome))
  }

  predicate InPhase(s: Net, id: nat, phase: Phase) {
    id in s.reqs && s.reqs[id].phase == phase
  }

  predicate Enabled(s: Net, e: Event) {
    match e
    case Issue(id, _, _, _) => id !in s.reqs
    case Connect(id, _) => InPhase(s, id, Writing)
    case Written(id) => InPhase(s, id, Writing)
    case WriteFails(id) => InPhase(s, id, Writing)
    case Answer(_) => true
    case ConnectionDies(conn, order) => Walks(order, OwnedBy(s, conn))
    case Sweep(now, order) => Walks(order, Overdue(s, now))
    case Deliver(k) => k < |s.claims| && s.claims[k].id in s.reqs
    case Wake(id) => InPhase(s, id, Waiting) && s.reqs[id].answer.Some?
    case GiveUp(id) => InPhase(s, id, Waiting) && s.reqs[id].answer.None?
  }

  function SetPhase(s: Net, id: nat, phase: Phase): map<nat, Request>
    requires id in s.reqs
  {
    s.reqs[id := s.reqs[id].(phase := phase)]
  }

  /** The caller leaves with an outcome of its own, taking its entry out if it is still there. */
  function Leave(s: Net, id: nat, outcome: Outcome): Net
    requires id in s.reqs
  {
    s.(reqs := SetPhase(s, id, Gone), table := s.table - {id}, done := s.done + [Claim(id, outcome)])
  }

  function PopAll(s: Net, ids: set<nat>, order: seq<nat>, outcome: Outcome): Net {
    s.(table := s.table - ids, claims := s.claims + Claims(order, outcome))
  }

  /** An asynchronous caller whose entry is gone has been told, or will be, through the callback. */
  function OnWriteFails(s: Net, id: nat): Net
    requires id in s.reqs
  {
    if s.reqs[id].async && id !in s.table then s.(reqs := SetPhase(s, id, Gone))
    else Leave(s, id, WriteFailed)
  }

  function OnAnswer(s: Net, id: nat): Net {
    if id in s.table then PopAll(s, {id}, [id], Answered) else s
  }

  function OnDeliver(s: Net, k: nat): Net
    requires k < |s.claims| && s.claims[k].id in s.reqs
  {
    var c := s.claims[k];
    var r := s.reqs[c.id];
    var rest := s.claims[..k] + s.claims[k + 1..];
    if r.async then s.(claims := rest, done := s.done + [c])
    else if c.outcome.Expired? then s.(claims := rest)
    else s.(claims := rest, reqs := s.reqs[c.id := r.(answer := Some(c.outcome))])
  }

  function After(s: Net, e: Event): Net
    requires Enabled(s, e)
  {
    match e
    case Issue(id, async, now, timeout) =>
      s.(reqs := s.reqs[id := Request(async, None, now, timeout, Writing, None)], table := s.table + {id})
    case Connect(id, conn) => s.(reqs := s.reqs[id := s.reqs[id].(conn := Some(conn))])
    case Written(id) => s.(reqs := SetPhase(s, id, if s.reqs[id].async then Gone else Waiting))
    case WriteFails(id) => OnWriteFails(s, id)
    case Answer(id) => OnAnswer(s, id)
    case ConnectionDies(conn, order) => PopAll(s, OwnedBy(s, conn), order, ConnectionDead)
    case Sweep(now, order) => PopAll(s, Overdue(s, now), order, Expired)
    case Deliver(k) => OnDeliver(s, k)
    case Wake(id) => Leave(s, id, s.reqs[id].answer.value)
    case GiveUp(id) => Leave(s, id, Expired)
  }

  predicate Runs(s: Net, es: seq<Event>)
    decreases |es|
  {
    es == [] || (Enabled(s, es[0]) && Runs(After(s, es[0]), es[1..]))
  }

  function End(s: Net, es: seq<Event>): Net
    requires Runs(s, es)
    decreases |es|
  {
    if es == [] then s else End(After(s, es[0]), es[1..])
  }

  // ---- exactly one outcome ------------------------------------------------------------------------

  function Times(cs: seq<Claim>, id: nat): nat {
    if cs == [] then 0 else Times(cs[..|cs| - 1], id) + (if cs[|cs| - 1].id == id then 1 else 0)
  }

  function Listed(s: Net, id: nat): nat {
    if id in s.table then 1 else 0
  }

  /** An asynchronous request is in the table, or claimed, or done, exactly once. */
  ghost predicate Ledger(s: Net) {
    forall id :: id in s.reqs && s.reqs[id].async ==>
      Listed(s, id) + Times(s.claims, id) + Times(s.done, id) == 1 && !s.reqs[id].phase.Waiting?
  }

  /** A synchronous caller that left was told once and left no entry, one that has not was told nothing. */
  ghost predicate Told(s: Net) {
    forall id :: id in s.reqs && !s.reqs[id].async ==>
      if s.reqs[id].phase.Gone? then Times(s.done, id) == 1 && id !in s.table else Times(s.done, id) == 0
  }

  /** Nothing is known of a request nobody issued, and an entry is claimed at most once. */
  ghost predicate Known(s: Net) {
    && (forall id :: id !in s.reqs ==> id !in s.table && Times(s.claims, id) == 0 && Times(s.done, id) == 0)
    && (forall id :: Listed(s, id) + Times(s.claims, id) <= 1)
  }

  ghost predicate Inv(s: Net) {
    Ledger(s) && Told(s) && Known(s)
  }

  lemma {:induction false} TimesOfMore(a: seq<Claim>, b: seq<Claim>, id: nat)
    ensures Times(a + b, id) == Times(a, id) + Times(b, id)
    decreases |b|
  {
    if b == [] {
      assert a + b == a;
    } else {
      var n := |b| - 1;
      TimesOfMore(a, b[..n], id);
      assert (a + b)[..|a| + n] == a + b[..n];
    }
  }

  lemma TimesOfOne(c: Claim, id: nat)
    ensures Times([c], id) == if c.id == id then 1 else 0
  {
    assert [c][..0] == [];
  }

  lemma {:induction false} TimesInWalk(order: seq<nat>, outcome: Outcome, id: nat)
    requires forall i, j :: 0 <= i < j < |order| ==> order[i] != order[j]
    ensures Times(Claims(order, outcome), id) == if id in order then 1 else 0
  {
    if order != [] {
      var n := |order| - 1;
      TimesInWalk(order[..n], outcome, id);
      assert Claims(order, outcome)[..n] == Claims(order[..n], outcome);
      assert order == order[..n] + [order[n]];
    }
  }

  lemma TimesWithout(cs: seq<Claim>, k: nat, id: nat)
    requires k < |cs|
    ensures Times(cs[..k] + cs[k + 1..], id) == Times(cs, id) - (if cs[k].id == id then 1 else 0)
    ensures cs[k].id == id ==> Times(cs, id) >= 1
  {
    assert cs == cs[..k] + [cs[k]] + cs[k + 1..];
    TimesOfMore(cs[..k] + [cs[k]], cs[k + 1..], id);
    TimesOfMore(cs[..k], [cs[k]], id);
    TimesOfMore(cs[..k], cs[k + 1..], id);
    TimesOfOne(cs[k], id);
  }

  lemma LeaveKeeps(s: Net, id: nat, outcome: Outcome)
    requires Inv(s) && id in s.reqs && !s.reqs[id].phase.Gone?
    requires s.reqs[id].async ==> id in s.table
    ensures Inv(Leave(s, id, outcome))
  {
    var t := Leave(s, id, outcome);
    forall x ensures Times(t.done, x) == Times(s.done, x) + (if x == id then 1 else 0) {
      TimesOfMore(s.done, [Claim(id, outcome)], x);
      TimesOfOne(Claim(id, outcome), x);
    }
    hide Times;
  }

  lemma PopKeeps(s: Net, ids: set<nat>, order: seq<nat>, outcome: Outcome)
    requires Inv(s) && Walks(order, ids) && ids <= s.table
    ensures Inv(PopAll(s, ids, order, outcome))
  {
    var t := PopAll(s, ids, order, outcome);
    forall x ensures Times(t.claims, x) == Times(s.claims, x) + (if x in ids then 1 else 0) {
      TimesOfMore(s.claims, Claims(order, outcome), x);
      TimesInWalk(order, outcome, x);
    }
    hide Times, Walks;
  }

  lemma DeliverKeeps(s: Net, k: nat)
    requires Inv(s) && k < |s.claims| && s.claims[k].id in s.reqs
    ensures Inv(OnDeliver(s, k))
  {
    var t, c := OnDeliver(s, k), s.claims[k];
    forall x ensures Times(t.claims, x) == Times(s.claims, x) - (if x == c.id then 1 else 0) {
      TimesWithout(s.claims, k, x);
    }
    if s.reqs[c.id].async {
      forall x ensures Times(t.done, x) == Times(s.done, x) + (if x == c.id then 1 else 0) {
        TimesOfMore(s.done, [c], x);
        TimesOfOne(c, x);
      }
    }
    hide Times;
  }

  lemma StepKeeps(s: Net, e: Event)
    requires Inv(s) && Enabled(s, e)
    ensures Inv(After(s, e))
  {
    hide Times;
    match e {
      case WriteFails(id) =>
        if !(s.reqs[id].async && id !in s.table) {
          LeaveKeeps(s, id, WriteFailed);
        }
      case Answer(id) =>
        if id in s.table {
          PopKeeps(s, {id}, [id], Answered);
        }
      case ConnectionDies(conn, order) => PopKeeps(s, OwnedBy(s, conn), order, ConnectionDead);
      case Sweep(now, order) => PopKeeps(s, Overdue(s, now), order, Expired);
      case Deliver(k) => DeliverKeeps(s, k);
      case Wake(id) => LeaveKeeps(s, id, s.reqs[id].answer.value);
      case GiveUp(id) => LeaveKeeps(s, id, Expired);
      case _ =>
    }
  }

  lemma {:induction false} RunKeeps(s: Net, es: seq<Event>)
    requires Inv(s) && Runs(s, es)
    ensures Inv(End(s, es))
    decreases |es|
  {
    hide Inv, After, Enabled;
    if es != [] {
      StepKeeps(s, es[0]);
      RunKeeps(After(s, es[0]), es[1..]);
    }
  }

  /**
   * Whatever order answers, expiries, dying connections and failing writes come in, no request is told two
   * outcomes; and once nothing is in the table or waiting for delivery, every request that is not still
   * being written or waited for has been told exactly one.
   */
  lemma EveryRequestEndsOnce(es: seq<Event>, id: nat)
    requires Runs(Fresh(), es) && id in End(Fresh(), es).reqs
    ensures var s := End(Fresh(), es);
      && Times(s.done, id) <= 1
      && (id !in s.table && Times(s.claims, id) == 0 && s.reqs[id].phase.Gone? ==> Times(s.done, id) == 1)
  {
    RunKeeps(Fresh(), es);
    hide Runs, End, Times;
  }

  /** A dying connection claims exactly its own entries and leaves every other one where it was. */
  lemma DeathTakesItsOwn(s: Net, conn: nat, order: seq<nat>, id: nat)
    requires Inv(s) && Enabled(s, ConnectionDies(conn, order)) && id in s.reqs
    ensures var t := After(s, ConnectionDies(conn, order));
      && (id in s.table && s.reqs[id].conn == Some(conn) ==>
          id !in t.table && Claim(id, ConnectionDead) in t.claims)
      && (s.reqs[id].conn != Some(conn) ==>
          (id in t.table <==> id in s.table) && Times(t.claims, id) == Times(s.claims, id))
      && t.reqs == s.reqs && t.done == s.done
  {
    var t := After(s, ConnectionDies(conn, order));
    TimesOfMore(s.claims, Claims(order, ConnectionDead), id);
    TimesInWalk(order, ConnectionDead, id);
    if id in OwnedBy(s, conn) {
      var i :| 0 <= i < |order| && order[i] == id;
      assert t.claims[|s.claims| + i] == Claim(id, ConnectionDead);
    }
  }

  /**
   * In every run an answer that comes after its request was told an outcome is dropped; and the answer to an
   * asynchronous request is dropped exactly when somebody has claimed the request or delivered its outcome.
   */
  lemma LateAnswerIsDropped(es: seq<Event>, id: nat)
    requires Runs(Fresh(), es) && id in End(Fresh(), es).reqs
    ensures var s := End(Fresh(), es);
      && (Times(s.done, id) > 0 ==> After(s, Answer(id)) == s)
      && (s.reqs[id].async ==> (After(s, Answer(id)) == s <==> Times(s.claims, id) + Times(s.done, id) == 1))
  {
    RunKeeps(Fresh(), es);
    var s := End(Fresh(), es);
    assert id in s.table ==> |After(s, Answer(id)).claims| == |s.claims| + 1;
    hide Runs, End, Times;
  }

  /**
   * In every run, a write of an asynchronous request that fails reports nothing exactly when the request was
   * claimed or told before, by its dying connection or by anybody else; so nobody hears of it twice.
   */
  lemma FailedWriteIsSilentIff(es: seq<Event>, id: nat)
    requires Runs(Fresh(), es) && InPhase(End(Fresh(), es), id, Writing) && End(Fresh(), es).reqs[id].async
    ensures var s := End(Fresh(), es);
      && (After(s, WriteFails(id)).done == s.done <==> Times(s.claims, id) + Times(s.done, id) == 1)
      && Times(After(s, WriteFails(id)).claims, id) + Times(After(s, WriteFails(id)).done, id) == 1
  {
    RunKeeps(Fresh(), es);
    var s := End(Fresh(), es);
    StepKeeps(s, WriteFails(id));
    assert id in s.table ==> |After(s, WriteFails(id)).done| == |s.done| + 1;
    hide Runs, End, Times;
  }

  // ---- why a caller is told what it is told --------------------------------------------------------

  /** Among the events is one that explains the outcome. */
  predicate Caused(es: seq<Event>, c: Claim) {
    match c.outcome
    case Answered => Answer(c.id) in es
    case WriteFailed => WriteFails(c.id) in es
    case ConnectionDead => exists e :: e in es && e.ConnectionDies? && c.id in e.order
    case Expired => GiveUp(c.id) in es || exists e :: e in es && e.Sweep? && c.id in e.order
  }

  /** Whatever is claimed, has been told or will be has its cause; a waiting caller is never handed an expiry. */
  predicate Explained(es: seq<Event>, s: Net) {
    && (forall c :: c in s.claims ==> Caused(es, c))
    && (forall c :: c in s.done ==> Caused(es, c))
    && (forall id :: id in s.reqs && s.reqs[id].answer.Some? ==>
          Caused(es, Claim(id, s.reqs[id].answer.value)) && !s.reqs[id].answer.value.Expired?)
  }

  lemma CausedStill(es: seq<Event>, e: Event, c: Claim)
    requires Caused(es, c)
    ensures Caused(es + [e], c)
  {
    match c.outcome
    case ConnectionDead => var x :| x in es && x.ConnectionDies? && c.id in x.order;
      assert x in es + [e];
    case Expired =>
      if GiveUp(c.id) !in es {
        var x :| x in es && x.Sweep? && c.id in x.order;
        assert x in es + [e];
      }
    case _ =>
  }

  lemma StepExplains(es: seq<Event>, s: Net, e: Event)
    requires Explained(es, s) && Enabled(s, e)
    ensures Explained(es + [e], After(s, e))
  {
    var t, more := After(s, e), es + [e];
    assert e in more;
    forall c | Caused(es, c) ensures Caused(more, c) { CausedStill(es, e, c); }
    if e.Deliver? {
      assert s.claims[e.k] in s.claims;
    }
    if e.Wake? {
      assert Caused(es, Claim(e.id, s.reqs[e.id].answer.value));
    }
    assert e.GiveUp? ==> Caused(more, Claim(e.id, Expired));
    assert e.WriteFails? ==> Caused(more, Claim(e.id, WriteFailed));
    assert e.Answer? ==> Caused(more, Claim(e.id, Answered));
    assert e.Sweep? ==> forall id :: id in e.order ==> Caused(more, Claim(id, Expired));
    assert e.ConnectionDies? ==> forall id :: id in e.order ==> Caused(more, Claim(id, ConnectionDead));
    hide Caused;
  }

  lemma {:induction false} RunExplains(before: seq<Event>, s: Net, es: seq<Event>)
    requires Explained(before, s) && Runs(s, es)
    ensures Explained(before + es, End(s, es))
    decreases |es|
  {
    hide Explained, After, Enabled;
    if es == [] {
      assert before + es == before;
    } else {
      StepExplains(before, s, es[0]);
      RunExplains(before + [es[0]], After(s, es[0]), es[1..]);
      assert before + [es[0]] + es[1..] == before + es;
    }
  }

  /**
   * In every run: who is told of an answer was answered, who is told of an expiry was swept or gave up waiting, who is told
   * of a dead connection was on one that died, and who is told of a failed write had one.
   */
  lemma OutcomesAreTrue(es: seq<Event>, c: Claim)
    requires Runs(Fresh(), es) && c in End(Fresh(), es).done
    ensures c.outcome == Answered ==> Answer(c.id) in es
    ensures c.outcome == WriteFailed ==> WriteFails(c.id) in es
    ensures c.outcome == ConnectionDead ==> exists e :: e in es && e.ConnectionDies? && c.id in e.order
    ensures c.outcome == Expired ==> GiveUp(c.id) in es || exists e :: e in es && e.Sweep? && c.id in e.order
  {
    RunExplains([], Fresh(), es);
    assert [] + es == es;
    assert Caused(es, c);
    hide Runs, End;
  }

  /** And an answer that is taken is told as one: an asynchronous caller by the delivery of the claim it leaves, a waiting
      one when it wakes after that. */
  lemma AnswersAreTold(es: seq<Event>, id: nat)
    requires Runs(Fresh(), es) && id in End(Fresh(), es).table && id in End(Fresh(), es).reqs
    ensures var s := End(Fresh(), es);
      var t := After(s, Answer(id));
      var u := OnDeliver(t, |s.claims|);
      && t.claims == s.claims + [Claim(id, Answered)] && t.table == s.table - {id} && u.claims == s.claims
      && (s.reqs[id].async ==> u.done == s.done + [Claim(id, Answered)])
      && (!s.reqs[id].async && s.reqs[id].phase.Waiting? ==>
            Enabled(u, Wake(id)) && After(u, Wake(id)).done == s.done + [Claim(id, Answered)])
  {
    RunKeeps(Fresh(), es);
    var s := End(Fresh(), es);
    var t := After(s, Answer(id));
    assert Claims([id], Answered) == [Claim(id, Answered)];
    assert t.claims[..|s.claims|] == s.claims && t.claims[|s.claims| + 1..] == [];
    hide Runs, End, Times;
  }

  // ---- the scans as they run ----------------------------------------------------------------------

  class ResponseTable {
    var table: map<nat, Request>

    /** The entries are the requests the state `s` lists. */
    ghost predicate Shows(s: Net)
      reads this
    {
      table.Keys == s.table && forall id :: id in table ==> id in s.reqs && table[id] == s.reqs[id]
    }

    constructor ()
      ensures table == map[] && Shows(Fresh())
    {
      table := map[];
    }

    method Register(id: nat, r: Request)
      modifies this
      ensures table == old(table)[id := r]
      ensures forall s, now, async, timeout ::
        old(Shows(s)) && id !in s.reqs && r == Request(async, None, now, timeout, Writing, None) ==>
          Shows(After(s, Issue(id, async, now, timeout)))
    {
      table := table[id := r];
    }

    /** Popping decides ownership: only one racer gets the entry. */
    method Pop(id: nat) returns (claimed: Option<Request>)
      modifies this
      ensures claimed == (if id in old(table) then Some(old(table)[id]) else None)
      ensures table == old(table) - {id}
      ensures forall s :: old(Shows(s)) ==> Shows(After(s, Answer(id)))
    {
      claimed := if id in table then Some(table[id]) else None;
      table := table - {id};
    }

    /** One scan: pop every entry that is due, each once, and leave the others. */
    method FailFast(conn: nat) returns (doomed: seq<nat>)
      modifies this
      ensures forall id :: id in doomed <==> id in old(table) && old(table)[id].conn == Some(conn)
      ensures forall i, j :: 0 <= i < j < |doomed| ==> doomed[i] != doomed[j]
      ensures table == old(table) - (set id | id in doomed)
      ensures forall s :: old(Shows(s)) ==>
        Enabled(s, ConnectionDies(conn, doomed)) && Shows(After(s, ConnectionDies(conn, doomed)))
    {
      var keys := table.Keys;
      doomed := [];
      while keys != {}
        invariant keys <= old(table).Keys
        invariant forall id :: id in doomed <==>
          id in old(table) && id !in keys && old(table)[id].conn == Some(conn)
        invariant forall i, j :: 0 <= i < j < |doomed| ==> doomed[i] != doomed[j]
        invariant table == old(table) - (set id | id in doomed)
        decreases keys
      {
        var id :| id in keys;
        keys := keys - {id};
        if table[id].conn == Some(conn) {
          table := table - {id};
          doomed := doomed + [id];
        }
      }
    }

    method SweepExpired(now: int) returns (expired: seq<nat>)
      modifies this
      ensures forall id :: id in expired <==>
        id in old(table) && now - old(table)[id].began > old(table)[id].timeout + GRACE_MILLIS
      ensures forall i, j :: 0 <= i < j < |expired| ==> expired[i] != expired[j]
      ensures table == old(table) - (set id | id in expired)
      ensures forall s :: old(Shows(s)) ==> Enabled(s, Sweep(now, expired)) && Shows(After(s, Sweep(now, expired)))
    {
      var keys := table.Keys;
      expired := [];
      while keys != {}
        invariant keys <= old(table).Keys
        invariant forall id :: id in expired <==>
          id in old(table) && id !in keys && now - old(table)[id].began > old(table)[id].timeout + GRACE_MILLIS
        invariant forall i, j :: 0 <= i < j < |expired| ==> expired[i] != expired[j]
        invariant table == old(table) - (set id | id in expired)
        decreases keys
      {
        var id :| id in keys;
        keys := keys - {id};
        if now - table[id].began > table[id].timeout + GRACE_MILLIS {
          table := table - {id};
          expired := expired + [id];
        }
      }
    }
  }
}
