/** Fair schedules exist: whatever a held queue matches and wherever its backlog ends, pulling and polling it in turn is
    one. */
module LiteSchedule {
  import opened Messages
  import opened LiteQueueCache
  import opened LiteSpec
  import opened LiteSteps
  import opened LiteRuns
  import opened LiteShared
  import opened LiteBacklog
  import opened LiteFairness

  /** One queue, what it matches and where its backlog ends. */
  datatype Plan = Plan(w: Matches, limits: Limits, q: MessageQueue, end: MessageQueue -> nat)

  /** Where a round of eight deeds stands: five of a pull, three of a poll. */
  predicate Phase(p: Plan, k: nat, s: World) {
    && s.locals.Keys == {p.q} && s.lite.owned == {p.q} && p.q in s.lite.next
    && var l := s.locals[p.q].pulling;
    match k
    case 0 => l.Resting? && s.polls.Nobody? && s.lite.buffer == []
    case 1 => l.Targeted? && s.polls.Nobody? && s.lite.buffer == []
    case 2 => l == Asked(s.lite.next[p.q]) && s.polls.Nobody? && s.lite.buffer == []
    case 3 => l.Writing? && |l.found| <= 1 && s.polls.Nobody? && s.lite.buffer == []
    case 4 => l.Carrying? && |l.found| <= 1 && s.polls.Nobody? && s.lite.buffer == []
    case 5 => l.Resting? && s.polls.Nobody? && |s.lite.buffer| <= 1
    case 6 => l.Resting? && s.polls.Took? && s.lite.buffer == []
    case 7 => l.Resting? && s.polls.Knows? && s.lite.buffer == []
    case _ => false
  }

  /** One offset further, until the backlog ends. */
  function Further(p: Plan, at: nat): nat {
    if at < p.end(p.q) then at + 1 else at
  }

  function DeedOf(p: Plan, k: nat, s: World): Deed
    requires Phase(p, k, s)
  {
    match k
    case 0 => On(p.q, LiteSteps.Target)
    case 1 => On(p.q, Look(Start(0, false)))
    case 2 => On(p.q, LiteSteps.Judge(Further(p, s.lite.next[p.q]), false))
    case 3 => On(p.q, Write)
    case 4 => Enqueue(p.q, RowsFor(p.q, s.locals[p.q].pulling.found, o => 0))
    case 5 => TakeRows(|s.lite.buffer|)
    case 6 => LookUpAll
    case _ => MoveAll
  }

  function After(k: nat): nat {
    if k >= 7 then 0 else k + 1
  }

  /** The deed may be done where the round stands, and the round goes on. */
  ghost predicate GoesRound(p: Plan, k: nat, s: World)
    requires Phase(p, k, s)
  {
    var d := DeedOf(p, k, s);
    && Can(s, d) && Serves(s, d, p.end) && GatedDeed(s, d, p.limits) && !d.CrashAll?
    && Phase(p, After(k), Does(p.w, s, d))
  }

  /** A step of the pull thread that touches no table. */
  lemma WithinThePuller(w: Matches, s: World, q: MessageQueue, e: Event)
    requires q in s.locals && Possible(Project(s, q), e) && (e.Target? || e.Look? || e.Judge?)
    ensures Can(s, On(q, e))
    ensures Does(w, s, On(q, e)) == s.(locals := s.locals[q := LocalOf(Step(w(q), Project(s, q), e))])
  {
    hide ViewOf, Live;
  }

  lemma ServesOne(s: World, q: MessageQueue, e: Event, end: MessageQueue -> nat)
    requires Can(s, On(q, e)) && ServesStep(Project(s, q), e, end(q))
    ensures Serves(s, On(q, e), end)
  {
    hide ServesStep, Project, Possible;
  }

  lemma OneAtMost(w: nat -> bool, gone: set<nat>, at: nat)
    ensures |Live(w, gone, at, at + 1)| <= 1 && Live(w, gone, at, at) == []
  {
    assert Live(w, gone, at, at) == [];
  }

  lemma TargetPhase(p: Plan, s: World)
    requires Phase(p, 0, s)
    ensures GoesRound(p, 0, s)
  {
    WithinThePuller(p.w, s, p.q, LiteSteps.Target);
    ServesOne(s, p.q, LiteSteps.Target, p.end);
    hide Can, Serves, Does, Live;
  }

  lemma Admits(p: Plan, s: World)
    requires Good(p.w, s, p.end) && NonNegative(p.limits) && s.lite.buffer == [] && p.q in s.lite.owned
    ensures Due(s.lite, p.limits, p.q) == Admitted
  {
    hide AllSound, KnownRounds, Serving, Due, NonNegative;
    EmptyBufferAdmitsIff(p.w, p.limits, s, p.q);
  }

  lemma PulledWithin(p: Plan, s: World)
    requires Good(p.w, s, p.end) && p.q in s.lite.owned && p.q in s.lite.next && p.q in s.locals
    ensures s.lite.next[p.q] <= p.end(p.q)
  {
    assert Serving(p.w(p.q), Project(s, p.q), p.end(p.q));
    hide AllSound, KnownRounds, RowsOf, Live;
  }

  lemma LookPhase(p: Plan, s: World)
    requires Good(p.w, s, p.end) && NonNegative(p.limits) && Phase(p, 1, s)
    ensures GoesRound(p, 1, s)
  {
    hide Good, Due, NonNegative, Can, Serves, Does, Live, RowsOf;
    Admits(p, s);
    WithinThePuller(p.w, s, p.q, Look(Start(0, false)));
    ServesOne(s, p.q, Look(Start(0, false)), p.end);
  }

  lemma JudgeLeaves(p: Plan, s: World)
    requires Phase(p, 2, s) && s.lite.next[p.q] <= p.end(p.q)
    ensures var u, e := Project(s, p.q), LiteSteps.Judge(Further(p, s.lite.next[p.q]), false);
            && Possible(u, e) && ServesStep(u, e, p.end(p.q))
            && var l := Step(p.w(p.q), u, e).pulling; l.Writing? && |l.found| <= 1
  {
    OneAtMost(p.w(p.q), s.locals[p.q].h.gone, s.lite.next[p.q]);
    hide Live, RowsOf;
  }

  lemma JudgePhase(p: Plan, s: World)
    requires Good(p.w, s, p.end) && Phase(p, 2, s)
    ensures GoesRound(p, 2, s)
  {
    var e := LiteSteps.Judge(Further(p, s.lite.next[p.q]), false);
    hide Good, Can, Serves, Does, Live, RowsOf;
    PulledWithin(p, s);
    JudgeLeaves(p, s);
    hide Possible, Step, ServesStep;
    WithinThePuller(p.w, s, p.q, e);
    ServesOne(s, p.q, e, p.end);
  }

  lemma WritePhase(p: Plan, s: World)
    requires Phase(p, 3, s)
    ensures GoesRound(p, 3, s)
  {
    assert Possible(Project(s, p.q), Write) && Can(s, On(p.q, Write));
    ServesOne(s, p.q, Write, p.end);
    hide Serves, Live;
  }

  lemma EnqueuePhase(p: Plan, s: World)
    requires Phase(p, 4, s)
    ensures GoesRound(p, 4, s)
  {
    var rows := RowsFor(p.q, s.locals[p.q].pulling.found, o => 0);
    assert |Offsets(rows)| == |rows|;
    hide Live, RowsOf, RowsFor, Enrolled;
  }

  lemma TakesServe(s: World, n: nat, end: MessageQueue -> nat)
    requires Can(s, TakeRows(n))
    ensures Serves(s, TakeRows(n), end)
  {
    hide Share, Project;
  }

  lemma TakeLeaves(w: Matches, s: World, n: nat, q: MessageQueue)
    requires Can(s, TakeRows(n)) && q in s.locals
    ensures var t := Does(w, s, TakeRows(n));
            && t.locals.Keys == s.locals.Keys && t.lite.owned == s.lite.owned && t.lite.next == s.lite.next
            && t.lite.buffer == s.lite.buffer[n..] && t.polls.Took? && t.locals[q].pulling == s.locals[q].pulling
  {
    TakenLocals(w, s, n, q);
    TakeKeepsTables(s.lite, n);
    hide Share, Project, TakeTables, OnTake;
  }

  lemma TakePhase(p: Plan, s: World)
    requires Phase(p, 5, s)
    ensures GoesRound(p, 5, s)
  {
    var n := |s.lite.buffer|;
    assert Can(s, TakeRows(n)) && s.lite.buffer[n..] == [];
    hide Can, Serves, Does;
    TakesServe(s, n, p.end);
    TakeLeaves(p.w, s, n, p.q);
  }

  lemma LookUpPhase(p: Plan, s: World)
    requires Phase(p, 6, s)
    ensures GoesRound(p, 6, s)
  {
    hide Live, RowsOf, Advanced, Offsets;
  }

  lemma MovePhase(p: Plan, s: World)
    requires Phase(p, 7, s)
    ensures GoesRound(p, 7, s)
  {
    hide Live, RowsOf, Advanced, Offsets;
  }

  ghost function At(p: Plan, s: World, n: nat): World {
    if n == 0 then s
    else
      var before := At(p, s, n - 1);
      if Phase(p, (n - 1) % 8, before) && Can(before, DeedOf(p, (n - 1) % 8, before))
      then Does(p.w, before, DeedOf(p, (n - 1) % 8, before)) else before
  }

  ghost function DeedAt(p: Plan, s: World, n: nat): Deed {
    if Phase(p, n % 8, At(p, s, n)) then DeedOf(p, n % 8, At(p, s, n)) else MoveAll
  }

  lemma Round(p: Plan, k: nat, s: World)
    requires Good(p.w, s, p.end) && NonNegative(p.limits) && Phase(p, k, s)
    ensures GoesRound(p, k, s) && Good(p.w, Does(p.w, s, DeedOf(p, k, s)), p.end)
  {
    hide Good, NonNegative, GoesRound;
    match k {
      case 0 => TargetPhase(p, s);
      case 1 => LookPhase(p, s);
      case 2 => JudgePhase(p, s);
      case 3 => WritePhase(p, s);
      case 4 => EnqueuePhase(p, s);
      case 5 => TakePhase(p, s);
      case 6 => LookUpPhase(p, s);
      case _ => MovePhase(p, s);
    }
    RoundStaysGood(p, k, s);
  }

  lemma RoundStaysGood(p: Plan, k: nat, s: World)
    requires Good(p.w, s, p.end) && Phase(p, k, s) && GoesRound(p, k, s)
    ensures Can(s, DeedOf(p, k, s)) && Good(p.w, Does(p.w, s, DeedOf(p, k, s)), p.end)
  {
    hide Good, Can, Serves, GatedDeed, Does, Phase, DeedOf;
    StaysGood(p.w, s, DeedOf(p, k, s), p.end);
  }

  lemma PhaseAfter(n: nat)
    ensures (n + 1) % 8 == After(n % 8)
  {
  }

  lemma AtNext(p: Plan, s: World, n: nat)
    requires Phase(p, n % 8, At(p, s, n)) && Can(At(p, s, n), DeedOf(p, n % 8, At(p, s, n)))
    ensures At(p, s, n + 1) == Does(p.w, At(p, s, n), DeedOf(p, n % 8, At(p, s, n)))
  {
    hide Phase, Can, DeedOf, Does;
  }

  lemma {:induction false} InPhase(p: Plan, s: World, n: nat)
    requires Good(p.w, s, p.end) && NonNegative(p.limits) && Phase(p, 0, s)
    ensures Phase(p, n % 8, At(p, s, n)) && Good(p.w, At(p, s, n), p.end)
  {
    hide Good, NonNegative, Can, Does, Phase, DeedOf, At;
    if n == 0 {
      AtFirst(p, s);
    } else {
      InPhase(p, s, n - 1);
      Round(p, (n - 1) % 8, At(p, s, n - 1));
      AtNext(p, s, n - 1);
      PhaseAfter(n - 1);
    }
  }

  lemma AtFirst(p: Plan, s: World)
    ensures At(p, s, 0) == s
  {
  }

  ghost function Told(p: Plan, s: World): Story {
    Story(p.w, p.limits, p.end, (n: nat) => At(p, s, n), (n: nat) => DeedAt(p, s, n))
  }

  lemma HappensAt(p: Plan, s: World, n: nat)
    requires Good(p.w, s, p.end) && NonNegative(p.limits) && Phase(p, 0, s)
    ensures LiteFairness.Happens(Told(p, s), n)
  {
    hide Good, NonNegative, Can, Serves, GatedDeed, Does, Phase, DeedOf, At;
    InPhase(p, s, n);
    Round(p, n % 8, At(p, s, n));
    AtNext(p, s, n);
  }

  /** The next time a round is in phase `k`. */
  function Upcoming(n: nat, k: nat): (m: nat)
    requires k < 8
    ensures m >= n && m % 8 == k
  {
    8 * n + k
  }

  lemma IsFair(p: Plan, s: World)
    requires Good(p.w, s, p.end) && NonNegative(p.limits) && Phase(p, 0, s)
    ensures Fair(Told(p, s))
  {
    var x := Told(p, s);
    hide Good, NonNegative;
    forall n: nat ensures PollsLater(x, n) {
      var m := Upcoming(n, 0);
      InPhase(p, s, m);
      assert LiteFairness.Polls(x, m);
    }
    forall n: nat, q | q in x.run(0).lite.owned ensures PullsLater(x, q, n) {
      var m := Upcoming(n, 3);
      InPhase(p, s, m);
      assert LiteFairness.Pulls(x, q, m);
    }
    forall n: nat, q ensures EnqueuesLater(x, q, n) {
      var m := Upcoming(n, 0);
      InPhase(p, s, m);
      assert Enqueues(x, q, m);
    }
  }

  /** From every state in which one queue is held, served and at rest there is a fair schedule. */
  lemma FairScheduleExists(p: Plan, s: World) returns (x: Story)
    requires Good(p.w, s, p.end) && NonNegative(p.limits) && Phase(p, 0, s)
    ensures Goes(x) && Fair(x) && x.run(0) == s
    ensures x.w == p.w && x.limits == p.limits && x.end == p.end
  {
    x := Told(p, s);
    IsFair(p, s);
    hide Good, NonNegative, Fair;
    forall n: nat ensures LiteFairness.Happens(x, n) { HappensAt(p, s, n); }
    hide LiteFairness.Happens;
  }

  /** A consumer that has just taken one queue over, at offset 0. */
  function Beginning(q: MessageQueue): World {
    World(Lite({q}, map[q := 0], map[], map[], map[], {}, [], map[]), map[], Nobody,
          map[q := Local(Resting, NotSeeking, Steady, None, None, None,
                         History(true, false, 0, 0, [], 0, {}, {}, {}, []))])
  }

  lemma BeginningIsSound(w: nat -> bool, q: MessageQueue)
    ensures Sound(w, Project(Beginning(q), q))
  {
    var s := Project(Beginning(q), q);
    assert s.view == QueueView(true, Some(0), None, None, [], []);
    LiveBackwards(w, {}, 0, 0);
    hide Live;
  }

  lemma BeginningIsGood(p: Plan)
    ensures Good(p.w, Beginning(p.q), p.end) && Phase(p, 0, Beginning(p.q))
  {
    var s := Beginning(p.q);
    BeginningIsSound(p.w(p.q), p.q);
    assert Project(s, p.q).view == QueueView(true, Some(0), None, None, [], []);
    hide Sound, Live;
  }

  /** For every backlog, then, there is a fair schedule, and it delivers the whole of it. */
  lemma SomeScheduleDelivers(p: Plan) returns (x: Story, n: nat)
    requires NonNegative(p.limits)
    ensures Goes(x) && Fair(x) && x.run(0) == Beginning(p.q)
    ensures p.q in x.run(n).locals && x.run(n).locals[p.q].h.delivered == Live(p.w(p.q), {}, 0, p.end(p.q))
  {
    BeginningIsGood(p);
    hide Good, NonNegative;
    x := FairScheduleExists(p, Beginning(p.q));
    hide Goes, Fair;
    n := EveryFairScheduleDelivers(x);
  }
}
