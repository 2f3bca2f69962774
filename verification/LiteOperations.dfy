/** The operations of the lite-pull consumer as a whole: what each one leaves of a queue is what a run of that queue's
    own steps, one after the other, leaves of it. */
module LiteOperations {
  import opened Messages
  import opened LiteQueueCache
  import opened LiteSpec
  import opened LiteSteps
  import opened LiteFailures
  import opened LiteShared

  /** The steps `es` take the queue to a state with these entries and this offset at the broker. */
  ghost predicate Ends(w: nat -> bool, s: Q, es: seq<Event>, view: QueueView, broker: Option<int>) {
    Moves(w, s, es) && Moved(w, s, es).view == view && Moved(w, s, es).broker == broker
  }

  lemma Standing(w: nat -> bool, s: Q)
    ensures Ends(w, s, [], s.view, s.broker)
  {
  }

  lemma Ahead(w: nat -> bool, s: Q, e: Event, es: seq<Event>, view: QueueView, broker: Option<int>)
    requires Possible(s, e) && Ends(w, Step(w, s, e), es, view, broker)
    ensures Ends(w, s, [e] + es, view, broker)
  {
    hide Possible, Step;
    assert ([e] + es)[1..] == es;
  }

  // ---- poll, seek, answer, reading back ----

  /** A poll takes some number of each queue's oldest rows and moves its consumed cursor past the last of them. */
  lemma PollProjects(w: nat -> bool, s: World, p: MessageQueue) returns (es: seq<Event>)
    requires s.polls.Nobody? && p in s.locals
    ensures Ends(w, Project(s, p), es, ViewOf(HandOver(s.lite), p), Get(s.broker, p))
  {
    var n := |HandedOut(s.lite)|;
    var u, k := Project(s, p), Share(s.lite, n, p);
    var a := OnTake(u, k);
    var b := OnLookUp(a);
    var c := OnMove(b);
    assert c.view == ViewOf(HandOver(s.lite), p) && c.broker == u.broker by { PollView(s, n, p); }
    hide Share, OnTake, OnLookUp, OnMove, ViewOf, HandOver;
    es := [Take(k), LookUp, Move];
    ThreeSteps(w, u, Take(k), a, LookUp, b, Move, c);
  }

  lemma OneStepEnds(w: nat -> bool, s: Q, e: Event, a: Q)
    requires Possible(s, e) && a == Step(w, s, e)
    ensures Ends(w, s, [e], a.view, a.broker)
  {
    hide Possible, Step;
    Standing(w, a);
    Ahead(w, s, e, [], a.view, a.broker);
    assert [e] + [] == [e];
  }

  lemma TwoStepsEnd(w: nat -> bool, s: Q, e: Event, a: Q, f: Event, b: Q)
    requires Possible(s, e) && a == Step(w, s, e) && Possible(a, f) && b == Step(w, a, f)
    ensures Ends(w, s, [e, f], b.view, b.broker)
  {
    hide Possible, Step;
    OneStepEnds(w, a, f, b);
    Ahead(w, s, e, [f], b.view, b.broker);
    assert [e] + [f] == [e, f];
  }

  lemma ThreeSteps(w: nat -> bool, s: Q, e: Event, a: Q, f: Event, b: Q, g: Event, c: Q)
    requires Possible(s, e) && a == Step(w, s, e) && Possible(a, f)
    requires b == Step(w, a, f) && Possible(b, g) && c == Step(w, b, g)
    ensures Ends(w, s, [e, f, g], c.view, c.broker)
  {
    hide Possible, Step;
    TwoStepsEnd(w, a, f, b, g, c);
    Ahead(w, s, e, [f, g], c.view, c.broker);
    assert [e] + [f, g] == [e, f, g];
  }

  lemma PollView(s: World, n: nat, p: MessageQueue)
    requires s.polls.Nobody? && p in s.locals && n == |HandedOut(s.lite)|
    ensures OnMove(OnLookUp(OnTake(Project(s, p), Share(s.lite, n, p)))).view == ViewOf(HandOver(s.lite), p)
  {
    var out := HandedOut(s.lite);
    assert out == s.lite.buffer[..n];
    TakeProjects(s.lite, n, p);
    AdvancedMeaning(s.lite.next.Keys, out, p);
    var mine, moves := RowsOf(p, out), Advanced(s.lite.next.Keys, out);
    assert |Offsets(mine)| == |mine|;
    if p in s.lite.next && mine != [] {
      GreatestIsUnique(moves[p] - 1, MaxOf(Offsets(mine)), Offsets(mine));
    }
    hide Share, RemoveEachFromGroups, Shrunk, RowsOf, Advanced, MaxOf, Greatest, Charged;
  }

  /** A seek of a held queue is a seek of its own queue; no other notices. */
  lemma SeekProjects(w: nat -> bool, s: World, q: MessageQueue, target: nat, p: MessageQueue) returns (es: seq<Event>)
    requires q in s.locals && p in s.locals && q in s.lite.owned && s.locals[q].seeking.NotSeeking?
    ensures Ends(w, Project(s, p), es, ViewOf(SeekTo(s.lite, q, target), p), Get(s.broker, p))
  {
    var u := Project(s, p);
    SeekView(s.lite, q, target, p);
    assert u.view.held == (p in s.lite.owned);
    hide ViewOf, SeekTo, Prune, Dropped, Shrunk, Ends;
    if p == q {
      es := SeekAlone(w, u, target);
    } else {
      Standing(w, u);
      es := [];
    }
  }

  /** A whole seek, with nobody in between. */
  lemma SeekAlone(w: nat -> bool, s: Q, target: nat) returns (es: seq<Event>)
    requires s.view.held && s.seeking.NotSeeking?
    ensures var v := s.view.(pull := Some(target), consumed := Some(target));
            Ends(w, s, es, Shrunk(v, Dropped(v.rows, target), Prune(v.rows, target)), s.broker)
  {
    hide Undelivered, RemoveEachFromGroups, Prune, Dropped, Shrunk;
    var a := s.(seeking := Checked(target));
    var b := OnSeekPull(w, a);
    var c := OnSeekCursor(b);
    var d := OnSeekPrune(c);
    ThreeSteps(w, a, SeekPull, b, SeekCursor, c, SeekPrune, d);
    Ahead(w, s, SeekBegin(target), [SeekPull, SeekCursor, SeekPrune], d.view, d.broker);
    es := [SeekBegin(target)] + [SeekPull, SeekCursor, SeekPrune];
  }

  lemma SeekView(s: Lite, q: MessageQueue, target: nat, p: MessageQueue)
    ensures var v := ViewOf(s, p);
            ViewOf(SeekTo(s, q, target), p) == if p != q then v else
              Shrunk(v.(pull := Some(target), consumed := Some(target)), Dropped(v.rows, target), Prune(v.rows, target))
  {
    var t := s.(next := s.next[q := target], consumed := s.consumed[q := target], pins := s.pins[q := target]);
    PruneProjects(t, q, target, p);
    hide PruneBelow, Prune, Dropped, RowsOf;
  }

  /** An answer moves the pull cursor only of its queue and only while the cursor is what the request was sent with. */
  lemma AnswerProjects(w: nat -> bool, s: World, q: MessageQueue, r: PullResult, p: MessageQueue)
    returns (es: seq<Event>)
    requires q in s.locals && p in s.locals && s.locals[q].pulling.Asked? && s.locals[q].pulling.at <= r.next
    ensures Ends(w, Project(s, p), es, ViewOf(Follow(s.lite, q, s.locals[q].pulling.at, r), p), Get(s.broker, p))
  {
    var u, at := Project(s, p), s.locals[q].pulling.at;
    PutNext(s.lite, q, r.next, p);
    assert u.view.pull == Get(s.lite.next, p);
    hide ViewOf, Live;
    if p != q {
      Standing(w, u);
      es := [];
    } else {
      var a := OnJudge(w, u, r.next, false);
      if Intact(s.lite, q, at) {
        TwoStepsEnd(w, u, Judge(r.next, false), a, Write, OnWrite(a));
        es := [Judge(r.next, false), Write];
      } else {
        OneStepEnds(w, u, Judge(r.next, false), a);
        es := [Judge(r.next, false)];
      }
    }
  }

  /** Asking for a committed offset fills the slot of its queue from the broker, if it has none. */
  lemma ReadBackProjects(w: nat -> bool, s: World, q: MessageQueue, p: MessageQueue) returns (es: seq<Event>)
    requires q in s.locals && p in s.locals
    ensures Ends(w, Project(s, p), es, ViewOf(ReadBack(s.lite, s.broker, q), p), Get(s.broker, p))
  {
    var u := Project(s, p);
    if q in s.broker { PutSlot(s.lite, q, s.broker[q], p); }
    assert u.view.slot == Get(s.lite.table, p);
    hide ViewOf;
    if p != q {
      Standing(w, u);
      es := [];
    } else {
      var a := Step(w, u, Query);
      TwoStepsEnd(w, u, Query, a, Fill, Step(w, a, Fill));
      es := [Query, Fill];
    }
  }

  // ---- giving up and taking over ----

  /** The entries of a queue that was given up. */
  function GivenUpView(v: QueueView): QueueView {
    v.(held := false, pull := None, consumed := None, rows := [], rounds := [])
  }

  lemma AssignmentGivesUp(w: nat -> bool, s: Q) returns (es: seq<Event>)
    requires s.view.held && s.leaving.Steady? && s.starting.None?
    ensures Ends(w, s, es, GivenUpView(s.view), s.broker)
  {
    var a := OnLeave(s, Assignment);
    var b := OnDrop(a, false);
    var c := OnDrop(b, false);
    var d := OnDrop(c, false);
    ThreeSteps(w, a, Drop(false), b, Drop(false), c, Drop(false), d);
    Ahead(w, s, Leave(Assignment), [Drop(false), Drop(false), Drop(false)], d.view, d.broker);
    es := [Leave(Assignment)] + [Drop(false), Drop(false), Drop(false)];
  }

  lemma UnsubscriptionGivesUp(w: nat -> bool, s: Q) returns (es: seq<Event>)
    requires s.view.held && s.leaving.Steady? && s.starting.None?
    ensures Ends(w, s, es, GivenUpView(s.view), s.broker)
  {
    var a := OnLeave(s, Unsubscription);
    var b := OnDrop(a, false);
    var c := OnDrop(b, false);
    var d := OnDrop(c, false);
    ThreeSteps(w, a, Drop(false), b, Drop(false), c, Drop(false), d);
    Ahead(w, s, Leave(Unsubscription), [Drop(false), Drop(false), Drop(false)], d.view, d.broker);
    es := [Leave(Unsubscription)] + [Drop(false), Drop(false), Drop(false)];
  }

  lemma LastDrops(w: nat -> bool, s: Q, reached: bool)
    requires s.leaving == Letting(Rebalance, 3)
    ensures Ends(w, s, [Drop(reached), Drop(reached), Drop(reached)],
                 s.view.(consumed := None, slot := None, rows := [], rounds := []), s.broker)
  {
    var a := OnDrop(s, reached);
    var b := OnDrop(a, reached);
    ThreeSteps(w, s, Drop(reached), a, Drop(reached), b, Drop(reached), OnDrop(b, reached));
  }

  lemma FirstDrops(s: Q, reached: bool)
    requires s.leaving == Letting(Rebalance, 1)
    ensures var t := OnDrop(OnDrop(s, reached), reached);
            && t.leaving == Letting(Rebalance, 3) && t.view == s.view.(pull := None)
            && t.broker == if reached && s.view.slot.Some? then s.view.slot else s.broker
  {
  }

  lemma RebalanceGivesUp(w: nat -> bool, s: Q, reached: bool) returns (es: seq<Event>)
    requires s.view.held && s.leaving.Steady? && s.starting.None? && s.pulling.Resting?
    ensures Ends(w, s, es, GivenUpView(s.view).(slot := None),
                 if reached && s.view.slot.Some? then s.view.slot else s.broker)
  {
    var d := Drop(reached);
    var a := OnLeave(s, Rebalance);
    FirstDrops(a, reached);
    var b := OnDrop(a, reached);
    var c := OnDrop(b, reached);
    var view, broker := GivenUpView(s.view).(slot := None), c.broker;
    LastDrops(w, c, reached);
    hide Ends;
    Ahead(w, b, d, [d, d, d], view, broker);
    Ahead(w, a, d, [d] + [d, d, d], view, broker);
    Ahead(w, s, Leave(Rebalance), [d] + ([d] + [d, d, d]), view, broker);
    es := [Leave(Rebalance)] + ([d] + ([d] + [d, d, d]));
  }

  /** A queue is named, and its start offset is written if it has none and one could be looked up. */
  lemma TakesOver(w: nat -> bool, s: Q, start: Option<nat>) returns (es: seq<Event>)
    requires s.leaving.Steady? && s.starting.None?
    requires s.view.pull.None? && start.Some? && s.broker.Some? && s.broker.value >= 0 ==> s.broker.value == start.value
    ensures Ends(w, s, es, s.view.(held := true, pull := if s.view.pull.Some? then s.view.pull else start), s.broker)
  {
    var a := s.(view := s.view.(held := true));
    if s.view.pull.None? && start.Some? {
      var st := Start(start.value, s.broker.Some? && s.broker.value >= 0);
      var b := a.(starting := Some(st));
      var c := OnStart(a, st);
      TwoStepsEnd(w, a, Resolve(st), b, StartWrite, c);
      es := [Resolve(st), StartWrite];
    } else {
      Standing(w, a);
      es := [];
    }
    if !s.view.held {
      Ahead(w, s, Hold, es, a.view.(pull := if s.view.pull.Some? then s.view.pull else start), s.broker);
      es := [Hold] + es;
    }
  }

  /** Nobody is in the middle of giving the queue up or of starting it. */
  predicate AtEase(l: Local) {
    l.leaving.Steady? && l.starting.None?
  }

  /** The start offsets are the broker's committed ones where it has any. */
  predicate FromTheBroker(s: World, starts: map<MessageQueue, nat>) {
    forall q | q in starts && q in s.broker && s.broker[q] >= 0 :: s.broker[q] == starts[q]
  }

  lemma RevokeView(s: Lite, gone: set<MessageQueue>, p: MessageQueue)
    ensures ViewOf(Revoke(s, gone), p)
            == if p in gone then ViewOf(s, p).(pull := None, consumed := None, rows := [], rounds := []) else ViewOf(s, p)
  {
    WithoutRows(gone, s.buffer, p);
  }

  lemma AssignView(s: Lite, queues: set<MessageQueue>, starts: map<MessageQueue, nat>, p: MessageQueue)
    ensures var v := ViewOf(s, p);
            ViewOf(AssignTo(s, queues, starts), p) ==
              if p in queues then v.(held := true, pull := if v.pull.Some? then v.pull else Get(starts, p))
              else if p in s.owned then GivenUpView(v) else v
  {
    RevokeView(s, s.owned - queues, p);
    hide RowsOf, Without;
  }

  /** An assignment gives up the queues it does not name, names the others and starts those that have no pull cursor. */
  lemma AssignProjects(w: nat -> bool, s: World, queues: set<MessageQueue>, starts: map<MessageQueue, nat>,
                       p: MessageQueue)
    returns (es: seq<Event>)
    requires p in s.locals && AtEase(s.locals[p]) && FromTheBroker(s, starts)
    ensures Ends(w, Project(s, p), es, ViewOf(AssignTo(s.lite, queues, starts), p), Get(s.broker, p))
  {
    var u := Project(s, p);
    AssignView(s.lite, queues, starts, p);
    assert u.view.held == (p in s.lite.owned);
    hide ViewOf, AssignTo, Ends;
    if p in queues {
      es := TakesOver(w, u, Get(starts, p));
    } else if p in s.lite.owned {
      es := AssignmentGivesUp(w, u);
    } else {
      Standing(w, u);
      es := [];
    }
  }

  lemma UnsubscribeView(s: Lite, topic: string, p: MessageQueue)
    ensures ViewOf(UnsubscribeFrom(s, topic), p)
            == if p in QueuesAbout(s, topic) then GivenUpView(ViewOf(s, p)) else ViewOf(s, p)
  {
    RevokeView(s, QueuesAbout(s, topic), p);
    hide RowsOf, Without;
  }

  /** The end of a subscription gives up the queues of its topic, whatever the pull thread is doing, and no others. */
  lemma UnsubscribeProjects(w: nat -> bool, s: World, topic: string, p: MessageQueue) returns (es: seq<Event>)
    requires p in s.locals && AtEase(s.locals[p])
    ensures Ends(w, Project(s, p), es, ViewOf(UnsubscribeFrom(s.lite, topic), p), Get(s.broker, p))
    ensures p !in s.lite.owned || p.topic != topic ==> es == []
  {
    var u := Project(s, p);
    UnsubscribeView(s.lite, topic, p);
    assert u.view.held == (p in s.lite.owned);
    hide ViewOf, UnsubscribeFrom, Ends;
    if p in QueuesAbout(s.lite, topic) {
      es := UnsubscriptionGivesUp(w, u);
    } else {
      Standing(w, u);
      es := [];
    }
  }

  lemma RebalanceView(s: Lite, queues: set<MessageQueue>, starts: map<MessageQueue, nat>, p: MessageQueue)
    ensures var v := ViewOf(s, p);
            ViewOf(RebalanceTo(s, queues, starts), p) ==
              if p in queues && p !in s.owned then v.(held := true, pull := if v.pull.Some? then v.pull else Get(starts, p))
              else if p in s.owned && p !in queues then GivenUpView(v).(slot := None) else v
  {
    RevokeView(s.(next := LiteSpec.Resolve(s.next, queues - s.owned, starts)), s.owned - queues, p);
    hide RowsOf, Without;
  }

  /** A rebalance round sends the slots of the queues it releases, gives them up, and starts the ones it takes over. */
  lemma RebalanceProjects(w: nat -> bool, s: World, queues: set<MessageQueue>, starts: map<MessageQueue, nat>,
                          reachable: set<MessageQueue>, p: MessageQueue)
    returns (es: seq<Event>)
    requires p in s.locals && AtEase(s.locals[p]) && s.locals[p].pulling.Resting? && FromTheBroker(s, starts)
    ensures Ends(w, Project(s, p), es, ViewOf(RebalanceTo(s.lite, queues, starts), p),
                 Get(BrokerAfterRebalance(s.lite, queues, reachable, s.broker), p))
  {
    var u := Project(s, p);
    RebalanceView(s.lite, queues, starts, p);
    assert u.view.held == (p in s.lite.owned) && u.view.slot == Get(s.lite.table, p);
    hide ViewOf, RebalanceTo, Ends;
    if p in queues && p !in s.lite.owned {
      es := TakesOver(w, u, Get(starts, p));
    } else if p in s.lite.owned && p !in queues {
      es := RebalanceGivesUp(w, u, p in reachable);
    } else {
      Standing(w, u);
      es := [];
    }
  }

  // ---- commits ----

  lemma CommitView(s: Lite, table: map<MessageQueue, int>, p: MessageQueue)
    ensures ViewOf(s.(table := table), p) == ViewOf(s, p).(slot := Get(table, p))
  {
  }

  /** A queue's slot takes the value it is to take, if any, and is then sent. */
  lemma Committing(w: nat -> bool, s: Q, scope: Scope, value: int, writes: bool, persist: bool, reached: bool)
    returns (es: seq<Event>)
    requires writes && !scope.At? ==> value >= 0 && s.view.consumed == Some(value)
    ensures var slot := if writes then Some(value) else s.view.slot;
            Ends(w, s, es, s.view.(slot := slot), if persist && reached && slot.Some? then slot else s.broker)
  {
    var t := s;
    if writes {
      t := if scope.At? then OnCommitAt(w, s, value, true) else Step(w, Step(w, s, CommitRead), CommitWrite(true));
    }
    hide Undelivered;
    if persist {
      OneStepEnds(w, t, Persist(reached), OnPersist(t, reached));
      es := [Persist(reached)];
    } else {
      Standing(w, t);
      es := [];
    }
    if writes {
      var view, broker := OnPersist(t, persist && reached).view, OnPersist(t, persist && reached).broker;
      if scope.At? {
        Ahead(w, s, CommitAt(value, true), es, view, broker);
        es := [CommitAt(value, true)] + es;
      } else {
        var a := Step(w, s, CommitRead);
        Ahead(w, a, CommitWrite(true), es, view, broker);
        Ahead(w, s, CommitRead, [CommitWrite(true)] + es, view, broker);
        es := [CommitRead] + ([CommitWrite(true)] + es);
      }
    }
  }

  /** A commit writes and sends the slots of the queues it names, and a persisting one sweeps the others. */
  lemma CommitProjects(w: nat -> bool, s: World, scope: Scope, persist: bool, reachable: set<MessageQueue>,
                       p: MessageQueue)
    returns (es: seq<Event>)
    requires p in s.locals
    ensures Ends(w, Project(s, p), es, ViewOf(s.lite.(table := TableAfter(s.lite, scope, persist)), p),
                 Get(BrokerAfter(s.lite, scope, persist, reachable, s.broker), p))
  {
    var u := Project(s, p);
    CommitMeansPerQueue(s.lite, scope, persist, reachable, s.broker, p);
    CommitView(s.lite, TableAfter(s.lite, scope, persist), p);
    assert u.view.slot == Get(s.lite.table, p) && u.view.consumed == Get(s.lite.consumed, p);
    hide ViewOf, TableAfter, BrokerAfter, Ends;
    if p in Named(s.lite, scope) {
      es := Committing(w, u, scope, LiteSpec.Target(s.lite, scope, p), Writes(s.lite, scope, p), persist, p in reachable);
    } else if persist && Named(s.lite, scope) != {} {
      OneStepEnds(w, u, Sweep, Step(w, u, Sweep));
      es := [Sweep];
    } else {
      Standing(w, u);
      es := [];
    }
  }
}
