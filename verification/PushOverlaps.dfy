/** What goes wrong when the actors of one push queue lay hands on the same message, and that nothing goes wrong
    otherwise. */
module PushOverlaps {
  import opened Messages
  import opened PushSpec
  import opened PushRuns

  // ---- building runs ----

  predicate Reaches(s: Push, es: seq<Event>, t: Push) {
    Runs(s, es) && End(s, es) == t
  }

  lemma {:induction false} Extend(s: Push, es: seq<Event>, e: Event)
    requires Runs(s, es) && Enabled(End(s, es), e)
    ensures Runs(s, es + [e]) && End(s, es + [e]) == After(End(s, es), e)
    decreases |es|
  {
    hide Enabled, After;
    if es == [] {
      assert [e][1..] == [];
    } else {
      Extend(After(s, es[0]), es[1..], e);
      assert (es + [e])[1..] == es[1..] + [e];
    }
  }

  lemma Go(s: Push, es: seq<Event>, t: Push, e: Event) returns (fs: seq<Event>, u: Push)
    requires Reaches(s, es, t) && Enabled(t, e)
    ensures fs == es + [e] && u == After(t, e) && Reaches(s, fs, u)
  {
    Extend(s, es, e);
    fs, u := es + [e], After(t, e);
  }

  function Only(keep: bool, m: Msg): seq<Msg> {
    if keep then [m] else []
  }

  /** The state after the send-back loop handled one message: looked up, then sent if still attached. */
  function AfterOne(s: Push, answer: bool): Push
    requires AtMessage(s.hand)
  {
    var m := s.hand.batch[s.hand.at];
    s.(hand := s.hand.(at := s.hand.at + 1, failed := s.hand.failed + Only(m in Entries(s) && !answer, m)),
       sent := s.sent + multiset(Only(m in Entries(s) && answer, m)))
  }

  lemma TailStep(s0: Push, es: seq<Event>, s: Push, answer: bool) returns (fs: seq<Event>, t: Push)
    requires Reaches(s0, es, s) && AtMessage(s.hand) && !s.hand.sure
    ensures Reaches(s0, fs, t) && t == AfterOne(s, answer) && es <= fs
  {
    hide Reaches;
    fs, t := Go(s0, es, s, Check);
    if s.hand.batch[s.hand.at] in Entries(s) {
      fs, t := Go(s0, fs, t, SendBack(answer));
    }
    assert s.hand.failed + [] == s.hand.failed && s.sent + multiset([]) == s.sent;
  }

  /** The state after it handled the first `k` messages of the tail. */
  function AfterSome(s: Push, answers: seq<bool>, k: nat): Push
    requires s.hand.Settling? && s.hand.at + |answers| == |s.hand.batch| && k <= |answers|
  {
    var tail := s.hand.batch[s.hand.at..];
    s.(hand := s.hand.(at := s.hand.at + k, failed := Answered(tail[..k], Entries(s), answers[..k], false)),
       sent := s.sent + multiset(Answered(tail[..k], Entries(s), answers[..k], true)))
  }

  lemma AfterSomeGrows(s: Push, answers: seq<bool>, k: nat)
    requires s.hand.Settling? && s.hand.at + |answers| == |s.hand.batch| && 0 < k <= |answers|
    ensures var t := AfterSome(s, answers, k - 1);
      AtMessage(t.hand) && AfterSome(s, answers, k) == AfterOne(t, answers[k - 1])
  {
    var tail, t := s.hand.batch[s.hand.at..], AfterSome(s, answers, k - 1);
    AnsweredGrows(tail, Entries(s), answers, k, true);
    AnsweredGrows(tail, Entries(s), answers, k, false);
    hide Answered, Only;
    assert Entries(t) == Entries(s) && t.hand.batch[t.hand.at] == tail[k - 1];
    CountsJoin(s.sent, Answered(tail[..k - 1], Entries(s), answers[..k - 1], true),
               Only(tail[k - 1] in Entries(s) && answers[k - 1], tail[k - 1]));
  }

  lemma CountsJoin(sent: multiset<Msg>, a: seq<Msg>, b: seq<Msg>)
    ensures sent + multiset(a) + multiset(b) == sent + multiset(a + b)
  {
  }

  lemma AnsweredGrows(tail: seq<Msg>, attached: seq<Msg>, answers: seq<bool>, k: nat, ok: bool)
    requires |answers| == |tail| && 0 < k <= |tail|
    ensures Answered(tail[..k], attached, answers[..k], ok)
         == Answered(tail[..k - 1], attached, answers[..k - 1], ok)
            + Only(tail[k - 1] in attached && answers[k - 1] == ok, tail[k - 1])
  {
    assert tail[..k][..k - 1] == tail[..k - 1] && answers[..k][..k - 1] == answers[..k - 1];
  }

  /** The send-back loop, uninterrupted: after `k` messages of the tail. */
  lemma {:induction false} TailRun(s0: Push, es: seq<Event>, s: Push, answers: seq<bool>, k: nat)
    returns (fs: seq<Event>, t: Push)
    requires Reaches(s0, es, s) && s.hand.Settling? && !s.hand.sure && s.hand.failed == []
    requires s.hand.at + |answers| == |s.hand.batch| && k <= |answers|
    ensures Reaches(s0, fs, t) && t == AfterSome(s, answers, k) && es <= fs
    decreases k
  {
    if k == 0 {
      assert s.hand.batch[s.hand.at..][..0] == [] && answers[..0] == [];
      assert s.sent + multiset([]) == s.sent;
      fs, t := es, s;
    } else {
      fs, t := TailRun(s0, es, s, answers, k - 1);
      assert !t.hand.sure;
      AfterSomeGrows(s, answers, k);
      hide Reaches, AfterSome, AfterOne;
      fs, t := TailStep(s0, fs, t, answers[k - 1]);
    }
  }

  /** A settlement nobody interrupts is one run of the machine, and this is where it ends. */
  lemma SettleIsARun(s: Push, acks: nat, answers: seq<bool>) returns (es: seq<Event>, t: Push)
    requires s.hand.Listening? && !s.broadcast && acks + |answers| == |s.hand.batch|
    ensures Reaches(s, es, t) && es != [] && es[0] == Return(acks)
    ensures var sent := Answered(s.hand.batch[acks..], Entries(s), answers, true);
      var failed := Answered(s.hand.batch[acks..], Entries(s), answers, false);
      var processed := Others(s.hand.batch, failed);
      && t.sent == s.sent + multiset(sent)
      && t.pending == (if s.alive then failed + s.pending else s.pending)
      && t.inflight == Others(s.inflight, s.hand.batch)
      && t.offset == (if processed == [] || s.hand.epoch != s.epoch || s.frozen then s.offset
                      else Raise(s.offset, NextOffset(processed, failed)))
  {
    assert Reaches(s, [], s);
    es, t := Go(s, [], s, Return(acks));
    var s1 := t;
    es, t := TailRun(s, es, s1, answers, |answers|);
    var tail := s.hand.batch[acks..];
    assert tail[..|answers|] == tail && answers[..|answers|] == answers;
    hide Reaches, Answered, Others, NextOffset;
    es, t := Go(s, es, t, Requeue);
    es, t := Go(s, es, t, Advance);
    es, t := Go(s, es, t, Deregister);
  }

  /**
   * So a settlement of whatever the listener answered is a run: one that acknowledges nothing unless it reported success,
   * and after a success what its index says. Every attached message that is not acknowledged is sent back or kept.
   */
  lemma SettlementIsARun(s: Push, status: Status, ackIndex: int, answers: seq<bool>)
    returns (es: seq<Event>, t: Push, sent: seq<Msg>, failed: seq<Msg>)
    requires s.hand.Listening? && !s.broadcast && (status == Success ==> ackIndex >= -1)
    requires |answers| == |Tail(s.hand.batch, status, ackIndex)|
    ensures var batch, tail := s.hand.batch, Tail(s.hand.batch, status, ackIndex);
      var processed := Others(batch, failed);
      && Reaches(s, es, t)
      && sent == Answered(tail, Entries(s), answers, true) && failed == Answered(tail, Entries(s), answers, false)
      && t.sent == s.sent + multiset(sent)
      && t.pending == (if s.alive then failed + s.pending else s.pending)
      && t.inflight == Others(s.inflight, batch)
      && t.offset == (if processed == [] || s.hand.epoch != s.epoch || s.frozen then s.offset
                      else Raise(s.offset, NextOffset(processed, failed)))
    ensures es != []
    ensures status != Success ==>
      es[0] == Return(0) && forall m :: m in s.hand.batch && m in Entries(s) ==> m in sent + failed
    ensures status == Success ==>
      es[0] == Return(if ackIndex < |s.hand.batch| then ackIndex + 1 else |s.hand.batch|)
  {
    var batch, tail := s.hand.batch, Tail(s.hand.batch, status, ackIndex);
    TailIs(batch, status, ackIndex);
    var acks := |batch| - |tail|;
    assert batch[acks..] == tail;
    hide Tail, Reaches, Answered, Others, NextOffset, Raise, Entries;
    es, t := SettleIsARun(s, acks, answers);
    sent, failed := Answered(tail, Entries(s), answers, true), Answered(tail, Entries(s), answers, false);
    AllAttachedAreAnswered(tail, Entries(s), answers);
  }

  lemma AllAttachedAreAnswered(tail: seq<Msg>, attached: seq<Msg>, answers: seq<bool>)
    requires |answers| == |tail|
    ensures forall m :: m in tail && m in attached ==>
      m in Answered(tail, attached, answers, true) + Answered(tail, attached, answers, false)
  {
    hide Answered;
    forall m | m in tail && m in attached
      ensures m in Answered(tail, attached, answers, true) + Answered(tail, attached, answers, false)
    {
      AttachedIsAnswered(tail, attached, answers, m);
    }
  }

  // ---- the guard is exact: a step it forbids leads to a broken promise ----

  /** A run of steps the guard allows. */
  predicate Cleanly(s: Push, es: seq<Event>, t: Push) {
    Runs(s, es) && Guarded(s, es) && End(s, es) == t
  }

  lemma {:induction false} ExtendCleanly(s: Push, es: seq<Event>, e: Event)
    requires Runs(s, es) && Guarded(s, es) && Enabled(End(s, es), e) && Apart(End(s, es), e)
    ensures Runs(s, es + [e]) && Guarded(s, es + [e]) && End(s, es + [e]) == After(End(s, es), e)
    decreases |es|
  {
    hide Enabled, After, Apart;
    if es == [] {
      assert [e][1..] == [];
    } else {
      ExtendCleanly(After(s, es[0]), es[1..], e);
      assert (es + [e])[1..] == es[1..] + [e];
    }
  }

  lemma GoCleanly(s: Push, es: seq<Event>, t: Push, e: Event) returns (fs: seq<Event>, u: Push)
    requires Cleanly(s, es, t) && Enabled(t, e) && Apart(t, e)
    ensures Cleanly(s, fs, u) && u == After(t, e)
  {
    ExtendCleanly(s, es, e);
    fs, u := es + [e], After(t, e);
  }

  /** The broker takes the message the sweep holds, unless it has already. */
  lemma Ship(s0: Push, es: seq<Event>, s: Push) returns (fs: seq<Event>, t: Push)
    requires Cleanly(s0, es, s) && !s.sweep.Resting? && s.sent[s.sweep.msg] >= (if s.sweep.Picked? then 0 else 1)
    ensures Cleanly(s0, fs, t) && t == s.(sweep := Returned(s.sweep.msg), sent := t.sent)
    ensures t.sent[s.sweep.msg] == s.sent[s.sweep.msg] + (if s.sweep.Picked? then 1 else 0) >= 1
  {
    hide Cleanly;
    if s.sweep.Picked? {
      fs, t := GoCleanly(s0, es, s, SweepSend(true));
    } else {
      fs, t := es, s;
    }
  }

  /** A message of the present buffer that is still owed and yet back at the broker. */
  lemma OwedAndSent(s: Push, m: Msg)
    requires m in s.pulled && m.epoch == s.epoch && m in s.sent
    requires s.sweep.Resting? && (m in s.pending || m in InHand(s))
    ensures !Promise(s)
  {
    assert m in Buffered(s) || m in InFlight(s);
    hide Buffered, InFlight, InHand;
  }

  /** A message of the present buffer that was settled and yet goes back to the broker. */
  lemma SettledAndSent(s: Push, m: Msg)
    requires m in s.pulled && m.epoch == s.epoch && m in s.sent && (m in s.acked || m in s.dropped)
    ensures !Promise(s)
  {
    hide Buffered, InFlight;
  }

  lemma SentTwice(s: Push, m: Msg)
    requires s.sent[m] >= 2
    ensures !Promise(s)
  {
    assert !(s.sent[m] <= 1);
  }

  lemma SweptIsPresent(s: Push)
    requires Shape(s) && !s.sweep.Resting? && s.sweep.msg in Entries(s)
    ensures s.sweep.msg in s.pulled && s.sweep.msg.epoch == s.epoch && IsHead(s, s.sweep.msg)
    ensures s.sent[s.sweep.msg] == if s.sweep.Picked? then 0 else 1
  {
    EntriesArePresent(s);
    hide Ascending, Head;
  }

  lemma TakenFromUnderTheSweep(s: Push, size: nat)
    requires Shape(s) && s.hand.Idle? && s.owned && s.pending != [] && !s.sweep.Resting? && s.sweep.msg in s.pending
    ensures var t := OnTake(s, size);
      t.hand.Taken? && s.sweep.msg in t.hand.batch && s.sweep.msg !in Entries(t)
  {
    SweptIsPresent(s);
    HeadIsFirst(s, s.sweep.msg);
    AscendingIsDistinct(s.pending, 0);
    var n := BatchSize(s, size);
    assert s.pending[..n][0] == s.sweep.msg;
    assert forall x :: x in s.pending[n..] ==> x in s.pending[1..];
  }

  lemma DirtyTakeFails(s: Push, size: nat) returns (es: seq<Event>, t: Push)
    requires Inv(s) && Enabled(s, Take(size)) && !Apart(s, Take(size))
    ensures Cleanly(After(s, Take(size)), es, t) && !Promise(t)
  {
    var u, m := After(s, Take(size)), s.sweep.msg;
    assert Cleanly(u, [], u);
    assert m in Entries(s);
    hide Cleanly, Promise;
    SweptIsPresent(s);
    TakenFromUnderTheSweep(s, size);
    hide Shape, Head;
    es, t := Ship(u, [], u);
    assert Entries(t) == Entries(u);
    es, t := GoCleanly(u, es, t, SweepRemove);
    OwedAndSent(t, m);
  }

  /** Registering a batch in front of the message the sweep holds buries it. */
  lemma BuriedUnderTheSweep(s: Push)
    requires Shape(s) && s.hand.Passed? && s.hand.epoch == s.epoch && !s.sweep.Resting? && s.sweep.msg in s.pending
    ensures var t := OnRegister(s); s.sweep.msg in t.pending && !IsHead(t, s.sweep.msg)
  {
    var t := OnRegister(s);
    assert s.hand.batch[0] in s.hand.batch && s.hand.batch[0] in Entries(t);
    hide Ascending, Head;
  }

  lemma StaleEntryFails(s: Push, m: Msg)
    requires m in Entries(s) && m.epoch != s.epoch
    ensures !Promise(s)
  {
  }

  lemma DirtyRegisterFails(s: Push) returns (es: seq<Event>, t: Push)
    requires Inv(s) && Enabled(s, Register) && !Apart(s, Register)
    ensures Cleanly(After(s, Register), es, t) && !Promise(t)
  {
    var u := After(s, Register);
    assert Cleanly(u, [], u);
    hide Cleanly, Promise, Head;
    if s.hand.epoch != s.epoch {
      assert s.hand.batch[0] in s.hand.batch && s.hand.batch[0] in Entries(u);
      es, t := [], u;
      StaleEntryFails(t, s.hand.batch[0]);
    } else {
      var m := s.sweep.msg;
      assert m in Entries(s);
      SweptIsPresent(s);
      BuriedUnderTheSweep(s);
      hide Shape;
      es, t := Ship(u, [], u);
      assert Entries(t) == Entries(u);
      es, t := GoCleanly(u, es, t, SweepRemove);
      OwedAndSent(t, m);
    }
  }

  /** The send-back loop passes over what the queue no longer lists. */
  lemma {:induction false} PassOver(s0: Push, es: seq<Event>, s: Push, j: nat) returns (fs: seq<Event>, t: Push)
    requires Cleanly(s0, es, s) && s.hand.Settling? && !s.hand.sure && s.hand.at <= j <= |s.hand.batch|
    requires forall i :: s.hand.at <= i < j ==> s.hand.batch[i] !in Entries(s)
    ensures Cleanly(s0, fs, t) && t == s.(hand := s.hand.(at := j))
    decreases j - s.hand.at
  {
    hide Cleanly;
    fs, t := es, s;
    if s.hand.at < j {
      fs, t := GoCleanly(s0, es, s, Check);
      fs, t := PassOver(s0, fs, t, j);
    }
  }

  /** A batch that is being settled reaches the message the sweep holds, and both send it back. */
  lemma BothSend(s0: Push, es: seq<Event>, s: Push, j: nat) returns (fs: seq<Event>, t: Push)
    requires Cleanly(s0, es, s) && s.hand.Settling?
    requires s.hand.at <= j < |s.hand.batch| && (s.hand.sure ==> s.hand.at == j)
    requires forall i :: s.hand.at <= i < j ==> s.hand.batch[i] !in Entries(s)
    requires !s.sweep.Resting? && s.sweep.msg == s.hand.batch[j] && s.hand.batch[j] in Entries(s)
    requires s.sent[s.sweep.msg] >= (if s.sweep.Picked? then 0 else 1)
    ensures Cleanly(s0, fs, t) && !Promise(t)
  {
    hide Cleanly, Promise;
    fs, t := es, s;
    if !s.hand.sure {
      fs, t := PassOver(s0, es, s, j);
      assert Entries(t) == Entries(s);
      fs, t := GoCleanly(s0, fs, t, Check);
    }
    fs, t := GoCleanly(s0, fs, t, SendBack(true));
    assert t.sent[s.sweep.msg] == s.sent[s.sweep.msg] + 1;
    fs, t := Ship(s0, fs, t);
    SentTwice(t, s.sweep.msg);
  }

  /** Before the head of the queue nothing of an ordered batch is listed. */
  lemma NothingBeforeTheHead(s: Push, b: seq<Msg>, j: nat)
    requires Ascending(b) && j < |b| && IsHead(s, b[j])
    ensures forall i :: 0 <= i < j ==> b[i] !in Entries(s)
  {
  }

  lemma SweptIsListened(s: Push) returns (j: nat)
    requires Shape(s) && s.hand.Listening? && !s.sweep.Resting? && s.sweep.msg in s.inflight
    ensures j < |s.hand.batch| && s.hand.batch[j] == s.sweep.msg && s.sweep.msg in Entries(s)
    ensures forall i :: 0 <= i < j ==> s.hand.batch[i] !in Entries(s)
  {
    assert s.sweep.msg in Entries(s) && s.sweep.msg in s.hand.batch;
    SweptIsPresent(s);
    j :| 0 <= j < |s.hand.batch| && s.hand.batch[j] == s.sweep.msg;
    hide Head;
    NothingBeforeTheHead(s, s.hand.batch, j);
  }

  lemma DirtyReturnFails(s: Push, acks: nat) returns (es: seq<Event>, t: Push)
    requires Inv(s) && Enabled(s, Return(acks)) && !Apart(s, Return(acks))
    ensures Cleanly(After(s, Return(acks)), es, t) && !Promise(t)
  {
    var u, m, b := After(s, Return(acks)), s.sweep.msg, s.hand.batch;
    assert Cleanly(u, [], u);
    hide Cleanly, Promise, BufferShape, HandShape, OrderShape, SweepShape, Ledger, Checked, OffsetSafe, IsHead;
    var j := SweptIsListened(s);
    SweptIsPresent(s);
    assert Entries(u) == Entries(s);
    if s.broadcast || j < acks {
      assert m in u.acked || m in u.dropped by {
        if j < acks { assert b[..acks][j] == m; } else { assert b[acks..][j - acks] == m; }
      }
      es, t := Ship(u, [], u);
      SettledAndSent(t, m);
    } else {
      es, t := BothSend(u, [], u, j);
    }
  }

  lemma DirtyRequeueFails(s: Push) returns (es: seq<Event>, t: Push)
    requires Inv(s) && Enabled(s, Requeue) && !Apart(s, Requeue)
    ensures Cleanly(After(s, Requeue), es, t) && !Promise(t)
  {
    var u := After(s, Requeue);
    assert Cleanly(u, [], u);
    hide Cleanly, Promise, Head;
    var m := s.hand.failed[0];
    assert m in s.hand.failed && m in s.hand.batch && m in Entries(u);
    es, t := [], u;
    StaleEntryFails(t, m);
  }

  /** What the sweep picks although it is being settled was settled, failed, or is about to go back. */
  lemma UnderSettlementIs(s: Push, m: Msg) returns (j: nat)
    requires Shape(s) && UnderSettlement(s, m)
    ensures s.hand.epoch == s.epoch && j < |s.hand.batch| && s.hand.batch[j] == m
    ensures m !in s.pending
    ensures m !in InHand(s) || (s.hand.Settling? && (m in s.hand.failed || s.hand.at <= j))
  {
    assert m in s.hand.batch;
    j :| 0 <= j < |s.hand.batch| && s.hand.batch[j] == m;
    if s.hand.Settling? && j < s.hand.at {
      AscendingIsDistinct(s.hand.batch, j);
      assert m !in s.hand.batch[s.hand.at..];
    }
    hide Ascending, IsHead;
  }

  lemma PickedSettledFails(s: Push, m: Msg) returns (es: seq<Event>, t: Push)
    requires Ledger(s) && s.sweep.Resting? && Entries(s) != [] && Head(Entries(s)) == m
    requires m in s.pulled && m.epoch == s.epoch && m !in s.pending && m !in InHand(s)
    ensures Cleanly(OnSweepPick(s), es, t) && !Promise(t)
  {
    var u := OnSweepPick(s);
    assert Cleanly(u, [], u);
    assert m !in Buffered(s) && m !in InFlight(s);
    hide Cleanly, Promise, Head, Buffered, InFlight;
    es, t := Ship(u, [], u);
    if m in s.sent {
      SentTwice(t, m);
    } else {
      SettledAndSent(t, m);
    }
  }

  lemma PickedFailedFails(s: Push, m: Msg) returns (es: seq<Event>, t: Push)
    requires s.sweep.Resting? && Entries(s) != [] && Head(Entries(s)) == m
    requires m in s.pulled && m.epoch == s.epoch && s.hand.Settling? && m in s.hand.failed
    ensures Cleanly(OnSweepPick(s), es, t) && !Promise(t)
  {
    var u := OnSweepPick(s);
    assert Cleanly(u, [], u);
    hide Cleanly, Promise, Head;
    es, t := Ship(u, [], u);
    es, t := GoCleanly(u, es, t, SweepRemove);
    OwedAndSent(t, m);
  }

  lemma DirtyPickFails(s: Push) returns (es: seq<Event>, t: Push)
    requires Inv(s) && Enabled(s, SweepPick) && !Apart(s, SweepPick)
    ensures Cleanly(After(s, SweepPick), es, t) && !Promise(t)
  {
    var u, m := After(s, SweepPick), Head(Entries(s));
    assert Cleanly(u, [], u);
    hide Cleanly, Promise, Head;
    var j := UnderSettlementIs(s, m);
    assert m in s.pulled && m.epoch == s.epoch by { EntriesArePresent(s); }
    if m !in InHand(s) {
      es, t := PickedSettledFails(s, m);
    } else if m in s.hand.failed {
      es, t := PickedFailedFails(s, m);
    } else {
      NothingBeforeTheHead(s, s.hand.batch, j);
      assert s.hand.sure ==> s.hand.batch[s.hand.at] in Entries(s);
      hide Shape, Ascending;
      assert Entries(u) == Entries(s);
      es, t := BothSend(u, [], u, j);
    }
  }

  lemma DirtyFails(s: Push, e: Event) returns (es: seq<Event>, t: Push)
    requires Inv(s) && Enabled(s, e) && !Apart(s, e)
    ensures Cleanly(After(s, e), es, t) && !Promise(t)
  {
    match e
    case Take(size) => es, t := DirtyTakeFails(s, size);
    case Register => es, t := DirtyRegisterFails(s);
    case Return(acks) => es, t := DirtyReturnFails(s, acks);
    case Requeue => es, t := DirtyRequeueFails(s);
    case SweepPick => es, t := DirtyPickFails(s);
  }

  /** Whatever follows, as long as it keeps to the guard, keeps the promise. */
  ghost predicate StaysPromised(s: Push) {
    forall es :: Runs(s, es) && Guarded(s, es) ==> Promise(End(s, es))
  }

  /**
   * The guard is neither too weak nor too strong: from any state a guarded run reaches, a step keeps the
   * promise through every guarded continuation exactly when the guard allows it.
   */
  lemma ApartIffPromised(s: Push, e: Event)
    requires Inv(s) && Enabled(s, e)
    ensures Apart(s, e) <==> StaysPromised(After(s, e))
  {
    hide Inv, Promise, Enabled, Apart, After;
    if Apart(s, e) {
      StepKeeps(s, e);
      forall es | Runs(After(s, e), es) && Guarded(After(s, e), es) ensures Promise(End(After(s, e), es)) {
        RunKeeps(After(s, e), es);
        InvPromises(End(After(s, e), es));
      }
    } else {
      var es, t := DirtyFails(s, e);
      assert Runs(After(s, e), es) && Guarded(After(s, e), es);
    }
  }

  // ---- and each overlap does happen ----

  /** A run from the start that keeps to the guard but for one step, after which the promise is broken. */
  ghost predicate BrokenBy(e: Event, es: seq<Event>, s: Push, fs: seq<Event>, t: Push) {
    && Cleanly(Fresh(false), es, s) && Enabled(s, e) && !Apart(s, e)
    && Cleanly(After(s, e), fs, t) && !Promise(t)
  }

  /** One forbidden step in a state that a guarded run reaches is enough. */
  lemma OneStepIsEnough(es: seq<Event>, s: Push, e: Event) returns (fs: seq<Event>, t: Push)
    requires Cleanly(Fresh(false), es, s) && Enabled(s, e) && !Apart(s, e)
    ensures BrokenBy(e, es, s, fs, t)
  {
    hide Inv, Promise, Enabled, Apart, After;
    FreshHolds(false);
    RunKeeps(Fresh(false), es);
    fs, t := DirtyFails(s, e);
  }

  function Assigned(broadcast: bool, rows: seq<Msg>, next: nat): Push {
    Fresh(broadcast).(owned := true, alive := true, cursor := next, pulled := Members(rows))
  }

  /** A queue assigned at offset `start` whose first rows are all in the listener's hands. */
  lemma FirstDelivery(broadcast: bool, start: nat, rows: seq<Msg>, next: nat) returns (es: seq<Event>, t: Push)
    requires rows != [] && Ascending(rows) && start <= next
    requires forall m :: m in rows ==> m.epoch == 0 && start <= m.offset < next
    ensures Cleanly(Fresh(broadcast), es, t)
    ensures t == Assigned(broadcast, rows, next).(inflight := rows, hand := Listening(rows, 0), stamped := Members(rows))
  {
    var s, n := Fresh(broadcast), |rows|;
    es, t := FirstPulled(broadcast, start, rows, next);
    assert rows[..n] == rows && rows[n..] == [] && [] + rows == rows && {} + Members(rows) == Members(rows);
    hide Cleanly, Ascending, Members, Answer, Attached, Others, Head, Unlink, NextOffset, Raise;
    es, t := GoCleanly(s, es, t, Take(n));
    assert t.hand == Taken(rows, 0);
    es, t := GoCleanly(s, es, t, Enter);
    es, t := GoCleanly(s, es, t, Register);
  }

  lemma FirstPulled(broadcast: bool, start: nat, rows: seq<Msg>, next: nat) returns (es: seq<Event>, t: Push)
    requires Ascending(rows) && start <= next && forall m :: m in rows ==> m.epoch == 0 && start <= m.offset < next
    ensures Cleanly(Fresh(broadcast), es, t) && t == Assigned(broadcast, rows, next).(pending := rows)
  {
    var s := Fresh(broadcast);
    assert Cleanly(s, [], s);
    hide Cleanly, Ascending, Attached, Others, Head, Unlink, NextOffset, Raise;
    es, t := GoCleanly(s, [], s, Rebuild(start));
    es, t := GoCleanly(s, es, t, Found(rows, next));
    assert [] + rows == rows && {} + Members(rows) == Members(rows);
  }

  const A := Msg(0, 0)
  const B := Msg(1, 0)

  /** The listener asks for both rows again and the broker refuses both. */
  lemma Refused() returns (es: seq<Event>, t: Push)
    ensures Cleanly(Fresh(false), es, t)
    ensures t == Assigned(false, [A, B], 2).(inflight := [A, B], stamped := {A, B},
                                      hand := Settling([A, B], 0, 2, false, [A, B]))
  {
    var s := Fresh(false);
    es, t := FirstDelivery(false, 0, [A, B], 2);
    hide Cleanly;
    es, t := GoCleanly(s, es, t, Return(0));
    assert t.acked == {} && t.stamped == {A, B} && Entries(t) == [A, B];
    es, t := GoCleanly(s, es, t, Check);
    es, t := GoCleanly(s, es, t, SendBack(false));
    assert Entries(t) == [A, B];
    es, t := GoCleanly(s, es, t, Check);
    es, t := GoCleanly(s, es, t, SendBack(false));
    assert t.hand.failed == [A, B];
  }

  /** So both wait in the buffer again. */
  lemma WaitingAgain() returns (es: seq<Event>, t: Push)
    ensures Cleanly(Fresh(false), es, t)
    ensures t == Assigned(false, [A, B], 2).(pending := [A, B], stamped := {A, B})
  {
    var s := Fresh(false);
    es, t := Refused();
    hide Cleanly;
    OthersOfAll([A, B], [A, B]);
    es, t := GoCleanly(s, es, t, Requeue);
    assert [A, B] + [] == [A, B];
    es, t := GoCleanly(s, es, t, Advance);
    es, t := GoCleanly(s, es, t, Deregister);
  }

  lemma TakeOverlaps() returns (es: seq<Event>, s: Push, fs: seq<Event>, t: Push)
    ensures BrokenBy(Take(1), es, s, fs, t)
  {
    es, s := WaitingAgain();
    hide Cleanly, BrokenBy;
    assert Entries(s) == [A, B];
    es, s := GoCleanly(Fresh(false), es, s, SweepPick);
    fs, t := OneStepIsEnough(es, s, Take(1));
  }

  lemma RegisterOverlaps() returns (es: seq<Event>, s: Push, fs: seq<Event>, t: Push)
    ensures BrokenBy(Register, es, s, fs, t) && s.hand.epoch == s.epoch
  {
    es, s := WaitingAgain();
    hide Cleanly, BrokenBy;
    es, s := GoCleanly(Fresh(false), es, s, Take(1));
    assert s.hand == Taken([A], 0) && s.pending == [B];
    es, s := GoCleanly(Fresh(false), es, s, Enter);
    assert Entries(s) == [B];
    es, s := GoCleanly(Fresh(false), es, s, SweepPick);
    fs, t := OneStepIsEnough(es, s, Register);
  }

  lemma StaleRegisterHappens() returns (es: seq<Event>, s: Push, fs: seq<Event>, t: Push)
    ensures BrokenBy(Register, es, s, fs, t) && s.hand.epoch < s.epoch
  {
    es, s := WaitingAgain();
    hide Cleanly, BrokenBy;
    es, s := GoCleanly(Fresh(false), es, s, Take(1));
    es, s := GoCleanly(Fresh(false), es, s, Enter);
    es, s := GoCleanly(Fresh(false), es, s, Retire);
    fs, t := OneStepIsEnough(es, s, Register);
  }

  lemma PickOverlaps() returns (es: seq<Event>, s: Push, fs: seq<Event>, t: Push)
    ensures BrokenBy(SweepPick, es, s, fs, t)
  {
    es, s := FirstDelivery(false, 0, [A, B], 2);
    hide Cleanly, BrokenBy;
    es, s := GoCleanly(Fresh(false), es, s, Return(2));
    es, s := GoCleanly(Fresh(false), es, s, Requeue);
    assert Entries(s) == [A, B];
    fs, t := OneStepIsEnough(es, s, SweepPick);
  }

  /** The listener returns while the sweep holds its message: the broker gets that message twice. */
  lemma ReturnOverlaps() returns (es: seq<Event>, s: Push, fs: seq<Event>, t: Push)
    ensures BrokenBy(Return(0), es, s, fs, t) && !SentOnce(t)
  {
    es, s := FirstDelivery(false, 0, [A], 1);
    hide Cleanly;
    assert Entries(s) == [A];
    es, s := GoCleanly(Fresh(false), es, s, SweepPick);
    t := After(s, Return(0));
    fs := [];
    var u := t;
    assert Cleanly(u, fs, u) by { NoStep(u); }
    assert Entries(t) == [A];
    fs, t := GoCleanly(u, fs, t, Check);
    fs, t := GoCleanly(u, fs, t, SendBack(true));
    fs, t := GoCleanly(u, fs, t, SweepSend(true));
    assert t.sent[A] == 2;
  }

  lemma NoStep(s: Push)
    ensures Cleanly(s, [], s)
  {
  }

  const OLD := Msg(3, 0)
  const NEW := Msg(1, 1)

  lemma OldRefused() returns (es: seq<Event>, t: Push)
    ensures Cleanly(Fresh(false), es, t)
    ensures t == Assigned(false, [OLD], 4).(inflight := [OLD], stamped := {OLD}, hand := Settling([OLD], 0, 1, false, [OLD]))
  {
    var s := Fresh(false);
    es, t := FirstDelivery(false, 3, [OLD], 4);
    hide Cleanly;
    es, t := GoCleanly(s, es, t, Return(0));
    assert t.acked == {} && Entries(t) == [OLD] && t.stamped == {OLD};
    es, t := GoCleanly(s, es, t, Check);
    es, t := GoCleanly(s, es, t, SendBack(false));
    assert t.hand == Settling([OLD], 0, 1, false, [OLD]);
  }

  /** The broker refuses row 3; meanwhile the queue is revoked and assigned again, to be replayed from offset 1. */
  lemma RefusedAndRebuilt() returns (es: seq<Event>, t: Push)
    ensures Cleanly(Fresh(false), es, t)
    ensures t == Assigned(false, [], 2).(epoch := 1, pulled := {OLD, NEW}, stamped := {OLD}, pending := [NEW],
                                         hand := Settling([OLD], 0, 1, false, [OLD]))
  {
    var s := Fresh(false);
    es, t := OldRefused();
    hide Cleanly;
    es, t := GoCleanly(s, es, t, Retire);
    es, t := GoCleanly(s, es, t, Rebuild(1));
    es, t := GoCleanly(s, es, t, Found([NEW], 2));
    assert t.pulled == {OLD, NEW};
  }

  /** Put into the rebuilt buffer, the refused row is consumed first. */
  lemma StaleRowListened(s: Push) returns (es: seq<Event>, t: Push)
    requires s == Assigned(false, [], 2).(epoch := 1, pulled := {OLD, NEW}, stamped := {OLD}, pending := [NEW],
                                   hand := Settling([OLD], 0, 1, false, [OLD]))
    ensures Cleanly(After(s, Requeue), es, t)
    ensures t.hand == Listening([OLD], 1) && t.pending == [NEW]
    ensures t.sweep == Resting && t.epoch == 1 && t.alive && t.offset == None
    ensures !t.broadcast && !t.frozen
  {
    var u := After(s, Requeue);
    NoStep(u);
    hide Cleanly;
    es, t := GoCleanly(u, [], u, Advance);
    es, t := GoCleanly(u, es, t, Deregister);
    assert t.pending == [OLD, NEW];
    es, t := GoCleanly(u, es, t, Take(1));
    es, t := GoCleanly(u, es, t, Enter);
    es, t := GoCleanly(u, es, t, Register);
  }

  /** And the offset moves to 4, past the row 1 nobody has consumed. */
  lemma StaleRequeueSkipsHeldMessages() returns (es: seq<Event>, s: Push, fs: seq<Event>, t: Push)
    ensures BrokenBy(Requeue, es, s, fs, t) && !OffsetSafe(t)
    ensures t.offset == Some(4) && t.pending == [NEW]
  {
    es, s := RefusedAndRebuilt();
    fs, t := StaleRowListened(s);
    hide Cleanly;
    var u := After(s, Requeue);
    fs, t := GoCleanly(u, fs, t, Return(1));
    fs, t := GoCleanly(u, fs, t, Requeue);
    assert t.hand == Settled([OLD], 1, []) && t.pending == [NEW];
    OthersOfNone([OLD]);
    fs, t := GoCleanly(u, fs, t, Advance);
    assert NEW in Live(t);
  }

  /** A rebuilt buffer with a refused row of the earlier one in front: out of offset order. */
  predicate OutOfOrder(s: Push) {
    && s.pending == [OLD, NEW] && s.epoch == 1 && s.owned && s.alive && s.sweep == Resting && s.sent == multiset{}
    && !s.broadcast && !s.frozen && s.pulled == {OLD, NEW}
  }

  lemma StaleRowBuffered(s: Push) returns (es: seq<Event>, t: Push)
    requires s == Assigned(false, [], 2).(epoch := 1, pulled := {OLD, NEW}, stamped := {OLD}, pending := [NEW],
                                   hand := Settling([OLD], 0, 1, false, [OLD]))
    ensures Cleanly(After(s, Requeue), es, t)
    ensures OutOfOrder(t) && t.hand == Idle && t.inflight == []
  {
    var u := After(s, Requeue);
    NoStep(u);
    hide Cleanly;
    es, t := GoCleanly(u, [], u, Advance);
    es, t := GoCleanly(u, es, t, Deregister);
    assert t.pending == [OLD, NEW];
  }

  /** Both rows are taken. */
  lemma BothListened(s0: Push, es: seq<Event>, s: Push) returns (fs: seq<Event>, t: Push)
    requires Cleanly(s0, es, s) && OutOfOrder(s) && s.hand == Idle && s.inflight == []
    ensures Cleanly(s0, fs, t) && t.hand == Listening([OLD, NEW], 1) && t.inflight == [OLD, NEW] && t.pending == []
    ensures {OLD, NEW} <= t.stamped && OutOfOrder(t.(pending := [OLD, NEW]))
  {
    hide Cleanly;
    fs, t := GoCleanly(s0, es, s, Take(2));
    assert t.hand == Taken([OLD, NEW], 1) && t.pending == [];
    fs, t := GoCleanly(s0, fs, t, Enter);
    fs, t := GoCleanly(s0, fs, t, Register);
    assert t.inflight == [OLD, NEW] && OLD in t.stamped && NEW in t.stamped;
  }

  /** Both are refused by the listener and by the broker. */
  lemma BothRefused(s0: Push, es: seq<Event>, s: Push) returns (fs: seq<Event>, t: Push)
    requires Cleanly(s0, es, s) && s.hand == Listening([OLD, NEW], 1) && s.inflight == [OLD, NEW] && s.pending == []
    requires {OLD, NEW} <= s.stamped && OutOfOrder(s.(pending := [OLD, NEW]))
    ensures Cleanly(s0, fs, t) && t.hand == Settling([OLD, NEW], 1, 2, false, [OLD, NEW]) && t.pending == []
    ensures t.inflight == [OLD, NEW] && t.stamped == s.stamped && OutOfOrder(t.(pending := [OLD, NEW]))
  {
    hide Cleanly;
    hide Answer, Ascending, Members, BatchSize, Raise, NextOffset, Others, Head, Unlink;
    fs, t := GoCleanly(s0, es, s, Return(0));
    assert t.hand == Settling([OLD, NEW], 1, 0, false, []);
    assert OLD in Entries(t) && NEW in Entries(t);
    hide Entries, Attached;
    fs, t := BrokerRefuses(s0, fs, t);
    fs, t := BrokerRefuses(s0, fs, t);
    assert [] + [OLD] + [NEW] == [OLD, NEW];
  }

  /** The next message of the batch is found attached, and the broker does not take it. */
  lemma BrokerRefuses(s0: Push, es: seq<Event>, s: Push) returns (fs: seq<Event>, t: Push)
    requires Cleanly(s0, es, s) && AtMessage(s.hand) && !s.hand.sure && s.hand.batch[s.hand.at] in Entries(s)
    ensures Cleanly(s0, fs, t)
    ensures t == s.(hand := s.hand.(at := s.hand.at + 1, failed := s.hand.failed + [s.hand.batch[s.hand.at]]))
    ensures Entries(t) == Entries(s)
  {
    hide Cleanly, Answer, Ascending, Members, BatchSize, Raise, NextOffset, Others, Head, Unlink, Attached;
    fs, t := GoCleanly(s0, es, s, Check);
    fs, t := GoCleanly(s0, fs, t, SendBack(false));
  }

  lemma {:induction false} NoOthers(ms: seq<Msg>)
    ensures Others(ms, ms) == []
  {
    if ms != [] { OnlyKnown(ms[1..], ms); }
  }

  lemma {:induction false} OnlyKnown(ms: seq<Msg>, gone: seq<Msg>)
    requires forall m :: m in ms ==> m in gone
    ensures Others(ms, gone) == []
  {
    if ms != [] { OnlyKnown(ms[1..], gone); }
  }

  lemma BothBack(s0: Push, es: seq<Event>, s: Push) returns (fs: seq<Event>, t: Push)
    requires Cleanly(s0, es, s) && s.hand == Settling([OLD, NEW], 1, 2, false, [OLD, NEW]) && s.pending == []
    requires s.inflight == [OLD, NEW] && {OLD, NEW} <= s.stamped && OutOfOrder(s.(pending := [OLD, NEW]))
    ensures Cleanly(s0, fs, t) && OutOfOrder(t) && t.inflight == [] && t.hand == Idle && {OLD, NEW} <= t.stamped
  {
    hide Cleanly;
    fs, t := GoCleanly(s0, es, s, Requeue);
    assert t.pending == [OLD, NEW];
    NoOthers([OLD, NEW]);
    fs, t := GoCleanly(s0, fs, t, Advance);
    fs, t := GoCleanly(s0, fs, t, Deregister);
  }

  lemma PicksNew(s: Push)
    requires s.pending == [OLD, NEW] && s.inflight == [] && s.hand == Idle && s.sweep == Resting && NEW in s.stamped
    ensures Enabled(s, SweepPick) && Apart(s, SweepPick) && After(s, SweepPick) == s.(sweep := Picked(NEW))
  {
    assert Entries(s) == [OLD, NEW] && Head(Entries(s)) == NEW;
    hide Answer, Ascending, Head;
  }

  lemma KeepsNew(s: Push)
    requires s.pending == [OLD, NEW] && s.inflight == [] && s.hand == Idle && s.sweep == Returned(NEW)
    ensures Enabled(s, SweepRemove) && Apart(s, SweepRemove) && After(s, SweepRemove) == s.(sweep := Resting)
  {
    assert Entries(s) == [OLD, NEW] && Head(Entries(s)) == NEW && Others([], [NEW]) == [];
    hide Answer, Ascending, Head, Others;
  }

  /** The head of the buffer is sent back and does not leave, since it is not in front. */
  lemma SweptInVain(s0: Push, es: seq<Event>, s: Push) returns (fs: seq<Event>, t: Push)
    requires Cleanly(s0, es, s) && s.pending == [OLD, NEW] && s.inflight == [] && s.hand == Idle && s.sweep == Resting
    requires NEW in s.stamped
    ensures Cleanly(s0, fs, t) && t == s.(sent := s.sent + multiset{NEW})
  {
    hide Cleanly;
    PicksNew(s);
    fs, t := GoCleanly(s0, es, s, SweepPick);
    fs, t := GoCleanly(s0, fs, t, SweepSend(true));
    assert t == s.(sweep := Returned(NEW), sent := s.sent + multiset{NEW});
    KeepsNew(t);
    hide After, Enabled, Apart;
    fs, t := GoCleanly(s0, fs, t, SweepRemove);
  }

  /** The refused row stays in front of the rebuilt buffer; both rows are taken, refused and put back; the sweep then
      sends row 1 to the broker on every pass. */
  lemma SweepRepeatsItself() returns (es: seq<Event>, s: Push, fs: seq<Event>, t: Push)
    ensures BrokenBy(Requeue, es, s, fs, t) && t.sent == multiset{NEW, NEW} && t.pending == [OLD, NEW]
  {
    es, s := RefusedAndRebuilt();
    fs, t := StaleRowBuffered(s);
    hide Cleanly;
    var u := After(s, Requeue);
    fs, t := BothListened(u, fs, t);
    fs, t := BothRefused(u, fs, t);
    fs, t := BothBack(u, fs, t);
    fs, t := SweptInVain(u, fs, t);
    fs, t := SweptInVain(u, fs, t);
    assert t.sent[NEW] == 2;
  }

  lemma {:induction false} OthersOfNone(ms: seq<Msg>)
    ensures Others(ms, []) == ms
  {
    if ms != [] {
      OthersOfNone(ms[1..]);
    }
  }

  // ---- broadcasting ----

  /** The steps of the sweep. */
  predicate BySweep(es: seq<Event>) {
    forall i :: 0 <= i < |es| ==> es[i].SweepPick? || es[i].SweepSend? || es[i].SweepRemove?
  }

  /** With broadcasting only the sweep sends anything back, and only while it holds a message. */
  lemma BroadcastStepSendsIff(s: Push)
    requires Mode(s) && s.broadcast
    ensures (exists e :: Enabled(s, e) && After(s, e).sent != s.sent) <==> s.sweep.Picked?
  {
    if s.sweep.Picked? {
      assert After(s, SweepSend(true)).sent[s.sweep.msg] == s.sent[s.sweep.msg] + 1;
    }
  }

  /** A pass of the sweep that does not find a delivered message at the head of the queue does nothing. */
  lemma PassStops(s: Push, es: seq<Event>)
    requires s.sweep.Resting? && Runs(s, es) && BySweep(es)
    ensures es == [] || (Entries(s) != [] && Head(Entries(s)) in s.stamped)
  {
  }

  /**
   * A broadcast consumer is not meant to send anything back. Broadcasting or not, a pass of the sweep can do so
   * exactly when the queue's head has been handed to a listener.
   */
  lemma PassSendsIff(s: Push)
    requires s.sweep.Resting?
    ensures (exists es :: Runs(s, es) && BySweep(es) && End(s, es).sent != s.sent)
       <==> Entries(s) != [] && Head(Entries(s)) in s.stamped
  {
    hide Head;
    if Entries(s) != [] && Head(Entries(s)) in s.stamped {
      assert Reaches(s, [], s);
      hide Reaches;
      var es, t := Go(s, [], s, SweepPick);
      es, t := Go(s, es, t, SweepSend(true));
      assert es == [SweepPick, SweepSend(true)] && t.sent[Head(Entries(s))] == s.sent[Head(Entries(s))] + 1;
      assert Runs(s, es) && End(s, es).sent != s.sent by { Unfold(s, es, t); }
    } else {
      forall es | Runs(s, es) && BySweep(es) ensures End(s, es).sent == s.sent { PassStops(s, es); }
    }
  }

  lemma Unfold(s: Push, es: seq<Event>, t: Push)
    requires Reaches(s, es, t)
    ensures Runs(s, es) && End(s, es) == t
  {
  }

  /** And that happens: a broadcast message still in the listener's hands goes back to the broker. */
  lemma BroadcastSends() returns (es: seq<Event>, t: Push)
    ensures Cleanly(Fresh(true), es, t) && t.sent == multiset{A} && t.hand == Listening([A], 0)
  {
    es, t := FirstDelivery(true, 0, [A], 1);
    hide Cleanly;
    assert Entries(t) == [A];
    es, t := GoCleanly(Fresh(true), es, t, SweepPick);
    es, t := GoCleanly(Fresh(true), es, t, SweepSend(true));
  }
}
