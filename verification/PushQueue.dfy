/**
 * The lock sections of the push consumer on one queue, as they run: deques and lists walked entry by
 * entry. Each is proved to compute what the state machine of PushSpec says about it.
 */
module PushQueue {
  import opened Messages
  import opened PushSpec

  /** How many entries one sweep round looks at, at most. */
  const SWEEP_CAP: nat := 16

  /** The first occurrence of every entry, in order. */
  function FirstOccurrences(ms: seq<Msg>): (r: seq<Msg>)
    ensures forall m :: m in r <==> m in ms
    ensures |r| <= |ms|
  {
    if ms == [] then []
    else
      var front := FirstOccurrences(ms[..|ms| - 1]);
      assert ms == ms[..|ms| - 1] + [ms[|ms| - 1]];
      if ms[|ms| - 1] in front then front else front + [ms[|ms| - 1]]
  }

  class ProcessQueue {
    var alive: bool
    var pending: seq<Msg>
    var inflight: seq<Msg>
    var epoch: nat
    var offset: Option<nat>
    var frozen: bool
    var taken: nat
    var stamps: map<Msg, int>

    /** The fields of the queue are those of the state `s`. */
    ghost predicate Shows(s: Push)
      reads this
    {
      && alive == s.alive && pending == s.pending && inflight == s.inflight && epoch == s.epoch
      && offset == s.offset && frozen == s.frozen && stamps.Keys == s.stamped
    }

    constructor ()
      ensures forall broadcast :: Shows(Fresh(broadcast))
      ensures !alive && pending == [] && inflight == [] && epoch == 0 && offset == None && !frozen
      ensures taken == 0 && stamps == map[]
    {
      alive, pending, inflight, epoch, offset, frozen := false, [], [], 0, None, false;
      taken, stamps := 0, map[];
    }

    method TakeBatch(size: int) returns (batch: seq<Msg>, generation: nat)
      modifies this`pending, this`taken
      ensures generation == epoch
      ensures batch + pending == old(pending)
      ensures |batch| == (if |old(pending)| < size then |old(pending)| else if size < 1 then
                            (if old(pending) == [] then 0 else 1) else size)
      ensures taken == old(taken) + (if batch == [] then 0 else 1)
      ensures forall s :: old(Shows(s)) && s.pending != [] ==>
        var t := OnTake(s, if size < 0 then 0 else size); Shows(t) && t.hand == Taken(batch, generation)
    {
      batch, generation := [], epoch;
      if pending == [] {
        return;
      }
      var wanted := if size < 1 then 1 else size;
      var n := if |pending| < wanted then |pending| else wanted;
      for i := 0 to n
        invariant batch + pending == old(pending)
        invariant |batch| == i
        invariant taken == old(taken)
      {
        batch, pending := batch + [pending[0]], pending[1..];
      }
      taken := taken + 1;
    }

    method Register(batch: seq<Msg>, now: int)
      modifies this`inflight, this`stamps
      ensures inflight == old(inflight) + batch
      ensures forall m :: m in stamps <==> m in old(stamps) || m in batch
      ensures forall m :: m in stamps ==> stamps[m] == if m in batch then now else old(stamps)[m]
      ensures forall s :: old(Shows(s)) && s.hand.Passed? && s.hand.batch == batch ==> Shows(OnRegister(s))
    {
      inflight := inflight + batch;
      for i := 0 to |batch|
        invariant inflight == old(inflight) + batch
        invariant forall m :: m in stamps <==> m in old(stamps) || m in batch[..i]
        invariant forall m :: m in stamps ==> stamps[m] == if m in batch[..i] then now else old(stamps)[m]
      {
        stamps := stamps[batch[i] := now];
      }
      assert batch[..|batch|] == batch;
    }

    method Deregister(batch: seq<Msg>)
      modifies this`inflight
      ensures inflight == Others(old(inflight), batch)
      ensures forall s :: old(Shows(s)) && s.hand.Closing? && s.hand.batch == batch ==> Shows(OnDeregister(s))
    {
      var kept := [];
      var bucket := inflight;
      for i := 0 to |bucket|
        invariant kept == Others(bucket[..i], batch)
      {
        OthersSnoc(bucket[..i], bucket[i], batch);
        assert bucket[..i + 1] == bucket[..i] + [bucket[i]];
        if bucket[i] !in batch {
          kept := kept + [bucket[i]];
        }
      }
      assert bucket[..|bucket|] == bucket;
      inflight := kept;
    }

    method HeldEntries() returns (out: seq<Msg>)
      ensures out == FirstOccurrences(inflight + pending)
    {
      var all := inflight + pending;
      var seen: set<Msg> := {};
      out := [];
      for i := 0 to |all|
        invariant out == FirstOccurrences(all[..i])
        invariant seen == Members(out)
      {
        assert all[..i + 1][..i] == all[..i];
        if all[i] !in seen {
          seen := seen + {all[i]};
          out := out + [all[i]];
        }
      }
      assert all[..|all|] == all;
    }

    method FirstEntry() returns (first: Option<Msg>)
      ensures first == if inflight + pending == [] then None else Some(Head(inflight + pending))
    {
      var entries := HeldEntries();
      if inflight + pending != [] {
        HeadOfFirstOccurrences(inflight + pending);
      }
      if entries == [] {
        first := None;
        return;
      }
      var best := LeastEntry(entries);
      first := Some(best);
    }

    method Contains(m: Msg) returns (found: bool)
      ensures found <==> m in inflight + pending
    {
      for i := 0 to |inflight|
        invariant m !in inflight[..i]
      {
        if inflight[i] == m {
          return true;
        }
      }
      for i := 0 to |pending|
        invariant m !in pending[..i]
      {
        if pending[i] == m {
          return true;
        }
      }
      return false;
    }

    method RemoveEntry(m: Msg)
      modifies this`inflight, this`pending
      ensures inflight == Others(old(inflight), [m]) && pending == Unlink(old(pending), m)
      ensures forall s :: old(Shows(s)) && s.sweep == Returned(m) && IsHead(s, m) ==> Shows(OnSweepRemove(s))
    {
      Deregister([m]);
      if pending != [] && pending[0] == m {
        pending := pending[1..];
      }
    }

    method Requeue(failed: seq<Msg>)
      modifies this`pending
      ensures pending == if alive then failed + old(pending) else old(pending)
      ensures forall s :: old(Shows(s)) && s.hand.Settling? && s.hand.failed == failed ==> Shows(OnRequeue(s))
    {
      if alive {
        var i := |failed|;
        while i > 0
          invariant 0 <= i <= |failed|
          invariant pending == failed[i..] + old(pending)
        {
          i := i - 1;
          assert failed[i..] == [failed[i]] + failed[i + 1..];
          pending := [failed[i]] + pending;
        }
      }
    }

    method Advance(processed: seq<Msg>, failed: seq<Msg>, generation: nat)
      modifies this`offset
      ensures offset ==
        if processed == [] || generation != epoch || frozen then old(offset)
        else Raise(old(offset), NextOffset(processed, failed))
      ensures forall s, batch :: (&& old(Shows(s)) && s.hand == Settled(batch, generation, failed)
                                  && processed == Others(batch, failed)) ==>
        Shows(OnAdvance(s))
    {
      if processed == [] {
        return;
      }
      var top := GreatestOffset(processed);
      var next := top + 1;
      if failed != [] {
        var floor := LeastEntry(failed);
        if floor.offset < next {
          next := floor.offset;
        }
      }
      if generation == epoch && !frozen {
        offset := Raise(offset, next);
      }
    }

    /** Redeliver the tail one message at a time; `answers` are what the broker says to each attempt. */
    method SendBackBatch(tail: seq<Msg>, answers: seq<bool>) returns (sent: seq<Msg>, failed: seq<Msg>)
      requires |answers| == |tail|
      ensures sent == Answered(tail, inflight + pending, answers, true)
      ensures failed == Answered(tail, inflight + pending, answers, false)
    {
      sent, failed := [], [];
      for i := 0 to |tail|
        invariant sent == Answered(tail[..i], inflight + pending, answers[..i], true)
        invariant failed == Answered(tail[..i], inflight + pending, answers[..i], false)
      {
        assert tail[..i + 1][..i] == tail[..i] && answers[..i + 1][..i] == answers[..i];
        var present := Contains(tail[i]);
        if present {
          if answers[i] {
            sent := sent + [tail[i]];
          } else {
            failed := failed + [tail[i]];
          }
        }
      }
      assert tail[..|tail|] == tail && answers[..|tail|] == answers;
    }

    /** Settle one batch with nobody else at work on the queue. */
    method Settle(batch: seq<Msg>, generation: nat, broadcast: bool, status: Status, ackIndex: int,
                  answers: seq<bool>) returns (sent: seq<Msg>, failed: seq<Msg>)
      requires |answers| == |Tail(batch, status, ackIndex)|
      modifies this`pending, this`inflight, this`offset
      ensures broadcast ==> sent == [] && failed == []
      ensures !broadcast ==>
        && sent == Answered(Tail(batch, status, ackIndex), old(inflight + pending), answers, true)
        && failed == Answered(Tail(batch, status, ackIndex), old(inflight + pending), answers, false)
      ensures !broadcast && status != Success ==>
        forall m :: m in batch && m in old(inflight + pending) <==> m in sent + failed
      ensures !broadcast && status == Success && -1 <= ackIndex ==>
        forall m :: m in sent + failed <==> (m in old(inflight + pending)
          && exists i :: ackIndex < i < |batch| && batch[i] == m)
      ensures pending == if alive then failed + old(pending) else old(pending)
      ensures inflight == Others(old(inflight), batch)
      ensures var processed := Others(batch, failed);
        offset == if processed == [] || generation != epoch || frozen then old(offset)
                  else Raise(old(offset), NextOffset(processed, failed))
    {
      ghost var tail, attached := Tail(batch, status, ackIndex), inflight + pending;
      forall m
        ensures m in Answered(tail, attached, answers, true) + Answered(tail, attached, answers, false) <==>
          m in tail && m in attached
      {
        AttachedIsAnswered(tail, attached, answers, m);
      }
      TailIs(batch, status, ackIndex);
      var bound := AckBound(status, ackIndex, |batch|);
      sent, failed := [], [];
      if !broadcast && bound < |batch| {
        sent, failed := SendBackBatch(batch[TailStart(|batch|, bound)..], answers);
        Requeue(failed);
      }
      var processed := WithoutFailed(batch, failed);
      Advance(processed, failed, generation);
      Deregister(batch);
    }

    method CorrectTagsOffset(noRows: bool, next: Option<nat>)
      modifies this`offset
      ensures offset ==
        if noRows && next.Some? && !frozen && pending == [] && taken == 0 then Raise(old(offset), next.value)
        else old(offset)
      ensures forall s :: old(Shows(s)) && s.alive && !s.frozen && (s.hand.Idle? <==> taken == 0) && noRows && next.Some? ==>
        Shows(OnNoMatch(s, next.value))
    {
      if !noRows || next.None? || frozen || pending != [] || taken != 0 {
        return;
      }
      if offset.None? || offset.value < next.value {
        offset := next;
      }
    }

    method Retire() returns (left: Option<nat>)
      modifies this
      ensures left == old(offset) && offset == None && epoch == old(epoch) + 1
      ensures !alive && pending == [] && inflight == []
      ensures frozen == old(frozen) && taken == old(taken) && stamps == old(stamps)
      ensures forall s :: old(Shows(s)) ==> Shows(OnRetire(s))
    {
      left := offset;
      alive, pending, inflight, epoch, offset := false, [], [], epoch + 1, None;
    }

    /** One sweep round; `answers` are what the broker says to each attempt. */
    method SweepRound(orderly: bool, now: int, timeout: int, answers: seq<bool>) returns (returned: seq<Msg>)
      requires |answers| == SWEEP_CAP
      modifies this`inflight, this`pending
      ensures orderly ==> returned == [] && inflight == old(inflight) && pending == old(pending)
      ensures !orderly ==>
        Round(returned, inflight, pending)
          == Swept(old(inflight), old(pending), ExpiredAt(stamps, now, timeout),
                   answers[..Rounds(old(inflight + pending))])
    {
      hide Head, FirstOccurrences, Others, Unlink, Swept, Following;
      returned := [];
      if orderly {
        return;
      }
      var held := HeldEntries();
      var rounds := if |held| < SWEEP_CAP then |held| else SWEEP_CAP;
      ghost var expired := ExpiredAt(stamps, now, timeout);
      ghost var whole := Swept(inflight, pending, expired, answers[..rounds]);
      NothingBefore(whole);
      assert answers[0..rounds] == answers[..rounds];
      for i := 0 to rounds
        invariant stamps == old(stamps)
        invariant whole == Following(returned, Swept(inflight, pending, expired, answers[i..rounds]))
      {
        OneAttempt(inflight, pending, expired, answers[i..rounds], returned);
        assert answers[i..rounds][1..] == answers[i + 1..rounds];
        var first := FirstEntry();
        if first.None? || first.value !in stamps || now - stamps[first.value] <= timeout {
          return;
        }
        if answers[i] {
          returned := returned + [first.value];
          RemoveEntry(first.value);
        }
      }
      NoAttempt(inflight, pending, expired, answers[rounds..rounds], returned);
    }
  }

  // ---- what a sweep round does ------------------------------------------------------------------

  /** What a round sends back, and the lists it leaves. */
  datatype Round = Round(returned: seq<Msg>, inflight: seq<Msg>, pending: seq<Msg>)

  function Following(earlier: seq<Msg>, r: Round): Round {
    r.(returned := earlier + r.returned)
  }

  function ExpiredAt(stamps: map<Msg, int>, now: int, timeout: int): set<Msg> {
    set m | m in stamps && now - stamps[m] > timeout
  }

  /** How many attempts a round has. */
  function Rounds(entries: seq<Msg>): (n: nat)
    ensures n <= SWEEP_CAP
  {
    var held := |FirstOccurrences(entries)|;
    if held < SWEEP_CAP then held else SWEEP_CAP
  }

  /** Attempt after attempt on whatever is the head then, until it is not expired. */
  function Swept(inflight: seq<Msg>, pending: seq<Msg>, expired: set<Msg>, answers: seq<bool>): Round
    decreases |answers|
  {
    if answers == [] || inflight + pending == [] || Head(inflight + pending) !in expired then Round([], inflight, pending)
    else if answers[0] then
      var m := Head(inflight + pending);
      Following([m], Swept(Others(inflight, [m]), Unlink(pending, m), expired, answers[1..]))
    else Swept(inflight, pending, expired, answers[1..])
  }

  lemma NothingBefore(r: Round)
    ensures Following([], r) == r
  {
  }

  lemma NoAttempt(inflight: seq<Msg>, pending: seq<Msg>, expired: set<Msg>, answers: seq<bool>, earlier: seq<Msg>)
    requires answers == []
    ensures Following(earlier, Swept(inflight, pending, expired, answers)) == Round(earlier, inflight, pending)
  {
  }

  lemma OneAttempt(inflight: seq<Msg>, pending: seq<Msg>, expired: set<Msg>, answers: seq<bool>, earlier: seq<Msg>)
    requires answers != []
    ensures var r := Following(earlier, Swept(inflight, pending, expired, answers));
      if inflight + pending == [] || Head(inflight + pending) !in expired then r == Round(earlier, inflight, pending)
      else
        var m := Head(inflight + pending);
        r == if answers[0]
          then Following(earlier + [m], Swept(Others(inflight, [m]), Unlink(pending, m), expired, answers[1..]))
          else Following(earlier, Swept(inflight, pending, expired, answers[1..]))
  {
    hide Head, Others, Unlink;
  }

  /** Taking the head out leaves the queue without it exactly when the buffer does not list it behind its front. */
  lemma HeadLeavesIff(inflight: seq<Msg>, pending: seq<Msg>, m: Msg)
    ensures m !in Others(inflight, [m]) + Unlink(pending, m) <==> pending == [] || m !in pending[1..]
    ensures forall x :: x != m ==> (x in Others(inflight, [m]) + Unlink(pending, m) <==> x in inflight + pending)
  {
    if pending != [] { assert pending == [pending[0]] + pending[1..]; }
  }

  lemma HeadLeaves(inflight: seq<Msg>, pending: seq<Msg>, m: Msg)
    requires Ascending(pending) && inflight + pending != [] && m == Head(inflight + pending)
    ensures Ascending(Unlink(pending, m))
    ensures forall x :: x in Others(inflight, [m]) + Unlink(pending, m) <==> x in inflight + pending && x != m
  {
    if m in pending {
      assert pending[0] in inflight + pending;
      HeadComesFirst(pending, m);
    }
    UnlinkDropsOne(pending, m);
    hide Ascending, Head;
  }

  predicate Lists(r: Round, m: Msg) {
    m in r.inflight + r.pending
  }

  /** Each message once and the smallest offsets first. */
  predicate OnceInOrder(ms: seq<Msg>) {
    forall i, j :: 0 <= i < j < |ms| ==> ms[i] != ms[j] && ms[i].offset <= ms[j].offset
  }

  /** Exactly what was sent back left the entries, and it was expired and came before the rest. */
  ghost predicate TookTheFront(entries: seq<Msg>, expired: set<Msg>, r: Round) {
    && OnceInOrder(r.returned)
    && (forall m :: m in r.returned ==> m in expired && m in entries)
    && (forall m :: Lists(r, m) <==> m in entries && m !in r.returned)
    && (forall a, m :: a in r.returned && Lists(r, m) ==> a.offset <= m.offset)
  }

  lemma TakingOneMore(entries: seq<Msg>, others: seq<Msg>, m: Msg, expired: set<Msg>, r: Round)
    requires TookTheFront(others, expired, r) && m in entries && m in expired
    requires forall x :: x in others <==> x in entries && x != m
    requires forall x :: x in entries ==> m.offset <= x.offset
    ensures TookTheFront(entries, expired, Following([m], r))
  {
    assert forall x :: Lists(Following([m], r), x) <==> Lists(r, x);
  }

  /**
   * On a buffer in offset order a round sends back expired messages only, each once, the smallest offsets
   * first; exactly they leave the queue; and it stops early only at a head that has not expired.
   */
  lemma {:induction false} RoundInOrder(inflight: seq<Msg>, pending: seq<Msg>, expired: set<Msg>, answers: seq<bool>)
    requires Ascending(pending)
    ensures var r := Swept(inflight, pending, expired, answers);
      && TookTheFront(inflight + pending, expired, r) && |r.returned| <= |answers| && Ascending(r.pending)
      && (false !in answers && |r.returned| < |answers| && r.inflight + r.pending != [] ==>
            Head(r.inflight + r.pending) !in expired)
    decreases |answers|
  {
    if answers == [] || inflight + pending == [] || Head(inflight + pending) !in expired {
    } else if answers[0] {
      hide TookTheFront, Head, Others, Unlink, Ascending;
      var m := Head(inflight + pending);
      HeadLeaves(inflight, pending, m);
      var left, rest := Others(inflight, [m]), Unlink(pending, m);
      RoundInOrder(left, rest, expired, answers[1..]);
      TakingOneMore(inflight + pending, left + rest, m, expired, Swept(left, rest, expired, answers[1..]));
    } else {
      RoundInOrder(inflight, pending, expired, answers[1..]);
    }
  }

  lemma {:induction false} OnceEach(ms: seq<Msg>)
    ensures forall i, j :: 0 <= i < j < |FirstOccurrences(ms)| ==> FirstOccurrences(ms)[i] != FirstOccurrences(ms)[j]
  {
    if ms != [] {
      var n := |ms| - 1;
      OnceEach(ms[..n]);
      var front, r := FirstOccurrences(ms[..n]), FirstOccurrences(ms);
      assert r == if ms[n] in front then front else front + [ms[n]];
      forall i, j | 0 <= i < j < |r| ensures r[i] != r[j] {
        assert r[i] == front[i] && front[i] in front;
      }
    }
  }

  lemma {:induction false} AsManyMembers(ms: seq<Msg>)
    requires forall i, j :: 0 <= i < j < |ms| ==> ms[i] != ms[j]
    ensures |Members(ms)| == |ms|
  {
    if ms != [] {
      var n := |ms| - 1;
      AsManyMembers(ms[..n]);
      assert ms == ms[..n] + [ms[n]];
      assert Members(ms) == Members(ms[..n]) + {ms[n]};
    }
  }

  /**
   * In times and numbers: a round sends back at most 16 messages, and only such as the listener has had for longer than
   * the timeout. Unless the broker refuses one, it leaves off with 16 sent back, with nothing left, or at a smallest
   * offset that was never stamped or has not been there for longer than that.
   */
  lemma RoundEnds(inflight: seq<Msg>, pending: seq<Msg>, stamps: map<Msg, int>, now: int, timeout: int,
                  answers: seq<bool>)
    requires Ascending(pending) && |answers| == 16
    ensures var r := Swept(inflight, pending, ExpiredAt(stamps, now, timeout), answers[..Rounds(inflight + pending)]);
      && |r.returned| <= 16 && (forall m :: m in r.returned ==> m in stamps && now - stamps[m] > timeout)
      && (false !in answers && |r.returned| < 16 && r.inflight + r.pending != [] ==>
            var head := Head(r.inflight + r.pending); head in stamps ==> now - stamps[head] <= timeout)
  {
    var entries, n := inflight + pending, Rounds(inflight + pending);
    var expired := ExpiredAt(stamps, now, timeout);
    var r := Swept(inflight, pending, expired, answers[..n]);
    RoundInOrder(inflight, pending, expired, answers[..n]);
    hide Swept, Head, Ascending;
    if |r.returned| == n < 16 {
      OnceEach(entries);
      AsManyMembers(FirstOccurrences(entries));
      AsManyMembers(r.returned);
      hide FirstOccurrences;
      assert Members(FirstOccurrences(entries)) == Members(entries) && Members(r.returned) <= Members(entries);
      SameSize(Members(r.returned), Members(entries));
      NothingListed(entries, expired, r);
    }
  }

  lemma SameSize(a: set<Msg>, b: set<Msg>)
    requires a <= b && |a| == |b|
    ensures a == b
  {
    assert b == a + (b - a);
  }

  lemma NothingListed(entries: seq<Msg>, expired: set<Msg>, r: Round)
    requires TookTheFront(entries, expired, r) && Members(r.returned) == Members(entries)
    ensures r.inflight + r.pending == []
  {
    var left := r.inflight + r.pending;
    assert left != [] ==> Lists(r, left[0]);
    assert forall m :: m in r.returned <==> m in Members(r.returned);
  }

  /** A buffer out of order: the head stays behind the front and goes back to the broker on every attempt. */
  lemma RoundRepeatsItself()
    ensures Swept([], [Msg(3, 0), Msg(1, 1)], {Msg(1, 1)}, [true, true]).returned == [Msg(1, 1), Msg(1, 1)]
  {
    assert Head([] + [Msg(3, 0), Msg(1, 1)]) == Msg(1, 1);
    assert [true, true][1..] == [true];
  }

  method LeastEntry(ms: seq<Msg>) returns (best: Msg)
    requires ms != []
    ensures best == Head(ms)
  {
    best := ms[0];
    for i := 1 to |ms|
      invariant best == Head(ms[..i])
    {
      HeadSnoc(ms[..i], ms[i]);
      assert ms[..i + 1] == ms[..i] + [ms[i]];
      if ms[i].offset < best.offset {
        best := ms[i];
      }
    }
    assert ms[..|ms|] == ms;
  }

  method GreatestOffset(ms: seq<Msg>) returns (top: nat)
    requires ms != []
    ensures top == MaxOffset(ms)
  {
    top := ms[0].offset;
    for i := 1 to |ms|
      invariant top == MaxOffset(ms[..i])
    {
      MaxSnoc(ms[..i], ms[i]);
      assert ms[..i + 1] == ms[..i] + [ms[i]];
      if top < ms[i].offset {
        top := ms[i].offset;
      }
    }
    assert ms[..|ms|] == ms;
  }

  method WithoutFailed(batch: seq<Msg>, failed: seq<Msg>) returns (processed: seq<Msg>)
    ensures processed == Others(batch, failed)
  {
    processed := [];
    for i := 0 to |batch|
      invariant processed == Others(batch[..i], failed)
    {
      OthersSnoc(batch[..i], batch[i], failed);
      assert batch[..i + 1] == batch[..i] + [batch[i]];
      if batch[i] !in failed {
        processed := processed + [batch[i]];
      }
    }
    assert batch[..|batch|] == batch;
  }

  lemma {:induction false} OthersSnoc(ms: seq<Msg>, m: Msg, gone: seq<Msg>)
    ensures Others(ms + [m], gone) == Others(ms, gone) + (if m in gone then [] else [m])
  {
    if ms != [] {
      assert (ms + [m])[1..] == ms[1..] + [m];
      OthersSnoc(ms[1..], m, gone);
    }
  }

  lemma {:induction false} HeadSnoc(ms: seq<Msg>, m: Msg)
    requires ms != []
    ensures Head(ms + [m]) == if m.offset < Head(ms).offset then m else Head(ms)
  {
    if |ms| > 1 {
      assert (ms + [m])[1..] == ms[1..] + [m];
      HeadSnoc(ms[1..], m);
    } else {
      assert (ms + [m])[1..] == [m];
    }
  }

  lemma {:induction false} MaxSnoc(ms: seq<Msg>, m: Msg)
    requires ms != []
    ensures MaxOffset(ms + [m]) == if MaxOffset(ms) < m.offset then m.offset else MaxOffset(ms)
  {
    if |ms| > 1 {
      assert (ms + [m])[1..] == ms[1..] + [m];
      MaxSnoc(ms[1..], m);
    } else {
      assert (ms + [m])[1..] == [m];
    }
  }

  /** Leaving out repetitions does not change which entry is the head. */
  lemma {:induction false} HeadOfFirstOccurrences(ms: seq<Msg>)
    requires ms != []
    ensures FirstOccurrences(ms) != [] && Head(FirstOccurrences(ms)) == Head(ms)
  {
    var n := |ms| - 1;
    assert ms == ms[..n] + [ms[n]];
    if n == 0 {
      assert FirstOccurrences(ms[..0]) == [];
    } else {
      HeadOfFirstOccurrences(ms[..n]);
      HeadSnoc(ms[..n], ms[n]);
      if ms[n] !in FirstOccurrences(ms[..n]) {
        HeadSnoc(FirstOccurrences(ms[..n]), ms[n]);
      }
    }
  }

  lemma HeadComesFirst(ms: seq<Msg>, m: Msg)
    requires Ascending(ms) && m in ms && m.offset <= ms[0].offset
    ensures ms[0] == m
  {
    var i :| 0 <= i < |ms| && ms[i] == m;
  }

  // ---- what a settlement does with each message -------------------------------------------------

  /**
   * Every message past the acknowledged prefix is in the redelivered tail exactly when the listener did
   * not set an index below -1, or set one so low that the slice starts at the front again.
   */
  lemma TailTakesTheUnacknowledgedIff(batch: seq<Msg>, status: Status, ackIndex: int)
    requires Ascending(batch)
    ensures (forall i :: 0 <= i < |batch| && AckBound(status, ackIndex, |batch|) <= i ==>
              batch[i] in Tail(batch, status, ackIndex))
      <==> status != Success || ackIndex >= -1 || |batch| + ackIndex + 1 <= 0
  {
    var bound := AckBound(status, ackIndex, |batch|);
    var start := TailStart(|batch|, bound);
    if bound < 0 && |batch| + bound > 0 {
      assert batch[0] !in batch[start..];
    } else {
      forall i | 0 <= i < |batch| && bound <= i ensures batch[i] in batch[start..] {
        assert batch[start..][i - start] == batch[i];
      }
    }
  }

  /** With index -2 the first of two messages is neither acknowledged nor redelivered. */
  lemma IndexBelowMinusOneLosesMessages()
    ensures Tail([Msg(0, 0), Msg(1, 0)], Success, -2) == [Msg(1, 0)]
  {
  }

  /** The tail divides into what was sent back, what failed and what is no longer attached. */
  lemma {:induction false} TailDivides(tail: seq<Msg>, attached: seq<Msg>, answers: seq<bool>)
    requires |answers| == |tail|
    ensures multiset(tail) ==
      multiset(Answered(tail, attached, answers, true)) + multiset(Answered(tail, attached, answers, false))
      + multiset(Skipped(tail, attached))
  {
    if tail != [] {
      var n := |tail| - 1;
      TailDivides(tail[..n], attached, answers[..n]);
      assert tail == tail[..n] + [tail[n]];
    }
  }
}
