/**
 * What a rebalance round owes once it has moved queues: restamp the moved topics, divide the budgets, beat
 * every broker, notify the application. The question is which subscription versions the brokers hold when
 * the application hears about the move.
 */
module RebalanceSettlement {
  import opened Messages
  import opened HeartbeatV2
  import PushGates

  // ---- which topics moved -------------------------------------------------------------------------

  function QueuesOf(topic: string, queues: seq<MessageQueue>): set<(string, int)> {
    set q | q in queues && q.topic == topic :: (q.brokerName, q.queueId)
  }

  predicate Moved(topic: string, before: seq<MessageQueue>, now: seq<MessageQueue>) {
    QueuesOf(topic, before) != QueuesOf(topic, now)
  }

  /** Some queue of the topic is in one list and not in the other. */
  lemma MovedIff(topic: string, before: seq<MessageQueue>, now: seq<MessageQueue>)
    ensures Moved(topic, before, now) <==> exists q: MessageQueue :: q.topic == topic && (q in before <==> q !in now)
  {
    var a, b := QueuesOf(topic, before), QueuesOf(topic, now);
    forall q: MessageQueue | q.topic == topic
      ensures (q in before <==> (q.brokerName, q.queueId) in a) && (q in now <==> (q.brokerName, q.queueId) in b)
    {
      assert (q.brokerName, q.queueId) in a ==> MessageQueue(topic, q.brokerName, q.queueId) in before;
      assert (q.brokerName, q.queueId) in b ==> MessageQueue(topic, q.brokerName, q.queueId) in now;
    }
    if a != b {
      var x :| x in a <==> x !in b;
      assert MessageQueue(topic, x.0, x.1).topic == topic;
    }
  }

  function Entry(groups: map<string, set<(string, int)>>, topic: string): set<(string, int)> {
    if topic in groups then groups[topic] else {}
  }

  lemma OneMoreQueue(topic: string, queues: seq<MessageQueue>, q: MessageQueue)
    ensures QueuesOf(topic, queues + [q]) ==
      if topic == q.topic then QueuesOf(topic, queues) + {(q.brokerName, q.queueId)} else QueuesOf(topic, queues)
  {
  }

  method GroupByTopic(queues: seq<MessageQueue>) returns (groups: map<string, set<(string, int)>>)
    ensures forall t :: Entry(groups, t) == QueuesOf(t, queues)
    ensures forall t :: t in groups <==> exists q :: q in queues && q.topic == t
    ensures forall t, b, i | t in groups :: (b, i) in groups[t] <==> MessageQueue(t, b, i) in queues
  {
    groups := map[];
    for i := 0 to |queues|
      invariant forall t :: Entry(groups, t) == QueuesOf(t, queues[..i])
      invariant forall t :: t in groups ==> exists q :: q in queues[..i] && q.topic == t
      invariant forall q :: q in queues[..i] ==> q.topic in groups
    {
      var q := queues[i];
      assert queues[..i + 1] == queues[..i] + [q];
      var was := groups;
      groups := groups[q.topic := Entry(groups, q.topic) + {(q.brokerName, q.queueId)}];
      forall t ensures Entry(groups, t) == QueuesOf(t, queues[..i + 1]) {
        OneMoreQueue(t, queues[..i], q);
        assert Entry(was, t) == QueuesOf(t, queues[..i]);
      }
    }
    assert queues[..|queues|] == queues;
    forall t, b, i | t in groups ensures (b, i) in groups[t] <==> MessageQueue(t, b, i) in queues {
      assert groups[t] == Entry(groups, t) == QueuesOf(t, queues);
    }
  }

  /** Exactly the topics whose set of queues differs; order and repetition do not matter. */
  method ChangedTopics(before: seq<MessageQueue>, now: seq<MessageQueue>) returns (moved: set<string>)
    ensures forall t :: t in moved <==> exists q: MessageQueue :: q.topic == t && (q in before <==> q !in now)
  {
    forall t ensures Moved(t, before, now) <==> exists q: MessageQueue :: q.topic == t && (q in before <==> q !in now) {
      MovedIff(t, before, now);
    }
    var was := GroupByTopic(before);
    var has := GroupByTopic(now);
    moved := set t | t in was.Keys + has.Keys && Entry(was, t) != Entry(has, t);
    forall t ensures t in moved <==> Moved(t, before, now) {
      assert Entry(was, t) == QueuesOf(t, before) && Entry(has, t) == QueuesOf(t, now);
    }
  }

  // ---- the settlement itself ----------------------------------------------------------------------

  datatype Effect = Restamped(topic: string) | Divided | Beaten(broker: nat, ok: bool) | Notified(topic: string)

  /** The client's memory of one broker, and that broker. */
  datatype Link = Link(speaks: bool, remembered: Option<int>, broker: Broker)

  /** The hash, whether this client uses V2 at all, and the broker's policy. */
  datatype Wire = Wire(hash: set<Rule> -> int, v2: bool, policy: Policy)

  function Side(subs: set<Sub>, l: Link): Client {
    Client(subs, l.speaks, l.remembered)
  }

  function BodyFor(w: Wire, subs: set<Sub>, l: Link): Body {
    if w.v2 then Choose(w.hash, Side(subs, l)) else Full(0, subs)
  }

  /** One answered beat. */
  function Exchange(w: Wire, subs: set<Sub>, l: Link): Link {
    var body := BodyFor(w, subs, l);
    var c := if w.v2 then Learn(Side(subs, l), body, l.broker.v2, Changed(l.broker, body)) else Side(subs, l);
    Link(c.speaks, c.remembered, Receive(w.policy, l.broker, body))
  }

  function Restamp(subs: map<string, Sub>, moved: set<string>, now: int): map<string, Sub> {
    map t | t in subs :: if t in moved then subs[t].(version := now) else subs[t]
  }

  function Table(subs: map<string, Sub>): set<Sub> {
    subs.Values
  }

  function RestampLog(moved: seq<string>, subs: map<string, Sub>): seq<Effect> {
    if moved == [] then []
    else
      var n := |moved| - 1;
      RestampLog(moved[..n], subs) + (if moved[n] in subs then [Restamped(moved[n])] else [])
  }

  function NotifyLog(moved: seq<string>): (r: seq<Effect>)
    ensures |r| == |moved|
    ensures forall i :: 0 <= i < |r| ==> r[i] == Notified(moved[i])
  {
    seq(|moved|, i requires 0 <= i < |moved| => Notified(moved[i]))
  }

  function BeatLog(answered: seq<bool>): (r: seq<Effect>)
    ensures |r| == |answered|
    ensures forall i :: 0 <= i < |r| ==> r[i] == Beaten(i, answered[i])
  {
    seq(|answered|, i requires 0 <= i < |answered| => Beaten(i, answered[i]))
  }

  /** What one settlement does, in its order. */
  function SettlementLog(moved: seq<string>, subs: map<string, Sub>, answered: seq<bool>): seq<Effect> {
    if moved == [] then [] else RestampLog(moved, subs) + Finish(moved, answered)
  }

  /** What the settlement does once the versions are restamped. */
  function Finish(moved: seq<string>, answered: seq<bool>): seq<Effect> {
    [Divided] + BeatLog(answered) + NotifyLog(moved)
  }

  /** The links after the beats of a log, the client's table being `table`. */
  function Replay(w: Wire, table: set<Sub>, links: seq<Link>, log: seq<Effect>): (r: seq<Link>)
    ensures |r| == |links|
  {
    if log == [] then links
    else
      var e, before := log[|log| - 1], Replay(w, table, links, log[..|log| - 1]);
      if e.Beaten? && e.ok && e.broker < |links| then before[e.broker := Exchange(w, table, before[e.broker])] else before
  }

  /** A client that does not use V2 sends its whole table, remembers nothing of the answer, and asks for no flag. */
  lemma PlainBeat(w: Wire, subs: set<Sub>, l: Link)
    requires !w.v2
    ensures var t := Exchange(w, subs, l);
      t.broker.subs == subs && t.broker.stored == 0 && t.speaks == l.speaks && t.remembered == l.remembered
  {
  }

  lemma {:induction false} RestampLogIs(moved: seq<string>, subs: map<string, Sub>, e: Effect)
    ensures e in RestampLog(moved, subs) <==> e.Restamped? && e.topic in moved && e.topic in subs
  {
    if moved != [] {
      var n := |moved| - 1;
      RestampLogIs(moved[..n], subs, e);
      assert moved == moved[..n] + [moved[n]];
    }
  }

  /**
   * The order of the four duties: first a restamp of every topic that moved and is subscribed and of no other, then the
   * division of the quotas, then one beat for every broker in turn, then the listener for every moved topic in turn.
   */
  lemma LogOrder(moved: seq<string>, subs: map<string, Sub>, answered: seq<bool>)
    returns (stamps: seq<Effect>, beats: seq<Effect>, notes: seq<Effect>)
    requires moved != []
    ensures SettlementLog(moved, subs, answered) == stamps + ([Divided] + beats + notes)
    ensures forall e :: e in stamps <==> e.Restamped? && e.topic in moved && e.topic in subs
    ensures |beats| == |answered| && forall i :: 0 <= i < |beats| ==> beats[i] == Beaten(i, answered[i])
    ensures |notes| == |moved| && forall i :: 0 <= i < |notes| ==> notes[i] == Notified(moved[i])
  {
    stamps, beats, notes := RestampLog(moved, subs), BeatLog(answered), NotifyLog(moved);
    forall e ensures e in stamps <==> e.Restamped? && e.topic in moved && e.topic in subs {
      RestampLogIs(moved, subs, e);
    }
  }

  class Settlement {
    const wire: Wire
    const gate: PushGates.Gatekeeper
    var subs: map<string, Sub>
    var links: seq<Link>
    var log: seq<Effect>

    constructor (wire: Wire, gate: PushGates.Gatekeeper, subs: map<string, Sub>, links: seq<Link>)
      ensures this.wire == wire && this.gate == gate && this.subs == subs && this.links == links && log == []
    {
      this.wire, this.gate, this.subs, this.links, log := wire, gate, subs, links, [];
    }

    method RestampVersions(moved: seq<string>, now: int)
      modifies this`subs, this`log
      ensures subs == Restamp(old(subs), (set t | t in moved), now)
      ensures subs.Keys == old(subs).Keys
      ensures forall t | t in subs && t in moved :: subs[t] == Sub(old(subs)[t].topic, old(subs)[t].expression, now)
      ensures forall t | t in subs && t !in moved :: subs[t] == old(subs)[t]
      ensures log == old(log) + RestampLog(moved, old(subs))
    {
      for i := 0 to |moved|
        invariant subs == Restamp(old(subs), (set t | t in moved[..i]), now)
        invariant log == old(log) + RestampLog(moved[..i], old(subs))
      {
        assert moved[..i + 1][..i] == moved[..i];
        if moved[i] in subs {
          subs := subs[moved[i] := subs[moved[i]].(version := now)];
          log := log + [Restamped(moved[i])];
        }
      }
      assert moved[..|moved|] == moved;
    }

    /** A broker that cannot be reached is skipped: its failure stops neither the round nor the listener. */
    method BeatAll(answered: seq<bool>)
      requires |answered| == |links|
      modifies this`links, this`log
      ensures |links| == |old(links)|
      ensures forall j :: 0 <= j < |links| ==>
        links[j] == if answered[j] then Exchange(wire, Table(subs), old(links)[j]) else old(links)[j]
      ensures log == old(log) + BeatLog(answered)
    {
      for j := 0 to |links|
        invariant |links| == |old(links)|
        invariant forall k :: 0 <= k < j ==>
          links[k] == if answered[k] then Exchange(wire, Table(subs), old(links)[k]) else old(links)[k]
        invariant forall k :: j <= k < |links| ==> links[k] == old(links)[k]
        invariant log == old(log) + BeatLog(answered[..j])
      {
        if answered[j] {
          links := links[j := Exchange(wire, Table(subs), links[j])];
        }
        log := log + [Beaten(j, answered[j])];
        assert BeatLog(answered[..j + 1]) == BeatLog(answered[..j]) + [Beaten(j, answered[j])];
      }
      assert answered[..|links|] == answered;
    }

    method NotifyAll(moved: seq<string>)
      modifies this`log
      ensures log == old(log) + NotifyLog(moved)
    {
      for i := 0 to |moved|
        invariant log == old(log) + NotifyLog(moved[..i])
      {
        log := log + [Notified(moved[i])];
        assert NotifyLog(moved[..i + 1]) == NotifyLog(moved[..i]) + [Notified(moved[i])];
      }
      assert moved[..|moved|] == moved;
    }

    /** The four duties in their order; a round that moved nothing is a stutter. */
    method AfterAssignmentChange(moved: seq<string>, now: int, owned: nat, answered: seq<bool>)
      requires |answered| == |links|
      modifies this`subs, this`links, this`log, gate`limits
      ensures moved == [] ==> subs == old(subs) && links == old(links) && log == old(log) && gate.limits == old(gate.limits)
      ensures log == old(log) + SettlementLog(moved, old(subs), answered)
      ensures subs == Restamp(old(subs), (set t | t in moved), now)
      ensures subs.Keys == old(subs).Keys
      ensures forall t | t in subs && t in moved :: subs[t] == Sub(old(subs)[t].topic, old(subs)[t].expression, now)
      ensures forall t | t in subs && t !in moved :: subs[t] == old(subs)[t]
      ensures links == Replay(wire, Table(subs), old(links), SettlementLog(moved, old(subs), answered))
      ensures moved != [] && owned > 0 && gate.topicCount != -1 ==>
        gate.limits.count == PushGates.Quota(gate.topicCount, owned)
    {
      hide Replay, Exchange, Restamp, RestampLog, BeatLog, NotifyLog, PushGates.Quota;
      if moved == [] {
        NothingMoved(wire, subs, moved, links, answered, now);
        return;
      }
      RestampVersions(moved, now);
      gate.Divide(owned);
      log := log + [Divided];
      BeatAll(answered);
      NotifyAll(moved);
      WholeLogReplays(wire, Table(subs), old(links), links, moved, old(subs), answered);
    }
  }

  // ---- the links at each point of the log ----------------------------------------------------------

  lemma {:induction false} ReplayInTwo(w: Wire, table: set<Sub>, links: seq<Link>, a: seq<Effect>, b: seq<Effect>)
    ensures Replay(w, table, links, a + b) == Replay(w, table, Replay(w, table, links, a), b)
  {
    if b == [] {
      assert a + b == a;
    } else {
      assert (a + b)[..|a + b| - 1] == a + b[..|b| - 1];
      ReplayInTwo(w, table, links, a, b[..|b| - 1]);
    }
  }

  lemma {:induction false} ReplayWithoutBeats(w: Wire, table: set<Sub>, links: seq<Link>, log: seq<Effect>)
    requires forall i :: 0 <= i < |log| ==> !log[i].Beaten?
    ensures Replay(w, table, links, log) == links
  {
    if log != [] {
      ReplayWithoutBeats(w, table, links, log[..|log| - 1]);
    }
  }

  lemma {:induction false} ReplayBeats(w: Wire, table: set<Sub>, links: seq<Link>, answered: seq<bool>, k: nat)
    requires |answered| == |links| && k <= |links|
    ensures forall j :: 0 <= j < |links| ==>
      Replay(w, table, links, BeatLog(answered[..k]))[j]
        == if j < k && answered[j] then Exchange(w, table, links[j]) else links[j]
  {
    if k > 0 {
      ReplayBeats(w, table, links, answered, k - 1);
      var log := BeatLog(answered[..k]);
      assert log[..|log| - 1] == BeatLog(answered[..k - 1]);
    }
  }

  lemma {:induction false} RestampLogHasNoBeats(moved: seq<string>, subs: map<string, Sub>)
    ensures forall i :: 0 <= i < |RestampLog(moved, subs)| ==> RestampLog(moved, subs)[i].Restamped?
  {
    if moved != [] {
      RestampLogHasNoBeats(moved[..|moved| - 1], subs);
    }
  }

  /** From the last beat on, the links are what the beats made of them. */
  lemma LogReplays(w: Wire, table: set<Sub>, links: seq<Link>, moved: seq<string>, subs: map<string, Sub>,
                   answered: seq<bool>, k: nat)
    requires |answered| == |links| && k <= |moved|
    ensures var log := RestampLog(moved, subs) + [Divided] + BeatLog(answered) + NotifyLog(moved)[..k];
      forall j :: 0 <= j < |links| ==>
        Replay(w, table, links, log)[j] == if answered[j] then Exchange(w, table, links[j]) else links[j]
  {
    var before, beats, behind := RestampLog(moved, subs) + [Divided], BeatLog(answered), NotifyLog(moved)[..k];
    RestampLogHasNoBeats(moved, subs);
    ReplayWithoutBeats(w, table, links, before);
    ReplayInTwo(w, table, links, before, beats);
    ReplayBeats(w, table, links, answered, |links|);
    assert answered[..|links|] == answered;
    var heard := Replay(w, table, links, beats);
    ReplayWithoutBeats(w, table, heard, behind);
    ReplayInTwo(w, table, links, before + beats, behind);
    hide Replay, Exchange;
  }

  lemma NothingMoved(w: Wire, subs: map<string, Sub>, moved: seq<string>, links: seq<Link>, answered: seq<bool>,
                     now: int)
    requires moved == []
    ensures Restamp(subs, (set t | t in moved), now) == subs && SettlementLog(moved, subs, answered) == []
    ensures Replay(w, Table(subs), links, []) == links
  {
    assert (set t | t in moved) == {};
  }

  lemma WholeLogReplays(w: Wire, table: set<Sub>, links: seq<Link>, after: seq<Link>, moved: seq<string>,
                        subs: map<string, Sub>, answered: seq<bool>)
    requires moved != [] && |answered| == |links| == |after|
    requires forall j :: 0 <= j < |links| ==> after[j] == if answered[j] then Exchange(w, table, links[j]) else links[j]
    ensures after == Replay(w, table, links, SettlementLog(moved, subs, answered))
  {
    LogReplays(w, table, links, moved, subs, answered, |moved|);
    hide Replay, Exchange;
    assert NotifyLog(moved)[..|moved|] == NotifyLog(moved);
    assert RestampLog(moved, subs) + Finish(moved, answered)
        == RestampLog(moved, subs) + [Divided] + BeatLog(answered) + NotifyLog(moved);
  }

  // ---- what the brokers hold when the listener fires ----------------------------------------------

  /** Answered beats, one after the other, of a client with this table. */
  function Beats(w: Wire, subs: set<Sub>, l: Link, n: nat): Link {
    if n == 0 then l else Exchange(w, subs, Beats(w, subs, l, n - 1))
  }

  function BeatenEach(w: Wire, subs: set<Sub>, links: seq<Link>, beats: seq<nat>): (r: seq<Link>)
    requires |beats| == |links|
    ensures |r| == |links| && forall j :: 0 <= j < |links| ==> r[j] == Beats(w, subs, links[j], beats[j])
  {
    seq(|links|, j requires 0 <= j < |links| => Beats(w, subs, links[j], beats[j]))
  }

  /** A broker this client has only ever talked V2 to, right after the fingerprints were dropped. */
  predicate JustReset(w: Wire, l: Link) {
    && l.remembered == None && (l.speaks ==> l.broker.v2)
    && (l.broker.stored != 0 ==> l.broker.stored == w.hash(Rules(l.broker.subs)))
  }

  /** Restamping changes versions and no rules. */
  lemma RestampKeepsRules(subs: map<string, Sub>, moved: set<string>, now: int)
    ensures Rules(Table(Restamp(subs, moved, now))) == Rules(Table(subs))
  {
    var t := Restamp(subs, moved, now);
    forall r ensures r in Rules(Table(t)) <==> r in Rules(Table(subs)) {
      if r in Rules(Table(t)) {
        var s :| s in Table(t) && Rule(s.topic, s.expression) == r;
        var k :| k in t && t[k] == s;
        assert subs[k] in Table(subs);
      }
      if r in Rules(Table(subs)) {
        var s :| s in Table(subs) && Rule(s.topic, s.expression) == r;
        var k :| k in subs && subs[k] == s;
        assert t[k] in Table(t);
      }
    }
  }

  /** A topic the client subscribes to, moved at a new time, gives a new table. */
  lemma RestampIsSeen(subs: map<string, Sub>, moved: set<string>, now: int, t: string)
    requires t in subs && t in moved
    requires forall k :: k in subs ==> subs[k].topic == k
    requires subs[t].version != now
    ensures Table(Restamp(subs, moved, now)) != Table(subs)
  {
    var s := Restamp(subs, moved, now)[t];
    assert s in Table(Restamp(subs, moved, now));
    forall k | k in subs ensures subs[k] != s {
      assert subs[k].topic == k && s.topic == t;
    }
    assert s !in Table(subs);
  }

  /** The state of a link after `n` beats with unchanged rules since the reset. */
  lemma {:induction false} AfterBeats(w: Wire, subs: set<Sub>, l: Link, n: nat)
    requires Faithful(w.hash) && w.v2 && JustReset(w, l) && n > 0
    ensures var k, f := Beats(w, subs, l, n), w.hash(Rules(subs));
      && k.broker.v2 == l.broker.v2
      && k.broker.subs == subs
      && (!l.broker.v2 ==> !k.speaks)
      && (l.broker.v2 ==> k.speaks && k.broker.stored == f)
      && (l.broker.v2 ==> k.remembered == if n == 1 && l.broker.stored != f then None else Some(f))
  {
    if n == 1 {
      assert Beats(w, subs, l, 0) == l;
    } else {
      AfterBeats(w, subs, l, n - 1);
    }
  }

  /**
   * A beat after the restamp carries the versions, that is, its body is full: when no periodic beat slipped in between
   * the reset and the restamp, or the broker does not speak V2, or the only one that did still met another fingerprint.
   * Otherwise the body is light, since the versions are not in the fingerprint.
   */
  predicate Carries(w: Wire, was: set<Sub>, l: Link, n: nat) {
    !w.v2 || n == 0 || !l.broker.v2 || (n == 1 && l.broker.stored != w.hash(Rules(was)))
  }

  lemma {:induction false} PlainBeats(w: Wire, was: set<Sub>, l: Link, n: nat)
    requires !w.v2
    ensures Beats(w, was, l, n).broker.subs == if n == 0 then l.broker.subs else was
  {
    if n > 0 { PlainBeats(w, was, l, n - 1); }
  }

  /** Once a light beat has gone out, no later beat repairs the versions. */
  lemma {:induction false} StaleVersionsStay(w: Wire, subs: set<Sub>, l: Link, n: nat)
    requires w.v2 && l.speaks && l.remembered == Some(w.hash(Rules(subs))) && l.broker.stored == w.hash(Rules(subs))
    ensures Beats(w, subs, l, n).broker.subs == l.broker.subs
    ensures var k := Beats(w, subs, l, n);
      k.speaks && k.remembered == l.remembered && k.broker.stored == l.broker.stored
  {
    if n > 0 {
      StaleVersionsStay(w, subs, l, n - 1);
    }
  }

  /** A beat that carries the versions is not undone by later ones. */
  lemma {:induction false} NewVersionsStay(w: Wire, subs: set<Sub>, l: Link, n: nat)
    requires n > 0 && Exchange(w, subs, l).broker.subs == subs
    ensures Beats(w, subs, l, n).broker.subs == subs
  {
    if n == 1 { assert Beats(w, subs, l, 0) == l; } else { NewVersionsStay(w, subs, l, n - 1); }
  }

  /**
   * `n` periodic beats reach the broker before the restamp and `m` beats, periodic or of the settlement, after it. Then
   * it holds the restamped versions exactly when there is one of the latter and the first of them carries the versions.
   */
  lemma BrokerHoldsTheNewVersionsIff(w: Wire, was: set<Sub>, now: set<Sub>, l: Link, n: nat, m: nat)
    requires Faithful(w.hash) && JustReset(w, l)
    requires Rules(now) == Rules(was) && now != was && l.broker.subs != now
    ensures Beats(w, now, Beats(w, was, l, n), m).broker.subs == now <==> m > 0 && Carries(w, was, l, n)
  {
    var k := Beats(w, was, l, n);
    if !w.v2 { PlainBeats(w, was, l, n); } else if n > 0 { AfterBeats(w, was, l, n); }
    hide Faithful;
    if m > 0 {
      if Carries(w, was, l, n) { NewVersionsStay(w, now, k, m); } else { StaleVersionsStay(w, now, k, m); }
    }
  }

  // ---- periodic beats while the settlement runs ----------------------------------------------------

  /** The answered beats of a broker. */
  function Heard(log: seq<Effect>, j: nat): nat {
    if log == [] then 0
    else Heard(log[..|log| - 1], j) + if log[|log| - 1] == Beaten(j, true) then 1 else 0
  }

  /** The log of the settlement with answered periodic beats anywhere in between. */
  predicate Woven(own: seq<Effect>, log: seq<Effect>)
    decreases |log|
  {
    if log == [] then own == []
    else
      var e, front := log[|log| - 1], log[..|log| - 1];
      (own != [] && own[|own| - 1] == e && Woven(own[..|own| - 1], front)) || (e.Beaten? && e.ok && Woven(own, front))
  }

  /** The broker has answered a beat since the restamp, and that carried the versions. */
  predicate Told(w: Wire, was: set<Sub>, l: Link, n: nat, heard: nat) {
    heard > 0 && Carries(w, was, l, n)
  }

  lemma LinkIsTold(w: Wire, was: set<Sub>, now: set<Sub>, reset: seq<Link>, beats: seq<nat>, log: seq<Effect>, j: nat)
    requires Faithful(w.hash) && |beats| == |reset| && j < |reset| && JustReset(w, reset[j])
    requires Rules(now) == Rules(was) && now != was && reset[j].broker.subs != now
    ensures Replay(w, now, BeatenEach(w, was, reset, beats), log)[j].broker.subs == now
       <==> Told(w, was, reset[j], beats[j], Heard(log, j))
  {
    hide Faithful, Beats, Carries, JustReset, Replay;
    ReplayIsBeats(w, now, BeatenEach(w, was, reset, beats), log, j);
    BrokerHoldsTheNewVersionsIff(w, was, now, reset[j], beats[j], Heard(log, j));
  }

  lemma {:induction false} ReplayIsBeats(w: Wire, table: set<Sub>, links: seq<Link>, log: seq<Effect>, j: nat)
    requires j < |links|
    ensures Replay(w, table, links, log)[j] == Beats(w, table, links[j], Heard(log, j))
  {
    if log != [] { ReplayIsBeats(w, table, links, log[..|log| - 1], j); }
  }

  lemma {:induction false} HeardHas(log: seq<Effect>, i: nat, j: nat)
    requires i < |log| && log[i] == Beaten(j, true)
    ensures Heard(log, j) > 0
  {
    if i < |log| - 1 { HeardHas(log[..|log| - 1], i, j); }
  }

  lemma {:induction false} WovenHears(own: seq<Effect>, log: seq<Effect>, j: nat)
    requires Woven(own, log)
    ensures Heard(own, j) <= Heard(log, j)
    decreases |log|
  {
    if log != [] {
      var e, front := log[|log| - 1], log[..|log| - 1];
      if own != [] && own[|own| - 1] == e && Woven(own[..|own| - 1], front) {
        WovenHears(own[..|own| - 1], front, j);
      } else {
        WovenHears(own, front, j);
      }
    }
  }

  /** What precedes a notification of the settlement precedes it in the woven log. */
  lemma {:induction false} WovenBefore(own: seq<Effect>, log: seq<Effect>, p: nat, j: nat) returns (k: nat)
    requires Woven(own, log) && p < |log| && log[p].Notified?
    ensures k < |own| && own[k].Notified? && Heard(own[..k], j) <= Heard(log[..p], j)
    decreases |log|
  {
    var front := log[..|log| - 1];
    if p == |log| - 1 {
      k := |own| - 1;
      WovenHears(own[..k], front, j);
    } else if own != [] && own[|own| - 1] == log[|log| - 1] && Woven(own[..|own| - 1], front) {
      k := WovenBefore(own[..|own| - 1], front, p, j);
      assert own[..|own| - 1][..k] == own[..k] && front[..p] == log[..p];
    } else {
      k := WovenBefore(own, front, p, j);
      assert front[..p] == log[..p];
    }
  }

  lemma OwnBeatPrecedesTheListener(moved: seq<string>, answered: seq<bool>, log: seq<Effect>, p: nat, j: nat)
    requires Woven(Finish(moved, answered), log) && p < |log| && log[p].Notified?
    requires j < |answered| && answered[j]
    ensures Heard(log[..p], j) > 0
  {
    var own := Finish(moved, answered);
    hide Woven;
    var k := WovenBefore(own, log, p, j);
    assert own[1 + j] == Beaten(j, true) && k > 1 + j;
    HeardHas(own[..k], 1 + j, j);
  }

  /**
   * The fingerprints were dropped when the queues moved, `beats[j]` periodic beats reached broker j before the versions
   * were restamped, and then the settlement ran, with any periodic beats in between. At the moment any of its
   * notifications is made, every broker holds the restamped versions exactly when each has answered a beat since the
   * restamp, its own of the settlement or a periodic one, and that was not made light by a periodic beat confirmed
   * between the reset and the restamp. The settlement's own beats have gone out by then.
   */
  lemma {:induction false} ListenerFiresAfterTheBrokersKnowIff(
      w: Wire, subs: map<string, Sub>, moved: seq<string>, now: int, reset: seq<Link>, beats: seq<nat>,
      answered: seq<bool>, log: seq<Effect>, p: nat)
    requires Faithful(w.hash) && |beats| == |answered| == |reset|
    requires Woven(Finish(moved, answered), log) && p < |log| && log[p].Notified?
    requires var table := Table(Restamp(subs, (set t | t in moved), now));
      && table != Table(subs)
      && forall j :: 0 <= j < |reset| ==> JustReset(w, reset[j]) && reset[j].broker.subs != table
    ensures var table := Table(Restamp(subs, (set t | t in moved), now));
      var links := BeatenEach(w, Table(subs), reset, beats);
      (forall j :: 0 <= j < |reset| ==> Replay(w, table, links, log[..p])[j].broker.subs == table)
      <==> (forall j :: 0 <= j < |reset| ==> Told(w, Table(subs), reset[j], beats[j], Heard(log[..p], j)))
    ensures forall j :: 0 <= j < |reset| && answered[j] ==> Heard(log[..p], j) > 0
  {
    var table := Table(Restamp(subs, (set t | t in moved), now));
    var links := BeatenEach(w, Table(subs), reset, beats);
    RestampKeepsRules(subs, (set t | t in moved), now);
    hide Replay, Beats, Told, Faithful, Restamp, JustReset, Heard, Woven, Finish, BeatenEach;
    var held := Replay(w, table, links, log[..p]);
    if forall j :: 0 <= j < |reset| ==> held[j].broker.subs == table {
      forall j | 0 <= j < |reset| ensures Told(w, Table(subs), reset[j], beats[j], Heard(log[..p], j)) {
        LinkIsTold(w, Table(subs), table, reset, beats, log[..p], j);
        assert held[j].broker.subs == table;
      }
    } else {
      var j :| 0 <= j < |reset| && held[j].broker.subs != table;
      LinkIsTold(w, Table(subs), table, reset, beats, log[..p], j);
    }
    forall j | 0 <= j < |reset| && answered[j] ensures Heard(log[..p], j) > 0 {
      OwnBeatPrecedesTheListener(moved, answered, log, p, j);
    }
  }
}
