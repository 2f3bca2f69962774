/**
 * Heartbeat V2 between the instances of one consumer group and one broker. The broker remembers one
 * fingerprint per group, an instance remembers the fingerprint the broker last confirmed, and while the two
 * agree the instance sends a light body without its subscriptions.
 */
module HeartbeatV2 {
  import opened Messages

  datatype Sub = Sub(topic: string, expression: string, version: int)

  /** A subscription without its version stamp, which the fingerprint leaves out. */
  datatype Rule = Rule(topic: string, expression: string)

  function Rules(subs: set<Sub>): set<Rule> {
    set s | s in subs :: Rule(s.topic, s.expression)
  }

  predicate Subscribes(subs: set<Sub>, topic: string, expression: string) {
    exists s :: s in subs && s.topic == topic && s.expression == expression
  }

  /** The same topics with the same expressions; versions do not matter. */
  ghost predicate SamePairs(a: set<Sub>, b: set<Sub>) {
    forall topic, expression :: Subscribes(a, topic, expression) <==> Subscribes(b, topic, expression)
  }

  lemma RuleOf(subs: set<Sub>, r: Rule)
    ensures r in Rules(subs) <==> Subscribes(subs, r.topic, r.expression)
  {
  }

  /** Two tables have the same rules exactly when they subscribe to the same topics with the same expressions. */
  lemma RulesAreThePairs(a: set<Sub>, b: set<Sub>)
    ensures Rules(a) == Rules(b) <==> SamePairs(a, b)
  {
    forall r: Rule
      ensures r in Rules(a) <==> Subscribes(a, r.topic, r.expression)
      ensures r in Rules(b) <==> Subscribes(b, r.topic, r.expression)
    {
      RuleOf(a, r);
      RuleOf(b, r);
    }
    hide Rules, Subscribes;
    if Rules(a) == Rules(b) {
      forall topic, expression ensures Subscribes(a, topic, expression) <==> Subscribes(b, topic, expression) {
        var r := Rule(topic, expression);
        assert r in Rules(a) <==> r in Rules(b);
      }
    }
  }

  /** What is assumed of the hash: no two rule sets collide, and none hashes to the V1 value 0. */
  ghost predicate Faithful(hash: set<Rule> -> int) {
    && (forall a :: hash(a) != 0)
    && (forall a, b :: hash(a) == hash(b) ==> a == b)
  }

  /** An instance: its subscriptions, whether the broker said it speaks V2, and the confirmed fingerprint. */
  datatype Client = Client(subs: set<Sub>, speaks: bool, remembered: Option<int>)

  /** The broker's side of the group; fingerprint 0 stands for "none yet" and for a V1 round. */
  datatype Broker = Broker(v2: bool, stored: int, subs: set<Sub>)

  /** What the sender does not decide: whether a light round overwrites the broker's fingerprint. */
  datatype Policy = Policy(storeOnLight: bool)

  datatype Body = Full(fingerprint: int, subs: set<Sub>) | Light(fingerprint: int)

  function Choose(hash: set<Rule> -> int, c: Client): Body {
    var f := hash(Rules(c.subs));
    if c.speaks && c.remembered == Some(f) then Light(f) else Full(f, c.subs)
  }

  predicate Changed(b: Broker, body: Body) {
    b.v2 && b.stored != body.fingerprint
  }

  function Receive(policy: Policy, b: Broker, body: Body): Broker {
    match body
    case Full(f, subs) => Broker(b.v2, if b.v2 then f else 0, subs)
    case Light(f) => if policy.storeOnLight then b.(stored := f) else b
  }

  /** What the instance makes of the answer. */
  function Learn(c: Client, body: Body, v2: bool, changed: bool): Client {
    match body
    case Light(_) => if changed then c.(remembered := None) else c
    case Full(f, _) =>
      if !v2 then c
      else c.(speaks := true, remembered := if changed then None else Some(f))
  }

  datatype Group = Group(clients: seq<Client>, broker: Broker)

  /** `arrives` says whether the broker got the request, `answered` whether the instance got the answer. */
  datatype Event =
    | Beat(i: nat, arrives: bool, answered: bool)
    | PlainBeat(i: nat)
    | Subscribe(i: nat, subs: set<Sub>)
    | Forget(i: nat)

  predicate Enabled(g: Group, e: Event) {
    e.i < |g.clients| && (e.Beat? && e.answered ==> e.arrives)
  }

  function After(hash: set<Rule> -> int, policy: Policy, g: Group, e: Event): Group
    requires Enabled(g, e)
  {
    var c := g.clients[e.i];
    match e
    case Beat(i, arrives, answered) =>
      var body := Choose(hash, c);
      Group(if answered then g.clients[i := Learn(c, body, g.broker.v2, Changed(g.broker, body))] else g.clients,
            if arrives then Receive(policy, g.broker, body) else g.broker)
    case PlainBeat(_) => g.(broker := Receive(policy, g.broker, Full(0, c.subs)))
    case Subscribe(i, subs) => g.(clients := g.clients[i := c.(subs := subs)])
    case Forget(i) => g.(clients := g.clients[i := c.(remembered := None)])
  }

  predicate Runs(hash: set<Rule> -> int, policy: Policy, g: Group, es: seq<Event>)
    decreases |es|
  {
    es == [] || (Enabled(g, es[0]) && Runs(hash, policy, After(hash, policy, g, es[0]), es[1..]))
  }

  function End(hash: set<Rule> -> int, policy: Policy, g: Group, es: seq<Event>): Group
    requires Runs(hash, policy, g, es)
    decreases |es|
  {
    if es == [] then g else End(hash, policy, After(hash, policy, g, es[0]), es[1..])
  }

  predicate Start(g: Group) {
    && g.broker.stored == 0 && g.broker.subs == {}
    && forall i :: 0 <= i < |g.clients| ==> !g.clients[i].speaks && g.clients[i].remembered == None
  }

  // ---- a broker that leaves its fingerprint alone on a light round --------------------------------

  /** A stored fingerprint describes the rules the broker holds; a broker that never said V2 is never believed to. */
  predicate Sound(hash: set<Rule> -> int, g: Group) {
    && (g.broker.stored != 0 ==> g.broker.stored == hash(Rules(g.broker.subs)))
    && (!g.broker.v2 ==> forall i :: 0 <= i < |g.clients| ==> !g.clients[i].speaks)
  }

  lemma SoundStep(hash: set<Rule> -> int, g: Group, e: Event)
    requires Sound(hash, g) && Enabled(g, e)
    ensures Sound(hash, After(hash, Policy(false), g, e)) && After(hash, Policy(false), g, e).broker.v2 == g.broker.v2
  {
  }

  lemma {:induction false} SoundRun(hash: set<Rule> -> int, g: Group, es: seq<Event>)
    requires Sound(hash, g) && Runs(hash, Policy(false), g, es)
    ensures Sound(hash, End(hash, Policy(false), g, es))
    decreases |es|
  {
    if es != [] {
      SoundStep(hash, g, es[0]);
      hide After, Sound;
      SoundRun(hash, After(hash, Policy(false), g, es[0]), es[1..]);
    }
  }

  /**
   * However many instances share the group, whatever they subscribe to, and whichever requests and answers
   * get lost: an answer that reports no change leaves the broker with exactly the sender's rules.
   */
  lemma NoChangeMeansAgreement(hash: set<Rule> -> int, g: Group, es: seq<Event>, i: nat)
    requires Faithful(hash) && Start(g) && Runs(hash, Policy(false), g, es)
    requires i < |End(hash, Policy(false), g, es).clients|
    ensures var t := End(hash, Policy(false), g, es);
      var body := Choose(hash, t.clients[i]);
      !Changed(t.broker, body) ==> SamePairs(Receive(Policy(false), t.broker, body).subs, t.clients[i].subs)
  {
    assert Sound(hash, g);
    SoundRun(hash, g, es);
    var t := End(hash, Policy(false), g, es);
    var c := t.clients[i];
    assert hash(Rules(c.subs)) != 0;
    if c.speaks && c.remembered == Some(hash(Rules(c.subs))) && !Changed(t.broker, Light(hash(Rules(c.subs)))) {
      assert t.broker.v2;
      assert hash(Rules(t.broker.subs)) == hash(Rules(c.subs));
    }
    RulesAreThePairs(Receive(Policy(false), t.broker, Choose(hash, c)).subs, c.subs);
  }

  /**
   * An instance whose topics or expressions are not those it had confirmed sends them all, to a broker of either policy,
   * which then holds exactly them.
   */
  lemma ChangedPairsGoOutInFull(hash: set<Rule> -> int, policy: Policy, c: Client, confirmed: set<Sub>, b: Broker)
    requires Faithful(hash) && c.remembered == Some(hash(Rules(confirmed))) && !SamePairs(c.subs, confirmed)
    ensures Choose(hash, c).Full? && Choose(hash, c).subs == c.subs && Receive(policy, b, Choose(hash, c)).subs == c.subs
  {
    RulesAreThePairs(c.subs, confirmed);
  }

  /** A reported change heals: two rounds in a row of one instance, and the broker has its rules. */
  lemma TwoRoundsAgree(hash: set<Rule> -> int, policy: Policy, g: Group, i: nat)
    requires i < |g.clients|
    requires Faithful(hash) && (g.broker.stored != 0 ==> g.broker.stored == hash(Rules(g.broker.subs)))
    requires !g.broker.v2 ==> !g.clients[i].speaks
    ensures var h := After(hash, policy, After(hash, policy, g, Beat(i, true, true)), Beat(i, true, true));
      Rules(h.broker.subs) == Rules(g.clients[i].subs)
  {
    var c := g.clients[i];
    var f := hash(Rules(c.subs));
    var g1 := After(hash, policy, g, Beat(i, true, true));
    assert f != 0;
    if c.speaks && c.remembered == Some(f) && g.broker.stored == f {
      assert hash(Rules(g.broker.subs)) == f;
    }
  }

  /** In every run, then, with whatever went on before: two rounds in a row make the broker agree with the sender. */
  lemma ReportedChangeHeals(hash: set<Rule> -> int, g: Group, es: seq<Event>, i: nat)
    requires Faithful(hash) && Start(g) && Runs(hash, Policy(false), g, es)
    requires i < |End(hash, Policy(false), g, es).clients|
    ensures var t := End(hash, Policy(false), g, es);
      var u := After(hash, Policy(false), After(hash, Policy(false), t, Beat(i, true, true)), Beat(i, true, true));
      SamePairs(u.broker.subs, t.clients[i].subs)
  {
    assert Sound(hash, g);
    SoundRun(hash, g, es);
    hide Runs, End;
    var t := End(hash, Policy(false), g, es);
    TwoRoundsAgree(hash, Policy(false), t, i);
    var u := After(hash, Policy(false), After(hash, Policy(false), t, Beat(i, true, true)), Beat(i, true, true));
    RulesAreThePairs(u.broker.subs, t.clients[i].subs);
  }

  // ---- a broker that overwrites its fingerprint on every round ------------------------------------

  /** The fingerprint of the last round that reached the broker, a V1 round carrying 0. */
  function LastCarried(hash: set<Rule> -> int, policy: Policy, g: Group, es: seq<Event>, last: int): int
    requires Runs(hash, policy, g, es)
    decreases |es|
  {
    if es == [] then last
    else
      var e := es[0];
      var here := if e.Beat? && e.arrives then Choose(hash, g.clients[e.i]).fingerprint
                  else if e.PlainBeat? then 0 else last;
      LastCarried(hash, policy, After(hash, policy, g, e), es[1..], here)
  }

  /** Then the flag of a round is true exactly when its fingerprint differs from the previous round's. */
  lemma {:induction false} FlagComparesWithThePreviousRound(hash: set<Rule> -> int, g: Group, es: seq<Event>,
        body: Body)
    requires g.broker.v2 && Runs(hash, Policy(true), g, es)
    ensures Changed(End(hash, Policy(true), g, es).broker, body)
      <==> body.fingerprint != LastCarried(hash, Policy(true), g, es, g.broker.stored)
    decreases |es|
  {
    if es != [] {
      FlagComparesWithThePreviousRound(hash, After(hash, Policy(true), g, es[0]), es[1..], body);
    }
  }

  /** Instances that all subscribe to the same rules keep the broker right under either policy. */
  predicate Uniform(hash: set<Rule> -> int, g: Group, rules: set<Rule>) {
    && (forall i :: 0 <= i < |g.clients| ==> Rules(g.clients[i].subs) == rules)
    && (g.broker.stored != 0 ==> Rules(g.broker.subs) == rules)
    && (forall i :: 0 <= i < |g.clients| && g.clients[i].remembered.Some? ==> Rules(g.broker.subs) == rules)
  }

  predicate SameRules(es: seq<Event>, rules: set<Rule>) {
    forall k :: 0 <= k < |es| && es[k].Subscribe? ==> Rules(es[k].subs) == rules
  }

  lemma UniformStep(hash: set<Rule> -> int, policy: Policy, g: Group, e: Event, rules: set<Rule>)
    requires Uniform(hash, g, rules) && Enabled(g, e) && (e.Subscribe? ==> Rules(e.subs) == rules)
    ensures Uniform(hash, After(hash, policy, g, e), rules)
    ensures e.Beat? && e.arrives ==> Rules(After(hash, policy, g, e).broker.subs) == rules
  {
  }

  lemma {:induction false} UniformGroupAgrees(hash: set<Rule> -> int, policy: Policy, g: Group, es: seq<Event>,
                                              rules: set<Rule>)
    requires Uniform(hash, g, rules) && Runs(hash, policy, g, es) && SameRules(es, rules)
    ensures Uniform(hash, End(hash, policy, g, es), rules)
    decreases |es|
  {
    if es != [] {
      UniformStep(hash, policy, g, es[0], rules);
      UniformGroupAgrees(hash, policy, After(hash, policy, g, es[0]), es[1..], rules);
    }
  }

  // ---- which groups that policy can mislead --------------------------------------------------------

  /** The instance sends a light body, is told that nothing changed, and the broker holds other rules. */
  predicate Misled(hash: set<Rule> -> int, g: Group, i: nat) {
    && i < |g.clients| && Choose(hash, g.clients[i]).Light? && !Changed(g.broker, Choose(hash, g.clients[i]))
    && Rules(g.broker.subs) != Rules(g.clients[i].subs)
  }

  /** What may happen: answers get lost, and subscriptions change. */
  datatype Terms = Terms(losses: bool, changes: bool)

  /** Without losses, whoever reaches the broker also hears its answer. */
  predicate Allowed(e: Event, terms: Terms) {
    (e.Subscribe? ==> terms.changes) && (e.Beat? && !terms.losses ==> e.arrives == e.answered)
  }

  predicate Misleads(hash: set<Rule> -> int, g: Group, terms: Terms, es: seq<Event>, i: nat) {
    && Runs(hash, Policy(true), g, es) && (forall k :: 0 <= k < |es| ==> Allowed(es[k], terms))
    && Misled(hash, End(hash, Policy(true), g, es), i)
  }

  ghost predicate CanMislead(hash: set<Rule> -> int, g: Group, terms: Terms) {
    exists es, i :: Misleads(hash, g, terms, es, i)
  }

  predicate Differ(g: Group, i: nat, k: nat) {
    i < |g.clients| && k < |g.clients| && Rules(g.clients[i].subs) != Rules(g.clients[k].subs)
  }

  predicate Twins(g: Group, i: nat, j: nat) {
    i < |g.clients| && j < |g.clients| && i != j && Rules(g.clients[i].subs) == Rules(g.clients[j].subs)
  }

  predicate Arrives(hash: set<Rule> -> int, g: Group, terms: Terms, es: seq<Event>, t: Group) {
    && Runs(hash, Policy(true), g, es) && (forall k :: 0 <= k < |es| ==> Allowed(es[k], terms))
    && End(hash, Policy(true), g, es) == t
  }

  lemma {:induction false} OneRoundMore(hash: set<Rule> -> int, p: Policy, g: Group, es: seq<Event>, e: Event)
    requires Runs(hash, p, g, es) && Enabled(End(hash, p, g, es), e)
    ensures Runs(hash, p, g, es + [e]) && End(hash, p, g, es + [e]) == After(hash, p, End(hash, p, g, es), e)
    decreases |es|
  {
    hide After, Enabled;
    if es == [] {
      assert [e][1..] == [];
    } else {
      OneRoundMore(hash, p, After(hash, p, g, es[0]), es[1..], e);
      assert (es + [e])[1..] == es[1..] + [e];
    }
  }

  lemma Next(hash: set<Rule> -> int, g: Group, terms: Terms, es: seq<Event>, t: Group, e: Event)
    returns (fs: seq<Event>, u: Group)
    requires Arrives(hash, g, terms, es, t) && Enabled(t, e) && Allowed(e, terms)
    ensures Arrives(hash, g, terms, fs, u) && u == After(hash, Policy(true), t, e)
  {
    OneRoundMore(hash, Policy(true), g, es, e);
    fs, u := es + [e], After(hash, Policy(true), t, e);
  }

  /** Once the broker has the rules of an instance, the instance's next round confirms them. */
  lemma Confirm(hash: set<Rule> -> int, g: Group, terms: Terms, es: seq<Event>, t: Group, i: nat)
    returns (fs: seq<Event>, u: Group)
    requires Arrives(hash, g, terms, es, t) && i < |t.clients| && t.clients[i].remembered == None
    requires t.broker.v2 && t.broker.stored == hash(Rules(t.clients[i].subs))
    ensures Arrives(hash, g, terms, fs, u)
    ensures var c := t.clients[i];
      u == Group(t.clients[i := Client(c.subs, true, Some(t.broker.stored))], t.broker.(subs := c.subs))
  {
    hide Arrives;
    fs, u := Next(hash, g, terms, es, t, Beat(i, true, true));
  }

  /** A full round replaces what the broker holds. */
  lemma Replace(hash: set<Rule> -> int, g: Group, terms: Terms, es: seq<Event>, t: Group, i: nat)
    returns (fs: seq<Event>, u: Group)
    requires Arrives(hash, g, terms, es, t) && i < |t.clients| && t.clients[i].remembered == None
    requires t.broker.v2 && t.broker.stored != hash(Rules(t.clients[i].subs))
    ensures Arrives(hash, g, terms, fs, u)
    ensures var c := t.clients[i];
      u == Group(t.clients[i := Client(c.subs, true, None)], Broker(true, hash(Rules(c.subs)), c.subs))
  {
    hide Arrives;
    fs, u := Next(hash, g, terms, es, t, Beat(i, true, true));
  }

  /** With losses: a light round is taken, its answer lost, and the same instance asks again. */
  lemma LostAnswerMisleads(hash: set<Rule> -> int, g: Group, i: nat, k: nat) returns (es: seq<Event>)
    requires Faithful(hash) && Start(g) && g.broker.v2 && Differ(g, i, k)
    ensures Misleads(hash, g, Terms(true, false), es, i)
  {
    var t := g;
    es := [];
    assert Arrives(hash, g, Terms(true, false), es, t);
    var a, b := hash(Rules(g.clients[i].subs)), hash(Rules(g.clients[k].subs));
    assert a != b && a != 0 && b != 0;
    hide Arrives, Faithful;
    es, t := Replace(hash, g, Terms(true, false), es, t, i);
    es, t := Confirm(hash, g, Terms(true, false), es, t, i);
    es, t := Replace(hash, g, Terms(true, false), es, t, k);
    es, t := Next(hash, g, Terms(true, false), es, t, Beat(i, true, false));
    assert Misled(hash, t, i);
    Arrived(hash, g, Terms(true, false), es, t);
  }

  lemma Arrived(hash: set<Rule> -> int, g: Group, terms: Terms, es: seq<Event>, t: Group)
    requires Arrives(hash, g, terms, es, t)
    ensures forall i :: Misled(hash, t, i) ==> Misleads(hash, g, terms, es, i)
  {
  }

  /** Without: one of two instances with equal rules has its light round taken, and the other one asks. */
  lemma TwinMisleads(hash: set<Rule> -> int, g: Group, i: nat, j: nat, k: nat) returns (es: seq<Event>)
    requires Faithful(hash) && Start(g) && g.broker.v2 && Twins(g, i, j) && Differ(g, i, k)
    ensures Misleads(hash, g, Terms(false, false), es, j)
  {
    var t := g;
    es := [];
    assert Arrives(hash, g, Terms(false, false), es, t);
    var a, b := hash(Rules(g.clients[i].subs)), hash(Rules(g.clients[k].subs));
    assert a != b && a != 0 && b != 0;
    hide Arrives, Faithful;
    es, t := Replace(hash, g, Terms(false, false), es, t, i);
    es, t := Confirm(hash, g, Terms(false, false), es, t, i);
    es, t := Confirm(hash, g, Terms(false, false), es, t, j);
    es, t := Replace(hash, g, Terms(false, false), es, t, k);
    es, t := Next(hash, g, Terms(false, false), es, t, Beat(i, true, true));
    assert Misled(hash, t, j);
    Arrived(hash, g, Terms(false, false), es, t);
  }

  /** Instances no two of which have the same rules: a confirmed fingerprint the broker stores is a true one. */
  predicate Single(hash: set<Rule> -> int, g: Group) {
    && (forall i, j :: 0 <= i < j < |g.clients| ==> Rules(g.clients[i].subs) != Rules(g.clients[j].subs))
    && (!g.broker.v2 ==> forall i :: 0 <= i < |g.clients| ==> !g.clients[i].speaks)
    && (forall i :: 0 <= i < |g.clients| ==>
          (g.clients[i].remembered.Some? && g.broker.stored == hash(Rules(g.clients[i].subs)) ==>
             Rules(g.broker.subs) == Rules(g.clients[i].subs)))
  }

  lemma SingleStep(hash: set<Rule> -> int, g: Group, e: Event)
    requires Faithful(hash) && Single(hash, g) && Enabled(g, e) && Allowed(e, Terms(false, false))
    ensures Single(hash, After(hash, Policy(true), g, e))
  {
    var t := After(hash, Policy(true), g, e);
    assert forall i :: 0 <= i < |g.clients| ==> t.clients[i].subs == g.clients[i].subs;
    assert forall i, j ::
      0 <= i < |g.clients| && 0 <= j < |g.clients| && i != j ==>
        hash(Rules(g.clients[i].subs)) != hash(Rules(g.clients[j].subs));
    assert forall i :: 0 <= i < |g.clients| ==> hash(Rules(g.clients[i].subs)) != 0;
    hide Faithful, Rules;
  }

  lemma {:induction false} SingleRun(hash: set<Rule> -> int, g: Group, es: seq<Event>)
    requires Faithful(hash) && Single(hash, g) && Runs(hash, Policy(true), g, es)
    requires forall k :: 0 <= k < |es| ==> Allowed(es[k], Terms(false, false))
    ensures Single(hash, End(hash, Policy(true), g, es))
    decreases |es|
  {
    if es != [] {
      SingleStep(hash, g, es[0]);
      hide Single, After, Faithful, Allowed;
      SingleRun(hash, After(hash, Policy(true), g, es[0]), es[1..]);
    }
  }

  /**
   * While no subscription changes and answers get lost, a broker that stores light rounds can mislead an instance
   * exactly when two instances of the group differ in their rules.
   */
  lemma LossyGroupIsMisledIff(hash: set<Rule> -> int, g: Group)
    requires Faithful(hash) && Start(g)
    ensures CanMislead(hash, g, Terms(true, false)) <==> g.broker.v2 && exists i, k :: Differ(g, i, k)
  {
    hide Misleads, Faithful;
    if g.broker.v2 && exists i, k :: Differ(g, i, k) {
      var i, k :| Differ(g, i, k);
      var es := LostAnswerMisleads(hash, g, i, k);
    } else {
      forall es, i
        ensures !Misleads(hash, g, Terms(true, false), es, i) { SoberGroup(hash, g, Terms(true, false), es, i); }
    }
  }

  /** While no subscription changes and every answer is heard, exactly when two instances have the same rules and a
      third has others. */
  lemma LosslessGroupIsMisledIff(hash: set<Rule> -> int, g: Group)
    requires Faithful(hash) && Start(g)
    ensures CanMislead(hash, g, Terms(false, false)) <==> g.broker.v2 && exists i, j, k :: Twins(g, i, j) && Differ(g, i, k)
  {
    hide Misleads, Faithful;
    if g.broker.v2 && exists i, j, k :: Twins(g, i, j) && Differ(g, i, k) {
      var i, j, k :| Twins(g, i, j) && Differ(g, i, k);
      var es := TwinMisleads(hash, g, i, j, k);
    } else {
      forall es, i
        ensures !Misleads(hash, g, Terms(false, false), es, i) { SoberGroup(hash, g, Terms(false, false), es, i); }
    }
  }

  lemma SoberGroup(hash: set<Rule> -> int, g: Group, terms: Terms, es: seq<Event>, i: nat)
    requires Faithful(hash) && Start(g) && !terms.changes
    requires !g.broker.v2 || (if terms.losses then forall i, k :: !Differ(g, i, k)
                              else forall i, j, k :: !(Twins(g, i, j) && Differ(g, i, k)))
    ensures !Misleads(hash, g, terms, es, i)
  {
    hide Faithful, Rules, Choose;
    if Runs(hash, Policy(true), g, es) && forall k :: 0 <= k < |es| ==> Allowed(es[k], terms) {
      if !g.broker.v2 {
        MuteRun(hash, g, es, i);
      } else if k :| 0 <= k < |g.clients| && Differ(g, 0, k) {
        DifferentFromAll(g, k);
        SingleRun(hash, g, es);
        SingleIsSober(hash, End(hash, Policy(true), g, es), i);
      } else {
        AlikeRun(hash, g, es, i);
      }
    }
  }

  lemma NoTwin(g: Group, i: nat, j: nat, k: nat)
    requires Differ(g, i, k) && forall i, j, k :: !(Twins(g, i, j) && Differ(g, i, k))
    ensures !Twins(g, i, j)
  {
  }

  lemma DifferentFromAll(g: Group, k: nat)
    requires Differ(g, 0, k) && forall i, j, k :: !(Twins(g, i, j) && Differ(g, i, k))
    ensures forall i, j :: 0 <= i < j < |g.clients| ==> Rules(g.clients[i].subs) != Rules(g.clients[j].subs)
  {
    forall i, j | 0 <= i < j < |g.clients| ensures Rules(g.clients[i].subs) != Rules(g.clients[j].subs) {
      NoTwin(g, i, j, if Differ(g, i, 0) then 0 else k);
    }
  }

  lemma SingleIsSober(hash: set<Rule> -> int, g: Group, i: nat)
    requires Single(hash, g)
    ensures !Misled(hash, g, i)
  {
  }

  lemma AlikeRun(hash: set<Rule> -> int, g: Group, es: seq<Event>, i: nat)
    requires Start(g) && Runs(hash, Policy(true), g, es)
    requires forall k :: 0 <= k < |es| ==> !es[k].Subscribe?
    requires forall k :: 0 <= k < |g.clients| ==> !Differ(g, 0, k)
    ensures !Misled(hash, End(hash, Policy(true), g, es), i)
  {
    SameInstances(hash, Policy(true), g, es);
    if g.clients != [] {
      var rules := Rules(g.clients[0].subs);
      forall j | 0 <= j < |g.clients| ensures Rules(g.clients[j].subs) == rules { assert !Differ(g, 0, j); }
      UniformGroupAgrees(hash, Policy(true), g, es, rules);
    }
  }

  lemma {:induction false} SameInstances(hash: set<Rule> -> int, p: Policy, g: Group, es: seq<Event>)
    requires Runs(hash, p, g, es)
    ensures |End(hash, p, g, es).clients| == |g.clients|
    decreases |es|
  {
    if es != [] { SameInstances(hash, p, After(hash, p, g, es[0]), es[1..]); }
  }

  /** A broker without V2 is never thought to speak it. */
  predicate Mute(g: Group) {
    !g.broker.v2 && forall i :: 0 <= i < |g.clients| ==> !g.clients[i].speaks
  }

  lemma MuteStep(hash: set<Rule> -> int, g: Group, e: Event)
    requires Mute(g) && Enabled(g, e)
    ensures Mute(After(hash, Policy(true), g, e))
  {
  }

  lemma {:induction false} MuteRun(hash: set<Rule> -> int, g: Group, es: seq<Event>, i: nat)
    requires Mute(g) && Runs(hash, Policy(true), g, es)
    ensures !Misled(hash, End(hash, Policy(true), g, es), i)
    decreases |es|
  {
    if es != [] {
      MuteStep(hash, g, es[0]);
      hide After, Misled;
      MuteRun(hash, After(hash, Policy(true), g, es[0]), es[1..], i);
    }
  }

  // ---- and which it can mislead once subscriptions change ------------------------------------------

  const NO_SUBS: set<Sub> := {}
  const ONE_SUB: set<Sub> := {Sub("", "", 0)}

  lemma TwoRuleSets()
    ensures Rules(NO_SUBS) != Rules(ONE_SUB)
  {
    assert Rule("", "") in Rules(ONE_SUB) && Rule("", "") !in Rules(NO_SUBS);
  }

  /** Alone, with losses: confirm some rules, change them and back, and lose both answers. */
  lemma ChangeAndBackMisleads(hash: set<Rule> -> int, g: Group) returns (es: seq<Event>)
    requires Faithful(hash) && Start(g) && g.broker.v2 && g.clients != []
    ensures Misleads(hash, g, Terms(true, true), es, 0)
  {
    var t, terms := g, Terms(true, true);
    es := [];
    assert Arrives(hash, g, terms, es, t);
    TwoRuleSets();
    assert hash(Rules(NO_SUBS)) != 0 && hash(Rules(NO_SUBS)) != hash(Rules(ONE_SUB));
    hide Arrives, Faithful, Rules;
    es, t := Next(hash, g, terms, es, t, Subscribe(0, NO_SUBS));
    es, t := Replace(hash, g, terms, es, t, 0);
    es, t := Confirm(hash, g, terms, es, t, 0);
    es, t := Next(hash, g, terms, es, t, Subscribe(0, ONE_SUB));
    es, t := Next(hash, g, terms, es, t, Beat(0, true, false));
    es, t := Next(hash, g, terms, es, t, Subscribe(0, NO_SUBS));
    es, t := Next(hash, g, terms, es, t, Beat(0, true, false));
    assert Misled(hash, t, 0);
    Arrived(hash, g, terms, es, t);
  }

  /** Two instances have had the same rules confirmed. */
  lemma TwoConfirmed(hash: set<Rule> -> int, g: Group, terms: Terms) returns (es: seq<Event>, t: Group)
    requires Faithful(hash) && Start(g) && g.broker.v2 && |g.clients| >= 2 && terms.changes
    ensures Arrives(hash, g, terms, es, t) && |t.clients| >= 2 && t.broker.v2
    ensures forall i | 0 <= i < 2 :: t.clients[i] == Client(NO_SUBS, true, Some(hash(Rules(NO_SUBS))))
  {
    t, es := g, [];
    assert Arrives(hash, g, terms, es, t);
    assert hash(Rules(NO_SUBS)) != 0;
    hide Arrives, Faithful, Rules;
    es, t := Next(hash, g, terms, es, t, Subscribe(0, NO_SUBS));
    es, t := Next(hash, g, terms, es, t, Subscribe(1, NO_SUBS));
    es, t := Replace(hash, g, terms, es, t, 0);
    es, t := Confirm(hash, g, terms, es, t, 0);
    es, t := Confirm(hash, g, terms, es, t, 1);
  }

  /** One of them, for a while with other rules, sends a plain beat, and the other one's light round covers it up. */
  lemma PlainBeatMisleads(hash: set<Rule> -> int, g: Group, terms: Terms) returns (es: seq<Event>)
    requires Faithful(hash) && Start(g) && g.broker.v2 && |g.clients| >= 2 && terms.changes
    ensures Misleads(hash, g, terms, es, 0)
  {
    var t;
    es, t := TwoConfirmed(hash, g, terms);
    TwoRuleSets();
    assert hash(Rules(NO_SUBS)) != 0;
    hide Arrives, Faithful, Rules;
    es, t := Next(hash, g, terms, es, t, Subscribe(0, ONE_SUB));
    es, t := Next(hash, g, terms, es, t, PlainBeat(0));
    es, t := Next(hash, g, terms, es, t, Subscribe(0, NO_SUBS));
    es, t := Next(hash, g, terms, es, t, Beat(1, true, true));
    assert Misled(hash, t, 0);
    Arrived(hash, g, terms, es, t);
  }

  /** One instance at most: a confirmed fingerprint the broker stores describes what the broker holds. */
  predicate Solo(hash: set<Rule> -> int, g: Group) {
    && |g.clients| <= 1 && g.broker.v2
    && forall i :: 0 <= i < |g.clients| && g.clients[i].remembered.Some? ==>
         && g.clients[i].remembered.value != 0
         && (g.broker.stored == g.clients[i].remembered.value ==> g.broker.stored == hash(Rules(g.broker.subs)))
  }

  lemma SoloStep(hash: set<Rule> -> int, g: Group, e: Event)
    requires Faithful(hash) && Solo(hash, g) && Enabled(g, e) && Allowed(e, Terms(false, true))
    ensures Solo(hash, After(hash, Policy(true), g, e))
  {
    assert hash(Rules(g.clients[0].subs)) != 0;
    hide Faithful, Rules;
  }

  lemma {:induction false} SoloRun(hash: set<Rule> -> int, g: Group, es: seq<Event>, i: nat)
    requires Faithful(hash) && Solo(hash, g) && Runs(hash, Policy(true), g, es)
    requires forall k :: 0 <= k < |es| ==> Allowed(es[k], Terms(false, true))
    ensures !Misled(hash, End(hash, Policy(true), g, es), i)
    decreases |es|
  {
    if es == [] {
      hide Rules;
    } else {
      SoloStep(hash, g, es[0]);
      hide Solo, After, Faithful, Allowed, Misled;
      SoloRun(hash, After(hash, Policy(true), g, es[0]), es[1..], i);
    }
  }

  /**
   * Once subscriptions may change, a broker that stores light rounds can mislead every group with an instance in it if
   * answers get lost, and every group with two instances if they do not.
   */
  lemma ChangingGroupIsMisledIff(hash: set<Rule> -> int, g: Group, losses: bool)
    requires Faithful(hash) && Start(g)
    ensures CanMislead(hash, g, Terms(losses, true)) <==> g.broker.v2 && |g.clients| >= if losses then 1 else 2
  {
    var terms := Terms(losses, true);
    if g.broker.v2 && |g.clients| >= if losses then 1 else 2 {
      var es;
      if losses { es := ChangeAndBackMisleads(hash, g); } else { es := PlainBeatMisleads(hash, g, terms); }
      hide Misleads;
    } else {
      forall es, i ensures !Misleads(hash, g, terms, es, i) {
        hide Misled, Faithful;
        if Runs(hash, Policy(true), g, es) && forall k :: 0 <= k < |es| ==> Allowed(es[k], terms) {
          if !g.broker.v2 {
            MuteRun(hash, g, es, i);
          } else if g.clients == [] {
            SameInstances(hash, Policy(true), g, es);
            NobodyIsMisled(hash, End(hash, Policy(true), g, es), i);
          } else {
            SoloRun(hash, g, es, i);
          }
        }
      }
    }
  }

  lemma NobodyIsMisled(hash: set<Rule> -> int, g: Group, i: nat)
    requires g.clients == []
    ensures !Misled(hash, g, i)
  {
  }

  // ---- one instance, every answer received --------------------------------------------------------

  predicate LoneEvent(e: Event) {
    !e.PlainBeat? && (e.Beat? ==> e.arrives == e.answered)
  }

  predicate LoneRun(es: seq<Event>) {
    forall k :: 0 <= k < |es| ==> LoneEvent(es[k])
  }

  /** What the instance remembers is what the broker stores, and describes what the broker holds. */
  predicate Lone(hash: set<Rule> -> int, g: Group) {
    && |g.clients| == 1
    && (!g.broker.v2 ==> g.clients[0].remembered == None)
    && (g.clients[0].remembered.Some? ==> g.broker.stored == g.clients[0].remembered.value)
    && (g.broker.stored != 0 ==> g.broker.stored == hash(Rules(g.broker.subs)))
  }

  lemma LoneStep(hash: set<Rule> -> int, policy: Policy, g: Group, e: Event)
    requires Faithful(hash) && Lone(hash, g) && Enabled(g, e) && LoneEvent(e)
    ensures Lone(hash, After(hash, policy, g, e))
    ensures After(hash, policy, g, e) == After(hash, Policy(false), g, e)
    ensures e.Beat? && e.arrives ==> Rules(After(hash, policy, g, e).broker.subs) == Rules(g.clients[0].subs)
  {
    assert hash(Rules(g.clients[0].subs)) != 0;
    if e.Beat? && e.arrives && Choose(hash, g.clients[0]).Light? {
      assert g.broker.stored == hash(Rules(g.clients[0].subs));
      assert hash(Rules(g.broker.subs)) == hash(Rules(g.clients[0].subs));
    }
  }

  /**
   * For a lone instance it makes no difference whether light rounds are stored, and after every round the
   * broker has taken, light or full, it holds exactly the instance's rules.
   */
  lemma {:induction false} LoneInstanceAgrees(hash: set<Rule> -> int, policy: Policy, g: Group, es: seq<Event>)
    requires Faithful(hash) && Lone(hash, g) && Runs(hash, policy, g, es) && LoneRun(es)
    ensures Runs(hash, Policy(false), g, es)
    ensures End(hash, policy, g, es) == End(hash, Policy(false), g, es)
    ensures Lone(hash, End(hash, policy, g, es))
    ensures es != [] && es[|es| - 1].Beat? && es[|es| - 1].arrives ==>
      Rules(End(hash, policy, g, es).broker.subs) == Rules(End(hash, policy, g, es).clients[0].subs)
    decreases |es|
  {
    if es != [] {
      LoneStep(hash, policy, g, es[0]);
      var h := After(hash, policy, g, es[0]);
      assert es[0].Beat? ==> h.clients[0].subs == g.clients[0].subs;
      hide After, Faithful, Lone;
      LoneInstanceAgrees(hash, policy, h, es[1..]);
    }
  }

  // ---- the tables as the client keeps them --------------------------------------------------------

  /** The broker's table entry for one group. */
  class BrokerTable {
    var state: Broker
    const policy: Policy

    constructor (v2: bool, policy: Policy)
      ensures state == Broker(v2, 0, {}) && this.policy == policy
    {
      this.policy := policy;
      state := Broker(v2, 0, {});
    }

    method Heartbeat(body: Body) returns (supports: bool, changed: bool)
      modifies this
      ensures supports == old(state).v2 && changed == Changed(old(state), body)
      ensures state == Receive(policy, old(state), body)
    {
      supports := state.v2;
      changed := supports && state.stored != body.fingerprint;
      match body {
        case Full(f, subs) => state := Broker(supports, if supports then f else 0, subs);
        case Light(f) =>
          if policy.storeOnLight {
            state := state.(stored := f);
          }
      }
    }
  }

  /** One heartbeat stream: the addresses known to speak V2 and the fingerprints they confirmed. */
  class Stream {
    var speaks: set<string>
    var confirmed: map<string, int>

    constructor ()
      ensures speaks == {} && confirmed == map[]
    {
      speaks, confirmed := {}, map[];
    }

    function View(address: string, subs: set<Sub>): Client
      reads this
    {
      Client(subs, address in speaks, if address in confirmed then Some(confirmed[address]) else None)
    }

    /** Drop every confirmed fingerprint; what the brokers speak stays known. */
    method Reset()
      modifies this`confirmed
      ensures forall a, subs :: View(a, subs) == old(View(a, subs)).(remembered := None)
    {
      confirmed := map[];
    }

    method SendToBroker(hash: set<Rule> -> int, address: string, subs: set<Sub>, broker: BrokerTable)
      modifies this, broker
      ensures var c, body := old(View(address, subs)), Choose(hash, old(View(address, subs)));
        && broker.state == Receive(broker.policy, old(broker.state), body)
        && View(address, subs) == Learn(c, body, old(broker.state).v2, Changed(old(broker.state), body))
      ensures forall a :: a != address ==> View(a, subs) == old(View(a, subs))
      ensures forall was | Faithful(hash) && !SamePairs(subs, was) ::
        old(View(address, subs)).remembered == Some(hash(Rules(was))) ==> broker.state.subs == subs
    {
      forall was | Faithful(hash) && !SamePairs(subs, was) ensures Rules(subs) != Rules(was) {
        RulesAreThePairs(subs, was);
      }
      var fingerprint := hash(Rules(subs));
      if address in speaks && address in confirmed && confirmed[address] == fingerprint {
        var _, changed := broker.Heartbeat(Light(fingerprint));
        if changed {
          confirmed := confirmed - {address};
        }
      } else {
        var supports, changed := broker.Heartbeat(Full(fingerprint, subs));
        if supports {
          speaks := speaks + {address};
          if changed {
            confirmed := confirmed - {address};
          } else if address !in confirmed || confirmed[address] != fingerprint {
            confirmed := confirmed[address := fingerprint];
          }
        }
      }
    }
  }
}
