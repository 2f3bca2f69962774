/** The consistent-hash strategy: instances as virtual nodes on a ring, each queue going to the next node. */
module HashRing {
  import opened Messages

  /** Where a virtual node and a queue stand on the ring; both come from one hash of texts. */
  datatype Placing = Placing(node: (string, nat) -> int, queue: MessageQueue -> int)

  // ---- the ring and its next node -----------------------------------------------------------------

  predicate Sorted(keys: seq<int>) {
    forall i, j :: 0 <= i < j < |keys| ==> keys[i] < keys[j]
  }

  /** `s` is the first of the keys at or past `at`, or the first of all if there is none. */
  predicate IsNext(keys: set<int>, at: int, s: int) {
    && s in keys
    && (forall k :: k in keys && k >= at ==> at <= s <= k)
    && (s < at ==> forall k :: k in keys ==> s <= k)
  }

  lemma NextIsUnique(keys: set<int>, at: int, s: int, t: int)
    requires IsNext(keys, at, s) && IsNext(keys, at, t)
    ensures s == t
  {
  }

  method Bisect(keys: seq<int>, at: int) returns (index: nat)
    requires Sorted(keys)
    ensures index <= |keys|
    ensures forall i :: 0 <= i < index ==> keys[i] < at
    ensures forall i :: index <= i < |keys| ==> keys[i] >= at
  {
    var lo, hi := 0, |keys|;
    while lo < hi
      invariant 0 <= lo <= hi <= |keys|
      invariant forall i :: 0 <= i < lo ==> keys[i] < at
      invariant forall i :: hi <= i < |keys| ==> keys[i] >= at
    {
      var mid := (lo + hi) / 2;
      if keys[mid] < at {
        lo := mid + 1;
      } else {
        hi := mid;
      }
    }
    index := lo;
  }

  function KeysOf(keys: seq<int>): set<int> {
    set k | k in keys
  }

  function CountOf(ring: map<int, string>, cid: string): nat {
    |set k | k in ring && ring[k] == cid|
  }

  /** Replicas `i` and up of one instance, later ones overwriting what is on their place. */
  function AddFrom(p: Placing, ring: map<int, string>, cid: string, i: nat, end: nat): map<int, string>
    decreases end - i
  {
    if i >= end then ring else AddFrom(p, ring[p.node(cid, i) := cid], cid, i + 1, end)
  }

  /** An instance already on the ring continues its numbering. */
  function AddNode(p: Placing, ring: map<int, string>, cid: string, replicas: nat): map<int, string> {
    var existing := CountOf(ring, cid);
    AddFrom(p, ring, cid, existing, existing + replicas)
  }

  function Build(p: Placing, ring: map<int, string>, cids: seq<string>, replicas: nat): map<int, string>
    decreases |cids|
  {
    if cids == [] then ring else Build(p, AddNode(p, ring, cids[0], replicas), cids[1..], replicas)
  }

  predicate IsEmpty(ring: map<int, string>) {
    forall k :: k in ring.Keys ==> false
  }

  /** The owner of a place on the ring. */
  ghost predicate Routes(ring: map<int, string>, at: int, owner: Option<string>) {
    if IsEmpty(ring) then owner == None
    else exists s :: IsNext(ring.Keys, at, s) && owner == Some(ring[s])
  }

  class Router {
    const placing: Placing
    var ring: map<int, string>
    var keys: seq<int>

    ghost predicate Valid()
      reads this
    {
      Sorted(keys) && KeysOf(keys) == ring.Keys
    }

    constructor (placing: Placing, cids: seq<string>, replicas: nat)
      ensures Valid() && this.placing == placing && ring == Build(placing, map[], cids, replicas)
    {
      this.placing := placing;
      ring, keys := map[], [];
      new;
      for i := 0 to |cids|
        invariant Valid()
        invariant Build(placing, map[], cids, replicas) == Build(placing, ring, cids[i..], replicas)
      {
        Add(cids[i], replicas);
        assert cids[i..][1..] == cids[i + 1..];
      }
    }

    method Add(cid: string, replicas: nat)
      requires Valid()
      modifies this`ring, this`keys
      ensures Valid() && ring == AddNode(placing, old(ring), cid, replicas)
    {
      var existing := |set k | k in ring && ring[k] == cid|;
      for i := 0 to replicas
        invariant Valid()
        invariant AddNode(placing, old(ring), cid, replicas)
          == AddFrom(placing, ring, cid, existing + i, existing + replicas)
      {
        var key := placing.node(cid, existing + i);
        if key !in ring {
          Insert(key);
        }
        ring := ring[key := cid];
      }
    }

    method Insert(key: int)
      requires Sorted(keys) && key !in keys
      modifies this`keys
      ensures Sorted(keys) && KeysOf(keys) == KeysOf(old(keys)) + {key}
    {
      var at := Bisect(keys, key);
      InsertSorted(keys, key, at);
      keys := keys[..at] + [key] + keys[at..];
    }

    method Route(at: int) returns (owner: Option<string>)
      requires Valid()
      ensures Routes(ring, at, owner)
    {
      if |keys| == 0 {
        return None;
      }
      var index := Bisect(keys, at);
      if index == |keys| {
        index := 0;
      }
      assert keys[index] in KeysOf(keys);
      assert forall k :: k in ring.Keys ==> k in keys;
      assert IsNext(ring.Keys, at, keys[index]);
      owner := Some(ring[keys[index]]);
    }
  }

  lemma InsertSorted(keys: seq<int>, key: int, at: nat)
    requires Sorted(keys) && key !in keys && at <= |keys|
    requires forall i :: 0 <= i < at ==> keys[i] < key
    requires forall i :: at <= i < |keys| ==> keys[i] >= key
    ensures Sorted(keys[..at] + [key] + keys[at..])
    ensures KeysOf(keys[..at] + [key] + keys[at..]) == KeysOf(keys) + {key}
  {
    var r := keys[..at] + [key] + keys[at..];
    assert forall i :: at <= i < |keys| ==> keys[i] != key;
    assert keys == keys[..at] + keys[at..];
  }

  // ---- one owner for every queue ------------------------------------------------------------------

  lemma NextExists(keys: set<int>, at: int, some: int) returns (s: int)
    requires some in keys
    ensures IsNext(keys, at, s)
  {
    var above := set k | k in keys && k >= at;
    assert forall k :: k in keys ==> k < at || k in above;
    if k :| k in above {
      s := Least(above, k);
    } else {
      s := Least(keys, some);
    }
  }

  lemma {:induction false} Least(keys: set<int>, some: int) returns (s: int)
    requires some in keys
    ensures s in keys && forall k :: k in keys ==> s <= k
    decreases keys
  {
    var rest := keys - {some};
    assert forall k :: k in keys ==> k == some || k in rest;
    s := some;
    if k :| k in rest {
      var t := Least(rest, k);
      s := if t < some then t else some;
    }
  }

  predicate OwnedBy(ring: map<int, string>, cids: set<string>) {
    forall k :: k in ring ==> ring[k] in cids
  }

  lemma {:induction false} AddFromOwned(p: Placing, ring: map<int, string>, cid: string, i: nat, end: nat,
                                        cids: set<string>)
    requires OwnedBy(ring, cids) && cid in cids
    ensures OwnedBy(AddFrom(p, ring, cid, i, end), cids)
    ensures ring.Keys <= AddFrom(p, ring, cid, i, end).Keys
    ensures i < end ==> p.node(cid, i) in AddFrom(p, ring, cid, i, end)
    decreases end - i
  {
    if i < end {
      AddFromOwned(p, ring[p.node(cid, i) := cid], cid, i + 1, end, cids);
    }
  }

  lemma {:induction false} BuildOwned(p: Placing, ring: map<int, string>, cids: seq<string>, replicas: nat,
                                      all: set<string>)
    requires OwnedBy(ring, all) && forall c :: c in cids ==> c in all
    ensures OwnedBy(Build(p, ring, cids, replicas), all)
    ensures ring.Keys <= Build(p, ring, cids, replicas).Keys
    ensures replicas > 0 && cids != [] ==> p.node(cids[0], CountOf(ring, cids[0])) in Build(p, ring, cids, replicas)
    ensures replicas == 0 ==> Build(p, ring, cids, replicas) == ring
    decreases |cids|
  {
    if cids != [] {
      var n := CountOf(ring, cids[0]);
      AddFromOwned(p, ring, cids[0], n, n + replicas, all);
      BuildOwned(p, AddNode(p, ring, cids[0], replicas), cids[1..], replicas, all);
    }
  }

  lemma RouteIsUnique(ring: map<int, string>, at: int, a: Option<string>, b: Option<string>)
    requires Routes(ring, at, a) && Routes(ring, at, b)
    ensures a == b
  {
    if !IsEmpty(ring) {
      var s :| IsNext(ring.Keys, at, s) && a == Some(ring[s]);
      var t :| IsNext(ring.Keys, at, t) && b == Some(ring[t]);
      NextIsUnique(ring.Keys, at, s, t);
    }
  }

  /** The instance computes the queue into its share; an instance without a name computes none. */
  ghost predicate Holds(p: Placing, replicas: nat, cid: string, q: MessageQueue, cids: seq<string>) {
    cid != "" && cid in cids && Routes(Build(p, map[], cids, replicas), p.queue(q), Some(cid))
  }

  ghost predicate HasHolder(p: Placing, replicas: nat, q: MessageQueue, cids: seq<string>) {
    exists c :: Holds(p, replicas, c, q, cids)
  }

  /** A place on the ring belongs to one instance of the list, or to nobody when there are no replicas. */
  lemma PlaceHasOneOwner(p: Placing, cids: seq<string>, replicas: nat, at: int) returns (owner: Option<string>)
    requires cids != []
    ensures Routes(Build(p, map[], cids, replicas), at, owner)
    ensures owner.Some? <==> replicas > 0
    ensures owner.Some? ==> owner.value in cids
  {
    var ring := Build(p, map[], cids, replicas);
    BuildOwned(p, map[], cids, replicas, set c | c in cids);
    if replicas == 0 {
      owner := None;
    } else {
      var s := NextExists(ring.Keys, at, p.node(cids[0], CountOf(map[], cids[0])));
      owner := Some(ring[s]);
    }
  }

  /**
   * Whatever the hash does and however often an id is listed, no two instances hold one queue; and some
   * instance holds it exactly when there are instances and replicas and its place is not an empty id's.
   */
  lemma EveryQueueHasOneOwnerIff(p: Placing, cids: seq<string>, replicas: nat, q: MessageQueue)
    ensures forall c, d :: Holds(p, replicas, c, q, cids) && Holds(p, replicas, d, q, cids) ==> c == d
    ensures HasHolder(p, replicas, q, cids)
       <==> cids != [] && replicas > 0 && !Routes(Build(p, map[], cids, replicas), p.queue(q), Some(""))
  {
    var ring, at := Build(p, map[], cids, replicas), p.queue(q);
    hide Build, Routes;
    forall c, d | Holds(p, replicas, c, q, cids) && Holds(p, replicas, d, q, cids) ensures c == d {
      RouteIsUnique(ring, at, Some(c), Some(d));
    }
    if cids != [] {
      var owner := PlaceHasOneOwner(p, cids, replicas, at);
      forall c | Routes(ring, at, Some(c)) ensures owner == Some(c) {
        RouteIsUnique(ring, at, owner, Some(c));
      }
      assert owner.Some? && owner.value != "" ==> Holds(p, replicas, owner.value, q, cids);
    }
  }

  // ---- and which lists are safe under every hash ----

  /** Empty ids stand at place 0, the others at place 1, the queues at place 0. */
  const UNLUCKY := Placing((cid: string, i: nat) => if cid == "" then 0 else 1, (q: MessageQueue) => 0)

  predicate Unlucky(ring: map<int, string>) {
    forall k :: k in ring ==> (k == 0 && ring[k] == "") || (k == 1 && ring[k] != "")
  }

  lemma {:induction false} AddFromUnlucky(ring: map<int, string>, cid: string, i: nat, end: nat)
    requires Unlucky(ring)
    ensures Unlucky(AddFrom(UNLUCKY, ring, cid, i, end)) && ring.Keys <= AddFrom(UNLUCKY, ring, cid, i, end).Keys
    ensures cid == "" && i < end ==> 0 in AddFrom(UNLUCKY, ring, cid, i, end)
    decreases end - i
  {
    if i < end {
      AddFromUnlucky(ring[UNLUCKY.node(cid, i) := cid], cid, i + 1, end);
    }
  }

  lemma {:induction false} BuildUnlucky(ring: map<int, string>, cids: seq<string>, replicas: nat)
    requires Unlucky(ring)
    ensures Unlucky(Build(UNLUCKY, ring, cids, replicas)) && ring.Keys <= Build(UNLUCKY, ring, cids, replicas).Keys
    ensures replicas > 0 && "" in cids ==> 0 in Build(UNLUCKY, ring, cids, replicas)
    decreases |cids|
  {
    if cids != [] {
      var n := CountOf(ring, cids[0]);
      AddFromUnlucky(ring, cids[0], n, n + replicas);
      BuildUnlucky(AddNode(UNLUCKY, ring, cids[0], replicas), cids[1..], replicas);
    }
  }

  lemma UnluckyQueue(cids: seq<string>, replicas: nat, q: MessageQueue)
    requires "" in cids && replicas > 0
    ensures Routes(Build(UNLUCKY, map[], cids, replicas), UNLUCKY.queue(q), Some(""))
  {
    BuildUnlucky(map[], cids, replicas);
    var ring := Build(UNLUCKY, map[], cids, replicas);
    hide Build;
    assert IsNext(ring.Keys, 0, 0);
  }

  /** Every hash gives the queue to somebody exactly when there are instances and replicas and no id is empty. */
  lemma EveryHashGivesTheQueueIff(cids: seq<string>, replicas: nat, q: MessageQueue)
    ensures (forall p :: HasHolder(p, replicas, q, cids)) <==> cids != [] && replicas > 0 && "" !in cids
  {
    forall p | cids != [] && replicas > 0 && "" !in cids ensures HasHolder(p, replicas, q, cids) {
      EveryQueueHasOneOwnerIff(p, cids, replicas, q);
      var owner := PlaceHasOneOwner(p, cids, replicas, p.queue(q));
      assert Routes(Build(p, map[], cids, replicas), p.queue(q), Some("")) ==> owner == Some("") by {
        if Routes(Build(p, map[], cids, replicas), p.queue(q), Some("")) {
          RouteIsUnique(Build(p, map[], cids, replicas), p.queue(q), owner, Some(""));
        }
      }
    }
    EveryQueueHasOneOwnerIff(UNLUCKY, cids, replicas, q);
    if "" in cids && replicas > 0 { UnluckyQueue(cids, replicas, q); }
    hide HasHolder;
  }

  /** An instance's share, computed on a ring of its own. */
  method Allocate(placing: Placing, replicas: nat, cid: string, mqs: seq<MessageQueue>, cids: seq<string>)
    returns (share: seq<MessageQueue>)
    ensures forall q :: q in share <==> q in mqs && Holds(placing, replicas, cid, q, cids)
  {
    share := [];
    if cid == "" || mqs == [] || cid !in cids {
      return;
    }
    var router := new Router(placing, cids, replicas);
    for i := 0 to |mqs|
      invariant router.Valid() && router.ring == Build(placing, map[], cids, replicas)
      invariant forall q :: q in share <==> q in mqs[..i] && Routes(router.ring, placing.queue(q), Some(cid))
    {
      var owner := router.Route(placing.queue(mqs[i]));
      if owner == Some(cid) {
        share := share + [mqs[i]];
      } else if Routes(router.ring, placing.queue(mqs[i]), Some(cid)) {
        RouteIsUnique(router.ring, placing.queue(mqs[i]), owner, Some(cid));
      }
      assert mqs[..i + 1] == mqs[..i] + [mqs[i]];
    }
    assert mqs[..|mqs|] == mqs;
  }

  // ---- stability ----------------------------------------------------------------------------------

  /** The places of an instance that is on the ring once. */
  function PlacesOf(p: Placing, cid: string, i: nat, end: nat): set<int>
    decreases end - i
  {
    if i >= end then {} else {p.node(cid, i)} + PlacesOf(p, cid, i + 1, end)
  }

  lemma {:induction false} AddFromIs(p: Placing, ring: map<int, string>, cid: string, i: nat, end: nat)
    ensures var r, places := AddFrom(p, ring, cid, i, end), PlacesOf(p, cid, i, end);
      && r.Keys == ring.Keys + places
      && forall k :: k in r ==> r[k] == if k in places then cid else ring[k]
    decreases end - i
  {
    if i < end {
      AddFromIs(p, ring[p.node(cid, i) := cid], cid, i + 1, end);
    }
  }

  lemma NewNodeStartsAtZero(ring: map<int, string>, cid: string)
    requires forall k :: k in ring ==> ring[k] != cid
    ensures CountOf(ring, cid) == 0
  {
    var own := set k | k in ring && ring[k] == cid;
    var none: set<int> := {};
    assert forall k :: k !in own;
    assert own == none;
  }

  /** The ring with one more instance: its places are there, and other places changed hands only to it. */
  predicate OneMore(ring: map<int, string>, more: map<int, string>, cid: string, places: set<int>) {
    && more.Keys == ring.Keys + places
    && forall k :: k in more ==> more[k] == cid || (k in ring && more[k] == ring[k])
  }

  /** A newcomer's places are its own, the others stay as they were. */
  predicate Takes(ring: map<int, string>, r: map<int, string>, cid: string, places: set<int>) {
    && r.Keys == ring.Keys + places
    && forall k :: k in r ==> r[k] == if k in places then cid else ring[k]
  }

  lemma NewNodeTakes(p: Placing, ring: map<int, string>, cid: string, replicas: nat)
    requires forall k :: k in ring ==> ring[k] != cid
    ensures Takes(ring, AddNode(p, ring, cid, replicas), cid, PlacesOf(p, cid, 0, replicas))
  {
    NewNodeStartsAtZero(ring, cid);
    AddFromIs(p, ring, cid, 0, replicas);
  }

  lemma TakesInBoth(ring: map<int, string>, more: map<int, string>, r: map<int, string>, m: map<int, string>,
                    cid: string, places: set<int>, other: string, own: set<int>)
    requires OneMore(ring, more, cid, places) && Takes(ring, r, other, own) && Takes(more, m, other, own)
    ensures OneMore(r, m, cid, places)
  {
    assert m.Keys == r.Keys + places;
    forall k | k in m ensures m[k] == cid || (k in r && m[k] == r[k]) {
      if k !in own {
        assert k in more;
      }
    }
  }

  lemma AddToBoth(p: Placing, ring: map<int, string>, more: map<int, string>, cid: string, places: set<int>,
                  other: string, replicas: nat)
    requires OneMore(ring, more, cid, places) && other != cid
    requires forall k :: k in ring ==> ring[k] != other
    ensures OneMore(AddNode(p, ring, other, replicas), AddNode(p, more, other, replicas), cid, places)
  {
    NewNodeTakes(p, ring, other, replicas);
    NewNodeTakes(p, more, other, replicas);
    hide AddNode, PlacesOf, Takes;
    TakesInBoth(ring, more, AddNode(p, ring, other, replicas), AddNode(p, more, other, replicas),
                cid, places, other, PlacesOf(p, other, 0, replicas));
  }

  lemma {:induction false} BuildBoth(p: Placing, ring: map<int, string>, more: map<int, string>, cid: string,
                                     places: set<int>, cids: seq<string>, replicas: nat, seen: set<string>)
    requires OneMore(ring, more, cid, places) && OwnedBy(ring, seen)
    requires Distinct(cids) && cid !in cids && forall c :: c in cids ==> c !in seen
    ensures OneMore(Build(p, ring, cids, replicas), Build(p, more, cids, replicas), cid, places)
    decreases |cids|
  {
    if cids != [] {
      var c := cids[0];
      AddToBoth(p, ring, more, cid, places, c, replicas);
      var n := CountOf(ring, c);
      AddFromOwned(p, ring, c, n, n + replicas, seen + {c});
      assert c !in cids[1..];
      BuildBoth(p, AddNode(p, ring, c, replicas), AddNode(p, more, c, replicas), cid, places, cids[1..], replicas,
                seen + {c});
    }
  }

  lemma {:induction false} BuildInTwo(p: Placing, ring: map<int, string>, a: seq<string>, b: seq<string>, replicas: nat)
    ensures Build(p, ring, a + b, replicas) == Build(p, Build(p, ring, a, replicas), b, replicas)
    decreases |a|
  {
    if a == [] {
      assert a + b == b;
    } else {
      assert (a + b)[1..] == a[1..] + b;
      BuildInTwo(p, AddNode(p, ring, a[0], replicas), a[1..], b, replicas);
    }
  }

  /** The next place either stays the next, or the new instance stands on the nearer one. */
  lemma NextWithMore(ring: map<int, string>, more: map<int, string>, cid: string, places: set<int>, at: int, s: int,
                     t: int)
    requires OneMore(ring, more, cid, places)
    requires IsNext(ring.Keys, at, s) && IsNext(more.Keys, at, t)
    ensures more[t] == cid || more[t] == ring[s]
  {
    if t in ring {
      assert IsNext(ring.Keys, at, t);
      NextIsUnique(ring.Keys, at, s, t);
    }
  }

  /**
   * An instance that joins, wherever it sorts among the others and whatever collides with what, takes queues
   * over; no queue moves between two instances that were there before.
   */
  lemma QueuesMoveOnlyToTheNewcomer(p: Placing, before: seq<string>, behind: seq<string>, cid: string, replicas: nat,
                                    at: int, was: Option<string>, now: Option<string>)
    requires Distinct(before + behind) && cid !in before + behind && before + behind != []
    requires Routes(Build(p, map[], before + behind, replicas), at, was)
    requires Routes(Build(p, map[], before + [cid] + behind, replicas), at, now)
    ensures now == was || now == Some(cid)
  {
    var ring, more := Build(p, map[], before + behind, replicas), Build(p, map[], before + [cid] + behind, replicas);
    var places := JoinedRing(p, before, behind, cid, replicas);
    BuildOwned(p, map[], before + behind, replicas, set c | c in before + behind);
    if replicas == 0 {
      BuildOwned(p, map[], before + [cid] + behind, replicas, set c | c in before + [cid] + behind);
    } else {
      var k := p.node((before + behind)[0], CountOf(map[], (before + behind)[0]));
      assert k in ring.Keys && k in more.Keys;
      var s :| IsNext(ring.Keys, at, s) && was == Some(ring[s]);
      var t :| IsNext(more.Keys, at, t) && now == Some(more[t]);
      NextWithMore(ring, more, cid, places, at, s, t);
    }
  }

  lemma JoinedRing(p: Placing, before: seq<string>, behind: seq<string>, cid: string, replicas: nat)
    returns (places: set<int>)
    requires Distinct(before + behind) && cid !in before + behind
    ensures OneMore(Build(p, map[], before + behind, replicas), Build(p, map[], before + [cid] + behind, replicas),
                    cid, places)
  {
    var base := Build(p, map[], before, replicas);
    var known := set c | c in before;
    BuildOwned(p, map[], before, replicas, known);
    BuildInTwo(p, map[], before, behind, replicas);
    BuildInTwo(p, map[], before + [cid], behind, replicas);
    BuildInTwo(p, map[], before, [cid], replicas);
    var joined := AddNode(p, base, cid, replicas);
    assert Build(p, base, [cid], replicas) == joined by {
      assert [cid][1..] == [];
    }
    NewNodeTakes(p, base, cid, replicas);
    places := PlacesOf(p, cid, 0, replicas);
    hide AddNode, PlacesOf, Build;
    assert OneMore(base, joined, cid, places);
    forall c | c in behind ensures c !in known && c != cid {
      var j :| 0 <= j < |behind| && behind[j] == c;
      assert (before + behind)[|before| + j] == c && c in before + behind;
      forall i | 0 <= i < |before| ensures before[i] != c {
        assert (before + behind)[i] == before[i];
      }
    }
    assert Distinct(behind) by {
      forall i, j | 0 <= i < j < |behind| ensures behind[i] != behind[j] {
        assert (before + behind)[|before| + i] == behind[i] && (before + behind)[|before| + j] == behind[j];
      }
    }
    BuildBoth(p, base, joined, cid, places, behind, replicas, known);
  }
}
