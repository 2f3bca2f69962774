/**
 * The content an ACL signature covers: the values of a request's extension fields in the order of their
 * keys, without the signature itself, followed by the body. Fields are an ordered association list, as a
 * dictionary keeps them; values are the bytes of their text.
 */
module AclContent {
  import opened Messages

  datatype Field = Field(key: string, value: Option<seq<nat>>)

  const ACCESS_KEY: string := "AccessKey"
  const SECURITY_TOKEN: string := "SecurityToken"
  const SIGNATURE: string := "Signature"

  // ---- the order of keys --------------------------------------------------------------------------

  /** Strictly before, character by character. */
  predicate Less(a: string, b: string) {
    if b == "" then false
    else if a == "" then true
    else a[0] < b[0] || (a[0] == b[0] && Less(a[1..], b[1..]))
  }

  lemma {:induction false} LessIsTransitive(a: string, b: string, c: string)
    requires Less(a, b) && Less(b, c)
    ensures Less(a, c)
  {
    if a != "" && a[0] == b[0] && b[0] == c[0] {
      LessIsTransitive(a[1..], b[1..], c[1..]);
    }
  }

  lemma {:induction false} NotBeforeItself(a: string)
    ensures !Less(a, a)
  {
    if a != "" {
      NotBeforeItself(a[1..]);
    }
  }

  lemma {:induction false} LessIsTotal(a: string, b: string)
    ensures Less(a, b) || a == b || Less(b, a)
    ensures !(Less(a, b) && Less(b, a)) && !Less(a, a)
  {
    NotBeforeItself(a);
    if a != "" && b != "" && a[0] == b[0] {
      LessIsTotal(a[1..], b[1..]);
      assert a == [a[0]] + a[1..] && b == [b[0]] + b[1..];
    }
  }

  lemma SameStart(a: string, b: string, k: nat)
    requires k <= |a| && k <= |b| && a[..k] == b[..k]
    ensures k > 0 ==> a[0] == b[0]
  {
    assert k > 0 ==> a[..k][0] == b[..k][0];
  }

  /** The first character in which they differ decides; a beginning comes before what it begins. */
  lemma {:induction false} LessIff(a: string, b: string)
    ensures Less(a, b) <==> exists k: nat :: Decides(a, b, k)
  {
    if a != "" && b != "" && a[0] == b[0] {
      LessIff(a[1..], b[1..]);
      if k: nat :| Decides(a[1..], b[1..], k) {
        assert a[..k + 1] == [a[0]] + a[1..][..k] && b[..k + 1] == [b[0]] + b[1..][..k];
        assert Decides(a, b, k + 1);
      }
      if k: nat :| Decides(a, b, k) {
        assert k > 0;
        assert a[1..][..k - 1] == a[..k][1..] && b[1..][..k - 1] == b[..k][1..];
        assert Decides(a[1..], b[1..], k - 1);
      }
    } else if Less(a, b) {
      assert a[..0] == b[..0];
      assert Decides(a, b, 0);
    } else {
      forall k: nat | Decides(a, b, k) ensures k == 0 {
        SameStart(a, b, k);
      }
    }
  }

  /** Up to `k` they agree, and there `a` ends or has the smaller character. */
  predicate Decides(a: string, b: string, k: nat) {
    k <= |a| && k < |b| && a[..k] == b[..k] && (k < |a| ==> a[k] < b[k])
  }

  predicate Ordered(fs: seq<Field>) {
    forall i, j :: 0 <= i < j < |fs| ==> Less(fs[i].key, fs[j].key)
  }

  predicate UniqueKeys(fs: seq<Field>) {
    forall i, j :: 0 <= i < j < |fs| ==> fs[i].key != fs[j].key
  }

  /** Insert into an ordered list. */
  function Insert(fs: seq<Field>, f: Field): (r: seq<Field>)
    ensures multiset(r) == multiset(fs) + multiset{f}
  {
    if fs == [] then [f]
    else if Less(f.key, fs[0].key) then [f] + fs
    else
      assert fs == [fs[0]] + fs[1..];
      [fs[0]] + Insert(fs[1..], f)
  }

  function Sort(fs: seq<Field>): (r: seq<Field>)
    ensures multiset(r) == multiset(fs)
  {
    if fs == [] then []
    else
      assert fs == [fs[0]] + fs[1..];
      Insert(Sort(fs[1..]), fs[0])
  }

  lemma {:induction false} InsertKeepsOrder(fs: seq<Field>, f: Field)
    requires Ordered(fs) && forall i :: 0 <= i < |fs| ==> fs[i].key != f.key
    ensures Ordered(Insert(fs, f))
  {
    if fs != [] {
      LessIsTotal(f.key, fs[0].key);
      if Less(f.key, fs[0].key) {
        forall j | 0 < j < |fs| ensures Less(f.key, fs[j].key) {
          LessIsTransitive(f.key, fs[0].key, fs[j].key);
        }
      } else {
        InsertKeepsOrder(fs[1..], f);
        var rest := Insert(fs[1..], f);
        forall j | 0 <= j < |rest| ensures Less(fs[0].key, rest[j].key) {
          assert rest[j] in multiset(rest);
          assert rest[j] == f || rest[j] in fs[1..];
        }
      }
    }
  }

  lemma {:induction false} SortOrders(fs: seq<Field>)
    requires UniqueKeys(fs)
    ensures Ordered(Sort(fs))
  {
    if fs != [] {
      SortOrders(fs[1..]);
      var rest := Sort(fs[1..]);
      forall i | 0 <= i < |rest| ensures rest[i].key != fs[0].key {
        assert rest[i] in multiset(rest);
        assert rest[i] in fs[1..];
      }
      InsertKeepsOrder(rest, fs[0]);
    }
  }

  /** An ordered list is determined by what is in it. */
  lemma {:induction false} OrderIsUnique(a: seq<Field>, b: seq<Field>)
    requires Ordered(a) && Ordered(b) && multiset(a) == multiset(b)
    ensures a == b
  {
    if a == [] {
      assert |multiset(a)| == |multiset(b)|;
    } else {
      assert |multiset(a)| == |multiset(b)|;
      HeadsAgree(a, b);
      assert a == [a[0]] + a[1..] && b == [b[0]] + b[1..];
      assert multiset(a[1..]) == multiset(a) - multiset{a[0]};
      assert multiset(b[1..]) == multiset(b) - multiset{b[0]};
      OrderIsUnique(a[1..], b[1..]);
    }
  }

  lemma HeadsAgree(a: seq<Field>, b: seq<Field>)
    requires Ordered(a) && Ordered(b) && multiset(a) == multiset(b) && a != [] && b != []
    ensures a[0] == b[0]
  {
    assert a[0] in multiset(b) && b[0] in multiset(a);
    var i :| 0 <= i < |b| && b[i] == a[0];
    var j :| 0 <= j < |a| && a[j] == b[0];
    LessIsTotal(a[0].key, b[0].key);
  }

  // ---- the content --------------------------------------------------------------------------------

  /** What one field contributes. */
  function Part(f: Field): seq<nat> {
    if f.key == SIGNATURE || f.value.None? then [] else f.value.value
  }

  function Parts(fs: seq<Field>): seq<nat> {
    if fs == [] then [] else Part(fs[0]) + Parts(fs[1..])
  }

  function Content(fs: seq<Field>, body: seq<nat>): seq<nat> {
    Parts(Sort(fs)) + body
  }

  /** The order in which fields were added does not show. */
  lemma InsertionOrderDoesNotShow(a: seq<Field>, b: seq<Field>, body: seq<nat>)
    requires UniqueKeys(a) && UniqueKeys(b) && multiset(a) == multiset(b)
    ensures Content(a, body) == Content(b, body)
  {
    SortOrders(a);
    SortOrders(b);
    OrderIsUnique(Sort(a), Sort(b));
  }

  lemma {:induction false} PartsJoin(a: seq<Field>, b: seq<Field>)
    ensures Parts(a + b) == Parts(a) + Parts(b)
  {
    hide Part;
    if a == [] {
      assert a + b == b;
    } else {
      PartsJoin(a[1..], b);
      assert (a + b)[1..] == a[1..] + b && (a + b)[0] == a[0];
      var x, y, z := Part(a[0]), Parts(a[1..]), Parts(b);
      assert x + (y + z) == x + y + z;
    }
  }

  lemma NoParts()
    ensures Parts([]) == []
  {
  }

  lemma OneMorePart(fs: seq<Field>, f: Field)
    ensures Parts(fs + [f]) == Parts(fs) + Part(f)
  {
    PartsJoin(fs, [f]);
    assert [f][1..] == [] && Part(f) + [] == Part(f);
  }

  /** Set a field: in its place if the key is there, at the end otherwise. */
  function Put(fs: seq<Field>, key: string, value: seq<nat>): (r: seq<Field>)
    ensures forall f :: f in r ==> f in fs || f == Field(key, Some(value))
  {
    if fs == [] then [Field(key, Some(value))]
    else if fs[0].key == key then [Field(key, Some(value))] + fs[1..]
    else [fs[0]] + Put(fs[1..], key, value)
  }

  lemma {:induction false} PutKeepsUnique(fs: seq<Field>, key: string, value: seq<nat>)
    requires UniqueKeys(fs)
    ensures UniqueKeys(Put(fs, key, value))
  {
    if fs != [] && fs[0].key != key {
      PutKeepsUnique(fs[1..], key, value);
      var rest := Put(fs[1..], key, value);
      forall j | 0 <= j < |rest| ensures rest[j].key != fs[0].key {
        assert rest[j] in rest;
        assert rest[j] in fs[1..] || rest[j].key == key;
      }
    }
  }

  /** A field that already has the value is left as it is. */
  lemma {:induction false} PutSame(fs: seq<Field>, key: string, value: seq<nat>)
    requires UniqueKeys(fs) && Field(key, Some(value)) in fs
    ensures Put(fs, key, value) == fs
  {
    if fs[0].key != key {
      PutSame(fs[1..], key, value);
    } else {
      var i :| 0 <= i < |fs| && fs[i] == Field(key, Some(value));
      assert i == 0;
    }
  }

  /** All fields but one. */
  function Without(fs: seq<Field>, key: string): (r: seq<Field>)
    ensures forall f :: f in r <==> f in fs && f.key != key
  {
    if fs == [] then []
    else if fs[0].key == key then Without(fs[1..], key)
    else [fs[0]] + Without(fs[1..], key)
  }

  lemma {:induction false} WithoutIsUnique(fs: seq<Field>, key: string)
    requires UniqueKeys(fs)
    ensures UniqueKeys(Without(fs, key))
  {
    if fs != [] {
      WithoutIsUnique(fs[1..], key);
      forall j | 0 <= j < |Without(fs[1..], key)| ensures Without(fs[1..], key)[j].key != fs[0].key {
        assert Without(fs[1..], key)[j] in fs[1..];
      }
    }
  }

  lemma {:induction false} OneAndTheOthers(fs: seq<Field>, f: Field)
    requires UniqueKeys(fs) && f in fs
    ensures multiset(fs) == multiset(Without(fs, f.key)) + multiset{f}
  {
    assert fs == [fs[0]] + fs[1..];
    if fs[0].key == f.key {
      var i :| 0 <= i < |fs| && fs[i] == f;
      assert i == 0;
      KeyIsGone(fs[1..], f.key);
    } else {
      OneAndTheOthers(fs[1..], f);
    }
  }

  lemma {:induction false} PutHas(fs: seq<Field>, key: string, value: seq<nat>)
    ensures Field(key, Some(value)) in Put(fs, key, value)
    ensures forall f :: f in fs && f.key != key ==> f in Put(fs, key, value)
  {
    if fs != [] && fs[0].key != key {
      PutHas(fs[1..], key, value);
    }
  }

  lemma {:induction false} WithoutPut(fs: seq<Field>, key: string, value: seq<nat>)
    requires UniqueKeys(fs)
    ensures Without(Put(fs, key, value), key) == Without(fs, key)
  {
    if fs != [] && fs[0].key != key {
      WithoutPut(fs[1..], key, value);
    }
  }

  lemma {:induction false} KeyIsGone(fs: seq<Field>, key: string)
    requires forall i :: 0 <= i < |fs| ==> fs[i].key != key
    ensures Without(fs, key) == fs
  {
    if fs != [] {
      KeyIsGone(fs[1..], key);
    }
  }

  /** Where the key belongs in an ordered list. */
  function Place(fs: seq<Field>, key: string): (r: nat)
    ensures r <= |fs|
  {
    if fs == [] || Less(key, fs[0].key) then 0 else 1 + Place(fs[1..], key)
  }

  lemma {:induction false} InsertIsAt(fs: seq<Field>, f: Field)
    ensures var p := Place(fs, f.key); Insert(fs, f) == fs[..p] + [f] + fs[p..]
  {
    if fs != [] && !Less(f.key, fs[0].key) {
      assert Insert(fs, f) == [fs[0]] + Insert(fs[1..], f) && Place(fs, f.key) == 1 + Place(fs[1..], f.key);
      hide Less, Insert, Place;
      InsertIsAt(fs[1..], f);
      Shift(fs, f, Place(fs[1..], f.key));
    }
  }

  lemma Shift(fs: seq<Field>, f: Field, p: nat)
    requires fs != [] && p < |fs|
    ensures [fs[0]] + (fs[1..][..p] + [f] + fs[1..][p..]) == fs[..p + 1] + [f] + fs[p + 1..]
  {
    assert fs[..p + 1] == [fs[0]] + fs[1..][..p] && fs[p + 1..] == fs[1..][p..];
  }

  /** Sorting is sorting the others and inserting the one. */
  lemma SortedWith(fs: seq<Field>, f: Field)
    requires UniqueKeys(fs) && f in fs
    ensures Sort(fs) == Insert(Sort(Without(fs, f.key)), f)
  {
    var others := Without(fs, f.key);
    OneAndTheOthers(fs, f);
    WithoutIsUnique(fs, f.key);
    SortOrders(fs);
    SortOrders(others);
    forall i | 0 <= i < |Sort(others)| ensures Sort(others)[i].key != f.key {
      assert Sort(others)[i] in multiset(Sort(others));
      assert Sort(others)[i] in others;
    }
    InsertKeepsOrder(Sort(others), f);
    OrderIsUnique(Sort(fs), Insert(Sort(others), f));
  }

  /**
   * Whatever wrote it, a field that is there when the signature is computed is inside the signed content:
   * between the values of the keys before it and those of the keys after it.
   */
  lemma FieldIsCovered(fs: seq<Field>, f: Field, body: seq<nat>)
    requires UniqueKeys(fs) && f in fs
    ensures var rest := Sort(Without(fs, f.key));
      var p := Place(rest, f.key);
      Content(fs, body) == Parts(rest[..p]) + Part(f) + Parts(rest[p..]) + body
  {
    var rest := Sort(Without(fs, f.key));
    var p := Place(rest, f.key);
    SortedWith(fs, f);
    InsertIsAt(rest, f);
    hide Sort, Place, Insert;
    PartsJoin(rest[..p] + [f], rest[p..]);
    PartsJoin(rest[..p], [f]);
    assert Parts([f]) == Part(f) by {
      assert Part(f) + [] == Part(f);
    }
  }

  lemma OthersJoin(fs: seq<Field>, key: string, body: seq<nat>)
    ensures var rest := Sort(Without(fs, key));
      var p := Place(rest, key);
      Content(Without(fs, key), body) == Parts(rest[..p]) + Parts(rest[p..]) + body
  {
    var rest := Sort(Without(fs, key));
    var p := Place(rest, key);
    hide Sort, Place, Without, Parts;
    PartsJoin(rest[..p], rest[p..]);
    assert rest == rest[..p] + rest[p..];
  }

  /** A field that contributes nothing may as well not be there. */
  lemma EmptyPartDoesNotShow(fs: seq<Field>, f: Field, body: seq<nat>)
    requires UniqueKeys(fs) && f in fs && Part(f) == []
    ensures Content(fs, body) == Content(Without(fs, f.key), body)
  {
    FieldIsCovered(fs, f, body);
    OthersJoin(fs, f.key, body);
    hide Sort, Place, Without, Parts, Content;
  }

  /** No signature, old or new, is part of what is signed. */
  lemma SignatureIsLeftOut(fs: seq<Field>, body: seq<nat>, signature: seq<nat>)
    requires UniqueKeys(fs)
    ensures Content(Put(fs, SIGNATURE, signature), body) == Content(fs, body)
  {
    var f, r := Field(SIGNATURE, Some(signature)), Put(fs, SIGNATURE, signature);
    PutHas(fs, SIGNATURE, signature);
    PutKeepsUnique(fs, SIGNATURE, signature);
    EmptyPartDoesNotShow(r, f, body);
    WithoutPut(fs, SIGNATURE, signature);
    if g :| g in fs && g.key == SIGNATURE {
      EmptyPartDoesNotShow(fs, g, body);
    } else {
      KeyIsGone(fs, SIGNATURE);
    }
  }

  /** What a key contributes to the content. */
  function Shown(fs: seq<Field>, key: string): seq<nat> {
    if fs == [] then [] else if fs[0].key == key then Part(fs[0]) else Shown(fs[1..], key)
  }

  lemma {:induction false} ShownIsPart(fs: seq<Field>, f: Field)
    requires UniqueKeys(fs) && f in fs
    ensures Shown(fs, f.key) == Part(f)
  {
    if fs[0] != f {
      var i :| 0 < i < |fs| && fs[i] == f;
      assert fs[1..][i - 1] == f && fs[0].key != f.key;
      ShownIsPart(fs[1..], f);
    }
  }

  lemma {:induction false} NothingShown(fs: seq<Field>, key: string)
    requires forall f :: f in fs ==> f.key != key
    ensures Shown(fs, key) == []
  {
    if fs != [] {
      assert fs[0] in fs && forall f :: f in fs[1..] ==> f in fs;
      NothingShown(fs[1..], key);
    }
  }

  /** The content, around what the key contributes. */
  lemma ContentAround(fs: seq<Field>, key: string, body: seq<nat>)
    requires UniqueKeys(fs)
    ensures var rest := Sort(Without(fs, key));
      var p := Place(rest, key);
      Content(fs, body) == Parts(rest[..p]) + Shown(fs, key) + Parts(rest[p..]) + body
  {
    hide Sort, Place, Parts, Content;
    if f :| f in fs && f.key == key {
      FieldIsCovered(fs, f, body);
      ShownIsPart(fs, f);
    } else {
      KeyIsGone(fs, key);
      OthersJoin(fs, key, body);
      NothingShown(fs, key);
      var rest := Sort(Without(fs, key));
      assert Parts(rest[..Place(rest, key)]) + [] == Parts(rest[..Place(rest, key)]);
    }
  }

  lemma OnlyTheMiddle(a: seq<nat>, x: seq<nat>, y: seq<nat>, b: seq<nat>, c: seq<nat>)
    requires a + x + b + c == a + y + b + c
    ensures x == y
  {
    assert |x| == |y|;
    forall i | 0 <= i < |x| ensures x[i] == y[i] {
      assert (a + x + b + c)[|a| + i] == x[i] && (a + y + b + c)[|a| + i] == y[i];
    }
  }

  /**
   * A field that a hook adds or overwrites after the signature leaves what the broker recomputes as it was exactly when
   * it shows what its key showed before, nothing for a new one; so hooks that set fields have to run before the
   * signature. The signature itself may be set again.
   */
  lemma LateFieldShowsIff(fs: seq<Field>, key: string, value: seq<nat>, body: seq<nat>)
    requires UniqueKeys(fs)
    ensures Content(Put(fs, key, value), body) == Content(fs, body) <==> key == SIGNATURE || value == Shown(fs, key)
  {
    if key == SIGNATURE {
      SignatureIsLeftOut(fs, body, value);
    } else {
      var f, r := Field(key, Some(value)), Put(fs, key, value);
      PutHas(fs, key, value);
      PutKeepsUnique(fs, key, value);
      WithoutPut(fs, key, value);
      ShownIsPart(r, f);
      assert Shown(r, key) == value;
      hide Sort, Place, Without, Parts, Content, Put, Shown;
      ContentAround(r, key, body);
      ContentAround(fs, key, body);
      var rest := Sort(Without(fs, key));
      var before, behind := Parts(rest[..Place(rest, key)]), Parts(rest[Place(rest, key)..]);
      if Content(r, body) == Content(fs, body) { OnlyTheMiddle(before, value, Shown(fs, key), behind, body); }
    }
  }

  // ---- the hook -----------------------------------------------------------------------------------

  datatype Credentials = Credentials(accessKey: seq<nat>, securityToken: seq<nat>)

  /** The fields as they are when the signature is computed. */
  function Identified(c: Credentials, fs: seq<Field>): seq<Field> {
    var named := Put(fs, ACCESS_KEY, c.accessKey);
    if c.securityToken == [] then named else Put(named, SECURITY_TOKEN, c.securityToken)
  }

  function Signed(mac: seq<nat> -> seq<nat>, c: Credentials, fs: seq<Field>, body: seq<nat>): seq<Field> {
    var known := Identified(c, fs);
    Put(known, SIGNATURE, mac(Content(known, body)))
  }

  lemma IdentifiedIsUnique(c: Credentials, fs: seq<Field>)
    requires UniqueKeys(fs)
    ensures UniqueKeys(Identified(c, fs))
  {
    PutKeepsUnique(fs, ACCESS_KEY, c.accessKey);
    PutKeepsUnique(Put(fs, ACCESS_KEY, c.accessKey), SECURITY_TOKEN, c.securityToken);
  }

  /** Fields that identify the caller already do not change when they are set again. */
  lemma IdentifiedAgain(c: Credentials, fs: seq<Field>)
    requires UniqueKeys(fs) && Field(ACCESS_KEY, Some(c.accessKey)) in fs
    requires c.securityToken != [] ==> Field(SECURITY_TOKEN, Some(c.securityToken)) in fs
    ensures Identified(c, fs) == fs
  {
    PutSame(fs, ACCESS_KEY, c.accessKey);
    if c.securityToken != [] {
      PutSame(fs, SECURITY_TOKEN, c.securityToken);
    }
  }

  /** Signing a request twice, as a resend does, is signing it once. */
  lemma SigningTwiceIsOnce(mac: seq<nat> -> seq<nat>, c: Credentials, fs: seq<Field>, body: seq<nat>)
    requires UniqueKeys(fs)
    ensures Signed(mac, c, Signed(mac, c, fs, body), body) == Signed(mac, c, fs, body)
  {
    var known := Identified(c, fs);
    var signature := mac(Content(known, body));
    var r := Put(known, SIGNATURE, signature);
    var named := Put(fs, ACCESS_KEY, c.accessKey);
    PutHas(fs, ACCESS_KEY, c.accessKey);
    PutHas(named, SECURITY_TOKEN, c.securityToken);
    PutHas(known, SIGNATURE, signature);
    IdentifiedIsUnique(c, fs);
    PutKeepsUnique(known, SIGNATURE, signature);
    IdentifiedAgain(c, r);
    SignatureIsLeftOut(known, body, signature);
    PutSame(r, SIGNATURE, signature);
    hide Content, Put;
  }

  /** What earlier hooks wrote under other names is still there when the content is taken, and is covered. */
  lemma EarlierFieldsAreSigned(c: Credentials, fs: seq<Field>, f: Field, body: seq<nat>)
    requires UniqueKeys(fs) && f in fs && f.key != ACCESS_KEY && f.key != SECURITY_TOKEN
    ensures var known := Identified(c, fs);
      var rest := Sort(Without(known, f.key));
      var p := Place(rest, f.key);
      f in known && Content(known, body) == Parts(rest[..p]) + Part(f) + Parts(rest[p..]) + body
  {
    PutHas(fs, ACCESS_KEY, c.accessKey);
    PutHas(Put(fs, ACCESS_KEY, c.accessKey), SECURITY_TOKEN, c.securityToken);
    IdentifiedIsUnique(c, fs);
    FieldIsCovered(Identified(c, fs), f, body);
  }

  // ---- the request as the hooks change it ---------------------------------------------------------

  class Request {
    var fields: seq<Field>
    const body: seq<nat>

    constructor (fields: seq<Field>, body: seq<nat>)
      ensures this.fields == fields && this.body == body
    {
      this.fields, this.body := fields, body;
    }

    method AddExtField(key: string, value: seq<nat>)
      modifies this
      ensures fields == Put(old(fields), key, value)
    {
      var i := 0;
      while i < |fields| && fields[i].key != key
        invariant 0 <= i <= |fields| && fields == old(fields)
        invariant Put(fields, key, value) == fields[..i] + Put(fields[i..], key, value)
      {
        assert fields[i..][1..] == fields[i + 1..];
        assert fields[..i + 1] == fields[..i] + [fields[i]];
        i := i + 1;
      }
      if i < |fields| {
        assert fields[i..][1..] == fields[i + 1..];
        fields := fields[..i] + [Field(key, Some(value))] + fields[i + 1..];
      } else {
        fields := fields + [Field(key, Some(value))];
      }
    }

    method BuildContent() returns (content: seq<nat>)
      ensures content == Content(fields, body)
    {
      var sorted := Sort(fields);
      var buf := [];
      hide Parts, Sort;
      NoParts();
      for i := 0 to |sorted|
        invariant buf == Parts(sorted[..i])
      {
        OneMorePart(sorted[..i], sorted[i]);
        assert sorted[..i + 1] == sorted[..i] + [sorted[i]];
        if sorted[i].key != SIGNATURE && sorted[i].value.Some? {
          buf := buf + sorted[i].value.value;
        }
      }
      assert sorted[..|sorted|] == sorted;
      content := buf + body;
    }

    method Sign(mac: seq<nat> -> seq<nat>, c: Credentials)
      modifies this
      ensures fields == Signed(mac, c, old(fields), body)
    {
      AddExtField(ACCESS_KEY, c.accessKey);
      if c.securityToken != [] {
        AddExtField(SECURITY_TOKEN, c.securityToken);
      }
      var content := BuildContent();
      AddExtField(SIGNATURE, mac(content));
    }
  }
}
