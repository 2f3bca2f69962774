/**
 * The class map of the PHP autoloader: which file declares which class, found by scanning the tokens of
 * every file once, and used only when no file stands at the path the class name spells.
 */
module ClassMap {
  import opened Messages

  /** `Declares` is one of the keywords class, interface, trait and enum, `Blank` white space or a comment, `Mark` a
      bare character and `Other` any other token. */
  datatype Token =
    | Namespace
    | Declares
    | DoubleColon
    | New
    | Blank
    | Name(text: string)
    | Separator
    | Qualified(text: string)
    | Mark(c: char)
    | Other

  datatype File = File(path: string, tokens: seq<Token>)

  // ---- what a file declares -----------------------------------------------------------------------

  /** What a token adds to a namespace name. */
  function NamePart(t: Token): string {
    match t
    case Name(text) => text
    case Qualified(text) => text
    case Separator => "\\"
    case _ => ""
  }

  /** The namespace a declaration at `i` opens: the name parts up to the first `;` or `{`. */
  function NamespaceName(ts: seq<Token>, i: nat): string
    decreases |ts| - i
  {
    if i >= |ts| || ts[i] == Mark(';') || ts[i] == Mark('{') then ""
    else NamePart(ts[i]) + NamespaceName(ts, i + 1)
  }

  /** The namespace in force before position `i`: that of the nearest declaration before it. */
  function NamespaceAt(ts: seq<Token>, i: nat): string
    requires i <= |ts|
  {
    if i == 0 then ""
    else if ts[i - 1].Namespace? then NamespaceName(ts, i)
    else NamespaceAt(ts, i - 1)
  }

  /** The name that follows: the first plain name before a `{` or a `(`. */
  function NameFrom(ts: seq<Token>, i: nat): Option<string>
    decreases |ts| - i
  {
    if i >= |ts| then None
    else if ts[i].Name? then Some(ts[i].text)
    else if ts[i] == Mark('{') || ts[i] == Mark('(') then None
    else NameFrom(ts, i + 1)
  }

  function InNamespace(ts: seq<Token>, i: nat, name: string): string
    requires i <= |ts|
  {
    var ns := NamespaceAt(ts, i);
    if ns != "" then ns + "\\" + name else name
  }

  /** The declaration at `i`, if there is one: a declaring keyword not behind `::`, with a name to follow. */
  function DeclaredAt(ts: seq<Token>, i: nat): Option<string>
    requires i < |ts|
  {
    if !ts[i].Declares? || (i > 0 && ts[i - 1].DoubleColon?) then None
    else
      match NameFrom(ts, i + 1)
      case None => None
      case Some(name) => Some(InNamespace(ts, i, name))
  }

  /** The file declares the name somewhere before position `n`. */
  predicate DeclaresBefore(ts: seq<Token>, n: nat, name: string)
    requires n <= |ts|
  {
    exists i :: 0 <= i < n && DeclaredAt(ts, i) == Some(name)
  }

  predicate DeclaresName(f: File, name: string) {
    DeclaresBefore(f.tokens, |f.tokens|, name)
  }

  /** File `k` is the first, in iteration order, to declare the name. */
  predicate FirstToDeclare(files: seq<File>, k: nat, name: string) {
    && k < |files| && DeclaresName(files[k], name)
    && forall j :: 0 <= j < k ==> !DeclaresName(files[j], name)
  }

  /** Every entry names the first file, in iteration order, that declares its name; every declared name has one. */
  ghost predicate FirstWins(files: seq<File>, classes: map<string, string>) {
    && (forall name :: name in classes <==> exists k :: 0 <= k < |files| && DeclaresName(files[k], name))
    && (forall name, k: nat :: name in classes && FirstToDeclare(files, k, name) ==> classes[name] == files[k].path)
  }

  // ---- the scan -----------------------------------------------------------------------------------

  method ReadNamespace(ts: seq<Token>, from: nat) returns (ns: string)
    requires from <= |ts|
    ensures ns == NamespaceName(ts, from)
  {
    ns := "";
    var j := from;
    while j < |ts|
      invariant from <= j <= |ts|
      invariant NamespaceName(ts, from) == ns + NamespaceName(ts, j)
    {
      if ts[j] == Mark(';') || ts[j] == Mark('{') {
        return;
      }
      ns := ns + NamePart(ts[j]);
      j := j + 1;
    }
  }

  method ReadName(ts: seq<Token>, from: nat) returns (name: Option<string>)
    requires from <= |ts|
    ensures name == NameFrom(ts, from)
  {
    var j := from;
    while j < |ts|
      invariant from <= j <= |ts|
      invariant NameFrom(ts, from) == NameFrom(ts, j)
    {
      if ts[j].Name? {
        return Some(ts[j].text);
      }
      if ts[j] == Mark('{') || ts[j] == Mark('(') {
        return None;
      }
      j := j + 1;
    }
    name := None;
  }

  /** One file: names not yet in the map are added with its path, entries already there stay. */
  method ScanFile(f: File, classes: map<string, string>) returns (r: map<string, string>)
    ensures forall name :: name in r <==> name in classes || DeclaresName(f, name)
    ensures forall name :: name in r ==> r[name] == if name in classes then classes[name] else f.path
  {
    r := classes;
    var ts := f.tokens;
    var ns := "";
    for i := 0 to |ts|
      invariant ns == NamespaceAt(ts, i)
      invariant forall name :: name in r <==> name in classes || DeclaresBefore(ts, i, name)
      invariant forall name :: name in r ==> r[name] == if name in classes then classes[name] else f.path
    {
      ghost var was := r;
      if ts[i].Namespace? {
        ns := ReadNamespace(ts, i + 1);
      } else if ts[i].Declares? && !(i > 0 && ts[i - 1].DoubleColon?) {
        var name := ReadName(ts, i + 1);
        if name.Some? {
          var full := if ns != "" then ns + "\\" + name.value else name.value;
          if full !in r {
            r := r[full := f.path];
          }
        }
      }
      forall name ensures DeclaresBefore(ts, i + 1, name) <==>
        DeclaresBefore(ts, i, name) || DeclaredAt(ts, i) == Some(name)
      {
        OneMorePosition(ts, i, name);
      }
    }
  }

  lemma OneMorePosition(ts: seq<Token>, i: nat, name: string)
    requires i < |ts|
    ensures DeclaresBefore(ts, i + 1, name) <==> DeclaresBefore(ts, i, name) || DeclaredAt(ts, i) == Some(name)
  {
  }

  /** The whole directory. */
  method ScanClasses(files: seq<File>) returns (classes: map<string, string>)
    ensures FirstWins(files, classes)
  {
    classes := map[];
    for n := 0 to |files|
      invariant FirstWins(files[..n], classes)
    {
      var more := ScanFile(files[n], classes);
      OneMoreFile(files[..n], files[n], classes, more);
      assert files[..n + 1] == files[..n] + [files[n]];
      classes := more;
    }
    assert files[..|files|] == files;
  }

  lemma OneMoreFile(files: seq<File>, f: File, classes: map<string, string>, more: map<string, string>)
    requires FirstWins(files, classes)
    requires forall name :: name in more <==> name in classes || DeclaresName(f, name)
    requires forall name :: name in more ==> more[name] == if name in classes then classes[name] else f.path
    ensures FirstWins(files + [f], more)
  {
    var all := files + [f];
    hide DeclaresName;
    forall name ensures name in more <==> exists k :: 0 <= k < |all| && DeclaresName(all[k], name) {
      if name in classes {
        var k :| 0 <= k < |files| && DeclaresName(files[k], name);
        assert DeclaresName(all[k], name);
      } else if DeclaresName(f, name) {
        assert DeclaresName(all[|files|], name);
      }
      if k :| 0 <= k < |all| && DeclaresName(all[k], name) {
        assert k < |files| ==> DeclaresName(files[k], name);
      }
    }
    forall name, k: nat | name in more && FirstToDeclare(all, k, name)
      ensures more[name] == all[k].path
    {
      if k < |files| {
        assert forall j :: 0 <= j < k ==> files[j] == all[j];
        assert FirstToDeclare(files, k, name);
      } else {
        assert name !in classes by {
          assert forall j :: 0 <= j < |files| ==> files[j] == all[j];
        }
      }
    }
  }

  // ---- what a file really declares ----------------------------------------------------------------

  /** The nearest token before `i` that is not blank. */
  function Before(ts: seq<Token>, i: nat): Option<Token>
    requires i <= |ts|
  {
    if i == 0 then None else if ts[i - 1].Blank? then Before(ts, i - 1) else Some(ts[i - 1])
  }

  /** The nearest token from `i` on that is not blank. */
  function Behind(ts: seq<Token>, i: nat): Option<Token>
    decreases |ts| - i
  {
    if i >= |ts| then None else if ts[i].Blank? then Behind(ts, i + 1) else Some(ts[i])
  }

  /** The keyword at `i` is the class constant of what stands before `::`, with or without blanks. */
  predicate Constant(ts: seq<Token>, i: nat)
    requires i < |ts|
  {
    Before(ts, i) == Some(DoubleColon)
  }

  /** It belongs to an anonymous class. */
  predicate Anonymous(ts: seq<Token>, i: nat)
    requires i < |ts|
  {
    Before(ts, i) == Some(New)
  }

  /** It is followed by a name, with nothing but blanks in between. */
  predicate NameFollows(ts: seq<Token>, i: nat)
    requires i < |ts|
  {
    Behind(ts, i + 1).Some? && Behind(ts, i + 1).value.Name?
  }

  /** It declares the class, interface, trait or enum whose name follows. */
  predicate Genuine(ts: seq<Token>, i: nat)
    requires i < |ts|
  {
    ts[i].Declares? && !Constant(ts, i) && !Anonymous(ts, i) && NameFollows(ts, i)
  }

  predicate ReallyDeclares(f: File, name: string) {
    exists i :: 0 <= i < |f.tokens| && Genuine(f.tokens, i) &&
      InNamespace(f.tokens, i, Behind(f.tokens, i + 1).value.text) == name
  }

  /** Position `k` holds a plain name, and no `{` or `(` stands between `i` and it. */
  predicate NameStandsAt(ts: seq<Token>, i: nat, k: nat) {
    i <= k < |ts| && ts[k].Name? && forall j :: i <= j < k ==> ts[j] != Mark('{') && ts[j] != Mark('(')
  }

  predicate NameAhead(ts: seq<Token>, i: nat) {
    exists k :: 0 <= k < |ts| && NameStandsAt(ts, i, k)
  }

  lemma {:induction false} NameFromIff(ts: seq<Token>, i: nat)
    ensures NameFrom(ts, i).Some? <==> NameAhead(ts, i)
    ensures forall k: nat :: NameStandsAt(ts, i, k) && (forall j :: i <= j < k ==> !ts[j].Name?) ==>
      NameFrom(ts, i) == Some(ts[k].text)
    decreases |ts| - i
  {
    if i < |ts| {
      if ts[i].Name? {
        assert NameStandsAt(ts, i, i);
      } else if ts[i] != Mark('{') && ts[i] != Mark('(') {
        var n := i + 1;
        NameFromIff(ts, n);
        if k :| 0 <= k < |ts| && NameStandsAt(ts, n, k) {
          assert NameStandsAt(ts, i, k);
        }
        forall k: nat | NameStandsAt(ts, i, k) ensures NameStandsAt(ts, n, k) {
        }
      }
    }
  }

  // ---- which name a declaration gets ---------------------------------------------------------------

  /** The name parts of some tokens, one after the other. */
  function Parts(ts: seq<Token>): string {
    if ts == [] then "" else NamePart(ts[0]) + Parts(ts[1..])
  }

  predicate Ends(t: Token) {
    t == Mark(';') || t == Mark('{')
  }

  /** A namespace name is the names and separators up to the first `;` or `{`, or to the end, blanks left out. */
  lemma {:induction false} NamespaceNameIs(ts: seq<Token>, i: nat, e: nat)
    requires i <= e <= |ts| && (e < |ts| ==> Ends(ts[e])) && forall j :: i <= j < e ==> !Ends(ts[j])
    ensures NamespaceName(ts, i) == Parts(ts[i..e])
    decreases e - i
  {
    if i < e {
      NamespaceNameIs(ts, i + 1, e);
      assert ts[i..e][0] == ts[i] && ts[i..e][1..] == ts[i + 1..e];
    }
  }

  lemma {:induction false} PartsJoin(a: seq<Token>, b: seq<Token>, t: Token)
    ensures Parts(a + b) == Parts(a) + Parts(b)
    ensures Parts([t]) == if t.Name? || t.Qualified? then t.text else if t.Separator? then "\\" else ""
  {
    assert [t][1..] == [];
    if a == [] {
      assert a + b == b;
    } else {
      PartsJoin(a[1..], b, t);
      assert (a + b)[0] == a[0] && (a + b)[1..] == a[1..] + b;
    }
  }

  /** The nearest namespace declaration before a place is in force there; before the first there is none. */
  lemma {:induction false} NamespaceInForce(ts: seq<Token>, k: nat, i: nat)
    requires k <= i <= |ts| && forall j :: k <= j < i ==> !ts[j].Namespace?
    ensures k == 0 ==> NamespaceAt(ts, i) == ""
    ensures k > 0 && ts[k - 1].Namespace? ==> NamespaceAt(ts, i) == NamespaceName(ts, k)
    decreases i
  {
    if i > k {
      NamespaceInForce(ts, k, i - 1);
    }
  }

  /** A declaration behind `namespace ... ;` at `k` with its first plain name at `n` is that name in that namespace. */
  lemma RegistersAs(ts: seq<Token>, k: nat, e: nat, i: nat, n: nat)
    requires k < e <= i < n < |ts| && DeclaredAt(ts, i).Some?
    requires ts[k].Namespace? && Ends(ts[e]) && forall j :: k < j < e ==> !Ends(ts[j])
    requires forall j :: k < j < i ==> !ts[j].Namespace?
    requires NameStandsAt(ts, i + 1, n) && forall j :: i < j < n ==> !ts[j].Name?
    ensures var ns := Parts(ts[k + 1..e]);
      DeclaredAt(ts, i).value == if ns == "" then ts[n].text else ns + "\\" + ts[n].text
  {
    NamespaceInForce(ts, k + 1, i);
    NamespaceNameIs(ts, k + 1, e);
    NameFromIff(ts, i + 1);
    hide NamespaceAt, NamespaceName, NameFrom, Parts;
  }

  /** And one no namespace stands before is the name itself. */
  lemma RegistersGlobally(ts: seq<Token>, i: nat, n: nat)
    requires i < n < |ts| && DeclaredAt(ts, i).Some? && forall j :: 0 <= j < i ==> !ts[j].Namespace?
    requires NameStandsAt(ts, i + 1, n) && forall j :: i < j < n ==> !ts[j].Name?
    ensures DeclaredAt(ts, i).value == ts[n].text
  {
    NamespaceInForce(ts, 0, i);
    NameFromIff(ts, i + 1);
    hide NamespaceAt, NameFrom;
  }

  /** A keyword registers something exactly when `::` does not stand right before it and a plain name comes before the
      first `{` or `(`. */
  lemma RegistersIff(ts: seq<Token>, i: nat)
    requires i < |ts|
    ensures DeclaredAt(ts, i).Some? <==>
      ts[i].Declares? && (i > 0 ==> !ts[i - 1].DoubleColon?) && NameAhead(ts, i + 1)
  {
    NameFromIff(ts, i + 1);
    hide NameAhead;
  }

  lemma {:induction false} FollowingNameIsFirst(ts: seq<Token>, i: nat)
    requires Behind(ts, i).Some? && Behind(ts, i).value.Name?
    ensures NameFrom(ts, i) == Some(Behind(ts, i).value.text)
    decreases |ts| - i
  {
    if ts[i].Blank? {
      FollowingNameIsFirst(ts, i + 1);
    }
  }

  /** What is really declared is registered, under its own name. */
  lemma GenuineIsRegistered(ts: seq<Token>, i: nat)
    requires i < |ts| && Genuine(ts, i)
    ensures DeclaredAt(ts, i) == Some(InNamespace(ts, i, Behind(ts, i + 1).value.text))
  {
    FollowingNameIsFirst(ts, i + 1);
    hide NamespaceAt;
  }

  /** A keyword that declares nothing registers a name: a class constant written with a blank, an anonymous class, or a
      keyword no name follows, before whose first `{` or `(` a plain name stands. */
  predicate Misleads(ts: seq<Token>, i: nat)
    requires i < |ts|
  {
    && ts[i].Declares? && NameAhead(ts, i + 1)
    && (i > 0 ==> !ts[i - 1].DoubleColon?)
    && (Constant(ts, i) || Anonymous(ts, i) || !NameFollows(ts, i))
  }

  lemma MisleadsIff(ts: seq<Token>, i: nat)
    requires i < |ts|
    ensures Misleads(ts, i) <==> DeclaredAt(ts, i).Some? && !Genuine(ts, i)
  {
    RegistersIff(ts, i);
    hide DeclaredAt, NameAhead;
  }

  lemma RegisteredIsDeclaredOrMisled(f: File, name: string)
    ensures ReallyDeclares(f, name) ==> DeclaresName(f, name)
    ensures DeclaresName(f, name) && !ReallyDeclares(f, name) ==>
      exists i :: 0 <= i < |f.tokens| && Misleads(f.tokens, i) && DeclaredAt(f.tokens, i) == Some(name)
  {
    var ts := f.tokens;
    hide NamespaceAt, NameFrom, InNamespace, NameAhead;
    if ReallyDeclares(f, name) {
      var i :| 0 <= i < |ts| && Genuine(ts, i) && InNamespace(ts, i, Behind(ts, i + 1).value.text) == name;
      GenuineIsRegistered(ts, i);
    }
    if DeclaresName(f, name) {
      var i :| 0 <= i < |ts| && DeclaredAt(ts, i) == Some(name);
      MisleadsIff(ts, i);
      if Genuine(ts, i) { GenuineIsRegistered(ts, i); }
    }
  }

  predicate FirstToReallyDeclare(files: seq<File>, k: nat, name: string) {
    && k < |files| && ReallyDeclares(files[k], name)
    && forall j :: 0 <= j < k ==> !ReallyDeclares(files[j], name)
  }

  /** The map has exactly the names that are really declared, each with the first file that really declares it. */
  ghost predicate Right(files: seq<File>, classes: map<string, string>) {
    && (forall name :: name in classes <==> exists k :: 0 <= k < |files| && ReallyDeclares(files[k], name))
    && (forall name, k: nat :: name in classes && FirstToReallyDeclare(files, k, name) ==> classes[name] == files[k].path)
  }

  /** Somewhere up to file `k` the name is really declared. */
  predicate DeclaredUpTo(files: seq<File>, k: nat, name: string) {
    exists j :: 0 <= j <= k && j < |files| && ReallyDeclares(files[j], name)
  }

  /** Every keyword that misleads the scan registers a name that its own file or an earlier one really declares. */
  ghost predicate Harmless(files: seq<File>) {
    forall k, i :: 0 <= k < |files| && 0 <= i < |files[k].tokens| && Misleads(files[k].tokens, i) ==>
      DeclaredUpTo(files, k, Registered(files[k].tokens, i))
  }

  function Registered(ts: seq<Token>, i: nat): string
    requires i < |ts|
  {
    var d := DeclaredAt(ts, i);
    if d.Some? then d.value else ""
  }

  lemma {:induction false} FirstOf(files: seq<File>, name: string, k: nat) returns (f: nat)
    requires k < |files| && DeclaresName(files[k], name)
    ensures f <= k && FirstToDeclare(files, f, name)
  {
    hide DeclaresName;
    f := k;
    if j :| 0 <= j < k && DeclaresName(files[j], name) {
      f := FirstOf(files, name, j);
    }
  }

  lemma {:induction false} FirstRealOf(files: seq<File>, name: string, k: nat) returns (f: nat)
    requires k < |files| && ReallyDeclares(files[k], name)
    ensures f <= k && FirstToReallyDeclare(files, f, name)
  {
    hide ReallyDeclares;
    f := k;
    if j :| 0 <= j < k && ReallyDeclares(files[j], name) {
      f := FirstRealOf(files, name, j);
    }
  }

  lemma HarmlessDeclares(files: seq<File>, name: string, k: nat)
    requires Harmless(files) && k < |files| && DeclaresName(files[k], name)
    ensures DeclaredUpTo(files, k, name)
  {
    RegisteredIsDeclaredOrMisled(files[k], name);
    hide ReallyDeclares, DeclaresName, Misleads, DeclaredAt;
    if !ReallyDeclares(files[k], name) {
      var i :| 0 <= i < |files[k].tokens| && Misleads(files[k].tokens, i) && DeclaredAt(files[k].tokens, i) == Some(name);
      assert DeclaredUpTo(files, k, Registered(files[k].tokens, i));
    }
  }

  /** The first file to register a name is the first to declare it really, if nothing misleads harmfully. */
  lemma HarmlessFirst(files: seq<File>, name: string, k: nat)
    requires Harmless(files) && FirstToDeclare(files, k, name)
    ensures FirstToReallyDeclare(files, k, name)
  {
    HarmlessDeclares(files, name, k);
    forall j | 0 <= j < |files| ensures ReallyDeclares(files[j], name) ==> DeclaresName(files[j], name) {
      RegisteredIsDeclaredOrMisled(files[j], name);
    }
    hide ReallyDeclares, DeclaresName, Harmless;
  }

  lemma HarmlessIsRight(files: seq<File>, classes: map<string, string>)
    requires Harmless(files) && FirstWins(files, classes)
    ensures Right(files, classes)
  {
    hide Harmless, ReallyDeclares, DeclaresName;
    forall name ensures name in classes <==> exists k :: 0 <= k < |files| && ReallyDeclares(files[k], name) {
      if name in classes {
        var k :| 0 <= k < |files| && DeclaresName(files[k], name);
        var f := FirstOf(files, name, k);
        HarmlessFirst(files, name, f);
      }
      if k :| 0 <= k < |files| && ReallyDeclares(files[k], name) {
        RegisteredIsDeclaredOrMisled(files[k], name);
      }
    }
    forall name, k: nat | name in classes && FirstToReallyDeclare(files, k, name)
      ensures classes[name] == files[k].path {
      RegisteredIsDeclaredOrMisled(files[k], name);
      var f := FirstOf(files, name, k);
      HarmlessFirst(files, name, f);
    }
  }

  predicate DistinctPaths(files: seq<File>) {
    forall i, j :: 0 <= i < j < |files| ==> files[i].path != files[j].path
  }

  lemma RightIsHarmless(files: seq<File>, classes: map<string, string>)
    requires Right(files, classes) && FirstWins(files, classes) && DistinctPaths(files)
    ensures Harmless(files)
  {
    forall k, i | 0 <= k < |files| && 0 <= i < |files[k].tokens| && Misleads(files[k].tokens, i)
      ensures DeclaredUpTo(files, k, Registered(files[k].tokens, i))
    {
      var name := Registered(files[k].tokens, i);
      MisleadsIff(files[k].tokens, i);
      assert DeclaresName(files[k], name);
      hide ReallyDeclares, DeclaresName, Misleads, DeclaredAt, Registered;
      var f := FirstOf(files, name, k);
      assert name in classes;
      var r :| 0 <= r < |files| && ReallyDeclares(files[r], name);
      var g := FirstRealOf(files, name, r);
      assert files[f].path == files[g].path;
    }
  }

  /**
   * The scan means to skip class constants and anonymous classes. Its map has exactly the classes that are really
   * declared, each with the file that declares it first, if and only if every keyword that misleads it (a spaced
   * class constant, an anonymous class with a parent, a keyword used as a name) happens to register a class that
   * the same or an earlier file really declares.
   */
  lemma MapIsRightIff(files: seq<File>, classes: map<string, string>)
    requires FirstWins(files, classes) && DistinctPaths(files)
    ensures Right(files, classes) <==> Harmless(files)
  {
    hide Right, Harmless, FirstWins;
    if Harmless(files) { HarmlessIsRight(files, classes); }
    if Right(files, classes) { RightIsHarmless(files, classes); }
  }

  /** `new class { }` and `new class() { }` are skipped, `new class extends Parent { }` registers the parent's name. */
  lemma AnonymousClassWithAParent(name: string)
    ensures DeclaredAt([New, Blank, Declares, Blank, Mark('{')], 2) == None
    ensures DeclaredAt([New, Blank, Declares, Mark('('), Mark(')')], 2) == None
    ensures var ts := [New, Blank, Declares, Blank, Other, Blank, Name(name), Blank, Mark('{')];
      DeclaredAt(ts, 2) == Some(name) && Misleads(ts, 2)
  {
    var ts := [New, Blank, Declares, Blank, Other, Blank, Name(name), Blank, Mark('{')];
    assert NameFrom(ts, 6) == Some(name);
    assert NameFrom(ts, 5) == Some(name);
    assert NameFrom(ts, 4) == Some(name);
    assert NameFrom(ts, 3) == Some(name);
    assert NamespaceAt(ts, 1) == "" && NamespaceAt(ts, 2) == "";
    assert Before(ts, 1) == Some(New) && Before(ts, 2) == Some(New);
    RegistersIff(ts, 2);
  }

  /** `Foo::class` is skipped, `Foo:: class; bar(` registers the function's name. */
  lemma SpacedClassConstant(owner: string, name: string)
    ensures DeclaredAt([Name(owner), DoubleColon, Declares, Mark(';'), Name(name), Mark('(')], 2) == None
    ensures var ts := [Name(owner), DoubleColon, Blank, Declares, Mark(';'), Blank, Name(name), Mark('(')];
      DeclaredAt(ts, 3) == Some(name) && Misleads(ts, 3)
  {
    var ts := [Name(owner), DoubleColon, Blank, Declares, Mark(';'), Blank, Name(name), Mark('(')];
    assert NameFrom(ts, 6) == Some(name);
    assert NameFrom(ts, 5) == Some(name);
    assert NameFrom(ts, 4) == Some(name);
    assert NamespaceAt(ts, 1) == "" && NamespaceAt(ts, 2) == "" && NamespaceAt(ts, 3) == "";
    assert Before(ts, 2) == Some(DoubleColon) && Before(ts, 3) == Some(DoubleColon);
    RegistersIff(ts, 3);
  }

  // ---- the autoloader -----------------------------------------------------------------------------

  const PREFIX: string := "RocketMQ\\"

  predicate StartsWith(s: string, prefix: string) {
    |prefix| <= |s| && s[..|prefix|] == prefix
  }

  /** The path the class name spells, relative to the source directory. */
  function Spelled(name: string): string
    requires StartsWith(name, PREFIX)
  {
    Slashes(name[|PREFIX|..]) + ".php"
  }

  function Slashes(s: string): string {
    if s == "" then "" else [if s[0] == '\\' then '/' else s[0]] + Slashes(s[1..])
  }

  lemma {:induction false} SlashesIs(s: string)
    ensures |Slashes(s)| == |s|
    ensures forall i :: 0 <= i < |s| ==> Slashes(s)[i] == if s[i] == '\\' then '/' else s[i]
  {
    if s != "" {
      SlashesIs(s[1..]);
    }
  }

  /** A name of the client's own namespace spells its path: backslashes become slashes, and `.php` is added. */
  lemma SpelledIs(name: string)
    ensures StartsWith(name, PREFIX) <==> |name| >= 9 && name[..9] == "RocketMQ\\"
    ensures |name| >= 9 && name[..9] == "RocketMQ\\" ==>
      && |Spelled(name)| == |name| - 5 && Spelled(name)[|name| - 9..] == ".php"
      && forall i :: 9 <= i < |name| ==> Spelled(name)[i - 9] == if name[i] == '\\' then '/' else name[i]
  {
    assert |PREFIX| == 9;
    if StartsWith(name, PREFIX) {
      SlashesIs(name[9..]);
      hide Slashes;
      forall i | 9 <= i < |name| ensures Spelled(name)[i - 9] == if name[i] == '\\' then '/' else name[i] {
        assert name[9..][i - 9] == name[i];
      }
    }
  }

  class Autoloader {
    var classMap: Option<map<string, string>>

    constructor ()
      ensures classMap == None
    {
      classMap := None;
    }

    /** The map is built on the first miss and kept; a file at the spelled path wins over any entry. */
    method Load(name: string, exist: set<string>, files: seq<File>) returns (file: Option<string>)
      modifies this
      ensures old(classMap).Some? ==> classMap == old(classMap)
      ensures classMap != old(classMap) ==> classMap.Some? && FirstWins(files, classMap.value)
      ensures file.Some? ==> file.value in exist
      ensures StartsWith(name, PREFIX) && Spelled(name) in exist ==> file == Some(Spelled(name)) && classMap == old(classMap)
      ensures StartsWith(name, PREFIX) && Spelled(name) !in exist ==>
        && classMap.Some?
        && file == if name in classMap.value && classMap.value[name] in exist then Some(classMap.value[name]) else None
      ensures !StartsWith(name, PREFIX) ==> file == None && classMap == old(classMap)
    {
      if !StartsWith(name, PREFIX) {
        return None;
      }
      var direct := Spelled(name);
      if direct in exist {
        return Some(direct);
      }
      if classMap.None? {
        var scanned := ScanClasses(files);
        classMap := Some(scanned);
      }
      if name in classMap.value && classMap.value[name] in exist {
        return Some(classMap.value[name]);
      }
      return None;
    }
  }
}
