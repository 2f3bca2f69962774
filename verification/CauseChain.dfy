/**
 * Walking the causes of an exception. The chain runs over objects on the heap and may be cyclic; the walk
 * remembers what it has seen.
 */
module CauseChain {
  import opened Messages

  /** An exception object. `strange` says its cause attribute holds something that is no exception. */
  class Fault {
    const code: int
    const errorMessage: string
    const text: string
    var strange: bool
    var cause: Fault?
    var chained: Fault?

    constructor (code: int, errorMessage: string, text: string)
      ensures this.code == code && this.errorMessage == errorMessage && this.text == text
      ensures !strange && cause == null && chained == null
    {
      this.code, this.errorMessage, this.text := code, errorMessage, text;
      strange, cause, chained := false, null, null;
    }

    /** The explicit cause if there is one, the chained exception otherwise. */
    function Next(): Fault?
      reads this
    {
      if strange then null else if cause != null then cause else chained
    }

    /** The readable message of this object alone. */
    function Message(): string {
      if errorMessage != "" then errorMessage else text
    }
  }

  /** A set of objects no link leads out of. */
  predicate Closed(all: set<Fault>)
    reads all
  {
    forall f :: f in all ==> f.Next() == null || f.Next() in all
  }

  /** The objects a walk visits, in order: along the links, up to the end or to one already seen. */
  ghost function Path(f: Fault?, seen: set<Fault>, all: set<Fault>): (r: seq<Fault>)
    requires Closed(all) && (f == null || f in all)
    reads all
    ensures forall g :: g in r ==> g in all && g !in seen
    decreases all - seen
  {
    if f == null || f in seen then [] else [f] + Path(f.Next(), seen + {f}, all)
  }

  function FirstCode(path: seq<Fault>): Option<int> {
    if path == [] then None
    else if path[0].code != 0 then Some(path[0].code)
    else FirstCode(path[1..])
  }

  function LastMessage(path: seq<Fault>, start: string): string {
    if path == [] then start
    else LastMessage(path[1..], if path[0].Message() != "" then path[0].Message() else start)
  }

  method ResponseCodeOf(exc: Fault, ghost all: set<Fault>) returns (code: Option<int>)
    requires exc in all && Closed(all)
    ensures code == FirstCode(Path(exc, {}, all))
  {
    var seen: set<Fault> := {};
    var cur: Fault? := exc;
    while cur != null && cur !in seen
      invariant cur == null || cur in all
      invariant FirstCode(Path(exc, {}, all)) == FirstCode(Path(cur, seen, all))
      decreases all - seen
    {
      ghost var path := Path(cur, seen, all);
      assert path[1..] == Path(cur.Next(), seen + {cur}, all);
      if cur.code != 0 {
        return Some(cur.code);
      }
      seen := seen + {cur};
      cur := cur.Next();
    }
    code := None;
  }

  method DeepestMessage(exc: Fault, ghost all: set<Fault>) returns (message: string)
    requires exc in all && Closed(all)
    ensures message == LastMessage(Path(exc, {}, all), exc.text)
  {
    message := exc.text;
    var seen: set<Fault> := {};
    var cur: Fault? := exc;
    while cur != null && cur !in seen
      invariant cur == null || cur in all
      invariant LastMessage(Path(exc, {}, all), exc.text) == LastMessage(Path(cur, seen, all), message)
      decreases all - seen
    {
      ghost var path := Path(cur, seen, all);
      assert path[1..] == Path(cur.Next(), seen + {cur}, all);
      if cur.Message() != "" {
        message := cur.Message();
      }
      seen := seen + {cur};
      cur := cur.Next();
    }
  }

  // ---- what the walk amounts to -------------------------------------------------------------------

  /** The object `n` links away. */
  ghost function Away(f: Fault?, n: nat, all: set<Fault>): (r: Fault?)
    requires Closed(all) && (f == null || f in all)
    reads all
    ensures r == null || r in all
    decreases n
  {
    if f == null || n == 0 then f else Away(f.Next(), n - 1, all)
  }

  lemma {:induction false} StepFromPath(f: Fault?, seen: set<Fault>, all: set<Fault>, g: Fault)
    requires Closed(all) && (f == null || f in all) && g in Path(f, seen, all)
    ensures g.Next() == null || g.Next() in seen || g.Next() in Path(f, seen, all)
    decreases all - seen
  {
    if g != f {
      StepFromPath(f.Next(), seen + {f}, all, g);
    } else if g.Next() != null && g.Next() !in seen + {f} {
      assert g.Next() in Path(f.Next(), seen + {f}, all);
    }
  }

  lemma {:induction false} AwayInto(f: Fault, g: Fault?, n: nat, all: set<Fault>)
    requires Closed(all) && f in all && (g == null || g in Path(f, {}, all)) && Away(g, n, all) != null
    ensures Away(g, n, all) in Path(f, {}, all)
    decreases n
  {
    if n > 0 && g != null {
      StepFromPath(f, {}, all, g);
      AwayInto(f, g.Next(), n - 1, all);
    }
  }

  /** The walk, cut off at the first repetition, has met everything the links lead to. */
  lemma WalkMeetsEverything(f: Fault, all: set<Fault>, n: nat)
    requires Closed(all) && f in all && Away(f, n, all) != null
    ensures Away(f, n, all) in Path(f, {}, all)
  {
    assert f in Path(f, {}, all);
    AwayInto(f, f, n, all);
  }

  lemma {:induction false} PathIsReached(f: Fault?, seen: set<Fault>, all: set<Fault>, i: nat)
    requires Closed(all) && (f == null || f in all) && i < |Path(f, seen, all)|
    ensures Away(f, i, all) == Path(f, seen, all)[i]
    decreases i
  {
    if i > 0 {
      PathIsReached(f.Next(), seen + {f}, all, i - 1);
    }
  }

  /**
   * From one visited object the walk goes to its explicit cause, to its chained exception where it has none, and ends
   * where there is neither, where the cause is no exception, or where it has been before.
   */
  lemma {:induction false} WalkGoesOn(f: Fault, seen: set<Fault>, all: set<Fault>, i: nat)
    requires Closed(all) && f in all && f !in seen && i < |Path(f, seen, all)|
    ensures var path := Path(f, seen, all);
      var g := path[i];
      var link := if g.cause != null then g.cause else g.chained;
      && path[0] == f
      && (i + 1 < |path| ==> !g.strange && path[i + 1] == link && link !in seen && link !in path[..i + 1])
      && (i + 1 == |path| ==> g.strange || link == null || link in seen || link in path)
    decreases all - seen
  {
    var path, next := Path(f, seen, all), f.Next();
    if next != null && next !in seen + {f} {
      var rest := Path(next, seen + {f}, all);
      assert path == [f] + rest && rest[0] == next;
      if i > 0 {
        WalkGoesOn(next, seen + {f}, all, i - 1);
        assert path[..i + 1] == [f] + rest[..i];
      }
    }
  }

  /** The first non-zero code stands at position `i`. */
  predicate FirstAt(path: seq<Fault>, i: nat, code: int) {
    i < |path| && path[i].code == code && code != 0 && forall j :: 0 <= j < i ==> path[j].code == 0
  }

  lemma {:induction false} FirstCodeIs(path: seq<Fault>)
    ensures FirstCode(path).None? <==> forall i :: 0 <= i < |path| ==> path[i].code == 0
    ensures FirstCode(path).Some? ==> exists i: nat :: FirstAt(path, i, FirstCode(path).value)
  {
    if path != [] {
      if path[0].code != 0 {
        assert FirstAt(path, 0, path[0].code);
      } else {
        FirstCodeIs(path[1..]);
        if FirstCode(path).Some? {
          var i: nat :| FirstAt(path[1..], i, FirstCode(path).value);
          assert FirstAt(path, i + 1, FirstCode(path).value);
        }
      }
    }
  }

  /** No object the links lead to carries a code. */
  ghost predicate NobodyHasACode(f: Fault, all: set<Fault>)
    requires Closed(all) && f in all
    reads all
  {
    forall n: nat :: Away(f, n, all) == null || Away(f, n, all).code == 0
  }

  /** No code is found exactly when no object the links lead to carries one, on cyclic heaps as well. */
  lemma NoneIffNobodyHasACode(f: Fault, all: set<Fault>)
    requires Closed(all) && f in all
    ensures FirstCode(Path(f, {}, all)).None? <==> NobodyHasACode(f, all)
  {
    var path := Path(f, {}, all);
    FirstCodeIs(path);
    hide Path, Away, FirstCode;
    if FirstCode(path).None? {
      forall n: nat ensures Away(f, n, all) == null || Away(f, n, all).code == 0 {
        if Away(f, n, all) != null {
          WalkMeetsEverything(f, all, n);
        }
      }
    } else {
      var i: nat :| FirstAt(path, i, FirstCode(path).value);
      PathIsReached(f, {}, all, i);
      assert Away(f, i, all).code != 0;
    }
  }

  /** What is found is the code of the object `i` links away, and the `i` objects before it carry none. */
  lemma FirstCodeAlongTheLinks(f: Fault, all: set<Fault>) returns (i: nat)
    requires Closed(all) && f in all && FirstCode(Path(f, {}, all)).Some?
    ensures Away(f, i, all) != null && Away(f, i, all).code == FirstCode(Path(f, {}, all)).value != 0
    ensures forall j: nat :: j < i ==> Away(f, j, all) != null && Away(f, j, all).code == 0
  {
    var path := Path(f, {}, all);
    FirstCodeIs(path);
    i :| FirstAt(path, i, FirstCode(path).value);
    hide Path, Away, FirstCode;
    forall j: nat | j <= i ensures Away(f, j, all) == path[j] {
      PathIsReached(f, {}, all, j);
    }
  }

  /** The message is the last non-empty one of the path, the starting text if there is none. */
  lemma {:induction false} LastMessageIs(path: seq<Fault>, start: string)
    ensures (forall i :: 0 <= i < |path| ==> Silent(path[i])) ==> LastMessage(path, start) == start
    ensures (exists i :: 0 <= i < |path| && !Silent(path[i])) ==>
      exists i: nat :: LastAt(path, i, LastMessage(path, start))
  {
    if path != [] {
      var next := if path[0].Message() != "" then path[0].Message() else start;
      var rest := path[1..];
      LastMessageIs(rest, next);
      if exists i :: 0 <= i < |rest| && !Silent(rest[i]) {
        var i: nat :| LastAt(rest, i, LastMessage(rest, next));
        forall j | i + 1 < j < |path| ensures Silent(path[j]) {
          assert path[j] == rest[j - 1];
        }
        assert LastAt(path, i + 1, LastMessage(path, start));
      } else if !Silent(path[0]) {
        forall j | 0 < j < |path| ensures Silent(path[j]) {
          assert path[j] == rest[j - 1];
        }
        assert LastAt(path, 0, LastMessage(path, start));
      }
    }
  }

  predicate Silent(f: Fault) {
    f.errorMessage == "" && f.text == ""
  }

  /** Object `i` is the last that has something to say; its error message goes before its text. */
  predicate LastAt(path: seq<Fault>, i: nat, message: string) {
    && i < |path| && !Silent(path[i])
    && (if path[i].errorMessage != "" then message == path[i].errorMessage else message == path[i].text)
    && forall j :: i < j < |path| ==> Silent(path[j])
  }
}
