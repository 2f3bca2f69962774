/** Message properties as one text: name, \x01, value, \x02, entry after entry. */
module PropertyText {
  import opened Messages

  const SPLIT: char := 1 as char
  const END: char := 2 as char

  datatype Property = Property(name: string, value: string)

  function Format(ps: seq<Property>): string {
    if ps == [] then "" else ps[0].name + [SPLIT] + ps[0].value + [END] + Format(ps[1..])
  }

  /** What comes before the first `c`, everything if there is none. */
  function Before(s: string, c: char): (r: string)
    ensures |r| <= |s| && r == s[..|r|] && c !in r
    ensures |r| < |s| ==> s[|r|] == c
  {
    if s == "" || s[0] == c then "" else [s[0]] + Before(s[1..], c)
  }

  /** One entry; an empty name or an empty value makes it none. */
  function Entry(segment: string): Option<Property> {
    var k := |Before(segment, SPLIT)|;
    if 0 < k < |segment| - 1 then Some(Property(segment[..k], segment[k + 1..])) else None
  }

  function Put(acc: map<string, string>, p: Option<Property>): map<string, string> {
    match p
    case None => acc
    case Some(q) => acc[q.name := q.value]
  }

  function Parse(s: string, acc: map<string, string>): map<string, string>
    decreases |s|
  {
    if s == "" then acc
    else
      var segment := Before(s, END);
      var rest := if |segment| < |s| then s[|segment| + 1..] else "";
      Parse(rest, Put(acc, Entry(segment)))
  }

  function Table(ps: seq<Property>, acc: map<string, string>): map<string, string> {
    if ps == [] then acc else Table(ps[1..], acc[ps[0].name := ps[0].value])
  }

  /** An entry that survives: no separator where it would be misread, and nothing empty. */
  predicate Good(p: Property) {
    && p.name != "" && SPLIT !in p.name && END !in p.name
    && p.value != "" && END !in p.value
  }

  predicate AllGood(table: map<string, string>) {
    forall name :: name in table ==> Good(Property(name, table[name]))
  }

  lemma {:induction false} BeforeIs(s: string, c: char, n: nat)
    requires n <= |s| && c !in s[..n] && (n < |s| ==> s[n] == c)
    ensures Before(s, c) == s[..n]
  {
    if n > 0 {
      assert s[0] in s[..n];
      assert s[1..][..n - 1] == s[..n][1..];
      BeforeIs(s[1..], c, n - 1);
    }
  }

  lemma BeforeStops(a: string, c: char, b: string)
    requires c !in a
    ensures Before(a + [c] + b, c) == a
  {
    assert (a + [c] + b)[..|a|] == a;
    BeforeIs(a + [c] + b, c, |a|);
  }

  lemma EntryReadsBack(p: Property)
    requires Good(p)
    ensures Entry(p.name + [SPLIT] + p.value) == Some(p)
  {
    BeforeStops(p.name, SPLIT, p.value);
  }

  lemma {:induction false} GoodReadsBack(ps: seq<Property>, acc: map<string, string>)
    requires forall i :: 0 <= i < |ps| ==> Good(ps[i])
    ensures Parse(Format(ps), acc) == Table(ps, acc)
  {
    if ps != [] {
      var p, rest := ps[0], Format(ps[1..]);
      var segment := p.name + [SPLIT] + p.value;
      assert Format(ps) == segment + [END] + rest;
      BeforeStops(segment, END, rest);
      EntryReadsBack(p);
      assert Format(ps)[|segment| + 1..] == rest;
      GoodReadsBack(ps[1..], acc[p.name := p.value]);
    }
  }

  lemma EntryIsGood(segment: string)
    requires END !in segment
    ensures Entry(segment).Some? ==> Good(Entry(segment).value)
  {
    var k := |Before(segment, SPLIT)|;
    hide Before;
    if 0 < k < |segment| - 1 {
      assert segment == segment[..k] + segment[k..] && segment[k..] == [segment[k]] + segment[k + 1..];
    }
  }

  /** Only good entries are ever read. */
  lemma {:induction false} ParseIsGood(s: string, acc: map<string, string>)
    requires AllGood(acc)
    ensures AllGood(Parse(s, acc))
    decreases |s|
  {
    if s != "" {
      var segment := Before(s, END);
      EntryIsGood(segment);
      hide Entry, Before, Good;
      ParseIsGood(if |segment| < |s| then s[|segment| + 1..] else "", Put(acc, Entry(segment)));
    }
  }

  predicate DistinctNames(ps: seq<Property>) {
    forall i, j :: 0 <= i < j < |ps| ==> ps[i].name != ps[j].name
  }

  /** Of several entries with one name the last is read. */
  lemma {:induction false} TableHas(ps: seq<Property>, acc: map<string, string>, i: nat)
    requires i < |ps| && forall j :: i < j < |ps| ==> ps[j].name != ps[i].name
    ensures ps[i].name in Table(ps, acc) && Table(ps, acc)[ps[i].name] == ps[i].value
  {
    if i > 0 {
      TableHas(ps[1..], acc[ps[0].name := ps[0].value], i - 1);
    } else {
      TableKeeps(ps[1..], acc[ps[0].name := ps[0].value], ps[0].name);
    }
  }

  lemma {:induction false} TableOnly(ps: seq<Property>, acc: map<string, string>, name: string)
    requires name in Table(ps, acc)
    ensures name in acc || exists i :: 0 <= i < |ps| && ps[i].name == name
  {
    if ps != [] {
      TableOnly(ps[1..], acc[ps[0].name := ps[0].value], name);
      if i :| 0 <= i < |ps[1..]| && ps[1..][i].name == name {
        assert ps[i + 1].name == name;
      }
    }
  }

  lemma {:induction false} TableKeeps(ps: seq<Property>, acc: map<string, string>, name: string)
    requires name in acc && forall i :: 0 <= i < |ps| ==> ps[i].name != name
    ensures name in Table(ps, acc) && Table(ps, acc)[name] == acc[name]
  {
    if ps != [] {
      TableKeeps(ps[1..], acc[ps[0].name := ps[0].value], name);
    }
  }

  /**
   * A table of properties survives the text exactly when every name and value is non-empty, no name holds a
   * separator and no value holds \x02. A value may hold \x01: the first one ends the name.
   */
  lemma PropertiesReadBackIff(ps: seq<Property>)
    requires DistinctNames(ps)
    ensures Parse(Format(ps), map[]) == Table(ps, map[]) <==> forall i :: 0 <= i < |ps| ==> Good(ps[i])
  {
    if forall i :: 0 <= i < |ps| ==> Good(ps[i]) {
      GoodReadsBack(ps, map[]);
    }
    ParseIsGood(Format(ps), map[]);
    if Parse(Format(ps), map[]) == Table(ps, map[]) {
      forall i | 0 <= i < |ps| ensures Good(ps[i]) {
        TableHas(ps, map[], i);
      }
    }
  }

  // ---- the scan as it runs ------------------------------------------------------------------------

  /** The first `c` at or after `from`, or the length of the text. */
  method Find(s: string, c: char, from: nat) returns (at: nat)
    requires from <= |s|
    ensures from <= at <= |s| && s[from..at] == Before(s[from..], c)
  {
    at := from;
    while at < |s| && s[at] != c
      invariant from <= at <= |s|
      invariant c !in s[from..at]
    {
      at := at + 1;
    }
    assert s[from..][..at - from] == s[from..at];
    BeforeIs(s[from..], c, at - from);
  }

  /** The name ends at the first \x01 of the whole text; past the segment it does not count. */
  method ReadEntry(s: string, index: nat, end: nat) returns (p: Option<Property>)
    requires index <= end <= |s|
    ensures p == Entry(s[index..end])
  {
    p := None;
    ghost var segment := s[index..end];
    if end - index >= 3 {
      var split := Find(s, SPLIT, index);
      ghost var n := if split < end then split - index else end - index;
      assert segment[..n] == s[index..split][..n];
      BeforeIs(segment, SPLIT, n);
      if split > index && split < end - 1 {
        p := Some(Property(s[index..split], s[split + 1..end]));
        assert segment[..n] == s[index..split] && segment[n + 1..] == s[split + 1..end];
      }
    }
  }

  function Rest(s: string, index: nat): string {
    if index <= |s| then s[index..] else ""
  }

  method ParseText(s: string) returns (table: map<string, string>)
    ensures table == Parse(s, map[])
  {
    hide Entry, Before, Parse;
    table := map[];
    var index := 0;
    assert Rest(s, 0) == s;
    while index < |s|
      invariant 0 <= index <= |s| + 1
      invariant Parse(s, map[]) == Parse(Rest(s, index), table)
      decreases |s| + 1 - index
    {
      var end := Find(s, END, index);
      var p := ReadEntry(s, index, end);
      OneStep(s, index, end, table);
      if p.Some? {
        table := table[p.value.name := p.value.value];
      }
      index := end + 1;
    }
    assert Rest(s, index) == "";
    NothingLeft(table);
  }

  lemma NothingLeft(acc: map<string, string>)
    ensures Parse("", acc) == acc
  {
  }

  lemma OneStep(s: string, index: nat, end: nat, acc: map<string, string>)
    requires index < |s| && index <= end <= |s| && s[index..end] == Before(s[index..], END)
    ensures Parse(Rest(s, index), acc) == Parse(Rest(s, end + 1), Put(acc, Entry(s[index..end])))
  {
    hide Entry, Before;
    assert end < |s| ==> s[index..][end - index + 1..] == s[end + 1..];
  }
}
