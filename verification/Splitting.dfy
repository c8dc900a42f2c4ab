/** Lines and words of a text: a reference reading of the Caddyfiles the operator writes. */
module Splitting {

  /** Where the first separator stands; the length when there is none. */
  function IndexOf(s: string, seps: set<char>): (i: nat)
    ensures i <= |s| && (i < |s| ==> s[i] in seps)
    ensures forall j :: 0 <= j < i ==> s[j] !in seps
  {
    if s == [] || s[0] in seps then 0 else 1 + IndexOf(s[1..], seps)
  }

  /** The pieces between the separators. */
  function Split(s: string, seps: set<char>): seq<string>
    decreases |s|
  {
    var i := IndexOf(s, seps);
    if i == |s| then [s] else [s[..i]] + Split(s[i + 1..], seps)
  }

  function Lines(s: string): seq<string> {
    Split(s, {'\n'})
  }

  predicate HasNone(s: string, seps: set<char>) {
    forall i :: 0 <= i < |s| ==> s[i] !in seps
  }

  lemma {:induction false} IndexAt(a: string, c: char, b: string, seps: set<char>)
    requires c in seps && HasNone(a, seps)
    ensures IndexOf(a + [c] + b, seps) == |a|
  {
    assert (a + [c] + b)[|a|] == c;
    assert forall i :: 0 <= i < |a| ==> (a + [c] + b)[i] == a[i];
  }

  lemma {:induction false} SplitConcat(a: string, c: char, b: string, seps: set<char>)
    requires c in seps
    ensures Split(a + [c] + b, seps) == Split(a, seps) + Split(b, seps)
    decreases |a|
  {
    var i := IndexOf(a, seps);
    if i == |a| {
      SplitFirst(a, c, b, seps);
    } else {
      var rest := a[i + 1..];
      Regroup(a, i, c, b);
      SplitFirst(a[..i], a[i], rest + [c] + b, seps);
      SplitConcat(rest, c, b, seps);
      assert [a[..i]] + (Split(rest, seps) + Split(b, seps)) == ([a[..i]] + Split(rest, seps)) + Split(b, seps);
    }
  }

  lemma Regroup(a: string, i: nat, c: char, b: string)
    requires i < |a|
    ensures a + [c] + b == a[..i] + [a[i]] + (a[i + 1..] + [c] + b)
  {
    assert a == a[..i] + [a[i]] + a[i + 1..];
  }

  /** The first piece ends at the first separator. */
  lemma SplitFirst(a: string, c: char, b: string, seps: set<char>)
    requires c in seps && HasNone(a, seps)
    ensures Split(a + [c] + b, seps) == [a] + Split(b, seps)
  {
    var s := a + [c] + b;
    IndexAt(a, c, b, seps);
    assert s[..|a|] == a && s[|a| + 1..] == b;
  }

  lemma SplitOne(s: string, seps: set<char>)
    requires HasNone(s, seps)
    ensures Split(s, seps) == [s]
  {
  }

  // ----- Words -----

  function NonEmpty(r: seq<string>): seq<string> {
    if r == [] then [] else if r[0] == "" then NonEmpty(r[1..]) else [r[0]] + NonEmpty(r[1..])
  }

  lemma {:induction false} NonEmptyConcat(a: seq<string>, b: seq<string>)
    ensures NonEmpty(a + b) == NonEmpty(a) + NonEmpty(b)
  {
    if a == [] {
      assert a + b == b;
    } else {
      assert (a + b)[1..] == a[1..] + b;
      NonEmptyConcat(a[1..], b);
    }
  }

  const BLANKS := {' ', '\t'}

  function Words(s: string): seq<string> {
    NonEmpty(Split(s, BLANKS))
  }

  lemma WordsConcat(a: string, c: char, b: string)
    requires c in BLANKS
    ensures Words(a + [c] + b) == Words(a) + Words(b)
  {
    SplitConcat(a, c, b, BLANKS);
    NonEmptyConcat(Split(a, BLANKS), Split(b, BLANKS));
  }

  lemma OneWord(s: string)
    requires HasNone(s, BLANKS)
    ensures Words(s) == if s == "" then [] else [s]
  {
    SplitOne(s, BLANKS);
    assert NonEmpty([s][1..]) == [];
    assert NonEmpty([s]) == if s == "" then [] else [s];
  }

  // ----- Lines that count -----

  predicate IsComment(line: string) {
    line == "" || line[0] == '#'
  }

  function Counting(lines: seq<string>): seq<string> {
    if lines == [] then [] else
      if IsComment(lines[0]) then Counting(lines[1..]) else [lines[0]] + Counting(lines[1..])
  }

  /** The lines of a text without blank lines and comment lines. */
  function Content(s: string): seq<string> {
    Counting(Lines(s))
  }

  lemma {:induction false} CountingConcat(a: seq<string>, b: seq<string>)
    ensures Counting(a + b) == Counting(a) + Counting(b)
  {
    if a == [] {
      assert a + b == b;
    } else {
      assert (a + b)[1..] == a[1..] + b;
      CountingConcat(a[1..], b);
    }
  }

  lemma ContentConcat(a: string, b: string)
    ensures Content(a + "\n" + b) == Content(a) + Content(b)
  {
    SplitConcat(a, '\n', b, {'\n'});
    CountingConcat(Lines(a), Lines(b));
  }

  lemma CommentContent(line: string)
    requires IsComment(line) && HasNone(line, {'\n'})
    ensures Content(line) == []
  {
    SplitOne(line, {'\n'});
    assert Counting([line][1..]) == [];
    assert Counting([line]) == [];
  }

  /** A comment line in front adds nothing. */
  lemma SkipComment(line: string, b: string)
    requires IsComment(line) && HasNone(line, {'\n'})
    ensures Content(line + "\n" + b) == Content(b)
  {
    ContentConcat(line, b);
    CommentContent(line);
  }
}
