/** What the merge means, and that it depends on the latest updates alone. */
module AggregatorTheorems {
  import opened Containers
  import opened GoText
  import opened Splitting
  import opened Aggregator

  // ----- The merged configuration is the base and the fragments -----

  predicate OneLine(s: string) {
    HasNone(s, {'\n'})
  }

  function FragmentLines(sources: seq<string>, fragments: map<string, string>): seq<string> {
    if sources == [] then [] else
      (if sources[0] in fragments then Content(fragments[sources[0]]) else []) + FragmentLines(sources[1..], fragments)
  }

  lemma LeadingNewline(x: string)
    ensures Content("\n" + x) == Content(x)
  {
    assert "" + "\n" + x == "\n" + x;
    SkipComment("", x);
  }

  lemma GlueBegin(head: string, source: string, tail: string, x: string)
    ensures ("\n" + "\n" + head) + source + (tail + "\n") + x == "\n" + ("\n" + ((head + source + tail) + "\n" + x))
  {
  }

  lemma GlueEnd(fragment: string, head: string, source: string, tail: string, x: string)
    ensures fragment + (("\n" + head) + source + (tail + "\n")) + x ==
            fragment + "\n" + ((head + source + tail) + "\n" + x)
  {
  }

  /** A marker is a comment on one line. */
  lemma MarkerIsComment(head: string, source: string, tail: string)
    requires head != "" && head[0] == '#' && OneLine(head) && OneLine(source) && OneLine(tail)
    ensures IsComment(head + source + tail) && OneLine(head + source + tail)
  {
  }

  lemma BeginContent(source: string, x: string)
    requires OneLine(source)
    ensures Content(BeginLine(source) + x) == Content(x)
  {
    var head, tail := "# ---- Begin external from ", " ----";
    assert "\n\n# ---- Begin external from " == "\n" + "\n" + head && " ----\n" == tail + "\n";
    GlueBegin(head, source, tail, x);
    MarkerIsComment(head, source, tail);
    LeadingNewline("\n" + ((head + source + tail) + "\n" + x));
    LeadingNewline((head + source + tail) + "\n" + x);
    SkipComment(head + source + tail, x);
  }

  lemma EndContent(fragment: string, source: string, x: string)
    requires OneLine(source)
    ensures Content(fragment + EndLine(source) + x) == Content(fragment) + Content(x)
  {
    var head, tail := "# ---- End external from ", " ----";
    assert "\n# ---- End external from " == "\n" + head && " ----\n" == tail + "\n";
    GlueEnd(fragment, head, source, tail, x);
    MarkerIsComment(head, source, tail);
    ContentConcat(fragment, (head + source + tail) + "\n" + x);
    SkipComment(head + source + tail, x);
  }

  /** Around a fragment there are only comment lines, and it starts and ends on lines of its own. */
  lemma BlockContent(source: string, fragment: string, rest: string)
    requires OneLine(source)
    ensures Content(Block(source, fragment) + rest) == Content(fragment) + Content(rest)
  {
    var begin, end := BeginLine(source), EndLine(source);
    assert begin + fragment + end + rest == begin + (fragment + end + rest);
    BeginContent(source, fragment + end + rest);
    EndContent(fragment, source, rest);
  }

  lemma {:induction false} BlocksContent(sources: seq<string>, fragments: map<string, string>)
    requires forall source :: source in fragments ==> OneLine(source)
    ensures Content(Blocks(sources, fragments)) == FragmentLines(sources, fragments)
  {
    if sources == [] {
      CommentContent("");
    } else {
      BlocksContent(sources[1..], fragments);
      if sources[0] in fragments {
        BlockContent(sources[0], fragments[sources[0]], Blocks(sources[1..], fragments));
      } else {
        assert "" + Blocks(sources[1..], fragments) == Blocks(sources[1..], fragments);
        assert [] + FragmentLines(sources[1..], fragments) == FragmentLines(sources[1..], fragments);
      }
    }
  }

  /** Apart from blank and comment lines, the merged text consists of exactly the lines of the base
      and then of each fragment in source order: the markers add nothing and swallow nothing. */
  lemma MergeMeans(base: string, fragments: map<string, string>)
    requires forall source :: source in fragments ==> OneLine(source)
    ensures Content(MergedText(base, fragments)) == Content(base) + FragmentLines(Sorted(fragments.Keys), fragments)
  {
    var blocks := Blocks(Sorted(fragments.Keys), fragments);
    BlocksContent(Sorted(fragments.Keys), fragments);
    TerminatedContent(base, blocks);
  }

  lemma TerminatedContent(base: string, x: string)
    ensures Content(Terminated(base) + x) == Content(base) + Content(x)
  {
    if base != "" && base[|base| - 1] == '\n' {
      var body := base[..|base| - 1];
      assert base == body + "\n" + "" == body + "\n";
      ContentConcat(body, "");
      CommentContent("");
      ContentConcat(body, x);
    } else {
      ContentConcat(base, x);
    }
  }

  /** A fragment counts if and only if it is not all white space, and counts without the white
      space at its ends. */
  lemma FragmentsExactly(externals: map<string, string>, source: string) returns (left: string, right: string)
    requires source in externals
    ensures source in Fragments(externals) <==> !AllSpace(externals[source])
    ensures source in Fragments(externals) ==>
              var fragment := Fragments(externals)[source];
              && externals[source] == left + fragment + right && AllSpace(left) && AllSpace(right)
              && fragment != "" && !IsSpace(fragment[0]) && !IsSpace(fragment[|fragment| - 1])
  {
    left, right := TrimSpaceExact(externals[source]);
    var fragment := TrimSpace(externals[source]);
    if fragment != "" {
      assert externals[source][|left|] == fragment[0];
    } else {
      assert externals[source] == left + right;
    }
  }

  // ----- Only the latest updates count -----

  /** The base of the latest base update. */
  function LatestBase(ops: seq<Op>): Option<string> {
    if ops == [] then None else
      var op := ops[|ops| - 1];
      if op.UpdateBase? then Some(op.base) else LatestBase(ops[..|ops| - 1])
  }

  /** The fragment that the latest update of a source left, if any. */
  function LatestFragment(ops: seq<Op>, source: string): Option<string> {
    if ops == [] then None else
      var op := ops[|ops| - 1];
      if op.SetExternal? && op.source == source then Some(op.fragment)
      else if op.RemoveExternal? && op.source == source then None
      else LatestFragment(ops[..|ops| - 1], source)
  }

  const NEW := State("", false, map[], 0, "", 0)

  /** A new aggregator after any updates holds the latest base and the latest fragment of every
      source, whatever came before. */
  lemma {:induction false} LatestUpdatesHold(ops: seq<Op>)
    ensures var s := Run(NEW, ops);
            && (LatestBase(ops) == if s.hasBase then Some(s.base) else None)
            && forall source :: LatestFragment(ops, source) ==
                 if source in s.externals then Some(s.externals[source]) else None
  {
    if ops != [] {
      LatestUpdatesHold(ops[..|ops| - 1]);
    }
  }

  /** So two histories with the same latest base and fragments give the same merged text. */
  lemma MergeIgnoresHistory(ops: seq<Op>, other: seq<Op>)
    requires LatestBase(ops) == LatestBase(other)
    requires forall source :: LatestFragment(ops, source) == LatestFragment(other, source)
    ensures var a, b := Merged(Run(NEW, ops)), Merged(Run(NEW, other));
            if a.Ok? then b.Ok? && a.value.caddyfile == b.value.caddyfile else a == b
  {
    LatestUpdatesHold(ops);
    LatestUpdatesHold(other);
    var s, t := Run(NEW, ops), Run(NEW, other);
    forall source ensures source in s.externals <==> source in t.externals {
      assert LatestFragment(ops, source) == LatestFragment(other, source);
    }
    assert s.externals == t.externals;
  }

  function Fragment(s: State, source: string): string {
    if source in s.externals then s.externals[source] else ""
  }

  /** The revision counts changes: it rises by one or stays; when it stays, nobody can see a
      difference; and it rises only if something differs. */
  lemma RevisionCountsChanges(s: State, op: Op)
    requires !op.Accept?
    ensures var s' := Update(s, op);
            && (s'.revision == s.revision || s'.revision == s.revision + 1)
            && (s'.revision == s.revision ==>
                  s'.base == s.base && s'.hasBase == s.hasBase && forall x :: Fragment(s', x) == Fragment(s, x))
            && (s'.revision != s.revision ==>
                  s'.base != s.base || s'.hasBase != s.hasBase || s'.externals != s.externals)
            && (op.SetExternal? && Fragment(s, op.source) == op.fragment ==> s'.revision == s.revision)
            && s'.accepted == s.accepted && s'.acceptedRevision == s.acceptedRevision
  {
    if op.RemoveExternal? && op.source in s.externals {
      assert op.source !in Update(s, op).externals;
    }
    if op.SetExternal? && Fragment(s, op.source) != op.fragment {
      assert Update(s, op).externals[op.source] == op.fragment;
    }
  }

  /** The highest revision offered for acceptance. */
  function HighestOffered(ops: seq<Op>): nat {
    if ops == [] then 0 else
      var op, rest := ops[|ops| - 1], HighestOffered(ops[..|ops| - 1]);
      if op.Accept? && op.snapshot.revision > rest then op.snapshot.revision else rest
  }

  /** The first text offered with a given revision. */
  function FirstOffered(ops: seq<Op>, revision: nat): Option<string> {
    if ops == [] then None else
      var op, rest := ops[|ops| - 1], FirstOffered(ops[..|ops| - 1], revision);
      if rest.Some? then rest
      else if op.Accept? && op.snapshot.revision == revision then Some(op.snapshot.caddyfile) else None
  }

  /** Whatever the order in which workers offer their snapshots, the accepted one is the first of
      the highest revision. */
  lemma {:induction false} AcceptedIsNewest(ops: seq<Op>)
    ensures Run(NEW, ops).acceptedRevision == HighestOffered(ops)
    ensures HighestOffered(ops) > 0 ==> FirstOffered(ops, HighestOffered(ops)) == Some(Run(NEW, ops).accepted)
    ensures forall revision :: revision > HighestOffered(ops) ==> FirstOffered(ops, revision) == None
  {
    if ops != [] {
      AcceptedIsNewest(ops[..|ops| - 1]);
    }
  }
}
