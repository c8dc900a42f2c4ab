/** The aggregator: base and external fragments, their canonical merge, the revision counter
    and the accepted boot snapshot.  `State` and `Update` are the value-level account that the
    protocol modules use; `Store` is the mutable object, proved to implement it. */
module Aggregator {
  import opened Containers
  import opened GoText

  /** corev1.MaxSecretSize. */
  const MAX_SIZE: nat := 1048576

  datatype Snapshot = Snapshot(caddyfile: string, revision: nat)

  datatype MergeError = NoBase | TooLarge(size: nat)

  datatype State = State(
    base: string, hasBase: bool, externals: map<string, string>, revision: nat,
    accepted: string, acceptedRevision: nat)

  datatype Op =
    | UpdateBase(base: string)
    | SetExternal(source: string, fragment: string)
    | RemoveExternal(source: string)
    | Accept(snapshot: Snapshot)

  // ----- Updates -----

  /** What the mutating closure reports to `update`. */
  predicate Changes(s: State, op: Op) {
    match op
    case UpdateBase(base) => !s.hasBase || s.base != base
    case SetExternal(source, fragment) => (if source in s.externals then s.externals[source] else "") != fragment
    case RemoveExternal(source) => source in s.externals
    case Accept(snapshot) => s.acceptedRevision < snapshot.revision
  }

  function Update(s: State, op: Op): State {
    var bumped := if Changes(s, op) then s.(revision := s.revision + 1) else s;
    match op
    case UpdateBase(base) => bumped.(base := base, hasBase := true)
    case SetExternal(source, fragment) => bumped.(externals := s.externals[source := fragment])
    case RemoveExternal(source) => bumped.(externals := s.externals - {source})
    case Accept(snapshot) =>
      if Changes(s, op) then s.(accepted := snapshot.caddyfile, acceptedRevision := snapshot.revision) else s
  }

  // ----- The canonical merge -----

  /** The external fragments that count: trimmed, blank ones dropped. */
  function Fragments(externals: map<string, string>): map<string, string> {
    map source | source in externals && TrimSpace(externals[source]) != "" :: TrimSpace(externals[source])
  }

  function Terminated(base: string): string {
    if base != "" && base[|base| - 1] == '\n' then base else base + "\n"
  }

  function BeginLine(source: string): string {
    "\n\n# ---- Begin external from " + source + " ----\n"
  }

  function EndLine(source: string): string {
    "\n# ---- End external from " + source + " ----\n"
  }

  function Block(source: string, fragment: string): string {
    BeginLine(source) + fragment + EndLine(source)
  }

  function Blocks(sources: seq<string>, fragments: map<string, string>): string {
    if sources == [] then "" else
      var block := if sources[0] in fragments then Block(sources[0], fragments[sources[0]]) else "";
      block + Blocks(sources[1..], fragments)
  }

  /** The merge as a function of the base and the set of counting fragments alone. */
  function MergedText(base: string, fragments: map<string, string>): string {
    Terminated(base) + Blocks(Sorted(fragments.Keys), fragments)
  }

  function Merged(s: State): Result<Snapshot, MergeError> {
    if !s.hasBase then Err(NoBase) else
      var text := MergedText(s.base, Fragments(s.externals));
      if ByteLen(text) > MAX_SIZE then Err(TooLarge(ByteLen(text))) else Ok(Snapshot(text, s.revision))
  }

  lemma {:induction false} BlocksConcat(a: seq<string>, b: seq<string>, fragments: map<string, string>)
    ensures Blocks(a + b, fragments) == Blocks(a, fragments) + Blocks(b, fragments)
  {
    if a == [] {
      assert a + b == b;
    } else {
      assert (a + b)[1..] == a[1..] + b;
      BlocksConcat(a[1..], b, fragments);
    }
  }

  /** Every counting fragment stands exactly in its source's place: after the blocks of all
      smaller sources, before the blocks of all larger ones. */
  lemma BlockInPlace(base: string, fragments: map<string, string>, source: string)
    requires source in fragments
    ensures MergedText(base, fragments) ==
            Terminated(base) + Blocks(Sorted(Below(fragments.Keys, source)), fragments) +
            Block(source, fragments[source]) + Blocks(Sorted(Above(fragments.Keys, source)), fragments)
  {
    var lo, hi := Sorted(Below(fragments.Keys, source)), Sorted(Above(fragments.Keys, source));
    SortedSplit(fragments.Keys, source);
    SplitBlocks(lo, source, hi, fragments);
    Appended(Terminated(base), Blocks(lo, fragments), Block(source, fragments[source]), Blocks(hi, fragments));
  }

  lemma Appended(t: string, a: string, b: string, c: string)
    ensures ((t + a) + b) + c == t + (a + b + c)
  {
  }

  lemma Regroup(t: string, a: string, b: string)
    ensures (t + a) + b == t + (a + b)
  {
  }

  /** Skipping the sources without a counting fragment changes nothing. */
  lemma {:induction false} BlocksFilter(sources: seq<string>, fragments: map<string, string>)
    ensures Blocks(Filter(sources, fragments.Keys), fragments) == Blocks(sources, fragments)
  {
    if sources != [] {
      BlocksFilter(sources[1..], fragments);
      var rest := Filter(sources[1..], fragments.Keys);
      if sources[0] in fragments {
        assert ([sources[0]] + rest)[1..] == rest;
      } else {
        assert [] + rest == rest;
        assert "" + Blocks(sources[1..], fragments) == Blocks(sources[1..], fragments);
      }
    }
  }

  lemma MergedOverAllSources(base: string, externals: map<string, string>)
    ensures MergedText(base, Fragments(externals)) ==
            Terminated(base) + Blocks(Sorted(externals.Keys), Fragments(externals))
  {
    BlocksFilter(Sorted(externals.Keys), Fragments(externals));
    FilterSorted(externals.Keys, Fragments(externals).Keys);
  }

  /** What the builder holds after the first i sources. */
  ghost function TextUpTo(base: string, sources: seq<string>, i: nat, externals: map<string, string>): string
    requires i <= |sources|
  {
    Terminated(base) + Blocks(sources[..i], Fragments(externals))
  }

  lemma NextText(base: string, sources: seq<string>, i: nat, externals: map<string, string>)
    requires i < |sources| && sources[i] in externals
    ensures var fragment := TrimSpace(externals[sources[i]]);
            TextUpTo(base, sources, i + 1, externals) ==
            if fragment == "" then TextUpTo(base, sources, i, externals)
            else TextUpTo(base, sources, i, externals) + Block(sources[i], fragment)
  {
    var fragments := Fragments(externals);
    assert sources[..i + 1] == sources[..i] + [sources[i]];
    BlocksConcat(sources[..i], [sources[i]], fragments);
    if sources[i] in fragments {
      BlockOfOne(sources[i], fragments);
      Regroup(Terminated(base), Blocks(sources[..i], fragments), Block(sources[i], fragments[sources[i]]));
    } else {
      assert [sources[i]][1..] == [];
    }
  }

  lemma FullText(base: string, externals: map<string, string>)
    ensures var sources := Sorted(externals.Keys);
            TextUpTo(base, sources, |sources|, externals) == MergedText(base, Fragments(externals))
  {
    var sources := Sorted(externals.Keys);
    assert sources[..|sources|] == sources;
    MergedOverAllSources(base, externals);
  }

  lemma SplitBlocks(lo: seq<string>, source: string, hi: seq<string>, fragments: map<string, string>)
    requires source in fragments
    ensures Blocks(lo + [source] + hi, fragments) ==
            Blocks(lo, fragments) + Block(source, fragments[source]) + Blocks(hi, fragments)
  {
    BlocksConcat(lo + [source], hi, fragments);
    BlocksConcat(lo, [source], fragments);
    BlockOfOne(source, fragments);
  }

  lemma BlockOfOne(source: string, fragments: map<string, string>)
    requires source in fragments
    ensures Blocks([source], fragments) == Block(source, fragments[source])
  {
    var block := Block(source, fragments[source]);
    assert [source][1..] == [];
    assert block + "" == block;
  }

  /** Bytes of the two marker lines, without the source name: 35 and 32. */
  const MARKER_BYTES: nat := 67

  function BlockBytes(sources: seq<string>, fragments: map<string, string>): nat {
    if sources == [] then 0 else
      (if sources[0] in fragments then MARKER_BYTES + 2 * ByteLen(sources[0]) + ByteLen(fragments[sources[0]]) else 0)
      + BlockBytes(sources[1..], fragments)
  }

  lemma ByteLenThree(a: string, b: string, c: string)
    ensures ByteLen(a + b + c) == ByteLen(a) + ByteLen(b) + ByteLen(c)
  {
    ByteLenConcat(a, b);
    ByteLenConcat(a + b, c);
  }

  lemma FramedSize(head: string, source: string, tail: string)
    requires forall i :: 0 <= i < |head| ==> head[i] as int < 0x80
    requires forall i :: 0 <= i < |tail| ==> tail[i] as int < 0x80
    ensures ByteLen(head + source + tail) == |head| + ByteLen(source) + |tail|
  {
    ByteLenThree(head, source, tail);
    AsciiLen(head);
    AsciiLen(tail);
  }

  lemma MarkerSize(source: string)
    ensures ByteLen(BeginLine(source)) == 35 + ByteLen(source)
    ensures ByteLen(EndLine(source)) == 32 + ByteLen(source)
  {
    FramedSize("\n\n# ---- Begin external from ", source, " ----\n");
    FramedSize("\n# ---- End external from ", source, " ----\n");
  }

  lemma BlockSize(source: string, fragment: string)
    ensures ByteLen(Block(source, fragment)) == MARKER_BYTES + 2 * ByteLen(source) + ByteLen(fragment)
  {
    MarkerSize(source);
    ByteLenThree(BeginLine(source), fragment, EndLine(source));
  }

  lemma {:induction false} BlocksSize(sources: seq<string>, fragments: map<string, string>)
    ensures ByteLen(Blocks(sources, fragments)) == BlockBytes(sources, fragments)
  {
    if sources != [] {
      BlocksSize(sources[1..], fragments);
      var head := if sources[0] in fragments then Block(sources[0], fragments[sources[0]]) else "";
      ByteLenConcat(head, Blocks(sources[1..], fragments));
      if sources[0] in fragments {
        BlockSize(sources[0], fragments[sources[0]]);
      }
    }
  }

  /** A snapshot is never empty, fits the ConfigMap limit, and its size is the exact sum of
      its pieces; the merge fails exactly when there is no base or that sum is too large. */
  lemma MergedSize(s: State)
    ensures var size := ByteLen(Terminated(s.base)) +
                        BlockBytes(Sorted(Fragments(s.externals).Keys), Fragments(s.externals));
            && (Merged(s).Ok? <==> s.hasBase && size <= 1048576)
            && (Merged(s).Ok? ==> ByteLen(Merged(s).value.caddyfile) == size && Merged(s).value.caddyfile != "")
            && (s.hasBase && Merged(s).Err? ==> Merged(s).error == TooLarge(size))
  {
    var fragments := Fragments(s.externals);
    BlocksSize(Sorted(fragments.Keys), fragments);
    ByteLenConcat(Terminated(s.base), Blocks(Sorted(fragments.Keys), fragments));
  }

  // ----- Revisions -----

  function Run(s: State, ops: seq<Op>): State {
    if ops == [] then s else Update(Run(s, ops[..|ops| - 1]), ops[|ops| - 1])
  }

  /** A state a fresh aggregator can be in: a base has been counted. */
  predicate Counted(s: State) {
    s.hasBase ==> s.revision >= 1
  }

  /** One update either raises the revision or leaves the merge as it was, although it may
      have inserted an empty fragment. */
  lemma UpdateStep(s: State, op: Op)
    requires Counted(s)
    ensures var s' := Update(s, op);
            && Counted(s')
            && s'.revision >= s.revision && s'.acceptedRevision >= s.acceptedRevision
            && (s'.revision == s.revision ==> Merged(s') == Merged(s))
  {
    var s' := Update(s, op);
    if s'.revision == s.revision {
      SameFragments(s, op);
    }
  }

  lemma SameFragments(s: State, op: Op)
    requires Update(s, op).revision == s.revision
    ensures Fragments(Update(s, op).externals) == Fragments(s.externals)
  {
    if op.SetExternal? && op.source !in s.externals {
      assert TrimLeft("") == "" && TrimRight("") == "";
    } else {
      assert Update(s, op).externals == s.externals;
    }
  }

  lemma {:induction false} RunMonotone(s: State, ops: seq<Op>, more: seq<Op>)
    requires Counted(s)
    ensures var a, b := Run(s, ops), Run(s, ops + more);
            && Counted(a) && Counted(b)
            && a.revision <= b.revision && a.acceptedRevision <= b.acceptedRevision
            && (a.revision == b.revision ==> Merged(a) == Merged(b))
    decreases |ops| + |more|, |more|
  {
    if more == [] {
      assert ops + more == ops;
      if ops != [] {
        RunMonotone(s, ops[..|ops| - 1], []);
        assert ops[..|ops| - 1] + [] == ops[..|ops| - 1];
        UpdateStep(Run(s, ops[..|ops| - 1]), ops[|ops| - 1]);
      }
    } else {
      var init := more[..|more| - 1];
      RunMonotone(s, ops, init);
      assert (ops + more)[..|ops + more| - 1] == ops + init;
      UpdateStep(Run(s, ops + init), more[|more| - 1]);
    }
  }

  /** Within one process a revision names one merge result. */
  lemma RevisionDeterminesContent(s: State, ops: seq<Op>, i: nat, j: nat)
    requires Counted(s) && i <= |ops| && j <= |ops|
    requires Run(s, ops[..i]).revision == Run(s, ops[..j]).revision
    ensures Merged(Run(s, ops[..i])) == Merged(Run(s, ops[..j]))
  {
    if i <= j {
      assert ops[..j] == ops[..i] + ops[i..j];
      RunMonotone(s, ops[..i], ops[i..j]);
    } else {
      assert ops[..i] == ops[..j] + ops[j..i];
      RunMonotone(s, ops[..j], ops[j..i]);
    }
  }

  /** The first snapshot a process loads is always accepted: it has revision at least one. */
  lemma FirstLoadAccepted(s: State, ops: seq<Op>)
    requires Counted(s) && Merged(Run(s, ops)).Ok?
    ensures Merged(Run(s, ops)).value.revision >= 1
    ensures Run(s, ops).acceptedRevision == 0 ==> Changes(Run(s, ops), Accept(Merged(Run(s, ops)).value))
  {
    RunMonotone(s, ops, []);
  }

  // ----- The object -----

  class Store {
    var base: string
    var hasBase: bool
    var externals: map<string, string>
    var revision: nat
    var accepted: string
    var acceptedRevision: nat

    function View(): State
      reads this
    {
      State(base, hasBase, externals, revision, accepted, acceptedRevision)
    }

    constructor ()
      ensures View() == State("", false, map[], 0, "", 0)
    {
      base, hasBase, externals, revision, accepted, acceptedRevision := "", false, map[], 0, "", 0;
    }

    /** The result tells the caller to run the enqueue callback after unlocking. */
    method UpdateBase(newBase: string) returns (changed: bool)
      modifies this
      ensures View() == Update(old(View()), Op.UpdateBase(newBase))
      ensures changed == (revision > old(revision))
    {
      changed := !hasBase || base != newBase;
      base := newBase;
      hasBase := true;
      if changed {
        revision := revision + 1;
      }
    }

    method SetExternal(source: string, fragment: string) returns (changed: bool)
      modifies this
      ensures View() == Update(old(View()), Op.SetExternal(source, fragment))
      ensures changed == (revision > old(revision))
    {
      changed := (if source in externals then externals[source] else "") != fragment;
      externals := externals[source := fragment];
      if changed {
        revision := revision + 1;
      }
    }

    method RemoveExternal(source: string) returns (changed: bool)
      modifies this
      ensures View() == Update(old(View()), Op.RemoveExternal(source))
      ensures changed == (revision > old(revision))
    {
      changed := source in externals;
      externals := externals - {source};
      if changed {
        revision := revision + 1;
      }
    }

    method Accept(snapshot: Snapshot) returns (isNew: bool)
      modifies this
      ensures View() == Update(old(View()), Op.Accept(snapshot))
      ensures isNew == (acceptedRevision > old(acceptedRevision))
    {
      if snapshot.revision <= acceptedRevision {
        return false;
      }
      accepted := snapshot.caddyfile;
      acceptedRevision := snapshot.revision;
      return true;
    }

    /** One delimited fragment, written in three parts. */
    static method WriteBlock(text: string, source: string, fragment: string) returns (r: string)
      ensures r == text + Block(source, fragment)
    {
      Appended(text, BeginLine(source), fragment, EndLine(source));
      r := text + BeginLine(source);
      r := r + fragment;
      r := r + EndLine(source);
    }

    /** The builder loop over all sorted sources, skipping blank fragments, yields the
        canonical merge. */
    method BuildText() returns (text: string)
      ensures text == MergedText(base, Fragments(externals))
    {
      text := base;
      if !(base != "" && base[|base| - 1] == '\n') {
        text := text + "\n";
      }
      var sources := Sorted(externals.Keys);
      for i := 0 to |sources|
        invariant text == TextUpTo(base, sources, i, externals)
      {
        var source := sources[i];
        assert source in externals.Keys;
        var fragment := TrimSpace(externals[source]);
        NextText(base, sources, i, externals);
        if fragment != "" {
          text := WriteBlock(text, source, fragment);
        }
      }
      FullText(base, externals);
    }

    method CurrentMerged() returns (r: Result<Snapshot, MergeError>)
      ensures r == Merged(View())
    {
      if !hasBase {
        return Err(NoBase);
      }
      var text := BuildText();
      if ByteLen(text) > MAX_SIZE {
        return Err(TooLarge(ByteLen(text)));
      }
      return Ok(Snapshot(text, revision));
    }
  }
}
