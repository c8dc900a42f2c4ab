/** Small containers shared by every module. */
module Containers {
  datatype Option<+T> = None | Some(value: T)

  datatype Result<+T, +E> = Ok(value: T) | Err(error: E)

  /** What a state of a run has and every step between keeps, a later state has. */
  lemma {:induction false} Induct<S>(run: seq<S>, start: nat, i: nat, holds: S -> bool)
    requires start <= i < |run| && holds(run[start])
    requires forall j :: start <= j < i && holds(run[j]) ==> holds(run[j + 1])
    ensures holds(run[i])
  {
    if start < i {
      Induct(run, start, i - 1, holds);
    }
  }

  /** So many steps of a relation lead from one state to another. */
  ghost predicate ReachesIn<S(!new)>(next: (S, S) -> bool, k: nat, a: S, b: S) {
    if k == 0 then a == b else exists x :: next(a, x) && ReachesIn(next, k - 1, x, b)
  }

  ghost predicate ReachesBy<S(!new)>(next: (S, S) -> bool, a: S, b: S) {
    exists k: nat :: ReachesIn(next, k, a, b)
  }

  lemma {:induction false} ChainIn<S(!new)>(next: (S, S) -> bool, k: nat, a: S, b: S, l: nat, c: S)
    requires ReachesIn(next, k, a, b) && ReachesIn(next, l, b, c)
    ensures ReachesIn(next, k + l, a, c)
    decreases k
  {
    if k > 0 {
      var x :| next(a, x) && ReachesIn(next, k - 1, x, b);
      ChainIn(next, k - 1, x, b, l, c);
    }
  }

  lemma {:induction false} WeakenIn<S(!new)>(next: (S, S) -> bool, weaker: (S, S) -> bool, k: nat, a: S, b: S)
    requires ReachesIn(next, k, a, b) && forall x, y :: next(x, y) ==> weaker(x, y)
    ensures ReachesIn(weaker, k, a, b)
    decreases k
  {
    if k > 0 {
      var x :| next(a, x) && ReachesIn(next, k - 1, x, b);
      WeakenIn(next, weaker, k - 1, x, b);
    }
  }

  lemma ReachesByOne<S(!new)>(next: (S, S) -> bool, a: S, b: S)
    ensures ReachesBy(next, a, a)
    ensures next(a, b) ==> ReachesBy(next, a, b)
  {
    assert ReachesIn(next, 0, a, a) && ReachesIn(next, 0, b, b);
    if next(a, b) {
      assert ReachesIn(next, 1, a, b);
    }
  }

  lemma {:induction false} KeepsIn<S(!new)>(next: (S, S) -> bool, k: nat, a: S, b: S, holds: S -> bool)
    requires ReachesIn(next, k, a, b) && holds(a) && forall x, y :: next(x, y) && holds(x) ==> holds(y)
    ensures holds(b)
    decreases k
  {
    if k > 0 {
      var x :| next(a, x) && ReachesIn(next, k - 1, x, b);
      KeepsIn(next, k - 1, x, b, holds);
    }
  }

  /** What every step keeps, a state reached from one that has it has too. */
  lemma Keeps<S(!new)>(next: (S, S) -> bool, a: S, b: S, holds: S -> bool)
    requires ReachesBy(next, a, b) && holds(a) && forall x, y :: next(x, y) && holds(x) ==> holds(y)
    ensures holds(b)
  {
    var k: nat :| ReachesIn(next, k, a, b);
    KeepsIn(next, k, a, b, holds);
  }

  lemma ChainBy<S(!new)>(next: (S, S) -> bool, a: S, b: S, c: S)
    requires ReachesBy(next, a, b) && ReachesBy(next, b, c)
    ensures ReachesBy(next, a, c)
  {
    var k: nat :| ReachesIn(next, k, a, b);
    var l: nat :| ReachesIn(next, l, b, c);
    ChainIn(next, k, a, b, l, c);
  }
}

/** The Go string operations the operator relies on.  A string is a sequence of Unicode
    scalar values; Go orders strings by their UTF-8 bytes, which is the order of the scalar
    values, and `len` counts UTF-8 bytes (`ByteLen`). */
module GoText {

  /** Go's `<` on strings.  (Dafny's `<` on sequences means proper prefix.) */
  predicate Less(a: string, b: string) {
    b != [] && (a == [] || a[0] < b[0] || (a[0] == b[0] && Less(a[1..], b[1..])))
  }

  lemma {:induction false} LessIrreflexive(a: string)
    ensures !Less(a, a)
  {
    if a != [] {
      LessIrreflexive(a[1..]);
    }
  }

  lemma {:induction false} LessTransitive(a: string, b: string, c: string)
    requires Less(a, b) && Less(b, c)
    ensures Less(a, c)
  {
    if a != [] && a[0] == b[0] && b[0] == c[0] {
      LessTransitive(a[1..], b[1..], c[1..]);
    }
  }

  lemma {:induction false} LessTotal(a: string, b: string)
    ensures a == b || Less(a, b) || Less(b, a)
  {
    if a != [] && b != [] && a[0] == b[0] {
      LessTotal(a[1..], b[1..]);
      assert a == [a[0]] + a[1..];
      assert b == [b[0]] + b[1..];
    }
  }

  lemma LessAsymmetric(a: string, b: string)
    requires Less(a, b)
    ensures !Less(b, a) && a != b
  {
    LessIrreflexive(a);
    if Less(b, a) {
      LessTransitive(a, b, a);
    }
  }

  predicate IsLeast(x: string, s: set<string>) {
    x in s && forall y :: y in s && y != x ==> Less(x, y)
  }

  lemma {:induction false} LeastExists(s: set<string>)
    requires s != {}
    ensures exists x :: IsLeast(x, s)
  {
    var a :| a in s;
    var rest := s - {a};
    if rest == {} {
      assert s == {a};
      assert IsLeast(a, s);
    } else {
      LeastExists(rest);
      var x :| IsLeast(x, rest);
      LessTotal(a, x);
      if Less(x, a) {
        assert IsLeast(x, s);
      } else {
        forall y | y in s && y != a
          ensures Less(a, y)
        {
          if y != x {
            LessTransitive(a, x, y);
          }
        }
        assert IsLeast(a, s);
      }
    }
  }

  lemma LeastUnique(s: set<string>, x: string, y: string)
    requires IsLeast(x, s) && IsLeast(y, s)
    ensures x == y
  {
    if x != y {
      LessAsymmetric(x, y);
    }
  }

  function Least(s: set<string>): (x: string)
    requires s != {}
    ensures IsLeast(x, s)
  {
    LeastExists(s);
    assert forall x, y :: IsLeast(x, s) && IsLeast(y, s) ==> x == y by {
      forall x, y | IsLeast(x, s) && IsLeast(y, s) ensures x == y {
        LeastUnique(s, x, y);
      }
    }
    var x :| x in s && IsLeast(x, s);
    x
  }

  ghost predicate Ascending(r: seq<string>) {
    forall i, j :: 0 <= i < j < |r| ==> Less(r[i], r[j])
  }

  /** `slices.Sorted` over the keys of a map. */
  function Sorted(s: set<string>): (r: seq<string>)
    ensures Ascending(r)
    ensures forall x :: x in r <==> x in s
    ensures |r| == |s|
  {
    if s == {} then [] else
      var x := Least(s);
      var rest := Sorted(s - {x});
      assert forall y :: y in rest ==> Less(x, y);
      [x] + rest
  }

  lemma {:induction false} SortedUnique(r: seq<string>, s: set<string>)
    requires Ascending(r)
    requires forall x :: x in r <==> x in s
    ensures r == Sorted(s)
  {
    if r != [] {
      var x := r[0];
      assert x in s;
      forall y | y in s && y != x
        ensures Less(x, y)
      {
        assert y in r;
      }
      LeastUnique(s, x, Least(s));
      forall y
        ensures y in r[1..] <==> y in s - {x}
      {
        if y in r[1..] {
          var i :| 0 <= i < |r[1..]| && r[1..][i] == y;
          assert Less(r[0], r[i + 1]);
          LessIrreflexive(x);
        }
      }
      SortedUnique(r[1..], s - {x});
    } else {
      assert s == {};
    }
  }

  lemma AscendingJoin(lo: seq<string>, x: string, hi: seq<string>)
    requires Ascending(lo) && Ascending(hi)
    requires forall i :: 0 <= i < |lo| ==> Less(lo[i], x)
    requires forall i :: 0 <= i < |hi| ==> Less(x, hi[i])
    ensures Ascending(lo + [x] + hi)
  {
    forall i, j | 0 <= i < |lo| && 0 <= j < |hi| ensures Less(lo[i], hi[j]) {
      LessTransitive(lo[i], x, hi[j]);
    }
  }

  function Below(s: set<string>, x: string): set<string> {
    set k | k in s && Less(k, x)
  }

  function Above(s: set<string>, x: string): set<string> {
    set k | k in s && Less(x, k)
  }

  /** Sorting splits at any member: the smaller ones, it, the larger ones. */
  lemma SortedSplit(s: set<string>, x: string)
    requires x in s
    ensures Sorted(s) == Sorted(Below(s, x)) + [x] + Sorted(Above(s, x))
  {
    var lo, hi := Sorted(Below(s, x)), Sorted(Above(s, x));
    assert forall i :: 0 <= i < |lo| ==> lo[i] in Below(s, x);
    assert forall i :: 0 <= i < |hi| ==> hi[i] in Above(s, x);
    AscendingJoin(lo, x, hi);
    forall k ensures k in lo + [x] + hi <==> k in s {
      LessTotal(k, x);
      assert k in lo <==> k in Below(s, x);
      assert k in hi <==> k in Above(s, x);
    }
    SortedUnique(lo + [x] + hi, s);
  }

  function Filter(r: seq<string>, keep: set<string>): (f: seq<string>)
    ensures forall x :: x in f <==> x in r && x in keep
  {
    if r == [] then [] else (if r[0] in keep then [r[0]] else []) + Filter(r[1..], keep)
  }

  lemma {:induction false} FilterAppend(r: seq<string>, x: string, keep: set<string>)
    ensures Filter(r + [x], keep) == if x in keep then Filter(r, keep) + [x] else Filter(r, keep)
  {
    if r == [] {
      assert r + [x] == [x] && [x][1..] == [];
      assert [x] + Filter([], keep) == [x] && [] + Filter([], keep) == [];
    } else {
      var head, rest := if r[0] in keep then [r[0]] else [], Filter(r[1..], keep);
      assert (r + [x])[1..] == r[1..] + [x] && (r + [x])[0] == r[0];
      FilterAppend(r[1..], x, keep);
      assert Filter(r + [x], keep) == head + Filter(r[1..] + [x], keep);
      assert head + (rest + [x]) == (head + rest) + [x];
    }
  }

  lemma {:induction false} FilterAscending(r: seq<string>, keep: set<string>)
    requires Ascending(r)
    ensures Ascending(Filter(r, keep))
  {
    if r != [] {
      FilterAscending(r[1..], keep);
      var rest := Filter(r[1..], keep);
      forall i | 0 <= i < |rest| ensures Less(r[0], rest[i]) {
        assert rest[i] in r[1..];
      }
    }
  }

  /** Dropping members of a sorted listing leaves the sorted listing of the rest. */
  lemma FilterSorted(s: set<string>, keep: set<string>)
    requires keep <= s
    ensures Filter(Sorted(s), keep) == Sorted(keep)
  {
    FilterAscending(Sorted(s), keep);
    SortedUnique(Filter(Sorted(s), keep), keep);
  }

  /** Framing a value between fixed texts loses nothing. */
  lemma FrameInjective(head: string, a: string, b: string, tail: string)
    requires head + a + tail == head + b + tail
    ensures a == b
  {
    assert |head + a + tail| == |head| + |a| + |tail|;
    assert |a| == |b|;
    forall i | 0 <= i < |a| ensures a[i] == b[i] {
      assert (head + a + tail)[|head| + i] == a[i];
      assert (head + b + tail)[|head| + i] == b[i];
    }
  }

  /** UTF-8 width of one scalar value. */
  function Width(c: char): nat {
    if c as int < 0x80 then 1 else if c as int < 0x800 then 2 else if c as int < 0x10000 then 3 else 4
  }

  /** Go's `len` of a string. */
  function ByteLen(s: string): nat {
    if s == [] then 0 else Width(s[0]) + ByteLen(s[1..])
  }

  lemma {:induction false} ByteLenConcat(a: string, b: string)
    ensures ByteLen(a + b) == ByteLen(a) + ByteLen(b)
  {
    if a == [] {
      assert a + b == b;
    } else {
      assert (a + b)[1..] == a[1..] + b;
      ByteLenConcat(a[1..], b);
    }
  }

  lemma {:induction false} AsciiLen(s: string)
    requires forall i :: 0 <= i < |s| ==> s[i] as int < 0x80
    ensures ByteLen(s) == |s|
  {
    if s != [] {
      AsciiLen(s[1..]);
    }
  }

  /** `unicode.IsSpace`. */
  predicate IsSpace(c: char) {
    var n := c as int;
    9 <= n <= 13 || n == 0x20 || n == 0x85 || n == 0xA0 || n == 0x1680 || 0x2000 <= n <= 0x200A ||
    n == 0x2028 || n == 0x2029 || n == 0x202F || n == 0x205F || n == 0x3000
  }

  function TrimLeft(s: string): string {
    if s != [] && IsSpace(s[0]) then TrimLeft(s[1..]) else s
  }

  function TrimRight(s: string): string {
    if s != [] && IsSpace(s[|s| - 1]) then TrimRight(s[..|s| - 1]) else s
  }

  /** `strings.TrimSpace`. */
  function TrimSpace(s: string): string {
    TrimRight(TrimLeft(s))
  }

  predicate AllSpace(s: string) {
    forall i :: 0 <= i < |s| ==> IsSpace(s[i])
  }

  lemma {:induction false} TrimLeftExact(s: string) returns (cut: string)
    ensures s == cut + TrimLeft(s) && AllSpace(cut)
    ensures TrimLeft(s) != "" ==> !IsSpace(TrimLeft(s)[0])
  {
    if s != [] && IsSpace(s[0]) {
      var rest := TrimLeftExact(s[1..]);
      cut := [s[0]] + rest;
      assert s == [s[0]] + s[1..];
    } else {
      cut := "";
    }
  }

  lemma {:induction false} TrimRightExact(s: string) returns (cut: string)
    ensures s == TrimRight(s) + cut && AllSpace(cut)
    ensures TrimRight(s) != "" ==> !IsSpace(TrimRight(s)[|TrimRight(s)| - 1])
  {
    if s != [] && IsSpace(s[|s| - 1]) {
      var rest := TrimRightExact(s[..|s| - 1]);
      cut := rest + [s[|s| - 1]];
      assert s == s[..|s| - 1] + [s[|s| - 1]];
    } else {
      cut := "";
    }
  }

  /** Trimming removes white space at both ends, nothing else, and all of it. */
  lemma TrimSpaceExact(s: string) returns (left: string, right: string)
    ensures s == left + TrimSpace(s) + right && AllSpace(left) && AllSpace(right)
    ensures var t := TrimSpace(s); t != "" ==> !IsSpace(t[0]) && !IsSpace(t[|t| - 1])
  {
    left := TrimLeftExact(s);
    right := TrimRightExact(TrimLeft(s));
    assert TrimSpace(s) != "" ==> TrimSpace(s)[0] == TrimLeft(s)[0];
  }
}
