/**
 * Sequence operations behind Python's `list(set(xs))` and `zip(xs, ys)`.
 */
module Seqs {

  predicate NoDuplicates<T(==)>(s: seq<T>) {
    forall i, j :: 0 <= i < j < |s| ==> s[i] != s[j]
  }

  function Min(a: int, b: int): int {
    if a <= b then a else b
  }

  /**
   * The elements of `s` that are not in `seen`, each once, in order of first
   * occurrence.
   */
  function DistinctFrom<T(==, !new)>(s: seq<T>, seen: set<T>): (r: seq<T>)
    ensures forall x :: x in r <==> x in s && x !in seen
    ensures NoDuplicates(r)
  {
    if s == [] then []
    else if s[0] in seen then DistinctFrom(s[1..], seen)
    else [s[0]] + DistinctFrom(s[1..], seen + {s[0]})
  }

  /**
   * `list(set(s))`: every element of `s` exactly once. Python does not fix
   * the order of a set; this model lists elements by first occurrence.
   */
  function Distinct<T(==, !new)>(s: seq<T>): (r: seq<T>)
    ensures forall x :: x in r <==> x in s
    ensures NoDuplicates(r)
  {
    DistinctFrom(s, {})
  }

  function Elements<T>(s: seq<T>): set<T> {
    set x | x in s
  }

  /** `len(set(s) - seen)` elements come out of `DistinctFrom(s, seen)`. */
  lemma {:induction false} DistinctFromCount<T(!new)>(s: seq<T>, seen: set<T>)
    ensures |DistinctFrom(s, seen)| == |Elements(s) - seen|
  {
    if s == [] {
      assert Elements(s) == {};
    } else {
      var x := s[0];
      var tail := s[1..];
      ElementsOfCons(s);
      if x in seen {
        DistinctFromCount(tail, seen);
        assert Elements(s) - seen == Elements(tail) - seen;
      } else {
        DistinctFromCount(tail, seen + {x});
        var rest := Elements(tail) - (seen + {x});
        assert Elements(s) - seen == rest + {x};
        assert x !in rest;
      }
    }
  }

  /** The elements of a non-empty sequence: its head and the elements of its tail. */
  lemma ElementsOfCons<T>(s: seq<T>)
    requires s != []
    ensures Elements(s) == {s[0]} + Elements(s[1..])
  {
    assert s == [s[0]] + s[1..];
  }

  /** `len(list(set(s))) == len(set(s))`. */
  lemma DistinctCount<T(!new)>(s: seq<T>)
    ensures |Distinct(s)| == |Elements(s)|
  {
    DistinctFromCount(s, {});
  }

  /** `s` back to front. */
  function Reverse<T>(s: seq<T>): (r: seq<T>)
    ensures |r| == |s|
    ensures forall i :: 0 <= i < |s| ==> r[i] == s[|s| - 1 - i]
  {
    if s == [] then [] else [s[|s| - 1]] + Reverse(s[..|s| - 1])
  }

  /** Where each of four concatenated parts sits in the whole. */
  lemma FourParts<T>(a: seq<T>, b: seq<T>, c: seq<T>, d: seq<T>)
    ensures var s := a + b + c + d;
      && |s| == |a| + |b| + |c| + |d|
      && (forall i :: 0 <= i < |a| ==> s[i] == a[i])
      && (forall i :: |a| <= i < |a| + |b| ==> s[i] == b[i - |a|])
      && (forall i :: |a| + |b| <= i < |a| + |b| + |c| ==> s[i] == c[i - |a| - |b|])
      && (forall i :: |a| + |b| + |c| <= i < |s| ==> s[i] == d[i - |a| - |b| - |c|])
  {
  }

  /** The four parts of a concatenation, read back as slices of it. */
  lemma FourSlices<T>(a: seq<T>, b: seq<T>, c: seq<T>, d: seq<T>)
    ensures var s := a + b + c + d;
      && |s| == |a| + |b| + |c| + |d|
      && s[..|a|] == a
      && s[|a|..|a| + |b|] == b
      && s[|a| + |b|..|a| + |b| + |c|] == c
      && s[|a| + |b| + |c|..] == d
  {
    var s := a + b + c + d;
    FourParts(a, b, c, d);
    assert s[..|a|] == a;
    assert s[|a|..|a| + |b|] == b;
    assert s[|a| + |b|..|a| + |b| + |c|] == c;
    assert s[|a| + |b| + |c|..] == d;
  }
}
