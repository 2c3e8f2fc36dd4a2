/** Sequence operations the pages and services rely on: JavaScript's
    `Array.prototype.find` and `filter`, and the insertion-ordered
    de-duplication that a `Set` fed element by element performs. */
module Seqs {
  import opened Wrappers

  /** `i` is the first index of `s` whose element satisfies `p`. */
  ghost predicate FirstAt<T>(s: seq<T>, p: T -> bool, i: int)
  {
    0 <= i < |s| && p(s[i]) && forall j :: 0 <= j < i ==> !p(s[j])
  }

  /** `s.find(p)`: the first element satisfying `p`, or `undefined`. */
  function Find<T>(s: seq<T>, p: T -> bool): (r: Option<T>)
    ensures r.None? <==> forall i :: 0 <= i < |s| ==> !p(s[i])
    ensures r.Some? ==> exists i :: FirstAt(s, p, i) && s[i] == r.value
  {
    if s == [] then None
    else if p(s[0]) then
      assert FirstAt(s, p, 0);
      Some(s[0])
    else
      var r := Find(s[1..], p);
      if r.Some? then
        assert forall i :: FirstAt(s[1..], p, i) ==> FirstAt(s, p, i + 1) && s[1..][i] == s[i + 1];
        r
      else
        r
  }

  /** `r` is obtained from `s` by deleting elements, keeping the order of the rest. */
  ghost predicate IsSubsequence<T>(r: seq<T>, s: seq<T>)
    decreases |s|
  {
    r == [] ||
    (s != [] && ((r[0] == s[0] && IsSubsequence(r[1..], s[1..])) || IsSubsequence(r, s[1..])))
  }

  /** `s.filter(p)`: every element satisfying `p`, as often as it occurs, in order. */
  function Filter<T>(s: seq<T>, p: T -> bool): (r: seq<T>)
    ensures IsSubsequence(r, s)
    ensures forall i :: 0 <= i < |r| ==> p(r[i])
  {
    if s == [] then []
    else
      var rest := Filter(s[1..], p);
      if p(s[0]) then
        assert ([s[0]] + rest)[1..] == rest;
        [s[0]] + rest
      else
        rest
  }

  /** Each element occurs in the filtered list exactly as often as in the
      input when it passes the test, and not at all otherwise. */
  lemma {:induction false} FilterCounts<T>(s: seq<T>, p: T -> bool)
    ensures forall x :: multiset(Filter(s, p))[x] == if p(x) then multiset(s)[x] else 0
  {
    if s != [] {
      FilterCounts(s[1..], p);
      assert s == [s[0]] + s[1..];
    }
  }

  lemma FilterCons<T>(x: T, s: seq<T>, p: T -> bool)
    ensures Filter([x] + s, p) == if p(x) then [x] + Filter(s, p) else Filter(s, p)
  {
    assert ([x] + s)[1..] == s;
  }

  lemma {:induction false} FilterAppend<T>(a: seq<T>, b: seq<T>, p: T -> bool)
    ensures Filter(a + b, p) == Filter(a, p) + Filter(b, p)
  {
    if a != [] {
      assert a + b == [a[0]] + (a[1..] + b);
      assert a == [a[0]] + a[1..];
      FilterAppend(a[1..], b, p);
      FilterCons(a[0], a[1..] + b, p);
      FilterCons(a[0], a[1..], p);
    } else {
      assert a + b == b;
    }
  }

  /** A filter keeps exactly the members that satisfy the predicate. */
  lemma FilterMembers<T(!new)>(s: seq<T>, p: T -> bool, x: T)
    ensures x in Filter(s, p) <==> x in s && p(x)
  {
    var r := Filter(s, p);
    FilterCounts(s, p);
    assert x in r <==> multiset(r)[x] > 0;
    assert x in s <==> multiset(s)[x] > 0;
  }

  ghost predicate NoDuplicates<T>(s: seq<T>)
  {
    forall i, j :: 0 <= i < j < |s| ==> s[i] != s[j]
  }

  /** The contents of a JavaScript `Set` after adding the elements of `s`
      one at a time (`Array.from` lists a set in insertion order). */
  function Dedup<T(==)>(s: seq<T>): (r: seq<T>)
    ensures |r| <= |s|
  {
    if s == [] then []
    else
      var d := Dedup(s[..|s| - 1]);
      if s[|s| - 1] in d then d else d + [s[|s| - 1]]
  }

  /** The set holds exactly the elements added, each once. */
  lemma {:induction false} DedupSpec<T(!new)>(s: seq<T>)
    ensures forall x :: x in Dedup(s) <==> x in s
    ensures NoDuplicates(Dedup(s))
  {
    if s != [] {
      var init := s[..|s| - 1];
      assert s == init + [s[|s| - 1]];
      DedupSpec(init);
    }
  }

  /** The position of the first occurrence of `x` in `s`. */
  function FirstIndex<T(==)>(s: seq<T>, x: T): (r: nat)
    requires x in s
    ensures r < |s| && s[r] == x
    ensures forall j :: 0 <= j < r ==> s[j] != x
  {
    if s[0] == x then 0 else 1 + FirstIndex(s[1..], x)
  }

  lemma FirstIndexAppend<T>(s: seq<T>, y: T, x: T)
    requires x in s
    ensures FirstIndex(s + [y], x) == FirstIndex(s, x)
  {
    var a, b := FirstIndex(s + [y], x), FirstIndex(s, x);
    assert (s + [y])[b] == x;
  }

  /** The elements of `Dedup(s)` appear in the order of their first
      occurrence in `s`. */
  lemma {:induction false} DedupFirstOccurrenceOrder<T(!new)>(s: seq<T>)
    ensures forall i, j :: 0 <= i < j < |Dedup(s)| ==>
      Dedup(s)[i] in s && Dedup(s)[j] in s && FirstIndex(s, Dedup(s)[i]) < FirstIndex(s, Dedup(s)[j])
  {
    DedupSpec(s);
    if s != [] {
      var init, y := s[..|s| - 1], s[|s| - 1];
      assert s == init + [y];
      DedupFirstOccurrenceOrder(init);
      DedupSpec(init);
      var d := Dedup(init);
      forall x | x in init
        ensures FirstIndex(s, x) == FirstIndex(init, x)
      {
        FirstIndexAppend(init, y, x);
      }
      if y !in d {
        assert Dedup(s) == d + [y];
        assert FirstIndex(s, y) == |init|;
        forall i, j | 0 <= i < j < |Dedup(s)|
          ensures FirstIndex(s, Dedup(s)[i]) < FirstIndex(s, Dedup(s)[j])
        {
          assert Dedup(s)[i] == d[i] && d[i] in init;
          if j < |d| {
            assert Dedup(s)[j] == d[j];
          }
        }
      }
    }
  }
}
