/**
 * The array built-ins the source leans on (`find`, `findIndex`, `filter`,
 * `some`, `reduce` as a sum), stated once for every element type.
 */
module Seqs {
  import opened Wrappers
  import opened Text

  /** `s.findIndex(p)`: the first index whose element satisfies `p`, or -1. */
  function FindIndex<T>(s: seq<T>, p: T -> bool): (r: int)
    ensures -1 <= r < |s|
  {
    if s == [] then -1
    else if p(s[0]) then 0
    else
      var i := FindIndex(s[1..], p);
      if i == -1 then -1 else i + 1
  }

  /** -1 exactly when no element satisfies `p`; otherwise the first one that does. */
  lemma {:induction false} FindIndexMeaning<T>(s: seq<T>, p: T -> bool)
    ensures FindIndex(s, p) == -1 <==> forall i :: 0 <= i < |s| ==> !p(s[i])
    ensures FindIndex(s, p) >= 0 ==> p(s[FindIndex(s, p)]) && forall j :: 0 <= j < FindIndex(s, p) ==> !p(s[j])
    decreases |s|
  {
    if s != [] && !p(s[0]) {
      FindIndexMeaning(s[1..], p);
      assert forall i :: 0 < i < |s| ==> s[i] == s[1..][i - 1];
    }
  }

  /** `s.find(p)`: the first element satisfying `p`, if any. */
  function Find<T>(s: seq<T>, p: T -> bool): (r: Option<T>)
    ensures r.Some? <==> FindIndex(s, p) >= 0
  {
    var i := FindIndex(s, p);
    if i == -1 then None else Some(s[i])
  }

  /** None exactly when no element satisfies `p`; otherwise the first element that does. */
  lemma FindMeaning<T>(s: seq<T>, p: T -> bool)
    ensures Find(s, p).None? <==> forall i :: 0 <= i < |s| ==> !p(s[i])
    ensures Find(s, p).Some? ==>
      FindIndex(s, p) >= 0 && Find(s, p).value == s[FindIndex(s, p)] && p(Find(s, p).value)
      && forall j :: 0 <= j < FindIndex(s, p) ==> !p(s[j])
  {
    FindIndexMeaning(s, p);
  }

  /** `s.filter(p)`. */
  function Filter<T>(s: seq<T>, p: T -> bool): (r: seq<T>)
    ensures |r| <= |s|
    ensures forall i :: 0 <= i < |r| ==> r[i] in s && p(r[i])
    ensures forall i :: 0 <= i < |s| && p(s[i]) ==> s[i] in r
    decreases |s|
  {
    if s == [] then []
    else
      var rest := Filter(s[..|s| - 1], p);
      if p(s[|s| - 1]) then rest + [s[|s| - 1]] else rest
  }

  /** Filtering keeps every copy of an element that passes and no copy of one that fails. */
  lemma {:induction false} FilterCounts<T>(s: seq<T>, p: T -> bool, x: T)
    ensures multiset(Filter(s, p))[x] == if p(x) then multiset(s)[x] else 0
    decreases |s|
  {
    if s != [] {
      FilterCounts(s[..|s| - 1], p, x);
      assert s == s[..|s| - 1] + [s[|s| - 1]];
    }
  }

  /** Filtering a concatenation filters each part and keeps their order. */
  lemma {:induction false} FilterAppend<T>(a: seq<T>, b: seq<T>, p: T -> bool)
    ensures Filter(a + b, p) == Filter(a, p) + Filter(b, p)
    decreases |b|
  {
    if b == [] {
      assert a + b == a;
    } else {
      var b' := b[..|b| - 1];
      FilterAppend(a, b', p);
      assert (a + b)[..|a + b| - 1] == a + b';
      assert (a + b)[|a + b| - 1] == b[|b| - 1];
    }
  }

  /** Filtering with a predicate that holds everywhere keeps everything. */
  lemma {:induction false} FilterAll<T>(s: seq<T>, p: T -> bool)
    requires forall i :: 0 <= i < |s| ==> p(s[i])
    ensures Filter(s, p) == s
    decreases |s|
  {
    if s != [] {
      FilterAll(s[..|s| - 1], p);
    }
  }

  /** The number of elements satisfying `p` (`s.filter(p).length`). */
  function Count<T>(s: seq<T>, p: T -> bool): (n: nat)
    ensures n <= |s|
  {
    |Filter(s, p)|
  }

  /** A predicate that implies another one is satisfied by at most as many elements. */
  lemma {:induction false} CountMonotone<T>(s: seq<T>, p: T -> bool, q: T -> bool)
    requires forall x :: p(x) ==> q(x)
    ensures Count(s, p) <= Count(s, q)
    decreases |s|
  {
    if s != [] {
      CountMonotone(s[..|s| - 1], p, q);
    }
  }

  /** `s.reduce((acc, x) => acc + f(x), 0)`. */
  function SumOf<T>(s: seq<T>, f: T -> int): int
    decreases |s|
  {
    if s == [] then 0 else SumOf(s[..|s| - 1], f) + f(s[|s| - 1])
  }

  lemma {:induction false} SumOfAppend<T>(a: seq<T>, b: seq<T>, f: T -> int)
    ensures SumOf(a + b, f) == SumOf(a, f) + SumOf(b, f)
    decreases |b|
  {
    if b == [] {
      assert a + b == a;
    } else {
      var b' := b[..|b| - 1];
      SumOfAppend(a, b', f);
      assert (a + b)[..|a + b| - 1] == a + b';
      assert (a + b)[|a + b| - 1] == b[|b| - 1];
    }
  }

  /** A sum starting with its first element. */
  lemma SumOfCons<T>(x: T, s: seq<T>, f: T -> int)
    ensures SumOf([x] + s, f) == f(x) + SumOf(s, f)
  {
    SumOfAppend([x], s, f);
    assert [x][..0] == [];
  }

  /** Inserting `p` right after the prefix `a` of `a + h + i + f`. */
  lemma SpliceAfter<T>(a: seq<T>, p: seq<T>, h: seq<T>, i: seq<T>, f: seq<T>)
    ensures var bare := a + h + i + f;
      a + p + h + i + f == bare[..|a|] + p + bare[|a|..]
  {
    var bare := a + h + i + f;
    assert bare[..|a|] == a;
    assert bare[|a|..] == h + i + f;
  }

  /** Inserting `p` right before the suffix `c` of `f + t + c`. */
  lemma SpliceBefore<T>(f: seq<T>, t: seq<T>, p: seq<T>, c: seq<T>)
    ensures var bare := f + (t + c);
      f + (t + p + c) == bare[..|bare| - |c|] + p + bare[|bare| - |c|..]
  {
    var bare := f + (t + c);
    assert bare[..|bare| - |c|] == f + t;
    assert bare[|bare| - |c|..] == c;
  }
}
