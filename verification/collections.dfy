/** Sequence and set helpers shared by the ranking and counting rules:
    list comprehensions with a condition, slices, and set sizes. */
module Collections {
  import opened Text

  /** `[x for x in s if p(x)]` */
  function Filter<T>(s: seq<T>, p: T -> bool): (r: seq<T>)
    ensures |r| <= |s|
    ensures forall i :: 0 <= i < |r| ==> p(r[i])
    ensures multiset(r) <= multiset(s)
    ensures forall x :: x in s && p(x) ==> x in r
    decreases |s|
  {
    if |s| == 0 then []
    else
      var rest := Filter(s[1..], p);
      assert s == [s[0]] + s[1..];
      assert forall x :: x in s[1..] ==> x in s;
      if p(s[0]) then [s[0]] + rest else rest
  }

  /** A filter keeps exactly the qualifying elements, with their multiplicity. */
  lemma {:induction false} FilterKeepsQualifying<T>(s: seq<T>, p: T -> bool, x: T)
    ensures multiset(Filter(s, p))[x] == if p(x) then multiset(s)[x] else 0
    decreases |s|
  {
    if |s| > 0 {
      FilterKeepsQualifying(s[1..], p, x);
      assert s == [s[0]] + s[1..];
    }
  }

  /** Whatever a filter keeps comes from the input and qualifies. */
  lemma FilterMember<T>(s: seq<T>, p: T -> bool, x: T)
    requires x in Filter(s, p)
    ensures p(x) && x in s
  {
    var r := Filter(s, p);
    var i :| 0 <= i < |r| && r[i] == x;
    assert x in multiset(r);
  }

  /** A subset is no larger than its superset. */
  lemma {:induction false} SubsetCard<T>(a: set<T>, b: set<T>)
    requires a <= b
    ensures |a| <= |b|
    decreases |a|
  {
    if a != {} {
      var x :| x in a;
      SubsetCard(a - {x}, b - {x});
    }
  }

  /** The intersection of two sets is no larger than either, nor than their union. */
  lemma IntersectionCard<T>(a: set<T>, b: set<T>)
    ensures |a * b| <= |a| && |a * b| <= |b| && |a * b| <= |a + b|
  {
    SubsetCard(a * b, a);
    SubsetCard(a * b, b);
    SubsetCard(a * b, a + b);
  }

  /** The first `n` elements, `n` never negative (`xs[:n]` for `n >= 0`). */
  function Prefix<T>(xs: seq<T>, n: nat): (r: seq<T>)
    ensures |r| == Min(n, |xs|)
    ensures r == xs[..|r|]
  {
    if n <= |xs| then xs[..n] else xs
  }

  /** The number of elements satisfying `p`. */
  function Count<T>(s: seq<T>, p: T -> bool): (n: nat)
    ensures n <= |s|
    ensures n == |Filter(s, p)|
    decreases |s|
  {
    if |s| == 0 then 0 else (if p(s[0]) then 1 else 0) + Count(s[1..], p)
  }

  predicate Distinct<T(==)>(s: seq<T>) {
    forall i, j :: 0 <= i < j < |s| ==> s[i] != s[j]
  }

  /** The elements of `s` without repeats, each at its first occurrence
      (`list(dict.fromkeys(s))`). */
  function Dedup<T(==)>(s: seq<T>): (r: seq<T>)
    ensures Distinct(r)
    ensures forall i :: 0 <= i < |r| ==> r[i] in s
    ensures forall i :: 0 <= i < |s| ==> s[i] in r
    ensures |r| <= |s|
    decreases |s|
  {
    if |s| == 0 then []
    else
      var r := Dedup(s[..|s| - 1]);
      var x := s[|s| - 1];
      assert forall i :: 0 <= i < |s| - 1 ==> s[i] == s[..|s| - 1][i];
      if x in r then r else r + [x]
  }

  /** The set of a sequence without repeats has as many elements as the sequence. */
  lemma {:induction false} DistinctSetCard<T>(s: seq<T>)
    requires Distinct(s)
    ensures |set x | x in s| == |s|
    decreases |s|
  {
    if |s| > 0 {
      var init := s[..|s| - 1];
      DistinctSetCard(init);
      var x := s[|s| - 1];
      assert (set y | y in s) == (set y | y in init) + {x} by {
        assert s == init + [x];
      }
      assert x !in (set y | y in init);
    }
  }
}
