/** Python's `sorted(xs, key=k, reverse=True)`: a stable sort, largest key first.
    The ascending sorts of the system are the same sort on the negated key. */
module Sorting {
  import opened Text

  ghost predicate SortedDesc<T>(s: seq<T>, key: T -> real) {
    forall i, j :: 0 <= i < j < |s| ==> key(s[i]) >= key(s[j])
  }

  ghost predicate AllAtMost<T>(s: seq<T>, key: T -> real, bound: real) {
    forall i :: 0 <= i < |s| ==> key(s[i]) <= bound
  }

  /** Inserts `x` after every leading element whose key is at least `key(x)`,
      which is what keeps equal keys in their arrival order. */
  function InsertDesc<T>(x: T, s: seq<T>, key: T -> real): (r: seq<T>)
    ensures |r| == |s| + 1
    ensures multiset(r) == multiset(s) + multiset{x}
    decreases |s|
  {
    if |s| == 0 then [x]
    else if key(s[0]) >= key(x) then
      assert s == [s[0]] + s[1..];
      [s[0]] + InsertDesc(x, s[1..], key)
    else
      [x] + s
  }

  lemma {:induction false} InsertAtMost<T>(x: T, s: seq<T>, key: T -> real, bound: real)
    requires AllAtMost(s, key, bound) && key(x) <= bound
    ensures AllAtMost(InsertDesc(x, s, key), key, bound)
    decreases |s|
  {
    if |s| > 0 && key(s[0]) >= key(x) {
      InsertAtMost(x, s[1..], key, bound);
    }
  }

  lemma {:induction false} InsertSorted<T>(x: T, s: seq<T>, key: T -> real)
    requires SortedDesc(s, key)
    ensures SortedDesc(InsertDesc(x, s, key), key)
    decreases |s|
  {
    if |s| > 0 && key(s[0]) >= key(x) {
      InsertSorted(x, s[1..], key);
      assert AllAtMost(s[1..], key, key(s[0]));
      InsertAtMost(x, s[1..], key, key(s[0]));
    }
  }

  /** `sorted(s, key=key, reverse=True)` */
  function SortDesc<T>(s: seq<T>, key: T -> real): (r: seq<T>)
    ensures |r| == |s|
    ensures multiset(r) == multiset(s)
    ensures SortedDesc(r, key)
    decreases |s|
  {
    if |s| == 0 then []
    else
      assert s == s[..|s| - 1] + [s[|s| - 1]];
      var rest := SortDesc(s[..|s| - 1], key);
      InsertSorted(s[|s| - 1], rest, key);
      InsertDesc(s[|s| - 1], rest, key)
  }

  lemma SortKeepsElements<T>(s: seq<T>, key: T -> real, x: T)
    ensures x in SortDesc(s, key) <==> x in s
  {
    var r := SortDesc(s, key);
    assert x in r <==> x in multiset(r);
    assert x in s <==> x in multiset(s);
  }

  /** `sorted(s, key=key, reverse=True)[:limit]`: the best `limit` elements,
      best first. */
  function Ranked<T>(s: seq<T>, key: T -> real, limit: int): (r: seq<T>)
    ensures SortedDesc(r, key)
    ensures forall i :: 0 <= i < |r| ==> r[i] in s
    ensures limit >= 0 ==> |r| == Min(limit, |s|)
    ensures limit >= |s| ==> multiset(r) == multiset(s)
  {
    var sorted := SortDesc(s, key);
    TakeOfSorted(s, sorted, key, limit);
    Take(sorted, limit)
  }

  lemma TakeOfSorted<T>(s: seq<T>, sorted: seq<T>, key: T -> real, limit: int)
    requires multiset(sorted) == multiset(s) && SortedDesc(sorted, key)
    ensures SortedDesc(Take(sorted, limit), key)
    ensures forall i :: 0 <= i < |Take(sorted, limit)| ==> Take(sorted, limit)[i] in s
    ensures limit >= 0 ==> |Take(sorted, limit)| == Min(limit, |s|)
    ensures limit >= |s| ==> Take(sorted, limit) == sorted
  {
    TakeLength(sorted, limit);
    assert |sorted| == |multiset(sorted)| == |multiset(s)| == |s|;
    var t := Take(sorted, limit);
    forall i | 0 <= i < |t|
      ensures t[i] in s
    {
      assert t[i] == sorted[i];
      assert sorted[i] in multiset(s);
    }
  }
}
