/** Python's `sorted(kwargs.items())`: the keyword arguments of a call put in
    code-point order of their names, which makes the cache keys derived from a
    call independent of the order in which its keywords were written. */
module KwArgs {

  /** A keyword argument: its name and the `str()` of its value. */
  type Pair = (string, string)

  /** Python's `<` on `str`: code-point lexicographic order. */
  predicate StrLt(a: string, b: string)
    decreases |a|
  {
    if |a| == 0 then |b| > 0
    else if |b| == 0 then false
    else if a[0] < b[0] then true
    else a[0] == b[0] && StrLt(a[1..], b[1..])
  }

  predicate StrLe(a: string, b: string) {
    a == b || StrLt(a, b)
  }

  lemma {:induction false} StrLtIrreflexive(a: string)
    ensures !StrLt(a, a)
    decreases |a|
  {
    if |a| > 0 {
      StrLtIrreflexive(a[1..]);
    }
  }

  lemma {:induction false} StrLtTransitive(a: string, b: string, c: string)
    requires StrLt(a, b) && StrLt(b, c)
    ensures StrLt(a, c)
    decreases |a|
  {
    if |a| > 0 && a[0] == b[0] && b[0] == c[0] {
      StrLtTransitive(a[1..], b[1..], c[1..]);
    }
  }

  lemma {:induction false} StrLtTotal(a: string, b: string)
    ensures StrLt(a, b) || a == b || StrLt(b, a)
    decreases |a|
  {
    if |a| > 0 && |b| > 0 && a[0] == b[0] {
      StrLtTotal(a[1..], b[1..]);
      if a[1..] == b[1..] {
        assert a == [a[0]] + a[1..] && b == [b[0]] + b[1..];
      }
    }
  }

  lemma StrLtAsymmetric(a: string, b: string)
    requires StrLt(a, b)
    ensures !StrLt(b, a)
  {
    if StrLt(b, a) {
      StrLtTransitive(a, b, a);
      StrLtIrreflexive(a);
    }
  }

  /** Strictly increasing names, so in particular no name twice. */
  ghost predicate StrictlySorted(s: seq<Pair>) {
    forall i, j :: 0 <= i < j < |s| ==> StrLt(s[i].0, s[j].0)
  }

  /** A Python call never passes the same keyword twice. */
  ghost predicate DistinctNames(s: seq<Pair>) {
    forall i, j :: 0 <= i < j < |s| ==> s[i].0 != s[j].0
  }

  function Insert(x: Pair, s: seq<Pair>): (r: seq<Pair>)
    ensures multiset(r) == multiset(s) + multiset{x}
    decreases |s|
  {
    if |s| == 0 then [x]
    else if StrLt(x.0, s[0].0) then [x] + s
    else
      assert s == [s[0]] + s[1..];
      [s[0]] + Insert(x, s[1..])
  }

  lemma {:induction false} InsertBelow(x: Pair, s: seq<Pair>, lo: string)
    requires StrLt(lo, x.0)
    requires forall i :: 0 <= i < |s| ==> StrLt(lo, s[i].0)
    ensures forall i :: 0 <= i < |Insert(x, s)| ==> StrLt(lo, Insert(x, s)[i].0)
    decreases |s|
  {
    if |s| > 0 && !StrLt(x.0, s[0].0) {
      InsertBelow(x, s[1..], lo);
    }
  }

  lemma {:induction false} InsertStrict(x: Pair, s: seq<Pair>)
    requires StrictlySorted(s)
    requires forall i :: 0 <= i < |s| ==> s[i].0 != x.0
    ensures StrictlySorted(Insert(x, s))
    decreases |s|
  {
    if |s| > 0 {
      if StrLt(x.0, s[0].0) {
        forall j | 0 < j < |s| + 1
          ensures StrLt(x.0, ([x] + s)[j].0)
        {
          if j > 1 {
            StrLtTransitive(x.0, s[0].0, s[j - 1].0);
          }
        }
      } else {
        StrLtTotal(x.0, s[0].0);
        InsertStrict(x, s[1..]);
        InsertBelow(x, s[1..], s[0].0);
      }
    }
  }

  /** `sorted(pairs)` for pairs with distinct names. */
  function SortPairs(s: seq<Pair>): (r: seq<Pair>)
    ensures multiset(r) == multiset(s)
    decreases |s|
  {
    if |s| == 0 then []
    else
      assert s == s[..|s| - 1] + [s[|s| - 1]];
      Insert(s[|s| - 1], SortPairs(s[..|s| - 1]))
  }

  lemma {:induction false} SortPairsStrict(s: seq<Pair>)
    requires DistinctNames(s)
    ensures StrictlySorted(SortPairs(s))
    decreases |s|
  {
    if |s| > 0 {
      var init := s[..|s| - 1];
      var last := s[|s| - 1];
      SortPairsStrict(init);
      var r := SortPairs(init);
      forall i | 0 <= i < |r|
        ensures r[i].0 != last.0
      {
        assert r[i] in multiset(r);
        assert r[i] in multiset(init);
        var k :| 0 <= k < |init| && init[k] == r[i];
        assert s[k] == r[i];
      }
      InsertStrict(last, r);
    }
  }

  lemma TailMultiset(a: seq<Pair>)
    requires |a| > 0
    ensures multiset(a[1..]) == multiset(a) - multiset{a[0]}
  {
    assert a == [a[0]] + a[1..];
  }

  /** Two strictly sorted lists with the same elements start with the same element. */
  lemma StrictlySortedSameHead(a: seq<Pair>, b: seq<Pair>)
    requires StrictlySorted(a) && StrictlySorted(b)
    requires multiset(a) == multiset(b) && |a| > 0
    ensures |b| > 0 && a[0] == b[0]
  {
    assert |b| == |multiset(b)| == |a|;
    assert b[0] in multiset(a);
    var k :| 0 <= k < |a| && a[k] == b[0];
    assert a[0] in multiset(b);
    var m :| 0 <= m < |b| && b[m] == a[0];
    if k != 0 {
      assert StrLt(a[0].0, b[0].0);
      if m == 0 {
        StrLtIrreflexive(a[0].0);
      } else {
        assert StrLt(b[0].0, a[0].0);
        StrLtAsymmetric(a[0].0, b[0].0);
      }
    }
  }

  /** Two strictly sorted lists with the same elements are the same list. */
  lemma {:induction false} StrictlySortedUnique(a: seq<Pair>, b: seq<Pair>)
    requires StrictlySorted(a) && StrictlySorted(b)
    requires multiset(a) == multiset(b)
    ensures a == b
    decreases |a|
  {
    if |a| == 0 {
      assert |b| == |multiset(b)|;
    } else {
      StrictlySortedSameHead(a, b);
      TailMultiset(a);
      TailMultiset(b);
      StrictlySortedUnique(a[1..], b[1..]);
      assert a == [a[0]] + a[1..] && b == [b[0]] + b[1..];
    }
  }

  /** The order in which keywords are written never changes `sorted(kwargs.items())`. */
  lemma SortPairsOrderIndependent(p: seq<Pair>, q: seq<Pair>)
    requires DistinctNames(p) && DistinctNames(q)
    requires multiset(p) == multiset(q)
    ensures SortPairs(p) == SortPairs(q)
  {
    SortPairsStrict(p);
    SortPairsStrict(q);
    StrictlySortedUnique(SortPairs(p), SortPairs(q));
  }
}
