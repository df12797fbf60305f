/** Sums and means of real sequences, as Python's `sum` and `sum(xs)/len(xs)`
    compute them (on exact reals). */
module Stats {

  function Sum(s: seq<real>): real
    decreases |s|
  {
    if |s| == 0 then 0.0 else s[0] + Sum(s[1..])
  }

  lemma {:induction false} SumAppend(a: seq<real>, b: seq<real>)
    ensures Sum(a + b) == Sum(a) + Sum(b)
    decreases |a|
  {
    if |a| > 0 {
      assert (a + b)[1..] == a[1..] + b;
      SumAppend(a[1..], b);
    } else {
      assert a + b == b;
    }
  }

  /** Extending a prefix by one element adds that element. */
  lemma SumPrefixStep(s: seq<real>, i: nat)
    requires i < |s|
    ensures Sum(s[..i + 1]) == Sum(s[..i]) + s[i]
  {
    assert s[..i + 1] == s[..i] + [s[i]];
    SumAppend(s[..i], [s[i]]);
  }

  lemma {:induction false} SumNonNegative(s: seq<real>)
    requires forall i :: 0 <= i < |s| ==> s[i] >= 0.0
    ensures Sum(s) >= 0.0
    decreases |s|
  {
    if |s| > 0 {
      SumNonNegative(s[1..]);
    }
  }

  /** The order of the terms does not matter. */
  lemma {:induction false} SumPermutation(a: seq<real>, b: seq<real>)
    requires multiset(a) == multiset(b)
    ensures Sum(a) == Sum(b)
    decreases |a|
  {
    if |a| == 0 {
      assert |b| == |multiset(b)| == 0;
    } else {
      var x := a[0];
      assert x in multiset(b);
      var j :| 0 <= j < |b| && b[j] == x;
      assert b == b[..j] + [x] + b[j + 1..];
      var rest := b[..j] + b[j + 1..];
      SumAppend(b[..j] + [x], b[j + 1..]);
      SumAppend(b[..j], [x]);
      SumAppend(b[..j], b[j + 1..]);
      assert a == [x] + a[1..];
      calc {
        multiset(a[1..]);
        multiset(a) - multiset{x};
        multiset(b) - multiset{x};
        { assert b == (b[..j] + [x]) + b[j + 1..]; }
        multiset(b[..j]) + multiset{x} + multiset(b[j + 1..]) - multiset{x};
        multiset(rest);
      }
      SumPermutation(a[1..], rest);
    }
  }

  /** A constant sequence sums to its length times the constant. */
  lemma {:induction false} SumConstant(s: seq<real>, c: real)
    requires forall i :: 0 <= i < |s| ==> s[i] == c
    ensures Sum(s) == |s| as real * c
    decreases |s|
  {
    if |s| > 0 {
      SumConstant(s[1..], c);
    }
  }

  /** `part / whole * 100`. */
  function Percentage(part: nat, whole: nat): (r: real)
    requires whole > 0
    ensures 0.0 <= r
    ensures part <= whole ==> r <= 100.0
  {
    var w := whole as real;
    assert part <= whole ==> (part as real) / w <= w / w;
    (part as real) / w * 100.0
  }

  function Mean(s: seq<real>): real
    requires |s| > 0
  {
    Sum(s) / |s| as real
  }

  lemma MeanConstant(s: seq<real>, c: real)
    requires |s| > 0
    requires forall i :: 0 <= i < |s| ==> s[i] == c
    ensures Mean(s) == c
  {
    SumConstant(s, c);
  }
}
