/** Keyword tables: an ordered list of (label, keywords) pairs, where a label
    applies when any of its keywords occurs in the text. The classifiers of
    the system either collect every label that applies, in table order, or
    take the first one. */
module Classify {
  import opened Text
  import Collections

  type Table = seq<(string, seq<string>)>

  predicate Applies(text: string, entry: (string, seq<string>)) {
    ContainsAny(text, entry.1)
  }

  /** The labels whose keywords occur in `text`, in table order. */
  function Hits(text: string, table: Table): (r: seq<string>)
    ensures |r| <= |table|
    ensures forall x :: x in r ==> exists i :: 0 <= i < |table| && table[i].0 == x && Applies(text, table[i])
    ensures forall i :: 0 <= i < |table| && Applies(text, table[i]) ==> table[i].0 in r
    ensures r == [] <==> forall i :: 0 <= i < |table| ==> !Applies(text, table[i])
    decreases |table|
  {
    if |table| == 0 then []
    else
      var rest := Hits(text, table[1..]);
      assert forall i :: 1 <= i < |table| ==> table[i] == table[1..][i - 1];
      if Applies(text, table[0]) then [table[0].0] + rest else rest
  }

  /** At most `n` of the labels that apply, or `default` when none does; a
      default led by a label of no entry cannot be mistaken for hits. */
  function TopOrDefault(text: string, table: Table, n: nat, default: seq<string>): (r: seq<string>)
    requires n >= 1 && |default| > 0
    requires forall i :: 0 <= i < |table| ==> table[i].0 != default[0]
    ensures Hits(text, table) == [] <==> r == default
    ensures Hits(text, table) != [] ==> 1 <= |r| <= n && forall x :: x in r ==> x in Hits(text, table)
  {
    var found := Hits(text, table);
    if found == [] then default
    else
      var r := Collections.Prefix(found, n);
      assert r[0] == found[0] && found[0] in found;
      r
  }

  /** The label of the first entry that applies, else `default`. */
  function FirstHit(text: string, table: Table, default: string): (r: string)
    ensures (forall i :: 0 <= i < |table| ==> !Applies(text, table[i])) ==> r == default
    ensures forall i :: (0 <= i < |table| && Applies(text, table[i]) &&
                         (forall j :: 0 <= j < i ==> !Applies(text, table[j]))) ==> r == table[i].0
    decreases |table|
  {
    if |table| == 0 then default
    else if Applies(text, table[0]) then table[0].0
    else
      assert forall i :: 1 <= i < |table| ==> table[i] == table[1..][i - 1];
      FirstHit(text, table[1..], default)
  }

  /** The table with every keyword lower-cased. */
  function LowerKeys(table: Table): (r: Table)
    ensures |r| == |table|
    ensures forall i :: 0 <= i < |table| ==> r[i].0 == table[i].0 && |r[i].1| == |table[i].1|
    ensures forall i, j :: 0 <= i < |table| && 0 <= j < |table[i].1| ==> r[i].1[j] == Lower(table[i].1[j])
  {
    seq(|table|, i requires 0 <= i < |table| =>
      (table[i].0, seq(|table[i].1|, j requires 0 <= j < |table[i].1| => Lower(table[i].1[j]))))
  }

  /** Labels never repeat in the result when they do not repeat in the table. */
  lemma {:induction false} HitsDistinct(text: string, table: Table)
    requires forall i, j :: 0 <= i < j < |table| ==> table[i].0 != table[j].0
    ensures forall i, j :: 0 <= i < j < |Hits(text, table)| ==> Hits(text, table)[i] != Hits(text, table)[j]
    decreases |table|
  {
    if |table| > 0 {
      HitsDistinct(text, table[1..]);
      var rest := Hits(text, table[1..]);
      forall x | x in rest
        ensures x != table[0].0
      {
        var i :| 0 <= i < |table[1..]| && table[1..][i].0 == x && Applies(text, table[1..][i]);
        assert table[i + 1].0 == x;
      }
      var r := Hits(text, table);
      if Applies(text, table[0]) {
        assert r == [table[0].0] + rest;
        forall i, j | 0 <= i < j < |r|
          ensures r[i] != r[j]
        {
          assert r[j] == rest[j - 1] && rest[j - 1] in rest;
          if i > 0 {
            assert r[i] == rest[i - 1];
          }
        }
      }
    }
  }
}
