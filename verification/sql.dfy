/** Parameterised SQL statements built by appending optional `AND` clauses.
    A statement is kept as literal text fragments and `?` markers, so the
    placeholders are exactly the markers. */
module Sql {
  import opened Json

  datatype Token = Words(text: string) | Mark

  /** The SQL text the statement spells. */
  function Render(st: seq<Token>): string
    decreases |st|
  {
    if |st| == 0 then "" else (match st[0] case Words(t) => t case Mark => "?") + Render(st[1..])
  }

  /** The number of `?` placeholders in a statement. */
  function Placeholders(st: seq<Token>): (n: nat)
    ensures n <= |st|
    decreases |st|
  {
    if |st| == 0 then 0 else (if st[0].Mark? then 1 else 0) + Placeholders(st[1..])
  }

  lemma {:induction false} PlaceholdersAppend(a: seq<Token>, b: seq<Token>)
    ensures Placeholders(a + b) == Placeholders(a) + Placeholders(b)
    decreases |a|
  {
    if |a| > 0 {
      assert (a + b)[1..] == a[1..] + b;
      PlaceholdersAppend(a[1..], b);
    } else {
      assert a + b == b;
    }
  }

  lemma {:induction false} RenderAppend(a: seq<Token>, b: seq<Token>)
    ensures Render(a + b) == Render(a) + Render(b)
    decreases |a|
  {
    if |a| > 0 {
      assert (a + b)[1..] == a[1..] + b;
      RenderAppend(a[1..], b);
    } else {
      assert a + b == b;
    }
  }

  datatype Query = Query(sql: seq<Token>, params: seq<Value>)

  /** Every placeholder has exactly one parameter. */
  predicate Balanced(q: Query) {
    Placeholders(q.sql) == |q.params|
  }

  /** A criterion of a search: when it `applies`, ` AND <condition> ?` is
      appended and its parameter bound. */
  datatype Criterion = Criterion(applies: bool, condition: string, param: Value)

  function Clause(c: Criterion): (r: seq<Token>)
    ensures Placeholders(r) == 1
  {
    [Words(c.condition), Mark]
  }

  /** The number of criteria that apply. */
  function Applying(cs: seq<Criterion>): nat
    decreases |cs|
  {
    if |cs| == 0 then 0 else (if cs[0].applies then 1 else 0) + Applying(cs[1..])
  }

  /** Nothing is bound exactly when no criterion applies. */
  lemma {:induction false} ApplyingZero(cs: seq<Criterion>)
    ensures Applying(cs) == 0 <==> forall i :: 0 <= i < |cs| ==> !cs[i].applies
    decreases |cs|
  {
    if |cs| > 0 {
      ApplyingZero(cs[1..]);
      assert forall i :: 1 <= i < |cs| ==> cs[i] == cs[1..][i - 1];
    }
  }

  /** The parameters bound by the criteria that apply, in order. */
  function BoundParams(cs: seq<Criterion>): (r: seq<Value>)
    ensures |r| == Applying(cs)
    decreases |cs|
  {
    if |cs| == 0 then []
    else (if cs[0].applies then [cs[0].param] else []) + BoundParams(cs[1..])
  }

  /** Four criteria, counted one by one: the first one's parameter leads
      when it applies, and nothing is bound when none applies. */
  lemma FourCriteria(cs: seq<Criterion>)
    requires |cs| == 4
    ensures Applying(cs) == (if cs[0].applies then 1 else 0) + (if cs[1].applies then 1 else 0)
                            + (if cs[2].applies then 1 else 0) + (if cs[3].applies then 1 else 0)
    ensures cs[0].applies ==> BoundParams(cs)[0] == cs[0].param
    ensures BoundParams(cs) == [] <==> !cs[0].applies && !cs[1].applies && !cs[2].applies && !cs[3].applies
  {
    assert cs[1..][1..] == cs[2..] && cs[2..][1..] == cs[3..] && cs[3..][1..] == [];
    assert Applying(cs[3..]) == (if cs[3].applies then 1 else 0);
    assert Applying(cs[2..]) == (if cs[2].applies then 1 else 0) + Applying(cs[3..]);
    assert Applying(cs[1..]) == (if cs[1].applies then 1 else 0) + Applying(cs[2..]);
  }

  /** The clauses of the criteria that apply, in order: one placeholder for
      each of them. */
  function BoundClauses(cs: seq<Criterion>): (r: seq<Token>)
    ensures Placeholders(r) == Applying(cs)
    decreases |cs|
  {
    if |cs| == 0 then []
    else
      var head := if cs[0].applies then Clause(cs[0]) else [];
      var rest := BoundClauses(cs[1..]);
      PlaceholdersAppend(head, rest);
      head + rest
  }

  /** Appends each applying criterion in turn, as a chain of `if` statements
      does: the statement stays balanced, and what was there is kept. */
  function AddCriteria(q: Query, cs: seq<Criterion>): (r: Query)
    ensures Placeholders(r.sql) == Placeholders(q.sql) + Applying(cs)
    ensures |r.params| == |q.params| + Applying(cs)
    ensures Balanced(q) ==> Balanced(r)
    ensures |r.sql| >= |q.sql| && r.sql[..|q.sql|] == q.sql
    ensures r.params[..|q.params|] == q.params
  {
    PlaceholdersAppend(q.sql, BoundClauses(cs));
    Query(q.sql + BoundClauses(cs), q.params + BoundParams(cs))
  }

  /** Appends fixed text that binds nothing. */
  function Append(q: Query, text: string): (r: Query)
    ensures Placeholders(r.sql) == Placeholders(q.sql) && r.params == q.params
    ensures Render(r.sql) == Render(q.sql) + text
  {
    PlaceholdersAppend(q.sql, [Words(text)]);
    RenderAppend(q.sql, [Words(text)]);
    assert Render([Words(text)]) == text + Render([]);
    Query(q.sql + [Words(text)], q.params)
  }
}
