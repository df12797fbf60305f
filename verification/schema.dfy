/** Schema creation (database/schema_manager.py): the PostgreSQL-to-SQLite
    rewrite of table definitions, and the order and failure policy of the
    creation steps. Statement execution is a parameter that says whether a
    statement succeeds. */
module Schema {
  import opened Wrappers
  import opened Text
  import ProductionDb

  /** The rewrites of `_convert_to_sqlite`, applied in this order. */
  const Rewrites: seq<(string, string)> := [
    ("SERIAL PRIMARY KEY", "INTEGER PRIMARY KEY AUTOINCREMENT"),
    ("JSONB", "TEXT"),
    ("INET", "TEXT"),
    ("DECIMAL(15,4)", "REAL"),
    ("DECIMAL(10,2)", "REAL"),
    ("DECIMAL(3,2)", "REAL"),
    ("ON DELETE CASCADE", ""),
    ("ON DELETE SET NULL", "")
  ]

  /** One `str.replace` after another. */
  function ApplyRewrites(sql: string, rules: seq<(string, string)>): string
    requires forall i :: 0 <= i < |rules| ==> |rules[i].0| > 0
    decreases |rules|
  {
    if |rules| == 0 then sql
    else ApplyRewrites(ReplaceAll(sql, rules[0].0, rules[0].1), rules[1..])
  }

  /** `_convert_to_sqlite`. */
  function ConvertToSqlite(sql: string): string {
    ApplyRewrites(sql, Rewrites)
  }

  predicate MentionsNone(sql: string, rules: seq<(string, string)>) {
    forall i :: 0 <= i < |rules| ==> !Contains(sql, rules[i].0)
  }

  lemma {:induction false} RewritesAbsent(sql: string, rules: seq<(string, string)>)
    requires forall i :: 0 <= i < |rules| ==> |rules[i].0| > 0
    requires MentionsNone(sql, rules)
    ensures ApplyRewrites(sql, rules) == sql
    decreases |rules|
  {
    if |rules| > 0 {
      ReplaceAbsent(sql, rules[0].0, rules[0].1);
      RewritesAbsent(sql, rules[1..]);
    }
  }

  /** SQL that mentions none of the rewritten phrases comes back as it
      was. */
  lemma ConvertUntouched(sql: string)
    requires MentionsNone(sql, Rewrites)
    ensures ConvertToSqlite(sql) == sql
  {
    RewritesAbsent(sql, Rewrites);
  }

  /** Text without an `S`, `J`, `N`, `1`, `3` or `O` cannot hold any of the
      phrases, so it is left alone. */
  lemma ConvertWithoutKeyLetters(sql: string)
    requires 'S' !in sql && 'J' !in sql && 'N' !in sql && '1' !in sql && '3' !in sql && 'O' !in sql
    ensures ConvertToSqlite(sql) == sql
  {
    MissingCharNotContained(sql, Rewrites[0].0, 'S');
    MissingCharNotContained(sql, Rewrites[1].0, 'J');
    MissingCharNotContained(sql, Rewrites[2].0, 'N');
    MissingCharNotContained(sql, Rewrites[3].0, '1');
    MissingCharNotContained(sql, Rewrites[4].0, '1');
    MissingCharNotContained(sql, Rewrites[5].0, '3');
    MissingCharNotContained(sql, Rewrites[6].0, 'O');
    MissingCharNotContained(sql, Rewrites[7].0, 'O');
    ConvertUntouched(sql);
  }

  /** A DECIMAL precision written without the digits 1 and 3, such as
      `(5,2)`, is none of the three listed ones and is kept, after a column
      text free of the key letters. */
  lemma OtherDecimalKept(column: string, precision: string)
    requires 'S' !in column && 'J' !in column && 'N' !in column && '1' !in column && '3' !in column && 'O' !in column
    requires forall c :: c in precision ==> c in "02456789,"
    ensures ConvertToSqlite(column + "DECIMAL(" + precision + ")") == column + "DECIMAL(" + precision + ")"
  {
    var sql := column + "DECIMAL(" + precision + ")";
    forall c | c in sql
      ensures c != 'S' && c != 'J' && c != 'N' && c != '1' && c != '3' && c != 'O'
    {
      assert c in column || c in "DECIMAL(" || c in precision || c == ')';
    }
    ConvertWithoutKeyLetters(sql);
  }

  /** Text that cannot start a match is copied through unchanged. */
  lemma {:induction false} ReplaceAfter(a: string, t: string, pat: string, rep: string)
    requires |pat| > 0 && pat[0] !in a
    ensures ReplaceAll(a + t, pat, rep) == a + ReplaceAll(t, pat, rep)
    decreases |a|
  {
    if |a| > 0 {
      var s := a + t;
      assert s[0] == a[0] && a[0] != pat[0];
      assert !IsPrefix(pat, s);
      assert s[1..] == a[1..] + t;
      ReplaceAfter(a[1..], t, pat, rep);
      if |s| < |pat| {
        assert |t| < |pat|;
        assert ReplaceAll(s[1..], pat, rep) == s[1..];
        assert ReplaceAll(t, pat, rep) == t;
      }
    } else {
      assert a + t == t;
    }
  }

  /** A match at the front is replaced and the scan resumes after it. */
  lemma ReplaceHere(pat: string, b: string, rep: string)
    requires |pat| > 0
    ensures ReplaceAll(pat + b, pat, rep) == rep + ReplaceAll(b, pat, rep)
  {
    assert (pat + b)[..|pat|] == pat;
    assert (pat + b)[|pat|..] == b;
  }

  lemma {:induction false} ApplySplit(sql: string, rules: seq<(string, string)>, k: nat)
    requires forall i :: 0 <= i < |rules| ==> |rules[i].0| > 0
    requires k <= |rules|
    ensures ApplyRewrites(sql, rules) == ApplyRewrites(ApplyRewrites(sql, rules[..k]), rules[k..])
    decreases k
  {
    if k > 0 {
      assert rules[1..][..k - 1] == rules[..k][1..];
      assert rules[1..][k - 1..] == rules[k..];
      ApplySplit(ReplaceAll(sql, rules[0].0, rules[0].1), rules[1..], k - 1);
    } else {
      assert rules[k..] == rules;
    }
  }

  /** Rule `k` turns its phrase into its replacement when nothing else in
      the statement is touched by the other rules. */
  lemma RuleRewrites(rules: seq<(string, string)>, a: string, k: nat, b: string)
    requires forall i :: 0 <= i < |rules| ==> |rules[i].0| > 0
    requires k < |rules|
    requires rules[k].0[0] !in a && !Contains(b, rules[k].0)
    requires MentionsNone(a + rules[k].0 + b, rules[..k])
    requires MentionsNone(a + rules[k].1 + b, rules[k + 1..])
    ensures ApplyRewrites(a + rules[k].0 + b, rules) == a + rules[k].1 + b
  {
    var pat := rules[k].0;
    var rep := rules[k].1;
    var sql := a + pat + b;
    ApplySplit(sql, rules, k);
    RewritesAbsent(sql, rules[..k]);
    var rest := rules[k..];
    assert rest[0] == (pat, rep) && rest[1..] == rules[k + 1..];
    assert sql == a + (pat + b);
    ReplaceAfter(a, pat + b, pat, rep);
    ReplaceHere(pat, b, rep);
    ReplaceAbsent(b, pat, rep);
    assert a + rep + b == a + (rep + b);
    RewritesAbsent(a + rep + b, rules[k + 1..]);
  }

  /** `_convert_to_sqlite` rewrites each listed phrase in such a
      statement. */
  lemma SingleRewrite(a: string, k: nat, b: string)
    requires k < |Rewrites|
    requires Rewrites[k].0[0] !in a && !Contains(b, Rewrites[k].0)
    requires MentionsNone(a + Rewrites[k].0 + b, Rewrites[..k])
    requires MentionsNone(a + Rewrites[k].1 + b, Rewrites[k + 1..])
    ensures ConvertToSqlite(a + Rewrites[k].0 + b) == a + Rewrites[k].1 + b
  {
    RuleRewrites(Rewrites, a, k, b);
  }

  /** A JSONB column of the consent table becomes a TEXT column. */
  lemma JsonbColumnRewritten(a: string)
    requires a == "metadata "
    ensures ConvertToSqlite(a + "JSONB") == a + "TEXT"
  {
    var rules := Rewrites;
    var s := a + "JSONB";
    var t := a + "TEXT";
    assert rules[1] == ("JSONB", "TEXT");
    assert s == a + rules[1].0 + "" && t == a + rules[1].1 + "";
    assert !Contains("", "JSONB") by {
      MissingCharNotContained("", "JSONB", 'J');
    }
    assert MentionsNone(s, rules[..1]) by {
      MissingCharNotContained(s, rules[0].0, 'R');
    }
    assert MentionsNone(t, rules[2..]) by {
      NoKeyLetters(t, rules);
    }
    RuleRewrites(rules, a, 1, "");
  }

  lemma NoKeyLetters(t: string, rules: seq<(string, string)>)
    requires rules == Rewrites
    requires 'N' !in t && '1' !in t && '3' !in t && 'O' !in t
    ensures MentionsNone(t, rules[2..])
  {
    MissingCharNotContained(t, rules[2].0, 'N');
    MissingCharNotContained(t, rules[3].0, '1');
    MissingCharNotContained(t, rules[4].0, '1');
    MissingCharNotContained(t, rules[5].0, '3');
    MissingCharNotContained(t, rules[6].0, 'O');
    MissingCharNotContained(t, rules[7].0, 'O');
  }

  /** The table definition actually executed: rewritten only for SQLite. */
  function TableSql(kind: ProductionDb.DbType, sql: string): (r: string)
    ensures kind != ProductionDb.Sqlite ==> r == sql
  {
    if kind == ProductionDb.Sqlite then ConvertToSqlite(sql) else sql
  }

  // ---------------------------------------------------------------------
  // Creation steps
  // ---------------------------------------------------------------------

  const CoreTables: seq<string> := ["users", "user_analyses", "user_interests", "user_skills",
                                    "resource_clicks", "affiliate_clicks", "affiliate_conversions"]
  const PrivacyTables: seq<string> := ["user_consents", "audit_logs", "data_deletion_requests"]
  const SystemTables: seq<string> := ["system_metrics", "schema_versions", "system_settings"]

  /** The tables in creation order. */
  function TableOrder(): (names: seq<string>)
    ensures |names| == 13 && names[0] == "users"
  {
    CoreTables + PrivacyTables + SystemTables
  }

  /** What `create_production_schema` did: the statements it ran in order,
      the failures it only logged, and the table whose failure stopped it. */
  datatype Run = Run(executed: seq<string>, logged: seq<string>, aborted: Option<string>)

  /** The definitions in the order they are executed. */
  function TableSqls(kind: ProductionDb.DbType, tables: seq<(string, string)>): (r: seq<string>)
    ensures |r| == |tables| && forall i :: 0 <= i < |tables| ==> r[i] == TableSql(kind, tables[i].1)
  {
    seq(|tables|, i requires 0 <= i < |tables| => TableSql(kind, tables[i].1))
  }

  /** The position of the first statement that fails, if any. */
  function FirstFailure(stmts: seq<string>, exec: string -> bool): (r: Option<nat>)
    ensures r.None? <==> forall i :: 0 <= i < |stmts| ==> exec(stmts[i])
    ensures r.Some? ==> r.value < |stmts| && !exec(stmts[r.value])
                        && forall i :: 0 <= i < r.value ==> exec(stmts[i])
    decreases |stmts|
  {
    if |stmts| == 0 then None
    else if !exec(stmts[0]) then Some(0)
    else match FirstFailure(stmts[1..], exec)
      case None => None
      case Some(j) => Some(j + 1)
  }

  /** Creates the tables in order; the first failure stops the run and is
      raised. */
  function CreateTables(kind: ProductionDb.DbType, tables: seq<(string, string)>, exec: string -> bool): (r: Run)
    ensures r.logged == [] && |r.executed| <= |tables|
    ensures r.executed == TableSqls(kind, tables)[..|r.executed|]
    ensures r.aborted.None? <==> forall i :: 0 <= i < |tables| ==> exec(TableSql(kind, tables[i].1))
    ensures r.aborted.None? ==> |r.executed| == |tables|
    ensures r.aborted.Some? ==> |r.executed| > 0 && r.aborted.value == tables[|r.executed| - 1].0
    ensures r.aborted.Some? ==> !exec(r.executed[|r.executed| - 1])
    ensures r.aborted.Some? ==> forall i :: 0 <= i < |r.executed| - 1 ==> exec(TableSql(kind, tables[i].1))
  {
    StopAtFirst(TableSqls(kind, tables), tables, exec)
  }

  /** Runs `sqls` in order until one fails; the failing one is the last run
      and the matching table is named. */
  function StopAtFirst(sqls: seq<string>, tables: seq<(string, string)>, exec: string -> bool): (r: Run)
    requires |sqls| == |tables|
    ensures r.logged == [] && |r.executed| <= |sqls|
    ensures r.executed == sqls[..|r.executed|]
    ensures r.aborted.None? <==> forall i :: 0 <= i < |sqls| ==> exec(sqls[i])
    ensures r.aborted.None? ==> |r.executed| == |sqls|
    ensures r.aborted.Some? ==> |r.executed| > 0 && r.aborted.value == tables[|r.executed| - 1].0
    ensures r.aborted.Some? ==> !exec(r.executed[|r.executed| - 1])
    ensures r.aborted.Some? ==> forall i :: 0 <= i < |r.executed| - 1 ==> exec(sqls[i])
  {
    match FirstFailure(sqls, exec)
    case None => Run(sqls, [], None)
    case Some(j) => Run(sqls[..j + 1], [], Some(tables[j].0))
  }

  /** Runs statements whose failures are only logged. */
  function RunLogged(stmts: seq<string>, exec: string -> bool): (logged: seq<string>)
    ensures forall s :: s in logged <==> s in stmts && !exec(s)
    ensures |logged| <= |stmts|
  {
    if |stmts| == 0 then []
    else (if exec(stmts[0]) then [] else [stmts[0]]) + RunLogged(stmts[1..], exec)
  }

  /** Constraints exist only for the server databases. */
  function ConstraintsFor(kind: ProductionDb.DbType, constraints: seq<string>): (r: seq<string>)
    ensures kind == ProductionDb.Sqlite ==> r == []
    ensures kind != ProductionDb.Sqlite ==> r == constraints
  {
    if kind == ProductionDb.Sqlite then [] else constraints
  }

  /** `create_production_schema`: tables, then indexes, then constraints,
      then the version row. */
  function CreateSchema(kind: ProductionDb.DbType, tables: seq<(string, string)>, indexes: seq<string>,
                        constraints: seq<string>, versionSql: string, exec: string -> bool): (r: Run)
    ensures r.aborted.Some? ==> |r.executed| <= |tables| && r.logged == []
    ensures r.aborted.None? <==> forall i :: 0 <= i < |tables| ==> exec(TableSql(kind, tables[i].1))
    ensures r.aborted.None? ==> |r.executed| >= |tables| && r.executed[|tables|..] == indexes + ConstraintsFor(kind, constraints) + [versionSql]
    ensures forall s :: s in r.logged ==> !exec(s)
  {
    var t := CreateTables(kind, tables, exec);
    if t.aborted.Some? then t
    else
      var rest := indexes + ConstraintsFor(kind, constraints) + [versionSql];
      var all := t.executed + rest;
      assert all[|tables|..] == rest;
      Run(all, RunLogged(rest, exec), None)
  }

  /** An index, constraint or version failure never stops the run, however
      many of them fail. */
  lemma LaterFailuresOnlyLogged(kind: ProductionDb.DbType, tables: seq<(string, string)>, indexes: seq<string>,
                                constraints: seq<string>, versionSql: string, exec: string -> bool)
    requires forall i :: 0 <= i < |tables| ==> exec(TableSql(kind, tables[i].1))
    ensures var r := CreateSchema(kind, tables, indexes, constraints, versionSql, exec);
            r.aborted.None? && forall s :: s in indexes && !exec(s) ==> s in r.logged
  {
  }

  /** A failing table stops the run before any index is attempted. */
  lemma TableFailureStopsEarly(kind: ProductionDb.DbType, tables: seq<(string, string)>, indexes: seq<string>,
                               constraints: seq<string>, versionSql: string, exec: string -> bool, j: nat)
    requires j < |tables| && !exec(TableSql(kind, tables[j].1))
    ensures var r := CreateSchema(kind, tables, indexes, constraints, versionSql, exec);
            r.aborted.Some? && |r.executed| <= j + 1
  {
    var t := CreateTables(kind, tables, exec);
    assert t.aborted.Some? && |t.executed| <= j + 1;
  }
}
