/** The production database manager (database/production_database_manager.py):
    connection-string parsing, the retry loop with exponential backoff, the
    fetch helpers over a query's result, and the backup ids, listing and
    retention. `urlparse`, the clock, the file system and the drivers are
    parameters or inputs. */
module ProductionDb {
  import opened Wrappers
  import opened Text
  import Stats
  import Sorting
  import Collections

  // ---------------------------------------------------------------------
  // Connection strings
  // ---------------------------------------------------------------------

  /** What `urlparse` reports about a server URL. */
  datatype UrlParts = UrlParts(hostname: Option<string>, port: Option<nat>, path: string,
                               username: Option<string>, password: Option<string>)

  datatype DbType = Postgresql | Mysql | Sqlite

  datatype DbConfig =
    | Server(kind: DbType, host: Option<string>, port: nat, database: string,
             username: Option<string>, password: Option<string>)
    | SqliteFile(path: string)
  {
    function Kind(): DbType {
      if Server? then kind else Sqlite
    }
  }

  const PostgresPort := 5432
  const MysqlPort := 3306

  predicate IsPostgresUrl(cs: string) {
    IsPrefix("postgresql://", cs) || IsPrefix("postgres://", cs)
  }

  /** `parsed.port or default`: a missing port and port 0 both give the
      default. */
  function PortOr(p: Option<nat>, default: nat): (port: nat)
    ensures p.Some? && p.value != 0 ==> port == p.value
    ensures p.None? || p.value == 0 ==> port == default
  {
    if p.Some? && p.value != 0 then p.value else default
  }

  function ServerConfig(kind: DbType, parts: UrlParts, default: nat): DbConfig {
    Server(kind, parts.hostname, PortOr(parts.port, default), LStripChar(parts.path, '/'),
           parts.username, parts.password)
  }

  /** `_parse_connection_string`. */
  function ParseConnectionString(cs: string, urlparse: string -> UrlParts): (c: DbConfig)
    ensures c.Kind() == Postgresql <==> IsPostgresUrl(cs)
    ensures c.Kind() == Mysql <==> !IsPostgresUrl(cs) && IsPrefix("mysql://", cs)
    ensures c.Server? ==> c.host == urlparse(cs).hostname
    ensures c.Server? ==> c.username == urlparse(cs).username && c.password == urlparse(cs).password
    ensures c.Server? ==> c.database == LStripChar(urlparse(cs).path, '/')
    ensures c.Server? ==> (c.port == PostgresPort || c.port == MysqlPort || Some(c.port) == urlparse(cs).port)
    ensures c.SqliteFile? ==> c.path == ReplaceAll(cs, "sqlite:///", "")
  {
    if IsPostgresUrl(cs) then ServerConfig(Postgresql, urlparse(cs), PostgresPort)
    else if IsPrefix("mysql://", cs) then ServerConfig(Mysql, urlparse(cs), MysqlPort)
    else SqliteFile(ReplaceAll(cs, "sqlite:///", ""))
  }

  /** `_get_db_path`: the file of an SQLite database, else the connection
      string itself. The `:memory:` default of the source is never reached,
      because the parser always records a path. */
  function DbPath(cs: string, urlparse: string -> UrlParts): (p: string)
    ensures ParseConnectionString(cs, urlparse).Server? ==> p == cs
  {
    match ParseConnectionString(cs, urlparse)
    case SqliteFile(path) => path
    case Server(_, _, _, _, _, _) => cs
  }

  /** A `sqlite:///` URL opens the file named after the scheme. */
  lemma SqliteUrlPath(p: string, urlparse: string -> UrlParts)
    requires !Contains(p, "sqlite:///")
    ensures ParseConnectionString("sqlite:///" + p, urlparse) == SqliteFile(p)
    ensures DbPath("sqlite:///" + p, urlparse) == p
  {
    var cs := "sqlite:///" + p;
    assert cs[0] == 's';
    assert !IsPostgresUrl(cs) by {
      assert "postgresql://"[0] == 'p' && "postgres://"[0] == 'p';
    }
    assert !IsPrefix("mysql://", cs) by {
      assert "mysql://"[0] == 'm';
    }
    assert cs[..10] == "sqlite:///";
    assert cs[10..] == p;
    ReplaceAbsent(p, "sqlite:///", "");
  }

  /** A plain file name that mentions no scheme is used as it is. */
  lemma PlainPathKept(p: string, urlparse: string -> UrlParts)
    requires !Contains(p, "sqlite:///")
    requires !IsPostgresUrl(p) && !IsPrefix("mysql://", p)
    ensures DbPath(p, urlparse) == p
  {
    ReplaceAbsent(p, "sqlite:///", "");
  }

  /** The port of a server URL is the one it names, else the scheme's
      default. */
  lemma DefaultPorts(cs: string, urlparse: string -> UrlParts)
    requires urlparse(cs).port.None?
    ensures IsPostgresUrl(cs) ==> ParseConnectionString(cs, urlparse).port == 5432
    ensures !IsPostgresUrl(cs) && IsPrefix("mysql://", cs) ==> ParseConnectionString(cs, urlparse).port == 3306
  {
  }

  // ---------------------------------------------------------------------
  // Retries
  // ---------------------------------------------------------------------

  function Pow2(n: nat): (p: nat)
    ensures p >= 1
  {
    if n == 0 then 1 else 2 * Pow2(n - 1)
  }

  /** The sleeps between `n + 1` failed attempts: `(2 ** k) * 0.1` seconds
      after attempt `k`. */
  function Backoff(n: nat): (w: seq<real>)
    ensures |w| == n && forall k :: 0 <= k < n ==> w[k] == Pow2(k) as real * 0.1
  {
    if n == 0 then [] else Backoff(n - 1) + [Pow2(n - 1) as real * 0.1]
  }

  /** The sleeps add up to `0.1 * (2^n - 1)` seconds. */
  lemma {:induction false} BackoffTotal(n: nat)
    ensures Stats.Sum(Backoff(n)) == (Pow2(n) - 1) as real * 0.1
  {
    if n > 0 {
      BackoffTotal(n - 1);
      Stats.SumAppend(Backoff(n - 1), [Pow2(n - 1) as real * 0.1]);
      assert Stats.Sum([Pow2(n - 1) as real * 0.1]) == Pow2(n - 1) as real * 0.1;
    }
  }

  /** How a call ends: with a value, with the last attempt's exception, or
      with the `TypeError` of `raise None` when no attempt was made. */
  datatype Outcome<R, E> = Returned(value: R) | Raised(error: E) | RaisedNone

  datatype QueryStats = QueryStats(totalQueries: nat, failedQueries: nat)

  /** `execute_with_retry`: attempt `k` answers `attempt(k)`. */
  method ExecuteWithRetry<R, E>(stats: QueryStats, maxRetries: int, attempt: nat -> Result<R, E>)
    returns (outcome: Outcome<R, E>, stats': QueryStats, attempts: nat, failures: nat, waits: seq<real>)
    ensures outcome.RaisedNone? <==> maxRetries <= 0
    ensures outcome.Returned? <==> exists k :: 0 <= k < maxRetries && attempt(k).Ok?
    ensures outcome.Returned? ==> 1 <= attempts <= maxRetries && failures == attempts - 1
    ensures outcome.Returned? ==> attempt(attempts - 1) == Ok(outcome.value)
    ensures outcome.Raised? ==> attempts == failures == maxRetries
    ensures outcome.Raised? ==> attempt(maxRetries - 1) == Err(outcome.error)
    ensures outcome.RaisedNone? ==> attempts == 0
    ensures forall k :: 0 <= k < failures ==> attempt(k).Err?
    ensures waits == Backoff(if outcome.Raised? then failures - 1 else failures)
    ensures stats' == QueryStats(stats.totalQueries + attempts, stats.failedQueries + failures)
  {
    attempts, failures, waits := 0, 0, [];
    stats' := stats;
    var last: Option<E> := None;
    while attempts < maxRetries
      invariant attempts == failures && attempts <= (if maxRetries > 0 then maxRetries else 0)
      invariant forall k :: 0 <= k < attempts ==> attempt(k).Err?
      invariant last.None? <==> attempts == 0
      invariant last.Some? ==> attempt(attempts - 1) == Err(last.value)
      invariant waits == Backoff(if attempts > 0 && attempts == maxRetries then attempts - 1 else attempts)
      invariant stats' == QueryStats(stats.totalQueries + attempts, stats.failedQueries + failures)
    {
      var k := attempts;
      attempts := attempts + 1;
      stats' := stats'.(totalQueries := stats'.totalQueries + 1);
      match attempt(k)
      case Ok(r) =>
        outcome := Returned(r);
        return;
      case Err(e) =>
        last := Some(e);
        failures := failures + 1;
        stats' := stats'.(failedQueries := stats'.failedQueries + 1);
        if k < maxRetries - 1 {
          waits := waits + [Pow2(k) as real * 0.1];
        }
    }
    if last.Some? {
      outcome := Raised(last.value);
    } else {
      outcome := RaisedNone;
    }
  }

  /** With the default three attempts, a query that always fails costs 0.3
      seconds of sleeping before the error surfaces. */
  method DefaultRetriesSleep<R, E>(attempt: nat -> Result<R, E>) returns (total: real)
    requires forall k :: attempt(k).Err?
    ensures total == 0.3
  {
    var outcome, stats', attempts, failures, waits := ExecuteWithRetry(QueryStats(0, 0), 3, attempt);
    assert attempt(0).Err? && attempt(1).Err? && attempt(2).Err?;
    assert outcome.Raised?;
    BackoffTotal(2);
    total := Stats.Sum(waits);
  }

  // ---------------------------------------------------------------------
  // Fetch helpers
  // ---------------------------------------------------------------------

  /** What a query returns: rows for a SELECT on a pooled database, a row count
      otherwise, or a value that is not a list. `NoValue` covers a SELECT on an
      unrecognised pooled type, and also every query on SQLite, where the retry
      loop hands back the parent's `sqlite3.Cursor` rather than a list. */
  datatype QueryValue<Row> = Rows(rows: seq<Row>) | RowCount(count: int) | NoValue

  /** `fetch_one_with_retry` on the value the retry loop returned. */
  function FetchOne<Row>(v: QueryValue<Row>): (r: Option<Row>)
    ensures r.Some? <==> v.Rows? && |v.rows| > 0
    ensures r.Some? ==> r.value == v.rows[0]
  {
    if v.Rows? && |v.rows| > 0 then Some(v.rows[0]) else None
  }

  /** `fetch_all_with_retry` on the value the retry loop returned. */
  function FetchAll<Row>(v: QueryValue<Row>): (r: seq<Row>)
    ensures v.Rows? ==> r == v.rows
    ensures !v.Rows? ==> r == []
  {
    if v.Rows? then v.rows else []
  }

  /** On SQLite the fetch helpers see a cursor, not a list, so they answer
      None and the empty list whatever the table holds. */
  lemma SqliteFetchesNothing<Row>(v: QueryValue<Row>)
    requires v == NoValue
    ensures FetchOne(v) == None && FetchAll(v) == []
  {
  }

  /** The single-row fetch is the first row of the all-rows fetch. */
  lemma FetchOneIsFirst<Row>(v: QueryValue<Row>)
    ensures FetchOne(v).None? <==> FetchAll(v) == []
    ensures FetchOne(v).Some? ==> FetchOne(v).value == FetchAll(v)[0]
  {
  }

  // ---------------------------------------------------------------------
  // Backups
  // ---------------------------------------------------------------------

  /** A UTC time as `strftime('%Y%m%d_%H%M%S')` sees it. */
  datatype DateTime = DateTime(year: nat, month: nat, day: nat, hour: nat, minute: nat, second: nat)
  {
    ghost predicate Valid() {
      1000 <= year <= 9999 && 1 <= month <= 12 && 1 <= day <= 31
      && hour < 24 && minute < 60 && second < 60
    }
  }

  function Pow10(w: nat): (p: nat)
    ensures p >= 1
  {
    if w == 0 then 1 else 10 * Pow10(w - 1)
  }

  /** `n` written with exactly `w` decimal digits, zero-padded. */
  function Digits(n: nat, w: nat): (s: string)
    ensures |s| == w && forall i :: 0 <= i < w ==> IsDigit(s[i])
  {
    if w == 0 then "" else Digits(n / 10, w - 1) + [DigitChar(n % 10)]
  }

  lemma {:induction false} DigitsRoundTrip(n: nat, w: nat)
    requires n < Pow10(w)
    ensures ParseNat(Digits(n, w)) == n
  {
    if w > 0 {
      DigitsRoundTrip(n / 10, w - 1);
      var s := Digits(n, w);
      assert s[..w - 1] == Digits(n / 10, w - 1);
    }
  }

  /** The `%Y%m%d_%H%M%S` stamp. */
  function Stamp(t: DateTime): (s: string)
    ensures |s| == 15 && s[8] == '_'
  {
    Digits(t.year, 4) + Digits(t.month, 2) + Digits(t.day, 2) + "_"
    + Digits(t.hour, 2) + Digits(t.minute, 2) + Digits(t.second, 2)
  }

  predicate AllDigits(s: string) {
    forall i :: 0 <= i < |s| ==> IsDigit(s[i])
  }

  /** Reads a stamp back; `None` for text of any other shape. */
  function ParseStamp(s: string): (t: Option<DateTime>)
    ensures t.Some? ==> |s| == 15 && s[8] == '_'
  {
    if |s| == 15 && s[8] == '_' && AllDigits(s[..8]) && AllDigits(s[9..]) then
      Some(DateTime(ParseNat(s[..4]), ParseNat(s[4..6]), ParseNat(s[6..8]),
                    ParseNat(s[9..11]), ParseNat(s[11..13]), ParseNat(s[13..])))
    else None
  }

  lemma StampRoundTrip(t: DateTime)
    requires t.Valid()
    ensures ParseStamp(Stamp(t)) == Some(t)
  {
    var s := Stamp(t);
    assert s[..4] == Digits(t.year, 4);
    assert s[4..6] == Digits(t.month, 2);
    assert s[6..8] == Digits(t.day, 2);
    assert s[9..11] == Digits(t.hour, 2);
    assert s[11..13] == Digits(t.minute, 2);
    assert s[13..] == Digits(t.second, 2);
    assert AllDigits(s[..8]) by {
      assert s[..8] == Digits(t.year, 4) + Digits(t.month, 2) + Digits(t.day, 2);
    }
    assert AllDigits(s[9..]) by {
      assert s[9..] == Digits(t.hour, 2) + Digits(t.minute, 2) + Digits(t.second, 2);
    }
    DigitsRoundTrip(t.year, 4);
    DigitsRoundTrip(t.month, 2);
    DigitsRoundTrip(t.day, 2);
    DigitsRoundTrip(t.hour, 2);
    DigitsRoundTrip(t.minute, 2);
    DigitsRoundTrip(t.second, 2);
  }

  /** `create_backup`'s id: the type, an underscore and the stamp. */
  function BackupId(backupType: string, now: DateTime): (id: string)
    ensures IsPrefix(backupType + "_", id) && |id| == |backupType| + 16
  {
    backupType + "_" + Stamp(now)
  }

  /** The creation time can be read off the last fifteen characters of an
      id. */
  lemma BackupIdTime(backupType: string, now: DateTime)
    requires now.Valid()
    ensures var id := BackupId(backupType, now); ParseStamp(id[|id| - 15..]) == Some(now)
  {
    var id := BackupId(backupType, now);
    assert id[|id| - 15..] == Stamp(now);
    StampRoundTrip(now);
  }

  /** The file the dump is written to: `.sql` for the server databases,
      `.db` for an SQLite copy. */
  function BackupFileName(id: string, kind: DbType): (f: string)
    ensures IsBackupFile(f)
  {
    var ext := if kind == Sqlite then ".db" else ".sql";
    assert IsSuffix(ext, id + ext);
    id + ext
  }

  predicate IsBackupFile(filename: string) {
    IsSuffix(".sql", filename) || IsSuffix(".db", filename)
  }

  /** One directory entry as `os.stat` reports it. */
  datatype FileStat = FileStat(filename: string, size: nat, created: real)

  datatype Backup = Backup(backupId: string, filename: string, size: nat, created: real)

  function Entry(f: FileStat): Backup {
    Backup(BeforeLast(f.filename, '.'), f.filename, f.size, f.created)
  }

  function Created(b: Backup): real {
    b.created
  }

  function Entries(files: seq<FileStat>): (r: seq<Backup>)
    ensures |r| == |files| && forall i :: 0 <= i < |files| ==> r[i] == Entry(files[i])
  {
    seq(|files|, i requires 0 <= i < |files| => Entry(files[i]))
  }

  function IsBackupStat(f: FileStat): bool {
    IsBackupFile(f.filename)
  }

  /** `list_backups`: the `.sql` and `.db` files, newest first. */
  function ListBackups(files: seq<FileStat>): (r: seq<Backup>)
    ensures Sorting.SortedDesc(r, Created)
    ensures |r| == Collections.Count(files, IsBackupStat)
    ensures forall i :: 0 <= i < |r| ==> IsBackupFile(r[i].filename)
    ensures forall i :: 0 <= i < |r| ==> r[i].backupId == BeforeLast(r[i].filename, '.')
    ensures forall f :: f in files && IsBackupFile(f.filename) ==> Entry(f) in r
  {
    var kept := Collections.Filter(files, IsBackupStat);
    var r := Sorting.SortDesc(Entries(kept), Created);
    ListedEntries(files, kept, r);
    r
  }

  /** Any arrangement of the entries of the backup files lists exactly the
      backup files, each under its name without the last extension. */
  lemma ListedEntries(files: seq<FileStat>, kept: seq<FileStat>, r: seq<Backup>)
    requires kept == Collections.Filter(files, IsBackupStat)
    requires multiset(r) == multiset(Entries(kept))
    ensures forall i :: 0 <= i < |r| ==> IsBackupFile(r[i].filename)
    ensures forall i :: 0 <= i < |r| ==> r[i].backupId == BeforeLast(r[i].filename, '.')
    ensures forall f :: f in files && IsBackupFile(f.filename) ==> Entry(f) in r
  {
    var entries := Entries(kept);
    forall i | 0 <= i < |r|
      ensures IsBackupFile(r[i].filename) && r[i].backupId == BeforeLast(r[i].filename, '.')
    {
      assert r[i] in multiset(entries);
      var j :| 0 <= j < |entries| && entries[j] == r[i];
      assert IsBackupStat(kept[j]);
    }
    forall f | f in files && IsBackupFile(f.filename)
      ensures Entry(f) in r
    {
      assert IsBackupStat(f);
      var j :| 0 <= j < |kept| && kept[j] == f;
      assert entries[j] == Entry(f);
      assert Entry(f) in multiset(r);
    }
  }

  /** A file written by a backup lists under the id it was created with. */
  lemma {:induction false} ListedIdOfBackup(id: string, kind: DbType)
    ensures BeforeLast(BackupFileName(id, kind), '.') == id
  {
    var ext := if kind == Sqlite then "db" else "sql";
    assert BackupFileName(id, kind) == id + "." + ext;
    BeforeLastAppend(id, ext);
  }

  /** Stripping the last extension of `id.ext` gives `id` when the
      extension has no dot. */
  lemma {:induction false} BeforeLastAppend(id: string, ext: string)
    requires forall i :: 0 <= i < |ext| ==> ext[i] != '.'
    ensures BeforeLast(id + "." + ext, '.') == id
    decreases |ext|
  {
    var s := id + "." + ext;
    if |ext| == 0 {
      assert s[..|s| - 1] == id;
    } else {
      assert s[|s| - 1] == ext[|ext| - 1];
      assert s[|id|] == '.';
      assert s[..|s| - 1] == id + "." + ext[..|ext| - 1];
      BeforeLastAppend(id, ext[..|ext| - 1]);
    }
  }

  /** Python's `xs[k:]`, negative `k` counting from the end. */
  function SliceFrom<T>(xs: seq<T>, k: int): (r: seq<T>)
    ensures k >= 0 ==> r == xs[Min(k, |xs|)..]
    ensures k < 0 ==> r == xs[Max(|xs| + k, 0)..]
  {
    if k >= 0 then xs[Min(k, |xs|)..] else xs[Max(|xs| + k, 0)..]
  }

  /** `cleanup_old_backups`: the listed backups it deletes. */
  function BackupsToDelete(listed: seq<Backup>, maxBackups: int): (r: seq<Backup>)
    ensures |r| <= |listed| && r == listed[|listed| - |r|..]
    ensures maxBackups >= 0 ==> |r| == Max(|listed| - maxBackups, 0)
    ensures maxBackups < 0 ==> |r| == Min(-maxBackups, |listed|)
  {
    if |listed| > maxBackups then SliceFrom(listed, maxBackups) else []
  }

  /** With a non-negative limit, cleanup keeps the `maxBackups` newest
      backups and deletes only backups no newer than every kept one. */
  lemma CleanupKeepsNewest(files: seq<FileStat>, maxBackups: nat)
    ensures var listed := ListBackups(files);
            var gone := BackupsToDelete(listed, maxBackups);
            listed == listed[..|listed| - |gone|] + gone
            && |listed| - |gone| == Min(maxBackups, |listed|)
    ensures var listed := ListBackups(files);
            var gone := BackupsToDelete(listed, maxBackups);
            forall i, j :: 0 <= i < |listed| - |gone| <= j < |listed| ==> listed[i].created >= listed[j].created
  {
    SortedCleanup(ListBackups(files), maxBackups);
  }

  /** The same for any newest-first listing. */
  lemma SortedCleanup(listed: seq<Backup>, maxBackups: nat)
    requires Sorting.SortedDesc(listed, Created)
    ensures var gone := BackupsToDelete(listed, maxBackups);
            listed == listed[..|listed| - |gone|] + gone
            && |listed| - |gone| == Min(maxBackups, |listed|)
    ensures var gone := BackupsToDelete(listed, maxBackups);
            forall i, j :: 0 <= i < |listed| - |gone| <= j < |listed| ==> listed[i].created >= listed[j].created
  {
    var gone := BackupsToDelete(listed, maxBackups);
    var k := |listed| - |gone|;
    assert listed == listed[..k] + listed[k..];
    forall i, j | 0 <= i < k <= j < |listed|
      ensures listed[i].created >= listed[j].created
    {
      assert Created(listed[i]) >= Created(listed[j]);
    }
  }
}
