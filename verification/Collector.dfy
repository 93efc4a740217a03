/** The garbage collector's sweeps as transformations of the database, and how fast they converge. */
module Collector {
  import opened Rows
  import opened Statements

  /** Rows read by a query: the log path of each run as it was then. */
  type LogRows = map<RunId, Option<File>>

  function LogRowsOf(db: Db, batch: set<RunId>): LogRows
    requires batch <= db.runs.Keys
  {
    map r | r in batch :: db.runs[r].logPath
  }

  predicate Named(rows: LogRows, f: File) {
    exists r :: r in rows && rows[r] == Some(f)
  }

  /** The database after the rows have been worked off: `kept` are files that cannot be removed,
      `lost` the runs whose UPDATE failed. */
  function RunsSwept(db: Db, rows: LogRows, kept: set<File>, lost: set<RunId>): Db {
    db.(runs := map r | r in db.runs :: if r in rows && r !in lost then Erased(db.runs[r], db.now) else db.runs[r],
        files := set f | f in db.files && (f in kept || !Named(rows, f)))
  }

  function ArtifactsSwept(db: Db, batch: set<ArtifactId>, kept: set<File>, lost: set<ArtifactId>): Db {
    db.(artifacts := map a | a in db.artifacts ::
                       if a in batch && a !in lost
                       then db.artifacts[a].(deletedAt := Some(db.now))
                       else db.artifacts[a],
        files := set f | f in db.files && (f in kept || !(f.Tarball? && f.artifact in batch)))
  }

  // ---- Row by row, with the other actors in between ----

  const QUIET: Db -> Db := (db: Db) => db

  function FileRemoved(db: Db, file: Option<File>, kept: set<File>): Db {
    if file != None && file.value !in kept then db.(files := db.files - {file.value}) else db
  }

  /** One row of a sweep: its file, whatever the others do then, and its mark. */
  function RunSwept(db: Db, r: RunId, log: Option<File>, kept: set<File>, marked: bool, between: Db -> Db): Db {
    var db' := between(FileRemoved(db, log, kept));
    if marked && r in db'.runs
    then db'.(runs := db'.runs[r := db'.runs[r].(deletedAt := Some(db'.now), logPath := None)])
    else db'
  }

  function ArtifactSwept(db: Db, a: ArtifactId, kept: set<File>, marked: bool, between: Db -> Db): Db {
    var db' := between(FileRemoved(db, Some(Tarball(a)), kept));
    if marked && a in db'.artifacts
    then db'.(artifacts := db'.artifacts[a := db'.artifacts[a].(deletedAt := Some(db'.now))])
    else db'
  }

  datatype LogRow = LogRow(run: RunId, log: Option<File>)

  /** The i-th row meets others(2i) before its file is removed and others(2i+1) before its mark. */
  function RunTurn(db: Db, row: LogRow, i: nat, kept: set<File>, lost: set<RunId>, others: nat -> Db -> Db): Db {
    RunSwept(others(2 * i)(db), row.run, row.log, kept, row.run !in lost, others(2 * i + 1))
  }

  function RunsInTurn(db: Db, rows: seq<LogRow>, kept: set<File>, lost: set<RunId>, others: nat -> Db -> Db): Db {
    if rows == [] then db
    else
      var i := |rows| - 1;
      RunTurn(RunsInTurn(db, rows[..i], kept, lost, others), rows[i], i, kept, lost, others)
  }

  function ArtifactTurn(db: Db, a: ArtifactId, i: nat, kept: set<File>, lost: set<ArtifactId>,
                        others: nat -> Db -> Db): Db {
    ArtifactSwept(others(2 * i)(db), a, kept, a !in lost, others(2 * i + 1))
  }

  function ArtifactsInTurn(db: Db, rows: seq<ArtifactId>, kept: set<File>, lost: set<ArtifactId>,
                           others: nat -> Db -> Db): Db {
    if rows == [] then db
    else
      var i := |rows| - 1;
      ArtifactTurn(ArtifactsInTurn(db, rows[..i], kept, lost, others), rows[i], i, kept, lost, others)
  }

  /** The rows are those of the batch as the query read them, each once, in some order. */
  predicate RowsOf(db: Db, batch: set<RunId>, rows: seq<LogRow>)
    requires batch <= db.runs.Keys
  {
    && (forall i, j | 0 <= i < j < |rows| :: rows[i].run != rows[j].run)
    && (forall i | 0 <= i < |rows| :: rows[i].run in batch && rows[i].log == db.runs[rows[i].run].logPath)
    && |rows| == |batch|
  }

  predicate Enumerates(batch: set<ArtifactId>, rows: seq<ArtifactId>) {
    && (forall i, j | 0 <= i < j < |rows| :: rows[i] != rows[j])
    && (forall i | 0 <= i < |rows| :: rows[i] in batch)
    && |rows| == |batch|
  }

  lemma NamedOneMore(done: LogRows, r: RunId, log: Option<File>, f: File)
    requires r !in done
    ensures Named(done[r := log], f) <==> Named(done, f) || log == Some(f)
  {
    if Named(done, f) {
      var q :| q in done && done[q] == Some(f);
      assert done[r := log][q] == Some(f);
    } else if log == Some(f) {
      assert done[r := log][r] == Some(f);
    }
  }

  lemma OneMoreLog(db: Db, done: LogRows, r: RunId, log: Option<File>, kept: set<File>, lost: set<RunId>)
    requires r !in done
    ensures FileRemoved(RunsSwept(db, done, kept, lost), log, kept).files ==
            RunsSwept(db, done[r := log], kept, lost).files
  {
    forall f: File
      ensures Named(done[r := log], f) <==> Named(done, f) || log == Some(f)
    {
      NamedOneMore(done, r, log, f);
    }
  }

  lemma OneMoreRun(db: Db, done: LogRows, r: RunId, log: Option<File>, kept: set<File>, lost: set<RunId>)
    requires r !in done
    ensures RunSwept(RunsSwept(db, done, kept, lost), r, log, kept, r !in lost, QUIET) ==
            RunsSwept(db, done[r := log], kept, lost)
  {
    var one := RunSwept(RunsSwept(db, done, kept, lost), r, log, kept, r !in lost, QUIET);
    OneMoreLog(db, done, r, log, kept, lost);
    assert one.runs == RunsSwept(db, done[r := log], kept, lost).runs;
  }

  lemma OneMoreArtifact(db: Db, done: set<ArtifactId>, a: ArtifactId, kept: set<File>, lost: set<ArtifactId>)
    requires a !in done
    ensures ArtifactSwept(ArtifactsSwept(db, done, kept, lost), a, kept, a !in lost, QUIET) ==
            ArtifactsSwept(db, done + {a}, kept, lost)
  {
  }

  lemma RowsGrow(db: Db, done: set<RunId>, rows: seq<LogRow>, r: RunId)
    requires done <= db.runs.Keys && r in db.runs && r !in done && RowsOf(db, done, rows)
    ensures RowsOf(db, done + {r}, rows + [LogRow(r, db.runs[r].logPath)])
  {
  }

  lemma EnumerationGrows(done: set<ArtifactId>, rows: seq<ArtifactId>, a: ArtifactId)
    requires a !in done && Enumerates(done, rows)
    ensures Enumerates(done + {a}, rows + [a])
  {
  }

  function Runs(rows: seq<LogRow>): set<RunId> {
    set i | 0 <= i < |rows| :: rows[i].run
  }

  function Elements(rows: seq<ArtifactId>): set<ArtifactId> {
    set i | 0 <= i < |rows| :: rows[i]
  }

  lemma {:induction false} ElementsCounted(rows: seq<nat>)
    requires forall i, j | 0 <= i < j < |rows| :: rows[i] != rows[j]
    ensures |Elements(rows)| == |rows|
    decreases |rows|
  {
    if rows != [] {
      var init := rows[..|rows| - 1];
      ElementsCounted(init);
      assert Elements(rows) == Elements(init) + {rows[|init|]};
    }
  }

  lemma {:induction false} RunsCounted(rows: seq<LogRow>)
    requires forall i, j | 0 <= i < j < |rows| :: rows[i].run != rows[j].run
    ensures |Runs(rows)| == |rows|
    decreases |rows|
  {
    if rows != [] {
      var init := rows[..|rows| - 1];
      RunsCounted(init);
      assert Runs(rows) == Runs(init) + {rows[|init|].run};
    }
  }

  lemma {:induction false} SubsetOfSameSize(a: set<nat>, b: set<nat>)
    requires a <= b && |a| == |b|
    ensures a == b
    decreases |b|
  {
    if k :| k in a {
      SubsetOfSameSize(a - {k}, b - {k});
      assert a == a - {k} + {k} && b == b - {k} + {k};
    }
  }

  lemma RowsAreBatch(db: Db, batch: set<RunId>, rows: seq<LogRow>)
    requires batch <= db.runs.Keys && RowsOf(db, batch, rows)
    ensures Runs(rows) == batch
  {
    RunsCounted(rows);
    SubsetOfSameSize(Runs(rows), batch);
  }

  lemma {:induction false} RunsInTurnQuietly(
      db: Db, rows: seq<LogRow>, kept: set<File>, lost: set<RunId>, others: nat -> Db -> Db)
    requires forall i: nat :: others(i) == QUIET
    requires Runs(rows) <= db.runs.Keys
    requires forall i, j | 0 <= i < j < |rows| :: rows[i].run != rows[j].run
    requires forall i | 0 <= i < |rows| :: rows[i].log == db.runs[rows[i].run].logPath
    ensures RunsInTurn(db, rows, kept, lost, others) == RunsSwept(db, LogRowsOf(db, Runs(rows)), kept, lost)
    decreases |rows|
  {
    if rows == [] {
      assert LogRowsOf(db, Runs(rows)) == map[];
    } else {
      var i := |rows| - 1;
      var init := rows[..i];
      assert Runs(rows) == Runs(init) + {rows[i].run};
      RunsInTurnQuietly(db, init, kept, lost, others);
      OneMoreRun(db, LogRowsOf(db, Runs(init)), rows[i].run, rows[i].log, kept, lost);
      assert LogRowsOf(db, Runs(init))[rows[i].run := rows[i].log] == LogRowsOf(db, Runs(rows));
    }
  }

  /** A sweep that nobody disturbs takes its batch as a whole, in whatever order. */
  lemma QuietSweep(db: Db, batch: set<RunId>, rows: seq<LogRow>, kept: set<File>, lost: set<RunId>,
                   others: nat -> Db -> Db)
    requires batch <= db.runs.Keys && RowsOf(db, batch, rows) && forall i: nat :: others(i) == QUIET
    ensures RunsInTurn(db, rows, kept, lost, others) == RunsSwept(db, LogRowsOf(db, batch), kept, lost)
  {
    RowsAreBatch(db, batch, rows);
    RunsInTurnQuietly(db, rows, kept, lost, others);
  }

  lemma {:induction false} ArtifactsInTurnQuietly(
      db: Db, rows: seq<ArtifactId>, kept: set<File>, lost: set<ArtifactId>, others: nat -> Db -> Db)
    requires forall i: nat :: others(i) == QUIET
    requires forall i, j | 0 <= i < j < |rows| :: rows[i] != rows[j]
    ensures ArtifactsInTurn(db, rows, kept, lost, others) == ArtifactsSwept(db, Elements(rows), kept, lost)
    decreases |rows|
  {
    if rows == [] {
      assert Elements(rows) == {};
    } else {
      var i := |rows| - 1;
      assert Elements(rows) == Elements(rows[..i]) + {rows[i]};
      ArtifactsInTurnQuietly(db, rows[..i], kept, lost, others);
      OneMoreArtifact(db, Elements(rows[..i]), rows[i], kept, lost);
    }
  }

  lemma QuietArtifactSweep(db: Db, batch: set<ArtifactId>, rows: seq<ArtifactId>, kept: set<File>,
                           lost: set<ArtifactId>, others: nat -> Db -> Db)
    requires Enumerates(batch, rows) && forall i: nat :: others(i) == QUIET
    ensures ArtifactsInTurn(db, rows, kept, lost, others) == ArtifactsSwept(db, batch, kept, lost)
  {
    ElementsCounted(rows);
    SubsetOfSameSize(Elements(rows), batch);
    ArtifactsInTurnQuietly(db, rows, kept, lost, others);
  }

  lemma RestCounted(jobs: map<RunId, Job>, keys: set<RunId>)
    requires keys <= jobs.Keys
    ensures |jobs - keys| == |jobs| - |keys|
  {
    assert (jobs - keys).Keys == jobs.Keys - keys;
    assert |jobs - keys| == |(jobs - keys).Keys| && |jobs| == |jobs.Keys|;
  }

  lemma OldJobsCounted(db: Db, stale: set<RunId>)
    requires stale == set r | r in db.jobs && Stale(db.jobs[r], db.now)
    ensures SweepJobs(db).jobs == db.jobs - stale && |db.jobs - stale| == |db.jobs| - |stale|
  {
    RestCounted(db.jobs, stale);
  }

  // ---- LIMIT ----

  lemma {:induction false} SubsetOfSize(found: set<nat>, n: nat) returns (batch: set<nat>)
    requires n <= |found|
    ensures batch <= found && |batch| == n
    decreases n
  {
    if n == 0 {
      batch := {};
    } else {
      var k :| k in found;
      var rest := SubsetOfSize(found - {k}, n - 1);
      batch := rest + {k};
    }
  }

  lemma BatchExists(found: set<nat>) returns (batch: set<nat>)
    ensures Batch(found, batch)
  {
    batch := SubsetOfSize(found, if |found| < BATCH then |found| else BATCH);
  }

  // ---- Convergence ----

  /** One pass of cleanupExpiredRuns without database errors. */
  ghost predicate Pass(db: Db, db': Db, kept: set<File>) {
    exists batch :: Batch(OverdueRuns(db), batch) && db' == RunsSwept(db, LogRowsOf(db, batch), kept, {})
  }

  function Shortfall(n: nat, done: nat): nat { if n > done then n - done else 0 }

  /** Whichever rows the LIMIT picks, a pass takes min(100, n) of the n overdue runs off the list
      and leaves every other run exactly as it was. */
  lemma PassTakesBatch(db: Db, db': Db, kept: set<File>)
    requires Pass(db, db', kept)
    ensures OverdueRuns(db') <= OverdueRuns(db)
    ensures |OverdueRuns(db')| == Shortfall(|OverdueRuns(db)|, BATCH)
    ensures db'.runs.Keys == db.runs.Keys && db'.now == db.now
    ensures forall r | r in db.runs && r !in OverdueRuns(db) - OverdueRuns(db') :: db'.runs[r] == db.runs[r]
  {
    var batch :| Batch(OverdueRuns(db), batch) && db' == RunsSwept(db, LogRowsOf(db, batch), kept, {});
    assert OverdueRuns(db') == OverdueRuns(db) - batch;
  }

  /** k passes take off min(100·k, n) of the n overdue runs. */
  lemma {:induction false} PassesConverge(dbs: seq<Db>, kept: set<File>)
    requires dbs != [] && forall i | 0 < i < |dbs| :: Pass(dbs[i - 1], dbs[i], kept)
    ensures |OverdueRuns(dbs[|dbs| - 1])| == Shortfall(|OverdueRuns(dbs[0])|, BATCH * (|dbs| - 1))
    decreases |dbs|
  {
    if |dbs| > 1 {
      var init := dbs[..|dbs| - 1];
      PassesConverge(init, kept);
      PassTakesBatch(init[|init| - 1], dbs[|dbs| - 1], kept);
    }
  }

  /** n overdue runs are gone after n/100 passes, rounded up. */
  lemma PassesFinish(dbs: seq<Db>, kept: set<File>)
    requires dbs != [] && forall i | 0 < i < |dbs| :: Pass(dbs[i - 1], dbs[i], kept)
    requires |dbs| - 1 >= (|OverdueRuns(dbs[0])| + BATCH - 1) / BATCH
    ensures OverdueRuns(dbs[|dbs| - 1]) == {}
  {
    PassesConverge(dbs, kept);
  }
}
