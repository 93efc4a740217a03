/** The manager: run_http.go and gc.go. `others` is whatever the other actors do between two
    statements. */
module ManagerSide {
  import opened Rows
  import opened Statements
  import opened System
  import opened Collector
  import opened SharedStore
  import DirectoryClimb

  // ---- run_http.go ----

  datatype RunRequest = RunRequest(artifact: Option<ArtifactId>, os: string, display: string, qtVersion: string)

  predicate WellFormed(req: RunRequest) {
    && req.artifact != None && req.os in {"manjaro", "ubuntu"} && req.display in {"wayland", "x11"}
    && req.qtVersion == "5.15"
  }

  datatype Reply = Created(run: RunId) | Ok | BadRequest | Forbidden | NotFound | Conflict | Internal

  /** The client's own artifact, neither deleted nor used. */
  predicate Offered(db: Db, a: ArtifactId, client: ClientId) {
    && a in db.artifacts && db.artifacts[a].client == client
    && db.artifacts[a].deletedAt == None && db.artifacts[a].consumedAt == None
  }

  /** The run, its job with three attempts, and the artifact used. */
  function AfterPost(db: Db, r: RunId, client: ClientId, a: ArtifactId, ttl: int): Db
    requires a in db.artifacts
  {
    db.(runs := db.runs[r := Run(client, a, RunPending, None, None, None, None, db.now + ttl, None, None)],
        jobs := db.jobs[r := Job(JobQueued, 0, 3, None, None, db.now, db.now)],
        artifacts := db.artifacts[a := Artifact(db.artifacts[a].client, Some(db.now), db.artifacts[a].deletedAt)])
  }

  class RunsAPI {
    const store: Store

    constructor (store: Store)
      ensures this.store == store
    {
      this.store := store;
    }

    /** POST /runs. The check of the artifact comes before the transaction. An insert under an
        id that is taken violates the primary key. A commit whose answer is lost has taken effect
        all the same. */
    method CreateRun(req: RunRequest, client: ClientId, newRun: RunId, ttl: int,
                     checkFails: bool, others: Db -> Db, tx: Outcome)
      returns (reply: Reply)
      modifies store
      ensures reply == BadRequest <==> !(req.artifact != None && req.os in {"manjaro", "ubuntu"}
                                         && req.display in {"wayland", "x11"} && req.qtVersion == "5.15")
      ensures reply == NotFound <==>
                WellFormed(req) && !checkFails && !Offered(old(store.View()), req.artifact.value, client)
      ensures reply in {BadRequest, NotFound} ==> store.View() == old(store.View())
      ensures WellFormed(req) && checkFails ==> reply == Internal && store.View() == old(store.View())
      ensures reply !in {BadRequest, NotFound} && !checkFails ==>
                var db, a := others(old(store.View())), req.artifact.value;
                if a in db.artifacts && newRun !in db.runs && newRun !in db.jobs && tx != Aborts
                then
                  && store.View() == AfterPost(db, newRun, client, a, ttl)
                  && reply == if tx == Commits then Created(newRun) else Internal
                else reply == Internal && store.View() == db
    {
      if req.artifact == None || (req.os != "manjaro" && req.os != "ubuntu")
         || (req.display != "wayland" && req.display != "x11") || req.qtVersion != "5.15" {
        return BadRequest;
      }
      if checkFails {
        return Internal;
      }
      var a := req.artifact.value;
      if !(a in store.artifacts && store.artifacts[a].client == client
           && store.artifacts[a].deletedAt == None && store.artifacts[a].consumedAt == None) {
        return NotFound;
      }
      store.Yield(others);
      if a !in store.artifacts || newRun in store.runs || newRun in store.jobs || tx == Aborts {
        return Internal;
      }
      var deleteAfter := store.now + ttl;
      store.runs := store.runs[newRun := Run(client, a, RunPending, None, None, None, None, deleteAfter, None, None)];
      store.jobs := store.jobs[newRun := Job(JobQueued, 0, 3, None, None, store.now, store.now)];
      store.artifacts := store.artifacts[a := store.artifacts[a].(consumedAt := Some(store.now))];
      if tx == CommitsUnheard {
        return Internal;
      }
      return Created(newRun);
    }

    /** The row that the query of GET /runs/{id}/log finds. */
    predicate Found(db: Db, r: RunId) {
      r in db.runs && db.runs[r].deletedAt == None
    }

    /** The client's own finished run with a log recorded: os.Open is tried. */
    predicate Tried(db: Db, r: RunId, client: ClientId) {
      LogListed(db, r) && db.runs[r].client == client
    }

    /** GET /runs/{id}/log. The row is read first; `opening` is what happens before its log is
        opened, and `sending` before all of it has been sent, if it is (`complete`). Only then is
        the run's life cut short. `readFails` when os.Open or Stat fail for another reason than a
        missing file. */
    method GetRunLog(r: RunId, client: ClientId, ttl: int, queryFails: bool, readFails: bool,
                     opening: Db -> Db, sending: Db -> Db, complete: bool, delivered: bool)
      returns (reply: Reply)
      modifies store
      ensures var db := old(store.View());
              && (reply == Ok <==>
                    && !queryFails && !readFails && Tried(db, r, client)
                    && db.runs[r].logPath.value in opening(db).files)
              && (reply == Internal <==> queryFails || (readFails && Tried(db, r, client)))
              && (reply == Forbidden <==> !queryFails && Found(db, r) && db.runs[r].client != client)
              && (reply == Conflict <==> !queryFails && Found(db, r) && db.runs[r].client == client
                                         && !Terminal(db.runs[r].status))
      ensures reply in {Ok, Conflict, Forbidden, NotFound, Internal}
      ensures var db := old(store.View());
              store.View() == if queryFails || !Tried(db, r, client) then db
                              else if reply != Ok then opening(db)
                              else
                                var sent := sending(opening(db));
                                if complete && delivered then Receive(sent, r, ttl) else sent
    {
      if queryFails {
        return Internal;
      }
      if r !in store.runs || store.runs[r].deletedAt != None {
        return NotFound;
      }
      var run := store.runs[r];
      if run.client != client {
        return Forbidden;
      }
      if run.status != RunPassed && run.status != RunFailed && run.status != RunTimeout && run.status != RunError {
        return Conflict;
      }
      if run.logPath == None {
        return NotFound;
      }
      store.Yield(opening);
      if readFails {
        return Internal;
      }
      if run.logPath.value !in store.files {
        return NotFound;
      }
      store.Yield(sending);
      if complete {
        MarkLogAsReceived(r, ttl, delivered);
      }
      return Ok;
    }

    /** A first receipt is recorded and a later one leaves it alone; each sets the run's end to one
        TTL from now. Nothing else changes, and nothing at all if the UPDATE is lost. */
    method MarkLogAsReceived(r: RunId, ttl: int, delivered: bool)
      modifies store
      ensures store.View().(runs := old(store.runs)) == old(store.View())
      ensures if delivered then store.runs - {r} == old(store.runs) - {r} else store.runs == old(store.runs)
      ensures r in store.runs <==> r in old(store.runs)
      ensures delivered && r in old(store.runs) ==>
                var run, run' := old(store.runs)[r], store.runs[r];
                && run'.deleteAfter == store.now + ttl
                && run'.receivedAt == (if run.receivedAt != None then run.receivedAt else Some(store.now))
                && run'.(deleteAfter := run.deleteAfter, receivedAt := run.receivedAt) == run
      ensures store.View() == if delivered then Receive(old(store.View()), r, ttl) else old(store.View())
    {
      if delivered && r in store.runs {
        var run := store.runs[r];
        store.runs := store.runs[r := run.(
                                   receivedAt := if run.receivedAt == None then Some(store.now) else run.receivedAt,
                                   deleteAfter := store.now + ttl)];
      }
    }
  }

  // ---- gc.go ----

  /** An unordered SELECT with LIMIT 100. */
  method SelectBatch(found: set<nat>) returns (batch: set<nat>)
    ensures Batch(found, batch)
  {
    ghost var some := BatchExists(found);
    batch :| batch <= found && Batch(found, batch);
  }

  lemma OneMoreDone(done: set<nat>, uncounted: set<nat>, r: nat)
    requires r !in done
    ensures |done + {r} - uncounted| == |done - uncounted| + if r in uncounted then 0 else 1
  {
    assert done + {r} - uncounted == done - uncounted + if r in uncounted then {} else {r};
  }

  lemma SomeLeft(done: set<nat>, batch: set<nat>) returns (r: nat)
    requires done <= batch && done != batch
    ensures r in batch && r !in done && |done| < |batch|
  {
    r :| r in batch && r !in done;
    assert batch == done + (batch - done) && r in batch - done;
  }

  lemma DoneCounted(done: set<nat>, batch: set<nat>, read: nat, readable: nat)
    requires done <= batch && |done| == read <= readable && (done == batch || read >= readable)
    ensures |done| == if readable < |batch| then readable else |batch|
  {
    assert batch == done + (batch - done);
  }

  // ---- The directories a sweep leaves ----

  /** os.Remove of a file that can be removed or is missing, and the climb from its directory. */
  function Cleared(tree: DirectoryClimb.Tree, denied: set<DirectoryClimb.Path>, absolute: bool, p: DirectoryClimb.Path)
      : DirectoryClimb.Tree
  {
    if p == [] then tree
    else DirectoryClimb.Climbed(tree - {p}, denied, absolute, DirectoryClimb.Parent(p))
  }

  /** At most a hundred runs past their time and not deleted; and all of them, if fewer than that. */
  predicate OverdueBatch(db: Db, batch: set<RunId>) {
    && |batch| <= 100
    && (forall r | r in batch :: r in db.runs && db.runs[r].deletedAt == None && db.runs[r].deleteAfter < db.now)
    && (|batch| < 100 ==>
          forall r | r in db.runs && r !in batch :: db.runs[r].deletedAt != None || db.now <= db.runs[r].deleteAfter)
  }

  /** Consumed over an hour ago and not deleted. */
  predicate UsedUp(artifact: Artifact, now: Time) {
    && artifact.consumedAt != None && artifact.consumedAt.value + 3600 * 1_000_000_000 < now
    && artifact.deletedAt == None
  }

  predicate UsedBatch(db: Db, batch: set<ArtifactId>) {
    && |batch| <= 100
    && (forall a | a in batch :: a in db.artifacts && UsedUp(db.artifacts[a], db.now))
    && (|batch| < 100 ==> forall a | a in db.artifacts && a !in batch :: !UsedUp(db.artifacts[a], db.now))
  }

  lemma BatchIsOverdue(db: Db, batch: set<RunId>)
    requires Batch(OverdueRuns(db), batch)
    ensures OverdueBatch(db, batch)
  {
    if |batch| < 100 {
      SubsetOfSameSize(batch, OverdueRuns(db));
    }
  }

  lemma BatchIsUsed(db: Db, batch: set<ArtifactId>)
    requires Batch(SpentArtifacts(db), batch)
    ensures UsedBatch(db, batch)
  {
    if |batch| < 100 {
      SubsetOfSameSize(batch, SpentArtifacts(db));
    }
  }

  class GarbageCollector {
    const store: Store
    const disk: DirectoryClimb.FileSystem
    const pathOf: File -> DirectoryClimb.Path
    const absolute: bool

    constructor (store: Store, disk: DirectoryClimb.FileSystem, pathOf: File -> DirectoryClimb.Path, absolute: bool)
      ensures this.store == store && this.disk == disk && this.pathOf == pathOf && this.absolute == absolute
    {
      this.store, this.disk, this.pathOf, this.absolute := store, disk, pathOf, absolute;
    }

    /** What a file's removal does to the directories. */
    function Without(tree: DirectoryClimb.Tree, denied: set<DirectoryClimb.Path>, file: Option<File>, kept: set<File>)
        : DirectoryClimb.Tree
    {
      if file != None && file.value !in kept then Cleared(tree, denied, absolute, pathOf(file.value)) else tree
    }

    /** The directories after a sweep over these files; disks(i) is what the others do to them before
        the i-th file is removed. */
    function DiskInTurn(tree: DirectoryClimb.Tree, denied: set<DirectoryClimb.Path>, files: seq<Option<File>>,
                        kept: set<File>, disks: nat -> DirectoryClimb.Tree -> DirectoryClimb.Tree)
        : DirectoryClimb.Tree
    {
      if files == [] then tree
      else
        var i := |files| - 1;
        Without(disks(i)(DiskInTurn(tree, denied, files[..i], kept, disks)), denied, files[i], kept)
    }

    function Logs(rows: seq<LogRow>): seq<Option<File>> {
      seq(|rows|, i requires 0 <= i < |rows| => rows[i].log)
    }

    function Tarballs(rows: seq<ArtifactId>): seq<Option<File>> {
      seq(|rows|, i requires 0 <= i < |rows| => Some(Tarball(rows[i])))
    }

    lemma {:induction false} FileAppended(
        tree: DirectoryClimb.Tree, denied: set<DirectoryClimb.Path>, files: seq<Option<File>>, file: Option<File>,
        kept: set<File>, disks: nat -> DirectoryClimb.Tree -> DirectoryClimb.Tree)
      ensures DiskInTurn(tree, denied, files + [file], kept, disks) ==
              Without(disks(|files|)(DiskInTurn(tree, denied, files, kept, disks)), denied, file, kept)
    {
      assert (files + [file])[..|files|] == files;
    }

    lemma {:induction false} LogAppended(
        tree: DirectoryClimb.Tree, denied: set<DirectoryClimb.Path>, rows: seq<LogRow>, row: LogRow, kept: set<File>,
        disks: nat -> DirectoryClimb.Tree -> DirectoryClimb.Tree)
      ensures DiskInTurn(tree, denied, Logs(rows + [row]), kept, disks) ==
              Without(disks(|rows|)(DiskInTurn(tree, denied, Logs(rows), kept, disks)), denied, row.log, kept)
    {
      assert Logs(rows + [row]) == Logs(rows) + [row.log];
      FileAppended(tree, denied, Logs(rows), row.log, kept, disks);
    }

    lemma {:induction false} TarballAppended(
        tree: DirectoryClimb.Tree, denied: set<DirectoryClimb.Path>, rows: seq<ArtifactId>, a: ArtifactId,
        kept: set<File>, disks: nat -> DirectoryClimb.Tree -> DirectoryClimb.Tree)
      ensures DiskInTurn(tree, denied, Tarballs(rows + [a]), kept, disks) ==
              Without(disks(|rows|)(DiskInTurn(tree, denied, Tarballs(rows), kept, disks)), denied,
                      Some(Tarball(a)), kept)
    {
      assert Tarballs(rows + [a]) == Tarballs(rows) + [Some(Tarball(a))];
      FileAppended(tree, denied, Tarballs(rows), Some(Tarball(a)), kept, disks);
    }

    /** None of these files is a directory. */
    ghost predicate FilesAt(tree: DirectoryClimb.Tree, files: seq<Option<File>>) {
      forall file | file in files && file != None ::
        && pathOf(file.value) != []
        && (pathOf(file.value) in tree ==> tree[pathOf(file.value)] == DirectoryClimb.Kind.File)
    }

    lemma WithoutKeepsTree(tree: DirectoryClimb.Tree, denied: set<DirectoryClimb.Path>, file: Option<File>,
                           kept: set<File>)
      requires DirectoryClimb.TreeOk(tree) && FilesAt(tree, [file])
      ensures DirectoryClimb.TreeOk(Without(tree, denied, file, kept))
      ensures Without(tree, denied, file, kept).Items <= tree.Items
    {
      assert file in [file];
      if file != None && file.value !in kept {
        var p := pathOf(file.value);
        DirectoryClimb.ClimbKeepsTree(tree - {p}, denied, absolute, DirectoryClimb.Parent(p));
      }
    }

    /** If the others keep every entry in a directory and no swept path becomes one, so does the
        sweep, climbs included. */
    lemma {:induction false} SweepKeepsTree(
        tree: DirectoryClimb.Tree, denied: set<DirectoryClimb.Path>, files: seq<Option<File>>, all: seq<Option<File>>,
        kept: set<File>, disks: nat -> DirectoryClimb.Tree -> DirectoryClimb.Tree)
      requires DirectoryClimb.TreeOk(tree) && FilesAt(tree, all) && files <= all
      requires forall i: nat, t: DirectoryClimb.Tree | DirectoryClimb.TreeOk(t) && FilesAt(t, all) ::
                 DirectoryClimb.TreeOk(disks(i)(t)) && FilesAt(disks(i)(t), all)
      ensures DirectoryClimb.TreeOk(DiskInTurn(tree, denied, files, kept, disks))
      ensures FilesAt(DiskInTurn(tree, denied, files, kept, disks), all)
      decreases |files|
    {
      if files != [] {
        var i := |files| - 1;
        SweepKeepsTree(tree, denied, files[..i], all, kept, disks);
        var before := disks(i)(DiskInTurn(tree, denied, files[..i], kept, disks));
        assert files[i] in all;
        WithoutKeepsTree(before, denied, files[i], kept);
        SmallerKeepsFiles(before, Without(before, denied, files[i], kept), all);
      }
    }

    lemma SmallerKeepsFiles(tree: DirectoryClimb.Tree, left: DirectoryClimb.Tree, files: seq<Option<File>>)
      requires FilesAt(tree, files) && left.Items <= tree.Items
      ensures FilesAt(left, files)
    {
      forall p | p in left
        ensures p in tree && tree[p] == left[p]
      {
        assert (p, left[p]) in left.Items;
      }
    }

    /** `kept` are files os.Remove fails on, `denied` directories. The result set breaks off after
        `readable` rows at the latest. `lost` are the runs whose UPDATE fails, `unheard` those
        whose UPDATE is reported to have failed and has not. The batch is whatever the unordered
        LIMIT returned, and `rows` what was read of it, in that order. */
    method CleanupExpiredRuns(
        queryFails: bool, readable: nat, kept: set<File>, denied: set<DirectoryClimb.Path>, lost: set<RunId>,
        unheard: set<RunId>, others: nat -> Db -> Db, disks: nat -> DirectoryClimb.Tree -> DirectoryClimb.Tree)
      returns (deletedCount: nat, batch: set<RunId>, done: set<RunId>, rows: seq<LogRow>)
      modifies store, disk
      ensures if queryFails then batch == {} else Batch(OverdueRuns(old(store.View())), batch)
      ensures queryFails || OverdueBatch(old(store.View()), batch)
      ensures done <= batch <= old(store.runs).Keys && |done| == if readable < |batch| then readable else |batch|
      ensures RowsOf(old(store.View()), done, rows)
      ensures store.View() == RunsInTurn(old(store.View()), rows, kept, lost, others)
      ensures disk.tree == DiskInTurn(old(disk.tree), denied, Logs(rows), kept, disks)
      ensures deletedCount == |done - (lost + unheard)|
    {
      ghost var before := store.View();
      rows, batch, done, deletedCount := [], {}, {}, 0;
      if queryFails {
        return;
      }
      batch := SelectBatch(OverdueRuns(store.View()));
      BatchIsOverdue(before, batch);
      var found := LogRowsOf(store.View(), batch);
      while done != batch && |rows| < readable
        invariant done <= batch <= before.runs.Keys && |rows| <= readable && RowsOf(before, done, rows)
        invariant store.View() == RunsInTurn(before, rows, kept, lost, others)
        invariant disk.tree == DiskInTurn(old(disk.tree), denied, Logs(rows), kept, disks)
        invariant deletedCount == |done - (lost + unheard)|
        decreases |batch| - |rows|
      {
        ghost var r0 := SomeLeft(done, batch);
        var r :| r in batch && r !in done;
        var row, n := LogRow(r, found[r]), |rows|;
        OneMoreDone(done, lost + unheard, r);
        RowsGrow(before, done, rows, r);
        RunAppended(before, rows, row, kept, lost, others);
        LogAppended(old(disk.tree), denied, rows, row, kept, disks);
        SweepRun(row, n, kept, denied, lost, others, disks(n));
        if r !in lost && r !in unheard {
          deletedCount := deletedCount + 1;
        }
        rows := rows + [row];
        done := done + {r};
      }
      DoneCounted(done, batch, |rows|, readable);
    }

    /** The body of the loop: the log file first, with the directories it leaves empty, then the row. */
    method SweepRun(row: LogRow, i: nat, kept: set<File>, denied: set<DirectoryClimb.Path>, lost: set<RunId>,
                    others: nat -> Db -> Db, disks: DirectoryClimb.Tree -> DirectoryClimb.Tree)
      modifies store, disk
      ensures store.View() == RunTurn(old(store.View()), row, i, kept, lost, others)
      ensures disk.tree == Without(disks(old(disk.tree)), denied, row.log, kept)
    {
      store.Yield(others(2 * i));
      disk.tree := disks(disk.tree);
      RemoveWithParents(row.log, kept, denied);
      store.Yield(others(2 * i + 1));
      if row.run !in lost && row.run in store.runs {
        store.runs := store.runs[row.run := store.runs[row.run].(deletedAt := Some(store.now), logPath := None)];
      }
    }

    /** Removes a file, missing or not, and then the directories it leaves empty. */
    method RemoveWithParents(file: Option<File>, kept: set<File>, denied: set<DirectoryClimb.Path>)
      modifies store, disk
      ensures store.View() == FileRemoved(old(store.View()), file, kept)
      ensures disk.tree == Without(old(disk.tree), denied, file, kept)
    {
      if file != None && file.value !in kept {
        store.files := store.files - {file.value};
        var p := pathOf(file.value);
        if p != [] {
          disk.tree := disk.tree - {p};
          disk.RemoveEmptyParentDirs(DirectoryClimb.Parent(p), absolute, denied);
        }
      }
    }

    method CleanupConsumedArtifacts(
        queryFails: bool, readable: nat, kept: set<File>, denied: set<DirectoryClimb.Path>, lost: set<ArtifactId>,
        unheard: set<ArtifactId>, others: nat -> Db -> Db, disks: nat -> DirectoryClimb.Tree -> DirectoryClimb.Tree)
      returns (deletedCount: nat, batch: set<ArtifactId>, done: set<ArtifactId>, rows: seq<ArtifactId>)
      modifies store, disk
      ensures if queryFails then batch == {} else Batch(SpentArtifacts(old(store.View())), batch)
      ensures queryFails || UsedBatch(old(store.View()), batch)
      ensures done <= batch && |done| == if readable < |batch| then readable else |batch|
      ensures Enumerates(done, rows)
      ensures store.View() == ArtifactsInTurn(old(store.View()), rows, kept, lost, others)
      ensures disk.tree == DiskInTurn(old(disk.tree), denied, Tarballs(rows), kept, disks)
      ensures deletedCount == |done - (lost + unheard)|
    {
      ghost var before := store.View();
      rows, batch, done, deletedCount := [], {}, {}, 0;
      if queryFails {
        return;
      }
      batch := SelectBatch(SpentArtifacts(store.View()));
      BatchIsUsed(before, batch);
      while done != batch && |rows| < readable
        invariant done <= batch && |rows| <= readable && Enumerates(done, rows)
        invariant store.View() == ArtifactsInTurn(before, rows, kept, lost, others)
        invariant disk.tree == DiskInTurn(old(disk.tree), denied, Tarballs(rows), kept, disks)
        invariant deletedCount == |done - (lost + unheard)|
        decreases |batch| - |rows|
      {
        ghost var a0 := SomeLeft(done, batch);
        var a :| a in batch && a !in done;
        OneMoreDone(done, lost + unheard, a);
        EnumerationGrows(done, rows, a);
        var n := |rows|;
        ArtifactAppended(before, rows, a, kept, lost, others);
        TarballAppended(old(disk.tree), denied, rows, a, kept, disks);
        SweepArtifact(a, n, kept, denied, lost, others, disks(n));
        if a !in lost && a !in unheard {
          deletedCount := deletedCount + 1;
        }
        rows := rows + [a];
        done := done + {a};
      }
      DoneCounted(done, batch, |rows|, readable);
    }

    method SweepArtifact(a: ArtifactId, i: nat, kept: set<File>, denied: set<DirectoryClimb.Path>,
                         lost: set<ArtifactId>, others: nat -> Db -> Db,
                         disks: DirectoryClimb.Tree -> DirectoryClimb.Tree)
      modifies store, disk
      ensures store.View() == ArtifactTurn(old(store.View()), a, i, kept, lost, others)
      ensures disk.tree == Without(disks(old(disk.tree)), denied, Some(Tarball(a)), kept)
    {
      store.Yield(others(2 * i));
      disk.tree := disks(disk.tree);
      RemoveWithParents(Some(Tarball(a)), kept, denied);
      store.Yield(others(2 * i + 1));
      if a !in lost && a in store.artifacts {
        store.artifacts := store.artifacts[a := store.artifacts[a].(deletedAt := Some(store.now))];
      }
    }

    /** The DELETE may fail, and may fail to say that it has not. */
    method CleanupOldJobs(outcome: Outcome) returns (affected: nat)
      modifies store
      ensures store.View().(jobs := old(store.jobs)) == old(store.View())
      ensures forall r | r in old(store.jobs) ::
                r !in store.jobs <==> outcome != Aborts && old(store.jobs)[r].status in {JobDone, JobFailed}
                                      && old(store.jobs)[r].updatedAt + 24 * 3600 * 1_000_000_000 < store.now
      ensures forall r | r in store.jobs :: r in old(store.jobs) && store.jobs[r] == old(store.jobs)[r]
      ensures store.View() == if outcome == Aborts then old(store.View()) else SweepJobs(old(store.View()))
      ensures affected == if outcome == Commits then |old(store.jobs)| - |store.jobs| else 0
    {
      affected := 0;
      if outcome == Aborts {
        return;
      }
      var stale := set r | r in store.jobs && Stale(store.jobs[r], store.now);
      OldJobsCounted(store.View(), stale);
      store.jobs := store.jobs - stale;
      if outcome == Commits {
        affected := |stale|;
      }
    }
  }

  // ---- The methods against the system ----

  /** A committed POST is the system's, and its check is the one that Serialised asks for. */
  lemma PostRefined(s: State, q: nat, r: RunId, ttl: int)
    requires Enabled(s, CommitRun(q, r, ttl))
    ensures Next(s, CommitRun(q, r, ttl)).db == AfterPost(s.db, r, s.requests[q].client, s.requests[q].artifact, ttl)
    ensures ArtifactUsable(s.db, s.requests[q].artifact, s.requests[q].client) <==>
              Offered(s.db, s.requests[q].artifact, s.requests[q].client)
  {
  }

  /** A download is the system's transfer: it starts on the row that the query finds, goes on if the
      file is there when it is opened, and can be recorded only then. */
  lemma DownloadRefined(s: State, d: nat, r: RunId, ttl: int)
    ensures Enabled(s, StartDownload(d, r)) <==>
              && d !in s.downloads && r in s.db.runs && s.db.runs[r].deletedAt == None && s.db.runs[r].logPath != None
              && s.db.runs[r].status in {RunPassed, RunFailed, RunTimeout, RunError}
    ensures Enabled(s, StartDownload(d, r)) ==>
              Next(s, StartDownload(d, r)).downloads == s.downloads[d := Transfer(r, s.db.runs[r].logPath.value, false)]
    ensures Enabled(s, OpenLog(d)) <==> d in s.downloads && s.downloads[d].path in s.db.files
    ensures Enabled(s, OpenLog(d)) ==> Next(s, OpenLog(d)).downloads[d] == s.downloads[d].(reading := true)
    ensures Enabled(s, EndDownload(d, ttl, true)) <==> d in s.downloads && s.downloads[d].reading
    ensures Enabled(s, EndDownload(d, ttl, true)) ==>
              && d !in Next(s, EndDownload(d, ttl, true)).downloads
              && Next(s, EndDownload(d, ttl, true)).db == Receive(s.db, s.downloads[d].run, ttl)
  {
  }

  lemma {:induction false} RunAppended(
      db: Db, rows: seq<LogRow>, row: LogRow, kept: set<File>, lost: set<RunId>, others: nat -> Db -> Db)
    ensures RunsInTurn(db, rows + [row], kept, lost, others) ==
            RunTurn(RunsInTurn(db, rows, kept, lost, others), row, |rows|, kept, lost, others)
  {
    assert (rows + [row])[..|rows|] == rows;
  }

  lemma {:induction false} ArtifactAppended(
      db: Db, rows: seq<ArtifactId>, a: ArtifactId, kept: set<File>, lost: set<ArtifactId>, others: nat -> Db -> Db)
    ensures ArtifactsInTurn(db, rows + [a], kept, lost, others) ==
            ArtifactTurn(ArtifactsInTurn(db, rows, kept, lost, others), a, |rows|, kept, lost, others)
  {
    assert (rows + [a])[..|rows|] == rows;
  }

  /** What the loop does to one row, with the others moving the database between the file and the
      mark, is the system's two events with the same in between. */
  lemma RunRowRefined(s: State, r: RunId, log: Option<File>, ok: bool, between: Db -> Db, mid: State, delivered: bool)
    requires Enabled(s, UnlinkLog(r, log, ok)) && Enabled(mid, EraseRunRow(r, delivered))
    requires mid.db == between(Next(s, UnlinkLog(r, log, ok)).db)
    ensures Next(mid, EraseRunRow(r, delivered)).db ==
            RunSwept(s.db, r, log, if ok || log == None then {} else {log.value}, delivered, between)
  {
  }

  lemma ArtifactRowRefined(s: State, a: ArtifactId, ok: bool, between: Db -> Db, mid: State, delivered: bool)
    requires Enabled(s, UnlinkTarball(a, ok)) && Enabled(mid, EraseArtifactRow(a, delivered))
    requires mid.db == between(Next(s, UnlinkTarball(a, ok)).db)
    ensures Next(mid, EraseArtifactRow(a, delivered)).db ==
            ArtifactSwept(s.db, a, if ok then {} else {Tarball(a)}, delivered, between)
  {
  }
}
