/** The database and the disk, and one function for each SQL statement or transaction that
    the manager and the agent commit. `UPDATE ... WHERE id = x` leaves the table alone when
    no such row exists. The jobs table is keyed by its UNIQUE column run_id. */
module Statements {
  import opened Rows

  datatype Db = Db(
    now: Time,
    jobs: map<RunId, Job>,
    runs: map<RunId, Run>,
    artifacts: map<ArtifactId, Artifact>,
    files: set<File>)

  // ---- The agent ----

  /** The claim query: joined rows exist and the job is eligible. */
  predicate Claimable(db: Db, r: RunId) {
    && r in db.jobs && Eligible(db.jobs[r], db.now)
    && r in db.runs && db.runs[r].artifact in db.artifacts
  }

  /** ORDER BY available_at LIMIT 1. */
  predicate NextJob(db: Db, r: RunId) {
    && Claimable(db, r)
    && forall k | k in db.jobs && Claimable(db, k) :: db.jobs[r].availableAt <= db.jobs[k].availableAt
  }

  function Claim(db: Db, r: RunId, lease: Time, worker: nat): Db
    requires Claimable(db, r)
  {
    db.(jobs := db.jobs[r := Claimed(db.jobs[r], lease, worker, db.now)],
        runs := db.runs[r := Started(db.runs[r], db.now)])
  }

  function Retry(db: Db, r: RunId, snapshot: nat): Db {
    if r in db.jobs then db.(jobs := db.jobs[r := Retried(db.jobs[r], snapshot, db.now)]) else db
  }

  function Requeue(db: Db, r: RunId): Db {
    if r in db.runs then db.(runs := db.runs[r := Requeued(db.runs[r])]) else db
  }

  function GiveUp(db: Db, r: RunId): Db {
    if r in db.jobs then db.(jobs := db.jobs[r := GivenUp(db.jobs[r], db.now)]) else db
  }

  function Fault(db: Db, r: RunId): Db {
    if r in db.runs then db.(runs := db.runs[r := Errored(db.runs[r], db.now)]) else db
  }

  function Complete(db: Db, r: RunId): Db {
    if r in db.jobs then db.(jobs := db.jobs[r := Completed(db.jobs[r], db.now)]) else db
  }

  function Finish(db: Db, r: RunId, v: Verdict, log: Option<File>): Db {
    if r in db.runs then db.(runs := db.runs[r := Finished(db.runs[r], v, log, db.now)]) else db
  }

  /** The two statements of failJob, chosen by the attempts snapshot. */
  function FailJobFirst(db: Db, r: RunId, snapshot: nat, maxAttempts: nat): Db {
    if snapshot < maxAttempts then Retry(db, r, snapshot) else GiveUp(db, r)
  }

  function FailJobSecond(db: Db, r: RunId, snapshot: nat, maxAttempts: nat): Db {
    if snapshot < maxAttempts then Requeue(db, r) else Fault(db, r)
  }

  /** The two statements of the lease cleaner. */
  function ReleaseLeases(db: Db): Db {
    db.(jobs := map r | r in db.jobs ::
                  if Expired(db.jobs[r], db.now) then Released(db.jobs[r], db.now) else db.jobs[r])
  }

  predicate HalfReleased(db: Db, r: RunId) {
    r in db.jobs && db.jobs[r].status == JobQueued && r in db.runs && db.runs[r].status == RunRunning
  }

  function ResetReleased(db: Db): Db {
    db.(runs := map r | r in db.runs :: if HalfReleased(db, r) then Reset(db.runs[r]) else db.runs[r])
  }

  // ---- The manager ----

  predicate ArtifactUsable(db: Db, a: ArtifactId, client: ClientId) {
    a in db.artifacts && Usable(db.artifacts[a], client)
  }

  /** One transaction: the run, its job, and consumed_at of the artifact. */
  function CreateRun(db: Db, r: RunId, client: ClientId, a: ArtifactId, ttl: int): Db
    requires a in db.artifacts
  {
    db.(runs := db.runs[r := NewRun(client, a, db.now, ttl)],
        jobs := db.jobs[r := NewJob(db.now)],
        artifacts := db.artifacts[a := db.artifacts[a].(consumedAt := Some(db.now))])
  }

  function Receive(db: Db, r: RunId, ttl: int): Db {
    if r in db.runs then db.(runs := db.runs[r := Received(db.runs[r], ttl, db.now)]) else db
  }

  /** The test of handleGetRunLog: an undeleted, finished run with a log recorded; and the log can
      be opened. */
  predicate LogListed(db: Db, r: RunId) {
    && r in db.runs && db.runs[r].deletedAt == None && Terminal(db.runs[r].status)
    && db.runs[r].logPath != None
  }

  predicate LogServed(db: Db, r: RunId) {
    LogListed(db, r) && db.runs[r].logPath.value in db.files
  }

  // ---- The garbage collector ----

  function OverdueRuns(db: Db): set<RunId> {
    set r | r in db.runs && Overdue(db.runs[r], db.now)
  }

  function SpentArtifacts(db: Db): set<ArtifactId> {
    set a | a in db.artifacts && Spent(db.artifacts[a], db.now)
  }

  /** What an unordered SELECT with LIMIT 100 may return. */
  predicate Batch(found: set<nat>, batch: set<nat>) {
    batch <= found && |batch| == if |found| < BATCH then |found| else BATCH
  }

  function EraseRun(db: Db, r: RunId): Db {
    if r in db.runs then db.(runs := db.runs[r := Erased(db.runs[r], db.now)]) else db
  }

  function EraseArtifact(db: Db, a: ArtifactId): Db {
    if a in db.artifacts
    then db.(artifacts := db.artifacts[a := db.artifacts[a].(deletedAt := Some(db.now))])
    else db
  }

  function SweepJobs(db: Db): Db {
    db.(jobs := map r | r in db.jobs && !Stale(db.jobs[r], db.now) :: db.jobs[r])
  }
}
