/** The rows of the `jobs`, `runs` and `artifacts` tables and what each UPDATE does to one row.
    Times and durations are nanoseconds, as in Go's time.Duration. */
module Rows {

  datatype Option<+T> = None | Some(value: T)

  type Time = int
  const SECOND: int := 1_000_000_000
  const HOUR: int := 3600 * SECOND
  const DAY: int := 24 * HOUR

  // Attempts a newly created job may make, and the LIMIT of the two sweeping queries
  const MAX_ATTEMPTS: nat := 3
  const BATCH: nat := 100

  type RunId = nat
  type ArtifactId = nat
  type ClientId = nat

  /** The two kinds of file the tables point to. Both paths embed the row's id:
      runs/<run>/artifacts/run.log and tmp/artifacts/<artifact>/app.tar.gz. */
  datatype File = RunLog(run: RunId) | Tarball(artifact: ArtifactId)

  datatype JobStatus = JobQueued | JobRunning | JobDone | JobFailed

  datatype Job = Job(
    status: JobStatus,
    attempts: nat,
    maxAttempts: nat,
    leaseUntil: Option<Time>,
    leasedBy: Option<nat>,
    availableAt: Time,
    updatedAt: Time)

  datatype RunStatus = RunPending | RunRunning | RunPassed | RunFailed | RunTimeout | RunError

  datatype Run = Run(
    client: ClientId,
    artifact: ArtifactId,
    status: RunStatus,
    exitCode: Option<int>,
    startedAt: Option<Time>,
    finishedAt: Option<Time>,
    receivedAt: Option<Time>,
    deleteAfter: Time,
    logPath: Option<File>,
    deletedAt: Option<Time>)

  datatype Artifact = Artifact(client: ClientId, consumedAt: Option<Time>, deletedAt: Option<Time>)

  predicate Terminal(status: RunStatus) {
    status in {RunPassed, RunFailed, RunTimeout, RunError}
  }

  // ---- What a worker learns from the container ----

  /** How the container ended, once the runner itself did not fail. */
  datatype Verdict = TimedOut | Exited(code: int)

  function VerdictStatus(v: Verdict): RunStatus {
    match v
    case TimedOut => RunTimeout
    case Exited(code) => if code == 0 then RunPassed else RunFailed
  }

  /** Go's int32(x) conversion. */
  function ToInt32(x: int): int {
    (x + 0x8000_0000) % 0x1_0000_0000 - 0x8000_0000
  }

  function ExitColumn(v: Verdict): Option<int> {
    match v
    case TimedOut => None
    case Exited(code) => if code >= 0 then Some(ToInt32(code)) else None
  }

  // ---- Rows as they are inserted ----

  function NewJob(now: Time): Job {
    Job(JobQueued, 0, MAX_ATTEMPTS, None, None, now, now)
  }

  function NewRun(client: ClientId, artifact: ArtifactId, now: Time, ttl: int): Run {
    Run(client, artifact, RunPending, None, None, None, None, now + ttl, None, None)
  }

  // ---- Jobs ----

  /** The row test of the claim query; a lease of NULL never blocks. */
  predicate Eligible(job: Job, now: Time) {
    && job.status == JobQueued
    && job.availableAt <= now
    && (job.leaseUntil == None || job.leaseUntil.value < now)
  }

  function Claimed(job: Job, lease: Time, worker: nat, now: Time): Job {
    job.(status := JobRunning, leaseUntil := Some(lease), leasedBy := Some(worker),
         attempts := job.attempts + 1, updatedAt := now)
  }

  /** The backoff of a retry, from the attempts read before the claim incremented them. */
  function RetryDelay(snapshot: nat): int {
    snapshot * 30 * SECOND
  }

  function Retried(job: Job, snapshot: nat, now: Time): Job {
    job.(status := JobQueued, leaseUntil := None, leasedBy := None,
         availableAt := now + RetryDelay(snapshot), updatedAt := now)
  }

  function GivenUp(job: Job, now: Time): Job {
    job.(status := JobFailed, updatedAt := now)
  }

  function Completed(job: Job, now: Time): Job {
    job.(status := JobDone, updatedAt := now)
  }

  predicate Expired(job: Job, now: Time) {
    && job.status == JobRunning
    && job.leaseUntil != None && job.leaseUntil.value < now
    && job.attempts < job.maxAttempts
  }

  function Released(job: Job, now: Time): Job {
    job.(status := JobQueued, leaseUntil := None, leasedBy := None, updatedAt := now)
  }

  predicate Stale(job: Job, now: Time) {
    job.status in {JobDone, JobFailed} && job.updatedAt < now - DAY
  }

  // ---- Runs ----

  function Started(run: Run, now: Time): Run {
    run.(status := RunRunning, startedAt := Some(now))
  }

  function Requeued(run: Run): Run {
    run.(status := RunPending)
  }

  function Errored(run: Run, now: Time): Run {
    run.(status := RunError, finishedAt := Some(now))
  }

  function Finished(run: Run, v: Verdict, log: Option<File>, now: Time): Run {
    run.(status := VerdictStatus(v), exitCode := ExitColumn(v), finishedAt := Some(now), logPath := log)
  }

  function Reset(run: Run): Run {
    run.(status := RunPending, startedAt := None)
  }

  function Received(run: Run, ttl: int, now: Time): Run {
    run.(receivedAt := if run.receivedAt == None then Some(now) else run.receivedAt,
         deleteAfter := now + ttl)
  }

  predicate Overdue(run: Run, now: Time) {
    run.deleteAfter < now && run.deletedAt == None
  }

  function Erased(run: Run, now: Time): Run {
    run.(deletedAt := Some(now), logPath := None)
  }

  // ---- Artifacts ----

  predicate Usable(artifact: Artifact, client: ClientId) {
    artifact.client == client && artifact.deletedAt == None && artifact.consumedAt == None
  }

  predicate Spent(artifact: Artifact, now: Time) {
    artifact.consumedAt != None && artifact.consumedAt.value < now - HOUR && artifact.deletedAt == None
  }
}
