/** The agent: docker.go, worker.go and agent.go. `during`, `stat` and `between` are arbitrary
    functions of the database, so each contract holds for whatever the other actors commit at
    that point. */
module AgentSide {
  import opened Rows
  import opened Statements
  import opened Budget
  import opened Overtaking
  import opened System
  import opened SharedStore
  import opened History

  // ---- docker.go ----

  /** How ContainerWait comes back: with an exit status, or with an error. */
  datatype Wake = Exit(after: nat, code: int) | WaitError(after: nat)

  /** The Docker daemon's answers to one RunContainer. */
  datatype Docker = Docker(createFails: bool, startFails: bool, wake: Wake, stopFails: bool,
                           createTime: nat, startTime: nat, removeTime: nat, stopTime: nat)

  datatype RunResult = RunResult(exitCode: int, error: bool, timeout: bool)

  /** ContainerWait has its deadline from the context it is given. */
  predicate WaitsAtMost(d: Docker, timeoutSec: int) {
    d.wake.after <= WaitLimit(timeoutSec)
  }

  predicate AtDeadline(d: Docker, timeoutSec: int) {
    d.wake.WaitError? && d.wake.after >= WaitLimit(timeoutSec)
  }

  /** Creating and starting, then either the wait, with the stop at its deadline, or the removal of
      a container that did not start. */
  function TimeTaken(d: Docker, timeoutSec: int): nat {
    if d.createFails then d.createTime
    else if d.startFails then d.createTime + d.startTime + d.removeTime
    else d.createTime + d.startTime + d.wake.after + if AtDeadline(d, timeoutSec) then d.stopTime else 0
  }

  method RunContainer(d: Docker, timeoutSec: int) returns (result: RunResult, elapsed: nat)
    requires WaitsAtMost(d, timeoutSec)
    ensures var started := !d.createFails && !d.startFails;
            var deadline := started && d.wake.WaitError? && d.wake.after >= (timeoutSec + 10) * 1_000_000_000;
            && (!result.error && !result.timeout <==> started && d.wake.Exit?)
            && (!result.error && result.timeout <==> deadline && !d.stopFails)
            && (result.error && result.timeout <==> deadline && d.stopFails)
            && result.exitCode == (if started && d.wake.Exit? then d.wake.code else -1)
            && elapsed == d.createTime + (if d.createFails then 0
                                          else if d.startFails then d.startTime + d.removeTime
                                          else d.startTime + d.wake.after + if deadline then d.stopTime else 0)
    ensures elapsed == TimeTaken(d, timeoutSec)
  {
    elapsed := d.createTime;
    if d.createFails {
      return RunResult(-1, true, false), elapsed;
    }
    elapsed := elapsed + d.startTime;
    if d.startFails {
      elapsed := elapsed + d.removeTime;
      return RunResult(-1, true, false), elapsed;
    }
    elapsed := elapsed + d.wake.after;
    match d.wake {
      case Exit(_, code) =>
        return RunResult(code, false, false), elapsed;
      case WaitError(after) =>
        if after >= WaitLimit(timeoutSec) {
          elapsed := elapsed + d.stopTime;
          return RunResult(-1, d.stopFails, true), elapsed;
        }
        return RunResult(-1, true, false), elapsed;
    }
  }

  /** However Docker answers, the execution and its database calls end before the lease, if all
      they take beyond the wait and the stop's five seconds is within the overhead. */
  lemma ExecutionFitsLease(c: Config, d: Docker, database: nat)
    requires ValidConfig(c) && WaitsAtMost(d, TimeoutSec(c.maxTimeout))
    requires d.createTime + d.startTime + d.removeTime + d.stopTime + database <= c.overhead + STOP_GRACE
    ensures TimeTaken(d, TimeoutSec(c.maxTimeout)) + database <= Longest(c) < Lease(c)
  {
  }

  // ---- worker.go ----

  /** What executeJob meets before and while the container runs. */
  datatype Execution = Execution(manifestOk: bool, imageOk: bool, dirOk: bool, docker: Docker)

  /** The container was run to an end of its own or to its timeout. */
  predicate Concluded(x: Execution, timeoutSec: int, v: Verdict) {
    && x.manifestOk && x.imageOk && x.dirOk && !x.docker.createFails && !x.docker.startFails
    && match v
       case Exited(code) => x.docker.wake.Exit? && x.docker.wake.code == code
       case TimedOut => AtDeadline(x.docker, timeoutSec) && !x.docker.stopFails
  }

  /** The attempt ended in failJob: no verdict about the application under test. */
  predicate Inconclusive(x: Execution, timeoutSec: int) {
    || !x.manifestOk || !x.imageOk || !x.dirOk || x.docker.createFails || x.docker.startFails
    || (x.docker.wake.WaitError? && !AtDeadline(x.docker, timeoutSec))
    || (AtDeadline(x.docker, timeoutSec) && x.docker.stopFails)
  }

  // ---- What the worker writes, column by column ----

  /** A job that the claim query may return. */
  predicate Waits(db: Db, r: RunId) {
    && r in db.jobs && db.jobs[r].status == JobQueued && db.jobs[r].availableAt <= db.now
    && (db.jobs[r].leaseUntil == None || db.jobs[r].leaseUntil.value < db.now)
    && r in db.runs && db.runs[r].artifact in db.artifacts
  }

  /** And does return, if no other has waited longer. */
  predicate WaitsLongest(db: Db, r: RunId) {
    Waits(db, r) && forall k | k in db.jobs && Waits(db, k) :: db.jobs[r].availableAt <= db.jobs[k].availableAt
  }

  lemma OneWaitsLongest(db: Db, k: RunId) returns (r: RunId)
    requires Waits(db, k)
    ensures WaitsLongest(db, r)
  {
    r := SomeJobIsNext(db, k);
    forall q | q in db.jobs
      ensures Waits(db, q) <==> Claimable(db, q)
    {
    }
  }

  function AfterClaim(db: Db, r: RunId, clock: Time, maxTimeout: int, worker: nat): Db
    requires r in db.jobs && r in db.runs
  {
    var job, run := db.jobs[r], db.runs[r];
    db.(jobs := db.jobs[r := Job(JobRunning, job.attempts + 1, job.maxAttempts,
                                 Some(clock + maxTimeout + 30_000_000_000), Some(worker), job.availableAt, db.now)],
        runs := db.runs[r := Run(run.client, run.artifact, RunRunning, run.exitCode, Some(db.now), run.finishedAt,
                                 run.receivedAt, run.deleteAfter, run.logPath, run.deletedAt)])
  }

  function FailedJob(job: Job, snapshot: nat, maxAttempts: nat, now: Time): Job {
    if snapshot < maxAttempts
    then Job(JobQueued, job.attempts, job.maxAttempts, None, None, now + snapshot * 30_000_000_000, now)
    else Job(JobFailed, job.attempts, job.maxAttempts, job.leaseUntil, job.leasedBy, job.availableAt, now)
  }

  function FailedRun(run: Run, snapshot: nat, maxAttempts: nat, now: Time): Run {
    if snapshot < maxAttempts
    then Run(run.client, run.artifact, RunPending, run.exitCode, run.startedAt, run.finishedAt, run.receivedAt,
             run.deleteAfter, run.logPath, run.deletedAt)
    else Run(run.client, run.artifact, RunError, run.exitCode, run.startedAt, Some(now), run.receivedAt,
             run.deleteAfter, run.logPath, run.deletedAt)
  }

  /** The database after failJob. */
  function AfterFailJob(db: Db, r: RunId, snapshot: nat, maxAttempts: nat, p: Pair): Db {
    var one := if p.first && r in db.jobs
               then db.(jobs := db.jobs[r := FailedJob(db.jobs[r], snapshot, maxAttempts, db.now)])
               else db;
    var two := p.between(one);
    if p.second && r in two.runs
    then two.(runs := two.runs[r := FailedRun(two.runs[r], snapshot, maxAttempts, two.now)])
    else two
  }

  function DoneJob(job: Job, now: Time): Job {
    Job(JobDone, job.attempts, job.maxAttempts, job.leaseUntil, job.leasedBy, job.availableAt, now)
  }

  /** Exit codes beyond 32 bits wrap around; negative ones are not recorded. */
  function FinishedRun(run: Run, v: Verdict, log: Option<File>, now: Time): Run {
    var (status, code) :=
      match v
      case TimedOut => (RunTimeout, None)
      case Exited(code) => (if code == 0 then RunPassed else RunFailed, if code < 0 then None else Some(Wrapped(code)));
    Run(run.client, run.artifact, status, code, run.startedAt, Some(now), run.receivedAt, run.deleteAfter, log,
        run.deletedAt)
  }

  /** The database after finishRun, which has looked for the log first. */
  function AfterFinishRun(db: Db, r: RunId, v: Verdict, stat: Db -> Db, p: Pair): Db {
    var log := if RunLog(r) in db.files then Some(RunLog(r)) else None;
    var seen := stat(db);
    var one := if p.first && r in seen.jobs
               then seen.(jobs := seen.jobs[r := DoneJob(seen.jobs[r], seen.now)])
               else seen;
    var two := p.between(one);
    if p.second && r in two.runs then two.(runs := two.runs[r := FinishedRun(two.runs[r], v, log, two.now)]) else two
  }

  class Worker {
    const id: nat
    const store: Store
    const maxTimeout: int

    constructor (id: nat, store: Store, maxTimeout: int)
      ensures this.id == id && this.store == store && this.maxTimeout == maxTimeout
    {
      this.id, this.store, this.maxTimeout := id, store, maxTimeout;
    }

    /** One poll: claims the longest waiting job, if there is one, and carries it out. The
        worker's own clock sets the lease. `during` is what happens while the container runs. If
        the claim transaction fails anywhere the poll ends in an error, and so it does when only
        the answer to its commit is lost: then the job is claimed and nobody executes it. */
    method ProcessNextJob(clock: Time, tx: Outcome, x: Execution, during: Db -> Db, stat: Db -> Db, p: Pair)
      returns (error: bool, claimed: Option<RunId>)
      requires WaitsAtMost(x.docker, TimeoutSec(maxTimeout))
      modifies store
      ensures tx == Aborts ==> error
      ensures error ==> tx != Commits
      ensures claimed == None ==> store.View() == old(store.View())
      ensures claimed == None && !error ==> forall k | k in old(store.jobs) :: !Waits(old(store.View()), k)
      ensures claimed != None ==>
                var r, before := claimed.value, old(store.View());
                && tx != Aborts && error == (tx == CommitsUnheard) && WaitsLongest(before, r)
                && var job, db := before.jobs[r], AfterClaim(before, r, clock, maxTimeout, id);
                   store.View() == if error then db
                                   else if Inconclusive(x, TimeoutSec(maxTimeout))
                                   then AfterFailJob(during(db), r, job.attempts, job.maxAttempts, p)
                                   else AfterFinishRun(during(db), r, VerdictOf(x), stat, p)
    {
      error, claimed := false, None;
      if tx == Aborts {
        error := true;
        return;
      }
      if exists k :: k in store.jobs && Waits(store.View(), k) {
        ghost var k :| k in store.jobs && Waits(store.View(), k);
        ghost var q := OneWaitsLongest(store.View(), k);
        var r :| r in store.jobs && WaitsLongest(store.View(), r);
        var job := store.jobs[r];
        assert WaitsLongest(store.View(), r);
        Take(r, clock);
        claimed := Some(r);
        if tx == CommitsUnheard {
          error := true;
          return;
        }
        store.Yield(during);
        ExecuteJob(r, job.attempts, job.maxAttempts, x, stat, p);
      }
    }

    /** The two UPDATEs of the claim. */
    method Take(r: RunId, clock: Time)
      requires Waits(store.View(), r)
      modifies store
      ensures store.View() == AfterClaim(old(store.View()), r, clock, maxTimeout, id)
    {
      var job, run := store.jobs[r], store.runs[r];
      var leaseDuration := maxTimeout + 30 * SECOND;
      var leaseUntil := clock + leaseDuration;
      store.jobs := store.jobs[r := job.(status := JobRunning, leaseUntil := Some(leaseUntil), leasedBy := Some(id),
                                         attempts := job.attempts + 1, updatedAt := store.now)];
      store.runs := store.runs[r := run.(status := RunRunning, startedAt := Some(store.now))];
    }

    method ExecuteJob(r: RunId, attempts: nat, maxAttempts: nat, x: Execution, stat: Db -> Db, p: Pair)
      requires WaitsAtMost(x.docker, TimeoutSec(maxTimeout))
      modifies store
      ensures store.View() == if Inconclusive(x, TimeoutSec(maxTimeout))
                              then AfterFailJob(old(store.View()), r, attempts, maxAttempts, p)
                              else AfterFinishRun(old(store.View()), r, VerdictOf(x), stat, p)
      ensures p.second && r in store.runs ==>
                var run, started := store.runs[r], x.manifestOk && x.imageOk && x.dirOk && !x.docker.createFails
                                                   && !x.docker.startFails;
                && (run.status == RunTimeout <==>
                      started && AtDeadline(x.docker, TimeoutSec(maxTimeout)) && !x.docker.stopFails)
                && (run.status == RunPassed <==> started && x.docker.wake.Exit? && x.docker.wake.code == 0)
                && (run.status == RunFailed <==> started && x.docker.wake.Exit? && x.docker.wake.code != 0)
                && (run.status == RunTimeout ==> run.exitCode == None)
                && (run.status == RunPassed ==> run.exitCode == Some(0))
                && (run.status == RunFailed && 0 < x.docker.wake.code < 0x8000_0000 ==>
                      run.exitCode == Some(x.docker.wake.code))
                && (run.status != RunPending ==> run.finishedAt == Some(store.now))
    {
      if !x.manifestOk {
        FailJob(r, attempts, maxAttempts, p);
        return;
      }
      if !x.imageOk {
        FailJob(r, attempts, maxAttempts, p);
        return;
      }
      if !x.dirOk {
        FailJob(r, attempts, maxAttempts, p);
        return;
      }
      var result, _ := RunContainer(x.docker, TimeoutSec(maxTimeout));
      if result.error {
        FailJob(r, attempts, maxAttempts, p);
        return;
      }
      if result.timeout {
        FinishRun(r, TimedOut, stat, p);
        return;
      }
      FinishRun(r, Exited(result.exitCode), stat, p);
    }

    method FailJob(r: RunId, attempts: nat, maxAttempts: nat, p: Pair)
      modifies store
      ensures store.View() == AfterFailJob(old(store.View()), r, attempts, maxAttempts, p)
    {
      if attempts < maxAttempts {
        if p.first && r in store.jobs {
          var retryDelay := attempts * 30 * SECOND;
          store.jobs := store.jobs[r := store.jobs[r].(status := JobQueued, leaseUntil := None, leasedBy := None,
                                                       availableAt := store.now + retryDelay, updatedAt := store.now)];
        }
        store.Yield(p.between);
        if p.second && r in store.runs {
          store.runs := store.runs[r := store.runs[r].(status := RunPending)];
        }
      } else {
        if p.first && r in store.jobs {
          store.jobs := store.jobs[r := store.jobs[r].(status := JobFailed, updatedAt := store.now)];
        }
        store.Yield(p.between);
        if p.second && r in store.runs {
          store.runs := store.runs[r := store.runs[r].(status := RunError, finishedAt := Some(store.now))];
        }
      }
    }

    method FinishRun(r: RunId, v: Verdict, stat: Db -> Db, p: Pair)
      modifies store
      ensures store.View() == AfterFinishRun(old(store.View()), r, v, stat, p)
    {
      var logPath: Option<File> := None;
      if RunLog(r) in store.files {
        logPath := Some(RunLog(r));
      }
      store.Yield(stat);
      if p.first && r in store.jobs {
        store.jobs := store.jobs[r := store.jobs[r].(status := JobDone, updatedAt := store.now)];
      }
      store.Yield(p.between);
      var exitCode := ExitColumn(v);
      if v.Exited? {
        WrapsAround(v.code);
      }
      if p.second && r in store.runs {
        store.runs := store.runs[r := store.runs[r].(status := VerdictStatus(v), exitCode := exitCode,
                                                     finishedAt := Some(store.now), logPath := logPath)];
      }
    }
  }

  function VerdictOf(x: Execution): Verdict {
    if x.docker.wake.Exit? then Exited(x.docker.wake.code) else TimedOut
  }

  /** Every execution is either inconclusive or has exactly one verdict. */
  lemma VerdictUnique(x: Execution, timeoutSec: int, v: Verdict)
    requires WaitsAtMost(x.docker, timeoutSec)
    ensures Concluded(x, timeoutSec, v) <==> !Inconclusive(x, timeoutSec) && v == VerdictOf(x)
  {
  }

  // ---- agent.go ----

  /** Running under a lease that is over, with an attempt left. */
  predicate Overrun(job: Job, now: Time) {
    && job.status == JobRunning && job.leaseUntil != None && job.leaseUntil.value < now
    && job.attempts < job.maxAttempts
  }

  function AfterRelease(db: Db): Db {
    db.(jobs := map r | r in db.jobs ::
                  var job := db.jobs[r];
                  if Overrun(job, db.now)
                  then Job(JobQueued, job.attempts, job.maxAttempts, None, None, job.availableAt, db.now)
                  else job)
  }

  function AfterReset(db: Db): Db {
    db.(runs := map r | r in db.runs ::
                  var run := db.runs[r];
                  if r in db.jobs && db.jobs[r].status == JobQueued && run.status == RunRunning
                  then Run(run.client, run.artifact, RunPending, run.exitCode, None, run.finishedAt, run.receivedAt,
                           run.deleteAfter, run.logPath, run.deletedAt)
                  else run)
  }

  class Agent {
    const store: Store

    constructor (store: Store)
      ensures this.store == store
    {
      this.store := store;
    }

    /** One pass of the lease cleaner. The second statement is sent only if the first is known to
        have moved a row. */
    method ReleaseExpiredLeases(first: Outcome, between: Db -> Db, second: bool) returns (ok: bool, affected: nat)
      modifies store
      ensures ok == (first == Commits)
      ensures first == Aborts ==> store.View() == old(store.View())
      ensures first == CommitsUnheard ==> store.View() == AfterRelease(old(store.View()))
      ensures ok ==> affected == |set r | r in old(store.jobs) && Overrun(old(store.jobs)[r], old(store.now))|
      ensures ok && affected == 0 ==> store.View() == old(store.View())
      ensures ok && affected > 0 ==>
                var db := between(AfterRelease(old(store.View())));
                store.View() == if second then AfterReset(db) else db
    {
      affected := 0;
      ok := first == Commits;
      if first == Aborts {
        return;
      }
      var moved := set r | r in store.jobs && Overrun(store.jobs[r], store.now);
      var jobs := map r | r in store.jobs ::
        if r in moved
        then store.jobs[r].(status := JobQueued, leaseUntil := None, leasedBy := None, updatedAt := store.now)
        else store.jobs[r];
      assert jobs == AfterRelease(store.View()).jobs;
      assert moved == {} ==> jobs == store.jobs;
      store.jobs := jobs;
      if !ok {
        return;
      }
      affected := |moved|;
      if affected > 0 {
        store.Yield(between);
        if second {
          var runs := map r | r in store.runs ::
            if r in store.jobs && store.jobs[r].status == JobQueued && store.runs[r].status == RunRunning
            then store.runs[r].(status := RunPending, startedAt := None)
            else store.runs[r];
          assert runs == AfterReset(store.View()).runs;
          store.runs := runs;
        }
      }
    }
  }

  // ---- The methods against the system ----

  /** The claim that a poll commits is the system's, and so is each statement of the cleaner. */
  lemma ClaimRefined(s: State, t: nat, r: RunId, worker: nat, clock: Time, maxTimeout: int)
    requires t !in s.tokens
    ensures Enabled(s, ClaimJob(t, r, worker, clock, maxTimeout)) <==>
              WaitsLongest(s.db, r)
    ensures Enabled(s, ClaimJob(t, r, worker, clock, maxTimeout)) ==>
              Next(s, ClaimJob(t, r, worker, clock, maxTimeout)).db == AfterClaim(s.db, r, clock, maxTimeout, worker)
  {
  }

  lemma CleanerRefined(s: State, second: bool)
    ensures Next(s, ReleaseJobs).db == AfterRelease(s.db)
    ensures Next(s, ReleaseJobs).releasing ==
            s.releasing + if exists r :: r in s.db.jobs && Overrun(s.db.jobs[r], s.db.now) then 1 else 0
    ensures Enabled(s, ReleaseRuns(second)) <==> s.releasing > 0
    ensures Enabled(s, ReleaseRuns(second)) ==>
              && Next(s, ReleaseRuns(second)).db == (if second then AfterReset(s.db) else s.db)
              && Next(s, ReleaseRuns(second)).releasing == s.releasing - 1
  {
    assert forall r | r in s.db.jobs :: Overrun(s.db.jobs[r], s.db.now) <==> Expired(s.db.jobs[r], s.db.now);
  }

  /** failJob, with the others moving the database between its statements, is the system's two events
      with the same in between. */
  lemma FailJobRefined(s: State, t: nat, first: bool, between: Db -> Db, mid: State, second: bool)
    requires Enabled(s, FailFirst(t, first)) && Enabled(mid, FailSecond(t, second))
    requires mid.tokens[t] == Next(s, FailFirst(t, first)).tokens[t]
    requires mid.db == between(Next(s, FailFirst(t, first)).db)
    ensures var k := s.tokens[t];
            Next(mid, FailSecond(t, second)).db ==
            AfterFailJob(s.db, k.run, k.snapshot, k.maxAttempts, Pair(between, first, second))
  {
  }

  lemma FinishedRunIsFinished(run: Run, v: Verdict, log: Option<File>, now: Time)
    ensures FinishedRun(run, v, log, now) == Finished(run, v, log, now)
  {
    if v.Exited? {
      WrapsAround(v.code);
    }
  }

  lemma FinishRunRefined(s: State, t: nat, v: Verdict, stat: Db -> Db, mid1: State, first: bool, between: Db -> Db,
                         mid2: State, second: bool)
    requires Enabled(s, StatLog(t, v)) && Enabled(mid1, FinishFirst(t, first)) && Enabled(mid2, FinishSecond(t, second))
    requires mid1.tokens[t] == Next(s, StatLog(t, v)).tokens[t] && mid1.db == stat(Next(s, StatLog(t, v)).db)
    requires mid2.tokens[t] == Next(mid1, FinishFirst(t, first)).tokens[t]
    requires mid2.db == between(Next(mid1, FinishFirst(t, first)).db)
    ensures Next(mid2, FinishSecond(t, second)).db ==
            AfterFinishRun(s.db, s.tokens[t].run, v, stat, Pair(between, first, second))
  {
    if second && s.tokens[t].run in mid2.db.runs {
      FinishedRunIsFinished(mid2.db.runs[s.tokens[t].run], v, LogFound(s.db, s.tokens[t].run), mid2.db.now);
    }
  }
}
