# A verified model of the qtiva-cloud job queue

qtiva-cloud keeps a small distributed protocol entirely in SQL updates. The manager inserts a run
and its job; workers claim jobs under a lease, run a container and report with pairs of bare
`UPDATE`s whose errors they ignore; the agent's cleaner releases expired leases, again with a pair;
the manager's garbage collector removes logs, artifacts and old jobs on its own clock. This project
models that protocol and proves what it does, and does not, guarantee.

`dafny verify dfyconfig.toml` checks everything. Nothing here was executed.

## How it is built

- `Rows` and `Statements`: the rows of `jobs`, `runs` and `artifacts`, and one function for each SQL
  statement or transaction. Times are nanoseconds.
- `SharedStore`, `AgentSide`, `ManagerSide`, `DirectoryClimb`, `Registration`: the Go code in its own
  form, as classes whose methods update tables step by step. Each method that sends several
  statements takes, for each gap between them, an arbitrary transformation of the database by
  everybody else, so its contract holds for every interleaving.
- `System`: all actors at once, as a state machine over committed statements. `Valid(s, es)` says
  that the events `es` can happen from `s`; `After(s, es)` is the state then.
- `Protocol`: one run on its own. Every step of the system is a local step of every run
  (`StepProjects`), so theorems about one run are proved there and carried back.
- The remaining modules hold the theorems.

Two regimes appear. The **unrestricted** regime assumes nothing: any interleaving, crashes at any
point, lost writes, lease overruns, reports by workers long given up, clocks that disagree. The
**timed** regime is drawn by what it is for: `Timed.Agreed` says that the job row, the run row and
the one worker of a run tell the same story, and `Timed.Timely` names the steps that keep it so, no
more and no fewer (`Timed.AgreedExactly`). Those are the steps in which no lease runs out before
its worker's first report or is over when it is taken, no claim falls between the two statements of
one failJob, and no report is lost or cut off by a crash, except the last of a retry. Crashes while
a container runs and whatever the cleaner or the collector leave half done are timely, and other
runs may do as they please. `Timed.Prompt` is the time budget that makes workers timely: agreeing
clocks, one MAX_TIMEOUT, and a first report within the longest execution. `Witnesses` shows by
traces of the system what an untimely step leads to.

Where the code fails a property that its comments or documents promise, the property stands here
with the exact condition under which it holds, as an "if and only if" over all inputs, and with a
trace in which it fails.

The jobs table is keyed by `run_id`, which is UNIQUE in the schema; a job's own id and its run's id
are issued together and never separated. Ids are numbers, and an insert under a taken id fails.

## What the code does that its comments and documents do not say

- A job gets up to `max_attempts + 1` executions, not `max_attempts`: the retry test reads the
  attempts from before the claim incremented them. The limit breaks exactly when failJob queues a
  job whose row has no attempt left (`AttemptLimit.WithinExactly`, `AttemptLimit.LimitBroken`),
  which in the timed regime is the failure of the last attempt allowed
  (`AttemptLimit.OverqueuedByLastAttempt`). Late workers and the cleaner together can double
  `max_attempts` (`Witnesses.ClaimBoundReached`).
- A job whose worker dies on its last attempts stays `running` for ever, and so does what the client
  sees (`Recovery.StuckExactly`, `Witnesses.StuckOrphanHappens`); so does a run whose worker dies
  between the two statements of finishRun or of the last failJob (`Permanence.NeverEndsExactly`,
  `Witnesses.CrashInsideFinish`).
- A result that a client has read can change later, exactly while a worker still holds the run or
  its job can run again (`Permanence.PermanentExactly`, `Witnesses.OverrunUndoesResult`).
- The lease is measured by the worker's clock and judged by the database's: a clock far enough
  behind gets a job executed twice at once (`Witnesses.SlowClockTwoWorkers`).
- The first retry has no delay, so a claim can fall inside failJob's pair
  (`Witnesses.ClaimInsidePair`).
- A download recorded while the collector already has the run on its list does not save the run
  (`Expiry.EarlyErasureExactly`, `LogWitnesses.EarlyErasureHappens`).
- A run names a log that is gone after the collector has removed the file and lost the row's
  UPDATE, at once if the row names it (`LogWitnesses.DanglingHappens`), or later, when a worker that
  saw the file writes its path (`LogWitnesses.LateReferenceHappens`); these are all the ways
  (`Logs.DanglesExactly`, `Logs.LogKeptMeans`).
- "Used once" holds for an artifact exactly when the check made before the transaction still holds
  at its commit (`Creation.ReuseExactly`, `Witnesses.TwoRunsOneArtifact`).
- removeEmptyParentDirs guards `/data/runs` and `/data/artifacts`, but artifacts are stored under
  `<data>/tmp/artifacts`, and .env.example puts the data in `/tmp/data`: the climb can take the data
  directory itself (`DirectoryClimb.DataGoesWithArtifact`, `DirectoryClimb.DataInTmpGoes`).
- The status graph of docs/ToR.md has no edge back to `pending`; retries and the cleaner take one
  (`Lifecycle.DocumentedExactly`, `Witnesses.FirstFailureGoesBack`), until no attempt is left
  (`GoingBack.NeverBackExactly`).
- The collector does not ask whether a run has ended: one that waits or runs too long loses its row
  or its tarball (`Survival.RunSurvives`, `Survival.ArtifactSurvives`,
  `LogWitnesses.UnfinishedRunErased`, `LogWitnesses.UnfinishedTarballRemoved`).
- docs/endpoints.md calls the bad-invite error INVITE_NOT_FOUND, the code INVALID_INVITE_CODE; both
  are 400.

## Model

| member | source | states |
|---|---|---|
| Protocol.StepProjects | internal/agent/worker.go:140-313 | every statement of every actor is, for each run, one step of that run's own protocol or nothing |
| Protocol.TracesProject | internal/agent/worker.go:140-313 | whole runs of the system are whole runs of each run's protocol |
| Unrestricted.KeptByStep | internal/agent/worker.go:140-158 | queued rows carry no lease, running rows do, a failed job has attempts above max_attempts, every worker holds a distinct older attempt, passed means exit code 0, a running run has started_at; kept by any step |
| History.RunTellsHistory | internal/agent/worker.go:154-313 | after any trace every column of a run holds what the last statement that sets it wrote there: status, exit code, start, finish, log, receipt, expiry, deletion |
| History.JobTellsHistory | internal/agent/worker.go:140-298 | the same for status, lease, availability and updated_at of a job that is still there |
| History.StartedAtClaim | internal/agent/worker.go:154-158 | started_at is the time of the last claim, until the next claim or a reset by the cleaner |
| History.OutcomeRecorded | internal/agent/worker.go:286-313 | the row after a report by its verdict: timeout without exit code, passed exactly with code 0, failed with its code otherwise; every other column as before |
| History.EndedJobStays | internal/manager/gc.go:203-207 | a job that a report ended is in the table in every state of the next 24 hours, whatever happens |
| History.EndedJobGoes | internal/manager/gc.go:203-207 | and a sweep after them removes it if nothing has touched it since |
| History.SweptExactly | internal/manager/gc.go:203-207 | a sweep removes a job if and only if it is done or failed and untouched for more than 24 hours |
| History.LiveJobStays | internal/manager/gc.go:203-207 | a queued or running job is never removed |
| Creation.ConsistentAlong | internal/manager/run_http.go:170-196 | in every reachable state foreign keys hold, each run's artifact is consumed and of its client, and the invariant of each run holds |
| Creation.CreationConserved | internal/manager/run_http.go:163-206 | from an empty database, runs are exactly the committed POSTs, and each run has its job or that job was swept, never neither or both |
| Creation.JoblessAlong | internal/manager/gc.go:203-207 | runs lose their job only to the sweep of old jobs |
| Creation.RequestSpent | internal/manager/run_http.go:156-206 | a POST can be given up at any time, and no check serves two commits |
| Creation.ReuseExactly | internal/manager/run_http.go:121-141 | a committed POST keeps artifacts single-use if and only if its earlier check still holds at commit |
| Creation.UsedOnceAlong | internal/manager/run_http.go:121-196 | no artifact has two runs after a trace if and only if every commit in it was of that kind |
| Creation.LedgerByStep | internal/manager/gc.go:131-167 | consumed_at marks exactly the artifacts of some run, and the collector deletes only those |
| ClaimBound.ClaimsLeftFalls | internal/agent/worker.go:244-256 | the number of claims a job has left never rises and falls with each claim, whatever late workers and cleaners do |
| ClaimBound.AtMostTwiceMaxAttempts | internal/agent/worker.go:105-148 | unrestricted: a new job is claimed at most 2·max_attempts times in any trace |
| ClaimBound.ClaimsLeftAlong | internal/agent/worker.go:244-256 | the same along whole traces of one run |
| ClaimBound.AtMostSixClaims | internal/manager/run_http.go:182-186 | hence at most six times for every job the manager ever creates |
| ClaimBound.AttemptsAreClaims | internal/agent/worker.go:140-148 | the attempts column is the number of claims, in every trace |
| AttemptLimit.WithinExactly | internal/agent/worker.go:244-256 | unrestricted: a run within the limit of max_attempts leaves it at a step if and only if the step is a delivered retry of a job whose row has no attempt left |
| AttemptLimit.WithinAlong | internal/agent/worker.go:244-256 | so it is within the limit throughout a trace if and only if no step is such a report |
| AttemptLimit.LimitKept | internal/manager/run_http.go:182-186 | in every trace without such a report a new job is executed at most max_attempts times |
| AttemptLimit.WithinMeans | internal/agent/worker.go:140-148 | a run is within the limit if and only if no sequence of claims takes attempts past max_attempts |
| AttemptLimit.LimitBroken | internal/agent/worker.go:244-256 | after the first such report claims alone take attempts past max_attempts |
| AttemptLimit.OverqueuedByLastAttempt | internal/agent/worker.go:244-256 | when job, run and worker agree, that report is the one of the worker that read max_attempts − 1 |
| Creation.OnlyDueTimeMatters | internal/agent/worker.go:111-117 | in every consistent state the lease test and the joins of the claim query hide no queued job that is due |
| Overtaking.OnlyEarlierJobsAreClaimed | internal/agent/worker.go:115-120 | while an available job waits, only jobs with an available_at no later are claimed |
| Overtaking.TurnsFall | internal/agent/agent.go:97-106 | no step gives any job another turn before the waiting one; a claim uses one up |
| Overtaking.OvertakingAlong | internal/agent/worker.go:115-120 | all claims while a job waits are within the turns its rivals had at the start |
| Overtaking.BoundedOvertaking | internal/agent/worker.go:115-120 | before a waiting job come at most the attempts its rivals have left, and one claim for a queued rival that has none |
| OvertakingReached.BoundIsReached | internal/agent/worker.go:115-120 | and from every state some trace makes exactly that many claims while the job waits |
| Overtaking.SomeJobIsNext | internal/agent/worker.go:115-120 | whenever a job is claimable the query returns one |
| Budget.LeaseOutlastsRun | internal/agent/worker.go:137-199 | floor(MaxTimeout)+10 s+5 s+overhead below 15 s ends before MaxTimeout+30 s |
| Budget.MarginExactly | internal/agent/worker.go:137-199 | that margin holds for every such overhead if and only if MaxTimeout is at least zero, or whole seconds down to −10 |
| Timed.AgreedExactly | internal/agent/worker.go:247-313 | single holder and agreement of job, run and worker stage survive a step if and only if the step is timely |
| Timed.AgreedAlong | internal/agent/worker.go:247-313 | and hold in every state of a trace if and only if every step of it is timely |
| Timed.AllAgreedByStep | internal/agent/worker.go:247-313 | the same for all runs of the system together, including new ones |
| Timed.PromptIsTimely | internal/agent/worker.go:137-199 | a worker that keeps to the time budget takes only timely steps, because its lease outlasts the execution |
| Timed.PromptTraceIsTimely | internal/agent/worker.go:137-199 | and so do whole traces, so that the budget gives whatever agreement gives |
| Timed.SingleHolder | internal/agent/agent.go:103-105 | at most one live worker; until it reports, the job runs on its attempt under a lease the cleaner cannot take, and no one can claim it |
| Timed.RowsAgree | internal/agent/worker.go:258-313 | outside a pair: running job, running run; done, passed/failed/timeout; failed, error; queued, pending or the half-released running |
| Timed.AttemptsCounted | internal/agent/worker.go:244-271 | attempts at most max+1, at most max while queued, exactly max+1 when failed |
| Timed.TimelyClaims | internal/agent/worker.go:145 | a timely job is claimed at most max_attempts+1 times |
| Lifecycle.StraysExactly | internal/agent/worker.go:154-311 | unrestricted: a step leaves the documented graph pending→running→end if and only if it is one of five kinds of write over a run in the wrong status |
| Lifecycle.DocumentedExactly | internal/agent/worker.go:258-262 | while job, run and worker agree, if and only if it ends a retry or a cleaner reset of a running run, which goes back to pending |
| Lifecycle.DocumentedAlong | internal/agent/worker.go:258-262 | a timely trace stays on the graph if and only if no step of it goes back |
| GoingBack.NeverBackExactly | internal/agent/agent.go:97-124 | no timely future of the system takes a run back if and only if its job is gone, done or failed, or its attempts are used up with no worker that may still retry and no half release, or with a half release that no cleaner pass can reach before the job is claimed |
| GoingBack.DocumentedForGood | internal/agent/worker.go:244-262 | from such a state on every timely trace stays on the documented graph |
| Permanence.TerminalForever | internal/agent/worker.go:306-313 | if job, run and worker agree when a run has ended, its status, exit code and finish time never change again, timely or not, and log_path can only be cleared |
| Permanence.PermanentExactly | internal/agent/worker.go:258-313 | unrestricted: the result of an ended run never changes in any future if and only if no worker holds the run and its job is gone, done, failed, or running with attempts used up |
| Permanence.NeverEndsExactly | internal/agent/worker.go:258-313 | unrestricted: a run that has not ended never will, in any future, if and only if its job is gone or at such an end and no worker is left but at the end of a retry |
| Timed.DownloadsStayFinished | internal/manager/run_http.go:354-413 | delete_after is rewritten only for runs that have ended for good |
| Schedule.SlotClosedForm | internal/agent/worker.go:246-252 | the attempt that reads s attempts starts at most s executions, 15·s·(s−1) s of backoff and s delays after the first claim |
| Schedule.ScheduleByStep | internal/agent/worker.go:246-256 | punctual steps keep a run on that schedule |
| Schedule.WholeRunBound | internal/agent/worker.go:137-278 | from its first claim a run ends within (max+1) executions + 15·max·(max−1) s + max·delay, and finished_at says so |
| SlowestRun.BoundReached | internal/agent/worker.go:137-278 | and from every state some punctual trace ends a new run exactly at that bound |
| CrashSchedule.WholeRunWithCrashes | internal/agent/agent.go:97-106 | workers may die and the cleaner comes by at least every period: by the sum of the longer of execution with backoff and lease with period, per attempt, a run has ended or is lost for ever with its attempts used up |
| CrashSchedule.TurnByStep | internal/agent/agent.go:97-106 | every attended step keeps a run on that schedule |
| Schedule.InTime | internal/agent/worker.go:137-278 | a run on that schedule has ended in time or still has time |
| Survival.GuardedByStep | internal/manager/gc.go:131-166 | the tarball of a run on schedule is neither picked nor removed by the collector |
| Survival.TarballStaysExactly | internal/manager/gc.go:131-166 | after any POST, second ones included, the tarball stays for every punctual future of a run first claimed by a given time if and only if it is there and unpicked, and its row is marked already or the whole-run bound from that time on is within an hour of the commit |
| Survival.ArtifactSurvives | internal/manager/gc.go:131-138 | for a POST whose check still holds at commit: if and only if that bound is within the hour |
| Survival.RunSurvives | internal/manager/gc.go:75-114 | the collector asks nothing about status: a run first claimed by a given time is neither erased nor listed before it ends, in every punctual future, if and only if the whole-run bound from that time on is within its time to live |
| Survival.ReachableStands | internal/manager/gc.go:131-166 | the assumptions of those theorems about the state hold in every reachable state |
| Recovery.OrphanLeftAlone | internal/agent/agent.go:97-106 | a running job with no worker changes only by a cleaner pass after its lease and with an attempt left |
| Recovery.CleanerRecovers | internal/agent/agent.go:97-106 | and such a pass does requeue it, as it does every running job with an attempt left |
| Recovery.StuckExactly | internal/agent/agent.go:103-105 | it is stuck for ever if and only if its attempts are used up |
| Recovery.SettledExactly | internal/manager/gc.go:203-207 | a job without worker never changes again, except to be deleted, if and only if it is done, failed, or running with attempts used up |
| Recovery.EndedForEver | internal/manager/gc.go:203-207 | whatever happens later, a job at its end keeps its row, and only done or failed ones can be deleted |
| Recovery.ClaimsReach | internal/agent/worker.go:105-148 | workers that keep claiming reach every claimable job |
| Recovery.LiveIsReached | internal/agent/worker.go:105-148 | every job not at its end can be executed again, through the cleaner and the queue, whoever else holds it |
| Recovery.PairIsSafe | internal/agent/agent.go:116-124 | the cleaner's second statement never moves a run whose job is running, and leaves no queued job with a running run |
| Recovery.ResetColumns | internal/agent/agent.go:116-124 | whatever status that statement changes becomes pending with started_at cleared, and every other column, run and table stays |
| Logs.LogKeptByStep | internal/agent/worker.go:286-313 | a log named by a run or by a worker about to write the row exists, or the run is deleted or being marked |
| Logs.LogKeptExactly | internal/manager/gc.go:98-118 | unrestricted: the references of the row and of the workers stay backed over a step if and only if it does not lose the mark of an undeleted run whose log is gone and still named by the row or by a worker |
| Logs.LogsAlong | internal/manager/gc.go:98-118 | and throughout a trace if and only if no step of it does |
| Logs.NoDanglingLogs | internal/manager/gc.go:98-118 | so from the empty system on no undeleted run names a missing log until such a mark is lost |
| Logs.LogKeptMeans | internal/agent/worker.go:286-313 | references are backed if and only if no future in which the marks succeed makes one dangle, the reports of late workers included |
| Logs.DanglesExactly | internal/agent/worker.go:306-313 | in every state: a reference starts to dangle if and only if a mark is lost while the row names a log that is gone, or a late worker writes such a name into a row that is neither marked nor about to be |
| Expiry.NoEarlyErasure | internal/manager/gc.go:75-114 | without a recorded download no run is erased before delete_after |
| Expiry.EarlyErasureExactly | internal/manager/run_http.go:404-412 | from its selection on a run is erased whatever is downloaded, and before its delete_after if and only if a download was recorded in between and the delete_after written by the last one has not passed |
| Expiry.ServedUntilSelected | internal/manager/run_http.go:326-395 | once nobody will write the result again, a log that can be downloaded can be until the collector selects its run |
| Expiry.ServedUntilDue | internal/manager/run_http.go:326-395 | hence, as long as no download is recorded, until delete_after |
| Expiry.RunCollected | internal/manager/gc.go:98-114 | what the collector has selected it can carry through: the log goes if it can be removed, the row is marked and its path cleared if the UPDATE arrives, and the run is off the list |
| Expiry.ArtifactCollected | internal/manager/gc.go:151-166 | likewise for an artifact |
| Expiry.ReceivedOnce | internal/manager/run_http.go:404-412 | received_at is set once |
| Collector.PassTakesBatch | internal/manager/gc.go:73-126 | one pass takes min(100, n) of n overdue runs off the list, whichever the LIMIT picks, and touches no other run |
| Collector.PassesConverge | internal/manager/gc.go:73-126 | k passes take off min(100·k, n) |
| Collector.PassesFinish | internal/manager/gc.go:73-126 | n/100 passes, rounded up, leave none |
| Collector.QuietSweep | internal/manager/gc.go:73-126 | the row-by-row sweep, undisturbed, is the batch taken as a whole, in whatever order the rows come |
| Collector.QuietArtifactSweep | internal/manager/gc.go:129-179 | likewise for artifacts |
| AgentSide.RunContainer | internal/agent/docker.go:152-213 | three-way result: an exit code only from a container that ended, timeout only at the deadline with the stop done, error otherwise; and exactly the time its calls take |
| AgentSide.ExecutionFitsLease | internal/agent/docker.go:181-201 | however Docker answers, execution and database calls end before the lease |
| AgentSide.VerdictUnique | internal/agent/worker.go:177-237 | each execution is inconclusive or has exactly one verdict |
| AgentSide.Worker.ProcessNextJob | internal/agent/worker.go:88-174 | claims a due queued job with least available_at and reports it, changes nothing when there is none or the transaction fails, and leaves a claimed job to nobody when only the answer to the commit is lost; a claim leaves the job running with one more attempt, this worker, its clock plus MAX_TIMEOUT plus 30 s, and the run running since now |
| AgentSide.Worker.ExecuteJob | internal/agent/worker.go:177-237 | inconclusive executions go to failJob, a failed stop included, the rest to finishRun; the run ends as timeout exactly if the wait met the deadline and the stop succeeded, passed exactly with exit code 0, failed exactly with another, and the code is recorded |
| AgentSide.Worker.FailJob | internal/agent/worker.go:240-280 | retry with backoff or final failure, as two statements that may each be lost, with anything between |
| AgentSide.Worker.FinishRun | internal/agent/worker.go:283-314 | log looked up first, then the job done, then the run ended with the status and exit code of its verdict, the time and the log found, with anything between |
| AgentSide.Agent.ReleaseExpiredLeases | internal/agent/agent.go:96-128 | releases exactly the running jobs past their lease with an attempt left, counts them, and sends the second statement, which resets exactly the running runs of queued jobs, only if it knows of any; an error says nothing about whether they were released |
| AgentSide.FailJobRefined | internal/agent/worker.go:240-280 | with the same changes by the others between its statements, the method's effect is the system's two events |
| AgentSide.FinishRunRefined | internal/agent/worker.go:283-314 | likewise for finishRun's three, with changes in both gaps |
| AgentSide.ClaimRefined | internal/agent/worker.go:105-158 | the claim that a poll commits is possible exactly when the system's is, and writes the same |
| AgentSide.CleanerRefined | internal/agent/agent.go:97-124 | each statement of the cleaner is the system's, and the second is sent once for each first that released a job |
| ManagerSide.RunsAPI.CreateRun | internal/manager/run_http.go:87-212 | the accepted values of os, display and Qt version, the check before the transaction, then run, job with three attempts and used artifact or none of them, with the reply for each failure, the lost answer to a commit included |
| ManagerSide.RunsAPI.GetRunLog | internal/manager/run_http.go:320-395 | the log is served exactly for the client's own finished, undeleted run whose file is there when it is opened, each refusal and failure has its reply, anything may happen between reading the row, opening the file and the end of the transfer, and only a complete transfer is recorded |
| ManagerSide.RunsAPI.MarkLogAsReceived | internal/manager/run_http.go:398-413 | a first receipt stays, delete_after becomes now plus the TTL, and every other column, row and table is as before |
| ManagerSide.GarbageCollector.CleanupExpiredRuns | internal/manager/gc.go:73-126 | works off a batch of overdue runs row by row as far as the result set can be read, log, emptied directories, mark, with anything happening to tables, files and directories in between, and counts the rows it knows to be marked |
| ManagerSide.GarbageCollector.CleanupConsumedArtifacts | internal/manager/gc.go:129-179 | likewise for artifacts consumed over an hour ago |
| ManagerSide.RunRowRefined | internal/manager/gc.go:98-114 | with the same changes by the others in between, what the sweep does to one row is the system's two events |
| ManagerSide.ArtifactRowRefined | internal/manager/gc.go:151-166 | likewise for an artifact |
| ManagerSide.PostRefined | internal/manager/run_http.go:163-196 | the transaction of a POST is the system's, and its check is the one whose lasting Creation.ReuseExactly speaks of |
| ManagerSide.DownloadRefined | internal/manager/run_http.go:320-413 | a download is the system's transfer: it starts on a finished, undeleted run with a log recorded, goes on if the file is there when it is opened, and is recorded only then |
| ManagerSide.GarbageCollector.SweepKeepsTree | internal/manager/gc.go:98-106 | all removals and climbs of a sweep keep every remaining entry in a directory, if the others do |
| ManagerSide.GarbageCollector.WithoutKeepsTree | internal/manager/gc.go:98-106 | one removal with its climb leaves every remaining entry as it was, in a directory that remains |
| ManagerSide.GarbageCollector.CleanupOldJobs | internal/manager/gc.go:202-216 | deletes exactly the done and failed jobs untouched for a day, unless the DELETE fails, and counts them, unless it is not told |
| DirectoryClimb.FileSystem.RemoveEmptyParentDirs | internal/manager/gc.go:183-199 | removes exactly the ancestors that hold nothing but the next one removed, up to the first that is guarded, absent or undeletable |
| DirectoryClimb.RemovableAsBefore | internal/manager/gc.go:188-198 | what each os.Remove meets is decided by the tree before the climb |
| DirectoryClimb.ClimbKeepsTree | internal/manager/gc.go:183-199 | every remaining entry keeps its parent directory |
| DirectoryClimb.ClimbKeeps | internal/manager/gc.go:184-188 | files, the two base directories and everything off the path stay |
| DirectoryClimb.ClimbIsMaximal | internal/manager/gc.go:188-198 | the climb stops only where nothing more can go |
| DirectoryClimb.DataGoesWithArtifact | internal/manager/artifacts_http.go:98 | wherever the data directory is, the climb from an artifact takes it if and only if it holds nothing else and is not itself a guarded name or the root |
| DirectoryClimb.DataGoesWithRun | internal/manager/gc.go:183-199 | the climb from a run takes it likewise, except with the data in /data, where /data/runs stops it |
| DirectoryClimb.DataInTmpGoes | internal/manager/gc.go:183-199 | with the data in /tmp/data, as .env.example has it, and only the last artifact in it, the climb takes the data directory |
| Registration.SoundByStep | internal/manager/auth_http.go:101-144 | locks, limits, origins and unique emails are kept by every step of every open transaction |
| Registration.InvitesConserved | internal/manager/auth_http.go:109-129 | over any interleaving with rollbacks used_count is the number of users who came by the invite, at most max_uses, and active emails stay unique up to case |
| Registration.CommitNeverViolates | migrations/0001_init.sql:23-37 | a transaction that got as far as commit breaks no constraint |
| Registration.ConsumeExactly | internal/manager/auth_http.go:109-121 | a use of an invite is taken if and only if it is unrevoked, unexpired, not used up and held by no other transaction |
| Registration.NobodyMoreExactly | internal/manager/auth_http.go:109-121 | over all interleavings, nobody comes by an invite any more if and only if it is revoked, expired or used up |
| Registration.RevokedForEver | internal/manager/auth_http.go:113 | an invite that no transaction holds can be revoked, and after that used_count and the users brought never change again |
| Registration.NewInviteOpen | migrations/0001_init.sql:29-38 | a new invite is open with all its uses, unless it is created expired |
| Registration.RolledBack | internal/manager/auth_http.go:101-139 | a transaction that is rolled back or meets a taken email leaves the tables as they were and its invite to the next |
| Registration.EmailFreedByDeletion | migrations/0001_init.sql:23-25 | an email is taken while its user is there and free again after its deletion |
| Registration.SameEmailExactly | migrations/0001_init.sql:23-25 | emails count as one exactly if they differ at most in the case of ASCII letters |
| Registration.AuthApi.Register | internal/manager/auth_http.go:63-151 | registers exactly with valid fields, an unrevoked, unexpired invite with a use left and a free email; takes effect as one full transaction or leaves the tables as they were, with the reply for each failure; an error reply to a commit that took effect included |
| Witnesses.ClaimBoundReached | internal/agent/agent.go:97-106 | for every max_attempts some trace claims one job exactly 2·max_attempts times |
| Witnesses.SixClaimsHappen | internal/manager/run_http.go:182-186 | from the empty system, six claims of one created job |
| Witnesses.FailuresAllTheWay | internal/agent/worker.go:244-278 | timely workers that always fail carry a job through max_attempts+1 attempts to failed and error, so that bound is reached |
| Witnesses.OverrunUndoesResult | internal/agent/worker.go:258-262 | after a lease overrun a passed run can become pending again |
| Witnesses.LostWriteRepeatsRun | internal/agent/worker.go:293-298 | a lost job update leaves a passed run whose job is queued again |
| Witnesses.ClaimInsidePair | internal/agent/worker.go:246-262 | a claim inside failJob's pair leaves a running job with a pending run |
| Witnesses.CrashInsideFinish | internal/agent/worker.go:293-313 | a crash between the statements of finishRun leaves a done job whose run is running for ever |
| Witnesses.CrashInsideGivingUp | internal/agent/worker.go:264-278 | a crash between the statements of the last failJob leaves a failed job whose run is running for ever |
| Witnesses.CrashInsideGivingUpHappens | internal/agent/worker.go:264-278 | the same from the empty system |
| Witnesses.StuckOrphanHappens | internal/agent/agent.go:103-105 | from the empty system: a job that stays running for ever after its worker died on the last attempt |
| Witnesses.FirstFailureGoesBack | internal/agent/worker.go:258-262 | a first failure takes a run from running back to pending |
| Witnesses.SlowClockTwoWorkers | internal/agent/worker.go:137-138 | for every clock behind by more than MAX_TIMEOUT+30 s, two workers execute one job with no time gone by |
| Witnesses.TwoRunsOneArtifact | internal/manager/run_http.go:121-196 | two POSTs whose checks both come first give one artifact two runs |
| LogWitnesses.EarlyErasureHappens | internal/manager/gc.go:75-114 | from the empty system: a run downloaded between its selection and its mark is erased before its new delete_after |
| LogWitnesses.DanglingHappens | internal/manager/gc.go:98-118 | from the empty system, by a lost UPDATE and by a crash: an undeleted run names a log that is gone |
| LogWitnesses.LateReferenceHappens | internal/agent/worker.go:306-313 | from the empty system: after a lost mark nothing dangles, until a late worker writes the path it has held all the while |
| LogWitnesses.UnfinishedRunErased | internal/manager/gc.go:75-114 | from the empty system: a run that was never claimed is erased |
| LogWitnesses.UnfinishedTarballRemoved | internal/manager/gc.go:131-166 | from the empty system: a run that can still be claimed has lost its tarball |

## Left out

- HTTP routing, JSON, headers and error bodies; `GET /runs/{id}`, which only reads.
- `last_error`, `created_at`, `ack_mode`, os, display and Qt version columns: written, but no statement of the protocol reads them.
- The join with `clients` in the claim query: client rows are never deleted, so it hides no job.
- PostgreSQL's locking: the claim transaction is one atomic choice of a least available_at; SKIP LOCKED passing over a row that another claim is about to take is not modelled.
- Docker itself: containers only add `run.log` and answer in one of the ways of `AgentSide.Docker`; the branch for a cancelled context is unreachable, because the context never ends.
- DirectoryClimb.FileSystem.RemoveEmptyParentDirs: nobody creates a directory while it climbs, and there are no symbolic links.
- Manifest and archive reading, uploads beyond their final row, bcrypt, tokens and id generation: ids are assumed fresh or rejected by the primary key.
- `strings.TrimSpace` and `mail.ParseAddress` in registration: the fields come trimmed and the verdict on the address is a parameter.
- `lower()` on emails outside ASCII.
- `concurrency_limit`: stored, never enforced. The administrator's single active row: given by its index.
- Overtaking.BoundedOvertaking: speaks of a job available strictly before now, because a rival rescheduled at that very instant would tie.
