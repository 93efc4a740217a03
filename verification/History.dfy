/** What the columns of a job and of its run say of the past: each holds what the last statement that
    sets it has written, told from the events of the trace alone. */
module History {
  import opened Rows
  import opened System
  import opened Protocol
  import opened Creation

  // ---- The last write of a column ----

  function Or<T>(x: Option<T>, otherwise: T): T {
    match x
    case Some(value) => value
    case None => otherwise
  }

  /** `writes` gives what an action writes into the column, if it does. */
  function Last<T>(l: Local, acts: seq<Action>, writes: (Local, Action) -> Option<T>): Option<T>
    requires Follows(l, acts)
    decreases |acts|
  {
    if acts == [] then None
    else
      var later := Last(Do(l, acts[0]), acts[1..], writes);
      if later.Some? then later else writes(l, acts[0])
  }

  ghost predicate Tracks<T(!new)>(column: Local -> T, writes: (Local, Action) -> Option<T>) {
    forall l: Local, a: Action | Possible(l, a) :: column(Do(l, a)) == Or(writes(l, a), column(l))
  }

  lemma {:induction false} TellsPast<T(!new)>(
      column: Local -> T, writes: (Local, Action) -> Option<T>, l: Local, acts: seq<Action>)
    requires Tracks(column, writes) && Follows(l, acts)
    ensures column(DoAll(l, acts)) == Or(Last(l, acts, writes), column(l))
    decreases |acts|
  {
    if acts != [] {
      assert column(Do(l, acts[0])) == Or(writes(l, acts[0]), column(l));
      TellsPast(column, writes, Do(l, acts[0]), acts[1..]);
    }
  }

  // ---- The columns of the run ----

  predicate LastRetry(l: Local, a: Action) {
    a.Fail2? && a.delivered && a.token in l.tokens && l.tokens[a.token].snapshot < l.tokens[a.token].maxAttempts
  }

  predicate FinalFailure(l: Local, a: Action) {
    a.Fail2? && a.delivered && a.token in l.tokens && l.tokens[a.token].snapshot >= l.tokens[a.token].maxAttempts
  }

  predicate Outcome(l: Local, a: Action) {
    a.Finish2? && a.delivered && a.token in l.tokens && l.tokens[a.token].stage.Finishing?
  }

  function StatusWritten(l: Local, a: Action): Option<RunStatus> {
    if a.Take? then Some(RunRunning)
    else if a.ResetRun? || LastRetry(l, a) then Some(RunPending)
    else if FinalFailure(l, a) then Some(RunError)
    else if Outcome(l, a) then
      match l.tokens[a.token].stage.v
      case TimedOut => Some(RunTimeout)
      case Exited(code) => if code == 0 then Some(RunPassed) else Some(RunFailed)
    else None
  }

  /** The number of 32 bits in two's complement that is congruent to x. */
  function Wrapped(x: int): int {
    var low := x % 0x1_0000_0000;
    if low < 0x8000_0000 then low else low - 0x1_0000_0000
  }

  function ExitCodeWritten(l: Local, a: Action): Option<Option<int>> {
    if Outcome(l, a) then
      match l.tokens[a.token].stage.v
      case TimedOut => Some(None)
      case Exited(code) => if code < 0 then Some(None) else Some(Some(Wrapped(code)))
    else None
  }

  function StartWritten(l: Local, a: Action): Option<Option<Time>> {
    if a.Take? then Some(Some(l.now)) else if a.ResetRun? then Some(None) else None
  }

  function FinishWritten(l: Local, a: Action): Option<Option<Time>> {
    if FinalFailure(l, a) || Outcome(l, a) then Some(Some(l.now)) else None
  }

  function LogWritten(l: Local, a: Action): Option<Option<File>> {
    if Outcome(l, a) then Some(l.tokens[a.token].stage.path) else if a.Erase? then Some(None) else None
  }

  function ReceiptWritten(l: Local, a: Action): Option<Option<Time>> {
    if a.Prolong? && l.run.receivedAt == None then Some(Some(l.now)) else None
  }

  function DueWritten(l: Local, a: Action): Option<Time> {
    if a.Prolong? then Some(l.now + a.ttl) else None
  }

  function DeletionWritten(l: Local, a: Action): Option<Option<Time>> {
    if a.Erase? then Some(Some(l.now)) else None
  }

  lemma StatusTracked()
    ensures Tracks((l: Local) => l.run.status, StatusWritten)
  {
  }

  lemma WrapsAround(x: int)
    ensures ToInt32(x) == Wrapped(x)
  {
  }

  lemma ExitCodeTracked()
    ensures Tracks((l: Local) => l.run.exitCode, ExitCodeWritten)
  {
    forall x: int
      ensures ToInt32(x) == Wrapped(x)
    {
      WrapsAround(x);
    }
  }

  lemma FinishTracked()
    ensures Tracks((l: Local) => l.run.finishedAt, FinishWritten)
  {
  }

  lemma StartTracked()
    ensures Tracks((l: Local) => l.run.startedAt, StartWritten)
    ensures Tracks((l: Local) => l.run.logPath, LogWritten)
  {
  }

  lemma ExpiryTracked()
    ensures Tracks((l: Local) => l.run.receivedAt, ReceiptWritten)
    ensures Tracks((l: Local) => l.run.deleteAfter, DueWritten)
    ensures Tracks((l: Local) => l.run.deletedAt, DeletionWritten)
  {
  }

  /** Every column of a run after a trace is what the last statement setting it has written there;
      its client and its artifact never change. */
  lemma RunTellsHistory(s: State, es: seq<Event>, r: RunId)
    requires Valid(s, es) && r in s.db.runs
    ensures r in After(s, es).db.runs && Follows(View(s, r), Labels(s, es, r))
    ensures var l, acts, was, run := View(s, r), Labels(s, es, r), s.db.runs[r], After(s, es).db.runs[r];
            && run.client == was.client && run.artifact == was.artifact
            && run.status == Or(Last(l, acts, StatusWritten), was.status)
            && run.exitCode == Or(Last(l, acts, ExitCodeWritten), was.exitCode)
            && run.startedAt == Or(Last(l, acts, StartWritten), was.startedAt)
            && run.finishedAt == Or(Last(l, acts, FinishWritten), was.finishedAt)
            && run.logPath == Or(Last(l, acts, LogWritten), was.logPath)
            && run.receivedAt == Or(Last(l, acts, ReceiptWritten), was.receivedAt)
            && run.deleteAfter == Or(Last(l, acts, DueWritten), was.deleteAfter)
            && run.deletedAt == Or(Last(l, acts, DeletionWritten), was.deletedAt)
  {
    TracesProject(s, es, r);
    var l, acts := View(s, r), Labels(s, es, r);
    StatusTracked();
    TellsPast((l: Local) => l.run.status, StatusWritten, l, acts);
    ExitCodeTracked();
    TellsPast((l: Local) => l.run.exitCode, ExitCodeWritten, l, acts);
    FinishTracked();
    TellsPast((l: Local) => l.run.finishedAt, FinishWritten, l, acts);
    StartTracked();
    TellsPast((l: Local) => l.run.startedAt, StartWritten, l, acts);
    TellsPast((l: Local) => l.run.logPath, LogWritten, l, acts);
    ExpiryTracked();
    TellsPast((l: Local) => l.run.receivedAt, ReceiptWritten, l, acts);
    TellsPast((l: Local) => l.run.deleteAfter, DueWritten, l, acts);
    TellsPast((l: Local) => l.run.deletedAt, DeletionWritten, l, acts);
    OwnersStay(l, acts);
  }

  lemma {:induction false} OwnersStay(l: Local, acts: seq<Action>)
    requires Follows(l, acts)
    ensures DoAll(l, acts).run.client == l.run.client && DoAll(l, acts).run.artifact == l.run.artifact
    decreases |acts|
  {
    if acts != [] {
      ColumnsKept(l, acts[0]);
      OwnersStay(Do(l, acts[0]), acts[1..]);
    }
  }

  // ---- The columns of the job, until it is deleted ----

  predicate JobReport(l: Local, a: Action) {
    (a.Fail1? || a.Finish1?) && a.delivered && a.token in l.tokens && l.job.Some?
  }

  predicate JobRetry(l: Local, a: Action) {
    a.Fail1? && JobReport(l, a) && l.tokens[a.token].snapshot < l.tokens[a.token].maxAttempts
  }

  function JobStatusWritten(l: Local, a: Action): Option<Option<JobStatus>> {
    if a.Sweep? then Some(None)
    else if a.Take? then Some(Some(JobRunning))
    else if a.Release? || JobRetry(l, a) then Some(Some(JobQueued))
    else if a.Fail1? && JobReport(l, a) then Some(Some(JobFailed))
    else if JobReport(l, a) then Some(Some(JobDone))
    else None
  }

  /** A lease is the worker's clock plus MAX_TIMEOUT plus thirty seconds. */
  function LeaseWritten(l: Local, a: Action): Option<Option<(Option<Time>, Option<nat>)>> {
    if a.Sweep? then Some(None)
    else if a.Take? then Some(Some((Some(a.clock + a.maxTimeout + 30_000_000_000), Some(a.worker))))
    else if a.Release? || JobRetry(l, a) then Some(Some((None, None)))
    else None
  }

  /** Only a retry moves it, by thirty seconds for each attempt its worker had read. */
  function AvailabilityWritten(l: Local, a: Action): Option<Option<Time>> {
    if a.Sweep? then Some(None)
    else if JobRetry(l, a) then Some(Some(l.now + l.tokens[a.token].snapshot * 30_000_000_000))
    else None
  }

  function UpdateWritten(l: Local, a: Action): Option<Option<Time>> {
    if a.Sweep? then Some(None)
    else if a.Take? || a.Release? || JobReport(l, a) then Some(Some(l.now))
    else None
  }

  function Column<T>(l: Local, column: Job -> T): Option<T> {
    if l.job.Some? then Some(column(l.job.value)) else None
  }

  lemma JobStatusTracked()
    ensures Tracks((l: Local) => Column(l, (job: Job) => job.status), JobStatusWritten)
  {
  }

  lemma LeaseTracked()
    ensures Tracks((l: Local) => Column(l, (job: Job) => (job.leaseUntil, job.leasedBy)), LeaseWritten)
  {
  }

  lemma AvailabilityTracked()
    ensures Tracks((l: Local) => Column(l, (job: Job) => job.availableAt), AvailabilityWritten)
    ensures Tracks((l: Local) => Column(l, (job: Job) => job.updatedAt), UpdateWritten)
  {
  }

  /** The same for the job, as long as its row is there; attempts are counted by the claims. */
  lemma JobTellsHistory(s: State, es: seq<Event>, r: RunId)
    requires Valid(s, es) && r in s.db.runs && r in s.db.jobs
    ensures Follows(View(s, r), Labels(s, es, r))
    ensures r in After(s, es).db.jobs ==>
              var l, acts, was, job := View(s, r), Labels(s, es, r), s.db.jobs[r], After(s, es).db.jobs[r];
              && Some(job.status) == Or(Last(l, acts, JobStatusWritten), Some(was.status))
              && Some((job.leaseUntil, job.leasedBy)) ==
                 Or(Last(l, acts, LeaseWritten), Some((was.leaseUntil, was.leasedBy)))
              && Some(job.availableAt) == Or(Last(l, acts, AvailabilityWritten), Some(was.availableAt))
              && Some(job.updatedAt) == Or(Last(l, acts, UpdateWritten), Some(was.updatedAt))
  {
    TracesProject(s, es, r);
    var l, acts := View(s, r), Labels(s, es, r);
    JobStatusTracked();
    TellsPast((l: Local) => Column(l, (job: Job) => job.status), JobStatusWritten, l, acts);
    LeaseTracked();
    TellsPast((l: Local) => Column(l, (job: Job) => (job.leaseUntil, job.leasedBy)), LeaseWritten, l, acts);
    AvailabilityTracked();
    TellsPast((l: Local) => Column(l, (job: Job) => job.availableAt), AvailabilityWritten, l, acts);
    TellsPast((l: Local) => Column(l, (job: Job) => job.updatedAt), UpdateWritten, l, acts);
  }

  // ---- What the report of an outcome leaves ----

  /** The row after a delivered second statement of finishRun, by the verdict of its worker. */
  lemma OutcomeRecorded(s: State, t: nat)
    requires Enabled(s, FinishSecond(t, true)) && s.tokens[t].run in s.db.runs
    ensures var k, db := s.tokens[t], Next(s, FinishSecond(t, true)).db;
            var was := s.db.runs[k.run];
            && k.run in db.runs && db.(runs := s.db.runs) == s.db && db.runs - {k.run} == s.db.runs - {k.run}
            && var run := db.runs[k.run];
               && run.finishedAt == Some(s.db.now) && run.logPath == k.stage.path
               && run.(status := was.status, exitCode := was.exitCode, finishedAt := was.finishedAt,
                       logPath := was.logPath) == was
               && (run.status == RunTimeout <==> k.stage.v == TimedOut)
               && (run.status == RunPassed <==> k.stage.v == Exited(0))
               && (run.status == RunFailed <==> k.stage.v.Exited? && k.stage.v.code != 0)
               && (k.stage.v == TimedOut ==> run.exitCode == None)
               && (k.stage.v.Exited? && k.stage.v.code < 0 ==> run.exitCode == None)
               && (k.stage.v.Exited? && 0 <= k.stage.v.code < 0x8000_0000 ==> run.exitCode == Some(k.stage.v.code))
  {
  }

  // ---- When a run was started ----

  /** No claim of run r and no reset of it by the cleaner. */
  predicate NoRestart(s: State, es: seq<Event>, r: RunId)
    requires Valid(s, es)
    decreases |es|
  {
    es == [] ||
    (&& !(es[0].ClaimJob? && es[0].run == r)
     && !(es[0].ReleaseRuns? && es[0].delivered && r in s.db.jobs && s.db.jobs[r].status == JobQueued
          && r in s.db.runs && s.db.runs[r].status == RunRunning)
     && NoRestart(Next(s, es[0]), es[1..], r))
  }

  lemma RestartSeenLocally(s: State, e: Event, r: RunId)
    requires Enabled(s, e) && r in s.db.runs && NoRestart(s, [e], r)
    ensures !Label(s, e, r).Take? && !Label(s, e, r).ResetRun?
  {
  }

  lemma {:induction false} StartStands(s: State, es: seq<Event>, r: RunId)
    requires Valid(s, es) && r in s.db.runs && NoRestart(s, es, r)
    ensures r in After(s, es).db.runs && After(s, es).db.runs[r].startedAt == s.db.runs[r].startedAt
    decreases |es|
  {
    if es != [] {
      assert [es[0]][1..] == [];
      RestartSeenLocally(s, es[0], r);
      StepProjects(s, es[0], r);
      StartTracked();
      assert ((l: Local) => l.run.startedAt)(View(s, r)) == s.db.runs[r].startedAt;
      StartStands(Next(s, es[0]), es[1..], r);
    }
  }

  /** started_at is the time of the last claim, until the next claim or a reset by the cleaner. */
  lemma StartedAtClaim(s: State, e: Event, es: seq<Event>)
    requires Enabled(s, e) && e.ClaimJob? && Valid(Next(s, e), es) && NoRestart(Next(s, e), es, e.run)
    ensures e.run in After(Next(s, e), es).db.runs
    ensures After(Next(s, e), es).db.runs[e.run].startedAt == Some(s.db.now)
  {
    StartStands(Next(s, e), es, e.run);
  }

  // ---- How long a job that has ended is kept ----

  predicate EndsJob(s: State, e: Event, r: RunId) {
    || (e.FinishFirst? && e.delivered && Holds(s, e.token, r))
    || (e.FailFirst? && e.delivered && Holds(s, e.token, r)
        && s.tokens[e.token].snapshot >= s.tokens[e.token].maxAttempts)
  }

  /** The row is there, and if its job has ended it was written since. */
  predicate EndedSince(l: Local, since: Time) {
    since <= l.now && l.job.Some? && (l.job.value.status in {JobDone, JobFailed} ==> since <= l.job.value.updatedAt)
  }

  lemma EndedSinceByStep(l: Local, a: Action, since: Time)
    requires EndedSince(l, since) && Possible(l, a) && l.now <= since + 24 * 3600 * 1_000_000_000
    ensures EndedSince(Do(l, a), since)
  {
  }

  lemma {:induction false} TimeGoesOn(s: State, es: seq<Event>)
    requires Valid(s, es)
    ensures s.db.now <= After(s, es).db.now
    decreases |es|
  {
    if es != [] {
      ClockByStep(s, es[0]);
      TimeGoesOn(Next(s, es[0]), es[1..]);
    }
  }

  lemma ClockByStep(s: State, e: Event)
    requires Enabled(s, e)
    ensures s.db.now <= Next(s, e).db.now
  {
  }

  lemma {:induction false} KeptSince(s: State, es: seq<Event>, r: RunId, since: Time)
    requires Valid(s, es) && r in s.db.runs && EndedSince(View(s, r), since)
    requires After(s, es).db.now <= since + 24 * 3600 * 1_000_000_000
    ensures r in After(s, es).db.jobs
    decreases |es|
  {
    if es != [] {
      TimeGoesOn(s, es);
      StepProjects(s, es[0], r);
      EndedSinceByStep(View(s, r), Label(s, es[0], r), since);
      KeptSince(Next(s, es[0]), es[1..], r, since);
    }
  }

  lemma EndsNow(s: State, e: Event, r: RunId)
    requires Enabled(s, e) && EndsJob(s, e, r) && r in s.db.runs && r in s.db.jobs
    ensures r in Next(s, e).db.runs && r in Next(s, e).db.jobs && Next(s, e).db.now == s.db.now
    ensures Next(s, e).db.jobs[r].status in {JobDone, JobFailed} && Next(s, e).db.jobs[r].updatedAt == s.db.now
  {
  }

  /** A job that a report has ended is in the table for a day, whatever happens. */
  lemma EndedJobStays(s: State, e: Event, es: seq<Event>, r: RunId)
    requires Enabled(s, e) && EndsJob(s, e, r) && r in s.db.runs && r in s.db.jobs
    requires Valid(Next(s, e), es) && After(Next(s, e), es).db.now <= s.db.now + 24 * 3600 * 1_000_000_000
    ensures r in After(Next(s, e), es).db.jobs
  {
    EndsNow(s, e, r);
    KeptSince(Next(s, e), es, r, s.db.now);
  }

  /** No statement touches the job of r. */
  predicate JobLeftAlone(s: State, es: seq<Event>, r: RunId)
    requires Valid(s, es)
    decreases |es|
  {
    es == [] ||
    (&& r in Next(s, es[0]).db.jobs && r in s.db.jobs && Next(s, es[0]).db.jobs[r] == s.db.jobs[r]
     && JobLeftAlone(Next(s, es[0]), es[1..], r))
  }

  lemma {:induction false} LeftAsItWas(s: State, es: seq<Event>, r: RunId)
    requires Valid(s, es) && r in s.db.jobs && JobLeftAlone(s, es, r)
    ensures r in After(s, es).db.jobs && After(s, es).db.jobs[r] == s.db.jobs[r]
    decreases |es|
  {
    if es != [] {
      LeftAsItWas(Next(s, es[0]), es[1..], r);
    }
  }

  /** The sweep removes exactly the jobs that ended more than a day ago. */
  lemma SweptExactly(s: State, r: RunId)
    requires r in s.db.jobs
    ensures r !in Next(s, DeleteOldJobs).db.jobs <==>
              && s.db.jobs[r].status in {JobDone, JobFailed}
              && s.db.jobs[r].updatedAt + 24 * 3600 * 1_000_000_000 < s.db.now
    ensures r in Next(s, DeleteOldJobs).db.jobs ==> Next(s, DeleteOldJobs).db.jobs[r] == s.db.jobs[r]
  {
  }

  /** And the first sweep after the day removes it, if nothing has touched it in between. */
  lemma EndedJobGoes(s: State, e: Event, es: seq<Event>, r: RunId)
    requires Enabled(s, e) && EndsJob(s, e, r) && r in s.db.runs && r in s.db.jobs
    requires Valid(Next(s, e), es) && JobLeftAlone(Next(s, e), es, r)
    requires s.db.now + 24 * 3600 * 1_000_000_000 < After(Next(s, e), es).db.now
    ensures r !in Next(After(Next(s, e), es), DeleteOldJobs).db.jobs
  {
    EndsNow(s, e, r);
    LeftAsItWas(Next(s, e), es, r);
    SweptExactly(After(Next(s, e), es), r);
  }

  /** A job that has not ended is never removed. */
  lemma LiveJobStays(s: State, e: Event, r: RunId)
    requires Enabled(s, e) && r in s.db.runs && r in s.db.jobs && s.db.jobs[r].status in {JobQueued, JobRunning}
    ensures r in Next(s, e).db.jobs
  {
    StepProjects(s, e, r);
    if e.DeleteOldJobs? {
      SweptExactly(s, r);
    }
  }
}
