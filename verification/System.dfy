/** The whole system as a state machine over committed statements. Between any two statements
    of one actor every other actor may act; a worker may crash at any point; a bare statement
    whose error the code ignores may be lost (`delivered == false`); clocks of the workers are
    their own. This is the unrestricted regime: `Enabled` asks nothing but what the code asks. */
module System {
  import opened Rows
  import opened Statements

  /** Where a worker stands in executeJob, failJob or finishRun. */
  datatype Stage =
    | Executing
    | Reporting(verdict: Verdict, log: Option<File>)  // finishRun has looked for the log file
    | Retrying                                        // first statement of failJob, retry branch, is behind it
    | GivingUp                                        // first statement of failJob, final branch, is behind it
    | Finishing(v: Verdict, path: Option<File>)       // first statement of finishRun is behind it

  /** What a worker carries from its claim: the attempts read before they were incremented. */
  datatype Token = Token(run: RunId, snapshot: nat, maxAttempts: nat, lease: Time, claimedAt: Time, stage: Stage)

  /** A POST /runs whose artifact check has passed and whose transaction has not yet committed. */
  datatype Request = Request(artifact: ArtifactId, client: ClientId)

  /** Work the garbage collector has read from a query and not yet finished. */
  datatype GcTask =
    | RemoveLog(run: RunId, log: Option<File>)
    | MarkRun(run: RunId)
    | RemoveTarball(artifact: ArtifactId)
    | MarkArtifact(artifact: ArtifactId)

  /** A GET /runs/{id}/log that has passed the test of the row, and perhaps opened the file. */
  datatype Transfer = Transfer(run: RunId, path: File, reading: bool)

  datatype State = State(
    db: Db,
    tokens: map<nat, Token>,
    requests: map<nat, Request>,
    releasing: nat,              // cleaners between their two statements
    downloads: map<nat, Transfer>,
    gc: set<GcTask>)

  datatype Event =
    | Tick(to: Time)
    | Upload(artifact: ArtifactId, client: ClientId)
    | CheckArtifact(request: nat, artifact: ArtifactId, client: ClientId)
    | CommitRun(request: nat, run: RunId, ttl: int)
    | DropRequest(request: nat)
    | ClaimJob(token: nat, run: RunId, worker: nat, clock: Time, maxTimeout: int)
    | WriteLog(run: RunId)
    | FailFirst(token: nat, delivered: bool)
    | FailSecond(token: nat, delivered: bool)
    | StatLog(token: nat, verdict: Verdict)
    | FinishFirst(token: nat, delivered: bool)
    | FinishSecond(token: nat, delivered: bool)
    | Crash(token: nat)
    | ReleaseJobs
    | ReleaseRuns(delivered: bool)
    | StartDownload(transfer: nat, run: RunId)
    | OpenLog(transfer: nat)
    | EndDownload(transfer: nat, ttl: int, delivered: bool)
    | SelectRuns(batch: set<RunId>)
    | UnlinkLog(run: RunId, log: Option<File>, ok: bool)
    | EraseRunRow(run: RunId, delivered: bool)
    | SelectArtifacts(batch: set<ArtifactId>)
    | UnlinkTarball(artifact: ArtifactId, ok: bool)
    | EraseArtifactRow(artifact: ArtifactId, delivered: bool)
    | AbandonTask(task: GcTask)
    | DeleteOldJobs

  ghost const Init: State :=
    State(Db(0, map[], map[], map[], {}), map[], map[], 0, map[], {})

  predicate AtStage(s: State, t: nat, e: Event) {
    && t in s.tokens
    && match e
       case FailFirst(_, _) => s.tokens[t].stage == Executing
       case StatLog(_, _) => s.tokens[t].stage == Executing
       case FailSecond(_, _) => s.tokens[t].stage in {Retrying, GivingUp}
       case FinishFirst(_, _) => s.tokens[t].stage.Reporting?
       case FinishSecond(_, _) => s.tokens[t].stage.Finishing?
       case _ => true
  }

  predicate Enabled(s: State, e: Event) {
    match e
    case Tick(to) => s.db.now <= to
    case Upload(a, _) => a !in s.db.artifacts
    case CheckArtifact(q, a, client) => q !in s.requests && ArtifactUsable(s.db, a, client)
    case CommitRun(q, r, _) =>
      q in s.requests && s.requests[q].artifact in s.db.artifacts && r !in s.db.runs && r !in s.db.jobs
    case DropRequest(q) => q in s.requests
    case ClaimJob(t, r, _, _, _) => t !in s.tokens && NextJob(s.db, r)
    case WriteLog(r) => r in s.db.runs
    case FailFirst(t, _) => AtStage(s, t, e)
    case FailSecond(t, _) => AtStage(s, t, e)
    case StatLog(t, _) => AtStage(s, t, e)
    case FinishFirst(t, _) => AtStage(s, t, e)
    case FinishSecond(t, _) => AtStage(s, t, e)
    case Crash(t) => t in s.tokens
    case ReleaseJobs => true
    case ReleaseRuns(_) => s.releasing > 0
    case StartDownload(d, r) => d !in s.downloads && LogListed(s.db, r)
    case OpenLog(d) => d in s.downloads && s.downloads[d].path in s.db.files
    case EndDownload(d, _, delivered) => d in s.downloads && (delivered ==> s.downloads[d].reading)
    case SelectRuns(batch) => Batch(OverdueRuns(s.db), batch)
    case UnlinkLog(r, log, _) => RemoveLog(r, log) in s.gc
    case EraseRunRow(r, _) => MarkRun(r) in s.gc
    case SelectArtifacts(batch) => Batch(SpentArtifacts(s.db), batch)
    case UnlinkTarball(a, _) => RemoveTarball(a) in s.gc
    case EraseArtifactRow(a, _) => MarkArtifact(a) in s.gc
    case AbandonTask(task) => task in s.gc
    case DeleteOldJobs => true
  }

  // ---- The steps of a worker ----

  /** leaseDuration: what the agent adds to its own clock. */
  function LeaseEnd(clock: Time, maxTimeout: int): Time {
    clock + maxTimeout + 30 * SECOND
  }

  function ClaimStep(s: State, t: nat, r: RunId, worker: nat, clock: Time, maxTimeout: int): State
    requires Claimable(s.db, r)
  {
    var job := s.db.jobs[r];
    var lease := LeaseEnd(clock, maxTimeout);
    s.(db := Claim(s.db, r, lease, worker),
       tokens := s.tokens[t := Token(r, job.attempts, job.maxAttempts, lease, s.db.now, Executing)])
  }

  function FailFirstStep(s: State, t: nat, delivered: bool): State
    requires t in s.tokens
  {
    var k := s.tokens[t];
    s.(db := if delivered then FailJobFirst(s.db, k.run, k.snapshot, k.maxAttempts) else s.db,
       tokens := s.tokens[t := k.(stage := if k.snapshot < k.maxAttempts then Retrying else GivingUp)])
  }

  function FailSecondStep(s: State, t: nat, delivered: bool): State
    requires t in s.tokens
  {
    var k := s.tokens[t];
    s.(db := if delivered then FailJobSecond(s.db, k.run, k.snapshot, k.maxAttempts) else s.db,
       tokens := s.tokens - {t})
  }

  function LogFound(db: Db, r: RunId): Option<File> {
    if RunLog(r) in db.files then Some(RunLog(r)) else None
  }

  function StatStep(s: State, t: nat, v: Verdict): State
    requires t in s.tokens
  {
    s.(tokens := s.tokens[t := s.tokens[t].(stage := Reporting(v, LogFound(s.db, s.tokens[t].run)))])
  }

  function FinishFirstStep(s: State, t: nat, delivered: bool): State
    requires t in s.tokens && s.tokens[t].stage.Reporting?
  {
    var k := s.tokens[t];
    s.(db := if delivered then Complete(s.db, k.run) else s.db,
       tokens := s.tokens[t := k.(stage := Finishing(k.stage.verdict, k.stage.log))])
  }

  function FinishSecondStep(s: State, t: nat, delivered: bool): State
    requires t in s.tokens && s.tokens[t].stage.Finishing?
  {
    var k := s.tokens[t];
    s.(db := if delivered then Finish(s.db, k.run, k.stage.v, k.stage.path) else s.db,
       tokens := s.tokens - {t})
  }

  // ---- The steps of the garbage collector ----

  function SelectRunsStep(s: State, batch: set<RunId>): State
    requires batch <= s.db.runs.Keys
  {
    s.(gc := s.gc + set r | r in batch :: RemoveLog(r, s.db.runs[r].logPath))
  }

  function UnlinkLogStep(s: State, r: RunId, log: Option<File>, ok: bool): State {
    s.(db := s.db.(files := if log.Some? && ok then s.db.files - {log.value} else s.db.files),
       gc := s.gc - {RemoveLog(r, log)} + {MarkRun(r)})
  }

  function Next(s: State, e: Event): State
    requires Enabled(s, e)
  {
    match e
    case Tick(to) => s.(db := s.db.(now := to))
    case Upload(a, client) =>
      s.(db := s.db.(artifacts := s.db.artifacts[a := Artifact(client, None, None)],
                     files := s.db.files + {Tarball(a)}))
    case CheckArtifact(q, a, client) => s.(requests := s.requests[q := Request(a, client)])
    case CommitRun(q, r, ttl) =>
      s.(db := CreateRun(s.db, r, s.requests[q].client, s.requests[q].artifact, ttl), requests := s.requests - {q})
    case DropRequest(q) => s.(requests := s.requests - {q})
    case ClaimJob(t, r, worker, clock, maxTimeout) => ClaimStep(s, t, r, worker, clock, maxTimeout)
    case WriteLog(r) => s.(db := s.db.(files := s.db.files + {RunLog(r)}))
    case FailFirst(t, delivered) => FailFirstStep(s, t, delivered)
    case FailSecond(t, delivered) => FailSecondStep(s, t, delivered)
    case StatLog(t, v) => StatStep(s, t, v)
    case FinishFirst(t, delivered) => FinishFirstStep(s, t, delivered)
    case FinishSecond(t, delivered) => FinishSecondStep(s, t, delivered)
    case Crash(t) => s.(tokens := s.tokens - {t})
    case ReleaseJobs =>
      s.(db := ReleaseLeases(s.db),
         releasing := s.releasing + if exists r :: r in s.db.jobs && Expired(s.db.jobs[r], s.db.now) then 1 else 0)
    case ReleaseRuns(delivered) =>
      s.(db := if delivered then ResetReleased(s.db) else s.db, releasing := s.releasing - 1)
    case StartDownload(d, r) => s.(downloads := s.downloads[d := Transfer(r, s.db.runs[r].logPath.value, false)])
    case OpenLog(d) => s.(downloads := s.downloads[d := s.downloads[d].(reading := true)])
    case EndDownload(d, ttl, delivered) =>
      s.(db := if delivered then Receive(s.db, s.downloads[d].run, ttl) else s.db, downloads := s.downloads - {d})
    case SelectRuns(batch) => SelectRunsStep(s, batch)
    case UnlinkLog(r, log, ok) => UnlinkLogStep(s, r, log, ok)
    case EraseRunRow(r, delivered) =>
      s.(db := if delivered then EraseRun(s.db, r) else s.db, gc := s.gc - {MarkRun(r)})
    case SelectArtifacts(batch) => s.(gc := s.gc + set a | a in batch :: RemoveTarball(a))
    case UnlinkTarball(a, ok) =>
      s.(db := if ok then s.db.(files := s.db.files - {Tarball(a)}) else s.db,
         gc := s.gc - {RemoveTarball(a)} + {MarkArtifact(a)})
    case EraseArtifactRow(a, delivered) =>
      s.(db := if delivered then EraseArtifact(s.db, a) else s.db, gc := s.gc - {MarkArtifact(a)})
    case AbandonTask(task) => s.(gc := s.gc - {task})
    case DeleteOldJobs => s.(db := SweepJobs(s.db))
  }

  // ---- Traces ----

  predicate Valid(s: State, es: seq<Event>)
    decreases |es|
  {
    es == [] || (Enabled(s, es[0]) && Valid(Next(s, es[0]), es[1..]))
  }

  function After(s: State, es: seq<Event>): State
    requires Valid(s, es)
    decreases |es|
  {
    if es == [] then s else After(Next(s, es[0]), es[1..])
  }

  lemma OneStep(s: State, a: Event)
    requires Enabled(s, a)
    ensures Valid(s, [a]) && After(s, [a]) == Next(s, a)
  {
  }

  lemma TwoSteps(s: State, a: Event, b: Event)
    requires Enabled(s, a) && Enabled(Next(s, a), b)
    ensures Valid(s, [a, b]) && After(s, [a, b]) == Next(Next(s, a), b)
  {
    OneStep(Next(s, a), b);
    assert [a, b][1..] == [b];
  }

  lemma {:induction false} TracesJoin(s: State, es: seq<Event>, fs: seq<Event>)
    requires Valid(s, es) && Valid(After(s, es), fs)
    ensures Valid(s, es + fs) && After(s, es + fs) == After(After(s, es), fs)
    decreases |es|
  {
    if es == [] {
      assert es + fs == fs;
    } else {
      assert (es + fs)[0] == es[0] && (es + fs)[1..] == es[1..] + fs;
      TracesJoin(Next(s, es[0]), es[1..], fs);
    }
  }
}
