/** One run seen on its own: its two rows, the workers that hold it, and the clock. Every step
    of the system is one of these local steps for every run that exists (`StepProjects`), and
    so is every trace (`TracesProject`). The per-run theorems are proved here and carried back. */
module Protocol {
  import opened Rows
  import opened Statements
  import opened System

  datatype Local = Local(id: RunId, now: Time, job: Option<Job>, run: Run, tokens: map<nat, Token>)

  datatype Action =
    | Idle
    | Clock(to: Time)
    | Take(token: nat, worker: nat, clock: Time, maxTimeout: int)
    | Fail1(token: nat, delivered: bool)
    | Fail2(token: nat, delivered: bool)
    | Look(token: nat, verdict: Verdict, log: Option<File>)
    | Finish1(token: nat, delivered: bool)
    | Finish2(token: nat, delivered: bool)
    | Die(token: nat)
    | Release
    | ResetRun
    | Prolong(ttl: int)
    | Erase
    | Sweep

  predicate At(l: Local, t: nat, a: Action) {
    && t in l.tokens
    && match a
       case Fail1(_, _) => l.tokens[t].stage == Executing
       case Look(_, _, _) => l.tokens[t].stage == Executing
       case Fail2(_, _) => l.tokens[t].stage in {Retrying, GivingUp}
       case Finish1(_, _) => l.tokens[t].stage.Reporting?
       case Finish2(_, _) => l.tokens[t].stage.Finishing?
       case _ => true
  }

  predicate Possible(l: Local, a: Action) {
    match a
    case Idle => true
    case Clock(to) => l.now <= to
    case Take(t, _, _, _) => t !in l.tokens && l.job.Some? && Eligible(l.job.value, l.now)
    case Fail1(t, _) => At(l, t, a)
    case Fail2(t, _) => At(l, t, a)
    case Look(t, _, _) => At(l, t, a)
    case Finish1(t, _) => At(l, t, a)
    case Finish2(t, _) => At(l, t, a)
    case Die(t) => t in l.tokens
    case Release => l.job.Some? && Expired(l.job.value, l.now)
    case ResetRun => l.job.Some? && l.job.value.status == JobQueued && l.run.status == RunRunning
    case Prolong(_) => true
    case Erase => true
    case Sweep => l.job.Some? && Stale(l.job.value, l.now)
  }

  /** The job row after a statement of failJob or finishRun, if it is still there. */
  function Fail1Job(l: Local, k: Token): Option<Job> {
    if l.job.None? then None
    else if k.snapshot < k.maxAttempts then Some(Retried(l.job.value, k.snapshot, l.now))
    else Some(GivenUp(l.job.value, l.now))
  }

  function Fail2Run(l: Local, k: Token): Run {
    if k.snapshot < k.maxAttempts then Requeued(l.run) else Errored(l.run, l.now)
  }

  function Do(l: Local, a: Action): Local
    requires Possible(l, a)
  {
    match a
    case Idle => l
    case Clock(to) => l.(now := to)
    case Take(t, worker, clock, maxTimeout) =>
      var job := l.job.value;
      var lease := LeaseEnd(clock, maxTimeout);
      l.(job := Some(Claimed(job, lease, worker, l.now)), run := Started(l.run, l.now),
         tokens := l.tokens[t := Token(l.id, job.attempts, job.maxAttempts, lease, l.now, Executing)])
    case Fail1(t, delivered) =>
      var k := l.tokens[t];
      l.(job := if delivered then Fail1Job(l, k) else l.job,
         tokens := l.tokens[t := k.(stage := if k.snapshot < k.maxAttempts then Retrying else GivingUp)])
    case Fail2(t, delivered) =>
      l.(run := if delivered then Fail2Run(l, l.tokens[t]) else l.run, tokens := l.tokens - {t})
    case Look(t, v, log) => l.(tokens := l.tokens[t := l.tokens[t].(stage := Reporting(v, log))])
    case Finish1(t, delivered) =>
      var k := l.tokens[t];
      l.(job := if delivered && l.job.Some? then Some(Completed(l.job.value, l.now)) else l.job,
         tokens := l.tokens[t := k.(stage := Finishing(k.stage.verdict, k.stage.log))])
    case Finish2(t, delivered) =>
      var k := l.tokens[t];
      l.(run := if delivered then Finished(l.run, k.stage.v, k.stage.path, l.now) else l.run, tokens := l.tokens - {t})
    case Die(t) => l.(tokens := l.tokens - {t})
    case Release => l.(job := Some(Released(l.job.value, l.now)))
    case ResetRun => l.(run := Reset(l.run))
    case Prolong(ttl) => l.(run := Received(l.run, ttl, l.now))
    case Erase => l.(run := Erased(l.run, l.now))
    case Sweep => l.(job := None)
  }

  // ---- From the system to one run ----

  function TokensOf(s: State, r: RunId): map<nat, Token> {
    map t | t in s.tokens && s.tokens[t].run == r :: s.tokens[t]
  }

  function View(s: State, r: RunId): Local
    requires r in s.db.runs
  {
    Local(r, s.db.now, if r in s.db.jobs then Some(s.db.jobs[r]) else None, s.db.runs[r], TokensOf(s, r))
  }

  predicate Holds(s: State, t: nat, r: RunId) {
    t in s.tokens && s.tokens[t].run == r
  }

  predicate Transfers(s: State, d: nat, r: RunId) {
    d in s.downloads && s.downloads[d].run == r
  }

  /** What a step of the system is to run r. */
  function Label(s: State, e: Event, r: RunId): Action {
    match e
    case Tick(to) => Clock(to)
    case ClaimJob(t, k, worker, clock, maxTimeout) => if k == r then Take(t, worker, clock, maxTimeout) else Idle
    case FailFirst(t, delivered) => if Holds(s, t, r) then Fail1(t, delivered) else Idle
    case FailSecond(t, delivered) => if Holds(s, t, r) then Fail2(t, delivered) else Idle
    case StatLog(t, v) => if Holds(s, t, r) then Look(t, v, LogFound(s.db, r)) else Idle
    case FinishFirst(t, delivered) => if Holds(s, t, r) then Finish1(t, delivered) else Idle
    case FinishSecond(t, delivered) => if Holds(s, t, r) then Finish2(t, delivered) else Idle
    case Crash(t) => if Holds(s, t, r) then Die(t) else Idle
    case ReleaseJobs => if r in s.db.jobs && Expired(s.db.jobs[r], s.db.now) then Release else Idle
    case ReleaseRuns(delivered) => if delivered && HalfReleased(s.db, r) then ResetRun else Idle
    case EndDownload(d, ttl, delivered) => if Transfers(s, d, r) && delivered then Prolong(ttl) else Idle
    case EraseRunRow(k, delivered) => if k == r && delivered then Erase else Idle
    case DeleteOldJobs => if r in s.db.jobs && Stale(s.db.jobs[r], s.db.now) then Sweep else Idle
    case _ => Idle
  }

  ghost predicate Projects(s: State, e: Event, r: RunId)
    requires Enabled(s, e) && r in s.db.runs
  {
    && r in Next(s, e).db.runs
    && Possible(View(s, r), Label(s, e, r))
    && View(Next(s, e), r) == Do(View(s, r), Label(s, e, r))
  }

  lemma ClaimProjects(s: State, e: Event, r: RunId)
    requires Enabled(s, e) && r in s.db.runs && e.ClaimJob?
    ensures Projects(s, e, r)
  {
  }

  lemma FailFirstProjects(s: State, e: Event, r: RunId)
    requires Enabled(s, e) && r in s.db.runs && e.FailFirst? && e.delivered && Holds(s, e.token, r)
    ensures Projects(s, e, r)
  {
  }

  lemma OtherFailFirstProjects(s: State, e: Event, r: RunId)
    requires Enabled(s, e) && r in s.db.runs && e.FailFirst? && !(e.delivered && Holds(s, e.token, r))
    ensures Projects(s, e, r)
  {
  }

  lemma FailSecondProjects(s: State, e: Event, r: RunId)
    requires Enabled(s, e) && r in s.db.runs && e.FailSecond? && e.delivered && Holds(s, e.token, r)
    ensures Projects(s, e, r)
  {
  }

  lemma OtherFailSecondProjects(s: State, e: Event, r: RunId)
    requires Enabled(s, e) && r in s.db.runs && e.FailSecond? && !(e.delivered && Holds(s, e.token, r))
    ensures Projects(s, e, r)
  {
  }

  lemma CrashProjects(s: State, e: Event, r: RunId)
    requires Enabled(s, e) && r in s.db.runs && e.Crash?
    ensures Projects(s, e, r)
  {
  }

  lemma LookProjects(s: State, e: Event, r: RunId)
    requires Enabled(s, e) && r in s.db.runs && e.StatLog?
    ensures Projects(s, e, r)
  {
  }

  lemma FinishFirstProjects(s: State, e: Event, r: RunId)
    requires Enabled(s, e) && r in s.db.runs && e.FinishFirst?
    ensures Projects(s, e, r)
  {
  }

  lemma FinishSecondProjects(s: State, e: Event, r: RunId)
    requires Enabled(s, e) && r in s.db.runs && e.FinishSecond?
    ensures Projects(s, e, r)
  {
  }

  lemma CleanerProjects(s: State, e: Event, r: RunId)
    requires Enabled(s, e) && r in s.db.runs && (e.ReleaseJobs? || e.ReleaseRuns? || e.DeleteOldJobs?)
    ensures Projects(s, e, r)
  {
  }

  predicate ByWorkerOrCleaner(e: Event) {
    || e.ClaimJob? || e.FailFirst? || e.FailSecond? || e.Crash? || e.StatLog? || e.FinishFirst? || e.FinishSecond?
    || e.ReleaseJobs? || e.ReleaseRuns? || e.DeleteOldJobs?
  }

  lemma ManagerProjects(s: State, e: Event, r: RunId)
    requires Enabled(s, e) && r in s.db.runs && !ByWorkerOrCleaner(e)
    ensures Projects(s, e, r)
  {
  }

  /** Every step of the system is a possible local step of every existing run. */
  lemma StepProjects(s: State, e: Event, r: RunId)
    requires Enabled(s, e) && r in s.db.runs
    ensures Projects(s, e, r)
  {
    if e.ClaimJob? {
      ClaimProjects(s, e, r);
    } else if e.FailFirst? && e.delivered && Holds(s, e.token, r) {
      FailFirstProjects(s, e, r);
    } else if e.FailFirst? {
      OtherFailFirstProjects(s, e, r);
    } else if e.FailSecond? && e.delivered && Holds(s, e.token, r) {
      FailSecondProjects(s, e, r);
    } else if e.FailSecond? {
      OtherFailSecondProjects(s, e, r);
    } else if e.Crash? {
      CrashProjects(s, e, r);
    } else if e.StatLog? {
      LookProjects(s, e, r);
    } else if e.FinishFirst? {
      FinishFirstProjects(s, e, r);
    } else if e.FinishSecond? {
      FinishSecondProjects(s, e, r);
    } else if e.ReleaseJobs? || e.ReleaseRuns? || e.DeleteOldJobs? {
      CleanerProjects(s, e, r);
    } else {
      ManagerProjects(s, e, r);
    }
  }

  // ---- Traces ----

  predicate Follows(l: Local, acts: seq<Action>)
    decreases |acts|
  {
    acts == [] || (Possible(l, acts[0]) && Follows(Do(l, acts[0]), acts[1..]))
  }

  function DoAll(l: Local, acts: seq<Action>): Local
    requires Follows(l, acts)
    decreases |acts|
  {
    if acts == [] then l else DoAll(Do(l, acts[0]), acts[1..])
  }

  function Labels(s: State, es: seq<Event>, r: RunId): (acts: seq<Action>)
    requires Valid(s, es)
    ensures |acts| == |es|
    decreases |es|
  {
    if es == [] then [] else [Label(s, es[0], r)] + Labels(Next(s, es[0]), es[1..], r)
  }

  /** Every trace of the system is, for every run it starts with, a trace of that run alone. */
  lemma {:induction false} TracesProject(s: State, es: seq<Event>, r: RunId)
    requires Valid(s, es) && r in s.db.runs
    ensures r in After(s, es).db.runs
    ensures Follows(View(s, r), Labels(s, es, r))
    ensures View(After(s, es), r) == DoAll(View(s, r), Labels(s, es, r))
    decreases |es|
  {
    if es != [] {
      StepProjects(s, es[0], r);
      TracesProject(Next(s, es[0]), es[1..], r);
      assert Labels(s, es, r)[1..] == Labels(Next(s, es[0]), es[1..], r);
    }
  }
}
