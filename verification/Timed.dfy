/** The timed regime: exactly the steps that keep the job row, the run row and the worker of one
    run in agreement, the time budget under which workers take only such steps, and what
    agreement gives. */
module Timed {
  import opened Rows
  import opened System
  import opened Protocol
  import opened Creation
  import opened ClaimBound
  import opened Budget

  predicate Unreported(k: Token) {
    k.stage == Executing || k.stage.Reporting?
  }

  predicate AtRetry(l: Local, t: nat) {
    t in l.tokens && l.tokens[t].stage == Retrying
  }

  /** No lease runs out before its worker's first report, none is over when it is taken, no claim
      falls between the two statements of a failJob, and no report but the last of a retry is
      lost or cut off by a crash. Crashes while a container runs are timely, and so is every
      step of the cleaner and of the collector, whatever is lost of it. */
  predicate Timely(l: Local, a: Action) {
    match a
    case Clock(to) => forall t | t in l.tokens && Unreported(l.tokens[t]) :: to <= l.tokens[t].lease
    case Take(_, _, clock, maxTimeout) => l.now <= LeaseEnd(clock, maxTimeout) && l.tokens == map[]
    case Fail1(_, delivered) => delivered
    case Fail2(t, delivered) => delivered || AtRetry(l, t)
    case Finish1(_, delivered) => delivered
    case Finish2(_, delivered) => delivered
    case Die(t) => (t in l.tokens && Unreported(l.tokens[t])) || AtRetry(l, t)
    case _ => true
  }

  /** The step is timely as far as run r is concerned; other runs may do as they please. */
  predicate TimelyFor(s: State, e: Event, r: RunId)
    requires r in s.db.runs
  {
    Timely(View(s, r), Label(s, e, r))
  }

  // ---- Agreement of job, run and worker ----

  /** Nobody holds the run: its two rows tell the same story. A queued job may still have a
      running run when a cleaner pass is half done or the end of a retry was lost. */
  predicate AtRest(l: Local) {
    match l.job
    case None => Terminal(l.run.status)
    case Some(job) =>
      match job.status
      case JobQueued => l.run.status in {RunPending, RunRunning} && job.attempts <= job.maxAttempts
      case JobRunning => l.run.status == RunRunning && job.attempts <= job.maxAttempts + 1
      case JobDone => l.run.status in {RunPassed, RunFailed, RunTimeout} && job.attempts <= job.maxAttempts + 1
      case JobFailed => l.run.status == RunError && job.attempts == job.maxAttempts + 1
  }

  predicate HeldWhileRunning(l: Local, k: Token) {
    && l.job.Some? && l.job.value.status == JobRunning && l.run.status == RunRunning
    && l.job.value.attempts == k.snapshot + 1 && k.snapshot <= k.maxAttempts
    && l.job.value.leaseUntil == Some(k.lease) && l.now <= k.lease
  }

  /** One worker holds the run, at this stage of its report. */
  predicate Held(l: Local, k: Token) {
    && (l.job.Some? ==> k.maxAttempts == l.job.value.maxAttempts && l.job.value.attempts == k.snapshot + 1)
    && k.snapshot <= k.maxAttempts
    && match k.stage
       case Executing => HeldWhileRunning(l, k)
       case Reporting(_, _) => HeldWhileRunning(l, k)
       case Retrying =>
         && l.job.Some? && l.job.value.status == JobQueued && k.snapshot < k.maxAttempts
         && l.run.status in {RunPending, RunRunning}
       case GivingUp =>
         && (l.job.Some? ==> l.job.value.status == JobFailed) && k.snapshot == k.maxAttempts
         && l.run.status == RunRunning
       case Finishing(_, _) =>
         && (l.job.Some? ==> l.job.value.status == JobDone)
         && l.run.status == RunRunning
  }

  predicate Agreed(l: Local) {
    && (forall t, u | t in l.tokens && u in l.tokens :: t == u)
    && (forall t | t in l.tokens :: Held(l, l.tokens[t]))
    && (l.tokens == map[] ==> AtRest(l))
  }

  lemma FirstReportKeepsAgreement(l: Local, a: Action)
    requires Agreed(l) && Possible(l, a) && (a.Fail1? || a.Look? || a.Finish1?)
    ensures Agreed(Do(l, a)) <==> Timely(l, a)
  {
    assert Held(l, l.tokens[a.token]);
    assert Do(l, a).tokens.Keys == {a.token};
  }

  lemma LastReportKeepsAgreement(l: Local, a: Action)
    requires Agreed(l) && Possible(l, a) && (a.Fail2? || a.Finish2? || a.Die?)
    ensures Agreed(Do(l, a)) <==> Timely(l, a)
  {
    assert Held(l, l.tokens[a.token]);
    assert Do(l, a).tokens == map[];
  }

  lemma ClaimKeepsAgreement(l: Local, a: Action)
    requires Agreed(l) && Possible(l, a) && a.Take?
    ensures Agreed(Do(l, a)) <==> Timely(l, a)
  {
    var l' := Do(l, a);
    if u :| u in l.tokens {
      assert u in l'.tokens && a.token in l'.tokens && u != a.token;
    } else {
      assert l'.tokens.Keys == {a.token};
      assert Agreed(l') <==> Held(l', l'.tokens[a.token]);
    }
  }

  lemma ClockKeepsAgreement(l: Local, a: Action)
    requires Agreed(l) && Possible(l, a) && a.Clock?
    ensures Agreed(Do(l, a)) <==> Timely(l, a)
  {
  }

  /** Agreement survives a step exactly if the step is timely. */
  lemma AgreedExactly(l: Local, a: Action)
    requires Agreed(l) && Possible(l, a)
    ensures Agreed(Do(l, a)) <==> Timely(l, a)
  {
    if a.Fail1? || a.Look? || a.Finish1? {
      FirstReportKeepsAgreement(l, a);
    } else if a.Fail2? || a.Finish2? || a.Die? {
      LastReportKeepsAgreement(l, a);
    } else if a.Take? {
      ClaimKeepsAgreement(l, a);
    } else if a.Clock? {
      ClockKeepsAgreement(l, a);
    }
  }

  // ---- The time budget ----

  /** Whoever has not reported holds a full lease and is within the longest execution. */
  predicate WithinBudget(c: Config, l: Local) {
    forall t | t in l.tokens && Unreported(l.tokens[t]) ::
      && l.tokens[t].lease == l.tokens[t].claimedAt + Lease(c)
      && l.now <= l.tokens[t].claimedAt + Longest(c)
  }

  /** Clocks agree, all workers have the same MAX_TIMEOUT, and whoever holds the run sends its
      first report within the longest execution; for the rest as in Timely. */
  predicate Prompt(c: Config, l: Local, a: Action) {
    match a
    case Clock(to) => forall t | t in l.tokens && Unreported(l.tokens[t]) :: to <= l.tokens[t].claimedAt + Longest(c)
    case Take(_, _, clock, maxTimeout) => clock == l.now && maxTimeout == c.maxTimeout && l.tokens == map[]
    case _ => Timely(l, a)
  }

  /** Workers that keep to the budget are timely, because the lease outlasts the execution. */
  lemma PromptIsTimely(c: Config, l: Local, a: Action)
    requires ValidConfig(c) && WithinBudget(c, l) && Possible(l, a) && Prompt(c, l, a)
    ensures Timely(l, a) && WithinBudget(c, Do(l, a))
  {
    LeaseOutlastsRun(c);
  }

  // ---- What agreement gives ----

  /** At most one worker holds the run. Until it reports, the job is running on its attempt,
      under a lease the cleaner cannot take, and out of the queue. */
  lemma SingleHolder(l: Local, t: nat)
    requires Agreed(l) && t in l.tokens
    ensures forall u | u in l.tokens :: u == t
    ensures Unreported(l.tokens[t]) ==>
              && l.job.Some? && l.job.value.status == JobRunning
              && l.job.value.attempts == l.tokens[t].snapshot + 1
              && l.job.value.leaseUntil == Some(l.tokens[t].lease) && l.now <= l.tokens[t].lease
              && !Possible(l, Release) && !Eligible(l.job.value, l.now)
  {
  }

  predicate InPair(l: Local) {
    exists t :: t in l.tokens && !Unreported(l.tokens[t])
  }

  /** Between the paired statements aside, the job row says what the run row says. */
  lemma RowsAgree(l: Local)
    requires Agreed(l) && !InPair(l)
    ensures l.job.None? ==> Terminal(l.run.status)
    ensures l.job.Some? ==>
              match l.job.value.status
              case JobQueued => l.run.status in {RunPending, RunRunning}
              case JobRunning => l.run.status == RunRunning
              case JobDone => l.run.status in {RunPassed, RunFailed, RunTimeout}
              case JobFailed => l.run.status == RunError
  {
  }

  /** At most one attempt more than max_attempts; every job that failed has made it. */
  lemma AttemptsCounted(l: Local)
    requires Agreed(l) && l.job.Some?
    ensures l.job.value.attempts <= l.job.value.maxAttempts + 1
    ensures l.job.value.status == JobQueued ==> l.job.value.attempts <= l.job.value.maxAttempts
    ensures l.job.value.status == JobFailed ==> l.job.value.attempts == l.job.value.maxAttempts + 1
  {
  }

  /** The columns a client reads once the run has ended. */
  predicate SameResult(run: Run, run': Run) {
    run'.status == run.status && run'.exitCode == run.exitCode && run'.finishedAt == run.finishedAt
  }

  lemma TerminalByStep(l: Local, a: Action)
    requires Agreed(l) && Possible(l, a) && Terminal(l.run.status)
    ensures SameResult(l.run, Do(l, a).run)
    ensures Do(l, a).run.logPath == if a.Erase? then None else l.run.logPath
  {
  }

  // ---- Back to the system ----

  predicate TimelyTrace(s: State, es: seq<Event>, r: RunId)
    requires Valid(s, es) && r in s.db.runs
    decreases |es|
  {
    es == [] ||
    (StepProjects(s, es[0], r); TimelyFor(s, es[0], r) && TimelyTrace(Next(s, es[0]), es[1..], r))
  }

  /** Agreement in every state of the trace. */
  predicate AgreedThroughout(s: State, es: seq<Event>, r: RunId)
    requires Valid(s, es) && r in s.db.runs
    decreases |es|
  {
    && Agreed(View(s, r))
    && (es != [] ==> (StepProjects(s, es[0], r); AgreedThroughout(Next(s, es[0]), es[1..], r)))
  }

  /** A run that starts in agreement, as every run does when it is created, stays in agreement
      exactly as long as the steps are timely. */
  lemma {:induction false} AgreedAlong(s: State, es: seq<Event>, r: RunId)
    requires Valid(s, es) && r in s.db.runs && Agreed(View(s, r))
    ensures AgreedThroughout(s, es, r) <==> TimelyTrace(s, es, r)
    ensures r in After(s, es).db.runs && (TimelyTrace(s, es, r) ==> Agreed(View(After(s, es), r)))
    decreases |es|
  {
    TracesProject(s, es, r);
    if es != [] {
      StepProjects(s, es[0], r);
      AgreedExactly(View(s, r), Label(s, es[0], r));
      if TimelyFor(s, es[0], r) {
        AgreedAlong(Next(s, es[0]), es[1..], r);
      }
    }
  }

  predicate PromptTrace(c: Config, s: State, es: seq<Event>, r: RunId)
    requires Valid(s, es) && r in s.db.runs
    decreases |es|
  {
    es == [] ||
    (StepProjects(s, es[0], r);
     Prompt(c, View(s, r), Label(s, es[0], r)) && PromptTrace(c, Next(s, es[0]), es[1..], r))
  }

  /** So whatever agreement gives, the time budget gives. */
  lemma {:induction false} PromptTraceIsTimely(c: Config, s: State, es: seq<Event>, r: RunId)
    requires ValidConfig(c) && Valid(s, es) && r in s.db.runs
    requires WithinBudget(c, View(s, r)) && PromptTrace(c, s, es, r)
    ensures TimelyTrace(s, es, r)
    ensures r in After(s, es).db.runs && WithinBudget(c, View(After(s, es), r))
    decreases |es|
  {
    if es != [] {
      StepProjects(s, es[0], r);
      PromptIsTimely(c, View(s, r), Label(s, es[0], r));
      PromptTraceIsTimely(c, Next(s, es[0]), es[1..], r);
    }
  }

  lemma CreatedInAgreement(s: State, e: Event)
    requires Consistent(s) && Enabled(s, e) && e.CommitRun?
    ensures Agreed(View(Next(s, e), e.run))
  {
  }

  // ---- Claims in the timed regime ----

  function AttemptsLeft(l: Local): int {
    if l.job.None? then 0 else l.job.value.maxAttempts + 1 - l.job.value.attempts
  }

  lemma AttemptsLeftFall(l: Local, a: Action)
    requires Agreed(l) && Possible(l, a) && Timely(l, a)
    ensures AttemptsLeft(Do(l, a)) + (if a.Take? then 1 else 0) <= AttemptsLeft(l)
  {
  }

  /** A timely job is executed at most max_attempts + 1 times. */
  lemma {:induction false} TimelyClaims(s: State, es: seq<Event>, r: RunId)
    requires Valid(s, es) && r in s.db.runs
    requires Agreed(View(s, r)) && TimelyTrace(s, es, r)
    ensures 0 <= Claims(es, r) <= AttemptsLeft(View(s, r))
    decreases |es|
  {
    if es != [] {
      StepProjects(s, es[0], r);
      AttemptsLeftFall(View(s, r), Label(s, es[0], r));
      AgreedExactly(View(s, r), Label(s, es[0], r));
      TimelyClaims(Next(s, es[0]), es[1..], r);
    } else if View(s, r).job.Some? {
      AttemptsCounted(View(s, r));
    }
  }

  // ---- All runs at once ----

  predicate AllAgreed(s: State) {
    Consistent(s) && forall r | r in s.db.runs :: Agreed(View(s, r))
  }

  predicate TimelyForAll(s: State, e: Event) {
    forall r | r in s.db.runs :: TimelyFor(s, e, r)
  }

  /** All runs of the system, a new one included, stay in agreement exactly if the step is timely
      for each of them. */
  lemma AllAgreedByStep(s: State, e: Event)
    requires AllAgreed(s) && Enabled(s, e)
    ensures AllAgreed(Next(s, e)) <==> TimelyForAll(s, e)
  {
    var s' := Next(s, e);
    ConsistentByStep(s, e);
    RunsGrow(s, e);
    forall r | r in s'.db.runs
      ensures Agreed(View(s', r)) <==> r !in s.db.runs || TimelyFor(s, e, r)
    {
      if r in s.db.runs {
        StepProjects(s, e, r);
        AgreedExactly(View(s, r), Label(s, e, r));
      } else {
        CreatedInAgreement(s, e);
      }
    }
  }

  /** A transfer that rewrites delete_after is of a run that has ended for good. */
  predicate DownloadsFinished(s: State) {
    forall d | d in s.downloads :: s.downloads[d].run in s.db.runs && Terminal(s.db.runs[s.downloads[d].run].status)
  }

  lemma TerminalStays(s: State, e: Event, r: RunId)
    requires AllAgreed(s) && Enabled(s, e) && r in s.db.runs && Terminal(s.db.runs[r].status)
    ensures r in Next(s, e).db.runs && Terminal(Next(s, e).db.runs[r].status)
  {
    StepProjects(s, e, r);
    TerminalByStep(View(s, r), Label(s, e, r));
  }

  lemma DownloadsStayFinished(s: State, e: Event)
    requires AllAgreed(s) && DownloadsFinished(s) && Enabled(s, e)
    ensures DownloadsFinished(Next(s, e))
  {
    forall d | d in Next(s, e).downloads
      ensures Next(s, e).downloads[d].run in Next(s, e).db.runs
      ensures Terminal(Next(s, e).db.runs[Next(s, e).downloads[d].run].status)
    {
      TerminalStays(s, e, Next(s, e).downloads[d].run);
    }
  }
}
