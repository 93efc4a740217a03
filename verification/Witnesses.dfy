/** Traces of the real system that mark the limits of the theorems: the bounds on claims are
    reached, and untimely steps lead to what the timed regime excludes. */
module Witnesses {
  import opened Rows
  import opened Statements
  import opened System
  import opened Protocol
  import opened Creation
  import opened ClaimBound
  import opened Budget
  import opened Timed
  import opened Permanence
  import opened Recovery

  /** The only job is r's, in this state; workers `lo` to `hi - 1` still execute the attempts of
      the same numbers, and no worker bears a number from `attempts` up. */
  predicate Scene(s: State, r: RunId, max: nat, status: JobStatus, attempts: nat, lo: nat, hi: nat) {
    && s.db.jobs.Keys == {r} && r in s.db.runs && s.db.runs[r].artifact in s.db.artifacts
    && s.db.jobs[r].status == status && s.db.jobs[r].attempts == attempts && s.db.jobs[r].maxAttempts == max
    && (status == JobQueued ==> s.db.jobs[r].leaseUntil == None)
    && (status == JobRunning ==> s.db.jobs[r].leaseUntil != None)
    && (forall t | lo <= t < hi :: t in s.tokens && ExecutesAttempt(s.tokens[t], r, max, t))
    && (forall t | t in s.tokens :: t < attempts)
  }

  predicate ExecutesAttempt(k: Token, r: RunId, max: nat, n: nat) {
    k.run == r && k.snapshot == n && k.maxAttempts == max && k.stage == Executing
  }

  function Later(s: State, t: Time): Time { if t < s.db.now then s.db.now else t }

  /** Waiting until the job is available and claiming it. */
  function Pick(s: State, r: RunId): seq<Event>
    requires r in s.db.jobs
  {
    var to := Later(s, s.db.jobs[r].availableAt);
    [Tick(to), ClaimJob(s.db.jobs[r].attempts, r, 0, to, 0)]
  }

  lemma PickWorks(s: State, r: RunId, max: nat, attempts: nat, lo: nat, hi: nat)
    requires Scene(s, r, max, JobQueued, attempts, lo, hi) && hi <= attempts
    ensures Valid(s, Pick(s, r))
    ensures Scene(After(s, Pick(s, r)), r, max, JobRunning, attempts + 1, lo, hi)
    ensures After(s, Pick(s, r)).tokens.Keys == s.tokens.Keys + {attempts}
    ensures forall t | t in s.tokens :: After(s, Pick(s, r)).tokens[t] == s.tokens[t]
    ensures ExecutesAttempt(After(s, Pick(s, r)).tokens[attempts], r, max, attempts)
    ensures After(s, Pick(s, r)).db.runs[r].status == RunRunning
    ensures After(s, Pick(s, r)).db.now == Later(s, s.db.jobs[r].availableAt)
  {
    var es := Pick(s, r);
    var s1 := Next(s, es[0]);
    assert Claimable(s1.db, r) && NextJob(s1.db, r);
    assert attempts !in s1.tokens;
    TwoSteps(s, es[0], es[1]);
  }

  /** Waiting until the lease is over and letting the cleaner run. */
  function Overrun(s: State, r: RunId): seq<Event>
    requires r in s.db.jobs && s.db.jobs[r].leaseUntil != None
  {
    [Tick(Later(s, s.db.jobs[r].leaseUntil.value + 1)), ReleaseJobs]
  }

  lemma OverrunWorks(s: State, r: RunId, max: nat, attempts: nat, lo: nat, hi: nat)
    requires Scene(s, r, max, JobRunning, attempts, lo, hi) && attempts < max
    ensures Valid(s, Overrun(s, r)) && Scene(After(s, Overrun(s, r)), r, max, JobQueued, attempts, lo, hi)
  {
    TwoSteps(s, Overrun(s, r)[0], ReleaseJobs);
    assert Next(Next(s, Overrun(s, r)[0]), ReleaseJobs).db.jobs.Keys == {r};
  }

  lemma {:induction false} ClaimsJoin(es: seq<Event>, fs: seq<Event>, r: RunId)
    ensures Claims(es + fs, r) == Claims(es, r) + Claims(fs, r)
    decreases |es|
  {
    if es == [] {
      assert es + fs == fs;
    } else {
      assert (es + fs)[0] == es[0] && (es + fs)[1..] == es[1..] + fs;
      ClaimsJoin(es[1..], fs, r);
    }
  }

  lemma Joined(s: State, es: seq<Event>, fs: seq<Event>, r: RunId)
    requires Valid(s, es) && Valid(After(s, es), fs)
    ensures Valid(s, es + fs) && After(s, es + fs) == After(After(s, es), fs)
    ensures Claims(es + fs, r) == Claims(es, r) + Claims(fs, r)
  {
    TracesJoin(s, es, fs);
    ClaimsJoin(es, fs, r);
  }

  // ---- The claim bound is reached ----

  /** Nobody reports, and the manager and the collector stand still. */
  predicate OnlyOverruns(es: seq<Event>) {
    forall e | e in es :: e.Tick? || e.ClaimJob? || e.ReleaseJobs?
  }

  /** Every worker overruns its lease as long as the cleaner can still release the job. */
  lemma {:induction false} Overruns(s: State, r: RunId, max: nat, attempts: nat) returns (es: seq<Event>)
    requires Scene(s, r, max, JobQueued, attempts, 0, attempts) && attempts < max
    ensures Valid(s, es) && Claims(es, r) == max - attempts && OnlyOverruns(es)
    ensures Scene(After(s, es), r, max, JobRunning, max, 0, max)
    decreases max - attempts
  {
    PickWorks(s, r, max, attempts, 0, attempts);
    var s1 := After(s, Pick(s, r));
    PickIsOneClaim(s, r);
    if attempts + 1 == max {
      es := Pick(s, r);
    } else {
      OverrunWorks(s1, r, max, attempts + 1, 0, attempts + 1);
      Joined(s, Pick(s, r), Overrun(s1, r), r);
      var s2 := After(s1, Overrun(s1, r));
      var rest := Overruns(s2, r, max, attempts + 1);
      Joined(s, Pick(s, r) + Overrun(s1, r), rest, r);
      OverrunIsNoClaim(s1, r);
      es := Pick(s, r) + Overrun(s1, r) + rest;
    }
  }

  lemma ClaimsOfTwo(a: Event, b: Event, r: RunId)
    ensures Claims([a, b], r) == One(a.ClaimJob? && a.run == r) + One(b.ClaimJob? && b.run == r)
  {
    assert [a, b][1..] == [b] && [b][1..] == [];
    assert Claims([b], r) == One(b.ClaimJob? && b.run == r) + Claims([], r);
  }

  lemma PickIsOneClaim(s: State, r: RunId)
    requires r in s.db.jobs
    ensures Claims(Pick(s, r), r) == 1
  {
    ClaimsOfTwo(Pick(s, r)[0], Pick(s, r)[1], r);
  }

  lemma OverrunIsNoClaim(s: State, r: RunId)
    requires r in s.db.jobs && s.db.jobs[r].leaseUntil != None
    ensures Claims(Overrun(s, r), r) == 0
  {
    ClaimsOfTwo(Overrun(s, r)[0], ReleaseJobs, r);
  }

  /** Then the late workers fail one after another, and each of them queues the job again. */
  lemma {:induction false} LateFailures(s: State, r: RunId, max: nat, n: nat) returns (es: seq<Event>)
    requires n <= max && Scene(s, r, max, JobRunning, max + n, n, max)
    ensures Valid(s, es) && Claims(es, r) == max - n
    decreases max - n
  {
    if n == max {
      es := [];
    } else {
      assert ExecutesAttempt(s.tokens[n], r, max, n);
      OneStep(s, FailFirst(n, true));
      var s1 := Next(s, FailFirst(n, true));
      PickWorks(s1, r, max, max + n, n + 1, max);
      PickIsOneClaim(s1, r);
      Joined(s, [FailFirst(n, true)], Pick(s1, r), r);
      var rest := LateFailures(After(s1, Pick(s1, r)), r, max, n + 1);
      Joined(s, [FailFirst(n, true)] + Pick(s1, r), rest, r);
      es := [FailFirst(n, true)] + Pick(s1, r) + rest;
    }
  }

  /** For every max_attempts there is a trace with exactly 2·max_attempts claims of one job. */
  lemma ClaimBoundReached(s: State, r: RunId, max: nat) returns (es: seq<Event>)
    requires Scene(s, r, max, JobQueued, 0, 0, 0)
    ensures Valid(s, es) && Claims(es, r) == 2 * max
  {
    if max == 0 {
      return [];
    }
    var early := Overruns(s, r, max, 0);
    var late := LateFailures(After(s, early), r, max, 0);
    Joined(s, early, late, r);
    es := early + late;
  }

  /** An upload and a POST in the empty system. */
  const FIRST_RUN: seq<Event> := [Upload(0, 0)] + [CheckArtifact(0, 0, 0), CommitRun(0, 0, HOUR)]

  lemma FirstRun()
    ensures Valid(Init, FIRST_RUN) && Scene(After(Init, FIRST_RUN), 0, MAX_ATTEMPTS, JobQueued, 0, 0, 0)
    ensures Claims(FIRST_RUN, 0) == 0
  {
    OneStep(Init, Upload(0, 0));
    TwoSteps(Next(Init, Upload(0, 0)), CheckArtifact(0, 0, 0), CommitRun(0, 0, HOUR));
    Joined(Init, [Upload(0, 0)], [CheckArtifact(0, 0, 0), CommitRun(0, 0, HOUR)], 0);
    ClaimsOfTwo(CheckArtifact(0, 0, 0), CommitRun(0, 0, HOUR), 0);
  }

  /** Six claims of one job, from the empty system. */
  lemma SixClaimsHappen() returns (es: seq<Event>)
    ensures Valid(Init, es) && Claims(es, 0) == 2 * MAX_ATTEMPTS
  {
    FirstRun();
    var rest := ClaimBoundReached(After(Init, FIRST_RUN), 0, MAX_ATTEMPTS);
    Joined(Init, FIRST_RUN, rest, 0);
    es := FIRST_RUN + rest;
  }

  // ---- One attempt too many ----

  lemma {:induction false} PromptJoined(c: Config, s: State, es: seq<Event>, fs: seq<Event>, r: RunId)
    requires Valid(s, es) && Valid(After(s, es), fs) && r in s.db.runs && r in After(s, es).db.runs
    requires PromptTrace(c, s, es, r) && PromptTrace(c, After(s, es), fs, r)
    ensures Valid(s, es + fs) && PromptTrace(c, s, es + fs, r)
    decreases |es|
  {
    Joined(s, es, fs, r);
    if es == [] {
      assert es + fs == fs;
    } else {
      assert (es + fs)[0] == es[0] && (es + fs)[1..] == es[1..] + fs;
      StepProjects(s, es[0], r);
      Joined(Next(s, es[0]), es[1..], fs, r);
      TracesProject(Next(s, es[0]), es[1..], r);
      PromptJoined(c, Next(s, es[0]), es[1..], fs, r);
    }
  }

  lemma PromptTwo(c: Config, s: State, a: Event, b: Event, r: RunId)
    requires Enabled(s, a) && Enabled(Next(s, a), b) && r in s.db.runs && r in Next(s, a).db.runs
    requires Prompt(c, View(s, r), Label(s, a, r)) && Prompt(c, View(Next(s, a), r), Label(Next(s, a), b, r))
    ensures Valid(s, [a, b]) && PromptTrace(c, s, [a, b], r)
  {
    TwoSteps(s, a, b);
    StepProjects(Next(s, a), b, r);
    assert [a, b][1..] == [b] && [b][1..] == [];
    assert PromptTrace(c, Next(Next(s, a), b), [], r);
    assert PromptTrace(c, Next(s, a), [b], r);
  }

  /** A claim and a failed attempt, never late, with an attempt left. */
  lemma OneFailure(s: State, r: RunId, max: nat, attempts: nat) returns (es: seq<Event>)
    requires Scene(s, r, max, JobQueued, attempts, attempts, attempts) && attempts < max && s.tokens == map[]
    ensures Valid(s, es) && Claims(es, r) == 1 && PromptTrace(Config(0, 0), s, es, r)
    ensures Scene(After(s, es), r, max, JobQueued, attempts + 1, attempts + 1, attempts + 1)
    ensures After(s, es).tokens == map[]
  {
    var pick, fail := Pick(s, r), [FailFirst(attempts, true), FailSecond(attempts, true)];
    PickWorks(s, r, max, attempts, attempts, attempts);
    PickIsOneClaim(s, r);
    PickPrompt(s, r, max, attempts);
    var s1 := After(s, pick);
    FailWorks(s1, r, max, attempts);
    FailPrompt(s1, r, max, attempts);
    ClaimsOfTwo(fail[0], fail[1], r);
    Joined(s, pick, fail, r);
    PromptJoined(Config(0, 0), s, pick, fail, r);
    es := pick + fail;
  }

  /** Workers that always fail, though never late, bring a job to its last attempt. */
  lemma {:induction false} FailuresUpToLast(s: State, r: RunId, max: nat, attempts: nat) returns (es: seq<Event>)
    requires Scene(s, r, max, JobQueued, attempts, attempts, attempts) && attempts <= max && s.tokens == map[]
    ensures Valid(s, es) && Claims(es, r) == max - attempts && PromptTrace(Config(0, 0), s, es, r)
    ensures Scene(After(s, es), r, max, JobQueued, max, max, max) && After(s, es).tokens == map[]
    decreases max - attempts
  {
    if attempts == max {
      es := [];
    } else {
      var fail := OneFailure(s, r, max, attempts);
      var rest := FailuresUpToLast(After(s, fail), r, max, attempts + 1);
      Joined(s, fail, rest, r);
      PromptJoined(Config(0, 0), s, fail, rest, r);
      es := fail + rest;
    }
  }

  /** And through one attempt more than max_attempts: the timely bound is reached. */
  lemma FailuresAllTheWay(s: State, r: RunId, max: nat, attempts: nat) returns (es: seq<Event>)
    requires Scene(s, r, max, JobQueued, attempts, attempts, attempts) && attempts <= max && s.tokens == map[]
    ensures Valid(s, es) && Claims(es, r) == max + 1 - attempts && PromptTrace(Config(0, 0), s, es, r)
    ensures r in After(s, es).db.jobs && r in After(s, es).db.runs
    ensures After(s, es).db.jobs[r].status == JobFailed && After(s, es).db.runs[r].status == RunError
    ensures After(s, es).db.jobs[r].attempts == max + 1
  {
    var before := FailuresUpToLast(s, r, max, attempts);
    var s1 := After(s, before);
    var last := LastFailure(s1, r, max);
    Joined(s, before, last, r);
    PromptJoined(Config(0, 0), s, before, last, r);
    es := before + last;
  }

  lemma LastFailure(s: State, r: RunId, max: nat) returns (es: seq<Event>)
    requires Scene(s, r, max, JobQueued, max, max, max) && s.tokens == map[]
    ensures Valid(s, es) && Claims(es, r) == 1 && PromptTrace(Config(0, 0), s, es, r)
    ensures r in After(s, es).db.jobs && r in After(s, es).db.runs
    ensures After(s, es).db.jobs[r].status == JobFailed && After(s, es).db.runs[r].status == RunError
    ensures After(s, es).db.jobs[r].attempts == max + 1
  {
    var pick, fail := Pick(s, r), [FailFirst(max, true), FailSecond(max, true)];
    PickWorks(s, r, max, max, max, max);
    PickIsOneClaim(s, r);
    PickPrompt(s, r, max, max);
    var s1 := After(s, pick);
    FailWorks(s1, r, max, max);
    FailPrompt(s1, r, max, max);
    ClaimsOfTwo(fail[0], fail[1], r);
    Joined(s, pick, fail, r);
    PromptJoined(Config(0, 0), s, pick, fail, r);
    es := pick + fail;
  }

  lemma PickPrompt(s: State, r: RunId, max: nat, attempts: nat)
    requires Scene(s, r, max, JobQueued, attempts, attempts, attempts) && s.tokens == map[]
    requires Valid(s, Pick(s, r))
    ensures PromptTrace(Config(0, 0), s, Pick(s, r), r)
  {
    PromptTwo(Config(0, 0), s, Pick(s, r)[0], Pick(s, r)[1], r);
  }

  lemma FailPrompt(s: State, r: RunId, max: nat, n: nat)
    requires Scene(s, r, max, JobRunning, n + 1, n, n + 1) && n <= max && s.tokens.Keys == {n}
    requires Valid(s, [FailFirst(n, true), FailSecond(n, true)])
    ensures PromptTrace(Config(0, 0), s, [FailFirst(n, true), FailSecond(n, true)], r)
  {
    assert [FailFirst(n, true), FailSecond(n, true)][1..] == [FailSecond(n, true)];
    PromptTwo(Config(0, 0), s, FailFirst(n, true), FailSecond(n, true), r);
  }

  lemma FailWorks(s: State, r: RunId, max: nat, n: nat)
    requires Scene(s, r, max, JobRunning, n + 1, n, n + 1) && n <= max && s.tokens.Keys == {n}
    ensures var fail := [FailFirst(n, true), FailSecond(n, true)];
            Valid(s, fail) && After(s, fail).tokens == map[] &&
            if n < max then Scene(After(s, fail), r, max, JobQueued, n + 1, n + 1, n + 1)
            else
              && r in After(s, fail).db.jobs && r in After(s, fail).db.runs
              && After(s, fail).db.jobs[r].status == JobFailed && After(s, fail).db.runs[r].status == RunError
              && After(s, fail).db.jobs[r].attempts == n + 1
  {
    assert ExecutesAttempt(s.tokens[n], r, max, n);
    TwoSteps(s, FailFirst(n, true), FailSecond(n, true));
    assert Next(Next(s, FailFirst(n, true)), FailSecond(n, true)).tokens == map[];
  }

  // ---- Where untimely steps lead ----

  lemma VerdictWritten(s: State, r: RunId, max: nat, attempts: nat, n: nat, hi: nat, first: bool)
    requires Scene(s, r, max, JobRunning, attempts, n + 1, hi) && Holds(s, n, r)
    requires s.tokens[n].stage.Reporting? && s.tokens[n].stage.verdict == Exited(0)
    ensures var es := [FinishFirst(n, first), FinishSecond(n, true)];
            Valid(s, es) && r in After(s, es).db.runs && After(s, es).db.runs[r].status == RunPassed
            && Scene(After(s, es), r, max, if first then JobDone else JobRunning, attempts, n + 1, hi)
  {
    TwoSteps(s, FinishFirst(n, first), FinishSecond(n, true));
  }

  lemma FinishWorks(s: State, r: RunId, max: nat, attempts: nat, n: nat, hi: nat, first: bool)
    requires Scene(s, r, max, JobRunning, attempts, n, hi) && n < hi
    ensures var es := [StatLog(n, Exited(0)), FinishFirst(n, first), FinishSecond(n, true)];
            Valid(s, es) && r in After(s, es).db.runs && After(s, es).db.runs[r].status == RunPassed
            && Scene(After(s, es), r, max, if first then JobDone else JobRunning, attempts, n + 1, hi)
  {
    assert ExecutesAttempt(s.tokens[n], r, max, n);
    VerdictWritten(Next(s, StatLog(n, Exited(0))), r, max, attempts, n, hi, first);
    var es := [StatLog(n, Exited(0)), FinishFirst(n, first), FinishSecond(n, true)];
    assert es[1..] == [FinishFirst(n, first), FinishSecond(n, true)];
  }

  lemma TwoWorkers(s: State, r: RunId, max: nat) returns (es: seq<Event>)
    requires Scene(s, r, max, JobQueued, 0, 0, 0) && max >= 2
    ensures Valid(s, es) && Scene(After(s, es), r, max, JobRunning, 2, 0, 2)
  {
    PickWorks(s, r, max, 0, 0, 0);
    var s1 := After(s, Pick(s, r));
    OverrunWorks(s1, r, max, 1, 0, 1);
    Joined(s, Pick(s, r), Overrun(s1, r), r);
    var s2 := After(s1, Overrun(s1, r));
    PickWorks(s2, r, max, 1, 0, 1);
    Joined(s, Pick(s, r) + Overrun(s1, r), Pick(s2, r), r);
    es := Pick(s, r) + Overrun(s1, r) + Pick(s2, r);
  }

  /** After a lease overrun the late worker's result stands, until the second worker fails and the
      run that had passed is pending again. */
  lemma OverrunUndoesResult(s: State, r: RunId, max: nat) returns (es: seq<Event>, fs: seq<Event>)
    requires Scene(s, r, max, JobQueued, 0, 0, 0) && max >= 2
    ensures Valid(s, es) && r in After(s, es).db.runs && After(s, es).db.runs[r].status == RunPassed
    ensures Valid(After(s, es), fs) && r in After(After(s, es), fs).db.runs
    ensures After(After(s, es), fs).db.runs[r].status == RunPending
  {
    var before := TwoWorkers(s, r, max);
    var finish := [StatLog(0, Exited(0)), FinishFirst(0, true), FinishSecond(0, true)];
    FinishWorks(After(s, before), r, max, 2, 0, 2, true);
    Joined(s, before, finish, r);
    es, fs := before + finish, [FailFirst(1, true), FailSecond(1, true)];
    var s1 := After(s, es);
    assert ExecutesAttempt(s1.tokens[1], r, max, 1);
    TwoSteps(s1, FailFirst(1, true), FailSecond(1, true));
  }

  /** A lost write: the run has passed, its job still counts as running, and after the lease the
      cleaner puts it back in the queue. */
  lemma LostWriteRepeatsRun(s: State, r: RunId, max: nat)
    requires Scene(s, r, max, JobRunning, 1, 0, 1) && max >= 2
    ensures var es := [StatLog(0, Exited(0)), FinishFirst(0, false), FinishSecond(0, true)];
            && Valid(s, es) && r in After(s, es).db.runs && After(s, es).db.runs[r].status == RunPassed
            && Scene(After(s, es), r, max, JobRunning, 1, 1, 1)
            && var fs := Overrun(After(s, es), r);
               Valid(After(s, es), fs) && Scene(After(After(s, es), fs), r, max, JobQueued, 1, 1, 1)
  {
    FinishWorks(s, r, max, 1, 0, 1, false);
    OverrunWorks(After(s, [StatLog(0, Exited(0)), FinishFirst(0, false), FinishSecond(0, true)]), r, max, 1, 1, 1);
  }

  /** A claim between the two statements of a first failure, whose retry delay is zero: the job
      runs while its run is pending. */
  lemma ClaimInsidePair(s: State, r: RunId, max: nat) returns (es: seq<Event>)
    requires Scene(s, r, max, JobRunning, 1, 0, 1) && max >= 1
    ensures Valid(s, es) && r in After(s, es).db.jobs && r in After(s, es).db.runs
    ensures After(s, es).db.jobs[r].status == JobRunning && After(s, es).db.runs[r].status == RunPending
  {
    assert ExecutesAttempt(s.tokens[0], r, max, 0);
    OneStep(s, FailFirst(0, true));
    var s1 := Next(s, FailFirst(0, true));
    PickWorks(s1, r, max, 1, 1, 1);
    Joined(s, [FailFirst(0, true)], Pick(s1, r), r);
    var s2 := After(s1, Pick(s1, r));
    assert s2.tokens[0] == s1.tokens[0];
    OneStep(s2, FailSecond(0, true));
    Joined(s, [FailFirst(0, true)] + Pick(s1, r), [FailSecond(0, true)], r);
    es := [FailFirst(0, true)] + Pick(s1, r) + [FailSecond(0, true)];
  }

  lemma NobodyLeft(s: State, r: RunId)
    requires r in s.db.jobs && r in s.db.runs && s.db.jobs[r].status in {JobDone, JobFailed}
    requires s.tokens == map[] && s.db.runs[r].status == RunRunning
    ensures NeverEnds(s, r)
  {
    forall es | Valid(s, es)
      ensures r in After(s, es).db.runs && !Terminal(After(s, es).db.runs[r].status)
    {
      CannotEndAlong(s, es, r);
    }
  }

  lemma CrashAfterComplete(s: State, r: RunId)
    requires r in s.db.jobs && r in s.db.runs && s.db.runs[r].status == RunRunning
    requires s.tokens.Keys == {0} && s.tokens[0].run == r && s.tokens[0].stage.Reporting?
    ensures var es := [FinishFirst(0, true), Crash(0)];
            && Valid(s, es) && r in After(s, es).db.jobs && After(s, es).db.jobs[r].status == JobDone
            && r in After(s, es).db.runs && After(s, es).db.runs[r].status == RunRunning
            && NeverEnds(After(s, es), r)
  {
    TwoSteps(s, FinishFirst(0, true), Crash(0));
    var s' := Next(Next(s, FinishFirst(0, true)), Crash(0));
    assert s'.tokens == map[];
    NobodyLeft(s', r);
  }

  /** A crash between the two statements of finishRun: the job is done, and its run stays running
      whatever happens afterwards. */
  lemma CrashInsideFinish(s: State, r: RunId, max: nat) returns (es: seq<Event>)
    requires Scene(s, r, max, JobQueued, 0, 0, 0)
    ensures Valid(s, es) && r in After(s, es).db.jobs && After(s, es).db.jobs[r].status == JobDone
    ensures r in After(s, es).db.runs && After(s, es).db.runs[r].status == RunRunning
    ensures NeverEnds(After(s, es), r)
  {
    PickWorks(s, r, max, 0, 0, 0);
    var s1 := After(s, Pick(s, r));
    var look := [StatLog(0, Exited(0))];
    OneStep(s1, look[0]);
    CrashAfterComplete(Next(s1, look[0]), r);
    Joined(s, Pick(s, r), look, r);
    Joined(s, Pick(s, r) + look, [FinishFirst(0, true), Crash(0)], r);
    es := Pick(s, r) + look + [FinishFirst(0, true), Crash(0)];
  }

  /** A crash between the two statements of the last failJob: the job has failed, and its run
      stays running whatever happens afterwards. */
  lemma CrashInsideGivingUp(s: State, r: RunId, max: nat) returns (es: seq<Event>)
    requires Scene(s, r, max, JobQueued, max, max, max) && s.tokens == map[]
    ensures Valid(s, es) && r in After(s, es).db.jobs && After(s, es).db.jobs[r].status == JobFailed
    ensures r in After(s, es).db.runs && After(s, es).db.runs[r].status == RunRunning
    ensures NeverEnds(After(s, es), r)
  {
    PickWorks(s, r, max, max, max, max);
    var s1 := After(s, Pick(s, r));
    var crash := [FailFirst(max, true), Crash(max)];
    TwoSteps(s1, crash[0], crash[1]);
    var s2 := After(s1, crash);
    Joined(s, Pick(s, r), crash, r);
    assert s2.tokens == map[];
    NobodyLeft(s2, r);
    es := Pick(s, r) + crash;
  }

  /** From the empty system on: a crash that leaves a failed job and a run running for ever. */
  lemma CrashInsideGivingUpHappens() returns (es: seq<Event>)
    ensures Valid(Init, es) && 0 in After(Init, es).db.jobs && After(Init, es).db.jobs[0].status == JobFailed
    ensures 0 in After(Init, es).db.runs && After(Init, es).db.runs[0].status == RunRunning
    ensures NeverEnds(After(Init, es), 0)
  {
    var before := LastAttemptReached();
    var crash := CrashInsideGivingUp(After(Init, before), 0, MAX_ATTEMPTS);
    Joined(Init, before, crash, 0);
    es := before + crash;
  }

  lemma LastAttemptReached() returns (es: seq<Event>)
    ensures Valid(Init, es) && After(Init, es).tokens == map[]
    ensures Scene(After(Init, es), 0, MAX_ATTEMPTS, JobQueued, MAX_ATTEMPTS, MAX_ATTEMPTS, MAX_ATTEMPTS)
  {
    FirstRun();
    var s := After(Init, FIRST_RUN);
    assert s.tokens.Keys == {};
    var fail := FailuresUpToLast(s, 0, MAX_ATTEMPTS, 0);
    Joined(Init, FIRST_RUN, fail, 0);
    es := FIRST_RUN + fail;
  }

  /** From the empty system on: a worker dies in its container on the last attempt, and the job
      stays running for ever. */
  lemma StuckOrphanHappens() returns (es: seq<Event>)
    ensures Valid(Init, es) && 0 in After(Init, es).db.jobs && After(Init, es).db.jobs[0].status == JobRunning
    ensures StuckForEver(After(Init, es), 0)
  {
    var before := LastAttemptReached();
    var s := After(Init, before);
    PickWorks(s, 0, MAX_ATTEMPTS, MAX_ATTEMPTS, MAX_ATTEMPTS, MAX_ATTEMPTS);
    var pick, crash := Pick(s, 0), [Crash(MAX_ATTEMPTS)];
    var s1 := After(s, pick);
    OneStep(s1, crash[0]);
    var s2 := Next(s1, crash[0]);
    Joined(Init, before, pick, 0);
    Joined(Init, before + pick, crash, 0);
    es := before + pick + crash;
    InitConsistent();
    ConsistentAlong(Init, es);
    assert s2.tokens.Keys == {} && TokensOf(s2, 0).Keys == {};
    StuckExactly(s2, 0);
  }

  /** The first failure takes a run from running back to pending. */
  lemma FirstFailureGoesBack(s: State, r: RunId, max: nat) returns (es: seq<Event>, e: Event)
    requires Scene(s, r, max, JobQueued, 0, 0, 0) && max >= 1
    ensures Valid(s, es) && r in After(s, es).db.runs && After(s, es).db.runs[r].status == RunRunning
    ensures Enabled(After(s, es), e) && r in Next(After(s, es), e).db.runs
    ensures Next(After(s, es), e).db.runs[r].status == RunPending
  {
    PickWorks(s, r, max, 0, 0, 0);
    var s1 := After(s, Pick(s, r));
    assert ExecutesAttempt(s1.tokens[0], r, max, 0);
    OneStep(s1, FailFirst(0, true));
    Joined(s, Pick(s, r), [FailFirst(0, true)], r);
    es, e := Pick(s, r) + [FailFirst(0, true)], FailSecond(0, true);
  }

  function LateClaim(s: State, r: RunId, clock: Time, maxTimeout: int): seq<Event>
    requires r in s.db.jobs
  {
    [Tick(Later(s, s.db.jobs[r].availableAt)), ClaimJob(0, r, 0, clock, maxTimeout)]
  }

  lemma LateClaimWorks(s: State, r: RunId, max: nat, clock: Time, maxTimeout: int)
    requires Scene(s, r, max, JobQueued, 0, 0, 0)
    ensures Valid(s, LateClaim(s, r, clock, maxTimeout))
    ensures var s' := After(s, LateClaim(s, r, clock, maxTimeout));
            && Scene(s', r, max, JobRunning, 1, 0, 1) && s'.db.now == Later(s, s.db.jobs[r].availableAt)
            && s'.db.jobs[r].leaseUntil == Some(LeaseEnd(clock, maxTimeout))
            && s'.db.jobs[r].availableAt == s.db.jobs[r].availableAt
  {
    var es := LateClaim(s, r, clock, maxTimeout);
    var s0 := Next(s, es[0]);
    assert Claimable(s0.db, r) && NextJob(s0.db, r) && 0 !in s0.tokens;
    TwoSteps(s, es[0], es[1]);
  }

  lemma LateLeaseReleased(s: State, r: RunId, max: nat)
    requires Scene(s, r, max, JobRunning, 1, 0, 1) && max >= 2 && s.db.jobs[r].leaseUntil.value < s.db.now
    ensures Valid(s, [ReleaseJobs])
    ensures var s' := After(s, [ReleaseJobs]);
            && Scene(s', r, max, JobQueued, 1, 0, 1) && s'.db.now == s.db.now
            && s'.db.jobs[r].availableAt == s.db.jobs[r].availableAt
  {
    OneStep(s, ReleaseJobs);
    assert Next(s, ReleaseJobs).db.jobs.Keys == {r};
  }

  /** A worker whose clock is behind the database's by more than MAX_TIMEOUT and thirty seconds
      takes a lease that is already over: the cleaner releases the job at once, and a second
      worker executes it beside the first with no time gone by. */
  lemma SlowClockTwoWorkers(s: State, r: RunId, max: nat, clock: Time, maxTimeout: int) returns (es: seq<Event>)
    requires Scene(s, r, max, JobQueued, 0, 0, 0) && max >= 2
    requires LeaseEnd(clock, maxTimeout) < Later(s, s.db.jobs[r].availableAt)
    ensures Valid(s, es) && Scene(After(s, es), r, max, JobRunning, 2, 0, 2)
    ensures After(s, es).db.now == Later(s, s.db.jobs[r].availableAt)
  {
    var claim := LateClaim(s, r, clock, maxTimeout);
    LateClaimWorks(s, r, max, clock, maxTimeout);
    var s1 := After(s, claim);
    LateLeaseReleased(s1, r, max);
    var s2 := After(s1, [ReleaseJobs]);
    Joined(s, claim, [ReleaseJobs], r);
    PickWorks(s2, r, max, 1, 0, 1);
    Joined(s, claim + [ReleaseJobs], Pick(s2, r), r);
    es := claim + [ReleaseJobs] + Pick(s2, r);
  }

  // ---- Two POSTs, one artifact ----

  /** Both checks pass before either commits, and one artifact gets two runs. */
  lemma TwoRunsOneArtifact() returns (es: seq<Event>)
    ensures Valid(Init, es) && !UsedOnce(After(Init, es).db)
  {
    var check := [CheckArtifact(0, 0, 0), CheckArtifact(1, 0, 0)];
    var commit := [CommitRun(0, 0, HOUR), CommitRun(1, 1, HOUR)];
    OneStep(Init, Upload(0, 0));
    var s1 := Next(Init, Upload(0, 0));
    TwoSteps(s1, check[0], check[1]);
    Joined(Init, [Upload(0, 0)], check, 0);
    var s2 := After(s1, check);
    TwoSteps(s2, commit[0], commit[1]);
    Joined(Init, [Upload(0, 0)] + check, commit, 0);
    es := [Upload(0, 0)] + check + commit;
    var db := After(s2, commit).db;
    assert db.runs[0].artifact == db.runs[1].artifact;
  }
}
