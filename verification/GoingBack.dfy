/** Whether a timely run can still go back from running to pending, in any future of the system: it
    can as long as an attempt is left to retry, and once after the last retry if the cleaner still
    gets to the run before a worker does. */
module GoingBack {
  import opened Rows
  import opened Statements
  import opened System
  import opened Protocol
  import opened Unrestricted
  import opened Creation
  import opened Budget
  import opened Timed
  import opened Schedule
  import opened SlowestRun
  import opened Overtaking
  import opened Recovery
  import opened Sums
  import opened Lifecycle

  /** Timely traces in which r goes back. */
  predicate BackTrace(s: State, es: seq<Event>, r: RunId) {
    Valid(s, es) && r in s.db.runs && TimelyTrace(s, es, r) && !NeverGoesBack(s, es, r)
  }

  lemma TimelyOne(s: State, e: Event, r: RunId)
    requires Enabled(s, e) && r in s.db.runs && TimelyFor(s, e, r)
    ensures Valid(s, [e]) && After(s, [e]) == Next(s, e) && TimelyTrace(s, [e], r) && Projects(s, e, r)
    ensures GoesBack(View(s, r), Label(s, e, r)) ==> BackTrace(s, [e], r)
  {
    OneStep(s, e);
    StepProjects(s, e, r);
    assert [e][1..] == [];
  }

  lemma {:induction false} BackLater(s: State, es: seq<Event>, fs: seq<Event>, r: RunId)
    requires Valid(s, es) && r in s.db.runs && TimelyTrace(s, es, r) && BackTrace(After(s, es), fs, r)
    ensures BackTrace(s, es + fs, r)
    decreases |es|
  {
    TracesJoin(s, es, fs);
    if es == [] {
      assert es + fs == fs;
    } else {
      assert (es + fs)[0] == es[0] && (es + fs)[1..] == es[1..] + fs;
      StepProjects(s, es[0], r);
      BackLater(Next(s, es[0]), es[1..], fs, r);
    }
  }

  lemma {:induction false} PunctualIsTimely(c: Config, delay: nat, first: Time, s: State, es: seq<Event>, r: RunId)
    requires ValidConfig(c) && Valid(s, es) && r in s.db.runs && WithinBudget(c, View(s, r))
    requires PunctualTrace(c, delay, first, s, es, r)
    ensures TimelyTrace(s, es, r)
    decreases |es|
  {
    if es != [] {
      StepProjects(s, es[0], r);
      PromptIsTimely(c, View(s, r), Label(s, es[0], r));
      PunctualIsTimely(c, delay, first, Next(s, es[0]), es[1..], r);
    }
  }

  // ---- As long as an attempt is left ----

  lemma RetryGoesBack(s: State, r: RunId, t: nat) returns (es: seq<Event>)
    requires r in s.db.runs && s.db.runs[r].status == RunRunning && Holds(s, t, r) && s.tokens[t].stage == Retrying
    ensures BackTrace(s, es, r)
  {
    TimelyOne(s, FailSecond(t, true), r);
    es := [FailSecond(t, true)];
  }

  lemma ExecutionGoesBack(s: State, r: RunId, t: nat) returns (es: seq<Event>)
    requires r in s.db.runs && s.db.runs[r].status == RunRunning && Holds(s, t, r)
    requires s.tokens[t].stage == Executing && s.tokens[t].snapshot < s.tokens[t].maxAttempts
    ensures BackTrace(s, es, r)
  {
    TimelyOne(s, FailFirst(t, true), r);
    var rest := RetryGoesBack(Next(s, FailFirst(t, true)), r, t);
    BackLater(s, [FailFirst(t, true)], rest, r);
    es := [FailFirst(t, true)] + rest;
  }

  /** Nobody holds the run, and its job has an attempt left. */
  predicate Free(s: State, r: RunId, status: JobStatus) {
    && r in s.db.runs && s.db.runs[r].artifact in s.db.artifacts && TokensOf(s, r) == map[]
    && r in s.db.jobs && s.db.jobs[r].status == status && JobKept(s.db.jobs[r])
    && s.db.jobs[r].attempts < s.db.jobs[r].maxAttempts
  }

  lemma DueGoesBack(s: State, r: RunId) returns (es: seq<Event>)
    requires Free(s, r, JobQueued) && Claimable(s.db, r)
    ensures BackTrace(s, es, r)
  {
    var c := Config(0, 0);
    var t;
    es, t := SlotTaken(c, 0, s.db.now, s, r);
    PunctualIsTimely(c, 0, s.db.now, s, es, r);
    var s' := After(s, es);
    assert t in View(s', r).tokens && View(s', r).tokens[t].stage == Executing;
    var rest := ExecutionGoesBack(s', r, t);
    BackLater(s, es, rest, r);
    es := es + rest;
  }

  function Later(s: State, t: Time): Time { if t < s.db.now then s.db.now else t }

  lemma WaitIsTimely(s: State, r: RunId, to: Time)
    requires r in s.db.runs && TokensOf(s, r) == map[] && s.db.now <= to
    ensures Valid(s, [Tick(to)]) && TimelyTrace(s, [Tick(to)], r)
    ensures After(s, [Tick(to)]) == s.(db := s.db.(now := to))
  {
    TimelyOne(s, Tick(to), r);
  }

  lemma QueueGoesBack(s: State, r: RunId) returns (es: seq<Event>)
    requires Free(s, r, JobQueued)
    ensures BackTrace(s, es, r)
  {
    var wait := [Tick(Later(s, s.db.jobs[r].availableAt))];
    WaitIsTimely(s, r, wait[0].to);
    var s' := After(s, wait);
    assert TokensOf(s', r) == TokensOf(s, r);
    var rest := DueGoesBack(s', r);
    BackLater(s, wait, rest, r);
    es := wait + rest;
  }

  /** Waiting until the lease of job k is over and letting the cleaner run. */
  function ReleaseOf(s: State, k: RunId): seq<Event>
    requires k in s.db.jobs && s.db.jobs[k].leaseUntil != None
  {
    [Tick(Later(s, s.db.jobs[k].leaseUntil.value + 1)), ReleaseJobs]
  }

  lemma ReleaseIsTimely(s: State, r: RunId, k: RunId)
    requires r in s.db.runs && TokensOf(s, r) == map[] && k in s.db.jobs && s.db.jobs[k].leaseUntil != None
    ensures Valid(s, ReleaseOf(s, k)) && TimelyTrace(s, ReleaseOf(s, k), r)
    ensures var s' := After(s, ReleaseOf(s, k));
            && s'.db == ReleaseLeases(s.db.(now := ReleaseOf(s, k)[0].to)) && s'.tokens == s.tokens
            && (s.db.jobs[k].status == JobRunning && s.db.jobs[k].attempts < s.db.jobs[k].maxAttempts ==>
                  s'.releasing > 0)
  {
    var es := ReleaseOf(s, k);
    WaitIsTimely(s, r, es[0].to);
    var s1 := After(s, [es[0]]);
    TimelyOne(s1, ReleaseJobs, r);
    TwoSteps(s, es[0], ReleaseJobs);
    StepProjects(s, es[0], r);
    assert es[1..] == [ReleaseJobs];
    if s.db.jobs[k].status == JobRunning && s.db.jobs[k].attempts < s.db.jobs[k].maxAttempts {
      assert Expired(s1.db.jobs[k], s1.db.now);
    }
  }

  lemma OrphanGoesBack(s: State, r: RunId) returns (es: seq<Event>)
    requires Free(s, r, JobRunning)
    ensures BackTrace(s, es, r)
  {
    es := ReleaseOf(s, r);
    ReleaseIsTimely(s, r, r);
    var s' := After(s, es);
    assert TokensOf(s', r) == TokensOf(s, r);
    var rest := QueueGoesBack(s', r);
    BackLater(s, es, rest, r);
    es := es + rest;
  }

  /** What agreement says of a held run whose job has an attempt left. */
  lemma HeldWithAttempt(s: State, r: RunId, t: nat)
    requires Consistent(s) && r in s.db.runs && Agreed(View(s, r)) && Holds(s, t, r)
    requires r in s.db.jobs && s.db.jobs[r].attempts < s.db.jobs[r].maxAttempts
    ensures s.db.runs[r].artifact in s.db.artifacts && JobKept(s.db.jobs[r]) && TokensOf(s, r).Keys == {t}
    ensures s.tokens[t].stage.Reporting? ==> s.db.jobs[r].status == JobRunning
    ensures s.tokens[t].stage == Retrying ==> s.db.jobs[r].status == JobQueued
  {
    var l := View(s, r);
    assert t in l.tokens && Held(l, l.tokens[t]) && RunLinked(s.db, r) && Kept(l);
  }

  lemma CrashFrees(s: State, r: RunId, t: nat)
    requires r in s.db.runs && Holds(s, t, r) && TokensOf(s, r).Keys == {t} && s.db.runs[r].artifact in s.db.artifacts
    requires r in s.db.jobs && s.db.jobs[r].status == JobRunning && JobKept(s.db.jobs[r])
    requires s.db.jobs[r].attempts < s.db.jobs[r].maxAttempts
    ensures Free(Next(s, Crash(t)), r, JobRunning)
  {
    assert TokensOf(Next(s, Crash(t)), r) == map[];
  }

  /** A worker about to report a verdict can still die, and one at the end of a retry let go. */
  lemma ReportGoesBack(s: State, r: RunId, t: nat) returns (es: seq<Event>)
    requires Consistent(s) && r in s.db.runs && Agreed(View(s, r)) && Holds(s, t, r) && s.tokens[t].stage.Reporting?
    requires r in s.db.jobs && s.db.jobs[r].attempts < s.db.jobs[r].maxAttempts
    ensures BackTrace(s, es, r)
  {
    HeldWithAttempt(s, r, t);
    TimelyOne(s, Crash(t), r);
    CrashFrees(s, r, t);
    var rest := OrphanGoesBack(Next(s, Crash(t)), r);
    BackLater(s, [Crash(t)], rest, r);
    es := [Crash(t)] + rest;
  }

  lemma RetryEndFrees(s: State, r: RunId, t: nat)
    requires r in s.db.runs && Holds(s, t, r) && TokensOf(s, r).Keys == {t} && s.db.runs[r].artifact in s.db.artifacts
    requires s.tokens[t].stage == Retrying
    requires r in s.db.jobs && s.db.jobs[r].status == JobQueued && JobKept(s.db.jobs[r])
    requires s.db.jobs[r].attempts < s.db.jobs[r].maxAttempts
    ensures Free(Next(s, FailSecond(t, true)), r, JobQueued)
  {
    assert TokensOf(Next(s, FailSecond(t, true)), r) == map[];
  }

  lemma EndOfRetryGoesBack(s: State, r: RunId, t: nat) returns (es: seq<Event>)
    requires Consistent(s) && r in s.db.runs && Agreed(View(s, r)) && Holds(s, t, r) && s.tokens[t].stage == Retrying
    requires r in s.db.jobs && s.db.jobs[r].attempts < s.db.jobs[r].maxAttempts
    ensures BackTrace(s, es, r)
  {
    HeldWithAttempt(s, r, t);
    TimelyOne(s, FailSecond(t, true), r);
    RetryEndFrees(s, r, t);
    var rest := QueueGoesBack(Next(s, FailSecond(t, true)), r);
    BackLater(s, [FailSecond(t, true)], rest, r);
    es := [FailSecond(t, true)] + rest;
  }

  lemma HeldGoesBack(s: State, r: RunId, t: nat) returns (es: seq<Event>)
    requires Consistent(s) && r in s.db.runs && Agreed(View(s, r)) && Holds(s, t, r) && !Straight(View(s, r))
    ensures BackTrace(s, es, r)
  {
    var l := View(s, r);
    assert t in l.tokens && Held(l, l.tokens[t]);
    if s.tokens[t].stage == Executing {
      es := ExecutionGoesBack(s, r, t);
    } else if s.tokens[t].stage.Reporting? {
      es := ReportGoesBack(s, r, t);
    } else if s.db.runs[r].status == RunRunning {
      es := RetryGoesBack(s, r, t);
    } else {
      es := EndOfRetryGoesBack(s, r, t);
    }
  }

  // ---- The half-released run with no attempt left ----

  /** Queued for its last attempt with its run still running: a cleaner pass lost its second
      statement, or the last retry did. Only another cleaner pass can take the run back. */
  predicate HalfBack(s: State, r: RunId) {
    && r in s.db.runs && s.db.runs[r].status == RunRunning && TokensOf(s, r) == map[]
    && r in s.db.jobs && s.db.jobs[r].status == JobQueued && s.db.jobs[r].leaseUntil == None
    && s.db.jobs[r].attempts >= s.db.jobs[r].maxAttempts
  }

  lemma ResetGoesBack(s: State, r: RunId) returns (es: seq<Event>)
    requires HalfBack(s, r) && s.releasing > 0
    ensures BackTrace(s, es, r)
  {
    TimelyOne(s, ReleaseRuns(true), r);
    es := [ReleaseRuns(true)];
  }

  /** Some other job runs with an attempt left: a pass that releases it takes r along. */
  lemma RivalTakesBack(s: State, r: RunId, k: RunId) returns (es: seq<Event>)
    requires HalfBack(s, r) && k in s.db.jobs && k != r && s.db.jobs[k].status == JobRunning
    requires s.db.jobs[k].leaseUntil != None && s.db.jobs[k].attempts < s.db.jobs[k].maxAttempts
    ensures BackTrace(s, es, r)
  {
    es := ReleaseOf(s, k);
    ReleaseIsTimely(s, r, k);
    var s' := After(s, es);
    assert TokensOf(s', r) == TokensOf(s, r);
    var rest := ResetGoesBack(s', r);
    BackLater(s, es, rest, r);
    es := es + rest;
  }

  lemma EarlierClaimable(s: State, r: RunId, k: RunId) returns (m: RunId)
    requires k != r && Claimable(s.db, k) && r in s.db.jobs
    requires s.db.jobs[k].availableAt <= s.db.jobs[r].availableAt
    ensures m != r && NextJob(s.db, m) && m in ClaimableJobs(s.db)
    ensures s.db.jobs[m].availableAt <= s.db.jobs[k].availableAt
  {
    assert k in ClaimableJobs(s.db) - {r};
    m := EarliestOf(s.db, ClaimableJobs(s.db) - {r});
  }

  /** Job k gets claimed while r waits on. */
  predicate RivalClaimed(s: State, s': State, r: RunId, k: RunId)
    requires k in s.db.jobs
  {
    && HalfBack(s', r) && k in s'.db.jobs && s'.db.jobs[k].status == JobRunning && s'.db.jobs[k].leaseUntil != None
    && s'.db.jobs[k].attempts == s.db.jobs[k].attempts + 1 && s'.db.jobs[k].maxAttempts == s.db.jobs[k].maxAttempts
  }

  /** Jobs that are due no later than r's can be claimed before it. */
  lemma {:induction false} ClaimedBefore(s: State, r: RunId, k: RunId) returns (es: seq<Event>)
    requires HalfBack(s, r) && k != r && Claimable(s.db, k)
    requires s.db.jobs[k].availableAt <= s.db.jobs[r].availableAt
    ensures Valid(s, es) && TimelyTrace(s, es, r) && RivalClaimed(s, After(s, es), r, k)
    decreases |ClaimableJobs(s.db)|
  {
    var m := EarlierClaimable(s, r, k);
    var t := Above(s.tokens.Keys);
    var e := ClaimJob(t, m, 0, s.db.now, 0);
    TimelyOne(s, e, r);
    ClaimShrinksQueue(s, e);
    es := [e];
    assert View(Next(s, e), r) == View(s, r);
    if m != k {
      assert k in ClaimableJobs(Next(s, e).db);
      var rest := ClaimedBefore(Next(s, e), r, k);
      TimelyJoin(s, es, rest, r);
      es := es + rest;
    }
  }

  lemma {:induction false} TimelyJoin(s: State, es: seq<Event>, fs: seq<Event>, r: RunId)
    requires Valid(s, es) && r in s.db.runs && TimelyTrace(s, es, r)
    requires Valid(After(s, es), fs) && r in After(s, es).db.runs && TimelyTrace(After(s, es), fs, r)
    ensures Valid(s, es + fs) && After(s, es + fs) == After(After(s, es), fs) && TimelyTrace(s, es + fs, r)
    decreases |es|
  {
    TracesJoin(s, es, fs);
    if es == [] {
      assert es + fs == fs;
    } else {
      assert (es + fs)[0] == es[0] && (es + fs)[1..] == es[1..] + fs;
      StepProjects(s, es[0], r);
      TimelyJoin(Next(s, es[0]), es[1..], fs, r);
    }
  }

  lemma QueuedRivalTakesBack(s: State, r: RunId, k: RunId) returns (es: seq<Event>)
    requires HalfBack(s, r) && k != r && Claimable(s.db, k)
    requires s.db.jobs[k].availableAt <= s.db.jobs[r].availableAt
    requires s.db.jobs[k].attempts + 1 < s.db.jobs[k].maxAttempts
    ensures BackTrace(s, es, r)
  {
    es := ClaimedBefore(s, r, k);
    var rest := RivalTakesBack(After(s, es), r, k);
    BackLater(s, es, rest, r);
    es := es + rest;
  }

  /** An upload and a POST: a new job, due at once. */
  lemma NewRival(s: State, r: RunId) returns (es: seq<Event>, k: RunId)
    requires HalfBack(s, r)
    ensures Valid(s, es) && TimelyTrace(s, es, r) && HalfBack(After(s, es), r)
    ensures After(s, es).db.jobs[r] == s.db.jobs[r]
    ensures k != r && Claimable(After(s, es).db, k)
    ensures After(s, es).db.jobs[k] == NewJob(s.db.now)
  {
    var a := Above(s.db.artifacts.Keys);
    var q := Above(s.requests.Keys);
    k := Above(s.db.runs.Keys + s.db.jobs.Keys);
    var upload, check, commit := Upload(a, 0), CheckArtifact(q, a, 0), CommitRun(q, k, 0);
    TimelyOne(s, upload, r);
    var s1 := Next(s, upload);
    TimelyOne(s1, check, r);
    var s2 := Next(s1, check);
    TimelyOne(s2, commit, r);
    TimelyJoin(s1, [check], [commit], r);
    TimelyJoin(s, [upload], [check] + [commit], r);
    es := [upload] + ([check] + [commit]);
  }

  /** Job k can be released while r still waits, given when r is due. */
  predicate Releasable(job: Job, since: Time) {
    || (job.status == JobRunning && job.attempts < job.maxAttempts)
    || (job.status == JobQueued && job.availableAt <= since && job.attempts + 1 < job.maxAttempts)
  }

  /** A cleaner is between its statements, a new job can still come before r's, or some other job
      can be released first. */
  predicate MayBeReset(s: State, r: RunId)
    requires r in s.db.jobs
  {
    || s.releasing > 0 || s.db.now <= s.db.jobs[r].availableAt
    || exists k :: k in s.db.jobs && k != r && Releasable(s.db.jobs[k], s.db.jobs[r].availableAt)
  }

  lemma HalfBackGoesBack(s: State, r: RunId) returns (es: seq<Event>)
    requires Consistent(s) && HalfBack(s, r) && MayBeReset(s, r)
    ensures BackTrace(s, es, r)
  {
    if s.releasing > 0 {
      es := ResetGoesBack(s, r);
    } else if s.db.now <= s.db.jobs[r].availableAt {
      var k;
      es, k := NewRival(s, r);
      var rest := QueuedRivalTakesBack(After(s, es), r, k);
      BackLater(s, es, rest, r);
      es := es + rest;
    } else {
      var k :| k in s.db.jobs && k != r && Releasable(s.db.jobs[k], s.db.jobs[r].availableAt);
      assert Kept(View(s, k));
      if s.db.jobs[k].status == JobRunning {
        es := RivalTakesBack(s, r, k);
      } else {
        OnlyDueTimeMatters(s, k);
        es := QueuedRivalTakesBack(s, r, k);
      }
    }
  }

  // ---- When nothing can ----

  predicate Stranded(s: State, r: RunId) {
    HalfBack(s, r) && !MayBeReset(s, r)
  }

  lemma RivalLocally(l: Local, a: Action, since: Time)
    requires Possible(l, a) && since < l.now && l.job.Some? && !Releasable(l.job.value, since)
    requires a.Take? ==> l.job.value.availableAt <= since
    ensures Do(l, a).job.Some? ==> !Releasable(Do(l, a).job.value, since)
  {
  }

  lemma RivalByStep(s: State, e: Event, r: RunId, k: RunId)
    requires Consistent(s) && Stranded(s, r) && Enabled(s, e) && k != r && k in Next(s, e).db.jobs
    ensures !Releasable(Next(s, e).db.jobs[k], s.db.jobs[r].availableAt)
  {
    RunsGrow(s, e);
    OnlyDueTimeMatters(s, r);
    if k in s.db.runs {
      StepProjects(s, e, k);
      ClaimSeenLocally(s, e, k);
      RivalLocally(View(s, k), Label(s, e, k), s.db.jobs[r].availableAt);
    }
  }

  lemma NoneReleasing(s: State, e: Event, r: RunId)
    requires Stranded(s, r) && Enabled(s, e)
    ensures Next(s, e).releasing == 0 && s.db.now <= Next(s, e).db.now
  {
  }

  lemma StrandedLocally(l: Local, a: Action)
    requires Possible(l, a) && a != ResetRun && l.tokens == map[] && l.run.status == RunRunning
    requires l.job.Some? && l.job.value.status == JobQueued && l.job.value.attempts >= l.job.value.maxAttempts
    ensures !GoesBack(l, a)
    ensures if a.Take? then Straight(Do(l, a))
            else Do(l, a).job == l.job && Do(l, a).tokens == map[] && Do(l, a).run.status == RunRunning
  {
  }

  lemma ResetSeenLocally(s: State, e: Event, r: RunId)
    requires Enabled(s, e) && r in s.db.runs && s.releasing == 0
    ensures Label(s, e, r) != ResetRun
  {
  }

  lemma StrandedByStep(s: State, e: Event, r: RunId)
    requires Consistent(s) && Stranded(s, r) && Enabled(s, e)
    ensures r in Next(s, e).db.runs && !GoesBack(View(s, r), Label(s, e, r))
    ensures Straight(View(Next(s, e), r)) || Stranded(Next(s, e), r)
  {
    var s' := Next(s, e);
    StepProjects(s, e, r);
    ResetSeenLocally(s, e, r);
    StrandedLocally(View(s, r), Label(s, e, r));
    NoneReleasing(s, e, r);
    forall k | k in s'.db.jobs && k != r
      ensures !Releasable(s'.db.jobs[k], s.db.jobs[r].availableAt)
    {
      RivalByStep(s, e, r, k);
    }
  }

  predicate NoWayBack(s: State, r: RunId)
    requires r in s.db.runs
  {
    Straight(View(s, r)) || Stranded(s, r)
  }

  lemma {:induction false} NoWayBackAlong(s: State, es: seq<Event>, r: RunId)
    requires Consistent(s) && r in s.db.runs && Agreed(View(s, r)) && NoWayBack(s, r)
    requires Valid(s, es) && TimelyTrace(s, es, r)
    ensures NeverGoesBack(s, es, r)
    decreases |es|
  {
    if es != [] {
      StepProjects(s, es[0], r);
      if Straight(View(s, r)) {
        StraightByStep(View(s, r), Label(s, es[0], r));
      } else {
        StrandedByStep(s, es[0], r);
      }
      ConsistentByStep(s, es[0]);
      AgreedExactly(View(s, r), Label(s, es[0], r));
      NoWayBackAlong(Next(s, es[0]), es[1..], r);
    }
  }

  ghost predicate NeverBack(s: State, r: RunId)
    requires r in s.db.runs
  {
    forall es | Valid(s, es) && TimelyTrace(s, es, r) :: NeverGoesBack(s, es, r)
  }

  lemma RestGoesBack(s: State, r: RunId) returns (es: seq<Event>)
    requires Consistent(s) && r in s.db.runs && Agreed(View(s, r)) && TokensOf(s, r) == map[] && !NoWayBack(s, r)
    ensures BackTrace(s, es, r)
  {
    assert View(s, r).tokens == map[] && AtRest(View(s, r)) && Kept(View(s, r)) && RunLinked(s.db, r);
    if s.db.jobs[r].attempts < s.db.jobs[r].maxAttempts {
      if s.db.jobs[r].status == JobQueued {
        es := QueueGoesBack(s, r);
      } else {
        es := OrphanGoesBack(s, r);
      }
    } else {
      es := HalfBackGoesBack(s, r);
    }
  }

  /** No timely future of the system takes a run back to pending exactly if it has no retry left, or
      waits half released for its last attempt and nothing can be released before that. */
  lemma NeverBackExactly(s: State, r: RunId)
    requires Consistent(s) && r in s.db.runs && Agreed(View(s, r))
    ensures NeverBack(s, r) <==> Straight(View(s, r)) || (HalfBack(s, r) && !MayBeReset(s, r))
  {
    if NoWayBack(s, r) {
      forall es | Valid(s, es) && TimelyTrace(s, es, r)
        ensures NeverGoesBack(s, es, r)
      {
        NoWayBackAlong(s, es, r);
      }
    } else if t :| t in TokensOf(s, r) {
      var es := HeldGoesBack(s, r, t);
      assert !NeverBack(s, r);
    } else {
      var es := RestGoesBack(s, r);
      assert !NeverBack(s, r);
    }
  }

  /** So from then on a timely run follows the documented graph for good. */
  lemma DocumentedForGood(s: State, es: seq<Event>, r: RunId)
    requires Consistent(s) && r in s.db.runs && Agreed(View(s, r)) && NoWayBack(s, r)
    requires Valid(s, es) && TimelyTrace(s, es, r)
    ensures DocumentedThroughout(s, es, r)
  {
    NoWayBackAlong(s, es, r);
    DocumentedAlong(s, es, r);
  }
}
