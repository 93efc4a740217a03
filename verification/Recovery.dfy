/** What becomes of a job whose worker is gone, and what the cleaner's two statements do when
    claims fall between them. Nothing is assumed about timing. */
module Recovery {
  import opened Rows
  import opened Statements
  import opened System
  import opened Protocol
  import opened Unrestricted
  import opened Creation
  import opened ClaimBound
  import opened Overtaking
  import opened Sums

  /** Running, with nobody left to report. */
  predicate Orphaned(l: Local) {
    l.job.Some? && l.job.value.status == JobRunning && l.tokens == map[]
  }

  lemma OrphanByStep(l: Local, a: Action)
    requires Orphaned(l) && Possible(l, a) && a != Release
    ensures Orphaned(Do(l, a)) && Do(l, a).job == l.job
  {
  }

  /** The row after one more step of the system: as it was, or released by the cleaner, and that
      only after the lease and with an attempt left. */
  lemma OrphanLeftAlone(s: State, e: Event, r: RunId)
    requires Enabled(s, e) && r in s.db.runs && r in s.db.jobs && Orphaned(View(s, r))
    ensures r in Next(s, e).db.jobs && r in Next(s, e).db.runs
    ensures if e.ReleaseJobs? && Expired(s.db.jobs[r], s.db.now)
            then Next(s, e).db.jobs[r] == Released(s.db.jobs[r], s.db.now)
            else Next(s, e).db.jobs[r] == s.db.jobs[r] && Orphaned(View(Next(s, e), r))
  {
    StepProjects(s, e, r);
    if Label(s, e, r) != Release {
      OrphanByStep(View(s, r), Label(s, e, r));
    }
  }

  /** With an attempt left, waiting out the lease and one cleaner pass bring a running job back,
      whether or not a worker still holds it. */
  lemma CleanerRecovers(s: State, r: RunId, to: Time)
    requires r in s.db.runs && r in s.db.jobs && Kept(View(s, r))
    requires s.db.jobs[r].status == JobRunning && s.db.jobs[r].attempts < s.db.jobs[r].maxAttempts
    requires s.db.now <= to && s.db.jobs[r].leaseUntil.value < to
    ensures Valid(s, [Tick(to), ReleaseJobs])
    ensures After(s, [Tick(to), ReleaseJobs]).db.jobs.Keys == s.db.jobs.Keys
    ensures After(s, [Tick(to), ReleaseJobs]).db.jobs[r] == Released(s.db.jobs[r], to)
  {
    TwoSteps(s, Tick(to), ReleaseJobs);
  }

  // ---- A queued job can always still be claimed ----

  /** Time passes and workers claim; nothing else happens. */
  predicate OnlyClaims(es: seq<Event>) {
    forall e | e in es :: e.Tick? || e.ClaimJob?
  }

  function ClaimableJobs(db: Db): set<RunId> {
    set k | k in db.jobs && Claimable(db, k)
  }

  lemma ClaimShrinksQueue(s: State, e: Event)
    requires Enabled(s, e) && e.ClaimJob?
    ensures ClaimableJobs(Next(s, e).db) == ClaimableJobs(s.db) - {e.run}
  {
  }

  /** r's job has just been claimed by worker t, after it had `attempts` attempts. */
  predicate JustClaimed(s: State, t: nat, r: RunId, attempts: nat, maxAttempts: nat) {
    && r in s.db.jobs && s.db.jobs[r].attempts == attempts + 1 && s.db.jobs[r].maxAttempts == maxAttempts
    && r in s.db.runs && s.db.runs[r].status == RunRunning
    && Holds(s, t, r) && s.tokens[t].stage == Executing
  }

  /** Claiming on, the workers get to every job that is claimable. */
  lemma {:induction false} ClaimsReach(s: State, r: RunId) returns (es: seq<Event>, t: nat)
    requires Claimable(s.db, r)
    ensures Valid(s, es) && OnlyClaims(es)
    ensures JustClaimed(After(s, es), t, r, s.db.jobs[r].attempts, s.db.jobs[r].maxAttempts)
    decreases |ClaimableJobs(s.db)|
  {
    var k := SomeJobIsNext(s.db, r);
    t := Above(s.tokens.Keys);
    var e := ClaimJob(t, k, 0, s.db.now, 0);
    ClaimShrinksQueue(s, e);
    assert r in ClaimableJobs(s.db) && k in ClaimableJobs(s.db);
    if k == r {
      es := [e];
      OneStep(s, e);
    } else {
      assert r in ClaimableJobs(Next(s, e).db);
      var rest;
      rest, t := ClaimsReach(Next(s, e), r);
      es := [e] + rest;
      assert es[1..] == rest;
    }
  }

  lemma QueuedIsReached(s: State, r: RunId) returns (es: seq<Event>, t: nat)
    requires Consistent(s) && r in s.db.jobs && s.db.jobs[r].status == JobQueued
    ensures Valid(s, es) && OnlyClaims(es)
    ensures JustClaimed(After(s, es), t, r, s.db.jobs[r].attempts, s.db.jobs[r].maxAttempts)
  {
    var to := if s.db.jobs[r].availableAt < s.db.now then s.db.now else s.db.jobs[r].availableAt;
    var s' := Next(s, Tick(to));
    assert Kept(View(s, r)) && RunLinked(s.db, r);
    assert Claimable(s'.db, r);
    var rest;
    rest, t := ClaimsReach(s', r);
    es := [Tick(to)] + rest;
    assert es[1..] == rest;
  }

  /** So every job that is not at its end can be executed again, whoever else holds it. */
  lemma LiveIsReached(s: State, r: RunId) returns (es: seq<Event>, t: nat)
    requires Consistent(s) && r in s.db.jobs && !AtItsEnd(s.db.jobs[r])
    ensures Valid(s, es)
    ensures JustClaimed(After(s, es), t, r, s.db.jobs[r].attempts, s.db.jobs[r].maxAttempts)
  {
    assert Kept(View(s, r));
    if s.db.jobs[r].status == JobQueued {
      es, t := QueuedIsReached(s, r);
    } else {
      var lease := s.db.jobs[r].leaseUntil.value;
      var to := if lease < s.db.now then s.db.now else lease + 1;
      var release := [Tick(to), ReleaseJobs];
      CleanerRecovers(s, r, to);
      ConsistentAlong(s, release);
      var rest;
      rest, t := QueuedIsReached(After(s, release), r);
      TracesJoin(s, release, rest);
      es := release + rest;
    }
  }

  // ---- Jobs that have come to rest ----

  /** Whatever happens, the row stays as it is until it is deleted. */
  ghost predicate Settled(s: State, r: RunId)
    requires r in s.db.jobs
  {
    forall es | Valid(s, es) && r in After(s, es).db.jobs :: After(s, es).db.jobs[r] == s.db.jobs[r]
  }

  predicate AtItsEnd(job: Job) {
    || job.status in {JobDone, JobFailed}
    || (job.status == JobRunning && job.attempts >= job.maxAttempts)
  }

  lemma EndedByStep(l: Local, a: Action)
    requires l.job.Some? && l.tokens == map[] && AtItsEnd(l.job.value) && Possible(l, a)
    ensures Do(l, a).tokens == map[]
    ensures Do(l, a).job == l.job || (Do(l, a).job == None && l.job.value.status in {JobDone, JobFailed})
  {
  }

  lemma {:induction false} EndedForEver(s: State, es: seq<Event>, r: RunId)
    requires Valid(s, es) && r in s.db.runs && r in s.db.jobs && TokensOf(s, r) == map[] && AtItsEnd(s.db.jobs[r])
    ensures if r in After(s, es).db.jobs
            then After(s, es).db.jobs[r] == s.db.jobs[r]
            else s.db.jobs[r].status in {JobDone, JobFailed}
    decreases |es|
  {
    if es != [] {
      StepProjects(s, es[0], r);
      EndedByStep(View(s, r), Label(s, es[0], r));
      if r in Next(s, es[0]).db.jobs {
        EndedForEver(Next(s, es[0]), es[1..], r);
      } else {
        DeletedForEver(Next(s, es[0]), es[1..], r);
      }
    }
  }

  /** A job no worker holds is settled exactly when it is done, failed, or running with its
      attempts used up; every other one can still be claimed or released. */
  lemma SettledExactly(s: State, r: RunId)
    requires Consistent(s) && r in s.db.jobs && TokensOf(s, r) == map[]
    ensures Settled(s, r) <==> AtItsEnd(s.db.jobs[r])
  {
    assert r in s.db.runs && Kept(View(s, r));
    if AtItsEnd(s.db.jobs[r]) {
      forall es | Valid(s, es) && r in After(s, es).db.jobs
        ensures After(s, es).db.jobs[r] == s.db.jobs[r]
      {
        EndedForEver(s, es, r);
      }
    } else {
      var es, t := LiveIsReached(s, r);
      assert !Settled(s, r);
    }
  }

  /** The row is the same in every state any trace can reach. */
  ghost predicate StuckForEver(s: State, r: RunId)
    requires r in s.db.jobs
  {
    forall es | Valid(s, es) :: r in After(s, es).db.jobs && After(s, es).db.jobs[r] == s.db.jobs[r]
  }

  /** A running job whose worker is gone is lost for good, never even deleted, exactly when its
      attempts are used up. */
  lemma StuckExactly(s: State, r: RunId)
    requires Consistent(s) && r in s.db.runs && r in s.db.jobs && Orphaned(View(s, r))
    ensures StuckForEver(s, r) <==> s.db.jobs[r].attempts >= s.db.jobs[r].maxAttempts
  {
    if s.db.jobs[r].attempts >= s.db.jobs[r].maxAttempts {
      forall es | Valid(s, es)
        ensures r in After(s, es).db.jobs && After(s, es).db.jobs[r] == s.db.jobs[r]
      {
        EndedForEver(s, es, r);
      }
    } else {
      SettledExactly(s, r);
    }
  }

  // ---- The cleaner's pair ----

  /** The second statement, whatever was claimed since the first, moves exactly the runs that are
      running with their job in the queue, so never one whose job is running. */
  lemma PairIsSafe(s: State, r: RunId)
    requires Consistent(s) && Enabled(s, ReleaseRuns(true)) && r in s.db.runs
    ensures var s' := Next(s, ReleaseRuns(true));
            && (s'.db.runs[r].status != s.db.runs[r].status ==>
                  r in s.db.jobs && s.db.jobs[r].status == JobQueued && s.db.runs[r].status == RunRunning)
            && (r in s.db.jobs && s.db.jobs[r].status == JobRunning ==> s'.db.runs[r] == s.db.runs[r])
            && !(r in s'.db.jobs && s'.db.jobs[r].status == JobQueued && s'.db.runs[r].status == RunRunning)
  {
  }

  /** Whatever status it changes, it changes to pending, with the start cleared and every other column
      as it was; all other runs and all other tables stay. */
  lemma ResetColumns(s: State, r: RunId)
    requires Enabled(s, ReleaseRuns(true)) && r in s.db.runs
    ensures var db, run := Next(s, ReleaseRuns(true)).db, s.db.runs[r];
            && r in db.runs && db.runs.Keys == s.db.runs.Keys && db.(runs := s.db.runs) == s.db
            && if db.runs[r].status == run.status then db.runs[r] == run
               else
                 db.runs[r] == Run(run.client, run.artifact, RunPending, run.exitCode, None, run.finishedAt,
                                   run.receivedAt, run.deleteAfter, run.logPath, run.deletedAt)
  {
  }
}
