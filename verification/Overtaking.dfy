/** How many other claims can come before a job that waits in the queue, with nothing assumed
    about workers, cleaners or the collector. */
module Overtaking {
  import opened Rows
  import opened Statements
  import opened System
  import opened Protocol
  import opened Creation
  import opened ClaimBound
  import opened Sums

  /** Job j is in the queue and was available strictly before now. */
  predicate Waiting(s: State, j: RunId, since: Time) {
    && j in s.db.jobs && s.db.jobs[j].status == JobQueued
    && s.db.jobs[j].availableAt == since && since < s.db.now
  }

  /** j has neither been claimed nor put off in any state of the trace. */
  predicate WaitsAlong(s: State, es: seq<Event>, j: RunId, since: Time)
    requires Valid(s, es)
    decreases |es|
  {
    Waiting(s, j, since) && (es != [] ==> WaitsAlong(Next(s, es[0]), es[1..], j, since))
  }

  function AtLeastOne(x: nat): nat { if x == 0 then 1 else x }

  /** Claims a job can still make with its present available_at: each claim uses up one of its
      attempts, and only the cleaner queues it again without moving available_at. */
  function Turns(job: Job, since: Time): nat {
    if job.availableAt > since then 0
    else
      match job.status
      case JobQueued => AtLeastOne(Minus(job.maxAttempts, job.attempts))
      case JobRunning => Minus(job.maxAttempts, job.attempts)
      case _ => 0
  }

  function TurnsOf(l: Local, since: Time): nat {
    if l.job.Some? then Turns(l.job.value, since) else 0
  }

  function TurnsAt(s: State, since: Time): nat -> nat {
    (k: nat) => if k in s.db.jobs then Turns(s.db.jobs[k], since) else 0
  }

  lemma TurnsFallLocally(l: Local, a: Action, since: Time)
    requires Possible(l, a) && since < l.now
    requires a.Take? ==> l.job.value.availableAt <= since
    ensures TurnsOf(Do(l, a), since) + One(a.Take?) <= TurnsOf(l, since)
  {
  }

  /** The claim query prefers what has waited longest. */
  lemma OnlyEarlierJobsAreClaimed(s: State, e: Event, j: RunId, since: Time)
    requires Consistent(s) && Enabled(s, e) && e.ClaimJob? && Waiting(s, j, since)
    ensures s.db.jobs[e.run].availableAt <= since
  {
  }

  lemma ClaimSeenLocally(s: State, e: Event, k: RunId)
    requires Enabled(s, e) && k in s.db.runs
    ensures Label(s, e, k).Take? <==> e.ClaimJob? && e.run == k
  {
  }

  lemma TurnsFall(s: State, e: Event, j: RunId, since: Time, k: RunId)
    requires Consistent(s) && Enabled(s, e) && Waiting(s, j, since)
    ensures TurnsAt(Next(s, e), since)(k) + One(e.ClaimJob? && e.run == k) <= TurnsAt(s, since)(k)
  {
    if k in s.db.runs {
      StepProjects(s, e, k);
      ClaimSeenLocally(s, e, k);
      if e.ClaimJob? {
        OnlyEarlierJobsAreClaimed(s, e, j, since);
      }
      TurnsFallLocally(View(s, k), Label(s, e, k), since);
    } else {
      NotClaimedBeforeCreation(s, e, k);
      RunsGrow(s, e);
    }
  }

  function AllClaims(es: seq<Event>): nat {
    if es == [] then 0 else One(es[0].ClaimJob?) + AllClaims(es[1..])
  }

  /** From s to s' no job gains a turn, and the one claimed, if any, loses one. */
  ghost predicate NoneGains(s: State, s': State, since: Time, claim: bool, claimed: RunId) {
    forall k: nat :: TurnsAt(s', since)(k) + (if claim && claimed == k then 1 else 0) <= TurnsAt(s, since)(k)
  }

  function ClaimedBy(e: Event): RunId { if e.ClaimJob? then e.run else 0 }

  lemma StepGainsNone(s: State, e: Event, j: RunId, since: Time)
    requires Consistent(s) && Enabled(s, e) && Waiting(s, j, since)
    ensures NoneGains(s, Next(s, e), since, e.ClaimJob?, ClaimedBy(e))
  {
    forall k: nat
      ensures TurnsAt(Next(s, e), since)(k) + (if e.ClaimJob? && ClaimedBy(e) == k then 1 else 0)
              <= TurnsAt(s, since)(k)
    {
      TurnsFall(s, e, j, since, k);
    }
  }

  ghost predicate OnlyRivals(s: State, j: RunId, since: Time, rivals: set<RunId>) {
    forall k: nat | k !in rivals && k != j :: TurnsAt(s, since)(k) == 0
  }

  lemma RivalsFall(s: State, s': State, j: RunId, since: Time, claim: bool, claimed: RunId, rivals: set<RunId>)
    requires NoneGains(s, s', since, claim, claimed) && (claim ==> claimed in rivals)
    requires OnlyRivals(s, j, since, rivals)
    ensures Sum(rivals, TurnsAt(s', since)) + One(claim) <= Sum(rivals, TurnsAt(s, since))
    ensures OnlyRivals(s', j, since, rivals)
  {
    SumFalls(rivals, TurnsAt(s, since), TurnsAt(s', since), claim, claimed);
  }

  lemma ClaimedIsRival(s: State, e: Event, j: RunId, since: Time, rivals: set<RunId>)
    requires Enabled(s, e) && e.ClaimJob? && Waiting(Next(s, e), j, since)
    requires NoneGains(s, Next(s, e), since, true, e.run) && OnlyRivals(s, j, since, rivals)
    ensures e.run in rivals
  {
  }

  /** While j waits, the claims of all other jobs together never exceed the turns the others
      had left when the wait began; jobs created meanwhile have none. */
  lemma {:induction false} OvertakingAlong(s: State, es: seq<Event>, j: RunId, since: Time, rivals: set<RunId>)
    requires Consistent(s) && Valid(s, es) && WaitsAlong(s, es, j, since)
    requires OnlyRivals(s, j, since, rivals)
    ensures AllClaims(es) <= Sum(rivals, TurnsAt(s, since))
    decreases |es|
  {
    if es != [] {
      var s' := Next(s, es[0]);
      StepGainsNone(s, es[0], j, since);
      if es[0].ClaimJob? {
        ClaimedIsRival(s, es[0], j, since, rivals);
      }
      RivalsFall(s, s', j, since, es[0].ClaimJob?, ClaimedBy(es[0]), rivals);
      ConsistentByStep(s, es[0]);
      OvertakingAlong(s', es[1..], j, since, rivals);
    }
  }

  /** The jobs that can be claimed before j. */
  function Rivals(s: State, j: RunId): set<RunId>
    requires j in s.db.jobs
  {
    set k | k in s.db.jobs && k != j && s.db.jobs[k].availableAt <= s.db.jobs[j].availableAt
            && s.db.jobs[k].status in {JobQueued, JobRunning}
  }

  /** Bounded overtaking: before j is claimed or put off, at most as many claims as its rivals have
      turns, which is their attempts left, and one for a queued rival that has none. */
  lemma BoundedOvertaking(s: State, es: seq<Event>, j: RunId)
    requires Consistent(s) && Valid(s, es) && j in s.db.jobs
    requires WaitsAlong(s, es, j, s.db.jobs[j].availableAt)
    ensures AllClaims(es) <= Sum(Rivals(s, j), TurnsAt(s, s.db.jobs[j].availableAt))
  {
    OvertakingAlong(s, es, j, s.db.jobs[j].availableAt, Rivals(s, j));
  }

  // ---- The queue never stalls on a choice ----

  lemma {:induction false} EarliestOf(db: Db, found: set<RunId>) returns (r: RunId)
    requires found != {} && forall k | k in found :: k in db.jobs
    ensures r in found && forall k | k in found :: db.jobs[r].availableAt <= db.jobs[k].availableAt
    decreases |found|
  {
    var k :| k in found;
    if found == {k} {
      r := k;
    } else {
      var q := EarliestOf(db, found - {k});
      r := if db.jobs[k].availableAt <= db.jobs[q].availableAt then k else q;
    }
  }

  /** Whenever some job is claimable, the claim query returns one. */
  lemma SomeJobIsNext(db: Db, j: RunId) returns (r: RunId)
    requires Claimable(db, j)
    ensures NextJob(db, r)
  {
    var found := set k | k in db.jobs && Claimable(db, k);
    assert j in found;
    r := EarliestOf(db, found);
  }
}
