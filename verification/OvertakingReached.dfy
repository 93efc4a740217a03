/** The bound on overtaking is reached: from every state some trace uses up all turns of the rivals
    while the job waits. */
module OvertakingReached {
  import opened Rows
  import opened Statements
  import opened System
  import opened Protocol
  import opened Unrestricted
  import opened Creation
  import opened Sums
  import opened Overtaking
  import opened Recovery

  lemma {:induction false} WaitsJoin(s: State, es: seq<Event>, fs: seq<Event>, j: RunId, since: Time)
    requires Valid(s, es) && Valid(After(s, es), fs)
    requires WaitsAlong(s, es, j, since) && WaitsAlong(After(s, es), fs, j, since)
    ensures Valid(s, es + fs) && After(s, es + fs) == After(After(s, es), fs) && WaitsAlong(s, es + fs, j, since)
    ensures AllClaims(es + fs) == AllClaims(es) + AllClaims(fs)
    decreases |es|
  {
    TracesJoin(s, es, fs);
    if es == [] {
      assert es + fs == fs;
    } else {
      assert (es + fs)[0] == es[0] && (es + fs)[1..] == es[1..] + fs;
      WaitsJoin(Next(s, es[0]), es[1..], fs, j, since);
    }
  }

  /** The jobs that the claim query may return before j. */
  function ClaimableRivals(s: State, j: RunId, since: Time): set<RunId> {
    set k | k in s.db.jobs && Claimable(s.db, k) && k != j && s.db.jobs[k].availableAt <= since
  }

  lemma EarliestRivalIsNext(s: State, j: RunId, since: Time) returns (k: RunId)
    requires Waiting(s, j, since) && ClaimableRivals(s, j, since) != {}
    ensures k in ClaimableRivals(s, j, since) && NextJob(s.db, k)
  {
    k := EarliestOf(s.db, ClaimableRivals(s, j, since));
  }

  /** One claim before j takes exactly one turn. */
  lemma TurnTaken(s: State, j: RunId, since: Time, t: nat, k: RunId)
    requires Waiting(s, j, since) && k in ClaimableRivals(s, j, since) && NextJob(s.db, k) && t !in s.tokens
    ensures var e := ClaimJob(t, k, 0, s.db.now, 0);
            && Valid(s, [e]) && After(s, [e]) == Next(s, e) && WaitsAlong(s, [e], j, since) && AllClaims([e]) == 1
            && TurnsAt(Next(s, e), since)(k) + 1 == TurnsAt(s, since)(k)
            && forall q: nat | q != k :: TurnsAt(Next(s, e), since)(q) == TurnsAt(s, since)(q)
  {
    var e := ClaimJob(t, k, 0, s.db.now, 0);
    OneStep(s, e);
    assert Waiting(Next(s, e), j, since) && [e][1..] == [] && WaitsAlong(Next(s, e), [], j, since);
    assert AllClaims([e]) == 1 + AllClaims([]);
  }

  function Expiry(job: Job, now: Time): Time {
    if job.leaseUntil != None && job.leaseUntil.value >= now then job.leaseUntil.value + 1 else now
  }

  /** A cleaner pass some time later. */
  lemma PassWorks(s: State, to: Time, j: RunId, since: Time)
    requires s.db.now <= to && Waiting(s, j, since)
    ensures var es := [Tick(to), ReleaseJobs];
            && Valid(s, es) && After(s, es).db == ReleaseLeases(s.db.(now := to))
            && WaitsAlong(s, es, j, since) && AllClaims(es) == 0
  {
    TwoSteps(s, Tick(to), ReleaseJobs);
    var es, s1 := [Tick(to), ReleaseJobs], Next(s, Tick(to));
    var s2 := Next(s1, ReleaseJobs);
    assert es[1..] == [ReleaseJobs] && [ReleaseJobs][1..] == [];
    assert Waiting(s1, j, since) && Waiting(s2, j, since) && WaitsAlong(s2, [], j, since);
    assert WaitsAlong(s1, [ReleaseJobs], j, since);
    assert AllClaims([ReleaseJobs]) == 0 + AllClaims([]);
  }

  ghost predicate SameTurns(s: State, s': State, since: Time) {
    forall q: nat :: TurnsAt(s', since)(q) == TurnsAt(s, since)(q)
  }

  lemma PassKeepsTurns(s: State, s': State, to: Time, since: Time)
    requires s'.db == ReleaseLeases(s.db.(now := to))
    ensures SameTurns(s, s', since)
  {
  }

  /** After its lease a rival with an attempt left is claimable. */
  lemma RivalReleased(s: State, s': State, j: RunId, since: Time, k: RunId)
    requires Consistent(s) && Waiting(s, j, since) && k in s.db.jobs && k != j && s.db.jobs[k].availableAt <= since
    requires s.db.jobs[k].status == JobRunning && s.db.jobs[k].attempts < s.db.jobs[k].maxAttempts
    requires s'.db == ReleaseLeases(s.db.(now := Expiry(s.db.jobs[k], s.db.now)))
    ensures k in ClaimableRivals(s', j, since)
  {
    assert Kept(View(s, k)) && RunLinked(s.db, k);
  }

  /** With a rival claimable, the earliest of them takes a turn. */
  lemma OneTurnTaken(s: State, j: RunId, since: Time, rivals: set<RunId>) returns (es: seq<Event>)
    requires Waiting(s, j, since) && OnlyRivals(s, j, since, rivals) && ClaimableRivals(s, j, since) != {}
    ensures Valid(s, es) && WaitsAlong(s, es, j, since) && AllClaims(es) == 1
    ensures OnlyRivals(After(s, es), j, since, rivals)
    ensures Sum(rivals, TurnsAt(s, since)) == 1 + Sum(rivals, TurnsAt(After(s, es), since))
  {
    var k := EarliestRivalIsNext(s, j, since);
    var t := Above(s.tokens.Keys);
    es := [ClaimJob(t, k, 0, s.db.now, 0)];
    TurnTaken(s, j, since, t, k);
    assert TurnsAt(s, since)(k) > 0 && k in rivals;
    SumTakes(rivals, TurnsAt(s, since), k);
    SumTakes(rivals, TurnsAt(After(s, es), since), k);
    SumSame(rivals - {k}, TurnsAt(s, since), TurnsAt(After(s, es), since));
  }

  /** If a rival has a turn, it is claimable, or will be after a cleaner pass. */
  lemma SomeRivalReady(s: State, j: RunId, since: Time, x: RunId) returns (es: seq<Event>)
    requires Consistent(s) && Waiting(s, j, since) && x != j && TurnsAt(s, since)(x) > 0
    ensures Valid(s, es) && WaitsAlong(s, es, j, since) && AllClaims(es) == 0
    ensures ClaimableRivals(After(s, es), j, since) != {} && SameTurns(s, After(s, es), since)
  {
    if s.db.jobs[x].status == JobRunning {
      var to := Expiry(s.db.jobs[x], s.db.now);
      PassWorks(s, to, j, since);
      es := [Tick(to), ReleaseJobs];
      PassKeepsTurns(s, After(s, es), to, since);
      RivalReleased(s, After(s, es), j, since, x);
    } else {
      OnlyDueTimeMatters(s, x);
      assert x in ClaimableRivals(s, j, since);
      es := [];
    }
  }

  lemma {:induction false} WaitsAtEnd(s: State, es: seq<Event>, j: RunId, since: Time)
    requires Valid(s, es) && WaitsAlong(s, es, j, since)
    ensures Waiting(After(s, es), j, since)
    decreases |es|
  {
    if es != [] {
      WaitsAtEnd(Next(s, es[0]), es[1..], j, since);
    }
  }

  lemma SameTurnsSameSum(s: State, s': State, j: RunId, since: Time, rivals: set<RunId>)
    requires SameTurns(s, s', since)
    ensures Sum(rivals, TurnsAt(s', since)) == Sum(rivals, TurnsAt(s, since))
    ensures OnlyRivals(s, j, since, rivals) ==> OnlyRivals(s', j, since, rivals)
  {
    SumSame(rivals, TurnsAt(s, since), TurnsAt(s', since));
  }

  /** As long as the rivals have turns, one more can be taken. */
  lemma NextTurn(s: State, j: RunId, since: Time, rivals: set<RunId>) returns (es: seq<Event>)
    requires Consistent(s) && Waiting(s, j, since) && OnlyRivals(s, j, since, rivals) && j !in rivals
    requires Sum(rivals, TurnsAt(s, since)) > 0
    ensures Valid(s, es) && WaitsAlong(s, es, j, since) && AllClaims(es) == 1
    ensures OnlyRivals(After(s, es), j, since, rivals)
    ensures Sum(rivals, TurnsAt(s, since)) == 1 + Sum(rivals, TurnsAt(After(s, es), since))
  {
    var x := PositiveTerm(rivals, TurnsAt(s, since));
    var ready := SomeRivalReady(s, j, since, x);
    var s1 := After(s, ready);
    SameTurnsSameSum(s, s1, j, since, rivals);
    WaitsAtEnd(s, ready, j, since);
    var claim := OneTurnTaken(s1, j, since, rivals);
    WaitsJoin(s, ready, claim, j, since);
    es := ready + claim;
  }

  lemma {:induction false} AllTurnsTaken(s: State, j: RunId, since: Time, rivals: set<RunId>)
    returns (es: seq<Event>)
    requires Consistent(s) && Waiting(s, j, since) && OnlyRivals(s, j, since, rivals) && j !in rivals
    ensures Valid(s, es) && WaitsAlong(s, es, j, since)
    ensures AllClaims(es) == Sum(rivals, TurnsAt(s, since))
    decreases Sum(rivals, TurnsAt(s, since))
  {
    if Sum(rivals, TurnsAt(s, since)) == 0 {
      es := [];
    } else {
      es := NextTurn(s, j, since, rivals);
      ConsistentAlong(s, es);
      WaitsAtEnd(s, es, j, since);
      var rest := AllTurnsTaken(After(s, es), j, since, rivals);
      WaitsJoin(s, es, rest, j, since);
      es := es + rest;
    }
  }

  /** However the system stands, all turns that the bound counts can come before the waiting job. */
  lemma BoundIsReached(s: State, j: RunId) returns (es: seq<Event>)
    requires Consistent(s) && j in s.db.jobs && Waiting(s, j, s.db.jobs[j].availableAt)
    ensures Valid(s, es) && WaitsAlong(s, es, j, s.db.jobs[j].availableAt)
    ensures AllClaims(es) == Sum(Rivals(s, j), TurnsAt(s, s.db.jobs[j].availableAt))
  {
    es := AllTurnsTaken(s, j, s.db.jobs[j].availableAt, Rivals(s, j));
  }
}
