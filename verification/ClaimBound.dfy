/** How often one job can be claimed when nothing at all is assumed about timing. */
module ClaimBound {
  import opened Rows
  import opened System
  import opened Protocol
  import opened Unrestricted
  import opened Creation

  /** Workers that can still put the job back in the queue. */
  function Requeuers(l: Local): set<nat> {
    set t | t in l.tokens && l.tokens[t].stage == Executing && l.tokens[t].snapshot < l.tokens[t].maxAttempts
  }

  function One(b: bool): nat { if b then 1 else 0 }

  function Minus(x: int, y: int): nat { if x > y then x - y else 0 }

  /** Claims still possible: the job is in the queue, a worker can put it back, a later claim
      can create such a worker, or the cleaner can put it back, once for each attempts value
      below the maximum. */
  function ClaimsLeft(l: Local): nat {
    if l.job.None? then 0
    else
      var job := l.job.value;
      One(job.status == JobQueued) + |Requeuers(l)| + Minus(job.maxAttempts, job.attempts)
      + Minus(job.maxAttempts - 1, job.attempts) + One(job.status == JobRunning && job.attempts < job.maxAttempts)
  }

  lemma RequeuersAfterClaim(l: Local, a: Action)
    requires Kept(l) && Possible(l, a) && a.Take?
    ensures |Requeuers(Do(l, a))| == |Requeuers(l)| + One(l.job.value.attempts < l.job.value.maxAttempts)
  {
    assert Requeuers(Do(l, a)) ==
           if l.job.value.attempts < l.job.value.maxAttempts then Requeuers(l) + {a.token} else Requeuers(l);
  }

  lemma RequeuersAfterFailure(l: Local, a: Action)
    requires Possible(l, a) && a.Fail1?
    ensures |Requeuers(Do(l, a))| == |Requeuers(l)| - One(l.tokens[a.token].snapshot < l.tokens[a.token].maxAttempts)
  {
    assert Requeuers(Do(l, a)) == Requeuers(l) - {a.token};
  }

  lemma RequeuersOtherwise(l: Local, a: Action)
    requires Possible(l, a) && !a.Take? && !a.Fail1?
    ensures |Requeuers(Do(l, a))| <= |Requeuers(l)|
  {
    var after, before := Requeuers(Do(l, a)), Requeuers(l);
    if a.Look? || a.Fail2? || a.Finish1? || a.Finish2? || a.Die? {
      assert after == before - {a.token};
    } else {
      assert after == before;
    }
  }

  /** No step raises the number of claims left, and a claim lowers it. */
  lemma ClaimsLeftFalls(l: Local, a: Action)
    requires Kept(l) && Possible(l, a)
    ensures ClaimsLeft(Do(l, a)) + One(a.Take?) <= ClaimsLeft(l)
  {
    if a.Take? {
      RequeuersAfterClaim(l, a);
    } else if a.Fail1? {
      RequeuersAfterFailure(l, a);
    } else {
      RequeuersOtherwise(l, a);
    }
  }

  function Takes(acts: seq<Action>): nat {
    if acts == [] then 0 else One(acts[0].Take?) + Takes(acts[1..])
  }

  lemma {:induction false} ClaimsLeftAlong(l: Local, acts: seq<Action>)
    requires Kept(l) && Follows(l, acts)
    ensures Kept(DoAll(l, acts))
    ensures ClaimsLeft(DoAll(l, acts)) + Takes(acts) <= ClaimsLeft(l)
    decreases |acts|
  {
    if acts != [] {
      KeptByStep(l, acts[0]);
      ClaimsLeftFalls(l, acts[0]);
      ClaimsLeftAlong(Do(l, acts[0]), acts[1..]);
    }
  }

  // ---- Back to the system ----

  /** Claims of run r's job in a trace. */
  function Claims(es: seq<Event>, r: RunId): nat {
    if es == [] then 0 else One(es[0].ClaimJob? && es[0].run == r) + Claims(es[1..], r)
  }

  lemma {:induction false} ClaimsAreTakes(s: State, es: seq<Event>, r: RunId)
    requires Valid(s, es) && r in s.db.runs
    ensures Claims(es, r) == Takes(Labels(s, es, r))
    decreases |es|
  {
    if es != [] {
      StepProjects(s, es[0], r);
      ClaimsAreTakes(Next(s, es[0]), es[1..], r);
      assert Labels(s, es, r)[1..] == Labels(Next(s, es[0]), es[1..], r);
    }
  }

  /** However the system runs on, a job just created is claimed at most twice its max_attempts. */
  lemma AtMostTwiceMaxAttempts(s: State, es: seq<Event>, r: RunId)
    requires Valid(s, es) && r in s.db.runs && Fresh(View(s, r))
    ensures Claims(es, r) <= 2 * s.db.jobs[r].maxAttempts
  {
    var l := View(s, r);
    assert Requeuers(l) == {};
    TracesProject(s, es, r);
    ClaimsAreTakes(s, es, r);
    ClaimsLeftAlong(l, Labels(s, es, r));
  }

  lemma NotClaimedBeforeCreation(s: State, e: Event, r: RunId)
    requires Enabled(s, e) && r !in s.db.runs
    ensures !(e.ClaimJob? && e.run == r)
    ensures r in Next(s, e).db.runs ==> e.CommitRun? && e.run == r
  {
    RunsGrow(s, e);
  }

  /** In every trace from the empty system, every job is claimed at most six times. */
  lemma {:induction false} AtMostSixClaims(s: State, es: seq<Event>, r: RunId)
    requires Consistent(s) && Valid(s, es) && r !in s.db.runs
    ensures Claims(es, r) <= 2 * MAX_ATTEMPTS
    decreases |es|
  {
    if es != [] {
      var s' := Next(s, es[0]);
      NotClaimedBeforeCreation(s, es[0], r);
      ConsistentByStep(s, es[0]);
      if r in s'.db.runs {
        ViewOfNewRun(s, es[0]);
        AtMostTwiceMaxAttempts(s', es[1..], r);
      } else {
        AtMostSixClaims(s', es[1..], r);
      }
    }
  }

  lemma AttemptsByStep(s: State, e: Event, r: RunId)
    requires Enabled(s, e) && r in s.db.runs && r in s.db.jobs && r in Next(s, e).db.jobs
    ensures r in Next(s, e).db.runs
    ensures Next(s, e).db.jobs[r].attempts == s.db.jobs[r].attempts + One(e.ClaimJob? && e.run == r)
  {
    StepProjects(s, e, r);
  }

  /** The attempts column counts the claims of the job, for as long as the row exists. */
  lemma {:induction false} AttemptsAreClaims(s: State, es: seq<Event>, r: RunId)
    requires Valid(s, es) && r in s.db.runs && r in s.db.jobs && r in After(s, es).db.jobs
    ensures After(s, es).db.jobs[r].attempts == s.db.jobs[r].attempts + Claims(es, r)
    decreases |es|
  {
    if es != [] {
      RunsGrow(s, es[0]);
      if r !in Next(s, es[0]).db.jobs {
        DeletedForEver(Next(s, es[0]), es[1..], r);
      } else {
        AttemptsByStep(s, es[0], r);
        AttemptsAreClaims(Next(s, es[0]), es[1..], r);
      }
    }
  }

  lemma {:induction false} DeletedForEver(s: State, es: seq<Event>, r: RunId)
    requires Valid(s, es) && r in s.db.runs && r !in s.db.jobs
    ensures r !in After(s, es).db.jobs
    decreases |es|
  {
    if es != [] {
      StepProjects(s, es[0], r);
      DeletedForEver(Next(s, es[0]), es[1..], r);
    }
  }
}
