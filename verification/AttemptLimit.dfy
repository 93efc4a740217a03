/** The limit of max_attempts executions: which step breaks it, and that nothing else does. */
module AttemptLimit {
  import opened Rows
  import opened System
  import opened Protocol
  import opened Unrestricted
  import opened Creation
  import opened ClaimBound
  import opened Recovery
  import opened Timed

  /** No execution too many has been started, nor will the next claim start one. */
  predicate Within(l: Local) {
    l.job.Some? ==>
      && l.job.value.attempts <= l.job.value.maxAttempts
      && (l.job.value.status == JobQueued ==> l.job.value.attempts < l.job.value.maxAttempts)
  }

  /** failJob queues a job whose attempts are used up: its test reads the attempts from before
      the claim, or before several claims, and not those in the row. */
  predicate Overqueues(l: Local, a: Action) {
    && a.Fail1? && a.delivered && a.token in l.tokens
    && l.tokens[a.token].snapshot < l.tokens[a.token].maxAttempts
    && l.job.Some? && l.job.value.attempts >= l.job.value.maxAttempts
  }

  /** The limit survives a step exactly if the step is no such report. */
  lemma WithinExactly(l: Local, a: Action)
    requires Within(l) && Possible(l, a)
    ensures Within(Do(l, a)) <==> !Overqueues(l, a)
  {
  }

  /** When job, run and worker agree, the report in question is the one of the worker that read
      max_attempts - 1, so of the last attempt that the limit allows. */
  lemma OverqueuedByLastAttempt(l: Local, t: nat)
    requires Agreed(l) && Possible(l, Fail1(t, true))
    ensures Overqueues(l, Fail1(t, true)) <==> l.tokens[t].snapshot + 1 == l.tokens[t].maxAttempts
  {
  }

  // ---- Along traces ----

  predicate WithinThroughout(s: State, es: seq<Event>, r: RunId)
    requires Valid(s, es) && r in s.db.runs
    decreases |es|
  {
    Within(View(s, r)) && (es != [] ==> (StepProjects(s, es[0], r); WithinThroughout(Next(s, es[0]), es[1..], r)))
  }

  predicate NoneOverqueues(s: State, es: seq<Event>, r: RunId)
    requires Valid(s, es) && r in s.db.runs
    decreases |es|
  {
    es == [] ||
    (StepProjects(s, es[0], r);
     !Overqueues(View(s, r), Label(s, es[0], r)) && NoneOverqueues(Next(s, es[0]), es[1..], r))
  }

  lemma {:induction false} WithinAlong(s: State, es: seq<Event>, r: RunId)
    requires Valid(s, es) && r in s.db.runs && Within(View(s, r))
    ensures WithinThroughout(s, es, r) <==> NoneOverqueues(s, es, r)
    decreases |es|
  {
    if es != [] {
      StepProjects(s, es[0], r);
      WithinExactly(View(s, r), Label(s, es[0], r));
      if !Overqueues(View(s, r), Label(s, es[0], r)) {
        WithinAlong(Next(s, es[0]), es[1..], r);
      }
    }
  }

  function Room(l: Local): nat
    requires Within(l)
  {
    if l.job.None? then 0 else l.job.value.maxAttempts - l.job.value.attempts
  }

  lemma RoomByStep(l: Local, a: Action)
    requires Within(l) && Possible(l, a) && !Overqueues(l, a)
    ensures Within(Do(l, a)) && Room(Do(l, a)) + One(a.Take?) <= Room(l)
  {
  }

  /** Without such a report a job is claimed at most as often as its attempts allow. */
  lemma {:induction false} ClaimsWithin(s: State, es: seq<Event>, r: RunId)
    requires Valid(s, es) && r in s.db.runs && Within(View(s, r)) && NoneOverqueues(s, es, r)
    ensures Claims(es, r) <= Room(View(s, r))
    decreases |es|
  {
    if es != [] {
      StepProjects(s, es[0], r);
      RoomByStep(View(s, r), Label(s, es[0], r));
      ClaimsWithin(Next(s, es[0]), es[1..], r);
    }
  }

  lemma {:induction false} WithinAtEnd(s: State, es: seq<Event>, r: RunId)
    requires Valid(s, es) && r in s.db.runs && WithinThroughout(s, es, r)
    ensures r in After(s, es).db.runs && Within(View(After(s, es), r))
    decreases |es|
  {
    if es != [] {
      StepProjects(s, es[0], r);
      WithinAtEnd(Next(s, es[0]), es[1..], r);
    }
  }

  /** In every trace without such a report a new job is claimed at most max_attempts times. */
  lemma LimitKept(s: State, es: seq<Event>, r: RunId)
    requires Valid(s, es) && r in s.db.runs && Fresh(View(s, r)) && NoneOverqueues(s, es, r)
    ensures Claims(es, r) <= s.db.jobs[r].maxAttempts
    ensures r in After(s, es).db.runs && Within(View(After(s, es), r))
  {
    ClaimsWithin(s, es, r);
    WithinAlong(s, es, r);
    WithinAtEnd(s, es, r);
  }

  // ---- What it means to be within the limit ----

  predicate Exceeded(s: State, r: RunId) {
    r in s.db.jobs && s.db.jobs[r].attempts > s.db.jobs[r].maxAttempts
  }

  lemma {:induction false} ClaimsOverqueueNothing(s: State, es: seq<Event>, r: RunId)
    requires Valid(s, es) && r in s.db.runs && OnlyClaims(es)
    ensures NoneOverqueues(s, es, r)
    decreases |es|
  {
    if es != [] {
      assert es[0] in es;
      StepProjects(s, es[0], r);
      ClaimsOverqueueNothing(Next(s, es[0]), es[1..], r);
    }
  }

  lemma BrokenIsExceeded(s: State, r: RunId) returns (es: seq<Event>)
    requires Consistent(s) && r in s.db.runs && !Within(View(s, r))
    ensures Valid(s, es) && OnlyClaims(es) && Exceeded(After(s, es), r)
  {
    if s.db.jobs[r].attempts > s.db.jobs[r].maxAttempts {
      es := [];
    } else {
      var t;
      es, t := QueuedIsReached(s, r);
    }
  }

  /** A run is within the limit exactly if no sequence of claims takes its job past it. */
  lemma WithinMeans(s: State, r: RunId)
    requires Consistent(s) && r in s.db.runs
    ensures Within(View(s, r)) <==> forall es | Valid(s, es) && OnlyClaims(es) :: !Exceeded(After(s, es), r)
  {
    if Within(View(s, r)) {
      forall es | Valid(s, es) && OnlyClaims(es)
        ensures !Exceeded(After(s, es), r)
      {
        ClaimsOverqueueNothing(s, es, r);
        WithinAlong(s, es, r);
        WithinAtEnd(s, es, r);
      }
    } else {
      var es := BrokenIsExceeded(s, r);
    }
  }

  /** So after the first such report the workers, claiming on, exceed the limit. */
  lemma LimitBroken(s: State, e: Event, r: RunId) returns (es: seq<Event>)
    requires Consistent(s) && Enabled(s, e) && r in s.db.runs && Within(View(s, r))
    requires Overqueues(View(s, r), Label(s, e, r))
    ensures Valid(Next(s, e), es) && OnlyClaims(es) && Exceeded(After(Next(s, e), es), r)
  {
    StepProjects(s, e, r);
    WithinExactly(View(s, r), Label(s, e, r));
    ConsistentByStep(s, e);
    es := BrokenIsExceeded(Next(s, e), r);
  }
}
