/** How long a run can take when workers may die in their containers and the cleaner comes by at
    least every `period`: every attempt ends in a report or in a release, until one of them ends
    the run or the last one is lost. */
module CrashSchedule {
  import opened Rows
  import opened System
  import opened Protocol
  import opened Unrestricted
  import opened Creation
  import opened Budget
  import opened Timed
  import opened Recovery

  /** Since when the job can be claimed: a release does not touch available_at. */
  function Due(job: Job): Time {
    if job.availableAt < job.updatedAt then job.updatedAt else job.availableAt
  }

  /** Workers may die, but otherwise whoever holds the run is done within the longest execution; an
      orphan with an attempt left is released within `period` of its lease; a queued job is
      claimed within `delay` of being due, and a new one by the time `first`. */
  predicate Attended(c: Config, delay: nat, period: nat, first: Time, l: Local, a: Action) {
    && Prompt(c, l, a)
    && (a.Clock? ==>
          && (forall t | t in l.tokens :: a.to <= l.tokens[t].claimedAt + Longest(c))
          && (Orphaned(l) && l.job.value.attempts < l.job.value.maxAttempts && l.job.value.leaseUntil != None ==>
                a.to <= l.job.value.leaseUntil.value + period)
          && (l.job.Some? && l.job.value.status == JobQueued ==>
                a.to <= if l.job.value.attempts == 0 then first else Due(l.job.value) + delay))
  }

  /** From a claim that reads s attempts until the job is due again: a failure at the last moment and
      its backoff, or the lease and the cleaner. */
  function Turn(c: Config, period: nat, s: nat): int {
    if Longest(c) + RetryDelay(s) < Lease(c) + period then Lease(c) + period else Longest(c) + RetryDelay(s)
  }

  function CrashSlot(c: Config, delay: nat, period: nat, s: nat): int {
    if s == 0 then 0 else CrashSlot(c, delay, period, s - 1) + Turn(c, period, s - 1) + delay
  }

  function CrashBound(c: Config, delay: nat, period: nat, max: nat): int {
    CrashSlot(c, delay, period, max) + Longest(c)
  }

  lemma {:induction false} CrashSlotsGrow(c: Config, delay: nat, period: nat, s: nat, max: nat)
    requires ValidConfig(c) && s <= max
    ensures CrashSlot(c, delay, period, s) <= CrashSlot(c, delay, period, max)
    decreases max - s
  {
    LeaseOutlastsRun(c);
    if s < max {
      CrashSlotsGrow(c, delay, period, s, max - 1);
    }
  }

  // ---- The schedule of one run ----

  predicate HolderInTurn(c: Config, delay: nat, period: nat, first: Time, l: Local, k: Token) {
    && k.claimedAt <= first + CrashSlot(c, delay, period, k.snapshot) && l.now <= k.claimedAt + Longest(c)
    && k.lease == k.claimedAt + Lease(c)
  }

  predicate JobInTurn(c: Config, delay: nat, period: nat, first: Time, l: Local, job: Job) {
    match job.status
    case JobQueued =>
      if job.attempts == 0 then l.now <= first
      else Due(job) + delay <= first + CrashSlot(c, delay, period, job.attempts) && l.now <= Due(job) + delay
    case JobRunning =>
      && job.availableAt <= l.now && job.attempts >= 1 && job.leaseUntil != None
      && job.leaseUntil.value <= first + CrashSlot(c, delay, period, job.attempts - 1) + Lease(c)
      && (l.tokens == map[] && job.attempts < job.maxAttempts ==> l.now <= job.leaseUntil.value + period)
    case _ => true
  }

  predicate InTurn(c: Config, delay: nat, period: nat, first: Time, max: nat, l: Local) {
    && (forall t | t in l.tokens ::
          HolderInTurn(c, delay, period, first, l, l.tokens[t]) && l.tokens[t].maxAttempts == max)
    && (l.job.Some? ==> l.job.value.maxAttempts == max && JobInTurn(c, delay, period, first, l, l.job.value))
    && (Terminal(l.run.status) ==>
          l.run.finishedAt != None && l.run.finishedAt.value <= first + CrashBound(c, delay, period, max))
  }

  lemma HolderKeepsTurn(c: Config, delay: nat, period: nat, first: Time, max: nat, l: Local, a: Action, t: nat)
    requires ValidConfig(c) && Agreed(l) && InTurn(c, delay, period, first, max, l)
    requires Possible(l, a) && Attended(c, delay, period, first, l, a) && t in l.tokens
    requires a.Fail1? || a.Fail2? || a.Look? || a.Finish1? || a.Finish2? || a.Die?
    ensures InTurn(c, delay, period, first, max, Do(l, a))
  {
    var k := l.tokens[t];
    assert a.token == t && Held(l, k) && HolderInTurn(c, delay, period, first, l, k);
    CrashSlotsGrow(c, delay, period, k.snapshot, max);
    LeaseOutlastsRun(c);
    assert CrashSlot(c, delay, period, k.snapshot + 1) ==
           CrashSlot(c, delay, period, k.snapshot) + Turn(c, period, k.snapshot) + delay;
  }

  lemma HolderWaitsInTurn(c: Config, delay: nat, period: nat, first: Time, max: nat, l: Local, a: Action, t: nat)
    requires ValidConfig(c) && Agreed(l) && InTurn(c, delay, period, first, max, l)
    requires Possible(l, a) && Attended(c, delay, period, first, l, a) && t in l.tokens
    requires !(a.Fail1? || a.Fail2? || a.Look? || a.Finish1? || a.Finish2? || a.Die?)
    ensures InTurn(c, delay, period, first, max, Do(l, a))
  {
    assert Held(l, l.tokens[t]) && HolderInTurn(c, delay, period, first, l, l.tokens[t]);
  }

  lemma RestKeepsTurn(c: Config, delay: nat, period: nat, first: Time, max: nat, l: Local, a: Action)
    requires ValidConfig(c) && Agreed(l) && InTurn(c, delay, period, first, max, l)
    requires Possible(l, a) && Attended(c, delay, period, first, l, a) && l.tokens == map[]
    ensures InTurn(c, delay, period, first, max, Do(l, a))
  {
    LeaseOutlastsRun(c);
    if a.Release? {
      var n := l.job.value.attempts - 1;
      assert CrashSlot(c, delay, period, n + 1) == CrashSlot(c, delay, period, n) + Turn(c, period, n) + delay;
    }
  }

  lemma TurnByStep(c: Config, delay: nat, period: nat, first: Time, max: nat, l: Local, a: Action)
    requires ValidConfig(c) && Agreed(l) && InTurn(c, delay, period, first, max, l)
    requires Possible(l, a) && Attended(c, delay, period, first, l, a)
    ensures Timely(l, a) && Agreed(Do(l, a)) && InTurn(c, delay, period, first, max, Do(l, a))
  {
    PromptIsTimely(c, l, a);
    AgreedExactly(l, a);
    if t :| t in l.tokens {
      if a.Fail1? || a.Fail2? || a.Look? || a.Finish1? || a.Finish2? || a.Die? {
        HolderKeepsTurn(c, delay, period, first, max, l, a, t);
      } else {
        HolderWaitsInTurn(c, delay, period, first, max, l, a, t);
      }
    } else {
      RestKeepsTurn(c, delay, period, first, max, l, a);
    }
  }

  /** Its worker is gone and its attempts are used up. */
  predicate Lost(l: Local) {
    Orphaned(l) && l.job.value.attempts >= l.job.value.maxAttempts
  }

  /** An attended run has ended in time, or is lost, or there still is time. */
  lemma InTimeOrLost(c: Config, delay: nat, period: nat, first: Time, max: nat, l: Local)
    requires ValidConfig(c) && Agreed(l) && InTurn(c, delay, period, first, max, l)
    ensures Terminal(l.run.status) || Lost(l) || l.now <= first + CrashBound(c, delay, period, max)
  {
    LeaseOutlastsRun(c);
    if t :| t in l.tokens {
      var k := l.tokens[t];
      assert Held(l, k) && HolderInTurn(c, delay, period, first, l, k);
      CrashSlotsGrow(c, delay, period, k.snapshot, max);
    } else {
      assert AtRest(l);
      if !Terminal(l.run.status) && !Lost(l) {
        var n := l.job.value.attempts;
        CrashSlotsGrow(c, delay, period, n, max);
        CrashSlotsGrow(c, delay, period, 0, max);
        assert n > 0 ==> CrashSlot(c, delay, period, n) ==
                         CrashSlot(c, delay, period, n - 1) + Turn(c, period, n - 1) + delay;
      }
    }
  }

  // ---- Back to the system ----

  predicate AttendedTrace(c: Config, delay: nat, period: nat, first: Time, s: State, es: seq<Event>, r: RunId)
    requires Valid(s, es) && r in s.db.runs
    decreases |es|
  {
    es == [] ||
    (StepProjects(s, es[0], r);
     && Attended(c, delay, period, first, View(s, r), Label(s, es[0], r))
     && AttendedTrace(c, delay, period, first, Next(s, es[0]), es[1..], r))
  }

  lemma {:induction false} TurnsAlong(
      c: Config, delay: nat, period: nat, first: Time, max: nat, s: State, es: seq<Event>, r: RunId)
    requires ValidConfig(c) && Valid(s, es) && r in s.db.runs && Agreed(View(s, r))
    requires InTurn(c, delay, period, first, max, View(s, r)) && AttendedTrace(c, delay, period, first, s, es, r)
    ensures r in After(s, es).db.runs
    ensures Agreed(View(After(s, es), r)) && InTurn(c, delay, period, first, max, View(After(s, es), r))
    decreases |es|
  {
    if es != [] {
      StepProjects(s, es[0], r);
      TurnByStep(c, delay, period, first, max, View(s, r), Label(s, es[0], r));
      TurnsAlong(c, delay, period, first, max, Next(s, es[0]), es[1..], r);
    }
  }

  lemma FreshInTurn(c: Config, delay: nat, period: nat, first: Time, l: Local)
    requires Fresh(l) && l.now <= first
    ensures Agreed(l) && InTurn(c, delay, period, first, l.job.value.maxAttempts, l)
  {
  }

  /** Whoever dies, by the time of the bound a run first claimed by `first` has ended, or is lost for
      ever: its job stays running with its attempts used up. */
  lemma WholeRunWithCrashes(c: Config, delay: nat, period: nat, first: Time, s: State, es: seq<Event>, r: RunId)
    requires ValidConfig(c) && Consistent(s) && r in s.db.runs && Fresh(View(s, r)) && s.db.now <= first
    requires Valid(s, es) && AttendedTrace(c, delay, period, first, s, es, r)
    ensures r in After(s, es).db.runs
    ensures var db, bound := After(s, es).db, first + CrashBound(c, delay, period, s.db.jobs[r].maxAttempts);
            if Terminal(db.runs[r].status)
            then db.runs[r].finishedAt != None && db.runs[r].finishedAt.value <= bound
            else db.now <= bound || (r in db.jobs && StuckForEver(After(s, es), r))
  {
    var max, s' := s.db.jobs[r].maxAttempts, After(s, es);
    FreshInTurn(c, delay, period, first, View(s, r));
    TurnsAlong(c, delay, period, first, max, s, es, r);
    InTimeOrLost(c, delay, period, first, max, View(s', r));
    if Lost(View(s', r)) {
      ConsistentAlong(s, es);
      StuckExactly(s', r);
    }
  }
}
