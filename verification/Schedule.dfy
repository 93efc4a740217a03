/** How long a run can take from its first claim to its end, when workers are prompt, none
    crashes, and a retried job is claimed at most `delay` after it becomes available. */
module Schedule {
  import opened Rows
  import opened System
  import opened Protocol
  import opened Unrestricted
  import opened Budget
  import opened Timed

  /** Nobody crashes, whoever holds the run is done within the longest execution, a retried job
      is claimed within `delay` of its available_at, and a new one by the time `first`. */
  predicate Punctual(c: Config, delay: nat, first: Time, l: Local, a: Action) {
    && Prompt(c, l, a)
    && !a.Die?
    && (a.Clock? ==>
          && (forall t | t in l.tokens :: a.to <= l.tokens[t].claimedAt + Longest(c))
          && (l.job.Some? && l.job.value.status == JobQueued ==>
                a.to <= if l.job.value.attempts == 0 then first else l.job.value.availableAt + delay))
  }

  /** The latest start of the attempt that reads `s` attempts, after a first claim at time 0. */
  function Slot(c: Config, delay: nat, s: nat): int {
    if s == 0 then 0 else Slot(c, delay, s - 1) + Longest(c) + RetryDelay(s - 1) + delay
  }

  /** Time from the first claim to the end of the run, in closed form. */
  function Bound(c: Config, delay: nat, max: nat): int {
    (max + 1) * Longest(c) + 15 * max * (max - 1) * SECOND + max * delay
  }

  lemma {:induction false} SlotsGrow(c: Config, delay: nat, s: nat, max: nat)
    requires ValidConfig(c) && s <= max
    ensures Slot(c, delay, s) <= Slot(c, delay, max)
    decreases max - s
  {
    LeaseOutlastsRun(c);
    if s < max {
      SlotsGrow(c, delay, s, max - 1);
    }
  }

  lemma {:induction false} SlotClosedForm(c: Config, delay: nat, s: nat)
    ensures Slot(c, delay, s) + Longest(c) == Bound(c, delay, s)
    ensures Slot(c, delay, s) == s * Longest(c) + 15 * s * (s - 1) * SECOND + s * delay
  {
    if s > 0 {
      SlotClosedForm(c, delay, s - 1);
      assert 15 * s * (s - 1) == 15 * (s - 1) * (s - 2) + 30 * (s - 1);
      assert s * Longest(c) == (s - 1) * Longest(c) + Longest(c);
      assert s * delay == (s - 1) * delay + delay;
      assert RetryDelay(s - 1) == 30 * (s - 1) * SECOND;
    }
    assert (s + 1) * Longest(c) == s * Longest(c) + Longest(c);
  }

  // ---- The schedule of one run ----

  predicate HolderOnSchedule(c: Config, delay: nat, first: Time, l: Local, k: Token) {
    && k.claimedAt <= first + Slot(c, delay, k.snapshot) && l.now <= k.claimedAt + Longest(c)
    && k.lease == k.claimedAt + Lease(c)
  }

  predicate OnSchedule(c: Config, delay: nat, first: Time, max: nat, l: Local) {
    && (forall t | t in l.tokens ::
          HolderOnSchedule(c, delay, first, l, l.tokens[t]) && l.tokens[t].maxAttempts == max)
    && (l.job.Some? ==>
          && l.job.value.maxAttempts == max
          && (l.job.value.status == JobRunning ==> l.tokens != map[])
          && (l.job.value.status == JobQueued ==>
                if l.job.value.attempts == 0 then l.now <= first
                else
                  && l.job.value.availableAt + delay <= first + Slot(c, delay, l.job.value.attempts)
                  && l.now <= l.job.value.availableAt + delay))
    && (Terminal(l.run.status) ==>
          l.run.finishedAt != None && l.run.finishedAt.value <= first + Slot(c, delay, max) + Longest(c))
  }

  lemma HolderReportsOnSchedule(c: Config, delay: nat, first: Time, max: nat, l: Local, a: Action, t: nat)
    requires ValidConfig(c) && Agreed(l) && OnSchedule(c, delay, first, max, l)
    requires Possible(l, a) && Punctual(c, delay, first, l, a) && t in l.tokens
    requires a.Fail1? || a.Fail2? || a.Look? || a.Finish1? || a.Finish2?
    ensures OnSchedule(c, delay, first, max, Do(l, a))
  {
    var k := l.tokens[t];
    assert a.token == t && Held(l, k) && HolderOnSchedule(c, delay, first, l, k);
    SlotsGrow(c, delay, k.snapshot, max);
    assert Slot(c, delay, k.snapshot + 1) == Slot(c, delay, k.snapshot) + Longest(c) + RetryDelay(k.snapshot) + delay;
  }

  lemma HolderWaitsOnSchedule(c: Config, delay: nat, first: Time, max: nat, l: Local, a: Action, t: nat)
    requires ValidConfig(c) && Agreed(l) && OnSchedule(c, delay, first, max, l)
    requires Possible(l, a) && Punctual(c, delay, first, l, a) && t in l.tokens
    requires !(a.Fail1? || a.Fail2? || a.Look? || a.Finish1? || a.Finish2?)
    ensures OnSchedule(c, delay, first, max, Do(l, a))
  {
    assert Held(l, l.tokens[t]) && HolderOnSchedule(c, delay, first, l, l.tokens[t]);
  }

  lemma RestKeepsSchedule(c: Config, delay: nat, first: Time, max: nat, l: Local, a: Action)
    requires ValidConfig(c) && Agreed(l) && OnSchedule(c, delay, first, max, l)
    requires Possible(l, a) && Punctual(c, delay, first, l, a) && l.tokens == map[]
    ensures OnSchedule(c, delay, first, max, Do(l, a))
  {
  }

  lemma ScheduleByStep(c: Config, delay: nat, first: Time, max: nat, l: Local, a: Action)
    requires ValidConfig(c) && Agreed(l) && OnSchedule(c, delay, first, max, l)
    requires Possible(l, a) && Punctual(c, delay, first, l, a)
    ensures Timely(l, a) && Agreed(Do(l, a)) && OnSchedule(c, delay, first, max, Do(l, a))
  {
    PromptIsTimely(c, l, a);
    AgreedExactly(l, a);
    if t :| t in l.tokens {
      if a.Fail1? || a.Fail2? || a.Look? || a.Finish1? || a.Finish2? {
        HolderReportsOnSchedule(c, delay, first, max, l, a, t);
      } else {
        HolderWaitsOnSchedule(c, delay, first, max, l, a, t);
      }
    } else {
      RestKeepsSchedule(c, delay, first, max, l, a);
    }
  }

  /** A run on schedule has ended in time, or there still is time. */
  lemma InTime(c: Config, delay: nat, first: Time, max: nat, l: Local)
    requires ValidConfig(c) && Agreed(l) && OnSchedule(c, delay, first, max, l)
    ensures if Terminal(l.run.status)
            then l.run.finishedAt != None && l.run.finishedAt.value <= first + Bound(c, delay, max)
            else l.now <= first + Bound(c, delay, max)
  {
    SlotClosedForm(c, delay, max);
    if t :| t in l.tokens {
      var k := l.tokens[t];
      assert Held(l, k) && HolderOnSchedule(c, delay, first, l, k);
      SlotsGrow(c, delay, k.snapshot, max);
    } else {
      LeaseOutlastsRun(c);
      assert AtRest(l);
      if !Terminal(l.run.status) {
        SlotsGrow(c, delay, l.job.value.attempts, max);
        SlotsGrow(c, delay, 0, max);
      }
    }
  }

  // ---- Back to the system ----

  predicate PunctualTrace(c: Config, delay: nat, first: Time, s: State, es: seq<Event>, r: RunId)
    requires Valid(s, es) && r in s.db.runs
    decreases |es|
  {
    es == [] ||
    (StepProjects(s, es[0], r);
     && Punctual(c, delay, first, View(s, r), Label(s, es[0], r))
     && PunctualTrace(c, delay, first, Next(s, es[0]), es[1..], r))
  }

  lemma {:induction false} ScheduleAlong(
      c: Config, delay: nat, first: Time, max: nat, s: State, es: seq<Event>, r: RunId)
    requires ValidConfig(c) && Valid(s, es) && r in s.db.runs && Agreed(View(s, r))
    requires OnSchedule(c, delay, first, max, View(s, r)) && PunctualTrace(c, delay, first, s, es, r)
    ensures r in After(s, es).db.runs
    ensures Agreed(View(After(s, es), r)) && OnSchedule(c, delay, first, max, View(After(s, es), r))
    decreases |es|
  {
    if es != [] {
      StepProjects(s, es[0], r);
      ScheduleByStep(c, delay, first, max, View(s, r), Label(s, es[0], r));
      ScheduleAlong(c, delay, first, max, Next(s, es[0]), es[1..], r);
    }
  }

  /** From the first claim of its job a run ends within
      (max+1) executions + 15·max·(max-1) seconds of backoff + max delays. */
  lemma WholeRunBound(c: Config, delay: nat, s: State, e: Event, es: seq<Event>, r: RunId)
    requires ValidConfig(c) && r in s.db.runs && Fresh(View(s, r)) && Enabled(s, e)
    requires e.ClaimJob? && e.run == r && Prompt(c, View(s, r), Label(s, e, r))
    requires Valid(Next(s, e), es) && r in Next(s, e).db.runs
    requires PunctualTrace(c, delay, s.db.now, Next(s, e), es, r)
    ensures r in After(Next(s, e), es).db.runs
    ensures var db, first, max := After(Next(s, e), es).db, s.db.now, s.db.jobs[r].maxAttempts;
            if Terminal(db.runs[r].status)
            then db.runs[r].finishedAt != None && db.runs[r].finishedAt.value <= first + Bound(c, delay, max)
            else db.now <= first + Bound(c, delay, max)
  {
    var l, max := View(s, r), s.db.jobs[r].maxAttempts;
    StepProjects(s, e, r);
    assert Agreed(l);
    PromptIsTimely(c, l, Label(s, e, r));
    AgreedExactly(l, Label(s, e, r));
    LeaseOutlastsRun(c);
    assert OnSchedule(c, delay, s.db.now, max, Do(l, Label(s, e, r)));
    ScheduleAlong(c, delay, s.db.now, max, Next(s, e), es, r);
    InTime(c, delay, s.db.now, max, View(After(Next(s, e), es), r));
  }
}
