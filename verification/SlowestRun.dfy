/** The slowest punctual run: always claimed at the last moment of its slot, always executing for
    the longest time, always failing. It shows that the bounds of `Schedule` are reached. */
module SlowestRun {
  import opened Rows
  import opened Statements
  import opened System
  import opened Protocol
  import opened Unrestricted
  import opened Budget
  import opened Schedule
  import opened Overtaking
  import opened Recovery
  import opened Sums
  import opened Collector

  // ---- Punctual traces, put together ----

  lemma PunctualOne(c: Config, delay: nat, first: Time, s: State, e: Event, r: RunId)
    requires Enabled(s, e) && r in s.db.runs && Punctual(c, delay, first, View(s, r), Label(s, e, r))
    ensures Valid(s, [e]) && After(s, [e]) == Next(s, e) && PunctualTrace(c, delay, first, s, [e], r)
    ensures Projects(s, e, r)
  {
    OneStep(s, e);
    StepProjects(s, e, r);
    assert [e][1..] == [];
  }

  lemma {:induction false} PunctualJoin(
      c: Config, delay: nat, first: Time, s: State, es: seq<Event>, fs: seq<Event>, r: RunId)
    requires Valid(s, es) && Valid(After(s, es), fs) && r in s.db.runs && r in After(s, es).db.runs
    requires PunctualTrace(c, delay, first, s, es, r) && PunctualTrace(c, delay, first, After(s, es), fs, r)
    ensures Valid(s, es + fs) && After(s, es + fs) == After(After(s, es), fs)
    ensures PunctualTrace(c, delay, first, s, es + fs, r)
    decreases |es|
  {
    TracesJoin(s, es, fs);
    if es == [] {
      assert es + fs == fs;
    } else {
      assert (es + fs)[0] == es[0] && (es + fs)[1..] == es[1..] + fs;
      StepProjects(s, es[0], r);
      TracesProject(Next(s, es[0]), es[1..], r);
      PunctualJoin(c, delay, first, Next(s, es[0]), es[1..], fs, r);
    }
  }

  lemma BatchWith(found: set<nat>, x: nat) returns (batch: set<nat>)
    requires x in found
    ensures Batch(found, batch) && x in batch
  {
    var rest := SubsetOfSize(found - {x}, if |found| < BATCH then |found| - 1 else BATCH - 1);
    batch := rest + {x};
  }

  // ---- One attempt ----

  /** Nothing that the collector looks at has changed for run r. */
  predicate SameForCollector(s: State, s': State, r: RunId) {
    && r in s.db.runs && r in s'.db.runs && s'.db.artifacts == s.db.artifacts
    && s'.db.runs[r].artifact == s.db.runs[r].artifact && s'.db.runs[r].deletedAt == s.db.runs[r].deletedAt
    && s'.db.runs[r].deleteAfter == s.db.runs[r].deleteAfter
  }

  /** The job waits for the slot in which it is claimed with n attempts behind it. */
  predicate AwaitsSlot(c: Config, delay: nat, first: Time, max: nat, l: Local, n: nat) {
    && n <= max && l.tokens == map[] && !Terminal(l.run.status)
    && l.job.Some? && l.job.value.status == JobQueued && l.job.value.leaseUntil == None
    && l.job.value.attempts == n && l.job.value.maxAttempts == max
    && l.now <= first + Slot(c, delay, n) && l.job.value.availableAt <= first + Slot(c, delay, n)
    && (n > 0 ==> l.job.value.availableAt + delay == first + Slot(c, delay, n))
  }

  /** Worker t executes that attempt, claimed at the end of the slot. */
  predicate AtWork(c: Config, delay: nat, first: Time, max: nat, l: Local, n: nat, t: nat) {
    && n <= max && l.tokens.Keys == {t} && l.run.status == RunRunning
    && l.tokens[t] == Token(l.id, n, max, first + Slot(c, delay, n) + Lease(c), first + Slot(c, delay, n), Executing)
    && l.job.Some? && l.job.value.status == JobRunning
    && l.job.value.attempts == n + 1 && l.job.value.maxAttempts == max
  }

  /** Claiming on within the time budget, the workers get to every claimable job, at once. */
  lemma {:induction false} SlotTaken(c: Config, delay: nat, first: Time, s: State, r: RunId)
    returns (es: seq<Event>, t: nat)
    requires Claimable(s.db, r) && TokensOf(s, r) == map[]
    ensures Valid(s, es) && SameForCollector(s, After(s, es), r) && PunctualTrace(c, delay, first, s, es, r)
    ensures Possible(View(s, r), Take(t, 0, s.db.now, c.maxTimeout))
    ensures View(After(s, es), r) == Do(View(s, r), Take(t, 0, s.db.now, c.maxTimeout))
    decreases |ClaimableJobs(s.db)|
  {
    var k := SomeJobIsNext(s.db, r);
    t := Above(s.tokens.Keys);
    var e := ClaimJob(t, k, 0, s.db.now, c.maxTimeout);
    ClaimShrinksQueue(s, e);
    assert r in ClaimableJobs(s.db) && k in ClaimableJobs(s.db);
    PunctualOne(c, delay, first, s, e, r);
    es := [e];
    if k != r {
      assert r in ClaimableJobs(Next(s, e).db) && View(Next(s, e), r) == View(s, r);
      var rest;
      rest, t := SlotTaken(c, delay, first, Next(s, e), r);
      PunctualJoin(c, delay, first, s, [e], rest, r);
      es := [e] + rest;
    }
  }

  lemma WaitPunctually(c: Config, delay: nat, first: Time, s: State, to: Time, r: RunId)
    requires r in s.db.runs && s.db.now <= to && Punctual(c, delay, first, View(s, r), Clock(to))
    ensures Valid(s, [Tick(to)]) && SameForCollector(s, After(s, [Tick(to)]), r)
    ensures PunctualTrace(c, delay, first, s, [Tick(to)], r)
    ensures View(After(s, [Tick(to)]), r) == View(s, r).(now := to)
    ensures After(s, [Tick(to)]).db == s.db.(now := to)
  {
    PunctualOne(c, delay, first, s, Tick(to), r);
  }

  lemma SlotEnds(c: Config, delay: nat, first: Time, max: nat, s: State, r: RunId, n: nat)
    requires r in s.db.runs && s.db.runs[r].artifact in s.db.artifacts
    requires AwaitsSlot(c, delay, first, max, View(s, r), n)
    ensures var s' := After(s, [Tick(first + Slot(c, delay, n))]);
            && Valid(s, [Tick(first + Slot(c, delay, n))]) && SameForCollector(s, s', r)
            && PunctualTrace(c, delay, first, s, [Tick(first + Slot(c, delay, n))], r)
            && Claimable(s'.db, r) && View(s', r) == View(s, r).(now := first + Slot(c, delay, n))
  {
    WaitPunctually(c, delay, first, s, first + Slot(c, delay, n), r);
  }

  lemma TakenAtWork(c: Config, delay: nat, first: Time, max: nat, l: Local, n: nat, t: nat)
    requires ValidConfig(c) && AwaitsSlot(c, delay, first, max, l, n) && l.now == first + Slot(c, delay, n)
    requires Possible(l, Take(t, 0, l.now, c.maxTimeout))
    ensures var l' := Do(l, Take(t, 0, l.now, c.maxTimeout));
            && AtWork(c, delay, first, max, l', n, t) && l'.now == l.now
            && Punctual(c, delay, first, l', Clock(l.now + Longest(c)))
            && AtWork(c, delay, first, max, l'.(now := l.now + Longest(c)), n, t)
  {
  }

  /** Waits out the slot, is claimed, and executes for the longest time. */
  lemma SlowestAttempt(c: Config, delay: nat, first: Time, max: nat, s: State, r: RunId, n: nat)
    returns (es: seq<Event>, t: nat)
    requires ValidConfig(c) && r in s.db.runs && s.db.runs[r].artifact in s.db.artifacts
    requires AwaitsSlot(c, delay, first, max, View(s, r), n)
    ensures Valid(s, es) && SameForCollector(s, After(s, es), r) && PunctualTrace(c, delay, first, s, es, r)
    ensures AtWork(c, delay, first, max, View(After(s, es), r), n, t)
    ensures After(s, es).db.now == first + Slot(c, delay, n) + Longest(c)
  {
    LeaseOutlastsRun(c);
    var start := first + Slot(c, delay, n);
    SlotEnds(c, delay, first, max, s, r, n);
    var s1 := After(s, [Tick(start)]);
    var claims;
    claims, t := SlotTaken(c, delay, first, s1, r);
    TakenAtWork(c, delay, first, max, View(s1, r), n, t);
    var s2 := After(s1, claims);
    assert View(s2, r).now == s2.db.now;
    WaitPunctually(c, delay, first, s2, start + Longest(c), r);
    PunctualJoin(c, delay, first, s, [Tick(start)], claims, r);
    PunctualJoin(c, delay, first, s, [Tick(start)] + claims, [Tick(start + Longest(c))], r);
    es := [Tick(start)] + claims + [Tick(start + Longest(c))];
  }

  /** Reports the failure of the attempt. */
  lemma Failure(c: Config, delay: nat, first: Time, max: nat, s: State, r: RunId, n: nat, t: nat)
    requires r in s.db.runs && AtWork(c, delay, first, max, View(s, r), n, t)
    ensures var es := [FailFirst(t, true), FailSecond(t, true)];
            && Valid(s, es) && SameForCollector(s, After(s, es), r) && PunctualTrace(c, delay, first, s, es, r)
            && View(After(s, es), r) == Do(Do(View(s, r), Fail1(t, true)), Fail2(t, true))
            && Possible(View(s, r), Fail1(t, true)) && Possible(Do(View(s, r), Fail1(t, true)), Fail2(t, true))
  {
    assert t in View(s, r).tokens;
    PunctualOne(c, delay, first, s, FailFirst(t, true), r);
    var s1 := Next(s, FailFirst(t, true));
    PunctualOne(c, delay, first, s1, FailSecond(t, true), r);
    PunctualJoin(c, delay, first, s, [FailFirst(t, true)], [FailSecond(t, true)], r);
    assert [FailFirst(t, true)] + [FailSecond(t, true)] == [FailFirst(t, true), FailSecond(t, true)];
  }

  lemma NextSlotAwaited(c: Config, delay: nat, first: Time, max: nat, l: Local, n: nat, t: nat)
    requires AtWork(c, delay, first, max, l, n, t) && n < max && l.now == first + Slot(c, delay, n) + Longest(c)
    ensures Possible(l, Fail1(t, true)) && Possible(Do(l, Fail1(t, true)), Fail2(t, true))
    ensures AwaitsSlot(c, delay, first, max, Do(Do(l, Fail1(t, true)), Fail2(t, true)), n + 1)
  {
    assert Slot(c, delay, n + 1) == Slot(c, delay, n) + Longest(c) + RetryDelay(n) + delay;
  }

  // ---- The whole run ----

  /** From slot n on, failing all the way: at the end of the whole-run bound the last attempt is
      still executing. */
  lemma {:induction false} Slowest(c: Config, delay: nat, first: Time, max: nat, s: State, r: RunId, n: nat)
    returns (es: seq<Event>, t: nat)
    requires ValidConfig(c) && r in s.db.runs && s.db.runs[r].artifact in s.db.artifacts
    requires AwaitsSlot(c, delay, first, max, View(s, r), n)
    ensures Valid(s, es) && SameForCollector(s, After(s, es), r) && PunctualTrace(c, delay, first, s, es, r)
    ensures AtWork(c, delay, first, max, View(After(s, es), r), max, t)
    ensures After(s, es).db.now == first + Bound(c, delay, max)
    decreases max - n
  {
    es, t := SlowestAttempt(c, delay, first, max, s, r, n);
    if n == max {
      SlotClosedForm(c, delay, max);
    } else {
      var s1 := After(s, es);
      var fail := [FailFirst(t, true), FailSecond(t, true)];
      Failure(c, delay, first, max, s1, r, n, t);
      NextSlotAwaited(c, delay, first, max, View(s1, r), n, t);
      var rest;
      rest, t := Slowest(c, delay, first, max, After(s1, fail), r, n + 1);
      PunctualJoin(c, delay, first, s, es, fail, r);
      PunctualJoin(c, delay, first, s, es + fail, rest, r);
      es := es + fail + rest;
    }
  }

  lemma EndsInError(c: Config, delay: nat, first: Time, max: nat, l: Local, t: nat)
    requires AtWork(c, delay, first, max, l, max, t)
    ensures Possible(l, Fail1(t, true)) && Possible(Do(l, Fail1(t, true)), Fail2(t, true))
    ensures var run := Do(Do(l, Fail1(t, true)), Fail2(t, true)).run;
            run.status == RunError && run.finishedAt == Some(l.now)
  {
  }

  lemma FreshAwaitsSlot(c: Config, delay: nat, first: Time, l: Local)
    requires Fresh(l) && l.now <= first && l.job.value.availableAt <= first
    ensures AwaitsSlot(c, delay, first, l.job.value.maxAttempts, l, 0)
  {
  }

  lemma EndReached(c: Config, delay: nat, first: Time, max: nat, s: State, r: RunId) returns (es: seq<Event>)
    requires ValidConfig(c) && r in s.db.runs && s.db.runs[r].artifact in s.db.artifacts
    requires AwaitsSlot(c, delay, first, max, View(s, r), 0)
    ensures Valid(s, es) && PunctualTrace(c, delay, first, s, es, r)
    ensures r in After(s, es).db.runs && After(s, es).db.runs[r].status == RunError
    ensures After(s, es).db.runs[r].finishedAt == Some(first + Bound(c, delay, max))
  {
    var slow, t := Slowest(c, delay, first, max, s, r, 0);
    var s1, fail := After(s, slow), [FailFirst(t, true), FailSecond(t, true)];
    Failure(c, delay, first, max, s1, r, max, t);
    EndsInError(c, delay, first, max, View(s1, r), t);
    assert View(After(s1, fail), r).run == After(s1, fail).db.runs[r];
    PunctualJoin(c, delay, first, s, slow, fail, r);
    es := slow + fail;
  }

  /** The whole-run bound is reached: some punctual run ends exactly then. */
  lemma BoundReached(c: Config, delay: nat, first: Time, s: State, r: RunId) returns (es: seq<Event>)
    requires ValidConfig(c) && r in s.db.runs && s.db.runs[r].artifact in s.db.artifacts && Fresh(View(s, r))
    requires s.db.now <= first && s.db.jobs[r].availableAt <= first
    ensures Valid(s, es) && PunctualTrace(c, delay, first, s, es, r)
    ensures r in After(s, es).db.runs && After(s, es).db.runs[r].status == RunError
    ensures After(s, es).db.runs[r].finishedAt == Some(first + Bound(c, delay, s.db.jobs[r].maxAttempts))
  {
    FreshAwaitsSlot(c, delay, first, View(s, r));
    es := EndReached(c, delay, first, s.db.jobs[r].maxAttempts, s, r);
  }
}
