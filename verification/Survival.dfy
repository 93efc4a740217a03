/** When what a punctual run needs outlives its executions. The collector waits one hour after the
    consumption of an artifact and until delete_after of a run, whether the run has ended or not. */
module Survival {
  import opened Rows
  import opened Statements
  import opened System
  import opened Protocol
  import opened Creation
  import opened Budget
  import opened Timed
  import opened Schedule
  import opened Logs
  import opened Expiry
  import opened SlowestRun

  /** An artifact nobody has consumed is on disk. */
  predicate Stored(s: State) {
    forall a | a in s.db.artifacts && s.db.artifacts[a].consumedAt == None :: Tarball(a) in s.db.files
  }

  lemma StoredByRemoval(s: State, e: Event)
    requires Stored(s) && OwnPaths(s) && Ledger(s) && Enabled(s, e) && (e.UnlinkTarball? || e.UnlinkLog?)
    ensures Stored(Next(s, e))
  {
    if e.UnlinkTarball? {
      assert BoundToConsumed(s.db, RemoveTarball(e.artifact));
    } else {
      assert RemoveLog(e.run, e.log) in s.gc;
    }
  }

  lemma StoredByWorker(s: State, e: Event)
    requires Stored(s) && Enabled(s, e) && ByWorkerOrCleaner(e)
    ensures Stored(Next(s, e))
  {
  }

  lemma StoredByManager(s: State, e: Event)
    requires Stored(s) && Enabled(s, e) && !ByWorkerOrCleaner(e) && !e.UnlinkTarball? && !e.UnlinkLog?
    ensures Stored(Next(s, e))
  {
  }

  lemma StoredByStep(s: State, e: Event)
    requires Stored(s) && OwnPaths(s) && Ledger(s) && Enabled(s, e)
    ensures Stored(Next(s, e))
  {
    if e.UnlinkTarball? || e.UnlinkLog? {
      StoredByRemoval(s, e);
    } else if ByWorkerOrCleaner(e) {
      StoredByWorker(s, e);
    } else {
      StoredByManager(s, e);
    }
  }

  /** The file is on disk and the collector has not picked it. */
  predicate InReach(s: State, a: ArtifactId) {
    Tarball(a) in s.db.files && RemoveTarball(a) !in s.gc
  }

  lemma InReachByRemoval(s: State, e: Event, a: ArtifactId)
    requires OwnPaths(s) && InReach(s, a) && Enabled(s, e) && (e.UnlinkTarball? || e.UnlinkLog?)
    ensures InReach(Next(s, e), a)
  {
    if e.UnlinkLog? {
      assert RemoveLog(e.run, e.log) in s.gc;
    }
  }

  lemma InReachByOther(s: State, e: Event, a: ArtifactId)
    requires InReach(s, a) && Enabled(s, e) && !e.UnlinkTarball? && !e.UnlinkLog?
    requires e.SelectArtifacts? ==> a !in SpentArtifacts(s.db)
    ensures InReach(Next(s, e), a)
  {
  }

  lemma InReachByStep(s: State, e: Event, a: ArtifactId)
    requires OwnPaths(s) && InReach(s, a) && Enabled(s, e)
    requires e.SelectArtifacts? ==> a !in SpentArtifacts(s.db)
    ensures InReach(Next(s, e), a)
  {
    if e.UnlinkTarball? || e.UnlinkLog? {
      InReachByRemoval(s, e, a);
    } else {
      InReachByOther(s, e, a);
    }
  }

  /** The collector's query cannot return artifact a before `due`: a was consumed within the hour
      before it, or is already marked. */
  predicate SparedUntil(s: State, a: ArtifactId, due: Time) {
    && a in s.db.artifacts
    && (s.db.artifacts[a].deletedAt != None
        || (s.db.artifacts[a].consumedAt != None && due <= s.db.artifacts[a].consumedAt.value + HOUR))
  }

  /** A second POST that slips through only moves consumed_at later. */
  lemma SparedByStep(s: State, e: Event, a: ArtifactId, due: Time)
    requires Enabled(s, e) && SparedUntil(s, a, due)
    requires s.db.artifacts[a].deletedAt == None ==> due <= s.db.now + HOUR
    ensures SparedUntil(Next(s, e), a, due)
  {
    if !(e.CommitRun? && a == s.requests[e.request].artifact) && !(e.EraseArtifactRow? && a == e.artifact) {
      ArtifactsKept(s, e);
      assert ArtifactKept(s.db, Next(s, e).db, a);
      ArtifactRowStep(s, e, a);
    }
  }

  /** Run r can still be in time for its tarball. */
  predicate Guarded(c: Config, delay: nat, first: Time, max: nat, due: Time, s: State, r: RunId)
    requires r in s.db.runs
  {
    var a := s.db.runs[r].artifact;
    && SparedUntil(s, a, due) && (s.db.artifacts[a].deletedAt == None ==> due <= s.db.now + HOUR)
    && (s.db.artifacts[a].deletedAt == None ==> first + Bound(c, delay, max) <= due)
    && Agreed(View(s, r)) && OnSchedule(c, delay, first, max, View(s, r))
    && (!Terminal(s.db.runs[r].status) ==> InReach(s, a))
  }

  lemma GuardedByStep(c: Config, delay: nat, first: Time, max: nat, due: Time, s: State, e: Event, r: RunId)
    requires ValidConfig(c) && OwnPaths(s) && Enabled(s, e) && r in s.db.runs
    requires Guarded(c, delay, first, max, due, s, r)
    requires Punctual(c, delay, first, View(s, r), Label(s, e, r))
    ensures r in Next(s, e).db.runs && Guarded(c, delay, first, max, due, Next(s, e), r)
  {
    var l, act := View(s, r), Label(s, e, r);
    StepProjects(s, e, r);
    ColumnsKept(l, act);
    MarkStays(s, e, s.db.runs[r].artifact);
    SparedByStep(s, e, s.db.runs[r].artifact, due);
    ScheduleByStep(c, delay, first, max, l, act);
    if Terminal(s.db.runs[r].status) {
      TerminalByStep(l, act);
    } else {
      InTime(c, delay, first, max, l);
      InReachByStep(s, e, s.db.runs[r].artifact);
    }
  }

  lemma MarkStays(s: State, e: Event, a: ArtifactId)
    requires Enabled(s, e) && a in s.db.artifacts
    ensures a in Next(s, e).db.artifacts && s.db.now <= Next(s, e).db.now
    ensures s.db.artifacts[a].deletedAt != None ==> Next(s, e).db.artifacts[a].deletedAt != None
  {
    ArtifactsKept(s, e);
    assert ArtifactKept(s.db, Next(s, e).db, a);
    if e.Tick? {
    } else {
      ClockStands(s, e);
      if !(e.CommitRun? && a == s.requests[e.request].artifact) && !(e.EraseArtifactRow? && a == e.artifact) {
        ArtifactRowStep(s, e, a);
      }
    }
  }

  lemma ClockStands(s: State, e: Event)
    requires Enabled(s, e) && !e.Tick?
    ensures Next(s, e).db.now == s.db.now
  {
  }

  lemma {:induction false} GuardedAlong(
      c: Config, delay: nat, first: Time, max: nat, due: Time, s: State, es: seq<Event>, r: RunId)
    requires ValidConfig(c) && OwnPaths(s) && Valid(s, es) && r in s.db.runs
    requires Guarded(c, delay, first, max, due, s, r) && PunctualTrace(c, delay, first, s, es, r)
    ensures r in After(s, es).db.runs && Guarded(c, delay, first, max, due, After(s, es), r)
    decreases |es|
  {
    if es != [] {
      OwnPathsByStep(s, es[0]);
      GuardedByStep(c, delay, first, max, due, s, es[0], r);
      GuardedAlong(c, delay, first, max, due, Next(s, es[0]), es[1..], r);
    }
  }

  lemma NewTarballInReach(s: State, e: Event)
    requires Consistent(s) && Ledger(s) && Stored(s) && Enabled(s, e) && e.CommitRun? && Serialised(s, e)
    ensures InReach(Next(s, e), s.requests[e.request].artifact)
  {
  }

  /** Run r uses artifact a and, until it ends, a's tarball is on disk and not being collected. */
  predicate TarballSafe(s: State, r: RunId, a: ArtifactId) {
    && r in s.db.runs && s.db.runs[r].artifact == a
    && (!Terminal(s.db.runs[r].status) ==> InReach(s, a))
  }

  /** Whatever the system does, as long as it is punctual with r. */
  ghost predicate TarballStays(c: Config, delay: nat, first: Time, s: State, r: RunId, a: ArtifactId)
    requires r in s.db.runs
  {
    forall es | Valid(s, es) && PunctualTrace(c, delay, first, s, es, r) :: TarballSafe(After(s, es), r, a)
  }

  lemma GuardedStays(c: Config, delay: nat, first: Time, max: nat, due: Time, s: State, r: RunId)
    requires ValidConfig(c) && OwnPaths(s) && r in s.db.runs && Guarded(c, delay, first, max, due, s, r)
    ensures TarballStays(c, delay, first, s, r, s.db.runs[r].artifact)
  {
    forall es | Valid(s, es) && PunctualTrace(c, delay, first, s, es, r)
      ensures TarballSafe(After(s, es), r, s.db.runs[r].artifact)
    {
      GuardedAlong(c, delay, first, max, due, s, es, r);
      ArtifactColumnAlong(s, es, r);
    }
  }

  /** The slowest punctual run is still executing when its artifact is picked. */
  lemma TarballLost(c: Config, delay: nat, first: Time, max: nat, s: State, r: RunId)
    requires ValidConfig(c) && r in s.db.runs && AwaitsSlot(c, delay, first, max, View(s, r), 0)
    requires var a := s.db.runs[r].artifact;
             && a in s.db.artifacts && s.db.artifacts[a].deletedAt == None && s.db.artifacts[a].consumedAt != None
             && s.db.artifacts[a].consumedAt.value + HOUR < first + Bound(c, delay, max)
    ensures !TarballStays(c, delay, first, s, r, s.db.runs[r].artifact)
  {
    var es, t := Slowest(c, delay, first, max, s, r, 0);
    var s', a := After(s, es), s.db.runs[r].artifact;
    var batch := BatchWith(SpentArtifacts(s'.db), a);
    var pick := SelectArtifacts(batch);
    PunctualOne(c, delay, first, s', pick, r);
    PunctualJoin(c, delay, first, s, es, [pick], r);
    assert RemoveTarball(a) in Next(s', pick).gc;
    assert !TarballSafe(After(s, es + [pick]), r, a);
  }

  lemma NewRunGuarded(c: Config, delay: nat, first: Time, s: State, e: Event, s': State)
    requires ValidConfig(c) && Consistent(s) && OwnPaths(s) && Enabled(s, e) && e.CommitRun? && s' == Next(s, e)
    requires InReach(s', s.requests[e.request].artifact) && s.db.now <= first
    requires || s.db.artifacts[s.requests[e.request].artifact].deletedAt != None
             || first + Bound(c, delay, MAX_ATTEMPTS) <= s.db.now + HOUR
    ensures OwnPaths(s') && e.run in s'.db.runs && s'.db.runs[e.run].artifact == s.requests[e.request].artifact
    ensures Guarded(c, delay, first, MAX_ATTEMPTS, s.db.now + HOUR, s', e.run)
  {
    ViewOfNewRun(s, e);
    OwnPathsByStep(s, e);
  }

  lemma NewRunAwaits(c: Config, delay: nat, first: Time, s: State, e: Event, s': State)
    requires Consistent(s) && Enabled(s, e) && e.CommitRun? && s' == Next(s, e) && s.db.now <= first
    ensures e.run in s'.db.runs && AwaitsSlot(c, delay, first, MAX_ATTEMPTS, View(s', e.run), 0)
    ensures s'.db.runs[e.run].artifact == s.requests[e.request].artifact && s'.db.now == s.db.now
    ensures var a := s.requests[e.request].artifact;
            && a in s'.db.artifacts && s'.db.artifacts[a].consumedAt == Some(s.db.now)
            && a in s.db.artifacts && s'.db.artifacts[a].deletedAt == s.db.artifacts[a].deletedAt
    ensures s'.db.runs[e.run].deletedAt == None && s'.db.runs[e.run].deleteAfter == s.db.now + e.ttl
  {
    ViewOfNewRun(s, e);
  }

  /** After any POST, however it was checked: the tarball stays for every punctual future of the run
      exactly if it is there, not yet picked, and either its row is marked already or the slowest
      such run, first claimed at `first`, ends within the hour. */
  lemma TarballStaysExactly(c: Config, delay: nat, first: Time, s: State, e: Event, s': State)
    requires ValidConfig(c) && Consistent(s) && OwnPaths(s)
    requires Enabled(s, e) && e.CommitRun? && s' == Next(s, e) && s.db.now <= first
    ensures e.run in s'.db.runs && s.requests[e.request].artifact in s.db.artifacts
    ensures var a := s.requests[e.request].artifact;
            TarballStays(c, delay, first, s', e.run, a) <==>
              && InReach(s', a)
              && (s.db.artifacts[a].deletedAt != None || first + Bound(c, delay, MAX_ATTEMPTS) <= s.db.now + HOUR)
  {
    var a := s.requests[e.request].artifact;
    NewRunAwaits(c, delay, first, s, e, s');
    if !InReach(s', a) {
      assert !TarballSafe(After(s', []), e.run, a);
    } else if s.db.artifacts[a].deletedAt != None || first + Bound(c, delay, MAX_ATTEMPTS) <= s.db.now + HOUR {
      NewRunGuarded(c, delay, first, s, e, s');
      GuardedStays(c, delay, first, MAX_ATTEMPTS, s.db.now + HOUR, s', e.run);
    } else {
      TarballLost(c, delay, first, MAX_ATTEMPTS, s', e.run);
    }
  }

  /** A run whose artifact check still holds when its POST commits, and whose job is first claimed by
      `first`, is sure of its tarball until it ends exactly if the whole-run bound from there on
      is within one hour of the commit. */
  lemma ArtifactSurvives(c: Config, delay: nat, first: Time, s: State, e: Event, s': State)
    requires ValidConfig(c) && Consistent(s) && Ledger(s) && Stored(s) && OwnPaths(s)
    requires Enabled(s, e) && e.CommitRun? && Serialised(s, e) && s' == Next(s, e) && s.db.now <= first
    ensures e.run in s'.db.runs
    ensures TarballStays(c, delay, first, s', e.run, s.requests[e.request].artifact) <==>
              first + Bound(c, delay, MAX_ATTEMPTS) <= s.db.now + HOUR
  {
    TarballStaysExactly(c, delay, first, s, e, s');
    NewTarballInReach(s, e);
  }

  // ---- The run row ----

  /** Neither erased nor on the collector's list, and no transfer can change its delete_after. */
  predicate Untouched(s: State, r: RunId) {
    && r in s.db.runs && s.db.runs[r].deletedAt == None && !Condemned(s, r)
    && forall d | d in s.downloads :: s.downloads[d].run != r
  }

  /** Run r, whose row is due at `due`, can still be in time for the collector. */
  predicate InTimeForCollector(c: Config, delay: nat, first: Time, max: nat, due: Time, s: State, r: RunId)
    requires r in s.db.runs
  {
    && first + Bound(c, delay, max) <= due
    && Agreed(View(s, r)) && OnSchedule(c, delay, first, max, View(s, r))
    && (!Terminal(s.db.runs[r].status) ==> Untouched(s, r) && s.db.runs[r].deleteAfter == due)
  }

  lemma UntouchedByStep(s: State, e: Event, r: RunId)
    requires Enabled(s, e) && Untouched(s, r) && s.db.now <= s.db.runs[r].deleteAfter
    requires !Terminal(s.db.runs[r].status)
    ensures Untouched(Next(s, e), r) && Next(s, e).db.runs[r].deleteAfter == s.db.runs[r].deleteAfter
  {
    DueByStep(s, e, r);
    if Condemned(Next(s, e), r) {
      CondemnedByStep(s, e, r);
      assert false;
    }
  }

  lemma InTimeForCollectorByStep(
      c: Config, delay: nat, first: Time, max: nat, due: Time, s: State, e: Event, r: RunId)
    requires ValidConfig(c) && Enabled(s, e) && r in s.db.runs && InTimeForCollector(c, delay, first, max, due, s, r)
    requires Punctual(c, delay, first, View(s, r), Label(s, e, r))
    ensures r in Next(s, e).db.runs && InTimeForCollector(c, delay, first, max, due, Next(s, e), r)
  {
    var l, act := View(s, r), Label(s, e, r);
    StepProjects(s, e, r);
    ScheduleByStep(c, delay, first, max, l, act);
    if Terminal(s.db.runs[r].status) {
      TerminalByStep(l, act);
    } else {
      InTime(c, delay, first, max, l);
      UntouchedByStep(s, e, r);
    }
  }

  lemma {:induction false} InTimeForCollectorAlong(
      c: Config, delay: nat, first: Time, max: nat, due: Time, s: State, es: seq<Event>, r: RunId)
    requires ValidConfig(c) && Valid(s, es) && r in s.db.runs
    requires InTimeForCollector(c, delay, first, max, due, s, r) && PunctualTrace(c, delay, first, s, es, r)
    ensures r in After(s, es).db.runs && InTimeForCollector(c, delay, first, max, due, After(s, es), r)
    decreases |es|
  {
    if es != [] {
      InTimeForCollectorByStep(c, delay, first, max, due, s, es[0], r);
      InTimeForCollectorAlong(c, delay, first, max, due, Next(s, es[0]), es[1..], r);
    }
  }

  lemma NewRunInTime(c: Config, delay: nat, first: Time, s: State, e: Event, s': State)
    requires Consistent(s) && KnownRuns(s) && Enabled(s, e) && e.CommitRun? && s' == Next(s, e)
    requires ValidConfig(c) && s.db.now <= first && first + Bound(c, delay, MAX_ATTEMPTS) <= s.db.now + e.ttl
    ensures e.run in s'.db.runs
    ensures InTimeForCollector(c, delay, first, MAX_ATTEMPTS, s.db.now + e.ttl, s', e.run)
  {
    ViewOfNewRun(s, e);
  }

  /** Until run r ends, its row is neither erased nor about to be. */
  predicate RowSafe(s: State, r: RunId) {
    r in s.db.runs && (Terminal(s.db.runs[r].status) || Untouched(s, r))
  }

  ghost predicate RowStays(c: Config, delay: nat, first: Time, s: State, r: RunId)
    requires r in s.db.runs
  {
    forall es | Valid(s, es) && PunctualTrace(c, delay, first, s, es, r) :: RowSafe(After(s, es), r)
  }

  lemma InTimeStays(c: Config, delay: nat, first: Time, max: nat, due: Time, s: State, r: RunId)
    requires ValidConfig(c) && r in s.db.runs && InTimeForCollector(c, delay, first, max, due, s, r)
    ensures RowStays(c, delay, first, s, r)
  {
    forall es | Valid(s, es) && PunctualTrace(c, delay, first, s, es, r)
      ensures RowSafe(After(s, es), r)
    {
      InTimeForCollectorAlong(c, delay, first, max, due, s, es, r);
    }
  }

  /** The slowest punctual run is still executing when the collector's query returns it. */
  lemma RowLost(c: Config, delay: nat, first: Time, max: nat, s: State, r: RunId)
    requires ValidConfig(c) && r in s.db.runs && AwaitsSlot(c, delay, first, max, View(s, r), 0)
    requires s.db.runs[r].artifact in s.db.artifacts
    requires s.db.runs[r].deletedAt == None && s.db.runs[r].deleteAfter < first + Bound(c, delay, max)
    ensures !RowStays(c, delay, first, s, r)
  {
    var es, t := Slowest(c, delay, first, max, s, r, 0);
    var s' := After(s, es);
    var batch := BatchWith(OverdueRuns(s'.db), r);
    var pick := SelectRuns(batch);
    PunctualOne(c, delay, first, s', pick, r);
    PunctualJoin(c, delay, first, s, es, [pick], r);
    assert RemoveLog(r, s'.db.runs[r].logPath) in Next(s', pick).gc;
    assert !RowSafe(After(s, es + [pick]), r);
  }

  /** The collector asks nothing about a run's status. A run whose job is first claimed by `first` is
      sure to be neither erased nor listed before it ends exactly if the whole-run bound from
      there on is within its time to live. */
  lemma RunSurvives(c: Config, delay: nat, first: Time, s: State, e: Event, s': State)
    requires ValidConfig(c) && Consistent(s) && KnownRuns(s)
    requires Enabled(s, e) && e.CommitRun? && s' == Next(s, e) && s.db.now <= first
    ensures e.run in s'.db.runs
    ensures RowStays(c, delay, first, s', e.run) <==> first + Bound(c, delay, MAX_ATTEMPTS) <= s.db.now + e.ttl
  {
    NewRunAwaits(c, delay, first, s, e, s');
    if first + Bound(c, delay, MAX_ATTEMPTS) <= s.db.now + e.ttl {
      NewRunInTime(c, delay, first, s, e, s');
      InTimeStays(c, delay, first, MAX_ATTEMPTS, s.db.now + e.ttl, s', e.run);
    } else {
      RowLost(c, delay, first, MAX_ATTEMPTS, s', e.run);
    }
  }

  // ---- All standing invariants ----

  ghost predicate Standing(s: State) {
    Consistent(s) && Ledger(s) && Stored(s) && OwnPaths(s) && KnownRuns(s)
  }

  lemma {:induction false} StandingAlong(s: State, es: seq<Event>)
    requires Standing(s) && Valid(s, es)
    ensures Standing(After(s, es))
    decreases |es|
  {
    if es != [] {
      ConsistentByStep(s, es[0]);
      LedgerByStep(s, es[0]);
      StoredByStep(s, es[0]);
      OwnPathsByStep(s, es[0]);
      KnownRunsByStep(s, es[0]);
      StandingAlong(Next(s, es[0]), es[1..]);
    }
  }

  /** What the theorems ask of the state before the POST holds in every reachable state. */
  lemma ReachableStands(es: seq<Event>)
    requires Valid(Init, es)
    ensures Standing(After(Init, es))
  {
    InitConsistent();
    StandingAlong(Init, es);
  }
}
