/** Traces from the empty system on to what the collector can spoil: an unfinished run erased, its
    tarball removed, an erasure that comes early, and a log reference that dangles. */
module LogWitnesses {
  import opened Rows
  import opened Statements
  import opened System
  import opened Logs
  import opened Expiry
  import opened Witnesses

  /** Run 0 has passed, its log is on disk, and it is overdue; the collector and the clients have
      not touched it. */
  predicate Overripe(s: State) {
    && s.db.runs.Keys == {0} && s.db.runs[0].status == RunPassed && s.db.runs[0].logPath == Some(RunLog(0))
    && RunLog(0) in s.db.files && Overdue(s.db.runs[0], s.db.now)
    && s.gc == {} && s.downloads == map[]
  }

  /** The state after FIRST_RUN with the job claimed. */
  predicate Executed(s: State) {
    && s.db.runs.Keys == {0} && s.db.runs[0].deletedAt == None && s.db.runs[0].deleteAfter == HOUR
    && s.db.now == 0 && s.gc == {} && s.downloads == map[]
    && 0 in s.tokens && ExecutesAttempt(s.tokens[0], 0, MAX_ATTEMPTS, 0)
  }

  lemma FirstRunExecuted()
    ensures Valid(Init, FIRST_RUN) && 0 in After(Init, FIRST_RUN).db.jobs
    ensures var s := After(Init, FIRST_RUN); Valid(s, Pick(s, 0)) && Executed(After(s, Pick(s, 0)))
  {
    FirstRun();
    var s0 := Next(Init, Upload(0, 0));
    TwoSteps(s0, CheckArtifact(0, 0, 0), CommitRun(0, 0, HOUR));
    OneStep(Init, Upload(0, 0));
    TracesJoin(Init, [Upload(0, 0)], [CheckArtifact(0, 0, 0), CommitRun(0, 0, HOUR)]);
    var s := After(Init, FIRST_RUN);
    PickWorks(s, 0, MAX_ATTEMPTS, 0, 0, 0);
    TwoSteps(s, Pick(s, 0)[0], Pick(s, 0)[1]);
  }

  /** The worker has seen the log. */
  predicate LogSeen(s: State) {
    && s.db.runs.Keys == {0} && s.db.runs[0].deletedAt == None && s.db.runs[0].deleteAfter == HOUR
    && RunLog(0) in s.db.files && s.gc == {} && s.downloads == map[]
    && s.db.now == 0 && 0 in s.tokens && s.tokens[0].run == 0
    && s.tokens[0].stage == Reporting(Exited(0), Some(RunLog(0)))
  }

  lemma LogWritten(s: State)
    requires Executed(s)
    ensures var es := [WriteLog(0), StatLog(0, Exited(0))]; Valid(s, es) && LogSeen(After(s, es))
  {
    TwoSteps(s, WriteLog(0), StatLog(0, Exited(0)));
  }

  lemma VerdictGiven(s: State)
    requires LogSeen(s)
    ensures var es := [FinishFirst(0, true), FinishSecond(0, true), Tick(HOUR + 1)];
            Valid(s, es) && Overripe(After(s, es))
  {
    var es := [FinishFirst(0, true), FinishSecond(0, true), Tick(HOUR + 1)];
    TwoSteps(Next(s, es[0]), es[1], es[2]);
    assert es[1..] == [es[1], es[2]];
  }

  lemma OverripeReached() returns (es: seq<Event>)
    ensures Valid(Init, es) && Overripe(After(Init, es))
  {
    FirstRunExecuted();
    var s := After(Init, FIRST_RUN);
    var s1 := After(s, Pick(s, 0));
    LogWritten(s1);
    var write := [WriteLog(0), StatLog(0, Exited(0))];
    VerdictGiven(After(s1, write));
    var finish := [FinishFirst(0, true), FinishSecond(0, true), Tick(HOUR + 1)];
    TracesJoin(Init, FIRST_RUN, Pick(s, 0));
    TracesJoin(Init, FIRST_RUN + Pick(s, 0), write);
    TracesJoin(Init, FIRST_RUN + Pick(s, 0) + write, finish);
    es := FIRST_RUN + Pick(s, 0) + write + finish;
  }

  lemma Selected(s: State)
    requires Overripe(s)
    ensures Enabled(s, SelectRuns({0}))
    ensures Next(s, SelectRuns({0})) == s.(gc := {RemoveLog(0, Some(RunLog(0)))})
  {
    assert OverdueRuns(s.db) == {0};
  }

  /** The state once a download has been recorded for the selected run. */
  predicate Reprieved(s: State) {
    && s.db.runs.Keys == {0} && s.db.runs[0].deleteAfter == s.db.now + HOUR && s.gc == {RemoveLog(0, Some(RunLog(0)))}
  }

  lemma DownloadBegun(s: State)
    requires Overripe(s.(gc := {})) && s.gc == {RemoveLog(0, Some(RunLog(0)))}
    ensures Valid(s, [StartDownload(0, 0), OpenLog(0)])
    ensures After(s, [StartDownload(0, 0), OpenLog(0)]) == s.(downloads := map[0 := Transfer(0, RunLog(0), true)])
  {
    TwoSteps(s, StartDownload(0, 0), OpenLog(0));
  }

  lemma DownloadRecorded(s: State)
    requires s.db.runs.Keys == {0} && s.gc == {RemoveLog(0, Some(RunLog(0)))}
    requires s.downloads == map[0 := Transfer(0, RunLog(0), true)]
    ensures Valid(s, [EndDownload(0, HOUR, true)]) && Reprieved(After(s, [EndDownload(0, HOUR, true)]))
  {
    OneStep(s, EndDownload(0, HOUR, true));
  }

  /** A download of an overdue run that ends between the collector's query and its UPDATE gives the
      run another hour, and it is erased all the same. */
  lemma EarlyErasureHappens() returns (es: seq<Event>)
    ensures Valid(Init, es) && 0 in After(Init, es).db.runs && ErasedEarly(After(Init, es).db.runs[0])
  {
    var ripe := OverripeReached();
    var s := After(Init, ripe);
    Selected(s);
    var s1 := Next(s, SelectRuns({0}));
    OneStep(s, SelectRuns({0}));
    TracesJoin(Init, ripe, [SelectRuns({0})]);
    var begin, end := [StartDownload(0, 0), OpenLog(0)], [EndDownload(0, HOUR, true)];
    DownloadBegun(s1);
    TracesJoin(Init, ripe + [SelectRuns({0})], begin);
    DownloadRecorded(After(s1, begin));
    TracesJoin(Init, ripe + [SelectRuns({0})] + begin, end);
    var s2 := After(After(s1, begin), end);
    var collect := [UnlinkLog(0, Some(RunLog(0)), true), EraseRunRow(0, true)];
    TwoSteps(s2, collect[0], collect[1]);
    TracesJoin(Init, ripe + [SelectRuns({0})] + begin + end, collect);
    es := ripe + [SelectRuns({0})] + begin + end + collect;
  }

  /** The log is removed, and then the UPDATE is lost or the collector dies before it. */
  lemma DanglingHappens(crash: bool) returns (es: seq<Event>)
    ensures Valid(Init, es) && Dangling(After(Init, es), 0)
  {
    var ripe := OverripeReached();
    var s := After(Init, ripe);
    Selected(s);
    var s1 := Next(s, SelectRuns({0}));
    OneStep(s, SelectRuns({0}));
    TracesJoin(Init, ripe, [SelectRuns({0})]);
    var lose := if crash then AbandonTask(MarkRun(0)) else EraseRunRow(0, false);
    var collect := [UnlinkLog(0, Some(RunLog(0)), true), lose];
    TwoSteps(s1, collect[0], lose);
    TracesJoin(Init, ripe + [SelectRuns({0})], collect);
    es := ripe + [SelectRuns({0})] + collect;
  }

  // ---- A late reference ----

  /** Run 0 as it was created, apart from its status. */
  predicate Unreported(s: State) {
    && s.db.runs.Keys == {0} && s.db.runs[0].logPath == None && s.db.runs[0].deletedAt == None
    && s.db.runs[0].deleteAfter == HOUR && RunLog(0) !in s.db.files && s.gc == {}
  }

  lemma {:induction false} OverrunsReportNothing(s: State, es: seq<Event>)
    requires Valid(s, es) && OnlyOverruns(es) && Unreported(s)
    ensures Unreported(After(s, es))
    decreases |es|
  {
    if es != [] {
      assert es[0] in es;
      OverrunReportsNothing(s, es[0]);
      OverrunsReportNothing(Next(s, es[0]), es[1..]);
    }
  }

  lemma OverrunReportsNothing(s: State, e: Event)
    requires Enabled(s, e) && (e.Tick? || e.ClaimJob? || e.ReleaseJobs?) && Unreported(s)
    ensures Unreported(Next(s, e))
  {
  }

  predicate AtStageOf(s: State, t: nat, stage: Stage) {
    t in s.tokens && s.tokens[t].run == 0 && s.tokens[t].stage == stage
  }

  /** Three workers execute run 0 at once, past its time to live. */
  predicate ThreeAtWork(s: State) {
    && Unreported(s) && HOUR < s.db.now
    && AtStageOf(s, 0, Executing) && AtStageOf(s, 1, Executing) && AtStageOf(s, 2, Executing)
  }

  lemma ThreeAtWorkReached() returns (es: seq<Event>)
    ensures Valid(Init, es) && ThreeAtWork(After(Init, es))
  {
    FirstRun();
    OneStep(Init, Upload(0, 0));
    var s0 := Next(Init, Upload(0, 0));
    TwoSteps(s0, CheckArtifact(0, 0, 0), CommitRun(0, 0, HOUR));
    TracesJoin(Init, [Upload(0, 0)], [CheckArtifact(0, 0, 0), CommitRun(0, 0, HOUR)]);
    var s := After(Init, FIRST_RUN);
    assert Unreported(s);
    var overruns := Overruns(s, 0, MAX_ATTEMPTS, 0);
    OverrunsReportNothing(s, overruns);
    var s1 := After(s, overruns);
    var wait := [Tick(Later(s1, HOUR + 1))];
    OneStep(s1, wait[0]);
    TracesJoin(Init, FIRST_RUN, overruns);
    TracesJoin(Init, FIRST_RUN + overruns, wait);
    assert ExecutesAttempt(s1.tokens[0], 0, MAX_ATTEMPTS, 0) && ExecutesAttempt(s1.tokens[1], 0, MAX_ATTEMPTS, 1)
           && ExecutesAttempt(s1.tokens[2], 0, MAX_ATTEMPTS, 2);
    es := FIRST_RUN + overruns + wait;
  }

  /** The first of them has found no log, the others have. */
  predicate LogSeenByTwo(s: State) {
    && s.db.runs.Keys == {0} && s.db.runs[0].deletedAt == None && s.db.runs[0].deleteAfter == HOUR < s.db.now
    && RunLog(0) in s.db.files && s.gc == {}
    && AtStageOf(s, 0, Reporting(Exited(0), None)) && AtStageOf(s, 1, Reporting(Exited(0), Some(RunLog(0))))
    && AtStageOf(s, 2, Reporting(Exited(0), Some(RunLog(0))))
  }

  lemma TwoSeeLog(s: State)
    requires ThreeAtWork(s)
    ensures var es := [StatLog(0, Exited(0)), WriteLog(0)] + [StatLog(1, Exited(0)), StatLog(2, Exited(0))];
            Valid(s, es) && LogSeenByTwo(After(s, es))
  {
    var es, fs := [StatLog(0, Exited(0)), WriteLog(0)], [StatLog(1, Exited(0)), StatLog(2, Exited(0))];
    TwoSteps(s, es[0], es[1]);
    TwoSteps(After(s, es), fs[0], fs[1]);
    TracesJoin(s, es, fs);
  }

  /** The third has written its path, and the collector has read it. */
  predicate PathSelected(s: State) {
    && s.db.runs.Keys == {0} && s.db.runs[0].deletedAt == None && s.gc == {RemoveLog(0, Some(RunLog(0)))}
    && AtStageOf(s, 0, Reporting(Exited(0), None)) && AtStageOf(s, 1, Reporting(Exited(0), Some(RunLog(0))))
  }

  predicate PathInRow(s: State) {
    && s.db.runs.Keys == {0} && s.db.runs[0].deletedAt == None && s.db.runs[0].deleteAfter < s.db.now
    && s.db.runs[0].logPath == Some(RunLog(0)) && s.gc == {}
    && AtStageOf(s, 0, Reporting(Exited(0), None)) && AtStageOf(s, 1, Reporting(Exited(0), Some(RunLog(0))))
  }

  lemma PathReported(s: State)
    requires LogSeenByTwo(s)
    ensures var es := [FinishFirst(2, true), FinishSecond(2, true)]; Valid(s, es) && PathInRow(After(s, es))
  {
    TwoSteps(s, FinishFirst(2, true), FinishSecond(2, true));
  }

  lemma PathRead(s: State)
    requires PathInRow(s)
    ensures Valid(s, [SelectRuns({0})]) && PathSelected(After(s, [SelectRuns({0})]))
  {
    assert OverdueRuns(s.db) == {0};
    OneStep(s, SelectRuns({0}));
  }

  lemma PathWritten(s: State)
    requires LogSeenByTwo(s)
    ensures var es := [FinishFirst(2, true), FinishSecond(2, true)] + [SelectRuns({0})];
            Valid(s, es) && PathSelected(After(s, es))
  {
    var es := [FinishFirst(2, true), FinishSecond(2, true)];
    PathReported(s);
    PathRead(After(s, es));
    TracesJoin(s, es, [SelectRuns({0})]);
  }

  /** The first clears the path again, and the mark is lost while no row names the log. */
  predicate Forgotten(s: State) {
    && s.db.runs.Keys == {0} && s.db.runs[0].deletedAt == None && s.db.runs[0].logPath == None
    && RunLog(0) !in s.db.files && s.gc == {} && AtStageOf(s, 1, Reporting(Exited(0), Some(RunLog(0))))
  }

  predicate PathDropped(s: State) {
    && s.db.runs.Keys == {0} && s.db.runs[0].deletedAt == None && s.db.runs[0].logPath == None
    && s.gc == {RemoveLog(0, Some(RunLog(0)))} && AtStageOf(s, 1, Reporting(Exited(0), Some(RunLog(0))))
  }

  lemma NoneReported(s: State)
    requires PathSelected(s)
    ensures var es := [FinishFirst(0, true), FinishSecond(0, true)]; Valid(s, es) && PathDropped(After(s, es))
  {
    TwoSteps(s, FinishFirst(0, true), FinishSecond(0, true));
  }

  lemma MarkDropped(s: State)
    requires PathDropped(s)
    ensures var es := [UnlinkLog(0, Some(RunLog(0)), true), EraseRunRow(0, false)];
            Valid(s, es) && Forgotten(After(s, es))
  {
    TwoSteps(s, UnlinkLog(0, Some(RunLog(0)), true), EraseRunRow(0, false));
  }

  lemma PathCleared(s: State)
    requires PathSelected(s)
    ensures var es := [FinishFirst(0, true), FinishSecond(0, true)]
                      + [UnlinkLog(0, Some(RunLog(0)), true), EraseRunRow(0, false)];
            Valid(s, es) && Forgotten(After(s, es))
  {
    var es, fs := [FinishFirst(0, true), FinishSecond(0, true)],
                  [UnlinkLog(0, Some(RunLog(0)), true), EraseRunRow(0, false)];
    NoneReported(s);
    MarkDropped(After(s, es));
    TracesJoin(s, es, fs);
  }

  /** Nothing dangles after the lost mark; the reference starts to dangle when the last worker writes
      the path it has held all the while. */
  lemma LateReferenceHappens() returns (es: seq<Event>, e: Event)
    ensures Valid(Init, es) && Enabled(After(Init, es), e) && WrittenLate(After(Init, es), e, 0)
    ensures !Dangling(After(Init, es), 0) && Dangling(Next(After(Init, es), e), 0)
  {
    es := ThreeAtWorkReached();
    var s := After(Init, es);
    var see := [StatLog(0, Exited(0)), WriteLog(0)] + [StatLog(1, Exited(0)), StatLog(2, Exited(0))];
    TwoSeeLog(s);
    TracesJoin(Init, es, see);
    var s1 := After(s, see);
    var write := [FinishFirst(2, true), FinishSecond(2, true)] + [SelectRuns({0})];
    PathWritten(s1);
    TracesJoin(Init, es + see, write);
    var s2 := After(s1, write);
    var clear := [FinishFirst(0, true), FinishSecond(0, true)]
                 + [UnlinkLog(0, Some(RunLog(0)), true), EraseRunRow(0, false)];
    PathCleared(s2);
    TracesJoin(Init, es + see + write, clear);
    var s3 := After(s2, clear);
    OneStep(s3, FinishFirst(1, true));
    TracesJoin(Init, es + see + write + clear, [FinishFirst(1, true)]);
    es, e := es + see + write + clear + [FinishFirst(1, true)], FinishSecond(1, true);
  }

  // ---- Runs that have not ended ----

  /** Run 0 has waited for more than an hour, which is also its time to live. */
  predicate Neglected(s: State) {
    && s.db.runs.Keys == {0} && s.db.runs[0].status == RunPending && s.db.runs[0].logPath == None
    && s.db.runs[0].artifact == 0 && Overdue(s.db.runs[0], s.db.now)
    && s.db.artifacts.Keys == {0} && Spent(s.db.artifacts[0], s.db.now) && s.gc == {}
  }

  lemma NeglectedReached()
    ensures Valid(Init, FIRST_RUN + [Tick(HOUR + 1)]) && Neglected(After(Init, FIRST_RUN + [Tick(HOUR + 1)]))
  {
    FirstRun();
    OneStep(Init, Upload(0, 0));
    var s0 := Next(Init, Upload(0, 0));
    TwoSteps(s0, CheckArtifact(0, 0, 0), CommitRun(0, 0, HOUR));
    TracesJoin(Init, [Upload(0, 0)], [CheckArtifact(0, 0, 0), CommitRun(0, 0, HOUR)]);
    OneStep(After(Init, FIRST_RUN), Tick(HOUR + 1));
    TracesJoin(Init, FIRST_RUN, [Tick(HOUR + 1)]);
  }

  lemma NeglectedSelected(s: State)
    requires Neglected(s)
    ensures Valid(s, [SelectRuns({0})]) && After(s, [SelectRuns({0})]) == s.(gc := {RemoveLog(0, None)})
  {
    assert OverdueRuns(s.db) == {0};
    OneStep(s, SelectRuns({0}));
  }

  /** A run that was never claimed is erased. */
  lemma UnfinishedRunErased() returns (es: seq<Event>)
    ensures Valid(Init, es) && 0 in After(Init, es).db.runs
    ensures After(Init, es).db.runs[0].status == RunPending && After(Init, es).db.runs[0].deletedAt != None
  {
    NeglectedReached();
    var wait := FIRST_RUN + [Tick(HOUR + 1)];
    var s := After(Init, wait);
    NeglectedSelected(s);
    var collect := [UnlinkLog(0, None, true), EraseRunRow(0, true)];
    TwoSteps(s.(gc := {RemoveLog(0, None)}), collect[0], collect[1]);
    TracesJoin(Init, wait, [SelectRuns({0})]);
    TracesJoin(Init, wait + [SelectRuns({0})], collect);
    es := wait + [SelectRuns({0})] + collect;
  }

  /** A run that can still be claimed has lost its tarball. */
  lemma UnfinishedTarballRemoved() returns (es: seq<Event>)
    ensures Valid(Init, es) && 0 in After(Init, es).db.runs && After(Init, es).db.runs[0].status == RunPending
    ensures Tarball(After(Init, es).db.runs[0].artifact) !in After(Init, es).db.files
  {
    NeglectedReached();
    var wait := FIRST_RUN + [Tick(HOUR + 1)];
    var s := After(Init, wait);
    assert SpentArtifacts(s.db) == {0};
    var collect := [SelectArtifacts({0}), UnlinkTarball(0, true)];
    TwoSteps(s, collect[0], collect[1]);
    TracesJoin(Init, wait, collect);
    es := wait + collect;
  }
}
