/** log_path against the disk: an undeleted run that names a log has it, whatever the workers,
    however late, and the collector do, until the collector loses the mark of a run whose log it
    has removed and which somebody still names. */
module Logs {
  import opened Rows
  import opened System
  import opened Protocol
  import opened Creation

  // ---- Whose log a path names ----

  function PathHeld(k: Token): Option<File> {
    match k.stage
    case Reporting(_, log) => log
    case Finishing(_, path) => path
    case _ => None
  }

  predicate Own(r: RunId, path: Option<File>) {
    path in {None, Some(RunLog(r))}
  }

  /** Every recorded log path is the run's own: in its row, with a worker, with the collector. */
  predicate OwnPaths(s: State) {
    && (forall r | r in s.db.runs :: Own(r, s.db.runs[r].logPath))
    && (forall t | t in s.tokens :: Own(s.tokens[t].run, PathHeld(s.tokens[t])))
    && (forall task | task in s.gc && task.RemoveLog? :: Own(task.run, task.log))
  }

  lemma OwnPathsByWorker(s: State, e: Event)
    requires OwnPaths(s) && Enabled(s, e)
    requires ByWorkerOrCleaner(e)
    ensures OwnPaths(Next(s, e))
  {
  }

  lemma OwnPathsByManager(s: State, e: Event)
    requires OwnPaths(s) && Enabled(s, e)
    requires !ByWorkerOrCleaner(e)
    ensures OwnPaths(Next(s, e))
  {
  }

  lemma OwnPathsByStep(s: State, e: Event)
    requires OwnPaths(s) && Enabled(s, e)
    ensures OwnPaths(Next(s, e))
  {
    if ByWorkerOrCleaner(e) {
      OwnPathsByWorker(s, e);
    } else {
      OwnPathsByManager(s, e);
    }
  }

  // ---- Whether the log is there ----

  /** Run r has its log, or is deleted, or the collector is about to mark it. */
  predicate Backed(s: State, r: RunId) {
    r in s.db.runs && (RunLog(r) in s.db.files || s.db.runs[r].deletedAt != None || MarkRun(r) in s.gc)
  }

  predicate Referenced(s: State, r: RunId) {
    || (r in s.db.runs && s.db.runs[r].logPath != None)
    || exists t :: t in s.tokens && s.tokens[t].run == r && PathHeld(s.tokens[t]) != None
  }

  /** A log that the row, or a worker about to write the row, names is backed. */
  predicate LogKept(s: State, r: RunId) {
    Referenced(s, r) ==> Backed(s, r)
  }

  /** The collector marks what it has cleaned: for this run no UPDATE is lost and no crash
      falls between the removal and the UPDATE. */
  predicate Marks(e: Event, r: RunId) {
    && (e.EraseRunRow? && e.run == r ==> e.delivered)
    && (e.AbandonTask? ==> e.task != MarkRun(r))
  }

  lemma BackedByUnlink(s: State, e: Event, r: RunId)
    requires OwnPaths(s) && Backed(s, r) && Enabled(s, e) && e.UnlinkLog?
    ensures Backed(Next(s, e), r)
  {
    assert RemoveLog(e.run, e.log) in s.gc;
  }

  lemma BackedByMark(s: State, e: Event, r: RunId)
    requires Backed(s, r) && Enabled(s, e) && (e.EraseRunRow? || e.AbandonTask?) && Marks(e, r)
    ensures Backed(Next(s, e), r)
  {
  }

  lemma BackedByWorker(s: State, e: Event, r: RunId)
    requires Backed(s, r) && Enabled(s, e) && ByWorkerOrCleaner(e)
    ensures Backed(Next(s, e), r)
  {
  }

  lemma BackedByOther(s: State, e: Event, r: RunId)
    requires Backed(s, r) && Enabled(s, e) && !e.UnlinkLog? && !e.EraseRunRow? && !e.AbandonTask?
    ensures Backed(Next(s, e), r)
  {
    if ByWorkerOrCleaner(e) {
      BackedByWorker(s, e, r);
    }
  }

  lemma BackedByStep(s: State, e: Event, r: RunId)
    requires OwnPaths(s) && Backed(s, r) && Enabled(s, e) && Marks(e, r)
    ensures Backed(Next(s, e), r)
  {
    if e.UnlinkLog? {
      BackedByUnlink(s, e, r);
    } else if e.EraseRunRow? || e.AbandonTask? {
      BackedByMark(s, e, r);
    } else {
      BackedByOther(s, e, r);
    }
  }

  /** A reference appears only when a worker has just seen the file. */
  lemma ReferencesByStep(s: State, e: Event, r: RunId)
    requires Enabled(s, e) && Referenced(Next(s, e), r) && !Referenced(s, r)
    ensures e.StatLog? && r == s.tokens[e.token].run && RunLog(r) in Next(s, e).db.files
  {
    var s' := Next(s, e);
    if r in s'.db.runs && s'.db.runs[r].logPath != None {
      RunsGrow(s, e);
      if r in s.db.runs {
        StepProjects(s, e, r);
      }
      assert false;
    }
    var t :| t in s'.tokens && s'.tokens[t].run == r && PathHeld(s'.tokens[t]) != None;
  }

  lemma LogKeptByStep(s: State, e: Event, r: RunId)
    requires Consistent(s) && OwnPaths(s) && LogKept(s, r) && Enabled(s, e) && Marks(e, r)
    ensures LogKept(Next(s, e), r)
  {
    if Referenced(s, r) {
      BackedByStep(s, e, r);
    } else if Referenced(Next(s, e), r) {
      ReferencesByStep(s, e, r);
      RunsGrow(s, e);
    }
  }

  /** The row of an undeleted run names a log that nobody will find. */
  predicate Dangling(s: State, r: RunId) {
    && r in s.db.runs && s.db.runs[r].deletedAt == None && s.db.runs[r].logPath != None
    && s.db.runs[r].logPath.value !in s.db.files && MarkRun(r) !in s.gc
  }

  lemma NotDangling(s: State, r: RunId)
    requires OwnPaths(s) && LogKept(s, r)
    ensures !Dangling(s, r)
  {
    assert r in s.db.runs ==> Own(r, s.db.runs[r].logPath);
  }

  // ---- Which lost marks matter ----

  lemma MarkLost(s: State, e: Event, r: RunId)
    requires Enabled(s, e) && !Marks(e, r)
    ensures Next(s, e).db == s.db && Next(s, e).tokens == s.tokens && MarkRun(r) !in Next(s, e).gc
  {
  }

  /** The mark of run r is lost, by its UPDATE or by a crash before it, while the row or a worker
      still names the log, and the log is gone. */
  predicate LosesMark(s: State, e: Event, r: RunId) {
    && (e == EraseRunRow(r, false) || e == AbandonTask(MarkRun(r)))
    && r in s.db.runs && s.db.runs[r].deletedAt == None && Referenced(s, r) && RunLog(r) !in s.db.files
  }

  /** References stay backed over a step exactly if it loses no such mark. */
  lemma LogKeptExactly(s: State, e: Event, r: RunId)
    requires Consistent(s) && OwnPaths(s) && LogKept(s, r) && Enabled(s, e)
    ensures LogKept(Next(s, e), r) <==> !LosesMark(s, e, r)
  {
    if Marks(e, r) {
      LogKeptByStep(s, e, r);
    } else {
      MarkLost(s, e, r);
    }
  }

  predicate KeptThroughout(s: State, es: seq<Event>, r: RunId)
    requires Valid(s, es)
    decreases |es|
  {
    LogKept(s, r) && (es != [] ==> KeptThroughout(Next(s, es[0]), es[1..], r))
  }

  predicate NoneLosesMark(s: State, es: seq<Event>, r: RunId)
    requires Valid(s, es)
    decreases |es|
  {
    es == [] || (!LosesMark(s, es[0], r) && NoneLosesMark(Next(s, es[0]), es[1..], r))
  }

  /** And throughout a trace exactly if no step of it does. */
  lemma {:induction false} LogsAlong(s: State, es: seq<Event>, r: RunId)
    requires Consistent(s) && OwnPaths(s) && LogKept(s, r) && Valid(s, es)
    ensures KeptThroughout(s, es, r) <==> NoneLosesMark(s, es, r)
    ensures Consistent(After(s, es)) && OwnPaths(After(s, es))
    ensures NoneLosesMark(s, es, r) ==> LogKept(After(s, es), r)
    decreases |es|
  {
    StandAlong(s, es);
    if es != [] {
      ConsistentByStep(s, es[0]);
      OwnPathsByStep(s, es[0]);
      LogKeptExactly(s, es[0], r);
      if !LosesMark(s, es[0], r) {
        LogsAlong(Next(s, es[0]), es[1..], r);
      }
    }
  }

  lemma {:induction false} StandAlong(s: State, es: seq<Event>)
    requires Consistent(s) && OwnPaths(s) && Valid(s, es)
    ensures Consistent(After(s, es)) && OwnPaths(After(s, es))
    decreases |es|
  {
    if es != [] {
      ConsistentByStep(s, es[0]);
      OwnPathsByStep(s, es[0]);
      StandAlong(Next(s, es[0]), es[1..]);
    }
  }

  // ---- Dangling references ----

  predicate MarksAlong(es: seq<Event>, r: RunId) {
    forall e | e in es :: Marks(e, r)
  }

  lemma {:induction false} MarksLoseNone(s: State, es: seq<Event>, r: RunId)
    requires Valid(s, es) && MarksAlong(es, r)
    ensures NoneLosesMark(s, es, r)
    decreases |es|
  {
    if es != [] {
      assert Marks(es[0], r);
      MarksLoseNone(Next(s, es[0]), es[1..], r);
    }
  }

  /** From the empty system on, no log reference of r ever dangles until such a mark is lost. */
  lemma NoDanglingLogs(es: seq<Event>, r: RunId)
    requires Valid(Init, es) && NoneLosesMark(Init, es, r)
    ensures !Dangling(After(Init, es), r)
  {
    InitConsistent();
    LogsAlong(Init, es, r);
    NotDangling(After(Init, es), r);
  }

  /** A worker writes the path of a log that is gone, into a row that is neither marked nor about
      to be. */
  predicate WrittenLate(s: State, e: Event, r: RunId) {
    && e.FinishSecond? && e.delivered && Holds(s, e.token, r) && PathHeld(s.tokens[e.token]) != None
    && r in s.db.runs && s.db.runs[r].deletedAt == None
    && RunLog(r) !in s.db.files && MarkRun(r) !in s.gc
  }

  lemma RowByOther(s: State, e: Event, r: RunId)
    requires Enabled(s, e) && r in s.db.runs && !(e.FinishSecond? && e.delivered && Holds(s, e.token, r))
    ensures r in Next(s, e).db.runs && Next(s, e).db.runs[r].logPath in {None, s.db.runs[r].logPath}
    ensures s.db.runs[r].deletedAt != None ==> Next(s, e).db.runs[r].deletedAt != None
  {
    StepProjects(s, e, r);
  }

  /** An undeleted run has its log, or is about to be marked. */
  predicate Covered(s: State, r: RunId) {
    RunLog(r) in s.db.files || MarkRun(r) in s.gc
  }

  lemma CoveredByStep(s: State, e: Event, r: RunId)
    requires OwnPaths(s) && Backed(s, r) && Enabled(s, e) && Marks(e, r)
    ensures r in Next(s, e).db.runs && (Next(s, e).db.runs[r].deletedAt == None ==> Covered(Next(s, e), r))
  {
    BackedByStep(s, e, r);
  }

  lemma OthersDangleNothing(s: State, e: Event, r: RunId)
    requires OwnPaths(s) && !Dangling(s, r) && Enabled(s, e) && Marks(e, r)
    requires !(e.FinishSecond? && e.delivered && Holds(s, e.token, r))
    ensures !Dangling(Next(s, e), r)
  {
    if r in s.db.runs {
      assert Own(r, s.db.runs[r].logPath);
      RowByOther(s, e, r);
      if Backed(s, r) {
        CoveredByStep(s, e, r);
      }
    } else {
      RunsGrow(s, e);
    }
  }

  lemma LossDanglesExactly(s: State, e: Event, r: RunId)
    requires OwnPaths(s) && !Dangling(s, r) && Enabled(s, e) && !Marks(e, r)
    ensures Dangling(Next(s, e), r) <==> LosesMark(s, e, r) && s.db.runs[r].logPath != None
  {
    MarkLost(s, e, r);
    assert r in s.db.runs ==> Own(r, s.db.runs[r].logPath);
  }

  lemma WriteDanglesExactly(s: State, e: Event, r: RunId)
    requires OwnPaths(s) && Enabled(s, e) && e.FinishSecond? && e.delivered && Holds(s, e.token, r)
    ensures Dangling(Next(s, e), r) <==> WrittenLate(s, e, r)
  {
    assert Own(r, PathHeld(s.tokens[e.token]));
    if r in s.db.runs {
      StepProjects(s, e, r);
    }
  }

  /** In every state, a reference starts to dangle in exactly two ways: a mark is lost while the row
      names a log that is gone, or a late worker writes such a name into the row. */
  lemma DanglesExactly(s: State, e: Event, r: RunId)
    requires OwnPaths(s) && !Dangling(s, r) && Enabled(s, e)
    ensures Dangling(Next(s, e), r) <==>
              || (LosesMark(s, e, r) && s.db.runs[r].logPath != None)
              || WrittenLate(s, e, r)
  {
    if !Marks(e, r) {
      LossDanglesExactly(s, e, r);
    } else if e.FinishSecond? && e.delivered && Holds(s, e.token, r) {
      WriteDanglesExactly(s, e, r);
    } else {
      OthersDangleNothing(s, e, r);
    }
  }

  // ---- What it means that references are backed ----

  /** A worker that holds the path of the log can still write it. */
  lemma HolderWrites(s: State, r: RunId, t: nat) returns (es: seq<Event>)
    requires r in s.db.runs && Holds(s, t, r) && PathHeld(s.tokens[t]) != None && OwnPaths(s) && !Backed(s, r)
    ensures Valid(s, es) && MarksAlong(es, r) && Dangling(After(s, es), r)
  {
    assert Own(r, PathHeld(s.tokens[t]));
    if s.tokens[t].stage.Reporting? {
      es := [FinishFirst(t, true), FinishSecond(t, true)];
      TwoSteps(s, es[0], es[1]);
    } else {
      es := [FinishSecond(t, true)];
      OneStep(s, es[0]);
    }
  }

  lemma LossDangles(s: State, r: RunId) returns (es: seq<Event>)
    requires Consistent(s) && OwnPaths(s) && r in s.db.runs && !LogKept(s, r)
    ensures Valid(s, es) && MarksAlong(es, r) && Dangling(After(s, es), r)
  {
    assert Own(r, s.db.runs[r].logPath);
    if s.db.runs[r].logPath != None {
      es := [];
    } else {
      var t :| t in s.tokens && s.tokens[t].run == r && PathHeld(s.tokens[t]) != None;
      es := HolderWrites(s, r, t);
    }
  }

  /** References of r are backed exactly if none can dangle as long as marks succeed. So the first
      mark lost as in LosesMark is what a later dangling reference needs, and all it needs. */
  lemma LogKeptMeans(s: State, r: RunId)
    requires Consistent(s) && OwnPaths(s) && r in s.db.runs
    ensures LogKept(s, r) <==> forall es | Valid(s, es) && MarksAlong(es, r) :: !Dangling(After(s, es), r)
  {
    if LogKept(s, r) {
      forall es | Valid(s, es) && MarksAlong(es, r)
        ensures !Dangling(After(s, es), r)
      {
        MarksLoseNone(s, es, r);
        LogsAlong(s, es, r);
        NotDangling(After(s, es), r);
      }
    } else {
      var es := LossDangles(s, r);
    }
  }
}
