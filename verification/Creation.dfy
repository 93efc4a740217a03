/** What the tables keep together from an empty database on, and what a committed POST /runs
    adds to them. */
module Creation {
  import opened Rows
  import opened Statements
  import opened System
  import opened Protocol
  import opened Unrestricted

  predicate RunLinked(db: Db, r: RunId) {
    && r in db.runs && db.runs[r].artifact in db.artifacts
    && var artifact := db.artifacts[db.runs[r].artifact];
       artifact.client == db.runs[r].client && artifact.consumedAt != None
  }

  predicate RequestLinked(db: Db, q: Request) {
    q.artifact in db.artifacts && db.artifacts[q.artifact].client == q.client
  }

  /** Foreign keys hold, and every run uses a consumed artifact of its own client. */
  predicate Consistent(s: State) {
    && s.db.jobs.Keys <= s.db.runs.Keys
    && (forall r | r in s.db.runs :: RunLinked(s.db, r))
    && (forall q | q in s.requests :: RequestLinked(s.db, s.requests[q]))
    && (forall t | t in s.tokens :: s.tokens[t].run in s.db.runs)
    && (forall r | r in s.db.runs :: Kept(View(s, r)))
  }

  /** Artifact rows stay, keep their client, and once consumed stay consumed. */
  predicate ArtifactKept(db: Db, db': Db, a: ArtifactId) {
    && a in db.artifacts && a in db'.artifacts
    && db'.artifacts[a].client == db.artifacts[a].client
    && (db.artifacts[a].consumedAt != None ==> db'.artifacts[a].consumedAt != None)
  }

  lemma ArtifactsLeftByWorker(s: State, e: Event)
    requires Enabled(s, e) && ByWorkerOrCleaner(e)
    ensures Next(s, e).db.artifacts == s.db.artifacts
  {
  }

  lemma ArtifactsKept(s: State, e: Event)
    requires Enabled(s, e)
    ensures forall a | a in s.db.artifacts :: ArtifactKept(s.db, Next(s, e).db, a)
  {
    if ByWorkerOrCleaner(e) {
      ArtifactsLeftByWorker(s, e);
    }
  }

  lemma ColumnsKept(l: Local, a: Action)
    requires Possible(l, a)
    ensures Do(l, a).run.client == l.run.client && Do(l, a).run.artifact == l.run.artifact
  {
  }

  lemma NewRunLinked(s: State, e: Event)
    requires Consistent(s) && Enabled(s, e) && e.CommitRun?
    ensures RunLinked(Next(s, e).db, e.run)
  {
  }

  lemma OldRunLinked(s: State, e: Event, r: RunId)
    requires Enabled(s, e) && RunLinked(s.db, r)
    ensures RunLinked(Next(s, e).db, r)
  {
    StepProjects(s, e, r);
    ColumnsKept(View(s, r), Label(s, e, r));
    ArtifactsKept(s, e);
    assert ArtifactKept(s.db, Next(s, e).db, s.db.runs[r].artifact);
  }

  lemma RequestsLinked(s: State, e: Event)
    requires Consistent(s) && Enabled(s, e)
    ensures forall q | q in Next(s, e).requests :: RequestLinked(Next(s, e).db, Next(s, e).requests[q])
  {
    ArtifactsKept(s, e);
    forall q | q in Next(s, e).requests
      ensures RequestLinked(Next(s, e).db, Next(s, e).requests[q])
    {
      assert q in s.requests ==>
          RequestLinked(s.db, s.requests[q]) && ArtifactKept(s.db, Next(s, e).db, s.requests[q].artifact);
    }
  }

  lemma RunsGrowByWorker(s: State, e: Event)
    requires Enabled(s, e) && ByWorkerOrCleaner(e)
    ensures Next(s, e).db.runs.Keys == s.db.runs.Keys && Next(s, e).db.jobs.Keys <= s.db.jobs.Keys
  {
  }

  lemma RunsGrowByManager(s: State, e: Event)
    requires Enabled(s, e) && !ByWorkerOrCleaner(e)
    ensures Next(s, e).db.runs.Keys == s.db.runs.Keys + if e.CommitRun? then {e.run} else {}
    ensures Next(s, e).db.jobs.Keys == s.db.jobs.Keys + if e.CommitRun? then {e.run} else {}
  {
  }

  /** A POST can be given up at any time, and once it has committed or been given up it is gone: no
      check serves two commits. */
  lemma RequestSpent(s: State, q: nat, e: Event)
    requires q in s.requests
    requires e == DropRequest(q) || (e.CommitRun? && e.request == q && Enabled(s, e))
    ensures Enabled(s, e) && Next(s, e).requests == s.requests - {q}
  {
  }

  lemma RunsGrow(s: State, e: Event)
    requires Enabled(s, e)
    ensures Next(s, e).db.runs.Keys == s.db.runs.Keys + if e.CommitRun? then {e.run} else {}
    ensures Next(s, e).db.jobs.Keys <= s.db.jobs.Keys + if e.CommitRun? then {e.run} else {}
  {
    if ByWorkerOrCleaner(e) {
      RunsGrowByWorker(s, e);
    } else {
      RunsGrowByManager(s, e);
    }
  }

  lemma TokensMove(s: State, e: Event, t: nat)
    requires Enabled(s, e) && t in Next(s, e).tokens
    ensures (t in s.tokens && Next(s, e).tokens[t].run == s.tokens[t].run)
            || (e.ClaimJob? && Next(s, e).tokens[t].run == e.run && e.run in s.db.runs)
  {
  }

  lemma TokensLinked(s: State, e: Event)
    requires Enabled(s, e) && (forall t | t in s.tokens :: s.tokens[t].run in s.db.runs)
    ensures forall t | t in Next(s, e).tokens :: Next(s, e).tokens[t].run in s.db.runs
  {
    forall t | t in Next(s, e).tokens
      ensures Next(s, e).tokens[t].run in s.db.runs
    {
      TokensMove(s, e, t);
    }
  }

  lemma ViewOfNewRun(s: State, e: Event)
    requires Consistent(s) && Enabled(s, e) && e.CommitRun?
    ensures Fresh(View(Next(s, e), e.run)) && Kept(View(Next(s, e), e.run))
  {
  }

  lemma ConsistentByStep(s: State, e: Event)
    requires Consistent(s) && Enabled(s, e)
    ensures Consistent(Next(s, e))
  {
    var s' := Next(s, e);
    RunsGrow(s, e);
    TokensLinked(s, e);
    RequestsLinked(s, e);
    forall r | r in s'.db.runs
      ensures RunLinked(s'.db, r) && Kept(View(s', r))
    {
      if r in s.db.runs {
        OldRunLinked(s, e, r);
        StepProjects(s, e, r);
        KeptByStep(View(s, r), Label(s, e, r));
      } else {
        NewRunLinked(s, e);
        ViewOfNewRun(s, e);
      }
    }
  }

  lemma {:induction false} ConsistentAlong(s: State, es: seq<Event>)
    requires Consistent(s) && Valid(s, es)
    ensures Consistent(After(s, es))
    decreases |es|
  {
    if es != [] {
      ConsistentByStep(s, es[0]);
      ConsistentAlong(Next(s, es[0]), es[1..]);
    }
  }

  lemma InitConsistent()
    ensures Consistent(Init)
  {
  }

  /** The lease test and the joins of the claim query never hide a job that is due. */
  lemma OnlyDueTimeMatters(s: State, r: RunId)
    requires Consistent(s) && r in s.db.jobs
    ensures Claimable(s.db, r) <==> s.db.jobs[r].status == JobQueued && s.db.jobs[r].availableAt <= s.db.now
  {
    assert Kept(View(s, r)) && RunLinked(s.db, r);
  }

  // ---- Conservation ----

  /** Runs whose job row the garbage collector deletes in a step and in a trace. */
  function SweptNow(s: State, e: Event): set<RunId> {
    if e.DeleteOldJobs? then set r | r in s.db.jobs && Stale(s.db.jobs[r], s.db.now) else {}
  }

  function Swept(s: State, es: seq<Event>): set<RunId>
    requires Valid(s, es)
    decreases |es|
  {
    if es == [] then {} else SweptNow(s, es[0]) + Swept(Next(s, es[0]), es[1..])
  }

  function Jobless(s: State): set<RunId> {
    s.db.runs.Keys - s.db.jobs.Keys
  }

  lemma JobsMoveByWorker(s: State, e: Event)
    requires Enabled(s, e) && ByWorkerOrCleaner(e)
    ensures Next(s, e).db.jobs.Keys == s.db.jobs.Keys - SweptNow(s, e)
  {
  }

  lemma JobsMove(s: State, e: Event)
    requires Enabled(s, e)
    ensures Next(s, e).db.jobs.Keys == s.db.jobs.Keys - SweptNow(s, e) + if e.CommitRun? then {e.run} else {}
  {
    if ByWorkerOrCleaner(e) {
      JobsMoveByWorker(s, e);
    } else {
      RunsGrowByManager(s, e);
    }
  }

  lemma JoblessByStep(s: State, e: Event)
    requires Consistent(s) && Enabled(s, e)
    ensures Jobless(Next(s, e)) == Jobless(s) + SweptNow(s, e)
  {
    RunsGrow(s, e);
    JobsMove(s, e);
    assert SweptNow(s, e) <= s.db.runs.Keys;
    assert e.CommitRun? ==> e.run !in s.db.runs.Keys;
  }

  lemma {:induction false} JoblessAlong(s: State, es: seq<Event>)
    requires Consistent(s) && Valid(s, es)
    ensures Jobless(After(s, es)) == Jobless(s) + Swept(s, es)
    decreases |es|
  {
    if es != [] {
      ConsistentByStep(s, es[0]);
      JoblessByStep(s, es[0]);
      JoblessAlong(Next(s, es[0]), es[1..]);
    }
  }

  function Commits(es: seq<Event>): nat {
    if es == [] then 0 else (if es[0].CommitRun? then 1 else 0) + Commits(es[1..])
  }

  lemma {:induction false} RunsAreCommits(s: State, es: seq<Event>)
    requires Valid(s, es)
    ensures |After(s, es).db.runs| == |s.db.runs| + Commits(es)
    decreases |es|
  {
    if es != [] {
      RunsGrow(s, es[0]);
      RunsAreCommits(Next(s, es[0]), es[1..]);
      assert |s.db.runs| == |s.db.runs.Keys| && |Next(s, es[0]).db.runs| == |Next(s, es[0]).db.runs.Keys|;
    }
  }

  lemma Halves(runs: map<RunId, Run>, jobs: map<RunId, Job>, rest: set<RunId>)
    requires jobs.Keys <= runs.Keys && runs.Keys - jobs.Keys == rest
    ensures jobs.Keys !! rest && runs.Keys == jobs.Keys + rest && |runs| == |jobs| + |rest|
  {
  }

  /** Each committed POST leaves one run; each run has its one job until the collector deletes
      that job, and nothing else separates them. */
  lemma CreationConserved(es: seq<Event>)
    requires Valid(Init, es)
    ensures var db := After(Init, es).db;
            && |db.runs| == Commits(es)
            && db.jobs.Keys !! Swept(Init, es)
            && db.runs.Keys == db.jobs.Keys + Swept(Init, es)
            && |db.runs| == |db.jobs| + |Swept(Init, es)|
    ensures Consistent(After(Init, es))
  {
    InitConsistent();
    ConsistentAlong(Init, es);
    JoblessAlong(Init, es);
    RunsAreCommits(Init, es);
    assert Jobless(Init) == {};
    Halves(After(Init, es).db.runs, After(Init, es).db.jobs, Swept(Init, es));
  }

  // ---- Which artifacts are used once ----

  predicate UsedBy(db: Db, a: ArtifactId, r: RunId) {
    r in db.runs && db.runs[r].artifact == a
  }

  predicate BoundToConsumed(db: Db, task: GcTask) {
    match task
    case RemoveTarball(a) => a in db.artifacts && db.artifacts[a].consumedAt != None
    case MarkArtifact(a) => a in db.artifacts && db.artifacts[a].consumedAt != None
    case _ => true
  }

  ghost predicate ArtifactLedger(db: Db, a: ArtifactId) {
    && a in db.artifacts
    && (db.artifacts[a].consumedAt != None ==> exists r :: UsedBy(db, a, r))
    && (db.artifacts[a].deletedAt != None ==> db.artifacts[a].consumedAt != None)
  }

  /** consumed_at marks exactly the artifacts of some run, and only those are collected. */
  ghost predicate Ledger(s: State) {
    && (forall a | a in s.db.artifacts :: ArtifactLedger(s.db, a))
    && (forall task | task in s.gc :: BoundToConsumed(s.db, task))
  }

  lemma ArtifactRowStep(s: State, e: Event, a: ArtifactId)
    requires Enabled(s, e) && a in Next(s, e).db.artifacts
    requires !(e.CommitRun? && a == s.requests[e.request].artifact) && !(e.Upload? && a == e.artifact)
    requires !(e.EraseArtifactRow? && a == e.artifact)
    ensures a in s.db.artifacts && Next(s, e).db.artifacts[a] == s.db.artifacts[a]
  {
    if ByWorkerOrCleaner(e) {
      ArtifactsLeftByWorker(s, e);
    }
  }

  lemma StillUsed(s: State, e: Event, a: ArtifactId)
    requires Enabled(s, e) && exists r :: UsedBy(s.db, a, r)
    ensures exists r :: UsedBy(Next(s, e).db, a, r)
  {
    var r :| UsedBy(s.db, a, r);
    StepProjects(s, e, r);
    ColumnsKept(View(s, r), Label(s, e, r));
    assert UsedBy(Next(s, e).db, a, r);
  }

  lemma LedgerRow(s: State, e: Event, a: ArtifactId)
    requires Consistent(s) && Ledger(s) && Enabled(s, e) && a in Next(s, e).db.artifacts
    ensures ArtifactLedger(Next(s, e).db, a)
  {
    if e.CommitRun? && a == s.requests[e.request].artifact {
      assert UsedBy(Next(s, e).db, a, e.run);
      assert ArtifactLedger(s.db, a);
    } else if e.Upload? && a == e.artifact {
    } else if e.EraseArtifactRow? && a == e.artifact {
      assert BoundToConsumed(s.db, MarkArtifact(a)) && ArtifactLedger(s.db, a);
      StillUsed(s, e, a);
    } else {
      ArtifactRowStep(s, e, a);
      assert ArtifactLedger(s.db, a);
      if s.db.artifacts[a].consumedAt != None {
        StillUsed(s, e, a);
      }
    }
  }

  lemma LedgerTasks(s: State, e: Event)
    requires Ledger(s) && Enabled(s, e)
    ensures forall task | task in Next(s, e).gc :: BoundToConsumed(Next(s, e).db, task)
  {
    ArtifactsKept(s, e);
    forall task | task in Next(s, e).gc
      ensures BoundToConsumed(Next(s, e).db, task)
    {
      if task in s.gc {
        assert BoundToConsumed(s.db, task);
        assert task.RemoveTarball? || task.MarkArtifact? ==> ArtifactKept(s.db, Next(s, e).db, task.artifact);
      } else if task.MarkArtifact? {
        assert BoundToConsumed(s.db, RemoveTarball(task.artifact));
      }
    }
  }

  lemma LedgerByStep(s: State, e: Event)
    requires Consistent(s) && Ledger(s) && Enabled(s, e)
    ensures Ledger(Next(s, e))
  {
    forall a | a in Next(s, e).db.artifacts
      ensures ArtifactLedger(Next(s, e).db, a)
    {
      LedgerRow(s, e, a);
    }
    LedgerTasks(s, e);
  }

  predicate UsedOnce(db: Db) {
    forall r, q | r in db.runs && q in db.runs && r != q :: db.runs[r].artifact != db.runs[q].artifact
  }

  /** A committed POST keeps artifacts single-use exactly when its check, made earlier and
      outside the transaction, is still true when the transaction commits. */
  lemma ReuseExactly(s: State, e: Event)
    requires Consistent(s) && Ledger(s) && UsedOnce(s.db) && Enabled(s, e) && e.CommitRun?
    ensures UsedOnce(Next(s, e).db) <==>
              ArtifactUsable(s.db, s.requests[e.request].artifact, s.requests[e.request].client)
  {
    var db, db' := s.db, Next(s, e).db;
    var q := s.requests[e.request];
    assert RequestLinked(db, q) && ArtifactLedger(db, q.artifact);
    if ArtifactUsable(db, q.artifact, q.client) {
      forall r | r in db.runs
        ensures db'.runs[r].artifact != q.artifact
      {
        assert RunLinked(db, r);
      }
    } else {
      assert db.artifacts[q.artifact].consumedAt != None;
      var r :| UsedBy(db, q.artifact, r);
      assert db'.runs[r].artifact == db'.runs[e.run].artifact;
    }
  }

  lemma OthersKeepUse(s: State, e: Event)
    requires UsedOnce(s.db) && Enabled(s, e) && !e.CommitRun?
    ensures UsedOnce(Next(s, e).db)
  {
    RunsGrow(s, e);
    forall r | r in s.db.runs
      ensures Next(s, e).db.runs[r].artifact == s.db.runs[r].artifact
    {
      StepProjects(s, e, r);
      ColumnsKept(View(s, r), Label(s, e, r));
    }
  }

  /** Requests that commit one after another: the check still holds at the commit. */
  predicate Serialised(s: State, e: Event) {
    e.CommitRun? && e.request in s.requests ==>
      ArtifactUsable(s.db, s.requests[e.request].artifact, s.requests[e.request].client)
  }

  predicate AllSerialised(s: State, es: seq<Event>)
    requires Valid(s, es)
    decreases |es|
  {
    es == [] || (Serialised(s, es[0]) && AllSerialised(Next(s, es[0]), es[1..]))
  }

  lemma NewUse(s: State, e: Event)
    requires Consistent(s) && Ledger(s) && UsedOnce(s.db) && Enabled(s, e)
    ensures UsedOnce(Next(s, e).db) <==> Serialised(s, e)
  {
    if e.CommitRun? {
      ReuseExactly(s, e);
    } else {
      OthersKeepUse(s, e);
    }
  }

  lemma {:induction false} ArtifactColumnAlong(s: State, es: seq<Event>, r: RunId)
    requires Valid(s, es) && r in s.db.runs
    ensures r in After(s, es).db.runs && After(s, es).db.runs[r].artifact == s.db.runs[r].artifact
    decreases |es|
  {
    if es != [] {
      StepProjects(s, es[0], r);
      ColumnsKept(View(s, r), Label(s, es[0], r));
      ArtifactColumnAlong(Next(s, es[0]), es[1..], r);
    }
  }

  /** A second use of an artifact is never undone. */
  lemma UsedTwiceAlong(s: State, es: seq<Event>)
    requires Valid(s, es) && !UsedOnce(s.db)
    ensures !UsedOnce(After(s, es).db)
  {
    var r, q :| r in s.db.runs && q in s.db.runs && r != q && s.db.runs[r].artifact == s.db.runs[q].artifact;
    ArtifactColumnAlong(s, es, r);
    ArtifactColumnAlong(s, es, q);
  }

  /** Artifacts are single-use at the end of a trace exactly if every commit was serialised. */
  lemma {:induction false} UsedOnceAlong(s: State, es: seq<Event>)
    requires Consistent(s) && Ledger(s) && UsedOnce(s.db) && Valid(s, es)
    ensures AllSerialised(s, es) <==> UsedOnce(After(s, es).db)
    decreases |es|
  {
    if es != [] {
      NewUse(s, es[0]);
      if Serialised(s, es[0]) {
        ConsistentByStep(s, es[0]);
        LedgerByStep(s, es[0]);
        UsedOnceAlong(Next(s, es[0]), es[1..]);
      } else {
        UsedTwiceAlong(Next(s, es[0]), es[1..]);
      }
    }
  }
}
