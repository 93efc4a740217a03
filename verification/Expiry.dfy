/** When the collector erases a run and what that means for whoever still needs its log: exactly
    which downloads make an erasure early, and how long a finished log is served. */
module Expiry {
  import opened Rows
  import opened Statements
  import opened System
  import opened Protocol
  import opened Creation
  import opened Permanence
  import opened Logs

  /** The collector has read run r from its query and has not finished with it. */
  predicate Condemned(s: State, r: RunId) {
    exists task :: task in s.gc && (task.RemoveLog? || task.MarkRun?) && task.run == r
  }

  /** Whoever is condemned is past its time, and whoever is erased was. */
  predicate ErasedWhenDue(s: State, r: RunId) {
    && (Condemned(s, r) ==> r in s.db.runs && s.db.runs[r].deleteAfter < s.db.now)
    && (r in s.db.runs && s.db.runs[r].deletedAt != None ==> s.db.runs[r].deleteAfter < s.db.runs[r].deletedAt.value)
  }

  predicate Prolongs(s: State, e: Event, r: RunId) {
    e.EndDownload? && Transfers(s, e.transfer, r) && e.delivered
  }

  /** A run gets on the list only by being overdue when it is read. */
  lemma CondemnedByStep(s: State, e: Event, r: RunId)
    requires Enabled(s, e) && Condemned(Next(s, e), r)
    ensures Condemned(s, r) || (e.SelectRuns? && r in e.batch && r in s.db.runs && Overdue(s.db.runs[r], s.db.now))
  {
  }

  lemma DueLocally(l: Local, a: Action)
    requires Possible(l, a)
    ensures Do(l, a).run.deleteAfter == if a.Prolong? then l.now + a.ttl else l.run.deleteAfter
    ensures l.now <= Do(l, a).now
    ensures Do(l, a).run.deletedAt == if a.Erase? then Some(l.now) else l.run.deletedAt
    ensures l.run.receivedAt != None ==> Do(l, a).run.receivedAt == l.run.receivedAt
  {
  }

  lemma ErasureSeenLocally(s: State, e: Event, r: RunId)
    requires Enabled(s, e) && r in s.db.runs
    ensures if Prolongs(s, e, r) then Label(s, e, r) == Prolong(e.ttl) else !Label(s, e, r).Prolong?
    ensures Label(s, e, r).Erase? ==> Condemned(s, r)
  {
  }

  /** The collector and the transfers know only runs that exist. */
  predicate KnownRuns(s: State) {
    && (forall task | task in s.gc && (task.RemoveLog? || task.MarkRun?) :: task.run in s.db.runs)
    && (forall d | d in s.downloads :: s.downloads[d].run in s.db.runs)
  }

  lemma KnownRunsByStep(s: State, e: Event)
    requires KnownRuns(s) && Enabled(s, e)
    ensures KnownRuns(Next(s, e))
  {
    RunsGrow(s, e);
  }

  /** What a step does to the columns of the collector. */
  lemma DueByStep(s: State, e: Event, r: RunId)
    requires Enabled(s, e) && r in s.db.runs
    ensures r in Next(s, e).db.runs && s.db.now <= Next(s, e).db.now
    ensures Next(s, e).db.runs[r].deleteAfter ==
            if Prolongs(s, e, r) then s.db.now + e.ttl else s.db.runs[r].deleteAfter
    ensures Next(s, e).db.runs[r].deletedAt == s.db.runs[r].deletedAt ||
            (Condemned(s, r) && Next(s, e).db.runs[r].deletedAt == Some(s.db.now))
    ensures s.db.runs[r].receivedAt != None ==> Next(s, e).db.runs[r].receivedAt == s.db.runs[r].receivedAt
  {
    StepProjects(s, e, r);
    ErasureSeenLocally(s, e, r);
    DueLocally(View(s, r), Label(s, e, r));
  }

  lemma ErasedWhenDueByStep(s: State, e: Event, r: RunId)
    requires ErasedWhenDue(s, r) && Enabled(s, e) && !Prolongs(s, e, r)
    ensures ErasedWhenDue(Next(s, e), r)
  {
    if Condemned(Next(s, e), r) {
      CondemnedByStep(s, e, r);
    }
    if r in s.db.runs {
      DueByStep(s, e, r);
    } else {
      RunsGrow(s, e);
    }
  }

  // ---- Early erasure ----

  /** The delete_after that the last download of r recorded in the trace has written. */
  function Extension(s: State, es: seq<Event>, r: RunId): Option<Time>
    requires Valid(s, es)
    decreases |es|
  {
    if es == [] then None
    else
      var later := Extension(Next(s, es[0]), es[1..], r);
      if later != None then later else if Prolongs(s, es[0], r) then Some(s.db.now + es[0].ttl) else None
  }

  /** Without a recorded download, r is erased only after its time. */
  lemma {:induction false} NoEarlyErasure(s: State, es: seq<Event>, r: RunId)
    requires ErasedWhenDue(s, r) && Valid(s, es) && Extension(s, es, r) == None
    ensures ErasedWhenDue(After(s, es), r)
    decreases |es|
  {
    if es != [] {
      ErasedWhenDueByStep(s, es[0], r);
      NoEarlyErasure(Next(s, es[0]), es[1..], r);
    }
  }

  lemma {:induction false} DueAlong(s: State, es: seq<Event>, r: RunId)
    requires Valid(s, es) && r in s.db.runs
    ensures r in After(s, es).db.runs && s.db.now <= After(s, es).db.now
    ensures After(s, es).db.runs[r].deleteAfter ==
            if Extension(s, es, r) == None then s.db.runs[r].deleteAfter else Extension(s, es, r).value
    decreases |es|
  {
    if es != [] {
      DueByStep(s, es[0], r);
      DueAlong(Next(s, es[0]), es[1..], r);
    }
  }

  predicate ErasedEarly(run: Run) {
    run.deletedAt != None && run.deletedAt.value <= run.deleteAfter
  }

  /** From the selection of an overdue run on, its erasure goes ahead whatever is downloaded. It is
      early exactly if a download was recorded in between, and the delete_after which the last
      of them wrote had not passed. */
  lemma EarlyErasureExactly(s: State, batch: set<RunId>, s': State, es: seq<Event>, r: RunId)
    requires Enabled(s, SelectRuns(batch)) && r in batch && s' == Next(s, SelectRuns(batch))
    requires Valid(s', es) && Enabled(After(s', es), EraseRunRow(r, true))
    ensures var last, erased := After(s', es), Next(After(s', es), EraseRunRow(r, true));
            && r in erased.db.runs && erased.db.runs[r].deletedAt == Some(last.db.now)
            && (ErasedEarly(erased.db.runs[r]) <==>
                  Extension(s', es, r) != None && last.db.now <= Extension(s', es, r).value)
  {
    assert r in OverdueRuns(s.db);
    DueAlong(s', es, r);
  }

  /** received_at keeps the time of the first complete download. */
  lemma {:induction false} ReceivedOnce(s: State, es: seq<Event>, r: RunId)
    requires Valid(s, es) && r in s.db.runs && s.db.runs[r].receivedAt != None
    ensures r in After(s, es).db.runs && After(s, es).db.runs[r].receivedAt == s.db.runs[r].receivedAt
    decreases |es|
  {
    if es != [] {
      DueByStep(s, es[0], r);
      ReceivedOnce(Next(s, es[0]), es[1..], r);
    }
  }

  // ---- How long a log is served ----

  lemma ServedRowByStep(s: State, e: Event, r: RunId)
    requires Enabled(s, e) && LogServed(s.db, r) && !Condemned(s, r) && LastWordSaid(View(s, r))
    ensures r in Next(s, e).db.runs && Terminal(Next(s, e).db.runs[r].status)
    ensures Next(s, e).db.runs[r].deletedAt == None && Next(s, e).db.runs[r].logPath == s.db.runs[r].logPath
    ensures LastWordSaid(View(Next(s, e), r))
  {
    StepProjects(s, e, r);
    ErasureSeenLocally(s, e, r);
    LastWordByStep(View(s, r), Label(s, e, r));
    DueByStep(s, e, r);
  }

  lemma ServedFileByStep(s: State, e: Event, r: RunId)
    requires OwnPaths(s) && Enabled(s, e) && !Condemned(s, r) && RunLog(r) in s.db.files
    ensures RunLog(r) in Next(s, e).db.files
  {
    if e.UnlinkLog? {
      assert RemoveLog(e.run, e.log) in s.gc;
    }
  }

  predicate Selects(e: Event, r: RunId) {
    e.SelectRuns? && r in e.batch
  }

  /** Once nobody will write the run's result again, a log that can be downloaded can be downloaded
      until the collector's query returns its run: no cleaner pass takes it back, and no removal
      of another run's log hits it. */
  lemma {:induction false} ServedUntilSelected(s: State, es: seq<Event>, r: RunId)
    requires OwnPaths(s) && Valid(s, es) && LogServed(s.db, r) && !Condemned(s, r)
    requires LastWordSaid(View(s, r)) && forall e | e in es :: !Selects(e, r)
    ensures LogServed(After(s, es).db, r) && !Condemned(After(s, es), r)
    decreases |es|
  {
    if es != [] {
      var e, s' := es[0], Next(s, es[0]);
      assert !Selects(e, r);
      assert s.db.runs[r].logPath == Some(RunLog(r));
      ServedRowByStep(s, e, r);
      ServedFileByStep(s, e, r);
      if Condemned(s', r) {
        CondemnedByStep(s, e, r);
      }
      OwnPathsByStep(s, e);
      ServedUntilSelected(s', es[1..], r);
    }
  }

  lemma {:induction false} NotSelectedBeforeDue(s: State, es: seq<Event>, r: RunId)
    requires Valid(s, es) && r in s.db.runs && Extension(s, es, r) == None
    requires After(s, es).db.now <= s.db.runs[r].deleteAfter
    ensures forall e | e in es :: !Selects(e, r)
    decreases |es|
  {
    if es != [] {
      DueAlong(s, es, r);
      DueByStep(s, es[0], r);
      DueAlong(Next(s, es[0]), es[1..], r);
      assert Selects(es[0], r) ==> r in OverdueRuns(s.db);
      NotSelectedBeforeDue(Next(s, es[0]), es[1..], r);
    }
  }

  /** So before anyone has fetched it, it is there until delete_after. */
  lemma ServedUntilDue(s: State, es: seq<Event>, r: RunId)
    requires OwnPaths(s) && Valid(s, es) && LogServed(s.db, r) && !Condemned(s, r)
    requires LastWordSaid(View(s, r))
    requires Extension(s, es, r) == None && After(s, es).db.now <= s.db.runs[r].deleteAfter
    ensures LogServed(After(s, es).db, r)
  {
    NotSelectedBeforeDue(s, es, r);
    ServedUntilSelected(s, es, r);
  }

  // ---- The collector's own work ----

  /** What the collector has selected it can carry through: the log is gone if it could be removed,
      the row says so if the UPDATE arrives, and either way the run is off the list. */
  lemma RunCollected(s: State, batch: set<RunId>, r: RunId, ok: bool, delivered: bool)
    requires Enabled(s, SelectRuns(batch)) && r in batch
    ensures var log := s.db.runs[r].logPath;
            var es := [SelectRuns(batch), UnlinkLog(r, log, ok), EraseRunRow(r, delivered)];
            && Valid(s, es)
            && var s' := After(s, es);
               && s'.db.files == (if ok && log != None then s.db.files - {log.value} else s.db.files)
               && r in s'.db.runs && MarkRun(r) !in s'.gc
               && s'.db.runs[r] == if delivered
                                   then s.db.runs[r].(deletedAt := Some(s.db.now), logPath := None)
                                   else s.db.runs[r]
  {
    var es := [SelectRuns(batch), UnlinkLog(r, s.db.runs[r].logPath, ok), EraseRunRow(r, delivered)];
    TwoSteps(Next(s, es[0]), es[1], es[2]);
    assert es[1..] == [es[1], es[2]];
  }

  lemma ArtifactCollected(s: State, batch: set<ArtifactId>, a: ArtifactId, ok: bool, delivered: bool)
    requires Enabled(s, SelectArtifacts(batch)) && a in batch
    ensures var es := [SelectArtifacts(batch), UnlinkTarball(a, ok), EraseArtifactRow(a, delivered)];
            && Valid(s, es)
            && var s' := After(s, es);
               && s'.db.files == (if ok then s.db.files - {Tarball(a)} else s.db.files)
               && a in s'.db.artifacts && MarkArtifact(a) !in s'.gc
               && s'.db.artifacts[a] == if delivered
                                        then s.db.artifacts[a].(deletedAt := Some(s.db.now))
                                        else s.db.artifacts[a]
  {
    var es := [SelectArtifacts(batch), UnlinkTarball(a, ok), EraseArtifactRow(a, delivered)];
    TwoSteps(Next(s, es[0]), es[1], es[2]);
    assert es[1..] == [es[1], es[2]];
  }
}
