/** The documented status graph, pending to running to an end: which steps leave it, and which runs
    never will again. */
module Lifecycle {
  import opened Rows
  import opened System
  import opened Protocol
  import opened Timed

  predicate Documented(from: RunStatus, to: RunStatus) {
    || from == to
    || (from == RunPending && to == RunRunning)
    || (from == RunRunning && Terminal(to))
  }

  // ---- Single steps ----

  /** A step that leaves the graph: the cleaner's reset; a claim of an ended run; the end of a retry
      on a run that is not pending; a verdict or a final failure on a run that is pending, or that
      has ended otherwise. */
  predicate Strays(l: Local, a: Action) {
    match a
    case Take(_, _, _, _) => Terminal(l.run.status)
    case ResetRun => true
    case Fail2(t, true) =>
      t in l.tokens &&
      if l.tokens[t].snapshot < l.tokens[t].maxAttempts
      then l.run.status != RunPending
      else l.run.status !in {RunRunning, RunError}
    case Finish2(t, true) =>
      t in l.tokens && l.tokens[t].stage.Finishing? &&
      l.run.status !in {RunRunning, VerdictStatus(l.tokens[t].stage.v)}
    case _ => false
  }

  lemma StraysExactly(l: Local, a: Action)
    requires Possible(l, a)
    ensures Documented(l.run.status, Do(l, a).run.status) <==> !Strays(l, a)
  {
  }

  /** Running back to pending: by the end of a retry, or by the cleaner. */
  predicate GoesBack(l: Local, a: Action) {
    l.run.status == RunRunning && (a.ResetRun? || (a.Fail2? && a.delivered && AtRetry(l, a.token)))
  }

  /** While job, run and worker agree, that is the only way out of the graph. */
  lemma DocumentedExactly(l: Local, a: Action)
    requires Agreed(l) && Possible(l, a)
    ensures Documented(l.run.status, Do(l, a).run.status) <==> !GoesBack(l, a)
    ensures GoesBack(l, a) ==> Do(l, a).run.status == RunPending
  {
    if a.Fail2? || a.Finish2? {
      assert Held(l, l.tokens[a.token]);
    }
  }

  // ---- Along traces ----

  predicate DocumentedThroughout(s: State, es: seq<Event>, r: RunId)
    requires Valid(s, es) && r in s.db.runs
    decreases |es|
  {
    es == [] ||
    (StepProjects(s, es[0], r);
     && Documented(s.db.runs[r].status, Next(s, es[0]).db.runs[r].status)
     && DocumentedThroughout(Next(s, es[0]), es[1..], r))
  }

  predicate NeverGoesBack(s: State, es: seq<Event>, r: RunId)
    requires Valid(s, es) && r in s.db.runs
    decreases |es|
  {
    es == [] ||
    (StepProjects(s, es[0], r);
     !GoesBack(View(s, r), Label(s, es[0], r)) && NeverGoesBack(Next(s, es[0]), es[1..], r))
  }

  /** A timely run follows the documented graph exactly as long as it is not retried and not reset. */
  lemma {:induction false} DocumentedAlong(s: State, es: seq<Event>, r: RunId)
    requires Valid(s, es) && r in s.db.runs && Agreed(View(s, r)) && TimelyTrace(s, es, r)
    ensures DocumentedThroughout(s, es, r) <==> NeverGoesBack(s, es, r)
    decreases |es|
  {
    if es != [] {
      StepProjects(s, es[0], r);
      DocumentedExactly(View(s, r), Label(s, es[0], r));
      AgreedExactly(View(s, r), Label(s, es[0], r));
      DocumentedAlong(Next(s, es[0]), es[1..], r);
    }
  }

  // ---- Runs with no retry left ----

  /** No attempt is left to retry: the job is gone, done or failed, or its attempts are used up with
      the run not half released and the worker, if one executes, past its last retry. */
  predicate Straight(l: Local) {
    l.job.Some? && l.job.value.status in {JobQueued, JobRunning} ==>
      && l.job.value.attempts >= l.job.value.maxAttempts
      && (l.job.value.status == JobQueued ==> l.run.status == RunPending)
      && forall t | t in l.tokens && l.tokens[t].stage == Executing :: l.tokens[t].snapshot >= l.tokens[t].maxAttempts
  }

  lemma StraightByReport(l: Local, a: Action)
    requires Agreed(l) && Straight(l) && Possible(l, a) && Timely(l, a)
    requires a.Fail1? || a.Fail2? || a.Look? || a.Finish1? || a.Finish2? || a.Die?
    ensures Straight(Do(l, a)) && !GoesBack(l, a)
  {
    assert Held(l, l.tokens[a.token]);
  }

  lemma StraightByStep(l: Local, a: Action)
    requires Agreed(l) && Straight(l) && Possible(l, a) && Timely(l, a)
    ensures Straight(Do(l, a)) && !GoesBack(l, a)
  {
    if a.Fail1? || a.Fail2? || a.Look? || a.Finish1? || a.Finish2? || a.Die? {
      StraightByReport(l, a);
    }
  }
}
