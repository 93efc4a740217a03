/** With nothing assumed about timing: when the result of an ended run is final, and when a run
    that has not ended never will. */
module Permanence {
  import opened Rows
  import opened System
  import opened Protocol
  import opened Creation
  import opened Recovery
  import opened Timed

  /** Nobody will write the run's result again. */
  predicate LastWordSaid(l: Local) {
    l.tokens == map[] && (l.job.Some? ==> AtItsEnd(l.job.value))
  }

  lemma LastWordByStep(l: Local, a: Action)
    requires LastWordSaid(l) && Possible(l, a)
    ensures LastWordSaid(Do(l, a)) && SameResult(l.run, Do(l, a).run)
    ensures Do(l, a).run.logPath == if a.Erase? then None else l.run.logPath
  {
  }

  lemma {:induction false} LastWordAlong(s: State, es: seq<Event>, r: RunId)
    requires Valid(s, es) && r in s.db.runs && LastWordSaid(View(s, r))
    ensures r in After(s, es).db.runs && SameResult(s.db.runs[r], After(s, es).db.runs[r])
    ensures After(s, es).db.runs[r].logPath in {None, s.db.runs[r].logPath}
    decreases |es|
  {
    if es != [] {
      StepProjects(s, es[0], r);
      LastWordByStep(View(s, r), Label(s, es[0], r));
      LastWordAlong(Next(s, es[0]), es[1..], r);
    }
  }

  lemma AgreedHasLastWord(l: Local)
    requires Agreed(l) && Terminal(l.run.status)
    ensures LastWordSaid(l)
  {
    if t :| t in l.tokens {
      assert false;
    }
  }

  /** If job, run and worker agree when a run has ended, its result never changes again, timely or
      not, and only the collector clears its log. */
  lemma TerminalForever(s: State, es: seq<Event>, r: RunId)
    requires Valid(s, es) && r in s.db.runs && Agreed(View(s, r)) && Terminal(s.db.runs[r].status)
    ensures r in After(s, es).db.runs && SameResult(s.db.runs[r], After(s, es).db.runs[r])
    ensures After(s, es).db.runs[r].logPath in {None, s.db.runs[r].logPath}
  {
    AgreedHasLastWord(View(s, r));
    LastWordAlong(s, es, r);
  }

  // ---- Who can still speak ----

  /** Statements a worker at this stage has still to send before its last. */
  function Remaining(stage: Stage): nat {
    match stage
    case Executing => 2
    case Reporting(_, _) => 1
    case _ => 0
  }

  function Ending(t: nat, stage: Stage): Event {
    match stage
    case Executing => StatLog(t, Exited(0))
    case Reporting(_, _) => FinishFirst(t, true)
    case Finishing(_, _) => FinishSecond(t, true)
    case _ => FailSecond(t, true)
  }

  /** All that is left to send is the second statement of a retry. */
  predicate EndsRetry(k: Token) {
    k.stage in {Retrying, GivingUp} && k.snapshot < k.maxAttempts
  }

  /** A worker that holds a run, whatever it has reported so far, can still write its row; and
      unless it is at the end of a retry, it can end the run. */
  lemma {:induction false} HolderSpeaks(s: State, t: nat) returns (es: seq<Event>)
    requires t in s.tokens && s.tokens[t].run in s.db.runs
    ensures Valid(s, es) && s.tokens[t].run in After(s, es).db.runs
    ensures var run := After(s, es).db.runs[s.tokens[t].run];
            if EndsRetry(s.tokens[t]) then run.status == RunPending
            else Terminal(run.status) && run.finishedAt == Some(s.db.now)
    decreases Remaining(s.tokens[t].stage)
  {
    var e := Ending(t, s.tokens[t].stage);
    if Remaining(s.tokens[t].stage) == 0 {
      es := [e];
      OneStep(s, e);
    } else {
      var rest := HolderSpeaks(Next(s, e), t);
      es := [e] + rest;
      assert es[1..] == rest;
    }
  }

  lemma HolderChangesResult(s: State, r: RunId, t: nat) returns (es: seq<Event>)
    requires r in s.db.runs && Terminal(s.db.runs[r].status) && Holds(s, t, r)
    ensures Valid(s, es) && r in After(s, es).db.runs && !SameResult(s.db.runs[r], After(s, es).db.runs[r])
  {
    var finished := s.db.runs[r].finishedAt;
    var tick := Tick(if finished != None && finished.value >= s.db.now then finished.value + 1 else s.db.now + 1);
    var rest := HolderSpeaks(Next(s, tick), t);
    es := [tick] + rest;
    assert es[1..] == rest;
  }

  // ---- The result of an ended run ----

  /** Whatever happens, a client that has read the result reads the same again. */
  ghost predicate Permanent(s: State, r: RunId)
    requires r in s.db.runs
  {
    forall es | Valid(s, es) :: r in After(s, es).db.runs && SameResult(s.db.runs[r], After(s, es).db.runs[r])
  }

  /** The status, exit code and finish time of an ended run are final exactly if no worker holds
      the run and its job is gone, done, failed, or running with its attempts used up. */
  lemma PermanentExactly(s: State, r: RunId)
    requires Consistent(s) && r in s.db.runs && Terminal(s.db.runs[r].status)
    ensures Permanent(s, r) <==> TokensOf(s, r) == map[] && (r in s.db.jobs ==> AtItsEnd(s.db.jobs[r]))
  {
    var l := View(s, r);
    if LastWordSaid(l) {
      forall es | Valid(s, es)
        ensures r in After(s, es).db.runs && SameResult(s.db.runs[r], After(s, es).db.runs[r])
      {
        LastWordAlong(s, es, r);
      }
    } else if t :| t in l.tokens {
      var es := HolderChangesResult(s, r, t);
      assert !Permanent(s, r);
    } else {
      var es, t := LiveIsReached(s, r);
      assert !Permanent(s, r);
    }
  }

  // ---- Whether a run can still end ----

  predicate CanEnd(l: Local) {
    || (exists t :: t in l.tokens && !EndsRetry(l.tokens[t]))
    || (l.job.Some? && !AtItsEnd(l.job.value))
  }

  lemma CannotEndByStep(l: Local, a: Action)
    requires !CanEnd(l) && !Terminal(l.run.status) && Possible(l, a)
    ensures !CanEnd(Do(l, a)) && !Terminal(Do(l, a).run.status)
  {
  }

  lemma {:induction false} CannotEndAlong(s: State, es: seq<Event>, r: RunId)
    requires Valid(s, es) && r in s.db.runs && !CanEnd(View(s, r)) && !Terminal(s.db.runs[r].status)
    ensures r in After(s, es).db.runs && !Terminal(After(s, es).db.runs[r].status)
    decreases |es|
  {
    if es != [] {
      StepProjects(s, es[0], r);
      CannotEndByStep(View(s, r), Label(s, es[0], r));
      CannotEndAlong(Next(s, es[0]), es[1..], r);
    }
  }

  lemma CanEndEnds(s: State, r: RunId) returns (es: seq<Event>)
    requires Consistent(s) && r in s.db.runs && CanEnd(View(s, r))
    ensures Valid(s, es) && r in After(s, es).db.runs && Terminal(After(s, es).db.runs[r].status)
  {
    if t :| t in s.tokens && s.tokens[t].run == r && !EndsRetry(s.tokens[t]) {
      es := HolderSpeaks(s, t);
    } else {
      var first, t := LiveIsReached(s, r);
      var rest := HolderSpeaks(After(s, first), t);
      TracesJoin(s, first, rest);
      es := first + rest;
    }
  }

  ghost predicate NeverEnds(s: State, r: RunId) {
    forall es | Valid(s, es) :: r in After(s, es).db.runs && !Terminal(After(s, es).db.runs[r].status)
  }

  /** A run that has not ended never will, exactly if its job is gone, done, failed, or running
      with its attempts used up, and no worker is left but at the end of a retry. */
  lemma NeverEndsExactly(s: State, r: RunId)
    requires Consistent(s) && r in s.db.runs && !Terminal(s.db.runs[r].status)
    ensures NeverEnds(s, r) <==>
              && (r in s.db.jobs ==> AtItsEnd(s.db.jobs[r]))
              && forall t | t in TokensOf(s, r) :: EndsRetry(TokensOf(s, r)[t])
  {
    if CanEnd(View(s, r)) {
      var es := CanEndEnds(s, r);
      assert !NeverEnds(s, r);
    } else {
      forall es | Valid(s, es)
        ensures r in After(s, es).db.runs && !Terminal(After(s, es).db.runs[r].status)
      {
        CannotEndAlong(s, es, r);
      }
    }
  }
}
