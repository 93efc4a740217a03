/** What one run keeps under every interleaving, crash, lost write, lease overrun and late
    report. `Creation.ConsistentAlong` carries it to every reachable state of the system. */
module Unrestricted {
  import opened Rows
  import opened System
  import opened Protocol

  // ---- The invariant of one run ----

  /** Leases are set exactly while a job runs, and a failed job has used up its attempts. */
  predicate JobKept(job: Job) {
    && job.maxAttempts >= 1
    && (job.status == JobQueued ==> job.leaseUntil == None && job.leasedBy == None)
    && (job.status == JobRunning ==> job.leaseUntil != None && job.leasedBy != None)
    && (job.status == JobFailed ==> job.attempts >= job.maxAttempts + 1)
  }

  /** A worker, however late, read its attempts before some increment of the row. */
  predicate TokenKept(l: Local, k: Token) {
    && k.run == l.id
    && (l.job.Some? ==> k.maxAttempts == l.job.value.maxAttempts && k.snapshot < l.job.value.attempts)
  }

  /** The exit code column says the same as the status of a finished container, and a running run
      says since when. */
  predicate OutcomeKept(run: Run) {
    && (run.status == RunRunning ==> run.startedAt != None)
    && (run.status == RunPassed ==> run.exitCode == Some(0))
    && (run.status == RunTimeout ==> run.exitCode == None)
  }

  predicate Kept(l: Local) {
    && (l.job.Some? ==> JobKept(l.job.value))
    && (forall t | t in l.tokens :: TokenKept(l, l.tokens[t]))
    && (forall t, u | t in l.tokens && u in l.tokens && t != u :: l.tokens[t].snapshot != l.tokens[u].snapshot)
    && OutcomeKept(l.run)
  }

  predicate Fresh(l: Local) {
    && l.job.Some? && l.job.value.status == JobQueued && l.job.value.attempts == 0 && JobKept(l.job.value)
    && l.tokens == map[]
    && l.run.status == RunPending
  }

  lemma KeptByStep(l: Local, a: Action)
    requires Kept(l) && Possible(l, a)
    ensures Kept(Do(l, a))
  {
  }
}
