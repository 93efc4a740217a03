/** The shared database and disk that every actor updates in place. */
module SharedStore {
  import opened Rows
  import opened Statements

  class Store {
    var now: Time
    var jobs: map<RunId, Job>
    var runs: map<RunId, Run>
    var artifacts: map<ArtifactId, Artifact>
    var files: set<File>

    constructor (db: Db)
      ensures View() == db
    {
      now, jobs, runs, artifacts, files := db.now, db.jobs, db.runs, db.artifacts, db.files;
    }

    function View(): Db
      reads this
    {
      Db(now, jobs, runs, artifacts, files)
    }

    /** What the other actors, and time, do between two statements of one actor. */
    method Yield(others: Db -> Db)
      modifies this
      ensures View() == others(old(View()))
    {
      var db := others(View());
      now, jobs, runs, artifacts, files := db.now, db.jobs, db.runs, db.artifacts, db.files;
    }
  }

  /** How a transaction, or a statement outside one, comes out: it takes effect, it does not, or
      it takes effect and the caller is told of an error. */
  datatype Outcome = Commits | Aborts | CommitsUnheard

  /** A pair of statements: what happens between them and which of them reach the database. */
  datatype Pair = Pair(between: Db -> Db, first: bool, second: bool)
}
