/**
 * The database behind a PatchTable, modelled abstractly instead of through JDBC: whether the
 * patches and patch_runs tables exist, one (level, lock) record per system, the run history,
 * whether a connection can be obtained, which statements fail for reasons other than a missing
 * table, the statements prepared so far and the number of commits.
 *
 * Each statement the PatchTable issues is named by its dialect key; its effect is the one the
 * key is documented to have. A statement whose SQL the dialect does not supply (a null template)
 * fails as an SQLException would.
 */
module PatchDatabase {
  import opened Wrappers
  import opened DatabaseTypes

  /** Keys that PatchTable asks the dialect for but that are not among PARAMETER_CONSTANTS. */
  const RunCheckKey := "run.check"
  const CreateRunsTableKey := "patch_runs.create"
  const RunCreateKey := "run.create"
  const RunUpdateKey := "run.update"

  /** Values of the lock column. */
  const Locked := "T"
  const Unlocked := "F"

  /** The row of the patches table for one system. */
  datatype Record = Record(level: int, lock: string)

  /** One row of the patch_runs table. */
  datatype Run = Run(system: string, database: string, level: int, task: string, finished: bool)

  /** The two tables the patch store bootstraps. */
  datatype Table = Patches | PatchRuns {
    function Name(): string {
      if Patches? then "patches" else "patch_runs"
    }
  }

  /** The statements PatchTable prepares, with the parameters it binds. */
  datatype Statement =
    | ReadLevel(system: string)
    | CreateTable(table: Table)
    | CheckRuns
    | InsertLevel(system: string)
    | UpdateLevel(level: int, system: string)
    | ReadLock(system: string)
    | ObtainLock(system: string)
    | ReleaseLock(system: string)
    | InsertRun(system: string, database: string, level: int, task: string)
    | FinishRun(system: string, database: string, level: int)
  {
    /** The dialect key whose template holds this statement's SQL. */
    function Key(): string {
      match this
      case ReadLevel(_) => CurrentPatchLevelStatementKey
      case CreateTable(t) => if t.Patches? then CreatePatchTableStatementKey else CreateRunsTableKey
      case CheckRuns => RunCheckKey
      case InsertLevel(_) => InsertPatchStatementKey
      case UpdateLevel(_, _) => UpdatePatchStatementKey
      case ReadLock(_) => LockStatusStatementKey
      case ObtainLock(_) => LockObtainStatementKey
      case ReleaseLock(_) => LockReleaseStatementKey
      case InsertRun(_, _, _, _) => RunCreateKey
      case FinishRun(_, _, _) => RunUpdateKey
    }

    /** The table the statement reads or writes. */
    function Target(): Table {
      match this
      case CreateTable(t) => t
      case CheckRuns => PatchRuns
      case InsertRun(_, _, _, _) => PatchRuns
      case FinishRun(_, _, _) => PatchRuns
      case _ => Patches
    }
  }

  /** The state of the shared database. */
  datatype DbState = DbState(
    online: bool,
    failing: set<string>,
    patchesTable: bool,
    runsTable: bool,
    records: map<string, Record>,
    runs: seq<Run>,
    prepared: seq<Statement>,
    commits: nat)
  {
    predicate HasTable(t: Table) {
      if t.Patches? then patchesTable else runsTable
    }
  }

  /** Whether the statement executes without an SQLException. */
  predicate Succeeds(s: DbState, stmt: Statement, sql: Option<string>) {
    && sql.Some?
    && stmt.Key() !in s.failing
    && match stmt
       case CreateTable(t) => !s.HasTable(t)
       case InsertLevel(system) => s.patchesTable && system !in s.records
       case _ => s.HasTable(stmt.Target())
  }

  /** The records with the lock column of `system` set, when its row exists (an UPDATE). */
  function SetLock(records: map<string, Record>, system: string, lock: string): (r: map<string, Record>)
    ensures r.Keys == records.Keys
    ensures system in r ==> r[system] == records[system].(lock := lock)
    ensures forall other :: other != system && other in r ==> r[other] == records[other]
  {
    if system in records then records[system := records[system].(lock := lock)] else records
  }

  /** run.update: marks every run of (system, database, level) finished. */
  function Finish(runs: seq<Run>, system: string, database: string, level: int): (r: seq<Run>)
    ensures |r| == |runs|
    ensures forall i :: 0 <= i < |runs| ==>
              r[i] == if runs[i].system == system && runs[i].database == database && runs[i].level == level
                      then runs[i].(finished := true) else runs[i]
  {
    if runs == [] then []
    else
      var run := runs[0];
      var head := if run.system == system && run.database == database && run.level == level
                  then run.(finished := true) else run;
      [head] + Finish(runs[1..], system, database, level)
  }

  /** The change a successful statement makes. */
  function Apply(s: DbState, stmt: Statement): (r: DbState)
    ensures r.online == s.online && r.failing == s.failing
    ensures r.prepared == s.prepared && r.commits == s.commits
    ensures (s.patchesTable ==> r.patchesTable) && (s.runsTable ==> r.runsTable)
  {
    match stmt
    case CreateTable(t) => if t.Patches? then s.(patchesTable := true) else s.(runsTable := true)
    case InsertLevel(system) => s.(records := s.records[system := Record(0, Unlocked)])
    case UpdateLevel(level, system) =>
      if system in s.records then s.(records := s.records[system := s.records[system].(level := level)])
      else s
    case ObtainLock(system) => s.(records := SetLock(s.records, system, Locked))
    case ReleaseLock(system) => s.(records := SetLock(s.records, system, Unlocked))
    case InsertRun(system, database, level, task) =>
      s.(runs := s.runs + [Run(system, database, level, task, false)])
    case FinishRun(system, database, level) => s.(runs := Finish(s.runs, system, database, level))
    case _ => s
  }

  /** The row a query returns for its system, if any. */
  function Row(s: DbState, stmt: Statement): Option<Record> {
    match stmt
    case ReadLevel(system) => if system in s.records then Some(s.records[system]) else None
    case ReadLock(system) => if system in s.records then Some(s.records[system]) else None
    case _ => None
  }

  /** What executing a statement reports, and the database afterwards. */
  datatype Answer = Answer(ok: bool, row: Option<Record>, db: DbState)

  /** The database only ever moves forward in these respects. */
  predicate Evolves(a: DbState, b: DbState) {
    && b.online == a.online
    && b.failing == a.failing
    && (a.patchesTable ==> b.patchesTable)
    && (a.runsTable ==> b.runsTable)
    && a.prepared <= b.prepared
    && a.commits <= b.commits
  }

  lemma EvolvesTransitive(a: DbState, b: DbState, c: DbState)
    requires Evolves(a, b) && Evolves(b, c)
    ensures Evolves(a, c)
  {
    assert a.prepared <= c.prepared by {
      assert c.prepared[..|a.prepared|] == b.prepared[..|b.prepared|][..|a.prepared|];
    }
  }

  /** The statements prepared between two states. */
  function Prepared(a: DbState, b: DbState): seq<Statement>
    requires a.prepared <= b.prepared
  {
    b.prepared[|a.prepared|..]
  }

  /** The statements prepared over two consecutive stretches are those of each, in order. */
  lemma PreparedConcat(a: DbState, b: DbState, c: DbState)
    requires a.prepared <= b.prepared <= c.prepared
    ensures a.prepared <= c.prepared
    ensures Prepared(a, c) == Prepared(a, b) + Prepared(b, c)
  {
    assert c.prepared[..|a.prepared|] == b.prepared[..|b.prepared|][..|a.prepared|];
  }

  /**
   * Prepare and execute one statement. A null template fails at prepare time, before anything is
   * recorded; otherwise the statement is recorded as prepared and succeeds or fails.
   */
  function Exec(s: DbState, stmt: Statement, sql: Option<string>): (a: Answer)
    ensures Evolves(s, a.db)
    ensures a.ok <==> Succeeds(s, stmt, sql)
    ensures a.ok ==> a.db == Apply(s, stmt).(prepared := s.prepared + [stmt])
    ensures !a.ok ==> a.db.records == s.records && a.db.runs == s.runs && a.db.commits == s.commits
                      && a.db.patchesTable == s.patchesTable && a.db.runsTable == s.runsTable
    ensures a.row == if a.ok then Row(s, stmt) else None
  {
    if sql.None? then Answer(false, None, s)
    else
      var recorded := s.(prepared := s.prepared + [stmt]);
      if Succeeds(s, stmt, sql) then Answer(true, Row(s, stmt), Apply(recorded, stmt))
      else Answer(false, None, recorded)
  }

  function Committed(s: DbState): DbState {
    s.(commits := s.commits + 1)
  }

  /** The database as the execution context exposes it: connections, statements, commit. */
  class Database {
    var state: DbState

    constructor (initial: DbState)
      ensures state == initial
    {
      state := initial;
    }

    /** context.getConnection(): succeeds exactly when the database is reachable. */
    method GetConnection() returns (ok: bool)
      ensures ok == state.online
    {
      ok := state.online;
    }

    /** prepareStatement followed by execute or executeQuery. */
    method Execute(stmt: Statement, sql: Option<string>) returns (ok: bool, row: Option<Record>)
      modifies this
      ensures Answer(ok, row, state) == Exec(old(state), stmt, sql)
    {
      var a := Exec(state, stmt, sql);
      ok, row, state := a.ok, a.row, a.db;
    }

    /** context.commit(). */
    method Commit()
      modifies this
      ensures state == Committed(old(state))
    {
      state := Committed(state);
    }
  }
}
