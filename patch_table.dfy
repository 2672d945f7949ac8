/**
 * PatchTable, the JDBC patch-information store: a class over a migration context and a
 * connection source, with the two existence flags as its mutable fields. Every method follows the
 * control flow of its Java counterpart and is proved to leave the result, the flags and the
 * database exactly as the matching function of PatchStoreSpec describes.
 */
module PatchTables {
  import opened Wrappers
  import opened DatabaseTypes
  import opened PatchDatabase
  import S = PatchStoreSpec

  class PatchTable {
    /** The migration configuration. */
    const context: S.Context
    /** The connections the context hands out. */
    const db: Database
    /** Set once the patches table is known to exist. */
    var tableExistenceValidated: bool
    /** Set once the patch_runs table is known to exist. */
    var runsTableExistenceValidated: bool

    function Flags(): S.Flags
      reads this
    {
      S.Flags(tableExistenceValidated, runsTableExistenceValidated)
    }

    constructor Init(ctx: S.Context, source: Database)
      requires ctx.databaseType.Some?
      ensures context == ctx && db == source
      ensures Flags() == S.Flags(false, false)
    {
      context := ctx;
      db := source;
      tableExistenceValidated := false;
      runsTableExistenceValidated := false;
    }

    /** new PatchTable(context): a context without a database type is an illegal argument. */
    static method Create(ctx: S.Context, source: Database) returns (r: Result<PatchTable, S.Failure>)
      ensures r.Err? <==> ctx.databaseType.None?
      ensures r.Err? ==> r.error == S.IllegalArgument(S.DatabaseTypeRequiredMessage)
      ensures r.Ok? ==> fresh(r.value) && r.value.context == ctx && r.value.db == source
                        && r.value.Flags() == S.Flags(false, false)
    {
      if ctx.databaseType.None? {
        return Err(S.IllegalArgument(S.DatabaseTypeRequiredMessage));
      }
      var table := new PatchTable.Init(ctx, source);
      return Ok(table);
    }

    /** createPatchStoreIfNeeded. */
    method CreatePatchStoreIfNeeded() returns (r: Result<(), S.Failure>)
      modifies this, db
      ensures S.Step(r, Flags(), db.state) == S.CreatePatchStoreIfNeeded(context, old(Flags()), old(db.state))
    {
      if tableExistenceValidated && runsTableExistenceValidated {
        return Ok(());
      }
      r := ProbeOrCreate(Patches);
      if r.Err? {
        return;
      }
      tableExistenceValidated := true;
      r := ProbeOrCreate(PatchRuns);
      if r.Err? {
        return;
      }
      runsTableExistenceValidated := true;
    }

    /** One try/catch block of createPatchStoreIfNeeded: probe the table, create it if the probe fails. */
    method ProbeOrCreate(t: Table) returns (r: Result<(), S.Failure>)
      modifies db
      ensures S.Attempt(r, db.state) == S.EnsureTable(context, old(db.state), t)
    {
      var connected := db.GetConnection();
      if !connected {
        r := CreateTrackingTable(t, false, S.ConnectionFailed);
        return;
      }
      var probe := S.Probe(context, t);
      var ok, _ := db.Execute(probe, S.Sql(context, probe.Key()));
      if ok {
        return Ok(());
      }
      r := CreateTrackingTable(t, true, S.StatementFailed(probe.Key()));
    }

    /** createTrackingTable: `connected` is false when getConnection itself failed. */
    method CreateTrackingTable(t: Table, connected: bool, trigger: S.SqlCause) returns (r: Result<(), S.Failure>)
      modifies db
      ensures S.Attempt(r, db.state) == S.CreateTrackingTable(context, old(db.state), connected, t, trigger)
    {
      if !connected {
        return Err(S.MigrationFailure(S.NoConnectionMessage, trigger));
      }
      var stmt := CreateTable(t);
      var ok, _ := db.Execute(stmt, S.Sql(context, stmt.Key()));
      if !ok {
        return Err(S.MigrationFailure(S.CreateTableMessage(t), S.StatementFailed(stmt.Key())));
      }
      db.Commit();
      return Ok(());
    }

    /** getPatchLevel. */
    method GetPatchLevel() returns (r: Result<int, S.Failure>)
      modifies this, db
      ensures S.Step(r, Flags(), db.state) == S.GetPatchLevel(context, old(Flags()), old(db.state))
    {
      var b := CreatePatchStoreIfNeeded();
      if b.Err? {
        return Err(b.error);
      }
      var connected := db.GetConnection();
      if !connected {
        return Err(S.MigrationFailure(S.GetLevelMessage, S.ConnectionFailed));
      }
      var ok, row := db.Execute(ReadLevel(context.systemName), S.Sql(context, CurrentPatchLevelStatementKey));
      if !ok {
        return Err(S.MigrationFailure(S.GetLevelMessage, S.StatementFailed(CurrentPatchLevelStatementKey)));
      }
      if row.Some? {
        return Ok(row.value.level);
      }
      var error := CreateSystemPatchRecord();
      if error.Some? {
        return Err(S.MigrationFailure(S.GetLevelMessage, error.value));
      }
      return Ok(0);
    }

    /** createSystemPatchRecord: the SQLException is handed back to getPatchLevel unwrapped. */
    method CreateSystemPatchRecord() returns (error: Option<S.SqlCause>)
      modifies db
      ensures S.SqlAttempt(error, db.state) == S.CreateSystemPatchRecord(context, old(db.state))
    {
      var connected := db.GetConnection();
      if !connected {
        return Some(S.ConnectionFailed);
      }
      var ok, _ := db.Execute(InsertLevel(context.systemName), S.Sql(context, InsertPatchStatementKey));
      if !ok {
        return Some(S.StatementFailed(InsertPatchStatementKey));
      }
      db.Commit();
      return None;
    }

    /** updatePatchLevel. */
    method UpdatePatchLevel(level: int) returns (r: Result<(), S.Failure>)
      modifies this, db
      ensures S.Step(r, Flags(), db.state) == S.UpdatePatchLevel(context, old(Flags()), old(db.state), level)
    {
      var g := GetPatchLevel();
      if g.Err? {
        return Err(g.error);
      }
      var connected := db.GetConnection();
      if !connected {
        return Err(S.MigrationFailure(S.UpdateLevelMessage, S.ConnectionFailed));
      }
      var ok, _ := db.Execute(UpdateLevel(level, context.systemName), S.Sql(context, UpdatePatchStatementKey));
      if !ok {
        return Err(S.MigrationFailure(S.UpdateLevelMessage, S.StatementFailed(UpdatePatchStatementKey)));
      }
      db.Commit();
      return Ok(());
    }

    /** isPatchStoreLocked. */
    method IsPatchStoreLocked() returns (r: Result<bool, S.Failure>)
      modifies this, db
      ensures S.Step(r, Flags(), db.state) == S.IsPatchStoreLocked(context, old(Flags()), old(db.state))
    {
      var b := CreatePatchStoreIfNeeded();
      if b.Err? {
        return Err(b.error);
      }
      var connected := db.GetConnection();
      if !connected {
        return Err(S.MigrationFailure(S.LockStatusMessage, S.ConnectionFailed));
      }
      var ok, row := db.Execute(ReadLock(context.systemName), S.Sql(context, LockStatusStatementKey));
      if !ok {
        return Err(S.MigrationFailure(S.LockStatusMessage, S.StatementFailed(LockStatusStatementKey)));
      }
      if row.Some? {
        return Ok(row.value.lock == Locked);
      }
      return Ok(false);
    }

    /** lockPatchStore. */
    method LockPatchStore() returns (r: Result<(), S.Failure>)
      modifies this, db
      ensures S.Step(r, Flags(), db.state) == S.LockPatchStore(context, old(Flags()), old(db.state))
    {
      var locked := IsPatchStoreLocked();
      if locked.Err? {
        return Err(locked.error);
      }
      if locked.value {
        return Err(S.IllegalState(S.AlreadyLockedMessage));
      }
      r := UpdatePatchLock(true);
    }

    /** unlockPatchStore. */
    method UnlockPatchStore() returns (r: Result<(), S.Failure>)
      modifies db
      ensures S.Step(r, Flags(), db.state) == S.UnlockPatchStore(context, Flags(), old(db.state))
    {
      r := UpdatePatchLock(false);
    }

    /** updatePatchLock. */
    method UpdatePatchLock(lock: bool) returns (r: Result<(), S.Failure>)
      modifies db
      ensures S.Attempt(r, db.state) == S.UpdatePatchLock(context, old(db.state), lock)
    {
      var stmt := S.LockStatement(context, lock);
      var connected := db.GetConnection();
      if !connected {
        return Err(S.MigrationFailure(S.LockUpdateMessage(lock), S.ConnectionFailed));
      }
      var ok, _ := db.Execute(stmt, S.Sql(context, stmt.Key()));
      if !ok {
        return Err(S.MigrationFailure(S.LockUpdateMessage(lock), S.StatementFailed(stmt.Key())));
      }
      db.Commit();
      return Ok(());
    }

    /** recordPatchStart. */
    method RecordPatchStart(task: S.MigrationTask) returns (r: Result<(), S.Failure>)
      modifies this, db
      ensures S.Step(r, Flags(), db.state) == S.RecordPatchStart(context, old(Flags()), old(db.state), task)
    {
      var b := CreatePatchStoreIfNeeded();
      if b.Err? {
        return Err(b.error);
      }
      var connected := db.GetConnection();
      if !connected {
        return Err(S.MigrationFailure(S.RecordStartMessage, S.ConnectionFailed));
      }
      var stmt := InsertRun(context.systemName, context.databaseName, task.level, task.name);
      var ok, _ := db.Execute(stmt, S.Sql(context, RunCreateKey));
      if !ok {
        return Err(S.MigrationFailure(S.RecordStartMessage, S.StatementFailed(RunCreateKey)));
      }
      db.Commit();
      return Ok(());
    }

    /** recordPatchStop. */
    method RecordPatchStop(task: S.MigrationTask) returns (r: Result<(), S.Failure>)
      modifies this, db
      ensures S.Step(r, Flags(), db.state) == S.RecordPatchStop(context, old(Flags()), old(db.state), task)
    {
      var b := CreatePatchStoreIfNeeded();
      if b.Err? {
        return Err(b.error);
      }
      var connected := db.GetConnection();
      if !connected {
        return Err(S.MigrationFailure(S.RecordStopMessage, S.ConnectionFailed));
      }
      var stmt := FinishRun(context.systemName, context.databaseName, task.level);
      var ok, _ := db.Execute(stmt, S.Sql(context, RunUpdateKey));
      if !ok {
        return Err(S.MigrationFailure(S.RecordStopMessage, S.StatementFailed(RunUpdateKey)));
      }
      db.Commit();
      return Ok(());
    }
  }
}
