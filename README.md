# Patch store and SQL dialect of AutoPatch, modelled in Dafny

This project models three classes of AutoPatch's JDBC layer:

- `PatchTable` is the store that keeps, for each named system, a patch level and an advisory
  lock. It keeps them in a `patches` table and records runs in a `patch_runs` table.
- `DatabaseType` is the SQL-dialect template set that `PatchTable` takes its statements from.
- `TestPatchTable` is the in-memory patch store the tests use.

The modules are:

- `DatabaseTypes` (`database_type.dfy`): the thirteen required keys and key-set validation,
  including the copied-list `removeAll` loop. It also holds the two-layer lookup, in which a
  `"<type>.<key>"` override beats the bundle value, and the multi-statement flag, which defaults
  to false. Loading a bundle through the class loader is replaced by a map from type name to what
  the loader finds.
- `PatchDatabase` (`patch_database.dfy`): the database behind a `PatchTable`. Instead of JDBC it
  holds:
  - whether a connection can be obtained;
  - which dialect keys fail for a reason other than a missing table;
  - one bit per table;
  - the map from system name to (level, lock);
  - the run history;
  - the log of prepared statements;
  - a commit counter.

  The class `Database` is the connection source: `GetConnection`, `Execute`, `Commit`.
- `PatchStoreSpec` (`patch_store_spec.dfy`): one function per `PatchTable` operation. Each gives
  the result, the two cached existence flags and the database afterwards, as a function of the
  flags and the database before the call. The protocol lemmas are proved about these functions.
- `PatchTables` (`patch_table.dfy`): the class `PatchTable`. Its two flags are mutable fields and
  its methods follow the Java control flow statement by statement. Each method is proved to leave
  the result, the flags and the database exactly as its `PatchStoreSpec` function says.
- `TestPatchTables` (`test_patch_table.dfy`): the class `TestPatchTable`. Its `LinkedHashSet` is a
  duplicate-free sequence in insertion order. The rollback loop is proved to remove exactly the
  levels in (target, old level].

Some behaviour of the code differs from what its names, javadoc or messages suggest. The model
keeps the code's behaviour in each case:

- A failed validation does not list the missing keys in its message, although the extra-keys
  message at `DatabaseType.java:140-143` does list its keys. The model builds the message as the
  code does and carries the missing keys separately in the error value. See Findings.
- `unlockPatchStore` followed by `lockPatchStore` is not guaranteed to succeed. It is only
  guaranteed not to be refused as already locked, because the lock UPDATE can still fail.
- `lockPatchStore` bootstraps only the tables, not the system's record. For a system without a
  record its UPDATE touches no row, so `isPatchStoreLocked` still answers false afterwards
  (`LockWithoutRecordHoldsNothing`).
- The in-memory `isPatchApplied` answers `level > patchLevel` rather than looking in the set that
  `getPatchesApplied` returns (`IsPatchAppliedIsUpwardClosed`). It is modelled as written.
- A validated dialect bundle cannot hold the `run.check`, `patch_runs.create`, `run.create` or
  `run.update` keys that `PatchTable` asks for at `PatchTable.java:120`, `128`, `266` and `294`.
  So the bootstrap of `patch_runs` can only succeed when `migration.properties` overrides them
  (`BootstrapNeedsRunTableOverrides`).

## Model

Paths are relative to the repository root. `PatchTable.java` and `DatabaseType.java` are under
`src/main/java/com/tacitknowledge/util/migration/jdbc/`, and `TestPatchTable.java` under
`src/test/java/com/tacitknowledge/util/migration/jdbc/`. The table cells carry the full paths.

| member | source | states |
|---|---|---|
| DatabaseTypes.DatabaseType.GetProperty | src/main/java/com/tacitknowledge/util/migration/jdbc/DatabaseType.java:210-224 | an override under `type + "." + key` wins; without one the result is present exactly when the bundle has the key, and then it is the bundle value |
| DatabaseTypes.DatabaseType.IsMultipleStatementsSupported | src/main/java/com/tacitknowledge/util/migration/jdbc/DatabaseType.java:233-238 | true exactly when the looked-up value exists and equals "true" ignoring case (`Boolean.valueOf`) |
| DatabaseTypes.Missing | src/main/java/com/tacitknowledge/util/migration/jdbc/DatabaseType.java:147 | the constants left after `removeAll` are exactly those not among the loaded keys |
| DatabaseTypes.RemoveAll | src/main/java/com/tacitknowledge/util/migration/jdbc/DatabaseType.java:133-147 | the loop over the copied constant list yields `Missing(constants, loaded)`, in the constants' order |
| DatabaseTypes.ValidatePropertiesSet | src/main/java/com/tacitknowledge/util/migration/jdbc/DatabaseType.java:130-154 | passes iff the key set equals the 13 constants; the extra-key error fires iff some key is not a constant (checked first) and names exactly the extra keys; otherwise the missing-key error carries exactly the missing constants, with the message as the code builds it, which omits them |
| DatabaseTypes.Load | src/main/java/com/tacitknowledge/util/migration/jdbc/DatabaseType.java:105-125 | a bundle not found or not readable is an error naming the file; an unreadable or absent migration.properties leaves the override layer empty; success iff the bundle's keys are exactly the constants, and then the type name, bundle and overrides are those loaded; a validation failure is passed on as `ValidatePropertiesSet` reports it |
| DatabaseTypes.RequiredKeysResolve | src/main/java/com/tacitknowledge/util/migration/jdbc/DatabaseType.java:92-98 | after validation every required key resolves to a template |
| DatabaseTypes.OverrideFlipsMultipleStatements | src/main/java/com/tacitknowledge/util/migration/jdbc/DatabaseType.java:214-216 | an override of "false" turns off a bundle value of "true" that would otherwise hold |
| DatabaseTypes.MultipleStatementsDefaultsToFalse | src/main/java/com/tacitknowledge/util/migration/jdbc/DatabaseType.java:235-237 | with the key in neither layer the flag is false |
| DatabaseTypes.ValidBundleHasMultipleStatementsKey | src/main/java/com/tacitknowledge/util/migration/jdbc/DatabaseType.java:92-98 | a validated bundle always holds supportsMultipleStatements, so the flag's "false" default is never used for a loaded type |
| DatabaseTypes.DatabaseType.GetDatabaseType | src/main/java/com/tacitknowledge/util/migration/jdbc/DatabaseType.java:199-202 | the name the type was built with; `Load` ensures it is the requested type name |
| DatabaseTypes.NotSetMessageAsWritten | src/main/java/com/tacitknowledge/util/migration/jdbc/DatabaseType.java:149-152 | the missing-keys message as the code formats it: prefix and type name only |
| DatabaseTypes.NotSetMessageAsWrittenIgnoresKeys | src/main/java/com/tacitknowledge/util/migration/jdbc/DatabaseType.java:149-152 | the message as written is the same whichever keys are missing |
| DatabaseTypes.NotSetMessage | src/main/java/com/tacitknowledge/util/migration/jdbc/DatabaseType.java:149-152 | the corrected message contains every missing key |
| PatchStoreSpec.Sql | src/main/java/com/tacitknowledge/util/migration/jdbc/PatchTable.java:318-321 | `getSql`: the dialect's lookup; for a validated dialect every required key yields SQL |
| PatchStoreSpec.CreateTrackingTable | src/main/java/com/tacitknowledge/util/migration/jdbc/PatchTable.java:398-432 | with no connection, "Unable to create a connection." wrapping the probe's cause and no change; otherwise success iff the DDL works, which creates the table and commits once; a failure is "Unable to create <table> table"; only the DDL is prepared |
| PatchStoreSpec.EnsureTable | src/main/java/com/tacitknowledge/util/migration/jdbc/PatchTable.java:92-115 | after success the table exists; a table that exists already is only probed, with no commit; nothing but the probe and the DDL is prepared; records, runs and the other table are untouched |
| PatchStoreSpec.CreatePatchStoreIfNeeded | src/main/java/com/tacitknowledge/util/migration/jdbc/PatchTable.java:82-139 | with both flags set, a no-op; flags are never reset; success sets both flags and, unless they were cached, leaves both tables existing; with both tables present nothing is committed; every failure is a MigrationException; records and runs untouched |
| PatchStoreSpec.BootstrapKeepsPatchesTable | src/main/java/com/tacitknowledge/util/migration/jdbc/PatchTable.java:96-106 | an existing patches table is never created again |
| PatchStoreSpec.BootstrapKeepsRunsTable | src/main/java/com/tacitknowledge/util/migration/jdbc/PatchTable.java:119-129 | an existing patch_runs table is never created again |
| PatchStoreSpec.BootstrapPreparesOnlyProbesAndDdl | src/main/java/com/tacitknowledge/util/migration/jdbc/PatchTable.java:82-139 | the bootstrap prepares only the two probes and the two CREATE statements |
| PatchStoreSpec.PatchesCreateFailureIsReported | src/main/java/com/tacitknowledge/util/migration/jdbc/PatchTable.java:102-106 | when the probe and the CREATE both fail, the CREATE's failure is reported and the flags stay unset |
| PatchStoreSpec.CreateSystemPatchRecord | src/main/java/com/tacitknowledge/util/migration/jdbc/PatchTable.java:329-349 | succeeds iff connected and the insert works; then the record is (0, "F") and one commit is made; the cause is handed back unwrapped |
| PatchStoreSpec.ReadOrCreateLevel | src/main/java/com/tacitknowledge/util/migration/jdbc/PatchTable.java:150-172 | an existing record's level is returned with nothing written; a missing record is inserted at 0 and 0 is returned; exactly the read, or the read and the insert, are prepared |
| PatchStoreSpec.GetPatchLevel | src/main/java/com/tacitknowledge/util/migration/jdbc/PatchTable.java:142-177 | success returns the stored level (0 with a fresh (0, "F") record when there was none), sets both flags and leaves the level readable; failures are "Unable to get patch level" or the bootstrap's, with records unchanged |
| PatchStoreSpec.GetPatchLevelInsertsOnlyWhenMissing | src/main/java/com/tacitknowledge/util/migration/jdbc/PatchTable.java:155-167 | level.create is prepared iff the system had no record |
| PatchStoreSpec.GetPatchLevelIsStable | src/main/java/com/tacitknowledge/util/migration/jdbc/PatchTable.java:155-158 | a second getPatchLevel returns the same level, writes no record and commits nothing |
| PatchStoreSpec.GetPatchLevelCreatesNoExistingTable | src/main/java/com/tacitknowledge/util/migration/jdbc/PatchTable.java:142-144 | on a database with both tables getPatchLevel prepares no CREATE |
| PatchStoreSpec.SecondSystemGetsOwnRecord | src/main/java/com/tacitknowledge/util/migration/jdbc/PatchTable.java:165-167 | a second system on a bootstrapped database gets its own level-0 record, the first record untouched, with no CREATE |
| PatchStoreSpec.SecondSystemReusesTables | src/main/java/com/tacitknowledge/util/migration/jdbc/PatchTable.java:82-139 | a second system's first bootstrap creates neither shared table and commits nothing |
| PatchStoreSpec.Write | src/main/java/com/tacitknowledge/util/migration/jdbc/PatchTable.java:186-199 | the connect, execute and commit shape: success iff connected and the statement works, then its effect plus one commit; otherwise the given message wrapping the cause, nothing written |
| PatchStoreSpec.UpdatePatchLevel | src/main/java/com/tacitknowledge/util/migration/jdbc/PatchTable.java:180-204 | flags are never reset and are set on success; every failure is a MigrationException; runs untouched |
| PatchStoreSpec.UpdatePatchLevelSetsLevel | src/main/java/com/tacitknowledge/util/migration/jdbc/PatchTable.java:180-195 | on success the system's record is (n, previous lock or "F"), a commit was made and the level is readable |
| PatchStoreSpec.UpdateThenGetReturnsLevel | src/main/java/com/tacitknowledge/util/migration/jdbc/PatchTable.java:180-195 | after updatePatchLevel(n) succeeds, getPatchLevel returns n |
| PatchStoreSpec.UpdateAcceptsAnyLevel | src/main/java/com/tacitknowledge/util/migration/jdbc/PatchTable.java:189-193 | whether the update succeeds does not depend on the level written, so lower levels are accepted |
| PatchStoreSpec.IsPatchStoreLocked | src/main/java/com/tacitknowledge/util/migration/jdbc/PatchTable.java:207-237 | true iff the system's row exists and its lock is "T"; a missing row is false; no record is written; failures are "Unable to determine if table is locked" or the bootstrap's |
| PatchStoreSpec.UpdatePatchLock | src/main/java/com/tacitknowledge/util/migration/jdbc/PatchTable.java:361-387 | success iff connected and the lock UPDATE works; then the lock column (only of an existing row) is set and one commit is made; failure "Unable to update patch lock to true/false", nothing written |
| PatchStoreSpec.LockPatchStore | src/main/java/com/tacitknowledge/util/migration/jdbc/PatchTable.java:241-248 | when already locked, IllegalStateException with nothing written; success only when not locked, setting the lock and committing; other failures are MigrationExceptions |
| PatchStoreSpec.UnlockPatchStore | src/main/java/com/tacitknowledge/util/migration/jdbc/PatchTable.java:251-254 | no bootstrap and no check: flags untouched; success iff the release works, clearing the lock and committing |
| PatchStoreSpec.SecondLockIsRefused | src/main/java/com/tacitknowledge/util/migration/jdbc/PatchTable.java:241-247 | after a successful lock of a system with a record, a second lock is refused without writing or committing |
| PatchStoreSpec.LockAfterUnlockIsNotRefused | src/main/java/com/tacitknowledge/util/migration/jdbc/PatchTable.java:241-254 | after a successful unlock, lock is not refused as already locked |
| PatchStoreSpec.LockWithoutRecordHoldsNothing | src/main/java/com/tacitknowledge/util/migration/jdbc/PatchTable.java:361-387 | locking a system without a record succeeds but writes no row, and the store still reads as unlocked |
| PatchStoreSpec.RecordPatchStart | src/main/java/com/tacitknowledge/util/migration/jdbc/PatchTable.java:257-281 | success appends one unfinished run (system, database, level, task) and commits; failure leaves the runs as they were; records untouched |
| PatchStoreSpec.RecordPatchStop | src/main/java/com/tacitknowledge/util/migration/jdbc/PatchTable.java:285-307 | success marks finished exactly the runs of (system, database, level) and commits; failure leaves the runs as they were; records untouched |
| PatchStoreSpec.RunTableKeysOnlyFromOverrides | src/main/java/com/tacitknowledge/util/migration/jdbc/PatchTable.java:118-128 | for a validated dialect, run.check, patch_runs.create, run.create and run.update resolve only through an override, else to null |
| PatchStoreSpec.BootstrapNeedsRunTableOverrides | src/main/java/com/tacitknowledge/util/migration/jdbc/PatchTable.java:117-138 | without overrides for run.check and patch_runs.create the bootstrap always fails |
| PatchStoreSpec.BootstrapFailsOnExistingRunsTableWithoutProbe | src/main/java/com/tacitknowledge/util/migration/jdbc/PatchTable.java:117-129 | without a run.check override the bootstrap fails even when patch_runs exists |
| PatchTables.PatchTable.Init | src/main/java/com/tacitknowledge/util/migration/jdbc/PatchTable.java:71-79 | keeps the context and connection source; both flags start false |
| PatchTables.PatchTable.Create | src/main/java/com/tacitknowledge/util/migration/jdbc/PatchTable.java:71-79 | fails with "The JDBC database type is required" iff the context has no database type; otherwise a fresh table with both flags false |
| PatchTables.PatchTable.CreatePatchStoreIfNeeded | src/main/java/com/tacitknowledge/util/migration/jdbc/PatchTable.java:82-139 | result, flags and database are those of `PatchStoreSpec.CreatePatchStoreIfNeeded` |
| PatchTables.PatchTable.ProbeOrCreate | src/main/java/com/tacitknowledge/util/migration/jdbc/PatchTable.java:92-115 | result and database are those of `PatchStoreSpec.EnsureTable` |
| PatchTables.PatchTable.CreateTrackingTable | src/main/java/com/tacitknowledge/util/migration/jdbc/PatchTable.java:398-432 | result and database are those of `PatchStoreSpec.CreateTrackingTable` |
| PatchTables.PatchTable.GetPatchLevel | src/main/java/com/tacitknowledge/util/migration/jdbc/PatchTable.java:142-177 | result, flags and database are those of `PatchStoreSpec.GetPatchLevel` |
| PatchTables.PatchTable.CreateSystemPatchRecord | src/main/java/com/tacitknowledge/util/migration/jdbc/PatchTable.java:329-349 | error and database are those of `PatchStoreSpec.CreateSystemPatchRecord` |
| PatchTables.PatchTable.UpdatePatchLevel | src/main/java/com/tacitknowledge/util/migration/jdbc/PatchTable.java:180-204 | result, flags and database are those of `PatchStoreSpec.UpdatePatchLevel` |
| PatchTables.PatchTable.IsPatchStoreLocked | src/main/java/com/tacitknowledge/util/migration/jdbc/PatchTable.java:207-237 | result, flags and database are those of `PatchStoreSpec.IsPatchStoreLocked` |
| PatchTables.PatchTable.LockPatchStore | src/main/java/com/tacitknowledge/util/migration/jdbc/PatchTable.java:241-248 | result, flags and database are those of `PatchStoreSpec.LockPatchStore` |
| PatchTables.PatchTable.UnlockPatchStore | src/main/java/com/tacitknowledge/util/migration/jdbc/PatchTable.java:251-254 | result and database are those of `PatchStoreSpec.UnlockPatchStore`; the flags are not touched |
| PatchTables.PatchTable.UpdatePatchLock | src/main/java/com/tacitknowledge/util/migration/jdbc/PatchTable.java:361-387 | result and database are those of `PatchStoreSpec.UpdatePatchLock` |
| PatchTables.PatchTable.RecordPatchStart | src/main/java/com/tacitknowledge/util/migration/jdbc/PatchTable.java:257-281 | result, flags and database are those of `PatchStoreSpec.RecordPatchStart` |
| PatchTables.PatchTable.RecordPatchStop | src/main/java/com/tacitknowledge/util/migration/jdbc/PatchTable.java:285-307 | result, flags and database are those of `PatchStoreSpec.RecordPatchStop` |
| TestPatchTables.Added | src/test/java/com/tacitknowledge/util/migration/jdbc/TestPatchTable.java:30 | `LinkedHashSet.add`: members are the old ones plus the level; a new level goes at the end, an existing one changes nothing; no duplicates arise |
| TestPatchTables.Removed | src/test/java/com/tacitknowledge/util/migration/jdbc/TestPatchTable.java:57-59 | `LinkedHashSet.remove`: members are the old ones but the level; removing an absent level changes nothing; no duplicates arise |
| TestPatchTables.DropRange | src/test/java/com/tacitknowledge/util/migration/jdbc/TestPatchTable.java:55-62 | exactly the members outside (lo, hi] remain; nothing is removed when hi <= lo; no duplicates arise |
| TestPatchTables.DropRangeStep | src/test/java/com/tacitknowledge/util/migration/jdbc/TestPatchTable.java:56-60 | one more loop iteration (removing `level`) widens the dropped range by one |
| TestPatchTables.DropRangeDistributes | src/test/java/com/tacitknowledge/util/migration/jdbc/TestPatchTable.java:55-62 | the rollback filters element by element, so surviving levels keep their insertion order |
| TestPatchTables.TestPatchTable.constructor | src/test/java/com/tacitknowledge/util/migration/jdbc/TestPatchTable.java:15-21 | a fresh store is at level 0, unlocked, with an empty applied set |
| TestPatchTables.TestPatchTable.GetPatchLevel | src/test/java/com/tacitknowledge/util/migration/jdbc/TestPatchTable.java:24-26 | the current level; the constructor and the update and rollback methods state what it is after each |
| TestPatchTables.TestPatchTable.IsPatchStoreLocked | src/test/java/com/tacitknowledge/util/migration/jdbc/TestPatchTable.java:35-37 | the lock flag; the constructor and the lock and unlock methods state what it is after each |
| TestPatchTables.TestPatchTable.IsPatchApplied | src/test/java/com/tacitknowledge/util/migration/jdbc/TestPatchTable.java:50-52 | `level > patchLevel`, as written |
| TestPatchTables.IsPatchAppliedIsUpwardClosed | src/test/java/com/tacitknowledge/util/migration/jdbc/TestPatchTable.java:50-52 | the answer is upward closed in the level and false for the current level, so it is not membership in the applied set |
| TestPatchTables.TestPatchTable.GetPatchesApplied | src/test/java/com/tacitknowledge/util/migration/jdbc/TestPatchTable.java:65-67 | the applied levels in insertion order (by value; see Left out) |
| TestPatchTables.TestPatchTable.UpdatePatchLevel | src/test/java/com/tacitknowledge/util/migration/jdbc/TestPatchTable.java:29-32 | the level becomes n, n is added to the applied set, the lock is unchanged, and `isPatchApplied(n)` is then false |
| TestPatchTables.TestPatchTable.LockPatchStore | src/test/java/com/tacitknowledge/util/migration/jdbc/TestPatchTable.java:40-42 | sets the flag with no check, so a second lock does not fail; level and set unchanged |
| TestPatchTables.TestPatchTable.UnlockPatchStore | src/test/java/com/tacitknowledge/util/migration/jdbc/TestPatchTable.java:45-47 | clears the flag; level and set unchanged |
| TestPatchTables.TestPatchTable.UpdatePatchLevelAfterRollBack | src/test/java/com/tacitknowledge/util/migration/jdbc/TestPatchTable.java:55-62 | the loop terminates; the level becomes the target; the applied set loses exactly the levels in (target, old level], in order, and is unchanged when the target is not below the old level |

## Left out

- JDBC mechanics are not modelled: `Connection`, `PreparedStatement`, `ResultSet`, parameter binding and closing them in `finally`. Each statement either succeeds with its documented effect or raises an `SQLException`.
- The SQL text is not modelled. Each statement's effect is assumed from its key's name and from how `PatchTable` uses it: `lock.obtain` sets the lock column to "T" on an existing row, `run.create` appends an unfinished run, `run.update` marks the runs of (system, database, level) finished, and so on. The shown source does not document these effects (the `run.*` and `patch_runs.create` keys are documented nowhere), and the dialects' SQL is not checked against them.
- A missing (null) template is modelled as an `SQLException` at prepare time. A driver that raised another exception for a null SQL string would reach the "Unexpected exception while creating patch store." branch (`PatchTable.java:108-111` and `131-134`), which the model does not have.
- Whether a connection can be obtained (`DbState.online`) and which statements fail for reasons other than a missing table (`DbState.failing`) are fixed for the database's whole life: no operation changes them. A `getConnection` that fails on one call and succeeds on another is not modelled. So the lemmas that chain two calls (`GetPatchLevelIsStable`, `UpdateThenGetReturnsLevel`, `SecondLockIsRefused`, `LockWithoutRecordHoldsNothing`, `LockAfterUnlockIsNotRefused`) rest on this: in Java the second call can still fail with a `MigrationException` when a fresh connection fails. Likewise, if the second `getConnection` of the bootstrap failed after the first succeeded, Java would hand the closed first connection to `createTrackingTable`, and the model does not capture that.
- A failing `commit()` is not modelled; commits always succeed.
- Reading properties files through the class loader and `Properties.load` are not modelled. They are replaced by a map from type name to a found bundle, and an optional migration.properties.
- Logging, including the `log.debug` of the trigger exception in `createTrackingTable`, is left out.
- Cross-process concurrency is not modelled: every operation runs alone on the database. The check-then-set in `lockPatchStore` is therefore not atomic in the source, and two processes can both pass the check. The model states only the sequential behaviour.
- Java `int` width is not modelled. Levels are unbounded integers, which does not change the rollback loop, because its counter never passes the target.
- TestPatchTables.TestPatchTable.GetPatchesApplied returns the sequence by value. In Java it returns the live `LinkedHashSet`, so a caller's later view changes with the store, and that aliasing is not modelled.
- The unused constructor parameter of `TestPatchTable` is not modelled.
- `TestPatchTable.isPatchApplied` is modelled as written, as `level > patchLevel`. Whether it was meant to test membership in the applied set is not visible from the shown callers, so no finding is claimed.
- `PatchTable` has no `isPatchApplied`, `getPatchesApplied` or rollback operation in the shown source, so the model gives it none.
- `DistributedMigrationTableUnlock`, `PatchTableFactory` and `TestPatchTableFactory` are wiring with no logic of their own and are not part of this model.
- PatchStoreSpec.UpdatePatchLevel states its effect on the record in the separate lemma `UpdatePatchLevelSetsLevel`, not in its own contract.

## Findings

| source | as written | input that shows it | evidently intended | confidence | as-written member | corrected member |
|---|---|---|---|---|---|---|
| src/main/java/com/tacitknowledge/util/migration/jdbc/DatabaseType.java:149-152 | the format string `"Properties not set in property file %s.properties: "` has a single `%s`, so `String.format` ignores the joined list of missing keys | a bundle for type `t` missing only `lock.read`, and one missing `level.read` and `level.update`: both get the message "Properties not set in property file t.properties: " | the message ends with the missing keys joined by spaces, as the extra-keys message does at lines 141-143 | high (not executed) | DatabaseTypes.NotSetMessageAsWrittenIgnoresKeys | DatabaseTypes.NotSetMessage |
