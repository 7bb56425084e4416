# QuantumDB's PostgreSQL migrator, modelled in Dafny

This project models the core of `PostgresqlMigrator`, the class that carries out an
expansive schema migration on PostgreSQL. It has two parts.

- **The synchronisation-trigger generator** (`installDataMapping`, module `SyncTrigger`).
  A data mapping has a source table, a target table with its identity columns, and an
  ordered column map from source column to target column. From it the generator builds:
  - the `SET` clause;
  - the aligned `INSERT` column and value lists;
  - the identity `WHERE` clauses over the `NEW.` and `OLD.` row images;
  - from these, the text of a PL/pgSQL trigger function, plus a `CREATE TRIGGER`
    statement that attaches it to the source table.

  An empty column map fails with "Cannot map 0 columns!". A target without identity
  columns fails with "Cannot update table without identity columns!". An identity column
  that no source column maps onto makes `indexOf` return -1, and the list lookup then
  fails with an index-out-of-bounds exception. All of this happens before anything is
  executed. The builders are pure functions that return either a value or the exception
  (`Result`). Lemmas state what the generated text means.
- **The orchestration** (modules `Migrator` and `MigratorProperties`). This covers
  `listDataMappings`, the two synchronise loops, the base-data loop and the phase order
  of `migrate`.
  - The database is seen through the log of actions the migrator performs on it:
    create tables, insert null objects, execute a statement, migrate a mapping's data.
  - A `World` value says which actions the database rejects with an `SQLException`,
    which data migrations are interrupted, and which hashes `RandomHasher` hands out.
  - Each Java method of the orchestration is a Dafny method. The methods that touch the
    database thread the log and the number of hashes drawn. Each method is proved equal
    to a function that specifies it:
    - `migrate` (`Migrator.Migrate`) to `MigrateTrace`, which runs its three blocks;
    - `installDataMapping` (`Migrator.InstallDataMapping`) to `InstallTrace`;
    - the two synchronise loops and the base-data loop to the recursive functions
      `SyncTrace` and `DataTrace`;
    - `expand` (`Migrator.Expand`) to one `Attempt` of creating the table set;
    - `listDataMappings` (`Migrator.ListDataMappings`), which threads no log, to
      `ListedMappings`, the table-ordered concatenation of the transitive mappings.
    `createTables` (`Migrator.CreateTableSet`) states its effect directly: one logged
    action, accepted or rejected. `removeNullObjects` (`Migrator.RemoveNullObjects`)
    leaves the effects unchanged. `execute` is the function `Migrator.Attempt`: one
    logged action that the database may reject.
  - The properties are proved about the trace functions. They cover:
    - the phase order of a run in which nothing fails;
    - the exact condition under which `migrate` succeeds;
    - how a failure cuts a run short: later phases do not run, and the log ends with
      the action that failed;
    - the exact log when a forward or a backward mapping is the first whose trigger
      cannot be generated;
    - the table-ordered concatenation that `listDataMappings` returns.

The trace functions take the clause generator as a parameter (`Migrator.Generator`), so
the orchestration properties hold for any generator. The methods pass the program's own
generator, `SyncTrigger.GenerateClauses`.

Two facts about the code's exceptions shape the model:
- `MigrationException` wraps only the cause. It carries no phase.
- Only `SQLException` is caught and wrapped. In the base-data block, `InterruptedException`
  is caught and wrapped too. The unchecked exceptions of the trigger generator
  (`IllegalArgumentException`, `IndexOutOfBoundsException`) leave `migrate` unwrapped.

## Definitions

These functions transcribe source expressions, or, for `SyncTrigger.TargetList`, give
the entry-order list of targets that the lemmas compare the source's list with.
Whatever `ensures` they carry only restates their body. What they mean is stated by the members named in the last column.

| definition | source | meaning stated by |
|---|---|---|
| `Collections.Join` | quantumdb-core/src/main/java/io/quantumdb/core/backends/postgresql/PostgresqlMigrator.java:176-177 | `Collections.ReduceJoins`, `SyncTrigger.FunctionStatementShape` |
| `Collections.Reduce` | quantumdb-core/src/main/java/io/quantumdb/core/backends/postgresql/PostgresqlMigrator.java:150 | `Collections.ReduceJoins` |
| `Collections.Get` | quantumdb-core/src/main/java/io/quantumdb/core/backends/postgresql/PostgresqlMigrator.java:154 | `SyncTrigger.NewIdItem`, `SyncTrigger.NewIdItemMeaning` |
| `Collections.Flatten` | quantumdb-core/src/main/java/io/quantumdb/core/backends/postgresql/PostgresqlMigrator.java:119-124 | `Collections.FlattenAppend`, `Collections.FlattenMembership` |
| `SyncTrigger.SourceColumnNames` | quantumdb-core/src/main/java/io/quantumdb/core/backends/postgresql/PostgresqlMigrator.java:137 | `SyncTrigger.InsertListsAligned`, `SyncTrigger.OldIdItemMeaning` |
| `SyncTrigger.TargetColumnNames` | quantumdb-core/src/main/java/io/quantumdb/core/backends/postgresql/PostgresqlMigrator.java:139-142 | `SyncTrigger.InsertListsAligned`, `SyncTrigger.FirstTargetPosition` |
| `SyncTrigger.PrefixedSourceColumnNames` | quantumdb-core/src/main/java/io/quantumdb/core/backends/postgresql/PostgresqlMigrator.java:144-146 | `SyncTrigger.InsertListsAligned` |
| `SyncTrigger.TargetList` | quantumdb-core/src/main/java/io/quantumdb/core/backends/postgresql/PostgresqlMigrator.java:176 | `SyncTrigger.InsertListsAligned`, `SyncTrigger.FunctionStatementShape` |
| `SyncTrigger.Assignments` | quantumdb-core/src/main/java/io/quantumdb/core/backends/postgresql/PostgresqlMigrator.java:149 | `SyncTrigger.SetClauseJoinsAssignments` |
| `SyncTrigger.FunctionQuery` | quantumdb-core/src/main/java/io/quantumdb/core/backends/postgresql/PostgresqlMigrator.java:164-202 | `SyncTrigger.FunctionStatementShape`, `SyncTrigger.UpsertBranchesIdentical` |
| `SyncTrigger.TriggerQuery` | quantumdb-core/src/main/java/io/quantumdb/core/backends/postgresql/PostgresqlMigrator.java:205-211 | `SyncTrigger.TriggerStatementShape` |
| `SyncTrigger.Text` | quantumdb-core/src/main/java/io/quantumdb/core/backends/postgresql/PostgresqlMigrator.java:221 | `SyncTrigger.FunctionStatementShape`, `SyncTrigger.TriggerStatementShape` |
| `Migrator.Groups` | quantumdb-core/src/main/java/io/quantumdb/core/backends/postgresql/PostgresqlMigrator.java:120-123 | `MigratorProperties.MappingsOfConcat`, `MigratorProperties.MappingsOfSingle`, `MigratorProperties.ListedMembership` |
| `Migrator.TableSet` | quantumdb-core/src/main/java/io/quantumdb/core/backends/postgresql/PostgresqlMigrator.java:78-80 | `Migrator.Expand` |
| `Migrator.Rethrow` | quantumdb-core/src/main/java/io/quantumdb/core/backends/postgresql/PostgresqlMigrator.java:51-69 | `Migrator.MigrateTrace`, `MigratorProperties.MigrationRuntimeReliable` |

## Model

| member | source | states |
|---|---|---|
| Collections.ReduceJoins | quantumdb-core/src/main/java/io/quantumdb/core/backends/postgresql/PostgresqlMigrator.java:148-151 | `reduce((l, r) -> l + sep + r)` is empty on an empty stream and otherwise equals Guava's `Joiner.on(sep).join` of the same items |
| Collections.FoldLeftJoins | quantumdb-core/src/main/java/io/quantumdb/core/backends/postgresql/PostgresqlMigrator.java:150 | a left-to-right fold with the separator, from any first element, is the join of that element followed by the rest |
| Collections.IndexOf | quantumdb-core/src/main/java/io/quantumdb/core/backends/postgresql/PostgresqlMigrator.java:154 | `List.indexOf` returns -1 exactly when the element is absent; otherwise it returns a position holding the element with no earlier occurrence |
| Collections.MapAll | quantumdb-core/src/main/java/io/quantumdb/core/backends/postgresql/PostgresqlMigrator.java:153-155 | a stream `map` whose mapper may throw succeeds exactly when every item maps, giving the images in item order; otherwise the exception is that of the first item that fails, all earlier items having mapped |
| Collections.FlattenAppend | quantumdb-core/src/main/java/io/quantumdb/core/backends/postgresql/PostgresqlMigrator.java:119-124 | appending the groups of two runs of tables with `addAll` gives the concatenation of the two results |
| Collections.FlattenMembership | quantumdb-core/src/main/java/io/quantumdb/core/backends/postgresql/PostgresqlMigrator.java:119-124 | an element is in the accumulated list exactly when it is in one of the appended groups |
| DataMappings.Lookup | quantumdb-core/src/main/java/io/quantumdb/core/backends/postgresql/PostgresqlMigrator.java:139-141 | the column map's `get` finds a target exactly when the key is present; with distinct keys it returns that key's target |
| DataMappings.SourceFor | quantumdb-core/src/main/java/io/quantumdb/core/backends/postgresql/PostgresqlMigrator.java:154 | finds a source exactly when some entry's target is the column; the source belongs to the first such entry |
| SyncTrigger.SetClause | quantumdb-core/src/main/java/io/quantumdb/core/backends/postgresql/PostgresqlMigrator.java:148-151 | the `SET` clause exists exactly when the column map is non-empty; otherwise it throws `IllegalArgumentException` "Cannot map 0 columns!" |
| SyncTrigger.NewIdItem | quantumdb-core/src/main/java/io/quantumdb/core/backends/postgresql/PostgresqlMigrator.java:154 | the new-row conjunct of an identity column exists exactly when the column is among the target column names; otherwise `indexOf` gives -1 and `get` throws index -1 out of bounds |
| SyncTrigger.OldIdItem | quantumdb-core/src/main/java/io/quantumdb/core/backends/postgresql/PostgresqlMigrator.java:159 | the same for the old-row conjunct over the source column names |
| SyncTrigger.IdClause | quantumdb-core/src/main/java/io/quantumdb/core/backends/postgresql/PostgresqlMigrator.java:153-156 | a stream of conjuncts over the identity columns succeeds exactly when there are identity columns and every conjunct can be built; no identity columns throws "Cannot update table without identity columns!" |
| SyncTrigger.NewIdClause | quantumdb-core/src/main/java/io/quantumdb/core/backends/postgresql/PostgresqlMigrator.java:153-156 | the new-row identity clause exists exactly when there are identity columns and each is among the target column names; no identity columns throws the no-identity message |
| SyncTrigger.OldIdClause | quantumdb-core/src/main/java/io/quantumdb/core/backends/postgresql/PostgresqlMigrator.java:158-161 | the old-row identity clause exists under the same condition as the new-row one, and fails with the same message when there are no identity columns |
| SyncTrigger.GenerateClauses | quantumdb-core/src/main/java/io/quantumdb/core/backends/postgresql/PostgresqlMigrator.java:148-161 | the three clauses exist exactly when the column map is non-empty, there are identity columns and each is among the target column names; an empty map throws "Cannot map 0 columns!" before the identity columns are looked at |
| SyncTrigger.IdentityConjuncts | quantumdb-core/src/main/java/io/quantumdb/core/backends/postgresql/PostgresqlMigrator.java:153-154 | one conjunct per target identity column, in identity-column order |
| SyncTrigger.InsertListsAligned | quantumdb-core/src/main/java/io/quantumdb/core/backends/postgresql/PostgresqlMigrator.java:137-146 | the target column list and the prefixed source list have the column map's length; the i-th target is the i-th entry's target; the i-th value is `NEW.` and the i-th entry's source |
| SyncTrigger.SetClauseJoinsAssignments | quantumdb-core/src/main/java/io/quantumdb/core/backends/postgresql/PostgresqlMigrator.java:148-151 | the `SET` clause exists exactly when the map is non-empty and is then the assignments joined by ", "; an empty map throws "Cannot map 0 columns!" |
| SyncTrigger.NewIdItemMeaning | quantumdb-core/src/main/java/io/quantumdb/core/backends/postgresql/PostgresqlMigrator.java:154 | the new-row conjunct of an identity column compares it with `NEW.` and the first source mapped onto it; with no such source, index -1 is out of bounds |
| SyncTrigger.OldIdItemMeaning | quantumdb-core/src/main/java/io/quantumdb/core/backends/postgresql/PostgresqlMigrator.java:159 | the same for the old-row conjunct, with `OLD.` |
| SyncTrigger.FirstTargetPosition | quantumdb-core/src/main/java/io/quantumdb/core/backends/postgresql/PostgresqlMigrator.java:139-142 | `indexOf` over the target column names finds the first entry whose target is the column, the entry whose source `SourceFor` returns |
| SyncTrigger.IdClauseMeaning | quantumdb-core/src/main/java/io/quantumdb/core/backends/postgresql/PostgresqlMigrator.java:153-161 | for a conjunct builder that behaves like the source's, the identity clause exists exactly when there are identity columns and all are mapped onto; otherwise it throws the no-identity message or index -1 out of bounds; when it exists it is the conjuncts joined by " AND " |
| SyncTrigger.IdentityClauses | quantumdb-core/src/main/java/io/quantumdb/core/backends/postgresql/PostgresqlMigrator.java:153-161 | the `NEW.` and `OLD.` identity clauses succeed under the same condition and fail with the same exception; when they succeed they are the identity conjuncts over `NEW.` and over `OLD.` joined by " AND " |
| SyncTrigger.GenerationOutcome | quantumdb-core/src/main/java/io/quantumdb/core/backends/postgresql/PostgresqlMigrator.java:148-161 | generation succeeds exactly when the map is non-empty, the target has identity columns and each is mapped onto; otherwise the first failing check in source order picks the exception; on success the clauses are the joined assignments and conjuncts |
| SyncTrigger.FunctionStatementShape | quantumdb-core/src/main/java/io/quantumdb/core/backends/postgresql/PostgresqlMigrator.java:163-202 | the function statement `installDataMapping` executes, line by line: its 38 lines, with the `SET` clause as the joined assignments, the `WHERE` clauses as the joined `NEW.` and `OLD.` identity conjuncts, and the aligned insert lists; each upsert loop exits on `found` or after the insert, and its `unique_violation` handler (the line after `EXCEPTION WHEN unique_violation THEN`) is empty, so the loop goes round again; the DELETE branch deletes by the `OLD.` conjuncts |
| SyncTrigger.UpsertBranchesIdentical | quantumdb-core/src/main/java/io/quantumdb/core/backends/postgresql/PostgresqlMigrator.java:168-195 | lines 4-16 (the INSERT branch) equal lines 18-30 (the UPDATE branch) |
| SyncTrigger.TriggerStatementShape | quantumdb-core/src/main/java/io/quantumdb/core/backends/postgresql/PostgresqlMigrator.java:204-211 | the trigger statement `installDataMapping` executes fires after insert, update or delete on the source table, for each row, only at trigger depth 0, and executes the named function |
| Migrator.SyncName | quantumdb-core/src/main/java/io/quantumdb/core/backends/postgresql/PostgresqlMigrator.java:163 | every function and trigger name starts with `sync_` |
| Migrator.Attempt | quantumdb-core/src/main/java/io/quantumdb/core/backends/postgresql/PostgresqlMigrator.java:220-226 | every action attempted is logged; it throws only an `SQLException` for itself or, for a data migration, an `InterruptedException`; it ends normally exactly when neither happens |
| Migrator.InstallTrace | quantumdb-core/src/main/java/io/quantumdb/core/backends/postgresql/PostgresqlMigrator.java:133-218 | a generation failure throws that unchecked exception with the log and hash count unchanged; otherwise two hashes are drawn and something is executed; the exception thrown explains where the log ends |
| Migrator.SyncTrace | quantumdb-core/src/main/java/io/quantumdb/core/backends/postgresql/PostgresqlMigrator.java:86-90 | the synchronise loop only extends the log; it throws only unchecked or SQL exceptions, and a rejected statement is the last one logged |
| Migrator.DataTrace | quantumdb-core/src/main/java/io/quantumdb/core/backends/postgresql/PostgresqlMigrator.java:92-96 | the base-data loop only extends the log and draws no hash; it throws only SQL or interrupted exceptions, about the last logged action |
| Migrator.ExpandTrace | quantumdb-core/src/main/java/io/quantumdb/core/backends/postgresql/PostgresqlMigrator.java:43-50 | the first block always logs something; it throws only unchecked or SQL exceptions, about the last logged action |
| Migrator.MigrateTrace | quantumdb-core/src/main/java/io/quantumdb/core/backends/postgresql/PostgresqlMigrator.java:40-70 | `migrate` throws only a `MigrationException` (wrapping an SQL or interrupted exception about the last logged action) or an unwrapped unchecked exception |
| Migrator.ListDataMappings | quantumdb-core/src/main/java/io/quantumdb/core/backends/postgresql/PostgresqlMigrator.java:114-127 | the loop with `addAll` returns the listed mappings: the table-ordered concatenation of each table's transitive mappings |
| Migrator.InstallDataMapping | quantumdb-core/src/main/java/io/quantumdb/core/backends/postgresql/PostgresqlMigrator.java:133-218 | builds the clauses, draws the two names, executes the function statement and then, unless rejected, the trigger statement, as `InstallTrace` with the program's generator |
| Migrator.Synchronize | quantumdb-core/src/main/java/io/quantumdb/core/backends/postgresql/PostgresqlMigrator.java:86-90 | the loop over the listed mappings, stopping at the first exception, is `SyncTrace` |
| Migrator.SynchronizeForwards | quantumdb-core/src/main/java/io/quantumdb/core/backends/postgresql/PostgresqlMigrator.java:86-90 | installs the forward mappings as `SyncTrace` |
| Migrator.SynchronizeBackwards | quantumdb-core/src/main/java/io/quantumdb/core/backends/postgresql/PostgresqlMigrator.java:108-112 | installs the backward mappings as `SyncTrace` |
| Migrator.MigrateBaseData | quantumdb-core/src/main/java/io/quantumdb/core/backends/postgresql/PostgresqlMigrator.java:92-96 | migrates the forward mappings' data in order, stopping at the first exception, as `DataTrace` |
| Migrator.RemoveNullObjects | quantumdb-core/src/main/java/io/quantumdb/core/backends/postgresql/PostgresqlMigrator.java:104-106 | does nothing to the database |
| Migrator.Expand | quantumdb-core/src/main/java/io/quantumdb/core/backends/postgresql/PostgresqlMigrator.java:72-84 | creates the set of the expansion's tables as one action |
| Migrator.CreateTableSet | quantumdb-core/src/main/java/io/quantumdb/core/backends/postgresql/PostgresqlMigrator.java:129-131 | creating the tables is one logged action; it ends normally exactly when the database accepts it, and otherwise throws an `SQLException` for it |
| Migrator.Migrate | quantumdb-core/src/main/java/io/quantumdb/core/backends/postgresql/PostgresqlMigrator.java:40-70 | the three blocks, each rethrowing checked exceptions as `MigrationException`, are `MigrateTrace` with the program's generator |
| MigratorProperties.MappingsOfConcat | quantumdb-core/src/main/java/io/quantumdb/core/backends/postgresql/PostgresqlMigrator.java:119-126 | listing the mappings of two runs of tables is concatenating the two listings |
| MigratorProperties.MappingsOfSingle | quantumdb-core/src/main/java/io/quantumdb/core/backends/postgresql/PostgresqlMigrator.java:120-123 | listing the mappings of one table gives exactly its transitive mappings |
| MigratorProperties.ListedMembership | quantumdb-core/src/main/java/io/quantumdb/core/backends/postgresql/PostgresqlMigrator.java:114-127 | a mapping is listed exactly when it is a transitive mapping of one of the expansion's tables |
| MigratorProperties.SyncGeneration | quantumdb-core/src/main/java/io/quantumdb/core/backends/postgresql/PostgresqlMigrator.java:86-90 | a synchronise loop that ends normally generated every mapping; an unchecked exception comes from generating some mapping, all earlier ones having generated |
| MigratorProperties.FailedGenerationExecutesNothing | quantumdb-core/src/main/java/io/quantumdb/core/backends/postgresql/PostgresqlMigrator.java:148-217 | an empty map, a target without identity columns, or an identity column nobody maps onto makes `installDataMapping` throw the matching exception with nothing executed and no hash drawn |
| MigratorProperties.InstallStatements | quantumdb-core/src/main/java/io/quantumdb/core/backends/postgresql/PostgresqlMigrator.java:213-217 | two statements when the clauses generate, none otherwise |
| MigratorProperties.InstallStatementsShape | quantumdb-core/src/main/java/io/quantumdb/core/backends/postgresql/PostgresqlMigrator.java:163-211 | the function `sync_`+hash k is created first; then the trigger `sync_`+hash k+1 on the source table, which executes that same function |
| MigratorProperties.InstallCompletes | quantumdb-core/src/main/java/io/quantumdb/core/backends/postgresql/PostgresqlMigrator.java:213-217 | with a reliable database, a mapping that generates executes the function statement, then the trigger statement, and draws two hashes |
| MigratorProperties.InstallsLength | quantumdb-core/src/main/java/io/quantumdb/core/backends/postgresql/PostgresqlMigrator.java:86-90 | installing mappings that all generate executes two statements per mapping |
| MigratorProperties.InstallsPaired | quantumdb-core/src/main/java/io/quantumdb/core/backends/postgresql/PostgresqlMigrator.java:86-90 | the i-th pair of statements installs the i-th mapping, with hashes k+2i and k+2i+1 |
| MigratorProperties.SyncCompletes | quantumdb-core/src/main/java/io/quantumdb/core/backends/postgresql/PostgresqlMigrator.java:86-90 | with a reliable database, a synchronise loop whose mappings all generate installs every one, in order, and ends normally |
| MigratorProperties.Backfills | quantumdb-core/src/main/java/io/quantumdb/core/backends/postgresql/PostgresqlMigrator.java:92-96 | one data migration per mapping, in mapping order |
| MigratorProperties.BackfillCompletes | quantumdb-core/src/main/java/io/quantumdb/core/backends/postgresql/PostgresqlMigrator.java:92-96 | with a reliable database, the base-data loop migrates every mapping in order and ends normally |
| MigratorProperties.ExpandReliable | quantumdb-core/src/main/java/io/quantumdb/core/backends/postgresql/PostgresqlMigrator.java:43-49 | with a reliable database, the first block creates the tables, inserts the null objects, then runs the forward loop |
| MigratorProperties.FirstBlockCompletes | quantumdb-core/src/main/java/io/quantumdb/core/backends/postgresql/PostgresqlMigrator.java:43-50 | with a reliable database and forward mappings that all generate, the first block creates the tables, inserts the null objects, installs every forward mapping and ends normally |
| MigratorProperties.PhaseOrder | quantumdb-core/src/main/java/io/quantumdb/core/backends/postgresql/PostgresqlMigrator.java:40-70 | with a reliable database and mappings that all generate, `migrate` logs, in order: create tables, insert null objects, install each forward mapping, migrate each forward mapping's data, nothing for null-object removal, install each backward mapping; it ends normally with two hashes per installation |
| MigratorProperties.MigrationGenerates | quantumdb-core/src/main/java/io/quantumdb/core/backends/postgresql/PostgresqlMigrator.java:40-70 | in any world, a `migrate` that ends normally generated every forward and every backward mapping |
| MigratorProperties.ReliableMigrationSucceeds | quantumdb-core/src/main/java/io/quantumdb/core/backends/postgresql/PostgresqlMigrator.java:40-70 | with a reliable database, `migrate` ends normally exactly when every forward and backward mapping generates |
| MigratorProperties.InstallTruncated | quantumdb-core/src/main/java/io/quantumdb/core/backends/postgresql/PostgresqlMigrator.java:213-217 | installing one mapping logs a prefix of what the reliable database would log, with the same hashes; the reliable run ends normally exactly when the mapping generates |
| MigratorProperties.SyncTruncated | quantumdb-core/src/main/java/io/quantumdb/core/backends/postgresql/PostgresqlMigrator.java:86-90 | a synchronise loop logs a prefix of the reliable run's log, and the two agree when it ends normally |
| MigratorProperties.BackfillTruncated | quantumdb-core/src/main/java/io/quantumdb/core/backends/postgresql/PostgresqlMigrator.java:92-96 | likewise for the base-data loop |
| MigratorProperties.ExpandTruncated | quantumdb-core/src/main/java/io/quantumdb/core/backends/postgresql/PostgresqlMigrator.java:43-53 | likewise for the first block of `migrate` |
| MigratorProperties.MigrationTruncated | quantumdb-core/src/main/java/io/quantumdb/core/backends/postgresql/PostgresqlMigrator.java:40-70 | a failure stops the later phases: the log of `migrate` is a prefix of the reliable run's log; a checked failure is the last action logged; an unchecked generator exception makes the run the same as the reliable one, whose log `ForwardGenerationFailure` and `BackwardGenerationFailure` state; when nothing fails the two runs agree |
| MigratorProperties.InstallRuntimeReliable | quantumdb-core/src/main/java/io/quantumdb/core/backends/postgresql/PostgresqlMigrator.java:148-161 | an unchecked exception from `installDataMapping` comes from generating the mapping, before anything is executed, and the reliable database gives the same run |
| MigratorProperties.SyncRuntimeReliable | quantumdb-core/src/main/java/io/quantumdb/core/backends/postgresql/PostgresqlMigrator.java:86-90 | a synchronise loop that throws an unchecked exception had every earlier action accepted: the reliable database gives the same run |
| MigratorProperties.MigrationRuntimeReliable | quantumdb-core/src/main/java/io/quantumdb/core/backends/postgresql/PostgresqlMigrator.java:40-70 | an unchecked exception passes through every catch clause of `migrate` unwrapped, and the run is the same as with the reliable database |
| MigratorProperties.SyncStopsAtFirst | quantumdb-core/src/main/java/io/quantumdb/core/backends/postgresql/PostgresqlMigrator.java:86-90 | a synchronise loop whose first mapping does not generate throws that exception with nothing logged and no hash drawn |
| MigratorProperties.SyncStopsAt | quantumdb-core/src/main/java/io/quantumdb/core/backends/postgresql/PostgresqlMigrator.java:86-90 | with a reliable database, a synchronise loop installs every mapping before the first one that does not generate, drawing two hashes each, and then throws that mapping's exception |
| MigratorProperties.ForwardGenerationFailure | quantumdb-core/src/main/java/io/quantumdb/core/backends/postgresql/PostgresqlMigrator.java:40-53 | when the i-th forward mapping is the first that does not generate, `migrate` fails: with a reliable database it logs the created tables, the null objects and the installations of the first i forward mappings, with 2i hashes, and throws the generator's exception unwrapped, so no data is migrated and no backward mapping installed; in any world an unchecked exception means exactly this run |
| MigratorProperties.BackwardGenerationFailure | quantumdb-core/src/main/java/io/quantumdb/core/backends/postgresql/PostgresqlMigrator.java:40-70 | when every forward mapping generates and the j-th backward mapping is the first that does not, `migrate` fails: with a reliable database it logs the whole first block, every forward data migration and the installations of the first j backward mappings, and throws the generator's exception unwrapped; in any world an unchecked exception means exactly this run |

## Left out

- JDBC connections, statements and try-with-resources. `backend.connect()` failing and closing a connection failing are not modelled. `execute` is one logged action that the database may reject.
- Logging (`log.info`, `log.debug`): it has no effect on the database.
- `RandomHasher.generateHash()`: its randomness is a parameter. `World.hash(k)` is the k-th hash handed out. Collisions between hashes are not modelled.
- The planner (`ExpansiveMigrationPlanner`), `Expansion`, `DataMappings.getTransitiveDataMappings`, `TableCreator`, `NullRecordCreator` and `TableDataMigrator` are not part of this model. Their results are inputs: the table ids, the null-object tables, and each table's transitive mappings as a sequence. Each of their calls is one logged action.
- The order of a Java `Set` of transitive mappings, and of the column map's entries, is taken as given by the input sequences.
- `QueryBuilder` is not part of this model. A statement is the sequence of fragments appended to it, in order. How the fragments are joined into one string is not modelled.
- The behaviour of the generated PL/pgSQL at run time: the concurrent-insert race, the `unique_violation` retry and the trigger depth guard. Only the text is modelled.
- `migrateRelationalData` is never called: its only call is commented out, and its loop body is empty.
- The `catalog.getTable` lookups that turn table ids into `Table` objects. Tables are identified by their names.
- Column transformations beyond the target column name are not modelled. The code reads only `getColumnName()`.
- The phase at which a migration failed is not part of the exception, because `MigrationException` in the code wraps only the cause.
- `World.rejects` depends only on the action, so two equal actions (a mapping listed twice and installed or migrated twice) are both accepted or both rejected. A database that fails only the second occurrence is not modelled.
