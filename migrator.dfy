/** The orchestration of `PostgresqlMigrator`: `migrate` runs its phases (create the
    expansion's tables, insert null objects, synchronise forwards, migrate base data,
    remove null objects, synchronise backwards) against the database, and
    `installDataMapping` executes the generated function and trigger. The database is
    seen only through the log of actions the migrator performs on it; the collaborators
    whose code is not part of this model (the planner, `TableCreator`,
    `NullRecordCreator`, `TableDataMigrator`, the transitive data mappings and
    `RandomHasher`) are inputs. */
module Migrator {
  import opened Collections
  import opened DataMappings
  import opened SyncTrigger

  /** An action the migrator performs on the database. */
  datatype Event =
    | CreateTables(tables: set<string>)        // TableCreator.create
    | InsertNullObjects(nullTables: seq<string>) // NullRecordCreator.insertNullObjects
    | Statement(query: Query)                  // execute(connection, queryBuilder)
    | MigrateData(mapping: DataMapping)        // new TableDataMigrator(backend, mapping).migrateData()

  datatype Exception =
    | SQLException(failed: Event)
    | InterruptedException(during: DataMapping)
    | Runtime(error: RuntimeException)       // unchecked, from the trigger generator
    | MigrationException(cause: Exception)

  /** How a call ends: normally, or by throwing. */
  datatype Outcome = Normal | Thrown(exception: Exception)

  /** What the database and the random hasher do: which actions the database rejects,
      which data migrations are interrupted, and the k-th hash `RandomHasher` returns. */
  datatype World = World(rejects: Event -> bool, interrupts: DataMapping -> bool, hash: nat -> string)

  /** The planner's expansion: the tables to create, the tables that get a null object,
      and the transitive data mappings of each table in each direction. */
  datatype Expansion = Expansion(
    tableIds: seq<string>,
    nullObjectTables: seq<string>,
    transitiveMappings: (string, Direction) -> seq<DataMapping>)

  /** How the clauses of a mapping's trigger function are built, or the unchecked
      exception building them throws. The program's is `SyncTrigger.GenerateClauses`,
      which the methods below use; the traces take it as a parameter, so that what is
      proved about the order of the migrator's actions holds whatever it yields. */
  type Generator = DataMapping -> Result<Clauses, RuntimeException>

  /** The migrator's effect so far: the actions performed, and how many hashes it has
      drawn from `RandomHasher`. */
  datatype Effects = Effects(log: seq<Event>, hashes: nat)

  function Last<T>(s: seq<T>): T
    requires s != []
  {
    s[|s| - 1]
  }

  /** A trigger or function name: `sync_` followed by the k-th hash. */
  function SyncName(w: World, k: nat): (name: string)
    ensures "sync_" <= name
  {
    "sync_" + w.hash(k)
  }

  /** The set of tables the expansion creates. */
  function TableSet(x: Expansion): set<string>
  {
    set id | id in x.tableIds
  }

  /** The mappings of the given tables in one direction, concatenated in table order. */
  function MappingsOf(x: Expansion, tableIds: seq<string>, direction: Direction): seq<DataMapping>
  {
    Flatten(Groups(x, tableIds, direction))
  }

  /** Each table's transitive mappings in one direction, in table order. */
  function Groups(x: Expansion, tableIds: seq<string>, direction: Direction): (r: seq<seq<DataMapping>>)
    ensures |r| == |tableIds|
    ensures forall i :: 0 <= i < |tableIds| ==> r[i] == x.transitiveMappings(tableIds[i], direction)
  {
    seq(|tableIds|, i requires 0 <= i < |tableIds| => x.transitiveMappings(tableIds[i], direction))
  }

  function ListedMappings(x: Expansion, direction: Direction): seq<DataMapping>
  {
    MappingsOf(x, x.tableIds, direction)
  }

  /** Performing one action: it is logged, and the database may reject it with an
      `SQLException`; a data migration may also be interrupted. */
  function Attempt(w: World, fx: Effects, e: Event): (r: (Effects, Outcome))
    ensures r.0 == Effects(fx.log + [e], fx.hashes)
    ensures r.1.Thrown? ==> r.1.exception == SQLException(e) ||
                            (e.MigrateData? && r.1.exception == InterruptedException(e.mapping))
    ensures r.1.Normal? <==> !w.rejects(e) && !(e.MigrateData? && w.interrupts(e.mapping))
  {
    (Effects(fx.log + [e], fx.hashes),
     if w.rejects(e) then Thrown(SQLException(e))
     else if e.MigrateData? && w.interrupts(e.mapping) then Thrown(InterruptedException(e.mapping))
     else Normal)
  }

  /** A `catch (SQLException e)` (and, for the base-data block, `InterruptedException`
      too) that rethrows as `MigrationException`; other exceptions pass through. */
  function Rethrow(out: Outcome, catchesInterrupted: bool): Outcome
  {
    match out
    case Normal => Normal
    case Thrown(e) =>
      if e.SQLException? || (catchesInterrupted && e.InterruptedException?)
      then Thrown(MigrationException(e)) else out
  }

  /** The exception explains where the log stops: a rejected action or an interrupted
      data migration is the last action performed. */
  predicate ThrownAtEnd(log: seq<Event>, ex: Exception)
  {
    match ex
    case SQLException(e) => log != [] && Last(log) == e
    case InterruptedException(m) => log != [] && Last(log) == MigrateData(m)
    case Runtime(_) => true
    case MigrationException(cause) =>
      (cause.SQLException? || cause.InterruptedException?) && ThrownAtEnd(log, cause)
  }

  // ----- The effects of each operation, as functions -----

  /** `installDataMapping`: nothing is executed when generation throws; otherwise two
      hashes are drawn and the function statement is executed, then, unless it was
      rejected, the trigger statement. */
  function InstallTrace(generate: Generator, w: World, fx: Effects, m: DataMapping): (r: (Effects, Outcome))
    ensures generate(m).Err? ==> r == (fx, Thrown(Runtime(generate(m).error)))
    ensures generate(m).Ok? ==> fx.log < r.0.log && r.0.hashes == fx.hashes + 2
    ensures r.1.Thrown? ==> r.1.exception.Runtime? || r.1.exception.SQLException?
    ensures r.1.Thrown? ==> ThrownAtEnd(r.0.log, r.1.exception)
  {
    match generate(m)
    case Err(e) => (fx, Thrown(Runtime(e)))
    case Ok(c) =>
      var functionName := SyncName(w, fx.hashes);
      var triggerName := SyncName(w, fx.hashes + 1);
      var (f1, o1) := Attempt(w, Effects(fx.log, fx.hashes + 2), Statement(FunctionStatement(m, functionName, c)));
      if o1.Thrown? then (f1, o1) else Attempt(w, f1, Statement(TriggerStatement(m, functionName, triggerName)))
  }

  /** A synchronise loop: install each mapping in turn; the first exception stops it. */
  function SyncTrace(generate: Generator, w: World, fx: Effects, ms: seq<DataMapping>): (r: (Effects, Outcome))
    ensures fx.log <= r.0.log && fx.hashes <= r.0.hashes
    ensures r.1.Thrown? ==> r.1.exception.Runtime? || r.1.exception.SQLException?
    ensures r.1.Thrown? ==> ThrownAtEnd(r.0.log, r.1.exception)
    decreases |ms|
  {
    if ms == [] then (fx, Normal)
    else
      var (f1, o1) := InstallTrace(generate, w, fx, ms[0]);
      if o1.Thrown? then (f1, o1) else SyncTrace(generate, w, f1, ms[1..])
  }

  /** The base-data loop: migrate the data of each mapping in turn; the first exception
      stops it. */
  function DataTrace(w: World, fx: Effects, ms: seq<DataMapping>): (r: (Effects, Outcome))
    ensures fx.log <= r.0.log && r.0.hashes == fx.hashes
    ensures r.1.Thrown? ==> r.1.exception.SQLException? || r.1.exception.InterruptedException?
    ensures r.1.Thrown? ==> ThrownAtEnd(r.0.log, r.1.exception)
    decreases |ms|
  {
    if ms == [] then (fx, Normal)
    else
      var (f1, o1) := Attempt(w, fx, MigrateData(ms[0]));
      if o1.Thrown? then (f1, o1) else DataTrace(w, f1, ms[1..])
  }

  /** The first block of `migrate`: create the tables, insert the null objects and
      synchronise forwards, stopping at the first exception. */
  function ExpandTrace(generate: Generator, w: World, fx: Effects, x: Expansion): (r: (Effects, Outcome))
    ensures fx.log < r.0.log && fx.hashes <= r.0.hashes
    ensures r.1.Thrown? ==> r.1.exception.Runtime? || r.1.exception.SQLException?
    ensures r.1.Thrown? ==> ThrownAtEnd(r.0.log, r.1.exception)
  {
    var (f1, o1) := Attempt(w, fx, CreateTables(TableSet(x)));
    if o1.Thrown? then (f1, o1) else
    var (f2, o2) := Attempt(w, f1, InsertNullObjects(x.nullObjectTables));
    if o2.Thrown? then (f2, o2) else
    SyncTrace(generate, w, f2, ListedMappings(x, Forwards))
  }

  /** `migrate`: three blocks, each stopping at its first exception and rethrowing it
      (checked exceptions wrapped in `MigrationException`); a block that throws ends
      the migration. */
  function MigrateTrace(generate: Generator, w: World, fx: Effects, x: Expansion): (r: (Effects, Outcome))
    ensures fx.log <= r.0.log
    ensures r.1.Thrown? ==> r.1.exception.MigrationException? || r.1.exception.Runtime?
    ensures r.1.Thrown? ==> ThrownAtEnd(r.0.log, r.1.exception)
  {
    var (f3, o3) := ExpandTrace(generate, w, fx, x);
    if o3.Thrown? then (f3, Rethrow(o3, false)) else
    var (f4, o4) := DataTrace(w, f3, ListedMappings(x, Forwards));
    if o4.Thrown? then (f4, Rethrow(o4, true)) else
    var (f5, o5) := SyncTrace(generate, w, f4, ListedMappings(x, Backwards));
    (f5, Rethrow(o5, false))
  }

  /** One turn of the synchronise loop. */
  lemma SyncStep(generate: Generator, w: World, fx: Effects, ms: seq<DataMapping>)
    requires ms != []
    ensures InstallTrace(generate, w, fx, ms[0]).1.Thrown? ==> SyncTrace(generate, w, fx, ms) == InstallTrace(generate, w, fx, ms[0])
    ensures InstallTrace(generate, w, fx, ms[0]).1.Normal? ==>
              SyncTrace(generate, w, fx, ms) == SyncTrace(generate, w, InstallTrace(generate, w, fx, ms[0]).0, ms[1..])
  {
  }

  /** One turn of the base-data loop. */
  lemma DataStep(w: World, fx: Effects, ms: seq<DataMapping>)
    requires ms != []
    ensures Attempt(w, fx, MigrateData(ms[0])).1.Thrown? ==> DataTrace(w, fx, ms) == Attempt(w, fx, MigrateData(ms[0]))
    ensures Attempt(w, fx, MigrateData(ms[0])).1.Normal? ==>
              DataTrace(w, fx, ms) == DataTrace(w, Attempt(w, fx, MigrateData(ms[0])).0, ms[1..])
  {
  }

  // ----- The operations, as methods -----

  /** `listDataMappings`: each table's transitive mappings, appended in table order. */
  method ListDataMappings(x: Expansion, direction: Direction) returns (results: seq<DataMapping>)
    ensures results == ListedMappings(x, direction)
  {
    ghost var groups := Groups(x, x.tableIds, direction);
    results := [];
    for i := 0 to |x.tableIds|
      invariant results == Flatten(groups[..i])
    {
      var mappings := x.transitiveMappings(x.tableIds[i], direction);
      assert groups[..i + 1][..i] == groups[..i];
      results := results + mappings;
    }
    assert groups[..|x.tableIds|] == groups;
  }

  /** `installDataMapping`: build the clauses (any of which may throw), draw the two
      names, then execute the function statement and the trigger statement. */
  method InstallDataMapping(w: World, fx: Effects, m: DataMapping) returns (fx': Effects, out: Outcome)
    ensures (fx', out) == InstallTrace(GenerateClauses, w, fx, m)
  {
    var setClause := SetClause(m);
    if setClause.Err? {
      assert GenerateClauses(m) == Err(setClause.error);
      return fx, Thrown(Runtime(setClause.error));
    }
    var newIdClause := NewIdClause(m);
    if newIdClause.Err? {
      assert GenerateClauses(m) == Err(newIdClause.error);
      return fx, Thrown(Runtime(newIdClause.error));
    }
    // The old-row clause walks the same identity columns through the same lookups as
    // the new-row clause, so its `orElseThrow` and its `get` cannot throw here.
    var oldIdClause := OldIdClause(m);
    assert oldIdClause.Ok?;
    var clauses := Clauses(setClause.value, newIdClause.value, oldIdClause.value);
    assert GenerateClauses(m) == Ok(clauses);
    var functionName := SyncName(w, fx.hashes);
    var functionQuery := FunctionStatement(m, functionName, clauses);
    var triggerName := SyncName(w, fx.hashes + 1);
    var triggerQuery := TriggerStatement(m, functionName, triggerName);
    fx' := Effects(fx.log, fx.hashes + 2);
    var step := Attempt(w, fx', Statement(functionQuery));
    fx', out := step.0, step.1;
    if out.Normal? {
      step := Attempt(w, fx', Statement(triggerQuery));
      fx', out := step.0, step.1;
    }
  }

  /** The loop shared by `synchronizeForwards` and `synchronizeBackwards`. */
  method Synchronize(w: World, fx: Effects, x: Expansion, direction: Direction) returns (fx': Effects, out: Outcome)
    ensures (fx', out) == SyncTrace(GenerateClauses, w, fx, ListedMappings(x, direction))
  {
    var mappings := ListDataMappings(x, direction);
    fx', out := fx, Normal;
    var i := 0;
    while i < |mappings|
      invariant 0 <= i <= |mappings|
      invariant out == Normal
      invariant SyncTrace(GenerateClauses, w, fx, mappings) == SyncTrace(GenerateClauses, w, fx', mappings[i..])
    {
      ghost var rest := mappings[i..];
      assert rest[0] == mappings[i] && rest[1..] == mappings[i + 1..];
      SyncStep(GenerateClauses, w, fx', rest);
      fx', out := InstallDataMapping(w, fx', mappings[i]);
      if out.Thrown? {
        return;
      }
      i := i + 1;
    }
    assert mappings[i..] == [];
  }

  method SynchronizeForwards(w: World, fx: Effects, x: Expansion) returns (fx': Effects, out: Outcome)
    ensures (fx', out) == SyncTrace(GenerateClauses, w, fx, ListedMappings(x, Forwards))
  {
    fx', out := Synchronize(w, fx, x, Forwards);
  }

  method SynchronizeBackwards(w: World, fx: Effects, x: Expansion) returns (fx': Effects, out: Outcome)
    ensures (fx', out) == SyncTrace(GenerateClauses, w, fx, ListedMappings(x, Backwards))
  {
    fx', out := Synchronize(w, fx, x, Backwards);
  }

  /** `migrateBaseData`: migrate the data of every forward mapping, in order. */
  method MigrateBaseData(w: World, fx: Effects, x: Expansion) returns (fx': Effects, out: Outcome)
    ensures (fx', out) == DataTrace(w, fx, ListedMappings(x, Forwards))
  {
    var mappings := ListDataMappings(x, Forwards);
    fx', out := fx, Normal;
    var i := 0;
    while i < |mappings|
      invariant 0 <= i <= |mappings|
      invariant out == Normal
      invariant DataTrace(w, fx, mappings) == DataTrace(w, fx', mappings[i..])
    {
      ghost var rest := mappings[i..];
      assert rest[0] == mappings[i] && rest[1..] == mappings[i + 1..];
      var step := Attempt(w, fx', MigrateData(mappings[i]));
      fx', out := step.0, step.1;
      if out.Thrown? {
        return;
      }
      i := i + 1;
    }
    assert mappings[i..] == [];
  }

  /** `removeNullObjects`: its body is empty, so nothing is done to the database. */
  method RemoveNullObjects(fx: Effects) returns (fx': Effects)
    ensures fx' == fx
  {
    fx' := fx;
  }

  /** `expand`: create the expansion's tables, as a set. */
  method Expand(w: World, fx: Effects, x: Expansion) returns (fx': Effects, out: Outcome)
    ensures (fx', out) == Attempt(w, fx, CreateTables(TableSet(x)))
  {
    var newTables := set id | id in x.tableIds;
    fx', out := CreateTableSet(w, fx, newTables);
  }

  /** `createTables`: `TableCreator` creates the tables in one action, which the
      database may reject. */
  method CreateTableSet(w: World, fx: Effects, tables: set<string>) returns (fx': Effects, out: Outcome)
    ensures fx' == Effects(fx.log + [CreateTables(tables)], fx.hashes)
    ensures out.Normal? <==> !w.rejects(CreateTables(tables))
    ensures out.Thrown? ==> out.exception == SQLException(CreateTables(tables))
  {
    var step := Attempt(w, fx, CreateTables(tables));
    fx', out := step.0, step.1;
  }

  /** `migrate`. */
  method Migrate(w: World, fx: Effects, x: Expansion) returns (fx': Effects, out: Outcome)
    ensures (fx', out) == MigrateTrace(GenerateClauses, w, fx, x)
  {
    // first connection: expand, insert null objects, synchronise forwards
    fx', out := Expand(w, fx, x);
    if out.Normal? {
      var step := Attempt(w, fx', InsertNullObjects(x.nullObjectTables));
      fx', out := step.0, step.1;
    }
    if out.Normal? {
      fx', out := SynchronizeForwards(w, fx', x);
    }
    if out.Thrown? {
      out := Rethrow(out, false);
      return;
    }
    // base data
    fx', out := MigrateBaseData(w, fx', x);
    if out.Thrown? {
      out := Rethrow(out, true);
      return;
    }
    // second connection: remove null objects, synchronise backwards
    fx' := RemoveNullObjects(fx');
    fx', out := SynchronizeBackwards(w, fx', x);
    out := Rethrow(out, false);
  }
}
