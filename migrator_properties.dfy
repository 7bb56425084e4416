/** Properties of the migrator's orchestration: the listed mappings are the table-ordered
    concatenation of each table's transitive mappings; when nothing fails, `migrate`
    performs its phases in source order, each installation executing the function
    before its trigger; and a failure only cuts that run short: the log of any run is a
    prefix of the log of the run in which the database accepts everything, and it ends
    with the action that failed. */
module MigratorProperties {
  import opened Collections
  import opened DataMappings
  import opened SyncTrigger
  import opened Migrator

  /** The same world, except that the database accepts every action and no data
      migration is interrupted. */
  function Reliable(w: World): World
  {
    World(_ => false, _ => false, w.hash)
  }

  /** The reliable database performs every action and lets it complete. */
  lemma ReliableAttempt(w: World, fx: Effects, e: Event)
    ensures Attempt(Reliable(w), fx, e) == (Effects(fx.log + [e], fx.hashes), Normal)
  {
  }

  // ----- listDataMappings -----

  /** Listing the mappings of two runs of tables is listing each run and concatenating. */
  lemma MappingsOfConcat(x: Expansion, a: seq<string>, b: seq<string>, direction: Direction)
    ensures MappingsOf(x, a + b, direction) == MappingsOf(x, a, direction) + MappingsOf(x, b, direction)
  {
    assert Groups(x, a + b, direction) == Groups(x, a, direction) + Groups(x, b, direction);
    FlattenAppend(Groups(x, a, direction), Groups(x, b, direction));
  }

  /** Listing the mappings of one table gives exactly its transitive mappings. */
  lemma MappingsOfSingle(x: Expansion, table: string, direction: Direction)
    ensures MappingsOf(x, [table], direction) == x.transitiveMappings(table, direction)
  {
    var g := Groups(x, [table], direction);
    assert g[..0] == [];
    assert Flatten(g) == Flatten(g[..0]) + g[0];
  }

  /** A mapping is listed exactly when it is a transitive mapping of one of the
      expansion's tables. */
  lemma ListedMembership(x: Expansion, direction: Direction, m: DataMapping)
    ensures m in ListedMappings(x, direction) <==>
              exists i :: 0 <= i < |x.tableIds| && m in x.transitiveMappings(x.tableIds[i], direction)
  {
    FlattenMembership(Groups(x, x.tableIds, direction), m);
  }

  // ----- Generation failures in a synchronise loop -----

  /** Every mapping's clauses can be generated. */
  predicate AllGenerate(generate: Generator, ms: seq<DataMapping>)
  {
    forall i :: 0 <= i < |ms| ==> generate(ms[i]).Ok?
  }

  lemma AllGenerateTail(generate: Generator, ms: seq<DataMapping>)
    requires ms != [] && AllGenerate(generate, ms)
    ensures generate(ms[0]).Ok? && AllGenerate(generate, ms[1..])
  {
    forall i | 0 <= i < |ms| - 1 ensures generate(ms[1..][i]).Ok? {
      assert ms[1..][i] == ms[i + 1];
    }
  }

  /** A synchronise loop that ends normally generated every mapping's clauses; one that
      throws an unchecked exception threw it generating some mapping's clauses, every
      earlier mapping having generated. */
  lemma {:induction false} SyncGeneration(generate: Generator, w: World, fx: Effects, ms: seq<DataMapping>)
    ensures SyncTrace(generate, w, fx, ms).1.Normal? ==> AllGenerate(generate, ms)
    ensures SyncTrace(generate, w, fx, ms).1.Thrown? && SyncTrace(generate, w, fx, ms).1.exception.Runtime? ==>
              exists i :: 0 <= i < |ms| && AllGenerate(generate, ms[..i]) &&
                          generate(ms[i]) == Err(SyncTrace(generate, w, fx, ms).1.exception.error)
    decreases |ms|
  {
    if ms != [] {
      SyncStep(generate, w, fx, ms);
      var (f1, o1) := InstallTrace(generate, w, fx, ms[0]);
      var r := SyncTrace(generate, w, fx, ms);
      if o1.Normal? {
        SyncGeneration(generate, w, f1, ms[1..]);
        assert generate(ms[0]).Ok?;
        if r.1.Normal? {
          forall i | 0 <= i < |ms| ensures generate(ms[i]).Ok? {
            if i > 0 { assert ms[i] == ms[1..][i - 1]; }
          }
        }
        if r.1.Thrown? && r.1.exception.Runtime? {
          var i :| 0 <= i < |ms[1..]| && AllGenerate(generate, ms[1..][..i]) &&
                   generate(ms[1..][i]) == Err(r.1.exception.error);
          assert ms[1..][i] == ms[i + 1];
          var before := ms[..i + 1];
          forall q | 0 <= q < |before| ensures generate(before[q]).Ok? {
            if q > 0 { assert before[q] == ms[1..][..i][q - 1]; }
          }
        }
      } else if r.1.exception.Runtime? {
        assert generate(ms[0]).Err?;
        assert AllGenerate(generate, ms[..0]);
      }
    }
  }

  /** Every check on the mapping precedes the first `execute`: when the clauses cannot
      be generated, `installDataMapping` throws the generator's exception, draws no hash
      and executes nothing. */
  lemma FailedGenerationExecutesNothing(w: World, fx: Effects, m: DataMapping)
    requires DistinctSources(m.columns)
    ensures |m.columns| == 0 ==>
              InstallTrace(GenerateClauses, w, fx, m) == (fx, Thrown(Runtime(IllegalArgumentException(NoColumnsMessage))))
    ensures |m.columns| > 0 && |m.targetIdentity| == 0 ==>
              InstallTrace(GenerateClauses, w, fx, m) == (fx, Thrown(Runtime(IllegalArgumentException(NoIdentityMessage))))
    ensures |m.columns| > 0 && |m.targetIdentity| > 0 && !CoversIdentity(m) ==>
              InstallTrace(GenerateClauses, w, fx, m) == (fx, Thrown(Runtime(IndexOutOfBoundsException(-1, |m.columns|))))
  {
    GenerationOutcome(m);
  }

  // ----- A complete run -----

  /** The two statements that install `m` with the hashes k and k + 1: none when its
      clauses cannot be generated. */
  function InstallStatements(generate: Generator, w: World, m: DataMapping, k: nat): (r: seq<Event>)
    ensures |r| == if generate(m).Ok? then 2 else 0
  {
    match generate(m)
    case Err(_) => []
    case Ok(c) =>
      [Statement(FunctionStatement(m, SyncName(w, k), c)),
       Statement(TriggerStatement(m, SyncName(w, k), SyncName(w, k + 1)))]
  }

  /** The statements that install each mapping in turn, the i-th with the hashes
      k + 2i and k + 2i + 1. */
  function InstallsFrom(generate: Generator, w: World, ms: seq<DataMapping>, k: nat): seq<Event>
    decreases |ms|
  {
    if ms == [] then [] else InstallStatements(generate, w, ms[0], k) + InstallsFrom(generate, w, ms[1..], k + 2)
  }

  lemma InstallsFromStep(generate: Generator, w: World, ms: seq<DataMapping>, k: nat)
    requires ms != []
    ensures InstallsFrom(generate, w, ms, k) == InstallStatements(generate, w, ms[0], k) + InstallsFrom(generate, w, ms[1..], k + 2)
  {
  }

  /** Installing a mapping creates the trigger function named `sync_` and the k-th
      hash, then the trigger named `sync_` and the next hash, which fires on the source
      table and executes that same function. */
  lemma InstallStatementsShape(generate: Generator, w: World, m: DataMapping, k: nat)
    requires generate(m).Ok?
    ensures var r := InstallStatements(generate, w, m, k);
      && r[0].Statement? && r[1].Statement?
      && Text(r[0].query)[0] == "CREATE FUNCTION " + SyncName(w, k) + "()"
      && Text(r[1].query)[0] == "CREATE TRIGGER " + SyncName(w, k + 1)
      && Text(r[1].query)[2] == "ON " + m.sourceTable
      && Text(r[1].query)[5] == "EXECUTE PROCEDURE " + SyncName(w, k) + "();"
  {
  }

  /** With a reliable database, installing a mapping that generates executes its two
      statements and draws two hashes. */
  lemma InstallCompletes(generate: Generator, w: World, fx: Effects, m: DataMapping)
    requires generate(m).Ok?
    ensures InstallTrace(generate, Reliable(w), fx, m) ==
              (Effects(fx.log + InstallStatements(generate, w, m, fx.hashes), fx.hashes + 2), Normal)
  {
    var rw := Reliable(w);
    var c := generate(m).value;
    assert SyncName(rw, fx.hashes) == SyncName(w, fx.hashes);
    assert SyncName(rw, fx.hashes + 1) == SyncName(w, fx.hashes + 1);
    var f := Statement(FunctionStatement(m, SyncName(w, fx.hashes), c));
    var t := Statement(TriggerStatement(m, SyncName(w, fx.hashes), SyncName(w, fx.hashes + 1)));
    assert InstallStatements(generate, w, m, fx.hashes) == [f, t];
    assert !rw.rejects(f) && !rw.rejects(t);
    assert fx.log + [f] + [t] == fx.log + [f, t];
  }

  /** Two installation statements per mapping. */
  lemma {:induction false} InstallsLength(generate: Generator, w: World, ms: seq<DataMapping>, k: nat)
    requires AllGenerate(generate, ms)
    ensures |InstallsFrom(generate, w, ms, k)| == 2 * |ms|
    decreases |ms|
  {
    if ms != [] {
      AllGenerateTail(generate, ms);
      InstallsFromStep(generate, w, ms, k);
      InstallsLength(generate, w, ms[1..], k + 2);
    }
  }

  /** The installation statements come in pairs, one per mapping in mapping order, the
      i-th pair using the hashes k + 2i and k + 2i + 1. */
  lemma {:induction false} InstallsPaired(generate: Generator, w: World, ms: seq<DataMapping>, k: nat, i: nat)
    requires AllGenerate(generate, ms)
    requires i < |ms|
    ensures |InstallsFrom(generate, w, ms, k)| == 2 * |ms|
    ensures InstallsFrom(generate, w, ms, k)[2 * i .. 2 * i + 2] == InstallStatements(generate, w, ms[i], k + 2 * i)
    decreases |ms|
  {
    InstallsLength(generate, w, ms, k);
    AllGenerateTail(generate, ms);
    InstallsFromStep(generate, w, ms, k);
    var first := InstallStatements(generate, w, ms[0], k);
    var rest := InstallsFrom(generate, w, ms[1..], k + 2);
    if i == 0 {
      SliceOfFirst(first, rest, 0, 2);
      assert first[0..2] == first;
    } else {
      InstallsPaired(generate, w, ms[1..], k + 2, i - 1);
      SliceOfSecond(first, rest, 2 * i, 2 * i + 2);
      assert ms[1..][i - 1] == ms[i];
    }
  }

  /** With a reliable database, a synchronise loop whose mappings all generate installs
      them all, drawing two hashes each. */
  lemma {:induction false} SyncCompletes(generate: Generator, w: World, fx: Effects, ms: seq<DataMapping>)
    requires AllGenerate(generate, ms)
    ensures SyncTrace(generate, Reliable(w), fx, ms) ==
              (Effects(fx.log + InstallsFrom(generate, w, ms, fx.hashes), fx.hashes + 2 * |ms|), Normal)
    decreases |ms|
  {
    var rw := Reliable(w);
    var k := fx.hashes;
    if ms == [] {
      assert fx.log + InstallsFrom(generate, w, ms, k) == fx.log;
    } else {
      AllGenerateTail(generate, ms);
      InstallCompletes(generate, w, fx, ms[0]);
      var first := InstallStatements(generate, w, ms[0], k);
      var f1 := Effects(fx.log + first, k + 2);
      SyncStep(generate, rw, fx, ms);
      SyncCompletes(generate, w, f1, ms[1..]);
      var rest := InstallsFrom(generate, w, ms[1..], k + 2);
      InstallsFromStep(generate, w, ms, k);
      assert fx.log + (first + rest) == f1.log + rest;
      assert f1.hashes + 2 * |ms[1..]| == k + 2 * |ms|;
    }
  }

  /** One data migration per mapping, in order. */
  function Backfills(ms: seq<DataMapping>): (r: seq<Event>)
    ensures |r| == |ms|
    ensures forall i :: 0 <= i < |ms| ==> r[i] == MigrateData(ms[i])
    decreases |ms|
  {
    if ms == [] then [] else [MigrateData(ms[0])] + Backfills(ms[1..])
  }

  /** With a reliable database, the base-data loop migrates every mapping in order. */
  lemma {:induction false} BackfillCompletes(w: World, fx: Effects, ms: seq<DataMapping>)
    ensures DataTrace(Reliable(w), fx, ms) == (Effects(fx.log + Backfills(ms), fx.hashes), Normal)
    decreases |ms|
  {
    var rw := Reliable(w);
    if ms == [] {
      assert fx.log + Backfills(ms) == fx.log;
    } else {
      var e := MigrateData(ms[0]);
      var f1 := Effects(fx.log + [e], fx.hashes);
      ReliableAttempt(w, fx, e);
      DataStep(rw, fx, ms);
      BackfillCompletes(w, f1, ms[1..]);
      assert fx.log + Backfills(ms) == f1.log + Backfills(ms[1..]);
    }
  }

  /** The first block of `migrate` in the reliable world: the tables are created and
      the null objects inserted, then the forward mappings are synchronised. */
  lemma ExpandReliable(generate: Generator, w: World, fx: Effects, x: Expansion)
    ensures ExpandTrace(generate, Reliable(w), fx, x) ==
              SyncTrace(generate, Reliable(w),
                        Effects(fx.log + [CreateTables(TableSet(x)), InsertNullObjects(x.nullObjectTables)], fx.hashes),
                        ListedMappings(x, Forwards))
  {
    var rw := Reliable(w);
    var c := CreateTables(TableSet(x));
    var n := InsertNullObjects(x.nullObjectTables);
    assert Attempt(rw, fx, c) == (Effects(fx.log + [c], fx.hashes), Normal);
    assert Attempt(rw, Effects(fx.log + [c], fx.hashes), n) == (Effects(fx.log + [c] + [n], fx.hashes), Normal);
    assert fx.log + [c] + [n] == fx.log + [c, n];
  }

  /** The phase order of `migrate`: with a reliable database and mappings that all
      generate, it creates the tables, inserts the null objects, installs every forward
      mapping, migrates the base data of every forward mapping, does nothing to remove
      null objects, and installs every backward mapping, and ends normally. */
  lemma PhaseOrder(generate: Generator, w: World, fx: Effects, x: Expansion)
    requires AllGenerate(generate, ListedMappings(x, Forwards)) && AllGenerate(generate, ListedMappings(x, Backwards))
    ensures MigrateTrace(generate, Reliable(w), fx, x).1 == Normal
    ensures MigrateTrace(generate, Reliable(w), fx, x).0.log ==
              fx.log
                + [CreateTables(TableSet(x)), InsertNullObjects(x.nullObjectTables)]
                + InstallsFrom(generate, w, ListedMappings(x, Forwards), fx.hashes)
                + Backfills(ListedMappings(x, Forwards))
                + InstallsFrom(generate, w, ListedMappings(x, Backwards), fx.hashes + 2 * |ListedMappings(x, Forwards)|)
    ensures MigrateTrace(generate, Reliable(w), fx, x).0.hashes ==
              fx.hashes + 2 * |ListedMappings(x, Forwards)| + 2 * |ListedMappings(x, Backwards)|
  {
    FirstBlockCompletes(generate, w, fx, x);
    var f3 := ExpandTrace(generate, Reliable(w), fx, x).0;
    BackfillCompletes(w, f3, ListedMappings(x, Forwards));
    var f4 := DataTrace(Reliable(w), f3, ListedMappings(x, Forwards)).0;
    SyncCompletesFrom(generate, w, f4, ListedMappings(x, Backwards), fx.hashes + 2 * |ListedMappings(x, Forwards)|);
    var f5 := SyncTrace(generate, Reliable(w), f4, ListedMappings(x, Backwards)).0;
    MigrateSteps(generate, Reliable(w), fx, x, f3, f4, f5);
  }

  /** `SyncCompletes` with the hash counter named. */
  lemma SyncCompletesFrom(generate: Generator, w: World, fx: Effects, ms: seq<DataMapping>, k: nat)
    requires AllGenerate(generate, ms) && fx.hashes == k
    ensures SyncTrace(generate, Reliable(w), fx, ms) ==
              (Effects(fx.log + InstallsFrom(generate, w, ms, k), k + 2 * |ms|), Normal)
  {
    SyncCompletes(generate, w, fx, ms);
  }

  /** With a reliable database, the first block of `migrate` creates the tables,
      inserts the null objects and installs every forward mapping. */
  lemma FirstBlockCompletes(generate: Generator, w: World, fx: Effects, x: Expansion)
    requires AllGenerate(generate, ListedMappings(x, Forwards))
    ensures ExpandTrace(generate, Reliable(w), fx, x) ==
              (Effects(fx.log + [CreateTables(TableSet(x)), InsertNullObjects(x.nullObjectTables)]
                         + InstallsFrom(generate, w, ListedMappings(x, Forwards), fx.hashes),
                       fx.hashes + 2 * |ListedMappings(x, Forwards)|),
               Normal)
  {
    var f2 := Effects(fx.log + [CreateTables(TableSet(x)), InsertNullObjects(x.nullObjectTables)], fx.hashes);
    ExpandReliable(generate, w, fx, x);
    SyncCompletes(generate, w, f2, ListedMappings(x, Forwards));
  }

  /** `migrate` when each of its three blocks ends normally. */
  lemma MigrateSteps(generate: Generator, w: World, fx: Effects, x: Expansion, f3: Effects, f4: Effects, f5: Effects)
    requires ExpandTrace(generate, w, fx, x) == (f3, Normal)
    requires DataTrace(w, f3, ListedMappings(x, Forwards)) == (f4, Normal)
    requires SyncTrace(generate, w, f4, ListedMappings(x, Backwards)) == (f5, Normal)
    ensures MigrateTrace(generate, w, fx, x) == (f5, Normal)
  {
  }

  /** `migrate` ends normally only if every listed mapping, forwards and backwards,
      generates; with a reliable database that is also enough. */
  lemma ReliableMigrationSucceeds(generate: Generator, w: World, fx: Effects, x: Expansion)
    ensures MigrateTrace(generate, w, fx, x).1.Normal? ==>
              AllGenerate(generate, ListedMappings(x, Forwards)) && AllGenerate(generate, ListedMappings(x, Backwards))
    ensures MigrateTrace(generate, Reliable(w), fx, x).1.Normal? <==>
              AllGenerate(generate, ListedMappings(x, Forwards)) && AllGenerate(generate, ListedMappings(x, Backwards))
  {
    MigrationGenerates(generate, w, fx, x);
    MigrationGenerates(generate, Reliable(w), fx, x);
    if AllGenerate(generate, ListedMappings(x, Forwards)) && AllGenerate(generate, ListedMappings(x, Backwards)) {
      PhaseOrder(generate, w, fx, x);
    }
  }

  lemma MigrationGenerates(generate: Generator, w: World, fx: Effects, x: Expansion)
    ensures MigrateTrace(generate, w, fx, x).1.Normal? ==>
              AllGenerate(generate, ListedMappings(x, Forwards)) && AllGenerate(generate, ListedMappings(x, Backwards))
  {
    var forwards := ListedMappings(x, Forwards);
    var backwards := ListedMappings(x, Backwards);
    var (a1, o1) := ExpandTrace(generate, w, fx, x);
    if MigrateTrace(generate, w, fx, x).1.Normal? {
      var f1 := Effects(fx.log + [CreateTables(TableSet(x))], fx.hashes);
      var f2 := Effects(f1.log + [InsertNullObjects(x.nullObjectTables)], fx.hashes);
      assert ExpandTrace(generate, w, fx, x) == SyncTrace(generate, w, f2, forwards);
      SyncGeneration(generate, w, f2, forwards);
      var (a2, o2) := DataTrace(w, a1, forwards);
      SyncGeneration(generate, w, a2, backwards);
    }
  }

  // ----- A failure cuts the run short -----

  lemma InstallTruncated(generate: Generator, w: World, fx: Effects, m: DataMapping)
    ensures InstallTrace(generate, w, fx, m).0.log <= InstallTrace(generate, Reliable(w), fx, m).0.log
    ensures InstallTrace(generate, w, fx, m).1.Normal? ==> InstallTrace(generate, w, fx, m) == InstallTrace(generate, Reliable(w), fx, m)
    ensures InstallTrace(generate, w, fx, m).0.hashes == InstallTrace(generate, Reliable(w), fx, m).0.hashes
    ensures InstallTrace(generate, Reliable(w), fx, m).1.Normal? <==> generate(m).Ok?
  {
  }

  /** A synchronise loop's log is a prefix of its log in the reliable world, and the
      two runs agree when the loop ends normally. */
  lemma {:induction false} SyncTruncated(generate: Generator, w: World, fx: Effects, ms: seq<DataMapping>)
    ensures SyncTrace(generate, w, fx, ms).0.log <= SyncTrace(generate, Reliable(w), fx, ms).0.log
    ensures SyncTrace(generate, w, fx, ms).1.Normal? ==> SyncTrace(generate, w, fx, ms) == SyncTrace(generate, Reliable(w), fx, ms)
    decreases |ms|
  {
    if ms != [] {
      InstallTruncated(generate, w, fx, ms[0]);
      var (a, oa) := InstallTrace(generate, w, fx, ms[0]);
      var (b, ob) := InstallTrace(generate, Reliable(w), fx, ms[0]);
      if oa.Normal? {
        SyncTruncated(generate, w, a, ms[1..]);
      } else if ob.Normal? {
        assert a.log <= b.log <= SyncTrace(generate, Reliable(w), b, ms[1..]).0.log;
      }
    }
  }

  /** Likewise for the base-data loop. */
  lemma {:induction false} BackfillTruncated(w: World, fx: Effects, ms: seq<DataMapping>)
    ensures DataTrace(w, fx, ms).0.log <= DataTrace(Reliable(w), fx, ms).0.log
    ensures DataTrace(w, fx, ms).1.Normal? ==> DataTrace(w, fx, ms) == DataTrace(Reliable(w), fx, ms)
    decreases |ms|
  {
    if ms != [] {
      var a := Effects(fx.log + [MigrateData(ms[0])], fx.hashes);
      if DataTrace(w, fx, ms).0 != a {
        BackfillTruncated(w, a, ms[1..]);
      } else {
        assert a.log <= DataTrace(Reliable(w), a, ms[1..]).0.log;
      }
    }
  }

  /** Likewise for the first block of `migrate`. */
  lemma ExpandTruncated(generate: Generator, w: World, fx: Effects, x: Expansion)
    ensures ExpandTrace(generate, w, fx, x).0.log <= ExpandTrace(generate, Reliable(w), fx, x).0.log
    ensures ExpandTrace(generate, w, fx, x).1.Normal? ==> ExpandTrace(generate, w, fx, x) == ExpandTrace(generate, Reliable(w), fx, x)
  {
    var f1 := Effects(fx.log + [CreateTables(TableSet(x))], fx.hashes);
    var f2 := Effects(f1.log + [InsertNullObjects(x.nullObjectTables)], fx.hashes);
    var rest := SyncTrace(generate, Reliable(w), f2, ListedMappings(x, Forwards));
    assert f1.log <= f2.log <= rest.0.log;
    SyncTruncated(generate, w, f2, ListedMappings(x, Forwards));
  }

  /** Later phases do not run after a failure: the log of `migrate` in any world is a
      prefix of its log in the reliable world (whose phase order `PhaseOrder` states),
      it ends with the action whose failure is reported, and when nothing fails the two
      runs are the same. */
  lemma MigrationTruncated(generate: Generator, w: World, fx: Effects, x: Expansion)
    ensures MigrateTrace(generate, w, fx, x).0.log <= MigrateTrace(generate, Reliable(w), fx, x).0.log
    ensures MigrateTrace(generate, w, fx, x).1.Thrown? ==>
              ThrownAtEnd(MigrateTrace(generate, w, fx, x).0.log, MigrateTrace(generate, w, fx, x).1.exception)
    ensures MigrateTrace(generate, w, fx, x).1.Normal? ==> MigrateTrace(generate, w, fx, x) == MigrateTrace(generate, Reliable(w), fx, x)
    ensures MigrateTrace(generate, w, fx, x).1.Thrown? && MigrateTrace(generate, w, fx, x).1.exception.Runtime? ==>
              MigrateTrace(generate, w, fx, x) == MigrateTrace(generate, Reliable(w), fx, x)
  {
    MigrationRuntimeReliable(generate, w, fx, x);
    var rw := Reliable(w);
    var forwards := ListedMappings(x, Forwards);
    var backwards := ListedMappings(x, Backwards);
    ExpandTruncated(generate, w, fx, x);
    var (a1, o1) := ExpandTrace(generate, w, fx, x);
    var (b1, p1) := ExpandTrace(generate, rw, fx, x);
    if o1.Normal? {
      BackfillTruncated(w, a1, forwards);
      var (a2, o2) := DataTrace(w, a1, forwards);
      var (b2, p2) := DataTrace(rw, a1, forwards);
      if o2.Normal? {
        SyncTruncated(generate, w, a2, backwards);
      } else {
        assert a2.log <= b2.log <= SyncTrace(generate, rw, b2, backwards).0.log;
      }
    } else if p1.Normal? {
      var (b2, p2) := DataTrace(rw, b1, forwards);
      assert a1.log <= b1.log <= b2.log <= SyncTrace(generate, rw, b2, backwards).0.log;
    }
  }

  /** An unchecked exception from installing one mapping means the database accepted
      everything before it, so the reliable database gives the same run. */
  lemma InstallRuntimeReliable(generate: Generator, w: World, fx: Effects, m: DataMapping)
    ensures InstallTrace(generate, w, fx, m).1.Thrown? && InstallTrace(generate, w, fx, m).1.exception.Runtime? ==>
              generate(m).Err? && InstallTrace(generate, w, fx, m) == InstallTrace(generate, Reliable(w), fx, m)
  {
  }

  /** Likewise for a synchronise loop. */
  lemma {:induction false} SyncRuntimeReliable(generate: Generator, w: World, fx: Effects, ms: seq<DataMapping>)
    ensures SyncTrace(generate, w, fx, ms).1.Thrown? && SyncTrace(generate, w, fx, ms).1.exception.Runtime? ==>
              SyncTrace(generate, w, fx, ms) == SyncTrace(generate, Reliable(w), fx, ms)
    decreases |ms|
  {
    if ms != [] {
      SyncStep(generate, w, fx, ms);
      SyncStep(generate, Reliable(w), fx, ms);
      InstallTruncated(generate, w, fx, ms[0]);
      InstallRuntimeReliable(generate, w, fx, ms[0]);
      var (a, oa) := InstallTrace(generate, w, fx, ms[0]);
      if oa.Normal? {
        SyncRuntimeReliable(generate, w, a, ms[1..]);
      }
    }
  }

  /** Likewise for `migrate`: the unchecked exception of the trigger generator passes
      through every catch clause, and no action was rejected before it. */
  lemma MigrationRuntimeReliable(generate: Generator, w: World, fx: Effects, x: Expansion)
    ensures MigrateTrace(generate, w, fx, x).1.Thrown? && MigrateTrace(generate, w, fx, x).1.exception.Runtime? ==>
              MigrateTrace(generate, w, fx, x) == MigrateTrace(generate, Reliable(w), fx, x)
  {
    var rw := Reliable(w);
    var forwards := ListedMappings(x, Forwards);
    var backwards := ListedMappings(x, Backwards);
    var r := MigrateTrace(generate, w, fx, x);
    if r.1.Thrown? && r.1.exception.Runtime? {
      var (a1, o1) := ExpandTrace(generate, w, fx, x);
      if o1.Normal? {
        ExpandTruncated(generate, w, fx, x);
        BackfillTruncated(w, a1, forwards);
        var (a2, o2) := DataTrace(w, a1, forwards);
        assert o2.Normal?;
        SyncRuntimeReliable(generate, w, a2, backwards);
      } else {
        var f1 := Effects(fx.log + [CreateTables(TableSet(x))], fx.hashes);
        var f2 := Effects(f1.log + [InsertNullObjects(x.nullObjectTables)], fx.hashes);
        assert ExpandTrace(generate, w, fx, x) == SyncTrace(generate, w, f2, forwards);
        assert ExpandTrace(generate, rw, fx, x) == SyncTrace(generate, rw, f2, forwards);
        SyncRuntimeReliable(generate, w, f2, forwards);
      }
    }
  }

  /** With a reliable database, a synchronise loop installs every mapping before the
      first one that does not generate, and then throws that mapping's exception. */
  lemma {:induction false} SyncStopsAt(generate: Generator, w: World, fx: Effects, ms: seq<DataMapping>, i: nat, k: nat)
    requires i < |ms| && AllGenerate(generate, ms[..i]) && generate(ms[i]).Err?
    requires fx.hashes == k
    ensures SyncTrace(generate, Reliable(w), fx, ms) ==
              (Effects(fx.log + InstallsFrom(generate, w, ms[..i], k), k + 2 * i), Thrown(Runtime(generate(ms[i]).error)))
    decreases i
  {
    var rw := Reliable(w);
    var e := generate(ms[i]).error;
    if i == 0 {
      SyncStopsAtFirst(generate, rw, fx, ms);
      assert InstallsFrom(generate, w, ms[..0], k) == [];
      assert fx.log + [] == fx.log;
    } else {
      var rest := ms[1..];
      assert generate(ms[0]).Ok? && AllGenerate(generate, rest[..i - 1]) && rest[i - 1] == ms[i] by {
        AllGenerateTail(generate, ms[..i]);
        assert ms[..i][0] == ms[0] && ms[..i][1..] == rest[..i - 1];
      }
      var first := InstallStatements(generate, w, ms[0], k);
      var f1 := Effects(fx.log + first, k + 2);
      assert SyncTrace(generate, rw, fx, ms) == SyncTrace(generate, rw, f1, rest) by {
        InstallCompletes(generate, w, fx, ms[0]);
        SyncStep(generate, rw, fx, ms);
      }
      SyncStopsAt(generate, w, f1, rest, i - 1, k + 2);
      var tail := InstallsFrom(generate, w, rest[..i - 1], k + 2);
      assert f1.log + tail == fx.log + InstallsFrom(generate, w, ms[..i], k) by {
        InstallsFromStep(generate, w, ms[..i], k);
        assert ms[..i][0] == ms[0] && ms[..i][1..] == rest[..i - 1];
      }
    }
  }

  /** A synchronise loop whose first mapping does not generate throws its exception
      before doing anything. */
  lemma SyncStopsAtFirst(generate: Generator, w: World, fx: Effects, ms: seq<DataMapping>)
    requires ms != [] && generate(ms[0]).Err?
    ensures SyncTrace(generate, w, fx, ms) == (fx, Thrown(Runtime(generate(ms[0]).error)))
  {
    SyncStep(generate, w, fx, ms);
  }

  /** When the i-th forward mapping is the first that does not generate, `migrate`
      stops in its first block: the log is the created tables, the inserted null
      objects and the installations of the forward mappings before it, and the
      generator's exception leaves `migrate` unwrapped; no data is migrated and no
      backward mapping is installed. In any other world the run is this one or one
      that an earlier rejected action cut short. */
  lemma ForwardGenerationFailure(generate: Generator, w: World, fx: Effects, x: Expansion, i: nat)
    requires i < |ListedMappings(x, Forwards)|
    requires AllGenerate(generate, ListedMappings(x, Forwards)[..i])
    requires generate(ListedMappings(x, Forwards)[i]).Err?
    ensures MigrateTrace(generate, Reliable(w), fx, x) ==
              (Effects(fx.log + [CreateTables(TableSet(x)), InsertNullObjects(x.nullObjectTables)]
                         + InstallsFrom(generate, w, ListedMappings(x, Forwards)[..i], fx.hashes),
                       fx.hashes + 2 * i),
               Thrown(Runtime(generate(ListedMappings(x, Forwards)[i]).error)))
    ensures MigrateTrace(generate, w, fx, x).1.Thrown?
    ensures MigrateTrace(generate, w, fx, x).1.exception.Runtime? ==>
              MigrateTrace(generate, w, fx, x) == MigrateTrace(generate, Reliable(w), fx, x)
  {
    var forwards := ListedMappings(x, Forwards);
    var f2 := Effects(fx.log + [CreateTables(TableSet(x)), InsertNullObjects(x.nullObjectTables)], fx.hashes);
    ExpandReliable(generate, w, fx, x);
    SyncStopsAt(generate, w, f2, forwards, i, fx.hashes);
    MigrationGenerates(generate, w, fx, x);
    assert !AllGenerate(generate, forwards);
    MigrationRuntimeReliable(generate, w, fx, x);
  }

  /** When every forward mapping generates and the j-th backward mapping is the first
      that does not, `migrate` stops in its last block: the log is the whole first
      block, the data migration of every forward mapping, and the installations of the
      backward mappings before it; the generator's exception leaves `migrate`
      unwrapped. In any other world the run is this one or one that an earlier
      rejected action or interrupted data migration cut short. */
  lemma BackwardGenerationFailure(generate: Generator, w: World, fx: Effects, x: Expansion, j: nat)
    requires AllGenerate(generate, ListedMappings(x, Forwards))
    requires j < |ListedMappings(x, Backwards)|
    requires AllGenerate(generate, ListedMappings(x, Backwards)[..j])
    requires generate(ListedMappings(x, Backwards)[j]).Err?
    ensures MigrateTrace(generate, Reliable(w), fx, x) ==
              (Effects(fx.log
                         + [CreateTables(TableSet(x)), InsertNullObjects(x.nullObjectTables)]
                         + InstallsFrom(generate, w, ListedMappings(x, Forwards), fx.hashes)
                         + Backfills(ListedMappings(x, Forwards))
                         + InstallsFrom(generate, w, ListedMappings(x, Backwards)[..j],
                                        fx.hashes + 2 * |ListedMappings(x, Forwards)|),
                       fx.hashes + 2 * |ListedMappings(x, Forwards)| + 2 * j),
               Thrown(Runtime(generate(ListedMappings(x, Backwards)[j]).error)))
    ensures MigrateTrace(generate, w, fx, x).1.Thrown?
    ensures MigrateTrace(generate, w, fx, x).1.exception.Runtime? ==>
              MigrateTrace(generate, w, fx, x) == MigrateTrace(generate, Reliable(w), fx, x)
  {
    var forwards := ListedMappings(x, Forwards);
    var backwards := ListedMappings(x, Backwards);
    var rw := Reliable(w);
    var k := fx.hashes + 2 * |forwards|;
    var f3 := Effects(fx.log + [CreateTables(TableSet(x)), InsertNullObjects(x.nullObjectTables)]
                        + InstallsFrom(generate, w, forwards, fx.hashes), k);
    var f4 := Effects(f3.log + Backfills(forwards), k);
    assert ExpandTrace(generate, rw, fx, x) == (f3, Normal) by {
      FirstBlockCompletes(generate, w, fx, x);
    }
    assert DataTrace(rw, f3, forwards) == (f4, Normal) by {
      BackfillCompletes(w, f3, forwards);
    }
    SyncStopsAt(generate, w, f4, backwards, j, k);
    MigrateStopsInLastBlock(generate, rw, fx, x, f3, f4);
    assert MigrateTrace(generate, w, fx, x).1.Thrown? by {
      MigrationGenerates(generate, w, fx, x);
      assert !AllGenerate(generate, backwards);
    }
    MigrationRuntimeReliable(generate, w, fx, x);
  }

  /** `migrate` when its first two blocks end normally: the last block decides. */
  lemma MigrateStopsInLastBlock(generate: Generator, w: World, fx: Effects, x: Expansion, f3: Effects, f4: Effects)
    requires ExpandTrace(generate, w, fx, x) == (f3, Normal)
    requires DataTrace(w, f3, ListedMappings(x, Forwards)) == (f4, Normal)
    ensures var r := SyncTrace(generate, w, f4, ListedMappings(x, Backwards));
            MigrateTrace(generate, w, fx, x) == (r.0, Rethrow(r.1, false))
  {
  }
}
