/** The text generation of `PostgresqlMigrator.installDataMapping`: from a data mapping
    and two names it builds the `CREATE FUNCTION` statement of a PL/pgSQL trigger
    function that keeps the target table in step with the source table, and the
    `CREATE TRIGGER` statement that attaches it to the source table. A statement is the
    sequence of fragments appended to its query builder, in order. */
module SyncTrigger {
  import opened Collections
  import opened DataMappings

  /** The three clauses, built before anything is executed. */
  datatype Clauses = Clauses(setClause: string, newIdClause: string, oldIdClause: string)

  const NoColumnsMessage := "Cannot map 0 columns!"
  const NoIdentityMessage := "Cannot update table without identity columns!"

  /** The column map's key set, in iteration order. */
  function SourceColumnNames(m: DataMapping): seq<string>
  {
    seq(|m.columns|, i requires 0 <= i < |m.columns| => m.columns[i].source)
  }

  /** For each source column, the target column the column map sends it to. */
  function TargetColumnNames(m: DataMapping): seq<string>
  {
    seq(|m.columns|, i requires 0 <= i < |m.columns| => Lookup(m.columns, m.columns[i].source).value)
  }

  /** The source column names, each prefixed with `NEW.`. */
  function PrefixedSourceColumnNames(m: DataMapping): seq<string>
  {
    seq(|m.columns|, i requires 0 <= i < |m.columns| => "NEW." + SourceColumnNames(m)[i])
  }

  /** The `SET` clause: the assignments reduced with ", "; an empty column map has
      nothing to reduce and throws. */
  function SetClause(m: DataMapping): (r: Result<string, RuntimeException>)
    ensures r.Ok? <==> |m.columns| > 0
    ensures r.Err? ==> r.error == IllegalArgumentException(NoColumnsMessage)
  {
    match Reduce(Assignments(m), ", ")
    case None => Err(IllegalArgumentException(NoColumnsMessage))
    case Some(clause) => Ok(clause)
  }

  /** One conjunct of the identity clause over the new row image: the identity column
      compared with the prefixed source column found at the column's `indexOf` among
      the target column names. */
  function NewIdItem(m: DataMapping, column: string): (r: Result<string, RuntimeException>)
    ensures r.Ok? <==> column in TargetColumnNames(m)
    ensures r.Err? ==> r.error == IndexOutOfBoundsException(-1, |m.columns|)
  {
    match Get(PrefixedSourceColumnNames(m), IndexOf(TargetColumnNames(m), column))
    case Err(e) => Err(e)
    case Ok(source) => Ok(column + " = " + source)
  }

  /** One conjunct of the identity clause over the old row image. */
  function OldIdItem(m: DataMapping, column: string): (r: Result<string, RuntimeException>)
    ensures r.Ok? <==> column in TargetColumnNames(m)
    ensures r.Err? ==> r.error == IndexOutOfBoundsException(-1, |m.columns|)
  {
    match Get(SourceColumnNames(m), IndexOf(TargetColumnNames(m), column))
    case Err(e) => Err(e)
    case Ok(source) => Ok(column + " = OLD." + source)
  }

  /** A stream over the identity columns, mapped by `item` and reduced with " AND ". */
  function IdClause(m: DataMapping, item: string -> Result<string, RuntimeException>): (r: Result<string, RuntimeException>)
    ensures r.Ok? <==> |m.targetIdentity| > 0 &&
                       forall j :: 0 <= j < |m.targetIdentity| ==> item(m.targetIdentity[j]).Ok?
    ensures |m.targetIdentity| == 0 ==> r == Err(IllegalArgumentException(NoIdentityMessage))
  {
    match MapAll(m.targetIdentity, item)
    case Err(e) => Err(e)
    case Ok(items) =>
      match Reduce(items, " AND ")
      case None => Err(IllegalArgumentException(NoIdentityMessage))
      case Some(clause) => Ok(clause)
  }

  /** The identity clause over the new row image; it exists exactly when there are
      identity columns and each is among the target column names. */
  function NewIdClause(m: DataMapping): (r: Result<string, RuntimeException>)
    ensures r.Ok? <==> |m.targetIdentity| > 0 &&
                       forall j :: 0 <= j < |m.targetIdentity| ==> m.targetIdentity[j] in TargetColumnNames(m)
    ensures |m.targetIdentity| == 0 ==> r == Err(IllegalArgumentException(NoIdentityMessage))
  {
    IdClause(m, column => NewIdItem(m, column))
  }

  /** The identity clause over the old row image, under the same condition. */
  function OldIdClause(m: DataMapping): (r: Result<string, RuntimeException>)
    ensures r.Ok? <==> |m.targetIdentity| > 0 &&
                       forall j :: 0 <= j < |m.targetIdentity| ==> m.targetIdentity[j] in TargetColumnNames(m)
    ensures |m.targetIdentity| == 0 ==> r == Err(IllegalArgumentException(NoIdentityMessage))
  {
    IdClause(m, column => OldIdItem(m, column))
  }

  /** The clauses in the order the source builds them; the first that throws decides. */
  function GenerateClauses(m: DataMapping): (r: Result<Clauses, RuntimeException>)
    ensures r.Ok? <==> |m.columns| > 0 && |m.targetIdentity| > 0 &&
                       forall j :: 0 <= j < |m.targetIdentity| ==> m.targetIdentity[j] in TargetColumnNames(m)
    ensures |m.columns| == 0 ==> r == Err(IllegalArgumentException(NoColumnsMessage))
    ensures |m.columns| > 0 && |m.targetIdentity| == 0 ==> r == Err(IllegalArgumentException(NoIdentityMessage))
  {
    match SetClause(m)
    case Err(e) => Err(e)
    case Ok(setClause) =>
      match NewIdClause(m)
      case Err(e) => Err(e)
      case Ok(newIdClause) =>
        match OldIdClause(m)
        case Err(e) => Err(e)
        case Ok(oldIdClause) => Ok(Clauses(setClause, newIdClause, oldIdClause))
  }

  /** The `CREATE FUNCTION` statement, fragment by fragment. */
  function FunctionQuery(m: DataMapping, functionName: string, c: Clauses): seq<string>
  {
    var target := m.targetTable;
    var columns := Join(", ", TargetColumnNames(m));
    var values := Join(", ", PrefixedSourceColumnNames(m));
    [ "CREATE FUNCTION " + functionName + "()",
      "RETURNS TRIGGER AS $$",
      "BEGIN",
      "   IF TG_OP = 'INSERT' THEN",
      "       LOOP",
      "           UPDATE " + target,
      "               SET " + c.setClause,
      "               WHERE " + c.newIdClause + ";",
      "           IF found THEN EXIT; END IF;",
      "           BEGIN",
      "               INSERT INTO " + target,
      "                   (" + columns + ") VALUES",
      "                   (" + values + ");",
      "               EXIT;",
      "           EXCEPTION WHEN unique_violation THEN",
      "           END;",
      "       END LOOP;",
      "   ELSIF TG_OP = 'UPDATE' THEN",
      "       LOOP",
      "           UPDATE " + target,
      "               SET " + c.setClause,
      "               WHERE " + c.newIdClause + ";",
      "           IF found THEN EXIT; END IF;",
      "           BEGIN",
      "               INSERT INTO " + target,
      "                   (" + columns + ") VALUES",
      "                   (" + values + ");",
      "               EXIT;",
      "           EXCEPTION WHEN unique_violation THEN",
      "           END;",
      "       END LOOP;",
      "   ELSIF TG_OP = 'DELETE' THEN",
      "       DELETE FROM " + target,
      "           WHERE " + c.oldIdClause + ";",
      "   END IF;",
      "   RETURN NEW;",
      "END;",
      "$$ LANGUAGE 'plpgsql';" ]
  }

  /** The `CREATE TRIGGER` statement, fragment by fragment. */
  function TriggerQuery(m: DataMapping, functionName: string, triggerName: string): seq<string>
  {
    [ "CREATE TRIGGER " + triggerName,
      "AFTER INSERT OR UPDATE OR DELETE",
      "ON " + m.sourceTable,
      "FOR EACH ROW",
      "WHEN (pg_trigger_depth() = 0)",
      "EXECUTE PROCEDURE " + functionName + "();" ]
  }

  /** A statement `installDataMapping` executes, named by what its text is built from. */
  datatype Query =
    | FunctionStatement(mapping: DataMapping, functionName: string, clauses: Clauses)
    | TriggerStatement(mapping: DataMapping, functionName: string, triggerName: string)

  /** The fragments of a statement's text. */
  function Text(q: Query): seq<string>
  {
    match q
    case FunctionStatement(m, functionName, c) => FunctionQuery(m, functionName, c)
    case TriggerStatement(m, functionName, triggerName) => TriggerQuery(m, functionName, triggerName)
  }

  // ----- What the generated text means -----

  /** The assignments of the `SET` clause: `target = NEW.source` for each column map
      entry, in entry order. */
  function Assignments(m: DataMapping): (r: seq<string>)
    ensures |r| == |m.columns|
    ensures forall i :: 0 <= i < |m.columns| ==> r[i] == m.columns[i].target + " = NEW." + m.columns[i].source
  {
    seq(|m.columns|, i requires 0 <= i < |m.columns| => m.columns[i].target + " = NEW." + m.columns[i].source)
  }

  /** The conjuncts that identify a target row: one per identity column, in identity
      column order, each comparing the column with the row image `prefix` of the source
      column at the first position whose target is that identity column. */
  function IdentityConjuncts(m: DataMapping, prefix: string): (r: seq<string>)
    requires CoversIdentity(m)
    ensures |r| == |m.targetIdentity|
  {
    seq(|m.targetIdentity|, j requires 0 <= j < |m.targetIdentity| =>
          m.targetIdentity[j] + " = " + prefix + SourceFor(m.columns, m.targetIdentity[j]).value)
  }

  /** The `INSERT` column list and value list are aligned with the column map: the
      i-th column is the target of the i-th entry and the i-th value is `NEW.` followed
      by the i-th entry's source. */
  lemma InsertListsAligned(m: DataMapping)
    requires DistinctSources(m.columns)
    ensures |TargetColumnNames(m)| == |PrefixedSourceColumnNames(m)| == |m.columns|
    ensures forall i :: 0 <= i < |m.columns| ==>
              TargetColumnNames(m)[i] == m.columns[i].target &&
              PrefixedSourceColumnNames(m)[i] == "NEW." + m.columns[i].source
  {
    forall i | 0 <= i < |m.columns|
      ensures TargetColumnNames(m)[i] == m.columns[i].target
      ensures PrefixedSourceColumnNames(m)[i] == "NEW." + m.columns[i].source
    {
      assert Lookup(m.columns, m.columns[i].source) == Some(m.columns[i].target);
      assert SourceColumnNames(m)[i] == m.columns[i].source;
    }
  }

  /** The `SET` clause exists exactly when the column map is non-empty, and is then the
      assignments joined by ", "; an empty column map throws "Cannot map 0 columns!". */
  lemma SetClauseJoinsAssignments(m: DataMapping)
    ensures SetClause(m).Ok? <==> |m.columns| > 0
    ensures |m.columns| == 0 ==> SetClause(m) == Err(IllegalArgumentException(NoColumnsMessage))
    ensures |m.columns| > 0 ==> SetClause(m) == Ok(Join(", ", Assignments(m)))
  {
    ReduceJoins(Assignments(m), ", ");
  }

  /** The new-row conjunct of one identity column: the column compared with `NEW.` and
      the first source mapped onto it, or index -1 out of bounds when none is. */
  lemma NewIdItemMeaning(m: DataMapping, column: string)
    requires DistinctSources(m.columns)
    ensures SourceFor(m.columns, column).None? ==>
              NewIdItem(m, column) == Err(IndexOutOfBoundsException(-1, |m.columns|))
    ensures SourceFor(m.columns, column).Some? ==>
              NewIdItem(m, column) == Ok(column + " = " + "NEW." + SourceFor(m.columns, column).value)
  {
    InsertListsAligned(m);
    var p := IndexOf(TargetColumnNames(m), column);
    var source := SourceFor(m.columns, column);
    if source.Some? {
      var i := FirstTargetPosition(m, column);
      var prefixed := "NEW." + source.value;
      assert PrefixedSourceColumnNames(m)[i] == prefixed;
      assert NewIdItem(m, column) == Ok(column + " = " + prefixed);
      assert column + " = " + prefixed == column + " = " + "NEW." + source.value;
    } else {
      assert p == -1;
    }
  }

  /** The old-row conjunct of one identity column, likewise with `OLD.`. */
  lemma OldIdItemMeaning(m: DataMapping, column: string)
    requires DistinctSources(m.columns)
    ensures SourceFor(m.columns, column).None? ==>
              OldIdItem(m, column) == Err(IndexOutOfBoundsException(-1, |m.columns|))
    ensures SourceFor(m.columns, column).Some? ==>
              OldIdItem(m, column) == Ok(column + " = " + "OLD." + SourceFor(m.columns, column).value)
  {
    InsertListsAligned(m);
    var p := IndexOf(TargetColumnNames(m), column);
    var source := SourceFor(m.columns, column);
    if source.Some? {
      var i := FirstTargetPosition(m, column);
      assert p == i;
      assert " = OLD." == " = " + "OLD.";
      assert column + " = OLD." == column + " = " + "OLD.";
    } else {
      assert p == -1;
    }
  }

  /** `indexOf` over the target column names finds the first entry whose target is
      `column`, the one `SourceFor` reads. */
  lemma FirstTargetPosition(m: DataMapping, column: string) returns (i: nat)
    requires DistinctSources(m.columns)
    requires SourceFor(m.columns, column).Some?
    ensures i < |m.columns| && m.columns[i].source == SourceFor(m.columns, column).value
    ensures IndexOf(TargetColumnNames(m), column) == i
  {
    InsertListsAligned(m);
    i :| 0 <= i < |m.columns| && m.columns[i].target == column &&
         m.columns[i].source == SourceFor(m.columns, column).value &&
         forall q :: 0 <= q < i ==> m.columns[q].target != column;
    var targets := TargetColumnNames(m);
    forall q | 0 <= q < i ensures targets[q] != column {
      assert targets[q] == m.columns[q].target;
    }
    IndexOfFirst(targets, column, i);
  }

  /** The identity clause over `prefix` row images, for a conjunct builder that agrees
      with `IdentityConjuncts`. */
  lemma {:induction false} IdClauseMeaning(m: DataMapping, item: string -> Result<string, RuntimeException>, prefix: string)
    requires forall column :: SourceFor(m.columns, column).None? ==>
               item(column) == Err(IndexOutOfBoundsException(-1, |m.columns|))
    requires forall column :: SourceFor(m.columns, column).Some? ==>
               item(column) == Ok(column + " = " + prefix + SourceFor(m.columns, column).value)
    ensures IdClause(m, item).Ok? <==> |m.targetIdentity| > 0 && CoversIdentity(m)
    ensures |m.targetIdentity| == 0 ==> IdClause(m, item) == Err(IllegalArgumentException(NoIdentityMessage))
    ensures |m.targetIdentity| > 0 && !CoversIdentity(m) ==>
              IdClause(m, item) == Err(IndexOutOfBoundsException(-1, |m.columns|))
    ensures |m.targetIdentity| > 0 && CoversIdentity(m) ==>
              IdClause(m, item) == Ok(Join(" AND ", IdentityConjuncts(m, prefix)))
  {
    var ids := m.targetIdentity;
    var mapped := MapAll(ids, item);
    if CoversIdentity(m) {
      forall j | 0 <= j < |ids| ensures item(ids[j]).Ok? {
        assert SourceFor(m.columns, ids[j]).Some?;
      }
      assert mapped.value == IdentityConjuncts(m, prefix);
      ReduceJoins(mapped.value, " AND ");
    } else {
      var j :| 0 <= j < |ids| && !exists i :: 0 <= i < |m.columns| && m.columns[i].target == ids[j];
      assert item(ids[j]).Err?;
      assert mapped.Err?;
    }
  }

  /** Both identity clauses exist exactly when the target has identity columns and
      each of them is the image of some mapped source column; they are then the
      identity conjuncts over `NEW.` and over `OLD.` joined by " AND ". A target
      without identity columns throws "Cannot update table without identity columns!",
      and an identity column no source maps onto throws index -1 out of bounds. */
  lemma IdentityClauses(m: DataMapping)
    requires DistinctSources(m.columns)
    ensures NewIdClause(m).Ok? <==> |m.targetIdentity| > 0 && CoversIdentity(m)
    ensures OldIdClause(m).Ok? <==> |m.targetIdentity| > 0 && CoversIdentity(m)
    ensures |m.targetIdentity| == 0 ==>
              NewIdClause(m) == OldIdClause(m) == Err(IllegalArgumentException(NoIdentityMessage))
    ensures |m.targetIdentity| > 0 && !CoversIdentity(m) ==>
              NewIdClause(m) == OldIdClause(m) == Err(IndexOutOfBoundsException(-1, |m.columns|))
    ensures |m.targetIdentity| > 0 && CoversIdentity(m) ==>
              NewIdClause(m) == Ok(Join(" AND ", IdentityConjuncts(m, "NEW."))) &&
              OldIdClause(m) == Ok(Join(" AND ", IdentityConjuncts(m, "OLD.")))
  {
    forall column ensures
      (SourceFor(m.columns, column).None? ==> NewIdItem(m, column) == Err(IndexOutOfBoundsException(-1, |m.columns|))) &&
      (SourceFor(m.columns, column).Some? ==> NewIdItem(m, column) == Ok(column + " = " + "NEW." + SourceFor(m.columns, column).value)) &&
      (SourceFor(m.columns, column).None? ==> OldIdItem(m, column) == Err(IndexOutOfBoundsException(-1, |m.columns|))) &&
      (SourceFor(m.columns, column).Some? ==> OldIdItem(m, column) == Ok(column + " = " + "OLD." + SourceFor(m.columns, column).value))
    {
      NewIdItemMeaning(m, column);
      OldIdItemMeaning(m, column);
    }
    IdClauseMeaning(m, column => NewIdItem(m, column), "NEW.");
    IdClauseMeaning(m, column => OldIdItem(m, column), "OLD.");
  }

  /** Generation succeeds exactly when the column map is non-empty, the target has
      identity columns and each is the image of a mapped source column; otherwise the
      first failing check, in source order, decides the exception. */
  lemma GenerationOutcome(m: DataMapping)
    requires DistinctSources(m.columns)
    ensures GenerateClauses(m).Ok? <==>
              |m.columns| > 0 && |m.targetIdentity| > 0 && CoversIdentity(m)
    ensures |m.columns| == 0 ==>
              GenerateClauses(m) == Err(IllegalArgumentException(NoColumnsMessage))
    ensures |m.columns| > 0 && |m.targetIdentity| == 0 ==>
              GenerateClauses(m) == Err(IllegalArgumentException(NoIdentityMessage))
    ensures |m.columns| > 0 && |m.targetIdentity| > 0 && !CoversIdentity(m) ==>
              GenerateClauses(m) == Err(IndexOutOfBoundsException(-1, |m.columns|))
    ensures GenerateClauses(m).Ok? ==>
              GenerateClauses(m).value == Clauses(Join(", ", Assignments(m)),
                                                  Join(" AND ", IdentityConjuncts(m, "NEW.")),
                                                  Join(" AND ", IdentityConjuncts(m, "OLD.")))
  {
    SetClauseJoinsAssignments(m);
    IdentityClauses(m);
  }

  /** The generated trigger function, line by line, in terms of what its clauses mean.
      The INSERT and UPDATE branches carry the same update-then-insert loop: it updates
      the target row picked by the new-row identity conjuncts, exits when a row was
      found, otherwise inserts the aligned column and value lists inside a block whose
      `unique_violation` handler is empty, and exits after a successful insert, so a
      concurrent insert of the same row sends it round the loop again. The DELETE
      branch deletes from the target the row picked by the old-row identity conjuncts. */
  lemma FunctionStatementShape(m: DataMapping, functionName: string)
    requires DistinctSources(m.columns)
    requires GenerateClauses(m).Ok?
    ensures |m.columns| > 0 && |m.targetIdentity| > 0 && CoversIdentity(m)
    ensures Text(FunctionStatement(m, functionName, GenerateClauses(m).value)) ==
      [ "CREATE FUNCTION " + functionName + "()",
        "RETURNS TRIGGER AS $$",
        "BEGIN",
        "   IF TG_OP = 'INSERT' THEN",
        "       LOOP",
        "           UPDATE " + m.targetTable,
        "               SET " + Join(", ", Assignments(m)),
        "               WHERE " + Join(" AND ", IdentityConjuncts(m, "NEW.")) + ";",
        "           IF found THEN EXIT; END IF;",
        "           BEGIN",
        "               INSERT INTO " + m.targetTable,
        "                   (" + Join(", ", TargetList(m)) + ") VALUES",
        "                   (" + Join(", ", PrefixedSourceColumnNames(m)) + ");",
        "               EXIT;",
        "           EXCEPTION WHEN unique_violation THEN",
        "           END;",
        "       END LOOP;",
        "   ELSIF TG_OP = 'UPDATE' THEN",
        "       LOOP",
        "           UPDATE " + m.targetTable,
        "               SET " + Join(", ", Assignments(m)),
        "               WHERE " + Join(" AND ", IdentityConjuncts(m, "NEW.")) + ";",
        "           IF found THEN EXIT; END IF;",
        "           BEGIN",
        "               INSERT INTO " + m.targetTable,
        "                   (" + Join(", ", TargetList(m)) + ") VALUES",
        "                   (" + Join(", ", PrefixedSourceColumnNames(m)) + ");",
        "               EXIT;",
        "           EXCEPTION WHEN unique_violation THEN",
        "           END;",
        "       END LOOP;",
        "   ELSIF TG_OP = 'DELETE' THEN",
        "       DELETE FROM " + m.targetTable,
        "           WHERE " + Join(" AND ", IdentityConjuncts(m, "OLD.")) + ";",
        "   END IF;",
        "   RETURN NEW;",
        "END;",
        "$$ LANGUAGE 'plpgsql';" ]
  {
    GenerationOutcome(m);
    InsertListsAligned(m);
    assert TargetColumnNames(m) == TargetList(m);
  }

  /** The target columns of the column map's entries, in entry order. */
  function TargetList(m: DataMapping): (r: seq<string>)
    ensures |r| == |m.columns|
  {
    seq(|m.columns|, i requires 0 <= i < |m.columns| => m.columns[i].target)
  }

  /** The INSERT branch and the UPDATE branch of the trigger function are the same
      lines. */
  lemma UpsertBranchesIdentical(m: DataMapping, functionName: string, c: Clauses)
    ensures |FunctionQuery(m, functionName, c)| == 38
    ensures FunctionQuery(m, functionName, c)[4..17] == FunctionQuery(m, functionName, c)[18..31]
  {
    var f := FunctionQuery(m, functionName, c);
    forall k | 0 <= k < 13 ensures f[4..17][k] == f[18..31][k] {
      assert f[4..17][k] == f[4 + k] && f[18..31][k] == f[18 + k];
    }
  }

  /** The generated trigger fires after every row-level insert, update or delete on
      the source table, only at trigger depth 0, and executes the named function. */
  lemma TriggerStatementShape(m: DataMapping, functionName: string, triggerName: string)
    ensures Text(TriggerStatement(m, functionName, triggerName)) ==
              [ "CREATE TRIGGER " + triggerName,
                "AFTER INSERT OR UPDATE OR DELETE",
                "ON " + m.sourceTable,
                "FOR EACH ROW",
                "WHEN (pg_trigger_depth() = 0)",
                "EXECUTE PROCEDURE " + functionName + "();" ]
  {
  }
}
