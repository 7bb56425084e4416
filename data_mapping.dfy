/** The data mapping the migrator installs triggers for: a source table, a target table
    with its identity columns, and the column map from source column name to target
    column name, in the map's iteration order. */
module DataMappings {
  import opened Collections

  /** The direction of the transitive mappings asked for. */
  datatype Direction = Forwards | Backwards

  /** One entry of the column map: a source column and the name of the target column
      it is copied to. */
  datatype ColumnMapping = ColumnMapping(source: string, target: string)

  datatype DataMapping = DataMapping(
    sourceTable: string,
    targetTable: string,
    targetIdentity: seq<string>,   // the target table's identity columns, in order
    columns: seq<ColumnMapping>)   // the column map's entries, in iteration order

  /** The column map is a map: its keys, the source column names, are distinct. */
  predicate DistinctSources(columns: seq<ColumnMapping>)
  {
    forall i, j :: 0 <= i < j < |columns| ==> columns[i].source != columns[j].source
  }

  /** The column map's `get`: the target column of the entry whose key is `source`. */
  function Lookup(columns: seq<ColumnMapping>, source: string): (r: Option<string>)
    ensures r.Some? <==> exists i :: 0 <= i < |columns| && columns[i].source == source
    ensures DistinctSources(columns) ==>
              forall i :: 0 <= i < |columns| && columns[i].source == source ==>
                          r == Some(columns[i].target)
    decreases |columns|
  {
    if columns == [] then None
    else if columns[0].source == source then Some(columns[0].target)
    else Lookup(columns[1..], source)
  }

  /** The source column at the first position of the column map whose target is
      `column`, if there is one. */
  function SourceFor(columns: seq<ColumnMapping>, column: string): (r: Option<string>)
    ensures r.Some? <==> exists i :: 0 <= i < |columns| && columns[i].target == column
    ensures r.Some? ==> exists i :: 0 <= i < |columns| && columns[i].target == column &&
                                    columns[i].source == r.value &&
                                    forall q :: 0 <= q < i ==> columns[q].target != column
    decreases |columns|
  {
    if columns == [] then None
    else if columns[0].target == column then Some(columns[0].source)
    else SourceFor(columns[1..], column)
  }

  /** Every identity column of the target is the image of some mapped source column. */
  predicate CoversIdentity(m: DataMapping)
  {
    forall j :: 0 <= j < |m.targetIdentity| ==>
      exists i :: 0 <= i < |m.columns| && m.columns[i].target == m.targetIdentity[j]
  }
}
