/** `create_table_schema`'s statement: the CREATE TABLE text for a table's schema
    and optional partition columns. */
module SchemaBuilder {
  import opened Results
  import opened Text
  import opened Polars
  import opened HiveErrors
  import opened TypeMapping

  /** Whether a schema column is named in `partition_cols`. */
  predicate InPartition(c: Column, parts: Option<seq<string>>) {
    parts.Some? && c.name in parts.value
  }

  /** The schema's non-partition columns, in schema order. */
  function DataColumns(schema: seq<Column>, parts: Option<seq<string>>): (cols: seq<Column>)
    ensures forall c :: c in cols <==> c in schema && !InPartition(c, parts)
  {
    if |schema| == 0 then []
    else
      var last := schema[|schema| - 1];
      assert schema == schema[..|schema| - 1] + [last];
      DataColumns(schema[..|schema| - 1], parts) + (if InPartition(last, parts) then [] else [last])
  }

  /** The schema's partition columns, in schema order (not in `partition_cols` order). */
  function PartitionColumns(schema: seq<Column>, parts: Option<seq<string>>): (cols: seq<Column>)
    ensures forall c :: c in cols <==> c in schema && InPartition(c, parts)
  {
    if |schema| == 0 then []
    else
      var last := schema[|schema| - 1];
      assert schema == schema[..|schema| - 1] + [last];
      PartitionColumns(schema[..|schema| - 1], parts) + (if InPartition(last, parts) then [last] else [])
  }

  predicate AllSupported(cols: seq<Column>) {
    forall j :: 0 <= j < |cols| ==> Supported(cols[j].dtype)
  }

  /** The position of the first column, in schema order, that has no warehouse
      type; the schema's length when every column has one. */
  function FirstUnsupported(schema: seq<Column>): (j: nat)
    ensures j <= |schema| && AllSupported(schema[..j])
    ensures j < |schema| ==> !Supported(schema[j].dtype)
  {
    if |schema| == 0 then 0
    else if !Supported(schema[0].dtype) then 0
    else
      var j := FirstUnsupported(schema[1..]);
      assert forall k :: 1 <= k < j + 1 ==> schema[k] == schema[1..][..j][k - 1];
      j + 1
  }

  /** `name TYPE` for one column. */
  function Definition(c: Column): string
    requires Supported(c.dtype)
  {
    c.name + " " + PolarsToHiveType(c.dtype).value.Keyword()
  }

  function Definitions(cols: seq<Column>): seq<string>
    requires AllSupported(cols)
  {
    seq(|cols|, j requires 0 <= j < |cols| => Definition(cols[j]))
  }

  lemma SubsetSupported(sub: seq<Column>, schema: seq<Column>)
    requires AllSupported(schema)
    requires forall c :: c in sub ==> c in schema
    ensures AllSupported(sub)
  {
    forall j | 0 <= j < |sub| ensures Supported(sub[j].dtype) {
      assert sub[j] in schema;
    }
  }

  /** `CREATE TABLE t (<data columns>)[ PARTITIONED BY (<partition columns>)] STORED AS PARQUET`,
      or the first unsupported column type. */
  function CreateTableSql(table: string, schema: seq<Column>, parts: Option<seq<string>>): (r: Result<string, Error>)
    ensures r.Ok? <==> AllSupported(schema)
  {
    var j := FirstUnsupported(schema);
    if j < |schema| then Err(UnsupportedType(schema[j].dtype))
    else
      assert schema[..j] == schema;
      var data := DataColumns(schema, parts);
      var partition := PartitionColumns(schema, parts);
      SubsetSupported(data, schema);
      SubsetSupported(partition, schema);
      Ok(CreateText(table, Definitions(data), Definitions(partition)))
  }

  /** The statement text for the given data and partition column definitions. */
  function CreateText(table: string, columns: seq<string>, partitions: seq<string>): string {
    var clause := if |partitions| > 0 then " PARTITIONED BY (" + Join(partitions, ", ") + ")" else "";
    "CREATE TABLE " + table + " (" + Join(columns, ", ") + ")" + clause + " STORED AS PARQUET"
  }

  /** Building the text piece by piece, as `create_table_schema` does, gives `CreateText`. */
  lemma CreateTextPieces(table: string, columns: seq<string>, partitions: seq<string>)
    ensures var head := "CREATE TABLE " + table + " (" + Join(columns, ", ") + ")";
      CreateText(table, columns, partitions) ==
        if |partitions| > 0 then head + " PARTITIONED BY (" + Join(partitions, ", ") + ")" + " STORED AS PARQUET"
        else head + " STORED AS PARQUET"
  {
    var head := "CREATE TABLE " + table + " (" + Join(columns, ", ") + ")";
    if |partitions| > 0 {
      var clause := " PARTITIONED BY (" + Join(partitions, ", ") + ")";
      assert head + clause == head + " PARTITIONED BY (" + Join(partitions, ", ") + ")";
    } else {
      assert head + "" == head;
    }
  }

  // ---------------------------------------------------------------- lemmas

  /** The split depends only on which schema columns are partition members. */
  lemma {:induction false} SplitFollowsMembership(schema: seq<Column>, p1: Option<seq<string>>, p2: Option<seq<string>>)
    requires forall j :: 0 <= j < |schema| ==> (InPartition(schema[j], p1) <==> InPartition(schema[j], p2))
    ensures DataColumns(schema, p1) == DataColumns(schema, p2)
    ensures PartitionColumns(schema, p1) == PartitionColumns(schema, p2)
  {
    if |schema| > 0 {
      SplitFollowsMembership(schema[..|schema| - 1], p1, p2);
    }
  }

  /** Partition columns come out in schema order whatever order `partition_cols` lists them in. */
  lemma PartitionOrderIrrelevant(table: string, schema: seq<Column>, p1: seq<string>, p2: seq<string>)
    requires forall n :: n in p1 <==> n in p2
    ensures CreateTableSql(table, schema, Some(p1)) == CreateTableSql(table, schema, Some(p2))
  {
    SplitFollowsMembership(schema, Some(p1), Some(p2));
  }

  /** A partition name that no schema column has is silently ignored. */
  lemma UnknownPartitionIgnored(table: string, schema: seq<Column>, parts: seq<string>, extra: string)
    requires forall j :: 0 <= j < |schema| ==> schema[j].name != extra
    ensures CreateTableSql(table, schema, Some(parts + [extra])) == CreateTableSql(table, schema, Some(parts))
  {
    SplitFollowsMembership(schema, Some(parts + [extra]), Some(parts));
  }

  /** Every schema column lands in exactly one of the two lists: together they are the schema. */
  lemma {:induction false} SplitIsPartition(schema: seq<Column>, parts: Option<seq<string>>)
    ensures multiset(DataColumns(schema, parts)) + multiset(PartitionColumns(schema, parts)) == multiset(schema)
  {
    if |schema| > 0 {
      var init, last := schema[..|schema| - 1], schema[|schema| - 1];
      SplitIsPartition(init, parts);
      assert schema == init + [last];
      SplitSnoc(init, last, parts);
      PartitionStep(init, last, DataColumns(init, parts), PartitionColumns(init, parts),
                    DataColumns(schema, parts), PartitionColumns(schema, parts), InPartition(last, parts));
    }
  }

  /** The step of `SplitIsPartition`: the new column goes to exactly one side. */
  lemma PartitionStep(init: seq<Column>, last: Column, data: seq<Column>, partition: seq<Column>,
                      data': seq<Column>, partition': seq<Column>, inPartition: bool)
    requires multiset(data) + multiset(partition) == multiset(init)
    requires data' == data + (if inPartition then [] else [last])
    requires partition' == partition + (if inPartition then [last] else [])
    ensures multiset(data') + multiset(partition') == multiset(init + [last])
  {
  }

  lemma {:induction false} NoPartitionsKeepsSchema(schema: seq<Column>)
    ensures DataColumns(schema, None) == schema
    ensures PartitionColumns(schema, None) == []
  {
    if |schema| > 0 {
      NoPartitionsKeepsSchema(schema[..|schema| - 1]);
      assert schema == schema[..|schema| - 1] + [schema[|schema| - 1]];
    }
  }

  /** Without partition columns there is no PARTITIONED BY clause and every column is declared. */
  lemma UnpartitionedStatement(table: string, schema: seq<Column>)
    requires AllSupported(schema)
    ensures CreateTableSql(table, schema, None) ==
      Ok("CREATE TABLE " + table + " (" + Join(Definitions(schema), ", ") + ")" + " STORED AS PARQUET")
  {
    NoPartitionsKeepsSchema(schema);
    var j := FirstUnsupported(schema);
    assert j == |schema|;
    var head := "CREATE TABLE " + table + " (" + Join(Definitions(schema), ", ") + ")";
    assert |PartitionColumns(schema, None)| == 0;
    assert Definitions(DataColumns(schema, None)) == Definitions(schema);
    assert CreateTableSql(table, schema, None) == Ok(head + "" + " STORED AS PARQUET");
    assert head + "" == head;
  }

  /** A column appended to the schema lands at the end of exactly one of the two lists. */
  lemma SplitSnoc(schema: seq<Column>, c: Column, parts: Option<seq<string>>)
    ensures DataColumns(schema + [c], parts) == DataColumns(schema, parts) + (if InPartition(c, parts) then [] else [c])
    ensures PartitionColumns(schema + [c], parts) == PartitionColumns(schema, parts) + (if InPartition(c, parts) then [c] else [])
  {
    assert (schema + [c])[..|schema|] == schema;
  }

  lemma DefinitionsSnoc(cols: seq<Column>, c: Column)
    requires AllSupported(cols) && Supported(c.dtype)
    ensures AllSupported(cols + [c])
    ensures Definitions(cols + [c]) == Definitions(cols) + [Definition(c)]
  {
  }

  /** FirstUnsupported finds the first column, in schema order, with no warehouse type. */
  lemma {:induction false} FirstUnsupportedAt(schema: seq<Column>, i: nat)
    requires i < |schema| && AllSupported(schema[..i]) && !Supported(schema[i].dtype)
    ensures FirstUnsupported(schema) == i
    decreases i
  {
    if i > 0 {
      assert Supported(schema[..i][0].dtype);
      assert schema[1..][..i - 1] == schema[..i][1..];
      FirstUnsupportedAt(schema[1..], i - 1);
    }
  }

  lemma AllSupportedHasNoFirst(schema: seq<Column>)
    requires AllSupported(schema)
    ensures FirstUnsupported(schema) == |schema|
  {
  }

  /** `columns` and `partitions` are the definitions of the first `i` schema columns, split by membership. */
  predicate DefinitionsSoFar(schema: seq<Column>, i: nat, parts: Option<seq<string>>, columns: seq<string>, partitions: seq<string>)
    requires i <= |schema|
  {
    AllSupported(schema[..i]) &&
    AllSupported(DataColumns(schema[..i], parts)) && columns == Definitions(DataColumns(schema[..i], parts)) &&
    AllSupported(PartitionColumns(schema[..i], parts)) && partitions == Definitions(PartitionColumns(schema[..i], parts))
  }

  /** One more column with a warehouse type: its definition joins the list its membership picks. */
  lemma DefinitionsStep(schema: seq<Column>, i: nat, parts: Option<seq<string>>, columns: seq<string>, partitions: seq<string>)
    requires i < |schema| && DefinitionsSoFar(schema, i, parts, columns, partitions) && Supported(schema[i].dtype)
    ensures InPartition(schema[i], parts) ==> DefinitionsSoFar(schema, i + 1, parts, columns, partitions + [Definition(schema[i])])
    ensures !InPartition(schema[i], parts) ==> DefinitionsSoFar(schema, i + 1, parts, columns + [Definition(schema[i])], partitions)
  {
    if InPartition(schema[i], parts) {
      PartitionDefinitionStep(schema, i, parts, columns, partitions);
    } else {
      DataDefinitionStep(schema, i, parts, columns, partitions);
    }
  }

  /** `DefinitionsStep` for a partition column. */
  lemma PartitionDefinitionStep(schema: seq<Column>, i: nat, parts: Option<seq<string>>, columns: seq<string>, partitions: seq<string>)
    requires i < |schema| && DefinitionsSoFar(schema, i, parts, columns, partitions) && Supported(schema[i].dtype)
    requires InPartition(schema[i], parts)
    ensures DefinitionsSoFar(schema, i + 1, parts, columns, partitions + [Definition(schema[i])])
  {
    var c, init := schema[i], schema[..i];
    assert schema[..i + 1] == init + [c];
    SplitSnoc(init, c, parts);
    DefinitionsSnoc(init, c);
    assert DataColumns(init + [c], parts) == DataColumns(init, parts) + [];
    assert PartitionColumns(init + [c], parts) == PartitionColumns(init, parts) + [c];
    DefinitionsSnoc(PartitionColumns(init, parts), c);
  }

  /** `DefinitionsStep` for a data column. */
  lemma DataDefinitionStep(schema: seq<Column>, i: nat, parts: Option<seq<string>>, columns: seq<string>, partitions: seq<string>)
    requires i < |schema| && DefinitionsSoFar(schema, i, parts, columns, partitions) && Supported(schema[i].dtype)
    requires !InPartition(schema[i], parts)
    ensures DefinitionsSoFar(schema, i + 1, parts, columns + [Definition(schema[i])], partitions)
  {
    var c, init := schema[i], schema[..i];
    assert schema[..i + 1] == init + [c];
    SplitSnoc(init, c, parts);
    DefinitionsSnoc(init, c);
    assert PartitionColumns(init + [c], parts) == PartitionColumns(init, parts) + [];
    assert DataColumns(init + [c], parts) == DataColumns(init, parts) + [c];
    DefinitionsSnoc(DataColumns(init, parts), c);
  }

  /** With every type mapped, the statement is built from the two definition lists. */
  lemma CreateFromDefinitions(table: string, schema: seq<Column>, parts: Option<seq<string>>)
    requires AllSupported(schema)
    ensures AllSupported(DataColumns(schema, parts)) && AllSupported(PartitionColumns(schema, parts))
    ensures CreateTableSql(table, schema, parts) ==
      Ok(CreateText(table, Definitions(DataColumns(schema, parts)), Definitions(PartitionColumns(schema, parts))))
  {
    AllSupportedHasNoFirst(schema);
    assert schema[..|schema|] == schema;
    SubsetSupported(DataColumns(schema, parts), schema);
    SubsetSupported(PartitionColumns(schema, parts), schema);
  }

  /** The first unmapped type, in schema order, is the error. */
  lemma CreateFailsAt(table: string, schema: seq<Column>, parts: Option<seq<string>>, i: nat)
    requires i < |schema| && AllSupported(schema[..i]) && !Supported(schema[i].dtype)
    ensures CreateTableSql(table, schema, parts) == Err(UnsupportedType(schema[i].dtype))
  {
    FirstUnsupportedAt(schema, i);
  }

  /** CREATE succeeds iff every column type maps; otherwise it fails on the first
      column, in schema order, whose type does not. */
  lemma CreateFailsOnFirstUnsupported(table: string, schema: seq<Column>, parts: Option<seq<string>>)
    ensures CreateTableSql(table, schema, parts).Ok? <==> AllSupported(schema)
    ensures CreateTableSql(table, schema, parts).Err? ==>
      exists j :: 0 <= j < |schema| && AllSupported(schema[..j]) && !Supported(schema[j].dtype) &&
        CreateTableSql(table, schema, parts).error == UnsupportedType(schema[j].dtype)
  {
    var j := FirstUnsupported(schema);
    if j == |schema| {
      assert schema[..j] == schema;
    }
  }

  lemma ExampleSplit(a: Column, b: Column, p: Column)
    requires a.name == "a" && b.name == "b" && p.name == "p"
    ensures DataColumns([a, b, p], Some(["p"])) == [a, b]
    ensures PartitionColumns([a, b, p], Some(["p"])) == [p]
  {
    var parts := Some(["p"]);
    assert [a, b, p][..2] == [a, b] && [a, b][..1] == [a] && [a][..0] == [];
    assert !InPartition(a, parts) && !InPartition(b, parts) && InPartition(p, parts);
    assert DataColumns([a], parts) == [a];
    assert PartitionColumns([a], parts) == [];
  }

  lemma ExampleStatement(table: string, a: Column, b: Column, p: Column)
    requires a.name == "a" && b.name == "b" && p.name == "p"
    requires Supported(a.dtype) && Supported(b.dtype) && Supported(p.dtype)
    ensures CreateTableSql(table, [a, b, p], Some(["p"])) ==
      Ok("CREATE TABLE " + table + " (" + Definition(a) + ", " + Definition(b) + ")" +
         " PARTITIONED BY (" + Definition(p) + ")" + " STORED AS PARQUET")
  {
    ExampleSplit(a, b, p);
    assert FirstUnsupported([a, b, p]) == 3;
    assert [a, b, p][..3] == [a, b, p];
    assert Definitions([a, b]) == [Definition(a), Definition(b)];
    assert Definitions([p]) == [Definition(p)];
    assert CreateTableSql(table, [a, b, p], Some(["p"])) ==
      Ok(CreateText(table, [Definition(a), Definition(b)], [Definition(p)]));
    ExampleText(table, Definition(a), Definition(b), Definition(p));
  }

  /** The statement text for two data columns and one partition column. */
  lemma ExampleText(table: string, x: string, y: string, z: string)
    ensures CreateText(table, [x, y], [z]) ==
      "CREATE TABLE " + table + " (" + x + ", " + y + ")" + " PARTITIONED BY (" + z + ")" + " STORED AS PARQUET"
  {
    assert Join([x, y], ", ") == x + ", " + y by { assert [x, y][1..] == [y]; }
    assert Join([z], ", ") == z;
    var head := "CREATE TABLE " + table + " (";
    assert head + (x + ", " + y) == head + x + ", " + y;
  }

  /** The statement for data columns `a: Int64`, `b: String` and partition column `p: String`. */
  lemma PartitionedExample()
    ensures CreateTableSql("t", [Column("a", Int64), Column("b", String), Column("p", String)], Some(["p"])) ==
      Ok("CREATE TABLE " + "t" + " (" + "a BIGINT" + ", " + "b STRING" + ")" +
         " PARTITIONED BY (" + "p STRING" + ")" + " STORED AS PARQUET")
  {
    ExampleDefinitions();
    ExampleStatement("t", Column("a", Int64), Column("b", String), Column("p", String));
  }

  /** The definitions of the columns of `PartitionedExample`. */
  lemma ExampleDefinitions()
    ensures Supported(Int64) && Supported(String)
    ensures Definition(Column("a", Int64)) == "a BIGINT"
    ensures Definition(Column("b", String)) == "b STRING"
    ensures Definition(Column("p", String)) == "p STRING"
  {
    assert PolarsToHiveType(Int64) == Ok(BIGINT) && PolarsToHiveType(String) == Ok(STRING);
    assert "a" + " " + "BIGINT" == "a BIGINT";
    assert "b" + " " + "STRING" == "b STRING";
    assert "p" + " " + "STRING" == "p STRING";
  }
}
