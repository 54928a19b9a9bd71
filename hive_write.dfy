/** `RustHiveWriter` and `RustHiveWriteContext`: the writer's connection flag,
    its entry points, and the write pipeline that carries out a `WritePlan`
    statement by statement against the warehouse client. */
module HiveWrite {
  import opened Results
  import opened Text
  import opened Polars
  import opened HiveErrors
  import opened TypeMapping
  import opened SchemaBuilder
  import opened ValueFormat
  import opened Warehouse
  import opened WritePlanning
  import opened HiveSettings

  /** The client is in the state `t` leaves behind, starting from `log` and `files`, and `r` is how `t` ended. */
  predicate Traced(w: Client, log: seq<Event>, files: set<string>, t: Trace, r: Outcome<Error>)
    reads w
  {
    w.log == log + t.events && w.tempFiles == t.files && r == t.outcome
  }

  /** The client is in the state running `steps` leaves behind. */
  predicate Ran(w: Client, log: seq<Event>, files: set<string>, steps: seq<Step>, r: Outcome<Error>)
    reads w
  {
    Traced(w, log, files, Run(w.oracles.rejects, log, files, steps), r)
  }

  /** After an existence check that found `present`, running the plan it selects
      is the whole write's trace. */
  lemma CheckedThenRan(o: Oracles, log0: seq<Event>, files0: set<string>, req: WriteRequest, s: Surroundings,
                       present: bool, log: seq<Event>, files: set<string>, r: Outcome<Error>)
    requires o.probe(log0, req.table) == Found(present)
    requires var t := Run(o.rejects, log0 + [Checked(req.table)], files0, WritePlan(req, present, s, o.staging));
      log == log0 + [Checked(req.table)] + t.events && files == t.files && r == t.outcome
    ensures var t := WriteTrace(o, log0, files0, req, s);
      log == log0 + t.events && files == t.files && r == t.outcome
  {
    var t := Run(o.rejects, log0 + [Checked(req.table)], files0, WritePlan(req, present, s, o.staging));
    WriteTraceFound(o, log0, files0, req, s, present);
    LogAfterCheck(log0, Checked(req.table), t, WriteTrace(o, log0, files0, req, s), log);
  }

  lemma LogAfterCheck(log0: seq<Event>, check: Event, t: Trace, w: Trace, log: seq<Event>)
    requires w.events == [check] + t.events
    requires log == log0 + [check] + t.events
    ensures log == log0 + w.events
  {
  }

  class HiveWriter {
    const config: HiveConfig
    const warehouse: Client
    var connected: bool

    /** `RustHiveWriter::new`: starts disconnected; no configuration means the defaults. */
    constructor (config: Option<HiveConfig>, warehouse: Client)
      ensures this.config == config.GetOr(DefaultHiveConfig())
      ensures this.warehouse == warehouse && !connected
    {
      this.config := config.GetOr(DefaultHiveConfig());
      this.warehouse := warehouse;
      connected := false;
    }

    method Connect()
      modifies this`connected
      ensures connected
    {
      connected := true;
    }

    /** Clears the flag; already disconnected is a successful no-op. */
    method Disconnect() returns (r: Outcome<Error>)
      modifies this`connected
      ensures !connected && r == Pass
    {
      if connected {
        connected := false;
      }
      r := Pass;
    }

    function IsConnected(): bool
      reads this`connected
    {
      connected
    }

    function GetConfig(): HiveConfig {
      config
    }

    /** `write_table`: mode defaults to ErrorIfExists and `create_table` to true;
        a disconnected writer fails and sends nothing. */
    method WriteTable(df: DataFrame, table: string, mode: Option<WriteMode>, parts: Option<seq<string>>,
                      create: Option<bool>, s: Surroundings) returns (r: Outcome<Error>)
      modifies warehouse
      ensures !connected ==> r == Fail(NotConnected) && unchanged(warehouse)
      ensures connected ==>
        Traced(warehouse, old(warehouse.log), old(warehouse.tempFiles),
               WriteTrace(warehouse.oracles, old(warehouse.log), old(warehouse.tempFiles),
                          WriteRequest(df, table, mode.GetOr(ErrorIfExists), parts, create.GetOr(true)), s), r)
    {
      if !connected {
        return Fail(NotConnected);
      }
      r := ExecuteWriteOperation(WriteRequest(df, table, mode.GetOr(ErrorIfExists), parts, create.GetOr(true)), s);
    }

    /** `create_table_from_dataframe`: only the CREATE, guarded by the connection flag. */
    method CreateTableFromDataframe(df: DataFrame, table: string, parts: Option<seq<string>>) returns (r: Outcome<Error>)
      modifies warehouse`log
      ensures !connected ==> r == Fail(NotConnected) && warehouse.log == old(warehouse.log)
      ensures connected ==> Ran(warehouse, old(warehouse.log), warehouse.tempFiles, CreatePlan(table, df.schema, parts), r)
    {
      if !connected {
        return Fail(NotConnected);
      }
      r := CreateTableSchema(df, table, parts);
    }

    /** `drop_table`: `DROP TABLE [IF EXISTS] <name>`, `if_exists` defaulting to false. */
    method DropTable(table: string, ifExists: Option<bool>) returns (r: Outcome<Error>)
      modifies warehouse`log
      ensures !connected ==> r == Fail(NotConnected) && warehouse.log == old(warehouse.log)
      ensures connected ==> Ran(warehouse, old(warehouse.log), warehouse.tempFiles, [Exec(DropSql(table, ifExists.GetOr(false)))], r)
    {
      if !connected {
        return Fail(NotConnected);
      }
      var sql := DropSql(table, ifExists.GetOr(false));
      RunOneStatement(warehouse.oracles.rejects, warehouse.log, warehouse.tempFiles, sql);
      r := warehouse.ExecuteDdl(sql);
    }

    /** `execute_write_operation`: one existence check, the pre-action, the CREATE
        when it is due, then ingestion; the first failure ends the write. */
    method ExecuteWriteOperation(req: WriteRequest, s: Surroundings) returns (r: Outcome<Error>)
      modifies warehouse
      ensures Traced(warehouse, old(warehouse.log), old(warehouse.tempFiles),
                     WriteTrace(warehouse.oracles, old(warehouse.log), old(warehouse.tempFiles), req, s), r)
    {
      var o := warehouse.oracles;
      var found := warehouse.CheckTableExists(req.table);
      if found.Err? {
        ProbeFailureSendsNothing(o, old(warehouse.log), old(warehouse.tempFiles), req, s);
        return Fail(found.error);
      }
      var present := found.value;
      ghost var h, files := warehouse.log, warehouse.tempFiles;
      ghost var plan := WritePlan(req, present, s, o.staging);
      if req.mode == ErrorIfExists && present {
        r := Fail(TableAlreadyExists(req.table));
        assert plan == [Abort(TableAlreadyExists(req.table))];
        assert Run(o.rejects, h, files, plan) == Trace([], r, files);
        assert warehouse.log == h + [];
      } else if req.mode == Ignore && present {
        r := Pass;
        assert plan == [];
        assert warehouse.log == h + [];
      } else {
        ghost var pre, create, ingest := PrePlan(req, present), CreatePart(req, present), IngestPart(req, s, o.staging);
        PlanParts(req, present, s, o.staging);
        if req.mode == Overwrite && present {
          var sql := DropSql(req.table, false);
          RunOneStatement(o.rejects, h, files, sql);
          r := warehouse.ExecuteDdl(sql);
        } else {
          assert pre == [];
          r := Pass;
        }
        assert Ran(warehouse, h, files, pre, r);
        if r.Pass? {
          ghost var log1, files1 := warehouse.log, warehouse.tempFiles;
          if CreatesTable(req.mode, present, req.create) {
            r := CreateTableSchema(req.df, req.table, req.parts);
          } else {
            assert create == [];
            r := Pass;
          }
          RunThen(o.rejects, h, files, pre, create, log1, files1);
          if r.Pass? {
            ghost var log2, files2 := warehouse.log, warehouse.tempFiles;
            assert ingest == IngestPlan(SelectStrategy(s.env), req.table, req.df, s.now, o.staging(TempCsvPath(req.table, s.now)));
            r := InsertDataframeData(req.df, req.table, req.parts, s);
            RunThen(o.rejects, h, files, pre + create, ingest, log2, files2);
          } else {
            RunStops(o.rejects, h, files, pre + create, ingest);
          }
        } else {
          RunStops(o.rejects, h, files, pre, create);
          RunStops(o.rejects, h, files, pre + create, ingest);
        }
      }
      CheckedThenRan(o, old(warehouse.log), old(warehouse.tempFiles), req, s, present, warehouse.log, warehouse.tempFiles, r);
    }

    /** `create_table_schema`: one pass over the schema in order, mapping each type
        and putting its definition in the data or the partition list, then one
        CREATE statement; an unmappable type fails before anything is sent. */
    method CreateTableSchema(df: DataFrame, table: string, parts: Option<seq<string>>) returns (r: Outcome<Error>)
      modifies warehouse`log
      ensures Ran(warehouse, old(warehouse.log), warehouse.tempFiles, CreatePlan(table, df.schema, parts), r)
    {
      var schema := df.schema;
      var columnDefinitions: seq<string> := [];
      var partitionDefinitions: seq<string> := [];
      var i := 0;
      while i < |schema|
        invariant i <= |schema| && DefinitionsSoFar(schema, i, parts, columnDefinitions, partitionDefinitions)
        invariant warehouse.log == old(warehouse.log)
      {
        var column := schema[i];
        var hiveType := PolarsToHiveType(column.dtype);
        if hiveType.Err? {
          SupportedTypes(column.dtype);
          CreateFailsAt(table, schema, parts, i);
          assert warehouse.log == old(warehouse.log) + [];
          return Fail(hiveType.error);
        }
        var definition := column.name + " " + hiveType.value.Keyword();
        DefinitionsStep(schema, i, parts, columnDefinitions, partitionDefinitions);
        if InPartition(column, parts) {
          partitionDefinitions := partitionDefinitions + [definition];
        } else {
          columnDefinitions := columnDefinitions + [definition];
        }
        i := i + 1;
      }
      assert schema[..i] == schema;
      CreateFromDefinitions(table, schema, parts);
      var sql := "CREATE TABLE " + table + " (" + Join(columnDefinitions, ", ") + ")";
      if |partitionDefinitions| > 0 {
        sql := sql + " PARTITIONED BY (" + Join(partitionDefinitions, ", ") + ")";
      }
      sql := sql + " STORED AS PARQUET";
      CreateTextPieces(table, columnDefinitions, partitionDefinitions);
      RunOneStatement(warehouse.oracles.rejects, warehouse.log, warehouse.tempFiles, sql);
      r := warehouse.ExecuteDdl(sql);
    }

    /** `insert_dataframe_data`: CSV load if `USE_CSV_LOAD` is `true`, else Parquet if
        `USE_PARQUET_LOAD` is `true`, else inline INSERTs. */
    method InsertDataframeData(df: DataFrame, table: string, parts: Option<seq<string>>, s: Surroundings) returns (r: Outcome<Error>)
      modifies warehouse
      ensures Ran(warehouse, old(warehouse.log), old(warehouse.tempFiles),
                  IngestPlan(SelectStrategy(s.env), table, df, s.now, warehouse.oracles.staging(TempCsvPath(table, s.now))), r)
    {
      if Flag(s.env, "USE_CSV_LOAD") {
        r := InsertViaCsvLoad(df, table, s.now);
      } else if Flag(s.env, "USE_PARQUET_LOAD") {
        r := InsertViaParquetLoad(df, table);
      } else {
        r := InsertViaSqlStatements(df, table);
      }
    }

    /** `insert_via_csv_load`: create and write the CSV file, LOAD it, then remove
        it; a failed write or a failed LOAD returns before the removal and the file
        stays, and a failed removal is ignored. */
    method InsertViaCsvLoad(df: DataFrame, table: string, now: int) returns (r: Outcome<Error>)
      modifies warehouse
      ensures var path := TempCsvPath(table, now);
        Ran(warehouse, old(warehouse.log), old(warehouse.tempFiles), CsvPlan(table, path, warehouse.oracles.staging(path)), r)
    {
      var path := TempCsvPath(table, now);
      CsvLoadFiles(warehouse.oracles.rejects, warehouse.log, warehouse.tempFiles, table, path, warehouse.oracles.staging(path));
      var staged := warehouse.StageFile(path);
      if !staged {
        return Fail(StagingFailed(path));
      }
      r := warehouse.ExecuteDdl(LoadSql(path, table));
      if r.Fail? {
        return;
      }
      warehouse.RemoveFile(path);
    }

    /** `insert_via_parquet_load`: only announces a file name; nothing is sent. */
    method InsertViaParquetLoad(df: DataFrame, table: string) returns (r: Outcome<Error>)
      ensures r == Pass
    {
      r := Pass;
    }

    /** `insert_via_sql_statements`: rows in batches of 100, one INSERT per batch in
        row order; the first rejected batch stops the rest. */
    method InsertViaSqlStatements(df: DataFrame, table: string) returns (r: Outcome<Error>)
      modifies warehouse`log
      ensures Ran(warehouse, old(warehouse.log), warehouse.tempFiles, InsertPlan(table, df), r)
    {
      var o := warehouse.oracles;
      ghost var h, files := warehouse.log, warehouse.tempFiles;
      ghost var plan := InsertPlan(table, df);
      var rows := df.height;
      var columnList := Join(df.ColumnNames(), ", ");
      var start := 0;
      ghost var k := 0;
      assert plan[..0] == [];
      while start < rows
        invariant k <= BatchCount(rows) && start == BatchStart(k)
        invariant start < rows <==> k < BatchCount(rows)
        invariant Ran(warehouse, h, files, plan[..k], Pass)
        decreases rows - start
      {
        BatchBounds(k, rows);
        var end := if start + BatchSize < rows then start + BatchSize else rows;
        var values := DataframeToValuesString(df.Slice(start, end - start));
        var sql := "INSERT INTO " + table + " (" + columnList + ") VALUES " + values;
        InsertPlanExtends(table, df, k, sql);
        RunNextStatement(o.rejects, h, files, plan, k, sql);
        r := warehouse.ExecuteDdl(sql);
        if r.Fail? {
          return;
        }
        k := k + 1;
        start := start + BatchSize;
        BatchBounds(k, rows);
      }
      assert plan[..k] == plan;
      r := Pass;
    }

    /** `dataframe_to_values_string`: `(v1, ..., vk)` per row, rows joined by `, `. */
    method DataframeToValuesString(df: DataFrame) returns (values: string)
      ensures values == ValuesText(df)
    {
      var rowTexts: seq<string> := [];
      var row := 0;
      while row < df.height
        invariant row <= df.height
        invariant rowTexts == seq(row, k requires 0 <= k < row => RowText(df, k))
      {
        var cells: seq<string> := [];
        var c := 0;
        while c < |df.columns|
          invariant c <= |df.columns|
          invariant cells == seq(c, j requires 0 <= j < c => FormatColumnValue(df.columns[j][row]))
        {
          cells := cells + [FormatColumnValue(df.columns[c][row])];
          c := c + 1;
        }
        assert cells == seq(|df.columns|, j requires 0 <= j < |df.columns| => FormatColumnValue(df.columns[j][row]));
        var rowText := "(" + Join(cells, ", ") + ")";
        assert rowText == RowText(df, row);
        rowTexts := rowTexts + [rowText];
        row := row + 1;
      }
      assert rowTexts == seq(df.height, k requires 0 <= k < df.height => RowText(df, k));
      values := Join(rowTexts, ", ");
    }
  }

  /** `RustHiveWriteContext`: connects on entry, disconnects on exit and never
      suppresses the exception. */
  class HiveWriteContext {
    const writer: HiveWriter

    constructor (config: Option<HiveConfig>, warehouse: Client)
      ensures fresh(writer) && !writer.connected && writer.warehouse == warehouse
      ensures writer.config == config.GetOr(DefaultHiveConfig())
    {
      writer := new HiveWriter(config, warehouse);
    }

    method Enter()
      modifies writer`connected
      ensures writer.connected
    {
      writer.Connect();
    }

    method Exit() returns (suppress: bool)
      modifies writer`connected
      ensures !writer.connected && !suppress
    {
      var _ := writer.Disconnect();
      suppress := false;
    }

    method WriteTable(df: DataFrame, table: string, mode: Option<WriteMode>, parts: Option<seq<string>>,
                      create: Option<bool>, s: Surroundings) returns (r: Outcome<Error>)
      modifies writer.warehouse
      ensures !writer.connected ==> r == Fail(NotConnected) && unchanged(writer.warehouse)
      ensures writer.connected ==>
        Traced(writer.warehouse, old(writer.warehouse.log), old(writer.warehouse.tempFiles),
               WriteTrace(writer.warehouse.oracles, old(writer.warehouse.log), old(writer.warehouse.tempFiles),
                          WriteRequest(df, table, mode.GetOr(ErrorIfExists), parts, create.GetOr(true)), s), r)
    {
      r := writer.WriteTable(df, table, mode, parts, create, s);
    }

    method CreateTableFromDataframe(df: DataFrame, table: string, parts: Option<seq<string>>) returns (r: Outcome<Error>)
      modifies writer.warehouse`log
      ensures !writer.connected ==> r == Fail(NotConnected) && writer.warehouse.log == old(writer.warehouse.log)
      ensures writer.connected ==>
        Ran(writer.warehouse, old(writer.warehouse.log), writer.warehouse.tempFiles, CreatePlan(table, df.schema, parts), r)
    {
      r := writer.CreateTableFromDataframe(df, table, parts);
    }

    method DropTable(table: string, ifExists: Option<bool>) returns (r: Outcome<Error>)
      modifies writer.warehouse`log
      ensures !writer.connected ==> r == Fail(NotConnected) && writer.warehouse.log == old(writer.warehouse.log)
      ensures writer.connected ==>
        Ran(writer.warehouse, old(writer.warehouse.log), writer.warehouse.tempFiles, [Exec(DropSql(table, ifExists.GetOr(false)))], r)
    {
      r := writer.DropTable(table, ifExists);
    }

    function IsConnected(): bool
      reads writer
    {
      writer.IsConnected()
    }

    function GetConfig(): HiveConfig {
      writer.GetConfig()
    }
  }
}
