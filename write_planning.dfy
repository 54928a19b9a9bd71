/** The decisions `execute_write_operation` makes, as plans of steps: what to do
    about an existing table, whether to CREATE, which ingestion strategy to use
    and how inline INSERTs are batched. The writer's methods carry these plans
    out one statement at a time; a plan run by `Warehouse.Run` is what they do. */
module WritePlanning {
  import opened Results
  import opened Text
  import opened Polars
  import opened HiveErrors
  import opened SchemaBuilder
  import opened ValueFormat
  import opened Warehouse

  datatype WriteMode = Overwrite | Append | ErrorIfExists | Ignore

  /** What to do, given the mode and whether the table exists, before any data moves. */
  datatype PreAction = FailExisting | SkipWrite | DropFirst | Proceed

  function ConflictAction(mode: WriteMode, present: bool): PreAction {
    if !present then Proceed
    else match mode
      case ErrorIfExists => FailExisting
      case Ignore => SkipWrite
      case Overwrite => DropFirst
      case Append => Proceed
  }

  /** Whether the write issues CREATE: the table is absent or being overwritten, and creation was asked for. */
  predicate CreatesTable(mode: WriteMode, present: bool, create: bool) {
    (!present || mode == Overwrite) && create
  }

  /** `DROP TABLE [IF EXISTS] <name>`: the name ends the statement, and the
      statement is ten characters longer exactly when `IF EXISTS` is in it. */
  function DropSql(table: string, ifExists: bool): (sql: string)
    ensures |sql| == |table| + (if ifExists then 21 else 11)
    ensures StartsWith(sql, "DROP TABLE ") && sql[|sql| - |table|..] == table
  {
    if ifExists then "DROP TABLE IF EXISTS " + table else "DROP TABLE " + table
  }

  /** CREATE the table, or fail on the first column type with no warehouse type. */
  function CreatePlan(table: string, schema: seq<Column>, parts: Option<seq<string>>): seq<Step> {
    match CreateTableSql(table, schema, parts)
    case Ok(sql) => [Exec(sql)]
    case Err(e) => [Abort(e)]
  }

  // ---------------------------------------------------------------- strategy

  datatype Strategy = CsvLoad | ParquetLoad | InlineInsert

  /** An environment variable counts as set only when its value is exactly `true`. */
  predicate Flag(env: map<string, string>, name: string) {
    name in env && env[name] == "true"
  }

  function SelectStrategy(env: map<string, string>): (st: Strategy)
    ensures st == CsvLoad <==> Flag(env, "USE_CSV_LOAD")
    ensures st == ParquetLoad <==> !Flag(env, "USE_CSV_LOAD") && Flag(env, "USE_PARQUET_LOAD")
    ensures st == InlineInsert <==> !Flag(env, "USE_CSV_LOAD") && !Flag(env, "USE_PARQUET_LOAD")
  {
    if Flag(env, "USE_CSV_LOAD") then CsvLoad
    else if Flag(env, "USE_PARQUET_LOAD") then ParquetLoad
    else InlineInsert
  }

  // ---------------------------------------------------------------- CSV load

  /** `/tmp/<table>_<unix seconds>.csv`: the seconds read back from the name. */
  function TempCsvPath(table: string, now: int): (path: string)
    ensures var head := "/tmp/" + table + "_";
      StartsWith(path, head) && |path| >= |head| + 4 && path[|path| - 4..] == ".csv" &&
      ParseInt(path[|head|..|path| - 4]) == Some(now)
  {
    var head := "/tmp/" + table + "_";
    var path := head + DecimalText(now) + ".csv";
    assert path[|head|..|path| - 4] == DecimalText(now);
    DecimalTextParses(now);
    path
  }

  /** The statement names the quoted path first and the table last. */
  function LoadSql(path: string, table: string): (sql: string)
    ensures StartsWith(sql, "LOAD DATA LOCAL INPATH '" + path + "'")
    ensures |sql| >= |table| && sql[|sql| - |table|..] == table
  {
    "LOAD DATA LOCAL INPATH '" + path + "' INTO TABLE " + table
  }

  /** Create the CSV file, write the frame into it, LOAD it, remove it. A file
      that was created stays when writing into it fails, and a failed LOAD
      returns before the removal; a failed removal is ignored. */
  function CsvPlan(table: string, path: string, staged: Staging): seq<Step> {
    if !staged.created then [Abort(StagingFailed(path))]
    else if !staged.written then [Stage(path), Abort(StagingFailed(path))]
    else [Stage(path), Exec(LoadSql(path, table))] + (if staged.removed then [Unstage(path)] else [])
  }

  // ---------------------------------------------------------------- inline INSERT batches

  const BatchSize: nat := 100

  /** The number of batches `step_by(100)` visits for `n` rows. */
  function BatchCount(n: nat): nat {
    (n + BatchSize - 1) / BatchSize
  }

  function BatchStart(i: nat): nat {
    i * BatchSize
  }

  function BatchEnd(i: nat, n: nat): nat {
    if BatchStart(i) + BatchSize < n then BatchStart(i) + BatchSize else n
  }

  lemma BatchBounds(i: nat, n: nat)
    ensures i < BatchCount(n) <==> BatchStart(i) < n
    ensures i < BatchCount(n) ==> BatchStart(i) < BatchEnd(i, n) <= n
  {
  }

  /** The INSERT for rows `start..end`; it lists every column, partition columns included. */
  function InsertSql(table: string, df: DataFrame, start: nat, end: nat): (sql: string)
    requires start <= end <= df.height
    ensures StartsWith(sql, "INSERT INTO " + table + " (" + Join(df.ColumnNames(), ", ") + ") VALUES ")
  {
    "INSERT INTO " + table + " (" + Join(df.ColumnNames(), ", ") + ") VALUES " + ValuesText(df.Slice(start, end - start))
  }

  function InsertPlan(table: string, df: DataFrame): seq<Step> {
    seq(BatchCount(df.height), i requires 0 <= i < BatchCount(df.height) =>
      BatchBounds(i, df.height);
      Exec(InsertSql(table, df, BatchStart(i), BatchEnd(i, df.height))))
  }

  /** Batch `k`'s INSERT, as the batch loop builds it. */
  lemma InsertPlanExtends(table: string, df: DataFrame, k: nat, sql: string)
    requires k < BatchCount(df.height)
    requires BatchStart(k) <= BatchEnd(k, df.height) <= df.height
    requires sql == "INSERT INTO " + table + " (" + Join(df.ColumnNames(), ", ") + ") VALUES " +
                    ValuesText(df.Slice(BatchStart(k), BatchEnd(k, df.height) - BatchStart(k)))
    ensures |InsertPlan(table, df)| == BatchCount(df.height)
    ensures InsertPlan(table, df)[k] == Exec(sql)
  {
  }

  /** Loading the rows with the chosen strategy; `staged` is what the file system does with the CSV file. */
  function IngestPlan(strategy: Strategy, table: string, df: DataFrame, now: int, staged: Staging): seq<Step> {
    match strategy
    case CsvLoad => CsvPlan(table, TempCsvPath(table, now), staged)
    case ParquetLoad => []
    case InlineInsert => InsertPlan(table, df)
  }

  // ---------------------------------------------------------------- the whole write

  /** One call of `write_table` on a connected writer. */
  datatype WriteRequest = WriteRequest(
    df: DataFrame, table: string, mode: WriteMode, parts: Option<seq<string>>, create: bool)

  /** What the process contributes to one write: its environment variables and the clock. */
  datatype Surroundings = Surroundings(env: map<string, string>, now: int)

  function StagedPath(req: WriteRequest, s: Surroundings): string {
    TempCsvPath(req.table, s.now)
  }

  /** The DROP an Overwrite of an existing table sends first. */
  function PrePlan(req: WriteRequest, present: bool): seq<Step> {
    if ConflictAction(req.mode, present) == DropFirst then [Exec(DropSql(req.table, false))] else []
  }

  function CreatePart(req: WriteRequest, present: bool): seq<Step> {
    if CreatesTable(req.mode, present, req.create) then CreatePlan(req.table, req.df.schema, req.parts) else []
  }

  /** Ingestion with the strategy the environment selects; `staging` says what the file system does with each local file. */
  function IngestPart(req: WriteRequest, s: Surroundings, staging: string -> Staging): seq<Step> {
    IngestPlan(SelectStrategy(s.env), req.table, req.df, s.now, staging(StagedPath(req, s)))
  }

  /** The steps after the existence check found `present`. */
  function WritePlan(req: WriteRequest, present: bool, s: Surroundings, staging: string -> Staging): seq<Step> {
    match ConflictAction(req.mode, present)
    case FailExisting => [Abort(TableAlreadyExists(req.table))]
    case SkipWrite => []
    case _ => PrePlan(req, present) + CreatePart(req, present) + IngestPart(req, s, staging)
  }

  /** The whole write: one existence check, then the plan it selects. */
  function WriteTrace(o: Oracles, hist: seq<Event>, files: set<string>, req: WriteRequest, s: Surroundings): (t: Trace)
    ensures |t.events| > 0 && t.events[0] == Checked(req.table)
    ensures o.probe(hist, req.table).ProbeFailed? ==>
      t.events == [Checked(req.table)] && t.outcome == Fail(ExistenceCheckFailed(req.table)) && t.files == files
  {
    match o.probe(hist, req.table)
    case ProbeFailed => Trace([Checked(req.table)], Fail(ExistenceCheckFailed(req.table)), files)
    case Found(present) =>
      var t := Run(o.rejects, hist + [Checked(req.table)], files, WritePlan(req, present, s, o.staging));
      Trace([Checked(req.table)] + t.events, t.outcome, t.files)
  }

  /** A check that found `present` is followed by the run of the plan it selects. */
  lemma WriteTraceFound(o: Oracles, hist: seq<Event>, files: set<string>, req: WriteRequest, s: Surroundings, present: bool)
    requires o.probe(hist, req.table) == Found(present)
    ensures var t := Run(o.rejects, hist + [Checked(req.table)], files, WritePlan(req, present, s, o.staging));
      WriteTrace(o, hist, files, req, s) == Trace([Checked(req.table)] + t.events, t.outcome, t.files)
  {
  }

  // ---------------------------------------------------------------- properties

  /** The conflict table read in both directions: only an existing table triggers a pre-action. */
  lemma ConflictTable(mode: WriteMode, present: bool)
    ensures ConflictAction(mode, present) == FailExisting <==> present && mode == ErrorIfExists
    ensures ConflictAction(mode, present) == SkipWrite <==> present && mode == Ignore
    ensures ConflictAction(mode, present) == DropFirst <==> present && mode == Overwrite
    ensures ConflictAction(mode, present) == Proceed <==> !present || mode == Append
  {
  }

  /** CSV load beats Parquet load, which beats inline INSERTs. */
  lemma AttemptLogsStatements(sqls: seq<string>, lastRefused: bool)
    ensures forall i :: 0 <= i < |Attempt(sqls, lastRefused)| ==>
      Attempt(sqls, lastRefused)[i].Executed? || Attempt(sqls, lastRefused)[i].Refused?
  {
  }

  /** The existence check is consulted exactly once per write, before any statement. */
  lemma CheckedOnceFirst(o: Oracles,
                         hist: seq<Event>, files: set<string>, req: WriteRequest, s: Surroundings)
    ensures var t := WriteTrace(o, hist, files, req, s);
      |t.events| > 0 && t.events[0] == Checked(req.table) &&
      forall i :: 0 < i < |t.events| ==> t.events[i].Executed? || t.events[i].Refused?
  {
    if o.probe(hist, req.table).Found? {
      var plan := WritePlan(req, o.probe(hist, req.table).present, s, o.staging);
      var run := Run(o.rejects, hist + [Checked(req.table)], files, plan);
      RunLogsPrefix(o.rejects, hist + [Checked(req.table)], files, plan);
      AttemptLogsStatements(Sent(plan)[..|run.events|], EndsRefused(run.events));
    }
  }

  /** A failed existence check ends the write before any statement. */
  lemma ProbeFailureSendsNothing(o: Oracles,
                                 hist: seq<Event>, files: set<string>, req: WriteRequest, s: Surroundings)
    requires o.probe(hist, req.table) == ProbeFailed
    ensures WriteTrace(o, hist, files, req, s) ==
      Trace([Checked(req.table)], Fail(ExistenceCheckFailed(req.table)), files)
  {
  }

  /** ErrorIfExists on an existing table fails without sending any statement. */
  lemma ErrorIfExistsSendsNothing(o: Oracles,
                                  hist: seq<Event>, files: set<string>, req: WriteRequest, s: Surroundings)
    requires o.probe(hist, req.table) == Found(true) && req.mode == ErrorIfExists
    ensures WriteTrace(o, hist, files, req, s) ==
      Trace([Checked(req.table)], Fail(TableAlreadyExists(req.table)), files)
  {
  }

  /** Ignore on an existing table succeeds without sending any statement, so repeating it changes nothing. */
  lemma IgnoreExistingSendsNothing(o: Oracles,
                                   hist: seq<Event>, files: set<string>, req: WriteRequest, s: Surroundings)
    requires o.probe(hist, req.table) == Found(true) && req.mode == Ignore
    ensures WriteTrace(o, hist, files, req, s) == Trace([Checked(req.table)], Pass, files)
  {
  }

  /** Overwrite on an existing table sends `DROP TABLE <name>` first; if it is
      rejected the write ends there. */
  lemma OverwriteDropsFirst(o: Oracles,
                            hist: seq<Event>, files: set<string>, req: WriteRequest, s: Surroundings)
    requires o.probe(hist, req.table) == Found(true) && req.mode == Overwrite
    ensures var t := WriteTrace(o, hist, files, req, s);
      var drop := DropSql(req.table, false);
      |t.events| >= 2 &&
      (t.events[1] == Executed(drop) || t.events[1] == Refused(drop)) &&
      (t.events[1] == Refused(drop) ==> t == Trace([Checked(req.table), Refused(drop)], Fail(ExecutionFailed(drop)), files))
  {
    var plan := WritePlan(req, true, s, o.staging);
    assert plan[0] == Exec(DropSql(req.table, false));
  }

  predicate IsCreate(sql: string) {
    StartsWith(sql, "CREATE TABLE ")
  }

  lemma CreateHead(sql: string)
    ensures IsCreate(sql) ==> |sql| > 0 && sql[0] == 'C'
  {
    if IsCreate(sql) {
      assert sql[0] == sql[..13][0];
    }
  }

  lemma LoadIsNotCreate(path: string, table: string)
    ensures LoadSql(path, table)[0] == 'L'
  {
  }

  lemma InsertIsNotCreate(table: string, df: DataFrame, start: nat, end: nat)
    requires start <= end <= df.height
    ensures InsertSql(table, df, start, end)[0] == 'I'
  {
  }

  lemma IngestSendsNoCreate(strategy: Strategy, table: string, df: DataFrame, now: int, staged: Staging)
    ensures forall sql :: sql in Sent(IngestPlan(strategy, table, df, now, staged)) ==> !IsCreate(sql)
  {
    var plan := IngestPlan(strategy, table, df, now, staged);
    forall sql | sql in Sent(plan) ensures !IsCreate(sql) {
      CreateHead(sql);
      SentFromExec(plan, sql);
      var i :| 0 <= i < |plan| && plan[i] == Exec(sql);
      match strategy
      case CsvLoad =>
        LoadIsNotCreate(TempCsvPath(table, now), table);
      case ParquetLoad =>
      case InlineInsert =>
        BatchBounds(i, df.height);
        InsertIsNotCreate(table, df, BatchStart(i), BatchEnd(i, df.height));
    }
  }

  /** Every statement a plan sends comes from one of its Exec steps. */
  lemma {:induction false} SentFromExec(steps: seq<Step>, sql: string)
    requires sql in Sent(steps)
    ensures exists i :: 0 <= i < |steps| && steps[i] == Exec(sql)
    decreases |steps|
  {
    SentCons(steps);
    if steps[0] == Exec(sql) {
      assert steps[0] == Exec(sql);
    } else {
      assert sql in Sent(steps[1..]);
      SentFromExec(steps[1..], sql);
      var i :| 0 <= i < |steps[1..]| && steps[1..][i] == Exec(sql);
      assert steps[i + 1] == Exec(sql);
    }
  }

  lemma SentAppend(a: seq<Step>, b: seq<Step>)
    ensures Sent(a + b) == Sent(a) + Sent(b)
  {
    if |a| > 0 {
      SentCons(a + b);
      assert (a + b)[1..] == a[1..] + b;
      SentAppend(a[1..], b);
    } else {
      assert a + b == b;
    }
  }

  /** Past the pre-action, the plan sends the DROP (if any), the CREATE (if any), then the ingestion statements. */
  lemma WritePlanSends(req: WriteRequest, present: bool, s: Surroundings, staging: string -> Staging)
    requires ConflictAction(req.mode, present) in {DropFirst, Proceed}
    ensures Sent(WritePlan(req, present, s, staging)) == Sent(PrePlan(req, present)) + Sent(CreatePart(req, present)) + Sent(IngestPart(req, s, staging))
  {
    PlanParts(req, present, s, staging);
    SentOfParts(PrePlan(req, present), CreatePart(req, present), IngestPart(req, s, staging));
  }

  /** Unless it fails or skips at once, the plan is the pre-action, the CREATE part and the ingestion. */
  lemma PlanParts(req: WriteRequest, present: bool, s: Surroundings, staging: string -> Staging)
    requires ConflictAction(req.mode, present) in {DropFirst, Proceed}
    ensures WritePlan(req, present, s, staging) == PrePlan(req, present) + CreatePart(req, present) + IngestPart(req, s, staging)
  {
  }

  lemma SentOfParts(a: seq<Step>, b: seq<Step>, c: seq<Step>)
    ensures Sent(a + b + c) == Sent(a) + Sent(b) + Sent(c)
  {
    assert a + b + c == a + (b + c);
    SentAppend(b, c);
    SentAppend(a, b + c);
  }

  lemma PreSendsNoCreate(req: WriteRequest, present: bool)
    ensures forall sql :: sql in Sent(PrePlan(req, present)) ==> !IsCreate(sql)
  {
    forall sql | sql in Sent(PrePlan(req, present)) ensures !IsCreate(sql) {
      CreateHead(sql);
      assert sql == DropSql(req.table, false);
    }
  }

  lemma CreateSqlIsCreate(table: string, schema: seq<Column>, parts: Option<seq<string>>)
    requires CreateTableSql(table, schema, parts).Ok?
    ensures IsCreate(CreateTableSql(table, schema, parts).value)
  {
    var c := CreateTableSql(table, schema, parts).value;
    assert c[..13] == "CREATE TABLE ";
  }

  lemma CreatePlanned(req: WriteRequest, present: bool, s: Surroundings, staging: string -> Staging)
    requires ConflictAction(req.mode, present) in {DropFirst, Proceed}
    requires CreatesTable(req.mode, present, req.create) && CreateTableSql(req.table, req.df.schema, req.parts).Ok?
    ensures CreateTableSql(req.table, req.df.schema, req.parts).value in Sent(WritePlan(req, present, s, staging))
  {
    var pre, create, ingest := PrePlan(req, present), CreatePart(req, present), IngestPart(req, s, staging);
    WritePlanSends(req, present, s, staging);
    var c := CreateTableSql(req.table, req.df.schema, req.parts).value;
    assert create == [Exec(c)];
    assert Sent(create) == [c];
    assert (Sent(pre) + Sent(create) + Sent(ingest))[|Sent(pre)|] == c;
  }

  lemma NoCreatePlanned(req: WriteRequest, present: bool, s: Surroundings, staging: string -> Staging)
    requires ConflictAction(req.mode, present) in {DropFirst, Proceed}
    requires !(CreatesTable(req.mode, present, req.create) && CreateTableSql(req.table, req.df.schema, req.parts).Ok?)
    ensures forall sql :: sql in Sent(WritePlan(req, present, s, staging)) ==> !IsCreate(sql)
  {
    var pre, create, ingest := PrePlan(req, present), CreatePart(req, present), IngestPart(req, s, staging);
    WritePlanSends(req, present, s, staging);
    PreSendsNoCreate(req, present);
    IngestSendsNoCreate(SelectStrategy(s.env), req.table, req.df, s.now, staging(StagedPath(req, s)));
    assert Sent(create) == [] by {
      assert create == [] || create == [Abort(CreateTableSql(req.table, req.df.schema, req.parts).error)];
    }
    NoCreateInParts(Sent(pre), Sent(create), Sent(ingest));
  }

  lemma NoCreateInParts(a: seq<string>, b: seq<string>, c: seq<string>)
    requires b == []
    requires forall sql :: sql in a ==> !IsCreate(sql)
    requires forall sql :: sql in c ==> !IsCreate(sql)
    ensures forall sql :: sql in a + b + c ==> !IsCreate(sql)
  {
  }

  /** Once the pre-action lets the write go on, a CREATE statement is planned iff
      the table is absent or overwritten, creation was asked for, and every column
      type maps; the statement is then the schema's CREATE TABLE text. */
  lemma CreateIffRequested(req: WriteRequest, present: bool, s: Surroundings, staging: string -> Staging)
    requires ConflictAction(req.mode, present) in {DropFirst, Proceed}
    ensures (exists sql :: sql in Sent(WritePlan(req, present, s, staging)) && IsCreate(sql)) <==>
      CreatesTable(req.mode, present, req.create) && CreateTableSql(req.table, req.df.schema, req.parts).Ok?
    ensures CreatesTable(req.mode, present, req.create) && CreateTableSql(req.table, req.df.schema, req.parts).Ok? ==>
      CreateTableSql(req.table, req.df.schema, req.parts).value in Sent(WritePlan(req, present, s, staging))
  {
    if CreatesTable(req.mode, present, req.create) && CreateTableSql(req.table, req.df.schema, req.parts).Ok? {
      CreatePlanned(req, present, s, staging);
      CreateSqlIsCreate(req.table, req.df.schema, req.parts);
    } else {
      NoCreatePlanned(req, present, s, staging);
    }
  }

  /** Overwrite of an existing table with `create_table = false` drops it and does
      not recreate it: ingestion goes straight after the DROP. */
  lemma OverwriteWithoutCreate(req: WriteRequest, s: Surroundings, staging: string -> Staging)
    requires req.mode == Overwrite && !req.create
    ensures WritePlan(req, true, s, staging) == [Exec(DropSql(req.table, false))] + IngestPart(req, s, staging)
  {
  }

  /** A column type with no warehouse type stops the write before CREATE and before
      any ingestion; only an Overwrite of an existing table has sent its DROP by then. */
  lemma UnsupportedTypeStopsWrite(o: Oracles,
                                  hist: seq<Event>, files: set<string>, req: WriteRequest, s: Surroundings, present: bool)
    requires o.probe(hist, req.table) == Found(present)
    requires ConflictAction(req.mode, present) in {DropFirst, Proceed}
    requires CreatesTable(req.mode, present, req.create)
    requires CreateTableSql(req.table, req.df.schema, req.parts).Err?
    ensures var e := CreateTableSql(req.table, req.df.schema, req.parts).error;
      var drop := DropSql(req.table, false);
      var h := hist + [Checked(req.table)];
      WriteTrace(o, hist, files, req, s) ==
        if ConflictAction(req.mode, present) == Proceed then Trace([Checked(req.table)], Fail(e), files)
        else if o.rejects(h, drop) then Trace([Checked(req.table), Refused(drop)], Fail(ExecutionFailed(drop)), files)
        else Trace([Checked(req.table), Executed(drop)], Fail(e), files)
  {
    var e := CreateTableSql(req.table, req.df.schema, req.parts).error;
    var h := hist + [Checked(req.table)];
    var drop := DropSql(req.table, false);
    var pre, rest := PrePlan(req, present), CreatePart(req, present) + IngestPart(req, s, o.staging);
    assert WritePlan(req, present, s, o.staging) == pre + rest;
    WriteTraceFound(o, hist, files, req, s, present);
    RunAppend(o.rejects, h, files, pre, rest);
    var tp := Run(o.rejects, h, files, pre);
    if ConflictAction(req.mode, present) == Proceed {
      assert pre == [];
      assert tp == Trace([], Pass, files);
    } else {
      assert pre == [Exec(drop)];
      RunOneStatement(o.rejects, h, files, drop);
    }
    if tp.outcome.Pass? {
      assert rest[0] == Abort(e);
      assert Run(o.rejects, h + tp.events, tp.files, rest) == Trace([], Fail(e), files);
    }
  }

  /** The CSV path: a file that cannot be created fails before any statement; a
      file that was created but could not be written fails and stays; a rejected
      LOAD fails and leaves the file behind; a successful LOAD removes the file
      when the removal succeeds. */
  lemma CsvLoadFiles(rejects: Rejects, hist: seq<Event>, files: set<string>, table: string, path: string, staged: Staging)
    ensures !staged.created ==>
      Run(rejects, hist, files, CsvPlan(table, path, staged)) == Trace([], Fail(StagingFailed(path)), files)
    ensures staged.created && !staged.written ==>
      Run(rejects, hist, files, CsvPlan(table, path, staged)) == Trace([], Fail(StagingFailed(path)), files + {path})
    ensures var load := LoadSql(path, table);
      staged.created && staged.written ==>
      Run(rejects, hist, files, CsvPlan(table, path, staged)) ==
        if rejects(hist, load) then Trace([Refused(load)], Fail(ExecutionFailed(load)), files + {path})
        else Trace([Executed(load)], Pass, if staged.removed then files + {path} - {path} else files + {path})
  {
    var load := LoadSql(path, table);
    var plan := CsvPlan(table, path, staged);
    if staged.created && !staged.written {
      assert plan[1..] == [Abort(StagingFailed(path))];
    }
    if staged.created && staged.written {
      var h := hist + [Executed(load)];
      if staged.removed {
        assert plan[1..] == [Exec(load), Unstage(path)];
        assert plan[1..][1..] == [Unstage(path)];
        assert plan[1..][1..][1..] == [];
        assert Run(rejects, h, files + {path} - {path}, plan[1..][1..][1..]) == Trace([], Pass, files + {path} - {path});
        assert Run(rejects, h, files + {path}, plan[1..][1..]) == Trace([], Pass, files + {path} - {path});
      } else {
        assert plan[1..] == [Exec(load)];
        assert plan[1..][1..] == [];
        assert Run(rejects, h, files + {path}, plan[1..][1..]) == Trace([], Pass, files + {path});
      }
    }
  }

  /** The Parquet path sends nothing and succeeds. */
  lemma ParquetSendsNothing(rejects: Rejects, hist: seq<Event>, files: set<string>, table: string, df: DataFrame, now: int, staged: Staging)
    ensures Run(rejects, hist, files, IngestPlan(ParquetLoad, table, df, now, staged)) == Trace([], Pass, files)
  {
  }

  /** ceil(n / 100) batches: none for no rows. */
  lemma BatchCountIsCeiling(n: nat)
    ensures BatchCount(n) * BatchSize >= n
    ensures BatchCount(n) > 0 ==> (BatchCount(n) - 1) * BatchSize < n
    ensures BatchCount(n) == 0 <==> n == 0
  {
  }

  /** Consecutive batches tile the rows: full batches of 100, starting at row 0,
      each starting where the previous ended, the last ending at the last row. */
  lemma BatchesTileRows(n: nat, i: nat)
    ensures BatchCount(n) > 0 ==> BatchStart(0) == 0 && BatchEnd(BatchCount(n) - 1, n) == n
    ensures i + 1 < BatchCount(n) ==> BatchEnd(i, n) == BatchStart(i + 1) && BatchEnd(i, n) - BatchStart(i) == BatchSize
    ensures i < BatchCount(n) ==> 0 < BatchEnd(i, n) - BatchStart(i) <= BatchSize
  {
  }

  /** Every row lies in exactly one batch, the one numbered `row / 100`. */
  lemma RowInOneBatch(n: nat, row: nat, i: nat)
    requires row < n
    ensures (i < BatchCount(n) && BatchStart(i) <= row < BatchEnd(i, n)) <==> i == row / BatchSize
  {
  }

  /** Batch `i` inserts rows `BatchStart(i)..BatchEnd(i)` of the frame, in row order. */
  lemma BatchInsertsItsRows(table: string, df: DataFrame, i: nat)
    requires i < BatchCount(df.height)
    ensures BatchStart(i) < BatchEnd(i, df.height) <= df.height
    ensures var start, end := BatchStart(i), BatchEnd(i, df.height);
      InsertPlan(table, df)[i] == Exec("INSERT INTO " + table + " (" + Join(df.ColumnNames(), ", ") + ") VALUES " +
        Join(seq(end - start, k requires 0 <= k < end - start => RowText(df, start + k)), ", "))
  {
    BatchBounds(i, df.height);
    SliceValuesText(df, BatchStart(i), BatchEnd(i, df.height) - BatchStart(i));
  }

  /** 250 rows go out as rows 0..100, 100..200 and 200..250. */
  lemma TwoHundredFiftyRows()
    ensures BatchCount(250) == 3
    ensures BatchStart(0) == 0 && BatchEnd(0, 250) == 100
    ensures BatchStart(1) == 100 && BatchEnd(1, 250) == 200
    ensures BatchStart(2) == 200 && BatchEnd(2, 250) == 250
  {
  }

  /** An absent table, a schema whose types all map and at most one batch of rows:
      one check, then the CREATE, then a single INSERT of every row, all accepted. */
  lemma SmallInlineWrite(o: Oracles,
                         hist: seq<Event>, files: set<string>, req: WriteRequest, s: Surroundings)
    requires forall h, q :: !o.rejects(h, q)
    requires o.probe(hist, req.table) == Found(false)
    requires req.create && AllSupported(req.df.schema)
    requires SelectStrategy(s.env) == InlineInsert
    requires 0 < req.df.height <= BatchSize
    ensures CreateTableSql(req.table, req.df.schema, req.parts).Ok?
    ensures WriteTrace(o, hist, files, req, s) ==
      Trace([Checked(req.table),
             Executed(CreateTableSql(req.table, req.df.schema, req.parts).value),
             Executed(InsertSql(req.table, req.df, 0, req.df.height))], Pass, files)
  {
    CreateFailsOnFirstUnsupported(req.table, req.df.schema, req.parts);
    var c := CreateTableSql(req.table, req.df.schema, req.parts).value;
    var ins := InsertSql(req.table, req.df, 0, req.df.height);
    SmallInlinePlan(req, s, o.staging);
    var plan := WritePlan(req, false, s, o.staging);
    var h := hist + [Checked(req.table)];
    TwoAccepted(o.rejects, h, files, plan, c, ins);
    WriteTraceFound(o, hist, files, req, s, false);
  }

  /** Two statements, both accepted. */
  lemma TwoAccepted(rejects: Rejects, h: seq<Event>, files: set<string>, plan: seq<Step>, c: string, ins: string)
    requires plan == [Exec(c), Exec(ins)]
    requires !rejects(h, c) && !rejects(h + [Executed(c)], ins)
    ensures Run(rejects, h, files, plan) == Trace([Executed(c), Executed(ins)], Pass, files)
  {
    assert plan[1..] == [Exec(ins)];
    assert plan[1..][1..] == [];
    assert Run(rejects, h + [Executed(c)], files, plan[1..]) == Trace([Executed(ins)], Pass, files);
  }

  /** The plan of such a write: the CREATE, then the single INSERT. */
  lemma SmallInlinePlan(req: WriteRequest, s: Surroundings, staging: string -> Staging)
    requires req.create && AllSupported(req.df.schema)
    requires SelectStrategy(s.env) == InlineInsert
    requires 0 < req.df.height <= BatchSize
    ensures CreateTableSql(req.table, req.df.schema, req.parts).Ok?
    ensures WritePlan(req, false, s, staging) ==
      [Exec(CreateTableSql(req.table, req.df.schema, req.parts).value), Exec(InsertSql(req.table, req.df, 0, req.df.height))]
  {
    var c := CreateTableSql(req.table, req.df.schema, req.parts).value;
    var ins := InsertSql(req.table, req.df, 0, req.df.height);
    assert BatchCount(req.df.height) == 1;
    assert InsertPlan(req.table, req.df) == [Exec(ins)];
    assert PrePlan(req, false) == [];
    assert CreatePart(req, false) == [Exec(c)];
    assert IngestPart(req, s, staging) == [Exec(ins)];
  }
}
