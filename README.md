# hive_reader_rs: the write engine, the reader and the configuration layers

This project models the core of `hive_reader_rs`, a Rust extension for Python that reads Hive tables into Polars DataFrames and writes DataFrames into Hive tables:

- **`RustHiveWriter`.** Its decision engine runs in a fixed order:
  - one existence check;
  - the conflict table over the four write modes (Overwrite, Append, ErrorIfExists, Ignore);
  - the optional CREATE TABLE, built from the schema with the type mapping and the partition split;
  - ingestion, by one of three strategies:
    - a CSV file loaded with `LOAD DATA LOCAL INPATH`;
    - the Parquet path, which only announces a file name;
    - inline `INSERT ... VALUES` in batches of 100 rows.
- **`RustHiveWriteContext`.** The writer's context manager.
- **`RustHiveReader` and `RustHiveContext`.** The connection flag and the SQL templates behind `SHOW TABLES`, `DESCRIBE` and the `LIMIT` sample.
- **`HiveConfig::new`.** The connection defaults.
- **The Python `ConfigManager`.** It layers the defaults, then `config.py` (`HIVE_CONNECT_INFO` with a `thrift://host:port` URI, plus `SETTINGS`), then nine environment variables.

The warehouse is a `Warehouse.Client`:

- It keeps a log of every existence check, statement and query.
- It keeps the set of local temporary files.
- Oracles over the log decide three things:
  - whether a statement is rejected;
  - whether a table exists;
  - what a query returns.

A write is first described as a plan of steps (`WritePlanning.WritePlan`). `Warehouse.Run` gives the meaning of a plan: it runs the steps in order and stops at the first failure. Each writer method is proved to leave the client exactly as running its plan would. The plan properties are proved once, as lemmas about `Run`, `Sent` and the plan functions:

- which statements are sent, in which order, and when;
- what a failure leaves behind;
- how the rows are batched;
- that values are quoted losslessly.

Modules, one per file:

- `Results`, `Text` and `Polars`: the option/result types, text helpers, and the frame as the writer sees it.
- `HiveErrors`, `HiveSettings` and `TypeMapping`.
- `ValueFormat`: cell literals and the VALUES text.
- `SchemaBuilder`: the CREATE statement.
- `Warehouse`: the client and the run semantics.
- `WritePlanning`: conflicts, strategies, batches and whole-write plans.
- `HiveWrite`: the writer and its context.
- `HiveRead`: the reader and its context.
- `ConfigManagement`: the Python configuration manager.

Behaviours of the code that a reader of its documentation might not expect, each stated by a member:

- Overwrite of an existing table sends `DROP TABLE` before the CREATE statement is built. A schema with an unsupported column type therefore fails only after the table has been dropped (`WritePlanning.UnsupportedTypeStopsWrite`).
- When the CSV `LOAD` statement fails, or the CSV contents cannot be written, the write returns before the temporary file is removed, so the file stays (`WritePlanning.CsvLoadFiles`). A failed removal after a successful load is ignored, and the file stays too.
- Partition columns are declared in schema order, not in the order `partition_cols` lists them (`SchemaBuilder.PartitionOrderIrrelevant`).
- Overwrite with `create_table = false` drops the table and never recreates it (`WritePlanning.OverwriteWithoutCreate`).
- The inline INSERT lists every column, partition columns included (`WritePlanning.InsertSql`).

## Model

| member | source | states |
|---|---|---|
| HiveSettings.NewHiveConfig | src/lib.rs:28-44 | every field given to `HiveConfig::new` is kept as given |
| HiveSettings.DefaultValues | src/lib.rs:28-44 | with nothing given the configuration is localhost, 10000, user `default`, database `default`, auth `NONE` |
| HiveSettings.GivenFieldOnly | src/lib.rs:28-44 | giving only the host (or only the port) changes only that field of the defaults |
| TypeMapping.PolarsToHiveType | src/lib.rs:738-753 | a failure names the unsupported type; the result is BOOLEAN, STRING or DATE iff the type is boolean, text or a date |
| TypeMapping.SupportedTypes | src/lib.rs:738-753 | a type maps iff it is boolean, an integer, a float, text, a date or a date-time; any other type fails with `UnsupportedType` naming it |
| TypeMapping.IntegerMapping | src/lib.rs:738-753 | integers of at most 32 bits, signed or unsigned, become INT; 64-bit ones become BIGINT |
| TypeMapping.HiveTypePreimages | src/lib.rs:738-753 | exactly which semantic types land on INT, BIGINT, FLOAT, DOUBLE and TIMESTAMP, in both directions |
| TypeMapping.KeywordInjective | src/lib.rs:738-753 | distinct warehouse types are written with distinct keywords |
| ValueFormat.QuoteRoundTrip | src/lib.rs:932-939 | a SQL reader of the quoted, quote-doubled literal gets the original text back |
| ValueFormat.FormatColumnValue | src/lib.rs:916-943 | a text cell becomes its text quoted, with every quote doubled, whichever branch the code takes |
| ValueFormat.TextCellRoundTrip | src/lib.rs:916-943 | a text cell's literal reads back as the cell's text |
| ValueFormat.IntCellRoundTrip | src/lib.rs:916-943 | an integer cell's literal is unquoted decimal text that reads back as the integer |
| ValueFormat.QuotedIffText | src/lib.rs:916-943 | a literal starts with a quote iff the cell is text; NULL, booleans, integers and floats are bare |
| ValueFormat.SliceRowText | src/lib.rs:884-888 | a row of a slice renders exactly as the same row of the whole frame |
| ValueFormat.SliceValuesText | src/lib.rs:884-888 | a slice's VALUES text is its rows of the whole frame, in order |
| SchemaBuilder.DataColumns | src/lib.rs:702-714 | a column is a data column iff it is in the schema and not named in `partition_cols` |
| SchemaBuilder.PartitionColumns | src/lib.rs:702-714 | a column is a partition column iff it is in the schema and named in `partition_cols` |
| SchemaBuilder.FirstUnsupported | src/lib.rs:702-704 | the position returned has every earlier type supported and its own type unsupported, unless every type is supported |
| SchemaBuilder.SplitIsPartition | src/lib.rs:702-714 | the data columns and the partition columns together are the schema, each column exactly once |
| SchemaBuilder.SplitFollowsMembership | src/lib.rs:702-714 | the split depends only on which schema columns are partition members |
| SchemaBuilder.PartitionOrderIrrelevant | src/lib.rs:702-731 | two `partition_cols` lists with the same names give the same statement, whatever their order |
| SchemaBuilder.UnknownPartitionIgnored | src/lib.rs:702-731 | a partition name that no schema column has leaves the statement unchanged |
| SchemaBuilder.NoPartitionsKeepsSchema | src/lib.rs:702-714 | without partition columns every schema column is a data column and none is a partition column |
| SchemaBuilder.UnpartitionedStatement | src/lib.rs:717-731 | without partition columns the statement has no PARTITIONED BY clause and declares every column in schema order |
| SchemaBuilder.SplitSnoc | src/lib.rs:702-714 | a column appended to the schema lands at the end of exactly one of the two lists |
| SchemaBuilder.DefinitionsSnoc | src/lib.rs:704-713 | one more supported column adds its `name TYPE` definition at the end |
| SchemaBuilder.FirstUnsupportedAt | src/lib.rs:702-704 | the first unsupported column in schema order is the one found |
| SchemaBuilder.AllSupportedHasNoFirst | src/lib.rs:702-704 | a schema whose types all map has no unsupported column |
| SchemaBuilder.DefinitionsStep | src/lib.rs:702-714 | one loop step puts the column's definition in the list its membership picks |
| SchemaBuilder.CreateFromDefinitions | src/lib.rs:717-731 | with every type mapped, the statement is built from the two definition lists |
| SchemaBuilder.CreateTextPieces | src/lib.rs:717-731 | building the text piece by piece gives the same statement |
| SchemaBuilder.CreateFailsAt | src/lib.rs:702-704 | the first unmapped type in schema order is the error |
| SchemaBuilder.CreateFailsOnFirstUnsupported | src/lib.rs:691-734 | the CREATE statement exists iff every type maps; otherwise the error names the first unmapped type |
| SchemaBuilder.CreateTableSql | src/lib.rs:691-734 | the statement is built iff every column type maps to a warehouse type |
| SchemaBuilder.ExampleSplit | src/lib.rs:702-714 | schema `a, b, p` with partition `p` splits into data `a, b` and partition `p` |
| SchemaBuilder.ExampleStatement | src/lib.rs:717-731 | the statement for that schema, with a PARTITIONED BY clause |
| SchemaBuilder.PartitionedExample | src/lib.rs:717-731 | `CREATE TABLE t (a BIGINT, b STRING) PARTITIONED BY (p STRING) STORED AS PARQUET` |
| Warehouse.Sent | src/lib.rs:610-643 | a plan sends at most one statement per step |
| Warehouse.Run | src/lib.rs:610-643 | a run logs at most the statements of its plan |
| Warehouse.RunOneStatement | src/lib.rs:756-765 | one statement is logged and fails iff the warehouse rejects it |
| Warehouse.RunLogsPrefix | src/lib.rs:610-643 | a run logs a prefix of its plan's statements, all accepted except a final refused one, whose failure names it |
| Warehouse.RunFollowsOracle | src/lib.rs:756-765 | each statement is refused iff the warehouse rejects it given everything logged before it |
| Warehouse.RunPassSendsAll | src/lib.rs:610-643 | a run that succeeds has sent and had accepted every statement of its plan |
| Warehouse.RunAppend | src/lib.rs:610-643 | running two plans one after the other runs the second only if the first succeeded, from where the first left off |
| Warehouse.RunThen | src/lib.rs:610-643 | a clean run of one plan followed by a run of the next is the run of both |
| Warehouse.RunStops | src/lib.rs:610-643 | a plan that fails never reaches what follows it |
| Warehouse.RunNextStatement | src/lib.rs:883-892 | after clean batches, the next INSERT either extends the clean run or, refused, ends the whole run there |
| Warehouse.Client.ExecuteDdl | src/lib.rs:756-765 | one statement is sent and logged; it fails iff the warehouse rejects it |
| Warehouse.Client.CheckTableExists | src/lib.rs:646-656 | one logged existence check; its answer, or `ExistenceCheckFailed` |
| Warehouse.Client.ExecuteQuery | src/lib.rs:147-155 | one logged query; its rows, or the failure naming the query |
| Warehouse.Client.StageFile | src/lib.rs:819-826 | the CSV file exists afterwards iff it could be created, and staging succeeds iff it was also written |
| Warehouse.Client.RemoveFile | src/lib.rs:834 | the file is gone afterwards iff the removal succeeded; a failed removal changes nothing and is not an error |
| WritePlanning.ConflictTable | src/lib.rs:621-634 | the conflict table in both directions: only an existing table triggers a failure (ErrorIfExists), a skip (Ignore) or a drop (Overwrite) |
| WritePlanning.SelectStrategy | src/lib.rs:791-809 | CSV load iff `USE_CSV_LOAD` is `true`; otherwise Parquet iff `USE_PARQUET_LOAD` is `true`; otherwise inline INSERTs |
| WritePlanning.DropSql | src/lib.rs:589-593 | `DROP TABLE ` then, with `if_exists`, `IF EXISTS `, then the table name, which ends the statement |
| WritePlanning.TempCsvPath | src/lib.rs:819 | the path is `/tmp/<table>_` then the decimal seconds, which read back as the clock value, then `.csv` |
| WritePlanning.LoadSql | src/lib.rs:829 | `LOAD DATA LOCAL INPATH` with the quoted path, ending in the table name |
| WritePlanning.InsertSql | src/lib.rs:880-889 | an INSERT starts with `INSERT INTO <table> (<every column, joined by ", ">) VALUES ` |
| WritePlanning.WriteTrace | src/lib.rs:610-643 | every write starts with its existence check, and a failed check is the whole trace |
| WritePlanning.AttemptLogsStatements | src/lib.rs:610-643 | a write's attempt log holds only sent statements |
| WritePlanning.CheckedOnceFirst | src/lib.rs:618-619 | every write performs exactly one existence check, before any statement |
| WritePlanning.ProbeFailureSendsNothing | src/lib.rs:619 | a failed existence check ends the write before any statement |
| WritePlanning.ErrorIfExistsSendsNothing | src/lib.rs:622-624 | ErrorIfExists on an existing table fails with `TableAlreadyExists` and sends nothing |
| WritePlanning.IgnoreExistingSendsNothing | src/lib.rs:625-628 | Ignore on an existing table succeeds and sends nothing, so repeating it changes nothing |
| WritePlanning.OverwriteDropsFirst | src/lib.rs:629-632 | Overwrite on an existing table sends `DROP TABLE <name>` first, and a refused drop ends the write |
| WritePlanning.IngestSendsNoCreate | src/lib.rs:791-893 | no ingestion strategy sends a CREATE |
| WritePlanning.PreSendsNoCreate | src/lib.rs:629-632 | the pre-action sends no CREATE |
| WritePlanning.SentFromExec | src/lib.rs:610-643 | every statement a plan sends comes from one of its steps |
| WritePlanning.SentAppend | src/lib.rs:610-643 | the statements of two plans run one after the other are the first's then the second's |
| WritePlanning.SentOfParts | src/lib.rs:610-643 | the same for three plans |
| WritePlanning.PlanParts | src/lib.rs:621-642 | unless the write fails or skips at once, it is the pre-action, then the CREATE part, then ingestion |
| WritePlanning.WritePlanSends | src/lib.rs:621-642 | past the pre-action the write sends the DROP (if any), the CREATE (if any), then the ingestion statements |
| WritePlanning.CreateSqlIsCreate | src/lib.rs:717-731 | the built statement is a CREATE |
| WritePlanning.CreatePlanned | src/lib.rs:637-639 | when creation is due and the schema maps, the CREATE statement is among those sent |
| WritePlanning.NoCreatePlanned | src/lib.rs:637-639 | otherwise no CREATE is sent |
| WritePlanning.CreateIffRequested | src/lib.rs:637-639 | past the pre-action, a CREATE is sent iff the table is absent or overwritten, `create_table` holds and the schema maps |
| WritePlanning.OverwriteWithoutCreate | src/lib.rs:629-642 | Overwrite of an existing table with `create_table = false` drops it and goes straight to ingestion |
| WritePlanning.UnsupportedTypeStopsWrite | src/lib.rs:621-642 | an unmapped type stops the write with `UnsupportedType` before CREATE and ingestion, after any DROP |
| WritePlanning.CsvLoadFiles | src/lib.rs:819-837 | a file that cannot be created fails before any statement and leaves no file; a file created but not written fails before any statement and stays; a refused LOAD fails and leaves the file; an accepted LOAD succeeds and the file is gone iff its removal succeeded |
| WritePlanning.ParquetSendsNothing | src/lib.rs:840-860 | the Parquet path sends nothing and succeeds |
| WritePlanning.BatchBounds | src/lib.rs:883-886 | a batch exists iff its first row is a row of the frame, and it is non-empty and within the frame |
| WritePlanning.BatchCountIsCeiling | src/lib.rs:883-886 | there are ceil(rows / 100) batches: none for no rows |
| WritePlanning.BatchesTileRows | src/lib.rs:883-886 | batches start at row 0, follow each other without gaps, hold 100 rows except the last, and end at the last row |
| WritePlanning.RowInOneBatch | src/lib.rs:883-886 | every row lies in exactly one batch, number `row / 100` |
| WritePlanning.InsertPlanExtends | src/lib.rs:883-890 | batch `k`'s INSERT, as the loop builds it, is the plan's `k`-th statement |
| WritePlanning.BatchInsertsItsRows | src/lib.rs:872-892 | batch `i` inserts exactly its rows of the frame, in row order, under every column name |
| WritePlanning.TwoHundredFiftyRows | src/lib.rs:883-886 | 250 rows go out as rows 0..100, 100..200 and 200..250 |
| WritePlanning.SmallInlineWrite | src/lib.rs:610-643 | a new table with mappable types and at most 100 rows sees exactly the check, one CREATE and one INSERT |
| HiveWrite.HiveWriter.constructor | src/lib.rs:498-504 | a new writer is disconnected and holds the given or the default configuration |
| HiveWrite.HiveWriter.Connect | src/lib.rs:507-516 | afterwards the writer is connected |
| HiveWrite.HiveWriter.Disconnect | src/lib.rs:519-525 | afterwards the writer is disconnected, and a second disconnect succeeds too |
| HiveWrite.HiveWriter.WriteTable | src/lib.rs:534-559 | a disconnected writer fails with `NotConnected` and sends nothing; otherwise, with the mode defaulting to ErrorIfExists and `create_table` to true, the warehouse ends as the whole write's trace leaves it |
| HiveWrite.HiveWriter.CreateTableFromDataframe | src/lib.rs:562-578 | only the CREATE (or the type error), guarded by the connection flag |
| HiveWrite.HiveWriter.DropTable | src/lib.rs:581-600 | sends `DROP TABLE [IF EXISTS] <name>`, `if_exists` defaulting to false, guarded by the connection flag |
| HiveWrite.HiveWriter.ExecuteWriteOperation | src/lib.rs:610-643 | the log, the temporary files and the result are exactly those of one existence check followed by the plan it selects |
| HiveWrite.HiveWriter.CreateTableSchema | src/lib.rs:691-734 | the loop and the text building send exactly the CREATE statement, or fail on the first unmapped type without sending anything |
| HiveWrite.HiveWriter.InsertDataframeData | src/lib.rs:791-809 | the warehouse ends as the strategy the environment selects leaves it |
| HiveWrite.HiveWriter.InsertViaCsvLoad | src/lib.rs:812-837 | the warehouse and the temporary files end as the CSV plan leaves them: create and write `/tmp/<table>_<seconds>.csv`, LOAD it, then try to remove it |
| HiveWrite.HiveWriter.InsertViaParquetLoad | src/lib.rs:840-860 | succeeds without sending anything |
| HiveWrite.HiveWriter.InsertViaSqlStatements | src/lib.rs:863-893 | the batch loop sends exactly the planned INSERTs in order and stops at the first refused one |
| HiveWrite.HiveWriter.DataframeToValuesString | src/lib.rs:898-913 | the nested loops build the frame's VALUES text |
| HiveWrite.HiveWriteContext.constructor | src/lib.rs:956-960 | a new context holds a fresh, disconnected writer |
| HiveWrite.HiveWriteContext.Enter | src/lib.rs:962-965 | entering connects the writer |
| HiveWrite.HiveWriteContext.Exit | src/lib.rs:967-977 | leaving disconnects the writer and never suppresses the exception |
| HiveWrite.HiveWriteContext.WriteTable | src/lib.rs:981-991 | the same contract as the writer's `write_table` |
| HiveWrite.HiveWriteContext.CreateTableFromDataframe | src/lib.rs:994-1002 | the same contract as the writer's `create_table_from_dataframe` |
| HiveWrite.HiveWriteContext.DropTable | src/lib.rs:1005-1007 | the same contract as the writer's `drop_table` |
| HiveRead.DescribeInjective | src/lib.rs:127-130 | two tables get the same `DESCRIBE` statement iff they are the same table |
| HiveRead.DescribeSql | src/lib.rs:127-130 | the `DESCRIBE` statement is the prefix followed by exactly the given table |
| HiveRead.SampleSql | src/lib.rs:133-137 | the sample query is `SELECT * FROM <table> LIMIT ` followed by text that reads back as the requested limit |
| HiveRead.DefaultSample | src/lib.rs:133-137 | without a limit the query is `SELECT * FROM <table> LIMIT 10` |
| HiveRead.NegativeSample | src/lib.rs:133-137 | a negative limit is sent as written, with its minus sign |
| HiveRead.HiveReader.constructor | src/lib.rs:67-73 | a new reader is disconnected and holds the given or the default configuration |
| HiveRead.HiveReader.Connect | src/lib.rs:76-86 | afterwards the reader is connected |
| HiveRead.HiveReader.Disconnect | src/lib.rs:89-95 | afterwards the reader is disconnected; disconnecting twice succeeds |
| HiveRead.HiveReader.QueryToPolars | src/lib.rs:103-119 | a disconnected reader fails with `NotConnected` and sends nothing; otherwise one logged query and its answer |
| HiveRead.HiveReader.ShowTables | src/lib.rs:122-124 | the query `SHOW TABLES`, guarded by the connection flag |
| HiveRead.HiveReader.DescribeTable | src/lib.rs:127-130 | the query `DESCRIBE <table>`, guarded by the connection flag |
| HiveRead.HiveReader.GetTableSample | src/lib.rs:133-137 | the query `SELECT * FROM <table> LIMIT <n>`, with `n` defaulting to 10 |
| HiveRead.HiveContext.constructor | src/lib.rs:279-283 | a new context holds a fresh, disconnected reader |
| HiveRead.HiveContext.Enter | src/lib.rs:285-288 | entering connects the reader |
| HiveRead.HiveContext.Exit | src/lib.rs:290-298 | leaving disconnects the reader and never suppresses the exception |
| HiveRead.HiveContext.QueryToPolars | src/lib.rs:302-304 | the same contract as the reader's `query_to_polars` |
| HiveRead.HiveContext.ShowTables | src/lib.rs:307-309 | the same contract as the reader's `show_tables` |
| HiveRead.HiveContext.DescribeTable | src/lib.rs:312-314 | the same contract as the reader's `describe_table` |
| HiveRead.HiveContext.GetTableSample | src/lib.rs:317-319 | the same contract as the reader's `get_table_sample` |
| ConfigManagement.DefaultConfig | python/hive_reader_rs/config_manager.py:40-52 | the defaults hold all five connection keys |
| ConfigManagement.DefaultsAgreeWithHiveConfig | python/hive_reader_rs/config_manager.py:42-47 | the Python connection defaults are `HiveConfig::new`'s |
| ConfigManagement.GetOr | python/hive_reader_rs/config_manager.py:72-74 | a present key's value, else the default |
| ConfigManagement.ParseUri | python/hive_reader_rs/config_manager.py:60-67 | a URI without the `thrift://` scheme gives localhost and 10000; parsing fails only on a `thrift://` URI whose port is not an integer |
| ConfigManagement.NoPortGivesDefault | python/hive_reader_rs/config_manager.py:61-64 | a `thrift://` URI without a port gives its host and port 10000 |
| ConfigManagement.NoSchemeInside | python/hive_reader_rs/config_manager.py:62 | the scheme text cannot occur again inside a written host and port, so removing it touches only the prefix |
| ConfigManagement.UriRoundTrip | python/hive_reader_rs/config_manager.py:60-64 | writing a host and a port into a `thrift://` URI and parsing it gives them back |
| ConfigManagement.DefaultUriParts | python/hive_reader_rs/config_manager.py:60 | the default URI names localhost:10000 |
| ConfigManagement.SettingsOverride | python/hive_reader_rs/config_manager.py:69-78 | every file-layer entry is a connection field or a `SETTINGS` entry, and `SETTINGS` wins |
| ConfigManagement.FileConnectionFields | python/hive_reader_rs/config_manager.py:60-75 | without `SETTINGS` the file layer is exactly the URI's host and port and the three fields, with their defaults |
| ConfigManagement.MissingUriIsLocalDefault | python/hive_reader_rs/config_manager.py:60-75 | without a URI the file layer connects to localhost:10000 |
| ConfigManagement.FileFailsOnlyOnUri | python/hive_reader_rs/config_manager.py:54-83 | the file layer fails iff the URI is not text or its port is not an integer |
| ConfigManagement.LoadFromFile | python/hive_reader_rs/config_manager.py:54-83 | a missing `config.py` gives the empty layer; a loaded one holds the five connection keys and every `SETTINGS` entry with its value |
| ConfigManagement.Convert | python/hive_reader_rs/config_manager.py:92-109 | text settings always convert; an integer setting converts iff `int()` accepts the text, and the error names the text |
| ConfigManagement.EnvConfig | python/hive_reader_rs/config_manager.py:85-111 | the layer exists iff every set variable converts, and then a key is present iff its variable is set |
| ConfigManagement.LoadFromEnv | python/hive_reader_rs/config_manager.py:85-111 | the nine conditional assignments give the environment layer, or the first `int()` failure |
| ConfigManagement.ErrorStands | python/hive_reader_rs/config_manager.py:92-109 | once an `int()` has failed, the later assignments leave the error as it is |
| ConfigManagement.GatherFailsOnFirst | python/hive_reader_rs/config_manager.py:90-109 | the layer fails iff some set variable cannot be read by its kind, and the error is the first such one |
| ConfigManagement.GatherLookup | python/hive_reader_rs/config_manager.py:90-109 | with distinct keys, a key is present iff its variable is set, and it holds the converted text |
| ConfigManagement.EnvEntriesDistinct | python/hive_reader_rs/config_manager.py:90-109 | the nine variables set nine different keys |
| ConfigManagement.EnvKeySetOnlyWhenVariableSet | python/hive_reader_rs/config_manager.py:90-109 | a key is set iff its variable is set and non-empty, and only the nine keys can be set |
| ConfigManagement.EnvBeelineFlag | python/hive_reader_rs/config_manager.py:102-103 | `use_beeline` is true iff `USE_BEELINE` lower-cases to `true` |
| ConfigManagement.EnvPort | python/hive_reader_rs/config_manager.py:92-93 | the port is `int()` of `HIVE_PORT` |
| ConfigManagement.EnvFailsOnNonInteger | python/hive_reader_rs/config_manager.py:92-109 | the layer fails iff a numeric variable is set to text `int()` rejects |
| ConfigManagement.GatherNothingSet | python/hive_reader_rs/config_manager.py:85-111 | with no variable set the layer is empty |
| ConfigManagement.LoadConfig | python/hive_reader_rs/config_manager.py:23-38 | defaults updated by the file layer, then the environment layer |
| ConfigManagement.MergedConfig | python/hive_reader_rs/config_manager.py:23-38 | the merge succeeds iff the file layer and the environment layer do, and then holds all five connection keys |
| ConfigManagement.Precedence | python/hive_reader_rs/config_manager.py:23-38 | each key comes from the highest layer that has it: environment over file over defaults |
| ConfigManagement.NothingGivenGivesDefaults | python/hive_reader_rs/config_manager.py:23-38 | without `config.py` and with no variable set the configuration is the defaults |
| ConfigManagement.MissingFileKeepsDefaultsAndEnv | python/hive_reader_rs/config_manager.py:28-36 | a missing `config.py` is skipped: defaults under the environment layer |
| ConfigManagement.NewConfigManager | python/hive_reader_rs/config_manager.py:20-21 | the manager holds the merged dictionary, or the merge's error escapes |
| ConfigManagement.ConfigManager.Get | python/hive_reader_rs/config_manager.py:113-115 | a present key's value, else the default |
| ConfigManagement.ConfigManager.GetHiveConfig | python/hive_reader_rs/config_manager.py:117-125 | exactly the five connection keys, each with the manager's value or `None` |
| ConfigManagement.ConfigManager.GetAllConfig | python/hive_reader_rs/config_manager.py:127-129 | every key of the manager with its value |
| ConfigManagement.ConfigManager.SafeConfig | python/hive_reader_rs/config_manager.py:131-136 | the same keys and values, except that a password is masked as `***` |
| ConfigManagement.HiveConfigOfMerged | python/hive_reader_rs/config_manager.py:117-125 | a manager built by the merge answers all five connection keys with the merged values |

## Left out

- The beeline subprocess, the tokio runtime and the mock DataFrames are not modelled. The warehouse's answers are oracles over the client's log.
- `check_table_exists` asks beeline when `USE_BEELINE` is `true` and otherwise answers "absent" without asking. The model takes the answer, or the failure, from an oracle, so every mode's behaviour on an existing table is covered.
- Printed output is not modelled: progress messages, the Parquet file-name message, and the warning for more than 1000 rows. The warning only prints.
- Float and other `Display` renderings are not modelled. They enter the model as the text Rust would print.
- The CSV contents are not modelled. Creating the file, writing it and removing it each succeed or fail as an oracle decides.
- The clock is a parameter (`now`, in Unix seconds), not read.
- Process environment variables are a map parameter, not read.
- `config.py` is a parameter, not imported: missing, or present with `HIVE_CONNECT_INFO` and `SETTINGS` as dictionaries.
- `benchmark_query`, `config_from_dict` and the `__repr__` texts are not modelled. They are PyO3 glue or printing, outside the core.
- `HiveRead.HiveReader.QueryToPolars`: the 50-byte preview `&sql[..min(sql.len(), 50)]` (src/lib.rs:110) panics when byte 50 falls inside a multi-byte character, so such a query aborts before it is sent. The model sends it.
- `ConfigManagement.Convert`: Python `int()` is modelled for ASCII digits, a sign, single underscores between digits, and surrounding whitespace as `str.strip()` knows it within Latin-1 (ASCII whitespace, 0x1C-0x1F, 0x85 and 0xA0). Non-ASCII digits and whitespace beyond Latin-1 are not modelled.
- `ConfigManagement.EnvBeelineFlag`: `lower()` is modelled on ASCII letters only. A non-ASCII letter cannot lower-case to `true`, so the flag is the same.
- `ConfigManagement.ConfigManager.SafeConfig`: returns the masked dictionary, not the `ConfigManager(...)` text.
- `ConfigManagement.ConfigManager.GetAllConfig`: the manager is a value, so the difference between returning a copy and returning the dictionary itself is not modelled.
- Values in `config.py` other than text, integers, booleans and `None` are not modelled.
- The module-level `config_manager` instance is not modelled. It is `NewConfigManager` applied to the process's file and environment.
- Python exceptions other than `ValueError` from `int()` and a non-text URI are not modelled.
- Concurrency, and the race between the existence check and the statements that follow it, are not modelled. The model runs one call at a time.
- Rust's `u16` port in `HiveConfig` is a bounded newtype. Python's port is an unbounded integer, as in Python.
