/** `RustHiveReader` and `RustHiveContext`: the reader's connection flag, the
    guard in front of every query, and the fixed SQL its helpers send. */
module HiveRead {
  import opened Results
  import opened Text
  import opened Polars
  import opened HiveErrors
  import opened Warehouse
  import opened HiveSettings

  /** Rust's `i32`, the type of `get_table_sample`'s `limit`. */
  newtype i32 = x: int | -0x8000_0000 <= x < 0x8000_0000

  const ShowTablesSql: string := "SHOW TABLES"

  const DescribePrefix: string := "DESCRIBE "

  /** `DESCRIBE <table>` */
  function DescribeSql(table: string): (sql: string)
    ensures StartsWith(sql, DescribePrefix) && sql[|DescribePrefix|..] == table
  {
    DescribePrefix + table
  }

  function SamplePrefix(table: string): string {
    "SELECT * FROM " + table + " LIMIT "
  }

  /** `SELECT * FROM <table> LIMIT <limit>`, the limit in Rust's decimal rendering,
      which reads back as the limit. */
  function SampleSql(table: string, limit: i32): (sql: string)
    ensures StartsWith(sql, SamplePrefix(table))
    ensures ParseInt(sql[|SamplePrefix(table)|..]) == Some(limit as int)
  {
    var sql := SamplePrefix(table) + DecimalText(limit as int);
    assert sql[|SamplePrefix(table)|..] == DecimalText(limit as int);
    DecimalTextParses(limit as int);
    sql
  }

  /** `get_table_sample` without a limit asks for 10 rows. */
  function SampleLimit(limit: Option<i32>): i32 {
    limit.GetOr(10)
  }

  lemma DescribeInjective(a: string, b: string)
    ensures DescribeSql(a) == DescribeSql(b) <==> a == b
  {
    if DescribeSql(a) == DescribeSql(b) {
      assert a == DescribeSql(a)[|DescribePrefix|..];
    }
  }

  /** Without a limit the sample query is `SELECT * FROM <table> LIMIT 10`. */
  lemma DefaultSample(table: string)
    ensures SampleSql(table, SampleLimit(None)) == "SELECT * FROM " + table + " LIMIT 10"
  {
    assert NatText(10) == NatText(1) + [DigitChar(0)];
    assert DecimalText(10) == "10";
  }

  /** A negative limit is sent as written, with its minus sign. */
  lemma NegativeSample(table: string)
    ensures SampleSql(table, -1) == "SELECT * FROM " + table + " LIMIT -1"
  {
    assert DecimalText(-1) == "-1";
  }

  class HiveReader {
    const config: HiveConfig
    const warehouse: Client
    var connected: bool

    /** `RustHiveReader::new`: starts disconnected; no configuration means the defaults. */
    constructor (config: Option<HiveConfig>, warehouse: Client)
      ensures this.config == config.GetOr(DefaultHiveConfig())
      ensures this.warehouse == warehouse && !connected
    {
      this.config := config.GetOr(DefaultHiveConfig());
      this.warehouse := warehouse;
      connected := false;
    }

    method Connect()
      modifies this`connected
      ensures connected
    {
      connected := true;
    }

    /** Clears the flag; already disconnected is a successful no-op. */
    method Disconnect() returns (r: Outcome<Error>)
      modifies this`connected
      ensures !connected && r == Pass
    {
      if connected {
        connected := false;
      }
      r := Pass;
    }

    function IsConnected(): bool
      reads this`connected
    {
      connected
    }

    function GetConfig(): HiveConfig {
      config
    }

    /** `query_to_polars`: a disconnected reader fails and sends nothing; otherwise
        one query goes to the warehouse and its reply is the result. */
    method QueryToPolars(sql: string) returns (r: Result<DataFrame, Error>)
      modifies warehouse`log
      ensures !connected ==> r == Err(NotConnected) && warehouse.log == old(warehouse.log)
      ensures connected ==> warehouse.log == old(warehouse.log) + [Queried(sql)] &&
                            r == Answer(warehouse.oracles.answer(old(warehouse.log), sql), sql)
    {
      if !connected {
        return Err(NotConnected);
      }
      r := warehouse.ExecuteQuery(sql);
    }

    method ShowTables() returns (r: Result<DataFrame, Error>)
      modifies warehouse`log
      ensures !connected ==> r == Err(NotConnected) && warehouse.log == old(warehouse.log)
      ensures connected ==> warehouse.log == old(warehouse.log) + [Queried(ShowTablesSql)] &&
                            r == Answer(warehouse.oracles.answer(old(warehouse.log), ShowTablesSql), ShowTablesSql)
    {
      r := QueryToPolars(ShowTablesSql);
    }

    method DescribeTable(table: string) returns (r: Result<DataFrame, Error>)
      modifies warehouse`log
      ensures !connected ==> r == Err(NotConnected) && warehouse.log == old(warehouse.log)
      ensures connected ==> warehouse.log == old(warehouse.log) + [Queried(DescribeSql(table))] &&
                            r == Answer(warehouse.oracles.answer(old(warehouse.log), DescribeSql(table)), DescribeSql(table))
    {
      var sql := DescribePrefix + table;
      r := QueryToPolars(sql);
    }

    method GetTableSample(table: string, limit: Option<i32>) returns (r: Result<DataFrame, Error>)
      modifies warehouse`log
      ensures var sql := SampleSql(table, SampleLimit(limit));
        (!connected ==> r == Err(NotConnected) && warehouse.log == old(warehouse.log)) &&
        (connected ==> warehouse.log == old(warehouse.log) + [Queried(sql)] &&
                       r == Answer(warehouse.oracles.answer(old(warehouse.log), sql), sql))
    {
      var n := limit.GetOr(10);
      var sql := "SELECT * FROM " + table + " LIMIT " + DecimalText(n as int);
      r := QueryToPolars(sql);
    }
  }

  /** `RustHiveContext`: connects on entry, disconnects on exit, never suppresses
      the exception, and forwards everything else to its reader. */
  class HiveContext {
    const reader: HiveReader

    constructor (config: Option<HiveConfig>, warehouse: Client)
      ensures fresh(reader) && !reader.connected && reader.warehouse == warehouse
      ensures reader.config == config.GetOr(DefaultHiveConfig())
    {
      reader := new HiveReader(config, warehouse);
    }

    method Enter()
      modifies reader`connected
      ensures reader.connected
    {
      reader.Connect();
    }

    method Exit() returns (suppress: bool)
      modifies reader`connected
      ensures !reader.connected && !suppress
    {
      var _ := reader.Disconnect();
      suppress := false;
    }

    method QueryToPolars(sql: string) returns (r: Result<DataFrame, Error>)
      modifies reader.warehouse`log
      ensures !reader.connected ==> r == Err(NotConnected) && reader.warehouse.log == old(reader.warehouse.log)
      ensures reader.connected ==> reader.warehouse.log == old(reader.warehouse.log) + [Queried(sql)] &&
                                   r == Answer(reader.warehouse.oracles.answer(old(reader.warehouse.log), sql), sql)
    {
      r := reader.QueryToPolars(sql);
    }

    method ShowTables() returns (r: Result<DataFrame, Error>)
      modifies reader.warehouse`log
      ensures !reader.connected ==> r == Err(NotConnected) && reader.warehouse.log == old(reader.warehouse.log)
      ensures reader.connected ==> reader.warehouse.log == old(reader.warehouse.log) + [Queried(ShowTablesSql)] &&
                                   r == Answer(reader.warehouse.oracles.answer(old(reader.warehouse.log), ShowTablesSql), ShowTablesSql)
    {
      r := reader.ShowTables();
    }

    method DescribeTable(table: string) returns (r: Result<DataFrame, Error>)
      modifies reader.warehouse`log
      ensures !reader.connected ==> r == Err(NotConnected) && reader.warehouse.log == old(reader.warehouse.log)
      ensures reader.connected ==> reader.warehouse.log == old(reader.warehouse.log) + [Queried(DescribeSql(table))] &&
                                   r == Answer(reader.warehouse.oracles.answer(old(reader.warehouse.log), DescribeSql(table)), DescribeSql(table))
    {
      r := reader.DescribeTable(table);
    }

    method GetTableSample(table: string, limit: Option<i32>) returns (r: Result<DataFrame, Error>)
      modifies reader.warehouse`log
      ensures !reader.connected ==> r == Err(NotConnected) && reader.warehouse.log == old(reader.warehouse.log)
      ensures reader.connected ==>
        var sql := SampleSql(table, SampleLimit(limit));
        reader.warehouse.log == old(reader.warehouse.log) + [Queried(sql)] &&
        r == Answer(reader.warehouse.oracles.answer(old(reader.warehouse.log), sql), sql)
    {
      r := reader.GetTableSample(table, limit);
    }

    function IsConnected(): bool
      reads reader
    {
      reader.IsConnected()
    }

    function GetConfig(): HiveConfig {
      reader.GetConfig()
    }
  }
}
