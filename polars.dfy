/** The slice of the in-memory table library that the writer consumes: column
    types, cell values and a column-major table with a schema, a height and
    one sequence of cells per column. */
module Polars {
  import opened Results

  datatype TimeUnit = Nanoseconds | Microseconds | Milliseconds

  /** A column's semantic type. The constructors after `Datetime` stand for the
      types the writer has no warehouse type for. */
  datatype DataType =
    | Boolean
    | Int8 | Int16 | Int32 | Int64
    | UInt8 | UInt16 | UInt32 | UInt64
    | Float32 | Float64
    | String
    | Date
    | Datetime(unit: TimeUnit, zone: Option<string>)
    | Duration(unit: TimeUnit)
    | Time
    | Binary
    | Null
    | Categorical
    | Decimal(precision: Option<nat>, scale: Option<nat>)
    | List(inner: DataType)
    | Struct(fields: seq<Column>)

  datatype Column = Column(name: string, dtype: DataType)

  /** Rust's `f32`/`f64` `Display` text uses digits, `.`, `-`, `inf` and `NaN` only. */
  type FloatText = s: string | |s| > 0 && forall i :: 0 <= i < |s| ==> s[i] in "0123456789.-infNa"
    witness "0"

  /** One cell. `IntValue` stands for every integer width; `FloatValue` carries the
      float's rendered text; `OtherValue` carries the `Display` text of any other
      cell (strings, dates, timestamps, lists, ...). */
  datatype AnyValue =
    | NullValue
    | BooleanValue(b: bool)
    | IntValue(i: int)
    | FloatValue(rendered: FloatText)
    | OtherValue(text: string)

  /** A table: `columns[c][r]` is the cell of row `r` in the column `schema[c]`. */
  datatype Frame = Frame(schema: seq<Column>, columns: seq<seq<AnyValue>>, height: nat) {

    predicate Valid() {
      |columns| == |schema| && forall c :: 0 <= c < |columns| ==> |columns[c]| == height
    }

    function ColumnNames(): seq<string> {
      seq(|schema|, c requires 0 <= c < |schema| => schema[c].name)
    }

    /** Rows `offset .. offset + length` of the table, in order. */
    function Slice(offset: nat, length: nat): (f: Frame)
      requires Valid() && offset + length <= height
      ensures f.Valid() && f.schema == schema && f.height == length
      ensures forall c, r :: 0 <= c < |schema| && 0 <= r < length ==> f.columns[c][r] == columns[c][offset + r]
    {
      Frame(schema, seq(|columns|, c requires 0 <= c < |columns| => columns[c][offset..offset + length]), length)
    }
  }

  /** Every table the library hands out has columns of equal height. */
  type DataFrame = f: Frame | f.Valid() witness Frame([], [], 0)
}
