/** `polars_to_hive_type`: the warehouse column type for a column's semantic type. */
module TypeMapping {
  import opened Results
  import opened Polars
  import opened HiveErrors

  datatype HiveType = BOOLEAN | INT | BIGINT | FLOAT | DOUBLE | STRING | DATE | TIMESTAMP {
    function Keyword(): string {
      match this
      case BOOLEAN => "BOOLEAN"
      case INT => "INT"
      case BIGINT => "BIGINT"
      case FLOAT => "FLOAT"
      case DOUBLE => "DOUBLE"
      case STRING => "STRING"
      case DATE => "DATE"
      case TIMESTAMP => "TIMESTAMP"
    }
  }

  /** An unsupported type is refused naming itself; BOOLEAN, STRING and DATE each
      come from exactly one semantic type. */
  function PolarsToHiveType(dtype: DataType): (r: Result<HiveType, Error>)
    ensures r.Err? ==> r.error == UnsupportedType(dtype)
    ensures r == Ok(BOOLEAN) <==> dtype == Boolean
    ensures r == Ok(STRING) <==> dtype == String
    ensures r == Ok(DATE) <==> dtype == Date
  {
    match dtype
    case Boolean => Ok(BOOLEAN)
    case Int8 | Int16 | Int32 => Ok(INT)
    case Int64 => Ok(BIGINT)
    case UInt8 | UInt16 | UInt32 => Ok(INT)
    case UInt64 => Ok(BIGINT)
    case Float32 => Ok(FLOAT)
    case Float64 => Ok(DOUBLE)
    case String => Ok(STRING)
    case Date => Ok(DATE)
    case Datetime(_, _) => Ok(TIMESTAMP)
    case _ => Err(UnsupportedType(dtype))
  }

  predicate Supported(dtype: DataType) {
    PolarsToHiveType(dtype).Ok?
  }

  /** Bit width of the integer types, as the type names state it. */
  function IntegerBits(dtype: DataType): nat {
    match dtype
    case Int8 | UInt8 => 8
    case Int16 | UInt16 => 16
    case Int32 | UInt32 => 32
    case Int64 | UInt64 => 64
    case _ => 0
  }

  predicate IsInteger(dtype: DataType) { IntegerBits(dtype) > 0 }

  /** Integers of at most 32 bits, signed or not, become INT; 64-bit ones BIGINT. */
  lemma IntegerMapping(dtype: DataType)
    requires IsInteger(dtype)
    ensures PolarsToHiveType(dtype) == Ok(if IntegerBits(dtype) <= 32 then INT else BIGINT)
  {
  }

  /** The supported types are exactly the boolean, integer, float, text, date and
      date-time types (of any unit and zone); everything else is refused with
      the offending type. */
  lemma SupportedTypes(dtype: DataType)
    ensures Supported(dtype) <==>
      dtype.Boolean? || IsInteger(dtype) || dtype.Float32? || dtype.Float64? ||
      dtype.String? || dtype.Date? || dtype.Datetime?
    ensures !Supported(dtype) ==> PolarsToHiveType(dtype) == Err(UnsupportedType(dtype))
  {
  }

  /** Which semantic types land on each warehouse type. */
  lemma HiveTypePreimages(dtype: DataType)
    ensures PolarsToHiveType(dtype) == Ok(INT) <==> IsInteger(dtype) && IntegerBits(dtype) <= 32
    ensures PolarsToHiveType(dtype) == Ok(BIGINT) <==> IsInteger(dtype) && IntegerBits(dtype) == 64
    ensures PolarsToHiveType(dtype) == Ok(FLOAT) <==> dtype == Float32
    ensures PolarsToHiveType(dtype) == Ok(DOUBLE) <==> dtype == Float64
    ensures PolarsToHiveType(dtype) == Ok(TIMESTAMP) <==> dtype.Datetime?
  {
  }

  /** Distinct warehouse types have distinct keywords, so the DDL names the type unambiguously. */
  lemma KeywordInjective(a: HiveType, b: HiveType)
    ensures a.Keyword() == b.Keyword() ==> a == b
  {
  }
}
