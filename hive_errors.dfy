/** The errors the reader and writer report. The source turns each into a
    runtime error carrying a message; the model keeps the kind and its subject. */
module HiveErrors {
  import opened Polars

  datatype Error =
    | NotConnected
    | TableAlreadyExists(table: string)
    | UnsupportedType(dtype: DataType)
    | ExecutionFailed(sql: string)
    | ExistenceCheckFailed(table: string)
    | StagingFailed(path: string)
    | QueryFailed(sql: string)
}
