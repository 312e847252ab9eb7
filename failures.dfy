/** The exceptions the sink core raises or lets through, one constructor per cause. */
module Failures {
  import opened Wrappers

  datatype Failure =
    // MappingQueryGenerator: no catalog table matches the configured name
    | TableNotFound(tableName: Option<string>)
    // Guava MapSplitter: an item without '=' ("Chunk [..] is not a valid entry")
    | InvalidEntry(item: string)
    // Guava MapSplitter: a key seen twice in one body ("Duplicate key [..] found.")
    | DuplicateKey(key: string)
    // Joda parseMillis rejects a 14- or 17-character timestamp value
    | BadTimestamp(text: string)
    // jOOQ DataType.convert throws for the value of this column
    | ConversionFailed(column: string)
    // the database refuses the INSERT (SQLException from execute)
    | InsertRejected
    // JDBCSink: the generator reported a row-count mismatch ("Query failed")
    | QueryFailed
    // ConnectionManager used before a pool exists
    | NotInitialized
    // ConnectionManager.initialize without driver or connectionString
    | DriverAndUrlRequired
    // the pool could not hand out a connection (bad driver, exhausted, unreachable)
    | PoolFailure
    // Integer.parseInt / Long.parseLong reject the text (NumberFormatException)
    | BadNumber(text: string)
    // SQLDialect.valueOf: the name is missing or names no dialect
    | UnknownDialect(name: Option<string>)
    // a channel or connection call threw; fatal says the throwable was a java.lang.Error
    | CollaboratorFailure(fatal: bool)
    // JDBCSink rethrows a java.lang.Error wrapped in JDBCSinkException
    | SinkFatal
}
