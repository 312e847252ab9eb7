# JDBC sink for Flume, modelled in Dafny

This project models the core of a Flume sink that writes events into a relational database through a DBCP connection pool. The core has three parts.

- **The mapping query generator** (`MappingQueryGenerator`).
  - At construction it picks the target table from the database catalog, by a case-insensitive name match.
  - For each batch it parses every event body as `key=value` items separated by `|`.
  - It keeps the keys that name columns of the table and converts each value to its column's type. A timestamp column reads 17-character `yyyyMMddHHmmssSSS` or 14-character `yyyyMMddHHmmss` values.
  - It adds one record per event that maps some column to a multi-row INSERT.
  - It reports success when the database inserted as many rows as there were mapped events.
- **The batch driver** (`JDBCSink.process` and `takeEventsFromChannel`).
  - It works inside one channel transaction and one database transaction.
  - It drains up to `batchSize` events, dropping the nulls of an empty channel, and bumps one batch counter.
  - It runs the query, then commits the database and then the channel.
  - On any throwable it rolls both back, counts a connection failure and returns BACKOFF. A `java.lang.Error` is rethrown instead.
  - It always closes the transaction and the connection.
  - `configure` builds the pool and reads the batch size (default 20) and the SQL dialect. It then chooses the mapping generator, or a template generator when `sql` is given.
- **The connection manager** (`ConnectionManager`).
  - `initialize` closes any previous pool and installs a new one. It requires `driver` and `connectionString`.
  - It applies every `dbcp.<key>` setting to the pool's setter `set<Key>`, converting the text by the setter's first parameter type (int, long, boolean or String).
  - A setting it cannot apply only logs a warning. It finally turns auto-commit off.
  - `getConnection` and `getDatasource` refuse to work before the first `initialize`.

The files:

| file | what it holds |
|---|---|
| `wrappers.dfy` | Option and Result, which stand for Java's null and thrown exceptions |
| `failures.dfy` | The exceptions, one constructor per cause |
| `text.dfy` | The Guava splitter and joiner, plus the `java.lang`/commons-lang string operations used (case folding, `trim`, `capitalize`) |
| `numbers.dfy` | `Integer.parseInt`, `Long.parseLong`, `Boolean.valueOf` and decimal printing |
| `timestamps.dfy` | The two timestamp patterns |
| `event_parser.dfy` | Event bodies parsed into ordered key/value entries |
| `mapping.dfy` | The generator: the table search, the record of an event, and `executeQuery` |
| `connection_pool.dfy` | The pool and the manager, as classes |
| `sink.dfy` | The channel, the counters and the sink, as classes |

How the model is built:

- `process` is specified by functions on values: `Run`, `Connected`, `Drained`, `Queried`, `Finish` and `Abort`. They compute the result, the calls made, the channel's events and the counters.
- The methods of `JdbcSink` are proved to follow these functions. Each method records the transaction and connection calls in a ghost trace.
- The lemmas state what the functions guarantee:
  - every path closes the transaction and the connection;
  - READY means the database commit came first and then the channel commit;
  - every failure rolls back;
  - exactly one batch counter moves;
  - a failed channel commit leads to redelivery.

The model follows the code in these places, where a reader might expect otherwise:

- **Malformed bodies.**
  - A body item without `=` or a repeated key makes Guava's map splitter throw. That rolls the whole batch back.
  - The items are not ignored, and the last write does not win.
- **Boolean setters.**
  - `Boolean.valueOf` reads any text other than `true` (in any case) as false.
  - Nothing is refused, and `1`/`0` are not recognised.
- **Column lookup.** `table.field(key)` is an exact, case-sensitive match.
- **Batches that map nothing.**
  - `execute` is called on the INSERT builder whenever it is an `InsertSetMoreStep`, even when no event mapped a column.
  - jOOQ does not run an INSERT without values: it returns 0 rows, which equals the 0 mapped events. Such a batch succeeds, and the database and channel commits follow.
- **The drain-success counter.** It grows right after the database commit and before the channel commit. A batch whose channel commit then fails has already been counted.

## Model

| member | source | states |
|---|---|---|
| Mapping.MappingQueryGenerator.Create | src/main/java/com/stratio/ingestion/sink/jdbc/MappingQueryGenerator.java:75-87 | the table chosen is the first catalog table whose name equals the configured name ignoring case; "Table not found" exactly when no table matches (also for a missing name) |
| Mapping.FieldOf | src/main/java/com/stratio/ingestion/sink/jdbc/MappingQueryGenerator.java:100-101 | the column found has exactly the key's name; none is found exactly when no column has that name |
| Text.Split | src/main/java/com/stratio/ingestion/sink/jdbc/MappingQueryGenerator.java:58 | splitting gives at least one piece and no piece holds the separator |
| Text.JoinSplit | src/main/java/com/stratio/ingestion/sink/jdbc/MappingQueryGenerator.java:58 | the pieces joined by the separator give back the body, so splitting loses nothing |
| Text.SplitJoin | src/main/java/com/stratio/ingestion/sink/jdbc/MappingQueryGenerator.java:58 | pieces free of the separator are recovered by splitting their join |
| Text.SplitOnce | src/main/java/com/stratio/ingestion/sink/jdbc/MappingQueryGenerator.java:59 | the item is split at its first '=' only: the key holds no '=', the value may; no split exactly when the item has no '=' |
| Text.SplitOnceAt | src/main/java/com/stratio/ingestion/sink/jdbc/MappingQueryGenerator.java:59 | `k=v` with a key free of '=' splits back into k and v, so an empty value such as `SID=` gives the key with "" |
| EventParser.ParseItemsSpec | src/main/java/com/stratio/ingestion/sink/jdbc/MappingQueryGenerator.java:98 | the map splitter succeeds exactly when every item holds '=' and no key repeats, and then yields each item split at its first '=', in order |
| EventParser.ParseBodySpec | src/main/java/com/stratio/ingestion/sink/jdbc/MappingQueryGenerator.java:98 | a body parses exactly when each of its bar-separated items holds '=' and the keys are distinct; the entries are those items split at their first '=' |
| EventParser.EntriesOfAt | src/main/java/com/stratio/ingestion/sink/jdbc/MappingQueryGenerator.java:98 | entry i of a parsed body is item i split at its first '=' |
| EventParser.ParseSerialize | src/main/java/com/stratio/ingestion/sink/jdbc/MappingQueryGenerator.java:98 | round trip: entries with distinct keys free of the bar and '=' and values free of the bar, written as `k=v` items joined by bars, parse back to the same entries |
| EventParser.EmptyBodyRejected | src/main/java/com/stratio/ingestion/sink/jdbc/MappingQueryGenerator.java:98 | an empty body is refused as an invalid entry |
| Mapping.UnknownKeyIgnored | src/main/java/com/stratio/ingestion/sink/jdbc/MappingQueryGenerator.java:100-104 | a pair whose key names no column leaves the record unchanged and is no error |
| Mapping.OtherTimestampLengthsDropped | src/main/java/com/stratio/ingestion/sink/jdbc/MappingQueryGenerator.java:106-111 | a non-empty timestamp value of a length other than 17 and 14 leaves the column out of the record |
| Mapping.TimestampColumnReadsPattern | src/main/java/com/stratio/ingestion/sink/jdbc/MappingQueryGenerator.java:106-110 | a timestamp column given a date-time printed with either pattern receives exactly that date-time |
| Mapping.GenericConversion | src/main/java/com/stratio/ingestion/sink/jdbc/MappingQueryGenerator.java:105-113 | an empty value, and any value of a non-timestamp column, goes through the column's generic conversion of the raw text |
| Timestamps.ParseStamp | src/main/java/com/stratio/ingestion/sink/jdbc/MappingQueryGenerator.java:107-110 | a parsed value was all digits and names a valid date-time; the seconds pattern gives zero milliseconds |
| Timestamps.FormatParse | src/main/java/com/stratio/ingestion/sink/jdbc/MappingQueryGenerator.java:107-110 | every valid date-time printed with a pattern parses back to itself with that pattern |
| Timestamps.ParseFormat | src/main/java/com/stratio/ingestion/sink/jdbc/MappingQueryGenerator.java:107-110 | conversely, every value a pattern accepts is the printing of the date-time read from it, so no two values give the same date-time |
| Timestamps.ParseStampFails | src/main/java/com/stratio/ingestion/sink/jdbc/MappingQueryGenerator.java:107-110 | a value of the pattern's length is refused by the model exactly when it is not the printing of any valid date-time (Joda also throws for a local time in a daylight-saving gap; see Left out) |
| Mapping.FieldValuesSucceeds | src/main/java/com/stratio/ingestion/sink/jdbc/MappingQueryGenerator.java:99-115 | the record of a body is built exactly when no pair's timestamp parse or conversion throws |
| Mapping.FieldValuesSpec | src/main/java/com/stratio/ingestion/sink/jdbc/MappingQueryGenerator.java:99-115 | the record's columns are exactly the keys whose pair puts a value, each holding that value |
| Mapping.MappingQueryGenerator.BuildRecord | src/main/java/com/stratio/ingestion/sink/jdbc/MappingQueryGenerator.java:93-115 | the loop over the pairs builds the record `FieldValues` prescribes, or throws its first failure |
| Mapping.MappingQueryGenerator.RecordOf | src/main/java/com/stratio/ingestion/sink/jdbc/MappingQueryGenerator.java:93-115 | one event's record: its body parsed, then the pairs mapped |
| Mapping.Collect | src/main/java/com/stratio/ingestion/sink/jdbc/MappingQueryGenerator.java:116-124 | the INSERT holds at most one record per event and never an empty record; which records, and their order, `CollectRecords` states |
| Mapping.MappedRowsFailure | src/main/java/com/stratio/ingestion/sink/jdbc/MappingQueryGenerator.java:92-125 | building the batch fails exactly when some event's body fails to parse or one of its values fails to convert |
| Mapping.CollectRecords | src/main/java/com/stratio/ingestion/sink/jdbc/MappingQueryGenerator.java:116-124 | a built batch holds exactly the records of the outcomes that contribute one, in their order |
| Mapping.MappedRowsOrder | src/main/java/com/stratio/ingestion/sink/jdbc/MappingQueryGenerator.java:116-124 | the INSERT's records are those of the events that map some column, one per such event, in event order |
| Mapping.MappedRowsCount | src/main/java/com/stratio/ingestion/sink/jdbc/MappingQueryGenerator.java:116-124 | `mappedEvents`, the number of records, equals the number of events that map at least one column |
| Mapping.QueryOutcomeSpec | src/main/java/com/stratio/ingestion/sink/jdbc/MappingQueryGenerator.java:126-135 | executeQuery returns false exactly when an INSERT ran and its affected-row count differs from the number of mapped events; it throws exactly when an event fails or the database rejects an INSERT that ran; an INSERT runs exactly when the builder takes records and some event maps a column, and it holds the mapped records |
| Mapping.MappingQueryGenerator.ExecuteQuery | src/main/java/com/stratio/ingestion/sink/jdbc/MappingQueryGenerator.java:89-136 | the loop over the events and the execution give what `QueryOutcome` prescribes |
| Numbers.ParseDecimal | src/main/java/com/stratio/ingestion/sink/jdbc/ConnectionManager.java:99-104 | a parsed int or long lies in the type's range, and the accepted text is an optional sign followed by at least one digit |
| Numbers.ParseDecimalSigned | src/main/java/com/stratio/ingestion/sink/jdbc/ConnectionManager.java:99-104 | a text of that shape reads as the signed number its digits spell, leading zeros allowed, and is refused exactly when that number is out of range |
| Numbers.DecimalRoundTrip | src/main/java/com/stratio/ingestion/sink/jdbc/ConnectionManager.java:99-104 | parseInt/parseLong read back every in-range value as printed |
| Numbers.ParseBoolean | src/main/java/com/stratio/ingestion/sink/jdbc/ConnectionManager.java:107-108 | `Boolean.valueOf` is true exactly for "true" in any case |
| ConnectionPool.SubProperties | src/main/java/com/stratio/ingestion/sink/jdbc/ConnectionManager.java:89 | the `dbcp.` settings are exactly the keys after the prefix, each with its value |
| ConnectionPool.Coerce | src/main/java/com/stratio/ingestion/sink/jdbc/ConnectionManager.java:99-115 | the value is converted by the first parameter type: int and long give the number parsed and fail exactly when the parse fails, boolean never fails, String is passed as is, any other type is not invoked |
| ConnectionPool.CoerceDecimal | src/main/java/com/stratio/ingestion/sink/jdbc/ConnectionManager.java:99-104 | an int or long setter receives exactly the number a decimal value spells, for every value its type holds |
| ConnectionPool.InvokedIsFirstSupportedSetter | src/main/java/com/stratio/ingestion/sink/jdbc/ConnectionManager.java:95-117 | the first declared method with the setter's name, a parameter and a supported first type is the one invoked |
| ConnectionPool.InvokedNeedsSetter | src/main/java/com/stratio/ingestion/sink/jdbc/ConnectionManager.java:95-96 | a key that names no setter sets nothing |
| ConnectionPool.InvokedSoleSetter | src/main/java/com/stratio/ingestion/sink/jdbc/ConnectionManager.java:95-117 | when every method of the setter's name takes one supported type, the value is converted by that type whatever the reflection order |
| ConnectionPool.MaxWaitSetting | src/main/java/com/stratio/ingestion/sink/jdbc/ConnectionManager.java:94-106 | `dbcp.maxWait` reaches `setMaxWait(long)` parsed as a long, and only warns when it is no long |
| ConnectionPool.UnappliedKeysChangeNothing | src/main/java/com/stratio/ingestion/sink/jdbc/ConnectionManager.java:118-124 | settings that fail or find no setter leave the pool unchanged and do not stop the loop |
| ConnectionPool.ApplyKeysFrame | src/main/java/com/stratio/ingestion/sink/jdbc/ConnectionManager.java:90-125 | the `dbcp.` settings touch only the setters they are named after |
| ConnectionPool.LastSettingWins | src/main/java/com/stratio/ingestion/sink/jdbc/ConnectionManager.java:90-125 | a setter ends with the value of the last setting that reached it |
| ConnectionPool.UnappliedSpec | src/main/java/com/stratio/ingestion/sink/jdbc/ConnectionManager.java:118-124 | the keys warned about (`chkSet` false) are exactly those whose setting found no setter or failed to convert |
| ConnectionPool.ConfiguredPool | src/main/java/com/stratio/ingestion/sink/jdbc/ConnectionManager.java:78-127 | after initialize auto-commit is off whatever the `dbcp.` keys said, and the URL is the configured one unless a key names its setter |
| ConnectionPool.BasicDataSource.ApplySetting | src/main/java/com/stratio/ingestion/sink/jdbc/ConnectionManager.java:91-117 | the reflective loop for one key sets `chkSet` exactly when the setting applies, and then changes only that setter |
| ConnectionPool.BasicDataSource.ApplySettings | src/main/java/com/stratio/ingestion/sink/jdbc/ConnectionManager.java:89-125 | the loop over the keys leaves the setters as `ApplyKeys` prescribes and reports the keys that only warned |
| ConnectionPool.BasicDataSource.GetConnection | src/main/java/com/stratio/ingestion/sink/jdbc/ConnectionManager.java:153 | a connection is lent exactly when the pool is open and can lend one, and it has the pool's auto-commit mode |
| ConnectionPool.ConnectionManager.Initialize | src/main/java/com/stratio/ingestion/sink/jdbc/ConnectionManager.java:59-129 | the old pool is closed and a fresh one installed; a missing driver or URL throws and leaves the new pool unconfigured; otherwise the pool holds the configured settings with auto-commit off |
| ConnectionPool.ConnectionManager.GetDatasource | src/main/java/com/stratio/ingestion/sink/jdbc/ConnectionManager.java:134-140 | "not initialized" exactly while there is no pool, otherwise the pool |
| ConnectionPool.ConnectionManager.GetConnection | src/main/java/com/stratio/ingestion/sink/jdbc/ConnectionManager.java:148-154 | "not initialized" while there is no pool; otherwise a connection with auto-commit as configured exactly when the pool lends one |
| Sink.BatchSizeOf | src/main/java/com/stratio/ingestion/sink/jdbc/JDBCSink.java:102 | the batch size is an int (default 20 when absent) |
| Sink.BatchSizeRoundTrip | src/main/java/com/stratio/ingestion/sink/jdbc/JDBCSink.java:102 | any int written as the batch size is read back as itself |
| Sink.DialectOf | src/main/java/com/stratio/ingestion/sink/jdbc/JDBCSink.java:104 | a dialect is found exactly when the name spells one |
| Sink.DialectIgnoresCase | src/main/java/com/stratio/ingestion/sink/jdbc/JDBCSink.java:104 | a configured name selects a dialect exactly when it equals that dialect's name up to case |
| Sink.JdbcSink.Configure | src/main/java/com/stratio/ingestion/sink/jdbc/JDBCSink.java:98-124 | initializes the pool, then sets the batch size, the dialect and the generator in that order; each failure stops configure: what it had not reached keeps its old value and what it had set stays set, so a table lookup or template failure leaves the new batch size and dialect but the old generator and counter; with `sql` it fails exactly when the template generator's constructor throws; success yields a fresh zeroed counter |
| Sink.JdbcSink.ChooseGenerator | src/main/java/com/stratio/ingestion/sink/jdbc/JDBCSink.java:106-123 | without `sql` a connection is borrowed and closed again whether or not the table is found, giving the mapping generator for the first matching catalog table or "Table not found" with the configured name; a pool that lends nothing fails before any borrow; with `sql` a template generator, unless its constructor throws, whose exception `configure` then gives; no connection is borrowed on that path |
| Sink.DrainIsPrefix | src/main/java/com/stratio/ingestion/sink/jdbc/JDBCSink.java:196-202 | n takes with the nulls removed give the first n events of the channel, in order (all of them when it holds fewer) |
| Sink.Batch | src/main/java/com/stratio/ingestion/sink/jdbc/JDBCSink.java:196-202 | a drained batch never exceeds the batch size or the channel |
| Sink.JdbcSink.TakeEventsFromChannel | src/main/java/com/stratio/ingestion/sink/jdbc/JDBCSink.java:195-203 | takes exactly n times and counts n drain attempts (up to a take that throws), moves the taken events into the transaction, and returns them without the nulls |
| Sink.Channel.Take | src/main/java/com/stratio/ingestion/sink/jdbc/JDBCSink.java:199 | a take removes the oldest event into the transaction, or gives null on an empty channel |
| Sink.Channel.Rollback | src/main/java/com/stratio/ingestion/sink/jdbc/JDBCSink.java:169 | a rollback puts the taken events back at the front, in order |
| Sink.RunWellClosed | src/main/java/com/stratio/ingestion/sink/jdbc/JDBCSink.java:127-181 | on every path the transaction is closed, the connection is closed exactly when one was obtained, these are the last calls, and the database commit precedes the channel commit |
| Sink.AbortWellClosed | src/main/java/com/stratio/ingestion/sink/jdbc/JDBCSink.java:162-179 | the catch block attempts the database rollback when connected, rolls the channel back, never commits it and closes both; the result is the wrapped rethrow exactly when the throwable was an Error, the rollback's own Error exactly when it was not and the database rollback threw an Error, and BACKOFF otherwise |
| Sink.FinishWellClosed | src/main/java/com/stratio/ingestion/sink/jdbc/JDBCSink.java:160-179 | the channel commit and the finally block keep the trace well closed |
| Sink.DrainedWellClosed | src/main/java/com/stratio/ingestion/sink/jdbc/JDBCSink.java:140-179 | every path after a completed drain is well closed |
| Sink.RunDrains | src/main/java/com/stratio/ingestion/sink/jdbc/JDBCSink.java:132-139 | once begin, the borrow and every take succeeded, process goes on with the drained batch after begin, borrow and n takes |
| Sink.EarlyFailure | src/main/java/com/stratio/ingestion/sink/jdbc/JDBCSink.java:132-139 | a process that fails before its drain completes never returns READY |
| Sink.ReadyMeansCommitted | src/main/java/com/stratio/ingestion/sink/jdbc/JDBCSink.java:139-161 | READY means the calls were begin, borrow, the takes, the query and database commit (non-empty batch only), the channel commit and the closes; the batch left the channel and was counted as drained |
| Sink.FailureRollsBack | src/main/java/com/stratio/ingestion/sink/jdbc/JDBCSink.java:162-175 | a process that does not return READY restores the channel, counts one connection failure, rolls the channel back, never commits it, attempts the database rollback when connected, and counts as drained only a batch already committed to the database; the result is BACKOFF, the wrapped rethrow, or an Error from `connection.rollback()`, the last only when connected |
| Sink.ConnectedFails | src/main/java/com/stratio/ingestion/sink/jdbc/JDBCSink.java:138-175 | the same rollback guarantee once a connection is held |
| Sink.TakeFailsRolledBack | src/main/java/com/stratio/ingestion/sink/jdbc/JDBCSink.java:138-175 | a take that throws rolls everything back |
| Sink.DrainedFails | src/main/java/com/stratio/ingestion/sink/jdbc/JDBCSink.java:140-175 | a failure after the drain (query exception, "Query failed", either commit) rolls everything back |
| Sink.OneBatchCounter | src/main/java/com/stratio/ingestion/sink/jdbc/JDBCSink.java:140-157 | a completed drain bumps exactly one of batch-complete, batch-underflow and batch-empty by one, chosen by the batch's size, and counts `batchSize` drain attempts; an earlier failure bumps none |
| Sink.EmptyBatchCommitsChannelOnly | src/main/java/com/stratio/ingestion/sink/jdbc/JDBCSink.java:156-161 | an empty batch runs no query and no database commit, and returns READY exactly when the channel commit succeeds |
| Sink.RedeliveryAfterChannelCommitFailure | src/main/java/com/stratio/ingestion/sink/jdbc/JDBCSink.java:153-169 | when the channel commit throws after the database commit, the batch is in the database and back in the channel, and the result is not READY |
| Sink.JdbcSink.Process | src/main/java/com/stratio/ingestion/sink/jdbc/JDBCSink.java:127-181 | process returns, calls, leaves the channel and the counters exactly as `Run` prescribes |
| Sink.JdbcSink.Drain | src/main/java/com/stratio/ingestion/sink/jdbc/JDBCSink.java:138-145 | the rest of process after the borrow follows `Connected` |
| Sink.JdbcSink.Deliver | src/main/java/com/stratio/ingestion/sink/jdbc/JDBCSink.java:140-158 | the rest of process after the drain follows `Drained` |
| Sink.JdbcSink.ExecuteAndCommit | src/main/java/com/stratio/ingestion/sink/jdbc/JDBCSink.java:147-160 | the query, the check of its answer and the database commit follow `Queried` |
| Sink.JdbcSink.Execute | src/main/java/com/stratio/ingestion/sink/jdbc/JDBCSink.java:147 | the generator's answer is `QueryResult`: the mapping generator's `executeQuery`, or the template generator's outcome |
| Sink.JdbcSink.Complete | src/main/java/com/stratio/ingestion/sink/jdbc/JDBCSink.java:160-179 | the channel commit and the finally block follow `Finish` |
| Sink.JdbcSink.Recover | src/main/java/com/stratio/ingestion/sink/jdbc/JDBCSink.java:162-179 | the catch and finally blocks follow `Abort`: an exception from `connection.rollback()` is logged, an Error from it escapes after the channel rollback and the counter |

## Left out

- The Flume channel, its transactions and `SinkCounter` are modelled only as far as `process` uses them:
  - the channel is a queue with a taken list;
  - the counters are plain fields;
  - rollback and close of the channel transaction are taken never to throw.
  - That differs from Flume's `BasicTransactionSemantics` when `begin()` itself throws. Its `rollback()` then throws `IllegalStateException`, because the transaction never opened. `process` propagates that exception from its catch block, and the connection-failure counter does not move. The model (`Connected` with a fault at the begin step) instead counts a connection failure and returns BACKOFF, or rethrows an Error.
- Which collaborator call throws is an input (`Environment`):
  - one fault at most per `process`;
  - whether the pool lends a connection, and whether `connection.rollback()` returns, throws an exception or throws an Error, are also inputs.
  - The throwable itself is reduced to whether it is a `java.lang.Error`.
- jOOQ is reduced to three inputs:
  - `DataType.convert` is a predicate saying which conversions succeed; the converted value is not computed;
  - whether `insertInto` returns an `InsertSetMoreStep`;
  - the database's answer to the INSERT.
  - SQL rendering and `meta()` are out; the catalog is a parameter of `configure`.
  - jOOQ aligns the later records of one multi-row INSERT to the first record's columns, so a later record can carry an explicit NULL, or be refused, where the model's statement simply holds the mapped records. This alignment is not modelled; the database's answer stays an input.
- The reflection over `getDeclaredMethods` is replaced by a parameter: the list of the pool class's methods with their parameter types. Its order is unspecified in Java, and nothing fixes it here.
- DBCP's `BasicDataSource` is a map from setter name to the last value given. Borrowing, validation, eviction and blocking on `maxWait` are not modelled.
- A setter whose `invoke` itself throws (as opposed to the value's parse) is not modelled. Any setter the search reaches is taken to accept the value.
- The `HashMap` order of the `dbcp.` keys is a parameter (`order`, a permutation of the keys).
- Joda's time-zone and epoch arithmetic in `parseMillis` is out. A parsed timestamp is the local date-time that the value's unsigned digit fields spell, checked against the ISO calendar.
- Timestamps.ParseStampFails: accepts a local time that falls in a daylight-saving gap of the JVM's default time zone.
  - Examples: `20150329023000` under Europe/Madrid, or `20150308023000` under America/New_York.
  - Joda's `parseMillis` throws `IllegalInstantException` for such a value. `executeQuery` then throws, and the batch is rolled back and redelivered, failing again on every later `process`.
  - The model gives the column a `Millis` value. `Timestamps.ParseStamp`, `Timestamps.FormatParse` and `Mapping.TimestampColumnReadsPattern` rest on the same simplification: a valid date-time here is one the ISO calendar has, whatever the zone.
- Timestamps.ParseStamp: refuses a value whose year carries a sign, such as the 17-character `+2015073014045812`.
  - Joda's `yyyy` field is signed. It accepts a leading `+` or `-` and reads four digits after it, so every later field starts one position further on and the last field gets one digit fewer.
  - The program stores that example as 2015-07-30 14:04:58.120. The model gives BadTimestamp and fails the batch.
- Mapping.MapField: measures a value's length in characters, while Java's `String.length()` counts UTF-16 code units.
  - The two differ for a value with characters outside the Basic Multilingual Plane.
  - Example: a 16-character timestamp value holding one emoji has length 17 in Java, so Joda's millisecond pattern reads it and throws. The model drops the column (`Dropped`).
- Numbers.ParseDecimal: accepts ASCII digits only. `Integer.parseInt` and `Long.parseLong` accept every Unicode decimal digit (`Character.digit`), for example the Arabic-Indic `٥`. The model refuses such text: it gives BadNumber for `batchSize`, and a `dbcp.` setting that is only logged.
- The template generator (`TemplateQueryGenerator` is not part of this model) is reduced to two inputs: whether its constructor throws (`template` of `configure`), and what its `executeQuery` gives (`templateOutcome`).
- The dialect is one of the nine dialects the sink documents, not jOOQ's whole `SQLDialect` list.
- Case folding (`equalsIgnoreCase`, `toUpperCase`, `capitalize`) covers ASCII letters only.
- The UTF-8 decoding of event bodies: bodies are taken as already-decoded strings.
- Event headers are carried but not read, as in the code.
- Logging, `start`/`stop` and the `synchronized` on them, and concurrency are out.
- A concrete parse of the sample body in `JDBCSinkTest.java` is not included. The general parse and timestamp lemmas cover it.
- Sink.FailureRollsBack: states that the result is BACKOFF, the rethrow or the rollback's Error, not which one. `AbortWellClosed` states which for a given throwable, and this lemma leaves the kind of the throwable open.
