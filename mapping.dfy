/** The mapping query generator: it finds the target table in the database catalog once, and
    for each batch turns every event body into one row of a multi-row INSERT, keeping only the
    keys that name columns of the table and converting each value to its column's type. */
module Mapping {
  import opened Wrappers
  import opened Failures
  import opened Text
  import opened EventParser
  import opened Timestamps

  /** The one property of a column's jOOQ data type the generator consults: whether its Java
      type accepts a java.sql.Timestamp. */
  datatype ColumnType = TimestampType | OtherType(typeName: string)

  datatype Column = Column(name: string, kind: ColumnType)

  /** A table of the catalog, its columns in declaration order. */
  datatype Table = Table(name: string, columns: seq<Column>)

  /** An event taken from the channel, its body already decoded from UTF-8. */
  datatype Event = Event(body: string, headers: map<string, string>)

  /** What the generator hands to a column's `DataType.convert`: the raw text of the value, or
      the instant `parseMillis` read from a timestamp value. */
  datatype Datum = Raw(text: string) | Millis(stamp: Stamp)

  /** The value `DataType.convert` produced for a column of this type from this input. */
  datatype Cell = Converted(kind: ColumnType, input: Datum)

  /** One record of the INSERT: column name to value. */
  type Row = map<string, Cell>

  /** What the database answers to the INSERT: the affected-row count, or an SQLException. */
  datatype InsertAnswer = Affected(count: int) | Rejected

  /** The behaviour of jOOQ and the database during one executeQuery: which conversions succeed,
      whether the builder `insertInto` returns is an `InsertSetMoreStep` (so that records can be
      added to it and it can be executed), and the answer to the INSERT. */
  datatype Database = Database(converts: (ColumnType, Datum) -> bool, builderTakesRows: bool, answer: InsertAnswer)

  /** The outcome of one executeQuery that did not throw: the records of the INSERT that was
      executed (None when none was), and the boolean the generator returns. */
  datatype QueryRun = QueryRun(statement: Option<seq<Row>>, success: bool)

  /** What one parsed key/value pair contributes to a record. */
  datatype FieldValue =
    | Ignored            // the key names no column
    | Dropped            // a timestamp value of a length neither pattern has
    | Put(cell: Cell)    // the column receives this value
    | Fails(failure: Failure)

  /** `table.getName().equalsIgnoreCase(tableName)`; a missing name matches nothing. */
  predicate Named(t: Table, tableName: Option<string>)
  {
    tableName.Some? && EqualsIgnoreCase(t.name, tableName.value)
  }

  /** jOOQ `table.field(key)`: the first column whose name is exactly the key. */
  function FieldOf(columns: seq<Column>, key: string): (r: Option<Column>)
    ensures r.Some? ==> r.value in columns && r.value.name == key
    ensures r.None? <==> forall i :: 0 <= i < |columns| ==> columns[i].name != key
    decreases |columns|
  {
    if columns == [] then None
    else if columns[0].name == key then Some(columns[0])
    else FieldOf(columns[1..], key)
  }

  /** `DataType.convert` applied to one input, or the exception it throws. */
  function Convert(col: Column, input: Datum, converts: (ColumnType, Datum) -> bool): FieldValue
  {
    if converts(col.kind, input) then Put(Converted(col.kind, input)) else Fails(ConversionFailed(col.name))
  }

  /** A timestamp value of a pattern's length: parsed with that pattern, then converted. */
  function ConvertStamp(col: Column, value: string, withMillis: bool, converts: (ColumnType, Datum) -> bool): FieldValue
    requires |value| == if withMillis then |FullDateFormat| else |SecTimeFormat|
  {
    match ParseStamp(value, withMillis)
    case None => Fails(BadTimestamp(value))
    case Some(st) => Convert(col, Millis(st), converts)
  }

  /** The contribution of the pair key=value to a record of the table. */
  function MapField(table: Table, key: string, value: string, converts: (ColumnType, Datum) -> bool): FieldValue
  {
    match FieldOf(table.columns, key)
    case None => Ignored
    case Some(col) =>
      if col.kind == TimestampType && value != "" then
        if |value| == |FullDateFormat| then ConvertStamp(col, value, true, converts)
        else if |value| == |SecTimeFormat| then ConvertStamp(col, value, false, converts)
        else Dropped
      else Convert(col, Raw(value), converts)
  }

  function MapEntry(table: Table, e: (string, string), converts: (ColumnType, Datum) -> bool): FieldValue
  {
    MapField(table, e.0, e.1, converts)
  }

  /** The record assembled from what each pair contributes, in pair order: a pair that puts a
      value sets its column, the first pair that throws aborts the record. */
  function Assemble(parts: seq<(string, FieldValue)>): Result<Row, Failure>
    decreases |parts|
  {
    if parts == [] then Ok(map[])
    else
      var last := parts[|parts| - 1];
      match Assemble(parts[..|parts| - 1])
      case Err(f) => Err(f)
      case Ok(row) =>
        match last.1
        case Put(c) => Ok(row[last.0 := c])
        case Fails(f) => Err(f)
        case _ => Ok(row)
  }

  /** Each pair of a body with what it contributes to a record of the table. */
  function Contributions(table: Table, entries: Entries, converts: (ColumnType, Datum) -> bool): (parts: seq<(string, FieldValue)>)
    ensures |parts| == |entries|
  {
    seq(|entries|, i requires 0 <= i < |entries| => (entries[i].0, MapEntry(table, entries[i], converts)))
  }

  /** The record built from the parsed pairs of one body. */
  function FieldValues(table: Table, entries: Entries, converts: (ColumnType, Datum) -> bool): Result<Row, Failure>
  {
    Assemble(Contributions(table, entries, converts))
  }

  /** The record of one event, or the exception its body raises. */
  function EventRow(table: Table, e: Event, converts: (ColumnType, Datum) -> bool): Result<Row, Failure>
  {
    match ParseBody(e.body)
    case Err(f) => Err(f)
    case Ok(entries) => FieldValues(table, entries, converts)
  }

  /** An event whose body parses and maps at least one column. */
  predicate MapsSomeField(table: Table, e: Event, converts: (ColumnType, Datum) -> bool)
  {
    EventRow(table, e, converts).Ok? && EventRow(table, e, converts).value != map[]
  }

  /** The records of a batch from the outcomes of its events, in event order: the first failure
      aborts the batch, and an event with an empty record contributes nothing. */
  function Collect(results: seq<Result<Row, Failure>>): (r: Result<seq<Row>, Failure>)
    ensures r.Ok? ==> |r.value| <= |results|
    ensures r.Ok? ==> forall i :: 0 <= i < |r.value| ==> r.value[i] != map[]
    decreases |results|
  {
    if results == [] then Ok([])
    else
      match Collect(results[..|results| - 1])
      case Err(f) => Err(f)
      case Ok(rows) =>
        match results[|results| - 1]
        case Err(f) => Err(f)
        case Ok(row) => if row == map[] then Ok(rows) else Ok(rows + [row])
  }

  function EventRows(table: Table, events: seq<Event>, converts: (ColumnType, Datum) -> bool): (rs: seq<Result<Row, Failure>>)
    ensures |rs| == |events|
  {
    seq(|events|, i requires 0 <= i < |events| => EventRow(table, events[i], converts))
  }

  /** The records the events contribute to the INSERT. */
  function MappedRows(table: Table, events: seq<Event>, converts: (ColumnType, Datum) -> bool): Result<seq<Row>, Failure>
  {
    Collect(EventRows(table, events, converts))
  }

  /** The positions of the events that map some column. */
  function MappedIndices(table: Table, events: seq<Event>, converts: (ColumnType, Datum) -> bool): set<nat>
  {
    set i: nat | i < |events| && MapsSomeField(table, events[i], converts)
  }

  // ---- properties of a single record ----

  /** A key that names no column is skipped without error. */
  lemma UnknownKeyIgnored(table: Table, entries: Entries, key: string, value: string, converts: (ColumnType, Datum) -> bool)
    requires forall i :: 0 <= i < |table.columns| ==> table.columns[i].name != key
    ensures FieldValues(table, entries + [(key, value)], converts) == FieldValues(table, entries, converts)
  {
    var all := entries + [(key, value)];
    assert all[..|entries|] == entries && all[..|entries| + 1] == all;
    FieldValuesSnoc(table, all, |entries|, converts);
  }

  /** A non-empty timestamp value whose length is neither 17 nor 14 leaves the column out of the
      record, whatever the text; it is never an error. */
  lemma OtherTimestampLengthsDropped(table: Table, col: Column, value: string, converts: (ColumnType, Datum) -> bool)
    requires FieldOf(table.columns, col.name) == Some(col) && col.kind == TimestampType
    requires value != "" && |value| != 17 && |value| != 14
    ensures MapField(table, col.name, value, converts) == Dropped
  {
  }

  /** A timestamp column given the text of a date-time written with either pattern receives that
      date-time, to the millisecond for the 17-character pattern and to the second for the
      14-character one. */
  lemma TimestampColumnReadsPattern(table: Table, col: Column, st: Stamp, withMillis: bool, converts: (ColumnType, Datum) -> bool)
    requires FieldOf(table.columns, col.name) == Some(col) && col.kind == TimestampType
    requires ValidStamp(st) && (!withMillis ==> st.millis == 0)
    requires converts(TimestampType, Millis(st))
    ensures MapField(table, col.name, FormatStamp(st, withMillis), converts) == Put(Converted(TimestampType, Millis(st)))
  {
    FormatParse(st, withMillis);
  }

  /** An empty value, even for a timestamp column, and every value of any other column go through
      the column's own conversion of the raw text. */
  lemma GenericConversion(table: Table, col: Column, value: string, converts: (ColumnType, Datum) -> bool)
    requires FieldOf(table.columns, col.name) == Some(col)
    requires col.kind != TimestampType || value == ""
    ensures MapField(table, col.name, value, converts) ==
              if converts(col.kind, Raw(value)) then Put(Converted(col.kind, Raw(value)))
              else Fails(ConversionFailed(col.name))
  {
  }

  lemma DistinctKeysPrefix(entries: Entries, n: nat)
    requires DistinctKeys(entries) && n <= |entries|
    ensures DistinctKeys(entries[..n])
  {
    forall i, j | 0 <= i < j < n ensures entries[..n][i].0 != entries[..n][j].0 {
      assert entries[..n][i] == entries[i] && entries[..n][j] == entries[j];
    }
  }

  lemma {:induction false} AssembleSucceeds(parts: seq<(string, FieldValue)>)
    ensures Assemble(parts).Ok? <==> forall i :: 0 <= i < |parts| ==> !parts[i].1.Fails?
    decreases |parts|
  {
    if parts != [] {
      var n := |parts| - 1;
      var pre := parts[..n];
      AssembleSucceeds(pre);
      assert forall i :: 0 <= i < n ==> pre[i] == parts[i];
    }
  }

  lemma {:induction false} AssembleContents(parts: seq<(string, FieldValue)>)
    requires forall i, j :: 0 <= i < j < |parts| ==> parts[i].0 != parts[j].0
    requires Assemble(parts).Ok?
    ensures forall key :: key in Assemble(parts).value <==> exists i :: 0 <= i < |parts| && parts[i].0 == key && parts[i].1.Put?
    ensures forall i :: 0 <= i < |parts| && parts[i].1.Put? ==> Assemble(parts).value[parts[i].0] == parts[i].1.cell
    decreases |parts|
  {
    if parts != [] {
      var n := |parts| - 1;
      var pre := parts[..n];
      assert Assemble(pre).Ok?;
      assert forall i :: 0 <= i < n ==> pre[i] == parts[i];
      AssembleContents(pre);
    }
  }

  lemma {:induction false} AssembleErrPersists(parts: seq<(string, FieldValue)>, k: nat)
    requires k <= |parts| && Assemble(parts[..k]).Err?
    ensures Assemble(parts) == Assemble(parts[..k])
    decreases |parts| - k
  {
    if k < |parts| {
      assert parts[..k + 1][..k] == parts[..k];
      AssembleErrPersists(parts, k + 1);
    } else {
      assert parts[..k] == parts;
    }
  }

  lemma ContributionsPrefix(table: Table, entries: Entries, k: nat, converts: (ColumnType, Datum) -> bool)
    requires k <= |entries|
    ensures Contributions(table, entries[..k], converts) == Contributions(table, entries, converts)[..k]
  {
  }

  /** One more pair extends the record as `Assemble` prescribes. */
  lemma FieldValuesSnoc(table: Table, entries: Entries, k: nat, converts: (ColumnType, Datum) -> bool)
    requires k < |entries|
    ensures FieldValues(table, entries[..k + 1], converts) ==
              match FieldValues(table, entries[..k], converts)
              case Err(f) => Err(f)
              case Ok(row) =>
                match MapEntry(table, entries[k], converts)
                case Put(c) => Ok(row[entries[k].0 := c])
                case Fails(f) => Err(f)
                case _ => Ok(row)
  {
    var parts := Contributions(table, entries[..k + 1], converts);
    assert parts[..k] == Contributions(table, entries[..k], converts);
    assert parts[k] == (entries[k].0, MapEntry(table, entries[k], converts));
  }

  /** The record of a body is built exactly when no pair's conversion throws. */
  lemma FieldValuesSucceeds(table: Table, entries: Entries, converts: (ColumnType, Datum) -> bool)
    ensures FieldValues(table, entries, converts).Ok? <==>
              forall i :: 0 <= i < |entries| ==> !MapEntry(table, entries[i], converts).Fails?
  {
    var parts := Contributions(table, entries, converts);
    assert forall i :: 0 <= i < |parts| ==> parts[i].1 == MapEntry(table, entries[i], converts);
    AssembleSucceeds(parts);
  }

  /** The record of a body with distinct keys, described pair by pair: its columns are the keys
      whose pair puts a value, and each holds the value of its own pair. */
  lemma FieldValuesSpec(table: Table, entries: Entries, converts: (ColumnType, Datum) -> bool)
    requires DistinctKeys(entries) && FieldValues(table, entries, converts).Ok?
    ensures forall key :: key in FieldValues(table, entries, converts).value <==>
              exists i :: 0 <= i < |entries| && entries[i].0 == key && MapEntry(table, entries[i], converts).Put?
    ensures forall i :: 0 <= i < |entries| && MapEntry(table, entries[i], converts).Put? ==>
              FieldValues(table, entries, converts).value[entries[i].0] == MapEntry(table, entries[i], converts).cell
  {
    var parts := Contributions(table, entries, converts);
    assert forall i :: 0 <= i < |parts| ==> parts[i] == (entries[i].0, MapEntry(table, entries[i], converts));
    AssembleContents(parts);
  }

  lemma FieldValuesErrPersists(table: Table, entries: Entries, k: nat, converts: (ColumnType, Datum) -> bool)
    requires k <= |entries| && FieldValues(table, entries[..k], converts).Err?
    ensures FieldValues(table, entries, converts) == FieldValues(table, entries[..k], converts)
  {
    ContributionsPrefix(table, entries, k, converts);
    AssembleErrPersists(Contributions(table, entries, converts), k);
  }

  // ---- properties of a batch ----

  lemma {:induction false} CollectErrPersists(results: seq<Result<Row, Failure>>, k: nat)
    requires k <= |results| && Collect(results[..k]).Err?
    ensures Collect(results) == Collect(results[..k])
    decreases |results| - k
  {
    if k < |results| {
      assert results[..k + 1][..k] == results[..k];
      CollectErrPersists(results, k + 1);
    } else {
      assert results[..k] == results;
    }
  }

  lemma {:induction false} CollectFailure(results: seq<Result<Row, Failure>>)
    ensures Collect(results).Err? <==> exists i :: 0 <= i < |results| && results[i].Err?
    decreases |results|
  {
    if results != [] {
      var n := |results| - 1;
      var pre := results[..n];
      CollectFailure(pre);
      assert forall i :: 0 <= i < n ==> pre[i] == results[i];
    }
  }

  /** An outcome that adds a record to the batch. */
  predicate Contributes(result: Result<Row, Failure>)
  {
    result.Ok? && result.value != map[]
  }

  /** The positions of the outcomes that add a record. */
  function Contributing(results: seq<Result<Row, Failure>>): set<nat>
  {
    set i: nat | i < |results| && Contributes(results[i])
  }

  lemma ContributingSnoc(results: seq<Result<Row, Failure>>)
    requires results != []
    ensures var n := |results| - 1;
            Contributing(results) == Contributing(results[..n]) + (if Contributes(results[n]) then {n} else {})
  {
    var n := |results| - 1;
    assert forall i :: 0 <= i < n ==> results[..n][i] == results[i];
  }

  /** A batch that is built holds one record per outcome that contributes one. */
  lemma {:induction false} CollectCount(results: seq<Result<Row, Failure>>)
    requires Collect(results).Ok?
    ensures |Collect(results).value| == |Contributing(results)|
    decreases |results|
  {
    if results != [] {
      var n := |results| - 1;
      var pre := results[..n];
      assert Collect(pre).Ok?;
      CollectCount(pre);
      ContributingSnoc(results);
      assert n !in Contributing(pre);
    }
  }

  /** The positions of the outcomes that add a record, in increasing order: each position once. */
  function ContributingOrder(results: seq<Result<Row, Failure>>): (idx: seq<nat>)
    ensures forall j :: 0 <= j < |idx| ==> idx[j] < |results| && Contributes(results[idx[j]])
    ensures forall j, k :: 0 <= j < k < |idx| ==> idx[j] < idx[k]
    ensures forall i :: 0 <= i < |results| && Contributes(results[i]) ==> i in idx
    decreases |results|
  {
    if results == [] then []
    else
      var n := |results| - 1;
      ContributingOrder(results[..n]) + (if Contributes(results[n]) then [n] else [])
  }

  /** A batch that is built holds exactly the records of the contributing outcomes, in their
      order. */
  lemma {:induction false} CollectRecords(results: seq<Result<Row, Failure>>)
    requires Collect(results).Ok?
    ensures var idx := ContributingOrder(results);
            && |Collect(results).value| == |idx|
            && forall j :: 0 <= j < |idx| ==> Collect(results).value[j] == results[idx[j]].value
    decreases |results|
  {
    if results != [] {
      var n := |results| - 1;
      var pre := results[..n];
      assert Collect(pre).Ok?;
      CollectRecords(pre);
      assert forall i :: 0 <= i < n ==> pre[i] == results[i];
    }
  }

  /** One more event extends the batch as `Collect` prescribes. */
  lemma MappedRowsSnoc(table: Table, events: seq<Event>, n: nat, converts: (ColumnType, Datum) -> bool)
    requires n < |events|
    ensures MappedRows(table, events[..n + 1], converts) ==
              match MappedRows(table, events[..n], converts)
              case Err(f) => Err(f)
              case Ok(rows) =>
                match EventRow(table, events[n], converts)
                case Err(f) => Err(f)
                case Ok(row) => if row == map[] then Ok(rows) else Ok(rows + [row])
  {
    var rs := EventRows(table, events[..n + 1], converts);
    assert rs[..n] == EventRows(table, events[..n], converts);
    assert rs[n] == EventRow(table, events[n], converts);
  }

  lemma EventRowsPrefix(table: Table, events: seq<Event>, n: nat, converts: (ColumnType, Datum) -> bool)
    requires n <= |events|
    ensures EventRows(table, events[..n], converts) == EventRows(table, events, converts)[..n]
  {
  }

  lemma MappedRowsErrPersists(table: Table, events: seq<Event>, k: nat, converts: (ColumnType, Datum) -> bool)
    requires k <= |events| && MappedRows(table, events[..k], converts).Err?
    ensures MappedRows(table, events, converts) == MappedRows(table, events[..k], converts)
  {
    EventRowsPrefix(table, events, k, converts);
    CollectErrPersists(EventRows(table, events, converts), k);
  }

  /** A batch fails exactly when some event's body fails to parse or some value of it fails to
      convert. */
  lemma MappedRowsFailure(table: Table, events: seq<Event>, converts: (ColumnType, Datum) -> bool)
    ensures MappedRows(table, events, converts).Err? <==>
              exists i :: 0 <= i < |events| && EventRow(table, events[i], converts).Err?
  {
    var rs := EventRows(table, events, converts);
    CollectFailure(rs);
    assert forall i :: 0 <= i < |events| ==> rs[i] == EventRow(table, events[i], converts);
  }

  /** `mappedEvents`, the number of records, is the number of events that map at least one
      column. */
  lemma MappedRowsCount(table: Table, events: seq<Event>, converts: (ColumnType, Datum) -> bool)
    requires MappedRows(table, events, converts).Ok?
    ensures |MappedRows(table, events, converts).value| == |MappedIndices(table, events, converts)|
  {
    var rs := EventRows(table, events, converts);
    CollectCount(rs);
    assert forall i :: 0 <= i < |events| ==> rs[i] == EventRow(table, events[i], converts);
    assert Contributing(rs) == MappedIndices(table, events, converts);
  }

  /** The INSERT's records are the records of the events that map some column, one for each
      such event, in event order. */
  lemma MappedRowsOrder(table: Table, events: seq<Event>, converts: (ColumnType, Datum) -> bool)
    requires MappedRows(table, events, converts).Ok?
    ensures var rows := MappedRows(table, events, converts).value;
            exists idx: seq<nat> ::
              && |idx| == |rows|
              && (forall j, k :: 0 <= j < k < |idx| ==> idx[j] < idx[k])
              && (forall j :: 0 <= j < |idx| ==>
                    idx[j] in MappedIndices(table, events, converts) && rows[j] == EventRow(table, events[idx[j]], converts).value)
              && (forall i :: i in MappedIndices(table, events, converts) ==> i in idx)
  {
    var rs := EventRows(table, events, converts);
    var rows := Collect(rs).value;
    var mapped := MappedIndices(table, events, converts);
    CollectRecords(rs);
    var idx := ContributingOrder(rs);
    forall j | 0 <= j < |idx|
      ensures idx[j] in mapped && rows[j] == EventRow(table, events[idx[j]], converts).value
    {
      assert rs[idx[j]] == EventRow(table, events[idx[j]], converts);
    }
    forall i | i in mapped
      ensures i in idx
    {
      assert rs[i] == EventRow(table, events[i], converts);
    }
    assert |idx| == |rows|;
  }

  /** What executeQuery gives for a batch: the exception of the first event that fails; no
      statement and success when the builder takes no records, or when no event maps a column
      (jOOQ does not execute an INSERT without values and reports 0 rows, which equals the 0
      mapped events); the INSERT of the mapped records otherwise, successful when the database
      reports one affected row per record. */
  function QueryOutcome(table: Table, events: seq<Event>, db: Database): Result<QueryRun, Failure>
  {
    match MappedRows(table, events, db.converts)
    case Err(f) => Err(f)
    case Ok(rows) =>
      if !db.builderTakesRows || rows == [] then Ok(QueryRun(None, true))
      else if db.answer.Rejected? then Err(InsertRejected)
      else Ok(QueryRun(Some(rows), db.answer.count == |rows|))
  }

  /** executeQuery returns false exactly when the INSERT was executed and the affected-row
      count differs from the number of events that map some column; it fails exactly when an
      event fails to map or the database rejects the INSERT; an INSERT is sent exactly when the
      builder takes records and some event maps a column, and it holds the mapped records. */
  lemma QueryOutcomeSpec(table: Table, events: seq<Event>, db: Database)
    ensures QueryOutcome(table, events, db).Err? <==>
              (exists i :: 0 <= i < |events| && EventRow(table, events[i], db.converts).Err?)
              || (db.builderTakesRows && db.answer.Rejected? && MappedIndices(table, events, db.converts) != {})
    ensures QueryOutcome(table, events, db).Ok? ==>
              (!QueryOutcome(table, events, db).value.success <==>
                 && db.builderTakesRows && MappedIndices(table, events, db.converts) != {}
                 && db.answer.count != |MappedIndices(table, events, db.converts)|)
    ensures QueryOutcome(table, events, db).Ok? ==>
              (QueryOutcome(table, events, db).value.statement.Some? <==>
                 db.builderTakesRows && MappedIndices(table, events, db.converts) != {})
    ensures QueryOutcome(table, events, db).Ok? && QueryOutcome(table, events, db).value.statement.Some? ==>
              QueryOutcome(table, events, db).value.statement.value == MappedRows(table, events, db.converts).value
  {
    MappedRowsFailure(table, events, db.converts);
    if MappedRows(table, events, db.converts).Ok? {
      MappedRowsCount(table, events, db.converts);
    }
  }

  /** The generator: the catalog table chosen once at construction. */
  datatype MappingQueryGenerator = MappingQueryGenerator(table: Table)
  {
    /** The constructor's search: the first catalog table whose name equals the configured one
        up to case, or "Table not found". */
    static method Create(catalog: seq<Table>, tableName: Option<string>) returns (r: Result<MappingQueryGenerator, Failure>)
      ensures r.Ok? ==> exists i :: 0 <= i < |catalog| && r.value.table == catalog[i] && Named(catalog[i], tableName)
                                     && forall j :: 0 <= j < i ==> !Named(catalog[j], tableName)
      ensures r.Err? ==> r.error == TableNotFound(tableName)
      ensures r.Err? <==> forall j :: 0 <= j < |catalog| ==> !Named(catalog[j], tableName)
    {
      var found: Option<Table> := None;
      var i := 0;
      while i < |catalog|
        invariant 0 <= i <= |catalog|
        invariant found.None?
        invariant forall j :: 0 <= j < i ==> !Named(catalog[j], tableName)
      {
        if Named(catalog[i], tableName) {
          found := Some(catalog[i]);
          break;
        }
        i := i + 1;
      }
      if found.None? {
        return Err(TableNotFound(tableName));
      }
      r := Ok(MappingQueryGenerator(found.value));
    }

    /** The inner loop of executeQuery: the record `fieldValues` of one parsed body. */
    method BuildRecord(entries: Entries, converts: (ColumnType, Datum) -> bool) returns (r: Result<Row, Failure>)
      ensures r == FieldValues(table, entries, converts)
    {
      var fieldValues: Row := map[];
      var k := 0;
      while k < |entries|
        invariant 0 <= k <= |entries|
        invariant FieldValues(table, entries[..k], converts) == Ok(fieldValues)
      {
        FieldValuesSnoc(table, entries, k, converts);
        var key, value := entries[k].0, entries[k].1;
        var field := FieldOf(table.columns, key);
        if field.Some? {
          var col := field.value;
          var put: Option<Datum> := None;
          if col.kind == TimestampType && value != "" {
            if |value| == |FullDateFormat| || |value| == |SecTimeFormat| {
              var stamp := ParseStamp(value, |value| == |FullDateFormat|);
              if stamp.None? {
                FieldValuesErrPersists(table, entries, k + 1, converts);
                return Err(BadTimestamp(value));
              }
              put := Some(Millis(stamp.value));
            }
          } else {
            put := Some(Raw(value));
          }
          if put.Some? {
            if !converts(col.kind, put.value) {
              FieldValuesErrPersists(table, entries, k + 1, converts);
              return Err(ConversionFailed(col.name));
            }
            fieldValues := fieldValues[col.name := Converted(col.kind, put.value)];
          }
        }
        k := k + 1;
      }
      assert entries[..k] == entries;
      r := Ok(fieldValues);
    }

    /** The record of one event: its body parsed, then the inner loop of executeQuery. */
    method RecordOf(e: Event, converts: (ColumnType, Datum) -> bool) returns (r: Result<Row, Failure>)
      ensures r == EventRow(table, e, converts)
    {
      var data := ParseBody(e.body);
      if data.Err? {
        return Err(data.error);
      }
      r := BuildRecord(data.value, converts);
    }

    /** executeQuery: parse every event, build its record, add every non-empty record to the
        INSERT, execute it, and report whether the database inserted as many rows as there were
        mapped events. */
    method ExecuteQuery(events: seq<Event>, db: Database) returns (r: Result<QueryRun, Failure>)
      ensures r == QueryOutcome(table, events, db)
    {
      var cv := db.converts;
      var insert: seq<Row> := [];
      var mappedEvents := 0;
      ghost var rows: seq<Row> := [];
      var n := 0;
      while n < |events|
        invariant 0 <= n <= |events|
        invariant MappedRows(table, events[..n], cv) == Ok(rows)
        invariant mappedEvents == |rows|
        invariant insert == if db.builderTakesRows then rows else []
      {
        MappedRowsSnoc(table, events, n, cv);
        var fieldValues := RecordOf(events[n], cv);
        if fieldValues.Err? {
          MappedRowsErrPersists(table, events, n + 1, cv);
          return Err(fieldValues.error);
        }
        if fieldValues.value != map[] {
          mappedEvents := mappedEvents + 1;
          rows := rows + [fieldValues.value];
          if db.builderTakesRows {
            insert := insert + [fieldValues.value];
          }
        }
        n := n + 1;
      }
      assert events[..n] == events;
      if db.builderTakesRows {
        if insert == [] {
          // jOOQ's execute() runs nothing for an INSERT without values and returns 0
          return Ok(QueryRun(None, 0 == mappedEvents));
        }
        match db.answer
        case Rejected =>
          return Err(InsertRejected);
        case Affected(result) =>
          return Ok(QueryRun(Some(insert), result == mappedEvents));
      }
      r := Ok(QueryRun(None, true));
    }
  }
}
