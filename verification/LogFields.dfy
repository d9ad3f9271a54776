/**
 * What a reader of a planned chunk finds under each column name of the header: the record's own
 * field of that name, and the type string ClickHouse is told.
 */
module LogFields {
  import opened Prelude
  import opened Rows
  import opened RowBinary
  import opened Serializer
  import opened Token
  import opened Logs
  import opened Planner
  import opened PlannerTheorems

  // ---------------------------------------------------------------------
  // Reading by name
  // ---------------------------------------------------------------------

  /** The value of a row under a header name, looked up from column `k` on. */
  function CellFrom(names: seq<Text>, row: Row, name: Text, k: nat): Option<RowValue>
    requires k <= |names| == |row|
    decreases |names| - k
  {
    if k == |names| then None
    else if names[k] == name then Some(row[k])
    else CellFrom(names, row, name, k + 1)
  }

  /** The value of a row under a header name. */
  function Cell(names: seq<Text>, row: Row, name: string): Option<RowValue> {
    if |names| == |row| then CellFrom(names, row, Ascii(name), 0) else None
  }

  lemma {:induction false} CellAt(names: seq<Text>, row: Row, k: nat, i: nat)
    requires k <= i < |names| == |row| && forall j :: k <= j < i ==> names[j] != names[i]
    ensures CellFrom(names, row, names[i], k) == Some(row[i])
    decreases i - k
  {
    if k < i {
      CellAt(names, row, k + 1, i);
    }
  }

  /** The texts of a list of column names that are all different. */
  predicate Header(columns: seq<string>, names: seq<Text>) {
    && |names| == |columns|
    && (forall i :: 0 <= i < |names| ==> names[i] == Ascii(columns[i]))
    && (forall i, j :: 0 <= i < j < |names| ==> names[i] != names[j])
  }

  /** Column `i` of a row is found under its name. */
  lemma NamedCell(columns: seq<string>, names: seq<Text>, row: Row, i: nat, name: string)
    requires Header(columns, names) && i < |columns| == |row| && columns[i] == name
    ensures Cell(names, row, name) == Some(row[i])
  {
    CellAt(names, row, 0, i);
  }

  lemma AnyHeader(columns: seq<string>)
    requires forall i, j :: 0 <= i < j < |columns| ==> Ascii(columns[i]) != Ascii(columns[j])
    ensures Header(columns, NameTexts(columns))
  {
  }

  predicate PlainStart(a: string) {
    |a| >= 2 && a[0] as int < 128 && a[1] as int < 128
  }

  lemma TextsDiffer(a: string, b: string)
    requires Signature(a) != Signature(b) && PlainStart(a) && PlainStart(b)
    ensures Ascii(a) != Ascii(b)
  {
    assert |a| == |b| ==> Ascii(a)[0] != Ascii(b)[0] || Ascii(a)[1] != Ascii(b)[1];
  }

  lemma TableStarts(i: nat, j: nat)
    requires i < j < |TYPE_TABLE|
    ensures Signature(TYPE_TABLE[i].0) != Signature(TYPE_TABLE[j].0)
    ensures PlainStart(TYPE_TABLE[i].0) && PlainStart(TYPE_TABLE[j].0)
  {
  }

  lemma HeaderDiffers(i: nat, j: nat, a: string, b: string)
    requires i < j < |TYPE_TABLE| && a == TYPE_TABLE[i].0 && b == TYPE_TABLE[j].0
    ensures Ascii(a) != Ascii(b)
  {
    TableStarts(i, j);
    TextsDiffer(a, b);
  }

  /** The log adapter's columns make a header. */
  lemma LogHeader()
    ensures Header(COLUMNS, NameTexts(COLUMNS))
  {
    forall i, j | 0 <= i < j < |COLUMNS| ensures Ascii(COLUMNS[i]) != Ascii(COLUMNS[j]) {
      TableLists(i);
      TableLists(j);
      HeaderDiffers(i, j, COLUMNS[i], COLUMNS[j]);
    }
    AnyHeader(COLUMNS);
  }

  // ---------------------------------------------------------------------
  // The fields of a record
  // ---------------------------------------------------------------------

  function Clamped(n: i32): u8 {
    if n < 0 then 0 else if n > 255 then 255 else n
  }

  /** The times and the severity. */
  predicate TimeFields(names: seq<Text>, row: Row, r: Record, version: u32) {
    && Cell(names, row, "Timestamp") == Some(DateTime64Nanos(r.timestamp))
    && Cell(names, row, "ObservedTimestamp") == Some(DateTime64Nanos(r.observed))
    && Cell(names, row, "SeverityText") == Some(LowCardinality(r.severityText))
    && Cell(names, row, "SeverityNumber") == Some(UInt8(Clamped(r.severityNumber)))
  }

  /** The service, the body, the log attributes and the trace identifiers. */
  predicate NameFields(names: seq<Text>, row: Row, r: Record, version: u32) {
    && Cell(names, row, "ServiceName") == Some(LowCardinality(if r.serviceName.Some? then r.serviceName.value else []))
    && Cell(names, row, "Body") == Some(Str(r.body))
    && Cell(names, row, "LogAttributes") == Some(StringMap(r.attributes))
    && Cell(names, row, "TraceId") == Some(Str(r.traceIdHex))
    && Cell(names, row, "SpanId") == Some(Str(r.spanIdHex))
  }

  /** The source coordinates. */
  predicate CoordinateFields(names: seq<Text>, row: Row, r: Record, version: u32) {
    && Cell(names, row, "_odb_sequence") == Some(UInt64(r.source.sequence))
    && Cell(names, row, "_odb_entry_index") == Some(UInt32(r.source.entry))
    && Cell(names, row, "_odb_record_index") == Some(UInt32(r.source.record))
  }

  /** Where the record came from, and the adapter version. */
  predicate OriginFields(names: seq<Text>, row: Row, r: Record, version: u32) {
    && Cell(names, row, "_odb_manifest_path") == Some(LowCardinality(r.source.manifestPath))
    && Cell(names, row, "_odb_data_path") == Some(Str(r.source.dataPath))
    && Cell(names, row, "_odb_ingestion_time_ms") == Some(Int64(r.source.ingestionTimeMs))
    && Cell(names, row, "_adapter_version") == Some(UInt32(version))
  }

  /**
   * The resource attributes without the gateway stamp, and the stamp in its own column: the number
   * it is a numeral of, or null.
   */
  ghost predicate ResourceFields(names: seq<Text>, row: Row, r: Record) {
    var resource, stamp := Cell(names, row, "ResourceAttributes"), Cell(names, row, "_odb_gateway_received_at");
    var found := Get(r.resource, Ascii("_odb_gateway_received_at"));
    && resource.Some? && resource.value.StringMap? && stamp.Some? && stamp.value.NullableDateTime64Nanos?
    && (forall key :: Get(resource.value.entries, key) ==
          if key == Ascii("_odb_gateway_received_at") then None else Get(r.resource, key))
    && (forall n: u64 :: stamp.value.nullable == Some(n) <==> found.Some? && IsNumeral(found.value, n))
  }

  lemma TimeFieldsListed()
    ensures |COLUMNS| == 18
    ensures COLUMNS[0] == "Timestamp"
    ensures COLUMNS[1] == "ObservedTimestamp"
    ensures COLUMNS[2] == "SeverityText"
    ensures COLUMNS[3] == "SeverityNumber"
  {
  }

  lemma TimeFieldsRead(names: seq<Text>, r: Record, version: u32)
    requires Header(COLUMNS, names)
    ensures TimeFields(names, LogRow(r, version), r, version)
  {
    var row := LogRow(r, version);
    TimeFieldsListed();
    NamedCell(COLUMNS, names, row, 0, "Timestamp");
    NamedCell(COLUMNS, names, row, 1, "ObservedTimestamp");
    NamedCell(COLUMNS, names, row, 2, "SeverityText");
    NamedCell(COLUMNS, names, row, 3, "SeverityNumber");
  }

  lemma NameFieldsListed()
    ensures |COLUMNS| == 18
    ensures COLUMNS[4] == "ServiceName"
    ensures COLUMNS[5] == "Body"
    ensures COLUMNS[7] == "LogAttributes"
    ensures COLUMNS[8] == "TraceId"
    ensures COLUMNS[9] == "SpanId"
  {
  }

  lemma NameFieldsRead(names: seq<Text>, r: Record, version: u32)
    requires Header(COLUMNS, names)
    ensures NameFields(names, LogRow(r, version), r, version)
  {
    var row := LogRow(r, version);
    NameFieldsListed();
    NamedCell(COLUMNS, names, row, 4, "ServiceName");
    NamedCell(COLUMNS, names, row, 5, "Body");
    NamedCell(COLUMNS, names, row, 7, "LogAttributes");
    NamedCell(COLUMNS, names, row, 8, "TraceId");
    NamedCell(COLUMNS, names, row, 9, "SpanId");
  }

  lemma CoordinateFieldsListed()
    ensures |COLUMNS| == 18
    ensures COLUMNS[10] == "_odb_sequence"
    ensures COLUMNS[11] == "_odb_entry_index"
    ensures COLUMNS[12] == "_odb_record_index"
  {
  }

  lemma CoordinateFieldsRead(names: seq<Text>, r: Record, version: u32)
    requires Header(COLUMNS, names)
    ensures CoordinateFields(names, LogRow(r, version), r, version)
  {
    var row := LogRow(r, version);
    CoordinateFieldsListed();
    NamedCell(COLUMNS, names, row, 10, "_odb_sequence");
    NamedCell(COLUMNS, names, row, 11, "_odb_entry_index");
    NamedCell(COLUMNS, names, row, 12, "_odb_record_index");
  }

  lemma OriginFieldsListed()
    ensures |COLUMNS| == 18
    ensures COLUMNS[13] == "_odb_manifest_path"
    ensures COLUMNS[14] == "_odb_data_path"
    ensures COLUMNS[15] == "_odb_ingestion_time_ms"
    ensures COLUMNS[16] == "_adapter_version"
  {
  }

  lemma OriginFieldsRead(names: seq<Text>, r: Record, version: u32)
    requires Header(COLUMNS, names)
    ensures OriginFields(names, LogRow(r, version), r, version)
  {
    var row := LogRow(r, version);
    OriginFieldsListed();
    NamedCell(COLUMNS, names, row, 13, "_odb_manifest_path");
    NamedCell(COLUMNS, names, row, 14, "_odb_data_path");
    NamedCell(COLUMNS, names, row, 15, "_odb_ingestion_time_ms");
    NamedCell(COLUMNS, names, row, 16, "_adapter_version");
  }

  lemma ResourceFieldsListed()
    ensures |COLUMNS| == 18
    ensures COLUMNS[6] == "ResourceAttributes"
    ensures COLUMNS[17] == "_odb_gateway_received_at"
  {
  }

  lemma ResourceFieldsRead(names: seq<Text>, r: Record, version: u32)
    requires Header(COLUMNS, names) && DistinctKeys(r.resource)
    ensures ResourceFields(names, LogRow(r, version), r)
  {
    var row := LogRow(r, version);
    ResourceFieldsListed();
    NamedCell(COLUMNS, names, row, 6, "ResourceAttributes");
    NamedCell(COLUMNS, names, row, 17, "_odb_gateway_received_at");
    forall key ensures Get(row[6].entries, key) ==
                         if key == Ascii("_odb_gateway_received_at") then None else Get(r.resource, key)
    {
      GatewayMoves(r, version, key);
    }
    GatewayMoves(r, version, []);
  }

  /** All eighteen columns, each under its own name. */
  ghost predicate FieldsNamed(names: seq<Text>, row: Row, r: Record, version: u32) {
    match r
    case Record(_, _, _, _, _, _, _, _, _, _, _, _) =>
      && TimeFields(names, row, r, version) && NameFields(names, row, r, version)
      && CoordinateFields(names, row, r, version) && OriginFields(names, row, r, version)
      && (DistinctKeys(r.resource) ==> ResourceFields(names, row, r))
  }

  lemma FieldsRead(names: seq<Text>, r: Record, version: u32)
    requires Header(COLUMNS, names)
    ensures FieldsNamed(names, LogRow(r, version), r, version)
  {
    TimeFieldsRead(names, r, version);
    NameFieldsRead(names, r, version);
    CoordinateFieldsRead(names, r, version);
    OriginFieldsRead(names, r, version);
    if DistinctKeys(r.resource) {
      ResourceFieldsRead(names, r, version);
    }
  }

  /**
   * Serialize any chunk of any plan and read the bytes back: under each of the eighteen header names
   * row `j` has the field of that name of the record it was planned from.
   */
  lemma PlannedFieldsRead(digest: Digest, id: Identity, records: seq<Record>, i: nat, j: nat) returns (d: Decoded)
    requires Planned(digest, id, records).Ok? && i < |Planned(digest, id, records).value|
    requires j < |Planned(digest, id, records).value[i].rows|
    ensures var bytes := Serialized(TypeForColumn, COLUMNS, Planned(digest, id, records).value[i].rows);
            bytes.Ok? && DecodeChunk(bytes.value) == Some(d)
    ensures i < |Groups(id.config, records)| && j < |Groups(id.config, records)[i]| && j < |d.rows|
    ensures FieldsNamed(d.names, d.rows[j], Groups(id.config, records)[i][j], id.config.adapterVersion)
  {
    PlannedChunkRoundTrip(digest, id, records, i);
    PlannedToken(digest, id, records, i);
    d := Decoded(NameTexts(COLUMNS), COLUMN_TYPES, Planned(digest, id, records).value[i].rows);
    LogHeader();
    FieldsRead(NameTexts(COLUMNS), Groups(id.config, records)[i][j], id.config.adapterVersion);
  }

  // ---------------------------------------------------------------------
  // The type strings
  // ---------------------------------------------------------------------

  lemma NamedType(i: nat, name: string, ty: ColumnType, text: string)
    requires i < |COLUMNS| == |COLUMN_TYPES| && COLUMNS[i] == name && COLUMN_TYPES[i] == ty && TypeName(ty) == text
    ensures TypeForColumn(name) == Some(Ascii(text))
  {
    TypeTableCovers(i);
  }

  lemma ContentTypesListed()
    ensures |COLUMNS| == |COLUMN_TYPES| == 18
    ensures COLUMNS[0] == "Timestamp" && COLUMN_TYPES[0] == DateTimeType
    ensures COLUMNS[1] == "ObservedTimestamp" && COLUMN_TYPES[1] == DateTimeType
    ensures COLUMNS[2] == "SeverityText" && COLUMN_TYPES[2] == LowCardinalityType
    ensures COLUMNS[3] == "SeverityNumber" && COLUMN_TYPES[3] == UInt8Type
    ensures COLUMNS[4] == "ServiceName" && COLUMN_TYPES[4] == LowCardinalityType
    ensures COLUMNS[5] == "Body" && COLUMN_TYPES[5] == StringType
  {
  }

  /** The type strings of the content columns. */
  lemma ContentTypes()
    ensures TypeForColumn("Timestamp") == Some(Ascii("DateTime64(9)"))
    ensures TypeForColumn("ObservedTimestamp") == Some(Ascii("DateTime64(9)"))
    ensures TypeForColumn("SeverityText") == Some(Ascii("LowCardinality(String)"))
    ensures TypeForColumn("SeverityNumber") == Some(Ascii("UInt8"))
    ensures TypeForColumn("ServiceName") == Some(Ascii("LowCardinality(String)"))
    ensures TypeForColumn("Body") == Some(Ascii("String"))
  {
    ContentTypesListed();
    NamedType(0, "Timestamp", DateTimeType, "DateTime64(9)");
    NamedType(1, "ObservedTimestamp", DateTimeType, "DateTime64(9)");
    NamedType(2, "SeverityText", LowCardinalityType, "LowCardinality(String)");
    NamedType(3, "SeverityNumber", UInt8Type, "UInt8");
    NamedType(4, "ServiceName", LowCardinalityType, "LowCardinality(String)");
    NamedType(5, "Body", StringType, "String");
  }

  lemma CoordinateTypesListed()
    ensures |COLUMNS| == |COLUMN_TYPES| == 18
    ensures COLUMNS[6] == "ResourceAttributes" && COLUMN_TYPES[6] == MapType
    ensures COLUMNS[7] == "LogAttributes" && COLUMN_TYPES[7] == MapType
    ensures COLUMNS[8] == "TraceId" && COLUMN_TYPES[8] == StringType
    ensures COLUMNS[9] == "SpanId" && COLUMN_TYPES[9] == StringType
    ensures COLUMNS[10] == "_odb_sequence" && COLUMN_TYPES[10] == UInt64Type
    ensures COLUMNS[11] == "_odb_entry_index" && COLUMN_TYPES[11] == UInt32Type
  {
  }

  /** Those of the attribute, trace and coordinate columns. */
  lemma CoordinateTypes()
    ensures TypeForColumn("ResourceAttributes") == Some(Ascii("Map(LowCardinality(String), String)"))
    ensures TypeForColumn("LogAttributes") == Some(Ascii("Map(LowCardinality(String), String)"))
    ensures TypeForColumn("TraceId") == Some(Ascii("String"))
    ensures TypeForColumn("SpanId") == Some(Ascii("String"))
    ensures TypeForColumn("_odb_sequence") == Some(Ascii("UInt64"))
    ensures TypeForColumn("_odb_entry_index") == Some(Ascii("UInt32"))
  {
    CoordinateTypesListed();
    NamedType(6, "ResourceAttributes", MapType, "Map(LowCardinality(String), String)");
    NamedType(7, "LogAttributes", MapType, "Map(LowCardinality(String), String)");
    NamedType(8, "TraceId", StringType, "String");
    NamedType(9, "SpanId", StringType, "String");
    NamedType(10, "_odb_sequence", UInt64Type, "UInt64");
    NamedType(11, "_odb_entry_index", UInt32Type, "UInt32");
  }

  lemma OriginTypesListed()
    ensures |COLUMNS| == |COLUMN_TYPES| == 18
    ensures COLUMNS[12] == "_odb_record_index" && COLUMN_TYPES[12] == UInt32Type
    ensures COLUMNS[13] == "_odb_manifest_path" && COLUMN_TYPES[13] == LowCardinalityType
    ensures COLUMNS[14] == "_odb_data_path" && COLUMN_TYPES[14] == StringType
    ensures COLUMNS[15] == "_odb_ingestion_time_ms" && COLUMN_TYPES[15] == Int64Type
    ensures COLUMNS[16] == "_adapter_version" && COLUMN_TYPES[16] == UInt32Type
    ensures COLUMNS[17] == "_odb_gateway_received_at" && COLUMN_TYPES[17] == NullableDateTimeType
  {
  }

  /** Those of the origin columns. */
  lemma OriginTypes()
    ensures TypeForColumn("_odb_record_index") == Some(Ascii("UInt32"))
    ensures TypeForColumn("_odb_manifest_path") == Some(Ascii("LowCardinality(String)"))
    ensures TypeForColumn("_odb_data_path") == Some(Ascii("String"))
    ensures TypeForColumn("_odb_ingestion_time_ms") == Some(Ascii("Int64"))
    ensures TypeForColumn("_adapter_version") == Some(Ascii("UInt32"))
    ensures TypeForColumn("_odb_gateway_received_at") == Some(Ascii("Nullable(DateTime64(9))"))
  {
    OriginTypesListed();
    NamedType(12, "_odb_record_index", UInt32Type, "UInt32");
    NamedType(13, "_odb_manifest_path", LowCardinalityType, "LowCardinality(String)");
    NamedType(14, "_odb_data_path", StringType, "String");
    NamedType(15, "_odb_ingestion_time_ms", Int64Type, "Int64");
    NamedType(16, "_adapter_version", UInt32Type, "UInt32");
    NamedType(17, "_odb_gateway_received_at", NullableDateTimeType, "Nullable(DateTime64(9))");
  }
}
