/**
 * The chunk serializer: the column header, the rows, and reading them back with the header's
 * type strings alone.
 */
module Serializer {
  import opened Prelude
  import opened Sequences
  import opened Rows
  import opened RowBinary

  // ---------------------------------------------------------------------
  // Columns and types
  // ---------------------------------------------------------------------

  /** The insert's column list for OTLP logs. */
  const COLUMNS: seq<string> := [
    "Timestamp", "ObservedTimestamp", "SeverityText", "SeverityNumber", "ServiceName", "Body",
    "ResourceAttributes", "LogAttributes", "TraceId", "SpanId", "_odb_sequence", "_odb_entry_index",
    "_odb_record_index", "_odb_manifest_path", "_odb_data_path", "_odb_ingestion_time_ms",
    "_adapter_version", "_odb_gateway_received_at"]

  /** The types those columns have, in order. */
  const COLUMN_TYPES: seq<ColumnType> := [
    DateTimeType, DateTimeType, LowCardinalityType, UInt8Type, LowCardinalityType, StringType,
    MapType, MapType, StringType, StringType, UInt64Type, UInt32Type,
    UInt32Type, LowCardinalityType, StringType, Int64Type,
    UInt32Type, NullableDateTimeType]

  function TypeName(ty: ColumnType): string {
    match ty
    case StringType => "String"
    case LowCardinalityType => "LowCardinality(String)"
    case UInt8Type => "UInt8"
    case Int32Type => "Int32"
    case UInt32Type => "UInt32"
    case UInt64Type => "UInt64"
    case Int64Type => "Int64"
    case DateTimeType => "DateTime64(9)"
    case NullableDateTimeType => "Nullable(DateTime64(9))"
    case MapType => "Map(LowCardinality(String), String)"
  }

  /** The serializer's type table. */
  const TYPE_TABLE: seq<(string, ColumnType)> := [
    ("Timestamp", DateTimeType), ("ObservedTimestamp", DateTimeType), ("SeverityText", LowCardinalityType),
    ("SeverityNumber", UInt8Type), ("ServiceName", LowCardinalityType), ("Body", StringType),
    ("ResourceAttributes", MapType), ("LogAttributes", MapType), ("TraceId", StringType), ("SpanId", StringType),
    ("_odb_sequence", UInt64Type), ("_odb_entry_index", UInt32Type), ("_odb_record_index", UInt32Type),
    ("_odb_manifest_path", LowCardinalityType), ("_odb_data_path", StringType),
    ("_odb_ingestion_time_ms", Int64Type), ("_adapter_version", UInt32Type),
    ("_odb_gateway_received_at", NullableDateTimeType)]

  /** The first entry for the name from `k` on; a name the table does not hold is an error. */
  function Lookup(name: string, k: nat): Option<ColumnType>
    requires k <= |TYPE_TABLE|
    decreases |TYPE_TABLE| - k
  {
    if k == |TYPE_TABLE| then None
    else if TYPE_TABLE[k].0 == name then Some(TYPE_TABLE[k].1)
    else Lookup(name, k + 1)
  }

  function TypeText(ty: ColumnType): Text {
    Ascii(TypeName(ty))
  }

  /** The type string of a column. */
  function TypeForColumn(name: string): Option<Text> {
    match Lookup(name, 0)
    case None => None
    case Some(ty) => Some(TypeText(ty))
  }

  lemma {:induction false} LookupFinds(k: nat, i: nat)
    requires k <= i < |TYPE_TABLE| && forall j :: k <= j < i ==> TYPE_TABLE[j].0 != TYPE_TABLE[i].0
    ensures Lookup(TYPE_TABLE[i].0, k) == Some(TYPE_TABLE[i].1)
    decreases i - k
  {
    if k < i {
      LookupFinds(k + 1, i);
    }
  }

  /** Where a column name stands out: its length and its first two characters. */
  function Signature(name: string): (nat, char, char) {
    if |name| < 2 then (0, ' ', ' ') else (|name|, name[0], name[1])
  }

  lemma NamesDiffer(i: nat, j: nat)
    requires i < j < |TYPE_TABLE|
    ensures TYPE_TABLE[i].0 != TYPE_TABLE[j].0
  {
    assert Signature(TYPE_TABLE[i].0) != Signature(TYPE_TABLE[j].0);
  }

  lemma TableLists(i: nat)
    requires i < |COLUMNS|
    ensures |COLUMN_TYPES| == |COLUMNS| == |TYPE_TABLE|
    ensures TYPE_TABLE[i].0 == COLUMNS[i] && TYPE_TABLE[i].1 == COLUMN_TYPES[i]
  {
  }

  lemma LookupListed(i: nat)
    requires i < |TYPE_TABLE|
    ensures Lookup(TYPE_TABLE[i].0, 0) == Some(TYPE_TABLE[i].1)
  {
    forall j | 0 <= j < i ensures TYPE_TABLE[j].0 != TYPE_TABLE[i].0 {
      NamesDiffer(j, i);
    }
    LookupFinds(0, i);
  }

  /** The type table covers every column of the log adapter. */
  lemma TypeTableCovers(i: nat)
    requires i < |COLUMNS|
    ensures |COLUMN_TYPES| == |COLUMNS| && TypeForColumn(COLUMNS[i]) == Some(TypeText(COLUMN_TYPES[i]))
  {
    TableLists(i);
    LookupListed(i);
  }

  function ParseType(t: Text): Option<ColumnType> {
    if t == TypeText(StringType) then Some(StringType)
    else if t == TypeText(LowCardinalityType) then Some(LowCardinalityType)
    else if t == TypeText(UInt8Type) then Some(UInt8Type)
    else if t == TypeText(Int32Type) then Some(Int32Type)
    else if t == TypeText(UInt32Type) then Some(UInt32Type)
    else if t == TypeText(UInt64Type) then Some(UInt64Type)
    else if t == TypeText(Int64Type) then Some(Int64Type)
    else if t == TypeText(DateTimeType) then Some(DateTimeType)
    else if t == TypeText(NullableDateTimeType) then Some(NullableDateTimeType)
    else if t == TypeText(MapType) then Some(MapType)
    else None
  }

  /** What tells a type string: its length and its fifth character. */
  function Mark(ty: ColumnType): (nat, char) {
    match ty
    case StringType => (6, 'n')
    case LowCardinalityType => (22, 'a')
    case UInt8Type => (5, '8')
    case Int32Type => (5, '2')
    case UInt32Type => (6, '3')
    case UInt64Type => (6, '6')
    case Int64Type => (5, '4')
    case DateTimeType => (13, 'T')
    case NullableDateTimeType => (23, 'a')
    case MapType => (35, 'L')
  }

  lemma MarkTells(ty: ColumnType)
    ensures |TypeText(ty)| == Mark(ty).0 >= 5 && TypeText(ty)[4] == Mark(ty).1 as int % 256
  {
  }

  lemma TypesDiffer(a: ColumnType, b: ColumnType)
    requires a != b
    ensures TypeText(a) != TypeText(b)
  {
    MarkTells(a);
    MarkTells(b);
  }

  lemma ParsesType(ty: ColumnType)
    ensures ParseType(TypeText(ty)) == Some(ty)
  {
    forall other | other != ty ensures TypeText(other) != TypeText(ty) {
      TypesDiffer(other, ty);
    }
  }

  // ---------------------------------------------------------------------
  // The serialized form
  // ---------------------------------------------------------------------

  datatype SerializeError = UnknownColumn | WrongWidth

  function NameBytes(name: string): Text {
    TextBytes(Ascii(name))
  }

  function RowBytes(row: Row): Text {
    Concat(ValueBytes, row)
  }

  /** A type for each known column name. */
  type TypeTable = string -> Option<Text>

  /** The types of all columns, or `None` if the table lacks one. */
  function ColumnTypes(table: TypeTable, columns: seq<string>): (r: Option<seq<Text>>)
    ensures r.Some? ==> |r.value| == |columns|
  {
    if columns == [] then Some([])
    else
      match (table(columns[0]), ColumnTypes(table, columns[1..]))
      case (Some(ty), Some(rest)) => Some([ty] + rest)
      case _ => None
  }

  function Header(columns: seq<string>, types: seq<Text>): Text {
    Varuint(|columns|) + (Concat(NameBytes, columns) + Concat(TextBytes, types))
  }

  predicate Rectangular(rows: seq<Row>, width: nat) {
    forall i :: 0 <= i < |rows| ==> |rows[i]| == width
  }

  /** What the serializer returns. */
  function Serialized(table: TypeTable, columns: seq<string>, rows: seq<Row>): Result<Text, SerializeError> {
    match ColumnTypes(table, columns)
    case None => Err(UnknownColumn)
    case Some(types) =>
      if Rectangular(rows, |columns|) then Ok(Header(columns, types) + Concat(RowBytes, rows)) else Err(WrongWidth)
  }

  // ---------------------------------------------------------------------
  // The loops
  // ---------------------------------------------------------------------

  class ByteBuffer {
    var bytes: Text

    constructor ()
      ensures bytes == []
    {
      bytes := [];
    }

    method Extend(more: Text)
      modifies this
      ensures bytes == old(bytes) + more
    {
      bytes := bytes + more;
    }

    method WriteVaruint(value: nat)
      modifies this
      ensures bytes == old(bytes) + Varuint(value)
    {
      var v := value;
      while true
        invariant bytes + Varuint(v) == old(bytes) + Varuint(value)
        decreases v
      {
        var low := v % 128;
        var before := v;
        v := v / 128;
        if v == 0 {
          bytes := bytes + [low];
          return;
        }
        assert Varuint(before) == [low + 128] + Varuint(v);
        assert bytes + ([low + 128] + Varuint(v)) == bytes + [low + 128] + Varuint(v);
        bytes := bytes + [low + 128];
      }
    }

    method WriteText(text: Text)
      modifies this
      ensures bytes == old(bytes) + TextBytes(text)
    {
      WriteVaruint(|text|);
      Extend(text);
    }

    method WriteEntries(entries: seq<(Text, Text)>)
      modifies this
      ensures bytes == old(bytes) + EntriesBytes(entries)
    {
      var i := 0;
      while i < |entries|
        invariant 0 <= i <= |entries|
        invariant bytes + EntriesBytes(entries[i..]) == old(bytes) + EntriesBytes(entries)
      {
        ghost var written := bytes;
        var key, value := entries[i].0, entries[i].1;
        assert entries[i..][1..] == entries[i + 1..];
        WriteText(key);
        WriteText(value);
        assert bytes + EntriesBytes(entries[i + 1..]) == written + EntriesBytes(entries[i..]);
        i := i + 1;
      }
    }

    method WriteNullable(o: Option<u64>)
      modifies this
      ensures bytes == old(bytes) + ValueBytes(NullableDateTime64Nanos(o))
    {
      if o.None? {
        Extend([1]);
      } else {
        Extend([0]);
        Extend(NanosBytes(o.value));
      }
    }

    method WriteMap(entries: seq<(Text, Text)>)
      modifies this
      ensures bytes == old(bytes) + ValueBytes(StringMap(entries))
    {
      WriteVaruint(|entries|);
      WriteEntries(entries);
    }

    method WriteRowBinary(v: RowValue)
      modifies this
      ensures bytes == old(bytes) + ValueBytes(v)
    {
      match v
      case Str(s) => WriteText(s);
      case LowCardinality(s) => WriteText(s);
      case NullableDateTime64Nanos(o) => WriteNullable(o);
      case StringMap(entries) => WriteMap(entries);
      case UInt8(n) => Extend([n]);
      case Int32(n) => Extend(Little(Pattern(n, TWO32), 4));
      case UInt32(n) => Extend(Little(n, 4));
      case UInt64(n) => Extend(Little(n, 8));
      case Int64(n) => Extend(Little(Pattern(n, TWO64), 8));
      case DateTime64Nanos(ns) => Extend(NanosBytes(ns));
    }

    method WriteNames(columns: seq<string>)
      modifies this
      ensures bytes == old(bytes) + Concat(NameBytes, columns)
    {
      for i := 0 to |columns|
        invariant bytes == old(bytes) + Concat(NameBytes, columns[..i])
      {
        ConcatNext(NameBytes, columns, i, old(bytes), bytes);
        WriteText(Ascii(columns[i]));
      }
      assert columns[..|columns|] == columns;
    }

    method WriteType(table: TypeTable, name: string) returns (ty: Option<Text>)
      modifies this
      ensures ty == table(name)
      ensures bytes == old(bytes) + (if ty.Some? then TextBytes(ty.value) else [])
    {
      ty := table(name);
      if ty.Some? {
        WriteText(ty.value);
      }
    }

    /** Stops at the first column the table lacks. */
    method WriteTypes(table: TypeTable, columns: seq<string>) returns (ok: bool)
      modifies this
      ensures ok == ColumnTypes(table, columns).Some?
      ensures ok ==> bytes == old(bytes) + Concat(TextBytes, ColumnTypes(table, columns).value)
    {
      ghost var types: seq<Text> := [];
      var i := 0;
      while i < |columns|
        invariant 0 <= i <= |columns| && ColumnTypes(table, columns[..i]) == Some(types)
        invariant bytes == old(bytes) + Concat(TextBytes, types)
      {
        TypesStep(table, columns, i, types);
        var ty := WriteType(table, columns[i]);
        if ty.None? {
          return false;
        }
        ConcatSnoc(TextBytes, types, ty.value);
        types := types + [ty.value];
        i := i + 1;
      }
      assert columns[..|columns|] == columns;
      return true;
    }

    method WriteRow(row: Row)
      modifies this
      ensures bytes == old(bytes) + RowBytes(row)
    {
      for i := 0 to |row|
        invariant bytes == old(bytes) + Concat(ValueBytes, row[..i])
      {
        ConcatNext(ValueBytes, row, i, old(bytes), bytes);
        WriteRowBinary(row[i]);
      }
      assert row[..|row|] == row;
    }

    /** Stops at the first row that does not have one value a column. */
    method WriteRows(rows: seq<Row>, width: nat) returns (ok: bool)
      modifies this
      ensures ok == Rectangular(rows, width)
      ensures ok ==> bytes == old(bytes) + Concat(RowBytes, rows)
    {
      for i := 0 to |rows|
        invariant forall k :: 0 <= k < i ==> |rows[k]| == width
        invariant bytes == old(bytes) + Concat(RowBytes, rows[..i])
      {
        if |rows[i]| != width {
          return false;
        }
        ConcatNext(RowBytes, rows, i, old(bytes), bytes);
        WriteRow(rows[i]);
      }
      assert rows[..|rows|] == rows;
      return true;
    }
  }

  lemma {:induction false} TypesSnoc(table: TypeTable, columns: seq<string>, name: string)
    ensures ColumnTypes(table, columns + [name]) ==
              match (ColumnTypes(table, columns), table(name))
              case (Some(types), Some(ty)) => Some(types + [ty])
              case _ => None
  {
    if columns == [] {
      assert [] + [name] == [name];
      assert [name][1..] == [];
      assert ColumnTypes(table, [name][1..]) == Some([]);
      assert table(name).Some? ==> [table(name).value] + [] == [] + [table(name).value];
    } else {
      assert (columns + [name])[1..] == columns[1..] + [name];
      TypesSnoc(table, columns[1..], name);
      var head, rest, last := table(columns[0]), ColumnTypes(table, columns[1..]), table(name);
      if head.Some? && rest.Some? && last.Some? {
        assert [head.value] + (rest.value + [last.value]) == ([head.value] + rest.value) + [last.value];
      }
    }
  }

  /** One turn of the type loop. */
  lemma TypesStep(table: TypeTable, columns: seq<string>, i: nat, types: seq<Text>)
    requires i < |columns| && ColumnTypes(table, columns[..i]) == Some(types)
    ensures match table(columns[i])
            case Some(ty) => ColumnTypes(table, columns[..i + 1]) == Some(types + [ty])
            case None => ColumnTypes(table, columns).None?
  {
    TypesSnoc(table, columns[..i], columns[i]);
    assert columns[..i + 1] == columns[..i] + [columns[i]];
    if table(columns[i]).None? {
      TypesPrefix(table, columns, i + 1);
    }
  }

  lemma {:induction false} TypesPrefix(table: TypeTable, columns: seq<string>, n: nat)
    requires n <= |columns| && ColumnTypes(table, columns[..n]).None?
    ensures ColumnTypes(table, columns).None?
    decreases |columns| - n
  {
    if n < |columns| {
      TypesSnoc(table, columns[..n], columns[n]);
      assert columns[..n + 1] == columns[..n] + [columns[n]];
      TypesPrefix(table, columns, n + 1);
    } else {
      assert columns[..n] == columns;
    }
  }

  method Serialize(table: TypeTable, columns: seq<string>, rows: seq<Row>) returns (r: Result<Text, SerializeError>)
    ensures r == Serialized(table, columns, rows)
  {
    var out := new ByteBuffer();
    out.WriteVaruint(|columns|);
    out.WriteNames(columns);
    var ok := out.WriteTypes(table, columns);
    if !ok {
      return Err(UnknownColumn);
    }
    ghost var header := out.bytes;
    ok := out.WriteRows(rows, |columns|);
    assert header == Header(columns, ColumnTypes(table, columns).value);
    if !ok {
      return Err(WrongWidth);
    }
    return Ok(out.bytes);
  }

  // ---------------------------------------------------------------------
  // Reading it back
  // ---------------------------------------------------------------------

  datatype Decoded = Decoded(names: seq<Text>, types: seq<ColumnType>, rows: seq<Row>)

  function ReadTexts(count: nat, t: Text): Read<seq<Text>> {
    if count == 0 then Found([], t)
    else
      match ReadText(t)
      case Nothing => Nothing
      case Found(s, rest) =>
        match ReadTexts(count - 1, rest)
        case Nothing => Nothing
        case Found(more, rest) => Found([s] + more, rest)
  }

  function ParseTypes(texts: seq<Text>): Option<seq<ColumnType>> {
    if texts == [] then Some([])
    else
      match (ParseType(texts[0]), ParseTypes(texts[1..]))
      case (Some(ty), Some(rest)) => Some([ty] + rest)
      case _ => None
  }

  function ReadRow(types: seq<ColumnType>, t: Text): (r: Read<Row>)
    ensures r.Found? ==> |r.rest| + |types| <= |t|
  {
    if types == [] then Found([], t)
    else
      match ReadValue(types[0], t)
      case Nothing => Nothing
      case Found(v, rest) =>
        match ReadRow(types[1..], rest)
        case Nothing => Nothing
        case Found(row, rest) => Found([v] + row, rest)
  }

  /** Rows until the bytes are used up. */
  function ReadRows(types: seq<ColumnType>, t: Text): Option<seq<Row>>
    decreases |t|
  {
    if t == [] then Some([])
    else if types == [] then None
    else
      match ReadRow(types, t)
      case Nothing => None
      case Found(row, rest) =>
        match ReadRows(types, rest)
        case None => None
        case Some(rows) => Some([row] + rows)
  }

  /** A reader that knows nothing but the format. */
  function DecodeChunk(t: Text): Option<Decoded> {
    match ReadVaruint(t)
    case Nothing => None
    case Found(count, rest) =>
      match ReadTexts(count, rest)
      case Nothing => None
      case Found(names, rest) =>
        match ReadTexts(count, rest)
        case Nothing => None
        case Found(texts, rest) =>
          match ParseTypes(texts)
          case None => None
          case Some(types) =>
            match ReadRows(types, rest)
            case None => None
            case Some(rows) => Some(Decoded(names, types, rows))
  }

  function NameTexts(columns: seq<string>): (r: seq<Text>)
    ensures |r| == |columns| && forall i :: 0 <= i < |columns| ==> r[i] == Ascii(columns[i])
  {
    if columns == [] then [] else [Ascii(columns[0])] + NameTexts(columns[1..])
  }

  function TypeTexts(types: seq<ColumnType>): (r: seq<Text>)
    ensures |r| == |types| && forall i :: 0 <= i < |types| ==> r[i] == TypeText(types[i])
  {
    if types == [] then [] else [TypeText(types[0])] + TypeTexts(types[1..])
  }

  lemma {:induction false} NamesRead(columns: seq<string>, rest: Text)
    ensures ReadTexts(|columns|, Concat(NameBytes, columns) + rest) == Found(NameTexts(columns), rest)
  {
    if columns == [] {
      assert Concat(NameBytes, columns) + rest == rest;
    } else {
      Associates(NameBytes(columns[0]), Concat(NameBytes, columns[1..]), rest);
      TextReads(Ascii(columns[0]), Concat(NameBytes, columns[1..]) + rest);
      NamesRead(columns[1..], rest);
    }
  }

  lemma {:induction false} TextsRead(texts: seq<Text>, rest: Text)
    ensures ReadTexts(|texts|, Concat(TextBytes, texts) + rest) == Found(texts, rest)
  {
    if texts == [] {
      assert Concat(TextBytes, texts) + rest == rest;
    } else {
      Associates(TextBytes(texts[0]), Concat(TextBytes, texts[1..]), rest);
      TextReads(texts[0], Concat(TextBytes, texts[1..]) + rest);
      TextsRead(texts[1..], rest);
      assert [texts[0]] + texts[1..] == texts;
    }
  }

  lemma {:induction false} TypesParse(types: seq<ColumnType>)
    ensures ParseTypes(TypeTexts(types)) == Some(types)
  {
    if types != [] {
      ParsesType(types[0]);
      TypesParse(types[1..]);
      assert TypeTexts(types)[1..] == TypeTexts(types[1..]);
      assert [types[0]] + types[1..] == types;
    }
  }

  /** Every value belongs under its column's type. */
  predicate WellTyped(row: Row, types: seq<ColumnType>) {
    |row| == |types| && forall i :: 0 <= i < |row| ==> TypeOf(row[i]) == types[i]
  }

  lemma {:induction false} RowReads(row: Row, types: seq<ColumnType>, rest: Text)
    requires WellTyped(row, types)
    ensures ReadRow(types, RowBytes(row) + rest) == Found(row, rest)
  {
    if row == [] {
      assert RowBytes(row) + rest == rest;
    } else {
      Associates(ValueBytes(row[0]), RowBytes(row[1..]), rest);
      ValueReads(row[0], RowBytes(row[1..]) + rest);
      RowReads(row[1..], types[1..], rest);
      assert [row[0]] + row[1..] == row;
    }
  }

  lemma {:induction false} RowsRead(rows: seq<Row>, types: seq<ColumnType>)
    requires types != [] && forall i :: 0 <= i < |rows| ==> WellTyped(rows[i], types)
    ensures ReadRows(types, Concat(RowBytes, rows)) == Some(rows)
  {
    if rows != [] {
      RowReads(rows[0], types, Concat(RowBytes, rows[1..]));
      RowsRead(rows[1..], types);
      RowNotEmpty(rows[0]);
      assert [rows[0]] + rows[1..] == rows;
    }
  }

  lemma RowNotEmpty(row: Row)
    requires row != []
    ensures RowBytes(row) != []
  {
    ValueReads(row[0], []);
    assert ValueBytes(row[0]) + [] == ValueBytes(row[0]);
  }

  /**
   * Whenever the serializer knows the columns and the rows match their types, it succeeds, and a
   * reader driven by the type strings in the bytes recovers every column name, type and row.
   */
  lemma RoundTrip(table: TypeTable, columns: seq<string>, types: seq<ColumnType>, rows: seq<Row>)
    requires columns != [] && ColumnTypes(table, columns) == Some(TypeTexts(types))
    requires forall i :: 0 <= i < |rows| ==> WellTyped(rows[i], types)
    ensures Serialized(table, columns, rows).Ok?
    ensures DecodeChunk(Serialized(table, columns, rows).value) == Some(Decoded(NameTexts(columns), types, rows))
  {
    var texts := TypeTexts(types);
    var body := Concat(RowBytes, rows);
    var names, typed := Concat(NameBytes, columns), Concat(TextBytes, texts);
    Associates(Varuint(|columns|), names + typed, body);
    Associates(names, typed, body);
    VaruintReads(|columns|, names + (typed + body));
    NamesRead(columns, typed + body);
    TextsRead(texts, body);
    TypesParse(types);
    RowsRead(rows, types);
  }

  lemma {:induction false} LogColumnTypes(k: nat)
    requires k <= |COLUMNS| == |COLUMN_TYPES|
    ensures ColumnTypes(TypeForColumn, COLUMNS[k..]) == Some(TypeTexts(COLUMN_TYPES[k..]))
    decreases |COLUMNS| - k
  {
    if k < |COLUMNS| {
      TypeTableCovers(k);
      LogColumnTypes(k + 1);
      assert COLUMNS[k..][1..] == COLUMNS[k + 1..];
      assert COLUMN_TYPES[k..][1..] == COLUMN_TYPES[k + 1..];
    } else {
      assert COLUMNS[k..] == [] && COLUMN_TYPES[k..] == [];
    }
  }

  /** For rows of the log adapter the serializer never fails and nothing is lost. */
  lemma LogRowsRoundTrip(rows: seq<Row>)
    requires forall i :: 0 <= i < |rows| ==> WellTyped(rows[i], COLUMN_TYPES)
    ensures Serialized(TypeForColumn, COLUMNS, rows).Ok?
    ensures DecodeChunk(Serialized(TypeForColumn, COLUMNS, rows).value)
         == Some(Decoded(NameTexts(COLUMNS), COLUMN_TYPES, rows))
  {
    LogColumnTypes(0);
    assert COLUMNS[0..] == COLUMNS && COLUMN_TYPES[0..] == COLUMN_TYPES;
    RoundTrip(TypeForColumn, COLUMNS, COLUMN_TYPES, rows);
  }
}
