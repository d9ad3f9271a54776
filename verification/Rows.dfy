/** Column values, rows, and the source coordinates a row carries. */
module Rows {
  import opened Prelude

  type i32 = x: int | -0x8000_0000 <= x < 0x8000_0000
  type i64 = x: int | -0x8000_0000_0000_0000 <= x < 0x8000_0000_0000_0000

  /** A string map is listed in key order. */
  datatype RowValue =
    | Str(text: Text)
    | LowCardinality(text: Text)
    | UInt8(byte: u8)
    | Int32(i32: i32)
    | UInt32(u32: u32)
    | UInt64(u64: u64)
    | Int64(i64: i64)
    | DateTime64Nanos(nanos: u64)
    | NullableDateTime64Nanos(nullable: Option<u64>)
    | StringMap(entries: seq<(Text, Text)>)

  type Row = seq<RowValue>

  /** The unique source coordinates: buffer sequence, entry, record. */
  datatype Key = Key(sequence: u64, entry: u32, record: u32)

  /** The coordinate columns of a log row. */
  function RowKey(row: Row): Key {
    if |row| > 12 && row[10].UInt64? && row[11].UInt32? && row[12].UInt32? then
      Key(row[10].u64, row[11].u32, row[12].u32)
    else Key(0, 0, 0)
  }
}
