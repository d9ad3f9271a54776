/** Decoded log records and the row each becomes. */
module Logs {
  import opened Prelude
  import opened Rows
  import opened Decimals
  import opened Serializer

  datatype Source = Source(
    sequence: u64,
    entry: u32,
    record: u32,
    manifestPath: Text,
    dataPath: Text,
    ingestionTimeMs: i64)

  /** One flattened log record; its attribute maps are listed in key order. */
  datatype Record = Record(
    source: Source,
    timestamp: u64,
    observed: u64,
    severityNumber: i32,
    severityText: Text,
    body: Text,
    serviceName: Option<Text>,
    resource: seq<(Text, Text)>,
    scopeName: Option<Text>,
    attributes: seq<(Text, Text)>,
    traceIdHex: Text,
    spanIdHex: Text)

  function KeyOf(r: Record): Key {
    Key(r.source.sequence, r.source.entry, r.source.record)
  }

  /** Size of the record structure itself, on a 64-bit target. */
  const RECORD_SIZE: nat := 288

  function EntrySizes(entries: seq<(Text, Text)>): nat {
    if entries == [] then 0 else |entries[0].0| + |entries[0].1| + EntrySizes(entries[1..])
  }

  function OptionSize(o: Option<Text>): nat {
    match o
    case Some(t) => |t|
    case None => 0
  }

  /** The planner's estimate of a record's bytes. */
  function ApproxSize(r: Record): nat {
    RECORD_SIZE + |r.severityText| + |r.body| + OptionSize(r.serviceName) + OptionSize(r.scopeName)
    + |r.traceIdHex| + |r.spanIdHex| + EntrySizes(r.resource) + EntrySizes(r.attributes)
  }

  /** The texts of a map's keys and values, one after the other. */
  function EntryTexts(entries: seq<(Text, Text)>): Text {
    if entries == [] then [] else entries[0].0 + entries[0].1 + EntryTexts(entries[1..])
  }

  lemma {:induction false} EntriesCounted(entries: seq<(Text, Text)>)
    ensures EntrySizes(entries) == |EntryTexts(entries)|
  {
    if entries != [] {
      EntriesCounted(entries[1..]);
    }
  }

  /** All the text a record owns besides its source coordinates. */
  function AllText(r: Record): Text {
    r.severityText + r.body + TextOr(r.serviceName) + TextOr(r.scopeName) + r.traceIdHex + r.spanIdHex
    + EntryTexts(r.resource) + EntryTexts(r.attributes)
  }

  /** The estimate counts every byte of that text once, on top of the structure's 288. */
  lemma ApproxSizeCounts(r: Record)
    ensures ApproxSize(r) == 288 + |AllText(r)|
  {
    EntriesCounted(r.resource);
    EntriesCounted(r.attributes);
  }

  // ---------------------------------------------------------------------
  // Attribute maps
  // ---------------------------------------------------------------------

  function Get(entries: seq<(Text, Text)>, key: Text): Option<Text> {
    if entries == [] then None
    else if entries[0].0 == key then Some(entries[0].1)
    else Get(entries[1..], key)
  }

  predicate DistinctKeys(entries: seq<(Text, Text)>) {
    forall i, j :: 0 <= i < j < |entries| ==> entries[i].0 != entries[j].0
  }

  /** The map without `key`. */
  function Remove(entries: seq<(Text, Text)>, key: Text): seq<(Text, Text)> {
    if entries == [] then []
    else if entries[0].0 == key then entries[1..]
    else [entries[0]] + Remove(entries[1..], key)
  }

  lemma {:induction false} GetAbsent(entries: seq<(Text, Text)>, key: Text)
    requires forall i :: 0 <= i < |entries| ==> entries[i].0 != key
    ensures Get(entries, key).None?
  {
    if entries != [] {
      GetAbsent(entries[1..], key);
    }
  }

  /** Removing a key loses that key and nothing else. */
  lemma {:induction false} RemoveKeeps(entries: seq<(Text, Text)>, key: Text, other: Text)
    requires DistinctKeys(entries)
    ensures Get(Remove(entries, key), other) == if other == key then None else Get(entries, other)
  {
    if entries != [] {
      var rest := entries[1..];
      assert forall i :: 0 <= i < |rest| ==> rest[i] == entries[i + 1];
      if entries[0].0 == key {
        if other == key {
          GetAbsent(rest, key);
        }
      } else {
        RemoveKeeps(rest, key, other);
        var kept := Remove(entries, key);
        assert kept[0] == entries[0] && kept[1..] == Remove(rest, key);
      }
    }
  }

  // ---------------------------------------------------------------------
  // Rows
  // ---------------------------------------------------------------------

  const GATEWAY: string := "_odb_gateway_received_at"

  predicate Digits(t: Text) {
    forall i :: 0 <= i < |t| ==> IsDigit(t[i])
  }

  /** The digits after an optional plus sign. */
  function Unsigned(t: Text): Text {
    if t != [] && t[0] == 43 then t[1..] else t
  }

  /** `str::parse::<u64>().ok()`: an optional plus sign, digits, and no overflow. */
  function ParseU64(t: Text): Option<u64> {
    var digits := Unsigned(t);
    if digits == [] then None
    else if Digits(digits) then
      var n := Value(digits);
      if n <= U64_MAX then Some(n) else None
    else None
  }

  /** `i32::clamp(0, 255) as u8`. */
  function SeverityByte(n: i32): u8 {
    Max(0, Min(n, 255))
  }

  function TextOr(o: Option<Text>): Text {
    match o
    case Some(t) => t
    case None => []
  }

  function GatewayTime(resource: seq<(Text, Text)>): Option<u64> {
    match Get(resource, Ascii(GATEWAY))
    case None => None
    case Some(t) => ParseU64(t)
  }

  function LogRow(r: Record, version: u32): (row: Row)
    ensures |row| == 18
  {
    [ DateTime64Nanos(r.timestamp),
      DateTime64Nanos(r.observed),
      LowCardinality(r.severityText),
      UInt8(SeverityByte(r.severityNumber)),
      LowCardinality(TextOr(r.serviceName)),
      Str(r.body),
      StringMap(Remove(r.resource, Ascii(GATEWAY))),
      StringMap(r.attributes),
      Str(r.traceIdHex),
      Str(r.spanIdHex),
      UInt64(r.source.sequence),
      UInt32(r.source.entry),
      UInt32(r.source.record),
      LowCardinality(r.source.manifestPath),
      Str(r.source.dataPath),
      Int64(r.source.ingestionTimeMs),
      UInt32(version),
      NullableDateTime64Nanos(GatewayTime(r.resource)) ]
  }

  /** Every value stands under its column's type, and the coordinate columns carry the record's key. */
  lemma LogRowTyped(r: Record, version: u32)
    ensures WellTyped(LogRow(r, version), COLUMN_TYPES)
    ensures RowKey(LogRow(r, version)) == KeyOf(r)
  {
  }

  // ---------------------------------------------------------------------
  // The gateway stamp
  // ---------------------------------------------------------------------

  /** A numeral of `n`: an optional plus sign, any zeros in front, and the digits of `n`. */
  predicate Numeral(t: Text, n: nat, plus: bool, zeros: nat) {
    t == (if plus then [43] else []) + (Zeros(zeros) + Decimal(n))
  }

  /** Digits are the zeros in front and the numeral of their value. */
  lemma {:induction false} DigitsAre(t: Text) returns (zeros: nat)
    requires t != [] && Digits(t)
    ensures t == Zeros(zeros) + Decimal(Value(t))
  {
    var front, last := t[..|t| - 1], t[|t| - 1];
    assert IsDigit(last) && t == front + [last];
    if front == [] {
      zeros := 0;
      assert Value(front) == 0;
    } else {
      var k := DigitsAre(front);
      if Value(front) == 0 {
        zeros := k + 1;
        ZerosEnd(k);
        assert Decimal(0) == [ZERO] && Decimal(Value(t)) == [last];
      } else {
        zeros := k;
        assert Decimal(Value(t)) == Decimal(Value(front)) + [last];
      }
    }
  }

  lemma {:induction false} ZerosVanish(k: nat, t: Text)
    requires Digits(t)
    ensures Digits(Zeros(k) + t) && Value(Zeros(k) + t) == Value(t)
  {
    if t == [] {
      ZerosWorthNothing(k);
      assert Zeros(k) + t == Zeros(k);
    } else {
      var all, front := Zeros(k) + t, t[..|t| - 1];
      ZerosVanish(k, front);
      assert all[..|all| - 1] == Zeros(k) + front && all[|all| - 1] == t[|t| - 1];
      assert all == (Zeros(k) + front) + [t[|t| - 1]];
    }
  }

  lemma {:induction false} ZerosWorthNothing(k: nat)
    ensures Digits(Zeros(k)) && Value(Zeros(k)) == 0
  {
    if k > 0 {
      ZerosWorthNothing(k - 1);
      ZerosEnd(k - 1);
      var all := Zeros(k);
      assert all == Zeros(k - 1) + [ZERO];
      assert all[..|all| - 1] == Zeros(k - 1);
    }
  }

  ghost predicate IsNumeral(t: Text, n: nat) {
    exists plus, zeros :: Numeral(t, n, plus, zeros)
  }

  lemma NumeralUnsigned(t: Text, n: nat, plus: bool, zeros: nat)
    requires Numeral(t, n, plus, zeros)
    ensures Unsigned(t) == Zeros(zeros) + Decimal(n)
  {
    ZerosVanish(zeros, Decimal(n));
    assert IsDigit((Zeros(zeros) + Decimal(n))[0]);
    assert plus ==> t[1..] == Zeros(zeros) + Decimal(n);
  }

  lemma NumeralParses(t: Text, n: u64, plus: bool, zeros: nat)
    requires Numeral(t, n, plus, zeros)
    ensures ParseU64(t) == Some(n)
  {
    NumeralUnsigned(t, n, plus, zeros);
    ZerosVanish(zeros, Decimal(n));
    ValueDecimal(n);
  }

  lemma ParsedNumeral(t: Text)
    requires ParseU64(t).Some?
    ensures IsNumeral(t, ParseU64(t).value)
  {
    var plus := t != [] && t[0] == 43;
    var digits := if plus then t[1..] else t;
    var zeros := DigitsAre(digits);
    assert plus ==> t == [43] + t[1..];
    assert Numeral(t, ParseU64(t).value, plus, zeros);
  }

  /** What parses is exactly the numerals of 64-bit numbers. */
  lemma ParsesNumerals(t: Text, n: u64)
    ensures ParseU64(t) == Some(n) <==> IsNumeral(t, n)
  {
    if ParseU64(t) == Some(n) {
      ParsedNumeral(t);
    }
    if IsNumeral(t, n) {
      var plus, zeros :| Numeral(t, n, plus, zeros);
      NumeralParses(t, n, plus, zeros);
    }
  }

  /**
   * The gateway stamp always leaves the resource map and every other attribute stays. Its own column
   * carries the number it is a numeral of, and is null exactly where there is no stamp or it is no
   * numeral of a 64-bit number.
   */
  lemma GatewayMoves(r: Record, version: u32, key: Text)
    requires DistinctKeys(r.resource)
    ensures Get(LogRow(r, version)[6].entries, key) == if key == Ascii(GATEWAY) then None else Get(r.resource, key)
    ensures forall n: u64 :: LogRow(r, version)[17] == NullableDateTime64Nanos(Some(n)) <==>
              Get(r.resource, Ascii(GATEWAY)).Some? && IsNumeral(Get(r.resource, Ascii(GATEWAY)).value, n)
    ensures LogRow(r, version)[17] == NullableDateTime64Nanos(None) <==>
              Get(r.resource, Ascii(GATEWAY)).None?
              || forall n: u64 :: !IsNumeral(Get(r.resource, Ascii(GATEWAY)).value, n)
  {
    RemoveKeeps(r.resource, Ascii(GATEWAY), key);
    var stamp := Get(r.resource, Ascii(GATEWAY));
    if stamp.Some? {
      forall n: u64 ensures ParseU64(stamp.value) == Some(n) <==> IsNumeral(stamp.value, n) {
        ParsesNumerals(stamp.value, n);
      }
    }
  }
}
