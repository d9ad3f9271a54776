/**
 * The RowBinary wire form with names and types: unsigned LEB128 lengths, little-endian numbers,
 * and a decoder driven by nothing but the type strings in the header.
 */
module RowBinary {
  import opened Prelude
  import opened Rows

  // ---------------------------------------------------------------------
  // Unsigned LEB128
  // ---------------------------------------------------------------------

  /** What a reader finds: the value and the bytes after it. */
  datatype Read<+T> = Nothing | Found(value: T, rest: Text)

  function Varuint(n: nat): (t: Text)
    ensures |t| >= 1
  {
    if n < 128 then [n] else [n % 128 + 128] + Varuint(n / 128)
  }

  function ReadVaruint(t: Text): (r: Read<nat>)
    ensures r.Found? ==> |r.rest| < |t|
  {
    if t == [] then Nothing
    else if t[0] < 128 then Found(t[0], t[1..])
    else
      match ReadVaruint(t[1..])
      case Nothing => Nothing
      case Found(n, rest) => Found(t[0] - 128 + 128 * n, rest)
  }

  /** Self-delimiting: whatever follows, the reader stops exactly at the end of the number. */
  lemma {:induction false} VaruintReads(n: nat, rest: Text)
    ensures ReadVaruint(Varuint(n) + rest) == Found(n, rest)
  {
    var t := Varuint(n) + rest;
    if n >= 128 {
      assert t[1..] == Varuint(n / 128) + rest;
      VaruintReads(n / 128, rest);
    } else {
      assert t[1..] == rest;
    }
  }

  /** No encoding of the same number is shorter. */
  lemma {:induction false} VaruintMinimal(n: nat, t: Text, rest: Text)
    requires ReadVaruint(t) == Found(n, rest)
    ensures |t| - |rest| >= |Varuint(n)|
  {
    if t[0] >= 128 {
      var m := ReadVaruint(t[1..]).value;
      VaruintMinimal(m, t[1..], rest);
      assert n >= 128 ==> n / 128 == m;
    }
  }

  function Power128(k: nat): (p: nat)
    ensures p >= 1
  {
    if k == 0 then 1 else 128 * Power128(k - 1)
  }

  lemma {:induction false} VaruintShort(n: nat, k: nat)
    requires k >= 1 && n < Power128(k)
    ensures |Varuint(n)| <= k
  {
    assert Power128(1) == 128 * Power128(0);
    if n >= 128 {
      VaruintShort(n / 128, k - 1);
    }
  }

  /** A 64-bit number takes at most ten bytes. */
  lemma VaruintTen(n: u64)
    ensures |Varuint(n)| <= 10
  {
    assert Power128(10) == 128 * Power128(9) && Power128(9) == 128 * Power128(8) && Power128(8) == 128 * Power128(7);
    assert Power128(7) == 128 * Power128(6) && Power128(6) == 128 * Power128(5) && Power128(5) == 128 * Power128(4);
    assert Power128(4) == 128 * Power128(3) && Power128(3) == 128 * Power128(2) && Power128(2) == 128 * Power128(1);
    assert Power128(1) == 128;
    VaruintShort(n, 10);
  }

  // ---------------------------------------------------------------------
  // Numbers and texts
  // ---------------------------------------------------------------------

  function Power256(k: nat): (p: nat)
    ensures p >= 1
  {
    if k == 0 then 1 else 256 * Power256(k - 1)
  }

  function Little(n: nat, k: nat): (t: Text)
    ensures |t| == k
  {
    if k == 0 then [] else [n % 256] + Little(n / 256, k - 1)
  }

  function ReadLittle(t: Text, k: nat): (r: Read<nat>)
    ensures r.Found? ==> |r.rest| + k == |t| && r.value < Power256(k)
  {
    if k == 0 then Found(0, t)
    else if t == [] then Nothing
    else
      match ReadLittle(t[1..], k - 1)
      case Nothing => Nothing
      case Found(n, rest) => Found(t[0] + 256 * n, rest)
  }

  lemma {:induction false} LittleReads(n: nat, k: nat, rest: Text)
    requires n < Power256(k)
    ensures ReadLittle(Little(n, k) + rest, k) == Found(n, rest)
  {
    if k == 0 {
      assert Little(n, k) + rest == rest;
    } else {
      var t := Little(n, k) + rest;
      assert t[1..] == Little(n / 256, k - 1) + rest;
      LittleReads(n / 256, k - 1, rest);
    }
  }

  lemma Widths()
    ensures Power256(1) == 0x100 && Power256(4) == 0x1_0000_0000 && Power256(8) == 0x1_0000_0000_0000_0000
  {
    assert Power256(1) == 256 * Power256(0) && Power256(2) == 256 * Power256(1);
    assert Power256(3) == 256 * Power256(2) && Power256(4) == 256 * Power256(3) && Power256(5) == 256 * Power256(4);
    assert Power256(6) == 256 * Power256(5) && Power256(7) == 256 * Power256(6) && Power256(8) == 256 * Power256(7);
  }

  /** The bit pattern of a signed number of `2^bits == modulus`. */
  function Pattern(v: int, modulus: nat): (n: nat)
    requires modulus > 0
    ensures n < modulus
  {
    v % modulus
  }

  /** The signed number of a bit pattern. */
  function Signed(n: nat, modulus: nat): int {
    if 2 * n < modulus then n else n - modulus
  }

  lemma SignedPattern(v: int, modulus: nat)
    requires modulus == TWO32 || modulus == TWO64
    requires 0 <= 2 * v + modulus && 2 * v < modulus
    ensures Signed(Pattern(v, modulus), modulus) == v
  {
    if modulus == TWO32 {
      assert v % TWO32 == if v < 0 then v + TWO32 else v;
    } else {
      assert v % TWO64 == if v < 0 then v + TWO64 else v;
    }
  }

  lemma PatternSigned(n: u64)
    ensures Pattern(Signed(n, TWO64), TWO64) == n
  {
  }

  const TWO32: nat := 0x1_0000_0000
  const TWO64: nat := 0x1_0000_0000_0000_0000

  function TextBytes(s: Text): (t: Text)
    ensures |t| >= 1
  {
    Varuint(|s|) + s
  }

  function ReadText(t: Text): (r: Read<Text>)
    ensures r.Found? ==> |r.rest| < |t|
  {
    match ReadVaruint(t)
    case Nothing => Nothing
    case Found(n, rest) => if n <= |rest| then Found(rest[..n], rest[n..]) else Nothing
  }

  lemma TextReads(s: Text, rest: Text)
    ensures ReadText(TextBytes(s) + rest) == Found(s, rest)
  {
    assert TextBytes(s) + rest == Varuint(|s|) + (s + rest);
    VaruintReads(|s|, s + rest);
  }

  function EntriesBytes(entries: seq<(Text, Text)>): Text {
    if entries == [] then []
    else TextBytes(entries[0].0) + TextBytes(entries[0].1) + EntriesBytes(entries[1..])
  }

  function ReadEntries(count: nat, t: Text): (r: Read<seq<(Text, Text)>>)
    ensures r.Found? ==> |r.rest| <= |t|
  {
    if count == 0 then Found([], t)
    else
      match ReadText(t)
      case Nothing => Nothing
      case Found(key, rest) =>
        match ReadText(rest)
        case Nothing => Nothing
        case Found(value, rest) =>
          match ReadEntries(count - 1, rest)
          case Nothing => Nothing
          case Found(entries, rest) => Found([(key, value)] + entries, rest)
  }

  lemma {:induction false} EntriesRead(entries: seq<(Text, Text)>, rest: Text)
    ensures ReadEntries(|entries|, EntriesBytes(entries) + rest) == Found(entries, rest)
  {
    if entries == [] {
      assert EntriesBytes(entries) + rest == rest;
    } else {
      var key, value, more := entries[0].0, entries[0].1, EntriesBytes(entries[1..]);
      assert EntriesBytes(entries) + rest == TextBytes(key) + (TextBytes(value) + (more + rest));
      TextReads(key, TextBytes(value) + (more + rest));
      TextReads(value, more + rest);
      EntriesRead(entries[1..], rest);
      assert [(key, value)] + entries[1..] == entries;
    }
  }

  // ---------------------------------------------------------------------
  // Values by type
  // ---------------------------------------------------------------------

  datatype ColumnType =
    | StringType
    | LowCardinalityType
    | UInt8Type
    | Int32Type
    | UInt32Type
    | UInt64Type
    | Int64Type
    | DateTimeType
    | NullableDateTimeType
    | MapType

  /** The column type a value belongs under. */
  function TypeOf(v: RowValue): ColumnType {
    match v
    case Str(_) => StringType
    case LowCardinality(_) => LowCardinalityType
    case UInt8(_) => UInt8Type
    case Int32(_) => Int32Type
    case UInt32(_) => UInt32Type
    case UInt64(_) => UInt64Type
    case Int64(_) => Int64Type
    case DateTime64Nanos(_) => DateTimeType
    case NullableDateTime64Nanos(_) => NullableDateTimeType
    case StringMap(_) => MapType
  }

  /** A timestamp goes over the wire as the `i64` its 64 bits are. */
  function NanosBytes(ns: u64): Text {
    Little(Pattern(Signed(ns, TWO64), TWO64), 8)
  }

  function ValueBytes(v: RowValue): Text {
    match v
    case Str(s) => TextBytes(s)
    case LowCardinality(s) => TextBytes(s)
    case UInt8(n) => [n]
    case Int32(n) => Little(Pattern(n, TWO32), 4)
    case UInt32(n) => Little(n, 4)
    case UInt64(n) => Little(n, 8)
    case Int64(n) => Little(Pattern(n, TWO64), 8)
    case DateTime64Nanos(ns) => NanosBytes(ns)
    case NullableDateTime64Nanos(o) => if o.None? then [1] else [0] + NanosBytes(o.value)
    case StringMap(entries) => Varuint(|entries|) + EntriesBytes(entries)
  }

  function ReadInt(t: Text, k: nat, modulus: nat): (r: Read<int>)
    requires modulus > 0
    ensures r.Found? ==> |r.rest| + k == |t|
  {
    match ReadLittle(t, k)
    case Nothing => Nothing
    case Found(n, rest) => Found(Signed(n, modulus), rest)
  }

  lemma PatternReads(n: nat, k: nat, modulus: nat, rest: Text)
    requires n < modulus == Power256(k)
    ensures ReadInt(Little(n, k) + rest, k, modulus) == Found(Signed(n, modulus), rest)
  {
    LittleReads(n, k, rest);
  }

  function ReadUnsigned(ty: ColumnType, t: Text): (r: Read<RowValue>)
    requires ty.UInt8Type? || ty.UInt32Type? || ty.UInt64Type?
    ensures r.Found? ==> |r.rest| < |t|
  {
    Widths();
    match ReadLittle(t, if ty.UInt8Type? then 1 else if ty.UInt32Type? then 4 else 8)
    case Nothing => Nothing
    case Found(n, rest) =>
      Found(if ty.UInt8Type? then UInt8(n) else if ty.UInt32Type? then UInt32(n) else UInt64(n), rest)
  }

  function ReadSigned(ty: ColumnType, t: Text): (r: Read<RowValue>)
    requires ty.Int32Type? || ty.Int64Type?
    ensures r.Found? ==> |r.rest| < |t|
  {
    Widths();
    if ty.Int32Type? then
      match ReadLittle(t, 4)
      case Nothing => Nothing
      case Found(n, rest) => Found(Int32(Signed(n, TWO32)), rest)
    else
      match ReadLittle(t, 8)
      case Nothing => Nothing
      case Found(n, rest) => Found(Int64(Signed(n, TWO64)), rest)
  }

  function ReadNanos(t: Text): (r: Read<u64>)
    ensures r.Found? ==> |r.rest| < |t|
  {
    Widths();
    match ReadInt(t, 8, TWO64)
    case Nothing => Nothing
    case Found(v, rest) => Found(Pattern(v, TWO64), rest)
  }

  function ReadNullable(t: Text): (r: Read<Option<u64>>)
    ensures r.Found? ==> |r.rest| < |t|
  {
    if t == [] then Nothing
    else if t[0] == 1 then Found(None, t[1..])
    else if t[0] == 0 then
      match ReadNanos(t[1..])
      case Nothing => Nothing
      case Found(ns, rest) => Found(Some(ns), rest)
    else Nothing
  }

  function ReadMap(t: Text): (r: Read<seq<(Text, Text)>>)
    ensures r.Found? ==> |r.rest| < |t|
  {
    match ReadVaruint(t)
    case Nothing => Nothing
    case Found(n, rest) => ReadEntries(n, rest)
  }

  /** Reads one value of the given type. */
  function ReadValue(ty: ColumnType, t: Text): (r: Read<RowValue>)
    ensures r.Found? ==> |r.rest| < |t|
  {
    match ty
    case StringType => (match ReadText(t) case Nothing => Nothing case Found(s, rest) => Found(Str(s), rest))
    case LowCardinalityType =>
      (match ReadText(t) case Nothing => Nothing case Found(s, rest) => Found(LowCardinality(s), rest))
    case DateTimeType =>
      (match ReadNanos(t) case Nothing => Nothing case Found(n, rest) => Found(DateTime64Nanos(n), rest))
    case NullableDateTimeType =>
      (match ReadNullable(t) case Nothing => Nothing case Found(o, rest) => Found(NullableDateTime64Nanos(o), rest))
    case MapType => (match ReadMap(t) case Nothing => Nothing case Found(m, rest) => Found(StringMap(m), rest))
    case Int32Type => ReadSigned(ty, t)
    case Int64Type => ReadSigned(ty, t)
    case _ => ReadUnsigned(ty, t)
  }

  lemma NanosRead(ns: u64, rest: Text)
    ensures ReadNanos(NanosBytes(ns) + rest) == Found(ns, rest)
  {
    Widths();
    PatternSigned(ns);
    PatternReads(ns, 8, TWO64, rest);
  }

  lemma NullableReads(o: Option<u64>, rest: Text)
    ensures ReadNullable(ValueBytes(NullableDateTime64Nanos(o)) + rest) == Found(o, rest)
  {
    var t := ValueBytes(NullableDateTime64Nanos(o)) + rest;
    if o.Some? {
      assert t[1..] == NanosBytes(o.value) + rest;
      NanosRead(o.value, rest);
    } else {
      assert t[1..] == rest;
    }
  }

  lemma MapReads(entries: seq<(Text, Text)>, rest: Text)
    ensures ReadMap(Varuint(|entries|) + (EntriesBytes(entries) + rest)) == Found(entries, rest)
  {
    VaruintReads(|entries|, EntriesBytes(entries) + rest);
    EntriesRead(entries, rest);
  }

  lemma NumberReads(v: RowValue, rest: Text)
    requires v.UInt8? || v.Int32? || v.UInt32? || v.UInt64? || v.Int64?
    ensures ReadValue(TypeOf(v), ValueBytes(v) + rest) == Found(v, rest)
  {
    Widths();
    match v
    case UInt8(n) =>
      assert Little(n, 1) == [n] + Little(n / 256, 0);
      LittleReads(n, 1, rest);
    case Int32(n) =>
      SignedPattern(n, TWO32);
      LittleReads(Pattern(n, TWO32), 4, rest);
    case UInt32(n) => LittleReads(n, 4, rest);
    case UInt64(n) => LittleReads(n, 8, rest);
    case Int64(n) =>
      SignedPattern(n, TWO64);
      LittleReads(Pattern(n, TWO64), 8, rest);
  }

  lemma Associates(a: Text, b: Text, c: Text)
    ensures a + b + c == a + (b + c)
  {
  }

  lemma MapValueReads(entries: seq<(Text, Text)>, rest: Text)
    ensures ReadValue(MapType, ValueBytes(StringMap(entries)) + rest) == Found(StringMap(entries), rest)
  {
    Associates(Varuint(|entries|), EntriesBytes(entries), rest);
    MapReads(entries, rest);
  }

  /** Every value encoding is self-delimiting: its type and the bytes give the value back, whatever follows. */
  lemma ValueReads(v: RowValue, rest: Text)
    ensures ReadValue(TypeOf(v), ValueBytes(v) + rest) == Found(v, rest)
  {
    match v
    case Str(s) => TextReads(s, rest);
    case LowCardinality(s) => TextReads(s, rest);
    case DateTime64Nanos(ns) => NanosRead(ns, rest);
    case NullableDateTime64Nanos(o) => NullableReads(o, rest);
    case StringMap(entries) => MapValueReads(entries, rest);
    case _ => NumberReads(v, rest);
  }
}
