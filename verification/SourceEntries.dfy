/**
 * Splitting a consumed buffer batch into entries: the lockstep scan that gives each entry the
 * metadata range it falls in, and exactly when that is the right one.
 */
module SourceEntries {
  import opened Prelude
  import opened Rows

  /** A metadata range: it covers entries from `start` up to where the next one starts. */
  datatype RangeMetadata = RangeMetadata(start: u32, payload: Text, ingestionTimeMs: i64)

  datatype SourceEntry = SourceEntry(index: u32, bytes: Text, metadata: Text, ingestionTimeMs: i64)

  function Truncated(i: nat): u32 {
    i % 0x1_0000_0000
  }

  /** How far the inner loop moves the range on for one entry. */
  function Moved(ranges: seq<RangeMetadata>, k: nat, index: u32): (r: nat)
    ensures r >= k && (k < |ranges| ==> r < |ranges|)
    decreases |ranges| - k
  {
    if k + 1 < |ranges| && ranges[k + 1].start <= index then Moved(ranges, k + 1, index) else k
  }

  /** The range the scan has reached at entry `i`. */
  function Scanned(ranges: seq<RangeMetadata>, i: nat): (r: nat)
    ensures ranges != [] ==> r < |ranges|
  {
    Moved(ranges, if i == 0 then 0 else Scanned(ranges, i - 1), Truncated(i))
  }

  function EntryAt(ranges: seq<RangeMetadata>, bytes: Text, i: nat): SourceEntry {
    var k := Scanned(ranges, i);
    if k < |ranges| then SourceEntry(Truncated(i), bytes, ranges[k].payload, ranges[k].ingestionTimeMs)
    else SourceEntry(Truncated(i), bytes, [], 0)
  }

  method SplitIntoRawEntries(entries: seq<Text>, ranges: seq<RangeMetadata>) returns (raw: seq<SourceEntry>)
    ensures |raw| == |entries|
    ensures forall i :: 0 <= i < |entries| ==> raw[i] == EntryAt(ranges, entries[i], i)
  {
    raw := [];
    var range := 0;
    for i := 0 to |entries|
      invariant |raw| == i && range == (if i == 0 then 0 else Scanned(ranges, i - 1))
      invariant forall j :: 0 <= j < i ==> raw[j] == EntryAt(ranges, entries[j], j)
    {
      var index := Truncated(i);
      ghost var from := range;
      while range + 1 < |ranges| && ranges[range + 1].start <= index
        invariant Moved(ranges, range, index) == Moved(ranges, from, index)
        decreases |ranges| - range
      {
        range := range + 1;
      }
      var entry :=
        if range < |ranges| then SourceEntry(index, entries[i], ranges[range].payload, ranges[range].ingestionTimeMs)
        else SourceEntry(index, entries[i], [], 0);
      raw := raw + [entry];
    }
  }

  // ---------------------------------------------------------------------
  // The range an entry belongs to
  // ---------------------------------------------------------------------

  /** `k` is the last range that starts at or before `i`. */
  predicate Covers(ranges: seq<RangeMetadata>, k: nat, i: nat) {
    && k < |ranges| && ranges[k].start <= i
    && forall j :: k < j < |ranges| ==> ranges[j].start > i
  }

  lemma {:induction false} MovedStops(ranges: seq<RangeMetadata>, k: nat, index: u32)
    ensures var r := Moved(ranges, k, index);
            && (forall j :: k < j <= r && j < |ranges| ==> ranges[j].start <= index)
            && (r + 1 < |ranges| ==> ranges[r + 1].start > index)
    decreases |ranges| - k
  {
    if k + 1 < |ranges| && ranges[k + 1].start <= index {
      MovedStops(ranges, k + 1, index);
    }
  }

  /** The scan goes as far as every range on the way has started. */
  lemma {:induction false} ScanReaches(ranges: seq<RangeMetadata>, i: nat)
    requires i < 0x1_0000_0000
    ensures var r := Scanned(ranges, i);
            && (forall j :: 0 < j <= r && j < |ranges| ==> ranges[j].start <= i)
            && (r + 1 < |ranges| ==> ranges[r + 1].start > i)
  {
    if i > 0 {
      ScanReaches(ranges, i - 1);
    }
    MovedStops(ranges, if i == 0 then 0 else Scanned(ranges, i - 1), Truncated(i));
  }

  /** Among the ranges after the first, those that start inside the batch come in order. */
  predicate InOrder(ranges: seq<RangeMetadata>, count: nat) {
    forall a, b :: 0 < a < b < |ranges| && ranges[b].start < count ==> ranges[a].start <= ranges[b].start
  }

  /** Some range covers the first entry where the scan looks for it. */
  predicate StartsAtZero(ranges: seq<RangeMetadata>) {
    ranges != [] && (ranges[0].start == 0 || (|ranges| > 1 && ranges[1].start == 0))
  }

  lemma ScanCovers(ranges: seq<RangeMetadata>, count: nat, i: nat)
    requires i < count <= 0x1_0000_0000 && InOrder(ranges, count) && StartsAtZero(ranges)
    ensures Covers(ranges, Scanned(ranges, i), i)
  {
    ScanReaches(ranges, i);
    var r := Scanned(ranges, i);
    forall j | r < j < |ranges| ensures ranges[j].start > i {
      if j > r + 1 {
        assert ranges[r + 1].start > i;
        assert ranges[j].start < count ==> ranges[r + 1].start <= ranges[j].start;
      }
    }
  }

  /** From the last 32-bit index on the scan stands at the last range. */
  lemma {:induction false} ScanEnds(ranges: seq<RangeMetadata>, i: nat)
    requires ranges != [] && i >= 0xFFFF_FFFF
    ensures Scanned(ranges, i) == |ranges| - 1
  {
    if i == 0xFFFF_FFFF {
      ScanReaches(ranges, i);
    } else {
      ScanEnds(ranges, i - 1);
    }
  }

  ghost predicate ScanRight(ranges: seq<RangeMetadata>, count: nat) {
    forall i :: 0 <= i < count ==> Covers(ranges, Scanned(ranges, i), i)
  }

  /** How many entries a 32-bit range start can tell apart. */
  function Indexed(count: nat): nat {
    Min(count, 0x1_0000_0000)
  }

  /**
   * Every entry of the batch gets the last range that starts at or before it if and only if the
   * ranges that start inside the batch are in order and one of the first two starts at zero.
   */
  lemma ScanRightExactly(ranges: seq<RangeMetadata>, count: nat)
    requires count > 0
    ensures ScanRight(ranges, count) <==> InOrder(ranges, Indexed(count)) && StartsAtZero(ranges)
  {
    var n := Indexed(count);
    if InOrder(ranges, n) && StartsAtZero(ranges) {
      forall i | 0 <= i < count ensures Covers(ranges, Scanned(ranges, i), i) {
        if i < n {
          ScanCovers(ranges, n, i);
        } else {
          ScanEnds(ranges, i);
        }
      }
    }
    if ScanRight(ranges, count) {
      RightStarts(ranges, n);
      forall a, b | 0 < a < b < |ranges| && ranges[b].start < n ensures ranges[a].start <= ranges[b].start {
        RightOrder(ranges, n, a, b);
      }
    }
  }

  lemma RightStarts(ranges: seq<RangeMetadata>, count: nat)
    requires 0 < count <= 0x1_0000_0000 && ScanRight(ranges, count)
    ensures StartsAtZero(ranges)
  {
    assert Covers(ranges, Scanned(ranges, 0), 0);
    ScanReaches(ranges, 0);
  }

  lemma RightOrder(ranges: seq<RangeMetadata>, count: nat, a: nat, b: nat)
    requires count <= 0x1_0000_0000 && ScanRight(ranges, count)
    requires 0 < a < b < |ranges| && ranges[b].start < count
    ensures ranges[a].start <= ranges[b].start
  {
    var i := ranges[b].start;
    assert Covers(ranges, Scanned(ranges, i), i);
    ScanReaches(ranges, i);
    assert Scanned(ranges, i) >= b;
  }

  /** Under that condition an entry carries its own bytes and the metadata and time of the range that covers it. */
  lemma EntryGetsItsRange(ranges: seq<RangeMetadata>, count: nat, bytes: Text, i: nat, k: nat)
    requires i < count && InOrder(ranges, Indexed(count)) && StartsAtZero(ranges) && Covers(ranges, k, i)
    ensures EntryAt(ranges, bytes, i)
         == SourceEntry(i % 0x1_0000_0000, bytes, ranges[k].payload, ranges[k].ingestionTimeMs)
  {
    ScanRightExactly(ranges, count);
    assert Covers(ranges, Scanned(ranges, i), i);
  }
}
