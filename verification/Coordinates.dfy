/**
 * Coordinates of records numbered entry by entry: exactly when they are distinct, and exactly when
 * they rise.
 */
module Coordinates {
  import opened Prelude
  import opened Sequences
  import opened Rows
  import opened Logs
  import opened Sorting
  import opened SourceEntries

  predicate NumberedAs(r: Record, sequence: u64, manifest: Text, index: u32, j: nat) {
    && r.source.sequence == sequence && r.source.manifestPath == manifest
    && r.source.entry == index && r.source.record == Truncated(j)
  }

  /** Part `i` holds the records of entry `i`, which carry its index and a 32-bit counter. */
  predicate Numbering(parts: seq<seq<Record>>, sequence: u64, manifest: Text, indices: seq<u32>) {
    && |parts| == |indices|
    && forall i, j :: 0 <= i < |parts| && 0 <= j < |parts[i]| ==>
         NumberedAs(parts[i][j], sequence, manifest, indices[i], j)
  }

  /** The 32-bit record counter can number the records of every entry. */
  predicate Countable(parts: seq<seq<Record>>) {
    forall i :: 0 <= i < |parts| ==> |parts[i]| <= 0x1_0000_0000
  }

  /** No two entries that hold records carry the same 32-bit index. */
  predicate IndicesApart(parts: seq<seq<Record>>, indices: seq<u32>)
    requires |parts| == |indices|
  {
    forall i, i' :: 0 <= i < i' < |parts| && parts[i] != [] && parts[i'] != [] ==> indices[i] != indices[i']
  }

  /** The entries that hold records carry rising indices. */
  predicate IndicesRise(parts: seq<seq<Record>>, indices: seq<u32>)
    requires |parts| == |indices|
  {
    forall i, i' :: 0 <= i < i' < |parts| && parts[i] != [] && parts[i'] != [] ==> indices[i] < indices[i']
  }

  /** Strictly increasing coordinates. */
  predicate Increasing(s: seq<Record>) {
    forall i, j :: 0 <= i < j < |s| ==> AtMost(KeyOf(s[i]), KeyOf(s[j])) && KeyOf(s[i]) != KeyOf(s[j])
  }

  lemma KeyAt(parts: seq<seq<Record>>, sequence: u64, manifest: Text, indices: seq<u32>, i: nat, j: nat)
    requires Numbering(parts, sequence, manifest, indices) && i < |parts| && j < |parts[i]|
    ensures Offset(parts, i) + j < |Flatten(parts)|
    ensures KeyOf(Flatten(parts)[Offset(parts, i) + j]) == Key(sequence, indices[i], Truncated(j))
  {
    FlattenAt(parts, |parts|, i, j);
    assert parts[..|parts|] == parts;
    assert NumberedAs(parts[i][j], sequence, manifest, indices[i], j);
  }

  lemma KeysOf(parts: seq<seq<Record>>, sequence: u64, manifest: Text, indices: seq<u32>, k: nat, l: nat)
      returns (i: nat, j: nat, i': nat, j': nat)
    requires Numbering(parts, sequence, manifest, indices) && k < l < |Flatten(parts)|
    ensures i < |parts| && i' < |parts| && j < |parts[i]| && j' < |parts[i']|
    ensures KeyOf(Flatten(parts)[k]) == Key(sequence, indices[i], Truncated(j))
    ensures KeyOf(Flatten(parts)[l]) == Key(sequence, indices[i'], Truncated(j'))
    ensures i < i' || (i == i' && j < j')
  {
    FlattenLength(parts, |parts|);
    assert parts[..|parts|] == parts;
    i, j := FlattenLocate(parts, |parts|, k);
    i', j' := FlattenLocate(parts, |parts|, l);
    KeyAt(parts, sequence, manifest, indices, i, j);
    KeyAt(parts, sequence, manifest, indices, i', j');
    OffsetOrder(parts, i, j, i', j');
  }

  /** Record 2^32 of an entry is numbered like its first. */
  lemma CounterRepeats(parts: seq<seq<Record>>, sequence: u64, manifest: Text, indices: seq<u32>, i: nat)
    requires Numbering(parts, sequence, manifest, indices) && i < |parts| && |parts[i]| > 0x1_0000_0000
    ensures !DistinctCoordinates(Flatten(parts))
  {
    KeyAt(parts, sequence, manifest, indices, i, 0);
    KeyAt(parts, sequence, manifest, indices, i, 0x1_0000_0000);
    var k := Offset(parts, i);
    assert KeyOf(Flatten(parts)[k + 0]) == KeyOf(Flatten(parts)[k + 0x1_0000_0000]);
  }

  lemma FirstsFollow(parts: seq<seq<Record>>, sequence: u64, manifest: Text, indices: seq<u32>, i: nat, i': nat)
    requires Numbering(parts, sequence, manifest, indices) && i < i' < |parts| && parts[i] != [] && parts[i'] != []
    ensures Offset(parts, i) < Offset(parts, i') < |Flatten(parts)|
    ensures KeyOf(Flatten(parts)[Offset(parts, i)]) == Key(sequence, indices[i], 0)
    ensures KeyOf(Flatten(parts)[Offset(parts, i')]) == Key(sequence, indices[i'], 0)
  {
    KeyAt(parts, sequence, manifest, indices, i, 0);
    KeyAt(parts, sequence, manifest, indices, i', 0);
    OffsetGrows(parts, i + 1, i');
  }

  lemma PartsDistinct(parts: seq<seq<Record>>, sequence: u64, manifest: Text, indices: seq<u32>)
    requires Numbering(parts, sequence, manifest, indices)
    ensures DistinctCoordinates(Flatten(parts)) <==> Countable(parts) && IndicesApart(parts, indices)
  {
    var records := Flatten(parts);
    if Countable(parts) && IndicesApart(parts, indices) {
      forall k, l | 0 <= k < l < |records| ensures KeyOf(records[k]) != KeyOf(records[l]) {
        var i, j, i', j' := KeysOf(parts, sequence, manifest, indices, k, l);
      }
    }
    if DistinctCoordinates(records) {
      forall i | 0 <= i < |parts| ensures |parts[i]| <= 0x1_0000_0000 {
        if |parts[i]| > 0x1_0000_0000 {
          CounterRepeats(parts, sequence, manifest, indices, i);
        }
      }
      forall i, i' | 0 <= i < i' < |parts| && parts[i] != [] && parts[i'] != [] ensures indices[i] != indices[i'] {
        FirstsFollow(parts, sequence, manifest, indices, i, i');
      }
    }
  }

  lemma PartsIncrease(parts: seq<seq<Record>>, sequence: u64, manifest: Text, indices: seq<u32>)
    requires Numbering(parts, sequence, manifest, indices)
    ensures Increasing(Flatten(parts)) <==> Countable(parts) && IndicesRise(parts, indices)
  {
    var records := Flatten(parts);
    PartsDistinct(parts, sequence, manifest, indices);
    if Countable(parts) && IndicesRise(parts, indices) {
      forall k, l | 0 <= k < l < |records|
        ensures AtMost(KeyOf(records[k]), KeyOf(records[l])) && KeyOf(records[k]) != KeyOf(records[l])
      {
        var i, j, i', j' := KeysOf(parts, sequence, manifest, indices, k, l);
      }
    }
    if Increasing(records) {
      assert DistinctCoordinates(records);
      forall i, i' | 0 <= i < i' < |parts| && parts[i] != [] && parts[i'] != [] ensures indices[i] < indices[i'] {
        FirstsFollow(parts, sequence, manifest, indices, i, i');
      }
    }
  }
}
