/** What every plan guarantees. */
module PlannerTheorems {
  import opened Prelude
  import opened Sequences
  import opened Rows
  import opened RowBinary
  import opened Serializer
  import opened Token
  import opened Logs
  import opened Chunker
  import opened Sorting
  import opened Planner

  function RowLists(groups: seq<seq<Record>>, version: u32): (r: seq<seq<Row>>)
    ensures |r| == |groups| && forall i :: 0 <= i < |groups| ==> r[i] == RowsOf(groups[i], version)
  {
    if groups == [] then [] else [RowsOf(groups[0], version)] + RowLists(groups[1..], version)
  }

  lemma RowsAppend(a: seq<Record>, b: seq<Record>, version: u32)
    ensures RowsOf(a + b, version) == RowsOf(a, version) + RowsOf(b, version)
  {
  }

  lemma {:induction false} RowsFlatten(groups: seq<seq<Record>>, version: u32)
    ensures Flatten(RowLists(groups, version)) == RowsOf(Flatten(groups), version)
  {
    if groups != [] {
      RowsFlatten(groups[1..], version);
      RowsAppend(groups[0], Flatten(groups[1..]), version);
      assert RowLists(groups, version)[1..] == RowLists(groups[1..], version);
    }
  }

  /** The rows of a plan's chunks, chunk by chunk. */
  function PlanRows(chunks: seq<InsertChunk>): (r: seq<seq<Row>>)
    ensures |r| == |chunks| && forall i :: 0 <= i < |chunks| ==> r[i] == chunks[i].rows
  {
    if chunks == [] then [] else [chunks[0].rows] + PlanRows(chunks[1..])
  }

  lemma EmittedRows(digest: Digest, manifest: Text, id: Identity, groups: seq<seq<Record>>)
    ensures PlanRows(EmitAll(Emit(digest, manifest, id), groups)) == RowLists(groups, id.config.adapterVersion)
  {
  }

  /** The plan fails exactly when two records name different manifests. */
  lemma PlanFails(digest: Digest, id: Identity, records: seq<Record>)
    ensures Planned(digest, id, records).Err? <==>
              exists r, s :: r in records && s in records && r.source.manifestPath != s.source.manifestPath
  {
    var sorted := Sorted(records);
    SortedOrders(records);
    assert forall r :: r in records <==> r in multiset(records);
    assert forall r :: r in sorted <==> r in multiset(sorted);
    if sorted != [] && !OneManifest(sorted, sorted[0].source.manifestPath) {
      var i :| 0 <= i < |sorted| && sorted[i].source.manifestPath != sorted[0].source.manifestPath;
      assert sorted[i] in records && sorted[0] in records;
    }
  }

  lemma GroupsCover(c: AdapterConfig, records: seq<Record>, version: u32)
    ensures Flatten(RowLists(Groups(c, records), version)) == RowsOf(Sorted(records), version)
  {
    RowsFlatten(Groups(c, records), version);
    GreedyCovers(BoundsOf(c), ApproxSize, [], Sorted(records));
    assert [] + Sorted(records) == Sorted(records);
  }

  lemma PlannedRows(digest: Digest, id: Identity, records: seq<Record>)
    requires Planned(digest, id, records).Ok?
    ensures PlanRows(Planned(digest, id, records).value)
         == RowLists(Groups(id.config, records), id.config.adapterVersion)
  {
    var s := Sorted(records);
    if s != [] {
      EmittedRows(digest, s[0].source.manifestPath, id, Groups(id.config, records));
    }
  }

  /** Concatenated, the rows of the chunks are the sorted records, each mapped to its row. */
  lemma PlanCoversRecords(digest: Digest, id: Identity, records: seq<Record>)
    requires Planned(digest, id, records).Ok?
    ensures Flatten(PlanRows(Planned(digest, id, records).value)) == RowsOf(Sorted(records), id.config.adapterVersion)
  {
    PlannedRows(digest, id, records);
    GroupsCover(id.config, records, id.config.adapterVersion);
  }

  function AtLeastOne(n: nat): nat {
    if n == 0 then 1 else n
  }

  /** Within the configured rows and bytes, or a single record. */
  predicate WithinLimits(c: AdapterConfig, group: seq<Record>) {
    || |group| <= 1
    || (|group| <= AtLeastOne(c.maxChunkRows) && Total(ApproxSize, group) <= AtLeastOne(c.maxChunkBytes))
  }

  lemma LimitsAre(c: AdapterConfig, group: seq<Record>)
    ensures WithinLimits(c, group) <==> Allowed(BoundsOf(c), ApproxSize, group)
  {
  }

  /** The records of each chunk of a plan. */
  predicate Grouped(chunks: seq<InsertChunk>, groups: seq<seq<Record>>, version: u32) {
    |groups| == |chunks| && forall i :: 0 <= i < |chunks| ==> chunks[i].rows == RowsOf(groups[i], version)
  }

  /** Each chunk has a record and keeps to the limits; each but the last would break them with the next record. */
  predicate Filled(c: AdapterConfig, groups: seq<seq<Record>>) {
    && (forall i :: 0 <= i < |groups| ==> groups[i] != [] && WithinLimits(c, groups[i]))
    && (forall i, j :: 0 <= i < |groups| && j == i + 1 < |groups| ==>
          !WithinLimits(c, groups[i] + [groups[j][0]]))
  }

  lemma GroupsFilled(c: AdapterConfig, records: seq<Record>)
    ensures Filled(c, Groups(c, records))
  {
    var groups := Groups(c, records);
    GreedyAllowed(BoundsOf(c), ApproxSize, [], Sorted(records));
    forall i | 0 <= i < |groups| ensures WithinLimits(c, groups[i]) {
      LimitsAre(c, groups[i]);
    }
    forall i, j | 0 <= i < |groups| && j == i + 1 < |groups| ensures !WithinLimits(c, groups[i] + [groups[j][0]]) {
      GreedyFills(BoundsOf(c), ApproxSize, Sorted(records), i);
      LimitsAre(c, groups[i] + [groups[j][0]]);
    }
  }

  lemma SplitAllowed(c: AdapterConfig, split: seq<seq<Record>>)
    requires forall i :: 0 <= i < |split| ==> WithinLimits(c, split[i])
    ensures AllAllowed(BoundsOf(c), ApproxSize, split)
  {
    forall i | 0 <= i < |split| ensures Allowed(BoundsOf(c), ApproxSize, split[i]) {
      LimitsAre(c, split[i]);
    }
  }

  /**
   * A plan cuts the sorted records, in order, into chunks that have a record and keep to the
   * configured rows and bytes unless they are a single record; each but the last could not take the
   * next record; and no order-preserving split within those limits has fewer chunks.
   */
  lemma PlanIsMinimal(digest: Digest, id: Identity, records: seq<Record>, split: seq<seq<Record>>)
      returns (groups: seq<seq<Record>>)
    requires Planned(digest, id, records).Ok?
    requires Flatten(split) == Sorted(records) && forall i :: 0 <= i < |split| ==> WithinLimits(id.config, split[i])
    ensures groups == Groups(id.config, records) && Flatten(groups) == Sorted(records) && Filled(id.config, groups)
    ensures Grouped(Planned(digest, id, records).value, groups, id.config.adapterVersion)
    ensures |Planned(digest, id, records).value| <= |split|
  {
    var s := Sorted(records);
    groups := Groups(id.config, records);
    GroupsFilled(id.config, records);
    GreedyCovers(BoundsOf(id.config), ApproxSize, [], s);
    assert [] + s == s;
    SplitAllowed(id.config, split);
    GreedyMinimal(BoundsOf(id.config), ApproxSize, s, split);
    PlannedGrouped(digest, id, records);
  }

  lemma PlannedGrouped(digest: Digest, id: Identity, records: seq<Record>)
    requires Planned(digest, id, records).Ok?
    ensures Grouped(Planned(digest, id, records).value, Groups(id.config, records), id.config.adapterVersion)
  {
    PlannedRows(digest, id, records);
    var chunks, lists := Planned(digest, id, records).value, PlanRows(Planned(digest, id, records).value);
    assert forall i :: 0 <= i < |chunks| ==> lists[i] == chunks[i].rows;
  }

  /** Records with distinct coordinates give the same plan in whatever order they arrive. */
  lemma PlanIgnoresOrder(digest: Digest, id: Identity, a: seq<Record>, b: seq<Record>)
    requires DistinctCoordinates(a) && multiset(a) == multiset(b)
    ensures Planned(digest, id, a) == Planned(digest, id, b)
  {
    SortedPermutation(a, b);
  }

  lemma PlannedToken(digest: Digest, id: Identity, records: seq<Record>, i: nat)
    requires Planned(digest, id, records).Ok? && i < |Planned(digest, id, records).value|
    ensures records != [] && Sorted(records) != []
    ensures Planned(digest, id, records).value[i].token
         == BuildToken(digest, Sorted(records)[0].source.manifestPath, id.config, id.low, id.high, Index32(i))
    ensures i < |Groups(id.config, records)| == |Planned(digest, id, records).value|
    ensures Planned(digest, id, records).value[i].rows
         == RowsOf(Groups(id.config, records)[i], id.config.adapterVersion)
  {
  }

  /** Every chunk carries the configured target and settings, and its own place as its index. */
  lemma PlannedSettings(digest: Digest, id: Identity, records: seq<Record>, i: nat)
    requires Planned(digest, id, records).Ok? && i < |Planned(digest, id, records).value|
    ensures var chunk := Planned(digest, id, records).value[i];
            && chunk.database == id.config.database && chunk.table == id.config.table
            && chunk.insertQuorum == id.config.insertQuorum && chunk.applyToken == id.config.applyToken
            && chunk.index == i % 0x1_0000_0000
  {
  }

  predicate DistinctTokens(chunks: seq<InsertChunk>) {
    forall i, j :: 0 <= i < j < |chunks| ==> chunks[i].token != chunks[j].token
  }

  lemma TokensDiffer(digest: Digest, id: Identity, records: seq<Record>, i: nat, j: nat)
    requires Lacks(digest(Preimage(id.config)), COLON)
    requires Planned(digest, id, records).Ok?
    requires i < j < |Planned(digest, id, records).value| && Index32(i) != Index32(j)
    ensures Planned(digest, id, records).value[i].token != Planned(digest, id, records).value[j].token
  {
    var chunks := Planned(digest, id, records).value;
    var manifest := Sorted(records)[0].source.manifestPath;
    PlannedToken(digest, id, records, i);
    PlannedToken(digest, id, records, j);
    if chunks[i].token == chunks[j].token {
      TokenTells(digest, manifest, id.config, id.low, id.high, Index32(i), id.config, id.low, id.high, Index32(j));
    }
  }

  /** The chunk after the last index is named like the first. */
  lemma IndexRepeats(digest: Digest, id: Identity, records: seq<Record>)
    requires Planned(digest, id, records).Ok? && |Planned(digest, id, records).value| > 0x1_0000_0000
    ensures Planned(digest, id, records).value[0].token == Planned(digest, id, records).value[0x1_0000_0000].token
  {
    PlannedToken(digest, id, records, 0);
    PlannedToken(digest, id, records, 0x1_0000_0000);
  }

  lemma CountedApart(i: nat, j: nat)
    requires i < j < 0x1_0000_0000
    ensures Index32(i) != Index32(j)
  {
  }

  lemma CountedDiffer(digest: Digest, id: Identity, records: seq<Record>)
    requires Lacks(digest(Preimage(id.config)), COLON) && Planned(digest, id, records).Ok?
    requires |Planned(digest, id, records).value| <= 0x1_0000_0000
    ensures DistinctTokens(Planned(digest, id, records).value)
  {
    var chunks := Planned(digest, id, records).value;
    forall i, j | 0 <= i < j < |chunks| ensures chunks[i].token != chunks[j].token {
      CountedApart(i, j);
      TokensDiffer(digest, id, records, i, j);
    }
  }

  lemma RepeatedNotDistinct(chunks: seq<InsertChunk>, j: nat)
    requires 0 < j < |chunks| && chunks[0].token == chunks[j].token
    ensures !DistinctTokens(chunks)
  {
  }

  /** The tokens of a plan are pairwise distinct if and only if the 32-bit chunk index can count its chunks. */
  lemma TokensDistinct(digest: Digest, id: Identity, records: seq<Record>)
    requires Lacks(digest(Preimage(id.config)), COLON) && Planned(digest, id, records).Ok?
    ensures DistinctTokens(Planned(digest, id, records).value) <==>
              |Planned(digest, id, records).value| <= 0x1_0000_0000
  {
    if |Planned(digest, id, records).value| <= 0x1_0000_0000 {
      CountedDiffer(digest, id, records);
    } else {
      IndexRepeats(digest, id, records);
      RepeatedNotDistinct(Planned(digest, id, records).value, 0x1_0000_0000);
    }
  }

  /** Planning of the same records depends on nothing the token does not show. */
  lemma SettingsDecide(c: AdapterConfig, d: AdapterConfig, records: seq<Record>)
    requires SameSettings(c, d)
    ensures Groups(c, records) == Groups(d, records)
  {
  }

  lemma SameTokenSameGroup(digest: Digest, manifest: Text, c: Identity, d: Identity, records: seq<Record>,
                           i: nat, j: nat)
    requires Separates(digest, c.config, d.config)
    requires i < |Groups(c.config, records)| <= 0x1_0000_0000 && j < |Groups(d.config, records)| <= 0x1_0000_0000
    requires BuildToken(digest, manifest, c.config, c.low, c.high, Index32(i))
          == BuildToken(digest, manifest, d.config, d.low, d.high, Index32(j))
    ensures c.config.adapterVersion == d.config.adapterVersion
    ensures Groups(c.config, records)[i] == Groups(d.config, records)[j]
  {
    TokenTells(digest, manifest, c.config, c.low, c.high, Index32(i), d.config, d.low, d.high, Index32(j));
    SettingsDecide(c.config, d.config, records);
  }

  /**
   * Equal tokens mean equal rows: for plans of the same batch, whatever configurations the two
   * plans were made with, provided the digest tells those configurations apart.
   */
  lemma SameTokenSameRows(digest: Digest, c: Identity, d: Identity, records: seq<Record>, i: nat, j: nat)
    requires Separates(digest, c.config, d.config)
    requires Planned(digest, c, records).Ok? && i < |Planned(digest, c, records).value| <= 0x1_0000_0000
    requires Planned(digest, d, records).Ok? && j < |Planned(digest, d, records).value| <= 0x1_0000_0000
    requires Planned(digest, c, records).value[i].token == Planned(digest, d, records).value[j].token
    ensures Planned(digest, c, records).value[i].rows == Planned(digest, d, records).value[j].rows
  {
    PlannedToken(digest, c, records, i);
    PlannedToken(digest, d, records, j);
    SameTokenSameGroup(digest, Sorted(records)[0].source.manifestPath, c, d, records, i, j);
  }

  /** A planned chunk always serializes, and its bytes give back the column names, types and rows. */
  lemma PlannedChunkRoundTrip(digest: Digest, id: Identity, records: seq<Record>, i: nat)
    requires Planned(digest, id, records).Ok? && i < |Planned(digest, id, records).value|
    ensures var rows := Planned(digest, id, records).value[i].rows;
            && Serialized(TypeForColumn, COLUMNS, rows).Ok?
            && DecodeChunk(Serialized(TypeForColumn, COLUMNS, rows).value)
            == Some(Decoded(NameTexts(COLUMNS), COLUMN_TYPES, rows))
  {
    PlannedToken(digest, id, records, i);
    GroupRoundTrip(Groups(id.config, records)[i], id.config.adapterVersion);
  }

  predicate AllTyped(rows: seq<Row>, types: seq<ColumnType>) {
    forall i :: 0 <= i < |rows| ==> WellTyped(rows[i], types)
  }

  lemma {:induction false} RowsTyped(group: seq<Record>, version: u32, types: seq<ColumnType>)
    requires types == COLUMN_TYPES
    ensures AllTyped(RowsOf(group, version), types)
  {
    forall k | 0 <= k < |group| ensures WellTyped(RowsOf(group, version)[k], types) {
      LogRowTyped(group[k], version);
    }
  }

  lemma GroupRoundTrip(group: seq<Record>, version: u32)
    ensures var rows := RowsOf(group, version);
            && Serialized(TypeForColumn, COLUMNS, rows).Ok?
            && DecodeChunk(Serialized(TypeForColumn, COLUMNS, rows).value)
            == Some(Decoded(NameTexts(COLUMNS), COLUMN_TYPES, rows))
  {
    RowsTyped(group, version, COLUMN_TYPES);
    LogRowsRoundTrip(RowsOf(group, version));
  }
}
