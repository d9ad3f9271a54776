/**
 * Decoder, planner, tokens and pipeline put together: one buffer feed, decoded and planned by the
 * log adapter under any of a family of configurations, reaches the table exactly once.
 */
module Composition {
  import opened Prelude
  import opened Rows
  import opened Token
  import opened Logs
  import opened Sorting
  import opened Planner
  import opened PlannerTheorems
  import opened SourceEntries
  import opened Coordinates
  import opened Decode
  import opened Pipeline
  import opened PipelineSafety
  import opened PipelineTheorems

  /**
   * A buffer's batches by sequence, read from one manifest, whether they decode or not, and the
   * configurations the adapter has had over time. `key` is the attribute that names the service,
   * `version` the adapter version.
   */
  datatype Feed = Feed(
    origin: u64,
    manifest: Text,
    key: Text,
    version: u32,
    digest: Digest,
    configs: set<AdapterConfig>,
    batch: u64 -> Batch)

  /** The batch decodes; one that does not is a fatal error for the process that meets it. */
  predicate Decodes(feed: Feed, q: u64) {
    var b := feed.batch(q);
    Parsed(b) && Decoded(b, feed.key, |b.entries|).Ok?
  }

  function Decodable(feed: Feed, q: u64): seq<Record>
    requires Decodes(feed, q)
  {
    Records(feed.batch(q), feed.key)
  }

  /** No 32-bit number runs over: those of entries and records, and the chunk index of any plan. */
  predicate Numbers(feed: Feed, q: u64)
    requires Decodes(feed, q)
  {
    var b := feed.batch(q);
    && Countable(Parts(b, feed.key, |b.entries|)) && IndicesApart(Parts(b, feed.key, |b.entries|), Indices(b))
    && forall c :: c in feed.configs ==> |Groups(c, Decodable(feed, q))| <= 0x1_0000_0000
  }

  /** Batches as the source splits them number themselves, if entries, leaves and chunks stay within 2^32. */
  lemma SplitNumbers(feed: Feed, q: u64, payloads: seq<Text>, ranges: seq<RangeMetadata>)
    requires Decodes(feed, q) && AsSplit(feed.batch(q), payloads, ranges) && SmallEntries(feed.batch(q), feed.key)
    requires forall c :: c in feed.configs ==> |Groups(c, Decodable(feed, q))| <= 0x1_0000_0000
    ensures Numbers(feed, q)
  {
    var b := feed.batch(q);
    SplitRises(b, payloads, ranges, Parts(b, feed.key, |b.entries|));
    PartSizes(b, feed.key);
  }

  /** Every batch carries its own sequence and manifest, and the digest tells the configurations apart. */
  ghost predicate Good(feed: Feed) {
    && (forall q: u64 :: feed.batch(q).sequence == q && feed.batch(q).manifestPath == feed.manifest)
    && (forall q: u64 :: Decodes(feed, q) ==> Numbers(feed, q))
    && (forall c, d :: c in feed.configs && d in feed.configs ==> Separates(feed.digest, c, d))
    && (forall c :: c in feed.configs ==> c.adapterVersion == feed.version)
  }

  /** A feed whose batches the source has split is good if nothing in it outgrows 2^32. */
  lemma SplitFeedGood(feed: Feed, payloads: u64 -> seq<Text>, ranges: u64 -> seq<RangeMetadata>)
    requires forall q: u64 :: feed.batch(q).sequence == q && feed.batch(q).manifestPath == feed.manifest
    requires forall q: u64 :: AsSplit(feed.batch(q), payloads(q), ranges(q))
    requires forall q: u64 :: Decodes(feed, q) ==> SmallEntries(feed.batch(q), feed.key)
    requires forall q: u64, c :: Decodes(feed, q) && c in feed.configs ==>
               |Groups(c, Decodable(feed, q))| <= 0x1_0000_0000
    requires forall c, d :: c in feed.configs && d in feed.configs ==> Separates(feed.digest, c, d)
    requires forall c :: c in feed.configs ==> c.adapterVersion == feed.version
    ensures Good(feed)
  {
    forall q: u64 | Decodes(feed, q) ensures Numbers(feed, q) {
      SplitNumbers(feed, q, payloads(q), ranges(q));
    }
  }

  /** The records of a batch that decodes: distinct, and of this sequence and manifest. */
  lemma FeedRecords(feed: Feed, q: u64)
    requires Good(feed) && Decodes(feed, q)
    ensures DistinctCoordinates(Decodable(feed, q))
    ensures forall r :: r in Decodable(feed, q) ==> r.source.sequence == q && r.source.manifestPath == feed.manifest
  {
    assert Numbers(feed, q);
    CoordinatesDistinct(feed.batch(q), feed.key);
    DecodedFromBatch(feed.batch(q), feed.key);
  }

  // ---------------------------------------------------------------------
  // Plans
  // ---------------------------------------------------------------------

  function Chunks(feed: Feed, c: AdapterConfig, q: u64): Result<seq<InsertChunk>, PlanError>
    requires Decodes(feed, q)
  {
    Planned(feed.digest, Identity(c, q, q), Decodable(feed, q))
  }

  lemma SortedMembers(records: seq<Record>, r: Record)
    ensures r in Sorted(records) <==> r in records
  {
    SortedOrders(records);
    assert r in Sorted(records) <==> r in multiset(Sorted(records));
    assert r in records <==> r in multiset(records);
  }

  /** Every batch that decodes plans, with all chunks named after the manifest. */
  lemma FeedPlans(feed: Feed, c: AdapterConfig, q: u64)
    requires Good(feed) && Decodes(feed, q) && c in feed.configs
    ensures Chunks(feed, c, q).Ok? && |Chunks(feed, c, q).value| <= 0x1_0000_0000
    ensures Chunks(feed, c, q).value != [] ==>
              Sorted(Decodable(feed, q)) != [] && Sorted(Decodable(feed, q))[0].source.manifestPath == feed.manifest
  {
    var id, records := Identity(c, q, q), Decodable(feed, q);
    FeedRecords(feed, q);
    PlanFails(feed.digest, id, records);
    if Chunks(feed, c, q).value != [] {
      PlannedToken(feed.digest, id, records, 0);
      SortedMembers(records, Sorted(records)[0]);
      assert Numbers(feed, q);
    }
  }

  function Sendable(chunks: seq<InsertChunk>): (r: seq<Chunk>)
    ensures |r| == |chunks|
    ensures forall i :: 0 <= i < |chunks| ==> r[i] == Chunk(chunks[i].rows, chunks[i].token, chunks[i].applyToken)
  {
    if chunks == [] then []
    else
      var last := chunks[|chunks| - 1];
      Sendable(chunks[..|chunks| - 1]) + [Chunk(last.rows, last.token, last.applyToken)]
  }

  ghost function DecodesFor(feed: Feed): nat -> bool {
    (q: nat) => q <= U64_MAX && Decodes(feed, q)
  }

  /** The plan of the running adapter, for every sequence that decodes. */
  ghost function PlanFor(feed: Feed, c: AdapterConfig): nat -> seq<Chunk> {
    (q: nat) =>
      if q <= U64_MAX && Decodes(feed, q) && Chunks(feed, c, q).Ok? then Sendable(Chunks(feed, c, q).value) else []
  }

  ghost function RowsFor(feed: Feed): nat -> seq<Row> {
    (q: nat) => if q <= U64_MAX && Decodes(feed, q) then RowsOf(Sorted(Decodable(feed, q)), feed.version) else []
  }

  // ---------------------------------------------------------------------
  // Tokens
  // ---------------------------------------------------------------------

  /** `token` is the token of chunk `i` of the plan of sequence `q`. */
  ghost predicate Names(feed: Feed, c: AdapterConfig, q: u64, i: nat, token: Text) {
    && c in feed.configs && Decodes(feed, q) && Chunks(feed, c, q).Ok? && i < |Chunks(feed, c, q).value|
    && Chunks(feed, c, q).value[i].token == token
  }

  ghost predicate NamedRows(feed: Feed, token: Text, rows: seq<Row>) {
    exists c: AdapterConfig, q: u64, i: nat :: Names(feed, c, q, i, token) && rows == Chunks(feed, c, q).value[i].rows
  }

  /** The rows of a chunk with that token. */
  ghost function Meaning(feed: Feed, token: Text): (r: seq<Row>)
    ensures (exists rows :: NamedRows(feed, token, rows)) ==> NamedRows(feed, token, r)
  {
    if exists rows :: NamedRows(feed, token, rows) then
      var rows :| NamedRows(feed, token, rows);
      rows
    else []
  }

  /** Whatever two plans, of whatever sequences and configurations: equal tokens, equal rows. */
  lemma NamesAgree(feed: Feed, c: AdapterConfig, q: u64, i: nat, d: AdapterConfig, p: u64, j: nat, token: Text)
    requires Good(feed) && Names(feed, c, q, i, token) && Names(feed, d, p, j, token)
    ensures Chunks(feed, c, q).value[i].rows == Chunks(feed, d, p).value[j].rows
  {
    FeedPlans(feed, c, q);
    FeedPlans(feed, d, p);
    SameSequence(feed, c, q, i, d, p, j, token);
    SameTokenSameRows(feed.digest, Identity(c, q, q), Identity(d, q, q), Decodable(feed, q), i, j);
  }

  lemma SameSequence(feed: Feed, c: AdapterConfig, q: u64, i: nat, d: AdapterConfig, p: u64, j: nat, token: Text)
    requires Good(feed) && Names(feed, c, q, i, token) && Names(feed, d, p, j, token)
    ensures q == p
  {
    FeedPlans(feed, c, q);
    FeedPlans(feed, d, p);
    PlannedToken(feed.digest, Identity(c, q, q), Decodable(feed, q), i);
    PlannedToken(feed.digest, Identity(d, p, p), Decodable(feed, p), j);
    TokenTells(feed.digest, feed.manifest, c, q, q, Index32(i), d, p, p, Index32(j));
  }

  lemma MeaningRight(feed: Feed, c: AdapterConfig, q: u64, i: nat, token: Text)
    requires Good(feed) && Names(feed, c, q, i, token)
    ensures Meaning(feed, token) == Chunks(feed, c, q).value[i].rows
  {
    assert NamedRows(feed, token, Chunks(feed, c, q).value[i].rows);
    var d: AdapterConfig, p: u64, j: nat :|
      Names(feed, d, p, j, token) && Meaning(feed, token) == Chunks(feed, d, p).value[j].rows;
    NamesAgree(feed, c, q, i, d, p, j, token);
  }

  ghost function WorldOf(feed: Feed): World
    requires Good(feed)
  {
    World(feed.origin, DecodesFor(feed), RowsFor(feed), token => Meaning(feed, token))
  }

  // ---------------------------------------------------------------------
  // The pipeline's assumptions hold
  // ---------------------------------------------------------------------

  lemma SendableRows(chunks: seq<InsertChunk>)
    ensures ChunkRows(Sendable(chunks)) == PlanRows(chunks)
  {
  }

  lemma FeedCovers(feed: Feed, c: AdapterConfig, q: u64)
    requires Good(feed) && c in feed.configs && Decodes(feed, q)
    ensures PlanCovers(WorldOf(feed), PlanFor(feed, c)(q), q)
  {
    FeedPlans(feed, c, q);
    var chunks := Chunks(feed, c, q).value;
    SendableRows(chunks);
    PlanCoversRecords(feed.digest, Identity(c, q, q), Decodable(feed, q));
    forall i | 0 <= i < |chunks| ensures Meaning(feed, chunks[i].token) == chunks[i].rows {
      assert Names(feed, c, q, i, chunks[i].token);
      MeaningRight(feed, c, q, i, chunks[i].token);
    }
  }

  /** Options with positive sizes, the decoder, and the plan under any configuration of the family are valid. */
  lemma FeedOptionsValid(feed: Feed, c: AdapterConfig, o: Options)
    requires Good(feed) && c in feed.configs && o.plan == PlanFor(feed, c) && o.decodes == DecodesFor(feed)
    requires o.maxInflight >= 1 && o.fetchers >= 1 && o.decoders >= 1 && o.writers >= 1 && o.perPoll >= 1
    ensures ValidOptions(WorldOf(feed), o)
  {
    forall q: nat | WorldOf(feed).decodes(q) ensures PlanCovers(WorldOf(feed), o.plan(q), q) {
      FeedCovers(feed, c, q);
    }
  }

  /** Rows of the feed with equal coordinates are equal. */
  lemma FeedKeysTell(feed: Feed)
    requires Good(feed)
    ensures KeysTell(WorldOf(feed))
  {
    var w := WorldOf(feed);
    forall q: nat, p: nat, r, s |
      w.decodes(q) && w.decodes(p) && r in w.rows(q) && s in w.rows(p) && RowKey(r) == RowKey(s)
      ensures r == s
    {
      SameKeySameRow(feed, q, p, r, s);
    }
  }

  lemma SameKeySameRow(feed: Feed, q: u64, p: u64, r: Row, s: Row)
    requires Good(feed) && Decodes(feed, q) && Decodes(feed, p)
    requires r in RowsFor(feed)(q) && s in RowsFor(feed)(p) && RowKey(r) == RowKey(s)
    ensures r == s
  {
    var a := RowRecord(feed, q, r);
    var b := RowRecord(feed, p, s);
    MembersDiffer(Decodable(feed, q), a, b);
  }

  /** The row is that of record `r` of batch `q`. */
  predicate MadeOf(feed: Feed, q: u64, r: Record, row: Row) {
    match r
    case Record(_, _, _, _, _, _, _, _, _, _, _, _) =>
      Decodes(feed, q) && r in Decodable(feed, q) && row == LogRow(r, feed.version)
  }

  lemma RowIndex(records: seq<Record>, version: u32, row: Row) returns (a: Record)
    requires row in RowsOf(records, version)
    ensures a in records && row == LogRow(a, version)
  {
    var i :| 0 <= i < |records| && RowsOf(records, version)[i] == row;
    a := records[i];
  }

  /** The record a row was made of. */
  lemma RowRecord(feed: Feed, q: u64, row: Row) returns (a: Record)
    requires Good(feed) && Decodes(feed, q) && row in RowsFor(feed)(q)
    ensures MadeOf(feed, q, a, row)
    ensures RowKey(row) == KeyOf(a) && a.source.sequence == q && DistinctCoordinates(Decodable(feed, q))
  {
    FeedRecords(feed, q);
    a := RowIndex(Sorted(Decodable(feed, q)), feed.version, row);
    SortedMembers(Decodable(feed, q), a);
    LogRowTyped(a, feed.version);
  }

  lemma RecordRow(feed: Feed, q: u64, r: Record)
    requires Decodes(feed, q) && r in Decodable(feed, q)
    ensures LogRow(r, feed.version) in RowsFor(feed)(q)
  {
    var sorted := Sorted(Decodable(feed, q));
    SortedMembers(Decodable(feed, q), r);
    var i :| 0 <= i < |sorted| && sorted[i] == r;
    assert RowsOf(sorted, feed.version)[i] == LogRow(r, feed.version);
  }

  ghost predicate FeedRow(feed: Feed, row: Row) {
    exists q: u64, r :: MadeOf(feed, q, r, row)
  }

  /** The table, deduplicated by coordinates, has each record's row of a batch that decodes exactly once. */
  ghost predicate HoldsOnce(feed: Feed, table: seq<Row>, q: u64) {
    && Decodes(feed, q)
    && forall r :: r in Decodable(feed, q) ==> multiset(Collapse(table))[LogRow(r, feed.version)] == 1
  }

  /**
   * Over every run of the pipeline on the feed, with any crashes, restarts under any configuration
   * of the family, retries, ambiguous and late writes, and batches that do not decode: every
   * durably acked batch decodes; reading the table deduplicated by source coordinates gives the row
   * of every record of every such batch exactly once; and every row there is the row of some record
   * of some batch.
   */
  lemma FeedExactlyOnce(feed: Feed, events: seq<Pipeline.Event>, s: State)
    requires Good(feed) && Reaches(WorldOf(feed), events, s)
    ensures s.durable.Some? ==> forall q: u64 :: feed.origin <= q <= s.durable.value ==> HoldsOnce(feed, s.table, q)
    ensures forall row :: row in Collapse(s.table) ==> multiset(Collapse(s.table))[row] == 1 && FeedRow(feed, row)
  {
    FeedKeysTell(feed);
    ExactlyOnce(WorldOf(feed), events, s);
    if s.durable.Some? {
      forall q: u64 | feed.origin <= q <= s.durable.value ensures HoldsOnce(feed, s.table, q) {
        FeedAcked(feed, events, s, q);
      }
    }
    forall row | row in Collapse(s.table) ensures multiset(Collapse(s.table))[row] == 1 && FeedRow(feed, row) {
      SourceFeedRow(feed, row);
    }
  }

  lemma SourceFeedRow(feed: Feed, row: Row)
    requires Good(feed) && IsSourceRow(WorldOf(feed), row)
    ensures FeedRow(feed, row)
  {
    var q := SourceOf(WorldOf(feed), row);
    BatchFeedRow(feed, q, row);
  }

  lemma SourceOf(w: World, row: Row) returns (q: nat)
    requires IsSourceRow(w, row)
    ensures w.decodes(q) && row in w.rows(q)
  {
    q :| w.decodes(q) && row in w.rows(q);
  }

  lemma BatchFeedRow(feed: Feed, q: u64, row: Row)
    requires Good(feed) && Decodes(feed, q) && row in RowsFor(feed)(q)
    ensures FeedRow(feed, row)
  {
    var a := RowRecord(feed, q, row);
  }

  lemma FeedAcked(feed: Feed, events: seq<Pipeline.Event>, s: State, q: u64)
    requires Good(feed) && Reaches(WorldOf(feed), events, s) && KeysTell(WorldOf(feed))
    requires s.durable.Some? && feed.origin <= q <= s.durable.value
    ensures HoldsOnce(feed, s.table, q)
  {
    var w := WorldOf(feed);
    ExactlyOnce(w, events, s);
    AckedDecodes(w, events, s, q);
    forall r | r in Decodable(feed, q) ensures multiset(Collapse(s.table))[LogRow(r, feed.version)] == 1 {
      RecordRow(feed, q, r);
      assert LogRow(r, feed.version) in w.rows(q);
    }
  }

  /** A batch that does not decode holds the durable ack below it for ever. */
  lemma UndecodableNeverAcked(feed: Feed, events: seq<Pipeline.Event>, s: State, q: u64)
    requires Good(feed) && Reaches(WorldOf(feed), events, s) && feed.origin <= q && !Decodes(feed, q)
    ensures s.durable.None? || s.durable.value < q
  {
    if s.durable.Some? && q <= s.durable.value {
      AckedDecodes(WorldOf(feed), events, s, q);
    }
  }
}
