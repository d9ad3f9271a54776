/**
 * The log adapter's plan: sort, check the manifest, chunk greedily, and give every chunk its
 * deterministic token.
 */
module Planner {
  import opened Prelude
  import opened Sequences
  import opened Rows
  import opened Token
  import opened Logs
  import opened Chunker
  import opened Sorting

  /** One planned insert; its column list is always the log adapter's. */
  datatype InsertChunk = InsertChunk(
    database: Text,
    table: Text,
    rows: seq<Row>,
    insertQuorum: Option<Text>,
    token: Text,
    applyToken: bool,
    index: u32)

  datatype PlanError = MixedManifests

  /** What identifies a commit: the adapter's configuration and the committed range. */
  datatype Identity = Identity(config: AdapterConfig, low: u64, high: u64)

  function BoundsOf(c: AdapterConfig): Bounds {
    Bounds(Max(c.maxChunkRows, 1), Max(c.maxChunkBytes, 1))
  }

  function RowsOf(records: seq<Record>, version: u32): (r: seq<Row>)
    ensures |r| == |records| && forall i :: 0 <= i < |records| ==> r[i] == LogRow(records[i], version)
  {
    if records == [] then []
    else RowsOf(records[..|records| - 1], version) + [LogRow(records[|records| - 1], version)]
  }

  /** The chunk counter is 32 bits wide. */
  function Index32(i: nat): u32 {
    i % 0x1_0000_0000
  }

  /** Makes the chunk of a group of records and its index. */
  type Emitter = (seq<Record>, u32) -> InsertChunk

  function Emit(digest: Digest, manifest: Text, id: Identity): Emitter {
    (group: seq<Record>, index: u32) =>
      InsertChunk(id.config.database, id.config.table, RowsOf(group, id.config.adapterVersion),
                  id.config.insertQuorum, BuildToken(digest, manifest, id.config, id.low, id.high, index),
                  id.config.applyToken, index)
  }

  function EmitAll(emit: Emitter, groups: seq<seq<Record>>): (r: seq<InsertChunk>)
    ensures |r| == |groups| && forall i :: 0 <= i < |groups| ==> r[i] == emit(groups[i], Index32(i))
  {
    if groups == [] then []
    else EmitAll(emit, groups[..|groups| - 1]) + [emit(groups[|groups| - 1], Index32(|groups| - 1))]
  }

  predicate OneManifest(records: seq<Record>, manifest: Text) {
    forall i :: 0 <= i < |records| ==> records[i].source.manifestPath == manifest
  }

  /** The groups of records that share a chunk. */
  function Groups(c: AdapterConfig, records: seq<Record>): seq<seq<Record>> {
    Greedy(BoundsOf(c), ApproxSize, [], Sorted(records))
  }

  function Planned(digest: Digest, id: Identity, records: seq<Record>): Result<seq<InsertChunk>, PlanError> {
    var s := Sorted(records);
    if s == [] then Ok([])
    else if !OneManifest(s, s[0].source.manifestPath) then Err(MixedManifests)
    else Ok(EmitAll(Emit(digest, s[0].source.manifestPath, id), Groups(id.config, records)))
  }

  // ---------------------------------------------------------------------
  // The loops
  // ---------------------------------------------------------------------

  method CheckManifests(records: seq<Record>, manifest: Text) returns (ok: bool)
    ensures ok == OneManifest(records, manifest)
  {
    for i := 0 to |records|
      invariant forall k :: 0 <= k < i ==> records[k].source.manifestPath == manifest
    {
      if records[i].source.manifestPath != manifest {
        return false;
      }
    }
    return true;
  }

  /** What the loop has done and what is left of it add up to the greedy chunks. */
  ghost predicate Underway(b: Bounds, size: Record -> nat, done: seq<seq<Record>>, current: seq<Record>,
                           rest: seq<Record>, all: seq<Record>) {
    done + Greedy(b, size, current, rest) == Greedy(b, size, [], all)
  }

  lemma Flush(b: Bounds, size: Record -> nat, done: seq<seq<Record>>, current: seq<Record>,
              rest: seq<Record>, all: seq<Record>)
    requires rest != [] && Underway(b, size, done, current, rest, all) && Flushes(b, size, current, rest[0])
    ensures Underway(b, size, done + [current], [rest[0]], rest[1..], all)
    ensures Total(size, [rest[0]]) == size(rest[0])
  {
    var more := Greedy(b, size, [rest[0]], rest[1..]);
    assert done + ([current] + more) == done + [current] + more;
    TotalSnoc(size, [], rest[0]);
  }

  lemma Gather(b: Bounds, size: Record -> nat, done: seq<seq<Record>>, current: seq<Record>,
               rest: seq<Record>, all: seq<Record>)
    requires rest != [] && Underway(b, size, done, current, rest, all) && !Flushes(b, size, current, rest[0])
    ensures Underway(b, size, done, current + [rest[0]], rest[1..], all)
    ensures Total(size, current + [rest[0]]) == Total(size, current) + size(rest[0])
  {
    TotalSnoc(size, current, rest[0]);
  }

  lemma Finish(b: Bounds, size: Record -> nat, done: seq<seq<Record>>, current: seq<Record>, all: seq<Record>)
    requires Underway(b, size, done, current, [], all)
    ensures Greedy(b, size, [], all) == if current == [] then done else done + [current]
  {
  }

  predicate Emitted(emit: Emitter, done: seq<seq<Record>>, chunks: seq<InsertChunk>, index: u32) {
    chunks == EmitAll(emit, done) && index == Index32(|done|)
  }

  lemma EmitNext(emit: Emitter, done: seq<seq<Record>>, chunks: seq<InsertChunk>, index: u32, group: seq<Record>)
    requires Emitted(emit, done, chunks, index)
    ensures Emitted(emit, done + [group], chunks + [emit(group, index)], (index + 1) % 0x1_0000_0000)
  {
    var all := done + [group];
    assert all[..|all| - 1] == done && all[|all| - 1] == group;
    IndexNext(|done|);
  }

  lemma IndexNext(n: nat)
    ensures Index32(n + 1) == (Index32(n) + 1) % 0x1_0000_0000
  {
  }

  /** The planner's loop over `current`, its bytes, the chunk index and the finished chunks. */
  method EmitChunks(emit: Emitter, b: Bounds, size: Record -> nat, records: seq<Record>)
      returns (chunks: seq<InsertChunk>)
    ensures chunks == EmitAll(emit, Greedy(b, size, [], records))
  {
    ghost var done: seq<seq<Record>> := [];
    chunks := [];
    var current: seq<Record> := [];
    var currentBytes := 0;
    var chunkIndex: u32 := 0;
    var i := 0;
    while i < |records|
      invariant 0 <= i <= |records| && currentBytes == Total(size, current)
      invariant Underway(b, size, done, current, records[i..], records)
      invariant Emitted(emit, done, chunks, chunkIndex)
    {
      var record := records[i];
      var recBytes := size(record);
      assert records[i..][0] == record && records[i..][1..] == records[i + 1..];
      if current != [] && (|current| + 1 > b.rows || currentBytes + recBytes > b.bytes) {
        Flush(b, size, done, current, records[i..], records);
        EmitNext(emit, done, chunks, chunkIndex, current);
        chunks := chunks + [emit(current, chunkIndex)];
        done := done + [current];
        chunkIndex := (chunkIndex + 1) % 0x1_0000_0000;
        current := [record];
        currentBytes := recBytes;
      } else {
        Gather(b, size, done, current, records[i..], records);
        current := current + [record];
        currentBytes := currentBytes + recBytes;
      }
      i := i + 1;
    }
    Finish(b, size, done, current, records);
    if current != [] {
      EmitNext(emit, done, chunks, chunkIndex, current);
      chunks := chunks + [emit(current, chunkIndex)];
    }
  }

  /** The plan; the sort itself is the library's stable sort. */
  method Plan(digest: Digest, id: Identity, records: seq<Record>) returns (r: Result<seq<InsertChunk>, PlanError>)
    ensures r == Planned(digest, id, records)
  {
    var sorted := Sorted(records);
    if sorted == [] {
      return Ok([]);
    }
    var manifest := sorted[0].source.manifestPath;
    var ok := CheckManifests(sorted, manifest);
    if !ok {
      return Err(MixedManifests);
    }
    var chunks := EmitChunks(Emit(digest, manifest, id), BoundsOf(id.config), ApproxSize, sorted);
    return Ok(chunks);
  }
}
