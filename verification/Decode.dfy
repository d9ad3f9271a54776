/**
 * Flattening decoded OTLP requests into log records with their source coordinates. A request is
 * taken as the tree its protobuf bytes stand for, with attribute values already rendered as text.
 */
module Decode {
  import opened Prelude
  import opened Sequences
  import opened Rows
  import opened Decimals
  import opened Logs
  import opened Sorting
  import opened SourceEntries
  import opened Coordinates

  /** An attribute; one without a value is skipped. */
  datatype KeyValue = KeyValue(key: Text, value: Option<Text>)

  datatype LogLeaf = LogLeaf(
    time: u64,
    observed: u64,
    severityNumber: i32,
    severityText: Text,
    body: Text,
    attributes: seq<KeyValue>,
    traceIdHex: Text,
    spanIdHex: Text)

  datatype Scope = Scope(name: Text, attributes: seq<KeyValue>)

  datatype ScopeLogs = ScopeLogs(scope: Option<Scope>, records: seq<LogLeaf>)

  datatype ResourceLogs = ResourceLogs(resource: Option<seq<KeyValue>>, scopes: seq<ScopeLogs>)

  type Request = seq<ResourceLogs>

  /** A batch whose entries have been parsed; `None` where the bytes are not a request. */
  datatype Batch = Batch(
    sequence: u64,
    manifestPath: Text,
    dataPath: Text,
    entries: seq<SourceEntry>,
    requests: seq<Option<Request>>)

  datatype DecodeError = BadEntry(sequence: u64, entry: u32)

  // ---------------------------------------------------------------------
  // Attribute maps
  // ---------------------------------------------------------------------

  /** Insert into a key-ordered map, replacing an old value. */
  function Insert(m: seq<(Text, Text)>, key: Text, value: Text): seq<(Text, Text)> {
    if m == [] || Before(key, m[0].0) then [(key, value)] + m
    else if m[0].0 == key then [(key, value)] + m[1..]
    else [m[0]] + Insert(m[1..], key, value)
  }

  predicate KeyOrdered(m: seq<(Text, Text)>) {
    forall i, j :: 0 <= i < j < |m| ==> Before(m[i].0, m[j].0)
  }

  function Merged(m: seq<(Text, Text)>, attributes: seq<KeyValue>): seq<(Text, Text)> {
    if attributes == [] then m
    else
      var last := attributes[|attributes| - 1];
      var before := Merged(m, attributes[..|attributes| - 1]);
      match last.value
      case Some(v) => Insert(before, last.key, v)
      case None => before
  }

  /** The last value the attribute `key` is given. */
  function LastValue(attributes: seq<KeyValue>, key: Text): Option<Text> {
    if attributes == [] then None
    else
      var last := attributes[|attributes| - 1];
      if last.key == key && last.value.Some? then last.value else LastValue(attributes[..|attributes| - 1], key)
  }

  method MergeAttributes(m: seq<(Text, Text)>, attributes: seq<KeyValue>) returns (r: seq<(Text, Text)>)
    ensures r == Merged(m, attributes)
  {
    r := m;
    for i := 0 to |attributes|
      invariant r == Merged(m, attributes[..i])
    {
      assert attributes[..i + 1][..i] == attributes[..i];
      match attributes[i].value {
        case Some(v) => r := Insert(r, attributes[i].key, v);
        case None =>
      }
    }
    assert attributes[..|attributes|] == attributes;
  }

  method ReadResource(attributes: seq<KeyValue>, key: Text) returns (m: seq<(Text, Text)>, name: Option<Text>)
    ensures m == Merged([], attributes) && name == LastValue(attributes, key)
  {
    m, name := [], None;
    for i := 0 to |attributes|
      invariant m == Merged([], attributes[..i]) && name == LastValue(attributes[..i], key)
    {
      assert attributes[..i + 1][..i] == attributes[..i];
      match attributes[i].value {
        case Some(v) =>
          if attributes[i].key == key {
            name := Some(v);
          }
          m := Insert(m, attributes[i].key, v);
        case None =>
      }
    }
    assert attributes[..|attributes|] == attributes;
  }

  // ---------------------------------------------------------------------
  // Leaves and records
  // ---------------------------------------------------------------------

  /** A log record with everything it inherits from the nodes above it. */
  datatype Leaf = Leaf(resource: seq<(Text, Text)>, serviceName: Option<Text>, scope: Option<Scope>, log: LogLeaf)

  function ResourceAttributes(r: ResourceLogs): seq<KeyValue> {
    match r.resource
    case Some(attributes) => attributes
    case None => []
  }

  function ScopeAttributes(scope: Option<Scope>): seq<KeyValue> {
    match scope
    case Some(s) => s.attributes
    case None => []
  }

  function ScopeName(scope: Option<Scope>): Option<Text> {
    match scope
    case Some(s) => Some(s.name)
    case None => None
  }

  function ScopeLeaves(resource: seq<(Text, Text)>, serviceName: Option<Text>, s: ScopeLogs): (r: seq<Leaf>)
    ensures |r| == |s.records|
    ensures forall i :: 0 <= i < |r| ==> r[i] == Leaf(resource, serviceName, s.scope, s.records[i])
  {
    seq(|s.records|, i requires 0 <= i < |s.records| => Leaf(resource, serviceName, s.scope, s.records[i]))
  }

  /** The leaves under one resource, scope by scope. */
  function UnderScopes(resource: seq<(Text, Text)>, serviceName: Option<Text>, scopes: seq<ScopeLogs>): seq<Leaf> {
    if scopes == [] then []
    else
      UnderScopes(resource, serviceName, scopes[..|scopes| - 1])
      + ScopeLeaves(resource, serviceName, scopes[|scopes| - 1])
  }

  function ResourceLeaves(r: ResourceLogs, key: Text): seq<Leaf> {
    UnderScopes(Merged([], ResourceAttributes(r)), LastValue(ResourceAttributes(r), key), r.scopes)
  }

  /** All leaves of a request, left to right. */
  function Leaves(request: Request, key: Text): seq<Leaf> {
    if request == [] then []
    else Leaves(request[..|request| - 1], key) + ResourceLeaves(request[|request| - 1], key)
  }

  /** Where a record comes from. */
  datatype Origin = Origin(sequence: u64, manifestPath: Text, dataPath: Text, entry: SourceEntry)

  function MakeRecord(o: Origin, leaf: Leaf, index: u32): Record {
    Record(Source(o.sequence, o.entry.index, index, o.manifestPath, o.dataPath, o.entry.ingestionTimeMs),
           leaf.log.time, leaf.log.observed, leaf.log.severityNumber, leaf.log.severityText, leaf.log.body,
           leaf.serviceName, leaf.resource, ScopeName(leaf.scope),
           Merged(Merged([], leaf.log.attributes), ScopeAttributes(leaf.scope)),
           leaf.log.traceIdHex, leaf.log.spanIdHex)
  }

  /** How a leaf and its number become a record. */
  type Maker = (Leaf, u32) -> Record

  function MakeFrom(o: Origin): Maker {
    (leaf: Leaf, index: u32) => MakeRecord(o, leaf, index)
  }

  /** One record a leaf, numbered from `first` with a 32-bit counter. */
  function Numbered(make: Maker, leaves: seq<Leaf>, first: nat): (r: seq<Record>)
    ensures |r| == |leaves|
    ensures forall i :: 0 <= i < |r| ==> r[i] == make(leaves[i], Truncated(first + i))
  {
    seq(|leaves|, i requires 0 <= i < |leaves| => make(leaves[i], Truncated(first + i)))
  }

  lemma NumberedAppend(make: Maker, a: seq<Leaf>, b: seq<Leaf>, first: nat)
    ensures Numbered(make, a + b, first) == Numbered(make, a, first) + Numbered(make, b, first + |a|)
  {
  }

  // ---------------------------------------------------------------------
  // The nested loops
  // ---------------------------------------------------------------------

  /** The innermost loop: the logs of one scope. */
  method DecodeScope(o: Origin, resource: seq<(Text, Text)>, serviceName: Option<Text>, s: ScopeLogs,
                     ghost done: nat, first: u32)
      returns (records: seq<Record>, next: u32)
    requires first == Truncated(done)
    ensures records == Numbered(MakeFrom(o), ScopeLeaves(resource, serviceName, s), done)
    ensures next == Truncated(done + |s.records|)
  {
    records := [];
    next := first;
    ghost var leaves := ScopeLeaves(resource, serviceName, s);
    for i := 0 to |s.records|
      invariant records == Numbered(MakeFrom(o), leaves[..i], done) && next == Truncated(done + i)
    {
      var log := s.records[i];
      var attributes := MergeAttributes([], log.attributes);
      if s.scope.Some? {
        attributes := MergeAttributes(attributes, s.scope.value.attributes);
      }
      var source := Source(o.sequence, o.entry.index, next, o.manifestPath, o.dataPath, o.entry.ingestionTimeMs);
      var record :=
        Record(source, log.time, log.observed, log.severityNumber, log.severityText, log.body, serviceName, resource,
               ScopeName(s.scope), attributes, log.traceIdHex, log.spanIdHex);
      assert record == MakeRecord(o, leaves[i], Truncated(done + i));
      records := records + [record];
      NumberedNext(MakeFrom(o), leaves, i, done);
      next := (next + 1) % 0x1_0000_0000;
    }
    assert leaves[..|leaves|] == leaves;
  }

  lemma NumberedNext(make: Maker, leaves: seq<Leaf>, i: nat, first: nat)
    requires i < |leaves|
    ensures Numbered(make, leaves[..i + 1], first)
         == Numbered(make, leaves[..i], first) + [make(leaves[i], Truncated(first + i))]
    ensures Truncated(first + (i + 1)) == (Truncated(first + i) + 1) % 0x1_0000_0000
  {
    TruncatedNext(first + i);
  }

  lemma TruncatedNext(n: nat)
    ensures Truncated(n + 1) == (Truncated(n) + 1) % 0x1_0000_0000
  {
  }

  /** One turn of the scope loop. */
  lemma ScopeStep(make: Maker, resource: seq<(Text, Text)>, serviceName: Option<Text>, scopes: seq<ScopeLogs>, i: nat,
                  leaves: seq<Leaf>, done: nat)
    requires i < |scopes| && leaves == UnderScopes(resource, serviceName, scopes[..i])
    ensures leaves + ScopeLeaves(resource, serviceName, scopes[i])
         == UnderScopes(resource, serviceName, scopes[..i + 1])
    ensures Numbered(make, leaves + ScopeLeaves(resource, serviceName, scopes[i]), done)
         == Numbered(make, leaves, done)
            + Numbered(make, ScopeLeaves(resource, serviceName, scopes[i]), done + |leaves|)
  {
    assert scopes[..i + 1][..i] == scopes[..i];
    NumberedAppend(make, leaves, ScopeLeaves(resource, serviceName, scopes[i]), done);
  }

  /** The loop over the scopes of one resource. */
  method DecodeResource(o: Origin, r: ResourceLogs, key: Text, ghost done: nat, first: u32)
      returns (records: seq<Record>, next: u32)
    requires first == Truncated(done)
    ensures records == Numbered(MakeFrom(o), ResourceLeaves(r, key), done)
    ensures next == Truncated(done + |ResourceLeaves(r, key)|)
  {
    var resource, serviceName := ReadResource(ResourceAttributes(r), key);
    records := [];
    next := first;
    ghost var leaves: seq<Leaf> := [];
    for i := 0 to |r.scopes|
      invariant leaves == UnderScopes(resource, serviceName, r.scopes[..i])
      invariant records == Numbered(MakeFrom(o), leaves, done) && next == Truncated(done + |leaves|)
    {
      var added, counter := DecodeScope(o, resource, serviceName, r.scopes[i], done + |leaves|, next);
      ScopeStep(MakeFrom(o), resource, serviceName, r.scopes, i, leaves, done);
      records := records + added;
      next := counter;
      leaves := leaves + ScopeLeaves(resource, serviceName, r.scopes[i]);
    }
    assert r.scopes[..|r.scopes|] == r.scopes;
  }

  /** One turn of the resource loop. */
  lemma ResourceStep(make: Maker, request: Request, key: Text, i: nat, leaves: seq<Leaf>)
    requires i < |request| && leaves == Leaves(request[..i], key)
    ensures leaves + ResourceLeaves(request[i], key) == Leaves(request[..i + 1], key)
    ensures Numbered(make, leaves + ResourceLeaves(request[i], key), 0)
         == Numbered(make, leaves, 0) + Numbered(make, ResourceLeaves(request[i], key), |leaves|)
  {
    assert request[..i + 1][..i] == request[..i];
    NumberedAppend(make, leaves, ResourceLeaves(request[i], key), 0);
  }

  /** One entry: a record for every leaf of its request, numbered from zero. */
  method DecodeEntry(o: Origin, request: Request, key: Text) returns (records: seq<Record>)
    ensures records == Numbered(MakeFrom(o), Leaves(request, key), 0)
  {
    records := [];
    var next: u32 := 0;
    ghost var leaves: seq<Leaf> := [];
    for i := 0 to |request|
      invariant leaves == Leaves(request[..i], key)
      invariant records == Numbered(MakeFrom(o), leaves, 0) && next == Truncated(|leaves|)
    {
      var added, counter := DecodeResource(o, request[i], key, |leaves|, next);
      ResourceStep(MakeFrom(o), request, key, i, leaves);
      records := records + added;
      next := counter;
      leaves := leaves + ResourceLeaves(request[i], key);
    }
    assert request[..|request|] == request;
  }

  // ---------------------------------------------------------------------
  // Batches
  // ---------------------------------------------------------------------

  predicate Parsed(b: Batch) {
    |b.requests| == |b.entries|
  }

  function OriginOf(b: Batch, i: nat): Origin
    requires i < |b.entries|
  {
    Origin(b.sequence, b.manifestPath, b.dataPath, b.entries[i])
  }

  /** The records of the first `n` entries, or the first entry that does not parse. */
  function Decoded(b: Batch, key: Text, n: nat): Result<seq<Record>, DecodeError>
    requires Parsed(b) && n <= |b.entries|
  {
    if n == 0 then Ok([])
    else
      match Decoded(b, key, n - 1)
      case Err(e) => Err(e)
      case Ok(records) =>
        match b.requests[n - 1]
        case None => Err(BadEntry(b.sequence, b.entries[n - 1].index))
        case Some(request) => Ok(records + Numbered(MakeFrom(OriginOf(b, n - 1)), Leaves(request, key), 0))
  }

  lemma {:induction false} ErrorStays(b: Batch, key: Text, n: nat, m: nat)
    requires Parsed(b) && n <= m <= |b.entries| && Decoded(b, key, n).Err?
    ensures Decoded(b, key, m) == Decoded(b, key, n)
  {
    if n < m {
      ErrorStays(b, key, n, m - 1);
    }
  }

  method DecodeLogs(b: Batch, key: Text) returns (r: Result<seq<Record>, DecodeError>)
    requires Parsed(b)
    ensures r == Decoded(b, key, |b.entries|)
  {
    var records: seq<Record> := [];
    for i := 0 to |b.entries|
      invariant Decoded(b, key, i) == Ok(records)
    {
      match b.requests[i] {
        case None =>
          ErrorStays(b, key, i + 1, |b.entries|);
          return Err(BadEntry(b.sequence, b.entries[i].index));
        case Some(request) =>
          var added := DecodeEntry(OriginOf(b, i), request, key);
          records := records + added;
      }
    }
    return Ok(records);
  }

  // ---------------------------------------------------------------------
  // Records entry by entry
  // ---------------------------------------------------------------------

  /** The log records of one entry. */
  function EntryLeaves(b: Batch, key: Text, i: nat): seq<Leaf>
    requires Parsed(b) && i < |b.entries|
  {
    match b.requests[i]
    case Some(request) => Leaves(request, key)
    case None => []
  }

  /** What each entry becomes. */
  function Parts(b: Batch, key: Text, n: nat): (r: seq<seq<Record>>)
    requires Parsed(b) && n <= |b.entries|
    ensures |r| == n
    ensures forall i :: 0 <= i < n ==> r[i] == Numbered(MakeFrom(OriginOf(b, i)), EntryLeaves(b, key, i), 0)
  {
    if n == 0 then []
    else Parts(b, key, n - 1) + [Numbered(MakeFrom(OriginOf(b, n - 1)), EntryLeaves(b, key, n - 1), 0)]
  }

  lemma {:induction false} DecodedParts(b: Batch, key: Text, n: nat)
    requires Parsed(b) && n <= |b.entries| && Decoded(b, key, n).Ok?
    ensures Decoded(b, key, n).value == Flatten(Parts(b, key, n))
  {
    if n > 0 {
      DecodedParts(b, key, n - 1);
      FlattenSnoc(Parts(b, key, n - 1), Numbered(MakeFrom(OriginOf(b, n - 1)), EntryLeaves(b, key, n - 1), 0));
    }
  }

  function Indices(b: Batch): (r: seq<u32>)
    ensures |r| == |b.entries| && forall i :: 0 <= i < |r| ==> r[i] == b.entries[i].index
  {
    seq(|b.entries|, i requires 0 <= i < |b.entries| => b.entries[i].index)
  }

  /** Every record carries the batch's sequence and manifest, its entry's index and its number there. */
  lemma PartsNumbered(b: Batch, key: Text)
    requires Parsed(b)
    ensures Numbering(Parts(b, key, |b.entries|), b.sequence, b.manifestPath, Indices(b))
  {
    var parts := Parts(b, key, |b.entries|);
    forall i, j | 0 <= i < |parts| && 0 <= j < |parts[i]|
      ensures NumberedAs(parts[i][j], b.sequence, b.manifestPath, b.entries[i].index, j)
    {
      assert parts[i][j] == MakeFrom(OriginOf(b, i))(EntryLeaves(b, key, i)[j], Truncated(0 + j));
    }
  }

  function Records(b: Batch, key: Text): seq<Record>
    requires Parsed(b) && Decoded(b, key, |b.entries|).Ok?
  {
    Decoded(b, key, |b.entries|).value
  }

  /** One record for every leaf of every entry. */
  lemma OneRecordALeaf(b: Batch, key: Text)
    requires Parsed(b) && Decoded(b, key, |b.entries|).Ok?
    ensures |Records(b, key)| == Offset(Parts(b, key, |b.entries|), |b.entries|)
    ensures forall i :: 0 <= i < |b.entries| ==> |Parts(b, key, |b.entries|)[i]| == |EntryLeaves(b, key, i)|
  {
    var parts := Parts(b, key, |b.entries|);
    DecodedParts(b, key, |b.entries|);
    FlattenLength(parts, |parts|);
    assert parts[..|parts|] == parts;
  }

  /**
   * The coordinates of a decoded batch are pairwise distinct if and only if the 32-bit record
   * counter can number every entry and no two entries that hold records carry the same index.
   */
  lemma CoordinatesDistinct(b: Batch, key: Text)
    requires Parsed(b) && Decoded(b, key, |b.entries|).Ok?
    ensures DistinctCoordinates(Records(b, key)) <==>
              Countable(Parts(b, key, |b.entries|)) && IndicesApart(Parts(b, key, |b.entries|), Indices(b))
  {
    DecodedParts(b, key, |b.entries|);
    PartsNumbered(b, key);
    PartsDistinct(Parts(b, key, |b.entries|), b.sequence, b.manifestPath, Indices(b));
  }

  /** They strictly increase if and only if, besides, the indices of those entries rise. */
  lemma CoordinatesIncrease(b: Batch, key: Text)
    requires Parsed(b) && Decoded(b, key, |b.entries|).Ok?
    ensures Increasing(Records(b, key)) <==>
              Countable(Parts(b, key, |b.entries|)) && IndicesRise(Parts(b, key, |b.entries|), Indices(b))
  {
    DecodedParts(b, key, |b.entries|);
    PartsNumbered(b, key);
    PartsIncrease(Parts(b, key, |b.entries|), b.sequence, b.manifestPath, Indices(b));
  }

  /** The entries are those the source splits the payloads into, and a 32-bit index can count them. */
  predicate AsSplit(b: Batch, payloads: seq<Text>, ranges: seq<RangeMetadata>) {
    && |b.entries| == |payloads| <= 0x1_0000_0000
    && forall i :: 0 <= i < |payloads| ==> b.entries[i] == EntryAt(ranges, payloads[i], i)
  }

  lemma SplitIndices(b: Batch, payloads: seq<Text>, ranges: seq<RangeMetadata>)
    requires AsSplit(b, payloads, ranges)
    ensures forall i :: 0 <= i < |b.entries| ==> b.entries[i].index == i
  {
    forall i | 0 <= i < |b.entries| ensures b.entries[i].index == i {
      assert b.entries[i] == EntryAt(ranges, payloads[i], i);
    }
  }

  /** Entries as the source splits them carry rising indices. */
  lemma SplitRises(b: Batch, payloads: seq<Text>, ranges: seq<RangeMetadata>, parts: seq<seq<Record>>)
    requires AsSplit(b, payloads, ranges) && |parts| == |b.entries|
    ensures IndicesRise(parts, Indices(b)) && IndicesApart(parts, Indices(b))
  {
    SplitIndices(b, payloads, ranges);
  }

  predicate SmallEntries(b: Batch, key: Text)
    requires Parsed(b)
  {
    forall i :: 0 <= i < |b.entries| ==> |EntryLeaves(b, key, i)| <= 0x1_0000_0000
  }

  /**
   * A batch as the source splits it decodes to strictly increasing coordinates if and only if no
   * entry has more than 2^32 leaves; and then the planner's sort leaves the records as they are.
   */
  lemma SplitDecodesInOrder(b: Batch, key: Text, payloads: seq<Text>, ranges: seq<RangeMetadata>)
    requires Parsed(b) && Decoded(b, key, |b.entries|).Ok? && AsSplit(b, payloads, ranges)
    ensures Increasing(Records(b, key)) <==> SmallEntries(b, key)
    ensures SmallEntries(b, key) ==> Sorted(Records(b, key)) == Records(b, key) && DistinctCoordinates(Records(b, key))
  {
    var parts := Parts(b, key, |b.entries|);
    SplitRises(b, payloads, ranges, parts);
    CoordinatesIncrease(b, key);
    PartSizes(b, key);
    if SmallEntries(b, key) {
      DecoderOrders(b, key);
    }
  }

  lemma PartSizes(b: Batch, key: Text)
    requires Parsed(b)
    ensures Countable(Parts(b, key, |b.entries|)) <==> SmallEntries(b, key)
  {
    var parts := Parts(b, key, |b.entries|);
    assert forall i :: 0 <= i < |b.entries| ==> |parts[i]| == |EntryLeaves(b, key, i)|;
  }

  /** All records carry the batch's own sequence and manifest. */
  lemma DecodedFromBatch(b: Batch, key: Text)
    requires Parsed(b) && Decoded(b, key, |b.entries|).Ok?
    ensures forall r :: r in Records(b, key) ==>
              r.source.sequence == b.sequence && r.source.manifestPath == b.manifestPath
  {
    var parts := Parts(b, key, |b.entries|);
    DecodedParts(b, key, |b.entries|);
    PartsNumbered(b, key);
    forall r | r in Records(b, key) ensures r.source.sequence == b.sequence && r.source.manifestPath == b.manifestPath {
      var i := FlattenSource(parts, r);
      var j :| 0 <= j < |parts[i]| && parts[i][j] == r;
      assert NumberedAs(parts[i][j], b.sequence, b.manifestPath, Indices(b)[i], j);
    }
  }

  /** Where the coordinates strictly increase the planner's sort leaves the decoder's output as it is. */
  lemma DecoderOrders(b: Batch, key: Text)
    requires Parsed(b) && Decoded(b, key, |b.entries|).Ok? && Increasing(Records(b, key))
    ensures Sorted(Records(b, key)) == Records(b, key) && DistinctCoordinates(Records(b, key))
  {
    SortedIdentity(Records(b, key));
  }

  /** The coordinate columns beside the records. */
  datatype Columns = Columns(sequences: seq<u64>, entries: seq<u32>, records: seq<u32>, times: seq<i64>)

  predicate Parallel(c: Columns, s: seq<Record>) {
    && |c.sequences| == |c.entries| == |c.records| == |c.times| == |s|
    && forall i :: 0 <= i < |s| ==>
         Key(c.sequences[i], c.entries[i], c.records[i]) == KeyOf(s[i]) && c.times[i] == s[i].source.ingestionTimeMs
  }

  method BuildColumns(records: seq<Record>) returns (c: Columns)
    ensures Parallel(c, records)
  {
    c := Columns([], [], [], []);
    for i := 0 to |records|
      invariant Parallel(c, records[..i])
    {
      var s := records[i].source;
      c := Columns(c.sequences + [s.sequence], c.entries + [s.entry], c.records + [s.record],
                   c.times + [s.ingestionTimeMs]);
    }
    assert records[..|records|] == records;
  }

  // ---------------------------------------------------------------------
  // Attribute maps stay maps
  // ---------------------------------------------------------------------

  lemma {:induction false} BeforeTransitive(a: Text, b: Text, c: Text)
    requires Before(a, b) && Before(b, c)
    ensures Before(a, c)
  {
    if a != [] && a[0] == b[0] == c[0] {
      BeforeTransitive(a[1..], b[1..], c[1..]);
    }
  }

  lemma {:induction false} BeforeTotal(a: Text, b: Text)
    requires a != b
    ensures Before(a, b) || Before(b, a)
  {
    if a != [] && b != [] && a[0] == b[0] {
      assert a == [a[0]] + a[1..] && b == [b[0]] + b[1..];
      BeforeTotal(a[1..], b[1..]);
    }
  }

  lemma {:induction false} InsertKeys(m: seq<(Text, Text)>, key: Text, value: Text, i: nat)
    requires i < |Insert(m, key, value)|
    ensures Insert(m, key, value)[i].0 == key || exists j :: 0 <= j < |m| && m[j].0 == Insert(m, key, value)[i].0
  {
    if !(m == [] || Before(key, m[0].0)) && m[0].0 != key && i > 0 {
      InsertKeys(m[1..], key, value, i - 1);
      if Insert(m, key, value)[i].0 != key {
        var j :| 0 <= j < |m[1..]| && m[1..][j].0 == Insert(m[1..], key, value)[i - 1].0;
        assert m[j + 1].0 == Insert(m, key, value)[i].0;
      }
    }
  }

  lemma ConsOrdered(head: (Text, Text), rest: seq<(Text, Text)>)
    requires KeyOrdered(rest) && forall i :: 0 <= i < |rest| ==> Before(head.0, rest[i].0)
    ensures KeyOrdered([head] + rest)
  {
  }

  /** Inserting keeps the keys in order, so each key once. */
  lemma {:induction false} InsertOrdered(m: seq<(Text, Text)>, key: Text, value: Text)
    requires KeyOrdered(m)
    ensures KeyOrdered(Insert(m, key, value))
  {
    if m == [] {
    } else if Before(key, m[0].0) {
      forall i | 0 <= i < |m| ensures Before(key, m[i].0) {
        if i > 0 {
          BeforeTransitive(key, m[0].0, m[i].0);
        }
      }
      ConsOrdered((key, value), m);
    } else if m[0].0 == key {
      ConsOrdered((key, value), m[1..]);
    } else {
      var rest := Insert(m[1..], key, value);
      InsertOrdered(m[1..], key, value);
      BeforeTotal(m[0].0, key);
      forall i | 0 <= i < |rest| ensures Before(m[0].0, rest[i].0) {
        InsertKeys(m[1..], key, value, i);
        if rest[i].0 != key {
          var j :| 0 <= j < |m[1..]| && m[1..][j].0 == rest[i].0;
          assert m[j + 1].0 == rest[i].0;
        }
      }
      ConsOrdered(m[0], rest);
    }
  }

  /** Every attribute map the decoder builds has each key once. */
  lemma {:induction false} MergedOrdered(m: seq<(Text, Text)>, attributes: seq<KeyValue>)
    requires KeyOrdered(m)
    ensures KeyOrdered(Merged(m, attributes)) && DistinctKeys(Merged(m, attributes))
  {
    if attributes != [] {
      var last := attributes[|attributes| - 1];
      var before := Merged(m, attributes[..|attributes| - 1]);
      MergedOrdered(m, attributes[..|attributes| - 1]);
      if last.value.Some? {
        InsertOrdered(before, last.key, last.value.value);
      }
    }
    OrderedDistinct(Merged(m, attributes));
  }

  lemma OrderedDistinct(m: seq<(Text, Text)>)
    requires KeyOrdered(m)
    ensures DistinctKeys(m)
  {
    forall i, j | 0 <= i < j < |m| ensures m[i].0 != m[j].0 {
      BeforeIrreflexive(m[i].0);
    }
  }

  // ---------------------------------------------------------------------
  // What the maps hold
  // ---------------------------------------------------------------------

  /** An inserted value is the one found under its key; every other key keeps its own. */
  lemma {:induction false} InsertGets(m: seq<(Text, Text)>, key: Text, value: Text, other: Text)
    ensures Get(Insert(m, key, value), other) == if other == key then Some(value) else Get(m, other)
  {
    if m != [] && !Before(key, m[0].0) && m[0].0 != key {
      InsertGets(m[1..], key, value, other);
      assert Insert(m, key, value)[1..] == Insert(m[1..], key, value);
    } else if m != [] && m[0].0 == key && !Before(key, m[0].0) {
      assert Insert(m, key, value)[1..] == m[1..];
    } else {
      assert Insert(m, key, value)[1..] == m;
    }
  }

  /** A merged attribute is the last value it is given, and what it was before if it is given none. */
  lemma {:induction false} MergedGets(m: seq<(Text, Text)>, attributes: seq<KeyValue>, key: Text)
    ensures Get(Merged(m, attributes), key) ==
              if LastValue(attributes, key).Some? then LastValue(attributes, key) else Get(m, key)
  {
    if attributes != [] {
      var front, last := attributes[..|attributes| - 1], attributes[|attributes| - 1];
      MergedGets(m, front, key);
      if last.value.Some? {
        InsertGets(Merged(m, front), last.key, last.value.value, key);
      }
    }
  }

  // ---------------------------------------------------------------------
  // Which leaves there are
  // ---------------------------------------------------------------------

  function ScopeParts(resource: seq<(Text, Text)>, serviceName: Option<Text>, scopes: seq<ScopeLogs>)
    : (r: seq<seq<Leaf>>)
    ensures |r| == |scopes|
    ensures forall i :: 0 <= i < |scopes| ==> r[i] == ScopeLeaves(resource, serviceName, scopes[i])
  {
    if scopes == [] then []
    else ScopeParts(resource, serviceName, scopes[..|scopes| - 1])
         + [ScopeLeaves(resource, serviceName, scopes[|scopes| - 1])]
  }

  function ResourceParts(request: Request, key: Text): (r: seq<seq<Leaf>>)
    ensures |r| == |request| && forall i :: 0 <= i < |request| ==> r[i] == ResourceLeaves(request[i], key)
  {
    if request == [] then []
    else ResourceParts(request[..|request| - 1], key) + [ResourceLeaves(request[|request| - 1], key)]
  }

  lemma {:induction false} ScopesFlatten(resource: seq<(Text, Text)>, serviceName: Option<Text>, scopes: seq<ScopeLogs>)
    ensures UnderScopes(resource, serviceName, scopes) == Flatten(ScopeParts(resource, serviceName, scopes))
  {
    if scopes != [] {
      var front := scopes[..|scopes| - 1];
      ScopesFlatten(resource, serviceName, front);
      FlattenSnoc(ScopeParts(resource, serviceName, front), ScopeLeaves(resource, serviceName, scopes[|scopes| - 1]));
    }
  }

  lemma {:induction false} LeavesFlatten(request: Request, key: Text)
    ensures Leaves(request, key) == Flatten(ResourceParts(request, key))
  {
    if request != [] {
      var front := request[..|request| - 1];
      LeavesFlatten(front, key);
      FlattenSnoc(ResourceParts(front, key), ResourceLeaves(request[|request| - 1], key));
    }
  }

  /** The parts of one resource, scope by scope. */
  function PartsUnder(r: ResourceLogs, key: Text): seq<seq<Leaf>> {
    ScopeParts(Merged([], ResourceAttributes(r)), LastValue(ResourceAttributes(r), key), r.scopes)
  }

  /** Where log `c` of scope `b` of resource `a` comes, in document order. */
  function Position(request: Request, key: Text, a: nat, b: nat, c: nat): nat
    requires a < |request| && b < |request[a].scopes|
  {
    Offset(ResourceParts(request, key), a) + Offset(PartsUnder(request[a], key), b) + c
  }

  predicate InTree(request: Request, a: nat, b: nat, c: nat) {
    a < |request| && b < |request[a].scopes| && c < |request[a].scopes[b].records|
  }

  /** The leaves of a resource are the leaves of its scopes, one after the other. */
  lemma ResourceFlattens(r: ResourceLogs, key: Text)
    ensures ResourceLeaves(r, key) == Flatten(PartsUnder(r, key))
  {
    ScopesFlatten(Merged([], ResourceAttributes(r)), LastValue(ResourceAttributes(r), key), r.scopes);
  }

  predicate HasAt(leaves: seq<Leaf>, k: nat, leaf: Leaf) {
    k < |leaves| && leaves[k] == leaf
  }

  function InheritedLeaf(r: ResourceLogs, key: Text, b: nat, c: nat): Leaf
    requires b < |r.scopes| && c < |r.scopes[b].records|
  {
    Leaf(Merged([], ResourceAttributes(r)), LastValue(ResourceAttributes(r), key), r.scopes[b].scope,
         r.scopes[b].records[c])
  }

  lemma LeafUnder(r: ResourceLogs, key: Text, b: nat, c: nat)
    requires b < |r.scopes| && c < |r.scopes[b].records|
    ensures HasAt(ResourceLeaves(r, key), Offset(PartsUnder(r, key), b) + c, InheritedLeaf(r, key, b, c))
  {
    ResourceFlattens(r, key);
    FlattenHas(PartsUnder(r, key), b, c);
  }

  lemma UnderResource(request: Request, key: Text, a: nat, j: nat, leaf: Leaf)
    requires a < |request| && HasAt(ResourceLeaves(request[a], key), j, leaf)
    ensures HasAt(Leaves(request, key), Offset(ResourceParts(request, key), a) + j, leaf)
  {
    LeavesFlatten(request, key);
    FlattenHas(ResourceParts(request, key), a, j);
  }

  /** Every log of the tree is a leaf at its place in document order, with what it inherits. */
  lemma LeafAt(request: Request, key: Text, a: nat, b: nat, c: nat)
    requires InTree(request, a, b, c)
    ensures HasAt(Leaves(request, key), Position(request, key, a, b, c), InheritedLeaf(request[a], key, b, c))
  {
    LeafUnder(request[a], key, b, c);
    UnderResource(request, key, a, Offset(PartsUnder(request[a], key), b) + c, InheritedLeaf(request[a], key, b, c));
  }

  /** And there are no other leaves. */
  lemma LeafLocated(request: Request, key: Text, k: nat) returns (a: nat, b: nat, c: nat)
    requires k < |Leaves(request, key)|
    ensures InTree(request, a, b, c) && Position(request, key, a, b, c) == k
  {
    var parts := ResourceParts(request, key);
    var j;
    LeavesFlatten(request, key);
    FlattenLength(parts, |parts|);
    assert parts[..|parts|] == parts;
    a, j := FlattenLocate(parts, |parts|, k);
    var inner := PartsUnder(request[a], key);
    ResourceFlattens(request[a], key);
    FlattenLength(inner, |inner|);
    assert inner[..|inner|] == inner;
    b, c := FlattenLocate(inner, |inner|, j);
  }

  // ---------------------------------------------------------------------
  // Field by field
  // ---------------------------------------------------------------------

  /** The record's own fields are the log's. */
  predicate LogFieldsOf(r: Record, log: LogLeaf) {
    && r.timestamp == log.time && r.observed == log.observed
    && r.severityNumber == log.severityNumber && r.severityText == log.severityText
    && r.body == log.body && r.traceIdHex == log.traceIdHex && r.spanIdHex == log.spanIdHex
  }

  /** Its source coordinates are the batch's, the entry's and its place in the entry. */
  predicate SourceFieldsOf(r: Record, b: Batch, entry: SourceEntry, place: nat) {
    r.source == Source(b.sequence, entry.index, place % 0x1_0000_0000, b.manifestPath, b.dataPath,
                       entry.ingestionTimeMs)
  }

  /** Attribute by attribute: the resource's own, and the scope's before the log's. */
  ghost predicate AttributesOf(r: Record, resource: seq<KeyValue>, scope: Option<Scope>, log: LogLeaf) {
    && (forall k :: Get(r.resource, k) == LastValue(resource, k))
    && (forall k :: Get(r.attributes, k) ==
          if scope.Some? && LastValue(scope.value.attributes, k).Some? then LastValue(scope.value.attributes, k)
          else LastValue(log.attributes, k))
    && r.scopeName == (if scope.Some? then Some(scope.value.name) else None)
  }

  lemma RecordFields(o: Origin, leaf: Leaf, index: u32, resource: seq<KeyValue>)
    requires leaf.resource == Merged([], resource)
    ensures LogFieldsOf(MakeRecord(o, leaf, index), leaf.log)
    ensures AttributesOf(MakeRecord(o, leaf, index), resource, leaf.scope, leaf.log)
    ensures MakeRecord(o, leaf, index).serviceName == leaf.serviceName
  {
    var r := MakeRecord(o, leaf, index);
    forall k ensures Get(r.resource, k) == LastValue(resource, k) {
      MergedGets([], resource, k);
    }
    forall k ensures Get(r.attributes, k) ==
                       if leaf.scope.Some? && LastValue(leaf.scope.value.attributes, k).Some?
                       then LastValue(leaf.scope.value.attributes, k)
                       else LastValue(leaf.log.attributes, k)
    {
      MergedGets([], leaf.log.attributes, k);
      MergedGets(Merged([], leaf.log.attributes), ScopeAttributes(leaf.scope), k);
    }
  }

  /**
   * Every log of every entry's tree becomes one record, at its place in document order: with the
   * log's own fields, its inherited attributes and service name, and its coordinates.
   */
  lemma DecodedTree(b: Batch, key: Text, i: nat, a: nat, s: nat, c: nat) returns (r: Record)
    requires Parsed(b) && Decoded(b, key, |b.entries|).Ok? && i < |b.entries| && b.requests[i].Some?
    requires InTree(b.requests[i].value, a, s, c)
    ensures r in Records(b, key)
    ensures var request := b.requests[i].value;
            var log, scope := request[a].scopes[s].records[c], request[a].scopes[s].scope;
            && LogFieldsOf(r, log) && AttributesOf(r, ResourceAttributes(request[a]), scope, log)
            && r.serviceName == LastValue(ResourceAttributes(request[a]), key)
            && SourceFieldsOf(r, b, b.entries[i], Position(request, key, a, s, c))
  {
    var request, parts := b.requests[i].value, Parts(b, key, |b.entries|);
    var k := Position(request, key, a, s, c);
    LeafAt(request, key, a, s, c);
    r := parts[i][k];
    assert r == MakeFrom(OriginOf(b, i))(Leaves(request, key)[k], Truncated(0 + k));
    RecordFields(OriginOf(b, i), Leaves(request, key)[k], Truncated(k), ResourceAttributes(request[a]));
    DecodedParts(b, key, |b.entries|);
    FlattenMember(parts, i, r);
  }
}
