/**
 * The insert deduplication token: how it is printed, and why two equal tokens stand for the same
 * chunk of the same plan.
 */
module Token {
  import opened Prelude
  import opened Decimals

  const COLON: u8 := 58
  const DOT: u8 := 46
  const DASH: u8 := 45
  const NEWLINE: u8 := 10

  datatype AdapterConfig = AdapterConfig(
    database: Text,
    table: Text,
    adapterVersion: u32,
    maxChunkRows: nat,
    maxChunkBytes: nat,
    insertQuorum: Option<Text>,
    applyToken: bool)

  /** What the quorum setting prints as; no quorum and an empty one look alike. */
  function Quorum(c: AdapterConfig): Text {
    match c.insertQuorum
    case Some(q) => q
    case None => []
  }

  /** The end of the fingerprint's preimage, from the adapter version on. */
  function Settings(c: AdapterConfig): Text {
    Ascii("adapter_version=") + (Decimal(c.adapterVersion) + ([NEWLINE]
    + (Ascii("max_chunk_rows=") + (Decimal(c.maxChunkRows) + ([NEWLINE]
    + (Ascii("max_chunk_bytes=") + (Decimal(c.maxChunkBytes) + ([NEWLINE]
    + (Ascii("insert_quorum=") + (Quorum(c) + [NEWLINE]))))))))))
  }

  function Target(c: AdapterConfig): Text {
    c.database + ([NEWLINE] + (Ascii("table=") + (c.table + ([NEWLINE] + Settings(c)))))
  }

  /** The text the chunking fingerprint hashes. */
  function Preimage(c: AdapterConfig): Text {
    Ascii("otlp-logs-clickhouse-adapter:v1") + ([NEWLINE] + (Ascii("database=") + Target(c)))
  }

  /** A hash prefix, printed in hexadecimal. */
  type Digest = Text -> Text

  predicate Lacks(t: Text, b: u8) {
    forall i :: 0 <= i < |t| ==> t[i] != b
  }

  /** `a`, one separator, `b`. */
  function Joined(a: Text, separator: u8, b: Text): Text {
    a + [separator] + b
  }

  function Qualified(c: AdapterConfig): Text {
    Joined(c.database, DOT, c.table)
  }

  /** What follows `{manifest}:{database}.{table}`. */
  function TokenFrom(front: Text, low: u64, high: u64, version: u32, fingerprint: Text, index: u32): Text {
    Joined(Joined(Joined(Joined(front, COLON, Joined(Decimal(low), DASH, Decimal(high))),
                         COLON, Decimal(version)),
                  COLON, fingerprint),
           COLON, Decimal(index))
  }

  /** `{manifest}:{database}.{table}:{low}-{high}:{version}:{fingerprint}:{index}`. */
  function BuildToken(digest: Digest, manifest: Text, c: AdapterConfig, low: u64, high: u64, index: u32): Text {
    TokenFrom(Joined(manifest, COLON, Qualified(c)), low, high, c.adapterVersion, digest(Preimage(c)), index)
  }

  // ---------------------------------------------------------------------
  // Taking joined text apart
  // ---------------------------------------------------------------------

  lemma NoneAfter(a: Text, b: Text, s: u8)
    requires Lacks(b, s)
    ensures forall k :: |a| < k < |Joined(a, s, b)| ==> Joined(a, s, b)[k] != s
  {
    forall k | |a| < k < |Joined(a, s, b)| ensures Joined(a, s, b)[k] != s {
      assert Joined(a, s, b)[k] == b[k - |a| - 1];
    }
  }

  /** A text splits in only one way at its last separator. */
  lemma SplitLast(a: Text, b: Text, x: Text, y: Text, s: u8)
    requires Joined(a, s, b) == Joined(x, s, y) && Lacks(b, s) && Lacks(y, s)
    ensures a == x && b == y
  {
    var t := Joined(a, s, b);
    NoneAfter(a, b, s);
    NoneAfter(x, y, s);
    assert t[|a|] == s && t[|x|] == s;
    assert a == t[..|a|] && x == t[..|x|];
    assert b == t[|a| + 1..] && y == t[|x| + 1..];
  }

  lemma NoneBefore(a: Text, b: Text, s: u8)
    requires Lacks(a, s)
    ensures forall k :: 0 <= k < |a| ==> (a + ([s] + b))[k] != s
  {
  }

  /** And in only one way at its first. */
  lemma SplitFirst(a: Text, b: Text, x: Text, y: Text, s: u8)
    requires a + ([s] + b) == x + ([s] + y) && Lacks(a, s) && Lacks(x, s)
    ensures a == x && b == y
  {
    var t := a + ([s] + b);
    NoneBefore(a, b, s);
    NoneBefore(x, y, s);
    assert t[|a|] == s && t[|x|] == s;
    assert a == t[..|a|] && x == t[..|x|];
    assert b == t[|a| + 1..] && y == t[|x| + 1..];
  }

  lemma CutFront(p: Text, a: Text, b: Text)
    requires p + a == p + b
    ensures a == b
  {
    assert a == (p + a)[|p|..] && b == (p + b)[|p|..];
  }

  lemma CutEnd(a: Text, b: Text, s: u8)
    requires a + [s] == b + [s]
    ensures a == b
  {
    assert a == (a + [s])[..|a|] && b == (b + [s])[..|b|];
  }

  lemma DecimalLacks(n: nat, b: u8)
    requires !IsDigit(b)
    ensures Lacks(Decimal(n), b)
  {
    forall i | 0 <= i < |Decimal(n)| ensures Decimal(n)[i] != b {
      assert IsDigit(Decimal(n)[i]);
    }
  }

  /** A number followed by a newline is read in one way only. */
  lemma NumberLine(n: nat, a: Text, m: nat, b: Text)
    requires Decimal(n) + ([NEWLINE] + a) == Decimal(m) + ([NEWLINE] + b)
    ensures n == m && a == b
  {
    DecimalLacks(n, NEWLINE);
    DecimalLacks(m, NEWLINE);
    SplitFirst(Decimal(n), a, Decimal(m), b, NEWLINE);
    DecimalInjective(n, m);
  }

  // ---------------------------------------------------------------------
  // The fingerprint tells the settings apart
  // ---------------------------------------------------------------------

  /** Everything that decides the rows and the chunk boundaries. */
  predicate SameSettings(c: AdapterConfig, d: AdapterConfig) {
    && c.adapterVersion == d.adapterVersion && c.maxChunkRows == d.maxChunkRows
    && c.maxChunkBytes == d.maxChunkBytes && Quorum(c) == Quorum(d)
  }

  predicate SameTarget(c: AdapterConfig, d: AdapterConfig) {
    c.database == d.database && c.table == d.table
  }

  lemma SettingsTell(c: AdapterConfig, d: AdapterConfig)
    requires Settings(c) == Settings(d)
    ensures SameSettings(c, d)
  {
    var c3, d3 := Ascii("insert_quorum=") + (Quorum(c) + [NEWLINE]), Ascii("insert_quorum=") + (Quorum(d) + [NEWLINE]);
    var c2 := Ascii("max_chunk_bytes=") + (Decimal(c.maxChunkBytes) + ([NEWLINE] + c3));
    var d2 := Ascii("max_chunk_bytes=") + (Decimal(d.maxChunkBytes) + ([NEWLINE] + d3));
    var c1 := Ascii("max_chunk_rows=") + (Decimal(c.maxChunkRows) + ([NEWLINE] + c2));
    var d1 := Ascii("max_chunk_rows=") + (Decimal(d.maxChunkRows) + ([NEWLINE] + d2));
    CutFront(Ascii("adapter_version="), Decimal(c.adapterVersion) + ([NEWLINE] + c1),
             Decimal(d.adapterVersion) + ([NEWLINE] + d1));
    NumberLine(c.adapterVersion, c1, d.adapterVersion, d1);
    CutFront(Ascii("max_chunk_rows="), Decimal(c.maxChunkRows) + ([NEWLINE] + c2),
             Decimal(d.maxChunkRows) + ([NEWLINE] + d2));
    NumberLine(c.maxChunkRows, c2, d.maxChunkRows, d2);
    CutFront(Ascii("max_chunk_bytes="), Decimal(c.maxChunkBytes) + ([NEWLINE] + c3),
             Decimal(d.maxChunkBytes) + ([NEWLINE] + d3));
    NumberLine(c.maxChunkBytes, c3, d.maxChunkBytes, d3);
    CutFront(Ascii("insert_quorum="), Quorum(c) + [NEWLINE], Quorum(d) + [NEWLINE]);
    CutEnd(Quorum(c), Quorum(d), NEWLINE);
  }

  lemma PreimageTarget(c: AdapterConfig, d: AdapterConfig)
    requires Preimage(c) == Preimage(d)
    ensures Target(c) == Target(d)
  {
    CutFront(Ascii("otlp-logs-clickhouse-adapter:v1"), [NEWLINE] + (Ascii("database=") + Target(c)),
             [NEWLINE] + (Ascii("database=") + Target(d)));
    CutFront([NEWLINE], Ascii("database=") + Target(c), Ascii("database=") + Target(d));
    CutFront(Ascii("database="), Target(c), Target(d));
  }

  /** Lines, each with its line break. */
  function Printed(lines: seq<Text>): Text {
    if lines == [] then [] else lines[0] + ([NEWLINE] + Printed(lines[1..]))
  }

  lemma PrintedNext(line: Text, rest: seq<Text>)
    ensures Printed([line] + rest) == line + ([NEWLINE] + Printed(rest))
  {
    assert ([line] + rest)[1..] == rest;
  }

  /** One `key=value` line in front of the others. */
  lemma PrintedSetting(key: Text, value: Text, rest: seq<Text>)
    ensures Printed([key + value] + rest) == key + (value + ([NEWLINE] + Printed(rest)))
  {
    PrintedNext(key + value, rest);
  }

  lemma SettingsLines(c: AdapterConfig)
    ensures Settings(c) == Printed([Ascii("adapter_version=") + Decimal(c.adapterVersion)]
                                   + ([Ascii("max_chunk_rows=") + Decimal(c.maxChunkRows)]
                                      + ([Ascii("max_chunk_bytes=") + Decimal(c.maxChunkBytes)]
                                         + ([Ascii("insert_quorum=") + Quorum(c)] + []))))
  {
    var quorum := [Ascii("insert_quorum=") + Quorum(c)] + [];
    var bytes := [Ascii("max_chunk_bytes=") + Decimal(c.maxChunkBytes)] + quorum;
    PrintedSetting(Ascii("insert_quorum="), Quorum(c), []);
    PrintedSetting(Ascii("max_chunk_bytes="), Decimal(c.maxChunkBytes), quorum);
    PrintedSetting(Ascii("max_chunk_rows="), Decimal(c.maxChunkRows), bytes);
    PrintedSetting(Ascii("adapter_version="), Decimal(c.adapterVersion),
                   [Ascii("max_chunk_rows=") + Decimal(c.maxChunkRows)] + bytes);
  }

  lemma Listed(a: Text, b: Text, c: Text, d: Text, e: Text, f: Text, g: Text)
    ensures [a] + ([b] + ([c] + ([d] + ([e] + ([f] + ([g] + [])))))) == [a, b, c, d, e, f, g]
  {
  }

  lemma TargetLines(c: AdapterConfig, settings: seq<Text>)
    requires Settings(c) == Printed(settings)
    ensures Preimage(c) == Printed([Ascii("otlp-logs-clickhouse-adapter:v1")]
                                   + ([Ascii("database=") + c.database] + ([Ascii("table=") + c.table] + settings)))
  {
    var table := [Ascii("table=") + c.table] + settings;
    PrintedSetting(Ascii("table="), c.table, settings);
    PrintedSetting(Ascii("database="), c.database, table);
    PrintedNext(Ascii("otlp-logs-clickhouse-adapter:v1"), [Ascii("database=") + c.database] + table);
  }

  /** The preimage line by line: the adapter's mark, then every setting under its name. */
  lemma PreimageLines(c: AdapterConfig)
    ensures var quorum := if c.insertQuorum.Some? then c.insertQuorum.value else Ascii("");
            Preimage(c) == Printed([Ascii("otlp-logs-clickhouse-adapter:v1"),
                                    Ascii("database=") + c.database,
                                    Ascii("table=") + c.table,
                                    Ascii("adapter_version=") + Decimal(c.adapterVersion),
                                    Ascii("max_chunk_rows=") + Decimal(c.maxChunkRows),
                                    Ascii("max_chunk_bytes=") + Decimal(c.maxChunkBytes),
                                    Ascii("insert_quorum=") + quorum])
  {
    var quorum := if c.insertQuorum.Some? then c.insertQuorum.value else Ascii("");
    var version := Ascii("adapter_version=") + Decimal(c.adapterVersion);
    var rows := Ascii("max_chunk_rows=") + Decimal(c.maxChunkRows);
    var bytes := Ascii("max_chunk_bytes=") + Decimal(c.maxChunkBytes);
    SettingsLines(c);
    assert Quorum(c) == quorum;
    TargetLines(c, [version] + ([rows] + ([bytes] + ([Ascii("insert_quorum=") + quorum] + []))));
    Listed(Ascii("otlp-logs-clickhouse-adapter:v1"), Ascii("database=") + c.database, Ascii("table=") + c.table,
           version, rows, bytes, Ascii("insert_quorum=") + quorum);
  }

  /** Names without line breaks: the preimage alone gives back every setting. */
  lemma PreimageTells(c: AdapterConfig, d: AdapterConfig)
    requires Preimage(c) == Preimage(d)
    requires Lacks(c.database, NEWLINE) && Lacks(d.database, NEWLINE)
    requires Lacks(c.table, NEWLINE) && Lacks(d.table, NEWLINE)
    ensures SameTarget(c, d) && SameSettings(c, d)
  {
    PreimageTarget(c, d);
    var ct, dt := c.table + ([NEWLINE] + Settings(c)), d.table + ([NEWLINE] + Settings(d));
    SplitFirst(c.database, Ascii("table=") + ct, d.database, Ascii("table=") + dt, NEWLINE);
    CutFront(Ascii("table="), ct, dt);
    SplitFirst(c.table, Settings(c), d.table, Settings(d), NEWLINE);
    SettingsTell(c, d);
  }

  /**
   * Any names at all: the dot in one place and the line break in the same place of another text
   * leave only one way to split database from table.
   */
  lemma QualifiedTells(c: AdapterConfig, d: AdapterConfig)
    requires Preimage(c) == Preimage(d) && Qualified(c) == Qualified(d)
    ensures SameTarget(c, d) && SameSettings(c, d)
  {
    PreimageTarget(c, d);
    SameDatabase(c, d);
    SameTable(c, d);
  }

  /** Both texts start with the database, and differ right after it. */
  lemma Parting(c: AdapterConfig)
    ensures |c.database| < |Target(c)| && |c.database| < |Qualified(c)|
    ensures Target(c)[|c.database|] != Qualified(c)[|c.database|]
    ensures forall k :: 0 <= k < |c.database| ==> Target(c)[k] == Qualified(c)[k]
  {
  }

  lemma SameDatabase(c: AdapterConfig, d: AdapterConfig)
    requires Target(c) == Target(d) && Qualified(c) == Qualified(d)
    ensures c.database == d.database
  {
    Parting(c);
    Parting(d);
    assert |c.database| == |d.database|;
    assert c.database == Qualified(c)[..|c.database|] && d.database == Qualified(d)[..|d.database|];
  }

  lemma SameTable(c: AdapterConfig, d: AdapterConfig)
    requires Target(c) == Target(d) && Qualified(c) == Qualified(d) && c.database == d.database
    ensures c.table == d.table && SameSettings(c, d)
  {
    var front := c.database + [DOT];
    CutFront(front, c.table, d.table);
    CutFront(c.database, [NEWLINE] + (Ascii("table=") + (c.table + ([NEWLINE] + Settings(c)))),
             [NEWLINE] + (Ascii("table=") + (d.table + ([NEWLINE] + Settings(d)))));
    CutFront([NEWLINE], Ascii("table=") + (c.table + ([NEWLINE] + Settings(c))),
             Ascii("table=") + (d.table + ([NEWLINE] + Settings(d))));
    CutFront(Ascii("table="), c.table + ([NEWLINE] + Settings(c)), d.table + ([NEWLINE] + Settings(d)));
    CutFront(c.table, [NEWLINE] + Settings(c), [NEWLINE] + Settings(d));
    CutFront([NEWLINE], Settings(c), Settings(d));
    SettingsTell(c, d);
  }

  // ---------------------------------------------------------------------
  // Tokens
  // ---------------------------------------------------------------------

  /** The digest keeps two configurations apart and prints without colons. */
  predicate Separates(digest: Digest, c: AdapterConfig, d: AdapterConfig) {
    && Lacks(digest(Preimage(c)), COLON) && Lacks(digest(Preimage(d)), COLON)
    && (digest(Preimage(c)) == digest(Preimage(d)) ==> Preimage(c) == Preimage(d))
  }

  /** The token taken apart from the right. */
  lemma TokenParts(digest: Digest, manifest: Text, c: AdapterConfig, low: u64, high: u64, index: u32,
                   manifest': Text, d: AdapterConfig, low': u64, high': u64, index': u32)
    requires Separates(digest, c, d)
    requires BuildToken(digest, manifest, c, low, high, index) == BuildToken(digest, manifest', d, low', high', index')
    ensures index == index' && low == low' && high == high' && c.adapterVersion == d.adapterVersion
    ensures digest(Preimage(c)) == digest(Preimage(d))
    ensures Joined(manifest, COLON, Qualified(c)) == Joined(manifest', COLON, Qualified(d))
  {
    var m1, m2 := Joined(manifest, COLON, Qualified(c)), Joined(manifest', COLON, Qualified(d));
    var r1, r2 := Joined(Decimal(low), DASH, Decimal(high)), Joined(Decimal(low'), DASH, Decimal(high'));
    var a1, a2 := Joined(m1, COLON, r1), Joined(m2, COLON, r2);
    var v1, v2 := Joined(a1, COLON, Decimal(c.adapterVersion)), Joined(a2, COLON, Decimal(d.adapterVersion));
    NumberSegment(Joined(v1, COLON, digest(Preimage(c))), index, Joined(v2, COLON, digest(Preimage(d))), index');
    SplitLast(v1, digest(Preimage(c)), v2, digest(Preimage(d)), COLON);
    NumberSegment(a1, c.adapterVersion, a2, d.adapterVersion);
    RangeSegment(m1, low, high, m2, low', high');
  }

  lemma NumberSegment(a: Text, n: nat, b: Text, m: nat)
    requires Joined(a, COLON, Decimal(n)) == Joined(b, COLON, Decimal(m))
    ensures a == b && n == m
  {
    DecimalLacks(n, COLON);
    DecimalLacks(m, COLON);
    SplitLast(a, Decimal(n), b, Decimal(m), COLON);
    DecimalInjective(n, m);
  }

  lemma RangeSegment(a: Text, low: nat, high: nat, b: Text, low': nat, high': nat)
    requires Joined(a, COLON, Joined(Decimal(low), DASH, Decimal(high)))
          == Joined(b, COLON, Joined(Decimal(low'), DASH, Decimal(high')))
    ensures a == b && low == low' && high == high'
  {
    var r, s := Joined(Decimal(low), DASH, Decimal(high)), Joined(Decimal(low'), DASH, Decimal(high'));
    RangeLacksColon(low, high);
    RangeLacksColon(low', high');
    SplitLast(a, r, b, s, COLON);
    DecimalLacks(high, DASH);
    DecimalLacks(high', DASH);
    SplitLast(Decimal(low), Decimal(high), Decimal(low'), Decimal(high'), DASH);
    DecimalInjective(low, low');
    DecimalInjective(high, high');
  }

  lemma RangeLacksColon(low: nat, high: nat)
    ensures Lacks(Joined(Decimal(low), DASH, Decimal(high)), COLON)
  {
    DecimalLacks(low, COLON);
    DecimalLacks(high, COLON);
  }

  // ---------------------------------------------------------------------
  // Parsing from the right
  // ---------------------------------------------------------------------

  /** Where the last `s` is, or past the end if there is none. */
  function LastIndex(t: Text, s: u8): (i: nat)
    ensures i <= |t| && (i < |t| ==> t[i] == s)
    ensures forall k :: i < k < |t| ==> t[k] != s
    ensures i == |t| ==> Lacks(t, s)
  {
    if t == [] then 0
    else if t[|t| - 1] == s then |t| - 1
    else
      var i := LastIndex(t[..|t| - 1], s);
      if i == |t| - 1 then |t| else i
  }

  /** What is before and after the last `s`. */
  function CutLast(t: Text, s: u8): Option<(Text, Text)> {
    var i := LastIndex(t, s);
    if i < |t| then Some((t[..i], t[i + 1..])) else None
  }

  lemma CutsJoined(a: Text, s: u8, b: Text)
    requires Lacks(b, s)
    ensures CutLast(Joined(a, s, b), s) == Some((a, b))
  {
    var t := Joined(a, s, b);
    NoneAfter(a, b, s);
    assert t[|a|] == s;
    assert LastIndex(t, s) == |a|;
    assert t[..|a|] == a && t[|a| + 1..] == b;
  }

  /** `{front}:{low}-{high}:{version}:{fingerprint}:{index}`, taken apart. */
  datatype Reading = Reading(front: Text, low: nat, high: nat, version: nat, fingerprint: Text, index: nat)

  function Number(t: Text): Option<nat> {
    if t != [] && forall i :: 0 <= i < |t| ==> IsDigit(t[i]) then Some(Value(t)) else None
  }

  lemma NumberReads(n: nat)
    ensures Number(Decimal(n)) == Some(n)
  {
    ValueDecimal(n);
  }

  /** Cuts `count` segments off the right end. */
  function Segments(t: Text, count: nat): Option<(Text, seq<Text>)> {
    if count == 0 then Some((t, []))
    else
      match CutLast(t, COLON)
      case None => None
      case Some((front, last)) =>
        match Segments(front, count - 1)
        case None => None
        case Some((head, segments)) => Some((head, segments + [last]))
  }

  function ParseRange(t: Text): Option<(nat, nat)> {
    match CutLast(t, DASH)
    case None => None
    case Some((low, high)) =>
      match (Number(low), Number(high))
      case (Some(l), Some(h)) => Some((l, h))
      case _ => None
  }

  function ParseToken(t: Text): Option<Reading> {
    match Segments(t, 4)
    case None => None
    case Some((front, parts)) =>
      if |parts| != 4 then None
      else
        match (ParseRange(parts[0]), Number(parts[1]), Number(parts[3]))
        case (Some((low, high)), Some(version), Some(index)) =>
          Some(Reading(front, low, high, version, parts[2], index))
        case _ => None
  }

  lemma SegmentsCut(a: Text, b: Text, count: nat)
    requires Lacks(b, COLON)
    ensures Segments(Joined(a, COLON, b), count + 1) ==
              match Segments(a, count)
              case None => None
              case Some((head, segments)) => Some((head, segments + [b]))
  {
    CutsJoined(a, COLON, b);
  }

  lemma RangeParses(low: nat, high: nat)
    ensures ParseRange(Joined(Decimal(low), DASH, Decimal(high))) == Some((low, high))
  {
    DecimalLacks(high, DASH);
    CutsJoined(Decimal(low), DASH, Decimal(high));
    NumberReads(low);
    NumberReads(high);
  }

  lemma SegmentsOf(front: Text, range: Text, version: Text, fingerprint: Text, index: Text)
    requires Lacks(range, COLON) && Lacks(version, COLON) && Lacks(fingerprint, COLON) && Lacks(index, COLON)
    ensures Segments(Joined(Joined(Joined(Joined(front, COLON, range), COLON, version), COLON, fingerprint),
                            COLON, index), 4)
         == Some((front, [range, version, fingerprint, index]))
  {
    var a := Joined(front, COLON, range);
    var b := Joined(a, COLON, version);
    var c := Joined(b, COLON, fingerprint);
    assert Segments(front, 0) == Some((front, []));
    SegmentsCut(front, range, 0);
    SegmentsCut(a, version, 1);
    SegmentsCut(b, fingerprint, 2);
    SegmentsCut(c, index, 3);
    assert [] + [range] + [version] + [fingerprint] + [index] == [range, version, fingerprint, index];
  }

  /**
   * The printed token parses back from the right: index, fingerprint, version, high and low come out
   * as they went in, and what is left is the manifest, a colon, the database, a dot and the table.
   */
  lemma TokenParses(digest: Digest, manifest: Text, c: AdapterConfig, low: u64, high: u64, index: u32)
    requires Lacks(digest(Preimage(c)), COLON)
    ensures ParseToken(BuildToken(digest, manifest, c, low, high, index))
         == Some(Reading(manifest + Ascii(":") + c.database + Ascii(".") + c.table, low, high, c.adapterVersion,
                        digest(Preimage(c)), index))
  {
    var front := Joined(manifest, COLON, Qualified(c));
    FrontIs(manifest, c.database, c.table);
    RangeLacksColon(low, high);
    DecimalLacks(c.adapterVersion, COLON);
    DecimalLacks(index, COLON);
    SegmentsOf(front, Joined(Decimal(low), DASH, Decimal(high)), Decimal(c.adapterVersion), digest(Preimage(c)),
               Decimal(index));
    RangeParses(low, high);
    NumberReads(c.adapterVersion);
    NumberReads(index);
  }

  lemma FrontIs(manifest: Text, database: Text, table: Text)
    ensures Joined(manifest, COLON, Joined(database, DOT, table))
         == manifest + Ascii(":") + database + Ascii(".") + table
  {
    assert Ascii(":") == [COLON] && Ascii(".") == [DOT];
  }

  /**
   * One manifest: equal tokens mean equal range, target, version, limits and chunk index, whatever
   * characters the names hold.
   */
  lemma TokenTells(digest: Digest, manifest: Text, c: AdapterConfig, low: u64, high: u64, index: u32,
                   d: AdapterConfig, low': u64, high': u64, index': u32)
    requires Separates(digest, c, d)
    requires BuildToken(digest, manifest, c, low, high, index) == BuildToken(digest, manifest, d, low', high', index')
    ensures index == index' && low == low' && high == high' && SameTarget(c, d) && SameSettings(c, d)
  {
    TokenParts(digest, manifest, c, low, high, index, manifest, d, low', high', index');
    CutFront(manifest + [COLON], Qualified(c), Qualified(d));
    QualifiedTells(c, d);
  }

  // ---------------------------------------------------------------------
  // Different manifests
  // ---------------------------------------------------------------------

  /** `{separator}{database}.{table}`, as it follows the manifest. */
  function Tail(c: AdapterConfig): Text {
    [COLON] + Qualified(c)
  }

  /** `a` ends in `b` and is longer. */
  predicate EndsIn(a: Text, b: Text) {
    |b| < |a| && a[|a| - |b|..] == b
  }

  /** What two configurations must have in common to imitate each other across manifests. */
  predicate Imitate(c: AdapterConfig, d: AdapterConfig) {
    match (c, d)
    case (AdapterConfig(_, _, version, _, _, _, _), AdapterConfig(_, _, version', _, _, _, _)) =>
      && Preimage(c) == Preimage(d) && version == version'
      && (EndsIn(Tail(c), Tail(d)) || EndsIn(Tail(d), Tail(c)))
  }

  /** What of a token is not configuration. */
  datatype Stamp = Stamp(manifest: Text, low: u64, high: u64, index: u32)

  predicate SameToken(digest: Digest, c: AdapterConfig, x: Stamp, d: AdapterConfig, y: Stamp) {
    match (x, y)
    case (Stamp(manifest, low, high, index), Stamp(manifest', low', high', index')) =>
      BuildToken(digest, manifest, c, low, high, index) == BuildToken(digest, manifest', d, low', high', index')
  }

  /** Some two tokens of the configurations are equal although their manifests differ. */
  ghost predicate ShareToken(digest: Digest, c: AdapterConfig, d: AdapterConfig) {
    exists x, y :: SameToken(digest, c, x, d, y) && x.manifest != y.manifest
  }

  lemma OneEndsInOther(m: Text, a: Text, m': Text, b: Text)
    requires m + a == m' + b && m != m'
    ensures EndsIn(a, b) || EndsIn(b, a)
  {
    var t := m + a;
    assert a == t[|m|..] && b == t[|m'|..] && m == t[..|m|] && m' == t[..|m'|];
    if |m| < |m'| {
      assert t[|m|..][|m'| - |m|..] == t[|m'|..];
    } else {
      assert t[|m'|..][|m| - |m'|..] == t[|m|..];
    }
  }

  lemma JoinsTail(m: Text, q: Text)
    ensures Joined(m, COLON, q) == m + ([COLON] + q)
  {
  }

  lemma SharedImitate(digest: Digest, c: AdapterConfig, x: Stamp, d: AdapterConfig, y: Stamp)
    requires Separates(digest, c, d) && SameToken(digest, c, x, d, y) && x.manifest != y.manifest
    ensures Imitate(c, d)
  {
    TokenParts(digest, x.manifest, c, x.low, x.high, x.index, y.manifest, d, y.low, y.high, y.index);
    JoinsTail(x.manifest, Qualified(c));
    JoinsTail(y.manifest, Qualified(d));
    OneEndsInOther(x.manifest, Tail(c), y.manifest, Tail(d));
  }

  /** The longer tail's front part goes to the other manifest. */
  lemma EndShares(digest: Digest, c: AdapterConfig, d: AdapterConfig, x: Stamp) returns (y: Stamp)
    requires Preimage(c) == Preimage(d) && c.adapterVersion == d.adapterVersion && EndsIn(Tail(c), Tail(d))
    ensures x.manifest != y.manifest && SameToken(digest, c, x, d, y) && SameToken(digest, d, y, c, x)
  {
    var k := |Tail(c)| - |Tail(d)|;
    y := x.(manifest := x.manifest + Tail(c)[..k]);
    JoinsTail(x.manifest, Qualified(c));
    JoinsTail(y.manifest, Qualified(d));
    FrontMoves(x.manifest, Tail(c), Tail(d), k);
  }

  lemma FrontMoves(m: Text, long: Text, short: Text, k: nat)
    requires k <= |long| && long[k..] == short
    ensures m + long == (m + long[..k]) + short
  {
  }

  lemma ImitateShare(digest: Digest, c: AdapterConfig, d: AdapterConfig)
    requires Imitate(c, d)
    ensures ShareToken(digest, c, d)
  {
    var x := Stamp([], 0, 0, 0);
    if EndsIn(Tail(c), Tail(d)) {
      var y := EndShares(digest, c, d, x);
    } else {
      var y := EndShares(digest, d, c, x);
    }
  }

  lemma ShareImitate(digest: Digest, c: AdapterConfig, d: AdapterConfig)
    requires Separates(digest, c, d) && ShareToken(digest, c, d)
    ensures Imitate(c, d)
  {
    var x, y :| SameToken(digest, c, x, d, y) && x.manifest != y.manifest;
    SharedImitate(digest, c, x, d, y);
  }

  /**
   * Two configurations can give one token to different manifests if and only if their preimages
   * and versions are equal and one `:database.table` properly ends in the other.
   */
  lemma TokensShared(digest: Digest, c: AdapterConfig, d: AdapterConfig)
    requires Separates(digest, c, d)
    ensures ShareToken(digest, c, d) <==> Imitate(c, d)
  {
    if ShareToken(digest, c, d) {
      ShareImitate(digest, c, d);
    }
    if Imitate(c, d) {
      ImitateShare(digest, c, d);
    }
  }

  /** Any manifests: unless the configurations imitate each other, equal tokens mean equal everything. */
  lemma TokenTellsManifest(digest: Digest, c: AdapterConfig, x: Stamp, d: AdapterConfig, y: Stamp)
    requires Separates(digest, c, d) && !Imitate(c, d) && SameToken(digest, c, x, d, y)
    ensures x == y && SameTarget(c, d) && SameSettings(c, d)
  {
    if x.manifest != y.manifest {
      SharedImitate(digest, c, x, d, y);
    }
    TokenTells(digest, x.manifest, c, x.low, x.high, x.index, d, y.low, y.high, y.index);
  }

  /** Names without line breaks never imitate each other. */
  lemma LineFreeApart(c: AdapterConfig, d: AdapterConfig)
    requires Lacks(c.database, NEWLINE) && Lacks(d.database, NEWLINE)
    requires Lacks(c.table, NEWLINE) && Lacks(d.table, NEWLINE)
    ensures !Imitate(c, d)
  {
    if Preimage(c) == Preimage(d) {
      PreimageTells(c, d);
    }
  }

  /** The settings without the quorum's text. */
  function SettingsHead(c: AdapterConfig): Text {
    Ascii("adapter_version=") + (Decimal(c.adapterVersion) + ([NEWLINE]
    + (Ascii("max_chunk_rows=") + (Decimal(c.maxChunkRows) + ([NEWLINE]
    + (Ascii("max_chunk_bytes=") + (Decimal(c.maxChunkBytes) + ([NEWLINE] + Ascii("insert_quorum=")))))))))
  }

  lemma SettingsEnd(c: AdapterConfig)
    ensures Settings(c) == SettingsHead(c) + (Quorum(c) + [NEWLINE])
  {
    var a, b, d := Ascii("insert_quorum="), Ascii("max_chunk_bytes="), Ascii("max_chunk_rows=");
    var end := Quorum(c) + [NEWLINE];
    Regroup(Decimal(c.maxChunkBytes), a, end);
    Regroup(Decimal(c.maxChunkRows), b + (Decimal(c.maxChunkBytes) + ([NEWLINE] + a)), end);
    Regroup(Decimal(c.adapterVersion),
            d + (Decimal(c.maxChunkRows) + ([NEWLINE] + (b + (Decimal(c.maxChunkBytes) + ([NEWLINE] + a))))), end);
  }

  lemma Regroup(number: Text, inner: Text, end: Text)
    ensures number + ([NEWLINE] + (inner + end)) == (number + ([NEWLINE] + inner)) + end
  {
  }

  /**
   * Every target is imitated by a table name with line breaks in it, whatever the digest, if the
   * versions agree; where they do not, everything but the version can still be the same.
   */
  lemma LineBreaksImitate(c: AdapterConfig, version: u32) returns (a: AdapterConfig, b: AdapterConfig)
    ensures a.database == b.database == c.database && a.table == c.table != b.table
    ensures a.adapterVersion == c.adapterVersion && b.adapterVersion == version
    ensures Preimage(a) == Preimage(b) && EndsIn(Tail(b), Tail(a))
    ensures Imitate(a, b) <==> version == c.adapterVersion
  {
    b := c.(adapterVersion := version);
    var head, head', x := SettingsHead(c), SettingsHead(b), Tail(c);
    a := c.(insertQuorum := Some(x + ([NEWLINE] + (head' + Quorum(c)))));
    b := b.(table := c.table + ([NEWLINE] + (head + x)));
    SettingsEnd(a);
    SettingsEnd(b);
    SameTails(c.table, head, head', x, Quorum(c));
    LongTable(c.database, c.table, [NEWLINE] + head, x);
  }

  lemma SameTails(table: Text, head: Text, head': Text, x: Text, q: Text)
    ensures table + ([NEWLINE] + (head + ((x + ([NEWLINE] + (head' + q))) + [NEWLINE])))
         == (table + ([NEWLINE] + (head + x))) + ([NEWLINE] + (head' + (q + [NEWLINE])))
  {
  }

  lemma LongTable(database: Text, table: Text, middle: Text, x: Text)
    requires middle != []
    ensures EndsIn([COLON] + Joined(database, DOT, table + (middle + x)), x)
  {
    var front := [COLON] + database + [DOT] + table + middle;
    assert [COLON] + Joined(database, DOT, table + (middle + x)) == front + x;
  }
}
