/**
 * What holds of every run: no ack before its commit, dry runs that touch nothing, every unit in
 * one place, acks that rise and are flushed in time, and a table that deduplicates to exactly
 * the acknowledged rows.
 */
module PipelineTheorems {
  import opened Prelude
  import opened Rows
  import opened AckCoordinators
  import opened SourceActor
  import opened Pipeline
  import opened PipelineShape
  import opened PipelineUnits
  import opened PipelineSafety

  /** The run leads from the empty system to `s`. */
  ghost predicate Reaches(w: World, events: seq<Event>, s: State) {
    Exec(w, Initial(), events) == Some(s)
  }

  predicate AtMost(a: Option<u64>, b: Option<u64>) {
    a.None? || (b.Some? && a.value <= b.value)
  }

  function Or(a: Option<u64>, b: Option<u64>): Option<u64> {
    if a.Some? then a else b
  }

  // ---------------------------------------------------------------------
  // No ack before commit
  // ---------------------------------------------------------------------

  predicate WritesSequence(s: State, i: nat, q: u64) {
    s.process.Some? && i < |s.process.value.flow.writing| && s.process.value.flow.writing[i].sequence == q
  }

  /** The event is a write of `q` returning success, or a check finding `q` committed. */
  predicate CommitReport(s: State, e: Event, q: u64) {
    match e
    case CheckSaysCommitted(i) => WritesSequence(s, i, q)
    case Inside(Work(WriteReturns(i))) => WritesSequence(s, i, q)
    case _ => false
  }

  /** Event `k` of the run is such a report, and no other process has started since. */
  ghost predicate ReportedAt(w: World, events: seq<Event>, k: nat, q: u64) {
    && k < |events|
    && (match Exec(w, Initial(), events[..k])
        case None => false
        case Some(s) => Enabled(w, s, events[k]) && CommitReport(s, events[k], q))
    && (forall j :: k < j < |events| ==> !events[j].Start?)
  }

  ghost predicate WasReported(w: World, events: seq<Event>, q: u64) {
    exists k :: ReportedAt(w, events, k, q)
  }

  lemma WrittenAction(p: Process, a: Action, q: u64)
    requires ActionEnabled(p, a) && q in Acted(p, a).history.written && q !in p.history.written
    ensures a.Work? && a.work.WriteReturns? && a.work.i < |p.flow.writing| && p.flow.writing[a.work.i].sequence == q
  {
    match a
    case RegisterOne =>
    case HandleCompletion =>
    case Work(work) =>
    case _ =>
  }

  lemma WrittenStep(w: World, s: State, e: Event, q: u64)
    requires Enabled(w, s, e) && Apply(w, s, e).process.Some? && q in Apply(w, s, e).process.value.history.written
    ensures CommitReport(s, e, q) || (s.process.Some? && q in s.process.value.history.written && !e.Start?)
  {
    match e
    case Inside(a) => if q !in s.process.value.history.written { WrittenAction(s.process.value, a, q); }
    case _ =>
  }

  lemma ReportLater(w: World, events: seq<Event>, k: nat, q: u64)
    requires events != [] && !events[|events| - 1].Start? && ReportedAt(w, events[..|events| - 1], k, q)
    ensures ReportedAt(w, events, k, q)
  {
    assert events[..|events| - 1][..k] == events[..k];
  }

  /** Whatever a process holds as written, one of its own writes or checks reported. */
  lemma {:induction false} WrittenWasReported(w: World, events: seq<Event>, s: State, q: u64)
    requires Reaches(w, events, s) && s.process.Some? && q in s.process.value.history.written
    ensures WasReported(w, events, q)
  {
    var n := |events| - 1;
    var before, e := Exec(w, Initial(), events[..n]).value, events[n];
    WrittenStep(w, before, e, q);
    if CommitReport(before, e, q) {
      assert ReportedAt(w, events, n, q);
    } else {
      WrittenWasReported(w, events[..n], before, q);
      var k :| ReportedAt(w, events[..n], k, q);
      ReportLater(w, events, k, q);
    }
  }

  /**
   * In every reachable state the durable ack is at most the last ack_through value, which is at
   * most the frontier (each counted from the durable ack the process found), and every sequence
   * the frontier covers was reported committed by this process.
   */
  lemma NoAckBeforeCommit(w: World, events: seq<Event>, s: State, p: Process)
    requires Reaches(w, events, s) && s.process == Some(p)
    ensures AtMost(s.durable, Or(p.actor.acks.lastAcked, p.start))
    ensures AtMost(Or(p.actor.acks.lastAcked, p.start), Or(p.actor.coord.frontier, p.start))
    ensures p.actor.lastAckSent == p.actor.acks.lastAcked
    ensures p.first == NextAfter(w, p.start)
    ensures p.options.dryRun ==> s.durable == p.start
    ensures !p.options.dryRun && p.actor.coord.frontier.Some? ==>
              forall q: u64 :: p.first <= q <= p.actor.coord.frontier.value ==> WasReported(w, events, q)
  {
    RunSound(w, events);
    AckOrder(w, s.durable, s.table, p);
    if !p.options.dryRun && p.actor.coord.frontier.Some? {
      forall q: u64 | p.first <= q <= p.actor.coord.frontier.value ensures WasReported(w, events, q) {
        FrontierWritten(w, s.durable, s.table, p, q);
        WrittenWasReported(w, events, s, q);
      }
    }
  }

  lemma FrontierWritten(w: World, durable: Option<u64>, table: seq<Row>, p: Process, q: u64)
    requires ProcessSound(w, durable, table, p) && !p.options.dryRun
    requires p.actor.coord.frontier.Some? && p.first <= q <= p.actor.coord.frontier.value
    ensures q in p.history.written
  {
    assert MarkedWritten(p.options.dryRun, p.first, p.actor.coord, p.history.written);
    assert q < Base(p.actor.coord, p.first);
  }

  lemma AckOrder(w: World, durable: Option<u64>, table: seq<Row>, p: Process)
    requires ProcessSound(w, durable, table, p)
    ensures AtMost(durable, Or(p.actor.acks.lastAcked, p.start))
    ensures AtMost(Or(p.actor.acks.lastAcked, p.start), Or(p.actor.coord.frontier, p.start))
    ensures p.actor.lastAckSent == p.actor.acks.lastAcked
    ensures p.first == NextAfter(w, p.start)
    ensures p.options.dryRun ==> durable == p.start
  {
    var acked, flushed := p.history.acked, p.history.flushed;
    assert AckFields(p.actor.acks, p.actor.lastAckSent, p.actor.groups, p.actor.coord.initial, acked, flushed,
                     p.start, durable);
    assert AcksFollow(p.first, p.actor.coord.frontier, acked, p.options.dryRun);
    assert Shaped(p.actor.coord, p.first, p.cursor);
    assert p.first <= Base(p.actor.coord, p.first);
    assert 0 < flushed < |acked| ==> acked[flushed - 1] < acked[|acked| - 1];
  }

  /** How many frontier advances a policy lets wait for one flush. */
  function AdvancesPerFlush(policy: AckFlushPolicy): nat {
    match policy
    case EveryCommitGroup => 1
    case EveryN(n) => if n <= 1 then 1 else n
  }

  /**
   * The ack_through values strictly rise. The actor flushes on a completion exactly when the frontier
   * advances that wait have reached the policy's number, so fewer than that wait at any other time,
   * and with one flush a group the durable ack is the last ack_through value.
   */
  lemma FlushPolicyHolds(w: World, events: seq<Event>, s: State, p: Process)
    requires Reaches(w, events, s) && s.process == Some(p)
    ensures Ascending(p.history.acked)
    ensures var waiting := |p.history.acked| - p.history.flushed;
            && (p.phase == Flushing ==> waiting == AdvancesPerFlush(p.options.policy))
            && (p.phase != Flushing && p.phase != Failed ==> waiting < AdvancesPerFlush(p.options.policy))
            && waiting <= AdvancesPerFlush(p.options.policy)
    ensures p.options.policy == EveryCommitGroup && p.phase == Idle ==>
              s.durable == Or(p.actor.acks.lastAcked, p.start)
  {
    RunSound(w, events);
    AckOrder(w, s.durable, s.table, p);
    FlushedInTime(p, s.durable);
  }

  lemma FlushedInTime(p: Process, durable: Option<u64>)
    requires AckSound(p.first, p.start, p.phase, p.options, p.actor, p.history.acked, p.history.flushed, durable)
    ensures Ascending(p.history.acked)
    ensures var waiting := |p.history.acked| - p.history.flushed;
            && (p.phase == Flushing ==> waiting == AdvancesPerFlush(p.options.policy))
            && (p.phase != Flushing && p.phase != Failed ==> waiting < AdvancesPerFlush(p.options.policy))
            && waiting <= AdvancesPerFlush(p.options.policy)
    ensures p.options.policy == EveryCommitGroup && p.phase == Idle && p.history.acked != [] ==>
              durable == p.actor.acks.lastAcked && durable.Some?
    ensures p.history.acked == [] ==> durable == p.start
  {
    assert AcksFollow(p.first, p.actor.coord.frontier, p.history.acked, p.options.dryRun);
    assert FlushInTime(p.phase, p.actor.groups, p.options.policy);
  }

  // ---------------------------------------------------------------------
  // Dry runs
  // ---------------------------------------------------------------------

  /** No step of a dry-run process changes the durable ack or sends or serves an insert of its own. */
  lemma DryRunStep(w: World, s: State, e: Event)
    requires Invariant(w, s) && Enabled(w, s, e) && s.process.Some? && s.process.value.options.dryRun
    ensures Apply(w, s, e).durable == s.durable && Apply(w, s, e).wire == s.wire
    ensures !e.ServeLate? ==> Apply(w, s, e).table == s.table
    ensures Apply(w, s, e).process.Some? ==> Apply(w, s, e).process.value.options == s.process.value.options
  {
    var p := s.process.value;
    assert Roomy(p.options, p.flow);
    assert Orderly(p.phase, true, p.admissionOpen, p.flow.toSend, p.actor.inFlight, p.cursor);
    match e
    case Inside(a) => OptionsFixed(p, a);
    case _ =>
  }

  lemma OptionsFixed(p: Process, a: Action)
    requires ActionEnabled(p, a)
    ensures Acted(p, a).options == p.options && Acted(p, a).first == p.first && Acted(p, a).start == p.start
  {
    match a
    case RegisterOne =>
    case HandleCompletion =>
    case _ =>
  }

  /**
   * A dry run changes neither the durable ack nor what is on its way to the server, and the
   * table changes only by requests that an earlier process had sent.
   */
  lemma {:induction false} DryRunTouchesNothing(w: World, before: seq<Event>, s: State, o: Options,
                                                run: seq<Event>, t: State)
    requires Reaches(w, before, s) && o.dryRun
    requires Reaches(w, before + [Start(o)] + run, t)
    requires forall i :: 0 <= i < |run| ==> !run[i].Start?
    ensures t.durable == s.durable && t.wire == s.wire
    ensures (forall i :: 0 <= i < |run| ==> !run[i].ServeLate?) ==> t.table == s.table
    ensures t.process.Some? ==> t.process.value.options == o
  {
    var events := before + [Start(o)] + run;
    var n := |events| - 1;
    if run == [] {
      assert events[..n] == before;
    } else {
      var run' := run[..|run| - 1];
      assert events[..n] == before + [Start(o)] + run';
      var u := Exec(w, Initial(), events[..n]).value;
      DryRunTouchesNothing(w, before, s, o, run', u);
      RunSound(w, events[..n]);
      var e := events[n];
      assert e == run[|run| - 1];
      if u.process.Some? {
        DryRunStep(w, u, e);
      }
    }
  }

  // ---------------------------------------------------------------------
  // Conservation
  // ---------------------------------------------------------------------

  lemma ConsCount(a: u64, rest: seq<u64>, q: u64)
    ensures multiset([a] + rest)[q] == (if a == q then 1 else 0) + multiset(rest)[q]
  {
  }

  predicate WaitsAt(pending: seq<PendingRange>, base: nat, q: nat) {
    base <= q < base + |pending| && !pending[q - base].committed
  }

  lemma {:induction false} OpenOnce(pending: seq<PendingRange>, base: nat, q: u64)
    requires forall i :: 0 <= i < |pending| ==> pending[i].low == base + i
    ensures multiset(OpenSequences(pending))[q] == if WaitsAt(pending, base, q) then 1 else 0
  {
    if pending != [] {
      var rest := pending[1..];
      assert forall i :: 0 <= i < |rest| ==> rest[i] == pending[i + 1];
      OpenOnce(rest, base + 1, q);
      assert q > base ==> WaitsAt(pending, base, q) == WaitsAt(rest, base + 1, q);
      ConsCount(pending[0].low, OpenSequences(rest), q);
      assert pending[0].committed ==> OpenSequences(pending) == OpenSequences(rest);
    }
  }

  lemma PlacedSize(f: Flow)
    ensures |Placed(f)| == StageCount(f) + |f.completions|
  {
  }

  /**
   * Every admitted sequence is in exactly one place until its completion is handled, and no other
   * sequence is anywhere; the actor's count is the number of uncommitted ranges and is at most
   * twice the permits; available, gate-held, unit-held and retiring permits add up.
   */
  lemma UnitsConserved(w: World, events: seq<Event>, s: State, p: Process, q: u64)
    requires Reaches(w, events, s) && s.process == Some(p)
    ensures Placed(p.flow)[q] ==
              if WaitsAt(p.actor.coord.pending, Base(p.actor.coord, p.first), q) then 1 else 0
    ensures p.actor.inFlight == |OpenSequences(p.actor.coord.pending)| == |Placed(p.flow)|
    ensures p.actor.inFlight <= 2 * p.options.maxInflight
    ensures p.pool.permits + GatePermits(p.phase) + StageCount(p.flow) + p.pool.retiring == p.options.maxInflight
    ensures p.flow.completions != [] ==> p.actor.inFlight > 0
  {
    RunSound(w, events);
    PlacedOnce(p, q);
  }

  lemma PlacedOnce(p: Process, q: u64)
    requires Tracked(p)
    ensures Placed(p.flow)[q] ==
              if WaitsAt(p.actor.coord.pending, Base(p.actor.coord, p.first), q) then 1 else 0
    ensures p.actor.inFlight == |OpenSequences(p.actor.coord.pending)| == |Placed(p.flow)|
    ensures p.actor.inFlight <= 2 * p.options.maxInflight
    ensures p.pool.permits + GatePermits(p.phase) + StageCount(p.flow) + p.pool.retiring == p.options.maxInflight
    ensures p.flow.completions != [] ==> p.actor.inFlight > 0
  {
    PlacedSize(p.flow);
    assert Shaped(p.actor.coord, p.first, p.cursor);
    OpenOnce(p.actor.coord.pending, Base(p.actor.coord, p.first), q);
    assert Roomy(p.options, p.flow);
    assert |multiset(OpenSequences(p.actor.coord.pending))| == |OpenSequences(p.actor.coord.pending)|;
  }

  /** No registration the actor makes is ever rejected. */
  lemma RegisterNeverRejects(w: World, events: seq<Event>, s: State, p: Process)
    requires Reaches(w, events, s) && s.process == Some(p) && p.phase.Registering? && p.cursor <= U64_MAX
    ensures Register(p.actor.coord, p.cursor, p.cursor).Ok?
  {
    RunSound(w, events);
    ShapedRegister(p.actor.coord, p.first, p.cursor);
  }

  /** No mark the actor makes is ever rejected. */
  lemma MarkNeverRejects(w: World, events: seq<Event>, s: State, p: Process, q: u64)
    requires Reaches(w, events, s) && s.process == Some(p) && HandlesCommit(p, q)
    ensures Mark(p.actor.coord, q, q).Ok?
  {
    RunSound(w, events);
    var m, d, k := HandledCommit(p, q);
  }

  lemma SentChunkSound(w: World, events: seq<Event>, s: State, i: nat)
    requires Reaches(w, events, s) && InsertIn(s, i, Sent(false))
    ensures ChunkSound(w, ChunkIn(s, i, Sent(false)))
  {
    RunSound(w, events);
    var p := s.process.value;
    PlannedChunkSound(w, p.options, p.flow.writing[i].sequence, p.flow.writing[i].chunk);
  }

  lemma TableStaysSound(w: World, events: seq<Event>, s: State)
    requires Reaches(w, events, s)
    ensures TableSound(w, s.table, s.remembered, s.wire)
  {
    RunSound(w, events);
  }

  lemma RememberedIn(w: World, s: State, c: Chunk)
    requires TableSound(w, s.table, s.remembered, s.wire) && ChunkSound(w, c) && MaySkip(s, c)
    ensures AllIn(c.rows, s.table)
  {
  }

  /** Whenever the server drops a request for its token, every row of it is in the table already. */
  lemma SkipLosesNothing(w: World, events: seq<Event>, s: State, i: nat)
    requires Reaches(w, events, s)
    ensures Enabled(w, s, ServeLate(i, true)) ==> AllIn(s.wire[i].rows, s.table)
    ensures Enabled(w, s, Serve(i, true)) ==> AllIn(ChunkIn(s, i, Sent(false)).rows, s.table)
  {
    TableStaysSound(w, events, s);
    if Enabled(w, s, Serve(i, true)) {
      SentChunkSound(w, events, s, i);
      RememberedIn(w, s, ChunkIn(s, i, Sent(false)));
    }
    if Enabled(w, s, ServeLate(i, true)) {
      RememberedIn(w, s, s.wire[i]);
    }
  }

  // ---------------------------------------------------------------------
  // Exactly once
  // ---------------------------------------------------------------------

  predicate HasKey(table: seq<Row>, key: Key) {
    exists i :: 0 <= i < |table| && RowKey(table[i]) == key
  }

  /** The table with one row kept for each key: what reading it deduplicated by key gives. */
  function Collapse(table: seq<Row>): seq<Row> {
    if table == [] then []
    else
      var rest := table[..|table| - 1];
      if HasKey(rest, RowKey(table[|table| - 1])) then Collapse(rest) else Collapse(rest) + [table[|table| - 1]]
  }

  /** Source rows with equal keys are equal. */
  ghost predicate KeysTell(w: World) {
    forall q: nat, q': nat, r, r' ::
      w.decodes(q) && w.decodes(q') && r in w.rows(q) && r' in w.rows(q') && RowKey(r) == RowKey(r') ==> r == r'
  }

  lemma {:induction false} CollapseMembers(table: seq<Row>, r: Row)
    ensures r in Collapse(table) ==> r in table
  {
    if table != [] {
      CollapseMembers(table[..|table| - 1], r);
    }
  }

  lemma {:induction false} CollapseCount(w: World, table: seq<Row>, r: Row)
    requires KeysTell(w) && IsSourceRow(w, r) && forall x :: x in table ==> IsSourceRow(w, x)
    ensures multiset(Collapse(table))[r] == if r in table then 1 else 0
  {
    if table != [] {
      var n := |table| - 1;
      var rest, last := table[..n], table[n];
      assert table == rest + [last];
      CollapseCount(w, rest, r);
      if last == r {
        if HasKey(rest, RowKey(last)) {
          var i :| 0 <= i < |rest| && RowKey(rest[i]) == RowKey(last);
          assert rest[i] in table;
          assert rest[i] == r;
        } else {
          assert r !in rest;
        }
      }
    }
  }

  /**
   * Over every run, with any crashes, restarts, retries, ambiguous writes, late requests and
   * forgotten tokens: reading the table deduplicated by key gives every row of every durably
   * acked sequence exactly once, and nothing that is not a source row.
   */
  lemma ExactlyOnce(w: World, events: seq<Event>, s: State)
    requires Reaches(w, events, s) && KeysTell(w)
    ensures s.durable.Some? ==>
              forall q: nat, r :: w.origin <= q <= s.durable.value && r in w.rows(q) ==>
                multiset(Collapse(s.table))[r] == 1
    ensures forall r :: r in Collapse(s.table) ==> IsSourceRow(w, r) && multiset(Collapse(s.table))[r] == 1
  {
    RunSound(w, events);
    assert TableSound(w, s.table, s.remembered, s.wire);
    if s.durable.Some? {
      assert AckedLanded(w, s.durable, s.table);
      forall q: nat, r | w.origin <= q <= s.durable.value && r in w.rows(q)
        ensures multiset(Collapse(s.table))[r] == 1
      {
        assert Landed(w, s.table, q);
        CollapseCount(w, s.table, r);
      }
    }
    forall r | r in Collapse(s.table) ensures IsSourceRow(w, r) && multiset(Collapse(s.table))[r] == 1 {
      CollapseMembers(s.table, r);
      CollapseCount(w, s.table, r);
    }
  }

  // ---------------------------------------------------------------------
  // The coordinator's baseline
  // ---------------------------------------------------------------------

  lemma ActionKeepsBaseline(p: Process, a: Action)
    requires ActionEnabled(p, a)
    ensures Acted(p, a).actor.coord.initial == p.actor.coord.initial && Acted(p, a).start == p.start
    ensures Acted(p, a).options == p.options
  {
    OptionsFixed(p, a);
    match a
    case Work(work) => assert Worked(p, work).actor == p.actor;
    case RegisterOne =>
    case HandleCompletion =>
    case _ =>
  }

  /** A coordinator keeps the baseline it was built with: the durable ack found, if that was known. */
  lemma {:induction false} BaselineKept(w: World, events: seq<Event>, s: State)
    requires Reaches(w, events, s)
    ensures s.process.Some? ==>
              var p := s.process.value;
              p.actor.coord.initial == if p.options.baselineKnown then p.start else None
  {
    if events != [] {
      var n := |events| - 1;
      var before := Exec(w, Initial(), events[..n]).value;
      BaselineKept(w, events[..n], before);
      match events[n]
      case Inside(a) => ActionKeepsBaseline(before.process.value, a);
      case _ =>
    }
  }

  /** The durable ack never reaches a sequence that does not decode. */
  lemma AckedDecodes(w: World, events: seq<Event>, s: State, q: nat)
    requires Reaches(w, events, s) && s.durable.Some? && w.origin <= q <= s.durable.value
    ensures w.decodes(q) && Landed(w, s.table, q)
  {
    RunSound(w, events);
    assert AckedLanded(w, s.durable, s.table);
    assert Landed(w, s.table, q);
  }
}
