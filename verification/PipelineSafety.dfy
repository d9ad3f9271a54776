/**
 * What every run keeps, across crashes and restarts: the ack fields, what has landed in the
 * table, and that nothing else is there.
 */
module PipelineSafety {
  import opened Prelude
  import opened Sequences
  import opened Rows
  import opened AckCoordinators
  import opened SourceActor
  import opened Pipeline
  import opened PipelineShape
  import opened PipelineUnits

  // ---------------------------------------------------------------------
  // The invariant
  // ---------------------------------------------------------------------

  function LastAck(acked: seq<u64>, initial: Option<u64>): Option<u64> {
    if acked == [] then initial else Some(acked[|acked| - 1])
  }

  predicate Ascending(s: seq<u64>) {
    forall i, j :: 0 <= i < j < |s| ==> s[i] < s[j]
  }

  /** Where the process starts, against the durable ack it found. */
  predicate Origin(w: World, first: nat, start: Option<u64>, initial: Option<u64>) {
    match initial
    case None => first == NextAfter(w, start)
    case Some(_) => first == NextAfter(w, start) && initial == start
  }

  /** The ack_through values rise, start at the first sequence, and end at the frontier. */
  predicate AcksFollow(first: nat, frontier: Option<u64>, acked: seq<u64>, dryRun: bool) {
    match frontier
    case None => acked == []
    case Some(f) =>
      && Ascending(acked)
      && (forall i :: 0 <= i < |acked| ==> first <= acked[i])
      && (if dryRun then acked == [] else acked != [] && acked[|acked| - 1] == f)
  }

  /** The ack fields: what is acked in memory, what waits for a flush, what is durable. */
  predicate AckFields(acks: SourceAcks, lastAckSent: Option<u64>, groups: nat, initial: Option<u64>,
                      acked: seq<u64>, flushed: nat, start: Option<u64>, durable: Option<u64>) {
    match acks
    case SourceAcks(lastAcked, pendingDurable) =>
      && flushed <= |acked|
      && groups == |acked| - flushed
      && lastAckSent == LastAck(acked, initial)
      && lastAcked == LastAck(acked, initial)
      && pendingDurable == (if flushed < |acked| then Some(acked[|acked| - 1]) else None)
      && durable == (if flushed == 0 then start else Some(acked[flushed - 1]))
  }

  /** How many advances may be waiting for a flush. */
  predicate FlushInTime(phase: ActorPhase, groups: nat, policy: AckFlushPolicy) {
    match phase
    case Flushing => groups == FlushEvery(policy)
    case Failed => groups <= FlushEvery(policy)
    case Done => groups == 0
    case _ => groups < FlushEvery(policy)
  }

  /** The ack fields, the ack_through history and the durable ack agree. */
  predicate AckSound(first: nat, start: Option<u64>, phase: ActorPhase, o: Options, v: ActorVars,
                     acked: seq<u64>, flushed: nat, durable: Option<u64>) {
    match v
    case ActorVars(coord, _, lastAckSent, groups, acks) =>
      && AcksFollow(first, coord.frontier, acked, o.dryRun)
      && AckFields(acks, lastAckSent, groups, coord.initial, acked, flushed, start, durable)
      && FlushInTime(phase, groups, o.policy)
  }

  /** A writer's chunks before the current one are in the table, and so is the current one once served. */
  ghost predicate JobSound(o: Options, table: seq<Row>, job: Job) {
    match job
    case Job(q, attempt, chunk, tries, phase) =>
      && o.decodes(q)
      && attempt <= o.retries && tries < Max(o.chunkAttempts, 1)
      && chunk <= |o.plan(q)|
      && (phase.Sent? ==> chunk < |o.plan(q)|)
      && (forall k :: 0 <= k < chunk ==> AllIn(o.plan(q)[k].rows, table))
      && (phase == Sent(true) ==> AllIn(o.plan(q)[chunk].rows, table))
  }

  ghost predicate JobsSound(o: Options, table: seq<Row>, writing: seq<Job>) {
    match o
    case Options(_, _, _, _, _, _, _, _, _, _, _, _) =>
      forall i :: 0 <= i < |writing| ==> JobSound(o, table, writing[i])
  }

  /** Everything under the frontier or marked was reported written by this process, unless it is a dry run. */
  predicate MarkedWritten(dryRun: bool, first: nat, c: Coordinator, written: set<u64>) {
    match c
    case Coordinator(_, _, _, _, _, pending) =>
      if dryRun then written == {}
      else
        && (forall q: u64 :: first <= q < Base(c, first) ==> q in written)
        && (forall i :: 0 <= i < |pending| && pending[i].committed ==> pending[i].low in written)
  }

  predicate ReportsWritten(dryRun: bool, completions: seq<Completion>, written: set<u64>) {
    match dryRun
    case true => true
    case false => forall i :: 0 <= i < |completions| && completions[i].Committed? ==> completions[i].sequence in written
  }

  /** Everything written, and everything before the process started, is in the table. */
  ghost predicate WrittenLanded(w: World, first: nat, written: set<u64>, table: seq<Row>) {
    match w
    case World(origin, _, _, _) =>
      && (forall q: u64 :: q in written ==> Landed(w, table, q))
      && (forall q: nat :: origin <= q < first ==> Landed(w, table, q))
  }

  /** Only what decodes reaches the sink. */
  predicate CommitsDecode(o: Options, commits: seq<u64>) {
    match o
    case Options(_, _, _, _, _, _, _, _, _, _, decodes, _) => forall i :: 0 <= i < |commits| ==> decodes(commits[i])
  }

  /** What this process has reported written is accounted for, and is in the table. */
  ghost predicate LandSound(w: World, o: Options, first: nat, c: Coordinator, f: Flow, written: set<u64>,
                            table: seq<Row>) {
    match f
    case Flow(_, _, _, _, _, commits, writing, completions) =>
      && CommitsDecode(o, commits)
      && MarkedWritten(o.dryRun, first, c, written)
      && ReportsWritten(o.dryRun, completions, written)
      && WrittenLanded(w, first, written, table)
      && JobsSound(o, table, writing)
  }

  ghost predicate IsSourceRow(w: World, r: Row) {
    exists q: nat :: w.decodes(q) && r in w.rows(q)
  }

  ghost predicate ChunkSound(w: World, c: Chunk) {
    match c
    case Chunk(rows, token, _) =>
      w.meaning(token) == rows && (forall r :: r in rows ==> IsSourceRow(w, r))
  }

  /** The table and what may still reach it hold source rows only, and a remembered token's rows are there. */
  ghost predicate TableSound(w: World, table: seq<Row>, remembered: set<Text>, wire: seq<Chunk>) {
    match w
    case World(_, _, _, _) =>
      && (forall r :: r in table ==> IsSourceRow(w, r))
      && (forall t :: t in remembered ==> AllIn(w.meaning(t), table))
      && (forall i :: 0 <= i < |wire| ==> ChunkSound(w, wire[i]))
  }

  /** The durable ack never passes a sequence that is not in the table. */
  ghost predicate AckedLanded(w: World, durable: Option<u64>, table: seq<Row>) {
    match durable
    case None => true
    case Some(d) => forall q: nat :: w.origin <= q <= d ==> Landed(w, table, q)
  }

  ghost predicate ProcessSound(w: World, durable: Option<u64>, table: seq<Row>, p: Process) {
    match p
    case Process(o, first, start, _, phase, _, v, _, f, h) =>
      && ValidOptions(w, o)
      && Tracked(p)
      && Origin(w, first, start, v.coord.initial)
      && AckSound(first, start, phase, o, v, h.acked, h.flushed, durable)
      && LandSound(w, o, first, v.coord, f, h.written, table)
  }

  ghost predicate Invariant(w: World, s: State) {
    match s
    case State(durable, table, remembered, wire, process) =>
      && TableSound(w, table, remembered, wire)
      && AckedLanded(w, durable, table)
      && (process.Some? ==> ProcessSound(w, durable, table, process.value))
  }

  // ---------------------------------------------------------------------
  // Plans
  // ---------------------------------------------------------------------

  /** Every planned chunk holds source rows and is what its token stands for. */
  lemma PlannedChunkSound(w: World, o: Options, q: nat, k: nat)
    requires ValidOptions(w, o) && w.decodes(q) && k < |o.plan(q)|
    ensures ChunkSound(w, o.plan(q)[k])
  {
    var chunks := o.plan(q);
    assert PlanCovers(w, chunks, q);
    forall r | r in chunks[k].rows ensures IsSourceRow(w, r) {
      assert ChunkRows(chunks)[k] == chunks[k].rows;
      FlattenMember(ChunkRows(chunks), k, r);
      assert r in w.rows(q);
    }
  }

  /** When every chunk of the plan is in the table, the whole sequence has landed. */
  lemma PlanLanded(w: World, o: Options, table: seq<Row>, q: nat)
    requires ValidOptions(w, o) && w.decodes(q)
    requires forall k :: 0 <= k < |o.plan(q)| ==> AllIn(o.plan(q)[k].rows, table)
    ensures Landed(w, table, q)
  {
    var chunks := o.plan(q);
    assert PlanCovers(w, chunks, q);
    forall r | r in w.rows(q) ensures r in table {
      var k := FlattenSource(ChunkRows(chunks), r);
      assert AllIn(chunks[k].rows, table);
    }
  }

  // ---------------------------------------------------------------------
  // The table only grows
  // ---------------------------------------------------------------------

  predicate Grows(table: seq<Row>, table': seq<Row>) {
    forall r :: r in table ==> r in table'
  }

  lemma AllInGrows(rows: seq<Row>, table: seq<Row>, table': seq<Row>)
    requires AllIn(rows, table) && Grows(table, table')
    ensures AllIn(rows, table')
  {
    forall r | r in rows ensures r in table' {
      assert r in table;
    }
  }

  lemma JobsSoundGrows(o: Options, jobs: seq<Job>, table: seq<Row>, table': seq<Row>)
    requires JobsSound(o, table, jobs) && Grows(table, table')
    ensures JobsSound(o, table', jobs)
  {
    forall i | 0 <= i < |jobs| ensures JobSound(o, table', jobs[i]) {
      var job := jobs[i];
      assert JobSound(o, table, job);
      forall k | 0 <= k < job.chunk ensures AllIn(o.plan(job.sequence)[k].rows, table') {
        AllInGrows(o.plan(job.sequence)[k].rows, table, table');
      }
      if job.phase == Sent(true) {
        AllInGrows(o.plan(job.sequence)[job.chunk].rows, table, table');
      }
    }
  }

  lemma LandedGrows(w: World, first: nat, written: set<u64>, table: seq<Row>, table': seq<Row>)
    requires Grows(table, table') && WrittenLanded(w, first, written, table)
    ensures WrittenLanded(w, first, written, table')
  {
    forall q: nat | Landed(w, table, q) ensures Landed(w, table', q) {
      AllInGrows(w.rows(q), table, table');
    }
  }

  lemma AckedGrows(w: World, durable: Option<u64>, table: seq<Row>, table': seq<Row>)
    requires Grows(table, table') && AckedLanded(w, durable, table)
    ensures AckedLanded(w, durable, table')
  {
    forall q: nat | Landed(w, table, q) ensures Landed(w, table', q) {
      AllInGrows(w.rows(q), table, table');
    }
  }

  /** Receiving a sound request keeps the table sound; its rows are there afterwards either way. */
  lemma ReceiveSound(w: World, s: State, c: Chunk, skip: bool)
    requires TableSound(w, s.table, s.remembered, s.wire) && ChunkSound(w, c) && (skip ==> MaySkip(s, c))
    ensures var t := Receive(s, c, skip); TableSound(w, t.table, t.remembered, t.wire)
    ensures Grows(s.table, Receive(s, c, skip).table)
    ensures AllIn(c.rows, Receive(s, c, skip).table)
  {
    var t := Receive(s, c, skip);
    if skip {
      assert AllIn(w.meaning(c.token), s.table);
    } else {
      assert Grows(s.table, t.table);
      forall k | k in t.remembered ensures AllIn(w.meaning(k), t.table) {
        if k in s.remembered { AllInGrows(w.meaning(k), s.table, t.table); }
      }
    }
  }

  // ---------------------------------------------------------------------
  // Steps of the workers
  // ---------------------------------------------------------------------

  lemma WithJobSound(o: Options, table: seq<Row>, jobs: seq<Job>, i: nat, job: Job)
    requires JobsSound(o, table, jobs) && i < |jobs| && JobSound(o, table, job)
    ensures JobsSound(o, table, jobs[i := job])
  {
  }

  lemma EndWriteSound(o: Options, table: seq<Row>, jobs: seq<Job>, i: nat)
    requires JobsSound(o, table, jobs) && i < |jobs|
    ensures JobsSound(o, table, Without(jobs, i))
  {
    var rest := Without(jobs, i);
    forall k | 0 <= k < |rest| ensures JobSound(o, table, rest[k]) {
      assert rest[k] == if k < i then jobs[k] else jobs[k + 1];
    }
  }

  /** A worker step keeps every job sound. */
  lemma WorkJobsSound(o: Options, table: seq<Row>, f: Flow, pool: Pool, a: WorkerAction)
    requires WorkEnabled(o, f, pool, a) && JobsSound(o, table, f.writing) && CommitsDecode(o, f.commits)
    ensures JobsSound(o, table, Moved(o, f, pool, a).writing)
  {
    var f' := Moved(o, f, pool, a);
    match a
    case TakeDescriptor =>
    case FetchReturns(i) =>
    case FetchFails(i) =>
    case TakeFetched =>
    case DecodeReturns(i) =>
    case DecodeFails(i) =>
    case TakeCommit =>
    case InsertOk(i) =>
      assert JobSound(o, table, f.writing[i]);
      WithJobSound(o, table, f.writing, i, f'.writing[i]);
    case InsertRetryable(i) =>
      assert JobSound(o, table, f.writing[i]);
      WithJobSound(o, table, f.writing, i, f'.writing[i]);
    case InsertRejected(i) => EndWriteSound(o, table, f.writing, i);
    case CheckSaysOpen(i) =>
      if f.writing[i].attempt < o.retries { WithJobSound(o, table, f.writing, i, f'.writing[i]); }
      else { EndWriteSound(o, table, f.writing, i); }
    case CheckFails(i) => EndWriteSound(o, table, f.writing, i);
    case WriteReturns(i) => EndWriteSound(o, table, f.writing, i);
  }

  /** A sequence goes on to the sink only after its decode returned. */
  lemma WorkCommitsDecode(o: Options, f: Flow, pool: Pool, a: WorkerAction)
    requires WorkEnabled(o, f, pool, a) && CommitsDecode(o, f.commits)
    ensures CommitsDecode(o, Moved(o, f, pool, a).commits)
  {
    match a
    case TakeCommit =>
    case DecodeReturns(_) =>
    case _ =>
  }

  /** Recording a landed sequence as written keeps every account. */
  lemma WroteSound(w: World, first: nat, c: Coordinator, written: set<u64>, table: seq<Row>, q: u64)
    requires WrittenLanded(w, first, written, table) && Landed(w, table, q)
    requires MarkedWritten(false, first, c, written)
    ensures WrittenLanded(w, first, written + {q}, table)
    ensures MarkedWritten(false, first, c, written + {q})
  {
  }

  lemma ReportWritten(dryRun: bool, completions: seq<Completion>, written: set<u64>, written': set<u64>,
                      done: Completion)
    requires ReportsWritten(dryRun, completions, written) && written <= written'
    requires done.Committed? && !dryRun ==> done.sequence in written'
    ensures ReportsWritten(dryRun, completions + [done], written')
  {
  }

  /** A worker step's report of success is about a sequence it has just written. */
  lemma WorkReports(p: Process, a: WorkerAction)
    requires ReportsWritten(p.options.dryRun, p.flow.completions, p.history.written)
    requires WorkEnabled(p.options, p.flow, p.pool, a)
    ensures ReportsWritten(p.options.dryRun, Worked(p, a).flow.completions, Worked(p, a).history.written)
  {
    var p' := Worked(p, a);
    WorkKeepsUnits(p.options, p.flow, p.pool, a);
    match ReportOf(p.options, p.flow, a)
    case None =>
      assert p'.history == p.history && p'.flow.completions == p.flow.completions;
    case Some(done) =>
      ReportWritten(p.options.dryRun, p.flow.completions, p.history.written, p'.history.written, done);
  }

  /** A write that returns has put its whole sequence in the table. */
  lemma WorkLanded(w: World, p: Process, table: seq<Row>, a: WorkerAction)
    requires ValidOptions(w, p.options) && WorkEnabled(p.options, p.flow, p.pool, a)
    requires JobsSound(p.options, table, p.flow.writing) && WrittenLanded(w, p.first, p.history.written, table)
    requires p.options.dryRun ==> p.flow.writing == []
    requires MarkedWritten(p.options.dryRun, p.first, p.actor.coord, p.history.written)
    ensures WrittenLanded(w, p.first, Worked(p, a).history.written, table)
    ensures MarkedWritten(p.options.dryRun, p.first, p.actor.coord, Worked(p, a).history.written)
  {
    if a.WriteReturns? {
      var q := p.flow.writing[a.i].sequence;
      assert JobSound(p.options, table, p.flow.writing[a.i]);
      PlanLanded(w, p.options, table, q);
      WroteSound(w, p.first, p.actor.coord, p.history.written, table, q);
    }
  }

  lemma WorkLandSound(w: World, p: Process, table: seq<Row>, a: WorkerAction)
    requires ValidOptions(w, p.options) && Roomy(p.options, p.flow) && WorkEnabled(p.options, p.flow, p.pool, a)
    requires LandSound(w, p.options, p.first, p.actor.coord, p.flow, p.history.written, table)
    ensures LandSound(w, p.options, p.first, p.actor.coord, Worked(p, a).flow, Worked(p, a).history.written, table)
  {
    WorkLanded(w, p, table, a);
    WorkReports(p, a);
    WorkJobsSound(p.options, table, p.flow, p.pool, a);
    WorkCommitsDecode(p.options, p.flow, p.pool, a);
  }

  /** A worker step leaves the actor alone. */
  lemma WorkFields(p: Process, a: WorkerAction)
    requires WorkEnabled(p.options, p.flow, p.pool, a)
    ensures var p' := Worked(p, a);
            p' == p.(flow := p'.flow, pool := p'.pool, history := p.history.(written := p'.history.written))
  {
  }

  lemma WorkSound(w: World, durable: Option<u64>, table: seq<Row>, p: Process, a: WorkerAction)
    requires ProcessSound(w, durable, table, p) && WorkEnabled(p.options, p.flow, p.pool, a)
    ensures ProcessSound(w, durable, table, Worked(p, a))
  {
    WorkTracked(p, a);
    WorkLandSound(w, p, table, a);
    WorkFields(p, a);
    WorkedSound(w, durable, table, p, Worked(p, a));
  }

  lemma WorkedSound(w: World, durable: Option<u64>, table: seq<Row>, p: Process, p': Process)
    requires ProcessSound(w, durable, table, p) && Tracked(p')
    requires p' == p.(flow := p'.flow, pool := p'.pool, history := p.history.(written := p'.history.written))
    requires LandSound(w, p.options, p.first, p.actor.coord, p'.flow, p'.history.written, table)
    ensures ProcessSound(w, durable, table, p')
  {
  }

  // ---------------------------------------------------------------------
  // Steps of the actor
  // ---------------------------------------------------------------------

  lemma FlushInTimeLoosens(phase: ActorPhase, phase': ActorPhase, groups: nat, policy: AckFlushPolicy)
    requires FlushInTime(phase, groups, policy) && phase != Failed
    requires (phase == Flushing ==> phase' == Failed) && (phase' == Done ==> groups == 0) && phase' != Flushing
    ensures FlushInTime(phase', groups, policy)
  {
  }

  /** Gate steps and sends leave the actor's variables and the history alone. */
  lemma GateFields(p: Process, a: Action)
    requires ActionEnabled(p, a) && (GateStep(a) || a.SendDescriptor?)
    ensures var p' := Acted(p, a);
            && p' == p.(pool := p'.pool, phase := p'.phase, admissionOpen := p'.admissionOpen,
                        flow := p.flow.(toSend := p'.flow.toSend, descriptors := p'.flow.descriptors))
            && (p'.phase == p.phase || p'.phase == Failed || (p.phase != Failed && p.phase != Flushing))
            && (p'.phase == Done ==> p.phase == Done || p.options.dryRun)
            && (p'.phase == Flushing ==> p.phase == Flushing)
  {
  }

  lemma GateAcks(p: Process, durable: Option<u64>, phase: ActorPhase)
    requires AckSound(p.first, p.start, p.phase, p.options, p.actor, p.history.acked, p.history.flushed, durable)
    requires phase == p.phase || phase == Failed || (p.phase != Failed && p.phase != Flushing)
    requires phase == Done ==> p.phase == Done || p.options.dryRun
    requires phase == Flushing ==> p.phase == Flushing
    ensures AckSound(p.first, p.start, phase, p.options, p.actor, p.history.acked, p.history.flushed, durable)
  {
  }

  lemma GateSound(w: World, durable: Option<u64>, table: seq<Row>, p: Process, a: Action)
    requires ProcessSound(w, durable, table, p) && ActionEnabled(p, a) && (GateStep(a) || a.SendDescriptor?)
    ensures ProcessSound(w, durable, table, Acted(p, a))
  {
    ActionTracked(p, a);
    GateFields(p, a);
    GatedSound(w, durable, table, p, Acted(p, a));
  }

  lemma GatedSound(w: World, durable: Option<u64>, table: seq<Row>, p: Process, p': Process)
    requires ProcessSound(w, durable, table, p) && Tracked(p')
    requires p' == p.(pool := p'.pool, phase := p'.phase, admissionOpen := p'.admissionOpen,
                      flow := p.flow.(toSend := p'.flow.toSend, descriptors := p'.flow.descriptors))
    requires p'.phase == p.phase || p'.phase == Failed || (p.phase != Failed && p.phase != Flushing)
    requires p'.phase == Done ==> p.phase == Done || p.options.dryRun
    requires p'.phase == Flushing ==> p.phase == Flushing
    ensures ProcessSound(w, durable, table, p')
  {
    GateAcks(p, durable, p'.phase);
    assert LandSound(w, p.options, p.first, p.actor.coord, p'.flow, p.history.written, table);
  }

  /** A registration, field by field. */
  lemma RegisterFields(p: Process)
    requires Shaped(p.actor.coord, p.first, p.cursor) && ActionEnabled(p, RegisterOne)
    ensures var p' := AfterRegister(p);
            && p' == p.(actor := p.actor.(coord := p'.actor.coord, inFlight := p'.actor.inFlight),
                        cursor := p'.cursor, flow := p.flow.(toSend := p'.flow.toSend), phase := p'.phase)
            && p'.actor.coord.frontier == p.actor.coord.frontier && p'.actor.coord.initial == p.actor.coord.initial
            && p'.actor.coord.pending == p.actor.coord.pending + [PendingRange(p.cursor, p.cursor, false)]
            && (p'.phase.Registering? || p'.phase == Sending)
  {
    ShapedRegister(p.actor.coord, p.first, p.cursor);
  }

  lemma RegisterSound(w: World, durable: Option<u64>, table: seq<Row>, p: Process)
    requires ProcessSound(w, durable, table, p) && ActionEnabled(p, RegisterOne)
    ensures ProcessSound(w, durable, table, AfterRegister(p))
  {
    RegisterTracked(p);
    RegisterFields(p);
    RegisteredSound(w, durable, table, p, AfterRegister(p));
  }

  lemma RegisteredSound(w: World, durable: Option<u64>, table: seq<Row>, p: Process, p': Process)
    requires ProcessSound(w, durable, table, p) && Tracked(p') && p.phase.Registering? && p.cursor <= U64_MAX
    requires p' == p.(actor := p.actor.(coord := p'.actor.coord, inFlight := p'.actor.inFlight),
                      cursor := p'.cursor, flow := p.flow.(toSend := p'.flow.toSend), phase := p'.phase)
    requires p'.actor.coord.frontier == p.actor.coord.frontier && p'.actor.coord.initial == p.actor.coord.initial
    requires p'.actor.coord.pending == p.actor.coord.pending + [PendingRange(p.cursor, p.cursor, false)]
    requires p'.phase.Registering? || p'.phase == Sending
    ensures ProcessSound(w, durable, table, p')
  {
    RegisterMarked(p.options.dryRun, p.first, p.actor.coord, p'.actor.coord, p.cursor, p.history.written);
    FlushInTimeLoosens(p.phase, p'.phase, p.actor.groups, p.options.policy);
    assert LandSound(w, p.options, p.first, p'.actor.coord, p'.flow, p.history.written, table);
  }

  lemma RegisterMarked(dryRun: bool, first: nat, c: Coordinator, d: Coordinator, q: u64, written: set<u64>)
    requires MarkedWritten(dryRun, first, c, written)
    requires d.frontier == c.frontier && d.pending == c.pending + [PendingRange(q, q, false)]
    ensures MarkedWritten(dryRun, first, d, written)
  {
  }

  /** The frontier moved by `k`: the actor acks exactly if it moved, and the values go on rising. */
  lemma AckAdvances(first: nat, c: Coordinator, d: Coordinator, k: nat, v: ActorVars, acked: seq<u64>, dryRun: bool)
    requires AcksFollow(first, c.frontier, acked, dryRun)
    requires v.coord == d && v.lastAckSent == LastAck(acked, d.initial)
    requires d.initial.Some? ==> d.initial.value + 1 == first
    requires first <= Base(c, first)
    requires Base(d, first) == Base(c, first) + k && (k == 0 ==> d.frontier == c.frontier)
    ensures ShouldAck(v, dryRun) <==> k > 0 && !dryRun
    ensures ShouldAck(v, dryRun) ==> AcksFollow(first, d.frontier, acked + [d.frontier.value], dryRun)
    ensures !ShouldAck(v, dryRun) ==> AcksFollow(first, d.frontier, acked, dryRun)
  {
  }

  lemma AckFieldsStep(acks: SourceAcks, lastAckSent: Option<u64>, groups: nat, initial: Option<u64>,
                      acked: seq<u64>, flushed: nat, start: Option<u64>, durable: Option<u64>, f: u64)
    requires AckFields(acks, lastAckSent, groups, initial, acked, flushed, start, durable)
    ensures AckFields(AckedThrough(acks, f), Some(f), groups + 1, initial, acked + [f], flushed, start, durable)
  {
  }

  /** Marking `q` made `m` of the coordinator `c`, and popping `k` ranges made `d` of that. */
  predicate MarkedThenPopped(first: nat, c: Coordinator, m: Coordinator, d: Coordinator, k: nat, q: u64) {
    match c
    case Coordinator(_, _, _, _, _, pending) =>
      && first <= Base(c, first) <= q && q - Base(c, first) < |pending|
      && (forall i :: 0 <= i < |pending| ==> pending[i].low == Base(c, first) + i)
      && m.pending == pending[q - Base(c, first) := PendingRange(q, q, true)]
      && k <= |m.pending| && d.pending == m.pending[k..] && (forall i :: 0 <= i < k ==> m.pending[i].committed)
      && Base(d, first) == Base(c, first) + k
  }

  /** After marking `q` and popping `k` ranges, everything popped or marked was written. */
  lemma CommitMarked(dryRun: bool, first: nat, c: Coordinator, m: Coordinator, d: Coordinator, k: nat, q: u64,
                     written: set<u64>)
    requires MarkedWritten(dryRun, first, c, written) && (!dryRun ==> q in written)
    requires MarkedThenPopped(first, c, m, d, k, q)
    ensures MarkedWritten(dryRun, first, d, written)
  {
    if !dryRun {
      assert forall i :: 0 <= i < |m.pending| && m.pending[i].committed ==> m.pending[i].low in written;
      forall x: u64 | first <= x < Base(d, first) ensures x in written {
        if x >= Base(c, first) {
          assert m.pending[x - Base(c, first)].committed;
        }
      }
    }
  }

  lemma ReportsTail(dryRun: bool, completions: seq<Completion>, written: set<u64>)
    requires ReportsWritten(dryRun, completions, written) && completions != []
    ensures ReportsWritten(dryRun, completions[1..], written)
    ensures completions[0].Committed? && !dryRun ==> completions[0].sequence in written
  {
  }

  /** The acks after a handled commit whose mark and advance left `d`. */
  lemma CommitAcks(p: Process, durable: Option<u64>, c: Coordinator, d: Coordinator, k: nat, q: u64, p': Process)
    requires AckSound(p.first, p.start, p.phase, p.options, p.actor, p.history.acked, p.history.flushed, durable)
    requires HandlesCommit(p, q) && p' == AfterCompletion(p)
    requires c == p.actor.coord && Mark(c, q, q).Ok? && d == Advance(Mark(c, q, q).value)
    requires d.initial == c.initial && (d.initial.Some? ==> d.initial.value + 1 == p.first)
    requires p.first <= Base(c, p.first)
    requires Base(d, p.first) == Base(c, p.first) + k && (k == 0 ==> d.frontier == c.frontier)
    ensures AckSound(p.first, p.start, p'.phase, p.options, p'.actor, p'.history.acked, p'.history.flushed, durable)
    ensures p'.history.written == p.history.written
  {
    var u := p.actor.(coord := d, inFlight := p.actor.inFlight - 1);
    AckAdvances(p.first, c, d, k, u, p.history.acked, p.options.dryRun);
    if ShouldAck(u, p.options.dryRun) {
      AckFieldsStep(p.actor.acks, p.actor.lastAckSent, p.actor.groups, c.initial, p.history.acked, p.history.flushed,
                    p.start, durable, d.frontier.value);
    }
  }

  lemma CommitSound(w: World, durable: Option<u64>, table: seq<Row>, p: Process, q: u64)
    requires ProcessSound(w, durable, table, p) && HandlesCommit(p, q)
    ensures ProcessSound(w, durable, table, AfterCompletion(p))
  {
    ReportsTail(p.options.dryRun, p.flow.completions, p.history.written);
    CommitTracked(p, q);
    CommitParts(p, durable, q);
    CompletionFields(p, q);
    CommittedSound(w, durable, table, p, AfterCompletion(p));
  }

  lemma CommitParts(p: Process, durable: Option<u64>, q: u64)
    requires Tracked(p) && HandlesCommit(p, q)
    requires AckSound(p.first, p.start, p.phase, p.options, p.actor, p.history.acked, p.history.flushed, durable)
    requires MarkedWritten(p.options.dryRun, p.first, p.actor.coord, p.history.written)
    requires !p.options.dryRun ==> q in p.history.written
    ensures Mark(p.actor.coord, q, q).Ok?
    ensures var p' := AfterCompletion(p);
            && AckSound(p.first, p.start, p'.phase, p.options, p'.actor, p'.history.acked, p'.history.flushed, durable)
            && p'.history.written == p.history.written
            && MarkedWritten(p.options.dryRun, p.first, p'.actor.coord, p.history.written)
            && p'.actor.coord.initial == p.actor.coord.initial
  {
    var c := p.actor.coord;
    var m, d, k := HandledCommit(p, q);
    CompletionFields(p, q);
    CommitMarked(p.options.dryRun, p.first, c, m, d, k, q, p.history.written);
    CommitAcks(p, durable, c, d, k, q, AfterCompletion(p));
  }

  /** What the coordinator looks like after a handled commit. */
  lemma HandledCommit(p: Process, q: u64) returns (m: Coordinator, d: Coordinator, k: nat)
    requires Tracked(p) && HandlesCommit(p, q)
    ensures MarkedThenPopped(p.first, p.actor.coord, m, d, k, q)
    ensures Mark(p.actor.coord, q, q) == Ok(m) && d == Advance(m) && d.initial == p.actor.coord.initial
    ensures d.initial.Some? ==> d.initial.value + 1 == p.first
    ensures p.first <= Base(p.actor.coord, p.first) && Base(d, p.first) == Base(p.actor.coord, p.first) + k
    ensures k == 0 ==> d.frontier == p.actor.coord.frontier
  {
    assert CompletionSequences(p.flow.completions)[0] == q;
    CommittedIsOpen(p.flow, p.actor.coord, p.actor.inFlight, p.first, p.cursor, q);
    m, d, k := MarkedAndAdvanced(p.actor.coord, p.first, p.cursor, q);
  }

  lemma CommittedSound(w: World, durable: Option<u64>, table: seq<Row>, p: Process, p': Process)
    requires ProcessSound(w, durable, table, p) && Tracked(p') && p.flow.completions != []
    requires p' == p.(actor := p'.actor, flow := p.flow.(completions := p.flow.completions[1..]),
                      history := p'.history, phase := p'.phase)
    requires p'.actor.coord.initial == p.actor.coord.initial && p'.history.written == p.history.written
    requires AckSound(p.first, p.start, p'.phase, p.options, p'.actor, p'.history.acked, p'.history.flushed, durable)
    requires MarkedWritten(p.options.dryRun, p.first, p'.actor.coord, p.history.written)
    requires ReportsWritten(p.options.dryRun, p'.flow.completions, p.history.written)
    ensures ProcessSound(w, durable, table, p')
  {
    assert LandSound(w, p.options, p.first, p'.actor.coord, p'.flow, p.history.written, table);
  }

  lemma ActionSound(w: World, durable: Option<u64>, table: seq<Row>, p: Process, a: Action)
    requires ProcessSound(w, durable, table, p) && ActionEnabled(p, a)
    ensures ProcessSound(w, durable, table, Acted(p, a))
  {
    match a
    case Work(work) => WorkSound(w, durable, table, p, work);
    case RegisterOne => RegisterSound(w, durable, table, p);
    case HandleCompletion =>
      match p.flow.completions[0] {
        case Committed(q) => CommitSound(w, durable, table, p, q);
        case Fatal(_) => FatalSound(w, durable, table, p);
      }
    case _ => GateSound(w, durable, table, p, a);
  }

  lemma FatalSound(w: World, durable: Option<u64>, table: seq<Row>, p: Process)
    requires ProcessSound(w, durable, table, p) && p.phase == Idle
    ensures ProcessSound(w, durable, table, p.(phase := Failed))
  {
    FlushInTimeLoosens(p.phase, Failed, p.actor.groups, p.options.policy);
  }

  // ---------------------------------------------------------------------
  // Steps that touch what outlives the process
  // ---------------------------------------------------------------------

  lemma BootTracked(w: World, s: State, o: Options)
    requires ValidOptions(w, o)
    ensures Tracked(Boot(w, s, o))
  {
    var p := Boot(w, s, o);
    assert Shaped(p.actor.coord, p.first, p.cursor);
    assert OpenSequences(p.actor.coord.pending) == [];
    assert Placed(p.flow) == multiset{};
    assert Conserved(p.flow, p.actor.coord, 0);
  }

  lemma StartSound(w: World, s: State, o: Options)
    requires ValidOptions(w, o) && AckedLanded(w, s.durable, s.table)
    ensures ProcessSound(w, s.durable, s.table, Boot(w, s, o))
  {
    var p := Boot(w, s, o);
    BootTracked(w, s, o);
    assert AckSound(p.first, p.start, p.phase, o, p.actor, [], 0, s.durable);
    assert WrittenLanded(w, p.first, {}, s.table);
    assert JobsSound(o, s.table, []);
    assert LandSound(w, o, p.first, p.actor.coord, p.flow, {}, s.table);
  }

  /** Everything up to a non-dry-run's frontier is in the table. */
  lemma FrontierLanded(w: World, o: Options, first: nat, c: Coordinator, f: Flow, written: set<u64>, table: seq<Row>)
    requires LandSound(w, o, first, c, f, written, table) && !o.dryRun && c.frontier.Some?
    ensures AckedLanded(w, c.frontier, table)
  {
    forall q: nat | w.origin <= q <= c.frontier.value ensures Landed(w, table, q) {
      if q >= first {
        assert q in written;
      }
    }
  }

  /** A flush leaves nothing pending and the last ack_through value durable. */
  lemma FlushAcksSound(p: Process, durable: Option<u64>)
    requires AckSound(p.first, p.start, p.phase, p.options, p.actor, p.history.acked, p.history.flushed, durable)
    requires p.phase == Flushing || p.phase == FinalFlush
    ensures var p' := AfterFlushReturns(p);
            var durable' := Flushed(p.actor.acks, durable, true).1;
            && AckSound(p.first, p.start, p'.phase, p.options, p'.actor, p'.history.acked, p'.history.flushed, durable')
            && (durable' == durable || (durable' == p.actor.coord.frontier && durable'.Some? && !p.options.dryRun))
  {
  }

  lemma FlushTracked(p: Process)
    requires Tracked(p) && (p.phase == Flushing || p.phase == FinalFlush)
    ensures Tracked(AfterFlushReturns(p))
  {
  }

  lemma FlushSound(w: World, durable: Option<u64>, table: seq<Row>, p: Process)
    requires ProcessSound(w, durable, table, p) && AckedLanded(w, durable, table)
    requires p.phase == Flushing || p.phase == FinalFlush
    ensures ProcessSound(w, Flushed(p.actor.acks, durable, true).1, table, AfterFlushReturns(p))
    ensures AckedLanded(w, Flushed(p.actor.acks, durable, true).1, table)
  {
    FlushTracked(p);
    FlushAcksSound(p, durable);
    if Flushed(p.actor.acks, durable, true).1 != durable {
      FrontierLanded(w, p.options, p.first, p.actor.coord, p.flow, p.history.written, table);
    }
  }

  lemma PhaseTracked(p: Process, i: nat, phase: JobPhase)
    requires Tracked(p) && i < |p.flow.writing|
    ensures Tracked(InPhase(p, i, phase))
  {
    WithJobKeeps(p.flow, i, p.flow.writing[i].(phase := phase));
    FlowTracked(p, InPhase(p, i, phase));
  }

  /** A job moves to another phase while the table grows. */
  lemma PhaseSound(w: World, durable: Option<u64>, table: seq<Row>, table': seq<Row>, p: Process, i: nat,
                   phase: JobPhase)
    requires ProcessSound(w, durable, table, p) && Grows(table, table') && i < |p.flow.writing|
    requires JobSound(p.options, table', p.flow.writing[i].(phase := phase))
    ensures ProcessSound(w, durable, table', InPhase(p, i, phase))
  {
    PhaseTracked(p, i, phase);
    JobsSoundGrows(p.options, p.flow.writing, table, table');
    WithJobSound(p.options, table', p.flow.writing, i, p.flow.writing[i].(phase := phase));
    LandedGrows(w, p.first, p.history.written, table, table');
    assert LandSound(w, p.options, p.first, p.actor.coord, InPhase(p, i, phase).flow, p.history.written, table');
  }

  lemma TableSoundGrows(w: World, durable: Option<u64>, table: seq<Row>, table': seq<Row>, p: Process)
    requires ProcessSound(w, durable, table, p) && Grows(table, table')
    ensures ProcessSound(w, durable, table', p)
  {
    JobsSoundGrows(p.options, p.flow.writing, table, table');
    LandedGrows(w, p.first, p.history.written, table, table');
    assert LandSound(w, p.options, p.first, p.actor.coord, p.flow, p.history.written, table');
  }

  lemma CheckTracked(p: Process, i: nat)
    requires Tracked(p) && i < |p.flow.writing| && CompletionRoom(p.options, p.flow)
    ensures Tracked(AfterCheck(p, i))
  {
    var done := Committed(p.flow.writing[i].sequence);
    EndWriteReports(p.flow, i, done);
    ReportTracked(p, done, AfterCheck(p, i));
  }

  lemma CheckSound(w: World, durable: Option<u64>, table: seq<Row>, p: Process, i: nat)
    requires ProcessSound(w, durable, table, p) && i < |p.flow.writing| && CompletionRoom(p.options, p.flow)
    requires Landed(w, table, p.flow.writing[i].sequence)
    ensures ProcessSound(w, durable, table, AfterCheck(p, i))
  {
    var q, p' := p.flow.writing[i].sequence, AfterCheck(p, i);
    CheckTracked(p, i);
    assert !p.options.dryRun;
    WroteSound(w, p.first, p.actor.coord, p.history.written, table, q);
    ReportWritten(false, p.flow.completions, p.history.written, p'.history.written, Committed(q));
    EndWriteSound(p.options, table, p.flow.writing, i);
    assert LandSound(w, p.options, p.first, p.actor.coord, p'.flow, p'.history.written, table);
  }

  // ---------------------------------------------------------------------
  // Every run
  // ---------------------------------------------------------------------

  lemma SendInsertSound(w: World, s: State, i: nat)
    requires Invariant(w, s) && Enabled(w, s, SendInsert(i))
    ensures Invariant(w, Apply(w, s, SendInsert(i)))
  {
    var p := s.process.value;
    var job := p.flow.writing[i];
    PlannedChunkSound(w, p.options, job.sequence, job.chunk);
    assert JobSound(p.options, s.table, job);
    PhaseSound(w, s.durable, s.table, s.table, p, i, Sent(false));
  }

  lemma ServeSound(w: World, s: State, i: nat, skip: bool)
    requires Invariant(w, s) && Enabled(w, s, Serve(i, skip))
    ensures Invariant(w, Apply(w, s, Serve(i, skip)))
  {
    var p, c := s.process.value, ChunkIn(s, i, Sent(false));
    var job := p.flow.writing[i];
    PlannedChunkSound(w, p.options, job.sequence, job.chunk);
    ReceiveSound(w, s, c, skip);
    var t := Receive(s, c, skip);
    JobsSoundGrows(p.options, p.flow.writing, s.table, t.table);
    assert JobSound(p.options, t.table, job);
    PhaseSound(w, s.durable, s.table, t.table, p, i, Sent(true));
    AckedGrows(w, s.durable, s.table, t.table);
  }

  lemma ServeLateSound(w: World, s: State, i: nat, skip: bool)
    requires Invariant(w, s) && Enabled(w, s, ServeLate(i, skip))
    ensures Invariant(w, Apply(w, s, ServeLate(i, skip)))
  {
    ReceiveSound(w, s, s.wire[i], skip);
    var t := Receive(s, s.wire[i], skip);
    AckedGrows(w, s.durable, s.table, t.table);
    if s.process.Some? {
      TableSoundGrows(w, s.durable, s.table, t.table, s.process.value);
    }
  }

  lemma EventSound(w: World, s: State, e: Event)
    requires Invariant(w, s) && Enabled(w, s, e)
    ensures Invariant(w, Apply(w, s, e))
  {
    match e
    case Start(o) => StartSound(w, s, o);
    case Crash =>
    case SendInsert(i) => SendInsertSound(w, s, i);
    case Serve(i, skip) => ServeSound(w, s, i, skip);
    case ServeLate(i, skip) => ServeLateSound(w, s, i, skip);
    case Forget(_) =>
    case CheckSaysCommitted(i) => CheckSound(w, s.durable, s.table, s.process.value, i);
    case FlushReturns => FlushSound(w, s.durable, s.table, s.process.value);
    case Inside(a) => ActionSound(w, s.durable, s.table, s.process.value, a);
  }

  /** Every run, with any crashes and restarts, keeps the invariant. */
  lemma {:induction false} RunSound(w: World, events: seq<Event>)
    requires Exec(w, Initial(), events).Some?
    ensures Invariant(w, Exec(w, Initial(), events).value)
  {
    if events != [] {
      RunSound(w, events[..|events| - 1]);
      EventSound(w, Exec(w, Initial(), events[..|events| - 1]).value, events[|events| - 1]);
    }
  }
}
