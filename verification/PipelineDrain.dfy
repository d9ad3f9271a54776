/**
 * The drain after shutdown: a measure over phases, stages, remaining chunks, tries and retries that
 * every step of the process lowers, and what a clean exit leaves.
 */
module PipelineDrain {
  import opened Prelude
  import opened Sequences
  import opened Rows
  import opened Pipeline
  import opened PipelineShape
  import opened PipelineUnits
  import opened PipelineSafety
  import opened PipelineTheorems
  import opened PipelineProgress

  // ---------------------------------------------------------------------
  // The measure
  // ---------------------------------------------------------------------

  function Left(total: nat, done: nat): nat {
    if done <= total then total - done else 0
  }

  function PhaseRank(phase: JobPhase): nat {
    match phase
    case Ready => 3
    case Sent(served) => if served then 1 else 2
    case Checking => 0
  }

  function ChunkCost(o: Options): nat {
    4 * Max(o.chunkAttempts, 1) + 4
  }

  function PassCost(o: Options, chunks: nat): nat {
    chunks * ChunkCost(o) + ChunkCost(o)
  }

  /** Remaining retries, then chunks of this pass, then tries of this chunk, then its request. */
  function JobRank(o: Options, job: Job): nat {
    var chunks := |o.plan(job.sequence)|;
    Left(o.retries, job.attempt) * PassCost(o, chunks)
    + Left(chunks, job.chunk) * ChunkCost(o)
    + 4 * Left(Max(o.chunkAttempts, 1), job.tries)
    + PhaseRank(job.phase)
  }

  function StageWeight(o: Options, stage: nat): u64 -> nat {
    q => stage + JobRank(o, Job(q, 0, 0, 0, Ready))
  }

  function JobWeight(o: Options): Job -> nat {
    job => 5 + JobRank(o, job)
  }

  function FlowRank(o: Options, f: Flow): nat {
    Total(StageWeight(o, 11), f.toSend) + Total(StageWeight(o, 10), f.descriptors)
    + Total(StageWeight(o, 9), f.fetching) + Total(StageWeight(o, 8), f.fetched)
    + Total(StageWeight(o, 7), f.decoding) + Total(StageWeight(o, 6), f.commits)
    + Total(JobWeight(o), f.writing) + 3 * |f.completions|
  }

  function ActorRank(phase: ActorPhase): nat {
    match phase
    case Flushing => 3
    case FinalFlush => 1
    case Done => 0
    case Failed => 0
    case _ => 2
  }

  function DrainRank(p: Process): nat {
    FlowRank(p.options, p.flow) + p.pool.retiring + ActorRank(p.phase)
  }

  // ---------------------------------------------------------------------
  // Jobs
  // ---------------------------------------------------------------------

  lemma NextTry(o: Options, table: seq<Row>, job: Job)
    requires JobSound(o, table, job) && job.phase.Sent?
    ensures JobRank(o, AfterRetryable(o, job)) < JobRank(o, job)
  {
  }

  lemma NextChunk(o: Options, table: seq<Row>, job: Job)
    requires JobSound(o, table, job) && job.phase.Sent? && job.chunk < |o.plan(job.sequence)|
    ensures JobRank(o, job.(chunk := job.chunk + 1, tries := 0, phase := Ready)) < JobRank(o, job)
  {
    var c, n := ChunkCost(o), |o.plan(job.sequence)|;
    assert (n - job.chunk) * c == (n - job.chunk - 1) * c + c;
  }

  lemma NextPass(o: Options, table: seq<Row>, job: Job)
    requires JobSound(o, table, job) && job.attempt < o.retries
    ensures JobRank(o, Job(job.sequence, job.attempt + 1, 0, 0, Ready)) < JobRank(o, job)
  {
    var c, n := ChunkCost(o), |o.plan(job.sequence)|;
    var pass := PassCost(o, n);
    assert (o.retries - job.attempt) * pass == (o.retries - job.attempt - 1) * pass + pass;
    assert (n - job.chunk) * c >= 0;
  }

  // ---------------------------------------------------------------------
  // Steps
  // ---------------------------------------------------------------------

  lemma WithJobDrains(o: Options, f: Flow, i: nat, job: Job)
    requires i < |f.writing| && JobRank(o, job) < JobRank(o, f.writing[i])
    ensures FlowRank(o, WithJob(f, i, job)) < FlowRank(o, f)
  {
    TotalUpdate(JobWeight(o), f.writing, i, job);
  }

  lemma EndWriteDrains(o: Options, f: Flow, i: nat, done: Completion)
    requires i < |f.writing|
    ensures FlowRank(o, EndWrite(f, i, done)) + 1 < FlowRank(o, f)
  {
    TotalWithout(JobWeight(o), f.writing, i);
  }

  lemma EndDecodeDrains(o: Options, f: Flow, i: nat, done: Completion)
    requires i < |f.decoding|
    ensures FlowRank(o, EndDecode(f, i, done)) + 1 < FlowRank(o, f)
  {
    TotalWithout(StageWeight(o, 7), f.decoding, i);
  }

  lemma EndFetchDrains(o: Options, f: Flow, i: nat, done: Completion)
    requires i < |f.fetching|
    ensures FlowRank(o, EndFetch(f, i, done)) + 1 < FlowRank(o, f)
  {
    TotalWithout(StageWeight(o, 9), f.fetching, i);
  }

  lemma TakeDrains(o: Options, f: Flow, pool: Pool, a: WorkerAction)
    requires WorkEnabled(o, f, pool, a) && (a.TakeDescriptor? || a.TakeFetched? || a.TakeCommit?)
    ensures FlowRank(o, Moved(o, f, pool, a)) < FlowRank(o, f)
  {
    match a
    case TakeDescriptor => TotalSnoc(StageWeight(o, 9), f.fetching, f.descriptors[0]);
    case TakeFetched => TotalSnoc(StageWeight(o, 7), f.decoding, f.fetched[0]);
    case TakeCommit => TotalSnoc(JobWeight(o), f.writing, Job(f.commits[0], 0, 0, 0, Ready));
  }

  lemma ReturnDrains(o: Options, f: Flow, pool: Pool, a: WorkerAction)
    requires WorkEnabled(o, f, pool, a) && (a.FetchReturns? || (a.DecodeReturns? && !o.dryRun))
    ensures FlowRank(o, Moved(o, f, pool, a)) < FlowRank(o, f)
  {
    match a
    case FetchReturns(i) =>
      TotalWithout(StageWeight(o, 9), f.fetching, i);
      TotalSnoc(StageWeight(o, 8), f.fetched, f.fetching[i]);
    case DecodeReturns(i) =>
      TotalWithout(StageWeight(o, 7), f.decoding, i);
      TotalSnoc(StageWeight(o, 6), f.commits, f.decoding[i]);
  }

  /** An answer to a request or a check that keeps the job: the next chunk, try or pass. */
  function NextJob(o: Options, job: Job, a: WorkerAction): Job {
    match a
    case InsertOk(_) => job.(chunk := job.chunk + 1, tries := 0, phase := Ready)
    case InsertRetryable(_) => AfterRetryable(o, job)
    case _ => Job(job.sequence, job.attempt + 1, 0, 0, Ready)
  }

  predicate Answers(o: Options, f: Flow, a: WorkerAction) {
    match a
    case InsertOk(i) => HasChunk(o, f, i) && f.writing[i].phase.Sent?
    case InsertRetryable(i) => HasChunk(o, f, i) && f.writing[i].phase.Sent?
    case CheckSaysOpen(i) => i < |f.writing| && f.writing[i].attempt < o.retries
    case _ => false
  }

  lemma NextRank(o: Options, table: seq<Row>, f: Flow, a: WorkerAction)
    requires Answers(o, f, a) && JobSound(o, table, f.writing[a.i])
    ensures JobRank(o, NextJob(o, f.writing[a.i], a)) < JobRank(o, f.writing[a.i])
  {
    match a
    case InsertOk(i) => NextChunk(o, table, f.writing[i]);
    case InsertRetryable(i) => NextTry(o, table, f.writing[i]);
    case CheckSaysOpen(i) => NextPass(o, table, f.writing[i]);
  }

  lemma AnswerMoves(o: Options, f: Flow, pool: Pool, a: WorkerAction)
    requires WorkEnabled(o, f, pool, a)
    requires a.InsertOk? || a.InsertRetryable? || (a.CheckSaysOpen? && f.writing[a.i].attempt < o.retries)
    ensures Answers(o, f, a) && Moved(o, f, pool, a) == WithJob(f, a.i, NextJob(o, f.writing[a.i], a))
  {
  }

  lemma AnswerDrains(o: Options, table: seq<Row>, f: Flow, pool: Pool, a: WorkerAction)
    requires WorkEnabled(o, f, pool, a) && JobsSound(o, table, f.writing)
    requires a.InsertOk? || a.InsertRetryable? || (a.CheckSaysOpen? && f.writing[a.i].attempt < o.retries)
    ensures FlowRank(o, Moved(o, f, pool, a)) < FlowRank(o, f)
  {
    AnswerMoves(o, f, pool, a);
    NextRank(o, table, f, a);
    WithJobDrains(o, f, a.i, NextJob(o, f.writing[a.i], a));
  }

  /** A report trades the unit for a message and a permit about to be dropped. */
  lemma ReportDrains(o: Options, f: Flow, pool: Pool, a: WorkerAction)
    requires WorkEnabled(o, f, pool, a) && ReportOf(o, f, a).Some?
    ensures FlowRank(o, Moved(o, f, pool, a)) + 1 < FlowRank(o, f)
  {
    var done := ReportOf(o, f, a).value;
    match a
    case FetchFails(i) => EndFetchDrains(o, f, i, done);
    case DecodeReturns(i) => EndDecodeDrains(o, f, i, done);
    case DecodeFails(i) => EndDecodeDrains(o, f, i, done);
    case InsertRejected(i) => EndWriteDrains(o, f, i, done);
    case CheckSaysOpen(i) => EndWriteDrains(o, f, i, done);
    case CheckFails(i) => EndWriteDrains(o, f, i, done);
    case WriteReturns(i) => EndWriteDrains(o, f, i, done);
  }

  lemma WorkDrains(o: Options, table: seq<Row>, f: Flow, pool: Pool, a: WorkerAction)
    requires WorkEnabled(o, f, pool, a) && JobsSound(o, table, f.writing)
    ensures FlowRank(o, Moved(o, f, pool, a)) + (if Reports(f, Moved(o, f, pool, a)) then 1 else 0) < FlowRank(o, f)
  {
    WorkKeepsUnits(o, f, pool, a);
    if ReportOf(o, f, a).Some? {
      ReportDrains(o, f, pool, a);
    } else if a.TakeDescriptor? || a.TakeFetched? || a.TakeCommit? {
      TakeDrains(o, f, pool, a);
    } else if a.FetchReturns? || a.DecodeReturns? {
      ReturnDrains(o, f, pool, a);
    } else {
      AnswerDrains(o, table, f, pool, a);
    }
  }

  lemma WorkedDrains(p: Process, table: seq<Row>, a: WorkerAction)
    requires WorkEnabled(p.options, p.flow, p.pool, a) && JobsSound(p.options, table, p.flow.writing)
    ensures DrainRank(Worked(p, a)) < DrainRank(p)
  {
    WorkDrains(p.options, table, p.flow, p.pool, a);
  }

  /** Handling a message drops it, at the price of at most one flush. */
  lemma CompletionDrains(p: Process)
    requires ActionEnabled(p, HandleCompletion)
    ensures DrainRank(AfterCompletion(p)) < DrainRank(p) && AfterCompletion(p).admissionOpen == p.admissionOpen
  {
  }

  lemma ActionDrains(p: Process, table: seq<Row>, a: Action)
    requires Orderly(p.phase, p.options.dryRun, false, p.flow.toSend, p.actor.inFlight, p.cursor)
    requires JobsSound(p.options, table, p.flow.writing) && ActionEnabled(p, a) && !p.admissionOpen
    ensures DrainRank(Acted(p, a)) < DrainRank(p) && !Acted(p, a).admissionOpen
  {
    match a
    case Work(work) => WorkedDrains(p, table, work);
    case HandleCompletion => CompletionDrains(p);
    case _ =>
  }

  lemma PhaseDrains(p: Process, i: nat, phase: JobPhase)
    requires i < |p.flow.writing| && PhaseRank(phase) < PhaseRank(p.flow.writing[i].phase)
    ensures DrainRank(InPhase(p, i, phase)) < DrainRank(p)
  {
    WithJobDrains(p.options, p.flow, i, p.flow.writing[i].(phase := phase));
  }

  lemma CheckDrains(p: Process, i: nat)
    requires i < |p.flow.writing|
    ensures DrainRank(AfterCheck(p, i)) < DrainRank(p)
  {
    EndWriteDrains(p.options, p.flow, i, Committed(p.flow.writing[i].sequence));
  }

  lemma FlushDrains(p: Process)
    requires p.phase == Flushing || p.phase == FinalFlush
    ensures DrainRank(AfterFlushReturns(p)) < DrainRank(p)
  {
  }

  lemma InsideDrains(w: World, s: State, a: Action)
    requires Invariant(w, s) && s.process.Some? && ActionEnabled(s.process.value, a) && !s.process.value.admissionOpen
    ensures DrainRank(Acted(s.process.value, a)) < DrainRank(s.process.value)
    ensures !Acted(s.process.value, a).admissionOpen
  {
    ActionDrains(s.process.value, s.table, a);
  }

  /** What does not belong to the running process. */
  predicate Outside(e: Event) {
    e.ServeLate? || e.Forget?
  }

  lemma OutsideKeeps(w: World, s: State, e: Event)
    requires Enabled(w, s, e) && Outside(e)
    ensures Apply(w, s, e).process == s.process
  {
  }

  /** After shutdown every step of the process lowers the measure, and admission stays closed. */
  lemma EventDrains(w: World, s: State, e: Event)
    requires Invariant(w, s) && Enabled(w, s, e) && s.process.Some? && !s.process.value.admissionOpen
    requires !e.Crash? && !Outside(e)
    ensures Apply(w, s, e).process.Some? && !Apply(w, s, e).process.value.admissionOpen
    ensures DrainRank(Apply(w, s, e).process.value) < DrainRank(s.process.value)
  {
    var p := s.process.value;
    match e
    case SendInsert(i) => PhaseDrains(p, i, Sent(false));
    case Serve(i, _) => PhaseDrains(p, i, Sent(true));
    case CheckSaysCommitted(i) => CheckDrains(p, i);
    case FlushReturns => FlushDrains(p);
    case Inside(a) => InsideDrains(w, s, a);
  }

  /** How many steps of the process a run holds. */
  function OwnSteps(run: seq<Event>): nat {
    if run == [] then 0 else OwnSteps(run[..|run| - 1]) + (if Outside(run[|run| - 1]) then 0 else 1)
  }

  /** From any reachable state after shutdown, a process takes at most `DrainRank` more steps. */
  lemma {:induction false} DrainTerminates(w: World, before: seq<Event>, s: State, run: seq<Event>, t: State)
    requires Reaches(w, before, s) && s.process.Some? && !s.process.value.admissionOpen
    requires Reaches(w, before + run, t) && forall i :: 0 <= i < |run| ==> !run[i].Crash?
    ensures t.process.Some? && !t.process.value.admissionOpen
    ensures OwnSteps(run) + DrainRank(t.process.value) <= DrainRank(s.process.value)
  {
    if run == [] {
      assert before + run == before;
    } else {
      var events, n := before + run, |before + run| - 1;
      var run' := run[..|run| - 1];
      assert events[..n] == before + run';
      var u := Exec(w, Initial(), events[..n]).value;
      DrainTerminates(w, before, s, run', u);
      RunSound(w, events[..n]);
      assert events[n] == run[|run| - 1];
      if Outside(events[n]) {
        OutsideKeeps(w, u, events[n]);
      } else {
        EventDrains(w, u, events[n]);
      }
    }
  }

  /**
   * A failure-free drain that is not done can go on without a failure unless, and only unless,
   * nothing but failures is left.
   */
  lemma DrainGoesOn(w: World, events: seq<Event>, s: State, p: Process)
    requires Reaches(w, events, s) && s.process == Some(p) && !p.admissionOpen && FailureFree(p) && p.phase != Done
    ensures CanProgress(w, s, p) <==> p.actor.inFlight == 0 || !Stuck(w, s.table, p)
  {
    if p.actor.inFlight > 0 {
      NoDeadlock(w, events, s, p);
    } else {
      RunSound(w, events);
      assert Orderly(p.phase, p.options.dryRun, false, p.flow.toSend, p.actor.inFlight, p.cursor);
      var e := if p.phase == Idle then Inside(Exit) else FlushReturns;
      assert Progress(p, e) && Enabled(w, s, e);
    }
  }

  /**
   * A process that exits cleanly has nothing pending: its frontier is the last registered sequence
   * and, unless it was a dry run, so is the durable ack. If it registered nothing, the durable ack
   * is the one it found.
   */
  lemma CleanExit(w: World, events: seq<Event>, s: State, p: Process)
    requires Reaches(w, events, s) && s.process == Some(p) && p.phase == Done
    ensures p.actor.coord.pending == [] && p.actor.coord.frontier == p.actor.coord.lastHigh
    ensures s.durable == if p.options.dryRun then p.start else Or(p.actor.coord.lastHigh, p.start)
  {
    RunSound(w, events);
    DonePending(p);
    AckOrder(w, s.durable, s.table, p);
    assert AckSound(p.first, p.start, p.phase, p.options, p.actor, p.history.acked, p.history.flushed, s.durable);
    assert FlushInTime(p.phase, p.actor.groups, p.options.policy);
    assert AcksFollow(p.first, p.actor.coord.frontier, p.history.acked, p.options.dryRun);
    assert AckFields(p.actor.acks, p.actor.lastAckSent, p.actor.groups, p.actor.coord.initial,
                     p.history.acked, p.history.flushed, p.start, s.durable);
  }

  lemma DonePending(p: Process)
    requires Tracked(p) && p.phase == Done
    ensures p.actor.coord.pending == [] && p.actor.coord.frontier == p.actor.coord.lastHigh
  {
    assert Orderly(p.phase, p.options.dryRun, p.admissionOpen, p.flow.toSend, p.actor.inFlight, p.cursor);
    assert Conserved(p.flow, p.actor.coord, p.actor.inFlight);
    AllOpenClosed(p.actor.coord.pending);
    assert Shaped(p.actor.coord, p.first, p.cursor);
  }
}
