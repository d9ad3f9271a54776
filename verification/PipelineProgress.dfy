/**
 * Liveness: channels are never found full, a failure-free pipeline with work can always step, and
 * after shutdown every step brings the drain strictly nearer its end.
 */
module PipelineProgress {
  import opened Prelude
  import opened Sequences
  import opened Rows
  import opened Pipeline
  import opened PipelineShape
  import opened PipelineUnits
  import opened PipelineSafety
  import opened PipelineTheorems

  // ---------------------------------------------------------------------
  // Workers stay until a failure is reported
  // ---------------------------------------------------------------------

  predicate HasFatal(completions: seq<Completion>) {
    exists i :: 0 <= i < |completions| && completions[i].Fatal?
  }

  /** No worker has failed and the actor has not given up. */
  predicate FailureFree(p: Process) {
    p.phase != Failed && !HasFatal(p.flow.completions)
  }

  predicate FullPools(o: Options, pool: Pool) {
    match pool
    case Pool(_, _, fetchers, decoders, writers) =>
      fetchers == o.fetchers && decoders == o.decoders && writers == o.writers
  }

  /** One for a failure report. */
  function Failure(c: Completion): nat {
    if c.Fatal? then 1 else 0
  }

  /** No stage has more at work than it has workers, and every failure report has cost one worker. */
  predicate Manned(o: Options, pool: Pool, f: Flow) {
    match pool
    case Pool(_, _, fetchers, decoders, writers) =>
      && |f.fetching| <= fetchers <= o.fetchers
      && |f.decoding| <= decoders <= o.decoders
      && |f.writing| <= writers <= o.writers
      && fetchers + decoders + writers + Total(Failure, f.completions) == o.fetchers + o.decoders + o.writers
  }

  lemma {:induction false} NoFailures(completions: seq<Completion>)
    requires !HasFatal(completions)
    ensures Total(Failure, completions) == 0
  {
    if completions != [] {
      assert forall i :: 0 <= i < |completions[1..]| ==> completions[1..][i] == completions[i + 1];
      NoFailures(completions[1..]);
    }
  }

  /** A worker step that reports nothing keeps its worker. */
  lemma QuietManned(o: Options, f: Flow, pool: Pool, a: WorkerAction)
    requires Manned(o, pool, f) && WorkEnabled(o, f, pool, a) && ReportOf(o, f, a).None?
    ensures Manned(o, LiveWorkers(o, f, pool, a), Moved(o, f, pool, a))
  {
  }

  /** One that reports gives up its unit, and for a failure its place. */
  lemma ReportManned(o: Options, f: Flow, pool: Pool, a: WorkerAction)
    requires Manned(o, pool, f) && WorkEnabled(o, f, pool, a) && ReportOf(o, f, a).Some?
    ensures Manned(o, LiveWorkers(o, f, pool, a), Moved(o, f, pool, a))
  {
    TotalSnoc(Failure, f.completions, ReportOf(o, f, a).value);
    WorkKeepsUnits(o, f, pool, a);
  }

  lemma WorkManned(p: Process, a: WorkerAction)
    requires Manned(p.options, p.pool, p.flow) && WorkEnabled(p.options, p.flow, p.pool, a)
    ensures Manned(p.options, Worked(p, a).pool, Worked(p, a).flow)
  {
    if ReportOf(p.options, p.flow, a).None? {
      QuietManned(p.options, p.flow, p.pool, a);
    } else {
      ReportManned(p.options, p.flow, p.pool, a);
    }
  }

  lemma ActionManned(p: Process, a: Action)
    requires Manned(p.options, p.pool, p.flow) && ActionEnabled(p, a)
    ensures Manned(Acted(p, a).options, Acted(p, a).pool, Acted(p, a).flow)
  {
    OptionsFixed(p, a);
    match a
    case Work(work) => WorkManned(p, work);
    case RegisterOne =>
    case HandleCompletion =>
    case _ =>
  }

  lemma CheckManned(p: Process, i: nat)
    requires Manned(p.options, p.pool, p.flow) && i < |p.flow.writing|
    ensures Manned(p.options, AfterCheck(p, i).pool, AfterCheck(p, i).flow)
  {
    TotalSnoc(Failure, p.flow.completions, Committed(p.flow.writing[i].sequence));
  }

  lemma {:induction false} RunManned(w: World, events: seq<Event>, s: State)
    requires Reaches(w, events, s)
    ensures s.process.Some? ==> var p := s.process.value; Manned(p.options, p.pool, p.flow)
  {
    if events != [] {
      var n := |events| - 1;
      var before := Exec(w, Initial(), events[..n]).value;
      RunManned(w, events[..n], before);
      match events[n]
      case Inside(a) => ActionManned(before.process.value, a);
      case CheckSaysCommitted(i) => CheckManned(before.process.value, i);
      case _ =>
    }
  }

  /**
   * In every reachable state no stage has more at work than its configured concurrency, and the
   * workers gone are exactly as many as the failures reported.
   */
  lemma WorkersAccounted(w: World, events: seq<Event>, s: State, p: Process)
    requires Reaches(w, events, s) && s.process == Some(p)
    ensures |p.flow.fetching| <= p.options.fetchers && |p.flow.decoding| <= p.options.decoders
    ensures |p.flow.writing| <= p.options.writers
    ensures p.pool.fetchers + p.pool.decoders + p.pool.writers + Total(Failure, p.flow.completions)
         == p.options.fetchers + p.options.decoders + p.options.writers
    ensures FailureFree(p) ==> FullPools(p.options, p.pool)
  {
    RunManned(w, events, s);
    if FailureFree(p) {
      NoFailures(p.flow.completions);
    }
  }

  /** What the poll in progress holds: gates before it answers, then descriptors to register and to send. */
  function PollHolds(phase: ActorPhase, toSend: seq<u64>): nat {
    match phase
    case Gated(gates) => gates + |toSend|
    case Registering(left) => left + |toSend|
    case _ => |toSend|
  }

  predicate PollSmall(o: Options, phase: ActorPhase, toSend: seq<u64>) {
    && 1 <= o.perPoll && PollHolds(phase, toSend) <= o.perPoll
    && (toSend != [] ==> phase.Registering? || phase == Sending || phase == Failed)
  }

  lemma ActionPolls(p: Process, a: Action)
    requires PollSmall(p.options, p.phase, p.flow.toSend) && ActionEnabled(p, a)
    ensures PollSmall(Acted(p, a).options, Acted(p, a).phase, Acted(p, a).flow.toSend)
  {
    OptionsFixed(p, a);
    match a
    case Work(work) => WorkKeepsPoll(p, work);
    case RegisterOne =>
    case SendDescriptor =>
    case HandleCompletion =>
    case _ =>
  }

  lemma WorkKeepsPoll(p: Process, a: WorkerAction)
    requires WorkEnabled(p.options, p.flow, p.pool, a)
    ensures Worked(p, a).phase == p.phase && Worked(p, a).flow.toSend == p.flow.toSend
  {
  }

  /** In every reachable state a poll holds at most the configured number of gates, and so of descriptors. */
  lemma {:induction false} PollBounded(w: World, events: seq<Event>, s: State)
    requires Reaches(w, events, s)
    ensures s.process.Some? ==> var p := s.process.value; PollSmall(p.options, p.phase, p.flow.toSend)
  {
    if events != [] {
      var n := |events| - 1;
      var before := Exec(w, Initial(), events[..n]).value;
      PollBounded(w, events[..n], before);
      match events[n]
      case Inside(a) => ActionPolls(before.process.value, a);
      case _ =>
    }
  }

  // ---------------------------------------------------------------------
  // Sends find room, and work can go on
  // ---------------------------------------------------------------------

  /** Because every unit carries one of the permits, no stage-to-stage send ever waits. */
  lemma SendsFindRoom(w: World, events: seq<Event>, s: State, p: Process)
    requires Reaches(w, events, s) && s.process == Some(p)
    ensures p.flow.toSend != [] ==> |p.flow.descriptors| < p.options.maxInflight
    ensures p.flow.fetching != [] ==> |p.flow.fetched| < p.options.maxInflight
    ensures p.flow.decoding != [] ==> |p.flow.commits| < p.options.maxInflight
  {
    RunSound(w, events);
    assert PermitsBalance(p.options.maxInflight, p.pool, p.phase, p.flow);
  }

  /**
   * A step that is no failure: nothing is reported as fatal, nothing crashes, nothing is admitted,
   * and no request is answered with an error or left over from an earlier process.
   */
  predicate Progress(p: Process, e: Event) {
    match e
    case SendInsert(_) => true
    case Serve(_, skip) => !skip
    case CheckSaysCommitted(_) => true
    case FlushReturns => true
    case Inside(a) =>
      (match a
       case Poll(count) => count == 0
       case RegisterOne => true
       case SendDescriptor => true
       case HandleCompletion => true
       case Exit => true
       case Work(work) => Proceeds(p.options, p.flow, work)
       case _ => false)
    case _ => false
  }

  /** A worker step without a failure; a check that finds nothing ends the write once the retries are used up. */
  predicate Proceeds(o: Options, f: Flow, work: WorkerAction) {
    match work
    case FetchFails(_) => false
    case DecodeFails(_) => false
    case InsertRetryable(_) => false
    case InsertRejected(_) => false
    case CheckFails(_) => false
    case CheckSaysOpen(i) => i < |f.writing| && f.writing[i].attempt < o.retries
    case _ => true
  }

  /** Only a failure can follow: the retries are used up and the rows are not all there. */
  ghost predicate Exhausted(w: World, o: Options, table: seq<Row>, job: Job) {
    job.phase == Checking && job.attempt == o.retries && !Landed(w, table, job.sequence)
  }

  /** A writer that is not exhausted can go on: it sends, is served, sees the answer, checks or returns. */
  lemma WriterStep(w: World, s: State, p: Process, i: nat) returns (e: Event)
    requires s.process == Some(p) && i < |p.flow.writing| && JobSound(p.options, s.table, p.flow.writing[i])
    requires CompletionRoom(p.options, p.flow) && !Exhausted(w, p.options, s.table, p.flow.writing[i])
    ensures Progress(p, e) && Enabled(w, s, e)
  {
    var job := p.flow.writing[i];
    match job.phase
    case Ready =>
      if job.chunk < |p.options.plan(job.sequence)| {
        e := SendInsert(i);
      } else {
        e := Inside(Work(WriteReturns(i)));
      }
    case Sent(served) => e := if served then Inside(Work(InsertOk(i))) else Serve(i, false);
    case Checking =>
      e := if job.attempt < p.options.retries then Inside(Work(CheckSaysOpen(i))) else CheckSaysCommitted(i);
  }

  /**
   * Nothing but failures is left: the actor waits, no message waits for it, no fetch is under way
   * or due, every decode at work is of a sequence that does not decode, every write at work is
   * exhausted, and what waits behind them finds every worker taken.
   */
  ghost predicate Stuck(w: World, table: seq<Row>, p: Process) {
    match p.flow
    case Flow(toSend, descriptors, fetching, fetched, decoding, commits, writing, completions) =>
      && p.phase == Idle && completions == [] && descriptors == [] && fetching == []
      && (fetched == [] || |decoding| >= p.pool.decoders)
      && (commits == [] || |writing| >= p.pool.writers)
      && (forall i :: 0 <= i < |decoding| ==> !w.decodes(decoding[i]))
      && (forall i :: 0 <= i < |writing| ==> Exhausted(w, p.options, table, writing[i]))
  }

  /** With no message waiting and room in every channel, some worker can proceed unless all are stuck. */
  lemma StageStep(w: World, s: State, p: Process) returns (e: Event)
    requires s.process == Some(p) && p.phase == Idle && p.flow.completions == [] && !Stuck(w, s.table, p)
    requires p.pool.fetchers >= 1 && p.options.maxInflight >= 1 && StageCount(p.flow) <= p.options.maxInflight
    requires forall q: nat :: p.options.decodes(q) == w.decodes(q)
    requires forall i :: 0 <= i < |p.flow.writing| ==> JobSound(p.options, s.table, p.flow.writing[i])
    ensures Progress(p, e) && Enabled(w, s, e)
  {
    var f := p.flow;
    if i :| 0 <= i < |f.writing| && !Exhausted(w, p.options, s.table, f.writing[i]) {
      e := WriterStep(w, s, p, i);
    } else if i :| 0 <= i < |f.decoding| && w.decodes(f.decoding[i]) {
      e := Inside(Work(DecodeReturns(i)));
    } else if f.commits != [] && |f.writing| < p.pool.writers {
      e := Inside(Work(TakeCommit));
    } else if f.fetched != [] && |f.decoding| < p.pool.decoders {
      e := Inside(Work(TakeFetched));
    } else if f.fetching != [] {
      e := Inside(Work(FetchReturns(0)));
    } else {
      e := Inside(Work(TakeDescriptor));
    }
  }

  lemma IdleStep(w: World, s: State, p: Process) returns (e: Event)
    requires s.process == Some(p) && ProcessSound(w, s.durable, s.table, p) && FullPools(p.options, p.pool)
    requires p.phase == Idle && p.actor.inFlight > 0 && !Stuck(w, s.table, p)
    ensures Progress(p, e) && Enabled(w, s, e)
  {
    if p.flow.completions != [] {
      e := Inside(HandleCompletion);
    } else {
      assert PermitsBalance(p.options.maxInflight, p.pool, p.phase, p.flow);
      assert JobsSound(p.options, s.table, p.flow.writing);
      e := StageStep(w, s, p);
    }
  }

  lemma ProgressStep(w: World, s: State, p: Process) returns (e: Event)
    requires s.process == Some(p) && ProcessSound(w, s.durable, s.table, p) && FullPools(p.options, p.pool)
    requires p.phase != Failed && p.actor.inFlight > 0 && !Stuck(w, s.table, p)
    ensures Progress(p, e) && Enabled(w, s, e)
  {
    assert Orderly(p.phase, p.options.dryRun, p.admissionOpen, p.flow.toSend, p.actor.inFlight, p.cursor);
    assert PermitsBalance(p.options.maxInflight, p.pool, p.phase, p.flow);
    match p.phase
    case Idle => e := IdleStep(w, s, p);
    case Gated(_) =>
      assert p.cursor <= U64_MAX + 1 by { assert Shaped(p.actor.coord, p.first, p.cursor); }
      e := Inside(Poll(0));
    case Registering(_) => e := Inside(RegisterOne);
    case Sending => e := Inside(SendDescriptor);
    case Flushing => e := FlushReturns;
  }

  lemma StuckWork(w: World, table: seq<Row>, p: Process, a: WorkerAction)
    requires Stuck(w, table, p) && Proceeds(p.options, p.flow, a)
    requires forall q: nat :: p.options.decodes(q) == w.decodes(q)
    ensures !WorkEnabled(p.options, p.flow, p.pool, a)
  {
  }

  /** Where everything is stuck, no step of that kind is enabled. */
  lemma StuckStops(w: World, s: State, p: Process, e: Event)
    requires s.process == Some(p) && p.actor.inFlight > 0 && Stuck(w, s.table, p) && Progress(p, e)
    requires forall q: nat :: p.options.decodes(q) == w.decodes(q)
    ensures !Enabled(w, s, e)
  {
    match e
    case Inside(a) =>
      match a {
        case Work(work) => StuckWork(w, s.table, p, work);
        case _ =>
      }
    case _ =>
  }

  ghost predicate CanProgress(w: World, s: State, p: Process) {
    exists e :: Progress(p, e) && Enabled(w, s, e)
  }

  /**
   * In every failure-free state with units in flight, a step that is no failure is enabled unless,
   * and only unless, nothing but failures is left: sequences that do not decode and writes that
   * have used up their retries without landing.
   */
  lemma NoDeadlock(w: World, events: seq<Event>, s: State, p: Process)
    requires Reaches(w, events, s) && s.process == Some(p) && FailureFree(p) && p.actor.inFlight > 0
    ensures CanProgress(w, s, p) <==> !Stuck(w, s.table, p)
  {
    RunSound(w, events);
    WorkersAccounted(w, events, s, p);
    if Stuck(w, s.table, p) {
      forall e | Progress(p, e) ensures !Enabled(w, s, e) {
        StuckStops(w, s, p, e);
      }
    } else {
      var e := ProgressStep(w, s, p);
    }
  }

  /** Where all are stuck and some unit is in a stage, a worker can report its failure. */
  lemma StuckStep(w: World, table: seq<Row>, p: Process) returns (a: WorkerAction)
    requires Stuck(w, table, p) && p.flow.toSend == [] && StageCount(p.flow) > 0
    requires p.options.maxInflight >= 1 && p.pool.decoders >= 1 && p.pool.writers >= 1
    ensures WorkEnabled(p.options, p.flow, p.pool, a) && ReportOf(p.options, p.flow, a).Some?
  {
    if p.flow.writing != [] {
      assert Exhausted(w, p.options, table, p.flow.writing[0]);
      a := CheckSaysOpen(0);
    } else {
      a := DecodeFails(0);
    }
  }

  lemma UnitsInStages(p: Process)
    requires Tracked(p) && p.phase == Idle && p.actor.inFlight > 0 && p.flow.completions == []
    ensures p.flow.toSend == [] && StageCount(p.flow) > 0
  {
    PlacedOnce(p, 0);
    PlacedSize(p.flow);
    assert Orderly(p.phase, p.options.dryRun, p.admissionOpen, p.flow.toSend, p.actor.inFlight, p.cursor);
  }

  /** Even then the process is not blocked: some worker reports its failure. */
  lemma StuckReports(w: World, events: seq<Event>, s: State, p: Process) returns (a: WorkerAction)
    requires Reaches(w, events, s) && s.process == Some(p)
    requires FailureFree(p) && p.actor.inFlight > 0 && Stuck(w, s.table, p)
    ensures Enabled(w, s, Inside(Work(a))) && ReportOf(p.options, p.flow, a).Some?
  {
    RunSound(w, events);
    WorkersAccounted(w, events, s, p);
    UnitsInStages(p);
    a := StuckStep(w, s.table, p);
  }
}
