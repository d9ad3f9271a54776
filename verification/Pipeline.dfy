/**
 * The pipelined runtime as a transition system: the actor, the bounded channels, the
 * fetch, decode and writer workers, the sink's server, and the process coming up and
 * crashing any number of times.
 *
 * Every step is one `Event`; `Enabled` says when it can happen and `Apply` what it does.
 * What survives a crash is the durable ack, the server's table and remembered insert
 * tokens, and insert requests still on the wire. Batches are immutable: `World.rows` gives
 * each sequence's decoded rows for ever.
 */
module Pipeline {
  import opened Prelude
  import opened Sequences
  import opened Rows
  import opened AckCoordinators
  import opened SourceActor

  // ---------------------------------------------------------------------
  // The fixed world and the configuration of one process
  // ---------------------------------------------------------------------

  /** One insert request: its rows, its dedupe token, and whether the token is applied. */
  datatype Chunk = Chunk(rows: seq<Row>, token: Text, dedup: bool)

  /**
   * `origin` is the first sequence the buffer holds, `decodes` says which sequences decode at all,
   * `rows` gives the decoded rows of those that do, and `meaning` the rows that a dedupe token
   * stands for.
   */
  datatype World = World(origin: u64, decodes: nat -> bool, rows: nat -> seq<Row>, meaning: Text -> seq<Row>)

  datatype Options = Options(
    maxInflight: nat,
    perPoll: nat,
    fetchers: nat,
    decoders: nat,
    writers: nat,
    retries: nat,
    chunkAttempts: nat,
    dryRun: bool,
    policy: AckFlushPolicy,
    baselineKnown: bool,
    decodes: nat -> bool,
    plan: nat -> seq<Chunk>)

  function ChunkRows(chunks: seq<Chunk>): seq<seq<Row>> {
    seq(|chunks|, i requires 0 <= i < |chunks| => chunks[i].rows)
  }

  /** A plan covers its sequence, and every token stands for its chunk's rows. */
  ghost predicate PlanCovers(w: World, chunks: seq<Chunk>, q: nat) {
    && Flatten(ChunkRows(chunks)) == w.rows(q)
    && (forall i :: 0 <= i < |chunks| ==> w.meaning(chunks[i].token) == chunks[i].rows)
  }

  /** What the builder accepts, with a decoder as the world has it and a sink whose adapter plans what decodes. */
  ghost predicate ValidOptions(w: World, o: Options) {
    match o
    case Options(maxInflight, perPoll, fetchers, decoders, writers, _, _, _, _, _, decodes, plan) =>
      && maxInflight >= 1 && fetchers >= 1 && decoders >= 1 && writers >= 1 && perPoll >= 1
      && (forall q: nat :: decodes(q) == w.decodes(q))
      && (forall q: nat :: w.decodes(q) ==> PlanCovers(w, plan(q), q))
  }

  // ---------------------------------------------------------------------
  // State
  // ---------------------------------------------------------------------

  datatype JobPhase = Ready | Sent(served: bool) | Checking

  /** A writer's work: outer attempt, chunk reached in this pass, failed tries of that chunk. */
  datatype Job = Job(sequence: u64, attempt: nat, chunk: nat, tries: nat, phase: JobPhase)

  datatype Completion = Committed(sequence: u64) | Fatal(sequence: u64)

  /** Units on their way: in the actor's hands, in channels, with workers, and as messages back. */
  datatype Flow = Flow(
    toSend: seq<u64>,
    descriptors: seq<u64>,
    fetching: seq<u64>,
    fetched: seq<u64>,
    decoding: seq<u64>,
    commits: seq<u64>,
    writing: seq<Job>,
    completions: seq<Completion>)

  /** Batch permits: free ones, and ones whose unit has reported but not yet been dropped. Live workers. */
  datatype Pool = Pool(permits: nat, retiring: nat, fetchers: nat, decoders: nat, writers: nat)

  datatype ActorPhase =
    | Idle
    | Gated(gates: nat)
    | Registering(left: nat)
    | Sending
    | Flushing
    | FinalFlush
    | Done
    | Failed

  /**
   * The ack_through values so far, how many of them a flush has covered, and the sequences
   * whose write or check reported a commit.
   */
  datatype History = History(acked: seq<u64>, flushed: nat, written: set<u64>)

  /** One process: `first` is where its source starts and `start` the durable ack it found. */
  datatype Process = Process(
    options: Options,
    first: nat,
    start: Option<u64>,
    cursor: nat,
    phase: ActorPhase,
    admissionOpen: bool,
    actor: ActorVars,
    pool: Pool,
    flow: Flow,
    history: History)

  datatype State = State(
    durable: Option<u64>,
    table: seq<Row>,
    remembered: set<Text>,
    wire: seq<Chunk>,
    process: Option<Process>)

  function Initial(): State {
    State(None, [], {}, [], None)
  }

  /** The sequence a consumer hands out first after a restart. */
  function NextAfter(w: World, durable: Option<u64>): nat {
    match durable
    case Some(d) => d + 1
    case None => w.origin
  }

  // ---------------------------------------------------------------------
  // Steps
  // ---------------------------------------------------------------------

  /** Steps of the fetch, decode and writer workers. */
  datatype WorkerAction =
    | TakeDescriptor
    | FetchReturns(i: nat)
    | FetchFails(i: nat)
    | TakeFetched
    | DecodeReturns(i: nat)
    | DecodeFails(i: nat)
    | TakeCommit
    | InsertOk(i: nat)
    | InsertRetryable(i: nat)
    | InsertRejected(i: nat)
    | CheckSaysOpen(i: nat)
    | CheckFails(i: nat)
    | WriteReturns(i: nat)

  /** Steps inside a running process. */
  datatype Action =
    | Shutdown
    | OpenGate
    | ExtendGate
    | Poll(count: nat)
    | PollFails
    | RegisterOne
    | SendDescriptor
    | HandleCompletion
    | FlushFails
    | Exit
    | ReleasePermit
    | Work(work: WorkerAction)

  /** All steps: those of the running process, and those that touch what outlives it. */
  datatype Event =
    | Start(options: Options)
    | Crash
    | SendInsert(i: nat)
    | Serve(i: nat, skip: bool)
    | ServeLate(i: nat, skip: bool)
    | Forget(token: Text)
    | CheckSaysCommitted(i: nat)
    | FlushReturns
    | Inside(action: Action)

  function Boot(w: World, s: State, o: Options): Process {
    var initial := if o.baselineKnown then s.durable else None;
    Process(o, NextAfter(w, s.durable), s.durable, NextAfter(w, s.durable), Idle, true,
            ActorVars(Fresh(initial), 0, initial, 0, SourceAcks(initial, None)),
            Pool(o.maxInflight, 0, o.fetchers, o.decoders, o.writers),
            Flow([], [], [], [], [], [], [], []),
            History([], 0, {}))
  }

  /** `register_pending(q, q)`; `None` if it is rejected. */
  function RegisterNext(c: Coordinator, q: u64): Option<Coordinator> {
    match Register(c, q, q)
    case Ok(d) => Some(d)
    case Err(_) => None
  }

  /** The server receives a request: it appends the rows, or drops them for a token it remembers. */
  predicate MaySkip(s: State, c: Chunk) {
    c.dedup && c.token in s.remembered
  }

  function Receive(s: State, c: Chunk, skip: bool): State {
    if skip then s
    else s.(table := s.table + c.rows, remembered := if c.dedup then s.remembered + {c.token} else s.remembered)
  }

  // ---------------------------------------------------------------------
  // Workers
  // ---------------------------------------------------------------------

  predicate HasChunk(o: Options, f: Flow, i: nat) {
    i < |f.writing| && f.writing[i].chunk < |o.plan(f.writing[i].sequence)|
  }

  function CurrentChunk(o: Options, f: Flow, i: nat): Chunk
    requires HasChunk(o, f, i)
  {
    o.plan(f.writing[i].sequence)[f.writing[i].chunk]
  }

  predicate CompletionRoom(o: Options, f: Flow) {
    |f.completions| < o.maxInflight
  }

  predicate WorkEnabled(o: Options, f: Flow, pool: Pool, a: WorkerAction) {
    match a
    case TakeDescriptor => f.descriptors != [] && |f.fetching| < pool.fetchers
    case FetchReturns(i) => i < |f.fetching| && |f.fetched| < o.maxInflight
    case FetchFails(i) => i < |f.fetching| && CompletionRoom(o, f)
    case TakeFetched => f.fetched != [] && |f.decoding| < pool.decoders
    case DecodeReturns(i) =>
      && i < |f.decoding| && o.decodes(f.decoding[i])
      && (if o.dryRun then CompletionRoom(o, f) else |f.commits| < o.maxInflight)
    case DecodeFails(i) => i < |f.decoding| && CompletionRoom(o, f)
    case TakeCommit => f.commits != [] && |f.writing| < pool.writers
    case InsertOk(i) => HasChunk(o, f, i) && f.writing[i].phase == Sent(true)
    case InsertRetryable(i) => HasChunk(o, f, i) && f.writing[i].phase.Sent?
    case InsertRejected(i) => i < |f.writing| && f.writing[i].phase.Sent? && CompletionRoom(o, f)
    case CheckSaysOpen(i) =>
      && i < |f.writing| && f.writing[i].phase == Checking
      && (f.writing[i].attempt < o.retries || CompletionRoom(o, f))
    case CheckFails(i) => i < |f.writing| && f.writing[i].phase == Checking && CompletionRoom(o, f)
    case WriteReturns(i) =>
      && i < |f.writing| && f.writing[i].phase == Ready && CompletionRoom(o, f)
      && f.writing[i].chunk == |o.plan(f.writing[i].sequence)|
  }

  function EndFetch(f: Flow, i: nat, done: Completion): Flow
    requires i < |f.fetching|
  {
    f.(fetching := Without(f.fetching, i), completions := f.completions + [done])
  }

  function EndDecode(f: Flow, i: nat, done: Completion): Flow
    requires i < |f.decoding|
  {
    f.(decoding := Without(f.decoding, i), completions := f.completions + [done])
  }

  function EndWrite(f: Flow, i: nat, done: Completion): Flow
    requires i < |f.writing|
  {
    f.(writing := Without(f.writing, i), completions := f.completions + [done])
  }

  function WithJob(f: Flow, i: nat, job: Job): Flow
    requires i < |f.writing|
  {
    f.(writing := f.writing[i := job])
  }

  /** What a failed try of the current chunk leaves: the same chunk again, or the check. */
  function AfterRetryable(o: Options, job: Job): Job {
    if job.tries + 1 < o.chunkAttempts then job.(tries := job.tries + 1, phase := Ready)
    else job.(phase := Checking)
  }

  function Moved(o: Options, f: Flow, pool: Pool, a: WorkerAction): Flow
    requires WorkEnabled(o, f, pool, a)
  {
    match a
    case TakeDescriptor => f.(fetching := f.fetching + [f.descriptors[0]], descriptors := f.descriptors[1..])
    case FetchReturns(i) => f.(fetched := f.fetched + [f.fetching[i]], fetching := Without(f.fetching, i))
    case FetchFails(i) => EndFetch(f, i, Fatal(f.fetching[i]))
    case TakeFetched => f.(decoding := f.decoding + [f.fetched[0]], fetched := f.fetched[1..])
    case DecodeReturns(i) =>
      if o.dryRun then EndDecode(f, i, Committed(f.decoding[i]))
      else f.(commits := f.commits + [f.decoding[i]], decoding := Without(f.decoding, i))
    case DecodeFails(i) => EndDecode(f, i, Fatal(f.decoding[i]))
    case TakeCommit => f.(writing := f.writing + [Job(f.commits[0], 0, 0, 0, Ready)], commits := f.commits[1..])
    case InsertOk(i) => WithJob(f, i, f.writing[i].(chunk := f.writing[i].chunk + 1, tries := 0, phase := Ready))
    case InsertRetryable(i) => WithJob(f, i, AfterRetryable(o, f.writing[i]))
    case InsertRejected(i) => EndWrite(f, i, Fatal(f.writing[i].sequence))
    case CheckSaysOpen(i) =>
      if f.writing[i].attempt < o.retries then
        WithJob(f, i, Job(f.writing[i].sequence, f.writing[i].attempt + 1, 0, 0, Ready))
      else EndWrite(f, i, Fatal(f.writing[i].sequence))
    case CheckFails(i) => EndWrite(f, i, Fatal(f.writing[i].sequence))
    case WriteReturns(i) => EndWrite(f, i, Committed(f.writing[i].sequence))
  }

  function Less(n: nat): nat {
    if n > 0 then n - 1 else 0
  }

  /** A worker that reported a failure has left its pool. */
  function LiveWorkers(o: Options, f: Flow, pool: Pool, a: WorkerAction): Pool {
    match a
    case FetchFails(_) => pool.(fetchers := Less(pool.fetchers))
    case DecodeFails(_) => pool.(decoders := Less(pool.decoders))
    case InsertRejected(_) => pool.(writers := Less(pool.writers))
    case CheckFails(_) => pool.(writers := Less(pool.writers))
    case CheckSaysOpen(i) =>
      if i < |f.writing| && f.writing[i].attempt >= o.retries then pool.(writers := Less(pool.writers)) else pool
    case _ => pool
  }

  /** The worker has sent a message about its unit and will drop the permit next. */
  predicate Reports(f: Flow, f': Flow) {
    |f'.completions| > |f.completions|
  }

  function Worked(p: Process, a: WorkerAction): Process
    requires WorkEnabled(p.options, p.flow, p.pool, a)
  {
    var flow := Moved(p.options, p.flow, p.pool, a);
    var live := LiveWorkers(p.options, p.flow, p.pool, a);
    p.(flow := flow,
       pool := if Reports(p.flow, flow) then live.(retiring := live.retiring + 1) else live,
       history := if a.WriteReturns? then Wrote(p.history, p.flow.writing[a.i].sequence) else p.history)
  }

  function Wrote(h: History, q: u64): History {
    h.(written := h.written + {q})
  }

  // ---------------------------------------------------------------------
  // The actor
  // ---------------------------------------------------------------------

  function WithPermits(p: Process, n: nat): Process {
    p.(pool := p.pool.(permits := n))
  }

  predicate ActionEnabled(p: Process, a: Action) {
    match a
    case Shutdown => p.phase == Idle && p.admissionOpen
    case OpenGate => p.phase == Idle && p.admissionOpen && p.pool.permits > 0
    case ExtendGate => p.phase.Gated? && p.phase.gates < p.options.perPoll && p.pool.permits > 0
    case Poll(count) => p.phase.Gated? && count <= p.phase.gates && p.cursor + count <= U64_MAX + 1
    case PollFails => p.phase.Gated?
    case RegisterOne => p.phase.Registering? && p.phase.left > 0 && p.cursor <= U64_MAX
    case SendDescriptor => p.phase == Sending && p.flow.toSend != [] && |p.flow.descriptors| < p.options.maxInflight
    case HandleCompletion => p.phase == Idle && p.actor.inFlight > 0 && p.flow.completions != []
    case FlushFails => p.phase == Flushing || p.phase == FinalFlush
    case Exit => p.phase == Idle && !p.admissionOpen && p.actor.inFlight == 0
    case ReleasePermit => p.pool.retiring > 0
    case Work(a) => WorkEnabled(p.options, p.flow, p.pool, a)
  }

  /** One turn of the register-all pass; the send-all pass starts after the last one. */
  function AfterRegister(p: Process): Process
    requires p.phase.Registering? && p.phase.left > 0 && p.cursor <= U64_MAX
  {
    match RegisterNext(p.actor.coord, p.cursor)
    case None => p.(phase := Failed)
    case Some(c) =>
      p.(actor := p.actor.(coord := c, inFlight := p.actor.inFlight + 1),
         cursor := p.cursor + 1,
         flow := p.flow.(toSend := p.flow.toSend + [p.cursor]),
         phase := if p.phase.left == 1 then Sending else Registering(p.phase.left - 1))
  }

  function AfterCompletion(p: Process): Process
    requires p.actor.inFlight > 0 && p.flow.completions != []
  {
    match p.flow.completions[0]
    case Fatal(_) => p.(phase := Failed)
    case Committed(q) =>
      match AfterCommit(p.actor, q, q, p.options.dryRun)
      case None => p.(phase := Failed)
      case Some(v) =>
        p.(actor := v,
           flow := p.flow.(completions := p.flow.completions[1..]),
           history := if v.groups > p.actor.groups then
                        p.history.(acked := p.history.acked + [v.coord.frontier.value])
                      else p.history,
           phase := if FlushDue(p.actor, v, p.options.policy) then Flushing else Idle)
  }

  function Acted(p: Process, a: Action): Process
    requires ActionEnabled(p, a)
  {
    match a
    case Shutdown => p.(admissionOpen := false)
    case OpenGate => WithPermits(p, p.pool.permits - 1).(phase := Gated(1))
    case ExtendGate => WithPermits(p, p.pool.permits - 1).(phase := Gated(p.phase.gates + 1))
    case Poll(count) =>
      WithPermits(p, p.pool.permits + (p.phase.gates - count)).(
        phase := if count == 0 then Idle else Registering(count))
    case PollFails => WithPermits(p, p.pool.permits + p.phase.gates).(phase := Failed)
    case RegisterOne => AfterRegister(p)
    case SendDescriptor =>
      p.(flow := p.flow.(descriptors := p.flow.descriptors + [p.flow.toSend[0]], toSend := p.flow.toSend[1..]),
         phase := if |p.flow.toSend| == 1 then Idle else Sending)
    case HandleCompletion => AfterCompletion(p)
    case FlushFails => p.(phase := Failed)
    case Exit => p.(phase := if p.options.dryRun then Done else FinalFlush)
    case ReleasePermit => p.(pool := p.pool.(retiring := p.pool.retiring - 1, permits := p.pool.permits + 1))
    case Work(a) => Worked(p, a)
  }

  // ---------------------------------------------------------------------
  // The server, and the process's comings and goings
  // ---------------------------------------------------------------------

  /** The sequence decodes and all its rows are in the table. */
  ghost predicate Landed(w: World, table: seq<Row>, q: nat) {
    w.decodes(q) && AllIn(w.rows(q), table)
  }

  predicate AllIn(rows: seq<Row>, table: seq<Row>) {
    forall r :: r in rows ==> r in table
  }

  predicate JobIn(s: State, i: nat, phase: JobPhase) {
    s.process.Some? && i < |s.process.value.flow.writing| && s.process.value.flow.writing[i].phase == phase
  }

  predicate InsertIn(s: State, i: nat, phase: JobPhase) {
    JobIn(s, i, phase) && HasChunk(s.process.value.options, s.process.value.flow, i)
  }

  function ChunkIn(s: State, i: nat, phase: JobPhase): Chunk
    requires InsertIn(s, i, phase)
  {
    CurrentChunk(s.process.value.options, s.process.value.flow, i)
  }

  function InPhase(p: Process, i: nat, phase: JobPhase): Process
    requires i < |p.flow.writing|
  {
    p.(flow := WithJob(p.flow, i, p.flow.writing[i].(phase := phase)))
  }

  ghost predicate Enabled(w: World, s: State, e: Event) {
    match e
    case Start(o) => s.process.None? && ValidOptions(w, o)
    case Crash => s.process.Some?
    case SendInsert(i) => InsertIn(s, i, Ready)
    case Serve(i, skip) => InsertIn(s, i, Sent(false)) && (skip ==> MaySkip(s, ChunkIn(s, i, Sent(false))))
    case ServeLate(i, skip) => i < |s.wire| && (skip ==> MaySkip(s, s.wire[i]))
    case Forget(_) => true
    case CheckSaysCommitted(i) =>
      && JobIn(s, i, Checking)
      && CompletionRoom(s.process.value.options, s.process.value.flow)
      && Landed(w, s.table, s.process.value.flow.writing[i].sequence)
    case FlushReturns => s.process.Some? && (s.process.value.phase == Flushing || s.process.value.phase == FinalFlush)
    case Inside(a) => s.process.Some? && ActionEnabled(s.process.value, a)
  }

  function AfterFlushReturns(p: Process): Process {
    p.(actor := AfterFlush(p.actor), history := p.history.(flushed := |p.history.acked|),
       phase := if p.phase == Flushing then Idle else Done)
  }

  /** The check after an ambiguous write found the whole sequence there. */
  function AfterCheck(p: Process, i: nat): Process
    requires i < |p.flow.writing|
  {
    var q := p.flow.writing[i].sequence;
    p.(flow := EndWrite(p.flow, i, Committed(q)), pool := p.pool.(retiring := p.pool.retiring + 1),
       history := Wrote(p.history, q))
  }

  ghost function Apply(w: World, s: State, e: Event): State
    requires Enabled(w, s, e)
  {
    match e
    case Start(o) => s.(process := Some(Boot(w, s, o)))
    case Crash => s.(process := None)
    case SendInsert(i) =>
      s.(wire := s.wire + [ChunkIn(s, i, Ready)], process := Some(InPhase(s.process.value, i, Sent(false))))
    case Serve(i, skip) =>
      Receive(s, ChunkIn(s, i, Sent(false)), skip).(process := Some(InPhase(s.process.value, i, Sent(true))))
    case ServeLate(i, skip) => Receive(s, s.wire[i], skip)
    case Forget(token) => s.(remembered := s.remembered - {token})
    case CheckSaysCommitted(i) => s.(process := Some(AfterCheck(s.process.value, i)))
    case FlushReturns =>
      s.(durable := Flushed(s.process.value.actor.acks, s.durable, true).1,
         process := Some(AfterFlushReturns(s.process.value)))
    case Inside(a) => s.(process := Some(Acted(s.process.value, a)))
  }

  /** The state a run reaches from `s`, or `None` if some event was not enabled. */
  ghost function Exec(w: World, s: State, events: seq<Event>): Option<State> {
    if events == [] then Some(s)
    else
      match Exec(w, s, events[..|events| - 1])
      case None => None
      case Some(t) =>
        if Enabled(w, t, events[|events| - 1]) then Some(Apply(w, t, events[|events| - 1])) else None
  }
}
