/**
 * Where units are: every admitted sequence is in exactly one stage, channel, worker or
 * completion message until the actor handles it, and carries one permit until it retires.
 */
module PipelineUnits {
  import opened Prelude
  import opened Sequences
  import opened AckCoordinators
  import opened Pipeline
  import opened PipelineShape

  function JobSequences(jobs: seq<Job>): (r: seq<u64>)
    ensures |r| == |jobs|
  {
    seq(|jobs|, i requires 0 <= i < |jobs| => jobs[i].sequence)
  }

  function CompletionSequences(completions: seq<Completion>): (r: seq<u64>)
    ensures |r| == |completions|
  {
    seq(|completions|, i requires 0 <= i < |completions| => completions[i].sequence)
  }

  /** The units that still carry their permit through the stages. */
  function InStages(f: Flow): multiset<u64> {
    multiset(f.toSend) + multiset(f.descriptors) + multiset(f.fetching) + multiset(f.fetched)
    + multiset(f.decoding) + multiset(f.commits) + multiset(JobSequences(f.writing))
  }

  function StageCount(f: Flow): nat {
    |f.toSend| + |f.descriptors| + |f.fetching| + |f.fetched| + |f.decoding| + |f.commits| + |f.writing|
  }

  /** Every place an admitted, unhandled sequence can be. */
  function Placed(f: Flow): multiset<u64> {
    InStages(f) + multiset(CompletionSequences(f.completions))
  }

  function GatePermits(phase: ActorPhase): nat {
    if phase.Gated? then phase.gates else if phase.Registering? then phase.left else 0
  }

  /** Available, gate-held, unit-held and retiring permits always add up. */
  predicate PermitsBalance(total: nat, pool: Pool, phase: ActorPhase, f: Flow) {
    match pool
    case Pool(permits, retiring, _, _, _) =>
      permits + GatePermits(phase) + StageCount(f) + retiring == total
  }

  /** Each open sequence is in exactly one place, and the actor's count is the number of them. */
  predicate Conserved(f: Flow, coord: Coordinator, inFlight: nat) {
    match coord
    case Coordinator(_, _, _, _, _, pending) =>
      && HeadOpen(pending)
      && Placed(f) == multiset(OpenSequences(pending))
      && inFlight == |OpenSequences(pending)|
  }

  /** What the channels may hold. */
  predicate Roomy(o: Options, f: Flow) {
    match f
    case Flow(_, _, _, _, _, commits, writing, completions) =>
      && |completions| <= o.maxInflight
      && (o.dryRun ==> commits == [] && writing == [])
  }

  /** What the actor's phase says about the rest. */
  predicate Orderly(phase: ActorPhase, dryRun: bool, open: bool, toSend: seq<u64>, inFlight: nat, cursor: nat) {
    match phase
    case Idle => toSend == []
    case Gated(gates) => toSend == [] && open && gates >= 1
    case Registering(left) => open && 1 <= left <= U64_MAX + 1 - cursor
    case Sending => toSend != [] && open
    case Flushing => toSend == [] && !dryRun
    case FinalFlush => toSend == [] && !dryRun && !open && inFlight == 0
    case Done => toSend == [] && !open && inFlight == 0
    case Failed => toSend == []
  }

  predicate Tracked(p: Process) {
    match p
    case Process(o, first, _, cursor, phase, open, v, pool, f, _) =>
      && Shaped(v.coord, first, cursor)
      && PermitsBalance(o.maxInflight, pool, phase, f)
      && Conserved(f, v.coord, v.inFlight)
      && Roomy(o, f)
      && Orderly(phase, o.dryRun, open, f.toSend, v.inFlight, cursor)
  }

  // ---------------------------------------------------------------------
  // Moving one unit
  // ---------------------------------------------------------------------

  lemma JobsWithout(jobs: seq<Job>, i: nat)
    requires i < |jobs|
    ensures multiset(JobSequences(Without(jobs, i))) + multiset{jobs[i].sequence} == multiset(JobSequences(jobs))
  {
    assert JobSequences(Without(jobs, i)) == Without(JobSequences(jobs), i);
  }

  lemma JobsAppend(jobs: seq<Job>, job: Job)
    ensures multiset(JobSequences(jobs + [job])) == multiset(JobSequences(jobs)) + multiset{job.sequence}
  {
    assert JobSequences(jobs + [job]) == JobSequences(jobs) + [job.sequence];
  }

  lemma CompletionsAppend(completions: seq<Completion>, c: Completion)
    ensures multiset(CompletionSequences(completions + [c]))
         == multiset(CompletionSequences(completions)) + multiset{c.sequence}
  {
    assert CompletionSequences(completions + [c]) == CompletionSequences(completions) + [c.sequence];
  }

  lemma CompletionsTail(completions: seq<Completion>)
    requires completions != []
    ensures multiset(CompletionSequences(completions[1..])) + multiset{completions[0].sequence}
         == multiset(CompletionSequences(completions))
  {
    assert CompletionSequences(completions) == [completions[0].sequence] + CompletionSequences(completions[1..]);
  }

  lemma TakeHead<T>(s: seq<T>)
    requires s != []
    ensures multiset(s[1..]) + multiset{s[0]} == multiset(s)
  {
    assert s == [s[0]] + s[1..];
  }

  // ---------------------------------------------------------------------
  // Workers keep every unit, and its permit
  // ---------------------------------------------------------------------

  /** A step between stages changes no count and loses no unit. */
  predicate SameUnits(f: Flow, f': Flow) {
    && f'.toSend == f.toSend && f'.completions == f.completions
    && StageCount(f') == StageCount(f)
    && InStages(f') == InStages(f)
  }

  /** A report moves one unit from the stages to the completion queue. */
  predicate Reported(f: Flow, f': Flow, done: Completion) {
    && f'.toSend == f.toSend && f'.completions == f.completions + [done]
    && StageCount(f') + 1 == StageCount(f)
    && InStages(f') + multiset{done.sequence} == InStages(f)
  }

  lemma TakeDescriptorKeeps(f: Flow)
    requires f.descriptors != []
    ensures SameUnits(f, f.(fetching := f.fetching + [f.descriptors[0]], descriptors := f.descriptors[1..]))
  {
    TakeHead(f.descriptors);
  }

  lemma FetchKeeps(f: Flow, i: nat)
    requires i < |f.fetching|
    ensures SameUnits(f, f.(fetched := f.fetched + [f.fetching[i]], fetching := Without(f.fetching, i)))
  {
  }

  lemma TakeFetchedKeeps(f: Flow)
    requires f.fetched != []
    ensures SameUnits(f, f.(decoding := f.decoding + [f.fetched[0]], fetched := f.fetched[1..]))
  {
    TakeHead(f.fetched);
  }

  lemma DecodeKeeps(f: Flow, i: nat)
    requires i < |f.decoding|
    ensures SameUnits(f, f.(commits := f.commits + [f.decoding[i]], decoding := Without(f.decoding, i)))
  {
  }

  lemma TakeCommitKeeps(f: Flow)
    requires f.commits != []
    ensures SameUnits(f, f.(writing := f.writing + [Job(f.commits[0], 0, 0, 0, Ready)], commits := f.commits[1..]))
  {
    TakeHead(f.commits);
    JobsAppend(f.writing, Job(f.commits[0], 0, 0, 0, Ready));
  }

  lemma WithJobKeeps(f: Flow, i: nat, job: Job)
    requires i < |f.writing| && job.sequence == f.writing[i].sequence
    ensures SameUnits(f, WithJob(f, i, job))
  {
    assert JobSequences(f.writing[i := job]) == JobSequences(f.writing);
  }

  lemma EndFetchReports(f: Flow, i: nat, done: Completion)
    requires i < |f.fetching| && done.sequence == f.fetching[i]
    ensures Reported(f, EndFetch(f, i, done), done)
  {
  }

  lemma EndDecodeReports(f: Flow, i: nat, done: Completion)
    requires i < |f.decoding| && done.sequence == f.decoding[i]
    ensures Reported(f, EndDecode(f, i, done), done)
  {
  }

  lemma EndWriteReports(f: Flow, i: nat, done: Completion)
    requires i < |f.writing| && done.sequence == f.writing[i].sequence
    ensures Reported(f, EndWrite(f, i, done), done)
  {
    JobsWithout(f.writing, i);
  }

  /** The message a reporting worker step sends. */
  function ReportOf(o: Options, f: Flow, a: WorkerAction): Option<Completion> {
    match a
    case FetchFails(i) => if i < |f.fetching| then Some(Fatal(f.fetching[i])) else None
    case DecodeReturns(i) => if o.dryRun && i < |f.decoding| then Some(Committed(f.decoding[i])) else None
    case DecodeFails(i) => if i < |f.decoding| then Some(Fatal(f.decoding[i])) else None
    case InsertRejected(i) => if i < |f.writing| then Some(Fatal(f.writing[i].sequence)) else None
    case CheckSaysOpen(i) =>
      if i < |f.writing| && f.writing[i].attempt >= o.retries then Some(Fatal(f.writing[i].sequence)) else None
    case CheckFails(i) => if i < |f.writing| then Some(Fatal(f.writing[i].sequence)) else None
    case WriteReturns(i) => if i < |f.writing| then Some(Committed(f.writing[i].sequence)) else None
    case _ => None
  }

  /** Every worker step either keeps all units in the stages or turns one into its report. */
  lemma WorkKeepsUnits(o: Options, f: Flow, pool: Pool, a: WorkerAction)
    requires WorkEnabled(o, f, pool, a)
    ensures match ReportOf(o, f, a)
            case None => SameUnits(f, Moved(o, f, pool, a))
            case Some(done) => Reported(f, Moved(o, f, pool, a), done)
  {
    match a
    case TakeDescriptor => TakeDescriptorKeeps(f);
    case FetchReturns(i) => FetchKeeps(f, i);
    case FetchFails(i) => EndFetchReports(f, i, Fatal(f.fetching[i]));
    case TakeFetched => TakeFetchedKeeps(f);
    case DecodeReturns(i) =>
      if o.dryRun { EndDecodeReports(f, i, Committed(f.decoding[i])); }
      else { DecodeKeeps(f, i); }
    case DecodeFails(i) => EndDecodeReports(f, i, Fatal(f.decoding[i]));
    case TakeCommit => TakeCommitKeeps(f);
    case InsertOk(i) => WithJobKeeps(f, i, Moved(o, f, pool, a).writing[i]);
    case InsertRetryable(i) => WithJobKeeps(f, i, Moved(o, f, pool, a).writing[i]);
    case InsertRejected(i) => EndWriteReports(f, i, Fatal(f.writing[i].sequence));
    case CheckSaysOpen(i) =>
      if f.writing[i].attempt < o.retries { WithJobKeeps(f, i, Moved(o, f, pool, a).writing[i]); }
      else { EndWriteReports(f, i, Fatal(f.writing[i].sequence)); }
    case CheckFails(i) => EndWriteReports(f, i, Fatal(f.writing[i].sequence));
    case WriteReturns(i) => EndWriteReports(f, i, Committed(f.writing[i].sequence));
  }

  lemma WorkTracked(p: Process, a: WorkerAction)
    requires Tracked(p) && WorkEnabled(p.options, p.flow, p.pool, a)
    ensures Tracked(Worked(p, a))
  {
    var p' := Worked(p, a);
    WorkKeepsUnits(p.options, p.flow, p.pool, a);
    match ReportOf(p.options, p.flow, a) {
      case None =>
        FlowTracked(p, p');
      case Some(done) =>
        ReportTracked(p, done, p');
    }
  }

  /** Only the flow and the pool of workers changed, and no unit moved into a report. */
  lemma FlowTracked(p: Process, p': Process)
    requires Tracked(p) && SameUnits(p.flow, p'.flow)
    requires p' == p.(flow := p'.flow, pool := p'.pool, history := p'.history)
    requires p'.pool.permits == p.pool.permits && p'.pool.retiring == p.pool.retiring
    requires p.options.dryRun ==> p'.flow.commits == [] && p'.flow.writing == []
    ensures Tracked(p')
  {
  }

  lemma ReportTracked(p: Process, done: Completion, p': Process)
    requires Tracked(p) && Reported(p.flow, p'.flow, done) && CompletionRoom(p.options, p.flow)
    requires p' == p.(flow := p'.flow, pool := p'.pool, history := p'.history)
    requires p'.pool.permits == p.pool.permits && p'.pool.retiring == p.pool.retiring + 1
    requires p.options.dryRun ==> p'.flow.commits == [] && p'.flow.writing == []
    ensures Tracked(p')
  {
    CompletionsAppend(p.flow.completions, done);
    assert Placed(p'.flow) == Placed(p.flow);
  }

  // ---------------------------------------------------------------------
  // The actor
  // ---------------------------------------------------------------------

  predicate GateStep(a: Action) {
    || a.Shutdown? || a.OpenGate? || a.ExtendGate? || a.Poll? || a.PollFails? || a.ReleasePermit?
    || a.FlushFails? || a.Exit?
  }

  /** Opening, extending and surplus gates give back exactly the permits they took. */
  lemma GateStepTracked(p: Process, a: Action)
    requires Tracked(p) && ActionEnabled(p, a) && GateStep(a)
    ensures Tracked(Acted(p, a))
  {
    var p' := Acted(p, a);
    GatePermitsBalance(p, a);
    assert Orderly(p'.phase, p'.options.dryRun, p'.admissionOpen, p'.flow.toSend, p'.actor.inFlight, p'.cursor);
    assert p'.flow == p.flow && p'.actor == p.actor && p'.options == p.options;
  }

  lemma GatePermitsBalance(p: Process, a: Action)
    requires PermitsBalance(p.options.maxInflight, p.pool, p.phase, p.flow) && ActionEnabled(p, a) && GateStep(a)
    ensures var p' := Acted(p, a); PermitsBalance(p.options.maxInflight, p'.pool, p'.phase, p.flow)
  {
  }

  lemma SendTracked(p: Process)
    requires Tracked(p) && ActionEnabled(p, SendDescriptor)
    ensures Tracked(Acted(p, SendDescriptor))
  {
    var p' := Acted(p, SendDescriptor);
    TakeHead(p.flow.toSend);
    assert InStages(p'.flow) == InStages(p.flow);
  }

  /** No registration is ever rejected. */
  lemma RegisterTracked(p: Process)
    requires Tracked(p) && ActionEnabled(p, RegisterOne)
    ensures Tracked(AfterRegister(p)) && AfterRegister(p).phase != Failed
  {
    ShapedRegister(p.actor.coord, p.first, p.cursor);
    OpenRegister(p.actor.coord.pending, p.cursor);
    var c := RegisterNext(p.actor.coord, p.cursor).value;
    RegisterConserved(p.flow, p.actor.coord, p.actor.inFlight, p.cursor, c);
    assert AfterRegister(p).flow == p.flow.(toSend := p.flow.toSend + [p.cursor]);
  }

  lemma RegisterConserved(f: Flow, c: Coordinator, inFlight: nat, q: u64, d: Coordinator)
    requires Conserved(f, c, inFlight)
    requires OpenSequences(d.pending) == OpenSequences(c.pending) + [q] && HeadOpen(d.pending)
    ensures Conserved(f.(toSend := f.toSend + [q]), d, inFlight + 1)
    ensures StageCount(f.(toSend := f.toSend + [q])) == StageCount(f) + 1
  {
    RegisterPlaces(f, q);
  }

  lemma RegisterPlaces(f: Flow, q: u64)
    ensures Placed(f.(toSend := f.toSend + [q])) == Placed(f) + multiset{q}
  {
    assert InStages(f.(toSend := f.toSend + [q])) == InStages(f) + multiset{q};
  }

  lemma MessageIsOpen(f: Flow, c: Coordinator, inFlight: nat, q: u64)
    requires Conserved(f, c, inFlight) && q in CompletionSequences(f.completions)
    ensures q in OpenSequences(c.pending)
  {
    assert q in multiset(CompletionSequences(f.completions));
    assert Placed(f)[q] > 0;
    assert q in multiset(OpenSequences(c.pending));
  }

  /** A message names an open range, so the mark succeeds and closes exactly it. */
  lemma CommittedIsOpen(f: Flow, c: Coordinator, inFlight: nat, first: nat, cursor: nat, q: u64)
    requires Shaped(c, first, cursor) && Conserved(f, c, inFlight)
    requires q in CompletionSequences(f.completions)
    ensures Base(c, first) <= q < cursor
    ensures !c.pending[q - Base(c, first)].committed
  {
    MessageIsOpen(f, c, inFlight, q);
    var i := OpenMember(c.pending, q);
    assert c.pending[i].low == Base(c, first) + i;
  }

  /** Marking `q` closes it and moves nothing. */
  lemma MarkCloses(c: Coordinator, first: nat, cursor: nat, q: u64) returns (m: Coordinator)
    requires Shaped(c, first, cursor) && Base(c, first) <= q < cursor && !c.pending[q - Base(c, first)].committed
    ensures Mark(c, q, q) == Ok(m) && Shaped(m, first, cursor) && m.frontier == c.frontier && m.initial == c.initial
    ensures m.pending == c.pending[q - Base(c, first) := PendingRange(q, q, true)]
    ensures multiset(OpenSequences(m.pending)) + multiset{q} == multiset(OpenSequences(c.pending))
    ensures |OpenSequences(m.pending)| + 1 == |OpenSequences(c.pending)|
  {
    m := ShapedMark(c, first, cursor, q);
    OpenMark(c.pending, q - Base(c, first));
  }

  /** What marking `q` and advancing leaves of the coordinator. */
  lemma MarkedAndAdvanced(c: Coordinator, first: nat, cursor: nat, q: u64)
      returns (m: Coordinator, d: Coordinator, k: nat)
    requires Shaped(c, first, cursor) && Base(c, first) <= q < cursor && !c.pending[q - Base(c, first)].committed
    ensures Mark(c, q, q) == Ok(m) && d == Advance(m)
    ensures Shaped(d, first, cursor)
    ensures multiset(OpenSequences(d.pending)) + multiset{q} == multiset(OpenSequences(c.pending))
    ensures |OpenSequences(d.pending)| + 1 == |OpenSequences(c.pending)|
    ensures m.frontier == c.frontier && m.initial == c.initial == d.initial
    ensures m.pending == c.pending[q - Base(c, first) := PendingRange(q, q, true)]
    ensures k <= |m.pending| && d.pending == m.pending[k..] && forall i :: 0 <= i < k ==> m.pending[i].committed
    ensures Base(d, first) == Base(c, first) + k && (k == 0 ==> d == m) && HeadOpen(d.pending)
  {
    m := MarkCloses(c, first, cursor, q);
    k := ShapedAdvance(m, first, cursor);
    d := Advance(m);
    OpenDrop(m.pending, k);
  }

  /** The actor is about to handle the message that `q` committed. */
  predicate HandlesCommit(p: Process, q: u64) {
    && p.phase == Idle && p.actor.inFlight > 0
    && p.flow.completions != [] && p.flow.completions[0] == Committed(q)
  }

  /** Handling a committed message, field by field. */
  lemma CompletionFields(p: Process, q: u64)
    requires HandlesCommit(p, q)
    requires Mark(p.actor.coord, q, q).Ok?
    ensures var p' := AfterCompletion(p);
            && p' == p.(actor := p'.actor, flow := p.flow.(completions := p.flow.completions[1..]),
                        history := p'.history, phase := p'.phase)
            && p'.actor.coord == Advance(Mark(p.actor.coord, q, q).value)
            && p'.actor.inFlight + 1 == p.actor.inFlight
            && (p'.phase == Idle || (p'.phase == Flushing && !p.options.dryRun))
  {
  }

  lemma CompletionTracked(p: Process)
    requires Tracked(p) && ActionEnabled(p, HandleCompletion)
    ensures Tracked(AfterCompletion(p))
    ensures p.flow.completions[0].Committed? ==> AfterCompletion(p).phase != Failed
  {
    if p.flow.completions[0].Committed? {
      CommitTracked(p, p.flow.completions[0].sequence);
    } else {
      assert AfterCompletion(p) == p.(phase := Failed);
    }
  }

  /** No mark is ever rejected. */
  lemma CommitTracked(p: Process, q: u64)
    requires Tracked(p) && HandlesCommit(p, q)
    ensures Tracked(AfterCompletion(p)) && AfterCompletion(p).phase != Failed
  {
    assert CompletionSequences(p.flow.completions)[0] == q;
    CommittedIsOpen(p.flow, p.actor.coord, p.actor.inFlight, p.first, p.cursor, q);
    var m, c, k := MarkedAndAdvanced(p.actor.coord, p.first, p.cursor, q);
    CompletionFields(p, q);
    CommittedTracked(p, q, c, AfterCompletion(p));
  }

  lemma Cancel(stages: multiset<u64>, queue: multiset<u64>, queue': multiset<u64>,
               open: multiset<u64>, open': multiset<u64>, q: u64)
    requires stages + queue == open && queue' + multiset{q} == queue && open' + multiset{q} == open
    ensures stages + queue' == open'
  {
    assert stages + queue' + multiset{q} == open' + multiset{q};
    assert (stages + queue' + multiset{q}) - multiset{q} == stages + queue';
  }

  lemma CommittedTracked(p: Process, q: u64, c: Coordinator, p': Process)
    requires Tracked(p) && p.phase == Idle && p.flow.completions != [] && q == p.flow.completions[0].sequence
    requires p' == p.(actor := p'.actor, flow := p.flow.(completions := p.flow.completions[1..]),
                      history := p'.history, phase := p'.phase)
    requires p'.actor.coord == c && p'.actor.inFlight + 1 == p.actor.inFlight
    requires p'.phase == Idle || (p'.phase == Flushing && !p.options.dryRun)
    requires Shaped(c, p.first, p.cursor) && HeadOpen(c.pending)
    requires multiset(OpenSequences(c.pending)) + multiset{q} == multiset(OpenSequences(p.actor.coord.pending))
    requires |OpenSequences(c.pending)| + 1 == |OpenSequences(p.actor.coord.pending)|
    ensures Tracked(p')
  {
    CompletionsTail(p.flow.completions);
    Cancel(InStages(p.flow), multiset(CompletionSequences(p.flow.completions)),
           multiset(CompletionSequences(p'.flow.completions)),
           multiset(OpenSequences(p.actor.coord.pending)), multiset(OpenSequences(c.pending)), q);
    assert InStages(p'.flow) == InStages(p.flow);
  }

  lemma ActionTracked(p: Process, a: Action)
    requires Tracked(p) && ActionEnabled(p, a)
    ensures Tracked(Acted(p, a))
  {
    if GateStep(a) {
      GateStepTracked(p, a);
    } else {
      match a
      case RegisterOne => RegisterTracked(p);
      case SendDescriptor => SendTracked(p);
      case HandleCompletion => CompletionTracked(p);
      case Work(work) => WorkTracked(p, work);
    }
  }
}
