/**
 * What a writer has been through: its place in the retries, the chunks and the tries is exactly
 * what the run's answers to it add up to, and those decide what comes next.
 */
module PipelineWriters {
  import opened Prelude
  import opened Sequences
  import opened Rows
  import opened Pipeline
  import opened PipelineUnits
  import opened PipelineSafety
  import opened PipelineTheorems

  /**
   * Counted for one sequence since a writer took it: checks that found the commit open, chunks
   * accepted since the last of those, and transient answers since the last of these.
   */
  datatype Tally = Tally(open: nat, accepted: nat, transient: nat)

  /** The commit next in line is that of `q`. */
  predicate NextCommit(s: State, q: u64) {
    s.process.Some? && s.process.value.flow.commits != [] && s.process.value.flow.commits[0] == q
  }

  /** The tally for `q` after one more event. */
  function Tallied(s: State, e: Event, q: u64, t: Tally): Tally {
    match e
    case Start(_) => Tally(0, 0, 0)
    case Inside(Work(TakeCommit)) => if NextCommit(s, q) then Tally(0, 0, 0) else t
    case Inside(Work(InsertOk(i))) => if WritesSequence(s, i, q) then Tally(t.open, t.accepted + 1, 0) else t
    case Inside(Work(InsertRetryable(i))) => if WritesSequence(s, i, q) then t.(transient := t.transient + 1) else t
    case Inside(Work(CheckSaysOpen(i))) => if WritesSequence(s, i, q) then Tally(t.open + 1, 0, 0) else t
    case _ => t
  }

  /** The tally for `q` at the end of a run. */
  ghost function TallyOf(w: World, events: seq<Event>, q: u64): Tally {
    if events == [] then Tally(0, 0, 0)
    else
      var n := |events| - 1;
      match Exec(w, Initial(), events[..n])
      case None => Tally(0, 0, 0)
      case Some(s) => Tallied(s, events[n], q, TallyOf(w, events[..n], q))
  }

  /** Tries of one chunk in one pass. */
  function TriesAllowed(o: Options): nat {
    if o.chunkAttempts == 0 then 1 else o.chunkAttempts
  }

  /** The job stands where its tally says; it is at the check exactly once the tries of a chunk are used up. */
  predicate Stands(o: Options, job: Job, t: Tally) {
    match job
    case Job(_, attempt, chunk, tries, phase) =>
      && attempt == t.open <= o.retries
      && chunk == t.accepted
      && (phase == Checking <==> t.transient == TriesAllowed(o))
      && t.transient <= TriesAllowed(o)
      && (phase != Checking ==> tries == t.transient)
  }

  // ---------------------------------------------------------------------
  // One writer a sequence
  // ---------------------------------------------------------------------

  lemma TwoJobs(jobs: seq<Job>, i: nat, j: nat)
    requires i < j < |jobs| && jobs[i].sequence == jobs[j].sequence
    ensures multiset(JobSequences(jobs))[jobs[i].sequence] >= 2
  {
    var q, s := jobs[i].sequence, JobSequences(jobs);
    assert s == s[..j] + [s[j]] + s[j + 1..];
    assert s[..j][i] == q && s[j] == q;
    assert q in s[..j];
  }

  lemma OneJob(p: Process, i: nat, j: nat)
    requires Tracked(p) && i < |p.flow.writing| && j < |p.flow.writing|
    requires p.flow.writing[i].sequence == p.flow.writing[j].sequence
    ensures i == j
  {
    var q := p.flow.writing[i].sequence;
    PlacedOnce(p, q);
    if i < j {
      TwoJobs(p.flow.writing, i, j);
    } else if j < i {
      TwoJobs(p.flow.writing, j, i);
    }
  }

  lemma WaitsAlone(p: Process, i: nat)
    requires Tracked(p) && p.flow.commits != [] && i < |p.flow.writing|
    ensures p.flow.writing[i].sequence != p.flow.commits[0]
  {
    PlacedOnce(p, p.flow.commits[0]);
    assert p.flow.commits[0] in multiset(p.flow.commits);
    JobListed(p.flow.writing, i);
  }

  lemma JobListed(jobs: seq<Job>, i: nat)
    requires i < |jobs|
    ensures jobs[i].sequence in multiset(JobSequences(jobs))
  {
    assert JobSequences(jobs)[i] == jobs[i].sequence;
  }

  // ---------------------------------------------------------------------
  // Steps
  // ---------------------------------------------------------------------

  predicate AllStand(o: Options, jobs: seq<Job>, t: u64 -> Tally) {
    forall i :: 0 <= i < |jobs| ==> Stands(o, jobs[i], t(jobs[i].sequence))
  }

  /** No two jobs are of one sequence. */
  predicate DistinctJobs(jobs: seq<Job>) {
    forall i, j :: 0 <= i < j < |jobs| ==> jobs[i].sequence != jobs[j].sequence
  }

  /** No tally but that of `q` changes. */
  ghost predicate OnlyAt(t: u64 -> Tally, t': u64 -> Tally, q: u64) {
    forall p: u64 :: p != q ==> t'(p) == t(p)
  }

  /** One job changes as its tally does; the others, of other sequences, stay. */
  lemma OneMoves(o: Options, jobs: seq<Job>, i: nat, job: Job, t: u64 -> Tally, t': u64 -> Tally)
    requires AllStand(o, jobs, t) && DistinctJobs(jobs) && i < |jobs| && job.sequence == jobs[i].sequence
    requires OnlyAt(t, t', job.sequence) && Stands(o, job, t'(job.sequence))
    ensures AllStand(o, jobs[i := job], t')
  {
  }

  lemma OneLeaves(o: Options, jobs: seq<Job>, i: nat, t: u64 -> Tally, t': u64 -> Tally)
    requires AllStand(o, jobs, t) && DistinctJobs(jobs) && i < |jobs| && OnlyAt(t, t', jobs[i].sequence)
    ensures AllStand(o, Without(jobs, i), t')
  {
    var rest := Without(jobs, i);
    forall k | 0 <= k < |rest| ensures Stands(o, rest[k], t'(rest[k].sequence)) {
      assert rest[k] == jobs[if k < i then k else k + 1];
    }
  }

  lemma OneJoins(o: Options, jobs: seq<Job>, job: Job, t: u64 -> Tally, t': u64 -> Tally)
    requires AllStand(o, jobs, t) && OnlyAt(t, t', job.sequence) && Stands(o, job, t'(job.sequence))
    requires forall i :: 0 <= i < |jobs| ==> jobs[i].sequence != job.sequence
    ensures AllStand(o, jobs + [job], t')
  {
  }

  lemma JobsDistinct(p: Process)
    requires Tracked(p)
    ensures DistinctJobs(p.flow.writing)
    ensures p.flow.commits != [] ==>
              forall i :: 0 <= i < |p.flow.writing| ==> p.flow.writing[i].sequence != p.flow.commits[0]
  {
    forall i, j | 0 <= i < j < |p.flow.writing| ensures p.flow.writing[i].sequence != p.flow.writing[j].sequence {
      if p.flow.writing[i].sequence == p.flow.writing[j].sequence {
        OneJob(p, i, j);
      }
    }
    if p.flow.commits != [] {
      forall i | 0 <= i < |p.flow.writing| ensures p.flow.writing[i].sequence != p.flow.commits[0] {
        WaitsAlone(p, i);
      }
    }
  }

  /** The tallies after an event. */
  function Next(s: State, e: Event, t: u64 -> Tally): u64 -> Tally {
    (q: u64) => Tallied(s, e, q, t(q))
  }

  /** A writer's answer moves the tally of its own sequence only. */
  lemma AnswerTally(s: State, p: Process, i: nat, a: WorkerAction, t: u64 -> Tally)
    requires s.process == Some(p) && i < |p.flow.writing|
    requires a == InsertOk(i) || a == InsertRetryable(i) || a == CheckSaysOpen(i)
    ensures var q := p.flow.writing[i].sequence;
            var t' := Next(s, Inside(Work(a)), t);
            && OnlyAt(t, t', q)
            && (a.InsertOk? ==> t'(q) == Tally(t(q).open, t(q).accepted + 1, 0))
            && (a.InsertRetryable? ==> t'(q) == t(q).(transient := t(q).transient + 1))
            && (a.CheckSaysOpen? ==> t'(q) == Tally(t(q).open + 1, 0, 0))
  {
  }

  lemma AnswerStands(s: State, p: Process, i: nat, a: WorkerAction, t: u64 -> Tally)
    requires s.process == Some(p) && DistinctJobs(p.flow.writing) && AllStand(p.options, p.flow.writing, t)
    requires a == InsertOk(i) || a == InsertRetryable(i) || a == CheckSaysOpen(i)
    requires WorkEnabled(p.options, p.flow, p.pool, a)
    ensures AllStand(p.options, Moved(p.options, p.flow, p.pool, a).writing, Next(s, Inside(Work(a)), t))
  {
    var t', f' := Next(s, Inside(Work(a)), t), Moved(p.options, p.flow, p.pool, a);
    var job := p.flow.writing[i];
    AnswerTally(s, p, i, a, t);
    assert Stands(p.options, job, t(job.sequence));
    if a.CheckSaysOpen? && job.attempt == p.options.retries {
      OneLeaves(p.options, p.flow.writing, i, t, t');
    } else {
      OneMoves(p.options, p.flow.writing, i, f'.writing[i], t, t');
    }
  }

  lemma TakeTally(s: State, p: Process, t: u64 -> Tally)
    requires s.process == Some(p) && p.flow.commits != []
    ensures var t' := Next(s, Inside(Work(TakeCommit)), t);
            OnlyAt(t, t', p.flow.commits[0]) && t'(p.flow.commits[0]) == Tally(0, 0, 0)
  {
  }

  lemma TakeStands(s: State, p: Process, t: u64 -> Tally)
    requires s.process == Some(p) && AllStand(p.options, p.flow.writing, t)
    requires WorkEnabled(p.options, p.flow, p.pool, TakeCommit)
    requires forall i :: 0 <= i < |p.flow.writing| ==> p.flow.writing[i].sequence != p.flow.commits[0]
    ensures AllStand(p.options, Moved(p.options, p.flow, p.pool, TakeCommit).writing,
                     Next(s, Inside(Work(TakeCommit)), t))
  {
    TakeTally(s, p, t);
    OneJoins(p.options, p.flow.writing, Job(p.flow.commits[0], 0, 0, 0, Ready), t,
             Next(s, Inside(Work(TakeCommit)), t));
  }

  /** Events that say nothing about any tally. */
  predicate Silent(e: Event) {
    match e
    case Start(_) => false
    case Inside(Work(a)) => !a.InsertOk? && !a.InsertRetryable? && !a.CheckSaysOpen? && !a.TakeCommit?
    case _ => true
  }

  lemma SilentTally(s: State, e: Event, t: u64 -> Tally)
    requires Silent(e)
    ensures forall q: u64 :: Next(s, e, t)(q) == t(q)
  {
  }

  lemma SameTallies(o: Options, jobs: seq<Job>, t: u64 -> Tally, t': u64 -> Tally)
    requires AllStand(o, jobs, t) && forall q: u64 :: t'(q) == t(q)
    ensures AllStand(o, jobs, t')
  {
  }

  /** Worker steps that end a write, or have nothing to do with one. */
  lemma OtherWorkStands(s: State, p: Process, a: WorkerAction, t: u64 -> Tally)
    requires s.process == Some(p) && DistinctJobs(p.flow.writing) && AllStand(p.options, p.flow.writing, t)
    requires WorkEnabled(p.options, p.flow, p.pool, a) && Silent(Inside(Work(a)))
    ensures AllStand(p.options, Moved(p.options, p.flow, p.pool, a).writing, Next(s, Inside(Work(a)), t))
  {
    var t' := Next(s, Inside(Work(a)), t);
    SilentTally(s, Inside(Work(a)), t);
    match a
    case InsertRejected(i) => OneLeaves(p.options, p.flow.writing, i, t, t');
    case CheckFails(i) => OneLeaves(p.options, p.flow.writing, i, t, t');
    case WriteReturns(i) => OneLeaves(p.options, p.flow.writing, i, t, t');
    case _ => SameTallies(p.options, p.flow.writing, t, t');
  }

  lemma WorkStands(s: State, p: Process, a: WorkerAction, t: u64 -> Tally)
    requires s.process == Some(p) && Tracked(p) && AllStand(p.options, p.flow.writing, t)
    requires WorkEnabled(p.options, p.flow, p.pool, a)
    ensures AllStand(p.options, Moved(p.options, p.flow, p.pool, a).writing, Next(s, Inside(Work(a)), t))
  {
    JobsDistinct(p);
    match a
    case InsertOk(i) => AnswerStands(s, p, i, a, t);
    case InsertRetryable(i) => AnswerStands(s, p, i, a, t);
    case CheckSaysOpen(i) => AnswerStands(s, p, i, a, t);
    case TakeCommit => TakeStands(s, p, t);
    case _ => OtherWorkStands(s, p, a, t);
  }

  lemma ActorKeepsJobs(p: Process, a: Action)
    requires ActionEnabled(p, a) && !a.Work?
    ensures Acted(p, a).flow.writing == p.flow.writing && Acted(p, a).options == p.options
  {
    match a
    case RegisterOne =>
    case HandleCompletion =>
    case _ =>
  }

  lemma PhaseStands(o: Options, jobs: seq<Job>, i: nat, phase: JobPhase, t: u64 -> Tally, t': u64 -> Tally)
    requires AllStand(o, jobs, t) && i < |jobs| && jobs[i].phase != Checking && phase != Checking
    requires forall q: u64 :: t'(q) == t(q)
    ensures AllStand(o, jobs[i := jobs[i].(phase := phase)], t')
  {
  }

  lemma ActorStands(s: State, p: Process, a: Action, t: u64 -> Tally)
    requires AllStand(p.options, p.flow.writing, t) && ActionEnabled(p, a) && !a.Work?
    ensures AllStand(p.options, Acted(p, a).flow.writing, Next(s, Inside(a), t)) && Acted(p, a).options == p.options
  {
    ActorKeepsJobs(p, a);
    SilentTally(s, Inside(a), t);
    SameTallies(p.options, p.flow.writing, t, Next(s, Inside(a), t));
  }

  lemma ActionStands(s: State, p: Process, a: Action, t: u64 -> Tally)
    requires s.process == Some(p) && Tracked(p) && AllStand(p.options, p.flow.writing, t) && ActionEnabled(p, a)
    ensures AllStand(p.options, Acted(p, a).flow.writing, Next(s, Inside(a), t)) && Acted(p, a).options == p.options
  {
    if a.Work? {
      WorkStands(s, p, a.work, t);
      assert Acted(p, a) == Worked(p, a.work);
    } else {
      ActorStands(s, p, a, t);
    }
  }

  /** Steps of the server and the source, as far as jobs go. */
  lemma OutsideStands(w: World, s: State, p: Process, e: Event, p': Process, t: u64 -> Tally)
    requires s.process == Some(p) && DistinctJobs(p.flow.writing) && AllStand(p.options, p.flow.writing, t)
    requires Enabled(w, s, e) && Apply(w, s, e).process == Some(p') && !e.Inside?
    ensures AllStand(p'.options, p'.flow.writing, Next(s, e, t))
  {
    SilentTally(s, e, t);
    match e
    case SendInsert(i) => PhaseStands(p.options, p.flow.writing, i, Sent(false), t, Next(s, e, t));
    case Serve(i, _) => PhaseStands(p.options, p.flow.writing, i, Sent(true), t, Next(s, e, t));
    case CheckSaysCommitted(i) => OneLeaves(p.options, p.flow.writing, i, t, Next(s, e, t));
    case _ => SameTallies(p.options, p.flow.writing, t, Next(s, e, t));
  }

  /** Every event moves jobs exactly as it moves their tallies. */
  lemma EventStands(w: World, s: State, p: Process, e: Event, p': Process, t: u64 -> Tally)
    requires s.process == Some(p) && Tracked(p) && AllStand(p.options, p.flow.writing, t)
    requires Enabled(w, s, e) && Apply(w, s, e).process == Some(p')
    ensures AllStand(p'.options, p'.flow.writing, Next(s, e, t))
  {
    if e.Inside? {
      ActionStands(s, p, e.action, t);
    } else {
      JobsDistinct(p);
      OutsideStands(w, s, p, e, p', t);
    }
  }

  ghost function Tallies(w: World, events: seq<Event>): u64 -> Tally {
    (q: u64) => TallyOf(w, events, q)
  }

  lemma TalliesNext(w: World, events: seq<Event>, before: State)
    requires events != [] && Exec(w, Initial(), events[..|events| - 1]) == Some(before)
    ensures forall q: u64 ::
              Tallies(w, events)(q) == Next(before, events[|events| - 1], Tallies(w, events[..|events| - 1]))(q)
  {
  }

  lemma {:induction false} RunStands(w: World, events: seq<Event>, s: State)
    requires Reaches(w, events, s)
    ensures s.process.Some? ==> AllStand(s.process.value.options, s.process.value.flow.writing, Tallies(w, events))
  {
    if events != [] && s.process.Some? {
      var n := |events| - 1;
      var before := Exec(w, Initial(), events[..n]).value;
      RunStands(w, events[..n], before);
      RunSound(w, events[..n]);
      if before.process.Some? {
        var t := Tallies(w, events[..n]);
        EventStands(w, before, before.process.value, events[n], s.process.value, t);
        TalliesNext(w, events, before);
        SameTallies(s.process.value.options, s.process.value.flow.writing, Next(before, events[n], t),
                    Tallies(w, events));
      }
    }
  }

  // ---------------------------------------------------------------------
  // Every run
  // ---------------------------------------------------------------------

  /**
   * In every reachable state a writer's attempt is the number of checks that found its commit open,
   * its chunk the number of chunks accepted since the last of those, and it asks the check exactly
   * when the transient answers to the current chunk in this pass are as many as the attempts allowed.
   */
  lemma WriterFollowsAnswers(w: World, events: seq<Event>, s: State, p: Process, i: nat)
    requires Reaches(w, events, s) && s.process == Some(p) && i < |p.flow.writing|
    ensures var job := p.flow.writing[i];
            var t := TallyOf(w, events, job.sequence);
            var allowed := Max(p.options.chunkAttempts, 1);
            && job.attempt == t.open <= p.options.retries
            && job.chunk == t.accepted
            && t.transient <= allowed
            && (job.phase == Checking <==> t.transient == allowed)
            && (job.phase != Checking ==> job.tries == t.transient)
  {
    RunStands(w, events, s);
    assert Stands(p.options, p.flow.writing[i], Tallies(w, events)(p.flow.writing[i].sequence));
  }

  /**
   * One more transient answer: with attempts left the same chunk of the same pass is sent again,
   * with the last one used up the check is asked; nothing else changes in the process.
   */
  lemma TransientDecides(w: World, events: seq<Event>, s: State, p: Process, i: nat, p': Process)
    requires Reaches(w, events, s) && s.process == Some(p) && Enabled(w, s, Inside(Work(InsertRetryable(i))))
    requires Apply(w, s, Inside(Work(InsertRetryable(i)))).process == Some(p')
    ensures i < |p.flow.writing| == |p'.flow.writing|
    ensures var job, job' := p.flow.writing[i], p'.flow.writing[i];
            var again := TallyOf(w, events, job.sequence).transient + 1 < Max(p.options.chunkAttempts, 1);
            && job'.sequence == job.sequence && job'.attempt == job.attempt && job'.chunk == job.chunk
            && job'.phase == (if again then Ready else Checking)
    ensures forall k :: 0 <= k < |p.flow.writing| && k != i ==> p'.flow.writing[k] == p.flow.writing[k]
    ensures p'.flow == p.flow.(writing := p'.flow.writing) && p'.actor == p.actor && p'.pool == p.pool
  {
    WriterFollowsAnswers(w, events, s, p, i);
  }

  lemma OpenStep(w: World, s: State, p: Process, i: nat, p': Process)
    requires s.process == Some(p) && Enabled(w, s, Inside(Work(CheckSaysOpen(i)))) && i < |p.flow.writing|
    requires Apply(w, s, Inside(Work(CheckSaysOpen(i)))).process == Some(p')
    ensures var job := p.flow.writing[i];
            if job.attempt < p.options.retries then
              p'.flow == p.flow.(writing := p.flow.writing[i := Job(job.sequence, job.attempt + 1, 0, 0, Ready)])
            else
              && p'.flow.completions == p.flow.completions + [Fatal(job.sequence)]
              && p'.flow.writing == Without(p.flow.writing, i)
  {
  }

  /**
   * A check that finds the commit open: with retries left the whole pass starts over at the first
   * chunk, otherwise the write is reported as fatal and the writer is done with it.
   */
  lemma OpenDecides(w: World, events: seq<Event>, s: State, p: Process, i: nat, p': Process)
    requires Reaches(w, events, s) && s.process == Some(p) && Enabled(w, s, Inside(Work(CheckSaysOpen(i))))
    requires Apply(w, s, Inside(Work(CheckSaysOpen(i)))).process == Some(p')
    ensures i < |p.flow.writing|
    ensures var q := p.flow.writing[i].sequence;
            var open := TallyOf(w, events, q).open;
            if open < p.options.retries then
              p'.flow == p.flow.(writing := p.flow.writing[i := Job(q, open + 1, 0, 0, Ready)])
            else
              p'.flow.completions == p.flow.completions + [Fatal(q)] && p'.flow.writing == Without(p.flow.writing, i)
  {
    WriterFollowsAnswers(w, events, s, p, i);
    OpenStep(w, s, p, i, p');
  }

  /** A write returns success exactly from its last chunk: every chunk of the plan was accepted in this pass. */
  lemma ReturnsAfterAll(w: World, events: seq<Event>, s: State, p: Process, i: nat)
    requires Reaches(w, events, s) && s.process == Some(p) && Enabled(w, s, Inside(Work(WriteReturns(i))))
    ensures i < |p.flow.writing|
    ensures var q := p.flow.writing[i].sequence; TallyOf(w, events, q).accepted == |p.options.plan(q)|
  {
    WriterFollowsAnswers(w, events, s, p, i);
  }
}
