/**
 * Runs that do happen: how often the rows of an acked sequence can be in the table, what a token
 * saves, and what a poll may bring.
 */
module PipelineRuns {
  import opened Prelude
  import opened Sequences
  import opened Rows
  import opened AckCoordinators
  import opened SourceActor
  import opened Pipeline
  import opened PipelineTheorems

  /** Options under which the first sequence is one chunk that may be tried twice, and every group is flushed. */
  ghost predicate OneChunk(w: World, o: Options) {
    && ValidOptions(w, o) && w.decodes(w.origin) && |o.plan(w.origin)| == 1
    && !o.dryRun && o.policy == EveryCommitGroup && o.chunkAttempts >= 2
  }

  lemma ChunkIsRows(w: World, o: Options)
    requires OneChunk(w, o)
    ensures o.plan(w.origin)[0].rows == w.rows(w.origin)
  {
    var chunks := o.plan(w.origin);
    assert PlanCovers(w, chunks, w.origin);
    FlattenSnoc([], chunks[0].rows);
    assert ChunkRows(chunks) == [] + [chunks[0].rows];
  }

  lemma Follow(w: World, events: seq<Event>, s: State, e: Event) returns (longer: seq<Event>, t: State)
    requires Reaches(w, events, s) && Enabled(w, s, e)
    ensures t == Apply(w, s, e) && longer == events + [e] && Reaches(w, longer, t)
  {
    t := Apply(w, s, e);
    longer := events + [e];
    assert longer[..|events|] == events;
  }

  /** The coordinator with the first sequence registered. */
  function Pending(q: u64): Coordinator {
    Recorded(Fresh(None), q, q)
  }

  function Vars(q: u64): ActorVars {
    ActorVars(Pending(q), 1, None, 0, SourceAcks(None, None))
  }

  /** The process with the first sequence admitted, nothing else, and the unit where `flow` has it. */
  function Holding(w: World, o: Options, flow: Flow, retiring: nat, written: set<u64>): Process
    requires o.maxInflight >= 1
  {
    Process(o, w.origin, None, w.origin + 1, Idle, true, Vars(w.origin),
            Pool(o.maxInflight - 1, retiring, o.fetchers, o.decoders, o.writers), flow, History([], 0, written))
  }

  /** The process takes step `a` and is `p'` after it. */
  ghost predicate Moves(p: Process, a: Action, p': Process) {
    ActionEnabled(p, a) && Acted(p, a) == p'
  }

  lemma Step(w: World, events: seq<Event>, s: State, p: Process, a: Action, p': Process)
      returns (longer: seq<Event>, t: State)
    requires Reaches(w, events, s) && s.process == Some(p) && Moves(p, a, p')
    ensures Reaches(w, longer, t) && t == s.(process := Some(p'))
  {
    longer, t := Follow(w, events, s, Inside(a));
  }

  /** The process right after its gate has opened on one descriptor. */
  function Polling(w: World, o: Options, phase: ActorPhase): Process
    requires o.maxInflight >= 1
  {
    Process(o, w.origin, None, w.origin, phase, true, ActorVars(Fresh(None), 0, None, 0, SourceAcks(None, None)),
            Pool(o.maxInflight - 1, 0, o.fetchers, o.decoders, o.writers), Flow([], [], [], [], [], [], [], []),
            History([], 0, {}))
  }

  lemma Polls(w: World, o: Options)
    requires OneChunk(w, o)
    ensures Moves(Boot(w, Initial(), o), OpenGate, Polling(w, o, Gated(1)))
    ensures Moves(Polling(w, o, Gated(1)), Poll(1), Polling(w, o, Registering(1)))
  {
  }

  lemma Registers(w: World, o: Options)
    requires OneChunk(w, o)
    ensures Moves(Polling(w, o, Registering(1)), RegisterOne,
                  Holding(w, o, Flow([w.origin], [], [], [], [], [], [], []), 0, {}).(phase := Sending))
  {
    assert [] + [w.origin] == [w.origin];
  }

  lemma Sends(w: World, o: Options)
    requires OneChunk(w, o)
    ensures Moves(Holding(w, o, Flow([w.origin], [], [], [], [], [], [], []), 0, {}).(phase := Sending),
                  SendDescriptor, Holding(w, o, Flow([], [w.origin], [], [], [], [], [], []), 0, {}))
  {
    assert [w.origin][1..] == [] && [] + [w.origin] == [w.origin];
  }

  lemma Admits(w: World, o: Options) returns (events: seq<Event>, s: State)
    requires OneChunk(w, o)
    ensures Reaches(w, events, s)
    ensures s == State(None, [], {}, [], Some(Holding(w, o, Flow([], [w.origin], [], [], [], [], [], []), 0, {})))
  {
    var registered := Holding(w, o, Flow([w.origin], [], [], [], [], [], [], []), 0, {}).(phase := Sending);
    var sent := Holding(w, o, Flow([], [w.origin], [], [], [], [], [], []), 0, {});
    Polls(w, o);
    Registers(w, o);
    Sends(w, o);
    events, s := Follow(w, [], Initial(), Start(o));
    events, s := Step(w, events, s, Boot(w, Initial(), o), OpenGate, Polling(w, o, Gated(1)));
    events, s := Step(w, events, s, Polling(w, o, Gated(1)), Poll(1), Polling(w, o, Registering(1)));
    events, s := Step(w, events, s, Polling(w, o, Registering(1)), RegisterOne, registered);
    events, s := Step(w, events, s, registered, SendDescriptor, sent);
  }

  function Writing(w: World, o: Options, tries: nat, phase: JobPhase): Process
    requires o.maxInflight >= 1
  {
    Holding(w, o, Flow([], [], [], [], [], [], [Job(w.origin, 0, 0, tries, phase)], []), 0, {})
  }

  lemma Fetches(w: World, o: Options)
    requires OneChunk(w, o)
    ensures var q := w.origin;
            && Moves(Holding(w, o, Flow([], [q], [], [], [], [], [], []), 0, {}), Work(TakeDescriptor),
                     Holding(w, o, Flow([], [], [q], [], [], [], [], []), 0, {}))
            && Moves(Holding(w, o, Flow([], [], [q], [], [], [], [], []), 0, {}), Work(FetchReturns(0)),
                     Holding(w, o, Flow([], [], [], [q], [], [], [], []), 0, {}))
  {
    var one := [w.origin];
    assert one[1..] == [] && [] + one == one && Without(one, 0) == [];
  }

  lemma Decodes(w: World, o: Options)
    requires OneChunk(w, o)
    ensures var q := w.origin;
            && Moves(Holding(w, o, Flow([], [], [], [q], [], [], [], []), 0, {}), Work(TakeFetched),
                     Holding(w, o, Flow([], [], [], [], [q], [], [], []), 0, {}))
            && Moves(Holding(w, o, Flow([], [], [], [], [q], [], [], []), 0, {}), Work(DecodeReturns(0)),
                     Holding(w, o, Flow([], [], [], [], [], [q], [], []), 0, {}))
  {
    var one := [w.origin];
    assert one[1..] == [] && [] + one == one && Without(one, 0) == [];
  }

  lemma BeginsWrite(w: World, o: Options)
    requires OneChunk(w, o)
    ensures Moves(Holding(w, o, Flow([], [], [], [], [], [w.origin], [], []), 0, {}), Work(TakeCommit),
                  Writing(w, o, 0, Ready))
  {
    assert [w.origin][1..] == [] && [] + [Job(w.origin, 0, 0, 0, Ready)] == [Job(w.origin, 0, 0, 0, Ready)];
  }

  lemma Arrives(w: World, o: Options) returns (events: seq<Event>, s: State)
    requires OneChunk(w, o)
    ensures Reaches(w, events, s) && s == State(None, [], {}, [], Some(Writing(w, o, 0, Ready)))
  {
    var sent := Holding(w, o, Flow([], [w.origin], [], [], [], [], [], []), 0, {});
    var fetching := Holding(w, o, Flow([], [], [w.origin], [], [], [], [], []), 0, {});
    var fetched := Holding(w, o, Flow([], [], [], [w.origin], [], [], [], []), 0, {});
    var decoding := Holding(w, o, Flow([], [], [], [], [w.origin], [], [], []), 0, {});
    var commits := Holding(w, o, Flow([], [], [], [], [], [w.origin], [], []), 0, {});
    Fetches(w, o);
    Decodes(w, o);
    BeginsWrite(w, o);
    events, s := Admits(w, o);
    events, s := Step(w, events, s, sent, Work(TakeDescriptor), fetching);
    events, s := Step(w, events, s, fetching, Work(FetchReturns(0)), fetched);
    events, s := Step(w, events, s, fetched, Work(TakeFetched), decoding);
    events, s := Step(w, events, s, decoding, Work(DecodeReturns(0)), commits);
    events, s := Step(w, events, s, commits, Work(TakeCommit), Writing(w, o, 0, Ready));
  }

  lemma Changes(w: World, o: Options, tries: nat, phase: JobPhase, next: JobPhase)
    requires OneChunk(w, o)
    ensures InPhase(Writing(w, o, tries, phase), 0, next) == Writing(w, o, tries, next)
  {
    var before, after := Job(w.origin, 0, 0, tries, phase), Job(w.origin, 0, 0, tries, next);
    assert [before][0 := after] == [after];
  }

  /** One insert goes out and is served, or dropped for its token, and the writer has not heard of it. */
  lemma Served(w: World, o: Options, events: seq<Event>, s: State, tries: nat, skip: bool)
      returns (longer: seq<Event>, t: State)
    requires OneChunk(w, o) && Reaches(w, events, s) && s.process == Some(Writing(w, o, tries, Ready))
    requires skip ==> MaySkip(s, o.plan(w.origin)[0])
    ensures Reaches(w, longer, t) && t.process == Some(Writing(w, o, tries, Sent(true)))
    ensures t.table == (if skip then s.table else s.table + w.rows(w.origin)) && t.durable == s.durable
    ensures t.wire == s.wire + [o.plan(w.origin)[0]]
    ensures o.plan(w.origin)[0].dedup ==> MaySkip(t, o.plan(w.origin)[0])
  {
    ChunkIsRows(w, o);
    Changes(w, o, tries, Ready, Sent(false));
    Changes(w, o, tries, Sent(false), Sent(true));
    longer, t := Follow(w, events, s, SendInsert(0));
    longer, t := Follow(w, longer, t, Serve(0, skip));
  }

  lemma AnswerLost(w: World, o: Options)
    requires OneChunk(w, o)
    ensures Moves(Writing(w, o, 0, Sent(true)), Work(InsertRetryable(0)), Writing(w, o, 1, Ready))
  {
    var before, after := Job(w.origin, 0, 0, 0, Sent(true)), Job(w.origin, 0, 0, 1, Ready);
    assert [before][0 := after] == [after];
  }

  /** The first answer is lost and the chunk sent again. */
  lemma WrittenTwice(w: World, o: Options, skip: bool) returns (events: seq<Event>, s: State)
    requires OneChunk(w, o) && (skip ==> o.plan(w.origin)[0].dedup)
    ensures Reaches(w, events, s) && s.process == Some(Writing(w, o, 1, Sent(true)))
    ensures s.table == (if skip then w.rows(w.origin) else w.rows(w.origin) + w.rows(w.origin)) && s.durable == None
    ensures s.wire == [o.plan(w.origin)[0], o.plan(w.origin)[0]]
  {
    AnswerLost(w, o);
    events, s := Arrives(w, o);
    events, s := Served(w, o, events, s, 0, false);
    events, s := Step(w, events, s, Writing(w, o, 0, Sent(true)), Work(InsertRetryable(0)), Writing(w, o, 1, Ready));
    events, s := Served(w, o, events, s, 1, skip);
  }

  /** The last chunk is in, and the write has not returned yet. */
  function Through(w: World, o: Options): Process
    requires o.maxInflight >= 1
  {
    Holding(w, o, Flow([], [], [], [], [], [], [Job(w.origin, 0, 1, 0, Ready)], []), 0, {})
  }

  function Returned(w: World, o: Options): Process
    requires o.maxInflight >= 1
  {
    Holding(w, o, Flow([], [], [], [], [], [], [], [Committed(w.origin)]), 1, {w.origin})
  }

  lemma Accepts(w: World, o: Options)
    requires OneChunk(w, o)
    ensures Moves(Writing(w, o, 1, Sent(true)), Work(InsertOk(0)), Through(w, o))
  {
    var before, after := Job(w.origin, 0, 0, 1, Sent(true)), Job(w.origin, 0, 1, 0, Ready);
    assert [before][0 := after] == [after];
  }

  lemma ReturnsFlow(w: World, o: Options)
    requires OneChunk(w, o)
    ensures WorkEnabled(o, Through(w, o).flow, Through(w, o).pool, WriteReturns(0))
    ensures Moved(o, Through(w, o).flow, Through(w, o).pool, WriteReturns(0)) == Returned(w, o).flow
  {
    assert Without([Job(w.origin, 0, 1, 0, Ready)], 0) == [];
    assert [] + [Committed(w.origin)] == [Committed(w.origin)];
  }

  lemma Returns(w: World, o: Options)
    requires OneChunk(w, o)
    ensures Moves(Through(w, o), Work(WriteReturns(0)), Returned(w, o))
  {
    ReturnsFlow(w, o);
    assert {} + {w.origin} == {w.origin};
  }

  lemma Reported(w: World, o: Options, skip: bool) returns (events: seq<Event>, s: State)
    requires OneChunk(w, o) && (skip ==> o.plan(w.origin)[0].dedup)
    ensures Reaches(w, events, s) && s.durable == None && s.process == Some(Returned(w, o))
    ensures s.table == if skip then w.rows(w.origin) else w.rows(w.origin) + w.rows(w.origin)
    ensures s.wire == [o.plan(w.origin)[0], o.plan(w.origin)[0]]
  {
    Accepts(w, o);
    Returns(w, o);
    events, s := WrittenTwice(w, o, skip);
    events, s := Step(w, events, s, Writing(w, o, 1, Sent(true)), Work(InsertOk(0)), Through(w, o));
    events, s := Step(w, events, s, Through(w, o), Work(WriteReturns(0)), Returned(w, o));
  }

  /** The one pending sequence is marked and popped. */
  lemma FrontierReaches(q: u64)
    ensures Mark(Pending(q), q, q).Ok? && Advance(Mark(Pending(q), q, q).value).frontier == Some(q)
  {
  }

  lemma Acked(w: World, o: Options, skip: bool) returns (events: seq<Event>, s: State)
    requires OneChunk(w, o) && (skip ==> o.plan(w.origin)[0].dedup)
    ensures Reaches(w, events, s) && s.durable == Some(w.origin)
    ensures s.table == if skip then w.rows(w.origin) else w.rows(w.origin) + w.rows(w.origin)
    ensures s.wire == [o.plan(w.origin)[0], o.plan(w.origin)[0]]
  {
    events, s := Reported(w, o, skip);
    FrontierReaches(w.origin);
    events, s := Follow(w, events, s, Inside(HandleCompletion));
    events, s := Follow(w, events, s, FlushReturns);
  }

  function Copies(rows: seq<Row>, n: nat): seq<Row> {
    if n == 0 then [] else Copies(rows, n - 1) + rows
  }

  /**
   * For every number of copies there is a run in which the first sequence is durably acked and its
   * rows are in the table that many times over: an acked table is only right read by key.
   */
  lemma {:induction false} RowsRepeat(w: World, o: Options, n: nat) returns (events: seq<Event>, s: State)
    requires OneChunk(w, o) && n >= 2
    ensures Reaches(w, events, s) && s.durable == Some(w.origin) && s.table == Copies(w.rows(w.origin), n)
    ensures s.wire == [o.plan(w.origin)[0], o.plan(w.origin)[0]]
    decreases n
  {
    if n == 2 {
      events, s := Acked(w, o, false);
      assert Copies(w.rows(w.origin), 2) == Copies(w.rows(w.origin), 1) + w.rows(w.origin);
      assert Copies(w.rows(w.origin), 1) == w.rows(w.origin);
    } else {
      events, s := RowsRepeat(w, o, n - 1);
      ChunkIsRows(w, o);
      events, s := Follow(w, events, s, ServeLate(0, false));
    }
  }

  /**
   * Where the token is applied and remembered, the second try adds nothing and the sequence is acked
   * with its rows once.
   */
  lemma TokenSaves(w: World, o: Options) returns (events: seq<Event>, s: State)
    requires OneChunk(w, o) && o.plan(w.origin)[0].dedup
    ensures Reaches(w, events, s) && s.durable == Some(w.origin) && s.table == w.rows(w.origin)
    ensures |s.wire| == 2
  {
    events, s := Acked(w, o, true);
  }

  // ---------------------------------------------------------------------
  // What a poll may bring
  // ---------------------------------------------------------------------

  /** The sequences from `first` on, `count` of them. */
  function Following(first: nat, count: nat): (r: seq<u64>)
    requires first + count <= U64_MAX + 1
    ensures |r| == count
  {
    if count == 0 then [] else Following(first, count - 1) + [first + count - 1]
  }

  /** The process after `done` of `count` descriptors of one poll have been registered. */
  ghost predicate Registered(p: Process, gates: nat, count: nat, done: nat, p': Process) {
    && done <= count <= gates && p.cursor + count <= U64_MAX + 1
    && p'.phase == (if done == count then Sending else Registering(count - done))
    && p'.cursor == p.cursor + done
    && p'.flow == p.flow.(toSend := p.flow.toSend + Following(p.cursor, done))
    && p'.actor.inFlight == p.actor.inFlight + done
    && p'.pool == p.pool.(permits := p.pool.permits + gates - count)
  }

  lemma RegistersNext(w: World, events: seq<Event>, s: State, p: Process, gates: nat, count: nat, done: nat,
                      q: Process) returns (longer: seq<Event>, t: State, p': Process)
    requires Reaches(w, events, s) && s.process == Some(q) && done < count <= gates
    requires Registered(p, gates, count, done, q)
    ensures Reaches(w, longer, t) && t.process == Some(p') && Registered(p, gates, count, done + 1, p')
  {
    RegisterNeverRejects(w, events, s, q);
    longer, t := Follow(w, events, s, Inside(RegisterOne));
    p' := t.process.value;
    assert p.flow.toSend + Following(p.cursor, done) + [q.cursor] == p.flow.toSend + Following(p.cursor, done + 1);
  }

  lemma {:induction false} RegistersMany(w: World, events: seq<Event>, s: State, p: Process, gates: nat, count: nat,
                                         done: nat) returns (longer: seq<Event>, t: State, p': Process)
    requires Reaches(w, events, s) && s.process == Some(p) && p.phase == Gated(gates)
    requires done <= count <= gates && 1 <= count && p.cursor + count <= U64_MAX + 1
    ensures Reaches(w, longer, t) && t.process == Some(p') && Registered(p, gates, count, done, p')
  {
    if done == 0 {
      longer, t := Follow(w, events, s, Inside(Poll(count)));
      p' := t.process.value;
      assert p.flow.toSend + Following(p.cursor, 0) == p.flow.toSend;
    } else {
      longer, t, p' := RegistersMany(w, events, s, p, gates, count, done - 1);
      longer, t, p' := RegistersNext(w, longer, t, p, gates, count, done - 1, p');
    }
  }

  /**
   * From every reachable state with gates held, a poll may bring any number of descriptors up to the
   * gates; all of them get registered, the next ones in sequence, and surplus permits go back.
   */
  lemma PollAdmits(w: World, events: seq<Event>, s: State, p: Process, gates: nat, count: nat)
      returns (longer: seq<Event>, t: State, p': Process)
    requires Reaches(w, events, s) && s.process == Some(p) && p.phase == Gated(gates)
    requires 1 <= count <= gates && p.cursor + count <= U64_MAX + 1
    ensures Reaches(w, longer, t) && t.process == Some(p') && Registered(p, gates, count, count, p')
  {
    longer, t, p' := RegistersMany(w, events, s, p, gates, count, count);
  }
}
