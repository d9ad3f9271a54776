/**
 * Writing one commit: the insert attempts for a chunk, the chunks of a pass, the sink's mapping of
 * failures, and the runtime's retries around it. The server is its answers to each request in turn.
 */
module Retry {
  import opened Prelude
  import opened Sequences
  import opened Serializer
  import opened Token
  import opened Logs
  import opened Planner
  import opened PlannerTheorems

  // ---------------------------------------------------------------------
  // Answers and errors
  // ---------------------------------------------------------------------

  /** What comes back from one request: a status, or no response at all. */
  datatype Answer = Status(code: nat) | NoResponse

  datatype WriterError = Retryable | NonRetryable | RetryBudgetExhausted | Serialization(error: SerializeError)

  datatype ErrorClass = RetryableClass | NonRetryableClass | ExhaustedClass

  function Class(e: WriterError): ErrorClass {
    match e
    case Retryable => RetryableClass
    case RetryBudgetExhausted => ExhaustedClass
    case NonRetryable => NonRetryableClass
    case Serialization(_) => NonRetryableClass
  }

  function ClassifyStatus(code: nat): WriterError {
    if code == 429 || 500 <= code < 600 then Retryable else NonRetryable
  }

  predicate Accepted(a: Answer) {
    a.Status? && 200 <= a.code < 300
  }

  /** Worth another attempt: too many requests, a server error, or no response. */
  predicate Transient(a: Answer) {
    a.NoResponse? || a.code == 429 || 500 <= a.code <= 599
  }

  /** What the attempt amounts to; `None` is success. */
  function Outcome(a: Answer): Option<WriterError> {
    match a
    case NoResponse => Some(Retryable)
    case Status(code) => if 200 <= code < 300 then None else Some(ClassifyStatus(code))
  }

  // ---------------------------------------------------------------------
  // The server's view
  // ---------------------------------------------------------------------

  /** One insert: which chunk of the plan, the bytes, and the settings in its address. */
  datatype Request = Request(chunk: nat, body: Text, token: Option<Text>, quorum: Option<Text>)

  /**
   * The server and the way to it: `answers` are the responses to successive requests, and `clients`
   * says of successive attempts whether an HTTP client could be had for them at all.
   */
  class Server {
    const answers: nat -> Answer
    const clients: nat -> bool
    var sent: seq<Request>
    var attempts: nat

    constructor (answers: nat -> Answer, clients: nat -> bool)
      ensures this.answers == answers && this.clients == clients && sent == [] && attempts == 0
    {
      this.answers := answers;
      this.clients := clients;
      sent := [];
      attempts := 0;
    }

    /** The last attempt ended before anything was sent, for want of a client. */
    predicate ClientFailed()
      reads this
    {
      attempts > 0 && !clients(attempts - 1)
    }

    /** One attempt: the client first, then the request. */
    method ExecuteOnce(r: Request) returns (error: Option<WriterError>)
      modifies this
      ensures attempts == old(attempts) + 1
      ensures ClientFailed() ==> sent == old(sent) && error == Some(NonRetryable)
      ensures !ClientFailed() ==> sent == old(sent) + [r] && error == Outcome(answers(|old(sent)|))
    {
      attempts := attempts + 1;
      if !clients(attempts - 1) {
        return Some(NonRetryable);
      }
      var answer := answers(|sent|);
      sent := sent + [r];
      return Outcome(answer);
    }
  }

  /** How chunks become bytes. */
  datatype Encoder = Encoder(table: TypeTable, columns: seq<string>)

  function Body(e: Encoder, chunk: InsertChunk): Result<Text, SerializeError> {
    Serialized(e.table, e.columns, chunk.rows)
  }

  /** The one request that stands for chunk `i` of a plan. */
  predicate Stands(e: Encoder, chunks: seq<InsertChunk>, r: Request) {
    && r.chunk < |chunks|
    && Body(e, chunks[r.chunk]) == Ok(r.body)
    && r.token == (if chunks[r.chunk].applyToken then Some(chunks[r.chunk].token) else None)
    && r.quorum == chunks[r.chunk].insertQuorum
  }

  /** From `start` on, only requests that stand for chunks of the plan were sent. */
  predicate Faithful(e: Encoder, chunks: seq<InsertChunk>, sent: seq<Request>, start: nat) {
    forall k :: start <= k < |sent| ==> Stands(e, chunks, sent[k])
  }

  /** Every chunk was accepted, in order, at the given places of the log. */
  predicate AcceptedAt(answers: nat -> Answer, sent: seq<Request>, start: nat, places: seq<nat>) {
    forall i :: 0 <= i < |places| ==>
      && start <= places[i] < |sent| && sent[places[i]].chunk == i && Accepted(answers(places[i]))
      && (i > 0 ==> places[i - 1] < places[i])
  }

  /** Nothing from `start` on goes back to an earlier chunk: the requests are of one pass. */
  predicate OnePass(sent: seq<Request>, start: nat) {
    forall i, j :: start <= i < j < |sent| ==> sent[i].chunk <= sent[j].chunk
  }

  /** The requests from `start` on are one pass in which the server accepted all `n` chunks. */
  ghost predicate WholePass(answers: nat -> Answer, sent: seq<Request>, start: nat, n: nat) {
    OnePass(sent, start) && exists places: seq<nat> :: |places| == n && AcceptedAt(answers, sent, start, places)
  }

  // ---------------------------------------------------------------------
  // One chunk
  // ---------------------------------------------------------------------

  /** The attempts made of one request: all but the last were transient failures. */
  predicate Attempts(answers: nat -> Answer, sent: seq<Request>, start: nat, r: Request) {
    && (forall k :: start <= k < |sent| ==> sent[k] == r)
    && (forall k :: start <= k < |sent| - 1 ==> Transient(answers(k)))
  }

  /** Some chunk of the plan has no serialized form. */
  predicate Unserializable(e: Encoder, chunks: seq<InsertChunk>) {
    exists i :: 0 <= i < |chunks| && Body(e, chunks[i]).Err?
  }

  /** The request that chunk `i` with this body is sent as. */
  function RequestFor(chunk: InsertChunk, i: nat, body: Text): Request {
    Request(i, body, if chunk.applyToken then Some(chunk.token) else None, chunk.insertQuorum)
  }

  /** The last of the requests sent since `start` was refused for good. */
  predicate EndsFinal(answers: nat -> Answer, sent: seq<Request>, start: nat) {
    |sent| > start && !Transient(answers(|sent| - 1)) && !Accepted(answers(|sent| - 1))
  }

  /** The last of the requests sent since `start` got a transient answer. */
  predicate EndsTransient(answers: nat -> Answer, sent: seq<Request>, start: nat) {
    |sent| > start && Transient(answers(|sent| - 1))
  }

  /** The attempts of one request: again after every transient failure, as long as the budget lasts. */
  method AttemptAll(server: Server, maxAttempts: u32, request: Request) returns (r: Option<WriterError>)
    modifies server
    ensures var start := |old(server.sent)|;
            && |server.sent| >= start && server.sent[..start] == old(server.sent)
            && |server.sent| <= start + Max(maxAttempts, 1)
            && Attempts(server.answers, server.sent, start, request)
    ensures r.None? ==> |server.sent| > |old(server.sent)| && Accepted(server.answers(|server.sent| - 1))
    ensures r == Some(RetryBudgetExhausted) ==>
              && |server.sent| == |old(server.sent)| + Max(maxAttempts, 1)
              && Transient(server.answers(|server.sent| - 1)) && !server.ClientFailed()
    ensures r in {None, Some(NonRetryable), Some(RetryBudgetExhausted)} && server.attempts >= old(server.attempts)
    ensures r == Some(NonRetryable) ==>
              || (server.attempts > old(server.attempts) && server.ClientFailed())
              || EndsFinal(server.answers, server.sent, |old(server.sent)|)
  {
    var attempt := 0;
    ghost var start := |server.sent|;
    while true
      invariant attempt == |server.sent| - start && (attempt == 0 || attempt < maxAttempts)
      invariant server.sent[..start] == old(server.sent) && server.attempts >= old(server.attempts)
      invariant forall k :: start <= k < |server.sent| ==> server.sent[k] == request && Transient(server.answers(k))
      decreases Max(maxAttempts, 1) - attempt
    {
      attempt := attempt + 1;
      var outcome := server.ExecuteOnce(request);
      match outcome {
        case None => return None;
        case Some(error) =>
          match Class(error) {
            case RetryableClass =>
              if attempt >= maxAttempts {
                return Some(RetryBudgetExhausted);
              }
            case NonRetryableClass => return Some(error);
            case ExhaustedClass => return Some(error);
          }
      }
    }
  }

  method ExecuteChunk(server: Server, e: Encoder, maxAttempts: u32, chunk: InsertChunk, i: nat)
      returns (r: Option<WriterError>)
    modifies server
    ensures var start := |old(server.sent)|;
            && |server.sent| >= start && server.sent[..start] == old(server.sent)
            && |server.sent| <= start + Max(maxAttempts, 1)
            && (Body(e, chunk).Err? ==> server.sent == old(server.sent))
            && (Body(e, chunk).Ok? ==>
                  Attempts(server.answers, server.sent, start, RequestFor(chunk, i, Body(e, chunk).value)))
    ensures r.None? ==> |server.sent| > |old(server.sent)| && Accepted(server.answers(|server.sent| - 1))
    ensures r == Some(RetryBudgetExhausted) ==>
              && |server.sent| == |old(server.sent)| + Max(maxAttempts, 1)
              && Transient(server.answers(|server.sent| - 1)) && !server.ClientFailed()
    ensures r != Some(Retryable) && (r.Some? && r.value.Serialization? <==> Body(e, chunk).Err?)
    ensures server.attempts >= old(server.attempts)
    ensures r == Some(NonRetryable) ==>
              || (server.attempts > old(server.attempts) && server.ClientFailed())
              || EndsFinal(server.answers, server.sent, |old(server.sent)|)
  {
    var body := Serialize(e.table, e.columns, chunk.rows);
    if body.Err? {
      return Some(Serialization(body.error));
    }
    r := AttemptAll(server, maxAttempts, RequestFor(chunk, i, body.value));
  }

  // ---------------------------------------------------------------------
  // All chunks
  // ---------------------------------------------------------------------

  /** One pass, so far of chunks below `n` only. */
  predicate Through(sent: seq<Request>, start: nat, n: nat) {
    OnePass(sent, start) && forall k :: start <= k < |sent| ==> sent[k].chunk < n
  }

  lemma ThroughNext(sent: seq<Request>, sent': seq<Request>, start: nat, n: nat)
    requires start <= |sent| <= |sent'| && sent'[..|sent|] == sent && Through(sent, start, n)
    requires forall k :: |sent| <= k < |sent'| ==> sent'[k].chunk == n
    ensures Through(sent', start, n + 1)
  {
    assert forall k :: 0 <= k < |sent| ==> sent'[k] == sent'[..|sent|][k] == sent[k];
  }

  /** A pass under way: `places` says where the chunks so far were accepted. */
  predicate Passing(e: Encoder, chunks: seq<InsertChunk>, answers: nat -> Answer, w: nat,
                    before: seq<Request>, sent: seq<Request>, places: seq<nat>) {
    match e
    case Encoder(_, _) =>
      && |before| <= |sent| <= |before| + |places| * w && sent[..|before|] == before
      && Faithful(e, chunks, sent, |before|)
      && Through(sent, |before|, |places|)
      && AcceptedAt(answers, sent, |before|, places)
      && (|sent| > |before| ==> Accepted(answers(|sent| - 1)))
  }

  /** The attempts of one more chunk, at most `w`, all of the one request that stands for it. */
  predicate Tried(e: Encoder, chunks: seq<InsertChunk>, answers: nat -> Answer, w: nat,
                  sent: seq<Request>, sent': seq<Request>, i: nat) {
    match e
    case Encoder(_, _) =>
      && |sent| <= |sent'| <= |sent| + w && sent'[..|sent|] == sent
      && (forall k :: |sent| <= k < |sent'| ==> Stands(e, chunks, sent'[k]) && sent'[k].chunk == i)
  }

  lemma TriedKeeps(e: Encoder, chunks: seq<InsertChunk>, answers: nat -> Answer, w: nat,
                   before: seq<Request>, sent: seq<Request>, places: seq<nat>, sent': seq<Request>)
    requires Passing(e, chunks, answers, w, before, sent, places) && |places| < |chunks|
    requires Tried(e, chunks, answers, w, sent, sent', |places|)
    ensures |before| <= |sent'| <= |before| + |chunks| * w && sent'[..|before|] == before
    ensures Faithful(e, chunks, sent', |before|)
  {
    RoomGrows(|places|, |chunks|, w);
    assert sent'[..|before|] == sent'[..|sent|][..|before|];
    forall k | |before| <= k < |sent'| ensures Stands(e, chunks, sent'[k]) {
      assert k < |sent| ==> sent'[k] == sent'[..|sent|][k] == sent[k];
    }
  }

  lemma PlacesNext(answers: nat -> Answer, before: seq<Request>, sent: seq<Request>, start: nat, places: seq<nat>)
    requires start <= |before| < |sent| && sent[..|before|] == before && AcceptedAt(answers, before, start, places)
    requires sent[|sent| - 1].chunk == |places| && Accepted(answers(|sent| - 1))
    ensures AcceptedAt(answers, sent, start, places + [|sent| - 1])
  {
    var more := places + [|sent| - 1];
    forall i | 0 <= i < |more|
      ensures start <= more[i] < |sent| && sent[more[i]].chunk == i && Accepted(answers(more[i]))
      ensures i > 0 ==> more[i - 1] < more[i]
    {
      if i < |places| {
        assert before[places[i]] == sent[..|before|][places[i]] == sent[places[i]];
      }
    }
  }

  lemma TriedPasses(e: Encoder, chunks: seq<InsertChunk>, answers: nat -> Answer, w: nat,
                    before: seq<Request>, sent: seq<Request>, places: seq<nat>, sent': seq<Request>)
    requires Passing(e, chunks, answers, w, before, sent, places) && |places| < |chunks|
    requires Tried(e, chunks, answers, w, sent, sent', |places|)
    requires |sent'| > |sent| && Accepted(answers(|sent'| - 1))
    ensures Passing(e, chunks, answers, w, before, sent', places + [|sent'| - 1])
  {
    TriedKeeps(e, chunks, answers, w, before, sent, places, sent');
    ThroughNext(sent, sent', |before|, |places|);
    PlacesNext(answers, sent, sent', |before|, places);
    RoomGrows(|places|, |chunks|, w);
  }

  /** The attempts of chunk `i` of a plan. */
  method TryChunk(server: Server, e: Encoder, maxAttempts: u32, chunks: seq<InsertChunk>, i: nat)
      returns (r: Option<WriterError>)
    requires i < |chunks|
    modifies server
    ensures Tried(e, chunks, server.answers, Max(maxAttempts, 1), old(server.sent), server.sent, i)
    ensures r.None? ==> |server.sent| > |old(server.sent)| && Accepted(server.answers(|server.sent| - 1))
    ensures r != Some(Retryable)
    ensures r == Some(RetryBudgetExhausted) ==>
              EndsTransient(server.answers, server.sent, |old(server.sent)|) && !server.ClientFailed()
    ensures server.attempts >= old(server.attempts)
    ensures r == Some(NonRetryable) ==>
              || (server.attempts > old(server.attempts) && server.ClientFailed())
              || EndsFinal(server.answers, server.sent, |old(server.sent)|)
    ensures r.Some? && r.value.Serialization? ==> Body(e, chunks[i]).Err? && server.sent == old(server.sent)
  {
    r := ExecuteChunk(server, e, maxAttempts, chunks[i], i);
  }

  lemma AllPassed(e: Encoder, chunks: seq<InsertChunk>, answers: nat -> Answer, w: nat,
                  before: seq<Request>, sent: seq<Request>, places: seq<nat>)
    requires Passing(e, chunks, answers, w, before, sent, places)
    ensures |before| <= |sent| <= |before| + |places| * w && sent[..|before|] == before
    ensures Faithful(e, chunks, sent, |before|) && WholePass(answers, sent, |before|, |places|)
  {
  }

  /** After accepted chunks only, the last answer is no transient one. */
  lemma NothingLeft(answers: nat -> Answer, before: seq<Request>, sent: seq<Request>)
    requires |before| <= |sent| && (|sent| > |before| ==> Accepted(answers(|sent| - 1)))
    ensures !EndsTransient(answers, sent, |before|)
  {
  }

  /** The loop over the chunks: all passed, or the one after those that did has failed. */
  method TryChunks(server: Server, e: Encoder, maxAttempts: u32, chunks: seq<InsertChunk>)
      returns (r: Option<WriterError>, ghost sent: seq<Request>, ghost places: seq<nat>)
    modifies server
    ensures Passing(e, chunks, server.answers, Max(maxAttempts, 1), old(server.sent), sent, places)
    ensures server.attempts >= old(server.attempts)
    ensures r.None? ==> |places| == |chunks| && server.sent == sent
    ensures r.Some? ==>
              && |places| < |chunks|
              && Tried(e, chunks, server.answers, Max(maxAttempts, 1), sent, server.sent, |places|)
    ensures r != Some(Retryable)
    ensures r == Some(RetryBudgetExhausted) ==>
              EndsTransient(server.answers, server.sent, |sent|) && !server.ClientFailed()
    ensures r == Some(NonRetryable) ==>
              || (server.attempts > old(server.attempts) && server.ClientFailed())
              || EndsFinal(server.answers, server.sent, |sent|)
    ensures r.Some? && r.value.Serialization? ==> Body(e, chunks[|places|]).Err? && server.sent == sent
  {
    sent, places := server.sent, [];
    ghost var before, w := server.sent, Max(maxAttempts, 1);
    var i := 0;
    while i < |chunks|
      invariant 0 <= i <= |chunks| && |places| == i && sent == server.sent
      invariant Passing(e, chunks, server.answers, w, before, sent, places)
      invariant server.attempts >= old(server.attempts)
    {
      r := TryChunk(server, e, maxAttempts, chunks, i);
      if r.Some? {
        return;
      }
      TriedPasses(e, chunks, server.answers, w, before, sent, places, server.sent);
      sent, places := server.sent, places + [|server.sent| - 1];
      i := i + 1;
    }
    r := None;
  }

  /**
   * One pass over the chunks of a plan, stopping at the first that fails. Success means the server
   * accepted every chunk, in order; no request carries anything but its chunk's one body and token.
   */
  method ExecuteAll(server: Server, e: Encoder, maxAttempts: u32, chunks: seq<InsertChunk>)
      returns (r: Option<WriterError>)
    modifies server
    ensures var start := |old(server.sent)|;
            && |server.sent| >= start && server.sent[..start] == old(server.sent)
            && |server.sent| <= start + |chunks| * Max(maxAttempts, 1)
            && Faithful(e, chunks, server.sent, start)
    ensures r.None? ==> WholePass(server.answers, server.sent, |old(server.sent)|, |chunks|)
    ensures r != Some(Retryable)
    ensures r == Some(RetryBudgetExhausted) ==>
              EndsTransient(server.answers, server.sent, |old(server.sent)|) && !server.ClientFailed()
    ensures server.attempts >= old(server.attempts)
    ensures r == Some(NonRetryable) ==>
              || (server.attempts > old(server.attempts) && server.ClientFailed())
              || EndsFinal(server.answers, server.sent, |old(server.sent)|)
    ensures r.Some? && r.value.Serialization? ==>
              && Unserializable(e, chunks)
              && !EndsTransient(server.answers, server.sent, |old(server.sent)|)
  {
    ghost var before, w := server.sent, Max(maxAttempts, 1);
    ghost var sent, places;
    r, sent, places := TryChunks(server, e, maxAttempts, chunks);
    if r.Some? {
      TriedKeeps(e, chunks, server.answers, w, before, sent, places, server.sent);
      NothingLeft(server.answers, before, sent);
    } else {
      AllPassed(e, chunks, server.answers, w, before, sent, places);
    }
  }

  lemma RoomGrows(i: nat, n: nat, w: nat)
    requires i < n
    ensures i * w + w == (i + 1) * w <= n * w
  {
  }

  // ---------------------------------------------------------------------
  // The sink
  // ---------------------------------------------------------------------

  /** The sink works with any adapter: how it plans the records of a commit. */
  type Adapter = (Identity, seq<Record>) -> Result<seq<InsertChunk>, PlanError>

  /** What the runtime hands the sink: an identity with its range, and a decoded batch with its own. */
  datatype Commit = Commit(identity: Identity, low: u64, high: u64, records: seq<Record>)

  datatype SinkFailure = NotCommitted | MaybeCommitted | FatalFailure

  predicate RangeAgrees(c: Commit) {
    c.identity.low == c.low && c.identity.high == c.high
  }

  /** The chunks the commit is written as; none where the sink refuses it. */
  function PlanOf(adapter: Adapter, c: Commit): seq<InsertChunk> {
    match adapter(c.identity, c.records)
    case Ok(chunks) => if RangeAgrees(c) then chunks else []
    case Err(_) => []
  }

  /** The sink refuses the commit before it sends anything. */
  predicate Refused(adapter: Adapter, c: Commit) {
    || !RangeAgrees(c)
    || adapter(c.identity, c.records).Err?
    || RowTotal(PlanOf(adapter, c)) != |c.records|
  }

  /** Why a write can fail for good. */
  predicate FatalCause(e: Encoder, adapter: Adapter, c: Commit, answers: nat -> Answer, sent: seq<Request>, start: nat,
                       noClient: bool) {
    || Refused(adapter, c)
    || Unserializable(e, PlanOf(adapter, c))
    || noClient
    || EndsFinal(answers, sent, start)
  }

  function RowTotal(chunks: seq<InsertChunk>): nat {
    if chunks == [] then 0 else RowTotal(chunks[..|chunks| - 1]) + |chunks[|chunks| - 1].rows|
  }

  method CountRows(chunks: seq<InsertChunk>) returns (total: nat)
    ensures total == RowTotal(chunks)
  {
    total := 0;
    for i := 0 to |chunks|
      invariant total == RowTotal(chunks[..i])
    {
      assert chunks[..i + 1][..i] == chunks[..i];
      total := total + |chunks[i].rows|;
    }
    assert chunks[..|chunks|] == chunks;
  }

  /** Everything the sink checks before it sends anything: the ranges, the plan, and that the plan lost no row. */
  method Prepare(adapter: Adapter, c: Commit) returns (r: Option<seq<InsertChunk>>)
    ensures r.Some? ==> RangeAgrees(c) && adapter(c.identity, c.records).Ok?
    ensures r.Some? ==> r.value == PlanOf(adapter, c) && RowTotal(r.value) == |c.records|
    ensures r.None? <==> Refused(adapter, c)
  {
    if c.identity.low != c.low || c.identity.high != c.high {
      return None;
    }
    var planned := adapter(c.identity, c.records);
    if planned.Err? {
      return None;
    }
    var total := CountRows(planned.value);
    if total != |c.records| {
      return None;
    }
    return Some(planned.value);
  }

  /**
   * The sink's write. A failure whose last request got a transient answer is ambiguous if and only
   * if it was not for want of a client that no further request was sent; every other failure is
   * fatal.
   */
  method SinkWrite(server: Server, e: Encoder, maxAttempts: u32, adapter: Adapter, c: Commit)
      returns (r: Result<nat, SinkFailure>)
    modifies server
    ensures var start := |old(server.sent)|;
            && |server.sent| >= start && server.sent[..start] == old(server.sent)
            && |server.sent| <= start + |PlanOf(adapter, c)| * Max(maxAttempts, 1)
            && Faithful(e, PlanOf(adapter, c), server.sent, start)
    ensures r.Ok? ==>
              && r.value == |c.records|
              && WholePass(server.answers, server.sent, |old(server.sent)|, |PlanOf(adapter, c)|)
    ensures r != Err(NotCommitted) && server.attempts >= old(server.attempts)
    ensures r == Err(FatalFailure) ==>
              FatalCause(e, adapter, c, server.answers, server.sent, |old(server.sent)|,
                         server.attempts > old(server.attempts) && server.ClientFailed())
    ensures r == Err(MaybeCommitted) <==>
              r.Err? && EndsTransient(server.answers, server.sent, |old(server.sent)|) && !server.ClientFailed()
  {
    var prepared := Prepare(adapter, c);
    if prepared.None? {
      return Err(FatalFailure);
    }
    var chunks := prepared.value;
    var failure := ExecuteAll(server, e, maxAttempts, chunks);
    match failure {
      case None => return Ok(|c.records|);
      case Some(error) =>
        match Class(error) {
          case RetryableClass => return Err(MaybeCommitted);
          case ExhaustedClass => return Err(MaybeCommitted);
          case NonRetryableClass => return Err(FatalFailure);
        }
    }
  }

  // ---------------------------------------------------------------------
  // The runtime's retries
  // ---------------------------------------------------------------------

  datatype CheckAnswer = CheckCommitted | CheckNotCommitted | CheckUnknown | CheckFailed

  /** The check did not find the commit. */
  predicate StillOpen(a: CheckAnswer) {
    a == CheckNotCommitted || a == CheckUnknown
  }

  datatype WriteResult = Written(rows: nat) | VerifiedAlreadyCommitted | WriteFailed

  /** The log, from `start` on, ends with one pass in which every chunk was accepted. */
  ghost predicate SomeWholePass(answers: nat -> Answer, sent: seq<Request>, start: nat, n: nat) {
    exists p :: start <= p <= |sent| && WholePass(answers, sent, p, n)
  }

  lemma FaithfulJoin(e: Encoder, chunks: seq<InsertChunk>, before: seq<Request>, sent: seq<Request>, start: nat)
    requires start <= |before| <= |sent| && sent[..|before|] == before
    requires Faithful(e, chunks, before, start) && Faithful(e, chunks, sent, |before|)
    ensures Faithful(e, chunks, sent, start) && sent[..start] == before[..start]
  {
    forall k | start <= k < |sent| ensures Stands(e, chunks, sent[k]) {
      assert k < |before| ==> sent[k] == sent[..|before|][k] == before[k];
    }
    assert sent[..start] == sent[..|before|][..start];
  }

  /**
   * One commit through the sink with the runtime's retries. `checks` are the sink's answers to
   * successive `check_committed` calls, of which `checked` were asked after as many of the `passes`
   * ended ambiguously; every one before the last had found the commit open. Success is reported
   * only if every chunk was accepted in the last pass or the last check found the commit there,
   * failure only if the last pass failed for good, the last check failed, or all passes are used up.
   */
  method WriteWithRetry(server: Server, e: Encoder, maxAttempts: u32, adapter: Adapter, c: Commit, retries: u32,
                        checks: nat -> CheckAnswer)
      returns (r: WriteResult, passes: nat, checked: nat)
    modifies server
    ensures var start := |old(server.sent)|;
            && |server.sent| >= start && server.sent[..start] == old(server.sent)
            && |server.sent| <= start + (retries + 1) * (|PlanOf(adapter, c)| * Max(maxAttempts, 1))
            && Faithful(e, PlanOf(adapter, c), server.sent, start)
    ensures r.Written? ==>
              && r.rows == |c.records|
              && SomeWholePass(server.answers, server.sent, |old(server.sent)|, |PlanOf(adapter, c)|)
    ensures checked <= retries + 1 && forall k :: 0 <= k < checked - 1 ==> StillOpen(checks(k))
    ensures 1 <= passes <= retries + 1 && (passes == checked || passes == checked + 1)
    ensures r.Written? ==> passes == checked + 1 && forall k :: 0 <= k < checked ==> StillOpen(checks(k))
    ensures r.WriteFailed? ==>
              || (&& passes == checked + 1 && (forall k :: 0 <= k < checked ==> StillOpen(checks(k)))
                  && FatalCause(e, adapter, c, server.answers, server.sent, |old(server.sent)|,
                                server.attempts > old(server.attempts) && server.ClientFailed()))
              || (passes == checked && checks(checked - 1) == CheckFailed)
              || (passes == checked == retries + 1 && forall k :: 0 <= k < checked ==> StillOpen(checks(k)))
    ensures r.VerifiedAlreadyCommitted? ==>
              && passes == checked && checks(checked - 1) == CheckCommitted
              && EndsTransient(server.answers, server.sent, |old(server.sent)|)
  {
    ghost var start, cost := |server.sent|, |PlanOf(adapter, c)| * Max(maxAttempts, 1);
    var attempt := 0;
    passes, checked := 0, 0;
    while true
      invariant attempt <= retries && passes == checked == attempt && |server.sent| >= start
      invariant forall k :: 0 <= k < checked ==> StillOpen(checks(k))
      invariant server.sent[..start] == old(server.sent)
      invariant |server.sent| <= start + attempt * cost && server.attempts >= old(server.attempts)
      invariant Faithful(e, PlanOf(adapter, c), server.sent, start)
      decreases retries - attempt
    {
      ghost var before := server.sent;
      passes := passes + 1;
      var result := SinkWrite(server, e, maxAttempts, adapter, c);
      FaithfulJoin(e, PlanOf(adapter, c), before, server.sent, start);
      RoomGrows(attempt, retries + 1, cost);
      match result {
        case Ok(rows) =>
          assert WholePass(server.answers, server.sent, |before|, |PlanOf(adapter, c)|);
          return Written(rows), passes, checked;
        case Err(failure) =>
          if failure == FatalFailure {
            return WriteFailed, passes, checked;
          }
          if failure == MaybeCommitted {
            var check := checks(checked);
            checked := checked + 1;
            if check == CheckCommitted {
              return VerifiedAlreadyCommitted, passes, checked;
            }
            if check == CheckFailed {
              return WriteFailed, passes, checked;
            }
          }
          if attempt >= retries {
            return WriteFailed, passes, checked;
          }
          attempt := attempt + 1;
      }
    }
  }

  // ---------------------------------------------------------------------
  // The log adapter
  // ---------------------------------------------------------------------

  function LogAdapter(digest: Digest): Adapter {
    (id: Identity, records: seq<Record>) => Planned(digest, id, records)
  }

  lemma PlanRowsSnoc(chunks: seq<InsertChunk>, last: InsertChunk)
    ensures PlanRows(chunks + [last]) == PlanRows(chunks) + [last.rows]
  {
  }

  lemma {:induction false} RowTotalFlattens(chunks: seq<InsertChunk>)
    ensures RowTotal(chunks) == |Flatten(PlanRows(chunks))|
  {
    if chunks != [] {
      var front, last := chunks[..|chunks| - 1], chunks[|chunks| - 1];
      RowTotalFlattens(front);
      PlanRowsSnoc(front, last);
      assert chunks == front + [last];
      FlattenSnoc(PlanRows(front), last.rows);
    }
  }

  /** The row-drop guard never fires for the log adapter. */
  lemma LogAdapterKeepsRows(digest: Digest, c: Commit)
    requires RangeAgrees(c) && LogAdapter(digest)(c.identity, c.records).Ok?
    ensures RowTotal(PlanOf(LogAdapter(digest), c)) == |c.records|
  {
    PlanCoversRecords(digest, c.identity, c.records);
    RowTotalFlattens(PlanOf(LogAdapter(digest), c));
  }
}
