/**
 * The per-source ack coordinator: pending source-sequence ranges and the
 * contiguous frontier of committed ones.
 *
 * `Coordinator` is the coordinator's state as a value; `Register`, `Mark` and
 * `Advance` are its three operations on values; `AckCoordinator` is the object
 * whose methods carry them out in place. The second half of the module relates
 * whole call histories to a reference account of which sequences committed.
 */
module AckCoordinators {
  import opened Prelude

  datatype PendingRange = PendingRange(low: u64, high: u64, committed: bool)

  datatype AckError =
    | InvalidRange
    | BaselineFloor
    | NonContiguous
    | AlreadyAcked
    | Overlap
    | NoSuchRange
    | HighDisagrees

  /** `pending` is the ordered map keyed by `low`, listed in key order. */
  datatype Coordinator = Coordinator(
    initial: Option<u64>,
    baseline: Option<u64>,
    baselineFixed: bool,
    frontier: Option<u64>,
    lastHigh: Option<u64>,
    pending: seq<PendingRange>)

  function Fresh(initial: Option<u64>): Coordinator {
    Coordinator(initial, initial, initial.Some?, None, None, [])
  }

  // ---------------------------------------------------------------------
  // The operations on values
  // ---------------------------------------------------------------------

  /** Position of the first entry, from `k` on, whose key is at least `low`. */
  function SearchFrom(pending: seq<PendingRange>, low: int, k: nat): (r: nat)
    requires k <= |pending|
    ensures k <= r <= |pending|
    ensures forall i :: k <= i < r ==> pending[i].low < low
    ensures r < |pending| ==> low <= pending[r].low
    decreases |pending| - k
  {
    if k == |pending| || low <= pending[k].low then k else SearchFrom(pending, low, k + 1)
  }

  function LowerBound(pending: seq<PendingRange>, low: int): (r: nat)
    ensures r <= |pending|
    ensures forall i :: 0 <= i < r ==> pending[i].low < low
    ensures r < |pending| ==> low <= pending[r].low
  {
    SearchFrom(pending, low, 0)
  }

  lemma FoundAt(pending: seq<PendingRange>, low: int, i: nat)
    requires i < |pending| && pending[i].low == low && forall j :: 0 <= j < i ==> pending[j].low < low
    ensures LowerBound(pending, low) == i
  {
  }

  /** The neighbour at or below `high` reaches `low`, or the neighbour at or above `low` starts by `high`. */
  predicate Overlaps(pending: seq<PendingRange>, low: u64, high: u64) {
    var below := LowerBound(pending, high + 1);
    var at := LowerBound(pending, low);
    || (below > 0 && pending[below - 1].high >= low)
    || (at < |pending| && pending[at].low <= high)
  }

  function Insert(pending: seq<PendingRange>, r: PendingRange): seq<PendingRange> {
    var at := LowerBound(pending, r.low);
    pending[..at] + [r] + pending[at..]
  }

  function Register(c: Coordinator, low: u64, high: u64): Result<Coordinator, AckError> {
    if low > high then Err(InvalidRange)
    else if c.lastHigh.None? && c.initial.Some? && low != SaturatingAdd(c.initial.value, 1) then
      Err(BaselineFloor)
    else if c.lastHigh.Some? && low != SaturatingAdd(c.lastHigh.value, 1) then Err(NonContiguous)
    else if c.frontier.Some? && low <= c.frontier.value then Err(AlreadyAcked)
    else if Overlaps(c.pending, low, high) then Err(Overlap)
    else Ok(Recorded(c, low, high))
  }

  /** The range is pending; the first one fixes the baseline right below it. */
  function Recorded(c: Coordinator, low: u64, high: u64): Coordinator {
    var baseline :=
      if c.baselineFixed then c.baseline else if low == 0 then None else Some(low - 1);
    c.(baseline := baseline, baselineFixed := true, lastHigh := Some(high),
       pending := Insert(c.pending, PendingRange(low, high, false)))
  }

  function Mark(c: Coordinator, low: u64, high: u64): Result<Coordinator, AckError> {
    var at := LowerBound(c.pending, low);
    if at == |c.pending| || c.pending[at].low != low then Err(NoSuchRange)
    else if c.pending[at].high != high then Err(HighDisagrees)
    else Ok(c.(pending := c.pending[at := PendingRange(low, high, true)]))
  }

  /** The low end the next popped range must have. */
  function ExpectedLow(c: Coordinator): u64 {
    match c.frontier
    case Some(f) => SaturatingAdd(f, 1)
    case None =>
      match c.baseline
      case Some(b) => SaturatingAdd(b, 1)
      case None => 0
  }

  /** One turn of the popping loop is possible. */
  predicate Poppable(c: Coordinator) {
    && c.baselineFixed
    && |c.pending| > 0
    && c.pending[0].committed
    && c.pending[0].low == ExpectedLow(c)
  }

  function Pop(c: Coordinator): Coordinator
    requires Poppable(c)
  {
    c.(pending := c.pending[1..], frontier := Some(c.pending[0].high))
  }

  function Advance(c: Coordinator): (r: Coordinator)
    ensures !Poppable(r)
    ensures r == c.(pending := r.pending, frontier := r.frontier)
    decreases |c.pending|
  {
    if Poppable(c) then Advance(Pop(c)) else c
  }

  // ---------------------------------------------------------------------
  // The object
  // ---------------------------------------------------------------------

  class AckCoordinator {
    const initialFrontierBaseline: Option<u64>
    var effectiveBaseline: Option<u64>
    var baselineFixed: bool
    var ackedFrontier: Option<u64>
    var lastRegisteredHigh: Option<u64>
    var pending: seq<PendingRange>

    ghost function Value(): Coordinator
      reads this
    {
      Coordinator(initialFrontierBaseline, effectiveBaseline, baselineFixed,
                  ackedFrontier, lastRegisteredHigh, pending)
    }

    constructor (initial: Option<u64>)
      ensures Value() == Fresh(initial)
    {
      initialFrontierBaseline := initial;
      effectiveBaseline := initial;
      baselineFixed := initial.Some?;
      ackedFrontier := None;
      lastRegisteredHigh := None;
      pending := [];
    }

    method RegisterPending(low: u64, high: u64) returns (error: Option<AckError>)
      modifies this
      ensures match Register(old(Value()), low, high)
              case Ok(c) => error == None && Value() == c
              case Err(e) => error == Some(e) && Value() == old(Value())
    {
      if low > high {
        return Some(InvalidRange);
      }
      if lastRegisteredHigh.None? && initialFrontierBaseline.Some?
         && low != SaturatingAdd(initialFrontierBaseline.value, 1) {
        return Some(BaselineFloor);
      }
      if lastRegisteredHigh.Some? {
        var expected := SaturatingAdd(lastRegisteredHigh.value, 1);
        if low != expected {
          return Some(NonContiguous);
        }
      }
      if ackedFrontier.Some? && low <= ackedFrontier.value {
        return Some(AlreadyAcked);
      }
      if Overlaps(pending, low, high) {
        return Some(Overlap);
      }
      RecordPending(low, high);
      return None;
    }

    method RecordPending(low: u64, high: u64)
      modifies this
      ensures Value() == Recorded(old(Value()), low, high)
    {
      if !baselineFixed {
        effectiveBaseline := if low == 0 then None else Some(low - 1);
        baselineFixed := true;
      }
      pending := Insert(pending, PendingRange(low, high, false));
      lastRegisteredHigh := Some(high);
    }

    method MarkCommitted(low: u64, high: u64) returns (error: Option<AckError>)
      modifies this`pending
      ensures match Mark(old(Value()), low, high)
              case Ok(c) => error == None && Value() == c
              case Err(e) => error == Some(e) && Value() == old(Value())
    {
      var at := LowerBound(pending, low);
      if at == |pending| || pending[at].low != low {
        return Some(NoSuchRange);
      }
      if pending[at].high != high {
        return Some(HighDisagrees);
      }
      pending := pending[at := pending[at].(committed := true)];
      return None;
    }

    method AdvanceFrontier()
      modifies this`pending, this`ackedFrontier
      ensures Value() == Advance(old(Value()))
    {
      if !baselineFixed {
        return;
      }
      while true
        invariant Advance(Value()) == Advance(old(Value()))
        invariant baselineFixed
        decreases |pending|
      {
        if |pending| == 0 || !pending[0].committed {
          return;
        }
        var nextLow, nextHigh := pending[0].low, pending[0].high;
        var expectedLow :=
          match ackedFrontier
          case Some(f) => SaturatingAdd(f, 1)
          case None =>
            match effectiveBaseline
            case Some(b) => SaturatingAdd(b, 1)
            case None => 0;
        if nextLow != expectedLow {
          return;
        }
        assert Poppable(Value());
        ghost var before := Value();
        pending := pending[1..];
        ackedFrontier := Some(nextHigh);
        assert Value() == Pop(before);
      }
    }
  }

  // ---------------------------------------------------------------------
  // Call histories
  // ---------------------------------------------------------------------

  datatype Call =
    | RegisterCall(low: u64, high: u64)
    | MarkCall(low: u64, high: u64)
    | AdvanceCall

  /** One call; a rejected call leaves the coordinator as it was. */
  function Do(c: Coordinator, call: Call): Coordinator {
    match call
    case RegisterCall(low, high) =>
      (match Register(c, low, high) case Ok(d) => d case Err(_) => c)
    case MarkCall(low, high) =>
      (match Mark(c, low, high) case Ok(d) => d case Err(_) => c)
    case AdvanceCall => Advance(c)
  }

  function Replay(initial: Option<u64>, calls: seq<Call>): Coordinator {
    if calls == [] then Fresh(initial)
    else Do(Replay(initial, calls[..|calls| - 1]), calls[|calls| - 1])
  }

  function Span(low: int, high: int): (r: set<int>)
    ensures forall s :: s in r <==> low <= s <= high
  {
    set s {:trigger Within(low, s, high)} | low <= s <= high && Within(low, s, high)
  }

  predicate Within(low: int, s: int, high: int) {
    low <= s <= high
  }

  /** A registered range, as plain numbers. */
  datatype Extent = Extent(low: int, high: int)

  /** The ranges a history registered, in order. */
  function Registered(initial: Option<u64>, calls: seq<Call>): seq<Extent> {
    if calls == [] then []
    else
      var n := |calls| - 1;
      var before := Registered(initial, calls[..n]);
      match calls[n]
      case RegisterCall(low, high) =>
        if Register(Replay(initial, calls[..n]), low, high).Ok? then before + [Extent(low, high)] else before
      case _ => before
  }

  /** Every sequence number some accepted mark covered. */
  function Committed(initial: Option<u64>, calls: seq<Call>): set<int> {
    if calls == [] then {}
    else
      var n := |calls| - 1;
      var before := Committed(initial, calls[..n]);
      match calls[n]
      case MarkCall(low, high) =>
        if Mark(Replay(initial, calls[..n]), low, high).Ok? then before + Span(low, high) else before
      case _ => before
  }

  // ---------------------------------------------------------------------
  // What every history keeps
  // ---------------------------------------------------------------------

  predicate Adjacent(log: seq<Extent>, i: int) {
    0 < i < |log| ==> log[i].low == log[i - 1].high + 1
  }

  /** Registered ranges are non-empty, ascending, and each starts right after the one before it. */
  ghost predicate Contiguous(log: seq<Extent>) {
    && (forall i :: 0 <= i < |log| ==> log[i].low <= log[i].high)
    && (forall i, j :: 0 <= i < j < |log| ==> log[i].high < log[j].low)
    && (forall i :: Adjacent(log, i))
  }

  /** `pending` is exactly the tail of the log that has not been popped. */
  predicate TailOf(pending: seq<PendingRange>, log: seq<Extent>) {
    && |pending| <= |log|
    && (forall i :: 0 <= i < |pending| ==> Extent(pending[i].low, pending[i].high) == log[|log| - |pending| + i])
  }

  /** The first sequence the frontier does not cover. */
  function NextSequence(c: Coordinator, log: seq<Extent>): int
    requires TailOf(c.pending, log) && log != []
  {
    if |c.pending| == |log| then log[0].low else log[|log| - |c.pending| - 1].high + 1
  }

  predicate BaselineOf(c: Coordinator, first: int) {
    match c.initial
    case Some(b) => c.baseline == c.initial && first == SaturatingAdd(b, 1)
    case None => c.baseline == if first == 0 then None else if 0 < first <= U64_MAX then Some(first - 1) else c.baseline
  }

  /** The coordinator's fields against the log. */
  ghost predicate Tracks(c: Coordinator, log: seq<Extent>) {
    && Contiguous(log)
    && TailOf(c.pending, log)
    && (if log == [] then
          c.lastHigh == None && c.frontier == None && c.baselineFixed == c.initial.Some? && c.baseline == c.initial
        else
          && 0 <= log[0].low
          && log[|log| - 1].high <= U64_MAX
          && c.lastHigh == Some(log[|log| - 1].high)
          && c.baselineFixed
          && BaselineOf(c, log[0].low)
          && (|c.pending| == |log| ==> c.frontier == None)
          && (|c.pending| < |log| ==> c.frontier.Some? && c.frontier.value + 1 == NextSequence(c, log)))
  }

  predicate Covers(r: PendingRange, s: int) {
    r.committed && r.low <= s <= r.high
  }

  /** `s` lies below the frontier or in a pending range already marked. */
  predicate Accounted(c: Coordinator, log: seq<Extent>, s: int)
    requires TailOf(c.pending, log)
  {
    || (log != [] && log[0].low <= s < NextSequence(c, log))
    || (exists i :: 0 <= i < |c.pending| && Covers(c.pending[i], s))
  }

  ghost predicate Faithful(c: Coordinator, log: seq<Extent>, done: set<int>) {
    && Tracks(c, log)
    && (forall s :: s in done <==> Accounted(c, log, s))
  }

  lemma AppendContiguous(log: seq<Extent>, e: Extent)
    requires Contiguous(log) && e.low <= e.high
    requires log != [] ==> e.low == log[|log| - 1].high + 1
    ensures Contiguous(log + [e])
  {
    var log' := log + [e];
    forall i, j | 0 <= i < j < |log'| ensures log'[i].high < log'[j].low {
      if j == |log| && i < |log| - 1 {
        assert log[i].high < log[|log| - 1].low <= log[|log| - 1].high;
      }
    }
    forall i ensures Adjacent(log', i) {
      assert Adjacent(log, i);
    }
  }

  /** When the last registered sequence is not u64::MAX, contiguous registration goes to the end of the map. */
  lemma AppendsAtEnd(c: Coordinator, log: seq<Extent>, low: u64, high: u64)
    requires Tracks(c, log) && low <= high
    requires log != [] ==> low == log[|log| - 1].high + 1
    ensures !Overlaps(c.pending, low, high)
    ensures Insert(c.pending, PendingRange(low, high, false)) == c.pending + [PendingRange(low, high, false)]
    ensures c.frontier.Some? ==> c.frontier.value < low
  {
    forall i | 0 <= i < |c.pending| ensures c.pending[i].low <= c.pending[i].high < low {
      var j := |log| - |c.pending| + i;
      assert log[j].low <= log[j].high;
      if j < |log| - 1 {
        assert log[j].high < log[|log| - 1].low <= log[|log| - 1].high;
      }
    }
    assert LowerBound(c.pending, low) == |c.pending|;
    assert LowerBound(c.pending, high + 1) == |c.pending|;
    if c.frontier.Some? {
      var j := |log| - |c.pending| - 1;
      if j < |log| - 1 {
        assert log[j].high < log[|log| - 1].low <= log[|log| - 1].high;
      }
    }
  }

  /** Past u64::MAX nothing more is admitted. */
  lemma NothingAfterMax(c: Coordinator, log: seq<Extent>)
    requires Tracks(c, log) && log != [] && log[|log| - 1].high == U64_MAX
    ensures c.frontier == Some(U64_MAX) || Overlaps(c.pending, U64_MAX, U64_MAX)
  {
    if |c.pending| > 0 {
      forall i | 0 <= i < |c.pending| ensures c.pending[i].low < U64_MAX + 1 {}
      assert LowerBound(c.pending, U64_MAX + 1) == |c.pending|;
    }
  }

  lemma AppendTracks(c: Coordinator, d: Coordinator, log: seq<Extent>, low: u64, high: u64)
    requires Tracks(c, log) && low <= high
    requires log != [] ==> low == log[|log| - 1].high + 1
    requires log == [] ==> BaselineOf(d, low)
    requires log != [] ==> d.baseline == c.baseline
    requires d == c.(baseline := d.baseline, baselineFixed := true, lastHigh := Some(high),
                     pending := c.pending + [PendingRange(low, high, false)])
    ensures Tracks(d, log + [Extent(low, high)])
    ensures log != [] ==> NextSequence(d, log + [Extent(low, high)]) == NextSequence(c, log)
  {
    var log' := log + [Extent(low, high)];
    AppendContiguous(log, Extent(low, high));
    assert TailOf(d.pending, log');
    if log != [] {
      assert log'[0] == log[0];
      assert NextSequence(d, log') == NextSequence(c, log);
    }
  }

  /** An open range at the end accounts for nothing new. */
  lemma AppendAccounts(c: Coordinator, d: Coordinator, log: seq<Extent>, log': seq<Extent>, s: int)
    requires TailOf(c.pending, log) && TailOf(d.pending, log') && log' != []
    requires |d.pending| == |c.pending| + 1
    requires d.pending[..|c.pending|] == c.pending && !d.pending[|c.pending|].committed
    requires if log == [] then NextSequence(d, log') <= log'[0].low
             else log'[0] == log[0] && NextSequence(d, log') == NextSequence(c, log)
    ensures Accounted(c, log, s) <==> Accounted(d, log', s)
  {
    SameCover(c.pending, d.pending, s);
  }

  /** What an accepted registration leaves. */
  lemma AppendFaithful(c: Coordinator, d: Coordinator, log: seq<Extent>, done: set<int>, low: u64, high: u64)
    requires Faithful(c, log, done) && low <= high
    requires log != [] ==> low == log[|log| - 1].high + 1
    requires log == [] ==> BaselineOf(d, low)
    requires log != [] ==> d.baseline == c.baseline
    requires d == c.(baseline := d.baseline, baselineFixed := true, lastHigh := Some(high),
                     pending := c.pending + [PendingRange(low, high, false)])
    ensures Faithful(d, log + [Extent(low, high)], done)
  {
    var log' := log + [Extent(low, high)];
    AppendTracks(c, d, log, low, high);
    forall s ensures s in done <==> Accounted(d, log', s) {
      AppendAccounts(c, d, log, log', s);
      assert s in done <==> Accounted(c, log, s);
    }
  }

  lemma RegisterFaithful(c: Coordinator, log: seq<Extent>, done: set<int>, low: u64, high: u64)
    requires Faithful(c, log, done)
    ensures match Register(c, low, high)
            case Ok(d) => Faithful(d, log + [Extent(low, high)], done)
            case Err(e) => e in {AlreadyAcked, Overlap} ==> c.lastHigh == Some(U64_MAX) && low == U64_MAX
  {
    if log != [] && log[|log| - 1].high == U64_MAX {
      NothingAfterMax(c, log);
    } else if low <= high && (log != [] ==> low == log[|log| - 1].high + 1) {
      AppendsAtEnd(c, log, low, high);
      if Register(c, low, high).Ok? {
        AppendFaithful(c, Register(c, low, high).value, log, done, low, high);
      }
    }
  }

  /** An uncommitted range at the end covers nothing. */
  lemma SameCover(pending: seq<PendingRange>, longer: seq<PendingRange>, s: int)
    requires |longer| == |pending| + 1 && longer[..|pending|] == pending && !longer[|pending|].committed
    ensures (exists i :: 0 <= i < |pending| && Covers(pending[i], s))
       <==> (exists i :: 0 <= i < |longer| && Covers(longer[i], s))
  {
    if i :| 0 <= i < |pending| && Covers(pending[i], s) {
      assert Covers(longer[i], s);
    }
    if i :| 0 <= i < |longer| && Covers(longer[i], s) {
      assert Covers(pending[i], s);
    }
  }

  lemma MarkFaithful(c: Coordinator, log: seq<Extent>, done: set<int>, low: u64, high: u64)
    requires Faithful(c, log, done) && Mark(c, low, high).Ok?
    ensures Faithful(Mark(c, low, high).value, log, done + Span(low, high))
  {
    var d := Mark(c, low, high).value;
    var at := LowerBound(c.pending, low);
    forall s ensures s in done + Span(low, high) <==> Accounted(d, log, s) {
      MarkCovers(c.pending, d.pending, at, s);
      assert s in done <==> Accounted(c, log, s);
    }
  }

  lemma MarkCovers(before: seq<PendingRange>, after: seq<PendingRange>, at: nat, s: int)
    requires at < |before| && after == before[at := before[at].(committed := true)]
    ensures (exists i :: 0 <= i < |after| && Covers(after[i], s))
       <==> before[at].low <= s <= before[at].high || (exists i :: 0 <= i < |before| && Covers(before[i], s))
  {
    if i :| 0 <= i < |before| && Covers(before[i], s) {
      assert Covers(after[i], s);
    }
    if before[at].low <= s <= before[at].high {
      assert Covers(after[at], s);
    }
    if i :| 0 <= i < |after| && Covers(after[i], s) {
      assert i == at || Covers(before[i], s);
    }
  }

  lemma PopFaithful(c: Coordinator, log: seq<Extent>, done: set<int>)
    requires Faithful(c, log, done) && Poppable(c)
    ensures Faithful(Pop(c), log, done)
  {
    var d := Pop(c);
    var k := |log| - |c.pending|;
    assert log[k] == Extent(c.pending[0].low, c.pending[0].high);
    assert Adjacent(log, k);
    assert NextSequence(c, log) == log[k].low && NextSequence(d, log) == log[k].high + 1;
    assert k > 0 ==> log[0].low <= log[0].high < log[k].low;
    assert log[k].low <= log[k].high;
    forall s ensures Accounted(c, log, s) <==> Accounted(d, log, s) {
      if i :| 0 <= i < |c.pending| && Covers(c.pending[i], s) {
        assert i == 0 || Covers(d.pending[i - 1], s);
      }
      if i :| 0 <= i < |d.pending| && Covers(d.pending[i], s) {
        assert Covers(c.pending[i + 1], s);
      }
      if log[k].low <= s <= log[k].high {
        assert Covers(c.pending[0], s);
      }
    }
  }

  lemma {:induction false} AdvanceFaithful(c: Coordinator, log: seq<Extent>, done: set<int>)
    requires Faithful(c, log, done)
    ensures Faithful(Advance(c), log, done)
    decreases |c.pending|
  {
    if Poppable(c) {
      PopFaithful(c, log, done);
      AdvanceFaithful(Pop(c), log, done);
    }
  }

  /** The account a history gives of itself. */
  ghost predicate Sound(initial: Option<u64>, calls: seq<Call>) {
    && Faithful(Replay(initial, calls), Registered(initial, calls), Committed(initial, calls))
    && Replay(initial, calls).initial == initial
  }

  lemma SoundRegister(initial: Option<u64>, calls: seq<Call>, low: u64, high: u64)
    requires Sound(initial, calls)
    ensures Sound(initial, calls + [RegisterCall(low, high)])
  {
    var all := calls + [RegisterCall(low, high)];
    assert all[..|calls|] == calls;
    RegisterFaithful(Replay(initial, calls), Registered(initial, calls), Committed(initial, calls), low, high);
  }

  lemma SoundMark(initial: Option<u64>, calls: seq<Call>, low: u64, high: u64)
    requires Sound(initial, calls)
    ensures Sound(initial, calls + [MarkCall(low, high)])
  {
    var all := calls + [MarkCall(low, high)];
    assert all[..|calls|] == calls;
    if Mark(Replay(initial, calls), low, high).Ok? {
      MarkFaithful(Replay(initial, calls), Registered(initial, calls), Committed(initial, calls), low, high);
    }
  }

  lemma SoundAdvance(initial: Option<u64>, calls: seq<Call>)
    requires Sound(initial, calls)
    ensures Sound(initial, calls + [AdvanceCall])
  {
    var all := calls + [AdvanceCall];
    assert all[..|calls|] == calls;
    AdvanceFaithful(Replay(initial, calls), Registered(initial, calls), Committed(initial, calls));
  }

  /** Every history leaves the coordinator faithful to what it registered and committed. */
  lemma {:induction false} HistoryFaithful(initial: Option<u64>, calls: seq<Call>)
    ensures Sound(initial, calls)
  {
    if calls == [] {
      assert Contiguous([]);
    } else {
      var before := calls[..|calls| - 1];
      HistoryFaithful(initial, before);
      assert calls == before + [calls[|calls| - 1]];
      match calls[|calls| - 1]
      case RegisterCall(low, high) => SoundRegister(initial, before, low, high);
      case MarkCall(low, high) => SoundMark(initial, before, low, high);
      case AdvanceCall => SoundAdvance(initial, before);
    }
  }

  // ---------------------------------------------------------------------
  // The main results
  // ---------------------------------------------------------------------

  /** The front pending range is the next expected one. */
  lemma FrontIsExpected(c: Coordinator, log: seq<Extent>)
    requires Tracks(c, log) && |c.pending| > 0
    ensures c.baselineFixed && c.pending[0].low == ExpectedLow(c) && c.pending[0].low == NextSequence(c, log)
  {
    var k := |log| - |c.pending|;
    assert log[k] == Extent(c.pending[0].low, c.pending[0].high);
    assert Adjacent(log, k);
  }

  /** The popping loop's gap exit is dead code, in every history. */
  lemma GapBranchUnreachable(initial: Option<u64>, calls: seq<Call>)
    ensures var c := Replay(initial, calls);
            |c.pending| > 0 ==> c.baselineFixed && c.pending[0].low == ExpectedLow(c)
  {
    HistoryFaithful(initial, calls);
    if |Replay(initial, calls).pending| > 0 {
      FrontIsExpected(Replay(initial, calls), Registered(initial, calls));
    }
  }

  /** The overlap and already-acked checks can reject only a second u64::MAX. */
  lemma InnerChecksOnlyAtMax(initial: Option<u64>, calls: seq<Call>, low: u64, high: u64)
    ensures match Register(Replay(initial, calls), low, high)
            case Ok(_) => true
            case Err(e) => e in {AlreadyAcked, Overlap} ==>
                             low == U64_MAX && Replay(initial, calls).lastHigh == Some(U64_MAX)
  {
    HistoryFaithful(initial, calls);
    RegisterFaithful(Replay(initial, calls), Registered(initial, calls), Committed(initial, calls), low, high);
  }

  /** The history admits the range next: it starts where the last one ended, or at the baseline plus one. */
  predicate Admits(initial: Option<u64>, log: seq<Extent>, low: u64, high: u64) {
    && low <= high
    && (if log != [] then low == log[|log| - 1].high + 1
        else initial.None? || low == initial.value + 1 || low == initial.value == U64_MAX)
  }

  /** Accepted exactly when the history admits the range; the outer rejections have their own errors. */
  predicate Answers(r: Result<Coordinator, AckError>, initial: Option<u64>, log: seq<Extent>, low: u64, high: u64) {
    && (r.Ok? <==> Admits(initial, log, low, high))
    && (low > high ==> r == Err(InvalidRange))
    && (low <= high && log == [] && !Admits(initial, log, low, high) ==> r == Err(BaselineFloor))
    && (low <= high && log != [] && low != Min(log[|log| - 1].high + 1, U64_MAX) ==> r == Err(NonContiguous))
  }

  lemma RegisterDecides(c: Coordinator, log: seq<Extent>, done: set<int>, low: u64, high: u64)
    requires Faithful(c, log, done)
    ensures Answers(Register(c, low, high), c.initial, log, low, high)
  {
    if log != [] && log[|log| - 1].high == U64_MAX {
      NothingAfterMax(c, log);
    } else if low <= high && (log != [] ==> low == log[|log| - 1].high + 1) {
      AppendsAtEnd(c, log, low, high);
    }
  }

  lemma {:induction false} InitialStays(initial: Option<u64>, calls: seq<Call>)
    ensures Replay(initial, calls).initial == initial
  {
    if calls != [] {
      InitialStays(initial, calls[..|calls| - 1]);
    }
  }

  /**
   * In every history a registration is accepted if and only if the range is well-formed and starts
   * right after the last registered one, or for the first one right after the constructor baseline;
   * the three outer rejections each have their own error.
   */
  lemma RegisterExactly(initial: Option<u64>, calls: seq<Call>, low: u64, high: u64)
    ensures Answers(Register(Replay(initial, calls), low, high), initial, Registered(initial, calls), low, high)
  {
    HistoryFaithful(initial, calls);
    InitialStays(initial, calls);
    RegisterDecides(Replay(initial, calls), Registered(initial, calls), Committed(initial, calls), low, high);
  }

  /** Pending ranges start above everything popped, in rising order. */
  lemma PendingAbove(c: Coordinator, log: seq<Extent>)
    requires Tracks(c, log)
    ensures forall i :: 0 <= i < |c.pending| && c.frontier.Some? ==> c.pending[i].low > c.frontier.value
    ensures forall i, j :: 0 <= i < j < |c.pending| ==> c.pending[i].low < c.pending[j].low
  {
    var k := |log| - |c.pending|;
    assert forall i :: 0 <= i < |c.pending| ==> log[k + i] == Extent(c.pending[i].low, c.pending[i].high);
    forall i | 0 <= i < |c.pending| && c.frontier.Some? ensures c.pending[i].low > c.frontier.value {
      assert log[k - 1].high < log[k + i].low;
    }
    forall i, j | 0 <= i < j < |c.pending| ensures c.pending[i].low < c.pending[j].low {
      assert log[k + i].high < log[k + j].low;
    }
  }

  lemma MarkFinds(c: Coordinator, log: seq<Extent>, j: nat)
    requires Tracks(c, log) && |log| - |c.pending| <= j < |log| && 0 <= log[j].low && log[j].high <= U64_MAX
    ensures Mark(c, log[j].low, log[j].high).Ok?
  {
    PendingAbove(c, log);
    var i := j - (|log| - |c.pending|);
    assert log[j] == Extent(c.pending[i].low, c.pending[i].high);
    FoundAt(c.pending, log[j].low, i);
  }

  lemma PoppedBelow(c: Coordinator, log: seq<Extent>, j: nat)
    requires Tracks(c, log) && j < |log| - |c.pending|
    ensures c.frontier.Some? && log[j].low <= c.frontier.value
  {
    var k := |log| - |c.pending|;
    assert log[j].low <= log[j].high;
    if j < k - 1 {
      assert log[j].high < log[k - 1].low <= log[k - 1].high;
    }
  }

  /**
   * In every history a mark is accepted if and only if that very range was registered and the
   * frontier has not passed it.
   */
  lemma MarkExactly(initial: Option<u64>, calls: seq<Call>, low: u64, high: u64)
    ensures Mark(Replay(initial, calls), low, high).Ok? <==>
              && Extent(low, high) in Registered(initial, calls)
              && (Replay(initial, calls).frontier.None? || low > Replay(initial, calls).frontier.value)
  {
    HistoryFaithful(initial, calls);
    var c, log := Replay(initial, calls), Registered(initial, calls);
    if Mark(c, low, high).Ok? {
      var i := LowerBound(c.pending, low);
      PendingAbove(c, log);
      assert log[|log| - |c.pending| + i] == Extent(low, high);
    }
    if Extent(low, high) in log {
      var j :| 0 <= j < |log| && log[j] == Extent(low, high);
      if j < |log| - |c.pending| {
        PoppedBelow(c, log, j);
      } else {
        MarkFinds(c, log, j);
      }
    }
  }

  /** The largest `h` such that every sequence from `first` through `h` is committed. */
  predicate LongestPrefix(first: int, done: set<int>, frontier: Option<u64>) {
    match frontier
    case None => first !in done
    case Some(f) => first <= f && Span(first, f) <= done && f + 1 !in done
  }

  /** Nothing between the first registered sequence and the frontier is ever uncommitted. */
  lemma FrontierNeverOverHole(initial: Option<u64>, calls: seq<Call>)
    requires Replay(initial, calls).frontier.Some?
    ensures Registered(initial, calls) != []
    ensures Span(Registered(initial, calls)[0].low, Replay(initial, calls).frontier.value) <= Committed(initial, calls)
  {
    HistoryFaithful(initial, calls);
    var c, log := Replay(initial, calls), Registered(initial, calls);
    forall s | log[0].low <= s <= c.frontier.value ensures s in Committed(initial, calls) {
      assert Accounted(c, log, s);
    }
  }

  lemma PendingAscending(c: Coordinator, log: seq<Extent>)
    requires Tracks(c, log)
    ensures forall i, j :: 0 <= i < j < |c.pending| ==> c.pending[i].high < c.pending[j].low
  {
    var k := |log| - |c.pending|;
    forall i, j | 0 <= i < j < |c.pending| ensures c.pending[i].high < c.pending[j].low {
      assert log[k + i].high < log[k + j].low;
    }
  }

  /** A pending range's bit says exactly whether its low end is committed. */
  lemma CommittedBit(c: Coordinator, log: seq<Extent>, done: set<int>, i: nat)
    requires Faithful(c, log, done) && i < |c.pending|
    ensures c.pending[i].committed <==> c.pending[i].low as int in done
  {
    var k := |log| - |c.pending|;
    var s: int := c.pending[i].low;
    assert log[k + i].low == s <= log[k + i].high;
    assert k > 0 ==> log[k - 1].high < log[k + i].low;
    assert i > 0 ==> log[0].high < log[k + i].low;
    if c.pending[i].committed {
      assert Covers(c.pending[i], s);
    }
    PendingAscending(c, log);
    assert c.pending[i].low as int in done <==> Accounted(c, log, s);
  }

  /** The sequence right after an advanced frontier is not committed. */
  lemma NextIsOpen(c: Coordinator, log: seq<Extent>, done: set<int>)
    requires Faithful(c, log, done) && !Poppable(c) && log != []
    ensures NextSequence(c, log) !in done
  {
    var next := NextSequence(c, log);
    if |c.pending| > 0 {
      FrontIsExpected(c, log);
      CommittedBit(c, log, done, 0);
    } else {
      assert !Accounted(c, log, next);
    }
  }

  /**
   * After an advance the frontier is the end of the longest committed prefix of the
   * registered sequences, whatever the calls before it were.
   */
  lemma FrontierIsLongestPrefix(initial: Option<u64>, calls: seq<Call>)
    requires Registered(initial, calls) != []
    ensures LongestPrefix(Registered(initial, calls)[0].low, Committed(initial, calls),
                          Replay(initial, calls + [AdvanceCall]).frontier)
  {
    AdvanceKeepsAccount(initial, calls);
    var c := Replay(initial, calls + [AdvanceCall]);
    var log, done := Registered(initial, calls), Committed(initial, calls);
    NextIsOpen(c, log, done);
    if c.frontier.Some? {
      var k := |log| - |c.pending|;
      assert log[k - 1].low <= log[k - 1].high;
      assert 0 < k - 1 ==> log[0].low <= log[0].high < log[k - 1].low;
      forall s | log[0].low <= s <= c.frontier.value ensures s in done {
        assert Accounted(c, log, s);
      }
    }
  }

  lemma AdvanceKeepsAccount(initial: Option<u64>, calls: seq<Call>)
    ensures var c := Replay(initial, calls + [AdvanceCall]);
            && c == Advance(Replay(initial, calls))
            && c.initial == initial
            && Faithful(c, Registered(initial, calls), Committed(initial, calls))
            && !Poppable(c)
  {
    var all := calls + [AdvanceCall];
    assert all[..|calls|] == calls;
    HistoryFaithful(initial, calls);
    AdvanceFaithful(Replay(initial, calls), Registered(initial, calls), Committed(initial, calls));
  }

  /**
   * With a constructor baseline the first sequence is the one after it, unless the
   * baseline is u64::MAX: the saturating sum then admits u64::MAX a second time.
   */
  lemma FirstIsBaselinePlusOne(baseline: u64, calls: seq<Call>)
    requires Registered(Some(baseline), calls) != []
    ensures Registered(Some(baseline), calls)[0].low == baseline + 1 <==> baseline < U64_MAX
    ensures baseline == U64_MAX ==> Registered(Some(baseline), calls)[0].low == baseline
  {
    HistoryFaithful(Some(baseline), calls);
  }

  lemma MaxBaselineReadmitsMax()
    ensures Registered(Some(U64_MAX), [RegisterCall(U64_MAX, U64_MAX)]) == [Extent(U64_MAX, U64_MAX)]
  {
    var calls := [RegisterCall(U64_MAX, U64_MAX)];
    assert calls[..0] == [];
    assert Registered(Some(U64_MAX), []) == [];
    assert Replay(Some(U64_MAX), []) == Fresh(Some(U64_MAX));
  }

  lemma PoppedIsDone(c: Coordinator, log: seq<Extent>, done: set<int>, j: nat)
    requires Faithful(c, log, done) && j < |log| - |c.pending|
    ensures log[j].low in done
  {
    var k := |log| - |c.pending|;
    assert log[j].low <= log[j].high;
    assert j < k - 1 ==> log[j].high < log[k - 1].low <= log[k - 1].high;
    assert 0 < j ==> log[0].low <= log[0].high < log[j].low;
    assert Accounted(c, log, log[j].low);
  }

  lemma FrontIsOpen(c: Coordinator, log: seq<Extent>, done: set<int>)
    requires Faithful(c, log, done) && !Poppable(c) && |c.pending| > 0
    ensures log[|log| - |c.pending|].low !in done
  {
    FrontIsExpected(c, log);
    CommittedBit(c, log, done, 0);
    assert log[|log| - |c.pending|].low == c.pending[0].low;
  }

  /** An advanced coordinator's pending count is settled by the log and the committed set. */
  lemma NoShorterTail(c: Coordinator, d: Coordinator, log: seq<Extent>, done: set<int>)
    requires Faithful(c, log, done) && Faithful(d, log, done) && !Poppable(d)
    ensures |c.pending| >= |d.pending|
  {
    if |c.pending| < |d.pending| {
      FrontIsOpen(d, log, done);
      PoppedIsDone(c, log, done, |log| - |d.pending|);
    }
  }

  /**
   * Order independence: two histories that registered the same ranges and committed
   * the same sequences end, after an advance, in the same state, however the marks
   * and advances were ordered.
   */
  lemma OrderIndependent(initial: Option<u64>, calls: seq<Call>, calls': seq<Call>)
    requires Registered(initial, calls) == Registered(initial, calls')
    requires Committed(initial, calls) == Committed(initial, calls')
    ensures Replay(initial, calls + [AdvanceCall]) == Replay(initial, calls' + [AdvanceCall])
  {
    AdvanceKeepsAccount(initial, calls);
    AdvanceKeepsAccount(initial, calls');
    var c, d := Replay(initial, calls + [AdvanceCall]), Replay(initial, calls' + [AdvanceCall]);
    SettledByAccount(c, d, Registered(initial, calls), Committed(initial, calls));
  }

  lemma SettledByAccount(c: Coordinator, d: Coordinator, log: seq<Extent>, done: set<int>)
    requires Faithful(c, log, done) && Faithful(d, log, done)
    requires !Poppable(c) && !Poppable(d) && c.initial == d.initial
    ensures c == d
  {
    NoShorterTail(c, d, log, done);
    NoShorterTail(d, c, log, done);
    forall i | 0 <= i < |c.pending| ensures c.pending[i] == d.pending[i] {
      CommittedBit(c, log, done, i);
      CommittedBit(d, log, done, i);
    }
    assert c.pending == d.pending;
  }

  /** Marking twice is a no-op while the range is in the map. */
  lemma MarkTwice(c: Coordinator, low: u64, high: u64)
    requires Mark(c, low, high).Ok?
    ensures Mark(Mark(c, low, high).value, low, high) == Mark(c, low, high)
  {
    var at := LowerBound(c.pending, low);
    var d := Mark(c, low, high).value;
    assert forall i :: 0 <= i < |c.pending| ==> d.pending[i].low == c.pending[i].low;
    assert LowerBound(d.pending, low) == at;
    assert d.pending[at := PendingRange(low, high, true)] == d.pending;
  }

  /** Once the frontier has moved over a range, marking it again is an error. */
  lemma MarkAfterPopFails(initial: Option<u64>, calls: seq<Call>, low: u64, high: u64)
    requires Replay(initial, calls).frontier.Some? && low <= Replay(initial, calls).frontier.value
    ensures Mark(Replay(initial, calls), low, high) == Err(NoSuchRange)
  {
    HistoryFaithful(initial, calls);
    var c, log := Replay(initial, calls), Registered(initial, calls);
    var k := |log| - |c.pending|;
    forall i | 0 <= i < |c.pending| ensures c.pending[i].low > low {
      assert log[k - 1].high < log[k + i].low;
    }
  }
}
