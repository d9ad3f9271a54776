/**
 * The per-source byte budget as atomic micro-steps: reservers that subscribe, load, compare and
 * swap, and park; reservations that move between stage counters, are reconciled once at decode,
 * and are dropped. Any number of tasks interleave at every step.
 */
module ByteBudget {
  import opened Prelude

  /** Fetch-and-add and fetch-and-sub on a 64-bit atomic. */
  function Wrap(x: int): (r: u64)
    ensures 0 <= x <= U64_MAX ==> r == x
  {
    x % 0x1_0000_0000_0000_0000
  }

  /** The source, fetch, decode and sink-dispatch counters. */
  const STAGES: nat := 4

  datatype Limits = Limits(capacity: u64, estimate: u64, multiplier: u32)

  /** How far one reservation may grow at decode. */
  function Multiplier(c: Limits): (m: nat)
    ensures m >= 1 && m >= c.multiplier
  {
    Max(c.multiplier, 1)
  }

  /** `u64::saturating_mul` of the estimate and the multiplier. */
  function FaultLimit(c: Limits): nat {
    Min(c.estimate * c.multiplier, U64_MAX)
  }

  // ---------------------------------------------------------------------
  // One reservation
  // ---------------------------------------------------------------------

  /** Where the owner is between two atomic operations. */
  datatype Step =
    | Resting
    | Attaching(target: nat)
    | Mirroring(actual: nat)
    | Announcing
    | Releasing
    | Leaving
    | Gone

  datatype Reservation = Reservation(held: nat, stage: Option<nat>, decoded: bool, step: Step)

  /** Operations on a reservation, one atomic access each. */
  datatype Op =
    | Detach(target: nat)
    | Attach
    | Reconcile(actual: nat)
    | Mirror
    | Announce
    | BeginDrop
    | Release

  /** What an operation leaves, adds to the in-flight count and to one stage counter, and whether it notifies. */
  datatype Effect = Effect(after: Reservation, flight: int, at: Option<nat>, change: int, notify: bool)

  predicate OpEnabled(c: Limits, r: Reservation, op: Op) {
    match op
    case Detach(target) => r.step == Resting && target < STAGES
    case Attach => r.step.Attaching?
    case Reconcile(actual) => r.step == Resting && !r.decoded && actual <= FaultLimit(c)
    case Mirror => r.step.Mirroring?
    case Announce => r.step == Announcing || r.step == Leaving
    case BeginDrop => r.step == Resting
    case Release => r.step == Releasing
  }

  function Run(c: Limits, r: Reservation, op: Op): Effect
    requires OpEnabled(c, r, op)
  {
    match op
    case Detach(target) => Effect(r.(stage := None, step := Attaching(target)), 0, r.stage, 0 - r.held, false)
    case Attach => Effect(r.(stage := Some(r.step.target), step := Resting), 0, Some(r.step.target), r.held, false)
    case Reconcile(actual) =>
      if actual == r.held then Effect(r.(decoded := true), 0, None, 0, false)
      else Effect(r.(decoded := true, step := Mirroring(actual)), actual - r.held, None, 0, false)
    case Mirror =>
      Effect(r.(held := r.step.actual, step := if r.step.actual < r.held then Announcing else Resting),
             0, r.stage, r.step.actual - r.held, false)
    case Announce => Effect(r.(step := if r.step == Leaving then Gone else Resting), 0, None, 0, true)
    case BeginDrop =>
      if r.held == 0 then Effect(r.(step := Gone), 0, None, 0, false)
      else Effect(r.(stage := None, step := Releasing), 0, r.stage, 0 - r.held, false)
    case Release => Effect(r.(step := Leaving), 0 - r.held, None, 0, false)
  }

  /** The bytes a reservation accounts for in the in-flight count; `held` whenever its owner rests. */
  function Counted(r: Reservation): nat {
    match r.step
    case Mirroring(actual) => actual
    case Leaving => 0
    case Gone => 0
    case _ => r.held
  }

  /** The bytes a reservation accounts for in stage counter `k`. */
  function MirroredIn(k: nat): Reservation -> nat {
    (r: Reservation) => if r.stage == Some(k) then r.held else 0
  }

  /** A subtraction has happened and its notification has not. */
  predicate Owes(r: Reservation) {
    match r.step
    case Announcing => true
    case Leaving => true
    case Mirroring(actual) => actual < r.held
    case _ => false
  }

  // ---------------------------------------------------------------------
  // The budget and its reservers
  // ---------------------------------------------------------------------

  /** A task inside `reserve`; `woken` once its armed subscription has been notified. */
  datatype Waiter =
    | Arriving(bytes: u64)
    | Armed(bytes: u64, woken: bool)
    | Loaded(bytes: u64, woken: bool, seen: u64)
    | Parked(bytes: u64, woken: bool)
    | Finished

  datatype Budget = Budget(inFlight: u64, counters: seq<u64>, reservations: seq<Reservation>, waiters: seq<Waiter>)

  datatype Event =
    | Ask(bytes: u64)
    | Subscribe(i: nat)
    | Load(i: nat)
    | Decide(i: nat)
    | Wake(i: nat)
    | Cancel(i: nat)
    | Try(bytes: u64)
    | Touch(i: nat, op: Op)

  function Empty(): Budget {
    Budget(0, [0, 0, 0, 0], [], [])
  }

  function Claimed(bytes: nat): Reservation {
    Reservation(bytes, None, false, Resting)
  }

  predicate CasWins(c: Limits, s: Budget, w: Waiter)
    requires w.Loaded?
  {
    SaturatingAdd(w.seen, w.bytes) <= c.capacity && s.inFlight == w.seen
  }

  predicate Enabled(c: Limits, s: Budget, e: Event) {
    match e
    case Ask(_) => true
    case Subscribe(i) => i < |s.waiters| && s.waiters[i].Arriving?
    case Load(i) => i < |s.waiters| && s.waiters[i].Armed?
    case Decide(i) => i < |s.waiters| && s.waiters[i].Loaded?
    case Wake(i) => i < |s.waiters| && s.waiters[i].Parked? && s.waiters[i].woken
    case Cancel(i) => i < |s.waiters| && !s.waiters[i].Finished?
    case Try(bytes) => bytes == 0 || s.inFlight + bytes <= c.capacity
    case Touch(i, op) => i < |s.reservations| && OpEnabled(c, s.reservations[i], op)
  }

  function Woken(w: Waiter): Waiter {
    match w
    case Armed(bytes, _) => Armed(bytes, true)
    case Loaded(bytes, _, seen) => Loaded(bytes, true, seen)
    case Parked(bytes, _) => Parked(bytes, true)
    case _ => w
  }

  function AllWoken(ws: seq<Waiter>): (r: seq<Waiter>)
    ensures |r| == |ws| && forall i :: 0 <= i < |ws| ==> r[i] == Woken(ws[i])
  {
    if ws == [] then [] else [Woken(ws[0])] + AllWoken(ws[1..])
  }

  function Moved(s: Budget, i: nat, w: Waiter): Budget
    requires i < |s.waiters|
  {
    s.(waiters := s.waiters[i := w])
  }

  function Grant(s: Budget, bytes: nat): Budget {
    s.(inFlight := Wrap(s.inFlight + bytes), reservations := s.reservations + [Claimed(bytes)])
  }

  function Bumped(counters: seq<u64>, at: Option<nat>, change: int): seq<u64> {
    if at.Some? && at.value < |counters| then counters[at.value := Wrap(counters[at.value] + change)] else counters
  }

  function Touched(s: Budget, i: nat, e: Effect): Budget
    requires i < |s.reservations|
  {
    Budget(Wrap(s.inFlight + e.flight), Bumped(s.counters, e.at, e.change), s.reservations[i := e.after],
           if e.notify then AllWoken(s.waiters) else s.waiters)
  }

  function Apply(c: Limits, s: Budget, e: Event): Budget
    requires Enabled(c, s, e)
  {
    match e
    case Ask(bytes) => if bytes == 0 then Grant(s, 0) else s.(waiters := s.waiters + [Arriving(bytes)])
    case Subscribe(i) => Moved(s, i, Armed(s.waiters[i].bytes, false))
    case Load(i) => Moved(s, i, Loaded(s.waiters[i].bytes, s.waiters[i].woken, s.inFlight))
    case Decide(i) =>
      if CasWins(c, s, s.waiters[i]) then Moved(Grant(s, s.waiters[i].bytes), i, Finished)
      else Moved(s, i, Parked(s.waiters[i].bytes, s.waiters[i].woken))
    case Wake(i) => Moved(s, i, Arriving(s.waiters[i].bytes))
    case Cancel(i) => Moved(s, i, Finished)
    case Try(bytes) => Grant(s, bytes)
    case Touch(i, op) => Touched(s, i, Run(c, s.reservations[i], op))
  }

  function Exec(c: Limits, events: seq<Event>): Option<Budget> {
    if events == [] then Some(Empty())
    else
      match Exec(c, events[..|events| - 1])
      case None => None
      case Some(s) =>
        if Enabled(c, s, events[|events| - 1]) then Some(Apply(c, s, events[|events| - 1])) else None
  }

  lemma ExecNext(c: Limits, events: seq<Event>, s: Budget, e: Event)
    requires Exec(c, events) == Some(s) && Enabled(c, s, e)
    ensures Exec(c, events + [e]) == Some(Apply(c, s, e))
  {
    assert (events + [e])[..|events|] == events;
  }
}
