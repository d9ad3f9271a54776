/**
 * The stage counters: how far they can run ahead of the in-flight count while a shrink is between
 * its two subtractions, when they are the sums over what is attached, and when they wrap round.
 */
module BudgetStages {
  import opened Prelude
  import opened Sequences
  import opened ByteBudget
  import opened BudgetAccounts
  import opened BudgetBound
  import opened BudgetExact

  // ---------------------------------------------------------------------
  // What a shrink leaves behind
  // ---------------------------------------------------------------------

  /** Bytes already taken off the in-flight count and not yet off the stage counter. */
  function Behind(r: Reservation): nat {
    match r.step
    case Mirroring(actual) => if actual < r.held then r.held - actual else 0
    case _ => 0
  }

  lemma OneMirrored(r: Reservation, k: nat)
    requires Coherent(r)
    ensures MirroredIn(k)(r) <= Counted(r) + Behind(r)
  {
  }

  /** No stage holds more than is in flight and what shrinks have left behind. */
  lemma {:induction false} MirroredBounded(rs: seq<Reservation>, k: nat)
    requires AllCoherent(rs)
    ensures Total(MirroredIn(k), rs) <= Total(Counted, rs) + Total(Behind, rs)
  {
    if rs != [] {
      assert Coherent(rs[0]);
      OneMirrored(rs[0], k);
      MirroredBounded(rs[1..], k);
    }
  }

  /** Every stage counter is the sum over the reservations attached to it. */
  predicate StagesMatch(s: Budget) {
    |s.counters| == STAGES && forall k :: 0 <= k < STAGES ==> s.counters[k] == Total(MirroredIn(k), s.reservations)
  }

  lemma SmallStagesMatch(c: Limits, s: Budget)
    requires Accounts(c, s) && Total(Counted, s.reservations) + Total(Behind, s.reservations) <= U64_MAX
    ensures StagesMatch(s)
  {
    forall k | 0 <= k < STAGES ensures s.counters[k] == Total(MirroredIn(k), s.reservations) {
      MirroredBounded(s.reservations, k);
    }
  }

  /** In every run every counter is exact as long as the peak and what is behind fit 64 bits. */
  lemma StagesExact(c: Limits, events: seq<Event>, s: Budget)
    requires Roomy(c) && Leads(c, events, s) && PeakBytes(c) + Total(Behind, s.reservations) <= U64_MAX
    ensures StagesMatch(s)
  {
    RunAccounts(c, events);
    BytesBounded(c, events, s);
    SmallStagesMatch(c, s);
  }

  // ---------------------------------------------------------------------
  // No counter wraps round
  // ---------------------------------------------------------------------

  lemma OpBehind(c: Limits, r: Reservation, op: Op)
    requires OpEnabled(c, r, op) && Run(c, r, op).at.Some?
    ensures Behind(Run(c, r, op).after) <= Behind(r)
  {
  }

  /** The new value of the counter an operation touches, without wrapping. */
  lemma StageMoves(c: Limits, s: Budget, i: nat, op: Op, k: nat)
    requires Accounts(c, s) && i < |s.reservations| && OpEnabled(c, s.reservations[i], op)
    requires Run(c, s.reservations[i], op).at == Some(k) && k < STAGES
    requires Total(Counted, s.reservations) + Total(Behind, s.reservations) <= U64_MAX
    ensures var e := Run(c, s.reservations[i], op);
            && 0 <= s.counters[k] + e.change <= U64_MAX
            && Touched(s, i, e).counters[k] == s.counters[k] + e.change
  {
    var e := Run(c, s.reservations[i], op);
    var t := Touched(s, i, e);
    OpAccounts(c, s.reservations[i], op, k);
    OpBehind(c, s.reservations[i], op);
    TouchAccounts(c, s, i, op);
    TotalUpdate(Counted, s.reservations, i, e.after);
    TotalUpdate(Behind, s.reservations, i, e.after);
    TotalUpdate(MirroredIn(k), s.reservations, i, e.after);
    SmallStagesMatch(c, s);
    MirroredBounded(t.reservations, k);
  }

  lemma TouchesStage(c: Limits, r: Reservation, op: Op)
    requires Coherent(r) && StageKnown(r) && OpEnabled(c, r, op) && Run(c, r, op).at.Some?
    ensures Run(c, r, op).at.value < STAGES
  {
  }

  /** A reservation is attached to one of the stages there are. */
  predicate StageKnown(r: Reservation) {
    r.stage.Some? ==> r.stage.value < STAGES
  }

  predicate StagesKnown(rs: seq<Reservation>) {
    forall i :: 0 <= i < |rs| ==> StageKnown(rs[i])
  }

  lemma OpStageKnown(c: Limits, r: Reservation, op: Op)
    requires Coherent(r) && StageKnown(r) && OpEnabled(c, r, op)
    ensures StageKnown(Run(c, r, op).after)
  {
  }

  lemma EventStagesKnown(c: Limits, s: Budget, e: Event)
    requires AllCoherent(s.reservations) && StagesKnown(s.reservations) && Enabled(c, s, e)
    ensures StagesKnown(Apply(c, s, e).reservations)
  {
    match e
    case Touch(i, op) => OpStageKnown(c, s.reservations[i], op);
    case _ =>
  }

  lemma {:induction false} RunStagesKnown(c: Limits, events: seq<Event>)
    requires Exec(c, events).Some?
    ensures StagesKnown(Exec(c, events).value.reservations)
  {
    if events != [] {
      var before := events[..|events| - 1];
      RunStagesKnown(c, before);
      RunAccounts(c, before);
      EventStagesKnown(c, Exec(c, before).value, events[|events| - 1]);
    }
  }

  /**
   * No operation on a reachable state wraps the in-flight count round; and as long as the peak and
   * what shrinks have left behind fit 64 bits, none wraps a stage counter round: it subtracts no
   * more than is in the counter and adds no more than fits.
   */
  lemma NoWrapAround(c: Limits, events: seq<Event>, s: Budget, i: nat, op: Op)
    requires Roomy(c) && Leads(c, events, s) && Enabled(c, s, Touch(i, op))
    ensures var e := Run(c, s.reservations[i], op);
            && 0 <= s.inFlight + e.flight <= U64_MAX
            && Apply(c, s, Touch(i, op)).inFlight == s.inFlight + e.flight
    ensures var e := Run(c, s.reservations[i], op);
            e.at.Some? && PeakBytes(c) + Total(Behind, s.reservations) <= U64_MAX ==>
              && e.at.value < STAGES == |s.counters| == |Apply(c, s, Touch(i, op)).counters|
              && 0 <= s.counters[e.at.value] + e.change <= U64_MAX
              && Apply(c, s, Touch(i, op)).counters[e.at.value] == s.counters[e.at.value] + e.change
  {
    CountMoves(c, events, s, i, op);
    RunAccounts(c, events);
    var e := Run(c, s.reservations[i], op);
    if e.at.Some? && PeakBytes(c) + Total(Behind, s.reservations) <= U64_MAX {
      RunStagesKnown(c, events);
      TouchesStage(c, s.reservations[i], op);
      BytesBounded(c, events, s);
      StageMoves(c, s, i, op, e.at.value);
    }
  }

  // ---------------------------------------------------------------------
  // Requests for exactly the estimate
  // ---------------------------------------------------------------------

  predicate AskedEstimate(c: Limits, e: Event) {
    match e
    case Ask(bytes) => bytes == c.estimate
    case Try(bytes) => bytes == c.estimate
    case _ => true
  }

  predicate AsksEstimate(c: Limits, events: seq<Event>) {
    forall i :: 0 <= i < |events| ==> AskedEstimate(c, events[i])
  }

  /** Until its decode has gone through a reservation holds the estimate. */
  predicate HoldsEstimate(c: Limits, r: Reservation) {
    match r.step
    case Mirroring(_) => r.held == c.estimate
    case _ => r.decoded || r.held == c.estimate
  }

  predicate AllHoldEstimate(c: Limits, s: Budget) {
    && (forall i :: 0 <= i < |s.reservations| ==> HoldsEstimate(c, s.reservations[i]))
    && (forall i :: 0 <= i < |s.waiters| && !s.waiters[i].Finished? ==> s.waiters[i].bytes == c.estimate)
  }

  lemma OpHoldsEstimate(c: Limits, r: Reservation, op: Op)
    requires Coherent(r) && HoldsEstimate(c, r) && OpEnabled(c, r, op)
    ensures HoldsEstimate(c, Run(c, r, op).after)
  {
  }

  lemma TouchHoldsEstimate(c: Limits, s: Budget, i: nat, op: Op)
    requires AllCoherent(s.reservations) && AllHoldEstimate(c, s) && i < |s.reservations|
    requires OpEnabled(c, s.reservations[i], op)
    ensures AllHoldEstimate(c, Touched(s, i, Run(c, s.reservations[i], op)))
  {
    OpHoldsEstimate(c, s.reservations[i], op);
  }

  lemma EventHoldsEstimate(c: Limits, s: Budget, e: Event)
    requires AllCoherent(s.reservations) && AllHoldEstimate(c, s) && Enabled(c, s, e) && AskedEstimate(c, e)
    ensures AllHoldEstimate(c, Apply(c, s, e))
  {
    match e
    case Touch(i, op) => TouchHoldsEstimate(c, s, i, op);
    case _ =>
  }

  lemma {:induction false} RunHoldsEstimate(c: Limits, events: seq<Event>)
    requires Exec(c, events).Some? && AsksEstimate(c, events)
    ensures AllHoldEstimate(c, Exec(c, events).value)
  {
    if events != [] {
      var before := events[..|events| - 1];
      RunHoldsEstimate(c, before);
      RunAccounts(c, before);
      EventHoldsEstimate(c, Exec(c, before).value, events[|events| - 1]);
    }
  }

  /** One for each decode that stands between the two subtractions of a shrink. */
  function Shrinking(): Reservation -> nat {
    (r: Reservation) => if Behind(r) > 0 then 1 else 0
  }

  lemma {:induction false} BehindBounded(c: Limits, rs: seq<Reservation>)
    requires forall i :: 0 <= i < |rs| ==> HoldsEstimate(c, rs[i])
    ensures Total(Behind, rs) <= c.estimate * Total(Shrinking(), rs)
  {
    if rs == [] {
      Distributes(c.estimate, 0, 0);
    } else {
      BehindBounded(c, rs[1..]);
      Distributes(c.estimate, Shrinking()(rs[0]), Total(Shrinking(), rs[1..]));
      OneBehind(c, rs[0]);
    }
  }

  lemma OneBehind(c: Limits, r: Reservation)
    requires HoldsEstimate(c, r)
    ensures Behind(r) <= c.estimate * Shrinking()(r)
  {
    assert c.estimate * 0 == 0 && c.estimate * 1 == c.estimate;
  }

  /**
   * What a caller can check: with requests for exactly the estimate and at most `decoders` decodes
   * in the middle of a shrink, every counter is exact if the peak and that many estimates fit 64 bits.
   */
  lemma StagesExactFor(c: Limits, events: seq<Event>, s: Budget, decoders: nat)
    requires Roomy(c) && Exec(c, events) == Some(s) && AsksEstimate(c, events)
    requires Total(Shrinking(), s.reservations) <= decoders && PeakBytes(c) + c.estimate * decoders <= U64_MAX
    ensures StagesMatch(s)
  {
    RunHoldsEstimate(c, events);
    BehindBounded(c, s.reservations);
    Scaled(c.estimate, Total(Shrinking(), s.reservations), decoders);
    StagesExact(c, events, s);
  }

  // ---------------------------------------------------------------------
  // Exactly when
  // ---------------------------------------------------------------------

  ghost predicate StagesAlwaysMatch(c: Limits) {
    forall events :: Exec(c, events).Some? && AsksEnough(c, events) ==> StagesMatch(Exec(c, events).value)
  }

  /** Nothing has ever been held, and nothing that waits can get through. */
  predicate Idle(c: Limits, s: Budget) {
    && (c.estimate > 0 ==> s.reservations == [])
    && (forall i :: 0 <= i < |s.reservations| ==> s.reservations[i].held == 0 && !s.reservations[i].step.Mirroring?)
    && (forall i :: 0 <= i < |s.waiters| && !s.waiters[i].Finished? ==> s.waiters[i].bytes > c.capacity)
  }

  lemma OpIdle(c: Limits, r: Reservation, op: Op)
    requires FaultLimit(c) == 0 && r.held == 0 && !r.step.Mirroring? && OpEnabled(c, r, op)
    ensures var after := Run(c, r, op).after; after.held == 0 && !after.step.Mirroring?
  {
  }

  lemma EventIdle(c: Limits, s: Budget, e: Event)
    requires c.capacity < Max(c.estimate, 1) && Idle(c, s) && Enabled(c, s, e) && Asked(c, e)
    ensures Idle(c, Apply(c, s, e))
  {
    match e
    case Touch(i, op) =>
      NothingGrowsFromZero(c);
      OpIdle(c, s.reservations[i], op);
    case _ =>
  }

  lemma {:induction false} RunIdle(c: Limits, events: seq<Event>)
    requires c.capacity < Max(c.estimate, 1) && Exec(c, events).Some? && AsksEnough(c, events)
    ensures Idle(c, Exec(c, events).value)
  {
    if events != [] {
      var before := events[..|events| - 1];
      RunIdle(c, before);
      EventIdle(c, Exec(c, before).value, events[|events| - 1]);
    }
  }

  lemma {:induction false} NothingMirrored(rs: seq<Reservation>, k: nat)
    requires forall i :: 0 <= i < |rs| ==> rs[i].held == 0
    ensures Total(MirroredIn(k), rs) == 0
  {
    if rs != [] {
      NothingMirrored(rs[1..], k);
    }
  }

  lemma IdleMatches(c: Limits, events: seq<Event>, s: Budget)
    requires c.capacity < Max(c.estimate, 1) && Leads(c, events, s)
    ensures StagesMatch(s)
  {
    RunIdle(c, events);
    CountersAreSums(c, events, s);
    forall k | 0 <= k < STAGES ensures s.counters[k] == Total(MirroredIn(k), s.reservations) {
      NothingMirrored(s.reservations, k);
    }
  }

  // ---------------------------------------------------------------------
  // The failing runs
  // ---------------------------------------------------------------------

  /** A claim of `bytes`, attached to stage `k`. */
  lemma ClaimAttached(c: Limits, events: seq<Event>, s: Budget, bytes: u64, k: nat) returns (all: seq<Event>, t: Budget)
    requires Leads(c, events, s) && c.estimate <= bytes && s.inFlight + bytes <= c.capacity && k < STAGES
    ensures Leads(c, all, t) && t.inFlight == s.inFlight + bytes
    ensures t.reservations == s.reservations + [Reservation(bytes, Some(k), false, Resting)]
    ensures all == events + [Try(bytes), Touch(|s.reservations|, Detach(k)), Touch(|s.reservations|, Attach)]
  {
    var i := |s.reservations|;
    LeadsOn(c, events, s, Try(bytes));
    all, t := events + [Try(bytes)], Apply(c, s, Try(bytes));
    LeadsOn(c, all, t, Touch(i, Detach(k)));
    all, t := all + [Touch(i, Detach(k))], Apply(c, t, Touch(i, Detach(k)));
    LeadsOn(c, all, t, Touch(i, Attach));
    all, t := all + [Touch(i, Attach)], Apply(c, t, Touch(i, Attach));
  }

  /** Decode shrinks the newest claim to `actual`, and has not come to the stage counter yet. */
  lemma LeftBehind(c: Limits, events: seq<Event>, s: Budget, actual: nat) returns (all: seq<Event>, t: Budget)
    requires Leads(c, events, s) && s.reservations != [] && actual <= FaultLimit(c)
    requires var r := s.reservations[|s.reservations| - 1];
             r.step == Resting && !r.decoded && actual < r.held <= s.inFlight
    ensures var i := |s.reservations| - 1;
            && Leads(c, all, t) && all == events + [Touch(i, Reconcile(actual))]
            && t.inFlight == s.inFlight - s.reservations[i].held + actual && t.counters == s.counters
            && t.reservations
            == s.reservations[i := s.reservations[i].(decoded := true, step := Mirroring(actual))]
  {
    var i := |s.reservations| - 1;
    LeadsOn(c, events, s, Touch(i, Reconcile(actual)));
    all, t := events + [Touch(i, Reconcile(actual))], Apply(c, s, Touch(i, Reconcile(actual)));
  }

  /** A claim of `bytes`, attached to stage `k` and then shrunk to `actual` on the in-flight count alone. */
  lemma ClaimLeftBehind(c: Limits, events: seq<Event>, s: Budget, bytes: u64, k: nat, actual: nat)
      returns (all: seq<Event>, t: Budget)
    requires Leads(c, events, s) && c.estimate <= bytes && s.inFlight + bytes <= c.capacity && k < STAGES
    requires actual < bytes && actual <= FaultLimit(c)
    ensures Leads(c, all, t) && t.inFlight == s.inFlight + actual
    ensures t.reservations == s.reservations + [Reservation(bytes, Some(k), true, Mirroring(actual))]
    ensures Total(MirroredIn(k), t.reservations) == Total(MirroredIn(k), s.reservations) + bytes
    ensures bytes == c.estimate && AsksEstimate(c, events) ==> AsksEstimate(c, all)
  {
    all, t := ClaimAttached(c, events, s, bytes, k);
    all, t := LeftBehind(c, all, t, actual);
    TotalSnoc(MirroredIn(k), s.reservations, Reservation(bytes, Some(k), true, Mirroring(actual)));
  }

  /** `n` claims, each attached and then left behind, with nothing in flight at the end. */
  lemma {:induction false} PileUp(c: Limits, bytes: u64, k: nat, n: nat) returns (all: seq<Event>, t: Budget)
    requires 0 < bytes <= c.capacity && c.estimate <= bytes && k < STAGES
    ensures Leads(c, all, t) && t.inFlight == 0 && Total(MirroredIn(k), t.reservations) == n * bytes
  {
    if n == 0 {
      all, t := [], Empty();
    } else {
      OneMore(n, bytes);
      all, t := PileUp(c, bytes, k, n - 1);
      all, t := ClaimLeftBehind(c, all, t, bytes, k, 0);
    }
  }

  /** Any capacity that lets a claim through at all lets a stage counter wrap round. */
  lemma StagesWrap(c: Limits) returns (all: seq<Event>, t: Budget)
    requires c.capacity >= Max(c.estimate, 1)
    ensures Leads(c, all, t) && !StagesMatch(t)
  {
    var bytes: u64 := Max(c.estimate, 1);
    all, t := PileUp(c, bytes, 2, U64_MAX + 1);
    Scaled(U64_MAX + 1, 1, bytes);
  }

  /**
   * With any number of decodes in the middle of a shrink, the stage counters are the sums over what
   * is attached in every run if and only if the capacity lets no claim through at all.
   */
  lemma StagesExactly(c: Limits)
    ensures StagesAlwaysMatch(c) <==> c.capacity < Max(c.estimate, 1)
  {
    if c.capacity < Max(c.estimate, 1) {
      forall events | Exec(c, events).Some? && AsksEnough(c, events) ensures StagesMatch(Exec(c, events).value) {
        IdleMatches(c, events, Exec(c, events).value);
      }
    } else {
      var events, s := StagesWrap(c);
    }
  }

  /**
   * Two decodes are enough where the capacity is large: one stands between its two subtractions
   * when the other attaches, the counter wraps to zero, and the pending subtraction underflows it.
   */
  lemma TwoDecodersWrap() returns (c: Limits, events: seq<Event>, s: Budget)
    ensures Roomy(c) && c.estimate <= c.capacity && Leads(c, events, s) && AsksEstimate(c, events)
    ensures |s.counters| == STAGES && s.counters[2] == 0 && Total(MirroredIn(2), s.reservations) == U64_MAX + 1
    ensures Enabled(c, s, Touch(0, Mirror)) && s.counters[2] + Run(c, s.reservations[0], Mirror).change < 0
  {
    var e := 0x8000_0000_0000_0000;
    c := Limits(0xFFFF_FFFF_FFFF_FFFE, e, 1);
    assert Leads(c, [], Empty()) && AsksEstimate(c, []);
    var u;
    events, u := ClaimLeftBehind(c, [], Empty(), e, 2, 100);
    assert u.reservations[0] == Reservation(e, Some(2), true, Mirroring(100));
    events, s := SecondAttached(c, events, u, 2);
    CountersAreSums(c, events, s);
  }

  /** Another claim of the estimate, attached to the same stage. */
  lemma SecondAttached(c: Limits, events: seq<Event>, s: Budget, k: nat) returns (all: seq<Event>, t: Budget)
    requires Leads(c, events, s) && AsksEstimate(c, events) && s.inFlight + c.estimate <= c.capacity && k < STAGES
    ensures Leads(c, all, t) && AsksEstimate(c, all)
    ensures t.reservations == s.reservations + [Reservation(c.estimate, Some(k), false, Resting)]
    ensures Total(MirroredIn(k), t.reservations) == Total(MirroredIn(k), s.reservations) + c.estimate
  {
    all, t := ClaimAttached(c, events, s, c.estimate, k);
    TotalSnoc(MirroredIn(k), s.reservations, Reservation(c.estimate, Some(k), false, Resting));
  }
}
