/**
 * How many bytes can be in flight, and exactly which limits keep the 64-bit count from wrapping
 * round. Requests are for at least the estimate, which is what admission asks for exactly.
 */
module BudgetBound {
  import opened Prelude
  import opened Sequences
  import opened ByteBudget
  import opened BudgetAccounts

  predicate Asked(c: Limits, e: Event) {
    match e
    case Ask(bytes) => bytes >= c.estimate
    case Try(bytes) => bytes >= c.estimate
    case _ => true
  }

  /** Every request of the run is for at least the estimate. */
  predicate AsksEnough(c: Limits, events: seq<Event>) {
    forall i :: 0 <= i < |events| ==> Asked(c, events[i])
  }

  // ---------------------------------------------------------------------
  // How far one reservation can go
  // ---------------------------------------------------------------------

  /** A reservation that may still grow holds at least the estimate. */
  predicate Enough(c: Limits, r: Reservation) {
    match r.step
    case Leaving => true
    case Gone => true
    case Mirroring(_) => r.decoded
    case _ => r.decoded || r.held >= c.estimate
  }

  predicate AllEnough(c: Limits, rs: seq<Reservation>) {
    forall i :: 0 <= i < |rs| ==> Enough(c, rs[i])
  }

  predicate MayGrow(r: Reservation) {
    !r.decoded && Counted(r) > 0
  }

  /** The most a reservation can come to. */
  function Peak(c: Limits): Reservation -> nat {
    (r: Reservation) => if MayGrow(r) then Max(Counted(r), FaultLimit(c)) else Counted(r)
  }

  /** The same measured by the multiplier. */
  function Potential(c: Limits): Reservation -> nat {
    (r: Reservation) => if r.decoded then Counted(r) else Multiplier(c) * Counted(r)
  }

  /** One for each unit that may still grow. */
  function Undecoded(): Reservation -> nat {
    (r: Reservation) => if MayGrow(r) then 1 else 0
  }

  /** What growth can add to a full budget: every estimate that fits it, grown to the fault limit. */
  function Growth(c: Limits): nat {
    if 1 <= c.estimate < FaultLimit(c) then Times(c.capacity / c.estimate, FaultLimit(c) - c.estimate) else 0
  }

  function Times(a: nat, b: nat): (r: nat)
    ensures r == a * b
  {
    a * b
  }

  /** The most bytes that can ever be in flight. */
  function PeakBytes(c: Limits): nat {
    c.capacity + Growth(c)
  }

  /** The limits under which 64 bits are enough. */
  predicate Roomy(c: Limits) {
    c.capacity < U64_MAX && PeakBytes(c) <= U64_MAX
  }

  lemma GrowthFits(c: Limits, held: nat, actual: nat)
    requires held >= c.estimate && actual <= FaultLimit(c)
    ensures actual <= Multiplier(c) * held
  {
    assert c.estimate * c.multiplier <= c.estimate * Multiplier(c);
    assert c.estimate * Multiplier(c) <= held * Multiplier(c);
  }

  /** No operation raises what a reservation can come to. */
  lemma OpPeaks(c: Limits, r: Reservation, op: Op)
    requires Coherent(r) && Enough(c, r) && OpEnabled(c, r, op)
    ensures var e := Run(c, r, op);
            && Enough(c, e.after)
            && Peak(c)(e.after) <= Peak(c)(r)
            && Potential(c)(e.after) <= Potential(c)(r)
  {
    if op.Reconcile? {
      GrowthFits(c, r.held, op.actual);
    }
  }

  // ---------------------------------------------------------------------
  // All reservations together
  // ---------------------------------------------------------------------

  lemma Distributes(g: nat, x: nat, y: nat)
    ensures g * (x + y) == g * x + g * y
  {
  }

  lemma {:induction false} TotalsOrdered(f: Reservation -> nat, g: Reservation -> nat, rs: seq<Reservation>)
    requires forall r :: f(r) <= g(r)
    ensures Total(f, rs) <= Total(g, rs)
  {
    if rs != [] {
      TotalsOrdered(f, g, rs[1..]);
    }
  }

  lemma PeakCovers(c: Limits, rs: seq<Reservation>)
    ensures Total(Counted, rs) <= Total(Peak(c), rs)
  {
    TotalsOrdered(Counted, Peak(c), rs);
  }

  /** Without room to grow, the count itself is the peak. */
  lemma {:induction false} PeakFlat(c: Limits, rs: seq<Reservation>)
    requires AllEnough(c, rs) && FaultLimit(c) <= c.estimate
    ensures Total(Peak(c), rs) == Total(Counted, rs)
  {
    if rs != [] {
      PeakFlat(c, rs[1..]);
      assert Enough(c, rs[0]);
    }
  }

  /** Each undecoded unit holds an estimate and can add at most what is missing to the fault limit. */
  lemma {:induction false} PeakGrows(c: Limits, g: nat, rs: seq<Reservation>)
    requires AllEnough(c, rs) && c.estimate + g == FaultLimit(c)
    ensures Total(Peak(c), rs) <= Total(Counted, rs) + g * Total(Undecoded(), rs)
    ensures c.estimate * Total(Undecoded(), rs) <= Total(Counted, rs)
  {
    if rs == [] {
      Distributes(g, 0, 0);
      Distributes(c.estimate, 0, 0);
    } else {
      PeakGrows(c, g, rs[1..]);
      Distributes(g, Undecoded()(rs[0]), Total(Undecoded(), rs[1..]));
      Distributes(c.estimate, Undecoded()(rs[0]), Total(Undecoded(), rs[1..]));
      OneGrows(c, g, rs[0]);
    }
  }

  lemma OneGrows(c: Limits, g: nat, r: Reservation)
    requires Enough(c, r) && c.estimate + g == FaultLimit(c)
    ensures Peak(c)(r) <= Counted(r) + g * Undecoded()(r)
    ensures c.estimate * Undecoded()(r) <= Counted(r)
  {
    if MayGrow(r) {
      assert g * 1 == g && c.estimate * 1 == c.estimate;
    } else {
      assert g * 0 == 0 && c.estimate * 0 == 0;
    }
  }

  lemma Scaled(m: nat, x: nat, y: nat)
    requires x <= y
    ensures m * x <= m * y
  {
  }

  lemma CancelFactor(e: nat, k: nat, n: nat)
    requires e * k < e * n
    ensures k < n
  {
    if n <= k {
      Scaled(e, n, k);
    }
  }

  lemma QuotientCovers(k: nat, e: nat, total: nat)
    requires e >= 1 && e * k <= total
    ensures k <= total / e
  {
    var q := total / e;
    assert total == e * q + total % e;
    Distributes(e, q, 1);
    CancelFactor(e, k, q + 1);
  }

  lemma NothingGrowsFromZero(c: Limits)
    requires c.estimate == 0
    ensures FaultLimit(c) == 0
  {
  }

  lemma Grows(a: nat, b: nat, g: nat)
    requires a <= b
    ensures g * a <= b * g
  {
  }

  /** As long as the count fits the capacity, all growth together fits the peak. */
  lemma PeakBounded(c: Limits, rs: seq<Reservation>)
    requires AllEnough(c, rs) && Total(Counted, rs) <= c.capacity
    ensures Total(Peak(c), rs) <= PeakBytes(c)
  {
    if c.estimate < FaultLimit(c) {
      var g, k := FaultLimit(c) - c.estimate, Total(Undecoded(), rs);
      PeakGrows(c, g, rs);
      if c.estimate == 0 {
        NothingGrowsFromZero(c);
      }
      QuotientCovers(k, c.estimate, c.capacity);
      Grows(k, c.capacity / c.estimate, g);
    } else {
      PeakFlat(c, rs);
    }
  }

  lemma {:induction false} PotentialCovers(c: Limits, rs: seq<Reservation>)
    ensures Total(Potential(c), rs) <= Multiplier(c) * Total(Counted, rs)
  {
    if rs != [] {
      PotentialCovers(c, rs[1..]);
      assert Counted(rs[0]) <= Multiplier(c) * Counted(rs[0]);
      Distributes(Multiplier(c), Counted(rs[0]), Total(Counted, rs[1..]));
    }
  }

  // ---------------------------------------------------------------------
  // The invariant
  // ---------------------------------------------------------------------

  /** A reserver asks for at least the estimate. */
  predicate Asks(c: Limits, w: Waiter) {
    match w
    case Finished => true
    case _ => w.bytes >= c.estimate && w.bytes > 0
  }

  predicate AllAsk(c: Limits, ws: seq<Waiter>) {
    forall i :: 0 <= i < |ws| ==> Asks(c, ws[i])
  }

  /** The count is exact, and even with all the growth still possible stays within both bounds. */
  predicate Summed(c: Limits, inFlight: u64, rs: seq<Reservation>) {
    && inFlight == Total(Counted, rs)
    && Total(Peak(c), rs) <= PeakBytes(c)
    && Total(Potential(c), rs) <= Multiplier(c) * c.capacity
  }

  predicate Bounded(c: Limits, s: Budget) {
    match s
    case Budget(inFlight, _, reservations, waiters) =>
      && AllEnough(c, reservations)
      && Summed(c, inFlight, reservations)
      && AllAsk(c, waiters)
  }

  lemma GrantSummed(c: Limits, s: Budget, bytes: nat)
    requires Roomy(c) && Summed(c, s.inFlight, s.reservations) && AllEnough(c, s.reservations)
    requires bytes >= c.estimate && (bytes == 0 || s.inFlight + bytes <= c.capacity)
    ensures AllEnough(c, Grant(s, bytes).reservations)
    ensures Summed(c, Grant(s, bytes).inFlight, Grant(s, bytes).reservations)
  {
    var rs := Grant(s, bytes).reservations;
    TotalSnoc(Counted, s.reservations, Claimed(bytes));
    if bytes == 0 {
      TotalSnoc(Peak(c), s.reservations, Claimed(0));
      TotalSnoc(Potential(c), s.reservations, Claimed(0));
    } else {
      PeakBounded(c, rs);
      PotentialCovers(c, rs);
      Scaled(Multiplier(c), Total(Counted, rs), c.capacity);
    }
  }

  lemma GrantBounded(c: Limits, s: Budget, bytes: nat)
    requires Roomy(c) && Bounded(c, s) && bytes >= c.estimate && (bytes == 0 || s.inFlight + bytes <= c.capacity)
    ensures Bounded(c, Grant(s, bytes))
  {
    GrantSummed(c, s, bytes);
  }

  lemma TouchSummed(c: Limits, s: Budget, i: nat, e: Effect)
    requires Roomy(c) && Summed(c, s.inFlight, s.reservations) && i < |s.reservations|
    requires Counted(e.after) == Counted(s.reservations[i]) + e.flight
    requires Peak(c)(e.after) <= Peak(c)(s.reservations[i]) && Potential(c)(e.after) <= Potential(c)(s.reservations[i])
    ensures Summed(c, Touched(s, i, e).inFlight, Touched(s, i, e).reservations)
    ensures 0 <= s.inFlight + e.flight <= U64_MAX
  {
    TotalUpdate(Counted, s.reservations, i, e.after);
    TotalUpdate(Peak(c), s.reservations, i, e.after);
    TotalUpdate(Potential(c), s.reservations, i, e.after);
    PeakCovers(c, s.reservations[i := e.after]);
  }

  lemma WokenAsk(c: Limits, ws: seq<Waiter>)
    requires AllAsk(c, ws)
    ensures AllAsk(c, AllWoken(ws))
  {
  }

  lemma TouchBounded(c: Limits, s: Budget, i: nat, op: Op)
    requires Roomy(c) && Accounts(c, s) && Bounded(c, s) && i < |s.reservations| && OpEnabled(c, s.reservations[i], op)
    ensures Bounded(c, Touched(s, i, Run(c, s.reservations[i], op)))
  {
    var e := Run(c, s.reservations[i], op);
    OpAccounts(c, s.reservations[i], op, 0);
    OpPeaks(c, s.reservations[i], op);
    TouchSummed(c, s, i, e);
    WokenAsk(c, s.waiters);
  }

  lemma MoveBounded(c: Limits, s: Budget, i: nat, w: Waiter)
    requires Bounded(c, s) && i < |s.waiters| && Asks(c, w)
    ensures Bounded(c, Moved(s, i, w))
  {
  }

  lemma DecideBounded(c: Limits, s: Budget, i: nat)
    requires Roomy(c) && Bounded(c, s) && i < |s.waiters| && s.waiters[i].Loaded?
    ensures Bounded(c, Apply(c, s, Decide(i)))
  {
    var w := s.waiters[i];
    assert Asks(c, w);
    if CasWins(c, s, w) {
      GrantBounded(c, s, w.bytes);
      MoveBounded(c, Grant(s, w.bytes), i, Finished);
    } else {
      MoveBounded(c, s, i, Parked(w.bytes, w.woken));
    }
  }

  lemma AskBounded(c: Limits, s: Budget, bytes: u64)
    requires Roomy(c) && Bounded(c, s) && bytes >= c.estimate
    ensures Bounded(c, Apply(c, s, Ask(bytes)))
  {
    if bytes == 0 {
      GrantBounded(c, s, 0);
    }
  }

  lemma EventBounded(c: Limits, s: Budget, e: Event)
    requires Roomy(c) && Accounts(c, s) && Bounded(c, s) && Enabled(c, s, e) && Asked(c, e)
    ensures Bounded(c, Apply(c, s, e))
  {
    match e
    case Ask(bytes) => AskBounded(c, s, bytes);
    case Subscribe(i) => MoveBounded(c, s, i, Armed(s.waiters[i].bytes, false));
    case Load(i) => MoveBounded(c, s, i, Loaded(s.waiters[i].bytes, s.waiters[i].woken, s.inFlight));
    case Decide(i) => DecideBounded(c, s, i);
    case Wake(i) => MoveBounded(c, s, i, Arriving(s.waiters[i].bytes));
    case Cancel(i) => MoveBounded(c, s, i, Finished);
    case Try(bytes) => GrantBounded(c, s, bytes);
    case Touch(i, op) => TouchBounded(c, s, i, op);
  }

  lemma EmptyBounded(c: Limits)
    ensures Bounded(c, Empty())
  {
  }

  lemma {:induction false} RunBounded(c: Limits, events: seq<Event>)
    requires Roomy(c) && Exec(c, events).Some? && AsksEnough(c, events)
    ensures Bounded(c, Exec(c, events).value)
  {
    if events == [] {
      EmptyBounded(c);
    } else {
      var before := events[..|events| - 1];
      RunBounded(c, before);
      RunAccounts(c, before);
      EventBounded(c, Exec(c, before).value, events[|events| - 1]);
    }
  }

  // ---------------------------------------------------------------------
  // Every run
  // ---------------------------------------------------------------------

  lemma {:induction false} UndecodedWeigh(c: Limits, g: nat, rs: seq<Reservation>)
    requires AllEnough(c, rs) && g == (Multiplier(c) - 1) * c.estimate
    ensures Total(Counted, rs) + g * Total(Undecoded(), rs) <= Total(Potential(c), rs)
  {
    if rs == [] {
      Distributes(g, 0, 0);
    } else {
      UndecodedWeigh(c, g, rs[1..]);
      Distributes(g, Undecoded()(rs[0]), Total(Undecoded(), rs[1..]));
      OneWeighs(c, g, rs[0]);
    }
  }

  lemma OneWeighs(c: Limits, g: nat, r: Reservation)
    requires Enough(c, r) && g == (Multiplier(c) - 1) * c.estimate
    ensures Counted(r) + g * Undecoded()(r) <= Potential(c)(r)
  {
    var m := Multiplier(c);
    if MayGrow(r) {
      assert g <= (m - 1) * Counted(r);
      assert m * Counted(r) == Counted(r) + (m - 1) * Counted(r);
    } else {
      assert g * 0 == 0;
      assert Counted(r) <= m * Counted(r);
    }
  }

  /**
   * Under limits for which 64 bits are enough, in every reachable state the in-flight count is the
   * sum of what the live reservations hold; with all the growth still possible it stays within the
   * multiplied capacity; and it never passes the peak.
   */
  lemma BytesBounded(c: Limits, events: seq<Event>, s: Budget)
    requires Roomy(c) && Exec(c, events) == Some(s) && AsksEnough(c, events)
    ensures s.inFlight == Total(Counted, s.reservations)
    ensures s.inFlight + (Multiplier(c) - 1) * c.estimate * Total(Undecoded(), s.reservations)
         <= Multiplier(c) * c.capacity
    ensures s.inFlight <= PeakBytes(c)
  {
    RunBounded(c, events);
    BoundedBytes(c, s);
    BoundedPeak(c, s);
  }

  lemma BoundedBytes(c: Limits, s: Budget)
    requires Bounded(c, s)
    ensures s.inFlight + (Multiplier(c) - 1) * c.estimate * Total(Undecoded(), s.reservations)
         <= Multiplier(c) * c.capacity
  {
    var g := (Multiplier(c) - 1) * c.estimate;
    SummedWeighs(c, g, s.inFlight, s.reservations);
  }

  lemma BoundedPeak(c: Limits, s: Budget)
    requires Bounded(c, s)
    ensures s.inFlight <= PeakBytes(c)
  {
    PeakCovers(c, s.reservations);
  }

  lemma SummedWeighs(c: Limits, g: nat, inFlight: u64, rs: seq<Reservation>)
    requires AllEnough(c, rs) && Summed(c, inFlight, rs) && g == (Multiplier(c) - 1) * c.estimate
    ensures inFlight + g * Total(Undecoded(), rs) <= Multiplier(c) * c.capacity
  {
    UndecodedWeigh(c, g, rs);
  }

  /** No operation on a reachable state takes more from the count than is in it, or pushes it past 64 bits. */
  lemma CountMoves(c: Limits, events: seq<Event>, s: Budget, i: nat, op: Op)
    requires Roomy(c) && Exec(c, events) == Some(s) && AsksEnough(c, events) && Enabled(c, s, Touch(i, op))
    ensures var e := Run(c, s.reservations[i], op);
            && 0 <= s.inFlight + e.flight <= U64_MAX
            && Apply(c, s, Touch(i, op)).inFlight == s.inFlight + e.flight
  {
    RunBounded(c, events);
    RunAccounts(c, events);
    OpAccounts(c, s.reservations[i], op, 0);
    OpPeaks(c, s.reservations[i], op);
    TouchSummed(c, s, i, Run(c, s.reservations[i], op));
  }
}
