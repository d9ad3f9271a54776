/**
 * Exactly which limits keep the in-flight count equal to what is held in every run: for all others
 * a run is built that makes them differ.
 */
module BudgetExact {
  import opened Prelude
  import opened Sequences
  import opened ByteBudget
  import opened BudgetBound

  /** In every run of requests for at least the estimate, the count is what the reservations hold. */
  ghost predicate CountIsExact(c: Limits) {
    forall events :: Exec(c, events).Some? && AsksEnough(c, events) ==>
      Exec(c, events).value.inFlight == Total(Counted, Exec(c, events).value.reservations)
  }

  /** A run of requests for at least the estimate that ends in `s`. */
  predicate Leads(c: Limits, events: seq<Event>, s: Budget) {
    Exec(c, events) == Some(s) && AsksEnough(c, events)
  }

  lemma LeadsOn(c: Limits, events: seq<Event>, s: Budget, e: Event)
    requires Leads(c, events, s) && Enabled(c, s, e) && Asked(c, e)
    ensures Leads(c, events + [e], Apply(c, s, e))
  {
    ExecNext(c, events, s, e);
  }

  // ---------------------------------------------------------------------
  // Filling the budget
  // ---------------------------------------------------------------------

  lemma OneMore(n: nat, e: nat)
    requires n > 0
    ensures n * e == (n - 1) * e + e
  {
  }

  predicate FreshFrom(c: Limits, rs: seq<Reservation>, start: nat) {
    forall i :: start <= i < |rs| ==> rs[i] == Claimed(c.estimate)
  }

  /** `n` more claims of the estimate, where they fit. */
  lemma {:induction false} GrantMany(c: Limits, events: seq<Event>, s: Budget, n: nat)
      returns (all: seq<Event>, t: Budget)
    requires Leads(c, events, s) && s.inFlight + n * c.estimate <= c.capacity
    ensures Leads(c, all, t) && t.inFlight == s.inFlight + n * c.estimate
    ensures |t.reservations| == |s.reservations| + n && t.reservations[..|s.reservations|] == s.reservations
    ensures FreshFrom(c, t.reservations, |s.reservations|)
    ensures Total(Counted, t.reservations) == Total(Counted, s.reservations) + n * c.estimate
  {
    if n == 0 {
      all, t := events, s;
    } else {
      OneMore(n, c.estimate);
      var u;
      all, u := GrantMany(c, events, s, n - 1);
      LeadsOn(c, all, u, Try(c.estimate));
      TotalSnoc(Counted, u.reservations, Claimed(c.estimate));
      all, t := all + [Try(c.estimate)], Apply(c, u, Try(c.estimate));
    }
  }

  /** Decode grows the last `n` claims to the fault limit, one after the other. */
  lemma {:induction false} GrowMany(c: Limits, events: seq<Event>, s: Budget, n: nat)
      returns (all: seq<Event>, t: Budget)
    requires Leads(c, events, s) && c.estimate < FaultLimit(c)
    requires n <= |s.reservations| && FreshFrom(c, s.reservations, |s.reservations| - n)
    ensures Leads(c, all, t)
    ensures Total(Counted, t.reservations) == Total(Counted, s.reservations) + n * (FaultLimit(c) - c.estimate)
    decreases n
  {
    if n == 0 {
      all, t := events, s;
    } else {
      var i, e := |s.reservations| - n, Touch(|s.reservations| - n, Reconcile(FaultLimit(c)));
      LeadsOn(c, events, s, e);
      var u := Apply(c, s, e);
      TotalUpdate(Counted, s.reservations, i, u.reservations[i]);
      OneMore(n, FaultLimit(c) - c.estimate);
      all, t := GrowMany(c, events + [e], u, n - 1);
    }
  }

  /** One claim, shrunk at decode to what the others leave of the capacity. */
  lemma FirstClaim(c: Limits) returns (events: seq<Event>, s: Budget)
    requires 1 <= c.estimate <= c.capacity && c.estimate < FaultLimit(c)
    ensures Leads(c, events, s) && |s.reservations| == 1
    ensures s.inFlight == c.capacity % c.estimate == Total(Counted, s.reservations)
  {
    var rest := c.capacity % c.estimate;
    var e := Touch(0, Reconcile(rest));
    LeadsOn(c, [], Empty(), Try(c.estimate));
    var u := Apply(c, Empty(), Try(c.estimate));
    assert u.reservations == [Claimed(c.estimate)];
    events := [Try(c.estimate)];
    assert [] + events == events;
    LeadsOn(c, events, u, e);
    events, s := events + [e], Apply(c, u, e);
    var r := s.reservations[0];
    assert s.reservations == [] + [r];
    TotalSnoc(Counted, [], r);
  }

  lemma Divides(a: nat, d: nat)
    requires d >= 1
    ensures a % d + (a / d) * d == a
  {
  }

  /** The peak is reached: some run holds exactly that many bytes. */
  lemma PeakReached(c: Limits) returns (events: seq<Event>, s: Budget)
    requires 1 <= c.estimate <= c.capacity && c.estimate < FaultLimit(c)
    ensures Leads(c, events, s) && Total(Counted, s.reservations) == PeakBytes(c)
  {
    var k := c.capacity / c.estimate;
    Divides(c.capacity, c.estimate);
    events, s := FirstClaim(c);
    events, s := GrantMany(c, events, s, k);
    events, s := GrowMany(c, events, s, k);
  }

  // ---------------------------------------------------------------------
  // The largest capacity
  // ---------------------------------------------------------------------

  /** A reserver that goes through without anyone in its way. */
  lemma Reserved(c: Limits, events: seq<Event>, s: Budget, bytes: u64) returns (all: seq<Event>, t: Budget)
    requires Leads(c, events, s) && 0 < bytes && c.estimate <= bytes && SaturatingAdd(s.inFlight, bytes) <= c.capacity
    ensures Leads(c, all, t) && t.reservations == s.reservations + [Claimed(bytes)]
    ensures t.inFlight == Wrap(s.inFlight + bytes)
  {
    var i := |s.waiters|;
    LeadsOn(c, events, s, Ask(bytes));
    all, t := events + [Ask(bytes)], Apply(c, s, Ask(bytes));
    LeadsOn(c, all, t, Subscribe(i));
    all, t := all + [Subscribe(i)], Apply(c, t, Subscribe(i));
    LeadsOn(c, all, t, Load(i));
    all, t := all + [Load(i)], Apply(c, t, Load(i));
    LeadsOn(c, all, t, Decide(i));
    all, t := all + [Decide(i)], Apply(c, t, Decide(i));
  }

  /** With the largest capacity the saturating check admits a sum that does not fit. */
  lemma MaxCapacityWraps(c: Limits) returns (events: seq<Event>, s: Budget)
    requires c.capacity == U64_MAX
    ensures Leads(c, events, s) && Total(Counted, s.reservations) > U64_MAX
  {
    var u;
    events, u := Reserved(c, [], Empty(), U64_MAX);
    TotalSnoc(Counted, [], Claimed(U64_MAX));
    events, s := Reserved(c, events, u, U64_MAX);
    TotalSnoc(Counted, u.reservations, Claimed(U64_MAX));
  }

  // ---------------------------------------------------------------------
  // The condition
  // ---------------------------------------------------------------------

  lemma GrowthNeedsRoom(c: Limits)
    requires Growth(c) > 0
    ensures 1 <= c.estimate <= c.capacity && c.estimate < FaultLimit(c)
  {
    if c.capacity < c.estimate {
      NoneFits(c.capacity, c.estimate);
    }
  }

  lemma NoneFits(a: nat, d: nat)
    requires a < d
    ensures a / d == 0
  {
  }

  lemma WrapsOtherwise(c: Limits) returns (events: seq<Event>, s: Budget)
    requires !Roomy(c)
    ensures Leads(c, events, s) && Total(Counted, s.reservations) > U64_MAX
  {
    if c.capacity == U64_MAX {
      events, s := MaxCapacityWraps(c);
    } else {
      GrowthNeedsRoom(c);
      events, s := PeakReached(c);
    }
  }

  /**
   * The in-flight count equals what the reservations hold, in every run, if and only if the capacity
   * is not the largest number and the capacity with every estimate in it grown to the fault limit
   * fits 64 bits.
   */
  lemma CountExactly(c: Limits)
    ensures CountIsExact(c) <==> c.capacity < U64_MAX && PeakBytes(c) <= U64_MAX
  {
    if Roomy(c) {
      forall events | Exec(c, events).Some? && AsksEnough(c, events)
        ensures Exec(c, events).value.inFlight == Total(Counted, Exec(c, events).value.reservations)
      {
        BytesBounded(c, events, Exec(c, events).value);
      }
    } else {
      var events, s := WrapsOtherwise(c);
      assert s.inFlight <= U64_MAX;
    }
  }

  predicate CheckMeans(capacity: u64, seen: u64, bytes: u64) {
    SaturatingAdd(seen, bytes) <= capacity <==> seen + bytes <= capacity
  }

  /** The saturating check before the swap is exact for every request if and only if the capacity is not the maximum. */
  lemma ReserveExact(capacity: u64)
    ensures (forall seen: u64, bytes: u64 :: CheckMeans(capacity, seen, bytes)) <==> capacity < U64_MAX
  {
    assert capacity == U64_MAX ==> !CheckMeans(capacity, U64_MAX, 1);
  }

  /**
   * Where the capacity is not the maximum, a reserver that has loaded the count gets its bytes if
   * and only if the count has not moved since and the bytes fit the capacity; otherwise it parks.
   */
  lemma DecideExactly(c: Limits, s: Budget, i: nat)
    requires c.capacity < U64_MAX && i < |s.waiters| && s.waiters[i].Loaded?
    ensures var w, t := s.waiters[i], Apply(c, s, Decide(i));
            if s.inFlight == w.seen && s.inFlight + w.bytes <= c.capacity then
              && t.waiters == s.waiters[i := Finished] && t.inFlight == s.inFlight + w.bytes
              && t.reservations == s.reservations + [Claimed(w.bytes)]
            else t == s.(waiters := s.waiters[i := Parked(w.bytes, w.woken)])
  {
  }

  /** Decode may change a reservation once, to at most the estimate times the multiplier, saturated at 64 bits. */
  lemma GateExactly(c: Limits, r: Reservation, actual: nat)
    ensures OpEnabled(c, r, Reconcile(actual)) <==>
              && r.step == Resting && !r.decoded
              && actual <= c.estimate * c.multiplier && actual <= 0xFFFF_FFFF_FFFF_FFFF
  {
  }
}
