/**
 * What the budget's counters say in every run, whatever the limits and whatever the requests, and
 * why no parked reserver is ever forgotten.
 */
module BudgetAccounts {
  import opened Prelude
  import opened Sequences
  import opened ByteBudget

  // ---------------------------------------------------------------------
  // One operation
  // ---------------------------------------------------------------------

  predicate Coherent(r: Reservation) {
    match r.step
    case Resting => true
    case Attaching(target) => target < STAGES && r.stage.None?
    case Mirroring(actual) => r.decoded && actual != r.held
    case Announcing => r.decoded
    case Releasing => r.stage.None?
    case Leaving => r.stage.None?
    case Gone => r.stage.None? || r.held == 0
  }

  /** One operation: the accounts move by exactly what it did, and a subtraction leaves a notification owed. */
  lemma OpAccounts(c: Limits, r: Reservation, op: Op, k: nat)
    requires Coherent(r) && OpEnabled(c, r, op)
    ensures var e := Run(c, r, op);
            && Coherent(e.after)
            && Counted(e.after) == Counted(r) + e.flight
            && MirroredIn(k)(e.after) == MirroredIn(k)(r) + (if e.at == Some(k) then e.change else 0)
            && (e.flight < 0 ==> Owes(e.after))
            && (Owes(r) && !e.notify ==> Owes(e.after))
  {
  }

  // ---------------------------------------------------------------------
  // The invariant
  // ---------------------------------------------------------------------

  predicate AllCoherent(rs: seq<Reservation>) {
    forall i :: 0 <= i < |rs| ==> Coherent(rs[i])
  }

  /** Every stage counter is the sum over the reservations attached to it, in 64 bits. */
  predicate Mirrored(counters: seq<u64>, rs: seq<Reservation>) {
    |counters| == STAGES && forall k :: 0 <= k < STAGES ==> counters[k] == Wrap(Total(MirroredIn(k), rs))
  }

  predicate SomeOwe(rs: seq<Reservation>) {
    exists i :: 0 <= i < |rs| && Owes(rs[i])
  }

  /** What a waiter has not been told about is still live, or its notification is on the way. */
  predicate Safe(c: Limits, inFlight: u64, live: nat, owed: bool, w: Waiter) {
    match w
    case Loaded(_, woken, seen) => woken || inFlight == seen || live > 0 || owed
    case Parked(bytes, woken) => 0 < bytes <= c.capacity ==> woken || live > 0 || owed
    case _ => true
  }

  predicate AllSafe(c: Limits, inFlight: u64, live: nat, owed: bool, ws: seq<Waiter>) {
    forall i :: 0 <= i < |ws| ==> Safe(c, inFlight, live, owed, ws[i])
  }

  predicate Accounts(c: Limits, s: Budget) {
    match s
    case Budget(inFlight, counters, reservations, waiters) =>
      && AllCoherent(reservations)
      && inFlight == Wrap(Total(Counted, reservations))
      && Mirrored(counters, reservations)
      && AllSafe(c, inFlight, Total(Counted, reservations), SomeOwe(reservations), waiters)
  }

  lemma WrapAdds(x: int, y: int)
    ensures Wrap(Wrap(x) + y) == Wrap(x + y)
  {
  }

  // ---------------------------------------------------------------------
  // Grants
  // ---------------------------------------------------------------------

  lemma GrantMirrored(s: Budget, bytes: nat)
    requires Mirrored(s.counters, s.reservations)
    ensures Mirrored(s.counters, Grant(s, bytes).reservations)
  {
    forall k | 0 <= k < STAGES ensures s.counters[k] == Wrap(Total(MirroredIn(k), s.reservations + [Claimed(bytes)])) {
      TotalSnoc(MirroredIn(k), s.reservations, Claimed(bytes));
    }
  }

  lemma OweSnoc(rs: seq<Reservation>, r: Reservation)
    requires SomeOwe(rs)
    ensures SomeOwe(rs + [r])
  {
    var i :| 0 <= i < |rs| && Owes(rs[i]);
    assert (rs + [r])[i] == rs[i];
  }

  lemma GrantAccounts(c: Limits, s: Budget, bytes: nat)
    requires Accounts(c, s)
    ensures Accounts(c, Grant(s, bytes))
  {
    var t := Grant(s, bytes);
    TotalSnoc(Counted, s.reservations, Claimed(bytes));
    WrapAdds(Total(Counted, s.reservations), bytes);
    GrantMirrored(s, bytes);
    if SomeOwe(s.reservations) {
      OweSnoc(s.reservations, Claimed(bytes));
    }
    assert AllSafe(c, t.inFlight, Total(Counted, t.reservations), SomeOwe(t.reservations), t.waiters);
  }

  // ---------------------------------------------------------------------
  // Operations on reservations
  // ---------------------------------------------------------------------

  lemma OweUpdate(rs: seq<Reservation>, i: nat, r: Reservation)
    requires i < |rs| && (Owes(rs[i]) ==> Owes(r))
    ensures SomeOwe(rs) ==> SomeOwe(rs[i := r])
    ensures Owes(r) ==> SomeOwe(rs[i := r])
  {
    if SomeOwe(rs) {
      var j :| 0 <= j < |rs| && Owes(rs[j]);
      assert Owes(rs[i := r][j]);
    }
    if Owes(r) {
      assert Owes(rs[i := r][i]);
    }
  }

  lemma TouchCounted(s: Budget, i: nat, e: Effect)
    requires i < |s.reservations| && s.inFlight == Wrap(Total(Counted, s.reservations))
    requires Counted(e.after) == Counted(s.reservations[i]) + e.flight
    ensures var t := Touched(s, i, e);
            && Total(Counted, t.reservations) == Total(Counted, s.reservations) + e.flight
            && t.inFlight == Wrap(Total(Counted, t.reservations))
  {
    TotalUpdate(Counted, s.reservations, i, e.after);
    WrapAdds(Total(Counted, s.reservations), e.flight);
  }

  lemma TouchMirrored(c: Limits, s: Budget, i: nat, op: Op)
    requires Mirrored(s.counters, s.reservations) && i < |s.reservations|
    requires Coherent(s.reservations[i]) && OpEnabled(c, s.reservations[i], op)
    ensures var t := Touched(s, i, Run(c, s.reservations[i], op)); Mirrored(t.counters, t.reservations)
  {
    var e := Run(c, s.reservations[i], op);
    var t := Touched(s, i, e);
    forall k | 0 <= k < STAGES ensures t.counters[k] == Wrap(Total(MirroredIn(k), t.reservations)) {
      OpAccounts(c, s.reservations[i], op, k);
      TotalUpdate(MirroredIn(k), s.reservations, i, e.after);
      WrapAdds(Total(MirroredIn(k), s.reservations), e.change);
    }
  }

  /** No update of the count loses a wakeup: what falls to nothing owes a notification. */
  lemma TouchSafe(c: Limits, s: Budget, i: nat, e: Effect, live: nat, inFlight: u64)
    requires i < |s.reservations|
    requires AllSafe(c, s.inFlight, Total(Counted, s.reservations), SomeOwe(s.reservations), s.waiters)
    requires live == Total(Counted, s.reservations) + e.flight && inFlight == Wrap(s.inFlight + e.flight)
    requires e.flight < 0 ==> Owes(e.after)
    requires Owes(s.reservations[i]) && !e.notify ==> Owes(e.after)
    ensures AllSafe(c, inFlight, live, SomeOwe(s.reservations[i := e.after]),
                    if e.notify then AllWoken(s.waiters) else s.waiters)
  {
    if !e.notify {
      OweUpdate(s.reservations, i, e.after);
    }
  }

  lemma TouchAccounts(c: Limits, s: Budget, i: nat, op: Op)
    requires Accounts(c, s) && i < |s.reservations| && OpEnabled(c, s.reservations[i], op)
    ensures Accounts(c, Touched(s, i, Run(c, s.reservations[i], op)))
  {
    var e := Run(c, s.reservations[i], op);
    OpAccounts(c, s.reservations[i], op, 0);
    TouchCounted(s, i, e);
    TouchMirrored(c, s, i, op);
    TouchSafe(c, s, i, e, Total(Counted, s.reservations) + e.flight, Wrap(s.inFlight + e.flight));
  }

  // ---------------------------------------------------------------------
  // Reservers
  // ---------------------------------------------------------------------

  lemma MoveAccounts(c: Limits, s: Budget, i: nat, w: Waiter)
    requires Accounts(c, s) && i < |s.waiters|
    requires Safe(c, s.inFlight, Total(Counted, s.reservations), SomeOwe(s.reservations), w)
    ensures Accounts(c, Moved(s, i, w))
  {
  }

  /** A reserver parks only where something live, or a notification, will wake it. */
  lemma DecideAccounts(c: Limits, s: Budget, i: nat)
    requires Accounts(c, s) && i < |s.waiters| && s.waiters[i].Loaded?
    ensures Accounts(c, Apply(c, s, Decide(i)))
  {
    var w := s.waiters[i];
    assert Safe(c, s.inFlight, Total(Counted, s.reservations), SomeOwe(s.reservations), w);
    if CasWins(c, s, w) {
      GrantAccounts(c, s, w.bytes);
      MoveAccounts(c, Grant(s, w.bytes), i, Finished);
    } else {
      MoveAccounts(c, s, i, Parked(w.bytes, w.woken));
    }
  }

  lemma AskAccounts(c: Limits, s: Budget, bytes: u64)
    requires Accounts(c, s)
    ensures Accounts(c, Apply(c, s, Ask(bytes)))
  {
    if bytes == 0 {
      GrantAccounts(c, s, 0);
    }
  }

  /** Every step of any task, under any limits and for any request, keeps the accounts. */
  lemma EventAccounts(c: Limits, s: Budget, e: Event)
    requires Accounts(c, s) && Enabled(c, s, e)
    ensures Accounts(c, Apply(c, s, e))
  {
    match e
    case Ask(bytes) => AskAccounts(c, s, bytes);
    case Subscribe(i) => MoveAccounts(c, s, i, Armed(s.waiters[i].bytes, false));
    case Load(i) => MoveAccounts(c, s, i, Loaded(s.waiters[i].bytes, s.waiters[i].woken, s.inFlight));
    case Decide(i) => DecideAccounts(c, s, i);
    case Wake(i) => MoveAccounts(c, s, i, Arriving(s.waiters[i].bytes));
    case Cancel(i) => MoveAccounts(c, s, i, Finished);
    case Try(bytes) => GrantAccounts(c, s, bytes);
    case Touch(i, op) => TouchAccounts(c, s, i, op);
  }

  lemma EmptyAccounts(c: Limits)
    ensures Accounts(c, Empty())
  {
  }

  lemma {:induction false} RunAccounts(c: Limits, events: seq<Event>)
    requires Exec(c, events).Some?
    ensures Accounts(c, Exec(c, events).value)
  {
    if events == [] {
      EmptyAccounts(c);
    } else {
      RunAccounts(c, events[..|events| - 1]);
      EventAccounts(c, Exec(c, events[..|events| - 1]).value, events[|events| - 1]);
    }
  }

  // ---------------------------------------------------------------------
  // Every run
  // ---------------------------------------------------------------------

  /** In every run the counters are the sums over the reservations, as far as 64 bits can say. */
  lemma CountersAreSums(c: Limits, events: seq<Event>, s: Budget)
    requires Exec(c, events) == Some(s)
    ensures s.inFlight == Wrap(Total(Counted, s.reservations)) && |s.counters| == STAGES
    ensures forall k :: 0 <= k < STAGES ==> s.counters[k] == Wrap(Total(MirroredIn(k), s.reservations))
  {
    RunAccounts(c, events);
  }

  lemma {:induction false} TotalSome(rs: seq<Reservation>) returns (i: nat)
    requires Total(Counted, rs) > 0
    ensures i < |rs| && Counted(rs[i]) > 0
  {
    if Counted(rs[0]) > 0 {
      i := 0;
    } else {
      i := TotalSome(rs[1..]);
      i := i + 1;
    }
  }

  /**
   * Under any limits and with any requests, a reserver parked with bytes that could fit is never
   * forgotten: it has been notified, or a release stands between its subtraction and its
   * notification, or some reservation is still live and will be released.
   */
  lemma NoLostWakeup(c: Limits, events: seq<Event>, s: Budget, i: nat) returns (j: nat)
    requires Exec(c, events) == Some(s)
    requires i < |s.waiters| && s.waiters[i].Parked? && 0 < s.waiters[i].bytes <= c.capacity
    ensures s.waiters[i].woken || (j < |s.reservations| && (Owes(s.reservations[j]) || Counted(s.reservations[j]) > 0))
  {
    RunAccounts(c, events);
    assert Safe(c, s.inFlight, Total(Counted, s.reservations), SomeOwe(s.reservations), s.waiters[i]);
    if Total(Counted, s.reservations) > 0 {
      j := TotalSome(s.reservations);
    } else if SomeOwe(s.reservations) {
      j :| 0 <= j < |s.reservations| && Owes(s.reservations[j]);
    } else {
      j := 0;
    }
  }

  // ---------------------------------------------------------------------
  // A quiet budget serves
  // ---------------------------------------------------------------------

  /** Nothing is held and no notification is on the way. */
  predicate Quiet(s: Budget) {
    Total(Counted, s.reservations) == 0 && !SomeOwe(s.reservations)
  }

  /** `i` has its bytes: it is done, and the newest reservation is the one it asked for. */
  predicate Served(s: Budget, t: Budget, i: nat, bytes: nat) {
    && i < |t.waiters| && t.waiters[i].Finished?
    && t.reservations == s.reservations + [Claimed(bytes)]
  }

  lemma LoadServes(c: Limits, events: seq<Event>, s: Budget, i: nat) returns (more: seq<Event>, t: Budget)
    requires Exec(c, events) == Some(s) && s.inFlight == 0
    requires i < |s.waiters| && s.waiters[i].Armed? && s.waiters[i].bytes <= c.capacity
    ensures |more| == 2 && Exec(c, events + more) == Some(t) && Served(s, t, i, s.waiters[i].bytes)
  {
    ExecNext(c, events, s, Load(i));
    var u := Apply(c, s, Load(i));
    ExecNext(c, events + [Load(i)], u, Decide(i));
    more, t := [Load(i), Decide(i)], Apply(c, u, Decide(i));
    assert events + more == events + [Load(i)] + [Decide(i)];
  }

  lemma ArrivalServes(c: Limits, events: seq<Event>, s: Budget, i: nat) returns (more: seq<Event>, t: Budget)
    requires Exec(c, events) == Some(s) && s.inFlight == 0
    requires i < |s.waiters| && s.waiters[i].Arriving? && s.waiters[i].bytes <= c.capacity
    ensures |more| == 3 && Exec(c, events + more) == Some(t) && Served(s, t, i, s.waiters[i].bytes)
  {
    ExecNext(c, events, s, Subscribe(i));
    var u := Apply(c, s, Subscribe(i));
    more, t := LoadServes(c, events + [Subscribe(i)], u, i);
    assert events + ([Subscribe(i)] + more) == events + [Subscribe(i)] + more;
    more := [Subscribe(i)] + more;
  }

  lemma ParkedServes(c: Limits, events: seq<Event>, s: Budget, i: nat) returns (more: seq<Event>, t: Budget)
    requires Exec(c, events) == Some(s) && s.inFlight == 0
    requires i < |s.waiters| && s.waiters[i].Parked? && s.waiters[i].woken && s.waiters[i].bytes <= c.capacity
    ensures |more| == 4 && Exec(c, events + more) == Some(t) && Served(s, t, i, s.waiters[i].bytes)
  {
    ExecNext(c, events, s, Wake(i));
    var u := Apply(c, s, Wake(i));
    more, t := ArrivalServes(c, events + [Wake(i)], u, i);
    assert events + ([Wake(i)] + more) == events + [Wake(i)] + more;
    more := [Wake(i)] + more;
  }

  lemma LoadedServes(c: Limits, events: seq<Event>, s: Budget, i: nat) returns (more: seq<Event>, t: Budget)
    requires Exec(c, events) == Some(s) && s.inFlight == 0
    requires i < |s.waiters| && s.waiters[i].Loaded? && s.waiters[i].bytes <= c.capacity
    requires s.waiters[i].woken || s.waiters[i].seen == 0
    ensures |more| <= 5 && Exec(c, events + more) == Some(t) && Served(s, t, i, s.waiters[i].bytes)
  {
    ExecNext(c, events, s, Decide(i));
    var u := Apply(c, s, Decide(i));
    if CasWins(c, s, s.waiters[i]) {
      more, t := [Decide(i)], u;
    } else {
      more, t := ParkedServes(c, events + [Decide(i)], u, i);
      assert events + ([Decide(i)] + more) == events + [Decide(i)] + more;
      more := [Decide(i)] + more;
    }
  }

  /**
   * Once nothing is held and nothing owed, every reserver of at most the capacity gets its bytes in
   * at most five steps of its own: no reserver is stuck behind an empty budget.
   */
  lemma QuietServes(c: Limits, events: seq<Event>, s: Budget, i: nat) returns (more: seq<Event>, t: Budget)
    requires Exec(c, events) == Some(s) && Quiet(s)
    requires i < |s.waiters| && !s.waiters[i].Finished? && 0 < s.waiters[i].bytes <= c.capacity
    ensures |more| <= 5 && Exec(c, events + more) == Some(t) && Served(s, t, i, s.waiters[i].bytes)
  {
    RunAccounts(c, events);
    assert Safe(c, s.inFlight, 0, false, s.waiters[i]);
    match s.waiters[i]
    case Arriving(_) => more, t := ArrivalServes(c, events, s, i);
    case Armed(_, _) => more, t := LoadServes(c, events, s, i);
    case Loaded(_, _, _) => more, t := LoadedServes(c, events, s, i);
    case Parked(_, _) => more, t := ParkedServes(c, events, s, i);
  }
}
