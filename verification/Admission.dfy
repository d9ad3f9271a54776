/**
 * One admission cycle: the first gate, the opportunistic extra gates, one poll, and the two passes
 * that register every descriptor before any is sent. It leaves what as many single-descriptor
 * cycles would.
 */
module Admission {
  import opened Prelude
  import opened AckCoordinators

  /** What a cycle changes: the coordinator, free batch permits, reserved bytes, units in flight, units sent. */
  datatype Arm = Arm(coord: Coordinator, permits: nat, bytes: nat, inFlight: nat, sent: seq<u64>)

  datatype Budgets = Budgets(capacity: u64, estimate: u64, perPoll: nat)

  /** A permit is free and the estimate fits. */
  predicate GateOpens(b: Budgets, permits: nat, bytes: nat) {
    permits > 0 && (b.estimate == 0 || bytes + b.estimate <= b.capacity)
  }

  /** How a sequence is registered as pending; `None` if that is rejected. */
  type Registrar = (Coordinator, u64) -> Option<Coordinator>

  /** `register_pending(q, q)`. */
  function RegisterPendingOne(): Registrar {
    (c: Coordinator, q: u64) => match Register(c, q, q) case Ok(d) => Some(d) case Err(_) => None
  }

  /** A whole cycle for one descriptor; `None` if the gate is shut or the registration is rejected. */
  function Single(b: Budgets, register: Registrar, a: Arm, q: u64): Option<Arm> {
    if !GateOpens(b, a.permits, a.bytes) then None
    else
      match register(a.coord, q)
      case None => None
      case Some(c) => Some(Arm(c, a.permits - 1, a.bytes + b.estimate, a.inFlight + 1, a.sent + [q]))
  }

  /** One single-descriptor cycle after the other. */
  function Singles(b: Budgets, register: Registrar, a: Arm, ds: seq<u64>): Option<Arm> {
    if ds == [] then Some(a)
    else
      match Singles(b, register, a, ds[..|ds| - 1])
      case None => None
      case Some(s) => Single(b, register, s, ds[|ds| - 1])
  }

  /** The register-all pass. */
  function RegisterAll(register: Registrar, c: Coordinator, ds: seq<u64>): Option<Coordinator> {
    if ds == [] then Some(c)
    else
      match RegisterAll(register, c, ds[..|ds| - 1])
      case None => None
      case Some(d) => register(d, ds[|ds| - 1])
  }

  /** `gates` gates fit at once. */
  predicate GatesFit(b: Budgets, a: Arm, gates: nat) {
    gates <= a.permits && (gates == 0 || b.estimate == 0 || a.bytes + gates * b.estimate <= b.capacity)
  }

  function Admitted(b: Budgets, a: Arm, c: Coordinator, ds: seq<u64>): Arm
    requires |ds| <= a.permits
  {
    Arm(c, a.permits - |ds|, a.bytes + |ds| * b.estimate, a.inFlight + |ds|, a.sent + ds)
  }

  lemma GateLeft(b: Budgets, a: Arm, gates: nat, used: nat)
    requires GatesFit(b, a, gates) && used < gates
    ensures GateOpens(b, a.permits - used, a.bytes + used * b.estimate)
    ensures (used + 1) * b.estimate == used * b.estimate + b.estimate
  {
    assert (used + 1) * b.estimate <= gates * b.estimate;
  }

  lemma AdmittedNext(b: Budgets, a: Arm, c: Coordinator, front: seq<u64>, last: u64, d: Coordinator)
    requires |front| < a.permits
    ensures var s := Admitted(b, a, c, front);
            Admitted(b, a, d, front + [last])
            == Arm(d, s.permits - 1, s.bytes + b.estimate, s.inFlight + 1, s.sent + [last])
  {
    assert (|front| + 1) * b.estimate == |front| * b.estimate + b.estimate;
  }

  /**
   * A cycle that got `gates` gates and `d` descriptors leaves coordinator, permits, bytes, count and
   * sent units exactly as `d` cycles with one descriptor each.
   */
  lemma {:induction false} BatchIsSingles(b: Budgets, register: Registrar, a: Arm, gates: nat, ds: seq<u64>)
    requires GatesFit(b, a, gates) && |ds| <= gates && RegisterAll(register, a.coord, ds).Some?
    ensures Singles(b, register, a, ds) == Some(Admitted(b, a, RegisterAll(register, a.coord, ds).value, ds))
  {
    if ds == [] {
      assert a.sent + ds == a.sent;
    } else {
      var n := |ds| - 1;
      var front, last := ds[..n], ds[n];
      BatchIsSingles(b, register, a, gates, front);
      GateLeft(b, a, gates, n);
      AdmittedNext(b, a, RegisterAll(register, a.coord, front).value, front, last,
                   RegisterAll(register, a.coord, ds).value);
      assert ds == front + [last];
    }
  }

  // ---------------------------------------------------------------------
  // The cycle
  // ---------------------------------------------------------------------

  /** What leaves the arm, in order. */
  datatype Trace = Registered(sequence: u64) | SentOut(sequence: u64)

  function AllRegistered(ds: seq<u64>): (r: seq<Trace>)
    ensures |r| == |ds| && forall i :: 0 <= i < |ds| ==> r[i] == Registered(ds[i])
  {
    seq(|ds|, i requires 0 <= i < |ds| => Registered(ds[i]))
  }

  function AllSent(ds: seq<u64>): (r: seq<Trace>)
    ensures |r| == |ds| && forall i :: 0 <= i < |ds| ==> r[i] == SentOut(ds[i])
  {
    seq(|ds|, i requires 0 <= i < |ds| => SentOut(ds[i]))
  }

  lemma RegisteredNext(ds: seq<u64>, i: nat)
    requires i < |ds|
    ensures AllRegistered(ds[..i + 1]) == AllRegistered(ds[..i]) + [Registered(ds[i])]
  {
  }

  /** How many units fit the room. */
  function Units(room: nat, unit: nat): (n: nat)
    requires unit >= 1
    ensures n * unit <= room < n * unit + unit
  {
    assert room == unit * (room / unit) + room % unit;
    room / unit
  }

  /** How many gates one cycle aims for once it holds the first: the knob, the free permits, the free bytes. */
  function Target(b: Budgets, permits: nat, bytes: nat): (k: nat)
    ensures k >= 1
  {
    var room := if bytes <= b.capacity then b.capacity - bytes else 0;
    Min(Max(b.perPoll, 1), Min(1 + permits, 1 + Units(room, Max(b.estimate, 1))))
  }

  lemma Scaled(few: nat, many: nat, unit: nat)
    requires few <= many
    ensures few * unit <= many * unit
  {
  }

  lemma ExtraFits(b: Budgets, permits: nat, bytes: nat, extra: nat)
    requires extra + 1 < Target(b, permits, bytes)
    ensures extra < permits && bytes + (extra + 1) * b.estimate <= b.capacity
    ensures (extra + 1) * b.estimate == extra * b.estimate + b.estimate
  {
    var unit := Max(b.estimate, 1);
    var room := if bytes <= b.capacity then b.capacity - bytes else 0;
    Scaled(extra + 1, Units(room, unit), unit);
    assert b.estimate == 0 || b.estimate == unit;
  }

  /**
   * `gates` is what a cycle takes from `permits` free permits with `bytes` in flight: within the
   * per-poll limit, the permits and the capacity, and as many as those allow. With an estimate of
   * zero every free byte counts as room for one more.
   */
  predicate TakesMost(b: Budgets, permits: nat, bytes: nat, gates: nat) {
    var most := if b.perPoll <= 1 then 1 else b.perPoll;
    var room := if bytes <= b.capacity then b.capacity - bytes else 0;
    && 1 <= gates <= most && gates <= permits
    && (if b.estimate > 0 then bytes + gates * b.estimate <= b.capacity else gates <= 1 + room)
    && (|| gates == most
        || gates == permits
        || (b.estimate > 0 && bytes + (gates + 1) * b.estimate > b.capacity)
        || (b.estimate == 0 && gates == 1 + room))
  }

  /** There is only one such number. */
  lemma TakesMostOnce(b: Budgets, permits: nat, bytes: nat, g: nat, h: nat)
    requires TakesMost(b, permits, bytes, g) && TakesMost(b, permits, bytes, h)
    ensures g == h
  {
    if g < h {
      Scaled(g + 1, h, b.estimate);
    } else if h < g {
      Scaled(h + 1, g, b.estimate);
    }
  }

  /** The target is that number, once the first gate has been taken. */
  lemma TargetTakesMost(b: Budgets, permits: nat, bytes: nat)
    requires GateOpens(b, permits, bytes)
    ensures TakesMost(b, permits, bytes, Target(b, permits - 1, bytes + b.estimate))
  {
    var k := Target(b, permits - 1, bytes + b.estimate);
    if b.estimate > 0 {
      var room := b.capacity - (bytes + b.estimate);
      var n := Units(room, b.estimate);
      Spread(k, b.estimate);
      Spread(n + 1, b.estimate);
      Scaled(k - 1, n, b.estimate);
    }
  }

  lemma Spread(k: nat, e: nat)
    requires k >= 1
    ensures k * e == (k - 1) * e + e && (k + 1) * e == k * e + e
  {
  }

  class AdmissionArm {
    const coordinator: AckCoordinator
    const budgets: Budgets
    var permits: nat
    var bytes: nat
    var inFlight: nat
    var sent: seq<u64>
    var trace: seq<Trace>

    ghost function Value(): Arm
      reads this, coordinator
    {
      Arm(coordinator.Value(), permits, bytes, inFlight, sent)
    }

    constructor (coordinator: AckCoordinator, budgets: Budgets, permits: nat)
      ensures this.coordinator == coordinator && this.budgets == budgets && trace == []
      ensures Value() == Arm(coordinator.Value(), permits, 0, 0, [])
    {
      this.coordinator := coordinator;
      this.budgets := budgets;
      this.permits := permits;
      bytes := 0;
      inFlight := 0;
      sent := [];
      trace := [];
    }

    /** The first gate, and as many more as the target allows; with nobody else moving it reaches the target. */
    method TakeGates() returns (gates: nat)
      requires GateOpens(budgets, permits, bytes)
      modifies this`permits, this`bytes
      ensures TakesMost(budgets, old(permits), old(bytes), gates)
      ensures 1 <= gates <= old(permits) && permits == old(permits) - gates
      ensures bytes == old(bytes) + gates * budgets.estimate
      ensures GatesFit(budgets, old(Value()), gates)
    {
      TargetTakesMost(budgets, permits, bytes);
      permits := permits - 1;
      bytes := bytes + budgets.estimate;
      var target := Target(budgets, permits, bytes);
      ghost var free, base := permits, bytes;
      gates := 1;
      while gates < target
        invariant 1 <= gates <= target && gates - 1 <= free && permits == free - (gates - 1)
        invariant bytes == base + (gates - 1) * budgets.estimate
        invariant gates == 1 || bytes <= budgets.capacity
        decreases target - gates
      {
        ExtraFits(budgets, free, base, gates - 1);
        if permits == 0 {
          break;
        }
        permits := permits - 1;
        if budgets.estimate != 0 && bytes + budgets.estimate > budgets.capacity {
          permits := permits + 1;
          break;
        }
        bytes := bytes + budgets.estimate;
        gates := gates + 1;
      }
      assert gates * budgets.estimate == (gates - 1) * budgets.estimate + budgets.estimate;
    }

    method RegisterOne(q: u64) returns (ok: bool)
      modifies coordinator
      ensures var after := RegisterPendingOne()(old(coordinator.Value()), q);
              ok == after.Some? && (ok ==> after == Some(coordinator.Value()))
    {
      var error := coordinator.RegisterPending(q, q);
      return error.None?;
    }

    method RegisterPass(ds: seq<u64>) returns (ok: bool)
      modifies coordinator, this`inFlight, this`trace
      ensures ok == RegisterAll(RegisterPendingOne(), old(coordinator.Value()), ds).Some?
      ensures ok ==>
                && RegisterAll(RegisterPendingOne(), old(coordinator.Value()), ds) == Some(coordinator.Value())
                && inFlight == old(inFlight) + |ds| && trace == old(trace) + AllRegistered(ds)
    {
      ghost var register, start := RegisterPendingOne(), coordinator.Value();
      var i := 0;
      while i < |ds|
        invariant 0 <= i <= |ds| && inFlight == old(inFlight) + i
        invariant RegisterAll(register, start, ds[..i]) == Some(coordinator.Value())
        invariant trace == old(trace) + AllRegistered(ds[..i])
      {
        ghost var c := coordinator.Value();
        RegisterStep(register, start, ds, i, c);
        var registered := RegisterOne(ds[i]);
        if !registered {
          return false;
        }
        inFlight := inFlight + 1;
        trace := trace + [Registered(ds[i])];
        RegisteredNext(ds, i);
        i := i + 1;
      }
      assert ds[..|ds|] == ds;
      return true;
    }

    method SendPass(ds: seq<u64>)
      modifies this`sent, this`trace
      ensures sent == old(sent) + ds && trace == old(trace) + AllSent(ds)
    {
      var i := 0;
      while i < |ds|
        invariant 0 <= i <= |ds| && sent == old(sent) + ds[..i] && trace == old(trace) + AllSent(ds[..i])
      {
        sent := sent + [ds[i]];
        trace := trace + [SentOut(ds[i])];
        assert AllSent(ds[..i + 1]) == AllSent(ds[..i]) + [SentOut(ds[i])];
        assert ds[..i + 1] == ds[..i] + [ds[i]];
        i := i + 1;
      }
      assert ds[..|ds|] == ds;
    }

    /** Surplus gates drop: each gives back its permit and its bytes. */
    method DropGates(count: nat)
      requires count * budgets.estimate <= bytes
      modifies this`permits, this`bytes
      ensures permits == old(permits) + count && bytes == old(bytes) - count * budgets.estimate
    {
      permits := permits + count;
      bytes := bytes - count * budgets.estimate;
    }

    /** The gates, the poll and the two passes. */
    method GateAndPass(poll: nat -> seq<u64>) returns (ok: bool, gates: nat, ds: seq<u64>)
      requires GateOpens(budgets, permits, bytes) && forall k :: |poll(k)| <= k
      modifies this, coordinator
      ensures TakesMost(budgets, old(permits), old(bytes), gates) && ds == poll(gates)
      ensures GatesFit(budgets, old(Value()), gates)
      ensures ok == RegisterAll(RegisterPendingOne(), old(coordinator.Value()), ds).Some?
      ensures ok ==>
                && RegisterAll(RegisterPendingOne(), old(coordinator.Value()), ds) == Some(coordinator.Value())
                && Value() == Admitted(budgets, old(Value()), coordinator.Value(), ds)
                && trace == old(trace) + AllRegistered(ds) + AllSent(ds)
      ensures !ok ==> permits == old(permits) && bytes == old(bytes) && sent == old(sent)
    {
      gates := TakeGates();
      ds := poll(gates);
      Returned(gates, |ds|, budgets.estimate);
      DropGates(gates - |ds|);
      ok := RegisterPass(ds);
      if !ok {
        DropGates(|ds|);
        return;
      }
      SendPass(ds);
    }

    /**
     * One cycle. `poll` is what the source would return for each limit, never more than asked for.
     * It leaves what as many single-descriptor cycles would, with every descriptor registered
     * before any is sent. A rejected registration ends the actor: nothing is sent and every gate
     * is given back.
     */
    method Cycle(poll: nat -> seq<u64>) returns (ok: bool, gates: nat, ds: seq<u64>)
      requires GateOpens(budgets, permits, bytes) && forall k :: |poll(k)| <= k
      modifies this, coordinator
      ensures TakesMost(budgets, old(permits), old(bytes), gates) && ds == poll(gates)
      ensures ok == RegisterAll(RegisterPendingOne(), old(coordinator.Value()), ds).Some?
      ensures ok ==> Singles(budgets, RegisterPendingOne(), old(Value()), ds) == Some(Value())
      ensures ok ==> trace == old(trace) + AllRegistered(ds) + AllSent(ds)
      ensures !ok ==> permits == old(permits) && bytes == old(bytes) && sent == old(sent)
    {
      ok, gates, ds := GateAndPass(poll);
      if ok {
        BatchIsSingles(budgets, RegisterPendingOne(), old(Value()), gates, ds);
      }
    }
  }

  lemma Returned(gates: nat, used: nat, unit: nat)
    requires used <= gates
    ensures (gates - used) * unit + used * unit == gates * unit
  {
  }

  lemma RegisterStep(register: Registrar, start: Coordinator, ds: seq<u64>, i: nat, c: Coordinator)
    requires i < |ds| && RegisterAll(register, start, ds[..i]) == Some(c)
    ensures RegisterAll(register, start, ds[..i + 1]) == register(c, ds[i])
    ensures register(c, ds[i]).None? ==> RegisterAll(register, start, ds).None?
  {
    assert ds[..i + 1][..i] == ds[..i];
    if register(c, ds[i]).None? {
      RejectionStays(register, start, ds, i + 1);
    }
  }

  lemma {:induction false} RejectionStays(register: Registrar, start: Coordinator, ds: seq<u64>, n: nat)
    requires n <= |ds| && RegisterAll(register, start, ds[..n]).None?
    ensures RegisterAll(register, start, ds).None?
    decreases |ds| - n
  {
    if n < |ds| {
      assert ds[..n + 1][..n] == ds[..n];
      RejectionStays(register, start, ds, n + 1);
    } else {
      assert ds[..n] == ds;
    }
  }
}
