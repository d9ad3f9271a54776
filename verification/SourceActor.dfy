/**
 * The completion arm of the per-source actor, and the source's split between the
 * in-memory ack and the durable one.
 */
module SourceActor {
  import opened Prelude
  import opened AckCoordinators

  datatype AckFlushPolicy = EveryCommitGroup | EveryN(n: nat)

  /** How many frontier advances one flush may cover. */
  function FlushEvery(policy: AckFlushPolicy): (n: nat)
    ensures n >= 1
  {
    match policy
    case EveryCommitGroup => 1
    case EveryN(n) => Max(n, 1)
  }

  /** The ack fields of the source; the durable frontier itself lives in the manifest. */
  datatype SourceAcks = SourceAcks(lastAcked: Option<u64>, pendingDurable: Option<u64>)

  function AckedThrough(a: SourceAcks, q: u64): SourceAcks {
    a.(pendingDurable := Some(q), lastAcked := Some(q))
  }

  /** A flush: what remains pending and what the manifest then says. */
  function Flushed(a: SourceAcks, manifest: Option<u64>, consumerOk: bool): (SourceAcks, Option<u64>) {
    if a.pendingDurable.Some? && consumerOk then (a.(pendingDurable := None), a.pendingDurable) else (a, manifest)
  }

  /** The fields and the manifest after `n` flushes that all failed. */
  function FailedFlushes(a: SourceAcks, manifest: Option<u64>, n: nat): (SourceAcks, Option<u64>) {
    if n == 0 then (a, manifest)
    else
      var before := FailedFlushes(a, manifest, n - 1);
      Flushed(before.0, before.1, false)
  }

  /** Any number of failed flushes and one that succeeds reach the state of one that succeeds at once. */
  lemma {:induction false} FlushRetried(a: SourceAcks, manifest: Option<u64>, n: nat)
    ensures var failed := FailedFlushes(a, manifest, n); Flushed(failed.0, failed.1, true) == Flushed(a, manifest, true)
    ensures FailedFlushes(a, manifest, n) == (a, manifest)
  {
    if n > 0 {
      FlushRetried(a, manifest, n - 1);
    }
  }

  class BufferSource {
    var lastAcked: Option<u64>
    var pendingDurableAck: Option<u64>
    /** The consumer's durable ack frontier, in its manifest. */
    var manifest: Option<u64>

    ghost function Acks(): SourceAcks
      reads this
    {
      SourceAcks(lastAcked, pendingDurableAck)
    }

    constructor (lastAckedSequence: Option<u64>, manifest: Option<u64>)
      ensures Acks() == SourceAcks(lastAckedSequence, None) && this.manifest == manifest
    {
      lastAcked := lastAckedSequence;
      pendingDurableAck := None;
      this.manifest := manifest;
    }

    method AckThrough(q: u64)
      modifies this
      ensures Acks() == AckedThrough(old(Acks()), q)
      ensures manifest == old(manifest)
    {
      pendingDurableAck := Some(q);
      lastAcked := Some(q);
    }

    /** `consumerOk`: whether the durable dequeue succeeds. */
    method FlushAcks(consumerOk: bool) returns (ok: bool)
      modifies this
      ensures (Acks(), manifest) == Flushed(old(Acks()), old(manifest), consumerOk)
      ensures ok == (old(pendingDurableAck).None? || consumerOk)
    {
      var taken := pendingDurableAck;
      pendingDurableAck := None;
      if taken.Some? {
        if consumerOk {
          manifest := taken;
        } else {
          pendingDurableAck := taken;
          return false;
        }
      }
      return true;
    }
  }

  /** The variables the actor's loop updates. */
  datatype ActorVars = ActorVars(
    coord: Coordinator,
    inFlight: nat,
    lastAckSent: Option<u64>,
    groups: nat,
    acks: SourceAcks)

  predicate ShouldAck(v: ActorVars, dryRun: bool) {
    && !dryRun
    && v.coord.frontier.Some?
    && (v.lastAckSent.None? || v.coord.frontier.value > v.lastAckSent.value)
  }

  /** Mark, advance, account, and ack in memory if the frontier moved; `None` when the mark is rejected. */
  function AfterCommit(v: ActorVars, low: u64, high: u64, dryRun: bool): Option<ActorVars>
    requires v.inFlight > 0
  {
    match Mark(v.coord, low, high)
    case Err(_) => None
    case Ok(marked) =>
      var u := v.(coord := Advance(marked), inFlight := v.inFlight - 1);
      if ShouldAck(u, dryRun) then
        var f := u.coord.frontier.value;
        Some(u.(acks := AckedThrough(u.acks, f), lastAckSent := Some(f), groups := u.groups + 1))
      else Some(u)
  }

  /** The arm goes on to flush. */
  predicate FlushDue(before: ActorVars, after: ActorVars, policy: AckFlushPolicy) {
    after.groups > before.groups && after.groups >= FlushEvery(policy)
  }

  function AfterFlush(v: ActorVars): ActorVars {
    v.(acks := v.acks.(pendingDurable := None), groups := 0)
  }

  class Actor {
    const coordinator: AckCoordinator
    const source: BufferSource
    const dryRun: bool
    const policy: AckFlushPolicy
    var inFlight: nat
    var lastAckSent: Option<u64>
    var groupsSinceFlush: nat

    constructor (coordinator: AckCoordinator, source: BufferSource, dryRun: bool, policy: AckFlushPolicy)
      ensures this.coordinator == coordinator && this.source == source
      ensures this.dryRun == dryRun && this.policy == policy
      ensures Vars() == ActorVars(coordinator.Value(), 0, source.lastAcked, 0, source.Acks())
    {
      this.coordinator := coordinator;
      this.source := source;
      this.dryRun := dryRun;
      this.policy := policy;
      inFlight := 0;
      lastAckSent := source.lastAcked;
      groupsSinceFlush := 0;
    }

    ghost function Vars(): ActorVars
      reads this, coordinator, source
    {
      ActorVars(coordinator.Value(), inFlight, lastAckSent, groupsSinceFlush, source.Acks())
    }

    /** The completion arm for one committed range. `consumerOk` is the answer a flush would get. */
    method OnCommitted(low: u64, high: u64, consumerOk: bool) returns (ok: bool)
      requires inFlight > 0
      modifies this, coordinator, source
      ensures AfterCommit(old(Vars()), low, high, dryRun).None? ==> !ok && Vars() == old(Vars())
      ensures AfterCommit(old(Vars()), low, high, dryRun).Some? ==>
                var after := AfterCommit(old(Vars()), low, high, dryRun).value;
                if FlushDue(old(Vars()), after, policy) then
                  && ok == consumerOk
                  && Vars() == (if consumerOk then AfterFlush(after) else after)
                  && source.manifest == (if consumerOk then after.acks.pendingDurable else old(source.manifest))
                else ok && Vars() == after && source.manifest == old(source.manifest)
    {
      var error := coordinator.MarkCommitted(low, high);
      if error.Some? {
        return false;
      }
      coordinator.AdvanceFrontier();
      inFlight := inFlight - 1;
      var frontier := coordinator.ackedFrontier;
      if !dryRun && frontier.Some? {
        var f := frontier.value;
        var shouldAck := match lastAckSent case Some(prev) => f > prev case None => true;
        if shouldAck {
          source.AckThrough(f);
          lastAckSent := Some(f);
          groupsSinceFlush := groupsSinceFlush + 1;
          var shouldFlush :=
            match policy
            case EveryCommitGroup => true
            case EveryN(n) => groupsSinceFlush >= Max(n, 1);
          if shouldFlush {
            var flushed := source.FlushAcks(consumerOk);
            if !flushed {
              return false;
            }
            groupsSinceFlush := 0;
          }
        }
      }
      return true;
    }
  }
}
