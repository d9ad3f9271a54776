/** The check of a source's backpressure settings, and what it is for. */
module Backpressure {
  import opened Prelude
  import opened ByteBudget
  import opened BudgetAccounts

  datatype Settings = Settings(
    maxInflightBytes: u64,
    estimatedMaxBatchBytes: u64,
    multiplier: u32,
    maxInflightBatches: u32,
    fetchConcurrency: u32,
    decodeConcurrency: u32)

  datatype ConfigError = EstimateTooLarge | NoBatches | NoFetchers | NoDecoders

  function Validated(b: Settings): Option<ConfigError> {
    if b.estimatedMaxBatchBytes > b.maxInflightBytes then Some(EstimateTooLarge)
    else if b.maxInflightBatches == 0 then Some(NoBatches)
    else if b.fetchConcurrency == 0 then Some(NoFetchers)
    else if b.decodeConcurrency == 0 then Some(NoDecoders)
    else None
  }

  function LimitsOf(b: Settings): Limits {
    Limits(b.maxInflightBytes, b.estimatedMaxBatchBytes, b.multiplier)
  }

  /** A reserver of the estimate parked, or on its way, in a budget that holds and owes nothing. */
  predicate Waits(b: Settings, s: Budget, i: nat) {
    && Quiet(s) && i < |s.waiters| && !s.waiters[i].Finished?
    && s.waiters[i].bytes == b.estimatedMaxBatchBytes
  }

  /**
   * Settings are accepted exactly when the estimate fits the capacity and no stage is left without a
   * worker or a permit; the estimate is complained about before anything else.
   */
  lemma AcceptedExactly(b: Settings)
    ensures Validated(b).None? <==>
              && b.estimatedMaxBatchBytes <= b.maxInflightBytes
              && b.maxInflightBatches * b.fetchConcurrency * b.decodeConcurrency > 0
    ensures Validated(b) == Some(EstimateTooLarge) <==> b.estimatedMaxBatchBytes > b.maxInflightBytes
    ensures Validated(b) == Some(NoBatches) ==> b.maxInflightBatches == 0
    ensures Validated(b) == Some(NoFetchers) ==> b.fetchConcurrency == 0 < b.maxInflightBatches
    ensures Validated(b) == Some(NoDecoders) ==>
              b.decodeConcurrency == 0 < b.fetchConcurrency && 0 < b.maxInflightBatches
  {
    if b.maxInflightBatches > 0 && b.fetchConcurrency > 0 && b.decodeConcurrency > 0 {
      assert b.maxInflightBatches * b.fetchConcurrency > 0;
    }
  }

  /** With accepted settings the byte gate opens whenever the pipeline is empty. */
  lemma AcceptedAdmits(b: Settings, events: seq<Event>, s: Budget, i: nat) returns (more: seq<Event>, t: Budget)
    requires Validated(b).None? && b.estimatedMaxBatchBytes > 0
    requires Exec(LimitsOf(b), events) == Some(s) && Waits(b, s, i)
    ensures |more| <= 5 && Exec(LimitsOf(b), events + more) == Some(t) && Served(s, t, i, b.estimatedMaxBatchBytes)
  {
    more, t := QuietServes(LimitsOf(b), events, s, i);
  }

  /** A reserver still in line for more bytes than the capacity. */
  predicate Oversized(c: Limits, s: Budget, i: nat, bytes: nat) {
    i < |s.waiters| && !s.waiters[i].Finished? && s.waiters[i].bytes == bytes && c.capacity < bytes
  }

  lemma OversizedStays(c: Limits, s: Budget, i: nat, bytes: nat, e: Event)
    requires Oversized(c, s, i, bytes) && Enabled(c, s, e) && e != Cancel(i)
    ensures Oversized(c, Apply(c, s, e), i, bytes)
  {
  }

  /**
   * An estimate over the capacity, which the check rejects first, never gets through: in every run
   * a reserver of it stays in line until it is cancelled.
   */
  lemma {:induction false} RejectedNeverAdmits(b: Settings, events: seq<Event>, s: Budget, i: nat,
                                               more: seq<Event>, t: Budget)
    requires Validated(b) == Some(EstimateTooLarge)
    requires Exec(LimitsOf(b), events) == Some(s) && Oversized(LimitsOf(b), s, i, b.estimatedMaxBatchBytes)
    requires Exec(LimitsOf(b), events + more) == Some(t) && Cancel(i) !in more
    ensures Oversized(LimitsOf(b), t, i, b.estimatedMaxBatchBytes)
  {
    if more == [] {
      assert events + more == events;
    } else {
      var front, last := more[..|more| - 1], more[|more| - 1];
      var all := events + more;
      assert all[..|all| - 1] == events + front && all[|all| - 1] == last;
      var u := Exec(LimitsOf(b), events + front).value;
      RejectedNeverAdmits(b, events, s, i, front, u);
      OversizedStays(LimitsOf(b), u, i, b.estimatedMaxBatchBytes, last);
    }
  }
}
