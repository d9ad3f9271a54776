/** The budget's objects, as one task uses them with nothing in between. */
module ByteReservations {
  import opened Prelude
  import opened ByteBudget

  class StageCounter {
    var value: u64

    constructor ()
      ensures value == 0
    {
      value := 0;
    }
  }

  class SourceByteBudget {
    const capacity: u64
    var inFlight: u64

    constructor (capacity: u64)
      ensures this.capacity == capacity && inFlight == 0
    {
      this.capacity := capacity;
      inFlight := 0;
    }

    /** Claims the bytes if they fit now; a sum that does not fit 64 bits never does. */
    method TryReserve(bytes: u64) returns (r: ByteReservation?)
      modifies this
      ensures r != null <==> bytes == 0 || old(inFlight) + bytes <= capacity
      ensures r != null ==> fresh(r) && r.budget == this && r.held == bytes && r.stage == null
      ensures inFlight == old(inFlight) + (if r != null then bytes else 0)
    {
      if bytes == 0 {
        r := new ByteReservation(this, 0);
        return;
      }
      if inFlight + bytes > U64_MAX {
        return null;
      }
      if inFlight + bytes > capacity {
        return null;
      }
      inFlight := inFlight + bytes;
      r := new ByteReservation(this, bytes);
    }
  }

  class ByteReservation {
    const budget: SourceByteBudget
    var held: u64
    var stage: StageCounter?

    constructor (budget: SourceByteBudget, held: u64)
      ensures this.budget == budget && this.held == held && stage == null
    {
      this.budget := budget;
      this.held := held;
      stage := null;
    }

    /** Moves the held bytes from the attached counter to `next`; attaching the same one again changes nothing. */
    method AttachStage(next: StageCounter)
      modifies this, next, stage
      ensures stage == next && held == old(held)
      ensures next.value == if old(stage) == next then old(next.value) else Wrap(old(next.value) + held)
      ensures var prev := old(stage); prev != null && prev != next ==> prev.value == Wrap(old(prev.value) - held)
    {
      if stage != null && held > 0 {
        stage.value := Wrap(stage.value - held);
      }
      if held > 0 {
        next.value := Wrap(next.value + held);
      }
      stage := next;
    }

    /** Follows the count and the attached counter to the actual size, and notifies exactly when it shrank. */
    method ReconcileTo(actual: u64) returns (notified: bool)
      modifies this, budget, stage
      ensures held == actual && stage == old(stage)
      ensures budget.inFlight == Wrap(old(budget.inFlight) + (actual - old(held)))
      ensures stage != null ==> stage.value == Wrap(old(stage.value) + (actual - old(held)))
      ensures notified == (actual < old(held))
    {
      if actual == held {
        return false;
      }
      if actual < held {
        var delta := held - actual;
        budget.inFlight := Wrap(budget.inFlight - delta);
        if stage != null {
          stage.value := Wrap(stage.value - delta);
        }
        held := actual;
        return true;
      }
      var delta := actual - held;
      budget.inFlight := Wrap(budget.inFlight + delta);
      if stage != null {
        stage.value := Wrap(stage.value + delta);
      }
      held := actual;
      return false;
    }

    /** The drop: the attached counter first, then the in-flight count, then the notification. */
    method Drop() returns (notified: bool)
      modifies this, budget, stage
      ensures budget.inFlight == Wrap(old(budget.inFlight) - held) && held == old(held)
      ensures var prev := old(stage); prev != null ==> prev.value == Wrap(old(prev.value) - held)
      ensures notified == (held > 0)
    {
      if held > 0 {
        if stage != null {
          stage.value := Wrap(stage.value - held);
          stage := null;
        }
        budget.inFlight := Wrap(budget.inFlight - held);
        return true;
      }
      return false;
    }
  }
}
