/**
 * The coordinator as the actor drives it: single-sequence ranges handed out in order.
 * Under that use no registration or mark is ever rejected.
 */
module PipelineShape {
  import opened Prelude
  import opened AckCoordinators
  import opened Pipeline

  /** The first sequence not covered by the frontier. */
  function Base(c: Coordinator, first: nat): nat {
    match c.frontier
    case Some(f) => f + 1
    case None => first
  }

  /** One single-sequence range per sequence from the base up to the source's cursor. */
  predicate Lined(c: Coordinator, first: nat, cursor: nat) {
    && first <= Base(c, first) <= cursor <= U64_MAX + 1
    && |c.pending| == cursor - Base(c, first)
    && (forall i :: 0 <= i < |c.pending| ==>
          c.pending[i].low == Base(c, first) + i && c.pending[i].high == Base(c, first) + i)
    && (c.initial.Some? ==> c.initial.value + 1 == first)
  }

  /** The coordinator after any use by the actor. */
  predicate Shaped(c: Coordinator, first: nat, cursor: nat) {
    match c.lastHigh
    case None =>
      && Lined(c, first, cursor)
      && cursor == first && c.frontier == None
      && c.baselineFixed == c.initial.Some? && c.baseline == c.initial
    case Some(h) =>
      && Lined(c, first, cursor)
      && h + 1 == cursor && first < cursor
      && c.baselineFixed
      && (if first == 0 then c.baseline == None else c.baseline.Some? && c.baseline.value + 1 == first)
  }

  /** The sequences still waiting for a commit, in order. */
  function OpenSequences(pending: seq<PendingRange>): seq<u64> {
    if pending == [] then []
    else (if pending[0].committed then [] else [pending[0].low]) + OpenSequences(pending[1..])
  }

  lemma {:induction false} OpenAppend(a: seq<PendingRange>, b: seq<PendingRange>)
    ensures OpenSequences(a + b) == OpenSequences(a) + OpenSequences(b)
  {
    if a == [] {
      assert a + b == b;
    } else {
      assert (a + b)[1..] == a[1..] + b;
      OpenAppend(a[1..], b);
    }
  }

  lemma {:induction false} OpenMember(pending: seq<PendingRange>, q: u64) returns (i: nat)
    requires q in OpenSequences(pending)
    ensures i < |pending| && pending[i].low == q && !pending[i].committed
  {
    if !pending[0].committed && pending[0].low == q {
      i := 0;
    } else {
      i := OpenMember(pending[1..], q);
      i := i + 1;
    }
  }

  /** Marking an open range takes its sequence out of the open ones. */
  lemma OpenMark(pending: seq<PendingRange>, i: nat)
    requires i < |pending| && !pending[i].committed
    ensures multiset(OpenSequences(pending[i := pending[i].(committed := true)])) + multiset{pending[i].low}
         == multiset(OpenSequences(pending))
    ensures |OpenSequences(pending[i := pending[i].(committed := true)])| + 1 == |OpenSequences(pending)|
  {
    var marked := pending[i].(committed := true);
    var left, right := pending[..i], pending[i + 1..];
    assert pending == left + ([pending[i]] + right);
    assert pending[i := marked] == left + ([marked] + right);
    OpenAppend(left, [pending[i]] + right);
    OpenAppend(left, [marked] + right);
    OpenAppend([pending[i]], right);
    OpenAppend([marked], right);
    assert OpenSequences([pending[i]]) == [pending[i].low] + OpenSequences([pending[i]][1..]);
    assert OpenSequences([marked]) == [] + OpenSequences([marked][1..]);
  }

  lemma ShapedRegister(c: Coordinator, first: nat, cursor: nat)
    requires Shaped(c, first, cursor) && cursor <= U64_MAX
    ensures RegisterNext(c, cursor).Some?
    ensures Shaped(RegisterNext(c, cursor).value, first, cursor + 1)
    ensures RegisterNext(c, cursor).value.frontier == c.frontier
    ensures RegisterNext(c, cursor).value.pending == c.pending + [PendingRange(cursor, cursor, false)]
  {
    assert LowerBound(c.pending, cursor) == |c.pending|;
    assert LowerBound(c.pending, cursor + 1) == |c.pending|;
    assert !Overlaps(c.pending, cursor, cursor);
  }

  lemma OpenRegister(pending: seq<PendingRange>, q: u64)
    ensures OpenSequences(pending + [PendingRange(q, q, false)]) == OpenSequences(pending) + [q]
  {
    var r := PendingRange(q, q, false);
    OpenAppend(pending, [r]);
    assert OpenSequences([r]) == [r.low] + OpenSequences([r][1..]);
  }

  lemma ShapedMark(c: Coordinator, first: nat, cursor: nat, q: u64) returns (m: Coordinator)
    requires Shaped(c, first, cursor) && Base(c, first) <= q < cursor
    ensures Mark(c, q, q) == Ok(m) && Shaped(m, first, cursor)
    ensures m.frontier == c.frontier && m.initial == c.initial && q - Base(c, first) < |c.pending|
    ensures c.pending[q - Base(c, first)].low == q == c.pending[q - Base(c, first)].high
    ensures m.pending == c.pending[q - Base(c, first) := PendingRange(q, q, true)]
  {
    FoundAt(c.pending, q, q - Base(c, first));
    m := Mark(c, q, q).value;
  }

  lemma ShapedPop(c: Coordinator, first: nat, cursor: nat)
    requires Shaped(c, first, cursor) && Poppable(c)
    ensures Shaped(Pop(c), first, cursor) && Base(Pop(c), first) == Base(c, first) + 1
  {
  }

  /** The range right after the frontier, if there is one, still waits for its commit. */
  predicate HeadOpen(pending: seq<PendingRange>) {
    pending != [] ==> !pending[0].committed
  }

  /** Advancing drops committed ranges off the front and nothing else. */
  lemma {:induction false} ShapedAdvance(c: Coordinator, first: nat, cursor: nat) returns (k: nat)
    requires Shaped(c, first, cursor)
    ensures k <= |c.pending| && Advance(c).pending == c.pending[k..]
    ensures forall i :: 0 <= i < k ==> c.pending[i].committed
    ensures Shaped(Advance(c), first, cursor) && Base(Advance(c), first) == Base(c, first) + k
    ensures Advance(c).initial == c.initial && HeadOpen(Advance(c).pending)
    ensures k == 0 ==> Advance(c) == c
    decreases |c.pending|
  {
    if Poppable(c) {
      ShapedPop(c, first, cursor);
      var n := ShapedAdvance(Pop(c), first, cursor);
      k := n + 1;
      DropStep(c.pending, n);
    } else {
      k := 0;
    }
  }

  lemma DropStep(pending: seq<PendingRange>, n: nat)
    requires n + 1 <= |pending| && pending[0].committed && forall i :: 0 <= i < n ==> pending[1..][i].committed
    ensures pending[1..][n..] == pending[n + 1..]
    ensures forall i :: 0 <= i < n + 1 ==> pending[i].committed
  {
    forall i | 0 <= i < n + 1 ensures pending[i].committed {
      assert i > 0 ==> pending[i] == pending[1..][i - 1];
    }
  }

  lemma AllOpenClosed(pending: seq<PendingRange>)
    requires HeadOpen(pending) && OpenSequences(pending) == []
    ensures pending == []
  {
  }

  /** Dropping committed ranges off the front loses no open sequence. */
  lemma {:induction false} OpenDrop(pending: seq<PendingRange>, k: nat)
    requires k <= |pending| && forall i :: 0 <= i < k ==> pending[i].committed
    ensures OpenSequences(pending[k..]) == OpenSequences(pending)
  {
    if k > 0 {
      assert pending[k..] == pending[1..][k - 1..];
      OpenDrop(pending[1..], k - 1);
    }
  }
}
