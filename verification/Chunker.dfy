/**
 * Greedy chunking of a list of weighted records, and why no order-preserving split within the
 * same limits has fewer chunks.
 */
module Chunker {
  import opened Sequences

  /** At least one row and one byte are always allowed. */
  datatype Bounds = Bounds(rows: nat, bytes: nat)

  predicate Fits<T(!new)>(b: Bounds, size: T -> nat, chunk: seq<T>) {
    |chunk| <= b.rows && Total(size, chunk) <= b.bytes
  }

  /** Within the limits, or a single record. */
  predicate Allowed<T(!new)>(b: Bounds, size: T -> nat, chunk: seq<T>) {
    |chunk| <= 1 || Fits(b, size, chunk)
  }

  ghost predicate AllAllowed<T(!new)>(b: Bounds, size: T -> nat, chunks: seq<seq<T>>) {
    forall i :: 0 <= i < |chunks| ==> Allowed(b, size, chunks[i])
  }

  /** The next record starts a new chunk. */
  predicate Flushes<T(!new)>(b: Bounds, size: T -> nat, current: seq<T>, x: T) {
    current != [] && (|current| + 1 > b.rows || Total(size, current) + size(x) > b.bytes)
  }

  /** The chunks the loop makes of `rest` when `current` is already gathered. */
  function Greedy<T(!new)>(b: Bounds, size: T -> nat, current: seq<T>, rest: seq<T>): seq<seq<T>>
    decreases |rest|
  {
    if rest == [] then (if current == [] then [] else [current])
    else if Flushes(b, size, current, rest[0]) then [current] + Greedy(b, size, [rest[0]], rest[1..])
    else Greedy(b, size, current + [rest[0]], rest[1..])
  }

  /** Concatenated, the chunks are the records in their order. */
  lemma {:induction false} GreedyCovers<T(!new)>(b: Bounds, size: T -> nat, current: seq<T>, rest: seq<T>)
    ensures Flatten(Greedy(b, size, current, rest)) == current + rest
    decreases |rest|
  {
    if rest == [] {
      assert current != [] ==> Flatten([current]) == current + Flatten([current][1..]);
    } else if Flushes(b, size, current, rest[0]) {
      GreedyCovers(b, size, [rest[0]], rest[1..]);
      var more := Greedy(b, size, [rest[0]], rest[1..]);
      assert ([current] + more)[1..] == more;
      assert [rest[0]] + rest[1..] == rest;
    } else {
      GreedyCovers(b, size, current + [rest[0]], rest[1..]);
      assert current + [rest[0]] + rest[1..] == current + rest;
    }
  }

  /** Every chunk has a record, and stays within the limits unless it has just one. */
  lemma {:induction false} GreedyAllowed<T(!new)>(b: Bounds, size: T -> nat, current: seq<T>, rest: seq<T>)
    requires Allowed(b, size, current)
    ensures AllAllowed(b, size, Greedy(b, size, current, rest))
    ensures forall i :: 0 <= i < |Greedy(b, size, current, rest)| ==> Greedy(b, size, current, rest)[i] != []
    decreases |rest|
  {
    if rest != [] {
      if Flushes(b, size, current, rest[0]) {
        GreedyAllowed(b, size, [rest[0]], rest[1..]);
      } else {
        TotalSnoc(size, current, rest[0]);
        GreedyAllowed(b, size, current + [rest[0]], rest[1..]);
      }
    }
  }

  // ---------------------------------------------------------------------
  // Minimality
  // ---------------------------------------------------------------------

  /** The first chunk is as long as it may be; the rest is chunked the same way. */
  lemma {:induction false} GreedyHead<T(!new)>(b: Bounds, size: T -> nat, current: seq<T>, rest: seq<T>)
      returns (k: nat)
    requires current != [] && Allowed(b, size, current)
    ensures k <= |rest|
    ensures Greedy(b, size, current, rest) == [current + rest[..k]] + Greedy(b, size, [], rest[k..])
    ensures k < |rest| ==> !Fits(b, size, current + rest[..k + 1])
    decreases |rest|
  {
    if rest == [] {
      k := 0;
      assert current + rest[..0] == current;
    } else if Flushes(b, size, current, rest[0]) {
      k := 0;
      assert current + rest[..0] == current && rest[0..] == rest && [] + [rest[0]] == [rest[0]];
      assert rest[..1] == [rest[0]];
      TotalSnoc(size, current, rest[0]);
    } else {
      TotalSnoc(size, current, rest[0]);
      var n := GreedyHead(b, size, current + [rest[0]], rest[1..]);
      k := n + 1;
      HeadShift(current, rest, n);
    }
  }

  lemma HeadShift<T>(current: seq<T>, rest: seq<T>, n: nat)
    requires n + 1 <= |rest|
    ensures current + [rest[0]] + rest[1..][..n] == current + rest[..n + 1]
    ensures rest[1..][n..] == rest[n + 1..]
    ensures n + 1 < |rest| ==> current + [rest[0]] + rest[1..][..n + 1] == current + rest[..n + 2]
  {
  }

  /** A part of a chunk within the limits is within the limits. */
  lemma PartFits<T(!new)>(b: Bounds, size: T -> nat, before: seq<T>, part: seq<T>, after: seq<T>)
    requires Fits(b, size, before + part + after)
    ensures Fits(b, size, part)
  {
    TotalAppend(size, before + part, after);
    TotalAppend(size, before, part);
  }

  /** The split of what remains when the first `d` records are dropped. */
  function Drop<T>(chunks: seq<seq<T>>, d: nat): (r: seq<seq<T>>)
    requires d <= |Flatten(chunks)|
    ensures |r| <= |chunks|
    decreases |chunks|
  {
    if d == 0 then chunks
    else if |chunks[0]| <= d then Drop(chunks[1..], d - |chunks[0]|)
    else [chunks[0][d..]] + chunks[1..]
  }

  lemma {:induction false} DropSplits<T(!new)>(b: Bounds, size: T -> nat, chunks: seq<seq<T>>, d: nat)
    requires d <= |Flatten(chunks)| && AllAllowed(b, size, chunks)
    ensures Flatten(Drop(chunks, d)) == Flatten(chunks)[d..] && AllAllowed(b, size, Drop(chunks, d))
    decreases |chunks|
  {
    if d > 0 {
      var first, rest := chunks[0], chunks[1..];
      if |first| <= d {
        DropSplits(b, size, rest, d - |first|);
        assert Flatten(rest)[d - |first|..] == Flatten(chunks)[d..];
      } else {
        var r := [first[d..]] + rest;
        assert r[1..] == rest;
        assert first[d..] + Flatten(rest) == (first + Flatten(rest))[d..];
        if |first| > 1 {
          assert first == first[..d] + first[d..] + [];
          PartFits(b, size, first[..d], first[d..], []);
        }
      }
    }
  }

  /** The first chunk of any allowed split is no longer than the greedy one. */
  lemma FirstNoLonger<T(!new)>(b: Bounds, size: T -> nat, s: seq<T>, p: nat, n: nat)
    requires 1 <= n <= |s| && p <= |s| && Allowed(b, size, s[..p])
    requires n < |s| ==> !Fits(b, size, s[..n + 1])
    ensures p <= n
  {
    if p > n {
      assert s[..p] == [] + s[..n + 1] + s[n + 1..p];
      PartFits(b, size, [], s[..n + 1], s[n + 1..p]);
    }
  }

  /** No split of the same records into allowed chunks, in order, has fewer chunks. */
  lemma {:induction false} GreedyMinimal<T(!new)>(b: Bounds, size: T -> nat, s: seq<T>, chunks: seq<seq<T>>)
    requires Flatten(chunks) == s && AllAllowed(b, size, chunks)
    ensures |Greedy(b, size, [], s)| <= |chunks|
    decreases |s|, |chunks|
  {
    if s != [] {
      var first, rest := chunks[0], chunks[1..];
      var n := FirstGreedy(b, size, s);
      assert s[..|first|] == first;
      FirstNoLonger(b, size, s, |first|, n);
      assert Flatten(rest) == s[|first|..];
      DropSplits(b, size, rest, n - |first|);
      assert s[|first|..][n - |first|..] == s[n..];
      GreedyMinimal(b, size, s[n..], Drop(rest, n - |first|));
    }
  }

  lemma FirstGreedy<T(!new)>(b: Bounds, size: T -> nat, s: seq<T>) returns (n: nat)
    requires s != []
    ensures 1 <= n <= |s|
    ensures Greedy(b, size, [], s) == [s[..n]] + Greedy(b, size, [], s[n..])
    ensures n < |s| ==> !Fits(b, size, s[..n + 1])
  {
    assert [] + [s[0]] == [s[0]];
    var k := GreedyHead(b, size, [s[0]], s[1..]);
    n := k + 1;
    assert [s[0]] + s[1..][..k] == s[..n] && s[1..][k..] == s[n..];
    assert n < |s| ==> [s[0]] + s[1..][..k + 1] == s[..n + 1];
  }

  /** No chunk but the last could have taken the record that follows it. */
  lemma {:induction false} GreedyFills<T(!new)>(b: Bounds, size: T -> nat, s: seq<T>, i: nat)
    requires i + 1 < |Greedy(b, size, [], s)|
    ensures var g := Greedy(b, size, [], s); g[i] != [] && g[i + 1] != [] && !Fits(b, size, g[i] + [g[i + 1][0]])
    decreases |s|
  {
    var g := Greedy(b, size, [], s);
    var n := FirstGreedy(b, size, s);
    var rest := Greedy(b, size, [], s[n..]);
    assert g == [s[..n]] + rest;
    if i == 0 {
      var m := FirstGreedy(b, size, s[n..]);
      assert rest[0] == s[n..][..m];
      assert s[..n] + [s[n]] == s[..n + 1];
    } else {
      GreedyFills(b, size, s[n..], i - 1);
      assert g[i] == rest[i - 1] && g[i + 1] == rest[i];
    }
  }
}
