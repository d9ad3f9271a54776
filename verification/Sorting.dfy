/** The stable sort by source coordinates that fixes a batch's row order. */
module Sorting {
  import opened Rows
  import opened Logs

  /** Lexicographic order of (sequence, entry, record). */
  predicate AtMost(a: Key, b: Key) {
    || a.sequence < b.sequence
    || (a.sequence == b.sequence && (a.entry < b.entry || (a.entry == b.entry && a.record <= b.record)))
  }

  predicate Ordered(s: seq<Record>) {
    forall i, j :: 0 <= i < j < |s| ==> AtMost(KeyOf(s[i]), KeyOf(s[j]))
  }

  predicate DistinctCoordinates(s: seq<Record>) {
    forall i, j :: 0 <= i < j < |s| ==> KeyOf(s[i]) != KeyOf(s[j])
  }

  /** `r` put after everything that may stay before it. */
  function Put(s: seq<Record>, r: Record): (t: seq<Record>)
    ensures |t| == |s| + 1
  {
    if s == [] || AtMost(KeyOf(s[|s| - 1]), KeyOf(r)) then s + [r]
    else Put(s[..|s| - 1], r) + [s[|s| - 1]]
  }

  function Sorted(s: seq<Record>): (t: seq<Record>)
    ensures |t| == |s|
  {
    if s == [] then [] else Put(Sorted(s[..|s| - 1]), s[|s| - 1])
  }

  lemma {:induction false} PutMembers(s: seq<Record>, r: Record)
    ensures multiset(Put(s, r)) == multiset(s) + multiset{r}
  {
    if s != [] && !AtMost(KeyOf(s[|s| - 1]), KeyOf(r)) {
      PutMembers(s[..|s| - 1], r);
      assert s == s[..|s| - 1] + [s[|s| - 1]];
    }
  }

  lemma {:induction false} PutOrdered(s: seq<Record>, r: Record)
    requires Ordered(s)
    ensures Ordered(Put(s, r))
  {
    if s != [] && !AtMost(KeyOf(s[|s| - 1]), KeyOf(r)) {
      var last, front := s[|s| - 1], s[..|s| - 1];
      PutOrdered(front, r);
      PutMembers(front, r);
      var t := Put(front, r);
      forall i | 0 <= i < |t| ensures AtMost(KeyOf(t[i]), KeyOf(last)) {
        assert t[i] in multiset(t);
        assert t[i] == r || t[i] in front;
      }
    }
  }

  /** Sorting keeps the records and puts them in order. */
  lemma {:induction false} SortedOrders(s: seq<Record>)
    ensures Ordered(Sorted(s)) && multiset(Sorted(s)) == multiset(s)
  {
    if s != [] {
      var front, last := s[..|s| - 1], s[|s| - 1];
      SortedOrders(front);
      PutOrdered(Sorted(front), last);
      PutMembers(Sorted(front), last);
      assert s == front + [last];
    }
  }

  /** The coordinates of a record as one number. */
  function Ordinal(r: Record): nat {
    (r.source.sequence * 0x1_0000_0000 + r.source.entry) * 0x1_0000_0000 + r.source.record
  }

  lemma OrdinalOrders(a: Record, b: Record)
    ensures AtMost(KeyOf(a), KeyOf(b)) <==> Ordinal(a) <= Ordinal(b)
  {
  }

  /** A sorted batch rises by sequence, within it by entry, within that by record. */
  lemma SortedRises(s: seq<Record>)
    ensures forall i, j :: 0 <= i < j < |s| ==> Ordinal(Sorted(s)[i]) <= Ordinal(Sorted(s)[j])
    ensures multiset(Sorted(s)) == multiset(s)
  {
    SortedOrders(s);
    forall i, j | 0 <= i < j < |s| ensures Ordinal(Sorted(s)[i]) <= Ordinal(Sorted(s)[j]) {
      OrdinalOrders(Sorted(s)[i], Sorted(s)[j]);
    }
  }

  /** The records with one key, in the order they come. */
  function WithKey(s: seq<Record>, k: Key): seq<Record> {
    if s == [] then []
    else WithKey(s[..|s| - 1], k) + (if KeyOf(s[|s| - 1]) == k then [s[|s| - 1]] else [])
  }

  lemma {:induction false} PutStable(s: seq<Record>, r: Record, k: Key)
    requires Ordered(s)
    ensures WithKey(Put(s, r), k) == WithKey(s, k) + (if KeyOf(r) == k then [r] else [])
  {
    if s == [] || AtMost(KeyOf(s[|s| - 1]), KeyOf(r)) {
      assert (s + [r])[..|s|] == s;
    } else {
      var last, front := s[|s| - 1], s[..|s| - 1];
      PutStable(front, r, k);
      assert Put(s, r)[..|s|] == Put(front, r);
    }
  }

  /** Records with equal coordinates keep their order. */
  lemma {:induction false} SortedStable(s: seq<Record>, k: Key)
    ensures WithKey(Sorted(s), k) == WithKey(s, k)
  {
    if s != [] {
      SortedStable(s[..|s| - 1], k);
      SortedOrders(s[..|s| - 1]);
      PutStable(Sorted(s[..|s| - 1]), s[|s| - 1], k);
    }
  }

  /** Records already in order stay as they are. */
  lemma {:induction false} SortedIdentity(s: seq<Record>)
    requires Ordered(s)
    ensures Sorted(s) == s
  {
    if s != [] {
      SortedIdentity(s[..|s| - 1]);
      assert s == s[..|s| - 1] + [s[|s| - 1]];
    }
  }

  lemma LastIsGreatest(s: seq<Record>, r: Record)
    requires Ordered(s) && s != [] && r in multiset(s)
    ensures AtMost(KeyOf(r), KeyOf(s[|s| - 1]))
  {
    var i :| 0 <= i < |s| && s[i] == r;
  }

  lemma MembersDiffer(s: seq<Record>, a: Record, b: Record)
    requires DistinctCoordinates(s) && a in s && b in s && KeyOf(a) == KeyOf(b)
    ensures a == b
  {
    var i :| 0 <= i < |s| && s[i] == a;
    var j :| 0 <= j < |s| && s[j] == b;
    assert i == j;
  }

  lemma SameLast(a: seq<Record>, b: seq<Record>)
    requires Ordered(a) && Ordered(b) && DistinctCoordinates(a) && multiset(a) == multiset(b) && a != [] && b != []
    ensures a[|a| - 1] == b[|b| - 1]
  {
    var x, y := a[|a| - 1], b[|b| - 1];
    assert x in multiset(b) && y in multiset(a);
    LastIsGreatest(a, y);
    LastIsGreatest(b, x);
    MembersDiffer(a, x, y);
  }

  lemma DropSame(a: seq<Record>, b: seq<Record>, x: Record)
    requires multiset(a + [x]) == multiset(b + [x])
    ensures multiset(a) == multiset(b)
  {
    assert multiset(a) == multiset(a + [x]) - multiset{x};
    assert multiset(b) == multiset(b + [x]) - multiset{x};
  }

  lemma FrontKeeps(s: seq<Record>, last: Record)
    requires s != [] && s[|s| - 1] == last && Ordered(s)
    ensures s == s[..|s| - 1] + [last] && Ordered(s[..|s| - 1])
    ensures DistinctCoordinates(s) ==> DistinctCoordinates(s[..|s| - 1])
  {
  }

  /** There is one order of records with distinct coordinates. */
  lemma {:induction false} OrderUnique(a: seq<Record>, b: seq<Record>)
    requires Ordered(a) && Ordered(b) && DistinctCoordinates(a) && multiset(a) == multiset(b)
    ensures a == b
  {
    assert |multiset(a)| == |a| && |multiset(b)| == |b|;
    if a != [] {
      SameLast(a, b);
      var x, front, front' := a[|a| - 1], a[..|a| - 1], b[..|b| - 1];
      FrontKeeps(a, x);
      FrontKeeps(b, x);
      DropSame(front, front', x);
      OrderUnique(front, front');
    }
  }

  lemma {:induction false} DistinctUnderPermutation(a: seq<Record>, b: seq<Record>)
    requires DistinctCoordinates(a) && multiset(a) == multiset(b)
    ensures DistinctCoordinates(b)
  {
    forall i, j | 0 <= i < j < |b| ensures KeyOf(b[i]) != KeyOf(b[j]) {
      if KeyOf(b[i]) == KeyOf(b[j]) {
        assert b[i] in multiset(b) && b[j] in multiset(b);
        MembersDiffer(a, b[i], b[j]);
        TwoCopies(b, i, j);
        OneCopy(a, b[i]);
      }
    }
  }

  lemma TwoCopies(s: seq<Record>, i: nat, j: nat)
    requires i < j < |s| && s[i] == s[j]
    ensures multiset(s)[s[i]] >= 2
  {
    assert s == s[..j] + [s[j]] + s[j + 1..];
    assert s[i] in s[..j];
  }

  lemma {:induction false} OneCopy(s: seq<Record>, r: Record)
    requires DistinctCoordinates(s)
    ensures multiset(s)[r] <= 1
  {
    if s != [] {
      var front, last := s[..|s| - 1], s[|s| - 1];
      assert s == front + [last];
      OneCopy(front, r);
      assert last !in front;
    }
  }

  /** Sorting forgets the order in which records with distinct coordinates arrived. */
  lemma SortedPermutation(a: seq<Record>, b: seq<Record>)
    requires DistinctCoordinates(a) && multiset(a) == multiset(b)
    ensures Sorted(a) == Sorted(b)
  {
    SortedOrders(a);
    SortedOrders(b);
    DistinctUnderPermutation(a, Sorted(a));
    OrderUnique(Sorted(a), Sorted(b));
  }
}
