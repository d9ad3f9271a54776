/** Sequences used as channels, worker slots and lists of parts. */
module Sequences {
  /** `s` with the element at `i` taken out. */
  function Without<T>(s: seq<T>, i: nat): (r: seq<T>)
    requires i < |s|
    ensures |r| == |s| - 1
    ensures multiset(r) + multiset{s[i]} == multiset(s)
    ensures forall x :: x in r ==> x in s
  {
    assert s == s[..i] + [s[i]] + s[i + 1..];
    s[..i] + s[i + 1..]
  }

  function Flatten<T>(parts: seq<seq<T>>): seq<T> {
    if parts == [] then [] else parts[0] + Flatten(parts[1..])
  }

  lemma {:induction false} FlattenMember<T>(parts: seq<seq<T>>, i: nat, x: T)
    requires i < |parts| && x in parts[i]
    ensures x in Flatten(parts)
  {
    if i > 0 {
      assert parts[1..][i - 1] == parts[i];
      FlattenMember(parts[1..], i - 1, x);
    }
  }

  lemma {:induction false} FlattenSource<T>(parts: seq<seq<T>>, x: T) returns (i: nat)
    requires x in Flatten(parts)
    ensures i < |parts| && x in parts[i]
  {
    if x in parts[0] {
      i := 0;
    } else {
      i := FlattenSource(parts[1..], x);
      i := i + 1;
    }
  }

  lemma {:induction false} FlattenSnoc<T>(parts: seq<seq<T>>, last: seq<T>)
    ensures Flatten(parts + [last]) == Flatten(parts) + last
  {
    if parts == [] {
      assert [] + [last] == [last] && [last][1..] == [];
      assert Flatten([last]) == last + Flatten([last][1..]);
    } else {
      assert (parts + [last])[1..] == parts[1..] + [last];
      FlattenSnoc(parts[1..], last);
    }
  }

  /** Where part `i` starts in the flattened sequence. */
  function Offset<T>(parts: seq<seq<T>>, i: nat): nat
    requires i <= |parts|
  {
    if i == 0 then 0 else Offset(parts, i - 1) + |parts[i - 1]|
  }

  lemma {:induction false} OffsetGrows<T>(parts: seq<seq<T>>, i: nat, n: nat)
    requires i <= n <= |parts|
    ensures Offset(parts, i) <= Offset(parts, n)
  {
    if i < n {
      OffsetGrows(parts, i, n - 1);
    }
  }

  lemma {:induction false} FlattenLength<T>(parts: seq<seq<T>>, n: nat)
    requires n <= |parts|
    ensures |Flatten(parts[..n])| == Offset(parts, n)
  {
    if n > 0 {
      FlattenLength(parts, n - 1);
      assert parts[..n] == parts[..n - 1] + [parts[n - 1]];
      FlattenSnoc(parts[..n - 1], parts[n - 1]);
    }
  }

  /** Element `j` of part `i` comes after all the parts before it. */
  lemma {:induction false} FlattenAt<T>(parts: seq<seq<T>>, n: nat, i: nat, j: nat)
    requires i < n <= |parts| && j < |parts[i]|
    ensures Offset(parts, i) + j < |Flatten(parts[..n])| && Flatten(parts[..n])[Offset(parts, i) + j] == parts[i][j]
  {
    FlattenLength(parts, n - 1);
    assert parts[..n] == parts[..n - 1] + [parts[n - 1]];
    FlattenSnoc(parts[..n - 1], parts[n - 1]);
    if i < n - 1 {
      FlattenAt(parts, n - 1, i, j);
    }
  }

  lemma FlattenHas<T>(parts: seq<seq<T>>, i: nat, j: nat)
    requires i < |parts| && j < |parts[i]|
    ensures Offset(parts, i) + j < |Flatten(parts)| && Flatten(parts)[Offset(parts, i) + j] == parts[i][j]
  {
    FlattenAt(parts, |parts|, i, j);
    assert parts[..|parts|] == parts;
  }

  lemma {:induction false} FlattenLocate<T>(parts: seq<seq<T>>, n: nat, k: nat) returns (i: nat, j: nat)
    requires n <= |parts| && k < Offset(parts, n)
    ensures i < n && j < |parts[i]| && Offset(parts, i) + j == k
  {
    if k >= Offset(parts, n - 1) {
      i, j := n - 1, k - Offset(parts, n - 1);
    } else {
      i, j := FlattenLocate(parts, n - 1, k);
    }
  }

  /** Positions come in the order of parts, then of elements. */
  lemma OffsetOrder<T>(parts: seq<seq<T>>, i: nat, j: nat, i': nat, j': nat)
    requires i < |parts| && i' < |parts| && j < |parts[i]| && j' < |parts[i']|
    requires Offset(parts, i) + j < Offset(parts, i') + j'
    ensures i < i' || (i == i' && j < j')
  {
    if i' < i {
      OffsetGrows(parts, i' + 1, i);
    }
  }

  function Total<T>(f: T -> nat, s: seq<T>): nat {
    if s == [] then 0 else f(s[0]) + Total(f, s[1..])
  }

  lemma {:induction false} TotalAppend<T>(f: T -> nat, a: seq<T>, b: seq<T>)
    ensures Total(f, a + b) == Total(f, a) + Total(f, b)
  {
    if a == [] {
      assert a + b == b;
    } else {
      assert (a + b)[1..] == a[1..] + b;
      TotalAppend(f, a[1..], b);
    }
  }

  lemma TotalSnoc<T>(f: T -> nat, s: seq<T>, x: T)
    ensures Total(f, s + [x]) == Total(f, s) + f(x)
  {
    TotalAppend(f, s, [x]);
    assert Total(f, [x]) == f(x) + Total(f, [x][1..]);
  }

  lemma {:induction false} TotalSplit<T>(f: T -> nat, s: seq<T>, i: nat)
    requires i < |s|
    ensures Total(f, s) == Total(f, s[..i]) + f(s[i]) + Total(f, s[i + 1..])
  {
    if i > 0 {
      TotalSplit(f, s[1..], i - 1);
      assert s[..i][1..] == s[1..][..i - 1] && s[1..][i..] == s[i + 1..];
    }
  }

  lemma TotalWithout<T>(f: T -> nat, s: seq<T>, i: nat)
    requires i < |s|
    ensures Total(f, Without(s, i)) + f(s[i]) == Total(f, s)
  {
    TotalSplit(f, s, i);
    TotalAppend(f, s[..i], s[i + 1..]);
  }

  lemma TotalUpdate<T>(f: T -> nat, s: seq<T>, i: nat, x: T)
    requires i < |s|
    ensures Total(f, s[i := x]) + f(s[i]) == Total(f, s) + f(x)
  {
    TotalWithout(f, s, i);
    TotalWithout(f, s[i := x], i);
    assert Without(s[i := x], i) == Without(s, i);
  }

  /** The parts that `f` makes of the elements, one after the other. */
  function Concat<S, T>(f: S -> seq<T>, s: seq<S>): seq<T> {
    if s == [] then [] else f(s[0]) + Concat(f, s[1..])
  }

  lemma {:induction false} ConcatAppend<S, T>(f: S -> seq<T>, a: seq<S>, b: seq<S>)
    ensures Concat(f, a + b) == Concat(f, a) + Concat(f, b)
  {
    if a == [] {
      assert a + b == b;
    } else {
      assert (a + b)[1..] == a[1..] + b;
      ConcatAppend(f, a[1..], b);
    }
  }

  lemma ConcatSnoc<S, T>(f: S -> seq<T>, s: seq<S>, x: S)
    ensures Concat(f, s + [x]) == Concat(f, s) + f(x)
  {
    ConcatAppend(f, s, [x]);
    assert Concat(f, [x]) == f(x) + Concat(f, [x][1..]);
  }

  /** One turn of a loop that appends what `f` makes of each element. */
  lemma ConcatNext<S, T>(f: S -> seq<T>, s: seq<S>, i: nat, before: seq<T>, out: seq<T>)
    requires i < |s| && out == before + Concat(f, s[..i])
    ensures out + f(s[i]) == before + Concat(f, s[..i + 1])
  {
    ConcatSnoc(f, s[..i], s[i]);
    assert s[..i + 1] == s[..i] + [s[i]];
  }
}
