/** Decimal numerals as printed text, and the order of text. */
module Decimals {
  import opened Prelude

  const ZERO: u8 := 48

  predicate IsDigit(b: u8) {
    48 <= b <= 57
  }

  /** The plain decimal numeral. */
  function Decimal(n: nat): (t: Text)
    ensures |t| >= 1 && forall i :: 0 <= i < |t| ==> IsDigit(t[i])
  {
    if n < 10 then [ZERO + n] else Decimal(n / 10) + [ZERO + n % 10]
  }

  function Power10(w: nat): (p: nat)
    ensures p >= 1
  {
    if w == 0 then 1 else 10 * Power10(w - 1)
  }

  function Zeros(k: nat): (t: Text)
    ensures |t| == k
  {
    if k == 0 then [] else [ZERO] + Zeros(k - 1)
  }

  /** The numeral, filled up with zeros on the left to at least `width` digits. */
  function Padded(n: nat, width: nat): Text {
    if |Decimal(n)| < width then Zeros(width - |Decimal(n)|) + Decimal(n) else Decimal(n)
  }

  /** What a numeral says; any digit string has a value. */
  function Value(t: Text): nat
    requires forall i :: 0 <= i < |t| ==> IsDigit(t[i])
  {
    if t == [] then 0 else assert IsDigit(t[|t| - 1]); Value(t[..|t| - 1]) * 10 + (t[|t| - 1] - ZERO)
  }

  lemma {:induction false} ValueDecimal(n: nat)
    ensures Value(Decimal(n)) == n
  {
    if n >= 10 {
      ValueDecimal(n / 10);
      assert Decimal(n)[..|Decimal(n)| - 1] == Decimal(n / 10);
    } else {
      assert Decimal(n)[..0] == [];
      assert Value([]) == 0;
    }
  }

  /** Different numbers have different numerals. */
  lemma DecimalInjective(a: nat, b: nat)
    requires Decimal(a) == Decimal(b)
    ensures a == b
  {
    ValueDecimal(a);
    ValueDecimal(b);
  }

  // ---------------------------------------------------------------------
  // Fixed width
  // ---------------------------------------------------------------------

  /** The last `width` digits. */
  function Fixed(n: nat, width: nat): (t: Text)
    ensures |t| == width && forall i :: 0 <= i < |t| ==> IsDigit(t[i])
  {
    if width == 0 then [] else Fixed(n / 10, width - 1) + [ZERO + n % 10]
  }

  lemma {:induction false} FixedZero(width: nat)
    ensures Fixed(0, width) == Zeros(width)
  {
    if width > 0 {
      FixedZero(width - 1);
      ZerosEnd(width - 1);
    }
  }

  lemma {:induction false} ZerosEnd(k: nat)
    ensures Zeros(k) + [ZERO] == [ZERO] + Zeros(k)
  {
    if k > 0 {
      ZerosEnd(k - 1);
      assert Zeros(k) + [ZERO] == [ZERO] + (Zeros(k - 1) + [ZERO]);
    }
  }

  /** A number that fits is printed with exactly `width` digits. */
  lemma {:induction false} PaddedIsFixed(n: nat, width: nat)
    requires n < Power10(width) && width >= 1
    ensures Padded(n, width) == Fixed(n, width) && |Padded(n, width)| == width
    decreases width
  {
    if width == 1 {
      assert Power10(1) == 10 * Power10(0);
      assert Fixed(n, 1) == Fixed(n / 10, 0) + [ZERO + n % 10];
    } else if n < 10 {
      FixedZero(width - 1);
      assert Fixed(n, width) == Fixed(0, width - 1) + [ZERO + n];
    } else {
      PaddedIsFixed(n / 10, width - 1);
      var d := Decimal(n / 10);
      assert Decimal(n) == d + [ZERO + n % 10];
      if |d| < width - 1 {
        assert Zeros(width - 1 - |d|) + (d + [ZERO + n % 10]) == (Zeros(width - 1 - |d|) + d) + [ZERO + n % 10];
      }
    }
  }

  // ---------------------------------------------------------------------
  // Order
  // ---------------------------------------------------------------------

  /** Byte-wise lexicographic order. */
  predicate Before(a: Text, b: Text) {
    b != [] && (a == [] || a[0] < b[0] || (a[0] == b[0] && Before(a[1..], b[1..])))
  }

  lemma {:induction false} BeforeIrreflexive(a: Text)
    ensures !Before(a, a)
  {
    if a != [] {
      BeforeIrreflexive(a[1..]);
    }
  }

  lemma {:induction false} BeforeAsymmetric(a: Text, b: Text)
    requires Before(a, b)
    ensures !Before(b, a)
  {
    if a != [] && a[0] == b[0] {
      BeforeAsymmetric(a[1..], b[1..]);
    }
  }

  /** The first difference decides, whatever follows it. */
  lemma {:induction false} BeforeAppend(a: Text, b: Text, c: Text, d: Text)
    requires Before(a, b) && |a| == |b|
    ensures Before(a + c, b + d)
  {
    assert (a + c)[0] == a[0] && (b + d)[0] == b[0];
    if a[0] == b[0] {
      BeforeAppend(a[1..], b[1..], c, d);
      assert (a + c)[1..] == a[1..] + c && (b + d)[1..] == b[1..] + d;
    }
  }

  /** A common front part does not matter. */
  lemma {:induction false} BeforePrefix(p: Text, a: Text, b: Text)
    requires Before(a, b)
    ensures Before(p + a, p + b)
  {
    if p == [] {
      assert p + a == a && p + b == b;
    } else {
      BeforePrefix(p[1..], a, b);
      assert (p + a)[1..] == p[1..] + a && (p + b)[1..] == p[1..] + b;
    }
  }

  /** Fixed-width numerals are in the order of their numbers. */
  lemma {:induction false} FixedBefore(a: nat, b: nat, width: nat)
    requires a < b < Power10(width)
    ensures Before(Fixed(a, width), Fixed(b, width))
  {
    if a / 10 < b / 10 {
      FixedBefore(a / 10, b / 10, width - 1);
      BeforeAppend(Fixed(a / 10, width - 1), Fixed(b / 10, width - 1), [ZERO + a % 10], [ZERO + b % 10]);
    } else {
      assert Before([ZERO + a % 10], [ZERO + b % 10]);
      BeforePrefix(Fixed(a / 10, width - 1), [ZERO + a % 10], [ZERO + b % 10]);
    }
  }
}
