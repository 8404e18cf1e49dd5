/** Small shared vocabulary: optional values, the JavaScript `Math` helpers the
    engines use, and left-to-right sums and counts (the order in which the
    source's `for`/`forEach` loops accumulate). */
module Common {

  /** A field that a record may or may not carry (`x?: number` in the source). */
  datatype Option<+T> = None | Some(value: T)

  /** `x || 0`: an absent value (or a zero) reads as zero. */
  function OrZero(o: Option<real>): (r: real)
    ensures o.None? ==> r == 0.0
    ensures o.Some? ==> r == o.value
  {
    match o
    case None => 0.0
    case Some(x) => x
  }

  /** `Math.max` on two finite numbers. */
  function Max(a: real, b: real): (r: real)
    ensures r >= a && r >= b
    ensures r == a || r == b
  {
    if a >= b then a else b
  }

  /** `Math.min` on two finite numbers. */
  function Min(a: real, b: real): (r: real)
    ensures r <= a && r <= b
    ensures r == a || r == b
  {
    if a <= b then a else b
  }

  /** `Math.abs`. */
  function Abs(x: real): (r: real)
    ensures r >= 0.0
    ensures r == x || r == -x
  {
    if x < 0.0 then -x else x
  }

  /** Sign rules for products, stated once for the non-linear steps of the proofs. */
  lemma MulPositive(a: real, b: real)
    requires a > 0.0 && b > 0.0
    ensures a * b > 0.0
  {
  }

  lemma MulNonNegative(a: real, b: real)
    requires a >= 0.0 && b >= 0.0
    ensures a * b >= 0.0
  {
  }

  lemma MulMonotone(a: real, b: real, c: real)
    requires a <= b && c >= 0.0
    ensures a * c <= b * c
  {
    MulNonNegative(b - a, c);
  }

  /** Multiplication distributes over a sum. */
  lemma Distribute(c: real, a: real, b: real)
    ensures c * (a + b) == c * a + c * b
  {
  }

  /** A fraction `u` in [0, 1) of a positive `d` stays in [0, d). */
  lemma FractionBelow(u: real, d: real)
    requires 0.0 <= u < 1.0 && d > 0.0
    ensures 0.0 <= u * d < d
  {
    assert d - u * d == (1.0 - u) * d;
    MulPositive(1.0 - u, d);
  }

  /** 2^n. */
  function Pow2(n: nat): (r: nat)
    ensures r >= 1
  {
    if n == 0 then 1 else 2 * Pow2(n - 1)
  }

  lemma {:induction false} Pow2Monotone(m: nat, n: nat)
    requires m <= n
    ensures Pow2(m) <= Pow2(n)
  {
    if m < n {
      Pow2Monotone(m, n - 1);
    }
  }

  lemma {:induction false} Pow2Add(a: nat, b: nat)
    ensures Pow2(a + b) == Pow2(a) * Pow2(b)
  {
    if b > 0 {
      Pow2Add(a, b - 1);
      assert Pow2(a + b) == 2 * Pow2(a + b - 1);
    }
  }

  /** The two powers that bound the bisection loops. */
  lemma Pow2Values()
    ensures Pow2(30) == 1073741824
    ensures Pow2(37) == 137438953472
  {
    assert Pow2(5) == 32;
    assert Pow2(2) == 4;
    Pow2Add(5, 5);
    Pow2Add(10, 10);
    Pow2Add(20, 10);
    Pow2Add(30, 5);
    Pow2Add(35, 2);
  }

  /** The width of an interval of width `span` after `n` halvings. */
  function Halved(span: real, n: nat): real
  {
    if n == 0 then span else Halved(span, n - 1) / 2.0
  }

  /** Halving `n` times divides by 2^n. */
  lemma {:induction false} HalvedTimesPow2(span: real, n: nat)
    ensures Halved(span, n) * (Pow2(n) as real) == span
  {
    if n > 0 {
      HalvedTimesPow2(span, n - 1);
      assert Pow2(n) as real == 2.0 * (Pow2(n - 1) as real);
    }
  }

  /** While `n` halvings of `span` still exceed `tol`, 2^n * tol < span. */
  lemma HalvingBound(span: real, n: nat, tol: real)
    requires 0.0 < tol < Halved(span, n)
    ensures (Pow2(n) as real) * tol < span
  {
    HalvedTimesPow2(span, n);
    MulPositive(Pow2(n) as real, Halved(span, n) - tol);
  }

  /** Sum of a sequence, accumulated from the left as `total += x` does. */
  function Sum(s: seq<real>): real
  {
    if s == [] then 0.0 else Sum(s[..|s| - 1]) + s[|s| - 1]
  }

  /** Appending one element adds it to the sum: the step of every accumulating loop. */
  lemma SumSnoc(s: seq<real>, x: real)
    ensures Sum(s + [x]) == Sum(s) + x
  {
    assert (s + [x])[..|s|] == s;
  }

  /** A prefix one longer adds the next element. */
  lemma SumPrefixStep(s: seq<real>, i: nat)
    requires i < |s|
    ensures Sum(s[..i + 1]) == Sum(s[..i]) + s[i]
  {
    assert s[..i + 1] == s[..i] + [s[i]];
    SumSnoc(s[..i], s[i]);
  }

  /** Pointwise smaller sequences have a smaller sum. */
  lemma {:induction false} SumMonotone(s: seq<real>, t: seq<real>)
    requires |s| == |t|
    requires forall i :: 0 <= i < |s| ==> s[i] <= t[i]
    ensures Sum(s) <= Sum(t)
  {
    if s != [] {
      SumMonotone(s[..|s| - 1], t[..|t| - 1]);
    }
  }

  /** A sum of non-negative terms is non-negative. */
  lemma {:induction false} SumNonNegative(s: seq<real>)
    requires forall i :: 0 <= i < |s| ==> s[i] >= 0.0
    ensures Sum(s) >= 0.0
  {
    if s != [] {
      SumNonNegative(s[..|s| - 1]);
    }
  }

  /** A sum of zeros is zero. */
  lemma {:induction false} SumZero(s: seq<real>)
    requires forall i :: 0 <= i < |s| ==> s[i] == 0.0
    ensures Sum(s) == 0.0
  {
    if s != [] {
      SumZero(s[..|s| - 1]);
    }
  }

  /** Sums split over concatenation. */
  lemma {:induction false} SumAppend(s: seq<real>, t: seq<real>)
    ensures Sum(s + t) == Sum(s) + Sum(t)
  {
    if t == [] {
      assert s + t == s;
    } else {
      var t' := t[..|t| - 1];
      assert s + t == (s + t') + [t[|t| - 1]];
      SumAppend(s, t');
      SumSnoc(s + t', t[|t| - 1]);
      SumSnoc(t', t[|t| - 1]);
      assert t' + [t[|t| - 1]] == t;
    }
  }

  /** Sum of two pointwise-added sequences. */
  lemma {:induction false} SumLinear(s: seq<real>, t: seq<real>, u: seq<real>, a: real, b: real)
    requires |s| == |t| == |u|
    requires forall i :: 0 <= i < |u| ==> u[i] == a * s[i] + b * t[i]
    ensures Sum(u) == a * Sum(s) + b * Sum(t)
  {
    if u != [] {
      var n := |u| - 1;
      SumLinear(s[..n], t[..n], u[..n], a, b);
    }
  }

  /** Number of elements of `s` satisfying `p`, counted from the left. */
  function CountIf<T>(s: seq<T>, p: T -> bool): (n: nat)
    ensures n <= |s|
  {
    if s == [] then 0 else CountIf(s[..|s| - 1], p) + (if p(s[|s| - 1]) then 1 else 0)
  }

  lemma CountIfPrefixStep<T>(s: seq<T>, p: T -> bool, i: nat)
    requires i < |s|
    ensures CountIf(s[..i + 1], p) == CountIf(s[..i], p) + (if p(s[i]) then 1 else 0)
  {
    assert s[..i + 1][..i] == s[..i];
  }

  /** Three predicates that split every element exactly one way split the count. */
  lemma {:induction false} CountIfPartition<T>(s: seq<T>, p: T -> bool, q: T -> bool, r: T -> bool)
    requires forall x :: x in s ==> (if p(x) then 1 else 0) + (if q(x) then 1 else 0) + (if r(x) then 1 else 0) == 1
    ensures CountIf(s, p) + CountIf(s, q) + CountIf(s, r) == |s|
  {
    if s != [] {
      CountIfPartition(s[..|s| - 1], p, q, r);
      assert s[|s| - 1] in s;
    }
  }
}
