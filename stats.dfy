/**
 * The numpy reductions and element-wise operations the PPG code relies on,
 * over exact real numbers: sum, mean, population variance, min, max, diff,
 * clip and Python's `int()` truncation.
 */
module Stats {

  /** np.sum */
  function Sum(s: seq<real>): real
  {
    if |s| == 0 then 0.0 else s[0] + Sum(s[1..])
  }

  /** np.mean; numpy yields NaN on an empty array, so the model asks for a sample. */
  function Mean(s: seq<real>): real
    requires |s| > 0
  {
    Sum(s) / |s| as real
  }

  /** s - c, element-wise */
  function Shift(s: seq<real>, c: real): seq<real>
  {
    seq(|s|, i requires 0 <= i < |s| => s[i] - c)
  }

  /** s / d, element-wise */
  function Scale(s: seq<real>, d: real): seq<real>
    requires d != 0.0
  {
    seq(|s|, i requires 0 <= i < |s| => s[i] / d)
  }

  /** The identity on reals; see Square. */
  function Same(x: real): real
  {
    x
  }

  /**
   * x squared. Written as x * Same(x) so that the solver keeps the product
   * as a product: a literal x * x is rewritten into a power, which it
   * relates poorly to the same square stated in a lemma.
   */
  function Square(x: real): real
  {
    x * Same(x)
  }

  /** Sum of squares; never negative. */
  function SumSquares(s: seq<real>): (r: real)
    ensures r >= 0.0
  {
    if |s| == 0 then 0.0
    else
      SquareNonneg(s[0]);
      Square(s[0]) + SumSquares(s[1..])
  }

  /** np.var: the population variance (ddof = 0), the mean squared deviation from the mean. */
  function Variance(s: seq<real>): (r: real)
    requires |s| > 0
    ensures r >= 0.0
  {
    SumSquares(Shift(s, Mean(s))) / |s| as real
  }

  /** `std` is a non-negative square root of `v`: how np.std relates to np.var. */
  predicate IsSqrt(std: real, v: real)
  {
    std >= 0.0 && Square(std) == v
  }

  /** A square root is zero exactly when its square is. */
  lemma SqrtZeroIff(std: real, v: real)
    requires IsSqrt(std, v)
    ensures std == 0.0 <==> v == 0.0
  {
    if std != 0.0 {
      SquarePos(std);
    }
  }

  /** The non-negative square root is unique. */
  lemma SqrtUnique(a: real, b: real, v: real)
    requires IsSqrt(a, v) && IsSqrt(b, v)
    ensures a == b
  {
    assert Same(a) == a && Same(b) == b;
    assert (a - b) * (a + b) == a * a - b * b;
    if a + b == 0.0 {
      assert a == 0.0 && b == 0.0;
    }
  }

  /** A square root lies below t exactly when t is positive and the square lies below t². */
  lemma SqrtBelow(std: real, v: real, t: real)
    requires IsSqrt(std, v)
    ensures std < t <==> t > 0.0 && v < Square(t)
  {
    if t > 0.0 {
      SquareMonotone(std, t);
    }
  }

  /** All samples equal the first one. */
  predicate Constant(s: seq<real>)
  {
    forall i :: 0 <= i < |s| ==> s[i] == s[0]
  }

  /** np.min of a non-empty array: a sample no larger than any other. */
  function Min(s: seq<real>): (r: real)
    requires |s| > 0
    ensures exists i :: 0 <= i < |s| && s[i] == r
    ensures forall i :: 0 <= i < |s| ==> r <= s[i]
  {
    if |s| == 1 then s[0]
    else
      var m := Min(s[1..]);
      if s[0] <= m then s[0] else m
  }

  /** np.max of a non-empty array: a sample no smaller than any other. */
  function Max(s: seq<real>): (r: real)
    requires |s| > 0
    ensures exists i :: 0 <= i < |s| && s[i] == r
    ensures forall i :: 0 <= i < |s| ==> s[i] <= r
  {
    if |s| == 1 then s[0]
    else
      var m := Max(s[1..]);
      if s[0] >= m then s[0] else m
  }

  /** np.diff: the differences of consecutive samples. */
  function Diff(s: seq<real>): seq<real>
    requires |s| > 0
  {
    seq(|s| - 1, i requires 0 <= i < |s| - 1 => s[i + 1] - s[i])
  }

  /** Python's builtin `abs` */
  function Abs(x: real): real
  {
    if x >= 0.0 then x else -x
  }

  /** The smaller of two reals (Python's builtin `min`). */
  function MinOf(a: real, b: real): real
  {
    if a <= b then a else b
  }

  /** The larger of two reals (Python's builtin `max`). */
  function MaxOf(a: real, b: real): real
  {
    if a >= b then a else b
  }

  /** np.clip(x, lo, hi): the point of [lo, hi] nearest to x. */
  function Clip(x: real, lo: real, hi: real): (r: real)
    requires lo <= hi
    ensures lo <= r <= hi
    ensures lo <= x <= hi ==> r == x
    ensures x < lo ==> r == lo
    ensures x > hi ==> r == hi
  {
    MinOf(MaxOf(x, lo), hi)
  }

  /** Python's `int()` on a float: truncation toward zero. */
  function Trunc(x: real): (r: int)
    ensures x >= 0.0 ==> r >= 0 && r as real <= x < r as real + 1.0
    ensures x < 0.0 ==> r <= 0 && r as real - 1.0 < x <= r as real
  {
    if x >= 0.0 then x.Floor else -((-x).Floor)
  }

  lemma {:induction false} SumShift(s: seq<real>, c: real)
    ensures Sum(Shift(s, c)) == Sum(s) - |s| as real * c
  {
    if |s| > 0 {
      assert Shift(s, c)[1..] == Shift(s[1..], c);
      SumShift(s[1..], c);
    }
  }

  /** Subtracting a constant subtracts it from the mean. */
  lemma MeanShift(s: seq<real>, c: real)
    requires |s| > 0
    ensures Mean(Shift(s, c)) == Mean(s) - c
  {
    SumShift(s, c);
    var n := |s| as real;
    calc {
      Mean(Shift(s, c));
      (Sum(s) - n * c) / n;
      Sum(s) / n - (n * c) / n;
      Sum(s) / n - c;
    }
  }

  /** Removing the mean leaves a signal whose mean is exactly zero. */
  lemma MeanOfCentred(s: seq<real>)
    requires |s| > 0
    ensures Mean(Shift(s, Mean(s))) == 0.0
  {
    MeanShift(s, Mean(s));
  }

  lemma {:induction false} SumScale(s: seq<real>, d: real)
    requires d != 0.0
    ensures Sum(Scale(s, d)) == Sum(s) / d
  {
    if |s| > 0 {
      assert Scale(s, d)[1..] == Scale(s[1..], d);
      SumScale(s[1..], d);
    }
  }

  /** Dividing every sample by d divides the mean by d. */
  lemma MeanScale(s: seq<real>, d: real)
    requires |s| > 0 && d != 0.0
    ensures Mean(Scale(s, d)) == Mean(s) / d
  {
    SumScale(s, d);
    var n := |s| as real;
    calc {
      Mean(Scale(s, d));
      Sum(Scale(s, d)) / n;
      (Sum(s) / d) / n;
      { DivSwap(Sum(s), d, n); }
      (Sum(s) / n) / d;
      Mean(s) / d;
    }
  }

  lemma {:induction false} SumSquaresScale(s: seq<real>, d: real)
    requires d != 0.0
    ensures SumSquares(Scale(s, d)) == SumSquares(s) / Square(d)
  {
    if |s| > 0 {
      assert Scale(s, d)[1..] == Scale(s[1..], d);
      SumSquaresScale(s[1..], d);
      SquareOfQuotient(s[0], d);
      DivSum(Square(s[0]), SumSquares(s[1..]), Square(d));
    }
  }

  lemma SquarePos(d: real)
    requires d != 0.0
    ensures Square(d) > 0.0
  {
    assert Same(d) == d;
  }

  lemma SquareNonneg(d: real)
    ensures Square(d) >= 0.0
  {
    if d != 0.0 {
      SquarePos(d);
    }
  }

  lemma SquareOfQuotient(a: real, d: real)
    requires d != 0.0
    ensures Square(d) > 0.0 && Square(a / d) == Square(a) / Square(d)
  {
    SquarePos(d);
    var q := a / d;
    assert Same(q) == q && Same(d) == d && Same(a) == a;
    assert q * d == a;
    assert Square(q) * Square(d) == Square(a) by {
      assert (q * q) * (d * d) == (q * d) * (q * d);
    }
  }

  /** On non-negative reals, squaring preserves strict order both ways. */
  lemma SquareMonotone(x: real, t: real)
    requires x >= 0.0 && t > 0.0
    ensures x < t <==> Square(x) < Square(t)
  {
    assert Same(x) == x && Same(t) == t;
    if x < t {
      assert x * x <= x * t;
      assert x * t < t * t;
    } else {
      assert x * x >= x * t;
      assert x * t >= t * t;
    }
  }

  /** A sum of squares vanishes exactly when every term does. */
  lemma {:induction false} SumSquaresZeroIff(s: seq<real>)
    ensures SumSquares(s) == 0.0 <==> forall i :: 0 <= i < |s| ==> s[i] == 0.0
  {
    if |s| > 0 {
      SumSquaresZeroIff(s[1..]);
      if s[0] != 0.0 {
        SquarePos(s[0]);
      }
      assert SumSquares(s) == Square(s[0]) + SumSquares(s[1..]);
      assert SumSquares(s) == 0.0 <==> s[0] == 0.0 && SumSquares(s[1..]) == 0.0;
      assert (forall i :: 0 <= i < |s| ==> s[i] == 0.0) <==>
        s[0] == 0.0 && forall i :: 0 <= i < |s[1..]| ==> s[1..][i] == 0.0;
    }
  }

  lemma {:induction false} SumOfConstant(s: seq<real>, c: real)
    requires forall i :: 0 <= i < |s| ==> s[i] == c
    ensures Sum(s) == |s| as real * c
  {
    if |s| > 0 {
      SumOfConstant(s[1..], c);
    }
  }

  /** The sum of consecutive differences telescopes to last minus first. */
  lemma {:induction false} SumDiff(s: seq<real>)
    requires |s| > 0
    ensures Sum(Diff(s)) == s[|s| - 1] - s[0]
  {
    if |s| > 1 {
      assert Diff(s)[1..] == Diff(s[1..]);
      SumDiff(s[1..]);
    }
  }

  /** Shifting every sample leaves the variance unchanged. */
  lemma VarianceShift(s: seq<real>, c: real)
    requires |s| > 0
    ensures Variance(Shift(s, c)) == Variance(s)
  {
    MeanShift(s, c);
    assert Shift(Shift(s, c), Mean(Shift(s, c))) == Shift(s, Mean(s));
  }

  /** Dividing every sample by d divides the variance by d squared. */
  lemma VarianceScale(s: seq<real>, d: real)
    requires |s| > 0 && d != 0.0
    ensures Variance(Scale(s, d)) == Variance(s) / Square(d)
  {
    MeanScale(s, d);
    var m := Mean(s);
    forall i | 0 <= i < |s|
      ensures Shift(Scale(s, d), m / d)[i] == Scale(Shift(s, m), d)[i]
    {
      assert s[i] / d - m / d == (s[i] - m) / d;
    }
    assert Shift(Scale(s, d), Mean(Scale(s, d))) == Scale(Shift(s, m), d);
    SumSquaresScale(Shift(s, m), d);
    var x, n, dd := SumSquares(Shift(s, m)), |s| as real, Square(d);
    SquarePos(d);
    DivSwap(x, dd, n);
  }

  lemma DivSum(a: real, b: real, c: real)
    requires c != 0.0
    ensures a / c + b / c == (a + b) / c
  {
    var p, q := a / c, b / c;
    assert p * c == a && q * c == b;
    assert (p + q) * c == a + b;
  }

  lemma DivSub(a: real, b: real, c: real)
    requires c != 0.0
    ensures a / c - b / c == (a - b) / c
  {
    var p, q := a / c, b / c;
    assert p * c == a && q * c == b;
    assert (p - q) * c == a - b;
  }

  lemma DivSelf(x: real)
    requires x != 0.0
    ensures x / x == 1.0
  {
    var q := x / x;
    assert q * x == x;
    assert (q - 1.0) * x == 0.0;
  }

  lemma DivSwap(x: real, p: real, q: real)
    requires p != 0.0 && q != 0.0
    ensures (x / p) / q == (x / q) / p
  {
    var u, v := (x / p) / q, (x / q) / p;
    assert u * q * p == x;
    assert v * p * q == x;
    assert (u - v) * (p * q) == 0.0;
  }

  /** The variance is zero exactly when every sample is the same. */
  lemma VarianceZeroIffConstant(s: seq<real>)
    requires |s| > 0
    ensures Variance(s) == 0.0 <==> Constant(s)
  {
    var m := Mean(s);
    if Constant(s) {
      SumOfConstant(s, s[0]);
      assert m == s[0];
      assert forall i :: 0 <= i < |s| ==> Shift(s, m)[i] == 0.0;
      SumSquaresZeroIff(Shift(s, m));
    }
    if Variance(s) == 0.0 {
      assert SumSquares(Shift(s, m)) == 0.0;
      SumSquaresZeroIff(Shift(s, m));
      assert forall i :: 0 <= i < |s| ==> s[i] == m by {
        forall i | 0 <= i < |s| ensures s[i] == m {
          assert Shift(s, m)[i] == 0.0;
        }
      }
    }
  }
}
