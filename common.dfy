/** Shared vocabulary of the model: error-carrying results, the elementary
    functions the numerical code calls, Python's rounding, and sums over
    hourly or per-layer series. */
module Common {

  datatype Option<+T> = None | Some(value: T)

  datatype Result<+T, +E> = Success(value: T) | Failure(error: E)

  /** numpy's pi, as the double literal it is. */
  const Pi: real := 3.141592653589793

  /** The square root and natural logarithm the source takes from numpy.
      They are parameters of the model rather than definitions: `Sound`
      states the only facts the proofs rely on. */
  datatype Elementary = Elementary(sqrt: real -> real, ln: real -> real)

  ghost predicate Sound(e: Elementary) {
    && (forall x :: 0.0 <= x ==> 0.0 <= e.sqrt(x) && e.sqrt(x) * e.sqrt(x) == x)
    && (forall x :: 1.0 < x ==> 0.0 < e.ln(x))
  }

  /** A sound square root is the unique non-negative root. */
  lemma SqrtOfSquare(e: Elementary, x: real)
    requires Sound(e) && 0.0 <= x
    ensures e.sqrt(x * x) == x
  {
    var s := e.sqrt(x * x);
    assert 0.0 <= s && s * s == x * x;
    if s < x {
      SquareStrictlyMonotone(s, x);
    } else if x < s {
      SquareStrictlyMonotone(x, s);
    }
  }

  lemma SqrtOfSquareAt(e: Elementary, x: real, m: real)
    requires Sound(e) && 0.0 <= m && x == m * m
    ensures e.sqrt(x) == m
  {
    SqrtOfSquare(e, m);
  }

  lemma SquareStrictlyMonotone(a: real, b: real)
    requires 0.0 <= a < b
    ensures a * a < b * b
  {
    PositiveProduct(b - a, b + a);
    assert (b - a) * (b + a) == b * b - a * a;
  }

  lemma NonNegativeSquare(x: real)
    ensures 0.0 <= x * x
  {
    if x < 0.0 {
      PositiveProduct(-x, -x);
    } else if 0.0 < x {
      PositiveProduct(x, x);
    }
  }

  lemma PositiveProduct(x: real, y: real)
    requires 0.0 < x && 0.0 < y
    ensures 0.0 < x * y
  {}

  lemma NonNegativeProduct(x: real, y: real)
    requires 0.0 <= x && 0.0 <= y
    ensures 0.0 <= x * y
  {}

  lemma PositiveQuotient(x: real, y: real)
    requires 0.0 < x && 0.0 < y
    ensures 0.0 < x / y
  {}

  lemma SqrtPositive(e: Elementary, x: real)
    requires Sound(e) && 0.0 < x
    ensures 0.0 < e.sqrt(x)
  {
    var s := e.sqrt(x);
    assert 0.0 <= s && s * s == x;
  }

  /** The root of a product of squares is the product of the roots. */
  lemma SqrtOfProductOfSquares(e: Elementary, x: real, y: real)
    requires Sound(e) && 0.0 <= x && 0.0 <= y
    ensures e.sqrt((x * x) * (y * y)) == x * y
  {
    var p := x * y;
    assert (x * x) * (y * y) == p * p;
    if 0.0 < x && 0.0 < y {
      PositiveProduct(x, y);
    }
    SqrtOfSquare(e, p);
    assert e.sqrt(p * p) == p;
  }

  function Min(a: real, b: real): real {
    if a <= b then a else b
  }

  function Abs(x: real): real {
    if x < 0.0 then -x else x
  }

  /** Python's built-in `round(x)` (and `round(x, 0)`): nearest integer,
      ties to the even neighbour. */
  function RoundHalfEven(x: real): (r: int)
    ensures Abs(x - r as real) <= 0.5
    ensures Abs(x - r as real) == 0.5 ==> r % 2 == 0
  {
    var f := x.Floor;
    var d := x - f as real;
    if d < 0.5 then f
    else if d > 0.5 then f + 1
    else if f % 2 == 0 then f
    else f + 1
  }

  /** `np.sum` over a series, summed left to right. */
  function Sum(s: seq<real>): real {
    PartialSum(s, |s|)
  }

  /** The sum of the first `k` entries. */
  function PartialSum(s: seq<real>, k: nat): real
    requires k <= |s|
  {
    if k == 0 then 0.0 else PartialSum(s, k - 1) + s[k - 1]
  }

  /** `np.average` without weights. */
  function Mean(s: seq<real>): real
    requires |s| > 0
  {
    Sum(s) / |s| as real
  }

  /** A partial sum reads only the entries it covers. */
  lemma {:induction false} PartialSumAgree(s: seq<real>, t: seq<real>, k: nat)
    requires k <= |s| && k <= |t| && forall i :: 0 <= i < k ==> s[i] == t[i]
    ensures PartialSum(s, k) == PartialSum(t, k)
  {
    if k > 0 {
      PartialSumAgree(s, t, k - 1);
    }
  }

  lemma {:induction false} PartialSumAppend(s: seq<real>, t: seq<real>, j: nat)
    requires j <= |t|
    ensures PartialSum(s + t, |s| + j) == Sum(s) + PartialSum(t, j)
  {
    if j == 0 {
      PartialSumAgree(s + t, s, |s|);
    } else {
      PartialSumAppend(s, t, j - 1);
    }
  }

  lemma SumAppend(s: seq<real>, t: seq<real>)
    ensures Sum(s + t) == Sum(s) + Sum(t)
  {
    PartialSumAppend(s, t, |t|);
  }

  lemma {:induction false} PartialSumUpdate(s: seq<real>, i: nat, v: real, k: nat)
    requires i < |s| && k <= |s|
    ensures PartialSum(s[i := v], k) == PartialSum(s, k) + (if i < k then v - s[i] else 0.0)
  {
    if k > 0 {
      PartialSumUpdate(s, i, v, k - 1);
    }
  }

  /** Changing one entry changes the sum by the difference. */
  lemma SumUpdate(s: seq<real>, i: nat, v: real)
    requires i < |s|
    ensures Sum(s[i := v]) == Sum(s) + (v - s[i])
  {
    PartialSumUpdate(s, i, v, |s|);
  }

  lemma {:induction false} PartialSumConstant(s: seq<real>, c: real, k: nat)
    requires k <= |s| && forall i :: 0 <= i < k ==> s[i] == c
    ensures PartialSum(s, k) == k as real * c
  {
    if k > 0 {
      PartialSumConstant(s, c, k - 1);
    }
  }

  /** A series of `n` copies of `c` sums to `n * c`. */
  lemma SumConstant(c: real, n: nat)
    ensures Sum(seq(n, _ => c)) == n as real * c
  {
    PartialSumConstant(seq(n, _ => c), c, n);
  }

  /** Summing scaled entries is scaling the sum (`np.sum(x / k)`). */
  function Scaled(s: seq<real>, k: real): (r: seq<real>)
    requires k != 0.0
    ensures |r| == |s| && forall i :: 0 <= i < |s| ==> r[i] == s[i] / k
  {
    seq(|s|, i requires 0 <= i < |s| => s[i] / k)
  }

  lemma {:induction false} PartialSumScaled(s: seq<real>, k: real, j: nat)
    requires k != 0.0 && j <= |s|
    ensures PartialSum(Scaled(s, k), j) == PartialSum(s, j) / k
  {
    if j > 0 {
      PartialSumScaled(s, k, j - 1);
    }
  }

  lemma SumScaled(s: seq<real>, k: real)
    requires k != 0.0
    ensures Sum(Scaled(s, k)) == Sum(s) / k
  {
    PartialSumScaled(s, k, |s|);
  }

  /** Entrywise sum of two equally long series. */
  function Plus(s: seq<real>, t: seq<real>): (r: seq<real>)
    requires |s| == |t|
    ensures |r| == |s| && forall i :: 0 <= i < |s| ==> r[i] == s[i] + t[i]
  {
    seq(|s|, i requires 0 <= i < |s| => s[i] + t[i])
  }

  lemma {:induction false} PartialSumPlus(s: seq<real>, t: seq<real>, j: nat)
    requires |s| == |t| && j <= |s|
    ensures PartialSum(Plus(s, t), j) == PartialSum(s, j) + PartialSum(t, j)
  {
    if j > 0 {
      PartialSumPlus(s, t, j - 1);
    }
  }

  lemma SumPlus(s: seq<real>, t: seq<real>)
    requires |s| == |t|
    ensures Sum(Plus(s, t)) == Sum(s) + Sum(t)
  {
    PartialSumPlus(s, t, |s|);
  }

  lemma SumSingleton(x: real)
    ensures Sum([x]) == x
  {
    assert PartialSum([x], 1) == PartialSum([x], 0) + x;
  }

  lemma {:induction false} PartialSumHeadAndRest(s: seq<real>, c: real, k: nat)
    requires 1 <= k <= |s| && forall i :: 0 < i < k ==> s[i] == c
    ensures PartialSum(s, k) == s[0] + (k - 1) as real * c
  {
    if k > 1 {
      PartialSumHeadAndRest(s, c, k - 1);
    }
  }

  /** A series whose entries after the first all equal `c` sums to its
      first entry plus `(n - 1) * c`. */
  lemma SumHeadAndRest(s: seq<real>, c: real)
    requires |s| >= 1 && forall i :: 0 < i < |s| ==> s[i] == c
    ensures Sum(s) == s[0] + (|s| - 1) as real * c
  {
    PartialSumHeadAndRest(s, c, |s|);
  }

  /** A series whose inner entries all equal `c` sums to its two ends plus
      `(n - 2) * c`. */
  lemma SumEndsAndMiddle(s: seq<real>, c: real)
    requires |s| >= 2 && forall i :: 0 < i < |s| - 1 ==> s[i] == c
    ensures Sum(s) == s[0] + s[|s| - 1] + (|s| - 2) as real * c
  {
    PartialSumHeadAndRest(s, c, |s| - 1);
  }

  lemma {:induction false} PartialSumNonNegative(s: seq<real>, k: nat)
    requires k <= |s| && forall i :: 0 <= i < k ==> 0.0 <= s[i]
    ensures 0.0 <= PartialSum(s, k)
  {
    if k > 0 {
      PartialSumNonNegative(s, k - 1);
    }
  }

  /** Every entry non-negative means a non-negative sum. */
  lemma SumNonNegative(s: seq<real>)
    requires forall i :: 0 <= i < |s| ==> 0.0 <= s[i]
    ensures 0.0 <= Sum(s)
  {
    PartialSumNonNegative(s, |s|);
  }
}
