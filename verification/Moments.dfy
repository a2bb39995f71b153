/**
 * Count, mean and squared-deviation sum of latency samples (benchkit/latency_series.go), over
 * exact reals.
 */
module Moments {

  datatype Moments = Moments(count: nat, mean: real, m2: real)

  const EMPTY := Moments(0, 0.0, 0.0)

  // ---- the accumulator ----

  function Added(m: Moments, x: real): Moments {
    var count := m.count + 1;
    var delta := x - m.mean;
    var mean := m.mean + delta / count as real;
    Moments(count, mean, m.m2 + delta * (x - mean))
  }

  function Merged(m: Moments, other: Moments): Moments {
    if other.count == 0 then m
    else if m.count == 0 then other
    else
      var count := m.count + other.count;
      var delta := other.mean - m.mean;
      Moments(count,
              m.mean + delta * other.count as real / count as real,
              m.m2 + (other.m2 + delta * delta * m.count as real * other.count as real / count as real))
  }

  /** A clock correction: every sample moves by d, so the mean does. */
  function Shifted(m: Moments, d: real): Moments {
    m.(mean := m.mean + d)
  }

  // ---- the batch definition ----

  function Sum(xs: seq<real>): real {
    if xs == [] then 0.0 else Sum(xs[..|xs| - 1]) + xs[|xs| - 1]
  }

  function SumOfSquares(xs: seq<real>): real {
    if xs == [] then 0.0 else SumOfSquares(xs[..|xs| - 1]) + xs[|xs| - 1] * xs[|xs| - 1]
  }

  /** The sum of f over the samples. */
  function SumOf(f: real -> real, xs: seq<real>): real {
    if xs == [] then 0.0 else SumOf(f, xs[..|xs| - 1]) + f(xs[|xs| - 1])
  }

  function Same(x: real): real {
    x
  }

  function Square(x: real): real {
    x * x
  }

  lemma {:induction false} PowerSums(xs: seq<real>)
    ensures Sum(xs) == SumOf(Same, xs) && SumOfSquares(xs) == SumOf(Square, xs)
  {
    if xs != [] {
      PowerSums(xs[..|xs| - 1]);
    }
  }

  /** The sum of the squared distances to c. */
  function Deviation(xs: seq<real>, c: real): real {
    if xs == [] then 0.0 else Deviation(xs[..|xs| - 1], c) + (xs[|xs| - 1] - c) * (xs[|xs| - 1] - c)
  }

  function Mean(xs: seq<real>): real
    requires xs != []
  {
    Sum(xs) / |xs| as real
  }

  function MomentsOf(xs: seq<real>): Moments {
    if xs == [] then EMPTY else Moments(|xs|, Mean(xs), Deviation(xs, Mean(xs)))
  }

  // ---- both by the first two power sums ----

  /** m is described by n samples with the given sum and sum of squares. */
  predicate Fits(m: Moments, n: nat, s: real, q: real) {
    && m.count == n
    && (if n == 0 then m == EMPTY && s == 0.0 && q == 0.0
        else n as real * m.mean == s && m.m2 == q - n as real * (m.mean * m.mean))
  }

  lemma FitsUnique(m: Moments, m': Moments, n: nat, s: real, q: real)
    requires Fits(m, n, s, q) && Fits(m', n, s, q)
    ensures m == m'
  {
    if n > 0 {
      Cancel(n as real, m.mean, m'.mean);
    }
  }

  lemma Cancel(n: real, x: real, y: real)
    requires n > 0.0 && n * x == n * y
    ensures x == y
  {
    assert n * (x - y) == 0.0;
  }

  lemma {:induction false} DeviationByPowers(xs: seq<real>, c: real)
    ensures Deviation(xs, c) == SumOfSquares(xs) - 2.0 * (c * Sum(xs)) + |xs| as real * (c * c)
  {
    if xs != [] {
      var rest := xs[..|xs| - 1];
      DeviationByPowers(rest, c);
      DeviationStep(Deviation(rest, c), SumOfSquares(rest), Sum(rest), |rest| as real, c, xs[|xs| - 1],
                    SumOfSquares(xs), Sum(xs), |xs| as real);
    }
  }

  lemma DeviationStep(dev: real, q: real, s: real, n: real, c: real, x: real, q': real, s': real, n': real)
    requires dev == q - 2.0 * (c * s) + n * (c * c)
    requires q' == q + x * x && s' == s + x && n' == n + 1.0
    ensures dev + (x - c) * (x - c) == q' - 2.0 * (c * s') + n' * (c * c)
  {
  }

  lemma BatchFits(xs: seq<real>)
    ensures Fits(MomentsOf(xs), |xs|, Sum(xs), SumOfSquares(xs))
  {
    if xs != [] {
      MeanTimesCount(xs);
      FitsWithMean(xs, Mean(xs));
    }
  }

  lemma FitsWithMean(xs: seq<real>, mean: real)
    requires xs != [] && |xs| as real * mean == Sum(xs)
    ensures Fits(Moments(|xs|, mean, Deviation(xs, mean)), |xs|, Sum(xs), SumOfSquares(xs))
  {
    DeviationFromMean(xs, mean);
  }

  lemma MeanTimesCount(xs: seq<real>)
    requires xs != []
    ensures |xs| as real * Mean(xs) == Sum(xs)
  {
    Quotient(Sum(xs), |xs| as real);
  }

  lemma DeviationFromMean(xs: seq<real>, mean: real)
    requires |xs| as real * mean == Sum(xs)
    ensures Deviation(xs, mean) == SumOfSquares(xs) - |xs| as real * (mean * mean)
  {
    DeviationByPowers(xs, mean);
    BatchNumbers(Deviation(xs, mean), SumOfSquares(xs), |xs| as real, mean, Sum(xs));
  }

  lemma Quotient(s: real, n: real)
    requires n > 0.0
    ensures n * (s / n) == s
  {
  }

  lemma BatchNumbers(dev: real, q: real, n: real, mean: real, s: real)
    requires n * mean == s && dev == q - 2.0 * (mean * s) + n * (mean * mean)
    ensures dev == q - n * (mean * mean)
  {
    assert mean * (n * mean) == n * (mean * mean);
  }

  // ---- adding one sample ----

  lemma AddFits(m: Moments, n: nat, s: real, q: real, x: real)
    requires Fits(m, n, s, q)
    ensures Fits(Added(m, x), n + 1, s + x, q + x * x)
  {
    if n == 0 {
      assert Added(m, x) == Moments(1, x, 0.0);
    } else {
      var N := (n + 1) as real;
      var e := (x - m.mean) / N;
      Quotient(x - m.mean, N);
      AddNumbers(n as real, m.mean, e, q);
      assert x == m.mean + N * e;
      assert N * (m.mean + e) == n as real * m.mean + x;
    }
  }

  /** Adding the sample mean + (n+1)*e to n samples moves the mean by e. */
  lemma AddNumbers(n: real, mean: real, e: real, q: real)
    ensures var x := mean + (n + 1.0) * e;
            (q - n * (mean * mean)) + (x - mean) * (x - (mean + e))
            == (q + x * x) - (n + 1.0) * ((mean + e) * (mean + e))
  {
  }

  lemma SumAppend(xs: seq<real>, x: real)
    ensures Sum(xs + [x]) == Sum(xs) + x && SumOfSquares(xs + [x]) == SumOfSquares(xs) + x * x
  {
    assert (xs + [x])[..|xs|] == xs;
  }

  /** Welford's update equals the batch mean and squared-deviation sum. */
  lemma AddIsBatch(xs: seq<real>, x: real)
    ensures Added(MomentsOf(xs), x) == MomentsOf(xs + [x])
  {
    BatchFits(xs);
    BatchFits(xs + [x]);
    SumAppend(xs, x);
    AddFits(MomentsOf(xs), |xs|, Sum(xs), SumOfSquares(xs), x);
    FitsUnique(Added(MomentsOf(xs), x), MomentsOf(xs + [x]), |xs| + 1, Sum(xs) + x, SumOfSquares(xs) + x * x);
  }

  // ---- merging ----

  lemma MergeFits(m: Moments, n: nat, s: real, q: real, o: Moments, k: nat, t: real, r: real)
    requires Fits(m, n, s, q) && Fits(o, k, t, r)
    ensures Fits(Merged(m, o), n + k, s + t, q + r)
  {
    if n > 0 && k > 0 {
      MergeArithmetic(m, n as real, s, q, o, k as real, t, r, (n + k) as real, o.mean - m.mean);
    }
  }

  lemma MergeArithmetic(m: Moments, a: real, s: real, q: real, o: Moments, b: real, t: real, r: real,
                        C: real, delta: real)
    requires m.count > 0 && o.count > 0 && a == m.count as real && b == o.count as real
    requires C == (m.count + o.count) as real && delta == o.mean - m.mean
    requires a * m.mean == s && m.m2 == q - a * (m.mean * m.mean)
    requires b * o.mean == t && o.m2 == r - b * (o.mean * o.mean)
    ensures C * Merged(m, o).mean == s + t
    ensures Merged(m, o).m2 == (q + r) - C * (Merged(m, o).mean * Merged(m, o).mean)
  {
    var x, y, e, mean := m.mean, o.mean, delta / C, Merged(m, o).mean;
    Quotient(delta, C);
    QuotientOfProduct(delta, b, C, e);
    QuotientOfSquare(delta, a, b, C, e);
    assert y == x + C * e && mean == x + b * e;
    MergeNumbers(a, b, x, e, q, r, C, y, mean);
    MergeMean(a, b, x, e, C, y, mean);
  }

  lemma MergeMean(a: real, b: real, x: real, e: real, C: real, y: real, mean: real)
    requires C == a + b && y == x + C * e && mean == x + b * e
    ensures C * mean == a * x + b * y
  {
  }

  lemma QuotientOfProduct(delta: real, b: real, C: real, e: real)
    requires C > 0.0 && delta == C * e
    ensures delta * b / C == b * e
  {
    assert delta * b == C * (b * e);
  }

  lemma QuotientOfSquare(delta: real, a: real, b: real, C: real, e: real)
    requires C > 0.0 && delta == C * e
    ensures delta * delta * a * b / C == C * (e * e * a * b)
  {
    assert delta * delta * a * b == C * (C * (e * e * a * b));
  }

  lemma MergeNumbers(a: real, b: real, x: real, e: real, q: real, r: real, C: real, y: real, mean: real)
    requires C == a + b && y == x + C * e && mean == x + b * e
    ensures (q - a * (x * x)) + ((r - b * (y * y)) + C * (e * e * a * b)) == (q + r) - C * (mean * mean)
  {
  }

  lemma {:induction false} SumOfConcat(f: real -> real, xs: seq<real>, ys: seq<real>)
    ensures SumOf(f, xs + ys) == SumOf(f, xs) + SumOf(f, ys)
  {
    if ys == [] {
      assert xs + ys == xs;
    } else {
      var zs := ys[..|ys| - 1];
      assert (xs + ys)[..|xs + ys| - 1] == xs + zs;
      SumOfConcat(f, xs, zs);
    }
  }

  lemma SumConcat(xs: seq<real>, ys: seq<real>)
    ensures Sum(xs + ys) == Sum(xs) + Sum(ys)
    ensures SumOfSquares(xs + ys) == SumOfSquares(xs) + SumOfSquares(ys)
  {
    PowerSums(xs);
    PowerSums(ys);
    PowerSums(xs + ys);
    SumOfConcat(Same, xs, ys);
    SumOfConcat(Square, xs, ys);
  }

  /** Merging equals the moments of the concatenation. */
  lemma MergeIsConcatenation(xs: seq<real>, ys: seq<real>)
    ensures Merged(MomentsOf(xs), MomentsOf(ys)) == MomentsOf(xs + ys)
  {
    BatchFits(xs);
    BatchFits(ys);
    BatchFits(xs + ys);
    SumConcat(xs, ys);
    MergeFits(MomentsOf(xs), |xs|, Sum(xs), SumOfSquares(xs), MomentsOf(ys), |ys|, Sum(ys), SumOfSquares(ys));
    FitsUnique(Merged(MomentsOf(xs), MomentsOf(ys)), MomentsOf(xs + ys),
               |xs| + |ys|, Sum(xs + ys), SumOfSquares(xs + ys));
  }

  /** Samples grouped in any way. */
  datatype Grouping = One(samples: seq<real>) | Both(left: Grouping, right: Grouping)

  function Samples(g: Grouping): seq<real> {
    match g
    case One(xs) => xs
    case Both(l, r) => Samples(l) + Samples(r)
  }

  function MergeAll(g: Grouping): Moments {
    match g
    case One(xs) => MomentsOf(xs)
    case Both(l, r) => Merged(MergeAll(l), MergeAll(r))
  }

  /** Merging in any grouping gives the moments of all the samples. */
  lemma {:induction false} MergeInAnyGrouping(g: Grouping)
    ensures MergeAll(g) == MomentsOf(Samples(g))
  {
    match g
    case One(xs) =>
    case Both(l, r) =>
      MergeInAnyGrouping(l);
      MergeInAnyGrouping(r);
      MergeIsConcatenation(Samples(l), Samples(r));
  }

  /** Samples with the same power sums, in any order, have the same moments. */
  lemma SameSumsSameMoments(xs: seq<real>, ys: seq<real>)
    requires |xs| == |ys| && SumOf(Same, xs) == SumOf(Same, ys) && SumOf(Square, xs) == SumOf(Square, ys)
    ensures MomentsOf(xs) == MomentsOf(ys)
  {
    BatchFits(xs);
    BatchFits(ys);
    PowerSums(xs);
    PowerSums(ys);
    FitsUnique(MomentsOf(xs), MomentsOf(ys), |xs|, Sum(xs), SumOfSquares(xs));
  }

  // ---- clock correction ----

  function Corrected(xs: seq<real>, d: real): (r: seq<real>)
    ensures |r| == |xs|
  {
    if xs == [] then [] else Corrected(xs[..|xs| - 1], d) + [xs[|xs| - 1] + d]
  }

  lemma OneMore(n: real, n': real, d: real)
    requires n' == n + 1.0
    ensures n' * d == n * d + d
  {
  }

  lemma {:induction false} CorrectedSum(xs: seq<real>, d: real)
    ensures Sum(Corrected(xs, d)) == Sum(xs) + |xs| as real * d
  {
    if xs != [] {
      var rest := xs[..|xs| - 1];
      CorrectedSum(rest, d);
      assert (Corrected(rest, d) + [xs[|xs| - 1] + d])[..|rest|] == Corrected(rest, d);
      OneMore(|rest| as real, |xs| as real, d);
    }
  }

  lemma MovedSquare(x: real, d: real, c: real)
    ensures ((x + d) - (c + d)) * ((x + d) - (c + d)) == (x - c) * (x - c)
  {
  }

  lemma {:induction false} CorrectedDeviation(xs: seq<real>, d: real, c: real)
    ensures Deviation(Corrected(xs, d), c + d) == Deviation(xs, c)
  {
    if xs != [] {
      var rest := xs[..|xs| - 1];
      CorrectedDeviation(rest, d, c);
      assert (Corrected(rest, d) + [xs[|xs| - 1] + d])[..|rest|] == Corrected(rest, d);
      MovedSquare(xs[|xs| - 1], d, c);
    }
  }

  /** Shifting only the mean equals correcting every sample. */
  lemma ShiftIsCorrection(xs: seq<real>, d: real)
    requires xs != []
    ensures Shifted(MomentsOf(xs), d) == MomentsOf(Corrected(xs, d))
  {
    var n := |xs| as real;
    CorrectedSum(xs, d);
    Quotient(Sum(xs), n);
    Quotient(Sum(Corrected(xs, d)), n);
    assert n * (Mean(xs) + d) == n * Mean(xs) + n * d;
    Cancel(n, Mean(Corrected(xs, d)), Mean(xs) + d);
    CorrectedDeviation(xs, d, Mean(xs));
  }
}
