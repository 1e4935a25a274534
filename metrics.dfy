/** `calculate_average_views` (analyze_channel.py:77-80): the truncated mean
    of the parsed view counts. */
module Metrics {
  import opened Numbers
  import opened Extraction

  /** The parsed view counts, in video order. */
  function ViewValues(videos: seq<VideoRecord>): (vs: seq<real>)
    ensures |vs| == |videos|
    ensures forall i :: 0 <= i < |videos| ==> vs[i] == ParseViewCount(videos[i].views)
  {
    seq(|videos|, i requires 0 <= i < |videos| => ParseViewCount(videos[i].views))
  }

  function Sum(xs: seq<real>): real
  {
    if xs == [] then 0.0 else Sum(xs[..|xs| - 1]) + xs[|xs| - 1]
  }

  /** The truncated mean: 0 for no videos; otherwise the integer part of
      total / count, rounded toward zero. */
  function AverageViews(videos: seq<VideoRecord>): (r: int)
    ensures videos == [] ==> r == 0
    ensures videos != [] ==> TruncatedMean(Sum(ViewValues(videos)), |videos|, r)
  {
    if videos == [] then 0 else MeanOf(Sum(ViewValues(videos)), |videos|)
  }

  /** `r` is `total / n` rounded toward zero, stated without division. */
  predicate TruncatedMean(total: real, n: nat, r: int)
  {
    (total >= 0.0 ==> 0 <= r && r as real * n as real <= total < (r + 1) as real * n as real)
    && (total < 0.0 ==> r <= 0 && (r - 1) as real * n as real < total <= r as real * n as real)
  }

  /** `int(total / n)`. */
  function MeanOf(total: real, n: nat): (r: int)
    requires n > 0
    ensures TruncatedMean(total, n, r)
  {
    var q := total / n as real;
    var r := Trunc(q);
    assert q * n as real == total;
    MeanBounds(total, n, q, r);
    r
  }

  lemma {:induction false} MeanBounds(total: real, n: nat, q: real, r: int)
    requires n > 0 && q * n as real == total
    requires q >= 0.0 ==> 0 <= r && r as real <= q < (r + 1) as real
    requires q < 0.0 ==> r <= 0 && (r - 1) as real < q <= r as real
    ensures TruncatedMean(total, n, r)
  {
    if q >= 0.0 {
      MulNonNeg(q, n as real);
      MulLe(r as real, q, n as real);
      MulLt(q, (r + 1) as real, n as real);
    } else {
      MulPos(-q, n as real);
      assert (-q) * n as real == -(q * n as real);
      MulLt((r - 1) as real, q, n as real);
      MulLe(q, r as real, n as real);
    }
  }

  lemma {:induction false} MulNonNeg(a: real, n: real)
    requires a >= 0.0 && n > 0.0
    ensures a * n >= 0.0
  {
  }

  lemma {:induction false} MulPos(a: real, n: real)
    requires a > 0.0 && n > 0.0
    ensures a * n > 0.0
  {
  }

  lemma {:induction false} MulLe(a: real, b: real, n: real)
    requires n > 0.0 && a <= b
    ensures a * n <= b * n
  {
    MulNonNeg(b - a, n);
    assert (b - a) * n == b * n - a * n;
  }

  lemma {:induction false} MulLt(a: real, b: real, n: real)
    requires n > 0.0 && a < b
    ensures a * n < b * n
  {
    MulPos(b - a, n);
    assert (b - a) * n == b * n - a * n;
  }

  /** `n` equal values sum to `n` times the value. */
  lemma {:induction false} SumOfIdentical(xs: seq<real>, v: real)
    requires forall i :: 0 <= i < |xs| ==> xs[i] == v
    ensures Sum(xs) == |xs| as real * v
  {
    if xs != [] {
      SumOfIdentical(xs[..|xs| - 1], v);
    }
  }

  /** The mean of `n` copies of a whole number is that number. */
  lemma {:induction false} MeanOfMultiple(total: real, n: nat, k: int)
    requires n > 0 && total == n as real * k as real
    ensures MeanOf(total, n) == k
  {
    var q := total / n as real;
    assert q == k as real;
  }

  lemma {:induction false} MeanOfIdentical(xs: seq<real>, k: int)
    requires xs != []
    requires forall i :: 0 <= i < |xs| ==> xs[i] == k as real
    ensures MeanOf(Sum(xs), |xs|) == k
  {
    SumOfIdentical(xs, k as real);
    MeanOfMultiple(Sum(xs), |xs|, k);
  }

  /** Videos that all show the same rendered count average to that count
      times its magnitude. */
  lemma {:induction false} AverageOfUniformCounts(videos: seq<VideoRecord>, n: nat, m: Magnitude, w: UnitWord)
    requires videos != []
    requires forall i :: 0 <= i < |videos| ==> videos[i].views == RenderCount(n, m, w)
    ensures AverageViews(videos) == n * m.Multiplier()
  {
    var vs := ViewValues(videos);
    ParseRenderedCount(n, m, w);
    assert forall i :: 0 <= i < |vs| ==> vs[i] == (n * m.Multiplier()) as real;
    MeanOfIdentical(vs, n * m.Multiplier());
  }
}
