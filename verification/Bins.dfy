/**
 * Half-open probability bins, the last one closed: every probability lies in exactly one, so what
 * is summed bin by bin is what is summed over all forecasts.
 */
module Bins {
  import opened Common

  datatype Forecast = Forecast(p: real, up: bool)

  predicate ValidForecasts(fs: seq<Forecast>) {
    forall i :: 0 <= i < |fs| ==> 0.0 <= fs[i].p <= 1.0
  }

  predicate Boundaries(bs: seq<real>) {
    && |bs| >= 2 && bs[0] == 0.0 && bs[|bs| - 1] == 1.0
    && forall i :: 0 <= i < |bs| - 1 ==> bs[i] < bs[i + 1]
  }

  predicate InBin(bs: seq<real>, i: nat, p: real)
    requires i < |bs| - 1
  {
    bs[i] <= p < bs[i + 1] || (i == |bs| - 2 && p == 1.0)
  }

  lemma {:induction false} BoundariesIncrease(bs: seq<real>, i: nat, j: nat)
    requires Boundaries(bs) && i <= j < |bs|
    ensures bs[i] <= bs[j] && (i < j ==> bs[i] < bs[j])
  {
    if i < j {
      BoundariesIncrease(bs, i, j - 1);
      assert bs[j - 1] < bs[j - 1 + 1];
    }
  }

  lemma InOneBin(bs: seq<real>, p: real, i: nat, j: nat)
    requires Boundaries(bs) && i < |bs| - 1 && j < |bs| - 1 && InBin(bs, i, p) && InBin(bs, j, p)
    ensures i == j
  {
    if i < j {
      BoundariesIncrease(bs, j, |bs| - 1);
      BoundariesIncrease(bs, i + 1, j);
    } else if j < i {
      BoundariesIncrease(bs, i, |bs| - 1);
      BoundariesIncrease(bs, j + 1, i);
    }
  }

  /** The bin of a probability: the first from i on that contains it. */
  function BinFrom(bs: seq<real>, p: real, i: nat): (r: nat)
    requires Boundaries(bs) && i < |bs| - 1 && bs[i] <= p <= 1.0
    ensures i <= r < |bs| - 1 && InBin(bs, r, p)
    decreases |bs| - i
  {
    if p < bs[i + 1] || i == |bs| - 2 then i else BinFrom(bs, p, i + 1)
  }

  function BinOf(bs: seq<real>, p: real): (r: nat)
    requires Boundaries(bs) && 0.0 <= p <= 1.0
    ensures r < |bs| - 1 && InBin(bs, r, p)
  {
    BinFrom(bs, p, 0)
  }

  function Members(fs: seq<Forecast>, bs: seq<real>, i: nat): seq<Forecast>
    requires i < |bs| - 1
  {
    if fs == [] then []
    else
      var front := Members(fs[..|fs| - 1], bs, i);
      if InBin(bs, i, fs[|fs| - 1].p) then front + [fs[|fs| - 1]] else front
  }

  // ---------------------------------------------------------------- sums over forecasts

  /** What is summed: forecasts, outcomes that were UP, probabilities, and two squared errors. */
  datatype Measure = Number | Ups | Mass | Brier | ErrorOf

  function Outcome(f: Forecast): real {
    if f.up then 1.0 else 0.0
  }

  /** One forecast's share; only ErrorOf looks at the predictor's value c. */
  function Amount(m: Measure, c: real, f: Forecast): real {
    match m
    case Number => 1.0
    case Ups => Outcome(f)
    case Mass => f.p
    case Brier => (f.p - Outcome(f)) * (f.p - Outcome(f))
    case ErrorOf => (c - Outcome(f)) * (c - Outcome(f))
  }

  function Over(fs: seq<Forecast>, m: Measure, c: real): real {
    if fs == [] then 0.0 else Over(fs[..|fs| - 1], m, c) + Amount(m, c, fs[|fs| - 1])
  }

  /** The first k bins' sums, each with its own value of the predictor. */
  function AcrossBins(fs: seq<Forecast>, bs: seq<real>, m: Measure, g: seq<real>, k: nat): real
    requires k <= |bs| - 1 && |g| == |bs| - 1
  {
    if k == 0 then 0.0 else AcrossBins(fs, bs, m, g, k - 1) + Over(Members(fs, bs, k - 1), m, g[k - 1])
  }

  /** The same amounts, forecast by forecast: each is given the value of its own bin. */
  function Direct(fs: seq<Forecast>, bs: seq<real>, m: Measure, g: seq<real>): real
    requires Boundaries(bs) && |g| == |bs| - 1 && ValidForecasts(fs)
  {
    if fs == [] then 0.0
    else
      var f := fs[|fs| - 1];
      Direct(fs[..|fs| - 1], bs, m, g) + Amount(m, g[BinOf(bs, f.p)], f)
  }

  lemma OverAppend(fs: seq<Forecast>, f: Forecast, m: Measure, c: real)
    ensures Over(fs + [f], m, c) == Over(fs, m, c) + Amount(m, c, f)
  {
    assert (fs + [f])[..|fs|] == fs;
  }

  lemma {:induction false} NoneAcross(bs: seq<real>, m: Measure, g: seq<real>, k: nat)
    requires k <= |bs| - 1 && |g| == |bs| - 1
    ensures AcrossBins([], bs, m, g, k) == 0.0
  {
    if k > 0 {
      NoneAcross(bs, m, g, k - 1);
    }
  }

  lemma OneMoreInBin(fs: seq<Forecast>, bs: seq<real>, m: Measure, c: real, i: nat)
    requires Boundaries(bs) && ValidForecasts(fs) && fs != [] && i < |bs| - 1
    ensures var f := fs[|fs| - 1];
            Over(Members(fs, bs, i), m, c)
            == Over(Members(fs[..|fs| - 1], bs, i), m, c) + if BinOf(bs, f.p) == i then Amount(m, c, f) else 0.0
  {
    var f := fs[|fs| - 1];
    OverAppend(Members(fs[..|fs| - 1], bs, i), f, m, c);
    if InBin(bs, i, f.p) {
      InOneBin(bs, f.p, BinOf(bs, f.p), i);
    }
  }

  /** A forecast adds its amount in its own bin and nowhere else. */
  lemma {:induction false} OneMore(fs: seq<Forecast>, bs: seq<real>, m: Measure, g: seq<real>, k: nat)
    requires Boundaries(bs) && |g| == |bs| - 1 && ValidForecasts(fs) && fs != [] && k <= |bs| - 1
    ensures var f := fs[|fs| - 1];
            AcrossBins(fs, bs, m, g, k)
            == AcrossBins(fs[..|fs| - 1], bs, m, g, k)
               + if BinOf(bs, f.p) < k then Amount(m, g[BinOf(bs, f.p)], f) else 0.0
  {
    if k > 0 {
      OneMore(fs, bs, m, g, k - 1);
      OneMoreInBins(fs, bs, m, g, k);
    }
  }

  lemma OneMoreInBins(fs: seq<Forecast>, bs: seq<real>, m: Measure, g: seq<real>, k: nat)
    requires Boundaries(bs) && |g| == |bs| - 1 && ValidForecasts(fs) && fs != [] && 0 < k <= |bs| - 1
    ensures var f, front := fs[|fs| - 1], fs[..|fs| - 1];
            AcrossBins(fs, bs, m, g, k) - AcrossBins(fs, bs, m, g, k - 1)
            == AcrossBins(front, bs, m, g, k) - AcrossBins(front, bs, m, g, k - 1)
               + if BinOf(bs, f.p) == k - 1 then Amount(m, g[k - 1], f) else 0.0
  {
    OneMoreInBin(fs, bs, m, g[k - 1], k - 1);
  }

  /** Summing bin by bin counts every forecast exactly once, in its own bin. */
  lemma {:induction false} BinsPartition(fs: seq<Forecast>, bs: seq<real>, m: Measure, g: seq<real>)
    requires Boundaries(bs) && |g| == |bs| - 1 && ValidForecasts(fs)
    ensures AcrossBins(fs, bs, m, g, |bs| - 1) == Direct(fs, bs, m, g)
  {
    if fs == [] {
      NoneAcross(bs, m, g, |bs| - 1);
    } else {
      BinsPartition(fs[..|fs| - 1], bs, m, g);
      OneMore(fs, bs, m, g, |bs| - 1);
    }
  }

  /** An amount that ignores the predictor is the plain sum. */
  lemma {:induction false} DirectIsOver(fs: seq<Forecast>, bs: seq<real>, m: Measure, g: seq<real>, c: real)
    requires Boundaries(bs) && |g| == |bs| - 1 && ValidForecasts(fs)
    requires m.ErrorOf? ==> forall i :: 0 <= i < |g| ==> g[i] == c
    ensures Direct(fs, bs, m, g) == Over(fs, m, c)
  {
    if fs != [] {
      DirectIsOver(fs[..|fs| - 1], bs, m, g, c);
    }
  }

  lemma {:induction false} NumberIsLength(fs: seq<Forecast>, c: real)
    ensures Over(fs, Number, c) == |fs| as real
  {
    if fs != [] {
      NumberIsLength(fs[..|fs| - 1], c);
    }
  }

  lemma {:induction false} SumBounds(fs: seq<Forecast>, c: real)
    requires ValidForecasts(fs)
    ensures 0.0 <= Over(fs, Ups, c) <= |fs| as real && 0.0 <= Over(fs, Mass, c) <= |fs| as real
  {
    if fs != [] {
      SumBounds(fs[..|fs| - 1], c);
    }
  }

  lemma {:induction false} MembersAreValid(fs: seq<Forecast>, bs: seq<real>, i: nat)
    requires i < |bs| - 1 && ValidForecasts(fs)
    ensures ValidForecasts(Members(fs, bs, i)) && |Members(fs, bs, i)| <= |fs|
  {
    if fs != [] {
      MembersAreValid(fs[..|fs| - 1], bs, i);
    }
  }
}
