/**
 * Reliability calibration: each bin is given the UP rate of the training samples in it. The fit
 * accounts for every sample and is the least-squares optimum among predictors constant on the bins.
 */
module Calibration {
  import opened Common
  import opened Bins

  datatype CalibrationSample = CalibrationSample(forecast: Forecast, observedAt: int)

  datatype CalibrationBin = CalibrationBin(lower: real, upper: real, calibrated: real, sampleCount: nat)

  datatype Calibrator = Calibrator(bins: seq<CalibrationBin>, trainedThrough: int)

  datatype FitError =
    | MinimumNotPositive
    | BoundariesDoNotSpan
    | BoundariesNotIncreasing
    | SampleAfterCutoff
    | InsufficientSamples

  predicate AcceptedBin(b: CalibrationBin) {
    0.0 <= b.lower < b.upper <= 1.0 && 0.0 <= b.calibrated <= 1.0 && b.sampleCount >= 1
  }

  /** What the constructors demand: the bins are valid, contiguous, and cover zero through one. */
  predicate AcceptedCalibrator(c: Calibrator) {
    && c.bins != []
    && (forall i :: 0 <= i < |c.bins| ==> AcceptedBin(c.bins[i]))
    && c.bins[0].lower == 0.0 && c.bins[|c.bins| - 1].upper == 1.0
    && forall i :: 0 <= i < |c.bins| - 1 ==> c.bins[i].upper == c.bins[i + 1].lower
  }

  // ---------------------------------------------------------------- calibrating one probability

  method Calibrate(c: Calibrator, p: real) returns (r: Option<real>)
    requires AcceptedCalibrator(c) && 0.0 <= p <= 1.0
    ensures r == Some(Calibrated(c, p))
  {
    BoundsAreBoundaries(c);
    for i := 0 to |c.bins|
      invariant forall k :: 0 <= k < i ==> !InBin(BoundsOf(c), k, p)
    {
      var item := c.bins[i];
      assert BoundsOf(c)[i] == item.lower && BoundsOf(c)[i + 1] == item.upper;
      if item.lower <= p < item.upper || (i == |c.bins| - 1 && p == 1.0) {
        InOneBin(BoundsOf(c), p, i, BinOf(BoundsOf(c), p));
        return Some(item.calibrated);
      }
    }
    r := None;
  }

  /** The boundaries of the bins: every lower one, and the last upper one. */
  function BoundsOf(c: Calibrator): (r: seq<real>)
    ensures |r| == |c.bins| + 1
  {
    seq(|c.bins| + 1, i requires 0 <= i <= |c.bins| =>
      if i < |c.bins| then c.bins[i].lower else if c.bins == [] then 1.0 else c.bins[|c.bins| - 1].upper)
  }

  lemma BoundsAreBoundaries(c: Calibrator)
    requires AcceptedCalibrator(c)
    ensures Boundaries(BoundsOf(c))
    ensures forall i :: 0 <= i < |c.bins| ==>
              BoundsOf(c)[i] == c.bins[i].lower && BoundsOf(c)[i + 1] == c.bins[i].upper
  {
    forall i | 0 <= i < |c.bins|
      ensures BoundsOf(c)[i] == c.bins[i].lower && BoundsOf(c)[i + 1] == c.bins[i].upper
    {
      if i < |c.bins| - 1 {
        assert c.bins[i].upper == c.bins[i + 1].lower;
      }
    }
    forall i | 0 <= i < |BoundsOf(c)| - 1 ensures BoundsOf(c)[i] < BoundsOf(c)[i + 1] {
      assert AcceptedBin(c.bins[i]);
    }
  }

  /** Calibration is total: the rate of the one bin that holds the probability. */
  function Calibrated(c: Calibrator, p: real): (r: real)
    requires AcceptedCalibrator(c) && 0.0 <= p <= 1.0
    ensures 0.0 <= r <= 1.0
  {
    BoundsAreBoundaries(c);
    assert AcceptedBin(c.bins[BinOf(BoundsOf(c), p)]);
    c.bins[BinOf(BoundsOf(c), p)].calibrated
  }

  // ---------------------------------------------------------------- fitting

  function Forecasts(ss: seq<CalibrationSample>): (r: seq<Forecast>)
    ensures |r| == |ss| && forall i :: 0 <= i < |ss| ==> r[i] == ss[i].forecast
  {
    if ss == [] then [] else [ss[0].forecast] + Forecasts(ss[1..])
  }

  function BinFor(fs: seq<Forecast>, bs: seq<real>, i: nat): CalibrationBin
    requires i < |bs| - 1
  {
    var members := Members(fs, bs, i);
    CalibrationBin(bs[i], bs[i + 1], if members == [] then 0.0 else Over(members, Ups, 0.0) / |members| as real,
                   |members|)
  }

  /** Each bin has enough samples and is given their UP rate. */
  predicate Fitted(bins: seq<CalibrationBin>, fs: seq<Forecast>, bs: seq<real>, minimum: nat) {
    && |bs| == |bins| + 1
    && forall i :: 0 <= i < |bins| ==> bins[i] == BinFor(fs, bs, i) && bins[i].sampleCount >= minimum
  }

  function Refusal(
    ss: seq<CalibrationSample>, bs: seq<real>, minimum: int, trainedThrough: int): Option<FitError>
  {
    if minimum < 1 then Some(MinimumNotPositive)
    else if |bs| < 2 || bs[0] != 0.0 || bs[|bs| - 1] != 1.0 then Some(BoundariesDoNotSpan)
    else if exists i :: 0 <= i < |bs| - 1 && bs[i] >= bs[i + 1] then Some(BoundariesNotIncreasing)
    else if exists i :: 0 <= i < |ss| && ss[i].observedAt > trainedThrough then Some(SampleAfterCutoff)
    else None
  }

  predicate SomeBinTooSmall(fs: seq<Forecast>, bs: seq<real>, minimum: int) {
    exists i :: 0 <= i < |bs| - 1 && |Members(fs, bs, i)| < minimum
  }

  method Fit(ss: seq<CalibrationSample>, bs: seq<real>, minimum: int, trainedThrough: int)
    returns (r: Result<Calibrator, FitError>)
    requires ValidForecasts(Forecasts(ss))
    ensures var refusal := Refusal(ss, bs, minimum, trainedThrough);
            refusal.Some? ==> r == Err(refusal.value)
    ensures Refusal(ss, bs, minimum, trainedThrough).None? ==>
              && Boundaries(bs)
              && (r.Err? <==> SomeBinTooSmall(Forecasts(ss), bs, minimum))
              && (r.Err? ==> r.error == InsufficientSamples)
              && (r.Ok? ==> r.value.trainedThrough == trainedThrough)
              && (r.Ok? ==> Fitted(r.value.bins, Forecasts(ss), bs, minimum))
  {
    var refusal := Refusal(ss, bs, minimum, trainedThrough);
    if refusal.Some? {
      return Err(refusal.value);
    }
    var bins := FitBins(Forecasts(ss), bs, minimum);
    r := if bins.None? then Err(InsufficientSamples) else Ok(Calibrator(bins.value, trainedThrough));
  }

  /** The bins of the fit, unless one of them has too few samples. */
  method FitBins(fs: seq<Forecast>, bs: seq<real>, minimum: nat) returns (r: Option<seq<CalibrationBin>>)
    requires |bs| >= 2
    ensures r.None? <==> SomeBinTooSmall(fs, bs, minimum)
    ensures r.Some? ==> Fitted(r.value, fs, bs, minimum)
  {
    var bins: seq<CalibrationBin> := [];
    for i := 0 to |bs| - 1
      invariant |bins| == i
      invariant forall k :: 0 <= k < i ==> bins[k] == BinFor(fs, bs, k) && bins[k].sampleCount >= minimum
      invariant forall k :: 0 <= k < i ==> |Members(fs, bs, k)| >= minimum
    {
      if |Members(fs, bs, i)| < minimum {
        assert SomeBinTooSmall(fs, bs, minimum);
        return None;
      }
      bins := bins + [BinFor(fs, bs, i)];
    }
    r := Some(bins);
  }

  // ---------------------------------------------------------------- what a fit satisfies

  lemma RateInUnit(members: seq<Forecast>)
    requires ValidForecasts(members) && members != []
    ensures 0.0 <= Over(members, Ups, 0.0) / |members| as real <= 1.0
  {
    SumBounds(members, 0.0);
    QuotientInUnit(Over(members, Ups, 0.0), |members| as real);
  }

  /** The constructors accept every fit, and its boundaries are the ones it was given. */
  lemma FitIsAccepted(c: Calibrator, fs: seq<Forecast>, bs: seq<real>, minimum: nat)
    requires Boundaries(bs) && ValidForecasts(fs) && minimum >= 1 && Fitted(c.bins, fs, bs, minimum)
    ensures AcceptedCalibrator(c) && BoundsOf(c) == bs
  {
    forall i | 0 <= i < |c.bins| ensures AcceptedBin(c.bins[i]) {
      assert c.bins[i] == BinFor(fs, bs, i);
      MembersAreValid(fs, bs, i);
      RateInUnit(Members(fs, bs, i));
      BoundariesIncrease(bs, 0, i);
      BoundariesIncrease(bs, i + 1, |bs| - 1);
    }
    forall i | 0 <= i < |c.bins| - 1 ensures c.bins[i].upper == c.bins[i + 1].lower {
      assert c.bins[i] == BinFor(fs, bs, i) && c.bins[i + 1] == BinFor(fs, bs, i + 1);
    }
  }

  function CountOf(bins: seq<CalibrationBin>): nat {
    if bins == [] then 0 else CountOf(bins[..|bins| - 1]) + bins[|bins| - 1].sampleCount
  }

  function UpsOf(bins: seq<CalibrationBin>): real {
    if bins == [] then 0.0
    else UpsOf(bins[..|bins| - 1]) + BinUps(bins[|bins| - 1])
  }

  function Rates(bins: seq<CalibrationBin>): (r: seq<real>)
    ensures |r| == |bins| && forall i :: 0 <= i < |bins| ==> r[i] == bins[i].calibrated
  {
    seq(|bins|, i requires 0 <= i < |bins| => bins[i].calibrated)
  }

  lemma BinTotals(fs: seq<Forecast>, bs: seq<real>, i: nat, c: real)
    requires i < |bs| - 1
    ensures BinFor(fs, bs, i).sampleCount as real == Over(Members(fs, bs, i), Number, c)
    ensures BinFor(fs, bs, i).sampleCount >= 1 ==>
              BinUps(BinFor(fs, bs, i)) == Over(Members(fs, bs, i), Ups, c)
  {
    var members := Members(fs, bs, i);
    NumberIsLength(members, c);
    UpsIgnore(members, 0.0, c);
  }

  lemma {:induction false} UpsIgnore(fs: seq<Forecast>, c: real, d: real)
    ensures Over(fs, Ups, c) == Over(fs, Ups, d)
  {
    if fs != [] {
      UpsIgnore(fs[..|fs| - 1], c, d);
    }
  }

  lemma {:induction false} PrefixCounts(
    bins: seq<CalibrationBin>, fs: seq<Forecast>, bs: seq<real>, minimum: nat, g: seq<real>, k: nat)
    requires Fitted(bins, fs, bs, minimum) && k <= |bins| && |g| == |bins|
    ensures CountOf(bins[..k]) as real == AcrossBins(fs, bs, Number, g, k)
  {
    if k > 0 {
      PrefixCounts(bins, fs, bs, minimum, g, k - 1);
      assert bins[..k][..k - 1] == bins[..k - 1];
      assert bins[k - 1] == BinFor(fs, bs, k - 1);
      NumberIsLength(Members(fs, bs, k - 1), g[k - 1]);
    }
  }

  function BinUps(b: CalibrationBin): real {
    b.sampleCount as real * b.calibrated
  }

  lemma UpsOfPrefix(bins: seq<CalibrationBin>, k: nat)
    requires 0 < k <= |bins|
    ensures UpsOf(bins[..k]) == UpsOf(bins[..k - 1]) + BinUps(bins[k - 1])
  {
    assert bins[..k][..k - 1] == bins[..k - 1];
  }

  lemma {:induction false} PrefixUps(
    bins: seq<CalibrationBin>, fs: seq<Forecast>, bs: seq<real>, minimum: nat, g: seq<real>, k: nat)
    requires Fitted(bins, fs, bs, minimum) && minimum >= 1 && k <= |bins| && |g| == |bins|
    ensures UpsOf(bins[..k]) == AcrossBins(fs, bs, Ups, g, k)
  {
    if k > 0 {
      PrefixUps(bins, fs, bs, minimum, g, k - 1);
      UpsOfPrefix(bins, k);
      assert bins[k - 1] == BinFor(fs, bs, k - 1);
      BinTotals(fs, bs, k - 1, g[k - 1]);
    }
  }

  /** The bins account for every sample, and their counts times their rates for every UP outcome. */
  lemma {:induction false} FitCountsEverySample(c: Calibrator, fs: seq<Forecast>, bs: seq<real>, minimum: nat)
    requires Boundaries(bs) && ValidForecasts(fs) && minimum >= 1 && Fitted(c.bins, fs, bs, minimum)
    ensures CountOf(c.bins) == |fs| && UpsOf(c.bins) == Over(fs, Ups, 0.0)
  {
    var g := Rates(c.bins);
    PrefixCounts(c.bins, fs, bs, minimum, g, |c.bins|);
    PrefixUps(c.bins, fs, bs, minimum, g, |c.bins|);
    assert c.bins[..|c.bins|] == c.bins;
    BinsPartition(fs, bs, Number, g);
    BinsPartition(fs, bs, Ups, g);
    DirectIsOver(fs, bs, Number, g, 0.0);
    DirectIsOver(fs, bs, Ups, g, 0.0);
    NumberIsLength(fs, 0.0);
  }

  // ---------------------------------------------------------------- least squares

  /** The squared error of a constant over some forecasts, from their number and their UP outcomes. */
  function Quadratic(n: real, ups: real, c: real): real {
    n * (c * c) - 2.0 * (c * ups) + ups
  }

  lemma QuadraticStep(n: real, ups: real, c: real, o: real)
    requires o == 0.0 || o == 1.0
    ensures Quadratic(n + 1.0, ups + o, c) == Quadratic(n, ups, c) + (c - o) * (c - o)
  {
  }

  lemma {:induction false} ErrorIsQuadratic(fs: seq<Forecast>, c: real)
    ensures Over(fs, ErrorOf, c) == Quadratic(|fs| as real, Over(fs, Ups, c), c)
  {
    if fs == [] {
      assert Over(fs, ErrorOf, c) == 0.0 && Over(fs, Ups, c) == 0.0;
    } else {
      var front := fs[..|fs| - 1];
      ErrorIsQuadratic(front, c);
      QuadraticStep(|front| as real, Over(front, Ups, c), c, Outcome(fs[|fs| - 1]));
    }
  }

  lemma MinimumAtRate(n: real, ups: real, rate: real, c: real)
    requires n > 0.0 && n * rate == ups
    ensures Quadratic(n, ups, rate) <= Quadratic(n, ups, c)
  {
    var d := c - rate;
    assert d * d >= 0.0;
    assert (c - rate) * (c - rate) == c * c - 2.0 * (c * rate) + rate * rate;
    Expand(n, c, rate);
    assert n * ((c - rate) * (c - rate)) >= 0.0;
  }

  lemma Expand(n: real, c: real, rate: real)
    ensures n * ((c - rate) * (c - rate)) == n * (c * c) - 2.0 * (c * (n * rate)) + rate * (n * rate)
  {
  }

  /** Within one bin no constant has a smaller squared error than the bin's rate. */
  lemma RateIsBest(fs: seq<Forecast>, bs: seq<real>, i: nat, c: real)
    requires i < |bs| - 1 && BinFor(fs, bs, i).sampleCount >= 1
    ensures Over(Members(fs, bs, i), ErrorOf, BinFor(fs, bs, i).calibrated) <= Over(Members(fs, bs, i), ErrorOf, c)
  {
    BinTotals(fs, bs, i, c);
    LeastError(Members(fs, bs, i), BinFor(fs, bs, i).calibrated, c);
  }

  lemma LeastError(members: seq<Forecast>, rate: real, c: real)
    requires members != [] && |members| as real * rate == Over(members, Ups, c)
    ensures Over(members, ErrorOf, rate) <= Over(members, ErrorOf, c)
  {
    ErrorIsQuadratic(members, rate);
    ErrorIsQuadratic(members, c);
    UpsIgnore(members, rate, c);
    MinimumAtRate(|members| as real, Over(members, Ups, c), rate, c);
  }

  lemma {:induction false} BestOfPrefix(
    bins: seq<CalibrationBin>, fs: seq<Forecast>, bs: seq<real>, minimum: nat, g: seq<real>, k: nat)
    requires Fitted(bins, fs, bs, minimum) && minimum >= 1 && |g| == |bins| && k <= |bins|
    ensures AcrossBins(fs, bs, ErrorOf, Rates(bins), k) <= AcrossBins(fs, bs, ErrorOf, g, k)
  {
    if k > 0 {
      BestOfPrefix(bins, fs, bs, minimum, g, k - 1);
      assert bins[k - 1] == BinFor(fs, bs, k - 1);
      RateIsBest(fs, bs, k - 1, g[k - 1]);
    }
  }

  /** The squared training error of the calibrator itself. */
  function TrainingError(c: Calibrator, fs: seq<Forecast>): real
    requires AcceptedCalibrator(c) && ValidForecasts(fs)
  {
    if fs == [] then 0.0
    else
      TrainingError(c, fs[..|fs| - 1])
      + Amount(ErrorOf, Calibrated(c, fs[|fs| - 1].p), fs[|fs| - 1])
  }

  lemma {:induction false} TrainingErrorIsDirect(c: Calibrator, fs: seq<Forecast>)
    requires AcceptedCalibrator(c) && ValidForecasts(fs) && Boundaries(BoundsOf(c))
    ensures TrainingError(c, fs) == Direct(fs, BoundsOf(c), ErrorOf, Rates(c.bins))
  {
    if fs != [] {
      TrainingErrorIsDirect(c, fs[..|fs| - 1]);
    }
  }

  /** No predictor that is constant on the given bins has a smaller squared training error. */
  lemma FitIsLeastSquares(c: Calibrator, fs: seq<Forecast>, bs: seq<real>, minimum: nat, g: seq<real>)
    requires Boundaries(bs) && ValidForecasts(fs) && minimum >= 1 && Fitted(c.bins, fs, bs, minimum)
    requires |g| == |c.bins|
    ensures AcceptedCalibrator(c) && TrainingError(c, fs) <= Direct(fs, bs, ErrorOf, g)
  {
    FitIsAccepted(c, fs, bs, minimum);
    TrainingErrorIsDirect(c, fs);
    BinsPartition(fs, bs, ErrorOf, Rates(c.bins));
    BinsPartition(fs, bs, ErrorOf, g);
    BestOfPrefix(c.bins, fs, bs, minimum, g, |c.bins|);
  }

  /** In particular none that ignores the probability, such as the base rate. */
  lemma FitBeatsEveryConstant(c: Calibrator, fs: seq<Forecast>, bs: seq<real>, minimum: nat, constant: real)
    requires Boundaries(bs) && ValidForecasts(fs) && minimum >= 1 && Fitted(c.bins, fs, bs, minimum)
    ensures AcceptedCalibrator(c) && TrainingError(c, fs) <= Over(fs, ErrorOf, constant)
  {
    var g := seq(|c.bins|, i requires 0 <= i < |c.bins| => constant);
    FitIsLeastSquares(c, fs, bs, minimum, g);
    DirectIsOver(fs, bs, ErrorOf, g, constant);
  }
}
