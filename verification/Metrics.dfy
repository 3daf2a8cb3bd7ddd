/**
 * Evaluation of a model's observations: scores, ten-bin calibration error and drawdown, with what
 * each of them bounds.
 */
module Metrics {
  import opened Common
  import opened Canonical
  import opened Bins

  datatype Observation = Observation(
    bucket: Bucket,
    clusterId: string,
    observedAt: int,
    forecast: Forecast,
    pnl: Option<real>)

  datatype EvaluationError = NoObservations | PooledBuckets

  datatype Metrics = Metrics(
    count: nat,
    brier: real,
    logLoss: real,
    ece: real,
    accuracy: real,
    coverage: real,
    expectancy: Option<real>,
    maximumDrawdown: real)

  function ForecastsOf(os: seq<Observation>): (r: seq<Forecast>)
    ensures |r| == |os| && forall i :: 0 <= i < |os| ==> r[i] == os[i].forecast
  {
    seq(|os|, i requires 0 <= i < |os| => os[i].forecast)
  }

  predicate ValidObservations(os: seq<Observation>) {
    forall i :: 0 <= i < |os| ==> 0.0 <= os[i].forecast.p <= 1.0
  }

  // ---------------------------------------------------------------- calibration error

  function Tenths(): (r: seq<real>)
    ensures |r| == 11
  {
    seq(11, i => i as real / 10.0)
  }

  lemma TenthsAreBoundaries()
    ensures Boundaries(Tenths())
  {
  }

  /** How far a bin's probabilities lie from its outcomes, in number of forecasts. */
  function Gap(members: seq<Forecast>): (r: real)
    ensures r >= 0.0
  {
    RealAbs(Over(members, Mass, 0.0) - Over(members, Ups, 0.0))
  }

  function GapTo(fs: seq<Forecast>, k: nat): (r: real)
    requires k <= 10
    ensures r >= 0.0
  {
    if k == 0 then 0.0 else GapTo(fs, k - 1) + Gap(Members(fs, Tenths(), k - 1))
  }

  /** The bins' gaps, averaged over the forecasts. */
  function Ece(fs: seq<Forecast>): real
    requires fs != []
  {
    Share(GapTo(fs, 10), |fs| as real)
  }

  /** What the program adds for a bin with members. */
  function Contribution(members: seq<Forecast>, total: real): real
    requires members != [] && total > 0.0
  {
    var n := |members| as real;
    n / total * RealAbs(Over(members, Mass, 0.0) / n - Over(members, Ups, 0.0) / n)
  }

  function Share(part: real, total: real): real
    requires total > 0.0
  {
    part / total
  }

  lemma WeightedGap(members: seq<Forecast>, total: real)
    requires members != [] && total > 0.0
    ensures Contribution(members, total) == Share(Gap(members), total)
  {
    Weighted(|members| as real, Over(members, Mass, 0.0), Over(members, Ups, 0.0), total);
  }

  lemma Weighted(n: real, mass: real, ups: real, total: real)
    requires n > 0.0 && total > 0.0
    ensures n / total * RealAbs(mass / n - ups / n) == RealAbs(mass - ups) / total
  {
    var d := mass / n - ups / n;
    assert (mass / n) * n == mass && (ups / n) * n == ups;
    assert d * n == mass - ups;
    AbsTimes(d, n);
    Reassociate(n, total, RealAbs(d), RealAbs(mass - ups));
  }

  lemma AbsTimes(d: real, n: real)
    requires n > 0.0
    ensures RealAbs(d) * n == RealAbs(d * n)
  {
  }

  lemma Reassociate(n: real, total: real, d: real, product: real)
    requires total > 0.0 && d * n == product
    ensures n / total * d == product / total
  {
    var q := n / total;
    assert q * total == n;
    assert (q * d) * total == d * (q * total);
    Divided(q * d, product, total);
  }

  lemma Divided(x: real, y: real, total: real)
    requires total > 0.0 && x * total == y
    ensures x == y / total
  {
  }

  /** The loop over the ten bins. */
  method ExpectedCalibrationError(fs: seq<Forecast>) returns (r: real)
    requires fs != []
    ensures r == Ece(fs)
  {
    var total := |fs| as real;
    r := 0.0;
    for i := 0 to 10
      invariant r == Share(GapTo(fs, i), total)
    {
      var members := Members(fs, Tenths(), i);
      if members != [] {
        WeightedGap(members, total);
        r := r + Contribution(members, total);
      }
      AddShares(GapTo(fs, i), Gap(members), total);
    }
  }

  lemma AddShares(x: real, y: real, total: real)
    requires total > 0.0
    ensures Share(x, total) + Share(y, total) == Share(x + y, total)
  {
    assert (x / total + y / total) * total == x + y;
    Divided(x / total + y / total, x + y, total);
  }

  /** No predictor is compared here, so any values will do for the sums across the bins. */
  const UNUSED: seq<real> := [0.0, 0.0, 0.0, 0.0, 0.0, 0.0, 0.0, 0.0, 0.0, 0.0]

  lemma {:induction false} GapsBound(fs: seq<Forecast>, k: nat)
    requires ValidForecasts(fs) && k <= 10
    ensures var bs := Tenths();
            && RealAbs(AcrossBins(fs, bs, Mass, UNUSED, k) - AcrossBins(fs, bs, Ups, UNUSED, k)) <= GapTo(fs, k)
            && GapTo(fs, k) <= AcrossBins(fs, bs, Number, UNUSED, k)
  {
    if k > 0 {
      GapsBound(fs, k - 1);
      var members := Members(fs, Tenths(), k - 1);
      MembersAreValid(fs, Tenths(), k - 1);
      SumBounds(members, 0.0);
      NumberIsLength(members, 0.0);
    }
  }

  lemma TenthsPartition(fs: seq<Forecast>, m: Measure)
    requires ValidForecasts(fs) && !m.ErrorOf?
    ensures AcrossBins(fs, Tenths(), m, UNUSED, 10) == Over(fs, m, 0.0)
  {
    TenthsAreBoundaries();
    BinsPartition(fs, Tenths(), m, UNUSED);
    DirectIsOver(fs, Tenths(), m, UNUSED, 0.0);
  }

  /** The error bounds the distance of the mean probability from the outcome rate, and is at most one. */
  lemma EceBounds(fs: seq<Forecast>)
    requires ValidForecasts(fs) && fs != []
    ensures var n := |fs| as real;
            RealAbs(Over(fs, Mass, 0.0) / n - Over(fs, Ups, 0.0) / n) <= Ece(fs) <= 1.0
  {
    GapsBound(fs, 10);
    TenthsPartition(fs, Mass);
    TenthsPartition(fs, Ups);
    TenthsPartition(fs, Number);
    NumberIsLength(fs, 0.0);
    MeanBound(Over(fs, Mass, 0.0), Over(fs, Ups, 0.0), GapTo(fs, 10), |fs| as real);
  }

  lemma MeanBound(mass: real, ups: real, gap: real, n: real)
    requires n > 0.0 && RealAbs(mass - ups) <= gap <= n
    ensures RealAbs(mass / n - ups / n) <= gap / n <= 1.0
  {
    var d := mass / n - ups / n;
    assert (mass / n) * n == mass && (ups / n) * n == ups;
    assert d * n == mass - ups;
    AbsTimes(d, n);
    QuotientOrder(RealAbs(d), gap, n);
  }

  lemma QuotientOrder(x: real, y: real, n: real)
    requires n > 0.0 && x * n <= y <= n
    ensures x <= y / n <= 1.0
  {
    assert (y / n) * n == y;
  }

  // ---------------------------------------------------------------- calibration error against the Brier score

  lemma SquareStep(a: real, s: real, t: real)
    requires s == 1.0 || s == -1.0
    ensures a * a >= 2.0 * (s * t * a) - t * t
  {
    var b := a - s * t;
    assert b * b >= 0.0;
    if s == 1.0 {
      assert b == a - t;
    } else {
      assert b == a + t;
    }
  }

  /** A squared error is at least what a gap forces, for the tangent at t. */
  predicate Forces(gap: real, n: real, t: real, brier: real) {
    brier >= 2.0 * (t * gap) - n * (t * t)
  }

  lemma ForcesTogether(gap: real, n: real, brier: real, gap': real, n': real, brier': real, t: real)
    requires Forces(gap, n, t, brier) && Forces(gap', n', t, brier')
    ensures Forces(gap + gap', n + n', t, brier + brier')
  {
    assert t * (gap + gap') == t * gap + t * gap';
    assert (n + n') * (t * t) == n * (t * t) + n' * (t * t);
  }

  /** The signed gap of some forecasts, for the sign s. */
  function Signed(members: seq<Forecast>, s: real): real {
    s * (Over(members, Mass, 0.0) - Over(members, Ups, 0.0))
  }

  lemma OneForces(f: Forecast, s: real, t: real)
    requires s == 1.0 || s == -1.0
    ensures Forces(s * (f.p - Outcome(f)), 1.0, t, Amount(Brier, 0.0, f))
  {
    var a := f.p - Outcome(f);
    SquareStep(a, s, t);
    assert s * t * a == t * (s * a);
  }

  lemma {:induction false} MembersForce(members: seq<Forecast>, s: real, t: real)
    requires s == 1.0 || s == -1.0
    ensures Forces(Signed(members, s), |members| as real, t, Over(members, Brier, 0.0))
  {
    if members == [] {
      assert Signed(members, s) == 0.0;
    } else {
      var front, f := members[..|members| - 1], members[|members| - 1];
      MembersForce(front, s, t);
      OneForces(f, s, t);
      ForcesTogether(Signed(front, s), |front| as real, Over(front, Brier, 0.0), s * (f.p - Outcome(f)), 1.0,
                     Amount(Brier, 0.0, f), t);
      SignedAppends(members, s);
    }
  }

  lemma SignedAppends(members: seq<Forecast>, s: real)
    requires members != []
    ensures var f := members[|members| - 1];
            Signed(members, s) == Signed(members[..|members| - 1], s) + s * (f.p - Outcome(f))
  {
  }

  /** A bin's squared errors are at least what its gap forces. */
  lemma GapForcesError(members: seq<Forecast>, t: real)
    ensures Forces(Gap(members), |members| as real, t, Over(members, Brier, 0.0))
  {
    var s := if Over(members, Mass, 0.0) - Over(members, Ups, 0.0) < 0.0 then -1.0 else 1.0;
    MembersForce(members, s, t);
    assert Signed(members, s) == Gap(members);
  }

  lemma {:induction false} GapsForceError(fs: seq<Forecast>, t: real, k: nat)
    requires k <= 10
    ensures Forces(GapTo(fs, k), AcrossBins(fs, Tenths(), Number, UNUSED, k), t,
                   AcrossBins(fs, Tenths(), Brier, UNUSED, k))
  {
    if k > 0 {
      GapsForceError(fs, t, k - 1);
      var members := Members(fs, Tenths(), k - 1);
      GapForcesError(members, t);
      NumberIsLength(members, 0.0);
      ForcesTogether(GapTo(fs, k - 1), AcrossBins(fs, Tenths(), Number, UNUSED, k - 1),
                     AcrossBins(fs, Tenths(), Brier, UNUSED, k - 1), Gap(members), |members| as real,
                     Over(members, Brier, 0.0), t);
    }
  }

  predicate SquareAtMost(t: real, bound: real) {
    t * t <= bound
  }

  /** A model cannot be worse calibrated than its squared error: the Brier score is at least the error's square. */
  lemma EceSquaredAtMostBrier(fs: seq<Forecast>)
    requires ValidForecasts(fs) && fs != []
    ensures SquareAtMost(Ece(fs), Share(Over(fs, Brier, 0.0), |fs| as real))
  {
    GapsForceError(fs, Ece(fs), 10);
    TenthsPartition(fs, Brier);
    TenthsPartition(fs, Number);
    NumberIsLength(fs, 0.0);
    BrierBound(Over(fs, Brier, 0.0), GapTo(fs, 10), Ece(fs), |fs| as real);
  }

  lemma BrierBound(brier: real, gap: real, t: real, n: real)
    requires n > 0.0 && t == Share(gap, n) && Forces(gap, n, t, brier)
    ensures SquareAtMost(t, Share(brier, n))
  {
    assert t * n == gap;
    assert t * gap == (t * t) * n;
    assert brier >= (t * t) * n;
    assert (brier / n) * n == brier;
  }

  // ---------------------------------------------------------------- drawdown

  /** The equity after the first k results. */
  function Equity(pnls: seq<real>, k: nat): real
    requires k <= |pnls|
  {
    if k == 0 then 0.0 else Equity(pnls, k - 1) + pnls[k - 1]
  }

  /** The fall from an earlier equity to a later one. */
  function Fall(pnls: seq<real>, i: nat, j: nat): real
    requires i <= j <= |pnls|
  {
    Equity(pnls, i) - Equity(pnls, j)
  }

  /** One pass gives the largest fall from any equity, the starting one included, to any later one. */
  method MaximumDrawdown(pnls: seq<real>) returns (maximum: real)
    ensures forall i, j :: 0 <= i <= j <= |pnls| ==> Fall(pnls, i, j) <= maximum
    ensures exists i, j :: 0 <= i <= j <= |pnls| && maximum == Fall(pnls, i, j)
  {
    var equity, peak := 0.0, 0.0;
    maximum := 0.0;
    ghost var high, from, till := 0, 0, 0;
    for k := 0 to |pnls|
      invariant equity == Equity(pnls, k)
      invariant 0 <= high <= k && peak == Equity(pnls, high)
      invariant forall i :: 0 <= i <= k ==> Equity(pnls, i) <= peak
      invariant 0 <= from <= till <= k && maximum == Fall(pnls, from, till)
      invariant forall i, j :: 0 <= i <= j <= k ==> Fall(pnls, i, j) <= maximum
    {
      equity := equity + pnls[k];
      if equity > peak {
        peak, high := equity, k + 1;
      }
      if peak - equity > maximum {
        maximum, from, till := peak - equity, high, k + 1;
      }
      assert forall i :: 0 <= i <= k + 1 ==> Equity(pnls, i) <= peak;
      forall i, j | 0 <= i <= j <= k + 1 ensures Fall(pnls, i, j) <= maximum {
        if j == k + 1 {
          assert Equity(pnls, i) <= peak;
        }
      }
    }
  }

  // ---------------------------------------------------------------- log loss

  const EPSILON := 0.000000000001

  function Clamped(p: real): (r: real)
    ensures EPSILON <= r <= 1.0 - EPSILON
    ensures EPSILON <= p <= 1.0 - EPSILON ==> r == p
  {
    var raised := if p > EPSILON then p else EPSILON;
    if raised < 1.0 - EPSILON then raised else 1.0 - EPSILON
  }

  function Loss(f: Forecast, ln: real -> real): real {
    var p, outcome := Clamped(f.p), Outcome(f);
    -(outcome * ln(p) + (1.0 - outcome) * ln(1.0 - p))
  }

  function LossOver(fs: seq<Forecast>, ln: real -> real): real {
    if fs == [] then 0.0 else LossOver(fs[..|fs| - 1], ln) + Loss(fs[|fs| - 1], ln)
  }

  predicate TangentAt(ln: real -> real, x: real) {
    x > 0.0 ==> ln(x) <= x - 1.0
  }

  predicate AddsUpAt(ln: real -> real, x: real, y: real, product: real) {
    x > 0.0 && y > 0.0 && product == x * y ==> ln(product) == ln(x) + ln(y)
  }

  /** The natural logarithm, by two laws that only it has. */
  ghost predicate IsLogarithm(ln: real -> real) {
    && (forall x :: TangentAt(ln, x))
    && (forall x, y, product :: AddsUpAt(ln, x, y, product))
  }

  lemma LogarithmGrows(ln: real -> real, x: real, y: real)
    requires IsLogarithm(ln) && 0.0 < x <= y
    ensures ln(x) <= ln(y)
  {
    var ratio := x / y;
    assert y * ratio == x;
    RatioInUnit(x, y);
    assert AddsUpAt(ln, y, ratio, x) && TangentAt(ln, ratio);
  }

  lemma RatioInUnit(x: real, y: real)
    requires 0.0 < x <= y
    ensures 0.0 < x / y <= 1.0
  {
  }

  /** The clamped ends cost more than any squared error. */
  lemma EndCostsMore(ln: real -> real)
    requires IsLogarithm(ln)
    ensures -ln(EPSILON) >= 1.0
  {
    var root := 0.000001;
    assert root * root == EPSILON;
    assert AddsUpAt(ln, root, root, EPSILON) && TangentAt(ln, root);
  }

  lemma SquareInUnit(x: real, bound: real)
    requires 0.0 <= x <= 1.0 && x <= bound
    ensures SquareAtMost(x, bound)
  {
    assert x * x <= x * 1.0;
  }

  /** What it costs to have given the outcome the probability p: no less than the squared error. */
  lemma MissCostsMore(ln: real -> real, p: real)
    requires IsLogarithm(ln) && 0.0 <= p <= 1.0
    ensures SquareAtMost(1.0 - p, -ln(Clamped(p))) && -ln(Clamped(p)) <= -ln(EPSILON)
  {
    LogarithmGrows(ln, EPSILON, Clamped(p));
    if p > EPSILON {
      assert TangentAt(ln, Clamped(p)) && Clamped(p) <= p;
    } else {
      EndCostsMore(ln);
      assert Clamped(p) == EPSILON;
    }
    SquareInUnit(1.0 - p, -ln(Clamped(p)));
  }

  lemma LossCoversError(ln: real -> real, f: Forecast)
    requires IsLogarithm(ln) && 0.0 <= f.p <= 1.0
    ensures Amount(Brier, 0.0, f) <= Loss(f, ln) <= -ln(EPSILON)
  {
    if f.up {
      MissCostsMore(ln, f.p);
      assert (f.p - 1.0) * (f.p - 1.0) == (1.0 - f.p) * (1.0 - f.p);
    } else {
      MissCostsMore(ln, 1.0 - f.p);
      assert Clamped(1.0 - f.p) == 1.0 - Clamped(f.p);
      assert 1.0 - (1.0 - f.p) == f.p;
    }
  }

  predicate AtMostTimes(x: real, n: real, most: real) {
    x <= n * most
  }

  lemma OneMoreTime(x: real, y: real, n: real, most: real)
    requires AtMostTimes(x, n, most) && y <= most
    ensures AtMostTimes(x + y, n + 1.0, most)
  {
  }

  lemma {:induction false} LossesCoverErrors(ln: real -> real, fs: seq<Forecast>)
    requires IsLogarithm(ln) && ValidForecasts(fs)
    ensures Over(fs, Brier, 0.0) <= LossOver(fs, ln)
    ensures AtMostTimes(LossOver(fs, ln), |fs| as real, -ln(EPSILON))
  {
    if fs != [] {
      var front, f := fs[..|fs| - 1], fs[|fs| - 1];
      LossesCoverErrors(ln, front);
      LossCoversError(ln, f);
      OneMoreTime(LossOver(front, ln), Loss(f, ln), |front| as real, -ln(EPSILON));
    }
  }

  // ---------------------------------------------------------------- the evaluation

  function Executed(os: seq<Observation>): seq<real> {
    if os == [] then []
    else Executed(os[..|os| - 1]) + if os[|os| - 1].pnl.Some? then [os[|os| - 1].pnl.value] else []
  }

  function Total(xs: seq<real>): real {
    if xs == [] then 0.0 else Total(xs[..|xs| - 1]) + xs[|xs| - 1]
  }

  predicate Right(f: Forecast) {
    (f.p >= 0.5) == f.up
  }

  function Correct(fs: seq<Forecast>): (r: nat)
    ensures r <= |fs|
  {
    if fs == [] then 0 else Correct(fs[..|fs| - 1]) + if Right(fs[|fs| - 1]) then 1 else 0
  }

  method LossesAndCorrect(fs: seq<Forecast>, ln: real -> real) returns (losses: real, correct: nat)
    ensures losses == LossOver(fs, ln) && correct == Correct(fs)
  {
    losses, correct := 0.0, 0;
    for i := 0 to |fs|
      invariant losses == LossOver(fs[..i], ln) && correct == Correct(fs[..i])
    {
      assert fs[..i + 1][..i] == fs[..i];
      losses := losses + Loss(fs[i], ln);
      if Right(fs[i]) {
        correct := correct + 1;
      }
    }
    assert fs[..|fs|] == fs;
  }

  predicate Pooled(os: seq<Observation>) {
    exists i :: 0 <= i < |os| && os[i].bucket != os[0].bucket
  }

  /** The drawdown of a sequence of results, as its largest fall. */
  ghost predicate IsDrawdown(pnls: seq<real>, d: real) {
    && (forall i, j :: 0 <= i <= j <= |pnls| ==> Fall(pnls, i, j) <= d)
    && exists i, j :: 0 <= i <= j <= |pnls| && d == Fall(pnls, i, j)
  }

  ghost predicate Scores(os: seq<Observation>, ln: real -> real, m: Metrics)
    requires os != []
  {
    var fs, executed := ForecastsOf(os), Executed(os);
    && m.count == |os|
    && m.brier == Share(Over(fs, Brier, 0.0), |os| as real)
    && m.logLoss == Share(LossOver(fs, ln), |os| as real)
    && m.ece == Ece(fs)
    && m.accuracy == Share(Correct(fs) as real, |os| as real)
    && m.coverage == Share(|executed| as real, |os| as real)
    && m.expectancy == (if executed == [] then None else Some(Share(Total(executed), |executed| as real)))
    && IsDrawdown(executed, m.maximumDrawdown)
  }

  method Evaluate(os: seq<Observation>, ln: real -> real) returns (r: Result<Metrics, EvaluationError>)
    ensures os == [] ==> r == Err(NoObservations)
    ensures os != [] && Pooled(os) ==> r == Err(PooledBuckets)
    ensures os != [] && !Pooled(os) ==> r.Ok? && Scores(os, ln, r.value)
  {
    if os == [] {
      return Err(NoObservations);
    }
    if Pooled(os) {
      return Err(PooledBuckets);
    }
    var fs, executed := ForecastsOf(os), Executed(os);
    var n := |os| as real;
    var losses, correct := LossesAndCorrect(fs, ln);
    var ece := ExpectedCalibrationError(fs);
    var drawdown := MaximumDrawdown(executed);
    var expectancy := if executed == [] then None else Some(Share(Total(executed), |executed| as real));
    r := Ok(Metrics(|os|, Share(Over(fs, Brier, 0.0), n), Share(losses, n), ece, Share(correct as real, n),
                    Share(|executed| as real, n), expectancy, drawdown));
  }

  lemma {:induction false} ExecutedFits(os: seq<Observation>)
    ensures |Executed(os)| <= |os|
  {
    if os != [] {
      ExecutedFits(os[..|os| - 1]);
    }
  }

  lemma ErrorInUnit(f: Forecast)
    requires 0.0 <= f.p <= 1.0
    ensures 0.0 <= Amount(Brier, 0.0, f) <= 1.0
  {
    var a := RealAbs(f.p - Outcome(f));
    assert 0.0 <= a <= 1.0;
    assert 0.0 <= a * a <= a * 1.0;
  }

  lemma {:induction false} BrierBounds(fs: seq<Forecast>)
    requires ValidForecasts(fs)
    ensures 0.0 <= Over(fs, Brier, 0.0) <= |fs| as real
  {
    if fs != [] {
      BrierBounds(fs[..|fs| - 1]);
      ErrorInUnit(fs[|fs| - 1]);
    }
  }

  lemma MeansKeepOrder(x: real, y: real, most: real, n: real)
    requires n > 0.0 && x <= y && AtMostTimes(y, n, most)
    ensures Share(x, n) <= Share(y, n) <= most
  {
    AddShares(x, y - x, n);
    AddShares(y, n * most - y, n);
    Divided(most, n * most, n);
  }

  /** The mean log loss is at least the Brier score, and the clamp bounds it. */
  lemma LogLossCoversBrier(fs: seq<Forecast>, ln: real -> real, n: real)
    requires IsLogarithm(ln) && ValidForecasts(fs) && fs != [] && n == |fs| as real
    ensures Share(Over(fs, Brier, 0.0), n) <= Share(LossOver(fs, ln), n) <= -ln(EPSILON)
  {
    LossesCoverErrors(ln, fs);
    MeansKeepOrder(Over(fs, Brier, 0.0), LossOver(fs, ln), -ln(EPSILON), n);
  }

  /**
   * Every score lies in its range; the square of the calibration error is at most the Brier score,
   * and that at most the log loss, which the clamp bounds.
   */
  lemma ScoresAreConsistent(os: seq<Observation>, ln: real -> real, m: Metrics)
    requires os != [] && ValidObservations(os) && IsLogarithm(ln) && Scores(os, ln, m)
    ensures m.brier <= m.logLoss <= -ln(EPSILON)
    ensures 0.0 <= m.brier <= 1.0 && 0.0 <= m.accuracy <= 1.0 && 0.0 <= m.coverage <= 1.0
    ensures m.ece <= 1.0 && SquareAtMost(m.ece, m.brier)
    ensures m.maximumDrawdown >= 0.0
  {
    var fs, n := ForecastsOf(os), |os| as real;
    LogLossCoversBrier(fs, ln, n);
    BrierBounds(fs);
    QuotientInUnit(Over(fs, Brier, 0.0), n);
    QuotientInUnit(Correct(fs) as real, n);
    ExecutedFits(os);
    QuotientInUnit(|Executed(os)| as real, n);
    EceBounds(fs);
    EceSquaredAtMostBrier(fs);
    assert Fall(Executed(os), 0, 0) <= m.maximumDrawdown;
  }
}
