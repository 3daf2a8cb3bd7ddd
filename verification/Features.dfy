/** The directional features of one snapshot, and the identities between them. */
module Features {
  import opened Common

  /** A decimal number and the text it prints as; numerically equal numbers may print differently. */
  datatype Decimal = Decimal(value: real, text: string)

  // ---------------------------------------------------------------- returns

  predicate Positive(prices: seq<real>) {
    forall i :: 0 <= i < |prices| ==> prices[i] > 0.0
  }

  function Return(previous: real, current: real): real
    requires previous > 0.0
  {
    (current - previous) / previous
  }

  function Returns(prices: seq<real>): (r: seq<real>)
    requires Positive(prices)
    ensures |r| == if |prices| == 0 then 0 else |prices| - 1
  {
    seq(if |prices| == 0 then 0 else |prices| - 1, i requires 0 <= i < |prices| - 1 => Return(prices[i], prices[i + 1]))
  }

  function SumAbs(xs: seq<real>): (r: real)
    ensures r >= 0.0
  {
    if xs == [] then 0.0 else RealAbs(xs[0]) + SumAbs(xs[1..])
  }

  function MeanAbs(xs: seq<real>): real {
    if xs == [] then 0.0 else SumAbs(xs) / |xs| as real
  }

  lemma MeanAbsNotNegative(xs: seq<real>)
    ensures MeanAbs(xs) >= 0.0
  {
  }

  /** The product of one plus each return. */
  function Growth(rs: seq<real>): real {
    if rs == [] then 1.0 else (1.0 + rs[0]) * Growth(rs[1..])
  }

  /** The factor carries the first price to the last. */
  predicate Carries(factor: real, first: real, last: real) {
    factor * first == last
  }

  lemma OneReturn(previous: real, current: real)
    requires previous > 0.0
    ensures Carries(1.0 + Return(previous, current), previous, current)
  {
  }

  lemma GrowthUnfolds(prices: seq<real>)
    requires Positive(prices) && |prices| > 1
    ensures Growth(Returns(prices)) == (1.0 + Return(prices[0], prices[1])) * Growth(Returns(prices[1..]))
  {
    assert Returns(prices)[1..] == Returns(prices[1..]);
  }

  lemma {:induction false} GrowthTimesFirst(prices: seq<real>)
    requires Positive(prices) && prices != []
    ensures Carries(Growth(Returns(prices)), prices[0], prices[|prices| - 1])
  {
    if |prices| > 1 {
      GrowthTimesFirst(prices[1..]);
      OneReturn(prices[0], prices[1]);
      GrowthUnfolds(prices);
      Compound(1.0 + Return(prices[0], prices[1]), Growth(Returns(prices[1..])), Growth(Returns(prices)), prices[0],
               prices[1], prices[|prices| - 1]);
    }
  }

  lemma Compound(step: real, rest: real, all: real, first: real, second: real, last: real)
    requires all == step * rest && Carries(step, first, second) && Carries(rest, second, last)
    ensures Carries(all, first, last)
  {
    Rearrange(step, rest, first);
  }

  lemma Rearrange(a: real, b: real, c: real)
    ensures (a * b) * c == b * (a * c)
  {
  }

  lemma CancelRight(a: real, b: real, c: real)
    requires a * c == b * c && c != 0.0
    ensures a == b
  {
  }

  lemma SameFactor(a: real, b: real, first: real, last: real)
    requires Carries(a, first, last) && Carries(b, first, last) && first > 0.0
    ensures a == b
  {
    CancelRight(a, b, first);
  }

  /** The whole move compounds the single ones. */
  lemma MediumReturnCompounds(prices: seq<real>)
    requires Positive(prices) && prices != []
    ensures 1.0 + Return(prices[0], prices[|prices| - 1]) == Growth(Returns(prices))
  {
    GrowthTimesFirst(prices);
    OneReturn(prices[0], prices[|prices| - 1]);
    SameFactor(1.0 + Return(prices[0], prices[|prices| - 1]), Growth(Returns(prices)), prices[0],
               prices[|prices| - 1]);
  }

  // ---------------------------------------------------------------- flips

  /** The signs of the returns that are not zero. */
  function Signs(rs: seq<real>): seq<bool> {
    if rs == [] then [] else (if rs[0] != 0.0 then [rs[0] > 0.0] else []) + Signs(rs[1..])
  }

  function Flips(signs: seq<bool>): (r: nat)
    ensures r <= if signs == [] then 0 else |signs| - 1
  {
    if |signs| < 2 then 0 else (if signs[0] != signs[1] then 1 else 0) + Flips(signs[1..])
  }

  function AtLeastOne(n: int): (r: int)
    ensures r >= 1 && r >= n && (r == n || r == 1)
  {
    if n >= 1 then n else 1
  }

  function FlipRate(rs: seq<real>): (r: real)
  {
    Flips(Signs(rs)) as real / AtLeastOne(|Signs(rs)| - 1) as real
  }

  lemma FlipRateInUnit(rs: seq<real>)
    ensures 0.0 <= FlipRate(rs) <= 1.0
    ensures FlipRate(rs) == 0.0 <==> Flips(Signs(rs)) == 0
  {
    var n, d := Flips(Signs(rs)), AtLeastOne(|Signs(rs)| - 1);
    assert n <= d;
  }

  lemma {:induction false} SignsOf(rs: seq<real>, k: nat)
    requires k < |rs| && rs[k] != 0.0
    ensures (rs[k] > 0.0) in Signs(rs)
  {
    if k > 0 {
      SignsOf(rs[1..], k - 1);
    }
  }

  lemma {:induction false} NoFlipMeansOneSign(signs: seq<bool>)
    requires Flips(signs) == 0
    ensures forall i :: 0 <= i < |signs| ==> signs[i] == signs[0]
  {
    if |signs| >= 2 {
      NoFlipMeansOneSign(signs[1..]);
      assert forall i :: 0 < i < |signs| ==> signs[i] == signs[1..][i - 1];
    }
  }

  predicate Monotone(prices: seq<real>, up: bool) {
    forall i :: 0 <= i < |prices| - 1 ==> if up then prices[i] <= prices[i + 1] else prices[i] >= prices[i + 1]
  }

  lemma {:induction false} MonotoneCarries(prices: seq<real>, up: bool, i: nat, j: nat)
    requires Monotone(prices, up) && i <= j < |prices|
    ensures if up then prices[i] <= prices[j] else prices[i] >= prices[j]
  {
    if i < j {
      MonotoneCarries(prices, up, i, j - 1);
      assert Monotone(prices, up) && prices[j - 1 + 1] == prices[j];
    }
  }

  lemma ReturnSign(previous: real, current: real)
    requires previous > 0.0
    ensures Return(previous, current) > 0.0 <==> current > previous
    ensures Return(previous, current) < 0.0 <==> current < previous
  {
    var r := Return(previous, current);
    assert r * previous == current - previous;
  }

  /** With no flips, the whole move has the sign of any single move that is not zero. */
  lemma SteadySignCarries(prices: seq<real>, k: nat)
    requires Positive(prices) && k < |Returns(prices)| && Returns(prices)[k] != 0.0
    requires FlipRate(Returns(prices)) == 0.0
    ensures Returns(prices)[k] > 0.0 <==> Return(prices[0], prices[|prices| - 1]) > 0.0
    ensures Returns(prices)[k] < 0.0 <==> Return(prices[0], prices[|prices| - 1]) < 0.0
  {
    var rs := Returns(prices);
    FlipRateInUnit(rs);
    NoFlipMeansOneSign(Signs(rs));
    forall i, j | 0 <= i < |rs| && 0 <= j < |rs| && rs[i] != 0.0 && rs[j] != 0.0
      ensures (rs[i] > 0.0) == (rs[j] > 0.0)
    {
      SignsOf(rs, i);
      SignsOf(rs, j);
    }
    var up := rs[k] > 0.0;
    forall i | 0 <= i < |rs|
      ensures if up then prices[i] <= prices[i + 1] else prices[i] >= prices[i + 1]
    {
      assert rs[i] == Return(prices[i], prices[i + 1]);
      ReturnSign(prices[i], prices[i + 1]);
    }
    MonotoneCarries(prices, up, 0, k);
    MonotoneCarries(prices, up, k + 1, |prices| - 1);
    ReturnSign(prices[k], prices[k + 1]);
    ReturnSign(prices[0], prices[|prices| - 1]);
  }

  // ---------------------------------------------------------------- steady growth

  predicate Constant(xs: seq<real>, x: real) {
    forall i :: 0 <= i < |xs| ==> xs[i] == x
  }

  lemma {:induction false} SumAbsOfConstant(xs: seq<real>, x: real)
    requires Constant(xs, x)
    ensures SumAbs(xs) == RealAbs(x) * |xs| as real
  {
    if xs != [] {
      SumAbsOfConstant(xs[1..], x);
    }
  }

  lemma MeanAbsOfConstant(xs: seq<real>, x: real)
    requires Constant(xs, x) && xs != []
    ensures MeanAbs(xs) == RealAbs(x)
  {
    SumAbsOfConstant(xs, x);
  }

  lemma {:induction false} SignsOfConstant(xs: seq<real>, x: real)
    requires Constant(xs, x)
    ensures forall i :: 0 <= i < |Signs(xs)| ==> Signs(xs)[i] == (x > 0.0)
  {
    if xs != [] {
      SignsOfConstant(xs[1..], x);
    }
  }

  lemma {:induction false} OneSignNeverFlips(signs: seq<bool>, up: bool)
    requires forall i :: 0 <= i < |signs| ==> signs[i] == up
    ensures Flips(signs) == 0
  {
    if |signs| >= 2 {
      OneSignNeverFlips(signs[1..], up);
    }
  }

  lemma FlipRateOfConstant(xs: seq<real>, x: real)
    requires Constant(xs, x)
    ensures FlipRate(xs) == 0.0
  {
    SignsOfConstant(xs, x);
    OneSignNeverFlips(Signs(xs), x > 0.0);
    FlipRateInUnit(xs);
  }

  // ---------------------------------------------------------------- imbalances

  function Imbalance(bid: real, ask: real): real
    requires bid + ask != 0.0
  {
    (bid - ask) / (bid + ask)
  }

  lemma ImbalanceInUnit(bid: real, ask: real)
    requires bid >= 0.0 && ask >= 0.0 && bid + ask > 0.0
    ensures -1.0 <= Imbalance(bid, ask) <= 1.0
  {
    RatioInUnit(bid - ask, bid + ask);
  }

  lemma RatioInUnit(part: real, all: real)
    requires all > 0.0 && -all <= part <= all
    ensures -1.0 <= part / all <= 1.0
  {
    QuotientTimes(part, all);
    WithinUnit(part / all, part, all);
  }

  lemma WithinUnit(ratio: real, part: real, all: real)
    requires all > 0.0 && -all <= part <= all && ratio * all == part
    ensures -1.0 <= ratio <= 1.0
  {
  }

  function MicropriceDistance(bid: real, bidSize: real, ask: real, askSize: real): real
    requires bidSize + askSize != 0.0 && bid + ask != 0.0
  {
    var mid := (bid + ask) / 2.0;
    var microprice := (ask * bidSize + bid * askSize) / (bidSize + askSize);
    (microprice - mid) / mid
  }

  /** The microprice leaves the midpoint by the imbalance times half the relative spread. */
  lemma MicropriceFollowsImbalance(bid: real, bidSize: real, ask: real, askSize: real)
    requires bid > 0.0 && ask > 0.0 && bidSize > 0.0 && askSize > 0.0
    ensures MicropriceDistance(bid, bidSize, ask, askSize) == Imbalance(bidSize, askSize) * ((ask - bid) / (ask + bid))
  {
    var depth, sum := bidSize + askSize, bid + ask;
    var mid := sum / 2.0;
    var weighted := ask * bidSize + bid * askSize;
    var imbalance := Imbalance(bidSize, askSize);
    var spread := (ask - bid) / sum;
    QuotientTimes(weighted, depth);
    QuotientTimes(bidSize - askSize, depth);
    QuotientTimes(ask - bid, sum);
    QuotientTimes(weighted / depth - mid, mid);
    CrossProduct(bid, bidSize, ask, askSize);
    MicropriceAlgebra(MicropriceDistance(bid, bidSize, ask, askSize), weighted / depth, imbalance, spread, weighted,
                      depth, sum, ask - bid, bidSize - askSize);
  }

  lemma CrossProduct(bid: real, bidSize: real, ask: real, askSize: real)
    ensures 2.0 * (ask * bidSize + bid * askSize) - (bidSize + askSize) * (bid + ask)
            == (bidSize - askSize) * (ask - bid)
  {
    assert 2.0 * (ask * bidSize + bid * askSize) == 2.0 * (ask * bidSize) + 2.0 * (bid * askSize);
    assert (bidSize + askSize) * (bid + ask) == bidSize * bid + bidSize * ask + askSize * bid + askSize * ask;
    assert (bidSize - askSize) * (ask - bid) == bidSize * ask - bidSize * bid - askSize * ask + askSize * bid;
  }

  lemma MicropriceAlgebra(
    distance: real, microprice: real, imbalance: real, spread: real, weighted: real, depth: real, sum: real,
    width: real, tilt: real)
    requires depth > 0.0 && sum > 0.0
    requires microprice * depth == weighted && imbalance * depth == tilt && spread * sum == width
    requires distance * (sum / 2.0) == microprice - sum / 2.0
    requires 2.0 * weighted - depth * sum == tilt * width
    ensures distance == imbalance * spread
  {
    assert distance * sum == 2.0 * microprice - sum;
    Scaled(2.0 * microprice - sum, 2.0 * weighted - depth * sum, depth, microprice, weighted, sum);
    Products(imbalance, spread, depth, sum);
    assert (distance * sum) * depth == (imbalance * spread) * (sum * depth);
    Rearrange(distance, sum, depth);
    assert distance * (sum * depth) == (imbalance * spread) * (sum * depth);
    assert sum * depth > 0.0;
    CancelRight(distance, imbalance * spread, sum * depth);
  }

  lemma Scaled(x: real, y: real, depth: real, microprice: real, weighted: real, sum: real)
    requires x == 2.0 * microprice - sum && microprice * depth == weighted && y == 2.0 * weighted - depth * sum
    ensures x * depth == y
  {
  }

  lemma Products(a: real, b: real, c: real, d: real)
    ensures (a * c) * (b * d) == (a * b) * (d * c)
  {
    assert (a * c) * (b * d) == a * (c * (b * d));
    assert c * (b * d) == b * (d * c);
  }
}
