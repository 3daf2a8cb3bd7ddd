/** The per-level fee: maker, basis-point and dynamic modes, rounded half up to five decimals. */
module Fees {
  import opened Common

  datatype Role = Maker | Taker
  datatype Mode = Dynamic | Bps

  datatype FeeSchedule = FeeSchedule(
    conditionId: string,
    makerBaseBps: real,
    takerBaseBps: real,
    rate: Option<real>,
    exponent: Option<real>,
    recvTs: int,
    mode: Mode)

  predicate ValidSchedule(s: FeeSchedule) {
    && s.makerBaseBps >= 0.0 && s.takerBaseBps >= 0.0
    && (s.rate.Some? ==> s.rate.value >= 0.0)
    && (s.exponent.Some? ==> s.exponent.value >= 0.0)
  }

  datatype PricingError =
    | MakerFormulaUnsupported
    | DynamicParametersIncomplete
    | ExponentNotInteger
    | InvalidPower
    | ConditionMismatch
    | ScheduleInFuture
    | ScheduleStale
    | BookSourceMissing
    | BookInFuture
    | BookStale
    | NegativeProceeds

  function Power(base: real, n: nat): real {
    if n == 0 then 1.0 else base * Power(base, n - 1)
  }

  /** Half up to a whole number of units, for amounts that are not negative. */
  function HalfUp(x: real): int {
    (x + 0.5).Floor
  }

  const UNITS: real := 100_000.0

  function Quantize(raw: real): real {
    HalfUp(raw * UNITS) as real / UNITS
  }

  function DynamicRaw(s: FeeSchedule, quantity: real, price: real): Result<real, PricingError> {
    if s.rate.None? || s.exponent.None? then Err(DynamicParametersIncomplete)
    else if s.exponent.value.Floor as real != s.exponent.value || s.exponent.value < 0.0 then Err(ExponentNotInteger)
    else if s.exponent.value == 0.0 && price * (1.0 - price) == 0.0 then Err(InvalidPower)
    else Ok(quantity * s.rate.value * Power(price * (1.0 - price), s.exponent.value.Floor))
  }

  function RawFee(s: FeeSchedule, quantity: real, price: real, role: Role): Result<real, PricingError> {
    if role == Maker then (if s.makerBaseBps != 0.0 then Err(MakerFormulaUnsupported) else Ok(0.0))
    else if s.mode == Bps then Ok(quantity * price * s.takerBaseBps / 10000.0)
    else DynamicRaw(s, quantity, price)
  }

  function QuoteFee(s: FeeSchedule, quantity: real, price: real, role: Role): Result<real, PricingError> {
    var raw := RawFee(s, quantity, price, role);
    if raw.Err? || role == Maker then raw else Ok(Quantize(raw.value))
  }

  lemma ProductGrows(x: real, y: real, a: real, b: real)
    requires 0.0 <= x <= y && 0.0 <= a <= b
    ensures 0.0 <= x * a <= y * b
  {
    ProductNotNegative(x, a);
    ProductNotNegative(y - x, a);
    ProductNotNegative(y, b - a);
  }

  lemma {:induction false} PowerOfUnitIsUnit(base: real, n: nat)
    requires 0.0 <= base <= 1.0
    ensures 0.0 <= Power(base, n) <= 1.0
  {
    if n > 0 {
      PowerOfUnitIsUnit(base, n - 1);
      ProductGrows(base, 1.0, Power(base, n - 1), 1.0);
    }
  }

  lemma CurveInUnit(price: real)
    requires 0.0 <= price <= 1.0
    ensures 0.0 <= price * (1.0 - price) <= 1.0
  {
    ProductNotNegative(price, 1.0 - price);
    ProductNotNegative(price, price);
  }

  lemma BpsFeeNotNegative(quantity: real, price: real, bps: real)
    requires quantity > 0.0 && price >= 0.0 && bps >= 0.0
    ensures quantity * price * bps / 10000.0 >= 0.0
  {
    ProductNotNegative(quantity, price);
    ProductNotNegative(quantity * price, bps);
  }

  lemma DynamicFeeNotNegative(quantity: real, rate: real, price: real, exponent: nat)
    requires quantity > 0.0 && rate >= 0.0 && 0.0 <= price <= 1.0
    ensures quantity * rate * Power(price * (1.0 - price), exponent) >= 0.0
  {
    CurveInUnit(price);
    PowerOfUnitIsUnit(price * (1.0 - price), exponent);
    ProductNotNegative(quantity, rate);
    ProductNotNegative(quantity * rate, Power(price * (1.0 - price), exponent));
  }

  lemma RawFeeNotNegative(s: FeeSchedule, quantity: real, price: real, role: Role)
    requires ValidSchedule(s) && quantity > 0.0 && 0.0 <= price <= 1.0
    requires RawFee(s, quantity, price, role).Ok?
    ensures RawFee(s, quantity, price, role).value >= 0.0
  {
    if role == Taker {
      if s.mode == Bps {
        BpsFeeNotNegative(quantity, price, s.takerBaseBps);
      } else {
        DynamicFeeNotNegative(quantity, s.rate.value, price, s.exponent.value.Floor);
      }
    }
  }

  lemma QuantizeIsClose(raw: real)
    ensures RealAbs(Quantize(raw) - raw) <= 0.000005
    ensures raw >= 0.0 ==> Quantize(raw) >= 0.0
    ensures Quantize(raw) * UNITS == HalfUp(raw * UNITS) as real
  {
    var x := raw * UNITS;
    assert x - 0.5 <= HalfUp(x) as real <= x + 0.5;
  }

  /** A quoted fee is not negative and differs from the exact fee by at most half a unit. */
  lemma QuotedFeeIsClose(s: FeeSchedule, quantity: real, price: real, role: Role)
    requires ValidSchedule(s) && quantity > 0.0 && 0.0 <= price <= 1.0
    ensures QuoteFee(s, quantity, price, role).Ok? <==> RawFee(s, quantity, price, role).Ok?
    ensures QuoteFee(s, quantity, price, role).Ok? ==>
              && QuoteFee(s, quantity, price, role).value >= 0.0
              && RealAbs(QuoteFee(s, quantity, price, role).value - RawFee(s, quantity, price, role).value) <= 0.000005
  {
    if RawFee(s, quantity, price, role).Ok? {
      RawFeeNotNegative(s, quantity, price, role);
      QuantizeIsClose(RawFee(s, quantity, price, role).value);
    }
  }

  /** Exchanging the two outcomes' prices leaves the dynamic fee unchanged. */
  lemma DynamicFeeIsSymmetric(s: FeeSchedule, quantity: real, price: real)
    requires s.mode == Dynamic
    ensures QuoteFee(s, quantity, price, Taker) == QuoteFee(s, quantity, 1.0 - price, Taker)
  {
    assert price * (1.0 - price) == (1.0 - price) * (1.0 - (1.0 - price));
  }

  /** When a quote fails: by the role, the mode and the parameters, and the one undefined power. */
  lemma QuoteFailsExactlyWhen(s: FeeSchedule, quantity: real, price: real, role: Role)
    requires ValidSchedule(s) && 0.0 <= price <= 1.0
    ensures QuoteFee(s, quantity, price, role).Err?
            <==> if role == Maker then s.makerBaseBps > 0.0
                 else s.mode == Dynamic
                      && (s.rate.None? || s.exponent.None? || s.exponent.value.Floor as real != s.exponent.value
                          || (s.exponent.value == 0.0 && (price == 0.0 || price == 1.0)))
  {
    if price != 0.0 && price != 1.0 {
      assert price * (1.0 - price) > 0.0;
    }
  }

  // ---------------------------------------------------------------- the shape of the exact fee

  /** Splitting an order leaves its exact taker fee unchanged. */
  lemma ExactFeeIsAdditive(s: FeeSchedule, q: real, r: real, price: real)
    requires RawFee(s, q, price, Taker).Ok?
    ensures RawFee(s, r, price, Taker).Ok? && RawFee(s, q + r, price, Taker).Ok?
    ensures RawFee(s, q + r, price, Taker).value
            == RawFee(s, q, price, Taker).value + RawFee(s, r, price, Taker).value
  {
    if s.mode == Bps {
      BpsIsAdditive(q, r, price, s.takerBaseBps);
    } else {
      DynamicIsAdditive(q, r, s.rate.value, Power(price * (1.0 - price), s.exponent.value.Floor));
    }
  }

  lemma BpsIsAdditive(q: real, r: real, price: real, bps: real)
    ensures (q + r) * price * bps / 10000.0 == q * price * bps / 10000.0 + r * price * bps / 10000.0
  {
    assert (q + r) * price == q * price + r * price;
    assert (q * price + r * price) * bps == q * price * bps + r * price * bps;
  }

  lemma DynamicIsAdditive(q: real, r: real, rate: real, curve: real)
    ensures (q + r) * rate * curve == q * rate * curve + r * rate * curve
  {
    assert (q + r) * rate == q * rate + r * rate;
    assert (q * rate + r * rate) * curve == q * rate * curve + r * rate * curve;
  }

  lemma {:induction false} PowerGrows(x: real, y: real, n: nat)
    requires 0.0 <= x <= y
    ensures 0.0 <= Power(x, n) <= Power(y, n)
  {
    if n > 0 {
      PowerGrows(x, y, n - 1);
      ProductGrows(x, y, Power(x, n - 1), Power(y, n - 1));
    }
  }

  lemma CurvePeaksAtHalf(price: real)
    ensures price * (1.0 - price) <= 0.25
  {
    var d := price - 0.5;
    assert d * d >= 0.0;
  }

  /** The dynamic fee is nowhere larger than at one half. */
  lemma DynamicFeePeaksAtHalf(s: FeeSchedule, quantity: real, price: real)
    requires ValidSchedule(s) && s.mode == Dynamic && quantity > 0.0 && 0.0 <= price <= 1.0
    requires RawFee(s, quantity, price, Taker).Ok?
    ensures RawFee(s, quantity, 0.5, Taker).Ok?
    ensures RawFee(s, quantity, price, Taker).value <= RawFee(s, quantity, 0.5, Taker).value
  {
    var n := s.exponent.value.Floor;
    CurveInUnit(price);
    CurvePeaksAtHalf(price);
    PowerGrows(price * (1.0 - price), 0.25, n);
    ProductNotNegative(quantity, s.rate.value);
    ProductGrows(quantity * s.rate.value, quantity * s.rate.value, Power(price * (1.0 - price), n), Power(0.25, n));
    assert 0.5 * (1.0 - 0.5) == 0.25;
  }
}
