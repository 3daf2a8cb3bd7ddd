/**
 * The all-in cost a share of a purchase: with fees rounded fill by fill it can fall as the order
 * grows, and it never does exactly when the schedule charges nothing.
 */
module AllInCost {
  import opened Common
  import opened Fees
  import opened Depth
  import opened Simulation
  import opened SimulationLaws

  /** No quote under the schedule in the role is ever positive: it charges nothing, or cannot be quoted. */
  predicate NeverCharges(s: FeeSchedule, role: Role) {
    || role == Maker
    || (if s.mode == Bps then s.takerBaseBps == 0.0
        else s.rate.None? || s.exponent.None? || s.rate.value == 0.0
             || s.exponent.value.Floor as real != s.exponent.value)
  }

  /** A purchase under the schedule, the role and the policy, on any valid book. */
  predicate Purchase(o: Order, s: FeeSchedule, role: Role, p: PricingPolicy) {
    ValidOrder(o) && o.side == Buy && o.schedule == s && o.role == role && o.policy == p
  }

  predicate Priced(o: Order, quantity: real)
    requires quantity > 0.0
  {
    && Of(o, quantity).Ok? && Of(o, quantity).value.perShare.Some?
    && Of(o, quantity).value.perShare.value.allInCost.Some?
  }

  function AllIn(o: Order, quantity: real): real
    requires quantity > 0.0 && Priced(o, quantity)
  {
    Of(o, quantity).value.perShare.value.allInCost.value
  }

  /** On every book, a larger purchase costs at least as much a share as a smaller one. */
  ghost predicate NeverFalls(s: FeeSchedule, role: Role, p: PricingPolicy) {
    forall o, q: real, r: real ::
      Purchase(o, s, role, p) && 0.0 < q <= r && Priced(o, q) && Priced(o, r) ==> AllIn(o, q) <= AllIn(o, r)
  }

  // ---------------------------------------------------------------- without charges

  lemma QuoteIsFree(s: FeeSchedule, quantity: real, price: real, role: Role)
    requires NeverCharges(s, role) && QuoteFee(s, quantity, price, role).Ok?
    ensures QuoteFee(s, quantity, price, role).value == 0.0
  {
    if role == Taker {
      assert RawFee(s, quantity, price, role).value == 0.0;
    }
    assert Quantize(0.0) == 0.0;
  }

  lemma {:induction false} FillsAreFree(s: FeeSchedule, taken: seq<Level>, role: Role)
    requires NeverCharges(s, role) && Fills(s, taken, role).Ok?
    ensures SumFee(Fills(s, taken, role).value) == 0.0
  {
    if taken != [] {
      FillsUnfold(s, taken, role);
      FillsAreFree(s, taken[1..], role);
      QuoteIsFree(s, taken[0].quantity, taken[0].price, role);
    }
  }

  /** Without charges the all-in cost is the average price with its slippage surcharge. */
  lemma FreeCost(o: Order, quantity: real)
    requires ValidOrder(o) && o.side == Buy && quantity > 0.0 && NeverCharges(o.schedule, o.role) && Priced(o, quantity)
    ensures AllIn(o, quantity)
            == Surcharged(Of(o, quantity).value.perShare.value.vwap, o.policy.slippageBufferBps)
  {
    var sim := Of(o, quantity).value;
    SimulationIsTheWalk(o, quantity);
    FillsAreFree(o.schedule, Consumed(Levels(o), quantity), o.role);
    PerShareCoversCosts(o, quantity);
    AverageIsGrossOver(o, quantity);
    SurchargeOfAverage(AllIn(o, quantity), sim.perShare.value.vwap, sim.gross, sim.filled, o.policy);
  }

  lemma AverageIsGrossOver(o: Order, quantity: real)
    requires ValidOrder(o) && quantity > 0.0 && Of(o, quantity).Ok? && Of(o, quantity).value.perShare.Some?
    ensures Of(o, quantity).value.filled > 0.0
    ensures Times(Of(o, quantity).value.gross, Of(o, quantity).value.perShare.value.vwap, Of(o, quantity).value.filled)
  {
    PerShareIsAccepted(o, quantity);
    SimulationIsTheWalk(o, quantity);
    AverageBetweenBestAndWorst(o, quantity);
    DividedTimes(Of(o, quantity).value.gross, Of(o, quantity).value.filled);
  }

  lemma SurchargeOfAverage(allIn: real, vwap: real, gross: real, filled: real, p: PricingPolicy)
    requires filled > 0.0 && Times(gross, vwap, filled)
    requires Times(Surcharged(gross, p.slippageBufferBps) + Surcharged(0.0, p.feeBufferBps), allIn, filled)
    ensures allIn == Surcharged(vwap, p.slippageBufferBps)
  {
    var k := 1.0 + p.slippageBufferBps / 10000.0;
    assert Surcharged(0.0, p.feeBufferBps) == 0.0;
    SameShare(allIn, vwap, k, filled);
  }

  lemma SameShare(allIn: real, vwap: real, k: real, filled: real)
    requires filled > 0.0 && (vwap * filled) * k == allIn * filled
    ensures allIn == vwap * k
  {
    SwapFactors(vwap, filled, k);
    SameFactor(allIn, vwap * k, filled);
  }

  lemma SameFactor(x: real, y: real, z: real)
    requires z > 0.0 && x * z == y * z
    ensures x == y
  {
  }

  lemma SwapFactors(x: real, y: real, z: real)
    ensures (x * y) * z == (x * z) * y
  {
  }

  lemma SurchargedGrows(x: real, y: real, bps: real)
    requires x <= y && bps >= 0.0
    ensures Surcharged(x, bps) <= Surcharged(y, bps)
  {
    ProductNotNegative(y - x, 1.0 + bps / 10000.0);
  }

  lemma FreeCostNeverFalls(o: Order, q: real, r: real)
    requires ValidOrder(o) && o.side == Buy && NeverCharges(o.schedule, o.role)
    requires 0.0 < q <= r && Priced(o, q) && Priced(o, r)
    ensures AllIn(o, q) <= AllIn(o, r)
  {
    FreeCost(o, q);
    FreeCost(o, r);
    BuyingMoreIsDearer(o, q, r);
    SurchargedGrows(Of(o, q).value.perShare.value.vwap, Of(o, r).value.perShare.value.vwap, o.policy.slippageBufferBps);
  }

  // ---------------------------------------------------------------- one ask at one half

  /** A book of one ask at one half, priced the moment everything was received. */
  function OneAsk(s: FeeSchedule, role: Role, p: PricingPolicy, size: real): Order {
    Order(Book(s.conditionId, "t", [], [Level(0.5, size)], Some(s.recvTs), s.recvTs), s, Buy, 1.0, role, s.recvTs, p)
  }

  lemma OneFill(s: FeeSchedule, l: Level, role: Role, fee: real)
    requires QuoteFee(s, l.quantity, l.price, role) == Ok(fee)
    ensures Fills(s, [l], role) == Ok([FillOf(l, fee)])
  {
    assert [l][1..] == [];
    assert [FillOf(l, fee)] + [] == [FillOf(l, fee)];
  }

  lemma OneAskIsTaken(s: FeeSchedule, role: Role, p: PricingPolicy, size: real, quantity: real, fee: real)
    requires 0.0 < quantity <= size && QuoteFee(s, quantity, 0.5, role) == Ok(fee)
    ensures Fills(s, Taken(OneAsk(s, role, p, size).book, Buy, quantity, 1.0), role)
            == Ok([DepthFill(0.5, quantity, 0.5 * quantity, fee)])
  {
    var ls := [Level(0.5, size)];
    assert ls[1..] == [];
    assert [ls[0]] + [] == ls;
    assert Eligible(ls, Buy, 1.0) == ls;
    assert Consumed(ls, quantity) == [Level(0.5, quantity)];
    OneFill(s, Level(0.5, quantity), role, fee);
  }

  lemma OneFillTotals(f: DepthFill)
    ensures SumQuantity([f]) == f.quantity && SumGross([f]) == f.grossNotional && SumFee([f]) == f.feeUsdc
  {
    assert [f][1..] == [];
  }

  lemma OneAskIsValid(s: FeeSchedule, role: Role, p: PricingPolicy, size: real)
    requires ValidSchedule(s) && ValidPolicy(p) && size > 0.0
    ensures Purchase(OneAsk(s, role, p, size), s, role, p)
  {
  }

  /** What buying some of the one ask costs. */
  lemma OneAskCosts(s: FeeSchedule, role: Role, p: PricingPolicy, size: real, quantity: real, fee: real)
    requires ValidSchedule(s) && ValidPolicy(p)
    requires 0.0 < quantity <= size && QuoteFee(s, quantity, 0.5, role) == Ok(fee)
    ensures Priced(OneAsk(s, role, p, size), quantity)
    ensures Times(Surcharged(0.5 * quantity, p.slippageBufferBps) + Surcharged(fee, p.feeBufferBps),
                  AllIn(OneAsk(s, role, p, size), quantity), quantity)
  {
    var o := OneAsk(s, role, p, size);
    var f := DepthFill(0.5, quantity, 0.5 * quantity, fee);
    OneAskIsTaken(s, role, p, size, quantity, fee);
    OneFillTotals(f);
    OneAskIsValid(s, role, p, size);
    assert Of(o, quantity).Ok? && Of(o, quantity).value.fills == [f] && Of(o, quantity).value.perShare.Some?;
    PerShareCoversCosts(o, quantity);
  }

  // ---------------------------------------------------------------- with charges

  /** What a share is charged at one half, before rounding. */
  function ShareCharge(s: FeeSchedule): real {
    if RawFee(s, 1.0, 0.5, Taker).Ok? then RawFee(s, 1.0, 0.5, Taker).value else 0.0
  }

  lemma {:induction false} PowerIsPositive(base: real, n: nat)
    requires base > 0.0
    ensures Power(base, n) > 0.0
  {
    if n > 0 {
      PowerIsPositive(base, n - 1);
      ProductPositive(base, Power(base, n - 1));
    }
  }

  lemma ProductPositive(x: real, y: real)
    requires x > 0.0 && y > 0.0
    ensures x * y > 0.0
  {
  }

  lemma ChargesAtHalf(s: FeeSchedule, role: Role, quantity: real)
    requires ValidSchedule(s) && !NeverCharges(s, role)
    ensures role == Taker && ShareCharge(s) > 0.0
    ensures RawFee(s, quantity, 0.5, Taker).Ok?
    ensures RawFee(s, quantity, 0.5, Taker).value == quantity * ShareCharge(s)
  {
    if s.mode == Bps {
      BpsCharge(quantity, s.takerBaseBps);
    } else {
      var curve := Power(0.5 * (1.0 - 0.5), s.exponent.value.Floor);
      assert 0.5 * (1.0 - 0.5) == 0.25;
      PowerIsPositive(0.25, s.exponent.value.Floor);
      ProductPositive(s.rate.value, curve);
      DynamicCharge(quantity, s.rate.value, curve);
    }
  }

  lemma BpsCharge(quantity: real, bps: real)
    ensures quantity * 0.5 * bps / 10000.0 == quantity * (1.0 * 0.5 * bps / 10000.0)
    ensures bps > 0.0 ==> 1.0 * 0.5 * bps / 10000.0 > 0.0
  {
    assert quantity * (1.0 * 0.5 * bps / 10000.0) == quantity * (bps / 20000.0);
  }

  lemma DynamicCharge(quantity: real, rate: real, curve: real)
    ensures quantity * rate * curve == quantity * (1.0 * rate * curve)
  {
  }

  /** From half a unit of fee to one and a half, the fee is rounded to one unit. */
  lemma RoundsToOneUnit(s: FeeSchedule, quantity: real)
    requires RawFee(s, quantity, 0.5, Taker).Ok?
    requires 0.000005 <= RawFee(s, quantity, 0.5, Taker).value < 0.000015
    ensures QuoteFee(s, quantity, 0.5, Taker) == Ok(0.00001)
  {
    var raw := RawFee(s, quantity, 0.5, Taker).value;
    assert HalfUp(raw * UNITS) == 1;
    assert Quantize(raw) == 0.00001;
  }

  /** The same fee over twice the shares costs less a share. */
  lemma SpreadFee(q: real, fee: real, less: real, more: real, p: PricingPolicy)
    requires q > 0.0 && fee > 0.0 && ValidPolicy(p)
    requires Times(Surcharged(0.5 * q, p.slippageBufferBps) + Surcharged(fee, p.feeBufferBps), less, q)
    requires Times(Surcharged(0.5 * (2.0 * q), p.slippageBufferBps) + Surcharged(fee, p.feeBufferBps), more, 2.0 * q)
    ensures less > more
  {
    var k, f := 1.0 + p.slippageBufferBps / 10000.0, Surcharged(fee, p.feeBufferBps);
    ProductPositive(fee, 1.0 + p.feeBufferBps / 10000.0);
    assert (0.5 * (2.0 * q)) * k == 2.0 * ((0.5 * q) * k);
    SmallerShare(less, more, q, (0.5 * q) * k, f);
  }

  lemma SmallerShare(less: real, more: real, q: real, gross: real, f: real)
    requires q > 0.0 && f > 0.0 && gross + f == less * q && 2.0 * gross + f == more * (2.0 * q)
    ensures less > more
  {
    assert (less - more) * (2.0 * q) == f;
    if less <= more {
      ProductNotNegative(more - less, 2.0 * q);
    }
  }

  /** The all-in cost of one ask at one half falls from a quantity to its double. */
  predicate FallsAt(s: FeeSchedule, role: Role, p: PricingPolicy, q: real) {
    && q > 0.0
    && var o := OneAsk(s, role, p, 2.0 * q);
       Purchase(o, s, role, p) && Priced(o, q) && Priced(o, 2.0 * q) && AllIn(o, q) > AllIn(o, 2.0 * q)
  }

  lemma RoundedAlikeFalls(s: FeeSchedule, p: PricingPolicy, q: real)
    requires ValidSchedule(s) && ValidPolicy(p) && q > 0.0
    requires QuoteFee(s, q, 0.5, Taker) == Ok(0.00001) && QuoteFee(s, 2.0 * q, 0.5, Taker) == Ok(0.00001)
    ensures FallsAt(s, Taker, p, q)
  {
    var o := OneAsk(s, Taker, p, 2.0 * q);
    OneAskIsValid(s, Taker, p, 2.0 * q);
    OneAskCosts(s, Taker, p, 2.0 * q, q, 0.00001);
    OneAskCosts(s, Taker, p, 2.0 * q, 2.0 * q, 0.00001);
    SpreadFee(q, 0.00001, AllIn(o, q), AllIn(o, 2.0 * q), p);
  }

  /** A quantity and its double that are both charged one unit of fee. */
  predicate ChargedAlike(s: FeeSchedule, q: real) {
    Alike(q, ShareCharge(s))
  }

  predicate Alike(q: real, charge: real) {
    0.000005 <= q * charge < 0.0000075
  }

  predicate OneUnit(q: real, charge: real) {
    0.000005 <= q * charge < 0.000015
  }

  lemma DoubleCharge(q: real, k: real)
    requires k > 0.0 && Alike(q, k)
    ensures q > 0.0 && OneUnit(q, k) && OneUnit(2.0 * q, k)
  {
    assert (2.0 * q) * k == 2.0 * (q * k);
    if q <= 0.0 {
      ProductNotNegative(-q, k);
    }
  }

  /** Every charging schedule falls, from any quantity charged alike to its double. */
  lemma ChargesFall(s: FeeSchedule, role: Role, p: PricingPolicy, q: real)
    requires ValidSchedule(s) && ValidPolicy(p) && !NeverCharges(s, role) && ChargedAlike(s, q)
    ensures FallsAt(s, role, p, q)
  {
    ChargesAtHalf(s, role, 1.0);
    DoubleCharge(q, ShareCharge(s));
    ChargesOneUnit(s, role, q);
    ChargesOneUnit(s, role, 2.0 * q);
    RoundedAlikeFalls(s, p, q);
  }

  lemma ChargesOneUnit(s: FeeSchedule, role: Role, q: real)
    requires ValidSchedule(s) && !NeverCharges(s, role) && OneUnit(q, ShareCharge(s))
    ensures QuoteFee(s, q, 0.5, Taker) == Ok(0.00001)
  {
    ChargesAtHalf(s, role, q);
    RoundsToOneUnit(s, q);
  }

  lemma CancelFactor(x: real, y: real, k: real, xk: real, yk: real)
    requires k > 0.0 && xk == x * k && yk == y * k
    ensures xk < yk <==> x < y
  {
    var d := y - x;
    assert d * k == yk - xk;
    if d > 0.0 {
      ProductPositive(d, k);
    } else {
      ProductNotNegative(-d, k);
      assert -d * k == xk - yk;
    }
  }

  // ---------------------------------------------------------------- finite decimals

  predicate IsDecimal(q: real, units: int, digits: nat) {
    q * Power(10.0, digits) == units as real
  }

  lemma {:induction false} PowerOfTenExceeds(n: nat)
    ensures Power(10.0, n) >= n as real + 1.0
  {
    if n > 0 {
      PowerOfTenExceeds(n - 1);
      TenTimes(Power(10.0, n - 1), n as real);
    }
  }

  lemma TenTimes(x: real, n: real)
    requires x >= n >= 0.0 && x >= 1.0
    ensures 10.0 * x >= n + 1.0
  {
  }

  /** Between any two positive reals there is a finite decimal. */
  lemma DecimalBetween(low: real, high: real) returns (q: real, units: int, digits: nat)
    requires 0.0 < low < high
    ensures low <= q < high && IsDecimal(q, units, digits)
  {
    var width := high - low;
    digits := (1.0 / width).Floor + 1;
    PowerOfTenExceeds(digits);
    var scale := Power(10.0, digits);
    units := (low * scale).Floor + 1;
    q := units as real / scale;
    QuotientTimes(units as real, scale);
    QuotientTimes(1.0, width);
    ScaledWidth(width, 1.0 / width, scale);
    Placed(low, high, q, scale, units as real);
  }

  lemma ScaledWidth(width: real, inverse: real, scale: real)
    requires width > 0.0 && inverse * width == 1.0 && scale > inverse
    ensures width * scale > 1.0
  {
    CancelFactor(inverse, scale, width, 1.0, scale * width);
  }

  lemma Placed(low: real, high: real, q: real, scale: real, units: real)
    requires scale > 0.0 && (high - low) * scale > 1.0 && q * scale == units
    requires low * scale < units <= low * scale + 1.0
    ensures low <= q < high
  {
    CancelFactor(low, q, scale, low * scale, units);
    CancelFactor(q, high, scale, units, high * scale);
    assert (high - low) * scale == high * scale - low * scale;
  }

  /** Some such quantity is a finite decimal. */
  lemma DecimalChargedAlike(s: FeeSchedule, role: Role) returns (q: real, units: int, digits: nat)
    requires ValidSchedule(s) && !NeverCharges(s, role)
    ensures ChargedAlike(s, q) && IsDecimal(q, units, digits)
  {
    ChargesAtHalf(s, role, 1.0);
    var k := ShareCharge(s);
    var low, high := 0.000005 / k, 0.0000075 / k;
    QuotientTimes(0.000005, k);
    QuotientTimes(0.0000075, k);
    Ordered(low, high, k, 0.000005, 0.0000075);
    q, units, digits := DecimalBetween(low, high);
    Between(low, high, q, k);
  }

  lemma Ordered(low: real, high: real, k: real, x: real, y: real)
    requires k > 0.0 && low * k == x && high * k == y && 0.0 < x < y
    ensures 0.0 < low < high
  {
    CancelFactor(0.0, low, k, 0.0, x);
    CancelFactor(low, high, k, x, y);
  }

  lemma Between(low: real, high: real, q: real, k: real)
    requires k > 0.0 && low <= q < high && low * k == 0.000005 && high * k == 0.0000075
    ensures Alike(q, k)
  {
    CancelFactor(q, high, k, q * k, 0.0000075);
    CancelFactor(q, low, k, q * k, 0.000005);
  }

  /** Exactly when the all-in cost never falls: when the schedule, in the role, never charges. */
  lemma AllInNeverFallsExactlyWhen(s: FeeSchedule, role: Role, p: PricingPolicy)
    requires ValidSchedule(s) && ValidPolicy(p)
    ensures NeverFalls(s, role, p) <==> NeverCharges(s, role)
  {
    if NeverCharges(s, role) {
      forall o, q: real, r: real
        | Purchase(o, s, role, p) && 0.0 < q <= r && Priced(o, q) && Priced(o, r)
        ensures AllIn(o, q) <= AllIn(o, r)
      {
        FreeCostNeverFalls(o, q, r);
      }
    } else {
      var q, _, _ := DecimalChargedAlike(s, role);
      ChargesFall(s, role, p, q);
      var o := OneAsk(s, role, p, 2.0 * q);
      assert Purchase(o, s, role, p) && Priced(o, q) && Priced(o, 2.0 * q) && AllIn(o, q) > AllIn(o, 2.0 * q);
    }
  }

  // ---------------------------------------------------------------- an input

  /** One per cent a fill, no buffers. */
  const ONE_PER_CENT: FeeSchedule := FeeSchedule("c", 0.0, 100.0, None, None, 0, Bps)
  const NO_BUFFERS: PricingPolicy := PricingPolicy(1, 1, 0.0, 0.0)

  lemma NoBuffersCost(gross: real, fee: real, allIn: real, quantity: real)
    requires quantity > 0.0
    requires Times(Surcharged(gross, NO_BUFFERS.slippageBufferBps) + Surcharged(fee, NO_BUFFERS.feeBufferBps), allIn,
                   quantity)
    ensures gross + fee == allIn * quantity
  {
    assert Surcharged(gross, 0.0) == gross && Surcharged(fee, 0.0) == fee;
  }

  /** At one half, a thousandth of a share costs 0.51 a share, and two thousandths 0.505. */
  lemma AllInCostCanFall()
    ensures var o := OneAsk(ONE_PER_CENT, Taker, NO_BUFFERS, 1.0);
            && Priced(o, 0.001) && AllIn(o, 0.001) == 0.51
            && Priced(o, 0.002) && AllIn(o, 0.002) == 0.505
  {
    var o := OneAsk(ONE_PER_CENT, Taker, NO_BUFFERS, 1.0);
    RoundsToOneUnit(ONE_PER_CENT, 0.001);
    RoundsToOneUnit(ONE_PER_CENT, 0.002);
    OneAskCosts(ONE_PER_CENT, Taker, NO_BUFFERS, 1.0, 0.001, 0.00001);
    OneAskCosts(ONE_PER_CENT, Taker, NO_BUFFERS, 1.0, 0.002, 0.00001);
    NoBuffersCost(0.5 * 0.001, 0.00001, AllIn(o, 0.001), 0.001);
    NoBuffersCost(0.5 * 0.002, 0.00001, AllIn(o, 0.002), 0.002);
  }
}
