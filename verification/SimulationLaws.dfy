/** What every simulated order satisfies: acceptance, optimality, price order, monotonicity and fee totals. */
module SimulationLaws {
  import opened Common
  import opened Fees
  import opened Depth
  import opened Simulation

  /** An order on a book: the arguments of one simulation. */
  datatype Order = Order(
    book: Book, schedule: FeeSchedule, side: Side, limit: real, role: Role, at: int, policy: PricingPolicy)

  predicate ValidOrder(o: Order) {
    ValidBook(o.book) && ValidSchedule(o.schedule) && ValidPolicy(o.policy)
  }

  function Of(o: Order, quantity: real): Result<DepthSimulation, PricingError>
    requires quantity > 0.0
  {
    Simulate(o.book, o.schedule, o.side, quantity, o.limit, o.role, o.at, o.policy)
  }

  function Levels(o: Order): seq<Level> {
    Eligible(LevelsOf(o.book, o.side), o.side, o.limit)
  }

  lemma LevelsAreValid(o: Order)
    requires ValidOrder(o)
    ensures ValidLevels(Levels(o)) && Sorted(Levels(o), o.side)
  {
    EligibleIsValid(o.book, o.side, o.limit);
  }

  /** A successful simulation is the walk: its fills and totals are those of the consumed levels. */
  lemma SimulationIsTheWalk(o: Order, quantity: real)
    requires ValidOrder(o) && quantity > 0.0 && Of(o, quantity).Ok?
    ensures ValidLevels(Levels(o)) && Sorted(Levels(o), o.side)
    ensures var sim := Of(o, quantity).value;
            var taken := Consumed(Levels(o), quantity);
            && Fills(o.schedule, taken, o.role) == Ok(sim.fills) && |sim.fills| == |taken|
            && ValidLevels(taken) && Sorted(taken, o.side)
            && sim.filled == Size(taken) && sim.gross == Notional(taken)
            && sim.totalFee == SumFee(sim.fills) >= 0.0
            && (taken == [] <==> sim.filled == 0.0) && sim.filled >= 0.0
            && forall i :: 0 <= i < |taken| ==> AcceptedFill(sim.fills[i]) && sim.fills[i].price == taken[i].price
  {
    LevelsAreValid(o);
    WalkTotals(o.schedule, Levels(o), quantity, o.role);
    FillsAreConsumed(o.schedule, Consumed(Levels(o), quantity), o.role);
    ConsumedAscending(Levels(o), quantity);
  }

  /** The order is filled up to the executable depth, exactly. */
  lemma FillsTheLesser(o: Order, quantity: real)
    requires ValidOrder(o) && quantity > 0.0 && Of(o, quantity).Ok?
    ensures Of(o, quantity).value.executableDepth == Size(Levels(o))
    ensures Of(o, quantity).value.filled == RealMin(quantity, Size(Levels(o)))
  {
    LevelsAreValid(o);
    WalkTotals(o.schedule, Levels(o), quantity, o.role);
  }

  /** No allocation of the filled quantity over the eligible levels buys for less, or sells for more. */
  lemma WalkIsOptimal(o: Order, quantity: real, a: seq<real>)
    requires ValidOrder(o) && quantity > 0.0 && Of(o, quantity).Ok?
    requires Allocation(Levels(o), a) && Sum(a) == Of(o, quantity).value.filled
    ensures o.side == Buy ==> Of(o, quantity).value.gross <= Cost(Levels(o), a)
    ensures o.side == Sell ==> Of(o, quantity).value.gross >= Cost(Levels(o), a)
  {
    SimulationIsTheWalk(o, quantity);
    if o.side == Buy {
      WalkMinimisesCost(Levels(o), quantity, a);
    } else {
      WalkMaximisesProceeds(Levels(o), quantity, a);
    }
  }

  /** The average lies between the best and the worst price taken; the impact is its distance from the best. */
  predicate PricesOrdered(sim: DepthSimulation) {
    && sim.fills != [] && sim.perShare.Some? && sim.filled > 0.0
    && sim.perShare.value.worstPrice == sim.fills[|sim.fills| - 1].price
    && sim.perShare.value.vwap == sim.gross / sim.filled
    && (if sim.side == Buy then sim.fills[0].price <= sim.perShare.value.vwap <= sim.perShare.value.worstPrice
        else sim.fills[0].price >= sim.perShare.value.vwap >= sim.perShare.value.worstPrice)
    && sim.perShare.value.depthImpact == RealAbs(sim.perShare.value.vwap - sim.fills[0].price)
  }

  /** The per-share results are those of the consumed levels. */
  predicate MatchesTaken(r: PerShare, side: Side, taken: seq<Level>)
    requires ValidLevels(taken)
  {
    && taken != []
    && r.vwap == Vwap(taken)
    && r.worstPrice == taken[|taken| - 1].price
    && r.depthImpact == (if side == Buy then Vwap(taken) - taken[0].price else taken[0].price - Vwap(taken))
  }

  lemma {:induction false} PerShareMatches(
    side: Side, fs: seq<DepthFill>, taken: seq<Level>, filled: real, gross: real, costs: real)
    requires ValidLevels(taken) && taken != [] && |fs| == |taken| && filled > 0.0
    requires fs[0].price == taken[0].price && fs[|fs| - 1].price == taken[|taken| - 1].price
    requires filled == Size(taken) && gross == Notional(taken)
    ensures MatchesTaken(PerShareOf(side, fs, filled, gross, costs), side, taken)
  {
  }

  /** A simulation that fills something has per-share results, those of the levels it takes. */
  lemma AverageIsVwap(o: Order, quantity: real)
    requires ValidOrder(o) && quantity > 0.0 && Of(o, quantity).Ok? && Of(o, quantity).value.filled > 0.0
    ensures ValidLevels(Consumed(Levels(o), quantity))
    ensures Of(o, quantity).value.perShare.Some?
    ensures MatchesTaken(Of(o, quantity).value.perShare.value, o.side, Consumed(Levels(o), quantity))
  {
    var sim, taken := Of(o, quantity).value, Consumed(Levels(o), quantity);
    SimulationIsTheWalk(o, quantity);
    PerShareMatches(o.side, sim.fills, taken, sim.filled, sim.gross, Costs(o.policy, sim.gross, sim.totalFee));
  }

  lemma {:induction false} MatchesAreOrdered(sim: DepthSimulation, taken: seq<Level>)
    requires ValidLevels(taken) && Sorted(taken, sim.side) && sim.perShare.Some? && sim.filled > 0.0
    requires MatchesTaken(sim.perShare.value, sim.side, taken)
    requires |sim.fills| == |taken| && forall i :: 0 <= i < |taken| ==> sim.fills[i].price == taken[i].price
    requires sim.filled == Size(taken) && sim.gross == Notional(taken)
    ensures PricesOrdered(sim)
  {
    VwapBetweenBestAndWorst(taken);
  }

  lemma AverageBetweenBestAndWorst(o: Order, quantity: real)
    requires ValidOrder(o) && quantity > 0.0
    ensures Of(o, quantity).Ok? && Of(o, quantity).value.filled > 0.0 ==> PricesOrdered(Of(o, quantity).value)
  {
    if Of(o, quantity).Ok? && Of(o, quantity).value.filled > 0.0 {
      AverageIsVwap(o, quantity);
      SimulationIsTheWalk(o, quantity);
      MatchesAreOrdered(Of(o, quantity).value, Consumed(Levels(o), quantity));
    }
  }

  lemma CostsNotNegative(p: PricingPolicy, gross: real, fee: real)
    requires ValidPolicy(p) && gross >= 0.0 && fee >= 0.0
    ensures FeeBuffer(p, fee) >= 0.0 && SlippageBuffer(p, gross) >= 0.0
  {
    ProductNotNegative(fee, p.feeBufferBps);
    ProductNotNegative(gross, p.slippageBufferBps);
  }

  lemma {:induction false} NotionalNotNegative(ls: seq<Level>)
    requires ValidLevels(ls)
    ensures Notional(ls) >= 0.0
  {
    if ls != [] {
      ProductNotNegative(ls[0].price, ls[0].quantity);
      NotionalNotNegative(ls[1..]);
    }
  }

  lemma PerShareIsAccepted(o: Order, quantity: real)
    requires ValidOrder(o) && quantity > 0.0 && Of(o, quantity).Ok?
    ensures var sim := Of(o, quantity).value;
            (sim.filled == 0.0 <==> sim.perShare.None?)
            && (sim.perShare.Some? ==> AcceptedPerShare(o.side, sim.perShare.value))
  {
    SimulationIsTheWalk(o, quantity);
    if Of(o, quantity).value.filled > 0.0 {
      AverageBetweenBestAndWorst(o, quantity);
      assert AcceptedFill(Of(o, quantity).value.fills[0]);
      assert AcceptedFill(Of(o, quantity).value.fills[|Of(o, quantity).value.fills| - 1]);
    }
  }

  /** The record's own constructor accepts every simulation. */
  lemma SimulationIsAccepted(o: Order, quantity: real)
    requires ValidOrder(o) && quantity > 0.0 && Of(o, quantity).Ok?
    ensures Accepted(Of(o, quantity).value)
  {
    var sim := Of(o, quantity).value;
    SimulationIsTheWalk(o, quantity);
    FillsTheLesser(o, quantity);
    NotionalNotNegative(Consumed(Levels(o), quantity));
    CostsNotNegative(o.policy, sim.gross, sim.totalFee);
    QuotientInUnit(sim.filled, quantity);
    PerShareIsAccepted(o, quantity);
  }

  /** The fees charged differ from the exact fees by at most half a unit a fill. */
  lemma TotalFeeIsClose(o: Order, quantity: real)
    requires ValidOrder(o) && quantity > 0.0 && Of(o, quantity).Ok?
    ensures var sim := Of(o, quantity).value;
            RealAbs(sim.totalFee - ExactFees(o.schedule, Consumed(Levels(o), quantity), o.role))
            <= 0.000005 * |sim.fills| as real
  {
    SimulationIsTheWalk(o, quantity);
    FeesAreClose(o.schedule, Consumed(Levels(o), quantity), o.role);
  }

  /** An amount with a surcharge in basis points. */
  function Surcharged(amount: real, bps: real): real {
    amount * (1.0 + bps / 10000.0)
  }

  lemma BuffersAreSurcharges(p: PricingPolicy, gross: real, fee: real)
    ensures fee + FeeBuffer(p, fee) == Surcharged(fee, p.feeBufferBps)
    ensures gross + SlippageBuffer(p, gross) == Surcharged(gross, p.slippageBufferBps)
  {
  }

  predicate Times(total: real, share: real, shares: real) {
    total == share * shares
  }

  lemma DividedTimes(total: real, shares: real)
    requires shares != 0.0
    ensures Times(total, total / shares, shares)
  {
  }

  /**
   * The filled shares cost, all in, the surcharged notional and the surcharged fees; sold, they
   * bring in what the notional, less its own buffer, leaves of the surcharged fees.
   */
  lemma PerShareCoversCosts(o: Order, quantity: real)
    requires ValidOrder(o) && quantity > 0.0 && Of(o, quantity).Ok? && Of(o, quantity).value.perShare.Some?
    ensures var sim := Of(o, quantity).value;
            var r := sim.perShare.value;
            var fees := Surcharged(sim.totalFee, o.policy.feeBufferBps);
            if o.side == Buy then
              r.allInCost.Some?
              && Times(Surcharged(sim.gross, o.policy.slippageBufferBps) + fees, r.allInCost.value, sim.filled)
            else
              r.netProceeds.Some?
              && Times(sim.gross - SlippageBuffer(o.policy, sim.gross) - fees, r.netProceeds.value, sim.filled)
  {
    var sim := Of(o, quantity).value;
    SimulationIsTheWalk(o, quantity);
    BuffersAreSurcharges(o.policy, sim.gross, sim.totalFee);
    var costs := Costs(o.policy, sim.gross, sim.totalFee);
    DividedTimes(sim.gross + costs, sim.filled);
    DividedTimes(sim.gross - costs, sim.filled);
  }

  // ---------------------------------------------------------------- larger orders

  /** A larger order's fills begin with the smaller one's, up to the size and fee of its last. */
  predicate Extends(short: seq<DepthFill>, long: seq<DepthFill>) {
    && |short| <= |long|
    && (forall i :: 0 <= i < |short| - 1 ==> short[i] == long[i])
    && (short != [] ==> short[|short| - 1].price == long[|short| - 1].price
                        && short[|short| - 1].quantity <= long[|short| - 1].quantity)
  }

  lemma LargerOrderExtends(o: Order, q: real, r: real)
    requires ValidOrder(o) && 0.0 < q <= r && Of(o, q).Ok? && Of(o, r).Ok?
    ensures Extends(Of(o, q).value.fills, Of(o, r).value.fills)
  {
    LevelsAreValid(o);
    var a, b := Consumed(Levels(o), q), Consumed(Levels(o), r);
    MoreQuantityContinues(Levels(o), q, r);
    SimulationIsTheWalk(o, q);
    SimulationIsTheWalk(o, r);
    FillsAreConsumed(o.schedule, a, o.role);
    FillsAreConsumed(o.schedule, b, o.role);
    FillsFollowLevels(o.schedule, a, o.role);
    FillsFollowLevels(o.schedule, b, o.role);
  }

  lemma FillsFollowLevels(s: FeeSchedule, taken: seq<Level>, role: Role)
    requires ValidSchedule(s) && ValidLevels(taken) && Fills(s, taken, role).Ok?
    ensures |Fills(s, taken, role).value| == |taken|
    ensures forall i :: 0 <= i < |taken| ==>
              QuoteFee(s, taken[i].quantity, taken[i].price, role).Ok?
              && Fills(s, taken, role).value[i]
                 == FillOf(taken[i], QuoteFee(s, taken[i].quantity, taken[i].price, role).value)
  {
    FillsAreConsumed(s, taken, role);
  }

  /** Buying more never improves the average price, the worst price or the impact. */
  lemma BuyingMoreIsDearer(o: Order, q: real, r: real)
    requires ValidOrder(o) && o.side == Buy && 0.0 < q <= r && Of(o, q).Ok? && Of(o, r).Ok?
    ensures Of(o, q).value.perShare.Some? <==> Of(o, r).value.perShare.Some?
    ensures Of(o, q).value.perShare.Some? ==>
              var less, more := Of(o, q).value.perShare.value, Of(o, r).value.perShare.value;
              less.vwap <= more.vwap && less.worstPrice <= more.worstPrice && less.depthImpact <= more.depthImpact
  {
    SimulationIsTheWalk(o, q);
    SimulationIsTheWalk(o, r);
    ConsumedSize(Levels(o), q);
    ConsumedSize(Levels(o), r);
    if Levels(o) != [] {
      BuyingMoreCostsMore(Levels(o), q, r);
      AverageBetweenBestAndWorst(o, q);
      AverageBetweenBestAndWorst(o, r);
    }
  }

  /** Selling more never improves the average price, the worst price or the impact. */
  lemma SellingMoreIsCheaper(o: Order, q: real, r: real)
    requires ValidOrder(o) && o.side == Sell && 0.0 < q <= r && Of(o, q).Ok? && Of(o, r).Ok?
    ensures Of(o, q).value.perShare.Some? <==> Of(o, r).value.perShare.Some?
    ensures Of(o, q).value.perShare.Some? ==>
              var less, more := Of(o, q).value.perShare.value, Of(o, r).value.perShare.value;
              less.vwap >= more.vwap && less.worstPrice >= more.worstPrice && less.depthImpact <= more.depthImpact
  {
    SimulationIsTheWalk(o, q);
    SimulationIsTheWalk(o, r);
    ConsumedSize(Levels(o), q);
    ConsumedSize(Levels(o), r);
    if Levels(o) != [] {
      SellingMoreEarnsLess(Levels(o), q, r);
      AverageBetweenBestAndWorst(o, q);
      AverageBetweenBestAndWorst(o, r);
    }
  }

  /** A quote fails on the price alone, so whatever prices a larger order prices a smaller one. */
  lemma {:induction false} FillsOfLess(s: FeeSchedule, ls: seq<Level>, q: real, r: real, role: Role)
    requires ValidSchedule(s) && ValidLevels(ls) && 0.0 <= q <= r
    requires Fills(s, Consumed(ls, r), role).Ok?
    ensures Fills(s, Consumed(ls, q), role).Ok?
  {
    if ls != [] && q > 0.0 {
      var t, u := RealMin(ls[0].quantity, q), RealMin(ls[0].quantity, r);
      assert Consumed(ls, q)[1..] == Consumed(ls[1..], q - t);
      assert Consumed(ls, r)[1..] == Consumed(ls[1..], r - u);
      QuoteFailsExactlyWhen(s, t, ls[0].price, role);
      QuoteFailsExactlyWhen(s, u, ls[0].price, role);
      if t == ls[0].quantity {
        FillsOfLess(s, ls[1..], q - t, r - u, role);
      }
    }
  }

  lemma SmallerPurchaseSucceeds(o: Order, q: real, r: real)
    requires ValidOrder(o) && o.side == Buy && 0.0 < q <= r && Of(o, r).Ok?
    ensures Of(o, q).Ok?
  {
    LevelsAreValid(o);
    FillsOfLess(o.schedule, Levels(o), q, r, o.role);
  }
}
