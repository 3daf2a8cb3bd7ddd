/**
 * Receive-time replay of a two-leg purchase that is merged: what each leg may see, and how the
 * profit divides into the matched sets and the unwinding of the larger leg.
 */
module Replay {
  import opened Common
  import opened Fees
  import opened Depth
  import opened Simulation
  import opened SimulationLaws

  datatype Outcome = Up | Down

  datatype BookEvent = BookEvent(outcome: Outcome, book: Book)

  datatype ReplayMarket = ReplayMarket(conditionId: string, upToken: string, downToken: string)

  datatype ReplayError =
    | LatencyNotGoverned
    | NoBookAvailable(outcome: Outcome)
    | ConditionIdentityMismatch
    | TokenIdentityMismatch
    | Unpriced(reason: PricingError)

  datatype ReplayResult = ReplayResult(
    latencyMs: int,
    requested: real,
    upFilled: real,
    downFilled: real,
    matched: real,
    exposure: real,
    bothLegs: bool,
    partialFill: bool,
    unwind: Unwind,
    netPnl: real,
    firstLegAt: int,
    secondLegAt: int)

  /** Selling the excess of the larger leg back: the loss is unknown when not all of it could be sold. */
  datatype Unwind = Unwind(feasible: bool, proceeds: real, loss: Option<real>)

  /** Everything a replay is given besides the events. */
  datatype Cycle = Cycle(
    market: ReplayMarket, upFee: FeeSchedule, downFee: FeeSchedule, decisionAt: int, latencyMs: int, requested: real,
    policy: PricingPolicy)

  predicate ValidCycle(c: Cycle) {
    ValidSchedule(c.upFee) && ValidSchedule(c.downFee) && ValidPolicy(c.policy) && c.requested > 0.0
  }

  predicate ValidEvents(es: seq<BookEvent>) {
    forall i :: 0 <= i < |es| ==> ValidBook(es[i].book)
  }

  const MILLISECOND: int := 1000

  predicate Governed(latencyMs: int) {
    latencyMs in {10, 25, 50, 100, 200, 500}
  }

  function FirstLegAt(c: Cycle): int {
    c.decisionAt + c.latencyMs * MILLISECOND
  }

  function SecondLegAt(c: Cycle): int {
    FirstLegAt(c) + c.latencyMs * MILLISECOND
  }

  // ---------------------------------------------------------------- the book as of a time

  predicate Seen(e: BookEvent, outcome: Outcome, at: int) {
    e.outcome == outcome && e.book.recvTs <= at
  }

  /** The latest received book of the outcome; among equally late ones, the first in the stream. */
  function AsOf(es: seq<BookEvent>, outcome: Outcome, at: int): Option<Book> {
    if es == [] then None
    else
      var earlier := AsOf(es[..|es| - 1], outcome, at);
      var e := es[|es| - 1];
      if Seen(e, outcome, at) && (earlier.None? || earlier.value.recvTs < e.book.recvTs) then Some(e.book) else earlier
  }

  /** Index i holds the first of the latest books seen. */
  predicate FirstLatest(es: seq<BookEvent>, outcome: Outcome, at: int, i: nat) {
    && i < |es| && Seen(es[i], outcome, at)
    && (forall j :: 0 <= j < |es| && Seen(es[j], outcome, at) ==> es[j].book.recvTs <= es[i].book.recvTs)
    && (forall j :: 0 <= j < i && Seen(es[j], outcome, at) ==> es[j].book.recvTs < es[i].book.recvTs)
  }

  lemma {:induction false} AsOfWasSeen(es: seq<BookEvent>, outcome: Outcome, at: int)
    ensures AsOf(es, outcome, at).None? <==> forall j :: 0 <= j < |es| ==> !Seen(es[j], outcome, at)
    ensures AsOf(es, outcome, at).Some? ==>
              exists j :: 0 <= j < |es| && Seen(es[j], outcome, at) && AsOf(es, outcome, at).value == es[j].book
  {
    if es != [] {
      var front := es[..|es| - 1];
      AsOfWasSeen(front, outcome, at);
      assert forall j :: 0 <= j < |front| ==> es[j] == front[j];
      if AsOf(front, outcome, at).Some? {
        var j :| 0 <= j < |front| && Seen(front[j], outcome, at) && AsOf(front, outcome, at).value == front[j].book;
        assert Seen(es[j], outcome, at);
      }
    }
  }

  /** Ties in the receive time go to the first of the stream. */
  lemma {:induction false} AsOfIsFirstLatest(es: seq<BookEvent>, outcome: Outcome, at: int, i: nat)
    requires FirstLatest(es, outcome, at, i)
    ensures AsOf(es, outcome, at) == Some(es[i].book)
  {
    var front := es[..|es| - 1];
    assert forall j :: 0 <= j < |front| ==> es[j] == front[j];
    if i == |es| - 1 {
      AsOfWasSeen(front, outcome, at);
    } else {
      assert Seen(es[|es| - 1], outcome, at) ==> es[|es| - 1].book.recvTs <= es[i].book.recvTs;
      AsOfIsFirstLatest(front, outcome, at, i);
    }
  }

  /** The events an observer at that time has received. */
  function Received(es: seq<BookEvent>, at: int): seq<BookEvent> {
    if es == [] then []
    else Received(es[..|es| - 1], at) + if es[|es| - 1].book.recvTs <= at then [es[|es| - 1]] else []
  }

  /** The events of an outcome an observer at that time has received. */
  function ReceivedOf(es: seq<BookEvent>, outcome: Outcome, at: int): seq<BookEvent> {
    if es == [] then []
    else ReceivedOf(es[..|es| - 1], outcome, at) + if Seen(es[|es| - 1], outcome, at) then [es[|es| - 1]] else []
  }

  lemma {:induction false} AsOfReceivedOf(es: seq<BookEvent>, outcome: Outcome, at: int)
    ensures AsOf(es, outcome, at) == AsOf(ReceivedOf(es, outcome, at), outcome, at)
  {
    if es != [] {
      AsOfReceivedOf(es[..|es| - 1], outcome, at);
      var front := ReceivedOf(es[..|es| - 1], outcome, at);
      if Seen(es[|es| - 1], outcome, at) {
        assert (front + [es[|es| - 1]])[..|front|] == front;
      } else {
        assert front + [] == front;
      }
    }
  }

  lemma {:induction false} ReceivedOfReceived(es: seq<BookEvent>, outcome: Outcome, at: int, later: int)
    requires at <= later
    ensures ReceivedOf(es, outcome, at) == ReceivedOf(Received(es, later), outcome, at)
  {
    if es != [] {
      ReceivedOfReceived(es[..|es| - 1], outcome, at, later);
      var front := Received(es[..|es| - 1], later);
      if es[|es| - 1].book.recvTs <= later {
        assert (front + [es[|es| - 1]])[..|front|] == front;
      } else {
        assert front + [] == front;
      }
    }
  }

  lemma AsOfIsValid(es: seq<BookEvent>, outcome: Outcome, at: int)
    requires ValidEvents(es)
    ensures AsOf(es, outcome, at).Some? ==> ValidBook(AsOf(es, outcome, at).value)
  {
    AsOfWasSeen(es, outcome, at);
  }

  // ---------------------------------------------------------------- the replay

  datatype Legs = Legs(up: DepthSimulation, down: DepthSimulation)

  function LegOrder(b: Book, s: FeeSchedule, side: Side, at: int, p: PricingPolicy): Order {
    Order(b, s, side, if side == Buy then 1.0 else 0.0, Taker, at, p)
  }

  function BuyLeg(b: Book, s: FeeSchedule, quantity: real, at: int, p: PricingPolicy)
    : Result<DepthSimulation, PricingError>
    requires quantity > 0.0
  {
    Of(LegOrder(b, s, Buy, at, p), quantity)
  }

  function BuyLegs(es: seq<BookEvent>, c: Cycle): Result<Legs, ReplayError>
    requires c.requested > 0.0
  {
    var up, down := AsOf(es, Up, FirstLegAt(c)), AsOf(es, Down, SecondLegAt(c));
    if up.None? then Err(NoBookAvailable(Up))
    else if down.None? then Err(NoBookAvailable(Down))
    else if up.value.conditionId != c.market.conditionId || down.value.conditionId != c.market.conditionId then
      Err(ConditionIdentityMismatch)
    else if up.value.tokenId != c.market.upToken || down.value.tokenId != c.market.downToken then
      Err(TokenIdentityMismatch)
    else
      var first := BuyLeg(up.value, c.upFee, c.requested, FirstLegAt(c), c.policy);
      if first.Err? then Err(Unpriced(first.error))
      else
        var second := BuyLeg(down.value, c.downFee, c.requested, SecondLegAt(c), c.policy);
        if second.Err? then Err(Unpriced(second.error)) else Ok(Legs(first.value, second.value))
  }

  function BuyCost(s: DepthSimulation): real {
    s.gross + s.totalFee + s.feeBuffer + s.slippageBuffer
  }

  function Larger(l: Legs): Outcome {
    if l.up.filled > l.down.filled then Up else Down
  }

  function Leg(l: Legs, o: Outcome): DepthSimulation {
    if o == Up then l.up else l.down
  }

  function Exposure(l: Legs): real {
    RealAbs(l.up.filled - l.down.filled)
  }

  /** The all-in cost a share of a bought leg; a leg that filled nothing has none. */
  function AllIn(s: DepthSimulation): real {
    if s.perShare.Some? && s.perShare.value.allInCost.Some? then s.perShare.value.allInCost.value else 0.0
  }

  function ShareCost(s: DepthSimulation, shares: real): real {
    AllIn(s) * shares
  }

  predicate HasCost(s: DepthSimulation) {
    s.perShare.Some? && s.perShare.value.allInCost.Some?
  }

  /** What the sale of the excess comes to. */
  function Settle(sale: DepthSimulation, exposure: real, bought: DepthSimulation): Unwind {
    var feasible := sale.filled == exposure;
    var proceeds := if sale.perShare.Some? && sale.perShare.value.netProceeds.Some?
                    then sale.perShare.value.netProceeds.value * sale.filled else 0.0;
    if !feasible || !HasCost(bought) then Unwind(feasible, proceeds, None)
    else Unwind(feasible, proceeds, Some(RealMax(0.0, ShareCost(bought, exposure) - proceeds)))
  }

  function UnwindOf(es: seq<BookEvent>, c: Cycle, l: Legs): Result<Unwind, ReplayError> {
    if Exposure(l) == 0.0 then Ok(Unwind(true, 0.0, Some(0.0)))
    else
      var o := Larger(l);
      var book := AsOf(es, o, SecondLegAt(c));
      if book.None? then Err(NoBookAvailable(o))
      else
        var fee := if o == Up then c.upFee else c.downFee;
        var sale := Of(LegOrder(book.value, fee, Sell, SecondLegAt(c), c.policy), Exposure(l));
        if sale.Err? then Err(Unpriced(sale.error)) else Ok(Settle(sale.value, Exposure(l), Leg(l, o)))
  }

  function Report(c: Cycle, l: Legs, u: Unwind): ReplayResult {
    var matched := RealMin(l.up.filled, l.down.filled);
    ReplayResult(
      c.latencyMs, c.requested, l.up.filled, l.down.filled, matched, Exposure(l),
      l.up.filled == c.requested && l.down.filled == c.requested,
      0.0 < l.up.filled < c.requested || 0.0 < l.down.filled < c.requested,
      u, matched + u.proceeds - BuyCost(l.up) - BuyCost(l.down), FirstLegAt(c), SecondLegAt(c))
  }

  function ReplayBuyMerge(es: seq<BookEvent>, c: Cycle): Result<ReplayResult, ReplayError>
    requires c.requested > 0.0
  {
    if !Governed(c.latencyMs) then Err(LatencyNotGoverned)
    else
      var legs := BuyLegs(es, c);
      if legs.Err? then Err(legs.error)
      else
        var u := UnwindOf(es, c, legs.value);
        if u.Err? then Err(u.error) else Ok(Report(c, legs.value, u.value))
  }

  // ---------------------------------------------------------------- causality

  /** Nothing received after the second leg changes any part of the replay, its errors included. */
  lemma ReplayIsCausal(es: seq<BookEvent>, fs: seq<BookEvent>, c: Cycle)
    requires c.requested > 0.0 && Received(es, SecondLegAt(c)) == Received(fs, SecondLegAt(c))
    ensures ReplayBuyMerge(es, c) == ReplayBuyMerge(fs, c)
  {
    if Governed(c.latencyMs) {
      SameAsOf(es, fs, Up, FirstLegAt(c), SecondLegAt(c));
      SameAsOf(es, fs, Up, SecondLegAt(c), SecondLegAt(c));
      SameAsOf(es, fs, Down, SecondLegAt(c), SecondLegAt(c));
    }
  }

  lemma SameAsOf(es: seq<BookEvent>, fs: seq<BookEvent>, outcome: Outcome, at: int, later: int)
    requires at <= later && Received(es, later) == Received(fs, later)
    ensures AsOf(es, outcome, at) == AsOf(fs, outcome, at)
  {
    ReceivedOfReceived(es, outcome, at, later);
    ReceivedOfReceived(fs, outcome, at, later);
    AsOfReceivedOf(es, outcome, at);
    AsOfReceivedOf(fs, outcome, at);
  }

  lemma {:induction false} Inserted(before: seq<BookEvent>, late: BookEvent, after: seq<BookEvent>, at: int)
    requires late.book.recvTs > at
    ensures Received(before + [late] + after, at) == Received(before + after, at)
  {
    if after == [] {
      assert (before + [late] + after)[..|before|] == before;
      assert before + after == before;
    } else {
      var n := |after| - 1;
      Inserted(before, late, after[..n], at);
      assert (before + [late] + after)[..|before| + 1 + n] == before + [late] + after[..n];
      assert (before + after)[..|before| + n] == before + after[..n];
    }
  }

  /** In particular, an event received later may stand anywhere in the stream, or be left out. */
  lemma LateEventsAreIrrelevant(before: seq<BookEvent>, late: BookEvent, after: seq<BookEvent>, c: Cycle)
    requires c.requested > 0.0 && late.book.recvTs > SecondLegAt(c)
    ensures ReplayBuyMerge(before + [late] + after, c) == ReplayBuyMerge(before + after, c)
  {
    Inserted(before, late, after, SecondLegAt(c));
    ReplayIsCausal(before + [late] + after, before + after, c);
  }

  /** The UP fill depends only on the UP books received by the first leg. */
  lemma UpFillIsCausal(es: seq<BookEvent>, fs: seq<BookEvent>, c: Cycle)
    requires c.requested > 0.0
    requires ReceivedOf(es, Up, FirstLegAt(c)) == ReceivedOf(fs, Up, FirstLegAt(c))
    requires ReplayBuyMerge(es, c).Ok? && ReplayBuyMerge(fs, c).Ok?
    ensures BuyLegs(es, c).value.up == BuyLegs(fs, c).value.up
    ensures ReplayBuyMerge(es, c).value.upFilled == ReplayBuyMerge(fs, c).value.upFilled
  {
    AsOfReceivedOf(es, Up, FirstLegAt(c));
    AsOfReceivedOf(fs, Up, FirstLegAt(c));
  }

  // ---------------------------------------------------------------- accounting

  predicate Bought(s: DepthSimulation) {
    && s.filled >= 0.0
    && (s.filled == 0.0 <==> s.perShare.None?)
    && (s.perShare.Some? ==> s.perShare.value.allInCost.Some?)
    && BuyCost(s) == AllIn(s) * s.filled
  }

  /** What a bought leg costs is its all-in cost a share, times its shares. */
  lemma LegIsBought(o: Order, quantity: real)
    requires ValidOrder(o) && o.side == Buy && quantity > 0.0 && Of(o, quantity).Ok?
    ensures Bought(Of(o, quantity).value)
  {
    var sim := Of(o, quantity).value;
    SimulationIsAccepted(o, quantity);
    SimulationIsTheWalk(o, quantity);
    if sim.filled == 0.0 {
      EmptyLegIsFree(o.policy, sim.gross, sim.totalFee);
    } else {
      AverageBetweenBestAndWorst(o, quantity);
      AllInOfLeg(o, quantity);
    }
  }

  lemma EmptyLegIsFree(p: PricingPolicy, gross: real, fee: real)
    requires gross == 0.0 && fee == 0.0
    ensures gross + fee + FeeBuffer(p, fee) + SlippageBuffer(p, gross) == 0.0
  {
  }

  lemma AllInOfLeg(o: Order, quantity: real)
    requires quantity > 0.0 && Of(o, quantity).Ok? && o.side == Buy
    requires Of(o, quantity).value.perShare.Some?
    ensures AllIn(Of(o, quantity).value) * Of(o, quantity).value.filled == BuyCost(Of(o, quantity).value)
  {
    var sim := Of(o, quantity).value;
    var cost := sim.gross + (sim.totalFee + sim.feeBuffer + sim.slippageBuffer);
    assert AllIn(sim) == cost / sim.filled;
    QuotientTimes(cost, sim.filled);
  }

  lemma LegsAreBought(es: seq<BookEvent>, c: Cycle)
    requires ValidCycle(c) && ValidEvents(es)
    ensures BuyLegs(es, c).Ok? ==> Bought(BuyLegs(es, c).value.up) && Bought(BuyLegs(es, c).value.down)
  {
    if BuyLegs(es, c).Ok? {
      var up, down := AsOf(es, Up, FirstLegAt(c)).value, AsOf(es, Down, SecondLegAt(c)).value;
      AsOfIsValid(es, Up, FirstLegAt(c));
      AsOfIsValid(es, Down, SecondLegAt(c));
      LegIsBought(LegOrder(up, c.upFee, Buy, FirstLegAt(c), c.policy), c.requested);
      LegIsBought(LegOrder(down, c.downFee, Buy, SecondLegAt(c), c.policy), c.requested);
    }
  }

  /** The sets matched and the exposure left make up the larger leg. */
  lemma MatchedAndExposure(es: seq<BookEvent>, c: Cycle)
    requires c.requested > 0.0 && ReplayBuyMerge(es, c).Ok?
    ensures var r := ReplayBuyMerge(es, c).value;
            r.matched + r.exposure == RealMax(r.upFilled, r.downFilled)
            && r.matched == RealMin(r.upFilled, r.downFilled)
  {
  }

  /** The loss is known exactly when all of the excess could be sold: the excess leg always has a cost. */
  lemma LossKnownIffFeasible(es: seq<BookEvent>, c: Cycle)
    requires ValidCycle(c) && ValidEvents(es)
    ensures ReplayBuyMerge(es, c).Ok? ==>
              (ReplayBuyMerge(es, c).value.unwind.loss.Some? <==> ReplayBuyMerge(es, c).value.unwind.feasible)
  {
    if ReplayBuyMerge(es, c).Ok? {
      LegsAreBought(es, c);
    }
  }

  function MatchedPnl(l: Legs): real {
    RealMin(l.up.filled, l.down.filled) * (1.0 - AllIn(l.up) - AllIn(l.down))
  }

  function ExcessCost(l: Legs): real {
    ShareCost(Leg(l, Larger(l)), Exposure(l))
  }

  lemma Decompose(matched: real, excess: real, larger: real, smaller: real, fl: real)
    requires fl == matched + excess
    ensures matched - larger * fl - smaller * matched == matched * (1.0 - larger - smaller) - larger * excess
  {
  }

  lemma UnwindLoss(es: seq<BookEvent>, c: Cycle, l: Legs)
    requires UnwindOf(es, c, l).Ok? && UnwindOf(es, c, l).value.loss.Some?
    ensures var u := UnwindOf(es, c, l).value; u.loss == Some(RealMax(0.0, ExcessCost(l) - u.proceeds))
  {
  }

  lemma NetIs(c: Cycle, l: Legs, u: Unwind)
    requires Bought(l.up) && Bought(l.down)
    ensures Report(c, l, u).netPnl == MatchedPnl(l) - (ExcessCost(l) - u.proceeds)
  {
    var matched := RealMin(l.up.filled, l.down.filled);
    if l.up.filled > l.down.filled {
      Decompose(matched, Exposure(l), AllIn(l.up), AllIn(l.down), l.up.filled);
    } else {
      Decompose(matched, Exposure(l), AllIn(l.down), AllIn(l.up), l.down.filled);
    }
  }

  /** At least the margin less the loss, and exactly that unless the sale brings in more than the excess cost. */
  predicate NetAgainstLoss(net: real, margin: real, excessCost: real, proceeds: real, loss: Option<real>) {
    && loss.Some?
    && net >= margin - loss.value
    && (net == margin - loss.value <==> proceeds <= excessCost)
  }

  lemma NetMeetsLoss(net: real, margin: real, excessCost: real, proceeds: real, loss: Option<real>)
    requires net == margin - (excessCost - proceeds) && loss == Some(RealMax(0.0, excessCost - proceeds))
    ensures NetAgainstLoss(net, margin, excessCost, proceeds, loss)
  {
  }

  lemma ReportDecomposes(c: Cycle, l: Legs, u: Unwind)
    requires Bought(l.up) && Bought(l.down) && u.loss == Some(RealMax(0.0, ExcessCost(l) - u.proceeds))
    ensures NetAgainstLoss(Report(c, l, u).netPnl, MatchedPnl(l), ExcessCost(l), u.proceeds, u.loss)
  {
    NetIs(c, l, u);
    NetMeetsLoss(Report(c, l, u).netPnl, MatchedPnl(l), ExcessCost(l), u.proceeds, u.loss);
  }

  /** The net result against the matched sets' margin and the loss of unwinding the excess. */
  lemma PnlDecomposes(es: seq<BookEvent>, c: Cycle)
    requires ValidCycle(c) && ValidEvents(es)
    ensures ReplayBuyMerge(es, c).Ok? && ReplayBuyMerge(es, c).value.unwind.feasible ==>
              && BuyLegs(es, c).Ok?
              && var r, l := ReplayBuyMerge(es, c).value, BuyLegs(es, c).value;
                 NetAgainstLoss(r.netPnl, MatchedPnl(l), ExcessCost(l), r.unwind.proceeds, r.unwind.loss)
  {
    if ReplayBuyMerge(es, c).Ok? && ReplayBuyMerge(es, c).value.unwind.feasible {
      var l := BuyLegs(es, c).value;
      LegsAreBought(es, c);
      LossKnownIffFeasible(es, c);
      UnwindLoss(es, c, l);
      ReportDecomposes(c, l, UnwindOf(es, c, l).value);
    }
  }

  /** What the result's own constructor demands. */
  predicate AcceptedReplay(r: ReplayResult) {
    && Governed(r.latencyMs) && r.firstLegAt < r.secondLegAt
    && r.requested >= 0.0 && r.upFilled >= 0.0 && r.downFilled >= 0.0 && r.matched >= 0.0 && r.exposure >= 0.0
    && r.unwind.proceeds >= 0.0
    && (r.unwind.loss.Some? ==> r.unwind.loss.value >= 0.0)
  }

  lemma SaleProceedsNotNegative(o: Order, quantity: real)
    requires ValidOrder(o) && o.side == Sell && quantity > 0.0 && Of(o, quantity).Ok?
    requires Of(o, quantity).value.perShare.Some?
    ensures Of(o, quantity).value.perShare.value.netProceeds.Some?
    ensures Of(o, quantity).value.perShare.value.netProceeds.value * Of(o, quantity).value.filled >= 0.0
  {
    var sim := Of(o, quantity).value;
    SimulationIsTheWalk(o, quantity);
    QuotientTimes(sim.gross - Costs(o.policy, sim.gross, sim.totalFee), sim.filled);
  }

  lemma UnwindProceedsNotNegative(es: seq<BookEvent>, c: Cycle, l: Legs)
    requires ValidCycle(c) && ValidEvents(es) && UnwindOf(es, c, l).Ok?
    ensures UnwindOf(es, c, l).value.proceeds >= 0.0
  {
    if Exposure(l) != 0.0 {
      var o := Larger(l);
      AsOfIsValid(es, o, SecondLegAt(c));
      var order := LegOrder(AsOf(es, o, SecondLegAt(c)).value, if o == Up then c.upFee else c.downFee, Sell,
                            SecondLegAt(c), c.policy);
      SettledNotNegative(order, Exposure(l), Leg(l, o));
    }
  }

  lemma SettledNotNegative(o: Order, exposure: real, leg: DepthSimulation)
    requires ValidOrder(o) && o.side == Sell && exposure > 0.0 && Of(o, exposure).Ok?
    ensures Settle(Of(o, exposure).value, exposure, leg).proceeds >= 0.0
  {
    if Of(o, exposure).value.perShare.Some? {
      SaleProceedsNotNegative(o, exposure);
    }
  }

  lemma ReplayIsAccepted(es: seq<BookEvent>, c: Cycle)
    requires ValidCycle(c) && ValidEvents(es)
    ensures ReplayBuyMerge(es, c).Ok? ==> AcceptedReplay(ReplayBuyMerge(es, c).value)
  {
    if ReplayBuyMerge(es, c).Ok? {
      LegsAreBought(es, c);
      UnwindProceedsNotNegative(es, c, BuyLegs(es, c).value);
    }
  }
}
