/**
 * Execution of one order against a published book: the greedy walk with per-level fees and
 * conservative buffers, proved against what the walk consumes, and its economics.
 */
module Simulation {
  import opened Common
  import opened Fees
  import opened Depth

  datatype Side = Buy | Sell

  datatype Book = Book(
    conditionId: string,
    tokenId: string,
    bids: seq<Level>,
    asks: seq<Level>,
    sourceTs: Option<int>,
    recvTs: int)

  predicate ValidBook(b: Book) {
    && ValidLevels(b.bids) && Descending(b.bids)
    && ValidLevels(b.asks) && Ascending(b.asks)
    && (b.bids != [] && b.asks != [] ==> b.bids[0].price < b.asks[0].price)
  }

  datatype PricingPolicy = PricingPolicy(
    maxBookAge: nat, maxFeeAge: nat, slippageBufferBps: real, feeBufferBps: real)

  predicate ValidPolicy(p: PricingPolicy) {
    p.maxBookAge > 0 && p.maxFeeAge > 0 && p.slippageBufferBps >= 0.0 && p.feeBufferBps >= 0.0
  }

  datatype DepthFill = DepthFill(price: real, quantity: real, grossNotional: real, feeUsdc: real)

  /** What the fill's own constructor demands. */
  predicate AcceptedFill(f: DepthFill) {
    && 0.0 <= f.price <= 1.0 && f.quantity > 0.0 && f.grossNotional >= 0.0 && f.feeUsdc >= 0.0
    && f.grossNotional == f.price * f.quantity
  }

  /** The per-share results; a simulation that fills nothing has none of them. */
  datatype PerShare = PerShare(
    vwap: real, worstPrice: real, depthImpact: real, allInCost: Option<real>, netProceeds: Option<real>)

  datatype DepthSimulation = DepthSimulation(
    conditionId: string,
    tokenId: string,
    side: Side,
    requested: real,
    executableDepth: real,
    filled: real,
    fillFraction: real,
    fills: seq<DepthFill>,
    gross: real,
    totalFee: real,
    feeBuffer: real,
    slippageBuffer: real,
    perShare: Option<PerShare>,
    simulatedAt: int)

  function SumQuantity(fs: seq<DepthFill>): real {
    if fs == [] then 0.0 else fs[0].quantity + SumQuantity(fs[1..])
  }

  function SumGross(fs: seq<DepthFill>): real {
    if fs == [] then 0.0 else fs[0].grossNotional + SumGross(fs[1..])
  }

  function SumFee(fs: seq<DepthFill>): real {
    if fs == [] then 0.0 else fs[0].feeUsdc + SumFee(fs[1..])
  }

  /** What the simulation's own constructor demands. */
  predicate Accepted(s: DepthSimulation) {
    && s.requested > 0.0 && s.executableDepth >= 0.0 && s.filled >= 0.0
    && s.gross >= 0.0 && s.totalFee >= 0.0 && s.feeBuffer >= 0.0 && s.slippageBuffer >= 0.0
    && 0.0 <= s.fillFraction <= 1.0 && s.fillFraction == s.filled / s.requested
    && SumQuantity(s.fills) == s.filled && SumGross(s.fills) == s.gross && SumFee(s.fills) == s.totalFee
    && s.filled <= s.requested && s.filled <= s.executableDepth
    && (s.filled == 0.0 <==> s.perShare.None?)
    && (s.perShare.Some? ==> AcceptedPerShare(s.side, s.perShare.value))
    && forall i :: 0 <= i < |s.fills| ==> AcceptedFill(s.fills[i])
  }

  predicate AcceptedPerShare(side: Side, r: PerShare) {
    && r.vwap >= 0.0 && r.worstPrice >= 0.0 && r.depthImpact >= 0.0
    && (side == Buy ==> r.allInCost.Some? && r.netProceeds.None?)
    && (side == Sell ==> r.allInCost.None? && r.netProceeds.Some?)
  }

  // ---------------------------------------------------------------- guards and eligible levels

  function RequireFreshBook(b: Book, at: int, maxAge: nat): Option<PricingError> {
    if b.sourceTs.None? then Some(BookSourceMissing)
    else if at < b.sourceTs.value then Some(BookInFuture)
    else if at - b.sourceTs.value > maxAge then Some(BookStale)
    else if at < b.recvTs then Some(BookInFuture)
    else if at - b.recvTs > maxAge then Some(BookStale)
    else None
  }

  function RequireFeeSchedule(s: FeeSchedule, conditionId: string, at: int, maxAge: nat): Option<PricingError> {
    if s.conditionId != conditionId then Some(ConditionMismatch)
    else if at < s.recvTs then Some(ScheduleInFuture)
    else if at - s.recvTs > maxAge then Some(ScheduleStale)
    else None
  }

  predicate Crosses(side: Side, limit: real, l: Level) {
    if side == Buy then l.price <= limit else l.price >= limit
  }

  function Eligible(ls: seq<Level>, side: Side, limit: real): seq<Level> {
    if ls == [] then []
    else if Crosses(side, limit, ls[0]) then [ls[0]] + Eligible(ls[1..], side, limit)
    else Eligible(ls[1..], side, limit)
  }

  function LevelsOf(b: Book, side: Side): seq<Level> {
    if side == Buy then b.asks else b.bids
  }

  predicate Sorted(ls: seq<Level>, side: Side) {
    if side == Buy then Ascending(ls) else Descending(ls)
  }

  /** The eligible levels are the best ones: a prefix of the book, after which none qualifies. */
  lemma {:induction false} EligibleIsPrefix(ls: seq<Level>, side: Side, limit: real)
    requires Sorted(ls, side)
    ensures var n := |Eligible(ls, side, limit)|;
            && n <= |ls| && Eligible(ls, side, limit) == ls[..n]
            && (forall i :: n <= i < |ls| ==> !Crosses(side, limit, ls[i]))
  {
    if ls != [] {
      var tail := Eligible(ls[1..], side, limit);
      assert Sorted(ls[1..], side);
      EligibleIsPrefix(ls[1..], side, limit);
      if Crosses(side, limit, ls[0]) {
        assert Eligible(ls, side, limit) == [ls[0]] + ls[1..][..|tail|] == ls[..|tail| + 1];
      } else {
        if tail != [] {
          CrossingHead(ls[1..], side, limit);
        }
      }
    }
  }

  lemma {:induction false} CrossingHead(ls: seq<Level>, side: Side, limit: real)
    requires Eligible(ls, side, limit) != []
    ensures Crosses(side, limit, Eligible(ls, side, limit)[0])
  {
    if !Crosses(side, limit, ls[0]) {
      CrossingHead(ls[1..], side, limit);
    }
  }

  lemma EligibleIsValid(b: Book, side: Side, limit: real)
    requires ValidBook(b)
    ensures ValidLevels(Eligible(LevelsOf(b, side), side, limit))
    ensures Sorted(Eligible(LevelsOf(b, side), side, limit), side)
  {
    EligibleIsPrefix(LevelsOf(b, side), side, limit);
  }

  // ---------------------------------------------------------------- what is consumed, priced

  /** One fill a consumed level, unless some level's fee cannot be quoted. */
  function Fills(s: FeeSchedule, taken: seq<Level>, role: Role): Result<seq<DepthFill>, PricingError> {
    if taken == [] then Ok([])
    else
      var fee := QuoteFee(s, taken[0].quantity, taken[0].price, role);
      if fee.Err? then Err(fee.error)
      else
        var rest := Fills(s, taken[1..], role);
        if rest.Err? then rest else Ok([FillOf(taken[0], fee.value)] + rest.value)
  }

  function FillOf(l: Level, fee: real): DepthFill {
    DepthFill(l.price, l.quantity, l.price * l.quantity, fee)
  }

  function ExactFees(s: FeeSchedule, taken: seq<Level>, role: Role): real {
    if taken == [] then 0.0
    else
      var fee := RawFee(s, taken[0].quantity, taken[0].price, role);
      (if fee.Ok? then fee.value else 0.0) + ExactFees(s, taken[1..], role)
  }

  lemma FillsUnfold(s: FeeSchedule, taken: seq<Level>, role: Role)
    requires taken != [] && Fills(s, taken, role).Ok?
    ensures Fills(s, taken[1..], role).Ok? && QuoteFee(s, taken[0].quantity, taken[0].price, role).Ok?
    ensures Fills(s, taken, role).value[1..] == Fills(s, taken[1..], role).value
    ensures Fills(s, taken, role).value[0]
            == FillOf(taken[0], QuoteFee(s, taken[0].quantity, taken[0].price, role).value)
  {
  }

  lemma {:induction false} FillTotals(s: FeeSchedule, taken: seq<Level>, role: Role)
    requires ValidSchedule(s) && ValidLevels(taken) && Fills(s, taken, role).Ok?
    ensures var fs := Fills(s, taken, role).value;
            |fs| == |taken| && SumQuantity(fs) == Size(taken) && SumGross(fs) == Notional(taken) && SumFee(fs) >= 0.0
  {
    if taken != [] {
      FillsUnfold(s, taken, role);
      FillTotals(s, taken[1..], role);
      QuotedFeeIsClose(s, taken[0].quantity, taken[0].price, role);
    }
  }

  /** A fill is its level's price and quantity, with the fee quoted for them. */
  predicate Fulfils(f: DepthFill, l: Level, s: FeeSchedule, role: Role) {
    && AcceptedFill(f) && f.price == l.price && f.quantity == l.quantity
    && QuoteFee(s, l.quantity, l.price, role) == Ok(f.feeUsdc)
  }

  lemma OneFulfils(s: FeeSchedule, l: Level, role: Role, fee: real)
    requires ValidSchedule(s) && 0.0 <= l.price <= 1.0 && l.quantity > 0.0
    requires QuoteFee(s, l.quantity, l.price, role) == Ok(fee)
    ensures Fulfils(FillOf(l, fee), l, s, role)
  {
    QuotedFeeIsClose(s, l.quantity, l.price, role);
    ProductNotNegative(l.price, l.quantity);
  }

  lemma {:induction false} EachFillFulfils(s: FeeSchedule, taken: seq<Level>, role: Role, i: nat)
    requires ValidSchedule(s) && ValidLevels(taken) && Fills(s, taken, role).Ok?
    requires |Fills(s, taken, role).value| == |taken| && i < |taken|
    ensures Fulfils(Fills(s, taken, role).value[i], taken[i], s, role)
  {
    FillsUnfold(s, taken, role);
    if i == 0 {
      OneFulfils(s, taken[0], role, QuoteFee(s, taken[0].quantity, taken[0].price, role).value);
    } else {
      EachFillFulfils(s, taken[1..], role, i - 1);
      assert Fills(s, taken, role).value[i] == Fills(s, taken, role).value[1..][i - 1];
    }
  }

  /** The fills are the consumed levels, with the same totals. */
  lemma FillsAreConsumed(s: FeeSchedule, taken: seq<Level>, role: Role)
    requires ValidSchedule(s) && ValidLevels(taken) && Fills(s, taken, role).Ok?
    ensures var fs := Fills(s, taken, role).value;
            && |fs| == |taken|
            && SumQuantity(fs) == Size(taken) && SumGross(fs) == Notional(taken) && SumFee(fs) >= 0.0
            && forall i :: 0 <= i < |fs| ==> Fulfils(fs[i], taken[i], s, role)
  {
    FillTotals(s, taken, role);
    forall i | 0 <= i < |taken| ensures Fulfils(Fills(s, taken, role).value[i], taken[i], s, role) {
      EachFillFulfils(s, taken, role, i);
    }
  }

  lemma WalkTotals(s: FeeSchedule, levels: seq<Level>, requested: real, role: Role)
    requires ValidSchedule(s) && ValidLevels(levels) && requested > 0.0
    requires Fills(s, Consumed(levels, requested), role).Ok?
    ensures ValidLevels(Consumed(levels, requested))
    ensures var fs := Fills(s, Consumed(levels, requested), role).value;
            && SumQuantity(fs) == Size(Consumed(levels, requested)) == RealMin(requested, Size(levels))
            && SumQuantity(fs) >= 0.0 && (fs == [] <==> SumQuantity(fs) == 0.0)
            && |fs| == |Consumed(levels, requested)|
  {
    ConsumedSize(levels, requested);
    SizeNotNegative(Consumed(levels, requested));
    FillsAreConsumed(s, Consumed(levels, requested), role);
  }

  /** Rounding each level's fee moves the total by at most half a unit a fill. */
  lemma {:induction false} FeesAreClose(s: FeeSchedule, taken: seq<Level>, role: Role)
    requires ValidSchedule(s) && ValidLevels(taken) && Fills(s, taken, role).Ok?
    ensures RealAbs(SumFee(Fills(s, taken, role).value) - ExactFees(s, taken, role)) <= 0.000005 * |taken| as real
  {
    if taken != [] {
      var fs := Fills(s, taken, role).value;
      FeesAreClose(s, taken[1..], role);
      QuotedFeeIsClose(s, taken[0].quantity, taken[0].price, role);
      assert fs[1..] == Fills(s, taken[1..], role).value;
    }
  }

  // ---------------------------------------------------------------- the simulation

  function PerShareOf(side: Side, fs: seq<DepthFill>, filled: real, gross: real, costs: real): PerShare
    requires fs != [] && filled > 0.0
  {
    var vwap := gross / filled;
    var best := fs[0].price;
    var worst := fs[|fs| - 1].price;
    if side == Buy then PerShare(vwap, worst, vwap - best, Some((gross + costs) / filled), None)
    else PerShare(vwap, worst, best - vwap, None, Some((gross - costs) / filled))
  }

  function FeeBuffer(p: PricingPolicy, fee: real): real {
    fee * p.feeBufferBps / 10000.0
  }

  function SlippageBuffer(p: PricingPolicy, gross: real): real {
    gross * p.slippageBufferBps / 10000.0
  }

  /** Everything charged beside the gross notional. */
  function Costs(p: PricingPolicy, gross: real, fee: real): real {
    fee + FeeBuffer(p, fee) + SlippageBuffer(p, gross)
  }

  function PerShares(p: PricingPolicy, side: Side, fs: seq<DepthFill>, filled: real): Option<PerShare> {
    if fs == [] || filled <= 0.0 then None
    else Some(PerShareOf(side, fs, filled, SumGross(fs), Costs(p, SumGross(fs), SumFee(fs))))
  }

  predicate LosesOnSale(p: PricingPolicy, side: Side, fs: seq<DepthFill>) {
    side == Sell && SumGross(fs) < Costs(p, SumGross(fs), SumFee(fs))
  }

  function Summary(
    b: Book, side: Side, requested: real, depth: real, fs: seq<DepthFill>, p: PricingPolicy, at: int): DepthSimulation
    requires requested > 0.0
  {
    var filled := SumQuantity(fs);
    var gross := SumGross(fs);
    var fee := SumFee(fs);
    DepthSimulation(b.conditionId, b.tokenId, side, requested, depth, filled, filled / requested, fs, gross, fee,
                    FeeBuffer(p, fee), SlippageBuffer(p, gross), PerShares(p, side, fs, filled), at)
  }

  function Guard(b: Book, s: FeeSchedule, at: int, p: PricingPolicy): Option<PricingError> {
    var stale := RequireFreshBook(b, at, p.maxBookAge);
    if stale.Some? then stale else RequireFeeSchedule(s, b.conditionId, at, p.maxFeeAge)
  }

  /** The levels an order takes from a book. */
  function Taken(b: Book, side: Side, requested: real, limit: real): seq<Level> {
    Consumed(Eligible(LevelsOf(b, side), side, limit), requested)
  }

  function Simulate(
    b: Book, s: FeeSchedule, side: Side, requested: real, limit: real, role: Role, at: int, p: PricingPolicy)
    : Result<DepthSimulation, PricingError>
    requires requested > 0.0
  {
    var guard := Guard(b, s, at, p);
    if guard.Some? then Err(guard.value)
    else
      var fills := Fills(s, Taken(b, side, requested, limit), role);
      if fills.Err? then Err(fills.error)
      else if fills.value != [] && LosesOnSale(p, side, fills.value) then Err(NegativeProceeds)
      else Ok(Summary(b, side, requested, Size(Eligible(LevelsOf(b, side), side, limit)), fills.value, p, at))
  }

  // ---------------------------------------------------------------- the loop

  /** The fills made so far, followed by those of the rest. */
  function Then(done: seq<DepthFill>, rest: Result<seq<DepthFill>, PricingError>)
    : Result<seq<DepthFill>, PricingError>
  {
    if rest.Err? then rest else Ok(done + rest.value)
  }

  lemma OneMoreLevel(s: FeeSchedule, ls: seq<Level>, remaining: real, role: Role, done: seq<DepthFill>)
    requires ValidLevels(ls) && ls != [] && remaining > 0.0
    ensures var t := RealMin(ls[0].quantity, remaining);
            var fee := QuoteFee(s, t, ls[0].price, role);
            && Size(Consumed(ls, remaining)) == t + Size(Consumed(ls[1..], remaining - t))
            && Then(done, Fills(s, Consumed(ls, remaining), role))
               == (if fee.Err? then Err(fee.error)
                   else Then(done + [FillOf(Level(ls[0].price, t), fee.value)],
                             Fills(s, Consumed(ls[1..], remaining - t), role)))
  {
    var t := RealMin(ls[0].quantity, remaining);
    var fee := QuoteFee(s, t, ls[0].price, role);
    assert Consumed(ls, remaining)[1..] == Consumed(ls[1..], remaining - t);
    var rest := Fills(s, Consumed(ls[1..], remaining - t), role);
    if fee.Ok? && rest.Ok? {
      var one := [FillOf(Level(ls[0].price, t), fee.value)];
      assert done + (one + rest.value) == (done + one) + rest.value;
    }
  }

  method WalkLevels(s: FeeSchedule, levels: seq<Level>, requested: real, role: Role)
    returns (fills: Result<seq<DepthFill>, PricingError>, remaining: real)
    requires ValidLevels(levels) && requested > 0.0
    ensures fills == Fills(s, Consumed(levels, requested), role)
    ensures fills.Ok? ==> requested - remaining == Size(Consumed(levels, requested))
  {
    remaining := requested;
    var done: seq<DepthFill> := [];
    var i := 0;
    assert levels[0..] == levels;
    ghost var goal := Fills(s, Consumed(levels, requested), role);
    assert goal.Ok? ==> done + goal.value == goal.value;
    while i < |levels|
      invariant 0 <= i <= |levels| && remaining >= 0.0
      invariant goal == Then(done, Fills(s, Consumed(levels[i..], remaining), role))
      invariant Size(Consumed(levels, requested)) == requested - remaining + Size(Consumed(levels[i..], remaining))
    {
      if remaining == 0.0 {
        break;
      }
      var quantity := RealMin(levels[i].quantity, remaining);
      var fee := QuoteFee(s, quantity, levels[i].price, role);
      OneMoreLevel(s, levels[i..], remaining, role, done);
      assert levels[i..][1..] == levels[i + 1..];
      if fee.Err? {
        fills := Err(fee.error);
        return;
      }
      done := done + [FillOf(Level(levels[i].price, quantity), fee.value)];
      remaining := remaining - quantity;
      i := i + 1;
    }
    assert Consumed(levels[i..], remaining) == [];
    assert done + [] == done;
    fills := Ok(done);
  }

  method EligibleLevels(ls: seq<Level>, side: Side, limit: real) returns (r: seq<Level>)
    ensures r == Eligible(ls, side, limit)
  {
    r := [];
    for i := 0 to |ls|
      invariant Eligible(ls, side, limit) == r + Eligible(ls[i..], side, limit)
    {
      assert ls[i..][1..] == ls[i + 1..];
      if Crosses(side, limit, ls[i]) {
        r := r + [ls[i]];
      }
    }
  }

  method Totals(fs: seq<DepthFill>) returns (gross: real, fee: real)
    ensures gross == SumGross(fs) && fee == SumFee(fs)
  {
    gross, fee := 0.0, 0.0;
    for i := 0 to |fs|
      invariant SumGross(fs) == gross + SumGross(fs[i..])
      invariant SumFee(fs) == fee + SumFee(fs[i..])
    {
      assert fs[i..][1..] == fs[i + 1..];
      gross, fee := gross + fs[i].grossNotional, fee + fs[i].feeUsdc;
    }
  }

  method SimulateDepth(
    b: Book, s: FeeSchedule, side: Side, requested: real, limit: real, role: Role, at: int, p: PricingPolicy)
    returns (r: Result<DepthSimulation, PricingError>)
    requires ValidBook(b) && ValidSchedule(s) && ValidPolicy(p) && requested > 0.0
    ensures r == Simulate(b, s, side, requested, limit, role, at, p)
  {
    var guard := Guard(b, s, at, p);
    if guard.Some? {
      return Err(guard.value);
    }
    var levels := EligibleLevels(LevelsOf(b, side), side, limit);
    EligibleIsValid(b, side, limit);
    var fills, remaining := WalkLevels(s, levels, requested, role);
    if fills.Err? {
      return Err(fills.error);
    }
    WalkTotals(s, levels, requested, role);
    r := Economics(b, side, requested, Size(levels), requested - remaining, fills.value, p, at);
  }

  /** The totals, buffers and per-share results of the fills. */
  method Economics(
    b: Book, side: Side, requested: real, depth: real, filled: real, fills: seq<DepthFill>, p: PricingPolicy, at: int)
    returns (r: Result<DepthSimulation, PricingError>)
    requires requested > 0.0 && filled == SumQuantity(fills) && (fills == [] <==> filled == 0.0) && filled >= 0.0
    ensures r == if fills != [] && LosesOnSale(p, side, fills) then Err(NegativeProceeds)
                 else Ok(Summary(b, side, requested, depth, fills, p, at))
  {
    var gross, fee := Totals(fills);
    var costs := Costs(p, gross, fee);
    var perShare := None;
    if filled != 0.0 {
      if side == Sell && gross - costs < 0.0 {
        return Err(NegativeProceeds);
      }
      perShare := Some(PerShareOf(side, fills, filled, gross, costs));
    }
    return Ok(DepthSimulation(
                b.conditionId, b.tokenId, side, requested, depth, filled, filled / requested, fills, gross, fee,
                FeeBuffer(p, fee), SlippageBuffer(p, gross), perShare, at));
  }
}
