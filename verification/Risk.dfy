/**
 * The fail-closed risk assessment, and what every run of assessing, opening what was approved,
 * and letting time pass keeps within the policy's limits.
 */
module Risk {
  import opened Common
  import opened Canonical

  datatype Exposure = Exposure(asset: Asset, horizon: Horizon, capital: real, windowEnd: int)

  datatype Liquidity = Liquidity(
    observedAt: int,
    sourceAge: nat,
    spread: real,
    executableDepth: real,
    requiredDepth: real,
    priceImpact: real,
    persistenceRatio: real,
    persistenceObservations: nat,
    sequenceValid: bool,
    transportHealthy: bool,
    feeScheduleAvailable: bool)

  datatype PortfolioState = PortfolioState(
    bankroll: Option<real>,
    exposures: Option<seq<Exposure>>,
    realizedPnlToday: Option<real>,
    drawdown: Option<real>,
    consecutiveLosses: Option<nat>,
    cooldownUntil: Option<int>,
    killSwitch: bool,
    ledgerReconciled: bool,
    assessedAt: int)

  datatype RiskPolicy = RiskPolicy(
    maximumPositions: nat,
    maximumTotal: real,
    maximumPerAsset: real,
    maximumPerHorizon: real,
    maximumCluster: real,
    maximumOverlap: nat,
    maximumDirectionalStake: real,
    maximumDailyLoss: real,
    maximumDrawdown: real,
    consecutiveLossLimit: nat,
    maximumStateAge: nat,
    maximumBookAge: nat,
    maximumSpread: real,
    maximumPriceImpact: real,
    minimumPersistence: real,
    minimumPersistenceObservations: nat)

  datatype Candidate = Candidate(directional: bool, requiredCapital: real, expiresAt: int)

  datatype Denial =
    | CandidateExpired
    | StateStaleOrFuture
    | GlobalKillSwitch
    | LedgerNotReconciled
    | StateIncomplete
    | MaximumPositions
    | InsufficientBankroll
    | TotalExposureLimit
    | AssetExposureLimit
    | HorizonExposureLimit
    | ClusterExposureLimit
    | OverlappingAssetLimit
    | DailyLossLimit
    | DrawdownLimit
    | LossCooldownActive
    | LiquidityMissing
    | BookStaleOrFuture
    | TransportUnhealthy
    | SequenceInvalid
    | FeeScheduleUnavailable
    | SpreadTooWide
    | InsufficientDepth
    | PriceImpactTooHigh
    | DepthHistoryInsufficient
    | TransientLiquidity
    | DirectionalStakeExceeded

  datatype RiskDecision = RiskDecision(approved: bool, approvedCapital: real, reasons: seq<Denial>)

  predicate ValidExposures(es: seq<Exposure>) {
    forall i :: 0 <= i < |es| ==> es[i].capital > 0.0
  }

  // ---------------------------------------------------------------- totals over active exposures

  /** Which active exposures a total ranges over. */
  datatype Scope = All | OfAsset(asset: Asset) | OfHorizon(horizon: Horizon)

  predicate InScope(e: Exposure, s: Scope) {
    match s
    case All => true
    case OfAsset(a) => e.asset == a
    case OfHorizon(h) => e.horizon == h
  }

  predicate Counts(e: Exposure, s: Scope, now: int) {
    e.windowEnd > now && InScope(e, s)
  }

  function Total(es: seq<Exposure>, s: Scope, now: int): real {
    if es == [] then 0.0
    else Total(es[..|es| - 1], s, now) + if Counts(es[|es| - 1], s, now) then es[|es| - 1].capital else 0.0
  }

  function Count(es: seq<Exposure>, s: Scope, now: int): nat {
    if es == [] then 0
    else Count(es[..|es| - 1], s, now) + if Counts(es[|es| - 1], s, now) then 1 else 0
  }

  // ---------------------------------------------------------------- the denial reasons

  function Push(rs: seq<Denial>, condition: bool, d: Denial): seq<Denial> {
    if condition then rs + [d] else rs
  }

  /** The gates on all exposures together, appended to the reasons found so far. */
  function TotalReasons(
    rs: seq<Denial>, c: Candidate, es: seq<Exposure>, bankroll: real, p: RiskPolicy, at: int): seq<Denial>
  {
    var requested := c.requiredCapital;
    var r1 := Push(rs, Count(es, All, at) >= p.maximumPositions, MaximumPositions);
    var r2 := Push(r1, requested > bankroll, InsufficientBankroll);
    Push(r2, Total(es, All, at) + requested > p.maximumTotal, TotalExposureLimit)
  }

  /** The gates on those of an asset, of a horizon, and of the cluster that all assets are. */
  function ScopeReasons(
    rs: seq<Denial>, c: Candidate, asset: Asset, horizon: Horizon, es: seq<Exposure>, p: RiskPolicy, at: int)
    : seq<Denial>
  {
    var requested := c.requiredCapital;
    var r1 := Push(rs, Total(es, OfAsset(asset), at) + requested > p.maximumPerAsset, AssetExposureLimit);
    var r2 := Push(r1, Total(es, OfHorizon(horizon), at) + requested > p.maximumPerHorizon, HorizonExposureLimit);
    var r3 := Push(r2, Total(es, All, at) + requested > p.maximumCluster, ClusterExposureLimit);
    Push(r3, Count(es, OfAsset(asset), at) >= p.maximumOverlap, OverlappingAssetLimit)
  }

  function ExposureReasons(
    rs: seq<Denial>, c: Candidate, asset: Asset, horizon: Horizon, es: seq<Exposure>, bankroll: real, p: RiskPolicy,
    at: int)
    : seq<Denial>
  {
    ScopeReasons(TotalReasons(rs, c, es, bankroll, p, at), c, asset, horizon, es, p, at)
  }

  /** The gates on losses, appended to the reasons found so far. */
  function LossReasons(rs: seq<Denial>, s: PortfolioState, p: RiskPolicy, at: int): seq<Denial>
    requires Complete(s)
  {
    var r1 := Push(rs, s.realizedPnlToday.value <= -p.maximumDailyLoss, DailyLossLimit);
    var r2 := Push(r1, s.drawdown.value >= p.maximumDrawdown, DrawdownLimit);
    Push(r2, CooldownActive(s, p, at), LossCooldownActive)
  }

  function PortfolioReasons(
    rs: seq<Denial>, c: Candidate, asset: Asset, horizon: Horizon, s: PortfolioState, p: RiskPolicy, at: int)
    : seq<Denial>
    requires Complete(s)
  {
    LossReasons(ExposureReasons(rs, c, asset, horizon, s.exposures.value, s.bankroll.value, p, at), s, p, at)
  }

  predicate CooldownActive(s: PortfolioState, p: RiskPolicy, at: int)
    requires Complete(s)
  {
    s.consecutiveLosses.value >= p.consecutiveLossLimit && s.cooldownUntil.Some? && at < s.cooldownUntil.value
  }

  function FeedReasons(rs: seq<Denial>, q: Liquidity, p: RiskPolicy, at: int): seq<Denial> {
    var r1 := Push(rs, q.observedAt > at || q.sourceAge > p.maximumBookAge, BookStaleOrFuture);
    var r2 := Push(r1, !q.transportHealthy, TransportUnhealthy);
    var r3 := Push(r2, !q.sequenceValid, SequenceInvalid);
    Push(r3, !q.feeScheduleAvailable, FeeScheduleUnavailable)
  }

  function DepthReasons(rs: seq<Denial>, q: Liquidity, p: RiskPolicy): seq<Denial> {
    var r1 := Push(rs, q.spread > p.maximumSpread, SpreadTooWide);
    var r2 := Push(r1, q.executableDepth < q.requiredDepth, InsufficientDepth);
    var r3 := Push(r2, q.priceImpact > p.maximumPriceImpact, PriceImpactTooHigh);
    if q.persistenceObservations < p.minimumPersistenceObservations then Push(r3, true, DepthHistoryInsufficient)
    else Push(r3, q.persistenceRatio < p.minimumPersistence, TransientLiquidity)
  }

  function LiquidityReasons(rs: seq<Denial>, l: Option<Liquidity>, p: RiskPolicy, at: int): seq<Denial> {
    if l.None? then Push(rs, true, LiquidityMissing)
    else DepthReasons(FeedReasons(rs, l.value, p, at), l.value, p)
  }

  predicate Complete(s: PortfolioState) {
    s.bankroll.Some? && s.exposures.Some? && s.realizedPnlToday.Some? && s.drawdown.Some? && s.consecutiveLosses.Some?
  }

  function StateReasons(c: Candidate, s: PortfolioState, p: RiskPolicy, at: int): seq<Denial> {
    var r1 := Push([], at > c.expiresAt, CandidateExpired);
    var r2 := Push(r1, at < s.assessedAt || at - s.assessedAt > p.maximumStateAge, StateStaleOrFuture);
    var r3 := Push(r2, s.killSwitch, GlobalKillSwitch);
    Push(r3, !s.ledgerReconciled, LedgerNotReconciled)
  }

  function Reasons(
    c: Candidate, asset: Asset, horizon: Horizon, l: Option<Liquidity>, s: PortfolioState, p: RiskPolicy, at: int)
    : seq<Denial>
  {
    var r1 := StateReasons(c, s, p, at);
    var r2 := if Complete(s) then PortfolioReasons(r1, c, asset, horizon, s, p, at)
              else Push(r1, true, StateIncomplete);
    var r3 := LiquidityReasons(r2, l, p, at);
    Push(r3, c.directional && c.requiredCapital > p.maximumDirectionalStake, DirectionalStakeExceeded)
  }

  function Assess(
    c: Candidate, asset: Asset, horizon: Horizon, l: Option<Liquidity>, s: PortfolioState, p: RiskPolicy, at: int)
    : RiskDecision
  {
    var reasons := Reasons(c, asset, horizon, l, s, p, at);
    if reasons == [] then RiskDecision(true, c.requiredCapital, []) else RiskDecision(false, 0.0, reasons)
  }

  // ---------------------------------------------------------------- enlarging the exposures

  /** The exposures of one state are those of another with some left out. */
  predicate Sublist<T(==)>(xs: seq<T>, ys: seq<T>) {
    if xs == [] then true
    else if ys == [] then false
    else if xs[|xs| - 1] == ys[|ys| - 1] then Sublist(xs[..|xs| - 1], ys[..|ys| - 1])
    else Sublist(xs, ys[..|ys| - 1])
  }

  lemma {:induction false} TotalsGrow(xs: seq<Exposure>, ys: seq<Exposure>, s: Scope, now: int)
    requires Sublist(xs, ys) && ValidExposures(ys)
    ensures Total(xs, s, now) <= Total(ys, s, now) && Count(xs, s, now) <= Count(ys, s, now)
  {
    if ys != [] {
      if xs != [] && xs[|xs| - 1] == ys[|ys| - 1] {
        TotalsGrow(xs[..|xs| - 1], ys[..|ys| - 1], s, now);
      } else {
        assert Sublist(xs, ys[..|ys| - 1]);
        TotalsGrow(xs, ys[..|ys| - 1], s, now);
      }
    }
  }

  // ---------------------------------------------------------------- what each reason means

  /** The portfolio limits, each on its own. */
  predicate PortfolioGate(
    d: Denial, c: Candidate, asset: Asset, horizon: Horizon, s: PortfolioState, p: RiskPolicy, at: int)
    requires Complete(s)
  {
    var es := s.exposures.value;
    match d
    case MaximumPositions => Count(es, All, at) >= p.maximumPositions
    case InsufficientBankroll => c.requiredCapital > s.bankroll.value
    case TotalExposureLimit => Total(es, All, at) + c.requiredCapital > p.maximumTotal
    case AssetExposureLimit => Total(es, OfAsset(asset), at) + c.requiredCapital > p.maximumPerAsset
    case HorizonExposureLimit => Total(es, OfHorizon(horizon), at) + c.requiredCapital > p.maximumPerHorizon
    case ClusterExposureLimit => Total(es, All, at) + c.requiredCapital > p.maximumCluster
    case OverlappingAssetLimit => Count(es, OfAsset(asset), at) >= p.maximumOverlap
    case DailyLossLimit => s.realizedPnlToday.value <= -p.maximumDailyLoss
    case DrawdownLimit => s.drawdown.value >= p.maximumDrawdown
    case LossCooldownActive => CooldownActive(s, p, at)
    case _ => false
  }

  predicate LiquidityGate(d: Denial, l: Option<Liquidity>, p: RiskPolicy, at: int) {
    match d
    case LiquidityMissing => l.None?
    case BookStaleOrFuture => l.Some? && (l.value.observedAt > at || l.value.sourceAge > p.maximumBookAge)
    case TransportUnhealthy => l.Some? && !l.value.transportHealthy
    case SequenceInvalid => l.Some? && !l.value.sequenceValid
    case FeeScheduleUnavailable => l.Some? && !l.value.feeScheduleAvailable
    case SpreadTooWide => l.Some? && l.value.spread > p.maximumSpread
    case InsufficientDepth => l.Some? && l.value.executableDepth < l.value.requiredDepth
    case PriceImpactTooHigh => l.Some? && l.value.priceImpact > p.maximumPriceImpact
    case DepthHistoryInsufficient =>
      l.Some? && l.value.persistenceObservations < p.minimumPersistenceObservations
    case TransientLiquidity =>
      l.Some? && l.value.persistenceObservations >= p.minimumPersistenceObservations
      && l.value.persistenceRatio < p.minimumPersistence
    case _ => false
  }

  predicate StateGate(d: Denial, c: Candidate, s: PortfolioState, p: RiskPolicy, at: int) {
    match d
    case CandidateExpired => at > c.expiresAt
    case StateStaleOrFuture => at < s.assessedAt || at - s.assessedAt > p.maximumStateAge
    case GlobalKillSwitch => s.killSwitch
    case LedgerNotReconciled => !s.ledgerReconciled
    case StateIncomplete => !Complete(s)
    case DirectionalStakeExceeded => c.directional && c.requiredCapital > p.maximumDirectionalStake
    case _ => false
  }

  predicate OnLosses(d: Denial) {
    d in {DailyLossLimit, DrawdownLimit, LossCooldownActive}
  }

  predicate OnTotals(d: Denial) {
    d in {MaximumPositions, InsufficientBankroll, TotalExposureLimit}
  }

  lemma TotalReasonsAre(
    rs: seq<Denial>, c: Candidate, asset: Asset, horizon: Horizon, s: PortfolioState, p: RiskPolicy, at: int, d: Denial)
    requires Complete(s)
    ensures d in TotalReasons(rs, c, s.exposures.value, s.bankroll.value, p, at)
            <==> d in rs || (OnTotals(d) && PortfolioGate(d, c, asset, horizon, s, p, at))
  {
  }

  lemma ScopeReasonsAre(
    rs: seq<Denial>, c: Candidate, asset: Asset, horizon: Horizon, s: PortfolioState, p: RiskPolicy, at: int, d: Denial)
    requires Complete(s)
    ensures d in ScopeReasons(rs, c, asset, horizon, s.exposures.value, p, at)
            <==> d in rs || (!OnTotals(d) && !OnLosses(d) && PortfolioGate(d, c, asset, horizon, s, p, at))
  {
  }

  lemma ExposureReasonsAre(
    rs: seq<Denial>, c: Candidate, asset: Asset, horizon: Horizon, s: PortfolioState, p: RiskPolicy, at: int, d: Denial)
    requires Complete(s)
    ensures d in ExposureReasons(rs, c, asset, horizon, s.exposures.value, s.bankroll.value, p, at)
            <==> d in rs || (!OnLosses(d) && PortfolioGate(d, c, asset, horizon, s, p, at))
  {
    TotalReasonsAre(rs, c, asset, horizon, s, p, at, d);
    ScopeReasonsAre(TotalReasons(rs, c, s.exposures.value, s.bankroll.value, p, at), c, asset, horizon, s, p, at, d);
  }

  lemma LossReasonsAre(
    rs: seq<Denial>, c: Candidate, asset: Asset, horizon: Horizon, s: PortfolioState, p: RiskPolicy, at: int, d: Denial)
    requires Complete(s)
    ensures d in LossReasons(rs, s, p, at)
            <==> d in rs || (OnLosses(d) && PortfolioGate(d, c, asset, horizon, s, p, at))
  {
  }

  lemma PortfolioReasonsAre(
    rs: seq<Denial>, c: Candidate, asset: Asset, horizon: Horizon, s: PortfolioState, p: RiskPolicy, at: int, d: Denial)
    requires Complete(s)
    ensures d in PortfolioReasons(rs, c, asset, horizon, s, p, at)
            <==> d in rs || PortfolioGate(d, c, asset, horizon, s, p, at)
  {
    ExposureReasonsAre(rs, c, asset, horizon, s, p, at, d);
    LossReasonsAre(ExposureReasons(rs, c, asset, horizon, s.exposures.value, s.bankroll.value, p, at),
                   c, asset, horizon, s, p, at, d);
  }

  lemma FeedReasonsAre(rs: seq<Denial>, q: Liquidity, p: RiskPolicy, at: int, d: Denial)
    ensures d in FeedReasons(rs, q, p, at)
            <==> d in rs || (d in {BookStaleOrFuture, TransportUnhealthy, SequenceInvalid, FeeScheduleUnavailable}
                             && LiquidityGate(d, Some(q), p, at))
  {
  }

  lemma DepthReasonsAre(rs: seq<Denial>, q: Liquidity, p: RiskPolicy, at: int, d: Denial)
    ensures d in DepthReasons(rs, q, p)
            <==> d in rs || (d !in {BookStaleOrFuture, TransportUnhealthy, SequenceInvalid, FeeScheduleUnavailable}
                             && LiquidityGate(d, Some(q), p, at))
  {
  }

  lemma LiquidityReasonsAre(rs: seq<Denial>, l: Option<Liquidity>, p: RiskPolicy, at: int, d: Denial)
    ensures d in LiquidityReasons(rs, l, p, at) <==> d in rs || LiquidityGate(d, l, p, at)
  {
    if l.Some? {
      FeedReasonsAre(rs, l.value, p, at, d);
      DepthReasonsAre(FeedReasons(rs, l.value, p, at), l.value, p, at, d);
    }
  }

  lemma StateReasonsAre(c: Candidate, s: PortfolioState, p: RiskPolicy, at: int, d: Denial)
    ensures d in StateReasons(c, s, p, at)
            <==> StateGate(d, c, s, p, at) && d != StateIncomplete && d != DirectionalStakeExceeded
  {
  }

  predicate Denied(
    d: Denial, c: Candidate, asset: Asset, horizon: Horizon, l: Option<Liquidity>, s: PortfolioState, p: RiskPolicy,
    at: int)
  {
    StateGate(d, c, s, p, at) || LiquidityGate(d, l, p, at)
    || (Complete(s) && PortfolioGate(d, c, asset, horizon, s, p, at))
  }

  /** Every observed reason is returned, and no other. */
  lemma ReasonsAre(
    c: Candidate, asset: Asset, horizon: Horizon, l: Option<Liquidity>, s: PortfolioState, p: RiskPolicy, at: int,
    d: Denial)
    ensures d in Reasons(c, asset, horizon, l, s, p, at) <==> Denied(d, c, asset, horizon, l, s, p, at)
  {
    var r1 := StateReasons(c, s, p, at);
    StateReasonsAre(c, s, p, at, d);
    if Complete(s) {
      PortfolioReasonsAre(r1, c, asset, horizon, s, p, at, d);
      LiquidityReasonsAre(PortfolioReasons(r1, c, asset, horizon, s, p, at), l, p, at, d);
    } else {
      LiquidityReasonsAre(Push(r1, true, StateIncomplete), l, p, at, d);
    }
  }

  /** Approval is of the exact amount requested, and means that no gate denies. */
  lemma ApprovedIffNothingDenies(
    c: Candidate, asset: Asset, horizon: Horizon, l: Option<Liquidity>, s: PortfolioState, p: RiskPolicy, at: int)
    ensures var d := Assess(c, asset, horizon, l, s, p, at);
            && (d.approved <==> forall x :: !Denied(x, c, asset, horizon, l, s, p, at))
            && d.approvedCapital == (if d.approved then c.requiredCapital else 0.0)
  {
    var reasons := Reasons(c, asset, horizon, l, s, p, at);
    forall x ensures x in reasons <==> Denied(x, c, asset, horizon, l, s, p, at) {
      ReasonsAre(c, asset, horizon, l, s, p, at, x);
    }
    if reasons != [] {
      assert reasons[0] in reasons;
    }
  }

  /** Adding exposures to the state never removes a reason to deny. */
  lemma MoreExposureNeverRemovesADenial(
    c: Candidate, asset: Asset, horizon: Horizon, l: Option<Liquidity>, s: PortfolioState, more: seq<Exposure>,
    p: RiskPolicy, at: int, d: Denial)
    requires s.exposures.Some? && Sublist(s.exposures.value, more) && ValidExposures(more)
    requires d in Reasons(c, asset, horizon, l, s, p, at)
    ensures d in Reasons(c, asset, horizon, l, s.(exposures := Some(more)), p, at)
  {
    var t := s.(exposures := Some(more));
    if Complete(s) {
      PortfolioGateGrows(c, asset, horizon, s, more, p, at, d);
    }
    ReasonsAre(c, asset, horizon, l, s, p, at, d);
    ReasonsAre(c, asset, horizon, l, t, p, at, d);
  }

  lemma PortfolioGateGrows(
    c: Candidate, asset: Asset, horizon: Horizon, s: PortfolioState, more: seq<Exposure>, p: RiskPolicy, at: int,
    d: Denial)
    requires Complete(s) && Sublist(s.exposures.value, more) && ValidExposures(more)
    ensures PortfolioGate(d, c, asset, horizon, s, p, at)
            ==> PortfolioGate(d, c, asset, horizon, s.(exposures := Some(more)), p, at)
  {
    TotalsGrow(s.exposures.value, more, All, at);
    TotalsGrow(s.exposures.value, more, OfAsset(asset), at);
    TotalsGrow(s.exposures.value, more, OfHorizon(horizon), at);
  }

  // ---------------------------------------------------------------- runs

  datatype World = World(now: int, exposures: seq<Exposure>)

  /** One assessment with everything it sees besides the exposures, which are accurate. */
  datatype Step =
    | Advance(elapsed: nat)
    | AssessAndOpen(
        candidate: Candidate, asset: Asset, horizon: Horizon, liquidity: Option<Liquidity>,
        state: PortfolioState, windowEnd: int)

  function Next(w: World, s: Step, p: RiskPolicy): World {
    match s
    case Advance(elapsed) => w.(now := w.now + elapsed)
    case AssessAndOpen(c, a, h, l, state, end) =>
      var d := Assess(c, a, h, l, state.(exposures := Some(w.exposures)), p, w.now);
      if d.approved then w.(exposures := w.exposures + [Exposure(a, h, d.approvedCapital, end)]) else w
  }

  predicate ValidSteps(steps: seq<Step>) {
    forall k :: 0 <= k < |steps| && steps[k].AssessAndOpen? ==> steps[k].candidate.requiredCapital > 0.0
  }

  function Run(w: World, steps: seq<Step>, p: RiskPolicy): World
    decreases |steps|
  {
    if steps == [] then w else Run(Next(w, steps[0], p), steps[1..], p)
  }

  /** The limits of the policy, for what is active now and at every later instant. */
  ghost predicate WithinLimits(w: World, p: RiskPolicy) {
    && ValidExposures(w.exposures)
    && forall t :: t >= w.now ==> LimitsAt(w.exposures, p, t)
  }

  ghost predicate LimitsAt(es: seq<Exposure>, p: RiskPolicy, t: int) {
    && Total(es, All, t) <= p.maximumTotal
    && Total(es, All, t) <= p.maximumCluster
    && (forall a :: Total(es, OfAsset(a), t) <= p.maximumPerAsset)
    && (forall h :: Total(es, OfHorizon(h), t) <= p.maximumPerHorizon)
    && Count(es, All, t) <= p.maximumPositions
    && (forall a :: Count(es, OfAsset(a), t) <= p.maximumOverlap)
  }

  lemma {:induction false} TotalsFade(es: seq<Exposure>, s: Scope, now: int, later: int)
    requires ValidExposures(es) && now <= later
    ensures Total(es, s, later) <= Total(es, s, now) && Count(es, s, later) <= Count(es, s, now)
  {
    if es != [] {
      TotalsFade(es[..|es| - 1], s, now, later);
    }
  }

  lemma TotalsOfAppend(es: seq<Exposure>, e: Exposure, s: Scope, t: int)
    ensures Total(es + [e], s, t) == Total(es, s, t) + if Counts(e, s, t) then e.capital else 0.0
    ensures Count(es + [e], s, t) == Count(es, s, t) + if Counts(e, s, t) then 1 else 0
  {
    assert (es + [e])[..|es|] == es;
  }

  lemma ApprovalPasses(
    c: Candidate, asset: Asset, horizon: Horizon, l: Option<Liquidity>, s: PortfolioState, p: RiskPolicy, at: int,
    d: Denial)
    requires Assess(c, asset, horizon, l, s, p, at).approved
    ensures !StateGate(d, c, s, p, at) && (Complete(s) ==> !PortfolioGate(d, c, asset, horizon, s, p, at))
  {
    ReasonsAre(c, asset, horizon, l, s, p, at, d);
  }

  /** The exposures leave room for the amount in every total and every count. */
  predicate Fits(es: seq<Exposure>, asset: Asset, horizon: Horizon, amount: real, p: RiskPolicy, at: int) {
    && Total(es, All, at) + amount <= p.maximumTotal
    && Total(es, All, at) + amount <= p.maximumCluster
    && Total(es, OfAsset(asset), at) + amount <= p.maximumPerAsset
    && Total(es, OfHorizon(horizon), at) + amount <= p.maximumPerHorizon
    && Count(es, All, at) < p.maximumPositions
    && Count(es, OfAsset(asset), at) < p.maximumOverlap
  }

  lemma ApprovedIsComplete(
    c: Candidate, asset: Asset, horizon: Horizon, l: Option<Liquidity>, s: PortfolioState, p: RiskPolicy, at: int)
    requires Assess(c, asset, horizon, l, s, p, at).approved
    ensures Complete(s) && (c.directional ==> c.requiredCapital <= p.maximumDirectionalStake)
  {
    ApprovalPasses(c, asset, horizon, l, s, p, at, StateIncomplete);
    ApprovalPasses(c, asset, horizon, l, s, p, at, DirectionalStakeExceeded);
  }

  lemma ApprovedFits(
    c: Candidate, asset: Asset, horizon: Horizon, l: Option<Liquidity>, s: PortfolioState, p: RiskPolicy, at: int)
    requires Assess(c, asset, horizon, l, s, p, at).approved && Complete(s)
    ensures Fits(s.exposures.value, asset, horizon, c.requiredCapital, p, at)
  {
    ApprovalPasses(c, asset, horizon, l, s, p, at, TotalExposureLimit);
    ApprovalPasses(c, asset, horizon, l, s, p, at, ClusterExposureLimit);
    ApprovalPasses(c, asset, horizon, l, s, p, at, AssetExposureLimit);
    ApprovalPasses(c, asset, horizon, l, s, p, at, HorizonExposureLimit);
    ApprovalPasses(c, asset, horizon, l, s, p, at, MaximumPositions);
    ApprovalPasses(c, asset, horizon, l, s, p, at, OverlappingAssetLimit);
  }

  lemma ApprovalFits(
    c: Candidate, asset: Asset, horizon: Horizon, l: Option<Liquidity>, s: PortfolioState, p: RiskPolicy, at: int)
    requires Assess(c, asset, horizon, l, s, p, at).approved
    ensures Complete(s) && Assess(c, asset, horizon, l, s, p, at).approvedCapital == c.requiredCapital
    ensures Fits(s.exposures.value, asset, horizon, c.requiredCapital, p, at)
    ensures c.requiredCapital <= s.bankroll.value
    ensures c.directional ==> c.requiredCapital <= p.maximumDirectionalStake
  {
    ApprovedIsComplete(c, asset, horizon, l, s, p, at);
    ApprovedFits(c, asset, horizon, l, s, p, at);
    ApprovalPasses(c, asset, horizon, l, s, p, at, InsufficientBankroll);
  }

  /** Opening adds to a total only what is still active by then, so the sum only falls from now on. */
  lemma OpenedTotals(es: seq<Exposure>, e: Exposure, s: Scope, now: int, t: int)
    requires ValidExposures(es) && e.capital > 0.0 && now <= t
    ensures InScope(e, s) ==> Total(es + [e], s, t) <= Total(es, s, now) + e.capital
                              && Count(es + [e], s, t) <= Count(es, s, now) + 1
    ensures !InScope(e, s) ==> Total(es + [e], s, t) == Total(es, s, t) && Count(es + [e], s, t) == Count(es, s, t)
  {
    TotalsOfAppend(es, e, s, t);
    TotalsFade(es, s, now, t);
  }

  lemma OpeningKeepsLimits(w: World, e: Exposure, p: RiskPolicy, t: int)
    requires ValidExposures(w.exposures) && LimitsAt(w.exposures, p, t) && t >= w.now && e.capital > 0.0
    requires Fits(w.exposures, e.asset, e.horizon, e.capital, p, w.now)
    ensures LimitsAt(w.exposures + [e], p, t)
  {
    OpenedTotals(w.exposures, e, All, w.now, t);
    forall a
      ensures Total(w.exposures + [e], OfAsset(a), t) <= p.maximumPerAsset
      ensures Count(w.exposures + [e], OfAsset(a), t) <= p.maximumOverlap
    {
      OpenedTotals(w.exposures, e, OfAsset(a), w.now, t);
    }
    forall h ensures Total(w.exposures + [e], OfHorizon(h), t) <= p.maximumPerHorizon {
      OpenedTotals(w.exposures, e, OfHorizon(h), w.now, t);
    }
  }

  lemma NextKeepsLimits(w: World, s: Step, p: RiskPolicy)
    requires WithinLimits(w, p) && (s.AssessAndOpen? ==> s.candidate.requiredCapital > 0.0)
    ensures WithinLimits(Next(w, s, p), p)
  {
    if s.AssessAndOpen? {
      var state := s.state.(exposures := Some(w.exposures));
      if Assess(s.candidate, s.asset, s.horizon, s.liquidity, state, p, w.now).approved {
        ApprovalFits(s.candidate, s.asset, s.horizon, s.liquidity, state, p, w.now);
        var e := Exposure(s.asset, s.horizon, s.candidate.requiredCapital, s.windowEnd);
        forall t | t >= w.now ensures LimitsAt(w.exposures + [e], p, t) {
          assert LimitsAt(w.exposures, p, t);
          OpeningKeepsLimits(w, e, p, t);
        }
      }
    }
  }

  /** From limits respected, every run of assessments and elapsing time respects them throughout. */
  lemma {:induction false} EveryRunStaysWithinLimits(w: World, steps: seq<Step>, p: RiskPolicy)
    requires WithinLimits(w, p) && ValidSteps(steps)
    ensures WithinLimits(Run(w, steps, p), p) && LimitsAt(Run(w, steps, p).exposures, p, Run(w, steps, p).now)
    decreases |steps|
  {
    if steps != [] {
      NextKeepsLimits(w, steps[0], p);
      EveryRunStaysWithinLimits(Next(w, steps[0], p), steps[1..], p);
    }
  }

  // ---------------------------------------------------------------- no reason twice

  /** The place of a reason in the order in which the gates are tried. */
  function Place(d: Denial): nat {
    match d
    case CandidateExpired => 0
    case StateStaleOrFuture => 1
    case GlobalKillSwitch => 2
    case LedgerNotReconciled => 3
    case StateIncomplete => 4
    case MaximumPositions => 5
    case InsufficientBankroll => 6
    case TotalExposureLimit => 7
    case AssetExposureLimit => 8
    case HorizonExposureLimit => 9
    case ClusterExposureLimit => 10
    case OverlappingAssetLimit => 11
    case DailyLossLimit => 12
    case DrawdownLimit => 13
    case LossCooldownActive => 14
    case LiquidityMissing => 15
    case BookStaleOrFuture => 16
    case TransportUnhealthy => 17
    case SequenceInvalid => 18
    case FeeScheduleUnavailable => 19
    case SpreadTooWide => 20
    case InsufficientDepth => 21
    case PriceImpactTooHigh => 22
    case DepthHistoryInsufficient => 23
    case TransientLiquidity => 24
    case DirectionalStakeExceeded => 25
  }

  /** In the order of the gates, and none from the given place on. */
  predicate InOrder(rs: seq<Denial>, before: nat) {
    rs == [] || (Place(rs[|rs| - 1]) < before && InOrder(rs[..|rs| - 1], Place(rs[|rs| - 1])))
  }

  lemma PushKeepsOrder(rs: seq<Denial>, condition: bool, d: Denial)
    requires InOrder(rs, Place(d))
    ensures InOrder(Push(rs, condition, d), Place(d) + 1)
  {
    assert (rs + [d])[..|rs|] == rs;
  }

  lemma {:induction false} OrderedIsDistinct(rs: seq<Denial>, before: nat)
    requires InOrder(rs, before)
    ensures NoDuplicates(rs) && forall d :: d in rs ==> Place(d) < before
  {
    if rs != [] {
      var front, last := rs[..|rs| - 1], rs[|rs| - 1];
      OrderedIsDistinct(front, Place(last));
      AppendKeepsDistinct(front, last);
      assert rs == front + [last];
    }
  }

  lemma TwoKeepOrder(rs: seq<Denial>, b: bool, d: Denial, b': bool, d': Denial)
    requires InOrder(rs, Place(d)) && Place(d) + 1 == Place(d')
    ensures InOrder(Push(Push(rs, b, d), b', d'), Place(d') + 1)
  {
    PushKeepsOrder(rs, b, d);
    PushKeepsOrder(Push(rs, b, d), b', d');
  }

  /** Four gates in a row. */
  lemma FourKeepOrder(
    rs: seq<Denial>, b1: bool, d1: Denial, b2: bool, d2: Denial, b3: bool, d3: Denial, b4: bool, d4: Denial)
    requires InOrder(rs, Place(d1)) && Place(d1) + 1 == Place(d2) && Place(d2) + 1 == Place(d3)
    requires Place(d3) + 1 == Place(d4)
    ensures InOrder(Push(Push(Push(Push(rs, b1, d1), b2, d2), b3, d3), b4, d4), Place(d4) + 1)
  {
    TwoKeepOrder(rs, b1, d1, b2, d2);
    TwoKeepOrder(Push(Push(rs, b1, d1), b2, d2), b3, d3, b4, d4);
  }

  lemma StateReasonsInOrder(c: Candidate, s: PortfolioState, p: RiskPolicy, at: int)
    ensures InOrder(StateReasons(c, s, p, at), 4)
  {
    FourKeepOrder(
      [], at > c.expiresAt, CandidateExpired,
      at < s.assessedAt || at - s.assessedAt > p.maximumStateAge, StateStaleOrFuture,
      s.killSwitch, GlobalKillSwitch, !s.ledgerReconciled, LedgerNotReconciled);
  }

  lemma TotalReasonsInOrder(
    rs: seq<Denial>, c: Candidate, es: seq<Exposure>, bankroll: real, p: RiskPolicy, at: int)
    requires InOrder(rs, 5)
    ensures InOrder(TotalReasons(rs, c, es, bankroll, p, at), 8)
  {
    var active, total := Count(es, All, at) >= p.maximumPositions, Total(es, All, at) + c.requiredCapital;
    TwoKeepOrder(rs, active, MaximumPositions, c.requiredCapital > bankroll, InsufficientBankroll);
    PushKeepsOrder(Push(Push(rs, active, MaximumPositions), c.requiredCapital > bankroll, InsufficientBankroll),
                   total > p.maximumTotal, TotalExposureLimit);
  }

  lemma ScopeReasonsInOrder(
    rs: seq<Denial>, c: Candidate, asset: Asset, horizon: Horizon, es: seq<Exposure>, p: RiskPolicy, at: int)
    requires InOrder(rs, 8)
    ensures InOrder(ScopeReasons(rs, c, asset, horizon, es, p, at), 12)
  {
    FourKeepOrder(
      rs, Total(es, OfAsset(asset), at) + c.requiredCapital > p.maximumPerAsset, AssetExposureLimit,
      Total(es, OfHorizon(horizon), at) + c.requiredCapital > p.maximumPerHorizon, HorizonExposureLimit,
      Total(es, All, at) + c.requiredCapital > p.maximumCluster, ClusterExposureLimit,
      Count(es, OfAsset(asset), at) >= p.maximumOverlap, OverlappingAssetLimit);
  }

  lemma LossReasonsInOrder(rs: seq<Denial>, s: PortfolioState, p: RiskPolicy, at: int)
    requires Complete(s) && InOrder(rs, 12)
    ensures InOrder(LossReasons(rs, s, p, at), 15)
  {
    var daily, fallen := s.realizedPnlToday.value <= -p.maximumDailyLoss, s.drawdown.value >= p.maximumDrawdown;
    TwoKeepOrder(rs, daily, DailyLossLimit, fallen, DrawdownLimit);
    PushKeepsOrder(Push(Push(rs, daily, DailyLossLimit), fallen, DrawdownLimit), CooldownActive(s, p, at),
                   LossCooldownActive);
  }

  lemma FeedReasonsInOrder(rs: seq<Denial>, q: Liquidity, p: RiskPolicy, at: int)
    requires InOrder(rs, 16)
    ensures InOrder(FeedReasons(rs, q, p, at), 20)
  {
    FourKeepOrder(
      rs, q.observedAt > at || q.sourceAge > p.maximumBookAge, BookStaleOrFuture,
      !q.transportHealthy, TransportUnhealthy, !q.sequenceValid, SequenceInvalid,
      !q.feeScheduleAvailable, FeeScheduleUnavailable);
  }

  lemma DepthReasonsInOrder(rs: seq<Denial>, q: Liquidity, p: RiskPolicy)
    requires InOrder(rs, 20)
    ensures InOrder(DepthReasons(rs, q, p), 25)
  {
    var few := q.persistenceObservations < p.minimumPersistenceObservations;
    HistoryKeepsOrder(rs, q.spread > p.maximumSpread, q.executableDepth < q.requiredDepth,
                      q.priceImpact > p.maximumPriceImpact, few, q.persistenceRatio < p.minimumPersistence);
  }

  /** The last gate is one of two. */
  lemma HistoryKeepsOrder(rs: seq<Denial>, wide: bool, thin: bool, moved: bool, few: bool, transient: bool)
    requires InOrder(rs, 20)
    ensures var r := Push(Push(Push(rs, wide, SpreadTooWide), thin, InsufficientDepth), moved, PriceImpactTooHigh);
            InOrder(if few then Push(r, true, DepthHistoryInsufficient) else Push(r, transient, TransientLiquidity), 25)
  {
    var r := Push(Push(rs, wide, SpreadTooWide), thin, InsufficientDepth);
    TwoKeepOrder(rs, wide, SpreadTooWide, thin, InsufficientDepth);
    if few {
      TwoKeepOrder(r, moved, PriceImpactTooHigh, true, DepthHistoryInsufficient);
      LaterPlace(Push(Push(r, moved, PriceImpactTooHigh), true, DepthHistoryInsufficient), 24, 25);
    } else {
      PushKeepsOrder(r, moved, PriceImpactTooHigh);
      LaterPlace(Push(r, moved, PriceImpactTooHigh), 23, 24);
      PushKeepsOrder(Push(r, moved, PriceImpactTooHigh), transient, TransientLiquidity);
    }
  }

  lemma LaterPlace(rs: seq<Denial>, before: nat, later: nat)
    requires InOrder(rs, before) && before <= later
    ensures InOrder(rs, later)
  {
  }

  lemma PortfolioReasonsInOrder(
    rs: seq<Denial>, c: Candidate, asset: Asset, horizon: Horizon, s: PortfolioState, p: RiskPolicy, at: int)
    requires Complete(s) && InOrder(rs, 4)
    ensures InOrder(PortfolioReasons(rs, c, asset, horizon, s, p, at), 15)
  {
    var es, bankroll := s.exposures.value, s.bankroll.value;
    LaterPlace(rs, 4, 5);
    TotalReasonsInOrder(rs, c, es, bankroll, p, at);
    ScopeReasonsInOrder(TotalReasons(rs, c, es, bankroll, p, at), c, asset, horizon, es, p, at);
    LossReasonsInOrder(ExposureReasons(rs, c, asset, horizon, es, bankroll, p, at), s, p, at);
  }

  lemma LiquidityReasonsInOrder(rs: seq<Denial>, l: Option<Liquidity>, p: RiskPolicy, at: int)
    requires InOrder(rs, 15)
    ensures InOrder(LiquidityReasons(rs, l, p, at), 25)
  {
    if l.None? {
      PushKeepsOrder(rs, true, LiquidityMissing);
      LaterPlace(Push(rs, true, LiquidityMissing), 16, 25);
    } else {
      LaterPlace(rs, 15, 16);
      FeedReasonsInOrder(rs, l.value, p, at);
      DepthReasonsInOrder(FeedReasons(rs, l.value, p, at), l.value, p);
    }
  }

  lemma RiskReasonsInOrder(
    rs: seq<Denial>, c: Candidate, asset: Asset, horizon: Horizon, s: PortfolioState, p: RiskPolicy, at: int)
    requires InOrder(rs, 4)
    ensures Complete(s) ==> InOrder(PortfolioReasons(rs, c, asset, horizon, s, p, at), 15)
    ensures InOrder(Push(rs, true, StateIncomplete), 15)
  {
    if Complete(s) {
      PortfolioReasonsInOrder(rs, c, asset, horizon, s, p, at);
    }
    PushKeepsOrder(rs, true, StateIncomplete);
    LaterPlace(Push(rs, true, StateIncomplete), 5, 15);
  }

  lemma StakeKeepsOrder(rs: seq<Denial>, l: Option<Liquidity>, p: RiskPolicy, at: int, stake: bool)
    requires InOrder(rs, 15)
    ensures InOrder(Push(LiquidityReasons(rs, l, p, at), stake, DirectionalStakeExceeded), 26)
  {
    LiquidityReasonsInOrder(rs, l, p, at);
    PushKeepsOrder(LiquidityReasons(rs, l, p, at), stake, DirectionalStakeExceeded);
  }

  /** The reasons come in the order of the gates, each once. */
  lemma ReasonsInOrder(
    c: Candidate, asset: Asset, horizon: Horizon, l: Option<Liquidity>, s: PortfolioState, p: RiskPolicy, at: int)
    ensures InOrder(Reasons(c, asset, horizon, l, s, p, at), 26)
    ensures NoDuplicates(Reasons(c, asset, horizon, l, s, p, at))
  {
    var r1 := StateReasons(c, s, p, at);
    StateReasonsInOrder(c, s, p, at);
    RiskReasonsInOrder(r1, c, asset, horizon, s, p, at);
    StakeKeepsOrder(
      if Complete(s) then PortfolioReasons(r1, c, asset, horizon, s, p, at) else Push(r1, true, StateIncomplete),
      l, p, at, c.directional && c.requiredCapital > p.maximumDirectionalStake);
    OrderedIsDistinct(Reasons(c, asset, horizon, l, s, p, at), 26);
  }

  /** The first occurrence of each, as the keys of a dictionary built from them. */
  function FirstOccurrences<T(==)>(xs: seq<T>): seq<T> {
    if xs == [] then []
    else
      var front, x := FirstOccurrences(xs[..|xs| - 1]), xs[|xs| - 1];
      if x in front then front else front + [x]
  }

  lemma {:induction false} NothingRemoved<T>(xs: seq<T>)
    requires NoDuplicates(xs)
    ensures FirstOccurrences(xs) == xs
  {
    if xs != [] {
      NothingRemoved(xs[..|xs| - 1]);
    }
  }

  // ---------------------------------------------------------------- the assessment as computed

  method AssessCandidate(
    c: Candidate, asset: Asset, horizon: Horizon, l: Option<Liquidity>, s: PortfolioState, p: RiskPolicy, at: int)
    returns (d: RiskDecision)
    ensures d == Assess(c, asset, horizon, l, s, p, at)
  {
    var reasons := AppendStateReasons(c, s, p, at);
    if Complete(s) {
      reasons := AppendPortfolioReasons(reasons, c, asset, horizon, s, p, at);
    } else {
      reasons := reasons + [StateIncomplete];
    }
    reasons := LiquidityReasons(reasons, l, p, at);
    if c.directional && c.requiredCapital > p.maximumDirectionalStake {
      reasons := reasons + [DirectionalStakeExceeded];
    }
    if reasons == [] {
      return RiskDecision(true, c.requiredCapital, []);
    }
    ReasonsInOrder(c, asset, horizon, l, s, p, at);
    NothingRemoved(reasons);
    return RiskDecision(false, 0.0, FirstOccurrences(reasons));
  }

  method AppendStateReasons(c: Candidate, s: PortfolioState, p: RiskPolicy, at: int) returns (reasons: seq<Denial>)
    ensures reasons == StateReasons(c, s, p, at)
  {
    reasons := [];
    if at > c.expiresAt {
      reasons := reasons + [CandidateExpired];
    }
    if at < s.assessedAt || at - s.assessedAt > p.maximumStateAge {
      reasons := reasons + [StateStaleOrFuture];
    }
    if s.killSwitch {
      reasons := reasons + [GlobalKillSwitch];
    }
    if !s.ledgerReconciled {
      reasons := reasons + [LedgerNotReconciled];
    }
  }

  datatype Totals = Totals(total: real, assetTotal: real, horizonTotal: real, active: nat, overlap: nat)

  /** One pass over the exposures gathers every total the gates compare. */
  method GatherTotals(es: seq<Exposure>, asset: Asset, horizon: Horizon, at: int) returns (t: Totals)
    ensures t == Totals(Total(es, All, at), Total(es, OfAsset(asset), at), Total(es, OfHorizon(horizon), at),
                        Count(es, All, at), Count(es, OfAsset(asset), at))
  {
    var total, assetTotal, horizonTotal := 0.0, 0.0, 0.0;
    var active: nat, overlap: nat := 0, 0;
    for i := 0 to |es|
      invariant total == Total(es[..i], All, at) && active == Count(es[..i], All, at)
      invariant assetTotal == Total(es[..i], OfAsset(asset), at) && overlap == Count(es[..i], OfAsset(asset), at)
      invariant horizonTotal == Total(es[..i], OfHorizon(horizon), at)
    {
      assert es[..i + 1][..i] == es[..i];
      if es[i].windowEnd > at {
        active, total := active + 1, total + es[i].capital;
        if es[i].asset == asset {
          overlap, assetTotal := overlap + 1, assetTotal + es[i].capital;
        }
        if es[i].horizon == horizon {
          horizonTotal := horizonTotal + es[i].capital;
        }
      }
    }
    assert es[..|es|] == es;
    t := Totals(total, assetTotal, horizonTotal, active, overlap);
  }

  method AppendPortfolioReasons(
    rs: seq<Denial>, c: Candidate, asset: Asset, horizon: Horizon, s: PortfolioState, p: RiskPolicy, at: int)
    returns (reasons: seq<Denial>)
    requires Complete(s)
    ensures reasons == PortfolioReasons(rs, c, asset, horizon, s, p, at)
  {
    var t := GatherTotals(s.exposures.value, asset, horizon, at);
    var requested := c.requiredCapital;
    reasons := Push(rs, t.active >= p.maximumPositions, MaximumPositions);
    reasons := Push(reasons, requested > s.bankroll.value, InsufficientBankroll);
    reasons := Push(reasons, t.total + requested > p.maximumTotal, TotalExposureLimit);
    reasons := Push(reasons, t.assetTotal + requested > p.maximumPerAsset, AssetExposureLimit);
    reasons := Push(reasons, t.horizonTotal + requested > p.maximumPerHorizon, HorizonExposureLimit);
    reasons := Push(reasons, t.total + requested > p.maximumCluster, ClusterExposureLimit);
    reasons := Push(reasons, t.overlap >= p.maximumOverlap, OverlappingAssetLimit);
    reasons := Push(reasons, s.realizedPnlToday.value <= -p.maximumDailyLoss, DailyLossLimit);
    reasons := Push(reasons, s.drawdown.value >= p.maximumDrawdown, DrawdownLimit);
    reasons := Push(reasons, CooldownActive(s, p, at), LossCooldownActive);
  }
}
