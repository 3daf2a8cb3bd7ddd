/**
 * Snapshots of one asset's three lanes: the guards, the features, what every snapshot satisfies,
 * and when the two variants of the state give the same ones.
 */
module FeatureState {
  import opened Common
  import opened Canonical
  import opened Features
  import opened Temporal

  datatype Lanes = Lanes(references: Lane, books: Lane, trades: Lane)

  const NO_LANES: Lanes := Lanes(EMPTY, EMPTY, EMPTY)

  predicate Holds(q: seq<Sample>, kind: Kind) {
    forall i :: 0 <= i < |q| ==> KindOf(q[i]) == kind && ValidSample(q[i])
  }

  predicate ValidLanes(l: Lanes) {
    Holds(l.references.queue, References) && Holds(l.books.queue, Books) && Holds(l.trades.queue, Trades)
  }

  datatype Reason =
    | SourceInFuture
    | ReferenceStale
    | HistoryWarming
    | BookStale
    | TradeFlowStale
    | BookInFuture

  datatype Settings = Settings(maxAge: nat, minimumPoints: nat)

  predicate ValidSettings(c: Settings) {
    c.maxAge > 0 && c.minimumPoints >= 2
  }

  datatype DirectionalSnapshot = DirectionalSnapshot(
    current: Sample,
    shortReturn: real,
    mediumReturn: real,
    momentum: real,
    realizedVolatility: real,
    volatilityAcceleration: real,
    bookImbalance: real,
    micropriceDistance: real,
    tradeImbalance: real,
    signalStability: real,
    flipRate: real,
    regimeScore: real,
    sourceTs: int)

  // ---------------------------------------------------------------- the features

  function Prices(q: seq<Sample>): (r: seq<real>)
    requires Holds(q, References)
    ensures |r| == |q| && Positive(r)
    ensures forall i :: 0 <= i < |q| ==> r[i] == q[i].price.value
  {
    if q == [] then [] else [q[0].price.value] + Prices(q[1..])
  }

  function TotalVolume(q: seq<Sample>): (r: real)
    requires Holds(q, Trades)
    ensures r >= 0.0 && (q != [] ==> r > 0.0)
  {
    if q == [] then 0.0 else q[0].quantity + TotalVolume(q[1..])
  }

  function SignedVolume(q: seq<Sample>): (r: real)
    requires Holds(q, Trades)
    ensures -TotalVolume(q) <= r <= TotalVolume(q)
  {
    if q == [] then 0.0
    else (if q[0].buyerIsMaker then -q[0].quantity else q[0].quantity) + SignedVolume(q[1..])
  }

  function Momentum(prices: seq<real>): real
    requires Positive(prices) && |prices| >= 2
  {
    var n := |prices|;
    if n >= 3 then Return(prices[n - 2], prices[n - 1]) - Return(prices[n - 3], prices[n - 2])
    else Return(prices[n - 2], prices[n - 1])
  }

  function Acceleration(rs: seq<real>): real
    requires rs != []
  {
    if |rs| > 1 then RealAbs(rs[|rs| - 1]) - MeanAbs(rs[..|rs| - 1]) else 0.0
  }

  function Max(x: int, y: int): int {
    if x >= y then x else y
  }

  function SnapshotOf(current: Sample, prices: seq<real>, book: Sample, tradeImbalance: real): DirectionalSnapshot
    requires Positive(prices) && |prices| >= 2 && book.TopOfBook? && ValidSample(book)
  {
    var n := |prices|;
    var rs := Returns(prices);
    DirectionalSnapshot(
      current,
      Return(prices[n - 2], prices[n - 1]),
      Return(prices[0], prices[n - 1]),
      Momentum(prices),
      MeanAbs(rs),
      Acceleration(rs),
      Imbalance(book.bidQuantity.value, book.askQuantity.value),
      MicropriceDistance(book.bidPrice.value, book.bidQuantity.value, book.askPrice.value, book.askQuantity.value),
      tradeImbalance,
      1.0 - RealMin(1.0, FlipRate(rs)),
      FlipRate(rs),
      RealMin(1.0, MeanAbs(rs) * 100.0),
      Max(TimeOf(current), TimeOf(book)))
  }

  /**
   * The guards in their order, then the features of what the lanes hold. Valid samples have a
   * positive depth and volume, so the two guards on those totals never refuse.
   */
  function Build(l: Lanes, current: Sample, now: int, c: Settings): Result<DirectionalSnapshot, Reason>
    requires ValidLanes(l) && ValidSettings(c)
  {
    var books, trades := l.books.queue, l.trades.queue;
    if TimeOf(current) > now then Err(SourceInFuture)
    else if now - TimeOf(current) > c.maxAge then Err(ReferenceStale)
    else if |l.references.queue| < c.minimumPoints then Err(HistoryWarming)
    else if books == [] then Err(BookStale)
    else if trades == [] then Err(TradeFlowStale)
    else
      var book := books[|books| - 1];
      if TimeOf(book) > now then Err(BookInFuture)
      else if Stale(book, now, c.maxAge) then Err(BookStale)
      else
        Ok(SnapshotOf(current, Prices(l.references.queue), book, SignedVolume(trades) / TotalVolume(trades)))
  }

  // ---------------------------------------------------------------- what every snapshot satisfies

  /** What the snapshot's own constructor demands, and the ranges of the rates and imbalances. */
  predicate Accepted(s: DirectionalSnapshot) {
    && s.realizedVolatility >= 0.0
    && 0.0 <= s.signalStability <= 1.0 && 0.0 <= s.flipRate <= 1.0
    && 0.0 <= s.regimeScore <= 1.0
    && -1.0 <= s.bookImbalance <= 1.0 && -1.0 <= s.tradeImbalance <= 1.0
  }

  lemma TradeImbalanceInUnit(trades: seq<Sample>)
    requires Holds(trades, Trades) && trades != []
    ensures -1.0 <= SignedVolume(trades) / TotalVolume(trades) <= 1.0
  {
    RatioInUnit(SignedVolume(trades), TotalVolume(trades));
  }

  lemma FeaturesAccepted(current: Sample, prices: seq<real>, book: Sample, tradeImbalance: real)
    requires Positive(prices) && |prices| >= 2 && book.TopOfBook? && ValidSample(book)
    requires -1.0 <= tradeImbalance <= 1.0
    ensures Accepted(SnapshotOf(current, prices, book, tradeImbalance))
  {
    MeanAbsNotNegative(Returns(prices));
    FlipRateInUnit(Returns(prices));
    ImbalanceInUnit(book.bidQuantity.value, book.askQuantity.value);
  }

  lemma SnapshotIsAccepted(l: Lanes, current: Sample, now: int, c: Settings)
    requires ValidLanes(l) && ValidSettings(c)
    ensures Build(l, current, now, c).Ok? ==> Accepted(Build(l, current, now, c).value)
  {
    if Build(l, current, now, c).Ok? {
      var trades := l.trades.queue;
      TradeImbalanceInUnit(trades);
      FeaturesAccepted(current, Prices(l.references.queue), l.books.queue[|l.books.queue| - 1],
                       SignedVolume(trades) / TotalVolume(trades));
    }
  }

  /** The identities between the features of one snapshot and the samples it was built from. */
  predicate Identities(l: Lanes, s: DirectionalSnapshot)
    requires ValidLanes(l)
  {
    && l.books.queue != []
    && var book := l.books.queue[|l.books.queue| - 1];
       && 1.0 + s.mediumReturn == Growth(Returns(Prices(l.references.queue)))
       && s.micropriceDistance
          == s.bookImbalance
             * ((book.askPrice.value - book.bidPrice.value) / (book.askPrice.value + book.bidPrice.value))
  }

  lemma SnapshotIdentities(l: Lanes, current: Sample, now: int, c: Settings)
    requires ValidLanes(l) && ValidSettings(c)
    ensures Build(l, current, now, c).Ok? ==> Identities(l, Build(l, current, now, c).value)
  {
    if Build(l, current, now, c).Ok? {
      var book := l.books.queue[|l.books.queue| - 1];
      MediumReturnCompounds(Prices(l.references.queue));
      MicropriceFollowsImbalance(
        book.bidPrice.value, book.bidQuantity.value, book.askPrice.value, book.askQuantity.value);
    }
  }

  /** The whole move has the sign of every single one that is not zero. */
  predicate SignCarries(rs: seq<real>, medium: real) {
    forall k :: 0 <= k < |rs| && rs[k] != 0.0 ==> (rs[k] > 0.0 <==> medium > 0.0) && (rs[k] < 0.0 <==> medium < 0.0)
  }

  /** With a flip rate of zero, the medium return has the sign of each return that is not zero. */
  lemma SteadySnapshotKeepsSign(l: Lanes, current: Sample, now: int, c: Settings)
    requires ValidLanes(l) && ValidSettings(c)
    ensures Build(l, current, now, c).Ok? && Build(l, current, now, c).value.flipRate == 0.0 ==>
              SignCarries(Returns(Prices(l.references.queue)), Build(l, current, now, c).value.mediumReturn)
  {
    if Build(l, current, now, c).Ok? && Build(l, current, now, c).value.flipRate == 0.0 {
      SteadyPricesKeepSign(Prices(l.references.queue));
    }
  }

  lemma SteadyPricesKeepSign(prices: seq<real>)
    requires Positive(prices) && prices != [] && FlipRate(Returns(prices)) == 0.0
    ensures SignCarries(Returns(prices), Return(prices[0], prices[|prices| - 1]))
  {
    forall k | 0 <= k < |Returns(prices)| && Returns(prices)[k] != 0.0
      ensures Returns(prices)[k] > 0.0 <==> Return(prices[0], prices[|prices| - 1]) > 0.0
      ensures Returns(prices)[k] < 0.0 <==> Return(prices[0], prices[|prices| - 1]) < 0.0
    {
      SteadySignCarries(prices, k);
    }
  }

  /** Steady growth: no momentum, no acceleration, no flips, and the volatility of one return. */
  predicate Steady(s: DirectionalSnapshot, r: real, points: nat) {
    && s.shortReturn == r
    && s.realizedVolatility == RealAbs(r)
    && (points >= 3 ==> s.momentum == 0.0)
    && s.volatilityAcceleration == 0.0
    && s.flipRate == 0.0 && s.signalStability == 1.0
  }

  lemma ConstantReturnsAreSteady(l: Lanes, current: Sample, now: int, c: Settings, r: real)
    requires ValidLanes(l) && ValidSettings(c) && Constant(Returns(Prices(l.references.queue)), r)
    ensures Build(l, current, now, c).Ok? ==> Steady(Build(l, current, now, c).value, r, |l.references.queue|)
  {
    if Build(l, current, now, c).Ok? {
      SteadyPrices(current, Prices(l.references.queue), l.books.queue[|l.books.queue| - 1],
                   SignedVolume(l.trades.queue) / TotalVolume(l.trades.queue), r);
    }
  }

  lemma SteadyPrices(current: Sample, prices: seq<real>, book: Sample, tradeImbalance: real, r: real)
    requires Positive(prices) && |prices| >= 2 && book.TopOfBook? && ValidSample(book) && Constant(Returns(prices), r)
    ensures Steady(SnapshotOf(current, prices, book, tradeImbalance), r, |prices|)
  {
    var rs, n := Returns(prices), |prices|;
    assert rs[n - 2] == Return(prices[n - 2], prices[n - 1]);
    assert n >= 3 ==> rs[n - 3] == Return(prices[n - 3], prices[n - 2]);
    MeanAbsOfConstant(rs, r);
    if n >= 3 {
      MeanAbsOfConstant(rs[..n - 2], r);
    }
    FlipRateOfConstant(rs, r);
  }

  // ---------------------------------------------------------------- runs of one asset

  datatype Step = AddSample(sample: Sample) | Snapshot(current: Sample, now: int)

  predicate ValidStep(s: Step) {
    s.AddSample? ==> ValidSample(s.sample)
  }

  predicate ValidSteps(steps: seq<Step>) {
    forall i :: 0 <= i < |steps| ==> ValidStep(steps[i])
  }

  function LaneOf(l: Lanes, k: Kind): Lane {
    match k
    case References => l.references
    case Books => l.books
    case Trades => l.trades
  }

  function WithLane(l: Lanes, k: Kind, lane: Lane): Lanes {
    match k
    case References => l.(references := lane)
    case Books => l.(books := lane)
    case Trades => l.(trades := lane)
  }

  function PrunedLane(l: Lane, now: int, maxAge: nat): Lane {
    l.(queue := Pruned(l.queue, now, maxAge))
  }

  function PrunedLanes(l: Lanes, now: int, maxAge: nat): Lanes {
    Lanes(PrunedLane(l.references, now, maxAge), PrunedLane(l.books, now, maxAge), PrunedLane(l.trades, now, maxAge))
  }

  function Next(dedup: bool, l: Lanes, s: Step, c: Settings): Lanes {
    match s
    case AddSample(x) => WithLane(l, KindOf(x), AddTo(dedup, LaneOf(l, KindOf(x)), x))
    case Snapshot(_, now) => PrunedLanes(l, now, c.maxAge)
  }

  function Run(dedup: bool, l: Lanes, steps: seq<Step>, c: Settings): Lanes
    decreases |steps|
  {
    if steps == [] then l else Run(dedup, Next(dedup, l, steps[0], c), steps[1..], c)
  }

  lemma PrunedHolds(q: seq<Sample>, kind: Kind, now: int, maxAge: nat)
    requires Holds(q, kind)
    ensures Holds(Pruned(q, now, maxAge), kind)
  {
    PrunedDropsTheStalePrefix(q, now, maxAge);
  }

  lemma NextKeepsValid(dedup: bool, l: Lanes, s: Step, c: Settings)
    requires ValidLanes(l) && ValidStep(s)
    ensures ValidLanes(Next(dedup, l, s, c))
  {
    if s.Snapshot? {
      PrunedHolds(l.references.queue, References, s.now, c.maxAge);
      PrunedHolds(l.books.queue, Books, s.now, c.maxAge);
      PrunedHolds(l.trades.queue, Trades, s.now, c.maxAge);
    }
  }

  /** The snapshots of a run, in order. */
  function Outputs(dedup: bool, l: Lanes, steps: seq<Step>, c: Settings): seq<Result<DirectionalSnapshot, Reason>>
    requires ValidLanes(l) && ValidSteps(steps) && ValidSettings(c)
    decreases |steps|
  {
    if steps == [] then []
    else
      NextKeepsValid(dedup, l, steps[0], c);
      var after := Next(dedup, l, steps[0], c);
      var later := Outputs(dedup, after, steps[1..], c);
      if steps[0].Snapshot? then [Build(after, steps[0].current, steps[0].now, c)] + later else later
  }

  function Excluded(l: Lanes): nat {
    l.references.skips + l.references.conflicts + l.books.skips + l.books.conflicts + l.trades.skips
    + l.trades.conflicts
  }

  predicate SameQueues(a: Lanes, b: Lanes) {
    && a.references.queue == b.references.queue
    && a.books.queue == b.books.queue
    && a.trades.queue == b.trades.queue
  }

  lemma {:induction false} ExcludedGrows(dedup: bool, l: Lanes, steps: seq<Step>, c: Settings)
    ensures Excluded(l) <= Excluded(Run(dedup, l, steps, c))
    decreases |steps|
  {
    if steps != [] {
      ExcludedGrows(dedup, Next(dedup, l, steps[0], c), steps[1..], c);
    }
  }

  lemma NextStaysSame(a: Lanes, b: Lanes, s: Step, c: Settings)
    requires SameQueues(a, b) && Excluded(Next(true, a, s, c)) == Excluded(a)
    ensures SameQueues(Next(true, a, s, c), Next(false, b, s, c))
  {
  }

  /** A run in which nothing was skipped or in conflict gives the snapshots of the append-all variant. */
  lemma {:induction false} UndisturbedRunsAgree(a: Lanes, b: Lanes, steps: seq<Step>, c: Settings)
    requires ValidLanes(a) && ValidLanes(b) && ValidSteps(steps) && ValidSettings(c)
    requires SameQueues(a, b) && Excluded(Run(true, a, steps, c)) == Excluded(a)
    ensures Outputs(true, a, steps, c) == Outputs(false, b, steps, c)
    ensures SameQueues(Run(true, a, steps, c), Run(false, b, steps, c))
    decreases |steps|
  {
    if steps != [] {
      var a', b' := Next(true, a, steps[0], c), Next(false, b, steps[0], c);
      NextKeepsValid(true, a, steps[0], c);
      NextKeepsValid(false, b, steps[0], c);
      ExcludedGrows(true, a', steps[1..], c);
      ExcludedGrows(true, a, [steps[0]], c);
      assert Run(true, a, [steps[0]], c) == a';
      NextStaysSame(a, b, steps[0], c);
      UndisturbedRunsAgree(a', b', steps[1..], c);
    }
  }

  /** The adds of one kind, and every prune. */
  function EventsOf(steps: seq<Step>, k: Kind): seq<Event>
    decreases |steps|
  {
    if steps == [] then []
    else
      var later := EventsOf(steps[1..], k);
      match steps[0]
      case Snapshot(_, now) => [Prune(now)] + later
      case AddSample(x) => if KindOf(x) == k then [Add(x)] + later else later
  }

  /** Each lane of the two variants moves as the pair of queues whose refinement is proved. */
  lemma {:induction false} LanesAreTracks(a: Lanes, b: Lanes, t: Track, steps: seq<Step>, k: Kind, c: Settings)
    requires LaneOf(a, k) == t.lane && LaneOf(b, k).queue == t.all
    ensures LaneOf(Run(true, a, steps, c), k) == RunTrack(t, EventsOf(steps, k), c.maxAge).lane
    ensures LaneOf(Run(false, b, steps, c), k).queue == RunTrack(t, EventsOf(steps, k), c.maxAge).all
    decreases |steps|
  {
    if steps != [] {
      var s, later := steps[0], EventsOf(steps[1..], k);
      var a', b' := Next(true, a, s, c), Next(false, b, s, c);
      if s.AddSample? && KindOf(s.sample) != k {
        LanesAreTracks(a', b', t, steps[1..], k, c);
      } else {
        var e := if s.Snapshot? then Prune(s.now) else Add(s.sample);
        assert EventsOf(steps, k) == [e] + later && ([e] + later)[1..] == later;
        LanesAreTracks(a', b', NextTrack(t, e, c.maxAge), steps[1..], k, c);
      }
    }
  }

  /** How many samples of a kind the steps add. */
  function AddsOf(steps: seq<Step>, k: Kind): nat {
    if steps == [] then 0
    else (if steps[0].AddSample? && KindOf(steps[0].sample) == k then 1 else 0) + AddsOf(steps[1..], k)
  }

  /** How many samples of a kind the snapshots of a run prune. */
  function PrunedIn(dedup: bool, l: Lanes, steps: seq<Step>, k: Kind, c: Settings): nat
    decreases |steps|
  {
    if steps == [] then 0
    else
      var before, after := LaneOf(l, k).queue, LaneOf(Next(dedup, l, steps[0], c), k).queue;
      (if steps[0].Snapshot? && |after| <= |before| then |before| - |after| else 0)
      + PrunedIn(dedup, Next(dedup, l, steps[0], c), steps[1..], k, c)
  }

  /** What a lane accounts for: retained, skipped and in conflict. */
  function Held(l: Lane): nat {
    |l.queue| + l.skips + l.conflicts
  }

  /** In either variant, what a lane held and what is added is held or pruned. */
  lemma {:induction false} AddsAreAccounted(dedup: bool, l: Lanes, steps: seq<Step>, k: Kind, c: Settings)
    ensures Held(LaneOf(l, k)) + AddsOf(steps, k)
            == Held(LaneOf(Run(dedup, l, steps, c), k)) + PrunedIn(dedup, l, steps, k, c)
    decreases |steps|
  {
    if steps != [] {
      AddsAreAccounted(dedup, Next(dedup, l, steps[0], c), steps[1..], k, c);
      if steps[0].Snapshot? {
        PrunedDropsTheStalePrefix(LaneOf(l, k).queue, steps[0].now, c.maxAge);
      }
    }
  }

  /** The append-all variant skips nothing and finds no conflict. */
  lemma {:induction false} AppendAllExcludesNothing(l: Lanes, steps: seq<Step>, c: Settings)
    ensures Excluded(Run(false, l, steps, c)) == Excluded(l)
    decreases |steps|
  {
    if steps != [] {
      AppendAllExcludesNothing(Next(false, l, steps[0], c), steps[1..], c);
    }
  }

  /**
   * From empty, on any stream, for each lane: the deduplicated queue lies within the other and
   * repeats no identity; in both variants the adds are retained, skipped, in conflict or pruned,
   * and the append-all one skips and refuses none; with none skipped or in conflict the queues are equal.
   */
  lemma VariantsRefine(steps: seq<Step>, k: Kind, c: Settings)
    ensures var kept, all := LaneOf(Run(true, NO_LANES, steps, c), k), LaneOf(Run(false, NO_LANES, steps, c), k);
            && Within(kept.queue, all.queue) && DistinctKeys(kept.queue)
            && AddsOf(steps, k) == |kept.queue| + kept.skips + kept.conflicts + PrunedIn(true, NO_LANES, steps, k, c)
            && AddsOf(steps, k) == |all.queue| + PrunedIn(false, NO_LANES, steps, k, c)
            && all.skips == 0 && all.conflicts == 0
            && (kept.skips + kept.conflicts == 0 ==> kept.queue == all.queue)
  {
    var t := Track([], EMPTY, 0, 0);
    StartingTrack();
    LanesAreTracks(NO_LANES, NO_LANES, t, steps, k, c);
    DeduplicationRefines(t, EventsOf(steps, k), c.maxAge);
    AddsAreAccounted(true, NO_LANES, steps, k, c);
    AddsAreAccounted(false, NO_LANES, steps, k, c);
    AppendAllExcludesNothing(NO_LANES, steps, c);
  }

  /** Every identity of the steps is new: to the lanes, and to the steps before it. */
  predicate NewKeys(l: Lanes, steps: seq<Step>) {
    && (forall i, k :: 0 <= i < |steps| && steps[i].AddSample? && 0 <= k < |QueueFor(l, steps[i])| ==>
          KeyOf(QueueFor(l, steps[i])[k]) != KeyOf(steps[i].sample))
    && (forall i, j :: 0 <= i < j < |steps| && steps[i].AddSample? && steps[j].AddSample? ==>
          KeyOf(steps[i].sample) != KeyOf(steps[j].sample))
  }

  function QueueFor(l: Lanes, s: Step): seq<Sample>
    requires s.AddSample?
  {
    LaneOf(l, KindOf(s.sample)).queue
  }

  lemma NextKeepsNewKeys(l: Lanes, steps: seq<Step>, c: Settings)
    requires steps != [] && NewKeys(l, steps)
    ensures NewKeys(Next(true, l, steps[0], c), steps[1..])
    ensures Excluded(Next(true, l, steps[0], c)) == Excluded(l)
  {
    var after := Next(true, l, steps[0], c);
    if steps[0].AddSample? {
      FirstWithKeyFinds(QueueFor(l, steps[0]), KeyOf(steps[0].sample));
    } else {
      PrunedDropsTheStalePrefix(l.references.queue, steps[0].now, c.maxAge);
      PrunedDropsTheStalePrefix(l.books.queue, steps[0].now, c.maxAge);
      PrunedDropsTheStalePrefix(l.trades.queue, steps[0].now, c.maxAge);
    }
    forall i, k | 0 <= i < |steps| - 1 && steps[1..][i].AddSample? && 0 <= k < |QueueFor(after, steps[1..][i])|
      ensures KeyOf(QueueFor(after, steps[1..][i])[k]) != KeyOf(steps[1..][i].sample)
    {
      var before, now := QueueFor(l, steps[i + 1]), QueueFor(after, steps[i + 1]);
      var x := now[k];
      assert x in before || (steps[0].AddSample? && x == steps[0].sample);
    }
  }

  /** On streams that repeat no identity the two variants give the same snapshots. */
  lemma {:induction false} DistinctStreamsExcludeNothing(l: Lanes, steps: seq<Step>, c: Settings)
    requires NewKeys(l, steps)
    ensures Excluded(Run(true, l, steps, c)) == Excluded(l)
    decreases |steps|
  {
    if steps != [] {
      NextKeepsNewKeys(l, steps, c);
      DistinctStreamsExcludeNothing(Next(true, l, steps[0], c), steps[1..], c);
    }
  }

  lemma DistinctStreamsAgree(steps: seq<Step>, c: Settings)
    requires ValidSteps(steps) && ValidSettings(c)
    requires forall i, j :: 0 <= i < j < |steps| && steps[i].AddSample? && steps[j].AddSample? ==>
               KeyOf(steps[i].sample) != KeyOf(steps[j].sample)
    ensures Outputs(true, NO_LANES, steps, c) == Outputs(false, NO_LANES, steps, c)
  {
    DistinctStreamsExcludeNothing(NO_LANES, steps, c);
    UndisturbedRunsAgree(NO_LANES, NO_LANES, steps, c);
  }

  // ---------------------------------------------------------------- the state

  class ExternalTemporalState {
    const settings: Settings
    const dedup: bool
    var references: map<Asset, seq<Sample>>
    var books: map<Asset, seq<Sample>>
    var trades: map<Asset, seq<Sample>>
    var skips: map<Slot, nat>
    var conflicts: map<Slot, nat>

    constructor (settings: Settings, dedup: bool)
      requires ValidSettings(settings)
      ensures this.settings == settings && this.dedup == dedup
      ensures forall a :: LanesOf(a) == NO_LANES
    {
      this.settings, this.dedup := settings, dedup;
      references, books, trades, skips, conflicts := map[], map[], map[], map[], map[];
    }

    function LaneAt(store: map<Asset, seq<Sample>>, asset: Asset, kind: Kind): Lane
      reads this
    {
      Lane(QueueIn(store, asset), CountIn(skips, Slot(asset, kind)), CountIn(conflicts, Slot(asset, kind)))
    }

    function LanesOf(asset: Asset): Lanes
      reads this
    {
      Lanes(LaneAt(references, asset, References), LaneAt(books, asset, Books), LaneAt(trades, asset, Trades))
    }

    method AddReference(s: Sample)
      requires s.Reference?
      modifies this
      ensures LanesOf(s.asset) == Next(dedup, old(LanesOf(s.asset)), AddSample(s), settings)
      ensures forall a :: a != s.asset ==> LanesOf(a) == old(LanesOf(a))
    {
      var queue := QueueIn(references, s.asset);
      var known := FindKnown(queue, s);
      if known.Some? {
        Exclude(Slot(s.asset, References), known.value, s);
      } else {
        references := references[s.asset := queue + [s]];
      }
    }

    method AddBook(s: Sample)
      requires s.TopOfBook?
      modifies this
      ensures LanesOf(s.asset) == Next(dedup, old(LanesOf(s.asset)), AddSample(s), settings)
      ensures forall a :: a != s.asset ==> LanesOf(a) == old(LanesOf(a))
    {
      var queue := QueueIn(books, s.asset);
      var known := FindKnown(queue, s);
      if known.Some? {
        Exclude(Slot(s.asset, Books), known.value, s);
      } else {
        books := books[s.asset := queue + [s]];
      }
    }

    method AddTrade(s: Sample)
      requires s.Trade?
      modifies this
      ensures LanesOf(s.asset) == Next(dedup, old(LanesOf(s.asset)), AddSample(s), settings)
      ensures forall a :: a != s.asset ==> LanesOf(a) == old(LanesOf(a))
    {
      var queue := QueueIn(trades, s.asset);
      var known := FindKnown(queue, s);
      if known.Some? {
        Exclude(Slot(s.asset, Trades), known.value, s);
      } else {
        trades := trades[s.asset := queue + [s]];
      }
    }

    /** The retained sample with the same source identity, when repeats are excluded. */
    method FindKnown(queue: seq<Sample>, s: Sample) returns (known: Option<Sample>)
      ensures known == if dedup then FirstWithKey(queue, KeyOf(s)) else None
    {
      if dedup {
        for i := 0 to |queue|
          invariant FirstWithKey(queue, KeyOf(s)) == FirstWithKey(queue[i..], KeyOf(s))
        {
          if KeyOf(queue[i]) == KeyOf(s) {
            return Some(queue[i]);
          }
          assert queue[i..][1..] == queue[i + 1..];
        }
      }
      known := None;
    }

    method Exclude(slot: Slot, known: Sample, s: Sample)
      modifies this`skips, this`conflicts
      ensures skips == old(if TextsOf(known) == TextsOf(s) then Counted(skips, slot) else skips)
      ensures conflicts == old(if TextsOf(known) == TextsOf(s) then conflicts else Counted(conflicts, slot))
    {
      if TextsOf(known) == TextsOf(s) {
        skips := Counted(skips, slot);
      } else {
        conflicts := Counted(conflicts, slot);
      }
    }

    method PruneQueue(queue: seq<Sample>, now: int) returns (kept: seq<Sample>)
      ensures kept == Pruned(queue, now, settings.maxAge)
    {
      kept := queue;
      while kept != []
        invariant Pruned(kept, now, settings.maxAge) == Pruned(queue, now, settings.maxAge)
        decreases |kept|
      {
        if !Stale(kept[0], now, settings.maxAge) {
          break;
        }
        kept := kept[1..];
      }
    }

    method PruneAsset(asset: Asset, now: int)
      modifies this`references, this`books, this`trades
      ensures references == PrunedStore(old(references), asset, now, settings.maxAge)
      ensures books == PrunedStore(old(books), asset, now, settings.maxAge)
      ensures trades == PrunedStore(old(trades), asset, now, settings.maxAge)
    {
      var kept := PruneQueue(QueueIn(references, asset), now);
      references := references[asset := kept];
      kept := PruneQueue(QueueIn(books, asset), now);
      books := books[asset := kept];
      kept := PruneQueue(QueueIn(trades, asset), now);
      trades := trades[asset := kept];
    }

    /** Prunes the asset's three queues, whatever the answer, and builds from what they keep. */
    method BuildSnapshot(asset: Asset, current: Sample, now: int) returns (r: Result<DirectionalSnapshot, Reason>)
      requires ValidSettings(settings) && ValidLanes(LanesOf(asset))
      modifies this
      ensures LanesOf(asset) == Next(dedup, old(LanesOf(asset)), Snapshot(current, now), settings)
      ensures forall a :: a != asset ==> LanesOf(a) == old(LanesOf(a))
      ensures ValidLanes(LanesOf(asset)) && r == Build(LanesOf(asset), current, now, settings)
    {
      NextKeepsValid(dedup, LanesOf(asset), Snapshot(current, now), settings);
      PruneAsset(asset, now);
      r := Build(LanesOf(asset), current, now, settings);
    }
  }

  /** One counter of exclusions. */
  datatype Slot = Slot(asset: Asset, kind: Kind)

  function QueueIn(store: map<Asset, seq<Sample>>, asset: Asset): seq<Sample> {
    if asset in store then store[asset] else []
  }

  function PrunedStore(store: map<Asset, seq<Sample>>, asset: Asset, now: int, maxAge: nat): map<Asset, seq<Sample>> {
    store[asset := Pruned(QueueIn(store, asset), now, maxAge)]
  }

  function CountIn(counts: map<Slot, nat>, slot: Slot): nat {
    if slot in counts then counts[slot] else 0
  }

  function Counted(counts: map<Slot, nat>, slot: Slot): map<Slot, nat> {
    counts[slot := CountIn(counts, slot) + 1]
  }
}
