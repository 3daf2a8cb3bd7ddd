/**
 * Canonical asset/horizon windows and the guards that establish or restore a price to beat.
 * Instants and durations are whole microseconds, the resolution of the program's timestamps.
 */
module Canonical {
  import opened Common

  datatype Asset = BTC | ETH | SOL | XRP
  datatype Horizon = FiveMinutes | FifteenMinutes | OneHour
  datatype Bucket = Bucket(asset: Asset, horizon: Horizon)
  datatype Window = Window(bucket: Bucket, start: int, end: int)

  const SECOND: int := 1_000_000

  function DurationSeconds(h: Horizon): (r: int)
    ensures r > 0
  {
    match h
    case FiveMinutes => 300
    case FifteenMinutes => 900
    case OneHour => 3600
  }

  function Duration(h: Horizon): (r: int) {
    DurationSeconds(h) * SECOND
  }

  const SUPPORTED_BUCKETS: seq<Bucket> :=
    [Bucket(BTC, FiveMinutes), Bucket(BTC, FifteenMinutes), Bucket(BTC, OneHour),
     Bucket(ETH, FiveMinutes), Bucket(ETH, FifteenMinutes), Bucket(ETH, OneHour),
     Bucket(SOL, FiveMinutes), Bucket(SOL, FifteenMinutes), Bucket(SOL, OneHour),
     Bucket(XRP, FiveMinutes), Bucket(XRP, FifteenMinutes), Bucket(XRP, OneHour)]

  /**
   * A timestamp is a binary64 number of seconds. So many of them lie in each second at a magnitude
   * below 2^38, which covers the years 1 to 9999; below 2^34 there are at least that many.
   */
  function NumbersPerSecond(seconds: nat): (r: nat)
    ensures r >= 0x8000
  {
    if seconds < 0x4_0000_0000 then 0x8_0000
    else if seconds < 0x8_0000_0000 then 0x4_0000
    else if seconds < 0x10_0000_0000 then 0x2_0000
    else if seconds < 0x20_0000_0000 then 0x1_0000
    else 0x8000
  }

  /** The next second is less than half a spacing away, so that it is the nearest number. */
  predicate RoundsUp(micros: nat) {
    2 * NumbersPerSecond(micros / SECOND) * (SECOND - micros % SECOND) < SECOND
  }

  function RoundedSeconds(micros: nat): int {
    micros / SECOND + if RoundsUp(micros) then 1 else 0
  }

  /** The integer conversion of a timestamp: it truncates toward zero what binary64 has rounded. */
  function WholeSeconds(t: int): (r: int) {
    if t >= 0 then RoundedSeconds(t) else -RoundedSeconds(-t)
  }

  function WindowContaining(bucket: Bucket, observedAt: int): (w: Window) {
    var seconds := WholeSeconds(observedAt);
    var start := (seconds - seconds % DurationSeconds(bucket.horizon)) * SECOND;
    Window(bucket, start, start + Duration(bucket.horizon))
  }

  /** What the window constructor demands: exact duration, no fraction, aligned start. */
  predicate IsCanonical(w: Window) {
    && w.end - w.start == Duration(w.bucket.horizon)
    && w.start % SECOND == 0
    && WholeSeconds(w.start) % DurationSeconds(w.bucket.horizon) == 0
  }

  /**
   * The conversion passes the instant: a later one that binary64 rounds up, or one before the epoch
   * with a fraction that truncation drops.
   */
  predicate Passes(t: int) {
    if t >= 0 then RoundsUp(t) else t % SECOND != 0 && !RoundsUp(-t)
  }

  predicate PassesOntoBoundary(t: int, d: int)
    requires d > 0
  {
    Passes(t) && WholeSeconds(t) % d == 0
  }

  /**
   * The constructor accepts every derived window, the window always ends after the observation, and
   * it starts at or before it except exactly when the conversion passes it onto a boundary.
   */
  lemma WindowContainingIsCanonical(bucket: Bucket, t: int)
    ensures var w := WindowContaining(bucket, t);
            && IsCanonical(w)
            && t < w.end
            && (w.start <= t <==> !PassesOntoBoundary(t, DurationSeconds(bucket.horizon)))
  {
    match bucket.horizon
    case FiveMinutes => BlockBounds(t, 300);
    case FifteenMinutes => BlockBounds(t, 900);
    case OneHour => BlockBounds(t, 3600);
  }

  /** The last microsecond before the epoch, and one of the first of January 2515. */
  lemma WindowCanStartLate()
    ensures WindowContaining(Bucket(BTC, FiveMinutes), -1).start == 0
    ensures WindowContaining(Bucket(BTC, FiveMinutes), 17_198_525_099_999_999).start == 17_198_525_100_000_000
  {
    assert RoundsUp(17_198_525_099_999_999) && !RoundsUp(1);
  }

  /** Within 2^34 seconds of the epoch, into the year 2514, only fractions before the epoch pass. */
  lemma PassesBelow(t: int)
    requires -0x4_0000_0000 * SECOND < t < 0x4_0000_0000 * SECOND
    ensures Passes(t) <==> t < 0 && t % SECOND != 0
    ensures WholeSeconds(t) == if t >= 0 then t / SECOND else -(-t / SECOND)
  {
    assert Abs(t) / SECOND < 0x4_0000_0000;
  }

  lemma BlockBounds(t: int, d: int)
    requires d == 300 || d == 900 || d == 3600
    ensures var s := WholeSeconds(t);
            var start := (s - s % d) * SECOND;
            && start % SECOND == 0
            && WholeSeconds(start) == s - s % d
            && (s - s % d) % d == 0
            && t < start + d * SECOND
            && (start <= t <==> !PassesOntoBoundary(t, d))
  {
    var k := WholeSeconds(t) - WholeSeconds(t) % d;
    SecondsAround(t);
    LargestMultiple(WholeSeconds(t), d);
    SecondsOfWhole(k);
  }

  lemma SecondsOfWhole(k: int)
    ensures (k * SECOND) % SECOND == 0 && WholeSeconds(k * SECOND) == k
  {
    SecondsAround(k * SECOND);
  }

  lemma RoundsByMicroseconds(micros: nat)
    requires RoundsUp(micros)
    ensures SECOND - micros % SECOND <= 15
  {
    var left := SECOND - micros % SECOND;
    assert (NumbersPerSecond(micros / SECOND) - 0x8000) * left >= 0;
  }

  lemma SecondsAround(t: int)
    ensures var s := WholeSeconds(t);
            && s * SECOND - SECOND < t < s * SECOND + SECOND
            && (s * SECOND > t <==> Passes(t))
            && (t % SECOND == 0 ==> t == s * SECOND)
  {
    var n := Abs(t);
    if RoundsUp(n) {
      RoundsByMicroseconds(n);
    }
  }

  lemma LargestMultiple(s: int, d: int)
    requires d == 300 || d == 900 || d == 3600
    ensures 0 <= s % d < d && (s - s % d) % d == 0
  {
    assert s - s % d == d * (s / d);
  }

  lemma BlockIsUnique(x: int, t: int, d: int)
    requires d == 300 || d == 900 || d == 3600
    requires x % SECOND == 0 && WholeSeconds(x) % d == 0 && x <= t < x + d * SECOND
    requires !PassesOntoBoundary(t, d)
    ensures x == (WholeSeconds(t) - WholeSeconds(t) % d) * SECOND
  {
    var k, s := WholeSeconds(x), WholeSeconds(t);
    SecondsAround(x);
    SecondsAround(t);
    assert x == k * SECOND;
    assert k <= s <= k + d;
    MultiplesAreApart(k, s, d);
  }

  /** Between one multiple and the next the remainder counts up; at the next it starts again. */
  lemma MultiplesAreApart(k: int, s: int, d: int)
    requires d == 300 || d == 900 || d == 3600
    requires k % d == 0 && k <= s <= k + d
    ensures s % d == if s == k + d then 0 else s - k
  {
  }

  /**
   * A canonical window that contains the instant is the derived one, except for the family of
   * instants for which the derived one does not contain it.
   */
  lemma WindowContainingIsUnique(w: Window, t: int)
    requires IsCanonical(w) && w.start <= t < w.end
    ensures w == WindowContaining(w.bucket, t)
            <==> !PassesOntoBoundary(t, DurationSeconds(w.bucket.horizon))
  {
    var d := DurationSeconds(w.bucket.horizon);
    WindowContainingIsCanonical(w.bucket, t);
    if !PassesOntoBoundary(t, d) {
      BlockIsUnique(w.start, t, d);
    }
  }

  // ---------------------------------------------------------------- markets and references

  datatype Market = Market(
    marketId: string,
    conditionId: string,
    asset: Asset,
    horizon: Horizon,
    windowStart: int,
    windowEnd: int,
    settlementSource: string)

  /** What the market constructor demands of its window. */
  predicate ValidMarket(m: Market) {
    IsCanonical(Window(Bucket(m.asset, m.horizon), m.windowStart, m.windowEnd))
  }

  function TwapSource(a: Asset): string {
    match a
    case BTC => "https://data.chain.link/streams/btc-usd-twap-60s-streams"
    case ETH => "https://data.chain.link/streams/eth-usd-twap-60s-streams"
    case SOL => "https://data.chain.link/streams/sol-usd-twap-60s-streams"
    case XRP => "https://data.chain.link/streams/xrp-usd-twap-60s-streams"
  }

  function AssetCode(a: Asset): string {
    match a
    case BTC => "BTC"
    case ETH => "ETH"
    case SOL => "SOL"
    case XRP => "XRP"
  }

  function HorizonCode(h: Horizon): string {
    match h
    case FiveMinutes => "5m"
    case FifteenMinutes => "15m"
    case OneHour => "1h"
  }

  function OfficialSource(b: Bucket): string {
    if b.horizon == OneHour
    then "https://www.binance.com/en/trade/" + AssetCode(b.asset) + "_USDT"
    else TwapSource(b.asset)
  }

  predicate CanonicalSource(m: Market) {
    m.settlementSource == OfficialSource(Bucket(m.asset, m.horizon))
  }

  datatype OfficialReference = OfficialReference(
    referenceId: string,
    marketId: string,
    asset: Asset,
    value: real,
    source: string,
    sourceTs: int,
    recvTs: int,
    effectiveTs: int,
    isPriceToBeat: bool)

  datatype Policy = Policy(maxSourceAge: nat, maxReceiveLatency: nat, boundaryTolerance: nat)

  datatype PriceToBeatRecord = PriceToBeatRecord(
    conditionId: string,
    reference: OfficialReference,
    establishedAt: int,
    persistenceId: string)

  datatype Refusal =
    | MarketIdentityMismatch
    | AssetIdentityMismatch
    | SourceMismatch
    | NotPriceToBeat
    | NotEffectiveAtOpen
    | MidWindowReconstruction
    | BeforeBoundaryTolerance
    | TimestampOrder
    | SourceStale
    | ReceiveLatency
    | ConditionIdentityMismatch
    | EstablishedTooLate
    | OutsideMarketWindow
    | WrongAuthority
    | WrongTwapWindow
    | CandleWindowMismatch

  function RequireOfficialIdentity(m: Market, r: OfficialReference): Option<Refusal> {
    if r.marketId != m.marketId then Some(MarketIdentityMismatch)
    else if r.asset != m.asset then Some(AssetIdentityMismatch)
    else if r.source != m.settlementSource then Some(SourceMismatch)
    else None
  }

  function RequireFreshTimestamps(sourceTs: int, recvTs: int, observedAt: int, policy: Policy): Option<Refusal> {
    if sourceTs > recvTs || recvTs > observedAt then Some(TimestampOrder)
    else if observedAt - sourceTs > policy.maxSourceAge then Some(SourceStale)
    else if recvTs - sourceTs > policy.maxReceiveLatency then Some(ReceiveLatency)
    else None
  }

  function EstablishPriceToBeat(
    m: Market, r: OfficialReference, observedAt: int, persistenceId: string, policy: Policy)
    : Result<PriceToBeatRecord, Refusal>
  {
    var identity := RequireOfficialIdentity(m, r);
    var start := m.windowStart;
    if identity.Some? then Err(identity.value)
    else if !r.isPriceToBeat then Err(NotPriceToBeat)
    else if Abs(r.effectiveTs - start) > policy.boundaryTolerance then Err(NotEffectiveAtOpen)
    else if observedAt > start + policy.boundaryTolerance then Err(MidWindowReconstruction)
    else if observedAt < start - policy.boundaryTolerance then Err(BeforeBoundaryTolerance)
    else
      var stale := RequireFreshTimestamps(r.sourceTs, r.recvTs, observedAt, policy);
      if stale.Some? then Err(stale.value)
      else Ok(PriceToBeatRecord(m.conditionId, r, observedAt, persistenceId))
  }

  function RestorePriceToBeat(
    m: Market, record: PriceToBeatRecord, restoredAt: int, policy: Policy)
    : Result<PriceToBeatRecord, Refusal>
  {
    var identity := RequireOfficialIdentity(m, record.reference);
    if identity.Some? then Err(identity.value)
    else if record.conditionId != m.conditionId then Err(ConditionIdentityMismatch)
    else if record.establishedAt > m.windowStart + policy.boundaryTolerance then Err(EstablishedTooLate)
    else if restoredAt < m.windowStart || restoredAt >= m.windowEnd then Err(OutsideMarketWindow)
    else Ok(record)
  }

  // ---------------------------------------------------------------- official references

  datatype Twap = Twap(asset: Asset, value: real, windowSeconds: int, publisherTs: int, recvTs: int)

  datatype Candle = Candle(
    asset: Asset, openTime: int, closeTime: int, openPrice: real, closePrice: real,
    sourceTs: Option<int>, recvTs: int)

  function Digits(n: nat): (s: string)
    ensures |s| > 0
    ensures forall k :: 0 <= k < |s| ==> '0' <= s[k] <= '9'
  {
    if n < 10 then ['0' + n as char] else Digits(n / 10) + ['0' + (n % 10) as char]
  }

  function IntText(n: int): string {
    if n < 0 then "-" + Digits(-n) else Digits(n)
  }

  function ReferenceFromTwap(m: Market, t: Twap, isPriceToBeat: bool): Result<OfficialReference, Refusal> {
    if m.horizon == OneHour then Err(WrongAuthority)
    else if t.windowSeconds != 60 then Err(WrongTwapWindow)
    else if t.asset != m.asset then Err(AssetIdentityMismatch)
    else if !CanonicalSource(m) then Err(SourceMismatch)
    else Ok(OfficialReference(
      "official:" + m.conditionId + ":chainlink:" + IntText(WholeSeconds(t.publisherTs)),
      m.marketId, m.asset, t.value, OfficialSource(Bucket(m.asset, m.horizon)),
      t.publisherTs, t.recvTs, t.publisherTs, isPriceToBeat))
  }

  function ReferenceFromCandle(m: Market, c: Candle, isPriceToBeat: bool): Result<OfficialReference, Refusal> {
    var effective := if isPriceToBeat then c.openTime else c.closeTime;
    if m.horizon != OneHour then Err(WrongAuthority)
    else if c.asset != m.asset then Err(AssetIdentityMismatch)
    else if c.openTime != m.windowStart || c.closeTime != m.windowEnd then Err(CandleWindowMismatch)
    else if !CanonicalSource(m) then Err(SourceMismatch)
    else Ok(OfficialReference(
      "official:" + m.conditionId + ":binance-candle:" + IntText(WholeSeconds(effective)),
      m.marketId, m.asset, if isPriceToBeat then c.openPrice else c.closePrice,
      OfficialSource(Bucket(m.asset, m.horizon)),
      if c.sourceTs.Some? then c.sourceTs.value else effective,
      c.recvTs, effective, isPriceToBeat))
  }
}
