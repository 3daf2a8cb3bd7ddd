/**
 * What the price-to-beat service promises over every run: agreement, readiness proven at the
 * boundary and stable inside the window, what a shared key hands over, and when evidence suffices.
 */
module PtbServiceLaws {
  import opened Common
  import opened Canonical
  import opened Collector
  import opened PtbRepository
  import opened PtbService

  // ---------------------------------------------------------------- agreement

  /** All readiness reported for one identity carries one record, over every interleaving and restart. */
  lemma ReadyRecordsAgree(steps: seq<Step>, policy: Policy)
    requires ValidSteps(steps)
    ensures var ready := Run(START, steps, policy).ready;
            forall d, e :: d in ready && e in ready && MarketIdentity(d.market) == MarketIdentity(e.market) ==>
              d.record == e.record
  {
    RunKeepsInv(START, steps, policy);
    var w := Run(START, steps, policy);
    forall e | e in w.ready ensures EntryStored(w.rows, e) {
    }
  }

  /** Identities that differ in the market id alone share one row: all but the market id agrees. */
  lemma MarketsSharingAKeyAgree(steps: seq<Step>, policy: Policy)
    requires ValidSteps(steps)
    ensures var ready := Run(START, steps, policy).ready;
            forall d, e :: d in ready && e in ready
                           && KeyOf(d.market) == KeyOf(e.market) ==>
              RowOf(d.record) == RowOf(e.record)
  {
    RunKeepsInv(START, steps, policy);
    var w := Run(START, steps, policy);
    forall d, e | d in w.ready && e in w.ready
                  && KeyOf(d.market) == KeyOf(e.market)
      ensures RowOf(d.record) == RowOf(e.record)
    {
      SharedRow(w.rows, d, e);
    }
  }

  lemma SharedRow(rows: Table, d: ReadyEntry, e: ReadyEntry)
    requires EntryStored(rows, d) && EntryStored(rows, e)
    requires KeyOf(d.market) == KeyOf(e.market)
    ensures RowOf(d.record) == RowOf(e.record)
  {
  }

  /** Proven at the opening of its own window, and in its own name. */
  predicate ProvenInItsName(e: ReadyEntry, policy: Policy) {
    && BoundaryProven(e.market.windowStart, e.market.horizon, RowOf(e.record), policy)
    && e.record.reference.marketId == e.market.marketId
    && e.record.reference.source == e.market.settlementSource
  }

  /** What a new resolution finds when a row is stored: a refusal, or inside the window the row. */
  function Restored(m: Market, row: Row, observedAt: int, policy: Policy): Outcome {
    if row.establishedAt > m.windowStart + policy.boundaryTolerance then
      Unavailable(RestoreRejected(EstablishedTooLate))
    else if m.windowStart <= observedAt < m.windowEnd then Ready(Rebuild(MarketIdentity(m), row), true)
    else Unavailable(RestoreRejected(OutsideMarketWindow))
  }

  lemma BeginRestores(w: World, m: Market, id: nat, observedAt: int, policy: Policy)
    requires KeyOf(m) in w.rows && id !in w.tasks
    ensures var v := Next(w, Begin(id, m, observedAt), policy);
            && v.rows == w.rows
            && id in v.tasks
            && v.tasks[id] == Finished(m, Restored(m, w.rows[KeyOf(m)], observedAt, policy))
  {
  }

  /**
   * Over every run: once a row is stored under a market's key, every later resolution of the market
   * writes nothing, is refused as established too late or as outside the window, and otherwise
   * restores that row. The row of an official market is never too late for it.
   */
  lemma RestoreOnlyInsideTheWindow(steps: seq<Step>, m: Market, id: nat, observedAt: int, policy: Policy)
    requires ValidSteps(steps)
    ensures var w := Run(START, steps, policy);
            KeyOf(m) in w.rows && id !in w.tasks ==>
              var v := Next(w, Begin(id, m, observedAt), policy);
              && v.rows == w.rows
              && id in v.tasks
              && v.tasks[id] == Finished(m, Restored(m, w.rows[KeyOf(m)], observedAt, policy))
              && (OfficialMarket(m) ==> w.rows[KeyOf(m)].establishedAt <= m.windowStart + policy.boundaryTolerance)
  {
    var w := Run(START, steps, policy);
    if KeyOf(m) in w.rows && id !in w.tasks {
      RunKeepsInv(START, steps, policy);
      assert RowProven(KeyOf(m), w.rows[KeyOf(m)], policy);
      StoredIsProven(m, w.rows[KeyOf(m)], policy);
      BeginRestores(w, m, id, observedAt, policy);
    }
  }

  /**
   * Readiness is stable: after it has been reported once, any later resolution of that market
   * that observes it inside its window restores exactly the same record, whatever ran in between
   * and however stale its own evidence would have been.
   */
  lemma ReadyStaysReady(before: seq<Step>, after: seq<Step>, e: ReadyEntry, id: nat, observedAt: int, policy: Policy)
    requires ValidSteps(before) && ValidSteps(after)
    ensures var w := Run(START, before, policy);
            var later := Run(w, after, policy);
            e in w.ready && e.market.windowStart <= observedAt < e.market.windowEnd && id !in later.tasks ==>
              var v := Next(later, Begin(id, e.market, observedAt), policy);
              id in v.tasks && v.tasks[id] == Finished(e.market, Ready(e.record, true))
  {
    var w := Run(START, before, policy);
    var later := Run(w, after, policy);
    if e in w.ready && id !in later.tasks {
      RunKeepsInv(START, before, policy);
      RunKeepsInv(w, after, policy);
      assert EntryStored(w.rows, e) && EntryTimely(e, policy);
      assert KeyOf(e.market) in later.rows && later.rows[KeyOf(e.market)] == w.rows[KeyOf(e.market)];
      BeginRestores(later, e.market, id, observedAt, policy);
    }
  }

  // ---------------------------------------------------------------- when readiness is boundary-proven

  /**
   * An official market of another window whose row this market is handed although it is not proven
   * at its opening: an earlier one, or an hourly one that can be established early enough.
   */
  predicate Misleads(m: Market, n: Market, policy: Policy) {
    && OfficialMarket(m) && KeyOf(m) == KeyOf(n)
    && (m.windowStart < n.windowStart
        || (n.horizon == OneHour && n.windowStart < m.windowStart <= n.windowStart + policy.boundaryTolerance))
  }

  ghost predicate Misled(n: Market, policy: Policy) {
    exists m: Market :: Misleads(m, n, policy)
  }

  /** Every readiness of the market, in every run, is proven at its own opening. */
  ghost predicate AlwaysProven(n: Market, policy: Policy) {
    forall steps, e :: ValidSteps(steps) && e in Run(START, steps, policy).ready && e.market == n ==>
      ProvenInItsName(e, policy)
  }

  lemma OfficialIsNotMisled(n: Market, policy: Policy)
    requires OfficialMarket(n)
    ensures !Misled(n, policy)
  {
    if Misled(n, policy) {
      var m: Market :| Misleads(m, n, policy);
      OfficialKeyIsInjective(m, n);
    }
  }

  /** A row that is timely for a market and was established by one that does not mislead it is proven. */
  lemma TimelyRowIsProven(m: Market, n: Market, row: Row, policy: Policy)
    requires OfficialMarket(m) && KeyOf(m) == KeyOf(n) && m.horizon == n.horizon && !Misleads(m, n, policy)
    requires BoundaryProven(m.windowStart, m.horizon, row, policy)
    requires row.establishedAt <= n.windowStart + policy.boundaryTolerance
    ensures BoundaryProven(n.windowStart, n.horizon, row, policy)
  {
  }

  lemma StoredIsNotMisleading(n: Market, row: Row, policy: Policy)
    requires RowProven(KeyOf(n), row, policy) && !Misled(n, policy)
    requires row.establishedAt <= n.windowStart + policy.boundaryTolerance
    ensures BoundaryProven(n.windowStart, n.horizon, row, policy)
  {
    var m: Market :| OfficialMarket(m) && KeyOf(m) == KeyOf(n)
                     && BoundaryProven(m.windowStart, m.horizon, row, policy);
    KeyNamesBucket(MarketIdentity(m), MarketIdentity(n));
    TimelyRowIsProven(m, n, row, policy);
  }

  lemma ReadyUnlessMisled(steps: seq<Step>, e: ReadyEntry, policy: Policy)
    requires ValidSteps(steps) && e in Run(START, steps, policy).ready && !Misled(e.market, policy)
    ensures ProvenInItsName(e, policy)
  {
    RunKeepsInv(START, steps, policy);
    var w, n := Run(START, steps, policy), e.market;
    assert EntryStored(w.rows, e) && EntryTimely(e, policy);
    StoredIsNotMisleading(n, w.rows[KeyOf(n)], policy);
  }

  /** The other market establishes its price as early as it may, and this one is handed it. */
  function MisleadingSteps(m: Market, n: Market, policy: Policy): seq<Step> {
    HandOver(m, n, EarlyEvidence(m, policy), m.windowStart, n.windowStart)
  }

  lemma MisleadingHandsOver(m: Market, n: Market, policy: Policy)
    requires ValidMarket(n) && Misleads(m, n, policy)
    ensures ValidSteps(MisleadingSteps(m, n, policy))
    ensures var ready := Run(START, MisleadingSteps(m, n, policy), policy).ready;
            && |ready| == 2 && ready[1].market == n
            && !BoundaryProven(n.windowStart, n.horizon, RowOf(ready[1].record), policy)
  {
    KeyNamesBucket(MarketIdentity(m), MarketIdentity(n));
    EarlyEvidenceEstablishes(m, policy);
    var e := EarlyEvidence(m, policy);
    EarlyRecordHandsOver(m, n, e, RowOf(Decide(m, e, policy).value), policy);
  }

  /** The row of the one market has become the readiness of the other, which it does not prove. */
  predicate HandsOver(ready: seq<ReadyEntry>, n: Market, row: Row, policy: Policy) {
    && |ready| == 2 && ready[1] == ReadyEntry(n, Rebuild(MarketIdentity(n), row))
    && !BoundaryProven(n.windowStart, n.horizon, row, policy)
  }

  lemma EarlyRecordHandsOver(m: Market, n: Market, e: Evidence, row: Row, policy: Policy)
    requires ValidMarket(n) && Misleads(m, n, policy) && m.horizon == n.horizon
    requires Decide(m, e, policy).Ok? && row == RowOf(Decide(m, e, policy).value) && EstablishedEarly(m, row, policy)
    ensures ValidSteps(HandOver(m, n, e, m.windowStart, n.windowStart))
    ensures HandsOver(Run(START, HandOver(m, n, e, m.windowStart, n.windowStart), policy).ready, n, row, policy)
  {
    EarlyRowIsNotProven(m, n, row, policy);
    SharedKeyHandsOver(m, n, e, m.windowStart, n.windowStart, policy);
  }

  lemma EarlyRowIsNotProven(m: Market, n: Market, row: Row, policy: Policy)
    requires ValidMarket(n) && Misleads(m, n, policy) && m.horizon == n.horizon && EstablishedEarly(m, row, policy)
    ensures row.establishedAt <= n.windowStart + policy.boundaryTolerance && n.windowStart < n.windowEnd
    ensures !BoundaryProven(n.windowStart, n.horizon, row, policy)
  {
  }

  lemma MisledIsNotProven(m: Market, n: Market, policy: Policy)
    requires ValidMarket(n) && Misleads(m, n, policy)
    ensures !AlwaysProven(n, policy)
  {
    MisleadingHandsOver(m, n, policy);
    var e := Run(START, MisleadingSteps(m, n, policy), policy).ready[1];
    assert e in Run(START, MisleadingSteps(m, n, policy), policy).ready && !ProvenInItsName(e, policy);
  }

  /**
   * Exactly when a market's readiness is always proven at its own opening: when no official market
   * of another window misleads it, as none does a market that names its official source.
   */
  lemma ReadyIsProvenExactlyWhen(n: Market, policy: Policy)
    requires ValidMarket(n)
    ensures AlwaysProven(n, policy) <==> !Misled(n, policy)
    ensures CanonicalSource(n) ==> !Misled(n, policy)
  {
    if CanonicalSource(n) {
      OfficialIsNotMisled(n, policy);
    }
    if Misled(n, policy) {
      var m: Market :| Misleads(m, n, policy);
      MisledIsNotProven(m, n, policy);
    } else {
      forall steps, e | ValidSteps(steps) && e in Run(START, steps, policy).ready && e.market == n
        ensures ProvenInItsName(e, policy)
      {
        ReadyUnlessMisled(steps, e, policy);
      }
    }
  }

  /** For official markets it holds whatever the tolerance. */
  lemma ReadyIsBoundaryProven(steps: seq<Step>, policy: Policy)
    requires ValidSteps(steps)
    ensures forall e :: e in Run(START, steps, policy).ready && CanonicalSource(e.market) ==> ProvenInItsName(e, policy)
  {
    var w := Run(START, steps, policy);
    RunKeepsInv(START, steps, policy);
    forall e | e in w.ready && CanonicalSource(e.market) ensures ProvenInItsName(e, policy) {
      assert EntryStored(w.rows, e) && EntryTimely(e, policy);
      StoredIsProven(e.market, w.rows[KeyOf(e.market)], policy);
    }
  }

  // ---------------------------------------------------------------- a shared key

  /** The first market establishes a row, and then the second one looks. */
  function HandOver(m: Market, n: Market, e: Evidence, first: int, second: int): seq<Step> {
    [Begin(0, m, first), Supply(0, e), ReadBack(0), Begin(1, n, second)]
  }

  /** Two markets that share a key share the row: the second is ready with what the first established. */
  lemma SharedKeyHandsOver(m: Market, n: Market, e: Evidence, first: int, second: int, policy: Policy)
    requires KeyOf(m) == KeyOf(n) && Decide(m, e, policy).Ok?
    requires Decide(m, e, policy).value.establishedAt <= n.windowStart + policy.boundaryTolerance
    requires n.windowStart <= second < n.windowEnd
    ensures var row := RowOf(Decide(m, e, policy).value);
            Run(START, HandOver(m, n, e, first, second), policy).ready
            == [ReadyEntry(m, Rebuild(MarketIdentity(m), row)), ReadyEntry(n, Rebuild(MarketIdentity(n), row))]
  {
    var a, b, c, d := Begin(0, m, first), Supply(0, e), ReadBack(0), Begin(1, n, second);
    var row := RowOf(Decide(m, e, policy).value);
    var w1 := Next(START, a, policy);
    assert w1 == World(map[], map[0 := Awaiting(m)], []);
    var w2 := Next(w1, b, policy);
    assert w2.rows == map[KeyOf(m) := row] && w2.tasks == map[0 := Saving(m)] && w2.ready == [];
    var w3 := Next(w2, c, policy);
    assert w3.rows == w2.rows && 1 !in w3.tasks && w3.ready == [ReadyEntry(m, Rebuild(MarketIdentity(m), row))];
    var w4 := Next(w3, d, policy);
    assert RestorePriceToBeat(n, Rebuild(MarketIdentity(n), row), second, policy).Ok?;
    RunOfFour(START, a, b, c, d, policy);
  }

  lemma RunOfFour(w: World, a: Step, b: Step, c: Step, d: Step, policy: Policy)
    ensures Run(w, [a, b, c, d], policy)
            == Next(Next(Next(Next(w, a, policy), b, policy), c, policy), d, policy)
  {
    var w1 := Next(w, a, policy);
    var w2 := Next(w1, b, policy);
    var w3 := Next(w2, c, policy);
    assert [a, b, c, d][1..] == [b, c, d] && [b, c, d][1..] == [c, d] && [c, d][1..] == [d] && [d][1..] == [];
    assert Run(w3, [d], policy) == Run(Next(w3, d, policy), [], policy);
    assert Run(w2, [c, d], policy) == Run(w3, [d], policy);
    assert Run(w1, [b, c, d], policy) == Run(w2, [c, d], policy);
  }

  function MarketOf(i: Identity): Market {
    Market(i.marketId, i.conditionId, i.asset, i.horizon, i.windowStart, i.windowStart + Duration(i.horizon),
           i.officialSource)
  }

  const TEN_SECONDS: Policy := Policy(10 * SECOND, 10 * SECOND, 10 * SECOND)

  /** So a market without its official source can be ready with a price of another window's opening. */
  lemma OffSourceReadinessCanMissItsBoundary()
    ensures var m, n := MarketOf(OFFICIAL_TWIN), MarketOf(OTHER_TWIN);
            var ready := Run(START, MisleadingSteps(m, n, TEN_SECONDS), TEN_SECONDS).ready;
            && ValidMarket(n) && Misleads(m, n, TEN_SECONDS)
            && |ready| == 2 && ready[1].market == n
            && !BoundaryProven(n.windowStart, n.horizon, RowOf(ready[1].record), TEN_SECONDS)
  {
    TwinsAreMarkets();
    MisleadingHandsOver(MarketOf(OFFICIAL_TWIN), MarketOf(OTHER_TWIN), TEN_SECONDS);
  }

  lemma TwinsAreMarkets()
    ensures var m, n := MarketOf(OFFICIAL_TWIN), MarketOf(OTHER_TWIN);
            && OfficialMarket(m) && ValidMarket(n) && !CanonicalSource(n)
            && KeyOf(m) == KeyOf(n) && m.windowStart < n.windowStart
  {
    KeyCollidesOffSource();
    assert MarketIdentity(MarketOf(OFFICIAL_TWIN)) == OFFICIAL_TWIN;
    assert MarketIdentity(MarketOf(OTHER_TWIN)) == OTHER_TWIN;
  }

  /** The evidence that establishes a record, in full: the official source, one authority, the boundary, freshness. */
  predicate Establishes(m: Market, e: Evidence, policy: Policy) {
    && CanonicalSource(m)
    && if m.horizon == OneHour then
         && e.kline.Some?
         && e.kline.value.openTime == m.windowStart
         && m.windowEnd == m.windowStart + Duration(OneHour)
         && Timely(m, m.windowStart, e.kline.value.recvTs, policy)
       else
         var twap := OpeningTwap(e.history, m.windowStart, policy.boundaryTolerance);
         && twap.Some?
         && twap.value.windowSeconds == 60 && twap.value.asset == m.asset
         && Timely(m, twap.value.publisherTs, twap.value.recvTs, policy)
  }

  predicate Timely(m: Market, sourceTs: int, recvTs: int, policy: Policy) {
    && Abs(recvTs - m.windowStart) <= policy.boundaryTolerance
    && 0 <= recvTs - sourceTs <= policy.maxSourceAge
    && recvTs - sourceTs <= policy.maxReceiveLatency
  }

  /** The earliest an official market can establish its price: an hourly row is no earlier than its opening. */
  function Earliest(m: Market, policy: Policy): int {
    if m.horizon == OneHour then m.windowStart else m.windowStart - policy.boundaryTolerance
  }

  /** The market's own evidence, of the earliest time it may have, and received at once. */
  function EarlyEvidence(m: Market, policy: Policy): Evidence {
    var at := Earliest(m, policy);
    if m.horizon == OneHour then Evidence([], Some(Kline(at, 1.0, 1.0, at)))
    else Evidence([Twap(m.asset, 1.0, 60, at, at)], None)
  }

  predicate EstablishedEarly(m: Market, row: Row, policy: Policy) {
    row.establishedAt == row.effectiveTs == Earliest(m, policy)
  }

  /** Every official market has evidence that establishes its price as early as the tolerance lets it. */
  lemma EarlyEvidenceEstablishes(m: Market, policy: Policy)
    requires OfficialMarket(m)
    ensures Decide(m, EarlyEvidence(m, policy), policy).Ok?
    ensures EstablishedEarly(m, RowOf(Decide(m, EarlyEvidence(m, policy), policy).value), policy)
  {
    var e := EarlyEvidence(m, policy);
    if m.horizon != OneHour {
      var twap := OpeningTwap(e.history, m.windowStart, policy.boundaryTolerance);
      assert Distance(e.history[0], m.windowStart) == policy.boundaryTolerance;
      assert twap.Some? && twap.value == e.history[0];
    }
    DecideSucceedsExactlyWhen(m, e, policy);
  }

  lemma EstablishedExactlyWhen(m: Market, r: OfficialReference, key: string, policy: Policy)
    requires RequireOfficialIdentity(m, r).None? && r.isPriceToBeat
    requires Abs(r.effectiveTs - m.windowStart) <= policy.boundaryTolerance
    ensures EstablishPriceToBeat(m, r, r.recvTs, key, policy).Ok? <==> Timely(m, r.sourceTs, r.recvTs, policy)
  {
  }

  lemma HourlyDecidesExactlyWhen(m: Market, e: Evidence, policy: Policy)
    requires m.horizon == OneHour
    ensures Decide(m, e, policy).Ok? <==> Establishes(m, e, policy)
  {
    var official := OfficialEvidence(m, e, policy);
    if official.Ok? {
      EstablishedExactlyWhen(m, official.value, PersistenceId(MarketIdentity(m)), policy);
    }
  }

  lemma ShortDecidesExactlyWhen(m: Market, e: Evidence, policy: Policy)
    requires m.horizon != OneHour
    ensures Decide(m, e, policy).Ok? <==> Establishes(m, e, policy)
  {
    var official := OfficialEvidence(m, e, policy);
    if official.Ok? {
      EstablishedExactlyWhen(m, official.value, PersistenceId(MarketIdentity(m)), policy);
    }
  }

  /** A resolution that finds no row establishes one exactly with such evidence. */
  lemma DecideSucceedsExactlyWhen(m: Market, e: Evidence, policy: Policy)
    ensures Decide(m, e, policy).Ok? <==> Establishes(m, e, policy)
  {
    if m.horizon == OneHour {
      HourlyDecidesExactlyWhen(m, e, policy);
    } else {
      ShortDecidesExactlyWhen(m, e, policy);
    }
  }
}
