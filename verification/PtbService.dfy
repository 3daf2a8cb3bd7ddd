/**
 * The official price-to-beat service as interleaved steps. A resolution reads the table; when
 * the row is missing it awaits evidence, inserts unless a row has appeared meanwhile, and reads
 * the row back. Between those three steps any other resolution may run any of its own, so a run
 * here is any interleaving of any number of resolutions, across any number of restarts.
 */
module PtbService {
  import opened Common
  import opened Canonical
  import opened Collector
  import opened PtbRepository

  datatype Reason =
    | RestoreRejected(why: Refusal)
    | NoBoundarySample
    | HourlyFetchFailed
    | HourlyWindowMismatch(why: Refusal)
    | EstablishRejected(why: Refusal)

  datatype Outcome =
    | Ready(record: PriceToBeatRecord, restored: bool)
    | Unavailable(reason: Reason)
    | Raised(error: Refusal)

  /** What is read of a fetched row: its opening time and prices, and when it came. */
  datatype Kline = Kline(openTime: int, openPrice: real, closePrice: real, recvTs: int)

  /** The parser takes the opening for the source time, and closes the candle an hour later. */
  function ParsedCandle(a: Asset, k: Kline): Candle {
    Candle(a, k.openTime, k.openTime + Duration(OneHour), k.openPrice, k.closePrice, Some(k.openTime), k.recvTs)
  }

  /** What a resolution sees after its await: the collector's history, or the row fetched and read. */
  datatype Evidence = Evidence(history: seq<Twap>, kline: Option<Kline>)

  function OfficialEvidence(m: Market, e: Evidence, policy: Policy): Result<OfficialReference, Outcome> {
    if m.horizon == OneHour then
      if e.kline.None? then Err(Unavailable(HourlyFetchFailed))
      else
        var r := ReferenceFromCandle(m, ParsedCandle(m.asset, e.kline.value), true);
        if r.Err? then Err(Unavailable(HourlyWindowMismatch(r.error))) else Ok(r.value)
    else
      var twap := OpeningTwap(e.history, m.windowStart, policy.boundaryTolerance);
      if twap.None? then Err(Unavailable(NoBoundarySample))
      else
        var r := ReferenceFromTwap(m, twap.value, true);
        if r.Err? then Err(Raised(r.error)) else Ok(r.value)
  }

  /** The record to save, or the outcome when the evidence does not establish one. */
  function Decide(m: Market, e: Evidence, policy: Policy): Result<PriceToBeatRecord, Outcome> {
    var official := OfficialEvidence(m, e, policy);
    if official.Err? then Err(official.error)
    else
      var r := EstablishPriceToBeat(
        m, official.value, official.value.recvTs, PersistenceId(MarketIdentity(m)), policy);
      if r.Err? then Err(Unavailable(EstablishRejected(r.error))) else Ok(r.value)
  }

  // ---------------------------------------------------------------- the machine

  datatype Phase =
    | Awaiting(market: Market)
    | Saving(market: Market)
    | Finished(market: Market, outcome: Outcome)

  datatype ReadyEntry = ReadyEntry(market: Market, record: PriceToBeatRecord)

  /** The durable table, the resolutions in flight, and every readiness ever reported. */
  datatype World = World(rows: Table, tasks: map<nat, Phase>, ready: seq<ReadyEntry>)

  datatype Step =
    | Begin(id: nat, market: Market, observedAt: int)
    | Supply(id: nat, evidence: Evidence)
    | ReadBack(id: nat)
    | Restart

  function Finish(w: World, id: nat, m: Market, o: Outcome): World {
    World(w.rows, w.tasks[id := Finished(m, o)],
          if o.Ready? then w.ready + [ReadyEntry(m, o.record)] else w.ready)
  }

  function Insert(w: World, id: nat, m: Market, d: Result<PriceToBeatRecord, Outcome>): World {
    if d.Err? then Finish(w, id, m, d.error)
    else World(InsertOrIgnore(w.rows, PersistenceId(MarketIdentity(m)), RowOf(d.value)),
               w.tasks[id := Saving(m)], w.ready)
  }

  function RestoreOutcome(m: Market, stored: PriceToBeatRecord, observedAt: int, policy: Policy): Outcome {
    var r := RestorePriceToBeat(m, stored, observedAt, policy);
    if r.Ok? then Ready(r.value, true) else Unavailable(RestoreRejected(r.error))
  }

  /** A step that is not its task's turn changes nothing. */
  function Next(w: World, s: Step, policy: Policy): World {
    match s
    case Begin(id, m, at) =>
      if id in w.tasks then w
      else
        var stored := Lookup(w.rows, MarketIdentity(m));
        if stored.Some? then Finish(w, id, m, RestoreOutcome(m, stored.value, at, policy))
        else w.(tasks := w.tasks[id := Awaiting(m)])
    case Supply(id, e) =>
      if id !in w.tasks || !w.tasks[id].Awaiting? then w
      else
        Insert(w, id, w.tasks[id].market, Decide(w.tasks[id].market, e, policy))
    case ReadBack(id) =>
      if id !in w.tasks || !w.tasks[id].Saving? then w
      else
        var m := w.tasks[id].market;
        var stored := Lookup(w.rows, MarketIdentity(m));
        if stored.Some? then Finish(w, id, m, Ready(stored.value, false)) else w
    case Restart => w.(tasks := map[])
  }

  function Run(w: World, steps: seq<Step>, policy: Policy): World
    decreases |steps|
  {
    if steps == [] then w else Run(Next(w, steps[0], policy), steps[1..], policy)
  }

  /** Markets come from a constructor that insists on a canonical window. */
  predicate ValidSteps(steps: seq<Step>) {
    forall k :: 0 <= k < |steps| && steps[k].Begin? ==> ValidMarket(steps[k].market)
  }

  const START := World(map[], map[], [])

  // ---------------------------------------------------------------- what every step keeps

  /** The row was effective and established at the opening boundary, from fresh data in order. */
  predicate BoundaryProven(start: int, horizon: Horizon, row: Row, policy: Policy) {
    && Abs(row.effectiveTs - start) <= policy.boundaryTolerance
    && Abs(row.establishedAt - start) <= policy.boundaryTolerance
    && row.effectiveTs == row.sourceTs
    && (horizon == OneHour ==> row.effectiveTs == start)
    && row.sourceTs <= row.recvTs == row.establishedAt
    && row.establishedAt - row.sourceTs <= policy.maxSourceAge
    && row.recvTs - row.sourceTs <= policy.maxReceiveLatency
  }

  /** A market from its constructor, with its official source. */
  predicate OfficialMarket(m: Market) {
    ValidMarket(m) && CanonicalSource(m)
  }

  function KeyOf(m: Market): string {
    PersistenceId(MarketIdentity(m))
  }

  /** Some official market of the key established the row at its own opening. */
  ghost predicate RowProven(key: string, row: Row, policy: Policy) {
    exists m: Market ::
      OfficialMarket(m) && KeyOf(m) == key && BoundaryProven(m.windowStart, m.horizon, row, policy)
  }

  predicate EntryStored(rows: Table, e: ReadyEntry) {
    KeyOf(e.market) in rows && e.record == Rebuild(MarketIdentity(e.market), rows[KeyOf(e.market)])
  }

  /** Nothing is reported ready that a restore would refuse as established too late. */
  predicate EntryTimely(e: ReadyEntry, policy: Policy) {
    ValidMarket(e.market) && e.record.establishedAt <= e.market.windowStart + policy.boundaryTolerance
  }

  ghost predicate RowsProven(rows: Table, policy: Policy) {
    forall key :: key in rows ==> RowProven(key, rows[key], policy)
  }

  predicate ReadyStored(rows: Table, ready: seq<ReadyEntry>, policy: Policy) {
    forall k :: 0 <= k < |ready| ==> EntryStored(rows, ready[k]) && EntryTimely(ready[k], policy)
  }

  /** Only an official market ever writes. */
  predicate PhaseSound(rows: Table, p: Phase) {
    ValidMarket(p.market) && (p.Saving? ==> CanonicalSource(p.market) && KeyOf(p.market) in rows)
  }

  predicate TasksSound(rows: Table, tasks: map<nat, Phase>) {
    forall id :: id in tasks ==> PhaseSound(rows, tasks[id])
  }

  ghost predicate Inv(w: World, policy: Policy) {
    RowsProven(w.rows, policy) && ReadyStored(w.rows, w.ready, policy) && TasksSound(w.rows, w.tasks)
  }

  /** Rows are only ever added. */
  predicate Extends(rows: Table, later: Table) {
    forall key :: key in rows ==> key in later && later[key] == rows[key]
  }

  /** Evidence yields a reference only for a market with its official source, in that market's name. */
  lemma EvidenceIsOfficial(m: Market, e: Evidence, policy: Policy)
    requires OfficialEvidence(m, e, policy).Ok?
    ensures var r := OfficialEvidence(m, e, policy).value;
            && CanonicalSource(m)
            && r.isPriceToBeat && r.marketId == m.marketId && r.asset == m.asset && r.source == m.settlementSource
            && r.effectiveTs == r.sourceTs && (m.horizon == OneHour ==> r.effectiveTs == m.windowStart)
  {
  }

  lemma EstablishedIsProven(m: Market, r: OfficialReference, key: string, policy: Policy)
    requires EstablishPriceToBeat(m, r, r.recvTs, key, policy).Ok?
    requires r.effectiveTs == r.sourceTs && (m.horizon == OneHour ==> r.effectiveTs == m.windowStart)
    ensures var record := EstablishPriceToBeat(m, r, r.recvTs, key, policy).value;
            && record == PriceToBeatRecord(m.conditionId, r, r.recvTs, key)
            && BoundaryProven(m.windowStart, m.horizon, RowOf(record), policy)
  {
  }

  lemma DecideIsProven(m: Market, e: Evidence, policy: Policy)
    requires ValidMarket(m) && Decide(m, e, policy).Ok?
    ensures CanonicalIdentity(MarketIdentity(m))
    ensures BoundaryProven(m.windowStart, m.horizon, RowOf(Decide(m, e, policy).value), policy)
    ensures var r := Decide(m, e, policy).value;
            r.persistenceId == PersistenceId(MarketIdentity(m)) && r.conditionId == m.conditionId
            && r == Rebuild(MarketIdentity(m), RowOf(r))
  {
    EvidenceIsOfficial(m, e, policy);
    EstablishedIsProven(m, OfficialEvidence(m, e, policy).value, PersistenceId(MarketIdentity(m)), policy);
  }

  lemma OfficialKeyIsInjective(m: Market, n: Market)
    requires OfficialMarket(m) && OfficialMarket(n) && KeyOf(m) == KeyOf(n)
    ensures m.asset == n.asset && m.horizon == n.horizon && m.windowStart == n.windowStart
    ensures m.conditionId == n.conditionId && m.settlementSource == n.settlementSource
  {
    KeyIsInjective(MarketIdentity(m), MarketIdentity(n));
  }

  /** The row of an official market is proven at that market's own opening. */
  lemma StoredIsProven(m: Market, row: Row, policy: Policy)
    requires RowProven(KeyOf(m), row, policy)
    ensures OfficialMarket(m) ==> BoundaryProven(m.windowStart, m.horizon, row, policy)
  {
    if OfficialMarket(m) {
      var n: Market :| OfficialMarket(n) && KeyOf(n) == KeyOf(m)
                       && BoundaryProven(n.windowStart, n.horizon, row, policy);
      OfficialKeyIsInjective(m, n);
    }
  }

  lemma FinishKeepsInv(w: World, id: nat, m: Market, o: Outcome, policy: Policy)
    requires Inv(w, policy) && ValidMarket(m)
    requires o.Ready? ==> EntryStored(w.rows, ReadyEntry(m, o.record)) && EntryTimely(ReadyEntry(m, o.record), policy)
    ensures Inv(Finish(w, id, m, o), policy) && w.ready <= Finish(w, id, m, o).ready
  {
  }

  lemma InsertKeepsReady(rows: Table, ready: seq<ReadyEntry>, key: string, row: Row, policy: Policy)
    requires ReadyStored(rows, ready, policy)
    ensures ReadyStored(InsertOrIgnore(rows, key, row), ready, policy)
  {
    forall k | 0 <= k < |ready| ensures EntryStored(InsertOrIgnore(rows, key, row), ready[k]) {
      assert EntryStored(rows, ready[k]);
    }
  }

  lemma InsertKeepsTasks(rows: Table, tasks: map<nat, Phase>, key: string, row: Row)
    requires TasksSound(rows, tasks)
    ensures TasksSound(InsertOrIgnore(rows, key, row), tasks)
  {
    forall id | id in tasks ensures PhaseSound(InsertOrIgnore(rows, key, row), tasks[id]) {
      assert PhaseSound(rows, tasks[id]);
    }
  }

  lemma InsertKeepsInv(w: World, key: string, row: Row, policy: Policy)
    requires Inv(w, policy) && RowProven(key, row, policy)
    ensures var rows := InsertOrIgnore(w.rows, key, row);
            Inv(w.(rows := rows), policy) && Extends(w.rows, rows) && key in rows
  {
    InsertKeepsReady(w.rows, w.ready, key, row, policy);
    InsertKeepsTasks(w.rows, w.tasks, key, row);
  }

  lemma EstablishedRowIsProven(m: Market, e: Evidence, policy: Policy)
    requires ValidMarket(m) && Decide(m, e, policy).Ok?
    ensures CanonicalSource(m) && RowProven(KeyOf(m), RowOf(Decide(m, e, policy).value), policy)
  {
    DecideIsProven(m, e, policy);
    EvidenceIsOfficial(m, e, policy);
    assert OfficialMarket(m);
  }

  lemma SupplyKeepsInv(w: World, id: nat, e: Evidence, policy: Policy)
    requires Inv(w, policy) && id in w.tasks && w.tasks[id].Awaiting?
    ensures var v := Next(w, Supply(id, e), policy);
            Inv(v, policy) && Extends(w.rows, v.rows) && w.ready <= v.ready
  {
    var m := w.tasks[id].market;
    assert PhaseSound(w.rows, w.tasks[id]);
    var d := Decide(m, e, policy);
    if d.Ok? {
      EstablishedRowIsProven(m, e, policy);
      InsertKeepsInv(w, KeyOf(m), RowOf(d.value), policy);
    } else {
      FinishKeepsInv(w, id, m, d.error, policy);
    }
  }

  lemma ReadBackKeepsInv(w: World, id: nat, policy: Policy)
    requires Inv(w, policy) && id in w.tasks && w.tasks[id].Saving?
    ensures var v := Next(w, ReadBack(id), policy);
            Inv(v, policy) && v.rows == w.rows && w.ready <= v.ready
  {
    var m := w.tasks[id].market;
    assert PhaseSound(w.rows, w.tasks[id]);
    assert RowProven(KeyOf(m), w.rows[KeyOf(m)], policy);
    StoredIsProven(m, w.rows[KeyOf(m)], policy);
    FinishKeepsInv(w, id, m, Ready(Rebuild(MarketIdentity(m), w.rows[KeyOf(m)]), false), policy);
  }

  lemma NextKeepsInv(w: World, s: Step, policy: Policy)
    requires Inv(w, policy) && (s.Begin? ==> ValidMarket(s.market))
    ensures var v := Next(w, s, policy);
            Inv(v, policy) && Extends(w.rows, v.rows) && w.ready <= v.ready
  {
    if s.Begin? && s.id !in w.tasks && Lookup(w.rows, MarketIdentity(s.market)).Some? {
      var stored := Lookup(w.rows, MarketIdentity(s.market)).value;
      FinishKeepsInv(w, s.id, s.market, RestoreOutcome(s.market, stored, s.observedAt, policy), policy);
    } else if s.Supply? && s.id in w.tasks && w.tasks[s.id].Awaiting? {
      SupplyKeepsInv(w, s.id, s.evidence, policy);
    } else if s.ReadBack? && s.id in w.tasks && w.tasks[s.id].Saving? {
      ReadBackKeepsInv(w, s.id, policy);
    }
  }

  lemma {:induction false} RunKeepsInv(w: World, steps: seq<Step>, policy: Policy)
    requires Inv(w, policy) && ValidSteps(steps)
    ensures Inv(Run(w, steps, policy), policy)
    ensures Extends(w.rows, Run(w, steps, policy).rows) && w.ready <= Run(w, steps, policy).ready
    decreases |steps|
  {
    if steps != [] {
      NextKeepsInv(w, steps[0], policy);
      RunKeepsInv(Next(w, steps[0], policy), steps[1..], policy);
    }
  }

  // ---------------------------------------------------------------- the service object

  class OfficialPriceToBeatService {
    const policy: Policy
    const repository: PriceToBeatRepository
    var tasks: map<nat, Phase>
    var ready: seq<ReadyEntry>

    constructor (policy: Policy, repository: PriceToBeatRepository)
      ensures this.policy == policy && this.repository == repository
      ensures tasks == map[] && ready == []
    {
      this.policy := policy;
      this.repository := repository;
      tasks, ready := map[], [];
    }

    ghost function Current(): World
      reads this, repository
    {
      World(repository.rows, tasks, ready)
    }

    method Complete(id: nat, m: Market, o: Outcome)
      modifies this
      ensures Current() == Finish(old(Current()), id, m, o)
    {
      tasks := tasks[id := Finished(m, o)];
      if o.Ready? {
        ready := ready + [ReadyEntry(m, o.record)];
      }
    }

    method BeginResolve(id: nat, m: Market, observedAt: int)
      requires id !in tasks
      modifies this
      ensures Current() == Next(old(Current()), Begin(id, m, observedAt), policy)
    {
      var stored := repository.Get(MarketIdentity(m));
      if stored.None? {
        tasks := tasks[id := Awaiting(m)];
        return;
      }
      var restored := RestorePriceToBeat(m, stored.value, observedAt, policy);
      if restored.Ok? {
        Complete(id, m, Ready(restored.value, true));
      } else {
        Complete(id, m, Unavailable(RestoreRejected(restored.error)));
      }
    }

    /** Inserting and reading back without an await between them is two steps of the machine in a row. */
    method FinishResolve(id: nat, e: Evidence)
      requires id in tasks && tasks[id].Awaiting? && ValidMarket(tasks[id].market)
      modifies this, repository
      ensures Current() == Next(Next(old(Current()), Supply(id, e), policy), ReadBack(id), policy)
    {
      var m := tasks[id].market;
      var d := Decide(m, e, policy);
      InsertThenReadBack(Current(), id, m, d, policy);
      if d.Err? {
        Complete(id, m, d.error);
        return;
      }
      DecideIsProven(m, e, policy);
      var saved := repository.SaveOnce(MarketIdentity(m), d.value);
      Complete(id, m, Ready(saved.value, false));
    }
  }

  ghost function SavedRow(rows: Table, m: Market, record: PriceToBeatRecord): PriceToBeatRecord {
    var i := MarketIdentity(m);
    Rebuild(i, if PersistenceId(i) in rows then rows[PersistenceId(i)] else RowOf(record))
  }

  lemma InsertThenReadBack(w: World, id: nat, m: Market, d: Result<PriceToBeatRecord, Outcome>, policy: Policy)
    requires id in w.tasks
    ensures Next(Insert(w, id, m, d), ReadBack(id), policy)
            == (if d.Err? then Finish(w, id, m, d.error)
                else Finish(w.(rows := InsertOrIgnore(w.rows, PersistenceId(MarketIdentity(m)), RowOf(d.value))), id, m,
                            Ready(SavedRow(w.rows, m, d.value), false)))
  {
    if d.Ok? {
      var o := Finished(m, Ready(SavedRow(w.rows, m, d.value), false));
      assert w.tasks[id := Saving(m)][id := o] == w.tasks[id := o];
    }
  }
}
