/**
 * The paper gateway: what an execution records from its fill evidence, the first-write-wins
 * repository under concurrent retries, reconciliation of the produced orders, and settlement.
 */
module Paper {
  import opened Common
  import Simulation
  import Replay

  datatype Intent = Intent(clientId: string, tokenId: string, side: Simulation.Side, quantity: real)

  datatype Plan = Plan(planId: string, key: string, paper: bool, intents: seq<Intent>, expiresAt: int)

  /** What the plan's constructor demands: at least one intent, each for a quantity, with distinct ids. */
  predicate ValidPlan(p: Plan) {
    && p.intents != []
    && ValidIntents(p.intents)
  }

  predicate ValidIntents(intents: seq<Intent>) {
    && (forall i :: 0 <= i < |intents| ==> intents[i].quantity > 0.0)
    && (forall i, j :: 0 <= i < j < |intents| ==> intents[i].clientId != intents[j].clientId)
  }

  datatype Evidence = Evidence(
    clientId: string, filled: real, averagePrice: Option<real>, fee: real, sourceTs: int, recvTs: int)

  predicate ValidEvidence(e: Evidence) {
    && e.filled >= 0.0 && e.fee >= 0.0
    && (e.averagePrice.Some? ==> 0.0 <= e.averagePrice.value <= 1.0)
    && (e.filled > 0.0 <==> e.averagePrice.Some?)
  }

  predicate AllValid(es: seq<Evidence>) {
    forall i :: 0 <= i < |es| ==> ValidEvidence(es[i])
  }

  datatype OrderStatus =
    | Created
    | Submitting
    | Acknowledged
    | PartiallyFilled
    | Filled
    | Cancelled
    | Rejected
    | Expired
    | UnknownOrderState

  datatype OrderState = OrderState(
    clientId: string,
    status: OrderStatus,
    requested: real,
    filled: real,
    createdAt: int,
    updatedAt: int,
    exchangeId: Option<string>,
    acknowledgedAt: Option<int>,
    average: Option<real>)

  datatype Fill = Fill(
    fillId: string,
    exchangeId: string,
    clientId: string,
    tokenId: string,
    side: Simulation.Side,
    quantity: real,
    price: real,
    fee: real,
    sourceTs: int,
    recvTs: int)

  /** What the order's constructor demands. */
  predicate AcceptedOrder(o: OrderState) {
    && o.requested > 0.0 && 0.0 <= o.filled <= o.requested
    && o.createdAt <= o.updatedAt
    && (o.acknowledgedAt.Some? ==> o.createdAt <= o.acknowledgedAt.value <= o.updatedAt)
    && (o.average.Some? ==> 0.0 <= o.average.value <= 1.0)
    && (o.status in {Created, Submitting, Acknowledged, Rejected, Expired} ==> o.filled == 0.0)
    && (o.status == PartiallyFilled ==> 0.0 < o.filled < o.requested)
    && (o.status == Filled ==> o.filled == o.requested)
    && (o.filled > 0.0 <==> o.average.Some?)
    && (o.status in {Acknowledged, PartiallyFilled, Filled} ==> o.exchangeId.Some?)
    && (o.status == Acknowledged ==> o.acknowledgedAt.Some?)
  }

  datatype ExecutionError =
    | NotPaper
    | SafetyGateDenied
    | PlanExpired
    | EvidenceNotUnique
    | EvidenceMismatch
    | FillExceedsRequest
    | OrderNotAccepted

  datatype Ledger = Ledger(orders: seq<OrderState>, fills: seq<Fill>)

  datatype Execution = Execution(planId: string, key: string, ledger: Ledger, recordedAt: int)

  // ---------------------------------------------------------------- orders and fills of one plan

  function StatusOf(filled: real, requested: real): OrderStatus {
    if filled == 0.0 then Acknowledged else if filled == requested then Filled else PartiallyFilled
  }

  function OrderOf(i: Intent, e: Evidence, now: int): OrderState {
    OrderState(i.clientId, StatusOf(e.filled, i.quantity), i.quantity, e.filled, now, e.recvTs,
               Some("paper:" + i.clientId), Some(now), e.averagePrice)
  }

  function FillOf(i: Intent, e: Evidence): Fill
    requires e.averagePrice.Some?
  {
    Fill("fill:" + i.clientId, "paper:" + i.clientId, i.clientId, i.tokenId, i.side, e.filled, e.averagePrice.value,
         e.fee, e.sourceTs, e.recvTs)
  }

  function ById(es: seq<Evidence>): (r: map<string, Evidence>) {
    if es == [] then map[] else ById(es[..|es| - 1])[es[|es| - 1].clientId := es[|es| - 1]]
  }

  lemma {:induction false} ByIdHas(es: seq<Evidence>, id: string)
    ensures id in ById(es) <==> exists k :: 0 <= k < |es| && es[k].clientId == id
    ensures id in ById(es) ==> ById(es)[id] in es && ById(es)[id].clientId == id
  {
    if es != [] {
      var front := es[..|es| - 1];
      ByIdHas(front, id);
      assert forall k :: 0 <= k < |front| ==> es[k] == front[k];
      if id in ById(front) {
        var k :| 0 <= k < |front| && front[k].clientId == id;
        assert es[k].clientId == id;
      }
    }
  }

  /** What one leg contributes, or why the loop refuses it. */
  function LegError(i: Intent, e: Evidence, now: int): Option<ExecutionError> {
    if e.filled > i.quantity then Some(FillExceedsRequest)
    else if e.recvTs < now then Some(OrderNotAccepted)
    else None
  }

  function AddLeg(l: Ledger, i: Intent, e: Evidence, now: int): Ledger {
    Ledger(l.orders + [OrderOf(i, e, now)], if e.averagePrice.Some? then l.fills + [FillOf(i, e)] else l.fills)
  }

  predicate Covers(intents: seq<Intent>, items: map<string, Evidence>) {
    forall k :: 0 <= k < |intents| ==> intents[k].clientId in items
  }

  function Legs(intents: seq<Intent>, items: map<string, Evidence>, now: int): Result<Ledger, ExecutionError>
    requires Covers(intents, items)
  {
    if intents == [] then Ok(Ledger([], []))
    else
      var front := Legs(intents[..|intents| - 1], items, now);
      var last := intents[|intents| - 1];
      if front.Err? then front
      else
        var error := LegError(last, items[last.clientId], now);
        if error.Some? then Err(error.value) else Ok(AddLeg(front.value, last, items[last.clientId], now))
  }

  function Ids(intents: seq<Intent>): set<string> {
    set k | 0 <= k < |intents| :: intents[k].clientId
  }

  function Refused(p: Plan, es: seq<Evidence>, now: int, kill: bool, reconciled: bool): Option<ExecutionError> {
    if kill || !reconciled then Some(SafetyGateDenied)
    else if now > p.expiresAt then Some(PlanExpired)
    else if |ById(es)| != |es| then Some(EvidenceNotUnique)
    else if ById(es).Keys != Ids(p.intents) then Some(EvidenceMismatch)
    else None
  }

  /** What a call computes before it writes. */
  function Computed(p: Plan, es: seq<Evidence>, now: int, kill: bool, reconciled: bool)
    : Result<Execution, ExecutionError>
  {
    var refused := Refused(p, es, now, kill, reconciled);
    if refused.Some? then Err(refused.value)
    else
      assert Covers(p.intents, ById(es)) by {
        forall k | 0 <= k < |p.intents| ensures p.intents[k].clientId in ById(es) {
          assert p.intents[k].clientId in Ids(p.intents);
        }
      }
      var legs := Legs(p.intents, ById(es), now);
      if legs.Err? then Err(legs.error) else Ok(Execution(p.planId, p.key, legs.value, now))
  }

  // ---------------------------------------------------------------- what the orders and fills satisfy

  /** Each order is its intent's, each fill belongs to one of the orders, and no two fills to the same. */
  predicate Matches(l: Ledger, intents: seq<Intent>, items: map<string, Evidence>, now: int) {
    && Covers(intents, items)
    && |l.orders| == |intents|
    && (forall k :: 0 <= k < |intents| ==>
          l.orders[k] == OrderOf(intents[k], items[intents[k].clientId], now)
          && LegError(intents[k], items[intents[k].clientId], now).None?)
  }

  lemma {:induction false} LegsMatch(intents: seq<Intent>, items: map<string, Evidence>, now: int)
    requires Covers(intents, items) && Legs(intents, items, now).Ok?
    ensures Matches(Legs(intents, items, now).value, intents, items, now)
  {
    if intents != [] {
      LegsMatch(intents[..|intents| - 1], items, now);
    }
  }

  lemma OrderIsAccepted(i: Intent, e: Evidence, now: int)
    requires i.quantity > 0.0 && ValidEvidence(e) && LegError(i, e, now).None?
    ensures AcceptedOrder(OrderOf(i, e, now))
  {
  }

  // ---------------------------------------------------------------- reconciliation

  datatype ReconcileError = FillsExceedRequest | ReconciledBeforeOrder

  function Matching(fills: seq<Fill>, clientId: string): seq<Fill> {
    if fills == [] then []
    else
      var front := Matching(fills[..|fills| - 1], clientId);
      if fills[|fills| - 1].clientId == clientId then front + [fills[|fills| - 1]] else front
  }

  function Quantity(fills: seq<Fill>): real {
    if fills == [] then 0.0 else Quantity(fills[..|fills| - 1]) + fills[|fills| - 1].quantity
  }

  function Value(fills: seq<Fill>): real {
    if fills == [] then 0.0
    else Value(fills[..|fills| - 1]) + fills[|fills| - 1].quantity * fills[|fills| - 1].price
  }

  function Fees(fills: seq<Fill>): real {
    if fills == [] then 0.0 else Fees(fills[..|fills| - 1]) + fills[|fills| - 1].fee
  }

  function Updated(o: OrderState, status: OrderStatus, filled: real, average: Option<real>, at: int): OrderState {
    o.(status := status, filled := filled, average := average, updatedAt := at)
  }

  function Reconcile(o: OrderState, fills: seq<Fill>, at: int, authoritative: bool)
    : Result<OrderState, ReconcileError>
  {
    var matching := Matching(fills, o.clientId);
    var quantity := Quantity(matching);
    if quantity > o.requested then Err(FillsExceedRequest)
    else if at < o.createdAt || (o.acknowledgedAt.Some? && at < o.acknowledgedAt.value) then Err(ReconciledBeforeOrder)
    else if !authoritative then Ok(Updated(o, UnknownOrderState, o.filled, o.average, at))
    else if quantity == 0.0 then Ok(Updated(o, Acknowledged, 0.0, None, at))
    else Ok(Updated(o, StatusOf(quantity, o.requested), quantity, Some(Value(matching) / quantity), at))
  }

  predicate FillsOf(fills: seq<Fill>, intents: seq<Intent>) {
    forall f :: f in fills ==> exists k :: 0 <= k < |intents| && intents[k].clientId == f.clientId
  }

  lemma {:induction false} NoFillsWithout(fills: seq<Fill>, clientId: string)
    requires forall f :: f in fills ==> f.clientId != clientId
    ensures Matching(fills, clientId) == []
  {
    if fills != [] {
      NoFillsWithout(fills[..|fills| - 1], clientId);
    }
  }

  lemma {:induction false} LegsFillTheirIntents(intents: seq<Intent>, items: map<string, Evidence>, now: int)
    requires Covers(intents, items) && Legs(intents, items, now).Ok?
    ensures FillsOf(Legs(intents, items, now).value.fills, intents)
  {
    if intents != [] {
      var front := intents[..|intents| - 1];
      LegsFillTheirIntents(front, items, now);
      forall f | f in Legs(intents, items, now).value.fills
        ensures exists k :: 0 <= k < |intents| && intents[k].clientId == f.clientId
      {
        if f in Legs(front, items, now).value.fills {
          var k :| 0 <= k < |front| && front[k].clientId == f.clientId;
          assert intents[k].clientId == f.clientId;
        } else {
          assert intents[|intents| - 1].clientId == f.clientId;
        }
      }
    }
  }

  /** The fills of one leg: its evidence as one fill, or none. */
  function Own(i: Intent, e: Evidence): seq<Fill> {
    if e.averagePrice.Some? then [FillOf(i, e)] else []
  }

  lemma MatchingAppend(fills: seq<Fill>, f: Fill, clientId: string)
    ensures Matching(fills + [f], clientId)
            == if f.clientId == clientId then Matching(fills, clientId) + [f] else Matching(fills, clientId)
  {
    assert (fills + [f])[..|fills|] == fills;
  }

  /** Among the fills produced, those of a leg are exactly its own. */
  lemma {:induction false} MatchingIsOwn(intents: seq<Intent>, items: map<string, Evidence>, now: int, k: nat)
    requires Covers(intents, items) && Legs(intents, items, now).Ok? && ValidIntents(intents) && k < |intents|
    ensures Matching(Legs(intents, items, now).value.fills, intents[k].clientId)
            == Own(intents[k], items[intents[k].clientId])
  {
    var n := |intents| - 1;
    var front, last, id := intents[..n], intents[n], intents[k].clientId;
    var fills := Legs(front, items, now).value.fills;
    var e := items[last.clientId];
    if e.averagePrice.Some? {
      MatchingAppend(fills, FillOf(last, e), id);
    }
    if k < n {
      MatchingIsOwn(front, items, now, k);
    } else {
      LegsFillTheirIntents(front, items, now);
      NoFillsWithout(fills, id);
      assert [] + Own(last, e) == Own(last, e);
    }
  }

  lemma OneFillAverages(f: Fill)
    requires f.quantity > 0.0
    ensures Quantity([f]) == f.quantity && Value([f]) / Quantity([f]) == f.price
  {
    assert [f][..0] == [];
    assert Value([f]) == f.quantity * f.price;
  }

  lemma OwnReconciles(i: Intent, e: Evidence, now: int, at: int, fills: seq<Fill>)
    requires i.quantity > 0.0 && ValidEvidence(e) && LegError(i, e, now).None?
    requires Matching(fills, i.clientId) == Own(i, e)
    ensures at >= now ==> Reconcile(OrderOf(i, e, now), fills, at, true) == Ok(OrderOf(i, e, now).(updatedAt := at))
    ensures at < now ==> Reconcile(OrderOf(i, e, now), fills, at, true) == Err(ReconciledBeforeOrder)
  {
    if e.averagePrice.Some? {
      OneFillAverages(FillOf(i, e));
    }
  }

  /**
   * Authoritative reconciliation of every order of a plan against the fills produced with it gives
   * the order back, its status, quantity and average price included, at any time from its creation on.
   */
  lemma ReconciliationReproducesOrders(
    p: Plan, es: seq<Evidence>, now: int, kill: bool, reconciled: bool, k: nat, at: int)
    requires ValidPlan(p) && AllValid(es) && Computed(p, es, now, kill, reconciled).Ok? && k < |p.intents|
    ensures var l := Computed(p, es, now, kill, reconciled).value.ledger;
            && |l.orders| == |p.intents| && AcceptedOrder(l.orders[k])
            && (at >= now ==> Reconcile(l.orders[k], l.fills, at, true) == Ok(l.orders[k].(updatedAt := at)))
            && (at < now ==> Reconcile(l.orders[k], l.fills, at, true) == Err(ReconciledBeforeOrder))
  {
    var items := ById(es);
    assert Covers(p.intents, items) by {
      forall j | 0 <= j < |p.intents| ensures p.intents[j].clientId in items {
        assert p.intents[j].clientId in Ids(p.intents);
      }
    }
    LegsMatch(p.intents, items, now);
    MatchingIsOwn(p.intents, items, now, k);
    ByIdHas(es, p.intents[k].clientId);
    OrderIsAccepted(p.intents[k], items[p.intents[k].clientId], now);
    OwnReconciles(p.intents[k], items[p.intents[k].clientId], now, at, Legs(p.intents, items, now).value.fills);
  }

  // ---------------------------------------------------------------- settlement

  datatype Settlement = Settlement(winner: Replay.Outcome, payout: real)

  function Gross(fills: seq<Fill>, perShare: real): real {
    if fills == [] then 0.0 else Gross(fills[..|fills| - 1], perShare) + fills[|fills| - 1].quantity * perShare
  }

  /** What a leg's fills realize: the payout of the winning outcome's shares, less their cost and fees. */
  function SettledPnl(fills: seq<Fill>, s: Settlement, outcome: Replay.Outcome): real {
    Gross(fills, if outcome == s.winner then s.payout else 0.0) - Cost(fills)
  }

  lemma {:induction false} GrossIs(fills: seq<Fill>, perShare: real)
    ensures Gross(fills, perShare) == Quantity(fills) * perShare
  {
    if fills != [] {
      GrossIs(fills[..|fills| - 1], perShare);
    }
  }

  function BothLegs(up: seq<Fill>, down: seq<Fill>, s: Settlement): real {
    SettledPnl(up, s, Replay.Up) + SettledPnl(down, s, Replay.Down)
  }

  function Cost(fills: seq<Fill>): real {
    Value(fills) + Fees(fills)
  }

  /** A total is the payout of some shares less a cost. */
  predicate Realizes(total: real, shares: real, payout: real, cost: real) {
    total == shares * payout - cost
  }

  lemma WinnerRealizes(fills: seq<Fill>, s: Settlement)
    ensures Realizes(SettledPnl(fills, s, s.winner), Quantity(fills), s.payout, Cost(fills))
  {
    GrossIs(fills, s.payout);
  }

  lemma LoserCosts(fills: seq<Fill>, s: Settlement, outcome: Replay.Outcome)
    requires outcome != s.winner
    ensures SettledPnl(fills, s, outcome) == -Cost(fills)
  {
    GrossIs(fills, 0.0);
  }

  lemma WithLoser(total: real, shares: real, payout: real, cost: real, loss: real)
    requires Realizes(total, shares, payout, cost)
    ensures Realizes(total - loss, shares, payout, cost + loss)
  {
  }

  /** The pair realizes the payout of the winning leg's shares, less the cost of both legs. */
  lemma PairRealizes(up: seq<Fill>, down: seq<Fill>, s: Settlement)
    ensures Realizes(BothLegs(up, down, s), if s.winner == Replay.Up then Quantity(up) else Quantity(down), s.payout,
                     Cost(up) + Cost(down))
  {
    if s.winner == Replay.Up {
      WinnerRealizes(up, s);
      LoserCosts(down, s, Replay.Down);
      WithLoser(SettledPnl(up, s, Replay.Up), Quantity(up), s.payout, Cost(up), Cost(down));
    } else {
      WinnerRealizes(down, s);
      LoserCosts(up, s, Replay.Up);
      WithLoser(SettledPnl(down, s, Replay.Down), Quantity(down), s.payout, Cost(down), Cost(up));
    }
  }

  /** Both legs together realize the same whichever outcome wins exactly when they hold equal shares. */
  lemma PairIsOutcomeIndependent(up: seq<Fill>, down: seq<Fill>, payout: real)
    ensures BothLegs(up, down, Settlement(Replay.Up, payout)) == BothLegs(up, down, Settlement(Replay.Down, payout))
            <==> payout == 0.0 || Quantity(up) == Quantity(down)
  {
    var ifUp, ifDown := Settlement(Replay.Up, payout), Settlement(Replay.Down, payout);
    PairRealizes(up, down, ifUp);
    PairRealizes(up, down, ifDown);
    SameDifference(BothLegs(up, down, ifUp), BothLegs(up, down, ifDown), Quantity(up), Quantity(down), payout,
                   Cost(up) + Cost(down));
  }

  lemma SameDifference(up: real, down: real, upShares: real, downShares: real, payout: real, cost: real)
    requires Realizes(up, upShares, payout, cost) && Realizes(down, downShares, payout, cost)
    ensures up == down <==> payout == 0.0 || upShares == downShares
  {
    SameProduct(upShares, downShares, payout);
  }

  lemma SameProduct(x: real, y: real, z: real)
    ensures x * z == y * z <==> z == 0.0 || x == y
  {
    assert x * z - y * z == (x - y) * z;
  }

  // ---------------------------------------------------------------- concurrent calls

  /** One answered call, with the flag that says it was answered from the table alone. */
  datatype Answer = Answer(execution: Execution, duplicate: bool)

  /** The executions and audit tables, the calls that have computed but not yet written, and the answers. */
  datatype World = World(
    rows: map<string, Execution>, audit: map<string, Execution>, pending: map<nat, Execution>, answers: seq<Answer>)

  datatype Step =
    | Begin(call: nat, plan: Plan, evidence: seq<Evidence>, now: int, kill: bool, reconciled: bool)
    | Write(call: nat)

  function InsertOrIgnore(table: map<string, Execution>, key: string, e: Execution): map<string, Execution> {
    if key in table then table else table[key := e]
  }

  function AuditKey(key: string): string {
    "paper:" + key
  }

  function Next(w: World, s: Step): World {
    match s
    case Begin(call, plan, evidence, now, kill, reconciled) =>
      if !plan.paper || call in w.pending then w
      else if plan.key in w.rows then w.(answers := w.answers + [Answer(w.rows[plan.key], true)])
      else
        var computed := Computed(plan, evidence, now, kill, reconciled);
        if computed.Err? then w else w.(pending := w.pending[call := computed.value])
    case Write(call) =>
      if call !in w.pending then w else Written(w, call, w.pending[call])
  }

  /** Insert unless there is a row, then answer with whatever row there is. */
  function Written(w: World, call: nat, e: Execution): World {
    var rows := InsertOrIgnore(w.rows, e.key, e);
    World(rows, InsertOrIgnore(w.audit, AuditKey(e.key), e), w.pending - {call},
          w.answers + [Answer(rows[e.key], false)])
  }

  function Run(w: World, steps: seq<Step>): World
    decreases |steps|
  {
    if steps == [] then w else Run(Next(w, steps[0]), steps[1..])
  }

  const START: World := World(map[], map[], map[], [])

  /** Every answer is the row of its key; each row has one audit event, of the same execution. */
  predicate Inv(w: World) {
    && (forall i :: 0 <= i < |w.answers| ==> RowOf(w.rows, w.answers[i].execution))
    && (forall k :: k in w.rows ==> w.rows[k].key == k && AuditKey(k) in w.audit && w.audit[AuditKey(k)] == w.rows[k])
    && (forall a :: a in w.audit ==> a == AuditKey(w.audit[a].key) && RowOf(w.rows, w.audit[a]))
  }

  predicate RowOf(rows: map<string, Execution>, e: Execution) {
    e.key in rows && rows[e.key] == e
  }

  predicate Grows(rows: map<string, Execution>, later: map<string, Execution>) {
    forall k :: k in rows ==> k in later && later[k] == rows[k]
  }

  lemma AuditKeysDiffer(k: string, l: string)
    requires AuditKey(k) == AuditKey(l)
    ensures k == l
  {
    assert AuditKey(k)[6..] == k && AuditKey(l)[6..] == l;
  }

  lemma WrittenKeepsInv(w: World, call: nat, e: Execution)
    requires Inv(w)
    ensures Inv(Written(w, call, e)) && Grows(w.rows, Written(w, call, e).rows)
  {
    var v := Written(w, call, e);
    forall k | k in v.rows
      ensures v.rows[k].key == k && AuditKey(k) in v.audit && v.audit[AuditKey(k)] == v.rows[k]
    {
      if AuditKey(k) == AuditKey(e.key) {
        AuditKeysDiffer(k, e.key);
      }
      if AuditKey(e.key) in w.audit {
        AuditKeysDiffer(w.audit[AuditKey(e.key)].key, e.key);
      }
    }
    forall a | a in v.audit ensures a == AuditKey(v.audit[a].key) && RowOf(v.rows, v.audit[a]) {
    }
  }

  lemma NextKeepsInv(w: World, s: Step)
    requires Inv(w)
    ensures Inv(Next(w, s)) && Grows(w.rows, Next(w, s).rows)
  {
    if s.Write? && s.call in w.pending {
      WrittenKeepsInv(w, s.call, w.pending[s.call]);
    }
  }

  /** Whatever the interleaving, a row never changes once written. */
  lemma {:induction false} RunKeepsInv(w: World, steps: seq<Step>)
    requires Inv(w)
    ensures Inv(Run(w, steps)) && Grows(w.rows, Run(w, steps).rows)
    decreases |steps|
  {
    if steps != [] {
      NextKeepsInv(w, steps[0]);
      RunKeepsInv(Next(w, steps[0]), steps[1..]);
    }
  }

  /** All calls for one idempotency key are answered with the same execution, the first one written. */
  lemma AnswersAgree(steps: seq<Step>, i: nat, j: nat)
    requires i < |Run(START, steps).answers| && j < |Run(START, steps).answers|
    requires Run(START, steps).answers[i].execution.key == Run(START, steps).answers[j].execution.key
    ensures Run(START, steps).answers[i].execution == Run(START, steps).answers[j].execution
  {
    RunKeepsInv(START, steps);
  }

  /** The flag does not single out the call that was recorded: two racing calls are both answered as first. */
  lemma BothRacersLookFirst(
    p: Plan, es: seq<Evidence>, q: Plan, fs: seq<Evidence>, now: int, later: int, first: nat, second: nat)
    requires p.paper && q.paper && p.key == q.key && first != second
    requires Computed(p, es, now, false, true).Ok? && Computed(q, fs, later, false, true).Ok?
    ensures var e := Computed(p, es, now, false, true).value;
            Run(START, [Begin(first, p, es, now, false, true), Begin(second, q, fs, later, false, true),
                        Write(first), Write(second)]).answers
            == [Answer(e, false), Answer(e, false)]
  {
    var e, f := Computed(p, es, now, false, true).value, Computed(q, fs, later, false, true).value;
    var s1, s2 := Begin(first, p, es, now, false, true), Begin(second, q, fs, later, false, true);
    var w1 := Next(START, s1);
    var w2 := Next(w1, s2);
    assert w2.rows == map[] && w2.pending[first] == e && w2.pending[second] == f && w2.answers == [];
    var w3 := Next(w2, Write(first));
    assert w3.answers == [Answer(e, false)] && w3.rows[e.key] == e && w3.pending[second] == f && f.key == e.key;
    var w4 := Next(w3, Write(second));
    assert w4.answers == [Answer(e, false), Answer(e, false)];
    RunsFour(START, s1, s2, Write(first), Write(second));
  }

  /** No two calls for one key are answered as first. */
  predicate FirstOnce(answers: seq<Answer>) {
    forall i, j :: 0 <= i < j < |answers| && !answers[i].duplicate && !answers[j].duplicate ==>
      answers[i].execution.key != answers[j].execution.key
  }

  /** A write that comes after another call's, for the same key. */
  predicate FindsRow(w: World, s: Step) {
    s.Write? && s.call in w.pending && w.pending[s.call].key in w.rows
  }

  predicate NoWriteFindsRow(w: World, steps: seq<Step>)
    decreases |steps|
  {
    steps != [] ==> !FindsRow(w, steps[0]) && NoWriteFindsRow(Next(w, steps[0]), steps[1..])
  }

  predicate AnsweredFirst(answers: seq<Answer>, key: string) {
    exists i :: 0 <= i < |answers| && !answers[i].duplicate && answers[i].execution.key == key
  }

  /** A pending call that has lost the race lost it to one that was answered as first. */
  predicate LosersKnown(w: World) {
    forall c :: c in w.pending && w.pending[c].key in w.rows ==> AnsweredFirst(w.answers, w.pending[c].key)
  }

  lemma AnsweredStays(answers: seq<Answer>, a: Answer, key: string)
    requires AnsweredFirst(answers, key)
    ensures AnsweredFirst(answers + [a], key)
  {
    var i :| 0 <= i < |answers| && !answers[i].duplicate && answers[i].execution.key == key;
    assert (answers + [a])[i] == answers[i];
  }

  lemma {:induction false} AnswersGrow(w: World, steps: seq<Step>)
    ensures w.answers <= Run(w, steps).answers
    decreases |steps|
  {
    if steps != [] {
      AnswersGrow(Next(w, steps[0]), steps[1..]);
    }
  }

  lemma SecondFirst(w: World, s: Step)
    requires Inv(w) && LosersKnown(w) && FindsRow(w, s)
    ensures !FirstOnce(Next(w, s).answers)
  {
    var key := w.pending[s.call].key;
    var i :| 0 <= i < |w.answers| && !w.answers[i].duplicate && w.answers[i].execution.key == key;
    var answers := Next(w, s).answers;
    assert answers[i] == w.answers[i] && answers[|w.answers|].execution == w.rows[key];
  }

  lemma LosersStayKnown(w: World, s: Step)
    requires Inv(w) && LosersKnown(w)
    ensures LosersKnown(Next(w, s))
  {
    var v := Next(w, s);
    forall c | c in v.pending && v.pending[c].key in v.rows ensures AnsweredFirst(v.answers, v.pending[c].key) {
      var key := v.pending[c].key;
      if key in w.rows && c in w.pending && v.answers != w.answers {
        AnsweredStays(w.answers, v.answers[|w.answers|], key);
      } else if key !in w.rows {
        assert v.answers[|w.answers|].execution.key == key && !v.answers[|w.answers|].duplicate;
      }
    }
  }

  lemma FirstStaysOnce(w: World, s: Step)
    requires Inv(w) && FirstOnce(w.answers) && !FindsRow(w, s)
    ensures FirstOnce(Next(w, s).answers)
  {
    forall i | 0 <= i < |w.answers| ensures w.answers[i].execution.key in w.rows {
      assert RowOf(w.rows, w.answers[i].execution);
    }
  }

  lemma {:induction false} FirstOnceIff(w: World, steps: seq<Step>)
    requires Inv(w) && LosersKnown(w) && FirstOnce(w.answers)
    ensures FirstOnce(Run(w, steps).answers) <==> NoWriteFindsRow(w, steps)
    decreases |steps|
  {
    if steps != [] {
      var v := Next(w, steps[0]);
      if FindsRow(w, steps[0]) {
        SecondFirst(w, steps[0]);
        AnswersGrow(v, steps[1..]);
      } else {
        NextKeepsInv(w, steps[0]);
        LosersStayKnown(w, steps[0]);
        FirstStaysOnce(w, steps[0]);
        FirstOnceIff(v, steps[1..]);
      }
    }
  }

  /** A process has started over a table: nothing is pending, and nothing has been answered. */
  predicate Started(w: World) {
    Inv(w) && w.pending == map[] && w.answers == []
  }

  /** Exactly when the flag is right: each key is answered as first at most once iff no write finds its row there. */
  lemma FlagIsRightExactlyWhen(w: World, steps: seq<Step>)
    requires Started(w)
    ensures FirstOnce(Run(w, steps).answers) <==> NoWriteFindsRow(w, steps)
  {
    FirstOnceIff(w, steps);
  }

  /** No call for a key begins while another call for that key is pending. */
  predicate OneAtATime(w: World, steps: seq<Step>)
    decreases |steps|
  {
    steps != [] ==>
      && (steps[0].Begin? ==> forall c :: c in w.pending ==> w.pending[c].key != steps[0].plan.key)
      && OneAtATime(Next(w, steps[0]), steps[1..])
  }

  predicate Alone(w: World) {
    && (forall c :: c in w.pending ==> w.pending[c].key !in w.rows)
    && (forall c, d :: c in w.pending && d in w.pending && c != d ==> w.pending[c].key != w.pending[d].key)
  }

  lemma {:induction false} AloneFindsNoRow(w: World, steps: seq<Step>)
    requires Alone(w) && OneAtATime(w, steps)
    ensures NoWriteFindsRow(w, steps)
    decreases |steps|
  {
    if steps != [] {
      AloneFindsNoRow(Next(w, steps[0]), steps[1..]);
    }
  }

  /** What a caller can do: with the calls of each key one at a time, the flag is right. */
  lemma FlagIsRightOneAtATime(w: World, steps: seq<Step>)
    requires Started(w) && OneAtATime(w, steps)
    ensures FirstOnce(Run(w, steps).answers)
  {
    AloneFindsNoRow(w, steps);
    FlagIsRightExactlyWhen(w, steps);
  }

  lemma RunsFour(w: World, a: Step, b: Step, c: Step, d: Step)
    ensures Run(w, [a, b, c, d]) == Next(Next(Next(Next(w, a), b), c), d)
  {
    assert [a, b, c, d][1..] == [b, c, d] && [b, c, d][1..] == [c, d] && [c, d][1..] == [d] && [d][1..] == [];
    var w1 := Next(w, a);
    var w2 := Next(w1, b);
    var w3 := Next(w2, c);
    assert Run(w3, [d]) == Run(Next(w3, d), []) == Next(w3, d);
    assert Run(w2, [c, d]) == Run(w3, [d]);
    assert Run(w1, [b, c, d]) == Run(w2, [c, d]);
  }

  /** A call with no other in between: what its two steps come to. */
  lemma OneCall(
    rows: map<string, Execution>, audit: map<string, Execution>, p: Plan, es: seq<Evidence>, now: int, kill: bool,
    reconciled: bool)
    requires p.paper
    ensures Run(World(rows, audit, map[], []), [Begin(0, p, es, now, kill, reconciled), Write(0)])
            == if p.key in rows then World(rows, audit, map[], [Answer(rows[p.key], true)])
               else
                 match Computed(p, es, now, kill, reconciled)
                 case Err(_) => World(rows, audit, map[], [])
                 case Ok(e) =>
                   World(rows[p.key := e], InsertOrIgnore(audit, AuditKey(p.key), e), map[], [Answer(e, false)])
  {
    var w := World(rows, audit, map[], []);
    var begin := Begin(0, p, es, now, kill, reconciled);
    var w1 := Next(w, begin);
    assert [begin, Write(0)][1..] == [Write(0)] && [Write(0)][1..] == [];
    assert Run(w1, [Write(0)]) == Run(Next(w1, Write(0)), []) == Next(w1, Write(0));
    if p.key !in rows && Computed(p, es, now, kill, reconciled).Ok? {
      var e := Computed(p, es, now, kill, reconciled).value;
      assert w1.pending == map[0 := e] && w1.pending - {0} == map[];
    }
  }

  // ---------------------------------------------------------------- the gateway

  class PaperGateway {
    var rows: map<string, Execution>
    var audit: map<string, Execution>

    constructor ()
      ensures rows == map[] && audit == map[]
    {
      rows, audit := map[], map[];
    }

    /** One call from its first read to its answer, with no other call in between. */
    method Execute(p: Plan, es: seq<Evidence>, now: int, kill: bool, reconciled: bool)
      returns (r: Result<Answer, ExecutionError>)
      requires ValidPlan(p) && AllValid(es)
      modifies this
      ensures !p.paper ==> r == Err(NotPaper) && rows == old(rows) && audit == old(audit)
      ensures p.paper && p.key in old(rows) ==>
                r == Ok(Answer(old(rows)[p.key], true)) && rows == old(rows) && audit == old(audit)
      ensures p.paper && p.key !in old(rows) ==>
                match Computed(p, es, now, kill, reconciled)
                case Err(error) => r == Err(error) && rows == old(rows) && audit == old(audit)
                case Ok(e) =>
                  r == Ok(Answer(e, false)) && rows == old(rows)[p.key := e]
                  && audit == InsertOrIgnore(old(audit), AuditKey(p.key), e)
    {
      if !p.paper {
        return Err(NotPaper);
      }
      if p.key in rows {
        return Ok(Answer(rows[p.key], true));
      }
      var refused := Refused(p, es, now, kill, reconciled);
      if refused.Some? {
        return Err(refused.value);
      }
      var items := ById(es);
      forall k | 0 <= k < |p.intents| ensures p.intents[k].clientId in items {
        assert p.intents[k].clientId in Ids(p.intents);
      }
      var legs := BuildLegs(p.intents, items, now);
      if legs.Err? {
        return Err(legs.error);
      }
      var e := Execution(p.planId, p.key, legs.value, now);
      rows := rows[p.key := e];
      audit := InsertOrIgnore(audit, AuditKey(p.key), e);
      r := Ok(Answer(rows[p.key], false));
    }
  }

  method BuildLegs(intents: seq<Intent>, items: map<string, Evidence>, now: int)
    returns (r: Result<Ledger, ExecutionError>)
    requires Covers(intents, items)
    ensures r == Legs(intents, items, now)
  {
    var l := Ledger([], []);
    for k := 0 to |intents|
      invariant Legs(intents[..k], items, now) == Ok(l)
    {
      var item := items[intents[k].clientId];
      assert intents[..k + 1][..k] == intents[..k];
      if item.filled > intents[k].quantity {
        LaterLegsStayRefused(intents, items, now, k + 1);
        return Err(FillExceedsRequest);
      }
      if item.recvTs < now {
        LaterLegsStayRefused(intents, items, now, k + 1);
        return Err(OrderNotAccepted);
      }
      l := AddLeg(l, intents[k], item, now);
    }
    assert intents[..|intents|] == intents;
    r := Ok(l);
  }

  lemma {:induction false} LaterLegsStayRefused(intents: seq<Intent>, items: map<string, Evidence>, now: int, k: nat)
    requires Covers(intents, items) && k <= |intents| && Legs(intents[..k], items, now).Err?
    ensures Legs(intents, items, now) == Legs(intents[..k], items, now)
    decreases |intents|
  {
    if k < |intents| {
      var front := intents[..|intents| - 1];
      assert front[..k] == intents[..k];
      LaterLegsStayRefused(front, items, now, k);
    } else {
      assert intents[..k] == intents;
    }
  }
}
