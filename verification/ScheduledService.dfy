/**
 * The boundary scheduler and the price-to-beat service as one machine: an attempt is answered with
 * what a resolution of the service came to, and a restart loses both machines' memory but neither
 * table. What is proved is that the durable event of a window tells the truth about the service.
 */
module ScheduledService {
  import opened Common
  import opened Canonical
  import opened PtbRepository
  import opened PtbService
  import PtbServiceLaws
  import Scheduler

  datatype System = System(service: World, scheduler: Scheduler.World)

  datatype Action =
    | Serve(step: Step)
    | Schedule(decision: Scheduler.Step)
    | Deliver(key: Scheduler.Key, now: int, id: nat, error: string)
    | Crash

  /** How an outcome of the service reaches the task that asked: the errors it raises are expected ones. */
  function ReplyOf(m: Market, o: Outcome, error: string): Scheduler.Reply {
    match o
    case Ready(record, _) => Scheduler.Resolved(m, Some(record))
    case Unavailable(_) => Scheduler.Resolved(m, None)
    case Raised(_) => Scheduler.ExpectedFailure(error)
  }

  function BucketOf(m: Market): Bucket {
    Bucket(m.asset, m.horizon)
  }

  /** A finished resolution of a market of the window's bucket, which is all that discovery makes sure of. */
  predicate Deliverable(w: World, id: nat, k: Scheduler.Key) {
    id in w.tasks && w.tasks[id].Finished? && BucketOf(w.tasks[id].market) == k.bucket
  }

  /** Only such a resolution is delivered. */
  function Act(y: System, a: Action, policy: Policy, c: Scheduler.Config): System {
    match a
    case Serve(s) => y.(service := Next(y.service, s, policy))
    case Schedule(s) => y.(scheduler := Scheduler.Next(y.scheduler, s, c))
    case Deliver(k, now, id, error) =>
      if !Deliverable(y.service, id, k) then y
      else
        var reply := ReplyOf(y.service.tasks[id].market, y.service.tasks[id].outcome, error);
        y.(scheduler := Scheduler.Next(y.scheduler, Scheduler.Answer(k, now, reply), c))
    case Crash => System(Next(y.service, Restart, policy), Scheduler.Start(y.scheduler.store))
  }

  function Acts(y: System, actions: seq<Action>, policy: Policy, c: Scheduler.Config): System
    decreases |actions|
  {
    if actions == [] then y else Acts(Act(y, actions[0], policy, c), actions[1..], policy, c)
  }

  /** Markets come from their constructor, and no resolution comes from anywhere but the service. */
  predicate Genuine(a: Action) {
    && (a.Serve? && a.step.Begin? ==> ValidMarket(a.step.market))
    && (a.Schedule? && a.decision.Answer? ==> !a.decision.reply.Resolved?)
  }

  predicate AllGenuine(actions: seq<Action>) {
    forall i :: 0 <= i < |actions| ==> Genuine(actions[i])
  }

  const FIRST_BOOT := System(START, Scheduler.Start(map[]))

  // ---------------------------------------------------------------- what every action keeps

  /** Every readiness a resolution ended with has been reported. */
  predicate Reported(w: World) {
    forall id :: id in w.tasks && w.tasks[id].Finished? && w.tasks[id].outcome.Ready? ==>
      ReadyEntry(w.tasks[id].market, w.tasks[id].outcome.record) in w.ready
  }

  lemma NextKeepsReported(w: World, s: Step, policy: Policy)
    requires Reported(w)
    ensures Reported(Next(w, s, policy))
  {
    var v := Next(w, s, policy);
    forall id | id in v.tasks && v.tasks[id].Finished? && v.tasks[id].outcome.Ready?
      ensures ReadyEntry(v.tasks[id].market, v.tasks[id].outcome.record) in v.ready
    {
      if id in w.tasks && w.tasks[id] == v.tasks[id] {
        assert ReadyEntry(w.tasks[id].market, w.tasks[id].outcome.record) in w.ready;
      } else {
        assert v.ready[|v.ready| - 1] == ReadyEntry(v.tasks[id].market, v.tasks[id].outcome.record);
      }
    }
  }

  /** A readiness the scheduler speaks of is one the service has reported. */
  predicate ReplyBacked(k: Scheduler.Key, r: Scheduler.Reply, ready: seq<ReadyEntry>) {
    r.Resolved? && r.record.Some? ==> ReadyEntry(r.market, r.record.value) in ready && BucketOf(r.market) == k.bucket
  }

  predicate EventBacked(k: Scheduler.Key, e: Scheduler.Event, ready: seq<ReadyEntry>) {
    e.verdict == Scheduler.PtbReady ==>
      && e.result.Some? && e.result.value.Resolved? && e.result.value.record.Some?
      && ReplyBacked(k, e.result.value, ready)
  }

  /** The events added to a table are backed, and those already there stay. */
  predicate AddsBacked(
    prior: map<Scheduler.Key, Scheduler.Event>, later: map<Scheduler.Key, Scheduler.Event>, ready: seq<ReadyEntry>)
  {
    && (forall k :: k in prior ==> k in later && later[k] == prior[k])
    && (forall k :: k in later && k !in prior ==> EventBacked(k, later[k], ready))
  }

  lemma {:induction false} DetectAllAddsBacked(
    w: Scheduler.World, bs: seq<Bucket>, now: int, c: Scheduler.Config, ready: seq<ReadyEntry>)
    ensures AddsBacked(w.store, Scheduler.DetectAll(w, bs, now, c).store, ready)
    decreases |bs|
  {
    if bs != [] {
      DetectAllAddsBacked(w, bs[..|bs| - 1], now, c, ready);
    }
  }

  lemma NextAddsBacked(w: Scheduler.World, s: Scheduler.Step, c: Scheduler.Config, ready: seq<ReadyEntry>)
    requires s.Answer? ==> ReplyBacked(s.key, s.reply, ready)
    ensures AddsBacked(w.store, Scheduler.Next(w, s, c).store, ready)
  {
    if s.Tick? {
      DetectAllAddsBacked(w.(states := Scheduler.Prune(w.states, s.now)), SUPPORTED_BUCKETS, s.now, c, ready);
    }
  }

  ghost predicate SystemInv(y: System, policy: Policy) {
    && Inv(y.service, policy) && Reported(y.service)
    && forall k :: k in y.scheduler.store ==> EventBacked(k, y.scheduler.store[k], y.service.ready)
  }

  /** Neither a reported readiness nor a stored event is ever taken back. */
  predicate Remembers(y: System, z: System) {
    && y.service.ready <= z.service.ready
    && forall k :: k in y.scheduler.store ==> k in z.scheduler.store && z.scheduler.store[k] == y.scheduler.store[k]
  }

  lemma ActKeepsInv(y: System, a: Action, policy: Policy, c: Scheduler.Config)
    requires SystemInv(y, policy) && Genuine(a)
    ensures SystemInv(Act(y, a, policy, c), policy) && Remembers(y, Act(y, a, policy, c))
  {
    match a
    case Serve(s) =>
      NextKeepsInv(y.service, s, policy);
      NextKeepsReported(y.service, s, policy);
    case Schedule(s) =>
      NextAddsBacked(y.scheduler, s, c, y.service.ready);
    case Deliver(k, now, id, error) =>
      if Deliverable(y.service, id, k) {
        var reply := ReplyOf(y.service.tasks[id].market, y.service.tasks[id].outcome, error);
        NextAddsBacked(y.scheduler, Scheduler.Answer(k, now, reply), c, y.service.ready);
      }
    case Crash =>
      NextKeepsInv(y.service, Restart, policy);
  }

  lemma {:induction false} ActsKeepInv(y: System, actions: seq<Action>, policy: Policy, c: Scheduler.Config)
    requires SystemInv(y, policy) && AllGenuine(actions)
    ensures SystemInv(Acts(y, actions, policy, c), policy) && Remembers(y, Acts(y, actions, policy, c))
    decreases |actions|
  {
    if actions != [] {
      ActKeepsInv(y, actions[0], policy, c);
      ActsKeepInv(Act(y, actions[0], policy, c), actions[1..], policy, c);
    }
  }

  // ---------------------------------------------------------------- the durable event tells the truth

  /** What a stored readiness promises of the service, in this state. */
  predicate HonouredBy(e: Scheduler.Event, w: World, id: nat, observedAt: int, policy: Policy)
    requires e.result.Some? && e.result.value.Resolved? && e.result.value.record.Some?
  {
    var m, r := e.result.value.market, e.result.value.record.value;
    && (CanonicalSource(m) ==> BoundaryProven(m.windowStart, m.horizon, RowOf(r), policy))
    && (id !in w.tasks && m.windowStart <= observedAt < m.windowEnd ==>
          var v := Next(w, Begin(id, m, observedAt), policy);
          id in v.tasks && v.tasks[id] == Finished(m, Ready(r, true)))
  }

  /**
   * Over every run of both machines, crashes included: an event stored as ready stays as it is and
   * carries the record that any later resolution of that market inside its window comes to.
   */
  lemma ReadyEventIsHonoured(
    before: seq<Action>, after: seq<Action>, k: Scheduler.Key, id: nat, observedAt: int, policy: Policy,
    c: Scheduler.Config)
    requires AllGenuine(before) && AllGenuine(after)
    ensures var y := Acts(FIRST_BOOT, before, policy, c);
            var z := Acts(y, after, policy, c);
            k in y.scheduler.store && y.scheduler.store[k].verdict == Scheduler.PtbReady ==>
              var e := y.scheduler.store[k];
              && k in z.scheduler.store && z.scheduler.store[k] == e
              && e.result.Some? && e.result.value.Resolved? && e.result.value.record.Some?
              && BucketOf(e.result.value.market) == k.bucket
              && HonouredBy(e, z.service, id, observedAt, policy)
  {
    var y := Acts(FIRST_BOOT, before, policy, c);
    ActsKeepInv(FIRST_BOOT, before, policy, c);
    ActsKeepInv(y, after, policy, c);
    if k in y.scheduler.store && y.scheduler.store[k].verdict == Scheduler.PtbReady {
      var reply := y.scheduler.store[k].result.value;
      var z := Acts(y, after, policy, c);
      ReportedIsHonoured(z.service, ReadyEntry(reply.market, reply.record.value), id, observedAt, policy);
    }
  }

  lemma ReportedIsHonoured(w: World, e: ReadyEntry, id: nat, observedAt: int, policy: Policy)
    requires Inv(w, policy) && e in w.ready
    ensures CanonicalSource(e.market) ==>
              BoundaryProven(e.market.windowStart, e.market.horizon, RowOf(e.record), policy)
    ensures id !in w.tasks && e.market.windowStart <= observedAt < e.market.windowEnd ==>
              var v := Next(w, Begin(id, e.market, observedAt), policy);
              id in v.tasks && v.tasks[id] == Finished(e.market, Ready(e.record, true))
  {
    assert EntryStored(w.rows, e) && EntryTimely(e, policy);
    assert RowProven(KeyOf(e.market), w.rows[KeyOf(e.market)], policy);
    StoredIsProven(e.market, w.rows[KeyOf(e.market)], policy);
    if id !in w.tasks {
      PtbServiceLaws.BeginRestores(w, e.market, id, observedAt, policy);
    }
  }

  // ---------------------------------------------------------------- events of their own windows

  /** The stored readiness of a window is of a market of that window. */
  predicate OfItsWindow(k: Scheduler.Key, e: Scheduler.Event) {
    e.verdict == Scheduler.PtbReady ==>
      && e.result.Some? && e.result.value.Resolved?
      && e.result.value.market.windowStart == k.windowStart
  }

  predicate AllOfTheirWindows(store: map<Scheduler.Key, Scheduler.Event>) {
    forall k :: k in store ==> OfItsWindow(k, store[k])
  }

  /** A delivery that stores a readiness, the first event of its window. */
  predicate StoresReadiness(y: System, a: Action) {
    && a.Deliver? && Deliverable(y.service, a.id, a.key)
    && y.service.tasks[a.id].outcome.Ready?
    && a.key in y.scheduler.tasks && y.scheduler.tasks[a.key].phase.Waiting?
    && a.key !in y.scheduler.store
  }

  /** Such a delivery is of a market of the window. */
  predicate Matches(y: System, a: Action) {
    StoresReadiness(y, a) ==> y.service.tasks[a.id].market.windowStart == a.key.windowStart
  }

  predicate AllMatch(y: System, actions: seq<Action>, policy: Policy, c: Scheduler.Config)
    decreases |actions|
  {
    actions != [] ==> Matches(y, actions[0]) && AllMatch(Act(y, actions[0], policy, c), actions[1..], policy, c)
  }

  predicate AddsNoReadiness(
    prior: map<Scheduler.Key, Scheduler.Event>, later: map<Scheduler.Key, Scheduler.Event>)
  {
    && (forall k :: k in prior ==> k in later && later[k] == prior[k])
    && (forall k :: k in later && k !in prior ==> later[k].verdict != Scheduler.PtbReady)
  }

  lemma {:induction false} DetectAllAddsNoReadiness(
    w: Scheduler.World, bs: seq<Bucket>, now: int, c: Scheduler.Config)
    ensures AddsNoReadiness(w.store, Scheduler.DetectAll(w, bs, now, c).store)
    decreases |bs|
  {
    if bs != [] {
      DetectAllAddsNoReadiness(w, bs[..|bs| - 1], now, c);
    }
  }

  lemma UnreadyStepAddsNoReadiness(w: Scheduler.World, s: Scheduler.Step, c: Scheduler.Config)
    requires s.Answer? && s.reply.Resolved? ==> s.reply.record.None?
    ensures AddsNoReadiness(w.store, Scheduler.Next(w, s, c).store)
  {
    if s.Tick? {
      DetectAllAddsNoReadiness(w.(states := Scheduler.Prune(w.states, s.now)), SUPPORTED_BUCKETS, s.now, c);
    }
  }

  /** A delivered readiness is stored under its window, unless the window has an event. */
  lemma ReadyAnswerStores(w: Scheduler.World, k: Scheduler.Key, now: int, reply: Scheduler.Reply, c: Scheduler.Config)
    requires reply.Resolved? && reply.record.Some?
    ensures var v := Scheduler.Next(w, Scheduler.Answer(k, now, reply), c);
            if k in w.tasks && w.tasks[k].phase.Waiting? && k !in w.store then
              && k in v.store && v.store == w.store[k := v.store[k]]
              && v.store[k].verdict == Scheduler.PtbReady && v.store[k].result == Some(reply)
            else v.store == w.store
  {
  }

  /** What an action adds is of its window exactly when it matches. */
  lemma ActMatches(y: System, a: Action, policy: Policy, c: Scheduler.Config)
    requires Genuine(a) && AllOfTheirWindows(y.scheduler.store)
    ensures AllOfTheirWindows(Act(y, a, policy, c).scheduler.store) <==> Matches(y, a)
  {
    match a
    case Serve(s) =>
    case Crash =>
    case Schedule(s) => UnreadyStepAddsNoReadiness(y.scheduler, s, c);
    case Deliver(k, now, id, error) =>
      if Deliverable(y.service, id, k) {
        var reply := ReplyOf(y.service.tasks[id].market, y.service.tasks[id].outcome, error);
        if y.service.tasks[id].outcome.Ready? {
          ReadyAnswerStores(y.scheduler, k, now, reply, c);
        } else {
          UnreadyStepAddsNoReadiness(y.scheduler, Scheduler.Answer(k, now, reply), c);
        }
      }
  }

  lemma {:induction false} EventsFollowDeliveries(y: System, actions: seq<Action>, policy: Policy, c: Scheduler.Config)
    requires SystemInv(y, policy) && AllGenuine(actions) && AllOfTheirWindows(y.scheduler.store)
    ensures AllOfTheirWindows(Acts(y, actions, policy, c).scheduler.store) <==> AllMatch(y, actions, policy, c)
    decreases |actions|
  {
    if actions != [] {
      var z := Act(y, actions[0], policy, c);
      ActMatches(y, actions[0], policy, c);
      ActKeepsInv(y, actions[0], policy, c);
      if Matches(y, actions[0]) {
        EventsFollowDeliveries(z, actions[1..], policy, c);
      } else {
        ActsKeepInv(z, actions[1..], policy, c);
        var k :| k in z.scheduler.store && !OfItsWindow(k, z.scheduler.store[k]);
        assert !OfItsWindow(k, Acts(z, actions[1..], policy, c).scheduler.store[k]);
      }
    }
  }

  /**
   * Exactly when every stored readiness is of a market of its window: when each delivery that stores
   * one is. Nothing in the program compares the two.
   */
  lemma EventsAreOfTheirWindowsExactlyWhen(actions: seq<Action>, policy: Policy, c: Scheduler.Config)
    requires AllGenuine(actions)
    ensures AllOfTheirWindows(Acts(FIRST_BOOT, actions, policy, c).scheduler.store)
            <==> AllMatch(FIRST_BOOT, actions, policy, c)
  {
    EventsFollowDeliveries(FIRST_BOOT, actions, policy, c);
  }

  /** Then the stored readiness of a market with its official source is proven at the window's opening. */
  lemma MatchedEventIsProven(actions: seq<Action>, k: Scheduler.Key, policy: Policy, c: Scheduler.Config)
    requires AllGenuine(actions) && AllMatch(FIRST_BOOT, actions, policy, c)
    ensures var store := Acts(FIRST_BOOT, actions, policy, c).scheduler.store;
            k in store && store[k].verdict == Scheduler.PtbReady ==>
              && EventBacked(k, store[k], Acts(FIRST_BOOT, actions, policy, c).service.ready)
              && (CanonicalSource(store[k].result.value.market) ==>
                    BoundaryProven(k.windowStart, k.bucket.horizon, RowOf(store[k].result.value.record.value), policy))
  {
    var y := Acts(FIRST_BOOT, actions, policy, c);
    ActsKeepInv(FIRST_BOOT, actions, policy, c);
    EventsAreOfTheirWindowsExactlyWhen(actions, policy, c);
    var store := y.scheduler.store;
    if k in store && store[k].verdict == Scheduler.PtbReady {
      assert EventBacked(k, store[k], y.service.ready) && OfItsWindow(k, store[k]);
      var reply := store[k].result.value;
      ReportedIsHonoured(y.service, ReadyEntry(reply.market, reply.record.value), 0, reply.market.windowStart, policy);
    }
  }

  // ---------------------------------------------------------------- an event of another window

  /** A window that a scan has not touched, and one whose task it has started. */
  predicate Untouched(w: Scheduler.World, k: Scheduler.Key) {
    k !in w.states && k !in w.tasks && k !in w.store
  }

  predicate JustStarted(w: Scheduler.World, k: Scheduler.Key) {
    k in w.tasks && w.tasks[k].phase.AtHead? && k !in w.store
  }

  predicate InTime(k: Scheduler.Key, now: int, c: Scheduler.Config) {
    Scheduler.DueAt(k, c) <= now <= Scheduler.Deadline(k, c)
  }

  lemma {:induction false} ScanStarts(
    w: Scheduler.World, bs: seq<Bucket>, b: Bucket, now: int, c: Scheduler.Config)
    requires Untouched(w, Scheduler.KeyAt(b, now)) && InTime(Scheduler.KeyAt(b, now), now, c)
    ensures var v, k := Scheduler.DetectAll(w, bs, now, c), Scheduler.KeyAt(b, now);
            if b in bs then JustStarted(v, k) else Untouched(v, k)
    decreases |bs|
  {
    if bs != [] {
      ScanStarts(w, bs[..|bs| - 1], b, now, c);
      assert bs == bs[..|bs| - 1] + [bs[|bs| - 1]];
    }
  }

  lemma TickStarts(b: Bucket, now: int, c: Scheduler.Config)
    requires b in SUPPORTED_BUCKETS && InTime(Scheduler.KeyAt(b, now), now, c)
    ensures JustStarted(Scheduler.Next(Scheduler.Start(map[]), Scheduler.Tick(now), c), Scheduler.KeyAt(b, now))
  {
    var w := Scheduler.Start(map[]);
    assert w.(states := Scheduler.Prune(w.states, now)) == w;
    ScanStarts(w, SUPPORTED_BUCKETS, b, now, c);
  }

  lemma HeadWaits(w: Scheduler.World, k: Scheduler.Key, now: int, c: Scheduler.Config)
    requires JustStarted(w, k) && InTime(k, now, c)
    ensures var v := Scheduler.Next(w, Scheduler.Head(k, now), c);
            k in v.tasks && v.tasks[k].phase.Waiting? && k !in v.store
  {
  }

  /** A resolution that finds no row, supplied and read back. */
  lemma ThreeSteps(m: Market, e: Evidence, policy: Policy)
    requires Decide(m, e, policy).Ok?
    ensures var w := Next(Next(Next(START, Begin(0, m, m.windowStart), policy), Supply(0, e), policy), ReadBack(0),
                          policy);
            && 0 in w.tasks
            && w.tasks[0] == Finished(m, Ready(Rebuild(MarketIdentity(m), RowOf(Decide(m, e, policy).value)), false))
  {
    var w1 := Next(START, Begin(0, m, m.windowStart), policy);
    assert w1 == World(map[], map[0 := Awaiting(m)], []);
    var w2 := Next(w1, Supply(0, e), policy);
    assert w2.rows == map[PersistenceId(MarketIdentity(m)) := RowOf(Decide(m, e, policy).value)];
    assert w2.tasks == map[0 := Saving(m)];
  }

  /** The attempt for the current window is given the resolution of some market of its bucket. */
  function Misdelivery(m: Market, e: Evidence, k: Scheduler.Key, now: int): seq<Action> {
    [Serve(Begin(0, m, m.windowStart)), Serve(Supply(0, e)), Serve(ReadBack(0)),
     Schedule(Scheduler.Tick(now)), Schedule(Scheduler.Head(k, now)), Deliver(k, now, 0, "")]
  }

  lemma ActsOfSix(y: System, a: seq<Action>, policy: Policy, c: Scheduler.Config)
    requires |a| == 6
    ensures Acts(y, a, policy, c)
            == Act(Act(Act(Act(Act(Act(y, a[0], policy, c), a[1], policy, c), a[2], policy, c), a[3], policy, c),
                       a[4], policy, c), a[5], policy, c)
  {
    var y1 := Act(y, a[0], policy, c);
    var y2 := Act(y1, a[1], policy, c);
    var y3 := Act(y2, a[2], policy, c);
    ActsOfThree(y, a, policy, c);
    ActsOfThree(y3, a[3..], policy, c);
    assert a[3..][3..] == [];
  }

  lemma ActsOfThree(y: System, a: seq<Action>, policy: Policy, c: Scheduler.Config)
    requires |a| >= 3
    ensures Acts(y, a, policy, c)
            == Acts(Act(Act(Act(y, a[0], policy, c), a[1], policy, c), a[2], policy, c), a[3..], policy, c)
  {
    var y1 := Act(y, a[0], policy, c);
    var y2 := Act(y1, a[1], policy, c);
    assert a[1..][1..] == a[2..] && a[2..][1..] == a[3..];
    assert Acts(y1, a[1..], policy, c) == Acts(y2, a[2..], policy, c);
  }

  /** The window's event is the readiness of that market with that row. */
  predicate StoredAs(store: map<Scheduler.Key, Scheduler.Event>, k: Scheduler.Key, m: Market, row: Row) {
    && k in store && store[k].verdict == Scheduler.PtbReady
    && store[k].result == Some(Scheduler.Resolved(m, Some(Rebuild(MarketIdentity(m), row))))
  }

  lemma MisdeliveryIsStored(m: Market, e: Evidence, b: Bucket, now: int, policy: Policy, c: Scheduler.Config)
    requires Decide(m, e, policy).Ok? && BucketOf(m) == b && b in SUPPORTED_BUCKETS
    requires InTime(Scheduler.KeyAt(b, now), now, c)
    ensures var k := Scheduler.KeyAt(b, now);
            var store := Acts(FIRST_BOOT, Misdelivery(m, e, k, now), policy, c).scheduler.store;
            StoredAs(store, k, m, RowOf(Decide(m, e, policy).value))
  {
    var k := Scheduler.KeyAt(b, now);
    var record := Rebuild(MarketIdentity(m), RowOf(Decide(m, e, policy).value));
    var started := Scheduler.Next(Scheduler.Start(map[]), Scheduler.Tick(now), c);
    var waiting := Scheduler.Next(started, Scheduler.Head(k, now), c);
    ActsOfSix(FIRST_BOOT, Misdelivery(m, e, k, now), policy, c);
    ThreeSteps(m, e, policy);
    TickStarts(b, now, c);
    HeadWaits(started, k, now, c);
    ReadyAnswerStores(waiting, k, now, Scheduler.Resolved(m, Some(record)), c);
  }

  /** So the event of a window can be ready with a price that is proven at the opening of another one only. */
  lemma EarlyRecordIsStored(m: Market, e: Evidence, row: Row, b: Bucket, now: int, policy: Policy, c: Scheduler.Config)
    requires Decide(m, e, policy).Ok? && row == RowOf(Decide(m, e, policy).value)
    requires PtbServiceLaws.EstablishedEarly(m, row, policy)
    requires BucketOf(m) == b && b in SUPPORTED_BUCKETS && InTime(Scheduler.KeyAt(b, now), now, c)
    requires m.windowStart < Scheduler.KeyAt(b, now).windowStart
    ensures var k := Scheduler.KeyAt(b, now);
            && StoredAs(Acts(FIRST_BOOT, Misdelivery(m, e, k, now), policy, c).scheduler.store, k, m, row)
            && !BoundaryProven(k.windowStart, k.bucket.horizon, row, policy)
  {
    MisdeliveryIsStored(m, e, b, now, policy, c);
  }

  const SECOND_WINDOW := Scheduler.Key(Bucket(BTC, FiveMinutes), 600 * SECOND)
  const AT_ONCE := Scheduler.Config(0, SECOND, 10 * SECOND)

  /** The run in which the window from 600 seconds on is recorded as ready with the price of the one before. */
  lemma EventCanBeOfAnotherWindow()
    ensures var m, policy := PtbServiceLaws.MarketOf(OFFICIAL_TWIN), PtbServiceLaws.TEN_SECONDS;
            var k, e := SECOND_WINDOW, PtbServiceLaws.EarlyEvidence(m, policy);
            && OfficialMarket(m) && m.windowStart == 300 * SECOND
            && exists row ::
                 && StoredAs(Acts(FIRST_BOOT, Misdelivery(m, e, k, 600 * SECOND), policy, AT_ONCE).scheduler.store,
                             k, m, row)
                 && !BoundaryProven(k.windowStart, k.bucket.horizon, row, policy)
  {
    var m, policy := PtbServiceLaws.MarketOf(OFFICIAL_TWIN), PtbServiceLaws.TEN_SECONDS;
    var e := PtbServiceLaws.EarlyEvidence(m, policy);
    PtbServiceLaws.TwinsAreMarkets();
    PtbServiceLaws.EarlyEvidenceEstablishes(m, policy);
    SecondWindow();
    EarlyRecordIsStored(m, e, RowOf(Decide(m, e, policy).value), SECOND_WINDOW.bucket, 600 * SECOND, policy, AT_ONCE);
  }

  lemma SecondWindow()
    ensures Scheduler.KeyAt(SECOND_WINDOW.bucket, 600 * SECOND) == SECOND_WINDOW
    ensures InTime(SECOND_WINDOW, 600 * SECOND, AT_ONCE) && SECOND_WINDOW.bucket in SUPPORTED_BUCKETS
  {
    SecondsOfWhole(600);
    assert SUPPORTED_BUCKETS[0] == SECOND_WINDOW.bucket;
  }
}
