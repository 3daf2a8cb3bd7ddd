/**
 * The boundary scheduler: one task per bucket and window, retried until the boundary tolerance
 * runs out, recorded once. The machine interleaves scheduler ticks with the steps of every
 * running task; each step carries the clock reading it takes.
 */
module Scheduler {
  import opened Common
  import opened Canonical

  datatype Config = Config(settleDelay: nat, retryInterval: nat, boundaryTolerance: nat)

  datatype Key = Key(bucket: Bucket, windowStart: int)

  datatype Attempts = Attempts(detectedAt: int, first: Option<int>, last: Option<int>, count: nat)

  /**
   * What one attempt came back with: a resolution of the discovered market, ready when it carries a
   * record, or a failure, which the task re-raises unless it is an expected one.
   */
  datatype Reply =
    | Resolved(market: Market, record: Option<PriceToBeatRecord>)
    | ExpectedFailure(error: string)
    | UnexpectedFailure

  /** A task reads the clock at its loop head, waits for its reply, or sleeps before the next head. */
  datatype Phase = AtHead | Waiting | Sleeping(since: int)

  datatype Task = Task(attempts: Attempts, phase: Phase, lastResult: Option<Reply>, lastError: Option<string>)

  datatype Verdict = PtbReady | AttemptsExhausted | MissedBoundary

  datatype Event = Event(
    key: Key, attempts: Attempts, verdict: Verdict, result: Option<Reply>, lastError: Option<string>)

  function DueAt(k: Key, c: Config): int { k.windowStart + c.settleDelay }

  function Deadline(k: Key, c: Config): int { k.windowStart + c.boundaryTolerance }

  // ---------------------------------------------------------------- one task

  /** How a task goes on: it keeps running, it records and stops, or it stops without recording. */
  datatype Progress = Running(task: Task) | Recorded(event: Event) | Crashed

  function ExhaustedEvent(k: Key, t: Task): Event {
    Event(k, t.attempts, AttemptsExhausted, t.lastResult, t.lastError)
  }

  function Counted(a: Attempts, now: int): Attempts {
    Attempts(a.detectedAt, if a.first.Some? then a.first else Some(now), Some(now), a.count + 1)
  }

  /** The loop head: past the deadline it records and stops, otherwise it starts an attempt. */
  function HeadStep(k: Key, t: Task, now: int, c: Config): Progress {
    if now > Deadline(k, c) then Recorded(ExhaustedEvent(k, t))
    else Running(t.(attempts := Counted(t.attempts, now), phase := Waiting))
  }

  /** The rest of the loop body, from the reply of the attempt to the sleep before the next one. */
  function ReplyStep(k: Key, t: Task, now: int, reply: Reply, c: Config): Progress {
    if reply.UnexpectedFailure? then Crashed
    else
      var u := if reply.Resolved? then t.(lastResult := Some(reply)) else t.(lastError := Some(reply.error));
      if reply.Resolved? && reply.record.Some? then Recorded(Event(k, u.attempts, PtbReady, u.lastResult, u.lastError))
      else if now + c.retryInterval > Deadline(k, c) then Recorded(ExhaustedEvent(k, u))
      else Running(u.(phase := Sleeping(now)))
  }

  // ---------------------------------------------------------------- the machine

  /** Keys already detected, tasks still running, the durable events, and the two histories. */
  datatype World = World(
    states: set<Key>, tasks: map<Key, Task>, store: map<Key, Event>, started: seq<Key>, recorded: seq<Event>)

  datatype Step =
    | Tick(now: int)
    | Head(key: Key, now: int)
    | Answer(key: Key, now: int, reply: Reply)
    | Cancel(now: int)

  function Record(w: World, e: Event): World {
    w.(recorded := w.recorded + [e], store := if e.key in w.store then w.store else w.store[e.key := e])
  }

  function Prune(states: set<Key>, now: int): set<Key> {
    set k | k in states && !(k.windowStart + Duration(k.bucket.horizon) < now - 3 * 3600 * SECOND)
  }

  function KeyAt(b: Bucket, now: int): Key {
    Key(b, WindowContaining(b, now).start)
  }

  function Detect(w: World, b: Bucket, now: int, c: Config): World {
    var k := KeyAt(b, now);
    var unattempted := Attempts(now, None, None, 0);
    if k in w.states || k in w.tasks || now < DueAt(k, c) then w
    else if now > Deadline(k, c) then
      Record(w.(states := w.states + {k}), Event(k, unattempted, MissedBoundary, None, None))
    else
      w.(states := w.states + {k}, tasks := w.tasks[k := Task(unattempted, AtHead, None, None)],
         started := w.started + [k])
  }

  function DetectAll(w: World, bs: seq<Bucket>, now: int, c: Config): World
    decreases |bs|
  {
    if bs == [] then w else Detect(DetectAll(w, bs[..|bs| - 1], now, c), bs[|bs| - 1], now, c)
  }

  /** A finished task takes itself out of the task table. */
  function Settle(w: World, k: Key, p: Progress): World {
    match p
    case Running(t) => w.(tasks := w.tasks[k := t])
    case Recorded(e) => Record(w.(tasks := w.tasks - {k}), e)
    case Crashed => w.(tasks := w.tasks - {k})
  }

  function Next(w: World, s: Step, c: Config): World {
    match s
    case Tick(now) => DetectAll(w.(states := Prune(w.states, now)), SUPPORTED_BUCKETS, now, c)
    case Head(k, now) =>
      if k in w.tasks && !w.tasks[k].phase.Waiting? then Settle(w, k, HeadStep(k, w.tasks[k], now, c)) else w
    case Answer(k, now, reply) =>
      if k in w.tasks && w.tasks[k].phase.Waiting? then Settle(w, k, ReplyStep(k, w.tasks[k], now, reply, c)) else w
    case Cancel(now) => w.(tasks := map[])
  }

  function Run(w: World, steps: seq<Step>, c: Config): World
    decreases |steps|
  {
    if steps == [] then w else Next(Run(w, steps[..|steps| - 1], c), steps[|steps| - 1], c)
  }

  predicate ClockNeverGoesBack(steps: seq<Step>) {
    forall i, j :: 0 <= i < j < |steps| ==> steps[i].now <= steps[j].now
  }

  /** The scheduler starts with nothing detected; the event store may hold an earlier process's events. */
  function Start(store: map<Key, Event>): World {
    World({}, map[], store, [], [])
  }

  // ---------------------------------------------------------------- at most once

  predicate EventKeysDistinct(es: seq<Event>) {
    forall i, j :: 0 <= i < j < |es| ==> es[i].key != es[j].key
  }

  /** A key whose window can no longer be the current one at any clock reading from now on. */
  predicate Over(k: Key, now: int) {
    k.windowStart + Duration(k.bucket.horizon) <= now
  }

  predicate Remembered(w: World, k: Key, now: int) {
    k in w.states || Over(k, now)
  }

  /** Missed windows never had a task; every other event belongs to a task that is gone. */
  predicate EventAccounted(w: World, e: Event, now: int) {
    && Remembered(w, e.key, now)
    && e.key !in w.tasks
    && (e.verdict == MissedBoundary <==> e.key !in w.started)
  }

  predicate OnceInv(w: World, now: int) {
    && NoDuplicates(w.started)
    && EventKeysDistinct(w.recorded)
    && (forall k :: k in w.started ==> Remembered(w, k, now))
    && (forall i :: 0 <= i < |w.recorded| ==> EventAccounted(w, w.recorded[i], now))
    && (forall k :: k in w.tasks ==> k in w.started)
  }

  lemma RecordKeepsOnce(w: World, e: Event, now: int)
    requires OnceInv(w, now) && EventAccounted(w, e, now)
    requires forall i :: 0 <= i < |w.recorded| ==> w.recorded[i].key != e.key
    ensures OnceInv(Record(w, e), now)
  {
    var v := Record(w, e);
    forall i | 0 <= i < |v.recorded| ensures EventAccounted(v, v.recorded[i], now) {
      assert i < |w.recorded| ==> EventAccounted(w, w.recorded[i], now);
    }
  }

  lemma PruneKeepsOnce(w: World, before: int, now: int)
    requires OnceInv(w, before) && before <= now
    ensures OnceInv(w.(states := Prune(w.states, now)), now)
  {
    var v := w.(states := Prune(w.states, now));
    forall i | 0 <= i < |v.recorded| ensures EventAccounted(v, v.recorded[i], now) {
      assert EventAccounted(w, w.recorded[i], before);
    }
  }

  lemma CurrentWindowIsNotOver(b: Bucket, now: int)
    ensures !Over(KeyAt(b, now), now)
  {
    WindowContainingIsCanonical(b, now);
  }

  lemma DetectKeepsOnce(w: World, b: Bucket, now: int, c: Config)
    requires OnceInv(w, now)
    ensures OnceInv(Detect(w, b, now, c), now)
  {
    var k := KeyAt(b, now);
    CurrentWindowIsNotOver(b, now);
    if !(k in w.states || k in w.tasks || now < DueAt(k, c)) {
      assert k !in w.started;
      var v := w.(states := w.states + {k});
      forall i | 0 <= i < |w.recorded| ensures EventAccounted(v, w.recorded[i], now) && w.recorded[i].key != k {
        assert EventAccounted(w, w.recorded[i], now);
      }
      if now > Deadline(k, c) {
        RecordKeepsOnce(v, Event(k, Attempts(now, None, None, 0), MissedBoundary, None, None), now);
      } else {
        StartKeepsOnce(v, k, Task(Attempts(now, None, None, 0), AtHead, None, None), now);
      }
    }
  }

  lemma StartKeepsOnce(w: World, k: Key, t: Task, now: int)
    requires OnceInv(w, now) && k in w.states && k !in w.started
    requires forall i :: 0 <= i < |w.recorded| ==> w.recorded[i].key != k
    ensures OnceInv(w.(tasks := w.tasks[k := t], started := w.started + [k]), now)
  {
    var v := w.(tasks := w.tasks[k := t], started := w.started + [k]);
    AppendKeepsDistinct(w.started, k);
    forall i | 0 <= i < |v.recorded| ensures EventAccounted(v, v.recorded[i], now) {
      assert EventAccounted(w, w.recorded[i], now);
    }
  }

  lemma {:induction false} DetectAllKeepsOnce(w: World, bs: seq<Bucket>, now: int, c: Config)
    requires OnceInv(w, now)
    ensures OnceInv(DetectAll(w, bs, now, c), now)
    decreases |bs|
  {
    if bs != [] {
      DetectAllKeepsOnce(w, bs[..|bs| - 1], now, c);
      DetectKeepsOnce(DetectAll(w, bs[..|bs| - 1], now, c), bs[|bs| - 1], now, c);
    }
  }

  lemma DropTaskKeepsOnce(w: World, dropped: set<Key>, now: int)
    requires OnceInv(w, now)
    ensures OnceInv(w.(tasks := w.tasks - dropped), now)
  {
    var v := w.(tasks := w.tasks - dropped);
    forall i | 0 <= i < |v.recorded| ensures EventAccounted(v, v.recorded[i], now) {
      assert EventAccounted(w, w.recorded[i], now);
    }
  }

  lemma LaterKeepsOnce(w: World, before: int, now: int)
    requires OnceInv(w, before) && before <= now
    ensures OnceInv(w, now)
  {
    forall i | 0 <= i < |w.recorded| ensures EventAccounted(w, w.recorded[i], now) {
      assert EventAccounted(w, w.recorded[i], before);
    }
  }

  lemma SettleKeepsOnce(w: World, k: Key, p: Progress, now: int)
    requires OnceInv(w, now) && k in w.tasks
    requires p.Recorded? ==> p.event.key == k && p.event.verdict != MissedBoundary
    ensures OnceInv(Settle(w, k, p), now)
  {
    forall i | 0 <= i < |w.recorded| ensures w.recorded[i].key != k {
      assert EventAccounted(w, w.recorded[i], now);
    }
    match p
    case Running(t) =>
      var v := w.(tasks := w.tasks[k := t]);
      forall i | 0 <= i < |v.recorded| ensures EventAccounted(v, v.recorded[i], now) {
        assert EventAccounted(w, w.recorded[i], now);
      }
    case Recorded(e) =>
      DropTaskKeepsOnce(w, {k}, now);
      RecordKeepsOnce(w.(tasks := w.tasks - {k}), e, now);
    case Crashed => DropTaskKeepsOnce(w, {k}, now);
  }

  lemma NextKeepsOnce(w: World, s: Step, before: int, c: Config)
    requires OnceInv(w, before) && before <= s.now
    ensures OnceInv(Next(w, s, c), s.now)
  {
    LaterKeepsOnce(w, before, s.now);
    match s
    case Tick(now) =>
      PruneKeepsOnce(w, before, now);
      DetectAllKeepsOnce(w.(states := Prune(w.states, now)), SUPPORTED_BUCKETS, now, c);
    case Head(k, now) =>
      if k in w.tasks {
        SettleKeepsOnce(w, k, HeadStep(k, w.tasks[k], now, c), now);
      }
    case Answer(k, now, reply) =>
      if k in w.tasks {
        SettleKeepsOnce(w, k, ReplyStep(k, w.tasks[k], now, reply, c), now);
      }
    case Cancel(now) =>
      DropTaskKeepsOnce(w, w.tasks.Keys, now);
      assert w.tasks - w.tasks.Keys == map[];
  }

  /** The last clock reading of a run. */
  function LastReading(steps: seq<Step>): int {
    if steps == [] then 0 else steps[|steps| - 1].now
  }

  lemma {:induction false} RunKeepsOnce(store: map<Key, Event>, steps: seq<Step>, c: Config)
    requires ClockNeverGoesBack(steps)
    ensures OnceInv(Run(Start(store), steps, c), LastReading(steps))
    decreases |steps|
  {
    if steps != [] {
      var init, last := steps[..|steps| - 1], steps[|steps| - 1];
      RunKeepsOnce(store, init, c);
      if init == [] {
        LaterFromStart(store, last.now);
        NextKeepsOnce(Start(store), last, last.now, c);
      } else {
        NextKeepsOnce(Run(Start(store), init, c), last, LastReading(init), c);
      }
    }
  }

  lemma LaterFromStart(store: map<Key, Event>, now: int)
    ensures OnceInv(Start(store), now)
  {
  }

  /**
   * Whatever the interleaving, each bucket and window starts at most one task and is recorded at
   * most once, pruning included; a window recorded as missed never had a task.
   */
  lemma AtMostOneTaskAndOneEvent(store: map<Key, Event>, steps: seq<Step>, c: Config)
    requires ClockNeverGoesBack(steps)
    ensures var w := Run(Start(store), steps, c);
            && NoDuplicates(w.started)
            && EventKeysDistinct(w.recorded)
            && (forall i :: 0 <= i < |w.recorded| ==>
                  (w.recorded[i].verdict == MissedBoundary <==> w.recorded[i].key !in w.started))
  {
    RunKeepsOnce(store, steps, c);
    var w := Run(Start(store), steps, c);
    forall i | 0 <= i < |w.recorded| ensures EventAccounted(w, w.recorded[i], LastReading(steps)) {
    }
  }

  // ---------------------------------------------------------------- lost windows

  /** A started window whose task is gone without a record of it. */
  predicate Lost(w: World, k: Key) {
    k in w.started && k !in w.tasks && forall i :: 0 <= i < |w.recorded| ==> w.recorded[i].key != k
  }

  lemma DetectKeepsLost(w: World, b: Bucket, now: int, c: Config, k: Key)
    requires OnceInv(w, now) && Lost(w, k)
    ensures Lost(Detect(w, b, now, c), k)
  {
    CurrentWindowIsNotOver(b, now);
    assert Remembered(w, k, now);
  }

  lemma {:induction false} DetectAllKeepsLost(w: World, bs: seq<Bucket>, now: int, c: Config, k: Key)
    requires OnceInv(w, now) && Lost(w, k)
    ensures Lost(DetectAll(w, bs, now, c), k)
    decreases |bs|
  {
    if bs != [] {
      DetectAllKeepsLost(w, bs[..|bs| - 1], now, c, k);
      DetectAllKeepsOnce(w, bs[..|bs| - 1], now, c);
      DetectKeepsLost(DetectAll(w, bs[..|bs| - 1], now, c), bs[|bs| - 1], now, c, k);
    }
  }

  lemma NextKeepsLost(w: World, s: Step, before: int, c: Config, k: Key)
    requires OnceInv(w, before) && before <= s.now && Lost(w, k)
    ensures Lost(Next(w, s, c), k)
  {
    match s
    case Tick(now) =>
      PruneKeepsOnce(w, before, now);
      DetectAllKeepsLost(w.(states := Prune(w.states, now)), SUPPORTED_BUCKETS, now, c, k);
    case Head(_, _) =>
    case Answer(_, _, _) =>
    case Cancel(_) =>
  }

  lemma {:induction false} LostStaysLost(store: map<Key, Event>, steps: seq<Step>, n: nat, c: Config, k: Key)
    requires ClockNeverGoesBack(steps) && n <= |steps| && Lost(Run(Start(store), steps[..n], c), k)
    ensures Lost(Run(Start(store), steps, c), k)
    decreases |steps|
  {
    if n == |steps| {
      assert steps[..n] == steps;
    } else {
      var init, last := steps[..|steps| - 1], steps[|steps| - 1];
      assert init[..n] == steps[..n];
      LostStaysLost(store, init, n, c, k);
      RunKeepsOnce(store, init, c);
      if init == [] {
        LaterFromStart(store, last.now);
      }
      NextKeepsLost(Run(Start(store), init, c), last, if init == [] then last.now else LastReading(init), c, k);
    }
  }

  /** The step takes the task of the window away before it could record. */
  predicate Interrupts(s: Step, k: Key) {
    s.Cancel? || (s.Answer? && s.key == k && s.reply.UnexpectedFailure?)
  }

  predicate InterruptedAt(w: World, s: Step, k: Key) {
    k in w.tasks && Interrupts(s, k) && (s.Answer? ==> w.tasks[k].phase.Waiting?)
  }

  /**
   * A window whose task was cancelled, or failed unexpectedly, is lost to this process: however the
   * run goes on, it is neither started again nor ever recorded, not even as exhausted or missed.
   */
  lemma InterruptedIsNeverRecorded(store: map<Key, Event>, steps: seq<Step>, n: nat, c: Config, k: Key)
    requires ClockNeverGoesBack(steps) && n < |steps|
    requires InterruptedAt(Run(Start(store), steps[..n], c), steps[n], k)
    ensures var w := Run(Start(store), steps, c);
            k !in w.tasks && forall i :: 0 <= i < |w.recorded| ==> w.recorded[i].key != k
  {
    var w := Run(Start(store), steps[..n], c);
    RunKeepsOnce(store, steps[..n], c);
    forall i | 0 <= i < |w.recorded| ensures w.recorded[i].key != k {
      assert EventAccounted(w, w.recorded[i], LastReading(steps[..n]));
    }
    assert steps[..n + 1][..n] == steps[..n];
    assert Lost(Next(w, steps[n], c), k);
    LostStaysLost(store, steps, n + 1, c, k);
  }

  // ---------------------------------------------------------------- no attempt after the deadline

  /** A started window: detected in time, and every attempt between detection and the deadline. */
  predicate AttemptsTimed(k: Key, a: Attempts, c: Config) {
    && DueAt(k, c) <= a.detectedAt <= Deadline(k, c)
    && (a.count > 0 <==> a.first.Some?) && (a.count > 0 <==> a.last.Some?)
    && (a.count > 0 ==> a.detectedAt <= a.first.value <= a.last.value <= Deadline(k, c))
  }

  /** While a task runs its latest result is not a readiness. */
  predicate NotReadyYet(r: Option<Reply>) {
    r.Some? ==> r.value.Resolved? && r.value.record.None?
  }

  predicate TaskTimed(k: Key, t: Task, now: int, c: Config) {
    && AttemptsTimed(k, t.attempts, c)
    && t.attempts.detectedAt <= now
    && (t.attempts.count > 0 ==> t.attempts.last.value <= now)
    && (t.phase.AtHead? <==> t.attempts.count == 0)
    && (t.phase.Sleeping? ==> t.attempts.last.value <= t.phase.since <= now)
    && NotReadyYet(t.lastResult)
  }

  predicate EventTimed(e: Event, c: Config) {
    if e.verdict == MissedBoundary then
      e.attempts == Attempts(e.attempts.detectedAt, None, None, 0) && e.attempts.detectedAt > Deadline(e.key, c)
      && e.result.None?
    else
      && AttemptsTimed(e.key, e.attempts, c)
      && (e.verdict == PtbReady <==> e.result.Some? && e.result.value.Resolved? && e.result.value.record.Some?)
      && (e.verdict == PtbReady ==> e.attempts.count > 0)
  }

  predicate TimedInv(w: World, now: int, c: Config) {
    && (forall k :: k in w.tasks ==> TaskTimed(k, w.tasks[k], now, c))
    && (forall i :: 0 <= i < |w.recorded| ==> EventTimed(w.recorded[i], c))
  }

  lemma StepsAreTimed(k: Key, t: Task, before: int, now: int, reply: Reply, c: Config)
    requires TaskTimed(k, t, before, c) && before <= now
    ensures TaskTimed(k, t, now, c)
    ensures !t.phase.Waiting? ==> ProgressTimed(k, HeadStep(k, t, now, c), now, c)
    ensures t.phase.Waiting? ==> ProgressTimed(k, ReplyStep(k, t, now, reply, c), now, c)
  {
  }

  predicate ProgressTimed(k: Key, p: Progress, now: int, c: Config) {
    match p
    case Running(t) => TaskTimed(k, t, now, c)
    case Recorded(e) => e.key == k && e.verdict != MissedBoundary && EventTimed(e, c)
    case Crashed => true
  }

  lemma {:induction false} DetectAllKeepsTimed(w: World, bs: seq<Bucket>, now: int, c: Config)
    requires TimedInv(w, now, c)
    ensures TimedInv(DetectAll(w, bs, now, c), now, c)
    decreases |bs|
  {
    if bs != [] {
      DetectAllKeepsTimed(w, bs[..|bs| - 1], now, c);
    }
  }

  lemma NextKeepsTimed(w: World, s: Step, before: int, c: Config)
    requires TimedInv(w, before, c) && before <= s.now
    ensures TimedInv(Next(w, s, c), s.now, c)
  {
    forall k | k in w.tasks ensures TaskTimed(k, w.tasks[k], s.now, c) {
      StepsAreTimed(k, w.tasks[k], before, s.now, UnexpectedFailure, c);
    }
    match s
    case Tick(now) => DetectAllKeepsTimed(w.(states := Prune(w.states, now)), SUPPORTED_BUCKETS, now, c);
    case Head(k, now) =>
      if k in w.tasks {
        StepsAreTimed(k, w.tasks[k], before, now, UnexpectedFailure, c);
      }
    case Answer(k, now, reply) =>
      if k in w.tasks {
        StepsAreTimed(k, w.tasks[k], before, now, reply, c);
      }
    case Cancel(now) =>
  }

  /**
   * No attempt starts after the deadline or before the window is due, a window is reported missed
   * only if it was detected too late, and readiness is reported exactly when an attempt resolved it.
   */
  lemma {:induction false} EveryAttemptIsTimed(store: map<Key, Event>, steps: seq<Step>, c: Config)
    requires ClockNeverGoesBack(steps)
    ensures TimedInv(Run(Start(store), steps, c), LastReading(steps), c)
    decreases |steps|
  {
    if steps != [] {
      var init, last := steps[..|steps| - 1], steps[|steps| - 1];
      EveryAttemptIsTimed(store, init, c);
      NextKeepsTimed(Run(Start(store), init, c), last, if init == [] then last.now else LastReading(init), c);
    }
  }

  // ---------------------------------------------------------------- bounded attempts

  /** A sleep before a loop head lasted at least the retry interval. */
  predicate SleptInFull(w: World, s: Step, c: Config) {
    s.Head? && s.key in w.tasks && w.tasks[s.key].phase.Sleeping? ==>
      s.now >= w.tasks[s.key].phase.since + c.retryInterval
  }

  predicate SleepsInFull(w: World, steps: seq<Step>, c: Config)
    decreases |steps|
  {
    steps != [] ==>
      var init := steps[..|steps| - 1];
      SleepsInFull(w, init, c) && SleptInFull(Run(w, init, c), steps[|steps| - 1], c)
  }

  /** The last attempt starts at least one interval after due per attempt before it. */
  predicate Spaced(k: Key, a: Attempts, c: Config) {
    a.count > 0 && a.last.Some? ==> DueAt(k, c) + (a.count - 1) * c.retryInterval <= a.last.value
  }

  predicate SpacedInv(w: World, c: Config) {
    && (forall k :: k in w.tasks ==> Spaced(k, w.tasks[k].attempts, c))
    && (forall i :: 0 <= i < |w.recorded| ==> Spaced(w.recorded[i].key, w.recorded[i].attempts, c))
  }

  lemma HeadKeepsSpacing(k: Key, t: Task, before: int, now: int, c: Config)
    requires TaskTimed(k, t, before, c) && before <= now && Spaced(k, t.attempts, c)
    requires !t.phase.Waiting? && (t.phase.Sleeping? ==> now >= t.phase.since + c.retryInterval)
    ensures Spaced(k, Counted(t.attempts, now), c)
  {
    if t.phase.Sleeping? {
      var n := t.attempts.count;
      assert n * c.retryInterval == (n - 1) * c.retryInterval + c.retryInterval;
    }
  }

  lemma {:induction false} DetectAllKeepsSpacing(w: World, bs: seq<Bucket>, now: int, c: Config)
    requires SpacedInv(w, c)
    ensures SpacedInv(DetectAll(w, bs, now, c), c)
    decreases |bs|
  {
    if bs != [] {
      DetectAllKeepsSpacing(w, bs[..|bs| - 1], now, c);
    }
  }

  lemma NextKeepsSpacing(w: World, s: Step, before: int, c: Config)
    requires TimedInv(w, before, c) && before <= s.now && SpacedInv(w, c) && SleptInFull(w, s, c)
    ensures SpacedInv(Next(w, s, c), c)
  {
    match s
    case Tick(now) => DetectAllKeepsSpacing(w.(states := Prune(w.states, now)), SUPPORTED_BUCKETS, now, c);
    case Head(k, now) =>
      if k in w.tasks && !w.tasks[k].phase.Waiting? {
        HeadKeepsSpacing(k, w.tasks[k], before, now, c);
      }
    case Answer(k, now, reply) =>
    case Cancel(now) =>
  }

  lemma {:induction false} RunKeepsSpacing(store: map<Key, Event>, steps: seq<Step>, c: Config)
    requires ClockNeverGoesBack(steps) && SleepsInFull(Start(store), steps, c)
    ensures SpacedInv(Run(Start(store), steps, c), c)
    decreases |steps|
  {
    if steps != [] {
      var init, last := steps[..|steps| - 1], steps[|steps| - 1];
      RunKeepsSpacing(store, init, c);
      EveryAttemptIsTimed(store, init, c);
      NextKeepsSpacing(Run(Start(store), init, c), last, if init == [] then last.now else LastReading(init), c);
    }
  }

  function MaximumAttempts(c: Config): nat
    requires c.retryInterval > 0 && c.settleDelay <= c.boundaryTolerance
  {
    (c.boundaryTolerance - c.settleDelay) / c.retryInterval + 1
  }

  lemma CountIsBounded(k: Key, a: Attempts, c: Config)
    requires c.retryInterval > 0 && AttemptsTimed(k, a, c) && Spaced(k, a, c)
    ensures c.settleDelay <= c.boundaryTolerance && a.count <= MaximumAttempts(c)
  {
    if a.count > 0 {
      DivisionBound(a.count - 1, c.retryInterval, c.boundaryTolerance - c.settleDelay);
    }
  }

  lemma DivisionBound(n: nat, d: nat, total: int)
    requires d > 0 && n * d <= total
    ensures n <= total / d
  {
    var q := total / d;
    assert total < q * d + d;
    MultiplyKeepsOrder(q + 1, n, d);
  }

  lemma MultiplyKeepsOrder(a: int, b: int, d: nat)
    ensures a <= b ==> a * d <= b * d
  {
    if a <= b {
      assert (b - a) * d >= 0;
    }
  }

  /** When every sleep lasts its interval, no task and no event counts more attempts than fit the tolerance. */
  lemma AttemptsAreBounded(store: map<Key, Event>, steps: seq<Step>, c: Config)
    requires c.retryInterval > 0
    requires ClockNeverGoesBack(steps) && SleepsInFull(Start(store), steps, c)
    ensures var w := Run(Start(store), steps, c);
            && (forall k :: k in w.tasks ==>
                  c.settleDelay <= c.boundaryTolerance && w.tasks[k].attempts.count <= MaximumAttempts(c))
            && (forall i :: 0 <= i < |w.recorded| && w.recorded[i].verdict != MissedBoundary ==>
                  c.settleDelay <= c.boundaryTolerance && w.recorded[i].attempts.count <= MaximumAttempts(c))
  {
    var w := Run(Start(store), steps, c);
    EveryAttemptIsTimed(store, steps, c);
    RunKeepsSpacing(store, steps, c);
    forall k | k in w.tasks
      ensures c.settleDelay <= c.boundaryTolerance && w.tasks[k].attempts.count <= MaximumAttempts(c)
    {
      CountIsBounded(k, w.tasks[k].attempts, c);
    }
    forall i | 0 <= i < |w.recorded| && w.recorded[i].verdict != MissedBoundary
      ensures c.settleDelay <= c.boundaryTolerance && w.recorded[i].attempts.count <= MaximumAttempts(c)
    {
      CountIsBounded(w.recorded[i].key, w.recorded[i].attempts, c);
    }
  }

  // ---------------------------------------------------------------- the durable events

  predicate StoredUnlessTaken(initial: map<Key, Event>, store: map<Key, Event>, e: Event) {
    e.key in store && (e.key !in initial ==> store[e.key] == e)
  }

  function RecordedKeys(es: seq<Event>): set<Key> {
    set e | e in es :: e.key
  }

  predicate StoreInv(initial: map<Key, Event>, w: World) {
    && w.store.Keys == initial.Keys + RecordedKeys(w.recorded)
    && (forall k :: k in initial ==> k in w.store && w.store[k] == initial[k])
    && (forall i :: 0 <= i < |w.recorded| ==> StoredUnlessTaken(initial, w.store, w.recorded[i]))
  }

  lemma RecordKeepsStore(initial: map<Key, Event>, w: World, e: Event)
    requires StoreInv(initial, w) && forall i :: 0 <= i < |w.recorded| ==> w.recorded[i].key != e.key
    ensures StoreInv(initial, Record(w, e))
  {
    var v := Record(w, e);
    assert RecordedKeys(v.recorded) == RecordedKeys(w.recorded) + {e.key};
    forall i | 0 <= i < |v.recorded| ensures StoredUnlessTaken(initial, v.store, v.recorded[i]) {
      assert i < |w.recorded| ==> StoredUnlessTaken(initial, w.store, w.recorded[i]);
    }
  }

  lemma {:induction false} DetectAllKeepsStore(initial: map<Key, Event>, w: World, bs: seq<Bucket>, now: int, c: Config)
    requires StoreInv(initial, w) && OnceInv(w, now)
    ensures StoreInv(initial, DetectAll(w, bs, now, c))
    decreases |bs|
  {
    if bs != [] {
      var init, b := bs[..|bs| - 1], bs[|bs| - 1];
      var v := DetectAll(w, init, now, c);
      DetectAllKeepsStore(initial, w, init, now, c);
      DetectAllKeepsOnce(w, init, now, c);
      DetectAllKeepsOnce(w, bs, now, c);
      var k := KeyAt(b, now);
      if !(k in v.states || k in v.tasks || now < DueAt(k, c)) && now > Deadline(k, c) {
        var missed := Event(k, Attempts(now, None, None, 0), MissedBoundary, None, None);
        RecordIsNew(v, missed, DetectAll(w, bs, now, c), now);
        RecordKeepsStore(initial, v, missed);
      }
    }
  }

  lemma RecordIsNew(w: World, e: Event, v: World, now: int)
    requires OnceInv(v, now) && v.recorded == w.recorded + [e]
    ensures forall i :: 0 <= i < |w.recorded| ==> w.recorded[i].key != e.key
  {
    forall i | 0 <= i < |w.recorded| ensures w.recorded[i].key != e.key {
      assert v.recorded[i] == w.recorded[i] && v.recorded[|w.recorded|] == e;
    }
  }

  lemma TickKeepsStore(initial: map<Key, Event>, w: World, before: int, now: int, c: Config)
    requires StoreInv(initial, w) && OnceInv(w, before) && before <= now
    ensures StoreInv(initial, Next(w, Tick(now), c))
  {
    PruneKeepsOnce(w, before, now);
    DetectAllKeepsStore(initial, w.(states := Prune(w.states, now)), SUPPORTED_BUCKETS, now, c);
  }

  lemma SettleKeepsStore(initial: map<Key, Event>, w: World, k: Key, p: Progress, now: int)
    requires StoreInv(initial, w) && OnceInv(w, now) && k in w.tasks
    requires p.Recorded? ==> p.event.key == k
    ensures StoreInv(initial, Settle(w, k, p))
  {
    if p.Recorded? {
      forall i | 0 <= i < |w.recorded| ensures w.recorded[i].key != k {
        assert EventAccounted(w, w.recorded[i], now);
      }
      RecordKeepsStore(initial, w.(tasks := w.tasks - {k}), p.event);
    }
  }

  lemma NextKeepsStore(initial: map<Key, Event>, w: World, s: Step, before: int, c: Config)
    requires StoreInv(initial, w) && OnceInv(w, before) && before <= s.now
    ensures StoreInv(initial, Next(w, s, c))
  {
    if s.Tick? {
      TickKeepsStore(initial, w, before, s.now, c);
    } else {
      LaterKeepsOnce(w, before, s.now);
      if s.Head? && s.key in w.tasks {
        SettleKeepsStore(initial, w, s.key, HeadStep(s.key, w.tasks[s.key], s.now, c), s.now);
      } else if s.Answer? && s.key in w.tasks {
        SettleKeepsStore(initial, w, s.key, ReplyStep(s.key, w.tasks[s.key], s.now, s.reply, c), s.now);
      }
    }
  }

  /**
   * The durable table holds, for each window, the first event ever written under it: an earlier
   * process's event is never replaced, and nothing this process records is lost otherwise.
   */
  lemma {:induction false} StoredEventsAreFirst(store: map<Key, Event>, steps: seq<Step>, c: Config)
    requires ClockNeverGoesBack(steps)
    ensures StoreInv(store, Run(Start(store), steps, c))
    decreases |steps|
  {
    if steps != [] {
      var init, last := steps[..|steps| - 1], steps[|steps| - 1];
      var w := Run(Start(store), init, c);
      StoredEventsAreFirst(store, init, c);
      RunKeepsOnce(store, init, c);
      if init == [] {
        LaterFromStart(store, last.now);
      }
      NextKeepsStore(store, w, last, if init == [] then last.now else LastReading(init), c);
    }
  }

  // ---------------------------------------------------------------- one task on its own

  /** The clock readings and the reply of one pass through a task's loop. */
  datatype Round = Round(headAt: int, answerAt: int, reply: Reply)

  function OneRound(k: Key, t: Task, r: Round, c: Config): Progress {
    var p := HeadStep(k, t, r.headAt, c);
    if p.Running? then ReplyStep(k, p.task, r.answerAt, r.reply, c) else p
  }

  function AfterRounds(k: Key, t: Task, env: nat -> Round, n: nat, c: Config): Progress {
    if n == 0 then Running(t)
    else
      var p := AfterRounds(k, t, env, n - 1, c);
      if p.Running? then OneRound(k, p.task, env(n - 1), c) else p
  }

  /** Readings in order, with each sleep lasting at least the retry interval. */
  ghost predicate Passing(env: nat -> Round, c: Config) {
    forall n: nat :: env(n).headAt <= env(n).answerAt && env(n).answerAt + c.retryInterval <= env(n + 1).headAt
  }

  /** The retry loop: it always stops, after exactly the rounds for which the task was still running. */
  method RunBucketWindow(k: Key, detectedAt: int, env: nat -> Round, c: Config)
    returns (outcome: Progress, ghost rounds: nat)
    requires c.retryInterval > 0 && Passing(env, c)
    ensures !outcome.Running? && rounds > 0
    ensures outcome == AfterRounds(k, Task(Attempts(detectedAt, None, None, 0), AtHead, None, None), env, rounds, c)
    ensures AfterRounds(k, Task(Attempts(detectedAt, None, None, 0), AtHead, None, None), env, rounds - 1, c).Running?
  {
    ghost var initial := Task(Attempts(detectedAt, None, None, 0), AtHead, None, None);
    var deadline := k.windowStart + c.boundaryTolerance;
    var count: nat, first, last := 0, None, None;
    var lastResult: Option<Reply>, lastError: Option<string> := None, None;
    ghost var phase := AtHead;
    var n := 0;
    while true
      invariant AfterRounds(k, initial, env, n, c)
                == Running(Task(Attempts(detectedAt, first, last, count), phase, lastResult, lastError))
      decreases deadline - env(n).headAt
    {
      rounds := n + 1;
      var round := env(n);
      if round.headAt > deadline {
        var attempts := Attempts(detectedAt, first, last, count);
        return Recorded(Event(k, attempts, AttemptsExhausted, lastResult, lastError)), rounds;
      }
      count, last := count + 1, Some(round.headAt);
      if first.None? {
        first := Some(round.headAt);
      }
      var attempts := Attempts(detectedAt, first, last, count);
      match round.reply {
        case UnexpectedFailure =>
          return Crashed, rounds;
        case ExpectedFailure(e) =>
          lastError := Some(e);
        case Resolved(_, record) =>
          lastResult := Some(round.reply);
          if record.Some? {
            return Recorded(Event(k, attempts, PtbReady, lastResult, lastError)), rounds;
          }
      }
      if round.answerAt + c.retryInterval > deadline {
        return Recorded(Event(k, attempts, AttemptsExhausted, lastResult, lastError)), rounds;
      }
      phase := Sleeping(round.answerAt);
      n := n + 1;
    }
  }

  // ---------------------------------------------------------------- the scheduler object

  class PTBBoundaryScheduler {
    const config: Config
    var states: set<Key>
    var tasks: map<Key, Task>
    var store: map<Key, Event>
    ghost var started: seq<Key>
    ghost var recorded: seq<Event>

    constructor (config: Config, store: map<Key, Event>)
      ensures this.config == config && Current() == Start(store)
    {
      this.config := config;
      this.store := store;
      states, tasks, started, recorded := {}, map[], [], [];
    }

    ghost function Current(): World
      reads this
    {
      World(states, tasks, store, started, recorded)
    }

    method RecordResult(e: Event)
      modifies this`store, this`recorded
      ensures Current() == Record(old(Current()), e)
    {
      recorded := recorded + [e];
      if e.key !in store {
        store := store[e.key := e];
      }
    }

    method DetectBucket(b: Bucket, now: int)
      modifies this
      ensures Current() == Detect(old(Current()), b, now, config)
    {
      var window := WindowContaining(b, now);
      var k := Key(b, window.start);
      if k in states || k in tasks || now < k.windowStart + config.settleDelay {
        return;
      }
      var attempts := Attempts(now, None, None, 0);
      states := states + {k};
      if now > k.windowStart + config.boundaryTolerance {
        RecordResult(Event(k, attempts, MissedBoundary, None, None));
      } else {
        tasks := tasks[k := Task(attempts, AtHead, None, None)];
        started := started + [k];
      }
    }

    method RunDueOnce(now: int)
      modifies this
      ensures Current() == Next(old(Current()), Tick(now), config)
    {
      states := Prune(states, now);
      ghost var pruned := Current();
      var i := 0;
      while i < |SUPPORTED_BUCKETS|
        invariant 0 <= i <= |SUPPORTED_BUCKETS|
        invariant Current() == DetectAll(pruned, SUPPORTED_BUCKETS[..i], now, config)
      {
        assert SUPPORTED_BUCKETS[..i + 1][..i] == SUPPORTED_BUCKETS[..i];
        DetectBucket(SUPPORTED_BUCKETS[i], now);
        i := i + 1;
      }
      assert SUPPORTED_BUCKETS[..i] == SUPPORTED_BUCKETS;
    }

    method Apply(k: Key, p: Progress)
      modifies this
      ensures Current() == Settle(old(Current()), k, p)
    {
      match p {
        case Running(t) => tasks := tasks[k := t];
        case Recorded(e) =>
          tasks := tasks - {k};
          RecordResult(e);
        case Crashed => tasks := tasks - {k};
      }
    }

    method TaskHead(k: Key, now: int)
      requires k in tasks && !tasks[k].phase.Waiting?
      modifies this
      ensures Current() == Next(old(Current()), Head(k, now), config)
    {
      Apply(k, HeadStep(k, tasks[k], now, config));
    }

    method TaskAnswer(k: Key, now: int, reply: Reply)
      requires k in tasks && tasks[k].phase.Waiting?
      modifies this
      ensures Current() == Next(old(Current()), Answer(k, now, reply), config)
    {
      Apply(k, ReplyStep(k, tasks[k], now, reply, config));
    }

    method CancelAll(now: int)
      modifies this
      ensures Current() == Next(old(Current()), Cancel(now), config)
    {
      tasks := map[];
    }
  }
}
