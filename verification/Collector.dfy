/**
 * The Chainlink collector: bounded per-asset histories, the latest sample of each asset, the
 * per-asset and global message counters, and the boundary sample a short window opens with.
 */
module Collector {
  import opened Common
  import opened Canonical

  /** One frame after parsing. An update whose fields fail the schema is malformed as well. */
  datatype Payload =
    | Malformed
    | SubscriptionSnapshot(asset: Asset)
    | LiveUpdate(twap: Twap)

  datatype AssetState = AssetState(
    messages: nat, successes: nat, failures: nat, snapshots: nat, matches: nat, mismatches: nat)

  datatype View = View(
    history: map<Asset, seq<Twap>>,
    latest: map<Asset, Twap>,
    perAsset: map<Asset, AssetState>,
    messages: nat,
    successes: nat,
    failures: nat,
    snapshots: nat)

  // ---------------------------------------------------------------- one frame

  function PushBounded(h: seq<Twap>, limit: nat, t: Twap): (r: seq<Twap>)
    requires limit > 0
  {
    if |h| < limit then h + [t] else h[|h| - limit + 1..] + [t]
  }

  function RecordHistory(h: seq<Twap>, limit: nat, t: Twap): seq<Twap>
    requires limit > 0
  {
    if h == [] || h[|h| - 1].publisherTs != t.publisherTs || h[|h| - 1].value != t.value
    then PushBounded(h, limit, t)
    else h
  }

  function RecordLatest(latest: map<Asset, Twap>, t: Twap): map<Asset, Twap> {
    if t.asset !in latest || t.publisherTs >= latest[t.asset].publisherTs then latest[t.asset := t] else latest
  }

  /** Credits a match to the returned asset, or a mismatch to the asset the feed was asked for. */
  function Filtered(per: map<Asset, AssetState>, returned: Asset, hint: Option<Asset>): map<Asset, AssetState>
    requires returned in per && (hint.Some? ==> hint.value in per)
  {
    if hint.None? || hint.value == returned
    then per[returned := per[returned].(matches := per[returned].matches + 1)]
    else per[hint.value := per[hint.value].(mismatches := per[hint.value].mismatches + 1)]
  }

  function CountFailure(s: AssetState): AssetState {
    s.(failures := s.failures + 1)
  }

  function FailedAssets(per: map<Asset, AssetState>, hint: Option<Asset>): map<Asset, AssetState>
    requires hint.Some? ==> hint.value in per
  {
    if hint.Some? then per[hint.value := CountFailure(per[hint.value])]
    else map a | a in per :: CountFailure(per[a])
  }

  predicate Known(assets: set<Asset>, p: Payload, hint: Option<Asset>) {
    && (hint.Some? ==> hint.value in assets)
    && (p.SubscriptionSnapshot? ==> p.asset in assets)
    && (p.LiveUpdate? ==> p.twap.asset in assets)
  }

  /** The returned and the hinted asset have a state and a history. */
  predicate Configured(v: View, p: Payload, hint: Option<Asset>) {
    v.perAsset.Keys == v.history.Keys && Known(v.perAsset.Keys, p, hint)
  }

  /** The frames counted, each once, by what they were. */
  function Counted(v: View): nat {
    v.snapshots + v.successes + v.failures
  }

  function HandleOne(v: View, limit: nat, p: Payload, hint: Option<Asset>): (r: View)
    requires limit > 0 && Configured(v, p, hint)
    ensures Counted(r) == Counted(v) + 1
    ensures r.failures == v.failures + if p.Malformed? then 1 else 0
  {
    match p
    case Malformed =>
      v.(perAsset := FailedAssets(v.perAsset, hint), failures := v.failures + 1)
    case SubscriptionSnapshot(a) =>
      var counted := v.perAsset[a := v.perAsset[a].(snapshots := v.perAsset[a].snapshots + 1)];
      v.(perAsset := Filtered(counted, a, hint), snapshots := v.snapshots + 1)
    case LiveUpdate(t) =>
      var s := v.perAsset[t.asset];
      var counted := v.perAsset[t.asset := s.(messages := s.messages + 1, successes := s.successes + 1)];
      View(v.history[t.asset := RecordHistory(v.history[t.asset], limit, t)],
           RecordLatest(v.latest, t),
           Filtered(counted, t.asset, hint),
           v.messages + 1, v.successes + 1, v.failures, v.snapshots)
  }

  predicate AllConfigured(v: View, ps: seq<Payload>, hint: Option<Asset>) {
    v.perAsset.Keys == v.history.Keys && forall k :: 0 <= k < |ps| ==> Known(v.perAsset.Keys, ps[k], hint)
  }

  function MalformedIn(ps: seq<Payload>, n: nat): nat
    requires n <= |ps|
  {
    if n == 0 then 0 else MalformedIn(ps, n - 1) + if ps[n - 1].Malformed? then 1 else 0
  }

  /** What the first n frames lead to. */
  function HandleFirst(v: View, limit: nat, ps: seq<Payload>, hint: Option<Asset>, n: nat): (r: View)
    requires limit > 0 && AllConfigured(v, ps, hint) && n <= |ps|
    ensures r.perAsset.Keys == v.perAsset.Keys && r.history.Keys == v.history.Keys
    ensures Counted(r) == Counted(v) + n
    ensures r.failures == v.failures + MalformedIn(ps, n)
    decreases n
  {
    if n == 0 then v else HandleOne(HandleFirst(v, limit, ps, hint, n - 1), limit, ps[n - 1], hint)
  }

  function HandleAll(v: View, limit: nat, ps: seq<Payload>, hint: Option<Asset>): View
    requires limit > 0 && AllConfigured(v, ps, hint)
  {
    HandleFirst(v, limit, ps, hint, |ps|)
  }

  // ---------------------------------------------------------------- conservation

  datatype Counter = Messages | Successes | Failures | Snapshots | Matches | Mismatches

  function Field(s: AssetState, c: Counter): nat {
    match c
    case Messages => s.messages
    case Successes => s.successes
    case Failures => s.failures
    case Snapshots => s.snapshots
    case Matches => s.matches
    case Mismatches => s.mismatches
  }

  /** One counter summed over the configured assets. */
  function Sum(assets: seq<Asset>, per: map<Asset, AssetState>, c: Counter): nat
    requires forall a :: a in assets ==> a in per
  {
    if assets == [] then 0 else Field(per[assets[0]], c) + Sum(assets[1..], per, c)
  }

  predicate NoAdjacentDuplicates(h: seq<Twap>) {
    forall k :: 0 < k < |h| ==> h[k - 1].publisherTs != h[k].publisherTs || h[k - 1].value != h[k].value
  }

  predicate Covers(assets: seq<Asset>, per: map<Asset, AssetState>) {
    NoDuplicates(assets) && forall a :: a in assets <==> a in per
  }

  predicate CountersBalance(
    per: map<Asset, AssetState>, assets: seq<Asset>, messages: nat, successes: nat, snapshots: nat)
  {
    && Covers(assets, per)
    && messages == successes
    && Sum(assets, per, Messages) == messages
    && Sum(assets, per, Successes) == successes
    && Sum(assets, per, Snapshots) == snapshots
    && Sum(assets, per, Matches) + Sum(assets, per, Mismatches) == successes + snapshots
  }

  /** A history is bounded, holds only its asset's samples, and none newer than the latest. */
  predicate HistorySound(h: seq<Twap>, a: Asset, latest: map<Asset, Twap>, limit: nat) {
    && |h| <= limit
    && NoAdjacentDuplicates(h)
    && (forall k :: 0 <= k < |h| ==>
          h[k].asset == a && a in latest && h[k].publisherTs <= latest[a].publisherTs)
  }

  predicate HistoriesSound(history: map<Asset, seq<Twap>>, latest: map<Asset, Twap>, limit: nat) {
    forall a :: a in history ==> HistorySound(history[a], a, latest, limit)
  }

  /** What holds of every collector, whatever arrived. */
  predicate Balanced(v: View, assets: seq<Asset>, limit: nat) {
    && v.perAsset.Keys == v.history.Keys
    && CountersBalance(v.perAsset, assets, v.messages, v.successes, v.snapshots)
    && HistoriesSound(v.history, v.latest, limit)
  }

  lemma {:induction false} SameSum(assets: seq<Asset>, p: map<Asset, AssetState>, q: map<Asset, AssetState>, c: Counter)
    requires forall a :: a in assets ==> a in p && a in q && Field(p[a], c) == Field(q[a], c)
    ensures Sum(assets, p, c) == Sum(assets, q, c)
  {
    if assets != [] {
      SameSum(assets[1..], p, q, c);
    }
  }

  lemma {:induction false} ReplaceMovesSum(
    assets: seq<Asset>, per: map<Asset, AssetState>, a: Asset, s: AssetState, c: Counter)
    requires NoDuplicates(assets) && a in assets && forall x :: x in assets ==> x in per
    ensures Sum(assets, per[a := s], c) + Field(per[a], c) == Sum(assets, per, c) + Field(s, c)
  {
    if assets[0] == a {
      SameSum(assets[1..], per, per[a := s], c);
    } else {
      ReplaceMovesSum(assets[1..], per, a, s, c);
    }
  }

  lemma {:induction false} ZeroSum(assets: seq<Asset>, per: map<Asset, AssetState>, c: Counter)
    requires forall a :: a in assets ==> a in per && per[a] == AssetState(0, 0, 0, 0, 0, 0)
    ensures Sum(assets, per, c) == 0
  {
    if assets != [] {
      ZeroSum(assets[1..], per, c);
    }
  }

  lemma ReplaceMovesAll(assets: seq<Asset>, per: map<Asset, AssetState>, a: Asset, s: AssetState)
    requires Covers(assets, per) && a in per
    ensures Covers(assets, per[a := s])
    ensures forall c :: Sum(assets, per[a := s], c) + Field(per[a], c) == Sum(assets, per, c) + Field(s, c)
  {
    forall c ensures Sum(assets, per[a := s], c) + Field(per[a], c) == Sum(assets, per, c) + Field(s, c) {
      ReplaceMovesSum(assets, per, a, s, c);
    }
  }

  lemma FilterAddsOne(assets: seq<Asset>, per: map<Asset, AssetState>, returned: Asset, hint: Option<Asset>)
    requires Covers(assets, per) && returned in per && (hint.Some? ==> hint.value in per)
    ensures var q := Filtered(per, returned, hint);
            && Covers(assets, q)
            && Sum(assets, q, Matches) + Sum(assets, q, Mismatches)
               == Sum(assets, per, Matches) + Sum(assets, per, Mismatches) + 1
            && Sum(assets, q, Messages) == Sum(assets, per, Messages)
            && Sum(assets, q, Successes) == Sum(assets, per, Successes)
            && Sum(assets, q, Snapshots) == Sum(assets, per, Snapshots)
            && Sum(assets, q, Failures) == Sum(assets, per, Failures)
  {
    if hint.None? || hint.value == returned {
      ReplaceMovesAll(assets, per, returned, per[returned].(matches := per[returned].matches + 1));
    } else {
      ReplaceMovesAll(assets, per, hint.value, per[hint.value].(mismatches := per[hint.value].mismatches + 1));
    }
  }

  lemma FailureMovesNothingElse(assets: seq<Asset>, per: map<Asset, AssetState>, hint: Option<Asset>)
    requires Covers(assets, per) && (hint.Some? ==> hint.value in per)
    ensures Covers(assets, FailedAssets(per, hint))
    ensures forall c :: c != Failures ==> Sum(assets, FailedAssets(per, hint), c) == Sum(assets, per, c)
  {
    forall c | c != Failures ensures Sum(assets, FailedAssets(per, hint), c) == Sum(assets, per, c) {
      SameSum(assets, FailedAssets(per, hint), per, c);
    }
  }

  lemma SnapshotCounts(
    per: map<Asset, AssetState>, assets: seq<Asset>, n: nat, snapshots: nat, a: Asset, hint: Option<Asset>)
    requires a in per && (hint.Some? ==> hint.value in per)
    requires CountersBalance(per, assets, n, n, snapshots)
    ensures var counted := per[a := per[a].(snapshots := per[a].snapshots + 1)];
            CountersBalance(Filtered(counted, a, hint), assets, n, n, snapshots + 1)
  {
    var s := per[a].(snapshots := per[a].snapshots + 1);
    ReplaceMovesAll(assets, per, a, s);
    FilterAddsOne(assets, per[a := s], a, hint);
  }

  lemma UpdateCounts(
    per: map<Asset, AssetState>, assets: seq<Asset>, n: nat, snapshots: nat, a: Asset, hint: Option<Asset>)
    requires a in per && (hint.Some? ==> hint.value in per)
    requires CountersBalance(per, assets, n, n, snapshots)
    ensures var counted := per[a := per[a].(messages := per[a].messages + 1, successes := per[a].successes + 1)];
            CountersBalance(Filtered(counted, a, hint), assets, n + 1, n + 1, snapshots)
  {
    var s := per[a].(messages := per[a].messages + 1, successes := per[a].successes + 1);
    ReplaceMovesAll(assets, per, a, s);
    FilterAddsOne(assets, per[a := s], a, hint);
  }

  lemma RecordKeepsHistory(h: seq<Twap>, latest: map<Asset, Twap>, limit: nat, t: Twap)
    requires limit > 0 && HistorySound(h, t.asset, latest, limit)
    ensures HistorySound(RecordHistory(h, limit, t), t.asset, RecordLatest(latest, t), limit)
  {
  }

  lemma HandleOneKeepsBalance(v: View, assets: seq<Asset>, limit: nat, p: Payload, hint: Option<Asset>)
    requires limit > 0 && Configured(v, p, hint) && Balanced(v, assets, limit)
    ensures Balanced(HandleOne(v, limit, p, hint), assets, limit)
  {
    if p.Malformed? {
      FailureMovesNothingElse(assets, v.perAsset, hint);
    } else if p.SubscriptionSnapshot? {
      SnapshotCounts(v.perAsset, assets, v.successes, v.snapshots, p.asset, hint);
    } else {
      LiveUpdateKeepsBalance(v, assets, limit, p.twap, hint);
    }
  }

  lemma LiveUpdateKeepsCounters(v: View, assets: seq<Asset>, limit: nat, t: Twap, hint: Option<Asset>)
    requires limit > 0 && Configured(v, LiveUpdate(t), hint)
    requires CountersBalance(v.perAsset, assets, v.messages, v.successes, v.snapshots)
    ensures var w := HandleOne(v, limit, LiveUpdate(t), hint);
            CountersBalance(w.perAsset, assets, w.messages, w.successes, w.snapshots)
  {
    UpdateCounts(v.perAsset, assets, v.successes, v.snapshots, t.asset, hint);
  }

  lemma LiveUpdateKeepsHistories(v: View, limit: nat, t: Twap, hint: Option<Asset>)
    requires limit > 0 && Configured(v, LiveUpdate(t), hint) && HistoriesSound(v.history, v.latest, limit)
    ensures var w := HandleOne(v, limit, LiveUpdate(t), hint);
            w.perAsset.Keys == w.history.Keys && HistoriesSound(w.history, w.latest, limit)
  {
    UpdateHistories(v.history, v.latest, limit, t);
  }

  lemma LiveUpdateKeepsBalance(v: View, assets: seq<Asset>, limit: nat, t: Twap, hint: Option<Asset>)
    requires limit > 0 && Configured(v, LiveUpdate(t), hint) && Balanced(v, assets, limit)
    ensures Balanced(HandleOne(v, limit, LiveUpdate(t), hint), assets, limit)
  {
    LiveUpdateKeepsCounters(v, assets, limit, t, hint);
    LiveUpdateKeepsHistories(v, limit, t, hint);
  }

  lemma UpdateHistories(history: map<Asset, seq<Twap>>, latest: map<Asset, Twap>, limit: nat, t: Twap)
    requires limit > 0 && HistoriesSound(history, latest, limit) && t.asset in history
    ensures var recorded := history[t.asset := RecordHistory(history[t.asset], limit, t)];
            HistoriesSound(recorded, RecordLatest(latest, t), limit)
  {
    RecordKeepsHistory(history[t.asset], latest, limit, t);
    forall a | a in history && a != t.asset ensures HistorySound(history[a], a, RecordLatest(latest, t), limit) {
      assert HistorySound(history[a], a, latest, limit);
    }
  }

  /** The newest sample so far: no recorded update of its asset is newer, even once evicted. */
  predicate LatestCovers(latest: map<Asset, Twap>, t: Twap) {
    t.asset in latest && t.publisherTs <= latest[t.asset].publisherTs
  }

  /** One frame keeps the property. */
  predicate Keeps(good: View -> bool, u: View, w: View) {
    good(u) ==> good(w)
  }

  ghost predicate KeptByFrames(good: View -> bool, limit: nat, hint: Option<Asset>)
    requires limit > 0
  {
    forall u, p :: Configured(u, p, hint) ==> Keeps(good, u, HandleOne(u, limit, p, hint))
  }

  lemma NextKeeps(good: View -> bool, v: View, limit: nat, ps: seq<Payload>, hint: Option<Asset>, n: nat)
    requires limit > 0 && AllConfigured(v, ps, hint) && 0 < n <= |ps| && KeptByFrames(good, limit, hint)
    requires good(HandleFirst(v, limit, ps, hint, n - 1))
    ensures good(HandleFirst(v, limit, ps, hint, n))
  {
    var u := HandleFirst(v, limit, ps, hint, n - 1);
    HandleFirstSteps(v, limit, ps, hint, n);
    assert Keeps(good, u, HandleOne(u, limit, ps[n - 1], hint));
  }

  /** What every frame keeps, every prefix of the frames keeps. */
  lemma {:induction false} HandleFirstKeeps(
    good: View -> bool, v: View, limit: nat, ps: seq<Payload>, hint: Option<Asset>, n: nat)
    requires limit > 0 && AllConfigured(v, ps, hint) && n <= |ps| && KeptByFrames(good, limit, hint)
    requires good(v)
    ensures good(HandleFirst(v, limit, ps, hint, n))
    decreases n
  {
    if n > 0 {
      HandleFirstKeeps(good, v, limit, ps, hint, n - 1);
      NextKeeps(good, v, limit, ps, hint, n);
    }
  }

  lemma HandleFirstSteps(v: View, limit: nat, ps: seq<Payload>, hint: Option<Asset>, n: nat)
    requires limit > 0 && AllConfigured(v, ps, hint) && 0 < n <= |ps|
    ensures Configured(HandleFirst(v, limit, ps, hint, n - 1), ps[n - 1], hint)
    ensures HandleFirst(v, limit, ps, hint, n)
            == HandleOne(HandleFirst(v, limit, ps, hint, n - 1), limit, ps[n - 1], hint)
  {
  }

  /** Every frame is one of snapshot, success or failure, and every total is the sum over the assets. */
  lemma HandleAllKeepsBalance(v: View, assets: seq<Asset>, limit: nat, ps: seq<Payload>, hint: Option<Asset>)
    requires limit > 0 && AllConfigured(v, ps, hint) && Balanced(v, assets, limit)
    ensures Balanced(HandleAll(v, limit, ps, hint), assets, limit)
    ensures Counted(HandleAll(v, limit, ps, hint)) == Counted(v) + |ps|
  {
    var good: View -> bool := u => Balanced(u, assets, limit);
    forall u, p | Configured(u, p, hint) ensures Keeps(good, u, HandleOne(u, limit, p, hint)) {
      if good(u) {
        HandleOneKeepsBalance(u, assets, limit, p, hint);
      }
    }
    HandleFirstKeeps(good, v, limit, ps, hint, |ps|);
  }

  lemma {:induction false} FirstCoversLatest(
    v: View, limit: nat, ps: seq<Payload>, hint: Option<Asset>, t: Twap, n: nat)
    requires limit > 0 && AllConfigured(v, ps, hint) && n <= |ps|
    requires LatestCovers(v.latest, t) || exists i :: 0 <= i < n && ps[i] == LiveUpdate(t)
    ensures LatestCovers(HandleFirst(v, limit, ps, hint, n).latest, t)
  {
    if n > 0 {
      if ps[n - 1] != LiveUpdate(t) {
        FirstCoversLatest(v, limit, ps, hint, t, n - 1);
      }
      OneKeepsLatest(HandleFirst(v, limit, ps, hint, n - 1), limit, ps[n - 1], hint, t);
    }
  }

  lemma LatestIsNewest(v: View, limit: nat, ps: seq<Payload>, hint: Option<Asset>, t: Twap)
    requires limit > 0 && AllConfigured(v, ps, hint)
    requires LatestCovers(v.latest, t) || LiveUpdate(t) in ps
    ensures LatestCovers(HandleAll(v, limit, ps, hint).latest, t)
  {
    FirstCoversLatest(v, limit, ps, hint, t, |ps|);
  }

  lemma OneKeepsLatest(v: View, limit: nat, p: Payload, hint: Option<Asset>, t: Twap)
    requires limit > 0 && Configured(v, p, hint)
    requires LatestCovers(v.latest, t) || p == LiveUpdate(t)
    ensures LatestCovers(HandleOne(v, limit, p, hint).latest, t)
  {
  }

  // ---------------------------------------------------------------- sequences of messages

  /** The frames of one message, and the asset its connection was opened for. */
  datatype Message = Message(frames: seq<Payload>, hint: Option<Asset>)

  predicate AllMessagesConfigured(v: View, ms: seq<Message>) {
    v.perAsset.Keys == v.history.Keys
    && forall k :: 0 <= k < |ms| ==> AllConfigured(v, ms[k].frames, ms[k].hint)
  }

  /** The malformed frames of the messages that were for one asset, or for all of them. */
  function FailuresIn(ms: seq<Message>, n: nat, hinted: bool): nat
    requires n <= |ms|
  {
    if n == 0 then 0
    else
      FailuresIn(ms, n - 1, hinted)
      + if ms[n - 1].hint.Some? == hinted then MalformedIn(ms[n - 1].frames, |ms[n - 1].frames|) else 0
  }

  /** What the first n messages lead to. */
  function AfterMessages(v: View, limit: nat, ms: seq<Message>, n: nat): (r: View)
    requires limit > 0 && AllMessagesConfigured(v, ms) && n <= |ms|
    ensures r.perAsset.Keys == v.perAsset.Keys && r.history.Keys == v.history.Keys
    ensures r.failures == v.failures + FailuresIn(ms, n, true) + FailuresIn(ms, n, false)
  {
    if n == 0 then v else HandleAll(AfterMessages(v, limit, ms, n - 1), limit, ms[n - 1].frames, ms[n - 1].hint)
  }

  function FramesOf(ms: seq<Message>, n: nat): nat
    requires n <= |ms|
  {
    if n == 0 then 0 else FramesOf(ms, n - 1) + |ms[n - 1].frames|
  }

  /** Over any sequence of messages: the counters balance, and every frame is counted once. */
  lemma {:induction false} MessagesKeepBalance(v: View, assets: seq<Asset>, limit: nat, ms: seq<Message>, n: nat)
    requires limit > 0 && AllMessagesConfigured(v, ms) && n <= |ms| && Balanced(v, assets, limit)
    ensures Balanced(AfterMessages(v, limit, ms, n), assets, limit)
    ensures Counted(AfterMessages(v, limit, ms, n)) == Counted(v) + FramesOf(ms, n)
  {
    if n > 0 {
      MessagesKeepBalance(v, assets, limit, ms, n - 1);
      HandleAllKeepsBalance(AfterMessages(v, limit, ms, n - 1), assets, limit, ms[n - 1].frames, ms[n - 1].hint);
    }
  }

  lemma AfterMessagesSteps(v: View, limit: nat, ms: seq<Message>, n: nat)
    requires limit > 0 && AllMessagesConfigured(v, ms) && 0 < n <= |ms|
    ensures var u := AfterMessages(v, limit, ms, n - 1);
            && AllConfigured(u, ms[n - 1].frames, ms[n - 1].hint)
            && AfterMessages(v, limit, ms, n) == HandleAll(u, limit, ms[n - 1].frames, ms[n - 1].hint)
  {
  }

  lemma NextCovers(v: View, limit: nat, ms: seq<Message>, n: nat, t: Twap)
    requires limit > 0 && AllMessagesConfigured(v, ms) && 0 < n <= |ms|
    requires LatestCovers(AfterMessages(v, limit, ms, n - 1).latest, t) || LiveUpdate(t) in ms[n - 1].frames
    ensures LatestCovers(AfterMessages(v, limit, ms, n).latest, t)
  {
    AfterMessagesSteps(v, limit, ms, n);
    LatestIsNewest(AfterMessages(v, limit, ms, n - 1), limit, ms[n - 1].frames, ms[n - 1].hint, t);
  }

  /** Over any sequence of messages: the latest sample is at least as new as every update ever handled. */
  lemma {:induction false} LatestIsNewestEver(v: View, limit: nat, ms: seq<Message>, n: nat, k: nat, t: Twap)
    requires limit > 0 && AllMessagesConfigured(v, ms) && k < n <= |ms| && LiveUpdate(t) in ms[k].frames
    ensures LatestCovers(AfterMessages(v, limit, ms, n).latest, t)
  {
    if k < n - 1 {
      LatestIsNewestEver(v, limit, ms, n - 1, k, t);
    }
    NextCovers(v, limit, ms, n, t);
  }

  // ---------------------------------------------------------------- failures of each asset

  /** A failure is charged to the asset the feed was asked for, and otherwise to every asset. */
  function Charge(hint: Option<Asset>, assets: nat): nat {
    if hint.Some? then 1 else assets
  }

  lemma {:induction false} AllFail(assets: seq<Asset>, per: map<Asset, AssetState>)
    requires forall a :: a in assets ==> a in per
    ensures Sum(assets, FailedAssets(per, None), Failures) == Sum(assets, per, Failures) + |assets|
  {
    if assets != [] {
      AllFail(assets[1..], per);
    }
  }

  lemma FailureIsCharged(assets: seq<Asset>, per: map<Asset, AssetState>, hint: Option<Asset>)
    requires Covers(assets, per) && (hint.Some? ==> hint.value in per)
    ensures Sum(assets, FailedAssets(per, hint), Failures) == Sum(assets, per, Failures) + Charge(hint, |assets|)
  {
    if hint.Some? {
      ReplaceMovesAll(assets, per, hint.value, CountFailure(per[hint.value]));
    } else {
      AllFail(assets, per);
    }
  }

  /** A charge so many times, which is their product. */
  function Repeated(charge: nat, n: nat): nat {
    if n == 0 then 0 else Repeated(charge, n - 1) + charge
  }

  lemma {:induction false} RepeatedIsProduct(charge: nat, n: nat)
    ensures Repeated(charge, n) == charge * n
  {
    if n > 0 {
      RepeatedIsProduct(charge, n - 1);
    }
  }

  /** Since so many failures, the assets' failures have grown by a charge for each. */
  predicate Charged(u: View, assets: seq<Asset>, failures: nat, base: nat, charge: nat) {
    && Covers(assets, u.perAsset)
    && u.failures >= failures
    && Sum(assets, u.perAsset, Failures) == base + Repeated(charge, u.failures - failures)
  }

  lemma FilterKeepsFailures(
    assets: seq<Asset>, per: map<Asset, AssetState>, a: Asset, s: AssetState, hint: Option<Asset>)
    requires Covers(assets, per) && a in per && (hint.Some? ==> hint.value in per) && s.failures == per[a].failures
    ensures var q := Filtered(per[a := s], a, hint);
            Covers(assets, q) && Sum(assets, q, Failures) == Sum(assets, per, Failures)
  {
    ReplaceMovesAll(assets, per, a, s);
    FilterAddsOne(assets, per[a := s], a, hint);
  }

  lemma MalformedIsCharged(
    u: View, assets: seq<Asset>, limit: nat, hint: Option<Asset>, failures: nat, base: nat, charge: nat)
    requires limit > 0 && Configured(u, Malformed, hint) && charge == Charge(hint, |assets|)
    requires Charged(u, assets, failures, base, charge)
    ensures Charged(HandleOne(u, limit, Malformed, hint), assets, failures, base, charge)
  {
    FailureMovesNothingElse(assets, u.perAsset, hint);
    FailureIsCharged(assets, u.perAsset, hint);
  }

  lemma SnapshotChargesNothing(
    u: View, assets: seq<Asset>, limit: nat, a: Asset, hint: Option<Asset>, failures: nat, base: nat, charge: nat)
    requires limit > 0 && Configured(u, SubscriptionSnapshot(a), hint) && Charged(u, assets, failures, base, charge)
    ensures Charged(HandleOne(u, limit, SubscriptionSnapshot(a), hint), assets, failures, base, charge)
  {
    FilterKeepsFailures(assets, u.perAsset, a, u.perAsset[a].(snapshots := u.perAsset[a].snapshots + 1), hint);
  }

  lemma UpdateChargesNothing(
    u: View, assets: seq<Asset>, limit: nat, t: Twap, hint: Option<Asset>, failures: nat, base: nat, charge: nat)
    requires limit > 0 && Configured(u, LiveUpdate(t), hint) && Charged(u, assets, failures, base, charge)
    ensures Charged(HandleOne(u, limit, LiveUpdate(t), hint), assets, failures, base, charge)
  {
    var s := u.perAsset[t.asset];
    var counted := s.(messages := s.messages + 1, successes := s.successes + 1);
    FilterKeepsFailures(assets, u.perAsset, t.asset, counted, hint);
  }

  lemma FrameIsCharged(
    u: View, assets: seq<Asset>, limit: nat, p: Payload, hint: Option<Asset>, failures: nat, base: nat, charge: nat)
    requires limit > 0 && Configured(u, p, hint) && charge == Charge(hint, |assets|)
    requires Charged(u, assets, failures, base, charge)
    ensures Charged(HandleOne(u, limit, p, hint), assets, failures, base, charge)
  {
    match p
    case Malformed => MalformedIsCharged(u, assets, limit, hint, failures, base, charge);
    case SubscriptionSnapshot(a) => SnapshotChargesNothing(u, assets, limit, a, hint, failures, base, charge);
    case LiveUpdate(t) => UpdateChargesNothing(u, assets, limit, t, hint, failures, base, charge);
  }

  lemma MessageIsCharged(v: View, assets: seq<Asset>, limit: nat, ps: seq<Payload>, hint: Option<Asset>)
    requires limit > 0 && AllConfigured(v, ps, hint) && Covers(assets, v.perAsset)
    ensures Charged(HandleAll(v, limit, ps, hint), assets, v.failures, Sum(assets, v.perAsset, Failures),
                    Charge(hint, |assets|))
  {
    var failures, base, charge := v.failures, Sum(assets, v.perAsset, Failures), Charge(hint, |assets|);
    var good: View -> bool := u => Charged(u, assets, failures, base, charge);
    forall u, p | Configured(u, p, hint) ensures Keeps(good, u, HandleOne(u, limit, p, hint)) {
      if good(u) {
        FrameIsCharged(u, assets, limit, p, hint, failures, base, charge);
      }
    }
    HandleFirstKeeps(good, v, limit, ps, hint, |ps|);
  }

  predicate FailuresSum(u: View, assets: seq<Asset>, total: int) {
    Covers(assets, u.perAsset) && Sum(assets, u.perAsset, Failures) == total
  }

  function ChargesOf(m: Message, assets: nat): nat {
    Repeated(Charge(m.hint, assets), MalformedIn(m.frames, |m.frames|))
  }

  lemma MessageAddsCharges(u: View, w: View, assets: seq<Asset>, limit: nat, m: Message, total: int)
    requires limit > 0 && AllConfigured(u, m.frames, m.hint) && w == HandleAll(u, limit, m.frames, m.hint)
    requires FailuresSum(u, assets, total)
    ensures FailuresSum(w, assets, total + ChargesOf(m, |assets|))
  {
    MessageIsCharged(u, assets, limit, m.frames, m.hint);
  }

  lemma NextAddsCharges(v: View, assets: seq<Asset>, limit: nat, ms: seq<Message>, n: nat, total: int)
    requires limit > 0 && AllMessagesConfigured(v, ms) && 0 < n <= |ms|
    requires FailuresSum(AfterMessages(v, limit, ms, n - 1), assets, total)
    ensures FailuresSum(AfterMessages(v, limit, ms, n), assets, total + ChargesOf(ms[n - 1], |assets|))
  {
    AfterMessagesSteps(v, limit, ms, n);
    MessageAddsCharges(AfterMessages(v, limit, ms, n - 1), AfterMessages(v, limit, ms, n), assets, limit, ms[n - 1],
                       total);
  }

  function ChargesIn(ms: seq<Message>, n: nat, assets: nat): nat
    requires n <= |ms|
  {
    if n == 0 then 0 else ChargesIn(ms, n - 1, assets) + ChargesOf(ms[n - 1], assets)
  }

  lemma {:induction false} MessagesAddCharges(v: View, assets: seq<Asset>, limit: nat, ms: seq<Message>, n: nat)
    requires limit > 0 && AllMessagesConfigured(v, ms) && n <= |ms| && Covers(assets, v.perAsset)
    ensures FailuresSum(AfterMessages(v, limit, ms, n), assets,
                        Sum(assets, v.perAsset, Failures) + ChargesIn(ms, n, |assets|))
    decreases n
  {
    if n > 0 {
      MessagesAddCharges(v, assets, limit, ms, n - 1);
      NextAddsCharges(v, assets, limit, ms, n, Sum(assets, v.perAsset, Failures) + ChargesIn(ms, n - 1, |assets|));
    }
  }

  lemma {:induction false} RepeatedAdds(charge: nat, m: nat, n: nat)
    ensures Repeated(charge, m + n) == Repeated(charge, m) + Repeated(charge, n)
  {
    if n > 0 {
      RepeatedAdds(charge, m, n - 1);
    }
  }

  lemma {:induction false} ChargesAre(ms: seq<Message>, n: nat, assets: nat)
    requires n <= |ms|
    ensures ChargesIn(ms, n, assets) == FailuresIn(ms, n, true) + Repeated(assets, FailuresIn(ms, n, false))
  {
    if n > 0 {
      var malformed := MalformedIn(ms[n - 1].frames, |ms[n - 1].frames|);
      ChargesAre(ms, n - 1, assets);
      RepeatedIsProduct(1, malformed);
      RepeatedAdds(assets, FailuresIn(ms, n - 1, false), malformed);
    }
  }

  /**
   * Over any sequence of messages: the failures are the malformed frames, and the assets' failures
   * are those of messages for one asset, and those of the others once for every asset.
   */
  lemma MessagesAreCharged(v: View, assets: seq<Asset>, limit: nat, ms: seq<Message>, n: nat)
    requires limit > 0 && AllMessagesConfigured(v, ms) && n <= |ms| && Covers(assets, v.perAsset)
    ensures var w, one, all := AfterMessages(v, limit, ms, n), FailuresIn(ms, n, true), FailuresIn(ms, n, false);
            && Covers(assets, w.perAsset)
            && w.failures == v.failures + one + all
            && Sum(assets, w.perAsset, Failures) == Sum(assets, v.perAsset, Failures) + one + |assets| * all
  {
    MessagesAddCharges(v, assets, limit, ms, n);
    ChargesAre(ms, n, |assets|);
    RepeatedIsProduct(|assets|, FailuresIn(ms, n, false));
  }

  // ---------------------------------------------------------------- the boundary sample

  function Distance(t: Twap, boundary: int): nat {
    Abs(t.publisherTs - boundary)
  }

  /** The first nearest sample, as a left-to-right minimum finds it. */
  function Nearest(h: seq<Twap>, boundary: int): (i: nat)
    requires h != []
    ensures i < |h|
    ensures forall k :: 0 <= k < |h| ==> Distance(h[i], boundary) <= Distance(h[k], boundary)
    ensures forall k :: 0 <= k < i ==> Distance(h[i], boundary) < Distance(h[k], boundary)
  {
    if |h| == 1 then 0
    else
      var i := Nearest(h[..|h| - 1], boundary);
      if Distance(h[|h| - 1], boundary) < Distance(h[i], boundary) then |h| - 1 else i
  }

  function OpeningTwap(h: seq<Twap>, boundary: int, tolerance: nat): (r: Option<Twap>)
    ensures r.None? <==> forall k :: 0 <= k < |h| ==> Distance(h[k], boundary) > tolerance
    ensures r.Some? ==> r.value in h && Distance(r.value, boundary) <= tolerance
                        && forall k :: 0 <= k < |h| ==> Distance(r.value, boundary) <= Distance(h[k], boundary)
  {
    if h == [] then None
    else
      var best := h[Nearest(h, boundary)];
      if Distance(best, boundary) > tolerance then None else Some(best)
  }

  // ---------------------------------------------------------------- the collector

  class ChainlinkTwapCollector {
    const assets: seq<Asset>
    const limit: nat
    var history: map<Asset, seq<Twap>>
    var latest: map<Asset, Twap>
    var perAsset: map<Asset, AssetState>
    var messageCount: nat
    var successCount: nat
    var failureCount: nat
    var snapshotCount: nat

    ghost function Current(): View
      reads this
    {
      View(history, latest, perAsset, messageCount, successCount, failureCount, snapshotCount)
    }

    ghost predicate Valid()
      reads this
    {
      limit > 0 && Balanced(Current(), assets, limit)
    }

    constructor (assets: seq<Asset>, historyLimit: nat)
      requires historyLimit > 0 && assets != [] && NoDuplicates(assets)
      ensures Valid() && this.assets == assets && limit == historyLimit
      ensures successCount == failureCount == snapshotCount == 0
    {
      this.assets := assets;
      limit := historyLimit;
      history := map a | a in assets :: [];
      latest := map[];
      perAsset := map a | a in assets :: AssetState(0, 0, 0, 0, 0, 0);
      messageCount, successCount, failureCount, snapshotCount := 0, 0, 0, 0;
      new;
      forall c ensures Sum(assets, perAsset, c) == 0 {
        ZeroSum(assets, perAsset, c);
      }
    }

    method Record(t: Twap)
      requires limit > 0 && t.asset in history
      modifies this`history, this`latest
      ensures history == old(history)[t.asset := RecordHistory(old(history)[t.asset], limit, t)]
      ensures latest == RecordLatest(old(latest), t)
    {
      if t.asset !in latest || t.publisherTs >= latest[t.asset].publisherTs {
        latest := latest[t.asset := t];
      }
      var h := history[t.asset];
      if h == [] || h[|h| - 1].publisherTs != t.publisherTs || h[|h| - 1].value != t.value {
        history := history[t.asset := PushBounded(h, limit, t)];
      }
    }

    method CreditFilter(returned: Asset, hint: Option<Asset>)
      requires returned in perAsset && (hint.Some? ==> hint.value in perAsset)
      modifies this`perAsset
      ensures perAsset == Filtered(old(perAsset), returned, hint)
    {
      if hint.None? || hint.value == returned {
        perAsset := perAsset[returned := perAsset[returned].(matches := perAsset[returned].matches + 1)];
      } else {
        var a := hint.value;
        perAsset := perAsset[a := perAsset[a].(mismatches := perAsset[a].mismatches + 1)];
      }
    }

    /** One pass of the loop below; the global success counters are left for its end. */
    method HandleFrame(p: Payload, hint: Option<Asset>, ghost before: View) returns (live: nat)
      requires limit > 0 && before == Current() && Configured(before, p, hint)
      modifies this`history, this`latest, this`perAsset, this`failureCount, this`snapshotCount
      ensures Plus(Current(), live) == HandleOne(before, limit, p, hint)
    {
      live := 0;
      match p {
        case Malformed =>
          perAsset := FailedAssets(perAsset, hint);
          failureCount := failureCount + 1;
        case SubscriptionSnapshot(a) =>
          perAsset := perAsset[a := perAsset[a].(snapshots := perAsset[a].snapshots + 1)];
          CreditFilter(a, hint);
          snapshotCount := snapshotCount + 1;
        case LiveUpdate(t) =>
          Record(t);
          var s := perAsset[t.asset];
          perAsset := perAsset[t.asset := s.(messages := s.messages + 1, successes := s.successes + 1)];
          CreditFilter(t.asset, hint);
          live := 1;
      }
    }

    method HandleMessage(ps: seq<Payload>, hint: Option<Asset>) returns (parsed: nat)
      requires Valid() && AllConfigured(Current(), ps, hint)
      modifies this
      ensures Valid() && Current() == HandleAll(old(Current()), limit, ps, hint)
      ensures parsed == successCount - old(successCount)
      ensures snapshotCount + successCount + failureCount
              == old(snapshotCount) + old(successCount) + old(failureCount) + |ps|
    {
      HandleAllKeepsBalance(Current(), assets, limit, ps, hint);
      parsed := Consume(ps, hint);
      messageCount, successCount := messageCount + parsed, successCount + parsed;
    }

    method Consume(ps: seq<Payload>, hint: Option<Asset>) returns (parsed: nat)
      requires limit > 0 && AllConfigured(Current(), ps, hint)
      modifies this`history, this`latest, this`perAsset, this`failureCount, this`snapshotCount
      ensures Plus(Current(), parsed) == HandleAll(old(Current()), limit, ps, hint)
    {
      parsed := 0;
      ghost var start := Current();
      for i := 0 to |ps|
        invariant AllConfigured(start, ps, hint)
        invariant Plus(Current(), parsed) == HandleFirst(start, limit, ps, hint, i)
      {
        ghost var before := Current();
        PlusStep(start, before, limit, ps, hint, i, parsed);
        var live := HandleFrame(ps[i], hint, before);
        parsed := parsed + live;
      }
    }
  }

  ghost function Plus(v: View, n: nat): View {
    v.(messages := v.messages + n, successes := v.successes + n)
  }

  lemma PlusStep(start: View, v: View, limit: nat, ps: seq<Payload>, hint: Option<Asset>, i: nat, n: nat)
    requires limit > 0 && AllConfigured(start, ps, hint) && i < |ps|
    requires Plus(v, n) == HandleFirst(start, limit, ps, hint, i)
    ensures Configured(v, ps[i], hint)
    ensures Plus(HandleOne(v, limit, ps[i], hint), n) == HandleFirst(start, limit, ps, hint, i + 1)
  {
    HandleFirstSteps(start, limit, ps, hint, i + 1);
    PlusCommutes(v, limit, ps[i], hint, n);
  }

  lemma PlusCommutes(v: View, limit: nat, p: Payload, hint: Option<Asset>, n: nat)
    requires limit > 0 && Configured(v, p, hint)
    ensures Plus(HandleOne(v, limit, p, hint), n) == HandleOne(Plus(v, n), limit, p, hint)
  {
  }
}
