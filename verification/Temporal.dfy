/**
 * The bounded temporal state in its two variants: one appends every sample, the other keeps one
 * sample a source identity. Both prune by age, from the front, when a snapshot is built.
 */
module Temporal {
  import opened Common
  import opened Canonical
  import opened Features

  datatype Kind = References | Books | Trades

  datatype Sample =
    | Reference(asset: Asset, source: string, official: bool, refTs: int, price: Decimal)
    | TopOfBook(
        asset: Asset, source: string, updateId: nat, bidPrice: Decimal, bidQuantity: Decimal, askPrice: Decimal,
        askQuantity: Decimal, sourceTs: Option<int>, recvTs: int)
    | Trade(
        asset: Asset, source: string, tradeId: nat, quantity: real, buyerIsMaker: bool, sourceTs: Option<int>,
        recvTs: int)

  /** What the constructors of the three kinds demand of their numbers. */
  predicate ValidSample(s: Sample) {
    match s
    case Reference(_, _, _, _, price) => price.value > 0.0
    case TopOfBook(_, _, _, bp, bq, ap, aq, _, _) =>
      bp.value > 0.0 && bq.value > 0.0 && ap.value > 0.0 && aq.value > 0.0 && bp.value < ap.value
    case Trade(_, _, _, quantity, _, _, _) => quantity > 0.0
  }

  function KindOf(s: Sample): Kind {
    match s
    case Reference(_, _, _, _, _) => References
    case TopOfBook(_, _, _, _, _, _, _, _, _) => Books
    case Trade(_, _, _, _, _, _, _) => Trades
  }

  function TimeOf(s: Sample): int {
    if s.Reference? then s.refTs else if s.sourceTs.Some? then s.sourceTs.value else s.recvTs
  }

  /** The source identity under which two samples exclude each other. */
  datatype Key =
    | ReferenceKey(source: string, asset: Asset, at: int, official: bool)
    | BookKey(source: string, asset: Asset, updateId: nat)
    | TradeKey(source: string, asset: Asset, tradeId: nat)

  function KeyOf(s: Sample): Key {
    match s
    case Reference(asset, source, official, at, _) => ReferenceKey(source, asset, at, official)
    case TopOfBook(asset, source, updateId, _, _, _, _, _, _) => BookKey(source, asset, updateId)
    case Trade(asset, source, tradeId, _, _, _, _) => TradeKey(source, asset, tradeId)
  }

  /** The printed numbers compared under one key: equal means a repeat, different a conflict. */
  function TextsOf(s: Sample): seq<string> {
    match s
    case Reference(_, _, _, _, price) => [price.text]
    case TopOfBook(_, _, _, bp, bq, ap, aq, _, _) => [bp.text, bq.text, ap.text, aq.text]
    case Trade(_, _, _, _, _, _, _) => []
  }

  // ---------------------------------------------------------------- one lane

  /** The queue of one asset and kind, with its counters. */
  datatype Lane = Lane(queue: seq<Sample>, skips: nat, conflicts: nat)

  const EMPTY: Lane := Lane([], 0, 0)

  function FirstWithKey(q: seq<Sample>, key: Key): Option<Sample> {
    if q == [] then None else if KeyOf(q[0]) == key then Some(q[0]) else FirstWithKey(q[1..], key)
  }

  function AddTo(dedup: bool, l: Lane, s: Sample): Lane {
    var known := if dedup then FirstWithKey(l.queue, KeyOf(s)) else None;
    if known.None? then l.(queue := l.queue + [s])
    else if TextsOf(known.value) == TextsOf(s) then l.(skips := l.skips + 1)
    else l.(conflicts := l.conflicts + 1)
  }

  predicate Stale(s: Sample, now: int, maxAge: nat) {
    now - TimeOf(s) > maxAge
  }

  function Pruned(q: seq<Sample>, now: int, maxAge: nat): seq<Sample> {
    if q == [] || !Stale(q[0], now, maxAge) then q else Pruned(q[1..], now, maxAge)
  }

  /** Exactly the leading stale samples go: a stale one behind a fresh one stays. */
  lemma {:induction false} PrunedDropsTheStalePrefix(q: seq<Sample>, now: int, maxAge: nat)
    ensures var n := |q| - |Pruned(q, now, maxAge)|;
            && 0 <= n && Pruned(q, now, maxAge) == q[n..]
            && (forall i :: 0 <= i < n ==> Stale(q[i], now, maxAge))
            && (n < |q| ==> !Stale(q[n], now, maxAge))
  {
    if q != [] && Stale(q[0], now, maxAge) {
      PrunedDropsTheStalePrefix(q[1..], now, maxAge);
    }
  }

  /** A queue in time order has no stale sample left after pruning. */
  lemma {:induction false} OrderedQueuesPruneFully(q: seq<Sample>, now: int, maxAge: nat)
    requires forall i, j :: 0 <= i < j < |q| ==> TimeOf(q[i]) <= TimeOf(q[j])
    ensures forall i :: 0 <= i < |Pruned(q, now, maxAge)| ==> !Stale(Pruned(q, now, maxAge)[i], now, maxAge)
  {
    if q != [] && Stale(q[0], now, maxAge) {
      OrderedQueuesPruneFully(q[1..], now, maxAge);
    }
  }

  // ---------------------------------------------------------------- the two variants compared

  /** Some of the second sequence's elements, in order. */
  predicate Within(xs: seq<Sample>, ys: seq<Sample>) {
    || xs == []
    || (ys != [] && ((xs[0] == ys[0] && Within(xs[1..], ys[1..])) || Within(xs, ys[1..])))
  }

  lemma {:induction false} WithinAppend(xs: seq<Sample>, ys: seq<Sample>, s: Sample)
    requires Within(xs, ys)
    ensures Within(xs, ys + [s]) && Within(xs + [s], ys + [s])
  {
    if ys == [] {
      assert xs + [s] == [s] && ys + [s] == [s] && [s][1..] == [];
      assert Within([], []);
    } else {
      assert (ys + [s])[1..] == ys[1..] + [s];
      if xs == [] {
        assert Within([], ys[1..]);
        WithinAppend([], ys[1..], s);
        assert [] + [s] == [s] == xs + [s];
      } else if xs[0] == ys[0] && Within(xs[1..], ys[1..]) {
        assert (xs + [s])[1..] == xs[1..] + [s];
        WithinAppend(xs[1..], ys[1..], s);
      } else {
        WithinAppend(xs, ys[1..], s);
      }
    }
  }

  lemma {:induction false} WithinTail(xs: seq<Sample>, ys: seq<Sample>)
    requires Within(xs, ys) && xs != []
    ensures Within(xs[1..], ys)
  {
    if !(xs[0] == ys[0] && Within(xs[1..], ys[1..])) {
      WithinTail(xs, ys[1..]);
    }
  }

  lemma {:induction false} WithinPruned(xs: seq<Sample>, ys: seq<Sample>, now: int, maxAge: nat)
    requires Within(xs, ys)
    ensures Within(Pruned(xs, now, maxAge), Pruned(ys, now, maxAge))
  {
    if ys != [] && xs != [] {
      if Stale(ys[0], now, maxAge) {
        if xs[0] == ys[0] && Within(xs[1..], ys[1..]) {
          WithinPruned(xs[1..], ys[1..], now, maxAge);
        } else {
          WithinPruned(xs, ys[1..], now, maxAge);
        }
      } else {
        PrunedStaysWithin(xs, ys, now, maxAge);
      }
    }
  }

  lemma {:induction false} PrunedStaysWithin(xs: seq<Sample>, ys: seq<Sample>, now: int, maxAge: nat)
    requires Within(xs, ys)
    ensures Within(Pruned(xs, now, maxAge), ys)
  {
    if xs != [] && Stale(xs[0], now, maxAge) {
      WithinTail(xs, ys);
      PrunedStaysWithin(xs[1..], ys, now, maxAge);
    }
  }

  predicate DistinctKeys(q: seq<Sample>) {
    forall i, j :: 0 <= i < j < |q| ==> KeyOf(q[i]) != KeyOf(q[j])
  }

  lemma {:induction false} FirstWithKeyFinds(q: seq<Sample>, key: Key)
    ensures FirstWithKey(q, key).None? <==> forall i :: 0 <= i < |q| ==> KeyOf(q[i]) != key
    ensures FirstWithKey(q, key).Some? ==> KeyOf(FirstWithKey(q, key).value) == key
  {
    if q != [] {
      FirstWithKeyFinds(q[1..], key);
      assert forall i :: 0 < i < |q| ==> q[i] == q[1..][i - 1];
    }
  }

  /** One lane of both variants over the same stream, with what was added and what was pruned. */
  datatype Track = Track(all: seq<Sample>, lane: Lane, added: nat, pruned: nat)

  datatype Event = Add(sample: Sample) | Prune(now: int)

  function NextTrack(t: Track, e: Event, maxAge: nat): Track {
    match e
    case Add(s) => Track(AddTo(false, Lane(t.all, 0, 0), s).queue, AddTo(true, t.lane, s), t.added + 1, t.pruned)
    case Prune(now) =>
      var kept := Pruned(t.lane.queue, now, maxAge);
      Track(Pruned(t.all, now, maxAge), t.lane.(queue := kept), t.added,
            t.pruned + if |kept| <= |t.lane.queue| then |t.lane.queue| - |kept| else 0)
  }

  function RunTrack(t: Track, es: seq<Event>, maxAge: nat): Track
    decreases |es|
  {
    if es == [] then t else RunTrack(NextTrack(t, es[0], maxAge), es[1..], maxAge)
  }

  predicate TrackInv(t: Track) {
    && Within(t.lane.queue, t.all)
    && DistinctKeys(t.lane.queue)
    && t.added == |t.lane.queue| + t.lane.skips + t.lane.conflicts + t.pruned
    && (t.lane.skips + t.lane.conflicts == 0 ==> t.lane.queue == t.all)
  }

  lemma NextTrackKeepsInv(t: Track, e: Event, maxAge: nat)
    requires TrackInv(t)
    ensures TrackInv(NextTrack(t, e, maxAge))
  {
    match e
    case Add(s) =>
      WithinAppend(t.lane.queue, t.all, s);
      FirstWithKeyFinds(t.lane.queue, KeyOf(s));
    case Prune(now) =>
      WithinPruned(t.lane.queue, t.all, now, maxAge);
      PrunedDropsTheStalePrefix(t.lane.queue, now, maxAge);
  }

  /**
   * Always: the deduplicated queue is part of the other in order, repeats no identity, and every
   * sample added is retained, skipped, in conflict or pruned; with none skipped or in conflict,
   * the queues are equal.
   */
  lemma {:induction false} DeduplicationRefines(t: Track, es: seq<Event>, maxAge: nat)
    requires TrackInv(t)
    ensures TrackInv(RunTrack(t, es, maxAge))
    decreases |es|
  {
    if es != [] {
      NextTrackKeepsInv(t, es[0], maxAge);
      DeduplicationRefines(NextTrack(t, es[0], maxAge), es[1..], maxAge);
    }
  }

  lemma StartingTrack()
    ensures TrackInv(Track([], EMPTY, 0, 0))
  {
  }
}
