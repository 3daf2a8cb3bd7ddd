/**
 * Chronological walk-forward folds over whole clusters: what a fold is tested on lies strictly
 * after everything it was trained on, by more than the embargo, and no cluster is split or reused.
 */
module WalkForward {
  import opened Common
  import opened Bins
  import opened Metrics

  datatype Fold = Fold(train: seq<Observation>, test: seq<Observation>)

  datatype FoldError = CountsNotPositive | NegativeEmbargo | PooledObservations

  datatype Plan = Plan(minimumTrain: int, testClusters: int, embargo: int)

  predicate ValidPlan(p: Plan) {
    p.minimumTrain >= 1 && p.testClusters >= 1 && p.embargo >= 0
  }

  // ---------------------------------------------------------------- stable sorting

  predicate SortedBy<T>(xs: seq<T>, key: T -> int) {
    forall i, j :: 0 <= i < j < |xs| ==> key(xs[i]) <= key(xs[j])
  }

  /** The place after the last of the first k elements whose key is not greater. */
  function Place<T>(xs: seq<T>, x: T, key: T -> int, k: nat): (r: nat)
    requires k <= |xs|
    ensures r <= k && (r > 0 ==> key(xs[r - 1]) <= key(x)) && forall i :: r <= i < k ==> key(xs[i]) > key(x)
  {
    if k == 0 || key(xs[k - 1]) <= key(x) then k else Place(xs, x, key, k - 1)
  }

  function Insert<T>(xs: seq<T>, x: T, key: T -> int): seq<T> {
    var p := Place(xs, x, key, |xs|);
    xs[..p] + [x] + xs[p..]
  }

  function SortTo<T>(xs: seq<T>, key: T -> int, k: nat): seq<T>
    requires k <= |xs|
  {
    if k == 0 then [] else Insert(SortTo(xs, key, k - 1), xs[k - 1], key)
  }

  function SortBy<T>(xs: seq<T>, key: T -> int): seq<T> {
    SortTo(xs, key, |xs|)
  }

  lemma InsertSorts<T>(xs: seq<T>, x: T, key: T -> int)
    requires SortedBy(xs, key)
    ensures SortedBy(Insert(xs, x, key), key)
  {
    var p := Place(xs, x, key, |xs|);
    var r := Insert(xs, x, key);
    forall i, j | 0 <= i < j < |r| ensures key(r[i]) <= key(r[j]) {
      if i + 1 < p {
        assert key(xs[i]) <= key(xs[p - 1]);
      }
    }
  }

  lemma InsertAdds<T>(xs: seq<T>, x: T, key: T -> int)
    ensures multiset(Insert(xs, x, key)) == multiset(xs) + multiset{x} && |Insert(xs, x, key)| == |xs| + 1
  {
    var p := Place(xs, x, key, |xs|);
    assert xs == xs[..p] + xs[p..];
  }

  lemma {:induction false} SortToOrders<T>(xs: seq<T>, key: T -> int, k: nat)
    requires k <= |xs|
    ensures SortedBy(SortTo(xs, key, k), key)
  {
    if k > 0 {
      SortToOrders(xs, key, k - 1);
      InsertSorts(SortTo(xs, key, k - 1), xs[k - 1], key);
    }
  }

  lemma {:induction false} SortToKeeps<T>(xs: seq<T>, key: T -> int, k: nat)
    requires k <= |xs|
    ensures multiset(SortTo(xs, key, k)) == multiset(xs[..k])
  {
    if k > 0 {
      SortToKeeps(xs, key, k - 1);
      InsertAdds(SortTo(xs, key, k - 1), xs[k - 1], key);
      PrefixAdds(xs, k);
    }
  }

  lemma PrefixAdds<T>(xs: seq<T>, k: nat)
    requires 0 < k <= |xs|
    ensures multiset(xs[..k]) == multiset(xs[..k - 1]) + multiset{xs[k - 1]}
  {
    assert xs[..k] == xs[..k - 1] + [xs[k - 1]];
  }

  /** Sorting orders by the key and keeps every element as often as it occurs. */
  lemma SortBySorts<T>(xs: seq<T>, key: T -> int)
    ensures SortedBy(SortBy(xs, key), key) && multiset(SortBy(xs, key)) == multiset(xs)
  {
    SortToOrders(xs, key, |xs|);
    SortToKeeps(xs, key, |xs|);
    assert xs[..|xs|] == xs;
  }

  /** The elements of one key, in their order. */
  function Keyed<T>(xs: seq<T>, key: T -> int, v: int): seq<T> {
    if xs == [] then []
    else if key(xs[0]) == v then [xs[0]] + Keyed(xs[1..], key, v)
    else Keyed(xs[1..], key, v)
  }

  lemma {:induction false} KeyedOfBoth<T>(xs: seq<T>, ys: seq<T>, key: T -> int, v: int)
    ensures Keyed(xs + ys, key, v) == Keyed(xs, key, v) + Keyed(ys, key, v)
  {
    if xs == [] {
      assert xs + ys == ys;
    } else {
      KeyedOfBoth(xs[1..], ys, key, v);
      assert (xs + ys)[1..] == xs[1..] + ys;
    }
  }

  lemma {:induction false} KeyedOfNone<T>(xs: seq<T>, key: T -> int, v: int)
    requires forall i :: 0 <= i < |xs| ==> key(xs[i]) != v
    ensures Keyed(xs, key, v) == []
  {
    if xs != [] {
      KeyedOfNone(xs[1..], key, v);
    }
  }

  lemma KeyedOfOne<T>(x: T, key: T -> int, v: int)
    ensures Keyed([x], key, v) == if key(x) == v then [x] else []
  {
    assert [x][1..] == [];
    assert Keyed<T>([], key, v) == [];
  }

  lemma InsertIsStable<T>(xs: seq<T>, x: T, key: T -> int, v: int)
    ensures Keyed(Insert(xs, x, key), key, v) == Keyed(xs + [x], key, v)
  {
    var p := Place(xs, x, key, |xs|);
    assert xs == xs[..p] + xs[p..];
    MovesToTheEnd(xs[..p], x, xs[p..], key, v);
  }

  /** An element may go past elements of other keys. */
  lemma MovesToTheEnd<T>(left: seq<T>, x: T, right: seq<T>, key: T -> int, v: int)
    requires forall i :: 0 <= i < |right| ==> key(right[i]) != key(x)
    ensures Keyed(left + [x] + right, key, v) == Keyed(left + right + [x], key, v)
  {
    KeyedOfBoth(left + [x], right, key, v);
    KeyedOfBoth(left, [x], key, v);
    KeyedOfBoth(left + right, [x], key, v);
    KeyedOfBoth(left, right, key, v);
    KeyedOfOne(x, key, v);
    if key(x) == v {
      KeyedOfNone(right, key, v);
    }
  }

  lemma {:induction false} SortToIsStable<T>(xs: seq<T>, key: T -> int, k: nat, v: int)
    requires k <= |xs|
    ensures Keyed(SortTo(xs, key, k), key, v) == Keyed(xs[..k], key, v)
  {
    if k > 0 {
      var front := SortTo(xs, key, k - 1);
      SortToIsStable(xs, key, k - 1, v);
      InsertIsStable(front, xs[k - 1], key, v);
      KeyedOfBoth(front, [xs[k - 1]], key, v);
      KeyedOfBoth(xs[..k - 1], [xs[k - 1]], key, v);
      assert xs[..k] == xs[..k - 1] + [xs[k - 1]];
    }
  }

  /** Sorting is stable: the elements of each key keep their order. */
  lemma SortByIsStable<T>(xs: seq<T>, key: T -> int, v: int)
    ensures Keyed(SortBy(xs, key), key, v) == Keyed(xs, key, v)
  {
    SortToIsStable(xs, key, |xs|, v);
    assert xs[..|xs|] == xs;
  }

  lemma SameElements<T>(xs: seq<T>, ys: seq<T>, x: T)
    requires multiset(xs) == multiset(ys)
    ensures x in xs <==> x in ys
  {
    assert x in multiset(xs) <==> x in multiset(ys);
  }

  // ---------------------------------------------------------------- clusters

  /** The cluster's observations among the first k. */
  function Group(os: seq<Observation>, id: string, k: nat): seq<Observation>
    requires k <= |os|
  {
    if k == 0 then []
    else
      var front := Group(os, id, k - 1);
      if os[k - 1].clusterId == id then front + [os[k - 1]] else front
  }

  /** The cluster names among the first k observations, in the order of their first ones. */
  function Ids(os: seq<Observation>, k: nat): seq<string>
    requires k <= |os|
  {
    if k == 0 then []
    else
      var front := Ids(os, k - 1);
      if os[k - 1].clusterId in front then front else front + [os[k - 1].clusterId]
  }

  function Groups(os: seq<Observation>, ids: seq<string>): (r: seq<seq<Observation>>)
    ensures |r| == |ids| && forall i :: 0 <= i < |ids| ==> r[i] == Group(os, ids[i], |os|)
  {
    seq(|ids|, i requires 0 <= i < |ids| => Group(os, ids[i], |os|))
  }

  /** The grouping loop: a dictionary that remembers the order of insertion. */
  method GroupByCluster(os: seq<Observation>) returns (groups: seq<seq<Observation>>)
    ensures groups == Groups(os, Ids(os, |os|))
  {
    var grouped: map<string, seq<Observation>> := map[];
    var order: seq<string> := [];
    for k := 0 to |os|
      invariant order == Ids(os, k)
      invariant forall id :: id in grouped <==> id in order
      invariant forall id :: id in grouped ==> grouped[id] == Group(os, id, k)
    {
      var id := os[k].clusterId;
      if id !in grouped {
        AbsentGroup(os, id, k);
        order := order + [id];
        grouped := grouped[id := []];
      }
      grouped := grouped[id := grouped[id] + [os[k]]];
    }
    groups := seq(|order|, i requires 0 <= i < |order| => grouped[order[i]]);
  }

  lemma {:induction false} AbsentGroup(os: seq<Observation>, id: string, k: nat)
    requires k <= |os| && id !in Ids(os, k)
    ensures Group(os, id, k) == []
  {
    if k > 0 {
      AbsentGroup(os, id, k - 1);
    }
  }

  /** The least instant of the first k observations. */
  function Earliest(g: seq<Observation>, k: nat): (r: int)
    requires 0 < k <= |g|
    ensures (forall i :: 0 <= i < k ==> r <= g[i].observedAt) && exists i :: 0 <= i < k && g[i].observedAt == r
  {
    if k == 1 then assert g[0].observedAt == g[0].observedAt; g[0].observedAt
    else
      var front := Earliest(g, k - 1);
      if g[k - 1].observedAt < front then g[k - 1].observedAt else front
  }

  function Latest(g: seq<Observation>, k: nat): (r: int)
    requires 0 < k <= |g|
    ensures forall i :: 0 <= i < k ==> g[i].observedAt <= r
  {
    if k == 1 then g[0].observedAt
    else
      var front := Latest(g, k - 1);
      if g[k - 1].observedAt > front then g[k - 1].observedAt else front
  }

  function Start(g: seq<Observation>): int {
    if g == [] then 0 else Earliest(g, |g|)
  }

  function Clusters(os: seq<Observation>): seq<seq<Observation>> {
    SortBy(Groups(os, Ids(os, |os|)), Start)
  }

  /** The observations of the first k groups, one group after the other. */
  function Flat(gs: seq<seq<Observation>>, k: nat): seq<Observation>
    requires k <= |gs|
  {
    if k == 0 then [] else Flat(gs, k - 1) + gs[k - 1]
  }

  lemma {:induction false} FlatHas(gs: seq<seq<Observation>>, k: nat, o: Observation)
    requires k <= |gs|
    ensures o in Flat(gs, k) <==> exists i :: 0 <= i < k && o in gs[i]
  {
    if k > 0 {
      FlatHas(gs, k - 1, o);
    }
  }

  function All(gs: seq<seq<Observation>>): seq<Observation> {
    Flat(gs, |gs|)
  }

  // ---------------------------------------------------------------- folds

  predicate NonEmpty(cs: seq<seq<Observation>>) {
    forall i :: 0 <= i < |cs| ==> cs[i] != []
  }

  /** Whether a group ends strictly before the cutoff. */
  function Before(cutoff: int): seq<Observation> -> bool {
    (g: seq<Observation>) => g != [] && Latest(g, |g|) < cutoff
  }

  /** Those of the first k groups that are early. */
  function Past(gs: seq<seq<Observation>>, early: seq<Observation> -> bool, k: nat): seq<seq<Observation>>
    requires k <= |gs|
  {
    if k == 0 then [] else AppendIf(Past(gs, early, k - 1), gs[k - 1], early(gs[k - 1]))
  }

  function AppendIf<T>(xs: seq<T>, x: T, condition: bool): seq<T> {
    if condition then xs + [x] else xs
  }

  function Time(o: Observation): int {
    o.observedAt
  }

  function TestGroups(cs: seq<seq<Observation>>, start: nat, p: Plan): seq<seq<Observation>>
    requires start < |cs| && ValidPlan(p)
  {
    if start + p.testClusters <= |cs| then cs[start..start + p.testClusters] else cs[start..]
  }

  lemma TestNotEmpty(cs: seq<seq<Observation>>, start: nat, p: Plan)
    requires start < |cs| && ValidPlan(p) && NonEmpty(cs)
    ensures All(TestGroups(cs, start, p)) != []
  {
    var gs := TestGroups(cs, start, p);
    assert gs[0] == cs[start] && gs[0][0] in gs[0];
    FlatHas(gs, |gs|, gs[0][0]);
  }

  /** The first instant of the test clusters. */
  function TestStart(cs: seq<seq<Observation>>, start: nat, p: Plan): int
    requires start < |cs| && ValidPlan(p) && NonEmpty(cs)
  {
    TestNotEmpty(cs, start, p);
    Start(All(TestGroups(cs, start, p)))
  }

  /** Where training ends: the embargo before the first instant of the test clusters. */
  function Cutoff(cs: seq<seq<Observation>>, start: nat, p: Plan): int
    requires start < |cs| && ValidPlan(p) && NonEmpty(cs)
  {
    TestStart(cs, start, p) - p.embargo
  }

  /** The fold of a start, trained on the clusters that end before the cutoff, if these are enough. */
  function FoldBefore(cs: seq<seq<Observation>>, start: nat, p: Plan, cutoff: int): Option<Fold>
    requires start < |cs| && ValidPlan(p)
  {
    var train := Past(cs, Before(cutoff), start);
    if |train| < p.minimumTrain then None
    else Some(Fold(SortBy(All(train), Time), SortBy(All(TestGroups(cs, start, p)), Time)))
  }

  /** The folds that are not skipped, from a start on, in steps. */
  function FoldsFrom(at: nat -> Option<Fold>, start: nat, step: nat, n: nat): seq<Fold>
    requires step >= 1
    decreases n - start
  {
    if start >= n then [] else Keep(at(start), FoldsFrom(at, start + step, step, n))
  }

  function At(cs: seq<seq<Observation>>, p: Plan): nat -> Option<Fold>
    requires ValidPlan(p) && NonEmpty(cs)
  {
    (start: nat) => if start < |cs| then FoldBefore(cs, start, p, Cutoff(cs, start, p)) else None
  }

  function Keep(fold: Option<Fold>, later: seq<Fold>): seq<Fold> {
    if fold.None? then later else [fold.value] + later
  }

  lemma {:induction false} IdsAre(os: seq<Observation>, k: nat)
    requires k <= |os|
    ensures NoDuplicates(Ids(os, k))
    ensures forall i :: 0 <= i < k ==> os[i].clusterId in Ids(os, k)
    ensures forall id :: id in Ids(os, k) ==> exists i :: 0 <= i < k && os[i].clusterId == id
  {
    if k > 0 {
      IdsAre(os, k - 1);
      assert os[k - 1].clusterId in Ids(os, k);
    }
  }

  lemma {:induction false} GroupHas(os: seq<Observation>, id: string, k: nat, o: Observation)
    requires k <= |os|
    ensures o in Group(os, id, k) <==> o.clusterId == id && exists i :: 0 <= i < k && os[i] == o
  {
    if k > 0 {
      GroupHas(os, id, k - 1, o);
    }
  }

  lemma NamedGroup(os: seq<Observation>, id: string)
    requires id in Ids(os, |os|)
    ensures Group(os, id, |os|) != []
  {
    IdsAre(os, |os|);
    var i :| 0 <= i < |os| && os[i].clusterId == id;
    GroupHas(os, id, |os|, os[i]);
  }

  /** Each cluster is the group of one of the names. */
  lemma ClusterIsAGroup(os: seq<Observation>, k: nat)
    requires k < |Clusters(os)|
    ensures exists id :: id in Ids(os, |os|) && Clusters(os)[k] == Group(os, id, |os|)
  {
    var gs := Groups(os, Ids(os, |os|));
    var g := Clusters(os)[k];
    SortBySorts(gs, Start);
    assert g in Clusters(os);
    SameElements(Clusters(os), gs, g);
    var i :| 0 <= i < |gs| && gs[i] == g;
    assert Ids(os, |os|)[i] in Ids(os, |os|);
  }

  lemma ClustersNonEmpty(os: seq<Observation>)
    ensures NonEmpty(Clusters(os))
  {
    forall k | 0 <= k < |Clusters(os)| ensures Clusters(os)[k] != [] {
      ClusterIsAGroup(os, k);
      var id :| id in Ids(os, |os|) && Clusters(os)[k] == Group(os, id, |os|);
      NamedGroup(os, id);
    }
  }

  function Refused(os: seq<Observation>, p: Plan): Option<FoldError> {
    if p.minimumTrain < 1 || p.testClusters < 1 then Some(CountsNotPositive)
    else if p.embargo < 0 then Some(NegativeEmbargo)
    else if os != [] && Pooled(os) then Some(PooledObservations)
    else None
  }

  function Folds(os: seq<Observation>, p: Plan): seq<Fold>
    requires ValidPlan(p)
  {
    ClustersNonEmpty(os);
    FoldsFrom(At(Clusters(os), p), p.minimumTrain, p.testClusters, |Clusters(os)|)
  }

  method WalkForwardFolds(os: seq<Observation>, p: Plan) returns (r: Result<seq<Fold>, FoldError>)
    ensures r == if Refused(os, p).Some? then Err(Refused(os, p).value) else Ok(Folds(os, p))
  {
    var refused := Refused(os, p);
    if refused.Some? {
      return Err(refused.value);
    }
    var groups := GroupByCluster(os);
    ClustersNonEmpty(os);
    var cs := SortBy(groups, Start);
    var folds := EmitFolds(At(cs, p), p.minimumTrain, p.testClusters, |cs|);
    r := Ok(folds);
  }

  method EmitFolds(at: nat -> Option<Fold>, first: nat, step: nat, n: nat) returns (folds: seq<Fold>)
    requires step >= 1
    ensures folds == FoldsFrom(at, first, step, n)
  {
    folds := [];
    var start := first;
    while start < n
      invariant Completes(folds, FoldsFrom(at, start, step, n), FoldsFrom(at, first, step, n))
      decreases n - start
    {
      var fold := at(start);
      StartCompletes(folds, at, start, step, n, FoldsFrom(at, first, step, n));
      start := start + step;
      if fold.None? {
        continue;
      }
      folds := folds + [fold.value];
    }
    NoFoldsFrom(at, start, step, n);
  }

  lemma NoFoldsFrom(at: nat -> Option<Fold>, start: nat, step: nat, n: nat)
    requires step >= 1 && start >= n
    ensures FoldsFrom(at, start, step, n) == []
  {
  }

  lemma StartCompletes(done: seq<Fold>, at: nat -> Option<Fold>, start: nat, step: nat, n: nat, goal: seq<Fold>)
    requires step >= 1 && start < n && Completes(done, FoldsFrom(at, start, step, n), goal)
    ensures Completes(if at(start).None? then done else done + [at(start).value],
                      FoldsFrom(at, start + step, step, n), goal)
  {
    KeepCompletes(done, at(start), FoldsFrom(at, start + step, step, n), FoldsFrom(at, start, step, n), goal);
  }

  /** The folds made so far and the later ones are all of them. */
  predicate Completes(done: seq<Fold>, later: seq<Fold>, goal: seq<Fold>) {
    goal == done + later
  }

  lemma KeepCompletes(done: seq<Fold>, fold: Option<Fold>, later: seq<Fold>, all: seq<Fold>, goal: seq<Fold>)
    requires Completes(done, all, goal) && all == Keep(fold, later)
    ensures Completes(if fold.None? then done else done + [fold.value], later, goal)
  {
    if fold.Some? {
      assert done + ([fold.value] + later) == (done + [fold.value]) + later;
    }
  }
}
