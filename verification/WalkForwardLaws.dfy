/** What every list of walk-forward folds satisfies. */
module WalkForwardLaws {
  import opened Common
  import opened Metrics
  import opened WalkForward

  // ---------------------------------------------------------------- clusters of a stream

  lemma {:induction false} OccursOnce<T>(xs: seq<T>, x: T)
    requires NoDuplicates(xs)
    ensures multiset(xs)[x] <= 1
  {
    if xs != [] {
      OccursOnce(xs[..|xs| - 1], x);
      assert xs == xs[..|xs| - 1] + [xs[|xs| - 1]];
    }
  }

  lemma OccursTwice<T>(xs: seq<T>, i: nat, j: nat)
    requires i < j < |xs| && xs[i] == xs[j]
    ensures multiset(xs)[xs[i]] >= 2
  {
    assert xs == xs[..j] + xs[j..];
    assert xs[..j][i] in multiset(xs[..j]) && xs[j..][0] in multiset(xs[j..]);
  }

  predicate Pure(cs: seq<seq<Observation>>, os: seq<Observation>) {
    forall i, o :: 0 <= i < |cs| && o in cs[i] ==> o in os && o.clusterId == IdOf(cs[i])
  }

  predicate NamedApart(cs: seq<seq<Observation>>) {
    forall i, j :: 0 <= i < j < |cs| ==> IdOf(cs[i]) != IdOf(cs[j])
  }

  predicate Complete(cs: seq<seq<Observation>>, os: seq<Observation>) {
    forall o :: o in os ==> exists i :: 0 <= i < |cs| && o in cs[i]
  }

  /** Clusters are whole and named apart. */
  predicate Clustered(cs: seq<seq<Observation>>, os: seq<Observation>) {
    NonEmpty(cs) && Pure(cs, os) && NamedApart(cs) && Complete(cs, os)
  }

  function IdOf(g: seq<Observation>): string {
    if g == [] then "" else g[0].clusterId
  }

  lemma GroupIsNamed(os: seq<Observation>, id: string)
    requires id in Ids(os, |os|)
    ensures Group(os, id, |os|) != [] && IdOf(Group(os, id, |os|)) == id
  {
    NamedGroup(os, id);
    GroupHas(os, id, |os|, Group(os, id, |os|)[0]);
  }

  lemma ClusterIsGroup(os: seq<Observation>, k: nat)
    requires k < |Clusters(os)|
    ensures IdOf(Clusters(os)[k]) in Ids(os, |os|)
    ensures Clusters(os)[k] == Group(os, IdOf(Clusters(os)[k]), |os|)
  {
    ClusterIsAGroup(os, k);
    var id :| id in Ids(os, |os|) && Clusters(os)[k] == Group(os, id, |os|);
    GroupIsNamed(os, id);
  }

  lemma GroupsDiffer(os: seq<Observation>)
    ensures NoDuplicates(Groups(os, Ids(os, |os|)))
  {
    var ids := Ids(os, |os|);
    IdsAre(os, |os|);
    forall a, b | 0 <= a < b < |ids| ensures Groups(os, ids)[a] != Groups(os, ids)[b] {
      GroupIsNamed(os, ids[a]);
      GroupIsNamed(os, ids[b]);
    }
  }

  lemma NamesDiffer(os: seq<Observation>, i: nat, j: nat)
    requires i < j < |Clusters(os)|
    ensures IdOf(Clusters(os)[i]) != IdOf(Clusters(os)[j])
  {
    ClusterIsGroup(os, i);
    ClusterIsGroup(os, j);
    GroupsDiffer(os);
    SortBySorts(Groups(os, Ids(os, |os|)), Start);
    OccursOnce(Groups(os, Ids(os, |os|)), Clusters(os)[i]);
    if IdOf(Clusters(os)[i]) == IdOf(Clusters(os)[j]) {
      OccursTwice(Clusters(os), i, j);
    }
  }

  lemma EveryObservationIsClustered(os: seq<Observation>, o: Observation)
    requires o in os
    ensures exists i :: 0 <= i < |Clusters(os)| && o in Clusters(os)[i]
  {
    var k :| 0 <= k < |os| && os[k] == o;
    var ids := Ids(os, |os|);
    IdsAre(os, |os|);
    GroupHas(os, o.clusterId, |os|, o);
    var a :| 0 <= a < |ids| && ids[a] == o.clusterId;
    SortBySorts(Groups(os, ids), Start);
    HasIndex(Clusters(os), Groups(os, ids), a, o);
  }

  lemma HasIndex(cs: seq<seq<Observation>>, gs: seq<seq<Observation>>, a: nat, o: Observation)
    requires multiset(cs) == multiset(gs) && a < |gs| && o in gs[a]
    ensures exists i :: 0 <= i < |cs| && o in cs[i]
  {
    assert gs[a] in gs;
    SameElements(cs, gs, gs[a]);
    var i :| 0 <= i < |cs| && cs[i] == gs[a];
  }

  lemma ClusterHolds(os: seq<Observation>, i: nat, o: Observation)
    requires i < |Clusters(os)| && o in Clusters(os)[i]
    ensures o in os && o.clusterId == IdOf(Clusters(os)[i])
  {
    ClusterIsGroup(os, i);
    GroupHas(os, IdOf(Clusters(os)[i]), |os|, o);
  }

  lemma ClustersAreApart(os: seq<Observation>)
    ensures NamedApart(Clusters(os))
  {
    forall i, j | 0 <= i < j < |Clusters(os)| ensures IdOf(Clusters(os)[i]) != IdOf(Clusters(os)[j]) {
      NamesDiffer(os, i, j);
    }
  }

  lemma ClustersArePure(os: seq<Observation>)
    ensures Pure(Clusters(os), os)
  {
    forall i, o | 0 <= i < |Clusters(os)| && o in Clusters(os)[i]
      ensures o in os && o.clusterId == IdOf(Clusters(os)[i])
    {
      ClusterHolds(os, i, o);
    }
  }

  lemma ClustersAreComplete(os: seq<Observation>)
    ensures Complete(Clusters(os), os)
  {
    forall o | o in os ensures exists i :: 0 <= i < |Clusters(os)| && o in Clusters(os)[i] {
      EveryObservationIsClustered(os, o);
    }
  }

  lemma ClustersAreClustered(os: seq<Observation>)
    ensures Clustered(Clusters(os), os) && SortedBy(Clusters(os), Start)
  {
    ClustersNonEmpty(os);
    ClustersArePure(os);
    ClustersAreApart(os);
    ClustersAreComplete(os);
    SortBySorts(Groups(os, Ids(os, |os|)), Start);
  }

  // ---------------------------------------------------------------- one fold

  lemma {:induction false} PastHas(gs: seq<seq<Observation>>, early: seq<Observation> -> bool, n: nat, k: nat)
    requires n <= |gs| && k < |Past(gs, early, n)|
    ensures exists i :: 0 <= i < n && gs[i] == Past(gs, early, n)[k] && early(gs[i])
  {
    var front := Past(gs, early, n - 1);
    if k < |front| {
      PastHas(gs, early, n - 1, k);
      var i :| 0 <= i < n - 1 && gs[i] == front[k] && early(gs[i]);
      assert gs[i] == Past(gs, early, n)[k];
    } else {
      assert gs[n - 1] == Past(gs, early, n)[k];
    }
  }

  ghost predicate InClusters(cs: seq<seq<Observation>>, low: nat, high: nat, o: Observation) {
    exists i :: low <= i < high && i < |cs| && o in cs[i]
  }

  /** What a fold holds: early observations of earlier clusters, and its own clusters, all of them. */
  ghost predicate Holds(f: Fold, cs: seq<seq<Observation>>, start: nat, count: nat, cutoff: int) {
    && (forall x :: x in f.train ==> InClusters(cs, 0, start, x) && x.observedAt < cutoff)
    && (forall y :: y in f.test <==> InClusters(cs, start, start + count, y))
    && SortedBy(f.train, Time) && SortedBy(f.test, Time)
  }

  lemma TrainedOn(cs: seq<seq<Observation>>, start: nat, cutoff: int, x: Observation)
    requires start < |cs| && x in All(Past(cs, Before(cutoff), start))
    ensures InClusters(cs, 0, start, x) && x.observedAt < cutoff
  {
    var train := Past(cs, Before(cutoff), start);
    FlatHas(train, |train|, x);
    var k :| 0 <= k < |train| && x in train[k];
    PastHas(cs, Before(cutoff), start, k);
    var i :| 0 <= i < start && cs[i] == train[k] && Before(cutoff)(cs[i]);
    var j :| 0 <= j < |cs[i]| && cs[i][j] == x;
    assert cs[i][j].observedAt <= Latest(cs[i], |cs[i]|);
  }

  lemma TestedOn(cs: seq<seq<Observation>>, start: nat, p: Plan, y: Observation)
    requires start < |cs| && ValidPlan(p)
    ensures y in All(TestGroups(cs, start, p)) <==> InClusters(cs, start, start + p.testClusters, y)
  {
    var test := TestGroups(cs, start, p);
    FlatHas(test, |test|, y);
    forall k | 0 <= k < |test| ensures test[k] == cs[start + k] {
    }
    forall i | start <= i < |cs| && i < start + p.testClusters ensures cs[i] == test[i - start] {
    }
  }

  /** The elements of a sorted sequence are those it was sorted from. */
  lemma SortedHas(xs: seq<Observation>, x: Observation)
    ensures SortedBy(SortBy(xs, Time), Time)
    ensures x in SortBy(xs, Time) <==> x in xs
  {
    SortBySorts(xs, Time);
    SameElements(SortBy(xs, Time), xs, x);
  }

  lemma FoldHolds(cs: seq<seq<Observation>>, start: nat, p: Plan, cutoff: int)
    requires start < |cs| && ValidPlan(p) && FoldBefore(cs, start, p, cutoff).Some?
    ensures Holds(FoldBefore(cs, start, p, cutoff).value, cs, start, p.testClusters, cutoff)
  {
    var train, test := All(Past(cs, Before(cutoff), start)), All(TestGroups(cs, start, p));
    SortBySorts(train, Time);
    SortBySorts(test, Time);
    forall x | x in SortBy(train, Time) ensures InClusters(cs, 0, start, x) && x.observedAt < cutoff {
      SortedHas(train, x);
      TrainedOn(cs, start, cutoff, x);
    }
    forall y ensures y in SortBy(test, Time) <==> InClusters(cs, start, start + p.testClusters, y) {
      SortedHas(test, y);
      TestedOn(cs, start, p, y);
    }
  }

  lemma TestsAreLate(cs: seq<seq<Observation>>, start: nat, p: Plan, y: Observation)
    requires start < |cs| && ValidPlan(p) && NonEmpty(cs) && InClusters(cs, start, start + p.testClusters, y)
    ensures TestStart(cs, start, p) <= y.observedAt
  {
    TestNotEmpty(cs, start, p);
    TestedOn(cs, start, p, y);
    var all := All(TestGroups(cs, start, p));
    var i :| 0 <= i < |all| && all[i] == y;
    assert Earliest(all, |all|) <= all[i].observedAt;
  }

  lemma SameCluster(cs: seq<seq<Observation>>, os: seq<Observation>, x: Observation, y: Observation, i: nat, j: nat)
    requires Pure(cs, os) && NamedApart(cs) && i < |cs| && j < |cs| && x in cs[i] && y in cs[j]
    ensures x.clusterId == y.clusterId <==> i == j
  {
  }

  /** No cluster is split: a tested cluster is tested whole, and none of it is trained on. */
  lemma TestClustersAreWhole(
    f: Fold, cs: seq<seq<Observation>>, os: seq<Observation>, start: nat, count: nat, cutoff: int, y: Observation,
    o: Observation)
    requires Clustered(cs, os) && Holds(f, cs, start, count, cutoff)
    requires y in f.test && o in os && o.clusterId == y.clusterId
    ensures o in f.test && o !in f.train
  {
    var i :| start <= i < start + count && i < |cs| && y in cs[i];
    var j :| 0 <= j < |cs| && o in cs[j];
    SameCluster(cs, os, y, o, i, j);
    assert InClusters(cs, start, start + count, o);
    if InClusters(cs, 0, start, o) {
      ApartClusters(cs, os, 0, start, start, start + count, o, o);
    }
  }

  /** Observations of earlier and of later clusters are of different clusters. */
  lemma ApartClusters(
    cs: seq<seq<Observation>>, os: seq<Observation>, a: nat, b: nat, c: nat, d: nat, x: Observation, y: Observation)
    requires Pure(cs, os) && NamedApart(cs) && b <= c && InClusters(cs, a, b, x) && InClusters(cs, c, d, y)
    ensures x.clusterId != y.clusterId
  {
    var i :| a <= i < b && i < |cs| && x in cs[i];
    var j :| c <= j < d && j < |cs| && y in cs[j];
    SameCluster(cs, os, x, y, i, j);
  }

  // ---------------------------------------------------------------- later folds

  /** The second groups are at least as many and hold at least the same observations. */
  ghost predicate Fewer(gs: seq<seq<Observation>>, hs: seq<seq<Observation>>) {
    |gs| <= |hs| && multiset(All(gs)) <= multiset(All(hs))
  }

  lemma {:induction false} FlatPrefix(gs: seq<seq<Observation>>, hs: seq<seq<Observation>>, k: nat)
    requires k <= |gs| <= |hs| && gs == hs[..|gs|]
    ensures Flat(gs, k) == Flat(hs, k)
  {
    if k > 0 {
      FlatPrefix(gs, hs, k - 1);
    }
  }

  lemma AllAppend(gs: seq<seq<Observation>>, g: seq<Observation>)
    ensures All(gs + [g]) == All(gs) + g
  {
    FlatPrefix(gs, gs + [g], |gs|);
  }

  lemma FewerAppend(
    gs: seq<seq<Observation>>, hs: seq<seq<Observation>>, g: seq<Observation>, inFirst: bool, inSecond: bool)
    requires Fewer(gs, hs) && (inFirst ==> inSecond)
    ensures Fewer(AppendIf(gs, g, inFirst), AppendIf(hs, g, inSecond))
  {
    AllAppend(gs, g);
    AllAppend(hs, g);
    assert multiset(All(hs) + g) == multiset(All(hs)) + multiset(g);
    assert multiset(All(gs) + g) == multiset(All(gs)) + multiset(g);
  }

  /** With a later cutoff and more groups, at least as much is past. */
  lemma {:induction false} PastNested(cs: seq<seq<Observation>>, s: nat, t: nat, c: int, d: int)
    requires s <= t <= |cs| && c <= d
    ensures Fewer(Past(cs, Before(c), s), Past(cs, Before(d), t))
    decreases t
  {
    if t == 0 {
      assert Past(cs, Before(c), s) == [] == Past(cs, Before(d), t);
    } else if s == t {
      PastNested(cs, s - 1, t - 1, c, d);
      FewerAppend(Past(cs, Before(c), s - 1), Past(cs, Before(d), t - 1), cs[t - 1], Before(c)(cs[t - 1]),
                  Before(d)(cs[t - 1]));
    } else {
      PastNested(cs, s, t - 1, c, d);
      FewerAppend(Past(cs, Before(c), s), Past(cs, Before(d), t - 1), cs[t - 1], false, Before(d)(cs[t - 1]));
    }
  }

  lemma EarliestFirst(cs: seq<seq<Observation>>, start: nat, p: Plan)
    requires start < |cs| && ValidPlan(p) && NonEmpty(cs)
    ensures TestStart(cs, start, p) <= Start(cs[start])
  {
    var i :| 0 <= i < |cs[start]| && cs[start][i].observedAt == Earliest(cs[start], |cs[start]|);
    assert cs[start][i] in cs[start];
    TestsAreLate(cs, start, p, cs[start][i]);
  }

  lemma TestStartIsAStart(cs: seq<seq<Observation>>, start: nat, p: Plan)
    requires start < |cs| && ValidPlan(p) && NonEmpty(cs)
    ensures exists i :: start <= i < |cs| && Start(cs[i]) <= TestStart(cs, start, p)
  {
    TestNotEmpty(cs, start, p);
    var all := All(TestGroups(cs, start, p));
    var j :| 0 <= j < |all| && all[j].observedAt == Earliest(all, |all|);
    assert all[j] in all;
    TestedOn(cs, start, p, all[j]);
    var i :| start <= i < start + p.testClusters && i < |cs| && all[j] in cs[i];
    var k :| 0 <= k < |cs[i]| && cs[i][k] == all[j];
    assert Earliest(cs[i], |cs[i]|) <= cs[i][k].observedAt;
  }

  lemma TestStartIsFirst(cs: seq<seq<Observation>>, start: nat, p: Plan)
    requires start < |cs| && ValidPlan(p) && NonEmpty(cs) && SortedBy(cs, Start)
    ensures TestStart(cs, start, p) == Start(cs[start])
  {
    EarliestFirst(cs, start, p);
    TestStartIsAStart(cs, start, p);
  }

  lemma LaterCutoff(cs: seq<seq<Observation>>, s: nat, t: nat, p: Plan)
    requires s <= t < |cs| && ValidPlan(p) && NonEmpty(cs) && SortedBy(cs, Start)
    ensures Cutoff(cs, s, p) <= Cutoff(cs, t, p)
  {
    TestStartIsFirst(cs, s, p);
    TestStartIsFirst(cs, t, p);
  }

  /** Training only grows: a later start, with a later cutoff, trains on everything an earlier one did. */
  lemma FoldsAreNested(cs: seq<seq<Observation>>, s: nat, t: nat, p: Plan, c: int, d: int)
    requires s <= t < |cs| && ValidPlan(p) && c <= d && FoldBefore(cs, s, p, c).Some?
    ensures FoldBefore(cs, t, p, d).Some?
    ensures multiset(FoldBefore(cs, s, p, c).value.train) <= multiset(FoldBefore(cs, t, p, d).value.train)
  {
    PastNested(cs, s, t, c, d);
    SortBySorts(All(Past(cs, Before(c), s)), Time);
    SortBySorts(All(Past(cs, Before(d), t)), Time);
  }

  // ---------------------------------------------------------------- the list of folds

  /** The starts whose folds are not skipped. */
  function Starts(at: nat -> Option<Fold>, start: nat, step: nat, n: nat): seq<nat>
    requires step >= 1
    decreases n - start
  {
    if start >= n then []
    else if at(start).Some? then [start] + Starts(at, start + step, step, n)
    else Starts(at, start + step, step, n)
  }

  /** The folds are those of the starts, which lie at least a step apart. */
  predicate AtStarts(at: nat -> Option<Fold>, ss: seq<nat>, fs: seq<Fold>, start: nat, step: nat, n: nat) {
    && |ss| == |fs|
    && (forall i :: 0 <= i < |ss| ==> start <= ss[i] < n && at(ss[i]) == Some(fs[i]))
    && (forall i, j :: 0 <= i < j < |ss| ==> ss[i] + step <= ss[j])
  }

  lemma AtStartsPrepend(at: nat -> Option<Fold>, ss: seq<nat>, fs: seq<Fold>, start: nat, step: nat, n: nat)
    requires AtStarts(at, ss, fs, start + step, step, n) && start < n && at(start).Some?
    ensures AtStarts(at, [start] + ss, [at(start).value] + fs, start, step, n)
  {
  }

  lemma {:induction false} FoldsAreAtStarts(at: nat -> Option<Fold>, start: nat, step: nat, n: nat)
    requires step >= 1
    ensures AtStarts(at, Starts(at, start, step, n), FoldsFrom(at, start, step, n), start, step, n)
    decreases n - start
  {
    if start < n {
      FoldsAreAtStarts(at, start + step, step, n);
      if at(start).Some? {
        AtStartsPrepend(at, Starts(at, start + step, step, n), FoldsFrom(at, start + step, step, n), start, step, n);
      } else {
        assert Starts(at, start, step, n) == Starts(at, start + step, step, n);
      }
    }
  }

  /** Skipped folds can only come first: from the first one made, every step makes one. */
  lemma {:induction false} SkipsComeFirst(at: nat -> Option<Fold>, start: nat, step: nat, n: nat)
    requires step >= 1 && forall s: nat, t: nat :: s <= t < n && at(s).Some? ==> at(t).Some?
    ensures var ss := Starts(at, start, step, n);
            && (forall i :: 0 <= i < |ss| - 1 ==> ss[i + 1] == ss[i] + step)
            && (ss != [] ==> ss[|ss| - 1] + step >= n)
            && (start < n && at(start).Some? ==> ss != [] && ss[0] == start)
    decreases n - start
  {
    if start < n {
      SkipsComeFirst(at, start + step, step, n);
    }
  }

  function StartsOf(os: seq<Observation>, p: Plan): seq<nat>
    requires ValidPlan(p)
  {
    ClustersNonEmpty(os);
    Starts(At(Clusters(os), p), p.minimumTrain, p.testClusters, |Clusters(os)|)
  }

  lemma AtIs(cs: seq<seq<Observation>>, p: Plan, start: nat)
    requires start < |cs| && ValidPlan(p) && NonEmpty(cs)
    ensures At(cs, p)(start) == FoldBefore(cs, start, p, Cutoff(cs, start, p))
  {
  }

  /** The list's folds are those of increasing starts, each at least a step after the one before. */
  lemma FoldsOf(os: seq<Observation>, p: Plan)
    requires ValidPlan(p)
    ensures NonEmpty(Clusters(os))
    ensures AtStarts(At(Clusters(os), p), StartsOf(os, p), Folds(os, p), p.minimumTrain, p.testClusters, |Clusters(os)|)
  {
    ClustersNonEmpty(os);
    FoldsAreAtStarts(At(Clusters(os), p), p.minimumTrain, p.testClusters, |Clusters(os)|);
  }

  /** What the parts of a fold promise of each other. */
  ghost predicate Sound(f: Fold, os: seq<Observation>, embargo: int) {
    && (forall x, y :: x in f.train && y in f.test ==> x.observedAt < y.observedAt - embargo)
    && SortedBy(f.train, Time) && SortedBy(f.test, Time)
    && (forall y, o :: y in f.test && o in os && o.clusterId == y.clusterId ==> o in f.test && o !in f.train)
    && Whole(f.train, os)
  }

  /** With an observation of a cluster, all the cluster's observations. */
  predicate Whole(xs: seq<Observation>, os: seq<Observation>) {
    forall x, o :: x in xs && o in os && o.clusterId == x.clusterId ==> o in xs
  }

  /** Trained clusters are trained whole: the groups that are early enough are appended as they are. */
  lemma TrainClustersAreWhole(cs: seq<seq<Observation>>, os: seq<Observation>, start: nat, cutoff: int)
    requires Clustered(cs, os) && start < |cs|
    ensures Whole(SortBy(All(Past(cs, Before(cutoff), start)), Time), os)
  {
    var train := All(Past(cs, Before(cutoff), start));
    forall x, o | x in SortBy(train, Time) && o in os && o.clusterId == x.clusterId ensures o in SortBy(train, Time) {
      SortedHas(train, x);
      SortedHas(train, o);
      GroupIsTrainedWhole(cs, os, start, cutoff, x, o);
    }
  }

  lemma GroupIsTrainedWhole(
    cs: seq<seq<Observation>>, os: seq<Observation>, start: nat, cutoff: int, x: Observation, o: Observation)
    requires Pure(cs, os) && NamedApart(cs) && Complete(cs, os) && start < |cs|
    requires x in All(Past(cs, Before(cutoff), start)) && o in os && o.clusterId == x.clusterId
    ensures o in All(Past(cs, Before(cutoff), start))
  {
    var train := Past(cs, Before(cutoff), start);
    FlatHas(train, |train|, x);
    FlatHas(train, |train|, o);
    var k :| 0 <= k < |train| && x in train[k];
    PastHas(cs, Before(cutoff), start, k);
    var i :| 0 <= i < start && cs[i] == train[k];
    var j :| 0 <= j < |cs| && o in cs[j];
    SameCluster(cs, os, x, o, i, j);
    assert o in train[k];
  }

  lemma FoldIsSound(
    f: Fold, cs: seq<seq<Observation>>, os: seq<Observation>, start: nat, count: nat, cutoff: int, e: int)
    requires Clustered(cs, os) && Holds(f, cs, start, count, cutoff) && Whole(f.train, os)
    requires forall y :: y in f.test ==> cutoff <= y.observedAt - e
    ensures Sound(f, os, e)
  {
    forall y, o | y in f.test && o in os && o.clusterId == y.clusterId ensures o in f.test && o !in f.train {
      TestClustersAreWhole(f, cs, os, start, count, cutoff, y, o);
    }
  }

  lemma FoldAtIsSound(cs: seq<seq<Observation>>, os: seq<Observation>, start: nat, p: Plan)
    requires start < |cs| && ValidPlan(p) && Clustered(cs, os)
    ensures At(cs, p)(start).Some? ==> Sound(At(cs, p)(start).value, os, p.embargo)
  {
    AtIs(cs, p, start);
    if At(cs, p)(start).Some? {
      var f := At(cs, p)(start).value;
      FoldHolds(cs, start, p, Cutoff(cs, start, p));
      TrainClustersAreWhole(cs, os, start, Cutoff(cs, start, p));
      forall y | y in f.test ensures Cutoff(cs, start, p) <= y.observedAt - p.embargo {
        TestsAreLate(cs, start, p, y);
      }
      FoldIsSound(f, cs, os, start, p.testClusters, Cutoff(cs, start, p), p.embargo);
    }
  }

  /** Each fold: no leakage, time order, and whole clusters. */
  lemma EveryFoldIsSound(os: seq<Observation>, p: Plan)
    requires ValidPlan(p)
    ensures forall f :: f in Folds(os, p) ==> Sound(f, os, p.embargo)
  {
    ClustersAreClustered(os);
    FoldsOf(os, p);
    forall f | f in Folds(os, p) ensures Sound(f, os, p.embargo) {
      var i :| 0 <= i < |Folds(os, p)| && Folds(os, p)[i] == f;
      FoldAtIsSound(Clusters(os), os, StartsOf(os, p)[i], p);
    }
  }

  /** The later fold tests other clusters, and trains on all the earlier one did. */
  ghost predicate Follows(f: Fold, g: Fold) {
    && (forall x, y :: x in f.test && y in g.test ==> x.clusterId != y.clusterId)
    && multiset(f.train) <= multiset(g.train)
  }

  lemma TestsAreApart(
    f: Fold, g: Fold, cs: seq<seq<Observation>>, os: seq<Observation>, s: nat, t: nat, count: nat, c: int, d: int)
    requires Pure(cs, os) && NamedApart(cs) && s + count <= t
    requires Holds(f, cs, s, count, c) && Holds(g, cs, t, count, d)
    ensures forall x, y :: x in f.test && y in g.test ==> x.clusterId != y.clusterId
  {
    forall x, y | x in f.test && y in g.test ensures x.clusterId != y.clusterId {
      ApartClusters(cs, os, s, s + count, t, t + count, x, y);
    }
  }

  /** No cluster is tested twice, and training only grows. */
  lemma FoldAtFollows(cs: seq<seq<Observation>>, os: seq<Observation>, s: nat, t: nat, p: Plan)
    requires ValidPlan(p) && s + p.testClusters <= t < |cs| && Clustered(cs, os) && SortedBy(cs, Start)
    ensures At(cs, p)(s).Some? && At(cs, p)(t).Some? ==> Follows(At(cs, p)(s).value, At(cs, p)(t).value)
  {
    AtIs(cs, p, s);
    AtIs(cs, p, t);
    if At(cs, p)(s).Some? && At(cs, p)(t).Some? {
      FoldHolds(cs, s, p, Cutoff(cs, s, p));
      FoldHolds(cs, t, p, Cutoff(cs, t, p));
      TestsAreApart(At(cs, p)(s).value, At(cs, p)(t).value, cs, os, s, t, p.testClusters, Cutoff(cs, s, p),
                    Cutoff(cs, t, p));
      LaterCutoff(cs, s, t, p);
      FoldsAreNested(cs, s, t, p, Cutoff(cs, s, p), Cutoff(cs, t, p));
    }
  }

  lemma EveryTwoFoldsFollow(os: seq<Observation>, p: Plan)
    requires ValidPlan(p)
    ensures forall i, j :: 0 <= i < j < |Folds(os, p)| ==> Follows(Folds(os, p)[i], Folds(os, p)[j])
  {
    ClustersAreClustered(os);
    FoldsOf(os, p);
    forall i, j | 0 <= i < j < |Folds(os, p)| ensures Follows(Folds(os, p)[i], Folds(os, p)[j]) {
      FoldAtFollows(Clusters(os), os, StartsOf(os, p)[i], StartsOf(os, p)[j], p);
    }
  }

  lemma LaterFoldsAreMade(cs: seq<seq<Observation>>, p: Plan, s: nat, t: nat)
    requires ValidPlan(p) && s <= t < |cs| && NonEmpty(cs) && SortedBy(cs, Start)
    ensures At(cs, p)(s).Some? ==> At(cs, p)(t).Some?
  {
    AtIs(cs, p, s);
    AtIs(cs, p, t);
    if At(cs, p)(s).Some? {
      LaterCutoff(cs, s, t, p);
      FoldsAreNested(cs, s, t, p, Cutoff(cs, s, p), Cutoff(cs, t, p));
    }
  }

  /** The folds made are consecutive and reach the end: what is skipped is an initial run. */
  lemma SkippedFoldsComeFirst(os: seq<Observation>, p: Plan)
    requires ValidPlan(p)
    ensures var ss := StartsOf(os, p);
            && |ss| == |Folds(os, p)|
            && (forall i :: 0 <= i < |ss| - 1 ==> ss[i + 1] == ss[i] + p.testClusters)
            && (ss != [] ==> ss[|ss| - 1] + p.testClusters >= |Clusters(os)|)
  {
    ClustersNonEmpty(os);
    SortBySorts(Groups(os, Ids(os, |os|)), Start);
    var n, at := |Clusters(os)|, At(Clusters(os), p);
    forall s: nat, t: nat | s <= t < n && at(s).Some? ensures at(t).Some? {
      LaterFoldsAreMade(Clusters(os), p, s, t);
    }
    SkipsComeFirst(at, p.minimumTrain, p.testClusters, n);
    FoldsAreAtStarts(at, p.minimumTrain, p.testClusters, n);
  }
}
