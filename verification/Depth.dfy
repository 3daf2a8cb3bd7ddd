/**
 * Walking a sorted book: what is consumed, that no other allocation does better, and how the
 * consumed levels grow with the quantity. Levels are prices with sizes; fees play no part here.
 */
module Depth {
  import opened Common

  datatype Level = Level(price: real, quantity: real)

  predicate ValidLevels(ls: seq<Level>) {
    forall i :: 0 <= i < |ls| ==> 0.0 <= ls[i].price <= 1.0 && ls[i].quantity > 0.0
  }

  predicate Ascending(ls: seq<Level>) {
    forall i, j :: 0 <= i < j < |ls| ==> ls[i].price <= ls[j].price
  }

  predicate Descending(ls: seq<Level>) {
    forall i, j :: 0 <= i < j < |ls| ==> ls[i].price >= ls[j].price
  }

  function Size(ls: seq<Level>): real {
    if ls == [] then 0.0 else ls[0].quantity + Size(ls[1..])
  }

  function Notional(ls: seq<Level>): real {
    if ls == [] then 0.0 else ls[0].price * ls[0].quantity + Notional(ls[1..])
  }

  /** What the walk takes: whole levels from the front, the last one possibly in part. */
  function Consumed(ls: seq<Level>, q: real): seq<Level> {
    if ls == [] || q == 0.0 then []
    else
      var t := RealMin(ls[0].quantity, q);
      [Level(ls[0].price, t)] + Consumed(ls[1..], q - t)
  }

  lemma {:induction false} SizeNotNegative(ls: seq<Level>)
    requires ValidLevels(ls)
    ensures Size(ls) >= 0.0 && (ls != [] ==> Size(ls) > 0.0)
  {
    if ls != [] {
      SizeNotNegative(ls[1..]);
    }
  }

  /** The walk fills the request or the whole depth, whichever is less. */
  lemma {:induction false} ConsumedSize(ls: seq<Level>, q: real)
    requires ValidLevels(ls) && q >= 0.0
    ensures Size(Consumed(ls, q)) == RealMin(q, Size(ls))
    ensures ValidLevels(Consumed(ls, q)) && |Consumed(ls, q)| <= |ls|
    ensures q > 0.0 && ls != [] <==> Consumed(ls, q) != []
  {
    SizeNotNegative(ls);
    if ls != [] && q > 0.0 {
      var t := RealMin(ls[0].quantity, q);
      ConsumedSize(ls[1..], q - t);
      SizeNotNegative(ls[1..]);
      assert Consumed(ls, q)[1..] == Consumed(ls[1..], q - t);
    }
  }

  lemma {:induction false} ConsumedPrices(ls: seq<Level>, q: real)
    requires ValidLevels(ls) && q >= 0.0
    ensures |Consumed(ls, q)| <= |ls|
    ensures forall i :: 0 <= i < |Consumed(ls, q)| ==>
              Consumed(ls, q)[i].price == ls[i].price && Consumed(ls, q)[i].quantity <= ls[i].quantity
  {
    if ls != [] && q > 0.0 {
      ConsumedPrices(ls[1..], q - RealMin(ls[0].quantity, q));
    }
  }

  // ---------------------------------------------------------------- no allocation does better

  function Sum(a: seq<real>): real {
    if a == [] then 0.0 else a[0] + Sum(a[1..])
  }

  function Cost(ls: seq<Level>, a: seq<real>): real
    requires |a| == |ls|
  {
    if ls == [] then 0.0 else ls[0].price * a[0] + Cost(ls[1..], a[1..])
  }

  /** Any way of taking quantities from the levels, each within its level's size. */
  predicate Allocation(ls: seq<Level>, a: seq<real>) {
    |a| == |ls| && forall i :: 0 <= i < |ls| ==> 0.0 <= a[i] <= ls[i].quantity
  }

  predicate PricesAtLeast(ls: seq<Level>, bound: real) {
    forall i :: 0 <= i < |ls| ==> ls[i].price >= bound
  }

  lemma Scale(x: real, y: real, k: real)
    requires x <= y && k >= 0.0
    ensures x * k <= y * k
  {
    assert (y - x) * k >= 0.0;
  }

  lemma Distribute(k: real, x: real, y: real)
    ensures k * (x + y) == k * x + k * y
    ensures k * (x - y) == k * x - k * y
  {
  }

  lemma {:induction false} CostAtLeast(ls: seq<Level>, a: seq<real>, bound: real)
    requires Allocation(ls, a) && PricesAtLeast(ls, bound)
    ensures Sum(a) >= 0.0 && Cost(ls, a) >= bound * Sum(a)
  {
    if ls != [] {
      CostAtLeast(ls[1..], a[1..], bound);
      Scale(bound, ls[0].price, a[0]);
      Distribute(bound, a[0], Sum(a[1..]));
    }
  }

  /** A notional and a size are those of one level, taken to the amount t, and of a rest. */
  predicate Splits(notional: real, size: real, p: real, t: real, restNotional: real, restSize: real) {
    notional == p * t + restNotional && size == t + restSize
  }

  lemma ConsumedSplits(ls: seq<Level>, q: real)
    requires ls != [] && q >= 0.0 && ls[0].quantity > 0.0
    ensures var t := RealMin(ls[0].quantity, q);
            var rest := Consumed(ls[1..], q - t);
            Splits(Notional(Consumed(ls, q)), Size(Consumed(ls, q)), ls[0].price, t, Notional(rest), Size(rest))
  {
    if q > 0.0 {
      assert Consumed(ls, q)[1..] == Consumed(ls[1..], q - RealMin(ls[0].quantity, q));
    }
  }

  /** An allocation of the consumed quantity and some more pays at least the walk, and the bound for the rest. */
  lemma {:induction false} WalkIsCheapest(ls: seq<Level>, q: real, a: seq<real>, more: real, bound: real)
    requires ValidLevels(ls) && Ascending(ls) && q >= 0.0 && more >= 0.0
    requires Allocation(ls, a) && Sum(a) == Size(Consumed(ls, q)) + more
    requires PricesAtLeast(ls, bound)
    ensures PaysFor(Cost(ls, a), Notional(Consumed(ls, q)), bound, more)
  {
    if ls == [] || q == 0.0 {
      NothingTaken(ls, q, a, more, bound);
    } else {
      var p, t := ls[0].price, RealMin(ls[0].quantity, q);
      LeftOver(ls, q, a, more);
      WalkIsCheapest(ls[1..], q - t, a[1..], more + t - a[0], p);
      FirstLevelTaken(ls, q, a, more, bound);
    }
  }

  lemma NothingTaken(ls: seq<Level>, q: real, a: seq<real>, more: real, bound: real)
    requires ls == [] || q == 0.0
    requires Allocation(ls, a) && Sum(a) == Size(Consumed(ls, q)) + more && PricesAtLeast(ls, bound)
    ensures PaysFor(Cost(ls, a), Notional(Consumed(ls, q)), bound, more)
  {
    CostAtLeast(ls, a, bound);
    assert Sum(a) == more;
  }

  lemma FirstLevelTaken(ls: seq<Level>, q: real, a: seq<real>, more: real, bound: real)
    requires ls != [] && |a| == |ls| && q > 0.0 && ls[0].quantity > 0.0 && more >= 0.0 && bound <= ls[0].price
    requires var t := RealMin(ls[0].quantity, q);
             PaysFor(Cost(ls[1..], a[1..]), Notional(Consumed(ls[1..], q - t)), ls[0].price, more + t - a[0])
    ensures PaysFor(Cost(ls, a), Notional(Consumed(ls, q)), bound, more)
  {
    var p, t := ls[0].price, RealMin(ls[0].quantity, q);
    ConsumedSplits(ls, q);
    CostSplits(ls, a);
    CheaperLevelFirst(Cost(ls, a), Sum(a), Cost(ls[1..], a[1..]), Sum(a[1..]), Notional(Consumed(ls, q)),
                      Size(Consumed(ls, q)), Notional(Consumed(ls[1..], q - t)), Size(Consumed(ls[1..], q - t)),
                      p, a[0], t, more + t - a[0], more, bound);
  }

  lemma CostSplits(ls: seq<Level>, a: seq<real>)
    requires ls != [] && |a| == |ls|
    ensures Splits(Cost(ls, a), Sum(a), ls[0].price, a[0], Cost(ls[1..], a[1..]), Sum(a[1..]))
  {
  }

  /** What is still to be allocated after the first level, beyond what the walk takes there, is not negative. */
  lemma LeftOver(ls: seq<Level>, q: real, a: seq<real>, more: real)
    requires ValidLevels(ls) && ls != [] && q > 0.0 && more >= 0.0
    requires Allocation(ls, a) && Sum(a) == Size(Consumed(ls, q)) + more
    ensures var t := RealMin(ls[0].quantity, q);
            && more + t - a[0] >= 0.0
            && Sum(a[1..]) == Size(Consumed(ls[1..], q - t)) + (more + t - a[0])
  {
    var t := RealMin(ls[0].quantity, q);
    ConsumedSplits(ls, q);
    CostAtLeast(ls[1..], a[1..], 0.0);
  }

  /** A cost covers the walk's, and the bound for each further share. */
  predicate PaysFor(cost: real, walk: real, bound: real, more: real) {
    cost >= walk + bound * more
  }

  lemma CheaperLevelFirst(
    cost: real, sum: real, costRest: real, sumRest: real, walk: real, size: real, walkRest: real, sizeRest: real,
    p: real, taken: real, t: real, left: real, more: real, bound: real)
    requires Splits(cost, sum, p, taken, costRest, sumRest) && Splits(walk, size, p, t, walkRest, sizeRest)
    requires PaysFor(costRest, walkRest, p, left) && left == more + t - taken
    requires bound <= p && more >= 0.0
    ensures PaysFor(cost, walk, bound, more)
  {
    Distribute(p, more + t, taken);
    Distribute(p, more, t);
    Scale(bound, p, more);
  }

  /** Buying: no allocation of the filled quantity over the levels costs less than the walk. */
  lemma WalkMinimisesCost(ls: seq<Level>, q: real, a: seq<real>)
    requires ValidLevels(ls) && Ascending(ls) && q >= 0.0
    requires Allocation(ls, a) && Sum(a) == Size(Consumed(ls, q))
    ensures Notional(Consumed(ls, q)) <= Cost(ls, a)
  {
    WalkIsCheapest(ls, q, a, 0.0, 0.0);
  }

  // ---------------------------------------------------------------- selling, by reflection

  function Mirror(ls: seq<Level>): (r: seq<Level>)
    ensures |r| == |ls|
    ensures forall i :: 0 <= i < |ls| ==> r[i] == Level(1.0 - ls[i].price, ls[i].quantity)
  {
    if ls == [] then [] else [Level(1.0 - ls[0].price, ls[0].quantity)] + Mirror(ls[1..])
  }

  lemma {:induction false} MirrorConsumed(ls: seq<Level>, q: real)
    ensures Consumed(Mirror(ls), q) == Mirror(Consumed(ls, q))
  {
    if ls != [] && q != 0.0 {
      var t := RealMin(ls[0].quantity, q);
      assert Mirror(ls)[1..] == Mirror(ls[1..]);
      MirrorConsumed(ls[1..], q - t);
      assert Consumed(ls, q)[1..] == Consumed(ls[1..], q - t);
    }
  }

  lemma {:induction false} MirrorNotional(ls: seq<Level>)
    ensures Size(Mirror(ls)) == Size(ls) && Notional(Mirror(ls)) == Size(ls) - Notional(ls)
  {
    if ls != [] {
      assert Mirror(ls)[1..] == Mirror(ls[1..]);
      MirrorNotional(ls[1..]);
    }
  }

  lemma {:induction false} MirrorCost(ls: seq<Level>, a: seq<real>)
    requires |a| == |ls|
    ensures Cost(Mirror(ls), a) == Sum(a) - Cost(ls, a)
  {
    if ls != [] {
      assert Mirror(ls)[1..] == Mirror(ls[1..]);
      MirrorCost(ls[1..], a[1..]);
    }
  }

  /** Selling: no allocation of the filled quantity over the levels earns more than the walk. */
  lemma WalkMaximisesProceeds(ls: seq<Level>, q: real, a: seq<real>)
    requires ValidLevels(ls) && Descending(ls) && q >= 0.0
    requires Allocation(ls, a) && Sum(a) == Size(Consumed(ls, q))
    ensures Notional(Consumed(ls, q)) >= Cost(ls, a)
  {
    MirrorConsumed(ls, q);
    MirrorNotional(Consumed(ls, q));
    MirrorCost(ls, a);
    WalkMinimisesCost(Mirror(ls), q, a);
  }

  // ---------------------------------------------------------------- more quantity, same walk

  /** A quantity costs at least, or at most, the bound a share. */
  predicate CostsAtLeast(cost: real, size: real, bound: real) {
    cost >= bound * size
  }

  predicate CostsAtMost(cost: real, size: real, bound: real) {
    cost <= bound * size
  }

  /** The longer walk takes the same levels in the same order, and at least as much of the last. */
  predicate Continues(short: seq<Level>, long: seq<Level>) {
    && |short| <= |long|
    && (forall i :: 0 <= i < |short| - 1 ==> short[i] == long[i])
    && (short != [] ==> short[|short| - 1].price == long[|short| - 1].price
                        && short[|short| - 1].quantity <= long[|short| - 1].quantity)
  }

  lemma {:induction false} MoreQuantityContinues(ls: seq<Level>, q: real, r: real)
    requires ValidLevels(ls) && 0.0 <= q <= r
    ensures Continues(Consumed(ls, q), Consumed(ls, r))
  {
    if ls != [] && q > 0.0 {
      var t, u := RealMin(ls[0].quantity, q), RealMin(ls[0].quantity, r);
      if t == ls[0].quantity {
        MoreQuantityContinues(ls[1..], q - t, r - u);
      }
    }
  }

  /** What the longer walk adds costs at least the shorter one's worst price. */
  lemma {:induction false} ExtraCostsAtLeast(ls: seq<Level>, q: real, r: real, bound: real)
    requires ValidLevels(ls) && Ascending(ls) && 0.0 <= q <= r
    requires WorstAtLeast(ls, q, bound)
    ensures CostsAtLeast(Notional(Consumed(ls, r)) - Notional(Consumed(ls, q)),
                         Size(Consumed(ls, r)) - Size(Consumed(ls, q)), bound)
  {
    if ls != [] {
      WorstOfRest(ls, q, bound);
      ExtraCostsAtLeast(ls[1..], q - RealMin(ls[0].quantity, q), r - RealMin(ls[0].quantity, r), bound);
      ExtraOfFront(ls, q, r, bound);
    }
  }

  lemma ExtraOfFront(ls: seq<Level>, q: real, r: real, bound: real)
    requires ValidLevels(ls) && ls != [] && 0.0 <= q <= r
    requires var t, u := RealMin(ls[0].quantity, q), RealMin(ls[0].quantity, r);
             (u == t || bound <= ls[0].price)
             && CostsAtLeast(Notional(Consumed(ls[1..], r - u)) - Notional(Consumed(ls[1..], q - t)),
                             Size(Consumed(ls[1..], r - u)) - Size(Consumed(ls[1..], q - t)), bound)
    ensures CostsAtLeast(Notional(Consumed(ls, r)) - Notional(Consumed(ls, q)),
                         Size(Consumed(ls, r)) - Size(Consumed(ls, q)), bound)
  {
    var t, u := RealMin(ls[0].quantity, q), RealMin(ls[0].quantity, r);
    ConsumedSplits(ls, q);
    ConsumedSplits(ls, r);
    var short, long := Consumed(ls[1..], q - t), Consumed(ls[1..], r - u);
    ExtraStep(ls[0].price, u, t, Notional(long), Notional(short), Size(long), Size(short), bound,
              Notional(Consumed(ls, r)), Notional(Consumed(ls, q)), Size(Consumed(ls, r)), Size(Consumed(ls, q)));
  }

  /** The last price taken is at least the bound; before anything is taken, every price is. */
  predicate WorstAtLeast(ls: seq<Level>, q: real, bound: real) {
    var c := Consumed(ls, q);
    if c == [] then PricesAtLeast(ls, bound) else bound <= c[|c| - 1].price
  }

  lemma WorstOfRest(ls: seq<Level>, q: real, bound: real)
    requires ValidLevels(ls) && Ascending(ls) && ls != [] && q >= 0.0 && WorstAtLeast(ls, q, bound)
    ensures var t := RealMin(ls[0].quantity, q);
            WorstAtLeast(ls[1..], q - t, bound)
            && (t < ls[0].quantity ==> bound <= ls[0].price)
            && (t == ls[0].quantity || q - t == 0.0)
  {
    var rest := Consumed(ls[1..], q - RealMin(ls[0].quantity, q));
    if q > 0.0 && rest != [] {
      assert Consumed(ls, q)[|Consumed(ls, q)| - 1] == rest[|rest| - 1];
    }
  }

  lemma ExtraStep(
    p: real, u: real, t: real, long: real, short: real, sizeLong: real, sizeShort: real, bound: real,
    longAll: real, shortAll: real, sizeLongAll: real, sizeShortAll: real)
    requires CostsAtLeast(long - short, sizeLong - sizeShort, bound) && (u == t || (t < u && bound <= p))
    requires Splits(longAll, sizeLongAll, p, u, long, sizeLong)
    requires Splits(shortAll, sizeShortAll, p, t, short, sizeShort)
    ensures CostsAtLeast(longAll - shortAll, sizeLongAll - sizeShortAll, bound)
  {
    Distribute(bound, u - t, sizeLong - sizeShort);
    assert sizeLongAll - sizeShortAll == (u - t) + (sizeLong - sizeShort);
    Distribute(p, u, t);
    if u != t {
      Scale(bound, p, u - t);
    }
  }

  lemma {:induction false} NotionalBounds(ls: seq<Level>, low: real, high: real)
    requires ValidLevels(ls) && forall i :: 0 <= i < |ls| ==> low <= ls[i].price <= high
    ensures CostsAtLeast(Notional(ls), Size(ls), low) && CostsAtMost(Notional(ls), Size(ls), high)
  {
    if ls != [] {
      NotionalBounds(ls[1..], low, high);
      BoundsOfSum(ls[0].price, ls[0].quantity, Notional(ls[1..]), Size(ls[1..]), low, high, Notional(ls), Size(ls));
    }
  }

  lemma BoundsOfSum(p: real, t: real, n: real, d: real, low: real, high: real, all: real, size: real)
    requires low <= p <= high && t >= 0.0 && CostsAtLeast(n, d, low) && CostsAtMost(n, d, high)
    requires all == p * t + n && size == t + d
    ensures CostsAtLeast(all, size, low) && CostsAtMost(all, size, high)
  {
    Scale(low, p, t);
    Scale(p, high, t);
    Distribute(low, t, d);
    Distribute(high, t, d);
  }

  function Vwap(ls: seq<Level>): real
    requires ValidLevels(ls) && ls != []
  {
    SizeNotNegative(ls);
    Notional(ls) / Size(ls)
  }

  lemma DivideBounds(n: real, d: real, low: real, high: real)
    requires d > 0.0 && CostsAtLeast(n, d, low) && CostsAtMost(n, d, high)
    ensures low <= n / d <= high
  {
  }

  /** The average price lies between the first price taken and the last. */
  lemma VwapBetweenBestAndWorst(ls: seq<Level>)
    requires ValidLevels(ls) && ls != []
    ensures Ascending(ls) ==> ls[0].price <= Vwap(ls) <= ls[|ls| - 1].price
    ensures Descending(ls) ==> ls[0].price >= Vwap(ls) >= ls[|ls| - 1].price
  {
    SizeNotNegative(ls);
    var first, last := ls[0].price, ls[|ls| - 1].price;
    if Ascending(ls) {
      NotionalBounds(ls, first, last);
      DivideBounds(Notional(ls), Size(ls), first, last);
    }
    if Descending(ls) {
      NotionalBounds(ls, last, first);
      DivideBounds(Notional(ls), Size(ls), last, first);
    }
  }

  /** Averages of a cheaper start and a dearer continuation are ordered. */
  lemma DivideMonotone(n1: real, d1: real, n2: real, d2: real, w: real)
    requires 0.0 < d1 <= d2 && CostsAtMost(n1, d1, w) && CostsAtLeast(n2 - n1, d2 - d1, w)
    ensures n1 / d1 <= n2 / d2
  {
    var v := n1 / d1;
    assert v * d1 == n1;
    DivideBounds(n1, d1, v, w);
    Scale(v, w, d2 - d1);
    assert v * d2 == v * d1 + v * (d2 - d1);
    assert v * d2 <= n2;
    DivideBounds(n2, d2, v, n2 / d2);
  }

  lemma ConsumedAscending(ls: seq<Level>, q: real)
    requires ValidLevels(ls) && q >= 0.0
    ensures Ascending(ls) ==> Ascending(Consumed(ls, q))
    ensures Descending(ls) ==> Descending(Consumed(ls, q))
    ensures ValidLevels(Consumed(ls, q))
  {
    ConsumedPrices(ls, q);
    ConsumedSize(ls, q);
  }

  /** Buying more: the average, the worst price and the impact over the best price never improve. */
  lemma BuyingMoreCostsMore(ls: seq<Level>, q: real, r: real)
    requires ValidLevels(ls) && Ascending(ls) && ls != [] && 0.0 < q <= r
    ensures var a, b := Consumed(ls, q), Consumed(ls, r);
            && ValidLevels(a) && ValidLevels(b) && a != [] && b != []
            && a[0].price == b[0].price == ls[0].price
            && Vwap(a) <= Vwap(b)
            && a[|a| - 1].price <= b[|b| - 1].price
            && Vwap(a) - a[0].price <= Vwap(b) - b[0].price
  {
    var a, b := Consumed(ls, q), Consumed(ls, r);
    ConsumedSize(ls, q);
    ConsumedSize(ls, r);
    ConsumedPrices(ls, q);
    ConsumedPrices(ls, r);
    MoreQuantityContinues(ls, q, r);
    VwapGrows(ls, q, r);
  }

  lemma VwapGrows(ls: seq<Level>, q: real, r: real)
    requires ValidLevels(ls) && Ascending(ls) && 0.0 < q <= r
    requires Consumed(ls, q) != [] && ValidLevels(Consumed(ls, q))
    requires Consumed(ls, r) != [] && ValidLevels(Consumed(ls, r))
    ensures Vwap(Consumed(ls, q)) <= Vwap(Consumed(ls, r))
  {
    var a, b := Consumed(ls, q), Consumed(ls, r);
    var w := a[|a| - 1].price;
    ConsumedSize(ls, q);
    ConsumedSize(ls, r);
    SizeNotNegative(a);
    ConsumedAscending(ls, q);
    NotionalBounds(a, a[0].price, w);
    ExtraCostsAtLeast(ls, q, r, w);
    DivideMonotone(Notional(a), Size(a), Notional(b), Size(b), w);
  }

  lemma MirrorVwap(ls: seq<Level>)
    requires ValidLevels(ls) && ls != []
    ensures ValidLevels(Mirror(ls)) && Mirror(ls) != [] && Vwap(Mirror(ls)) == 1.0 - Vwap(ls)
  {
    MirrorNotional(ls);
    SizeNotNegative(ls);
    QuotientTimes(Size(ls) - Notional(ls), Size(ls));
    QuotientTimes(Notional(ls), Size(ls));
    ReflectedQuotient(Size(ls), Notional(ls), Vwap(Mirror(ls)), Vwap(ls));
  }

  lemma ReflectedQuotient(size: real, notional: real, x: real, y: real)
    requires size > 0.0 && x * size == size - notional && y * size == notional
    ensures x == 1.0 - y
  {
    var d := x + y - 1.0;
    assert d * size == x * size + y * size - size;
    assert d == 0.0;
  }

  /** Selling more: the average and the worst price never improve, nor the impact below the best price. */
  lemma SellingMoreEarnsLess(ls: seq<Level>, q: real, r: real)
    requires ValidLevels(ls) && Descending(ls) && ls != [] && 0.0 < q <= r
    ensures var a, b := Consumed(ls, q), Consumed(ls, r);
            && ValidLevels(a) && ValidLevels(b) && a != [] && b != []
            && a[0].price == b[0].price == ls[0].price
            && Vwap(a) >= Vwap(b)
            && a[|a| - 1].price >= b[|b| - 1].price
  {
    ConsumedAscending(ls, q);
    ConsumedAscending(ls, r);
    ConsumedSize(ls, q);
    ConsumedSize(ls, r);
    MirrorConsumed(ls, q);
    MirrorConsumed(ls, r);
    BuyingMoreCostsMore(Mirror(ls), q, r);
    MirrorVwap(Consumed(ls, q));
    MirrorVwap(Consumed(ls, r));
  }
}
