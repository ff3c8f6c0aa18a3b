/** The loss-bounded exit planner: how much can be sold into the visible bids, at which
    limit, without giving up more than a fraction of the cost. */
module Exit {
  import opened Common
  import opened Accounting

  /** A bid as the book lists it: sizes in 1e-8 shares, prices in 1e-4 dollars. */
  datatype BidLevel = Unreadable | Bid(price: int, size: int) {
    predicate Usable() { Bid? && 0 < price < ONE_DOLLAR && size > 0 }
  }

  datatype Intent = Intent(
    limit: int, size: int, bestBid: int, impactFloor: real, lossFloor: real, availableDepth: int)

  datatype Position = Position(held: int, cost: real)

  datatype ExitSettings = ExitSettings(maxImpact: real, maxLoss: real, minimum: int)

  const CENT: real := 100.0                  // 0.01 dollars
  const PRICE_TOLERANCE: real := 0.00001     // 1e-9 dollars

  predicate ValidInputs(requested: int, p: Position, s: ExitSettings) {
    && requested > 0 && p.held > 0 && p.cost >= 0.0
    && s.maxImpact >= 0.0 && 0.0 <= s.maxLoss < 1.0 && s.minimum > 0
  }

  predicate AllUsable(bids: seq<BidLevel>) {
    forall i :: 0 <= i < |bids| ==> bids[i].Usable()
  }

  function Average(p: Position): real
    requires p.held > 0
  {
    p.cost / p.held as real
  }

  function LossFloor(p: Position, s: ExitSettings): real
    requires p.held > 0
  {
    if p.cost > 0.0 then MaxReal(CENT, Average(p) * (1.0 - s.maxLoss)) else CENT
  }

  function ImpactFloor(best: int, s: ExitSettings): real {
    MaxReal(CENT, best as real - s.maxImpact)
  }

  predicate Above(price: int, floor: real) {
    price as real + PRICE_TOLERANCE >= floor
  }

  // ----- Bids by falling price ----------------------------------------------

  predicate Dearer(a: BidLevel, b: BidLevel)
    requires a.Bid? && b.Bid?
  {
    a.price > b.price || (a.price == b.price && a.size >= b.size)
  }

  function InsertBid(sorted: seq<BidLevel>, b: BidLevel): seq<BidLevel>
    requires AllUsable(sorted) && b.Usable()
  {
    if sorted == [] then [b]
    else if Dearer(sorted[0], b) then [sorted[0]] + InsertBid(sorted[1..], b)
    else [b] + sorted
  }

  lemma {:induction false} InsertBidKeeps(sorted: seq<BidLevel>, b: BidLevel)
    requires AllUsable(sorted) && b.Usable()
    ensures AllUsable(InsertBid(sorted, b)) && |InsertBid(sorted, b)| == |sorted| + 1
    ensures Falling(sorted) ==> Falling(InsertBid(sorted, b))
    ensures sorted != [] ==> InsertBid(sorted, b)[0] == sorted[0] || InsertBid(sorted, b)[0] == b
    ensures forall limit :: Depth(InsertBid(sorted, b), limit) == Depth(sorted, limit) + (if b.price >= limit then b.size else 0)
  {
    if sorted != [] && Dearer(sorted[0], b) {
      InsertBidKeeps(sorted[1..], b);
      var rest := InsertBid(sorted[1..], b);
      assert ([sorted[0]] + rest)[1..] == rest;
    } else {
      assert ([b] + sorted)[1..] == sorted;
    }
  }

  function SortBids(bids: seq<BidLevel>): (sorted: seq<BidLevel>)
    requires AllUsable(bids)
    ensures AllUsable(sorted)
  {
    if bids == [] then []
    else
      InsertBidKeeps(SortBids(bids[1..]), bids[0]);
      InsertBid(SortBids(bids[1..]), bids[0])
  }

  predicate Falling(bids: seq<BidLevel>)
    requires AllUsable(bids)
  {
    |bids| >= 2 ==> bids[0].price >= bids[1].price && Falling(bids[1..])
  }

  /** Shares bid at or above a limit. */
  function Depth(bids: seq<BidLevel>, limit: int): int
    requires AllUsable(bids)
  {
    if bids == [] then 0 else (if bids[0].price >= limit then bids[0].size else 0) + Depth(bids[1..], limit)
  }

  /** Shares bid above a floor. */
  function DepthAbove(bids: seq<BidLevel>, floor: real): int
    requires AllUsable(bids)
  {
    if bids == [] then 0 else (if Above(bids[0].price, floor) then bids[0].size else 0) + DepthAbove(bids[1..], floor)
  }

  function BestBid(bids: seq<BidLevel>): int
    requires AllUsable(bids) && bids != []
  {
    if |bids| == 1 then bids[0].price else MaxInt(bids[0].price, BestBid(bids[1..]))
  }

  lemma {:induction false} InsertBidDepthAbove(sorted: seq<BidLevel>, b: BidLevel, floor: real)
    requires AllUsable(sorted) && b.Usable()
    ensures AllUsable(InsertBid(sorted, b))
    ensures DepthAbove(InsertBid(sorted, b), floor) == DepthAbove(sorted, floor) + (if Above(b.price, floor) then b.size else 0)
  {
    InsertBidKeeps(sorted, b);
    if sorted != [] && Dearer(sorted[0], b) {
      InsertBidDepthAbove(sorted[1..], b, floor);
      assert ([sorted[0]] + InsertBid(sorted[1..], b))[1..] == InsertBid(sorted[1..], b);
    } else {
      assert ([b] + sorted)[1..] == sorted;
    }
  }

  /** Sorting only reorders: it falls in price and keeps every depth. */
  lemma {:induction false} SortBidsSorts(bids: seq<BidLevel>, floor: real)
    requires AllUsable(bids)
    ensures var sorted := SortBids(bids);
            && Falling(sorted) && |sorted| == |bids|
            && (forall limit :: Depth(sorted, limit) == Depth(bids, limit))
            && DepthAbove(sorted, floor) == DepthAbove(bids, floor)
            && (bids != [] ==> sorted[0].price == BestBid(bids))
  {
    if bids != [] {
      SortBidsSorts(bids[1..], floor);
      InsertBidKeeps(SortBids(bids[1..]), bids[0]);
      InsertBidDepthAbove(SortBids(bids[1..]), bids[0], floor);
      if |bids| > 1 {
        FallingFromFirst(InsertBid(SortBids(bids[1..]), bids[0]));
      }
    }
  }

  lemma {:induction false} FallingFromFirst(bids: seq<BidLevel>)
    requires AllUsable(bids) && Falling(bids) && bids != []
    ensures forall i :: 0 <= i < |bids| ==> bids[0].price >= bids[i].price
  {
    if |bids| > 1 {
      FallingFromFirst(bids[1..]);
      forall i | 0 < i < |bids| ensures bids[0].price >= bids[i].price {
        assert bids[i] == bids[1..][i - 1];
      }
    }
  }

  function TotalSize(bids: seq<BidLevel>): int
    requires AllUsable(bids)
  {
    if bids == [] then 0 else TotalSize(bids[..|bids| - 1]) + bids[|bids| - 1].size
  }

  // ----- The plan -----------------------------------------------------------

  /** The floor a limit must respect. */
  function Floor(best: int, p: Position, s: ExitSettings): real
    requires p.held > 0
  {
    MaxReal(ImpactFloor(best, s), LossFloor(p, s))
  }

  function Smaller(a: int, b: int): int { if a <= b then a else b }

  /** How much the floors let a position sell into these bids. */
  function Sellable(bids: seq<BidLevel>, requested: int, p: Position, s: ExitSettings): int
    requires AllUsable(bids) && bids != [] && p.held > 0
  {
    Smaller(Smaller(requested, p.held), DepthAbove(bids, Floor(BestBid(bids), p, s)))
  }

  // ----- What the floors mean -----------------------------------------------

  /** A price that may be sold at: at least a cent, no further below the best bid than the impact
      allows, and losing no more than the allowed part of the cost, each to 1e-9 dollars. */
  ghost predicate Acceptable(price: int, best: int, p: Position, s: ExitSettings) {
    var q := price as real + 0.00001;
    && q >= 100.0 && q >= best as real - s.maxImpact
    && (p.cost > 0.0 ==> Times(q, p.held as real) >= Times(p.cost, 1.0 - s.maxLoss))
  }

  /** The loss floor: a cent, or the price at which what is sold brings in the rest of its cost. */
  ghost predicate IsLossFloor(x: real, p: Position, s: ExitSettings) {
    if p.cost <= 0.0 then x == 100.0
    else
      && x >= 100.0 && Times(x, p.held as real) >= Times(p.cost, 1.0 - s.maxLoss)
      && (x == 100.0 || Times(x, p.held as real) == Times(p.cost, 1.0 - s.maxLoss))
  }

  lemma AverageTimes(p: Position, k: real)
    requires p.held > 0
    ensures Times(Average(p) * k, p.held as real) == Times(p.cost, k)
  {
    var a := Average(p);
    assert a * p.held as real == p.cost;
    assert a * k * p.held as real == a * p.held as real * k;
  }

  lemma LossFloorIs(p: Position, s: ExitSettings)
    requires p.held > 0
    ensures IsLossFloor(LossFloor(p, s), p, s)
  {
    hide Average;
    AverageTimes(p, 1.0 - s.maxLoss);
    var x := Average(p) * (1.0 - s.maxLoss);
    TimesRises(x, 100.0, p.held as real);
    hide Times;
  }

  lemma ClearsLossFloorIff(q: real, p: Position, s: ExitSettings)
    requires p.held > 0
    ensures q >= LossFloor(p, s)
       <==> q >= 100.0 && (p.cost > 0.0 ==> Times(q, p.held as real) >= Times(p.cost, 1.0 - s.maxLoss))
  {
    LossFloorIs(p, s);
    var x := LossFloor(p, s);
    TimesRises(x, q, p.held as real);
    TimesRises(q, x, p.held as real);
    hide Times, LossFloor;
  }

  /** The floors let exactly the acceptable prices through. */
  lemma AboveFloorIff(price: int, best: int, p: Position, s: ExitSettings)
    requires p.held > 0
    ensures Above(price, Floor(best, p, s)) <==> Acceptable(price, best, p, s)
  {
    ClearsLossFloorIff(price as real + PRICE_TOLERANCE, p, s);
    hide LossFloor, Times;
  }

  /** Shares bid at acceptable prices. */
  ghost function AcceptableDepth(bids: seq<BidLevel>, best: int, p: Position, s: ExitSettings): int
    requires AllUsable(bids)
  {
    if bids == [] then 0
    else (if Acceptable(bids[0].price, best, p, s) then bids[0].size else 0) + AcceptableDepth(bids[1..], best, p, s)
  }

  lemma {:induction false} DepthAboveIs(bids: seq<BidLevel>, best: int, p: Position, s: ExitSettings)
    requires AllUsable(bids) && p.held > 0
    ensures DepthAbove(bids, Floor(best, p, s)) == AcceptableDepth(bids, best, p, s)
  {
    hide Acceptable, Above, Floor;
    if bids != [] {
      AboveFloorIff(bids[0].price, best, p, s);
      DepthAboveIs(bids[1..], best, p, s);
    }
  }

  lemma {:induction false} BestBidIsBest(bids: seq<BidLevel>)
    requires AllUsable(bids) && bids != []
    ensures exists i :: 0 <= i < |bids| && bids[i].price == BestBid(bids)
    ensures forall i :: 0 <= i < |bids| ==> bids[i].price <= BestBid(bids)
  {
    if |bids| > 1 {
      BestBidIsBest(bids[1..]);
      var i :| 0 <= i < |bids[1..]| && bids[1..][i].price == BestBid(bids[1..]);
      assert bids[i + 1].price == BestBid(bids[1..]);
      forall j | 0 < j < |bids| ensures bids[j].price <= BestBid(bids[1..]) {
        assert bids[j] == bids[1..][j - 1];
      }
    } else {
      assert bids[0].price == BestBid(bids);
    }
  }

  /** What can be sold: the most that is requested, that is held, and that is bid at acceptable
      prices below the best bid. */
  lemma SellableIsLargest(bids: seq<BidLevel>, requested: int, p: Position, s: ExitSettings, n: int) returns (best: int)
    requires AllUsable(bids) && bids != [] && p.held > 0
    ensures exists i :: 0 <= i < |bids| && bids[i].price == best
    ensures forall i :: 0 <= i < |bids| ==> bids[i].price <= best
    ensures n <= Sellable(bids, requested, p, s) <==> n <= requested && n <= p.held && n <= AcceptableDepth(bids, best, p, s)
  {
    best := BestBid(bids);
    BestBidIsBest(bids);
    DepthAboveIs(bids, best, p, s);
    hide BestBid, AcceptableDepth, DepthAbove;
  }

  /** The scan: walk down the sorted bids while they clear the floor, until the target is
      covered. It accumulates the smaller of target and depth above the floor, and stops at
      the highest limit that can execute it. */
  method Scan(sorted: seq<BidLevel>, floor: real, target: int) returns (cumulative: int, limit: Option<int>)
    requires AllUsable(sorted) && Falling(sorted) && target > 0
    ensures Smaller(target, cumulative) == Smaller(target, DepthAbove(sorted, floor))
    ensures limit.None? ==> cumulative == 0
    ensures limit.Some? ==>
              && Above(limit.value, floor) && cumulative <= Depth(sorted, limit.value)
              && (forall higher :: higher > limit.value ==> Depth(sorted, higher) < Smaller(target, cumulative))
  {
    hide Falling, Depth, DepthAbove, TotalSize;
    cumulative, limit := 0, None;
    NothingScanned(sorted);
    for i := 0 to |sorted|
      invariant cumulative == TotalSize(sorted[..i]) < target
      invariant forall k :: 0 <= k < i ==> Above(sorted[k].price, floor)
      invariant limit == if i == 0 then None else Some(sorted[i - 1].price)
      invariant i > 0 ==> TotalSize(sorted[..i - 1]) < target
    {
      if !Above(sorted[i].price, floor) {
        ScanFacts(sorted, floor, target, i);
        return;
      }
      OneMoreScanned(sorted, i);
      cumulative := cumulative + sorted[i].size;
      limit := Some(sorted[i].price);
      if cumulative >= target {
        ScanFacts(sorted, floor, target, i + 1);
        return;
      }
    }
    ScanFacts(sorted, floor, target, |sorted|);
  }

  lemma NothingScanned(sorted: seq<BidLevel>)
    requires AllUsable(sorted)
    ensures TotalSize(sorted[..0]) == 0
  {
  }

  lemma OneMoreScanned(sorted: seq<BidLevel>, i: nat)
    requires AllUsable(sorted) && i < |sorted|
    ensures TotalSize(sorted[..i + 1]) == TotalSize(sorted[..i]) + sorted[i].size
  {
    assert sorted[..i + 1][..i] == sorted[..i];
  }

  method PlanBoundedSell(bids: seq<BidLevel>, requested: int, p: Position, s: ExitSettings) returns (plan: Option<Intent>)
    ensures plan.Some? <==>
              && requested > 0 && p.held > 0 && p.cost >= 0.0
              && s.maxImpact >= 0.0 && 0.0 <= s.maxLoss < 1.0 && s.minimum > 0
              && bids != [] && (forall i :: 0 <= i < |bids| ==> bids[i].Bid? && 0 < bids[i].price < 10_000 && bids[i].size > 0)
              && Sellable(bids, requested, p, s) >= s.minimum
    ensures plan.Some? ==>
              var i := plan.value;
              // the largest size up to the target that clears both floors
              && i.size == Sellable(bids, requested, p, s)
              // at a limit that clears both floors
              && i.bestBid == BestBid(bids)
              && i.impactFloor == (if i.bestBid as real - s.maxImpact >= 100.0 then i.bestBid as real - s.maxImpact else 100.0)
              && IsLossFloor(i.lossFloor, p, s)
              && Above(i.limit, ImpactFloor(BestBid(bids), s)) && Above(i.limit, LossFloor(p, s))
              // executable from the visible bids at or above the limit
              && i.size <= i.availableDepth <= Depth(bids, i.limit)
              // and at no higher limit
              && (forall higher :: higher > i.limit ==> Depth(bids, higher) < i.size)
  {
    hide Average;
    if !ValidInputs(requested, p, s) {
      return None;
    }
    for i := 0 to |bids|
      invariant forall k :: 0 <= k < i ==> bids[k].Usable()
    {
      if !bids[i].Usable() {
        return None;
      }
    }
    if bids == [] {
      return None;
    }
    var sorted := SortBids(bids);
    var best := sorted[0].price;
    SortBidsSorts(bids, Floor(BestBid(bids), p, s));
    LossFloorIs(p, s);
    var impactFloor, lossFloor := ImpactFloor(best, s), LossFloor(p, s);
    hide LossFloor, Above, IsLossFloor;
    var floor := MaxReal(impactFloor, lossFloor);
    var target := Smaller(requested, p.held);
    var cumulative, limit := Scan(sorted, floor, target);
    hide SortBids, Falling, Depth, DepthAbove;
    var executable := Smaller(target, cumulative);
    if limit.None? || executable < s.minimum {
      return None;
    }
    AboveBoth(limit.value, impactFloor, lossFloor);
    return Some(Intent(limit.value, executable, best, impactFloor, lossFloor, cumulative));
  }

  lemma AboveBoth(price: int, a: real, b: real)
    requires Above(price, MaxReal(a, b))
    ensures Above(price, a) && Above(price, b)
  {
  }

  /** Where the scan stops decides the size and the limit. */
  lemma ScanFacts(sorted: seq<BidLevel>, floor: real, target: int, n: nat)
    requires AllUsable(sorted) && Falling(sorted) && target > 0 && n <= |sorted|
    requires forall i :: 0 <= i < n ==> Above(sorted[i].price, floor)
    requires n > 0 ==> TotalSize(sorted[..n - 1]) < target
    requires TotalSize(sorted[..n]) < target ==> n == |sorted| || !Above(sorted[n].price, floor)
    ensures Smaller(target, TotalSize(sorted[..n])) == Smaller(target, DepthAbove(sorted, floor))
    ensures n == 0 ==> TotalSize(sorted[..n]) == 0
    ensures n > 0 ==> TotalSize(sorted[..n]) <= Depth(sorted, sorted[n - 1].price)
    ensures n > 0 ==> forall higher :: higher > sorted[n - 1].price ==>
              Depth(sorted, higher) < Smaller(target, TotalSize(sorted[..n]))
  {
    FirstAreAbove(sorted, floor, n);
    if n > 0 {
      var limit := sorted[n - 1].price;
      PrefixPricedAtLeast(sorted, n);
      FirstCount(sorted, limit, n);
      assert sorted[..n][..n - 1] == sorted[..n - 1];
      forall higher | higher > limit ensures Depth(sorted, higher) <= TotalSize(sorted[..n - 1]) {
        HigherIsBefore(sorted, higher, n - 1);
      }
    }
  }

  lemma PrefixPricedAtLeast(sorted: seq<BidLevel>, n: nat)
    requires AllUsable(sorted) && Falling(sorted) && 0 < n <= |sorted|
    ensures forall i :: 0 <= i < n ==> sorted[i].price >= sorted[n - 1].price
    decreases n
  {
    if n > 1 {
      FallingAt(sorted, n - 2);
      PrefixPricedAtLeast(sorted, n - 1);
    }
  }

  lemma {:induction false} FallingAt(sorted: seq<BidLevel>, i: nat)
    requires AllUsable(sorted) && Falling(sorted) && i + 1 < |sorted|
    ensures sorted[i].price >= sorted[i + 1].price
  {
    if i > 0 {
      FallingAt(sorted[1..], i - 1);
    }
  }

  lemma {:induction false} SizesAdd(sorted: seq<BidLevel>, n: nat)
    requires AllUsable(sorted) && 0 < n <= |sorted|
    ensures TotalSize(sorted[..n]) == sorted[0].size + TotalSize(sorted[1..][..n - 1])
    ensures TotalSize(sorted[..n]) > 0
  {
    if n > 1 {
      SizesAdd(sorted, n - 1);
      assert sorted[..n][..n - 1] == sorted[..n - 1];
      assert sorted[1..][..n - 1][..n - 2] == sorted[1..][..n - 2];
    } else {
      assert sorted[..1][..0] == [] && sorted[1..][..0] == [];
    }
  }

  lemma {:induction false} FirstCount(sorted: seq<BidLevel>, limit: int, n: nat)
    requires AllUsable(sorted) && n <= |sorted|
    requires forall i :: 0 <= i < n ==> sorted[i].price >= limit
    ensures TotalSize(sorted[..n]) <= Depth(sorted, limit) && Depth(sorted, limit) >= 0
    decreases |sorted|
  {
    if sorted != [] {
      FirstCount(sorted[1..], limit, if n == 0 then 0 else n - 1);
      if n > 0 {
        SizesAdd(sorted, n);
      }
    }
    if n == 0 {
      assert sorted[..0] == [];
    }
  }

  lemma {:induction false} HigherIsBefore(sorted: seq<BidLevel>, higher: int, n: nat)
    requires AllUsable(sorted) && Falling(sorted) && n < |sorted| && sorted[n].price < higher
    ensures Depth(sorted, higher) <= TotalSize(sorted[..n])
    decreases |sorted|
  {
    if n == 0 {
      FallingFromFirst(sorted);
      NoneAtLeast(sorted, higher);
      assert sorted[..0] == [];
    } else {
      HigherIsBefore(sorted[1..], higher, n - 1);
      SizesAdd(sorted, n);
    }
  }

  lemma {:induction false} NoneAtLeast(sorted: seq<BidLevel>, limit: int)
    requires AllUsable(sorted) && forall i :: 0 <= i < |sorted| ==> sorted[i].price < limit
    ensures Depth(sorted, limit) == 0
  {
    if sorted != [] {
      NoneAtLeast(sorted[1..], limit);
    }
  }

  /** The first bids clear the floor; together with the stop they are all that matter. */
  lemma {:induction false} FirstAreAbove(sorted: seq<BidLevel>, floor: real, n: nat)
    requires AllUsable(sorted) && Falling(sorted) && n <= |sorted|
    requires forall i :: 0 <= i < n ==> Above(sorted[i].price, floor)
    ensures TotalSize(sorted[..n]) <= DepthAbove(sorted, floor)
    ensures n == |sorted| || !Above(sorted[n].price, floor) ==> TotalSize(sorted[..n]) == DepthAbove(sorted, floor)
    ensures n == 0 ==> TotalSize(sorted[..n]) == 0
    ensures DepthAbove(sorted, floor) >= 0
    decreases |sorted|
  {
    if n == 0 {
      assert sorted[..0] == [];
      if sorted != [] {
        FallingFromFirst(sorted);
        NoneAbove(sorted, floor);
      }
    } else {
      FirstAreAbove(sorted[1..], floor, n - 1);
      SizesAdd(sorted, n);
    }
  }

  lemma {:induction false} NoneAbove(sorted: seq<BidLevel>, floor: real)
    requires AllUsable(sorted) && sorted != [] && forall i :: 0 <= i < |sorted| ==> sorted[0].price >= sorted[i].price
    ensures DepthAbove(sorted, floor) >= 0
    ensures !Above(sorted[0].price, floor) ==> DepthAbove(sorted, floor) == 0
    decreases |sorted|
  {
    AllAboveOrNone(sorted, floor, sorted[0].price);
  }

  lemma {:induction false} AllAboveOrNone(sorted: seq<BidLevel>, floor: real, top: int)
    requires AllUsable(sorted) && forall i :: 0 <= i < |sorted| ==> top >= sorted[i].price
    ensures DepthAbove(sorted, floor) >= 0
    ensures !Above(top, floor) ==> DepthAbove(sorted, floor) == 0
  {
    if sorted != [] {
      AllAboveOrNone(sorted[1..], floor, top);
    }
  }

  // ----- The loss it bounds -------------------------------------------------

  /** Booking a planned exit at any price at or above its limit, without a fee, loses at
      most the configured fraction of the cost it removes, plus 1e-9 dollars per share. */
  lemma ExitLossIsBounded(p: Position, s: ExitSettings, limit: int, size: int, price: int, realized: real)
    requires p.held > 0 && p.cost >= 0.0 && 0.0 <= s.maxLoss < 1.0
    requires 0 < size <= p.held && Above(limit, LossFloor(p, s)) && limit <= price <= ONE_DOLLAR && 0 <= limit
    ensures ApplyFill(Balances(p.held, p.cost, realized), Sell, size, price, 0.0).Success?
    ensures var after := ApplyFill(Balances(p.held, p.cost, realized), Sell, size, price, 0.0).value;
            realized - after.realized <= s.maxLoss * (p.cost - after.capital) + PRICE_TOLERANCE * size as real
  {
    var average := Average(p);
    AverageCostShare(p.cost, size, p.held);
    var removed := average * size as real;
    var after := ApplyFill(Balances(p.held, p.cost, realized), Sell, size, price, 0.0).value;
    RemovedIsDifference(p, size, price, realized);
    assert after.realized == realized + (Notional(price, size) - 0.0 - removed);
    assert average >= 0.0;
    LossPerShare(average, s.maxLoss, price as real, size as real, p.cost > 0.0, LossFloor(p, s));
    assert Notional(price, size) == price as real * size as real;
  }

  lemma RemovedIsDifference(p: Position, size: int, price: int, realized: real)
    requires p.held > 0 && p.cost >= 0.0 && 0 < size <= p.held && 0 <= price <= ONE_DOLLAR
    ensures ApplyFill(Balances(p.held, p.cost, realized), Sell, size, price, 0.0).Success?
    ensures p.cost - ApplyFill(Balances(p.held, p.cost, realized), Sell, size, price, 0.0).value.capital == Average(p) * size as real
  {
    AverageCostShare(p.cost, size, p.held);
    hide Notional;
  }

  lemma LossPerShare(average: real, maxLoss: real, price: real, size: real, costly: bool, floor: real)
    requires average >= 0.0 && 0.0 <= maxLoss < 1.0 && price >= 0.0 && size > 0.0
    requires price + PRICE_TOLERANCE >= floor
    requires if costly then floor >= average * (1.0 - maxLoss) else average == 0.0
    ensures average * size - price * size <= maxLoss * (average * size) + PRICE_TOLERANCE * size
  {
    assert average * (1.0 - maxLoss) == average - average * maxLoss;
    if costly {
      var slack := price + PRICE_TOLERANCE - (average - average * maxLoss);
      assert slack >= 0.0;
      assert slack * size >= 0.0;
      assert slack * size == price * size + PRICE_TOLERANCE * size - average * size + average * maxLoss * size;
    }
  }
}
