/** The budget loops of the quoting engine: the BUY grid sized against the strict market
    budget, and the precheck that trims it against local and global availability. */
module QuoteBudget {
  import opened Common
  import opened Quoting

  /** Strategy and venue parameters of one token's engine. Sizes are in 1e-8 shares. */
  datatype Grid = Grid(
    levels: nat, tick: int, baseSize: real, minOrderSize: real, maxExposure: real, oneTickBelow: bool)
  {
    predicate Valid() {
      0 < tick < ONE_DOLLAR / 2 && minOrderSize > 0.0 && maxExposure >= 0.0
    }

    /** What one order may cost. */
    function BudgetPerOrder(): real { maxExposure / MaxInt(1, levels * 2) as real }

    /** The size every level may have when each share is counted at a dollar. */
    function LevelShare(): real
      requires levels > 0
    {
      maxExposure / levels as real / ONE_DOLLAR as real
    }
  }

  function SharesFor(budget: real, price: int): real
    requires price > 0
  {
    budget / price as real
  }

  datatype Economics = Economics(fairValue: real, costs: real, adverse: real, minimum: real)

  const LOT: int := 1_000_000                // 0.01 shares
  const EDGE_TOLERANCE: real := 0.00000001   // 1e-12 dollars, in price units

  /** The net-edge gate of one quote. */
  predicate EdgeAllows(side: Side, price: int, e: Economics) {
    && 0 < price < ONE_DOLLAR && 0.0 < e.fairValue < ONE_DOLLAR as real
    && e.costs >= 0.0 && e.adverse >= 0.0 && e.minimum >= 0.0
    && (if side.Buy? then e.fairValue - price as real else price as real - e.fairValue) - e.costs - e.adverse
       + EDGE_TOLERANCE >= e.minimum
  }

  /** A quote earns its edge: a purchase below the fair value, or a sale above it, by at least
      costs, adverse selection and the minimum. */
  lemma EdgeAllowsIff(side: Side, price: int, e: Economics)
    ensures EdgeAllows(side, price, e)
       <==> && 0 < price < 10_000 && 0.0 < e.fairValue < 10_000.0
            && e.costs >= 0.0 && e.adverse >= 0.0 && e.minimum >= 0.0
            && (side.Buy? ==> price as real + e.costs + e.adverse + e.minimum <= e.fairValue + 0.00000001)
            && (side.Sell? ==> e.fairValue + e.costs + e.adverse + e.minimum <= price as real + 0.00000001)
  {
  }

  function QuantizePrice(price: real, tick: int, side: Side): int
    requires tick > 0
  {
    var steps := if side.Buy? then (price / tick as real).Floor else -((-price / tick as real).Floor);
    MaxInt(tick, if ONE_DOLLAR - tick <= steps * tick then ONE_DOLLAR - tick else steps * tick)
  }

  function QuantizeSize(size: real): int {
    (size / LOT as real).Floor * LOT
  }

  /** Total notional of the BUY orders of a payload. */
  function BuyNotional(orders: seq<Quote>): real {
    if orders == [] then 0.0
    else BuyNotional(orders[..|orders| - 1])
         + (if orders[|orders| - 1].side.Buy? then Notional(orders[|orders| - 1].price, orders[|orders| - 1].size) else 0.0)
  }

  lemma BuyNotionalAppend(orders: seq<Quote>, o: Quote)
    ensures BuyNotional(orders + [o]) == BuyNotional(orders) + (if o.side.Buy? then Notional(o.price, o.size) else 0.0)
  {
    assert (orders + [o])[..|orders|] == orders;
  }

  lemma {:induction false} BuyNotionalConcat(a: seq<Quote>, b: seq<Quote>)
    ensures BuyNotional(a + b) == BuyNotional(a) + BuyNotional(b)
    decreases |b|
  {
    hide Notional;
    if b == [] {
      assert a + b == a;
    } else {
      var init, o := b[..|b| - 1], b[|b| - 1];
      BuyNotionalConcat(a, init);
      assert a + b == (a + init) + [o] && b == init + [o];
      BuyNotionalAppend(a + init, o);
      BuyNotionalAppend(init, o);
    }
  }

  // ----- Order size ---------------------------------------------------------

  /** The smallest of the strategy size and the three budgets, in 1e-8 shares; the grid
      budget counts every share at a dollar. */
  function TargetSize(g: Grid, price: int, remaining: real): real
    requires g.levels > 0 && price > 0
  {
    MinReal(MinReal(g.baseSize, g.LevelShare()),
            MinReal(SharesFor(g.BudgetPerOrder(), price), SharesFor(MaxReal(0.0, remaining), price)))
  }

  /** A size that respects all four limits: the strategy's own size; the market cap, if every
      level held that many shares at a dollar each; the order's part of the cap; what remains. */
  predicate Affordable(g: Grid, price: int, remaining: real, size: real) {
    && size <= g.baseSize
    && Scaled(size, g.levels * 10_000) <= g.maxExposure
    && Scaled(Scaled(size, price), if g.levels == 0 then 1 else 2 * g.levels) <= g.maxExposure
    && Scaled(size, price) <= (if remaining >= 0.0 then remaining else 0.0)
  }

  /** The largest affordable number of lots, or nothing if the smallest order is not affordable. */
  predicate Largest(g: Grid, price: int, remaining: real, size: int) {
    if Affordable(g, price, remaining, g.minOrderSize)
    then size % 1_000_000 == 0 && Affordable(g, price, remaining, size as real) && !Affordable(g, price, remaining, (size + 1_000_000) as real)
    else size == 0
  }

  lemma AffordableIff(g: Grid, price: int, remaining: real, size: real)
    requires g.Valid() && g.levels > 0 && price > 0
    ensures Affordable(g, price, remaining, size) <==> size <= TargetSize(g, price, remaining)
  {
    hide SharesFor, Scaled;
    ExceedsAsLevelShare(size, g);
    ExceedsAsOrderShare(size, price, g);
    ExceedsAsShare(size, price, MaxReal(0.0, remaining));
  }

  lemma ExceedsAsOrderShare(size: real, price: int, g: Grid)
    requires g.levels > 0 && price > 0
    ensures Scaled(Scaled(size, price), 2 * g.levels) > g.maxExposure <==> size > SharesFor(g.BudgetPerOrder(), price)
  {
    hide SharesFor, Scaled;
    ExceedsAsShare(size, price, g.BudgetPerOrder());
    ExceedsAsShare(Scaled(size, price), 2 * g.levels, g.maxExposure);
    BudgetAsShare(g);
  }

  lemma BudgetAsShare(g: Grid)
    requires g.levels > 0
    ensures g.BudgetPerOrder() == SharesFor(g.maxExposure, 2 * g.levels)
  {
  }

  lemma LargestIs(g: Grid, price: int, remaining: real, size: int)
    requires g.Valid() && g.levels > 0 && price > 0
    requires size == if TargetSize(g, price, remaining) < g.minOrderSize then 0 else QuantizeSize(TargetSize(g, price, remaining))
    ensures Largest(g, price, remaining, size)
  {
    hide TargetSize, QuantizeSize, Affordable;
    QuantizeSizeFloors(TargetSize(g, price, remaining));
    AffordableIff(g, price, remaining, g.minOrderSize);
    AffordableIff(g, price, remaining, size as real);
    AffordableIff(g, price, remaining, (size + LOT) as real);
  }

  method EffectiveSize(g: Grid, price: int, remaining: real) returns (size: int)
    requires g.Valid() && g.levels > 0 && price > 0
    ensures Largest(g, price, remaining, size) && size >= 0
    ensures size == if TargetSize(g, price, remaining) < g.minOrderSize then 0 else QuantizeSize(TargetSize(g, price, remaining))
  {
    hide SharesFor, QuantizeSize, Grid.BudgetPerOrder, Grid.LevelShare, Affordable, Largest;
    var budgetPerOrder := g.BudgetPerOrder();
    var target := g.baseSize;
    ExceedsAsLevelShare(target, g);
    if Scaled(target, g.levels * ONE_DOLLAR) > g.maxExposure {
      target := g.LevelShare();
    }
    ExceedsAsShare(target, price, budgetPerOrder);
    if Scaled(target, price) > budgetPerOrder {
      target := SharesFor(budgetPerOrder, price);
    }
    var maxShares := SharesFor(MaxReal(0.0, remaining), price);
    if target > maxShares {
      target := maxShares;
    }
    assert target == TargetSize(g, price, remaining);
    size := if target < g.minOrderSize then 0 else QuantizeSize(target);
    LargestIs(g, price, remaining, size);
    QuantizeSizeFloors(target);
  }

  function Scaled(x: real, k: int): real { x * k as real }

  lemma ExceedsAsLevelShare(size: real, g: Grid)
    requires g.levels > 0
    ensures Scaled(size, g.levels * ONE_DOLLAR) > g.maxExposure <==> size > g.LevelShare()
  {
    ExceedsAsShare(size, g.levels * ONE_DOLLAR, g.maxExposure);
    QuotientTwice(g.maxExposure, g.levels as real, ONE_DOLLAR as real);
  }

  lemma QuotientTwice(x: real, a: real, b: real)
    requires a > 0.0 && b > 0.0
    ensures x / (a * b) == x / a / b
  {
    var q := x / a / b;
    assert q * b == x / a;
    assert q * b * a == x;
    assert q * (a * b) == x;
  }

  lemma ExceedsAsShare(size: real, price: int, budget: real)
    requires price > 0
    ensures Scaled(size, price) > budget <==> size > SharesFor(budget, price)
  {
    var q := budget / price as real;
    assert q * price as real == budget;
    if size > q {
      assert (size - q) * price as real > 0.0;
    } else {
      assert (q - size) * price as real >= 0.0;
    }
  }

  lemma QuantizeSizeFloors(size: real)
    ensures QuantizeSize(size) as real <= size < (QuantizeSize(size) + LOT) as real
    ensures QuantizeSize(size) % LOT == 0
    ensures size >= 0.0 ==> QuantizeSize(size) >= 0
  {
    var n := (size / LOT as real).Floor;
    assert n as real <= size / LOT as real < n as real + 1.0;
    assert size / LOT as real * LOT as real == size;
  }

  /** A sized order never costs more than its own budget or what remains of the market's. */
  lemma SizedOrderFits(g: Grid, price: int, remaining: real)
    requires g.Valid() && g.levels > 0 && price > 0 && remaining >= 0.0
    requires TargetSize(g, price, remaining) >= g.minOrderSize
    ensures var size := QuantizeSize(TargetSize(g, price, remaining));
            && size >= 0 && size % LOT == 0 && size as real <= g.baseSize
            && size as real > TargetSize(g, price, remaining) - LOT as real
            && Notional(price, size) <= remaining && Notional(price, size) <= g.BudgetPerOrder()
  {
    hide SharesFor, QuantizeSize, Grid.BudgetPerOrder, Grid.LevelShare, Notional;
    var target := TargetSize(g, price, remaining);
    QuantizeSizeFloors(target);
    var size := QuantizeSize(target);
    FitsBudget(price, size, remaining);
    FitsBudget(price, size, g.BudgetPerOrder());
  }

  lemma FitsBudget(price: int, size: int, budget: real)
    requires price > 0 && size as real <= SharesFor(budget, price)
    ensures Notional(price, size) <= budget
  {
    ExceedsAsShare(size as real, price, budget);
    assert Notional(price, size) == size as real * price as real;
  }

  // ----- The BUY grid -------------------------------------------------------

  function GridBid(g: Grid, bid1: real, bestBid: int, bestAsk: int, level: nat): int
    requires g.tick > 0
  {
    var quoted := QuantizePrice(bid1 - (level * g.tick) as real, g.tick, Buy);
    var lifted := if g.oneTickBelow && level == 0 && quoted < bestBid - g.tick
                  then QuantizePrice(MaxInt(quoted, bestBid - g.tick) as real, g.tick, Buy) else quoted;
    var highest := QuantizePrice((bestAsk - g.tick) as real, g.tick, Buy);
    if lifted > highest then highest else lifted
  }

  /** The whole tick at or below a price for a BUY, at or above it for a SELL, at least one tick
      away from both ends. */
  ghost predicate OnTick(p: int, price: real, tick: int, side: Side) {
    exists m :: WholeTick(m, price, tick, side) && p == if m < tick then tick else if m > 10_000 - tick then 10_000 - tick else m
  }

  predicate WholeTick(m: int, price: real, tick: int, side: Side) {
    && tick > 0 && m % tick == 0
    && (side.Buy? ==> m as real <= price < (m + tick) as real)
    && (side.Sell? ==> (m - tick) as real < price <= m as real)
  }

  lemma WholeTickOf(price: real, tick: int, side: Side) returns (m: int)
    requires 0 < tick < ONE_DOLLAR / 2
    ensures WholeTick(m, price, tick, side)
    ensures QuantizePrice(price, tick, side) == if m < tick then tick else if m > 10_000 - tick then 10_000 - tick else m
  {
    var steps := if side.Buy? then (price / tick as real).Floor else -((-price / tick as real).Floor);
    m := steps * tick;
    QuotientTimes(price, tick);
    QuotientTimes(-price, tick);
    StepsAround(if side.Buy? then price else -price, tick, if side.Buy? then steps else -steps);
    assert m % tick == 0 by { MultipleOf(steps, tick); }
    assert side.Sell? ==> (-steps) * tick == -m;
  }

  lemma QuantizedIsOnTick(price: real, tick: int, side: Side)
    requires 0 < tick < ONE_DOLLAR / 2
    ensures OnTick(QuantizePrice(price, tick, side), price, tick, side)
  {
    hide QuantizePrice, WholeTick;
    var m := WholeTickOf(price, tick, side);
  }

  lemma MultipleOf(steps: int, tick: int)
    requires tick > 0
    ensures steps * tick % tick == 0
  {
    ModOfProduct(steps, tick, steps * tick / tick, steps * tick % tick);
  }

  lemma ModOfProduct(steps: int, tick: int, q: int, r: int)
    requires tick > 0 && steps * tick == q * tick + r && 0 <= r < tick
    ensures r == 0
  {
    NoMultipleBetween(steps - q, tick);
    assert (steps - q) * tick == r;
  }

  lemma NoMultipleBetween(k: int, tick: int)
    requires tick > 0
    ensures k * tick <= 0 || k * tick >= tick
  {
    if k >= 1 {
      assert k * tick == tick + (k - 1) * tick;
    }
  }

  lemma QuotientTimes(price: real, tick: int)
    requires tick > 0
    ensures price / tick as real * tick as real == price
  {
  }

  lemma StepsAround(price: real, tick: int, steps: int)
    requires tick > 0 && steps == (price / tick as real).Floor
    ensures (steps * tick) as real <= price < (steps * tick + tick) as real
  {
    var q := price / tick as real;
    QuotientTimes(price, tick);
    FloorTimes(q, steps as real, tick as real, price);
    ProductAsReal(steps, tick);
  }

  lemma ProductAsReal(a: int, b: int)
    ensures (a * b) as real == Times(a as real, b as real)
  {
  }

  lemma FloorTimes(q: real, steps: real, tick: real, price: real)
    requires tick > 0.0 && steps <= q < steps + 1.0 && Times(q, tick) == price
    ensures Times(steps, tick) <= price < Times(steps, tick) + tick
  {
    TimesRises(steps, q, tick);
    TimesRises(q, steps + 1.0, tick);
    TimesOneMore(steps, tick);
    hide Times;
  }

  lemma TimesOneMore(x: real, w: real)
    ensures Times(x + 1.0, w) == Times(x, w) + w
  {
  }

  /** The bid of a level: so many ticks below the first bid, the first one lifted to a tick below
      the best bid if it may be, and never above a tick below the best ask. */
  lemma GridBidInFull(g: Grid, bid1: real, bestBid: int, bestAsk: int, level: nat)
    returns (quoted: int, lifted: int, highest: int)
    requires g.Valid()
    ensures OnTick(quoted, bid1 - (level * g.tick) as real, g.tick, Buy)
    ensures OnTick(highest, (bestAsk - g.tick) as real, g.tick, Buy)
    ensures if g.oneTickBelow && level == 0 && quoted < bestBid - g.tick
            then OnTick(lifted, (bestBid - g.tick) as real, g.tick, Buy) else lifted == quoted
    ensures GridBid(g, bid1, bestBid, bestAsk, level) == if lifted <= highest then lifted else highest
  {
    quoted := QuantizePrice(bid1 - (level * g.tick) as real, g.tick, Buy);
    highest := QuantizePrice((bestAsk - g.tick) as real, g.tick, Buy);
    lifted := if g.oneTickBelow && level == 0 && quoted < bestBid - g.tick
              then QuantizePrice((bestBid - g.tick) as real, g.tick, Buy) else quoted;
    hide QuantizePrice, OnTick;
    QuantizedIsOnTick(bid1 - (level * g.tick) as real, g.tick, Buy);
    QuantizedIsOnTick((bestAsk - g.tick) as real, g.tick, Buy);
    QuantizedIsOnTick((bestBid - g.tick) as real, g.tick, Buy);
  }

  lemma GridBidIsQuotable(g: Grid, bid1: real, bestBid: int, bestAsk: int, level: nat)
    requires g.Valid()
    ensures g.tick <= GridBid(g, bid1, bestBid, bestAsk, level) <= ONE_DOLLAR - g.tick
    ensures g.tick < bestAsk ==> GridBid(g, bid1, bestBid, bestAsk, level) <= MaxInt(g.tick, bestAsk - g.tick)
  {
    FloorsToTick((bestAsk - g.tick) as real, g.tick);
  }

  lemma FloorsToTick(price: real, tick: int)
    requires 0 < tick
    ensures QuantizePrice(price, tick, Buy) as real <= MaxReal(tick as real, price)
  {
    var n := (price / tick as real).Floor;
    assert n as real <= price / tick as real;
    assert price / tick as real * tick as real == price;
    assert (n * tick) as real <= price;
  }

  /** The quotes of the grid: distinct prices inside the spread that pass the edge gate,
      each within its own budget, together within what remains of the strict budget. */
  ghost predicate GoodBids(orders: seq<Quote>, g: Grid, e: Economics, bestAsk: int)
    requires g.Valid()
  {
    && |orders| <= g.levels
    && (forall i :: 0 <= i < |orders| ==> GoodBid(orders[i], g, e, bestAsk))
    && (forall i, j :: 0 <= i < j < |orders| ==> orders[i].price != orders[j].price)
  }

  ghost predicate GoodBid(o: Quote, g: Grid, e: Economics, bestAsk: int)
    requires g.Valid()
  {
    && o.side.Buy? && o.postOnly
    && g.tick <= o.price <= ONE_DOLLAR - g.tick
    && (g.tick < bestAsk ==> o.price <= MaxInt(g.tick, bestAsk - g.tick))
    && EdgeAllows(Buy, o.price, e)
    && o.size > 0 && o.size % LOT == 0 && o.size as real <= g.baseSize
    && Notional(o.price, o.size) <= g.BudgetPerOrder()
  }

  /** The market of a grid: where its prices start and what it may spend. */
  datatype Frame = Frame(g: Grid, e: Economics, bid1: real, bestBid: int, bestAsk: int, budget: real) {
    function Bid(level: nat): int
      requires g.tick > 0
    {
      GridBid(g, bid1, bestBid, bestAsk, level)
    }
  }

  /** The order of a level, given what the orders before it cost. */
  ghost predicate LaidAt(f: Frame, level: nat, before: seq<Quote>, o: Quote)
    requires f.g.tick > 0
  {
    && o.side.Buy? && o.postOnly && o.price == f.Bid(level) && EdgeAllows(Buy, o.price, f.e)
    && o.size > 0 && Largest(f.g, o.price, f.budget - BuyNotional(before), o.size)
    && forall k :: 0 <= k < level ==> f.Bid(k) != f.Bid(level)
  }

  /** Why a level has no order: a level before it has its price, its price has no edge, or
      what is left does not pay for the smallest order. */
  ghost predicate SkippedAt(f: Frame, level: nat, before: seq<Quote>)
    requires f.g.tick > 0
  {
    || (exists k :: 0 <= k < level && f.Bid(k) == f.Bid(level))
    || !EdgeAllows(Buy, f.Bid(level), f.e)
    || Largest(f.g, f.Bid(level), f.budget - BuyNotional(before), 0)
  }

  /** The orders of the first n levels: level by level one order or a reason for none. */
  ghost predicate IsGrid(orders: seq<Quote>, f: Frame, n: nat)
    requires f.g.tick > 0
  {
    if n == 0 then orders == []
    else if IsGrid(orders, f, n - 1) && SkippedAt(f, n - 1, orders) then true
    else
      && orders != [] && IsGrid(orders[..|orders| - 1], f, n - 1)
      && LaidAt(f, n - 1, orders[..|orders| - 1], orders[|orders| - 1])
  }

  lemma LayOne(orders: seq<Quote>, f: Frame, n: nat, o: Quote)
    requires f.g.tick > 0 && IsGrid(orders, f, n) && LaidAt(f, n, orders, o)
    ensures IsGrid(orders + [o], f, n + 1)
  {
    assert (orders + [o])[..|orders|] == orders;
  }

  method BuildBids(g: Grid, e: Economics, bid1: real, bestBid: int, bestAsk: int, used: real) returns (orders: seq<Quote>)
    requires g.Valid()
    ensures GoodBids(orders, g, e, bestAsk)
    ensures BuyNotional(orders) <= MaxReal(0.0, g.maxExposure - used)
    ensures IsGrid(orders, Frame(g, e, bid1, bestBid, bestAsk, MaxReal(0.0, g.maxExposure - used)), g.levels)
  {
    hide Notional, GoodBid, EdgeAllows, TargetSize, GridBid, LaidAt, SkippedAt, Largest, IsGrid;
    orders := [];
    var seen: set<int> := {};
    var remaining := MaxReal(0.0, g.maxExposure - used);
    ghost var f := Frame(g, e, bid1, bestBid, bestAsk, remaining);
    EmptyGrid(f);
    for i := 0 to g.levels
      invariant IsGrid(orders, f, i)
      invariant forall p :: p in seen <==> exists k :: 0 <= k < i && f.Bid(k) == p
      invariant |orders| <= i
      invariant forall k :: 0 <= k < |orders| ==> GoodBid(orders[k], g, e, bestAsk) && orders[k].price in seen
      invariant forall k, l :: 0 <= k < l < |orders| ==> orders[k].price != orders[l].price
      invariant remaining >= 0.0
      invariant BuyNotional(orders) + remaining == MaxReal(0.0, g.maxExposure - used)
    {
      var price := GridBid(g, bid1, bestBid, bestAsk, i);
      GridBidIsQuotable(g, bid1, bestBid, bestAsk, i);
      SkipOne(orders, f, i);
      if price < g.tick || price in seen {
        continue;
      }
      seen := seen + {price};
      if !EdgeAllows(Buy, price, e) {
        continue;
      }
      var size := EffectiveSize(g, price, remaining);
      assert remaining == f.budget - BuyNotional(orders);
      if size <= 0 {
        NothingAffordable(orders, f, i);
        continue;
      }
      SizedOrderFits(g, price, remaining);
      var order := Quote(Buy, price, size, true);
      OneGoodBid(order, g, e, bestAsk);
      BuyNotionalAppend(orders, order);
      OneLaid(orders, f, i, order);
      orders := orders + [order];
      remaining := MaxReal(0.0, remaining - Notional(price, size));
    }
  }

  lemma EmptyGrid(f: Frame)
    requires f.g.tick > 0
    ensures IsGrid([], f, 0)
  {
  }

  lemma SkipOne(orders: seq<Quote>, f: Frame, n: nat)
    requires f.g.tick > 0 && IsGrid(orders, f, n)
    ensures (exists k :: 0 <= k < n && f.Bid(k) == f.Bid(n)) || !EdgeAllows(Buy, f.Bid(n), f.e) ==> IsGrid(orders, f, n + 1)
  {
    hide EdgeAllows, Largest;
  }

  lemma NothingAffordable(orders: seq<Quote>, f: Frame, n: nat)
    requires f.g.tick > 0 && IsGrid(orders, f, n)
    requires Largest(f.g, f.Bid(n), f.budget - BuyNotional(orders), 0)
    ensures IsGrid(orders, f, n + 1)
  {
    hide EdgeAllows, Largest;
  }

  lemma OneLaid(orders: seq<Quote>, f: Frame, n: nat, o: Quote)
    requires f.g.tick > 0 && IsGrid(orders, f, n)
    requires o == Quote(Buy, f.Bid(n), o.size, true) && EdgeAllows(Buy, o.price, f.e)
    requires o.size > 0 && Largest(f.g, o.price, f.budget - BuyNotional(orders), o.size)
    requires forall k :: 0 <= k < n ==> f.Bid(k) != f.Bid(n)
    ensures IsGrid(orders + [o], f, n + 1)
  {
    hide EdgeAllows, Largest, IsGrid;
    LayOne(orders, f, n, o);
  }

  lemma OneGoodBid(o: Quote, g: Grid, e: Economics, bestAsk: int)
    requires g.Valid() && o.side.Buy? && o.postOnly
    requires g.tick <= o.price <= ONE_DOLLAR - g.tick
    requires g.tick < bestAsk ==> o.price <= MaxInt(g.tick, bestAsk - g.tick)
    requires EdgeAllows(Buy, o.price, e) && o.size > 0 && o.size % LOT == 0 && o.size as real <= g.baseSize
    requires Notional(o.price, o.size) <= g.BudgetPerOrder()
    ensures GoodBid(o, g, e, bestAsk)
  {
  }

  /** A whole grid costs at most half of the market's cap. */
  lemma GridCostsAtMostHalf(orders: seq<Quote>, g: Grid, e: Economics, bestAsk: int)
    requires g.Valid() && GoodBids(orders, g, e, bestAsk)
    ensures BuyNotional(orders) * 2.0 <= g.maxExposure
  {
    hide Notional, EdgeAllows;
    if orders != [] {
      HalfPerSide(g.maxExposure, g.levels, |orders|);
      BoundedOrders(orders, g.BudgetPerOrder());
    }
  }

  lemma HalfPerSide(cap: real, levels: nat, n: nat)
    requires cap >= 0.0 && 0 < n <= levels
    ensures Scaled(cap / MaxInt(1, levels * 2) as real, n) * 2.0 <= cap
    ensures cap / MaxInt(1, levels * 2) as real >= 0.0
  {
    var per := cap / (levels * 2) as real;
    assert per * (levels * 2) as real == cap;
    assert per * (levels - n) as real >= 0.0;
  }

  lemma {:induction false} BoundedOrders(orders: seq<Quote>, budget: real)
    requires budget >= 0.0
    requires forall i :: 0 <= i < |orders| ==> orders[i].side.Buy? && Notional(orders[i].price, orders[i].size) <= budget
    ensures BuyNotional(orders) <= Scaled(budget, |orders|)
  {
    if orders != [] {
      hide Notional;
      BoundedOrders(orders[..|orders| - 1], budget);
    }
  }

  // ----- The precheck -------------------------------------------------------

  function Of(side: Side, orders: seq<Quote>): seq<Quote> {
    if orders == [] then []
    else Of(side, orders[..|orders| - 1])
         + (if orders[|orders| - 1].side == side then [orders[|orders| - 1]] else [])
  }

  lemma {:induction false} OfKeeps(side: Side, orders: seq<Quote>)
    ensures forall o :: o in Of(side, orders) <==> o in orders && o.side == side
  {
    if orders != [] {
      OfKeeps(side, orders[..|orders| - 1]);
      assert orders == orders[..|orders| - 1] + [orders[|orders| - 1]];
    }
  }

  /** Inserting behind all orders at least as aggressive keeps the sort stable. */
  function InsertByPrice(sorted: seq<Quote>, o: Quote): seq<Quote> {
    if sorted == [] || sorted[|sorted| - 1].price >= o.price then sorted + [o]
    else InsertByPrice(sorted[..|sorted| - 1], o) + [sorted[|sorted| - 1]]
  }

  /** Most aggressive first, equal prices in their original order. */
  function ByPriceDescending(orders: seq<Quote>): seq<Quote> {
    if orders == [] then []
    else InsertByPrice(ByPriceDescending(orders[..|orders| - 1]), orders[|orders| - 1])
  }

  ghost predicate Descending(orders: seq<Quote>) {
    forall i, j :: 0 <= i < j < |orders| ==> orders[i].price >= orders[j].price
  }

  lemma {:induction false} InsertKeeps(sorted: seq<Quote>, o: Quote)
    ensures multiset(InsertByPrice(sorted, o)) == multiset(sorted) + multiset{o}
    decreases |sorted|
  {
    if sorted != [] && sorted[|sorted| - 1].price < o.price {
      InsertKeeps(sorted[..|sorted| - 1], o);
      assert sorted == sorted[..|sorted| - 1] + [sorted[|sorted| - 1]];
    }
  }

  lemma {:induction false} InsertSorts(sorted: seq<Quote>, o: Quote)
    requires Descending(sorted)
    ensures Descending(InsertByPrice(sorted, o))
    decreases |sorted|
  {
    if sorted == [] || sorted[|sorted| - 1].price >= o.price {
      AppendDescends(sorted, o);
    } else {
      var init, last := sorted[..|sorted| - 1], sorted[|sorted| - 1];
      InsertSorts(init, o);
      InsertKeeps(init, o);
      InsertedAbove(init, o, InsertByPrice(init, o), last.price);
      hide InsertByPrice;
      AppendDescends(InsertByPrice(init, o), last);
    }
  }

  lemma AppendDescends(r: seq<Quote>, last: Quote)
    requires Descending(r) && (r != [] ==> r[|r| - 1].price >= last.price)
    ensures Descending(r + [last])
  {
  }

  lemma InsertedAbove(init: seq<Quote>, o: Quote, r: seq<Quote>, floor: int)
    requires multiset(r) == multiset(init) + multiset{o} && o.price > floor
    requires forall i :: 0 <= i < |init| ==> init[i].price >= floor
    ensures forall i :: 0 <= i < |r| ==> r[i].price >= floor
  {
    forall i | 0 <= i < |r| ensures r[i].price >= floor {
      assert r[i] in multiset(r);
      assert r[i] in multiset(init) || r[i] == o;
    }
  }

  lemma {:induction false} SortSorts(orders: seq<Quote>)
    ensures Descending(ByPriceDescending(orders))
    ensures multiset(ByPriceDescending(orders)) == multiset(orders)
  {
    hide InsertByPrice, Descending;
    if orders == [] {
      NothingDescends();
    } else {
      var init, o := orders[..|orders| - 1], orders[|orders| - 1];
      SortSorts(init);
      InsertSorts(ByPriceDescending(init), o);
      InsertKeeps(ByPriceDescending(init), o);
      assert orders == init + [o];
    }
  }

  lemma NothingDescends()
    ensures Descending([])
  {
  }

  /** The orders at one price, in their order. */
  function PricedAt(orders: seq<Quote>, price: int): seq<Quote> {
    if orders == [] then []
    else PricedAt(orders[..|orders| - 1], price) + AtPrice(orders[|orders| - 1], price)
  }

  function AtPrice(o: Quote, price: int): seq<Quote> {
    if o.price == price then [o] else []
  }

  lemma PricedAppend(orders: seq<Quote>, o: Quote, price: int)
    ensures PricedAt(orders + [o], price) == PricedAt(orders, price) + AtPrice(o, price)
  {
    assert (orders + [o])[..|orders|] == orders;
  }

  lemma {:induction false} InsertPriced(sorted: seq<Quote>, o: Quote, price: int)
    ensures PricedAt(InsertByPrice(sorted, o), price) == PricedAt(sorted, price) + AtPrice(o, price)
    decreases |sorted|
  {
    hide PricedAt;
    if sorted != [] && sorted[|sorted| - 1].price < o.price {
      var init, last := sorted[..|sorted| - 1], sorted[|sorted| - 1];
      InsertPriced(init, o, price);
      PricedAppend(InsertByPrice(init, o), last, price);
      PricedAppend(init, last, price);
      assert sorted == init + [last];
      hide InsertByPrice;
      PricesCommute(PricedAt(init, price), o, last, price);
    } else {
      PricedAppend(sorted, o, price);
    }
  }

  lemma PricesCommute(orders: seq<Quote>, a: Quote, b: Quote, price: int)
    requires a.price != b.price
    ensures orders + AtPrice(a, price) + AtPrice(b, price) == orders + AtPrice(b, price) + AtPrice(a, price)
  {
  }

  /** The sort is stable: orders of one price stay in their order. */
  lemma {:induction false} SortIsStable(orders: seq<Quote>, price: int)
    ensures PricedAt(ByPriceDescending(orders), price) == PricedAt(orders, price)
  {
    hide InsertByPrice;
    if orders != [] {
      SortIsStable(orders[..|orders| - 1], price);
      InsertPriced(ByPriceDescending(orders[..|orders| - 1]), orders[|orders| - 1], price);
    }
  }

  lemma {:induction false} InsertNotional(sorted: seq<Quote>, o: Quote)
    ensures BuyNotional(InsertByPrice(sorted, o)) == BuyNotional(sorted) + (if o.side.Buy? then Notional(o.price, o.size) else 0.0)
    decreases |sorted|
  {
    hide Notional;
    if sorted != [] && sorted[|sorted| - 1].price < o.price {
      var init, last := sorted[..|sorted| - 1], sorted[|sorted| - 1];
      InsertNotional(init, o);
      BuyNotionalAppend(InsertByPrice(init, o), last);
    } else {
      BuyNotionalAppend(sorted, o);
    }
  }

  lemma {:induction false} SortNotional(orders: seq<Quote>)
    ensures BuyNotional(ByPriceDescending(orders)) == BuyNotional(orders)
  {
    hide Notional;
    if orders != [] {
      SortNotional(orders[..|orders| - 1]);
      InsertNotional(ByPriceDescending(orders[..|orders| - 1]), orders[|orders| - 1]);
    }
  }

  lemma {:induction false} SplitNotional(orders: seq<Quote>)
    ensures BuyNotional(Of(Buy, orders)) == BuyNotional(orders)
    ensures BuyNotional(Of(Sell, orders)) == 0.0
  {
    hide Notional;
    if orders != [] {
      var init, o := orders[..|orders| - 1], orders[|orders| - 1];
      SplitNotional(init);
      BuyNotionalAppend(Of(Buy, init), o);
      BuyNotionalAppend(Of(Sell, init), o);
      assert Of(Buy, init) + [] == Of(Buy, init) && Of(Sell, init) + [] == Of(Sell, init);
    }
  }

  /** The budget the precheck may spend: what the market and the wallet both leave. */
  function Available(cap: real, globalBudget: real, localUsed: real, globalOther: real): real {
    MinReal(MaxReal(0.0, cap - localUsed), MaxReal(0.0, globalBudget - (globalOther + localUsed)))
  }

  /** An amount is available exactly when neither the market cap nor the global budget is exceeded by it. */
  lemma AvailableIff(cap: real, globalBudget: real, localUsed: real, globalOther: real, amount: real)
    requires amount > 0.0
    ensures amount <= Available(cap, globalBudget, localUsed, globalOther)
       <==> localUsed + amount <= cap && globalOther + localUsed + amount <= globalBudget
  {
  }

  /** What trimming keeps: the orders by falling price while they fit, all n of them, and of the
      first that does not fit as many lots as still do, unless that is less than the smallest order. */
  ghost predicate Trimmed(kept: seq<Quote>, sorted: seq<Quote>, n: nat, available: real, minOrderSize: real) {
    && n <= |sorted| && n <= |kept| && kept[..n] == sorted[..n]
    && BuyNotional(sorted[..n]) <= available
    && if n == |sorted| then |kept| == n
       else
         var o, rest := sorted[n], available - BuyNotional(sorted[..n]);
         && Notional(o.price, o.size) > rest
         && if Scaled(minOrderSize, o.price) <= rest then |kept| == n + 1 && Shrunk(kept[n], o, rest) else |kept| == n
  }

  /** A payload after the precheck: untouched if its purchases are available, otherwise its sales
      and its trimmed purchases. */
  ghost predicate Prechecked(result: seq<Quote>, orders: seq<Quote>, available: real, minOrderSize: real) {
    if BuyNotional(orders) <= available then result == orders
    else if available <= 0.0 then result == Of(Sell, orders)
    else
      exists kept, n ::
        && Trimmed(kept, ByPriceDescending(Of(Buy, orders)), n, available, minOrderSize)
        && result == Of(Sell, orders) + kept
  }

  /** The same order in the largest number of lots that a budget pays for. */
  ghost predicate Shrunk(kept: Quote, o: Quote, budget: real) {
    && kept == o.(size := kept.size) && 0 <= kept.size < o.size && kept.size % 1_000_000 == 0
    && Notional(o.price, kept.size) <= budget < Notional(o.price, kept.size + 1_000_000)
  }

  predicate WellFormed(orders: seq<Quote>) {
    forall i :: 0 <= i < |orders| ==> orders[i].price > 0 && orders[i].size >= 0
  }

  method TotalBuyNotional(orders: seq<Quote>) returns (total: real)
    ensures total == BuyNotional(orders)
  {
    hide Notional;
    total := 0.0;
    for i := 0 to |orders|
      invariant total == BuyNotional(orders[..i])
    {
      assert orders[..i + 1] == orders[..i] + [orders[i]];
      BuyNotionalAppend(orders[..i], orders[i]);
      if orders[i].side.Buy? {
        total := total + Notional(orders[i].price, orders[i].size);
      }
    }
    assert orders[..|orders|] == orders;
  }

  /** The greedy loop: keep whole orders while they fit, then try to shrink the next one. */
  method KeepWithin(sorted: seq<Quote>, available: real, minOrderSize: real) returns (kept: seq<Quote>, ghost n: nat)
    requires available > 0.0 && minOrderSize > 0.0 && WellFormed(sorted)
    requires forall i :: 0 <= i < |sorted| ==> sorted[i].side.Buy?
    ensures Trimmed(kept, sorted, n, available, minOrderSize)
    ensures BuyNotional(kept) <= available
  {
    hide Notional, Shrunk;
    var remaining := available;
    kept, n := [], 0;
    for i := 0 to |sorted|
      invariant n == i == |kept| && kept == sorted[..i]
      invariant remaining == available - BuyNotional(kept) >= 0.0
    {
      var o := sorted[i];
      assert sorted[..i + 1] == sorted[..i] + [o];
      BuyNotionalAppend(kept, o);
      var notional := Notional(o.price, o.size);
      if notional <= remaining {
        kept := kept + [o];
        remaining := remaining - notional;
        n := i + 1;
      } else {
        if o.price > 0 {
          var maxSize := SharesFor(remaining, o.price);
          ExceedsAsShare(minOrderSize, o.price, remaining);
          if maxSize >= minOrderSize {
            ShrinkFits(o, remaining);
            var shrunk := o.(size := QuantizeSize(maxSize));
            BuyNotionalAppend(kept, shrunk);
            assert (kept + [shrunk])[..n] == kept;
            kept := kept + [shrunk];
          }
        }
        return;
      }
    }
  }

  lemma ShrinkFits(o: Quote, remaining: real)
    requires o.price > 0 && remaining >= 0.0 && Notional(o.price, o.size) > remaining
    ensures var size := QuantizeSize(SharesFor(remaining, o.price));
            0 <= size < o.size && Notional(o.price, size) <= remaining && Shrunk(o.(size := size), o, remaining)
  {
    hide QuantizeSize;
    var maxSize := SharesFor(remaining, o.price);
    SharesNotNegative(remaining, o.price);
    QuantizeSizeFloors(maxSize);
    FitsBudget(o.price, QuantizeSize(maxSize), remaining);
    ExceedsAsShare((QuantizeSize(maxSize) + LOT) as real, o.price, remaining);
    NotionalIsScaled(o.price, QuantizeSize(maxSize) + LOT);
    ExceedsAsShare(o.size as real, o.price, remaining);
    assert Notional(o.price, o.size) == o.size as real * o.price as real;
  }

  lemma NotionalIsScaled(price: int, size: int)
    ensures Notional(price, size) == Scaled(size as real, price)
  {
  }

  lemma SharesNotNegative(budget: real, price: int)
    requires price > 0 && budget >= 0.0
    ensures SharesFor(budget, price) >= 0.0
  {
  }

  method ApplyBalancePrecheck(
    orders: seq<Quote>, cap: real, globalBudget: real, localUsed: real, globalOther: real, minOrderSize: real
  ) returns (result: seq<Quote>)
    requires WellFormed(orders) && minOrderSize > 0.0
    ensures |result| <= |orders|
    ensures orders != [] ==> BuyNotional(result) <= Available(cap, globalBudget, localUsed, globalOther)
    ensures BuyNotional(result) <= BuyNotional(orders)
    ensures Of(Sell, result) == Of(Sell, orders)
    ensures Prechecked(result, orders, Available(cap, globalBudget, localUsed, globalOther), minOrderSize)
  {
    if orders == [] {
      return orders;
    }
    var localAvailable := MaxReal(0.0, cap - localUsed);
    var globalUsed := globalOther + localUsed;
    var globalAvailable := MaxReal(0.0, globalBudget - globalUsed);
    var available := MinReal(localAvailable, globalAvailable);
    assert available == Available(cap, globalBudget, localUsed, globalOther) >= 0.0;
    hide Notional, Trimmed, Prechecked, Of, ByPriceDescending, BuyNotional, Available;
    var buys, sells := Of(Buy, orders), Of(Sell, orders);
    SplitNotional(orders);
    OfKeeps(Sell, orders);
    OfKeeps(Buy, orders);
    var total := TotalBuyNotional(buys);
    PrecheckedWhole(orders, available, minOrderSize);
    if total <= available {
      return orders;
    }
    var sorted := ByPriceDescending(buys);
    SortKeepsBuys(orders);
    SplitLengths(orders);
    if available <= 0.0 {
      OnlySells(sells);
      SplitNotional(sells);
      return sells;
    }
    SortNotional(buys);
    ghost var n;
    var kept;
    kept, n := KeepWithin(sorted, available, minOrderSize);
    result := sells + kept;
    BuyNotionalConcat(sells, kept);
    KeptAreBuys(kept, sorted, n, available, minOrderSize);
    SellsOfResult(sells, kept);
    PrecheckedTrim(orders, kept, n, available, minOrderSize);
  }

  lemma PrecheckedWhole(orders: seq<Quote>, available: real, minOrderSize: real)
    ensures BuyNotional(orders) <= available ==> Prechecked(orders, orders, available, minOrderSize)
    ensures BuyNotional(orders) > available && available <= 0.0 ==> Prechecked(Of(Sell, orders), orders, available, minOrderSize)
  {
  }

  lemma AvailableIsUntouched(result: seq<Quote>, orders: seq<Quote>, available: real, minOrderSize: real)
    requires Prechecked(result, orders, available, minOrderSize) && BuyNotional(orders) <= available
    ensures result == orders
  {
  }

  lemma PrecheckedTrim(orders: seq<Quote>, kept: seq<Quote>, n: nat, available: real, minOrderSize: real)
    requires BuyNotional(orders) > available > 0.0 && Trimmed(kept, ByPriceDescending(Of(Buy, orders)), n, available, minOrderSize)
    ensures Prechecked(Of(Sell, orders) + kept, orders, available, minOrderSize)
  {
    hide Trimmed;
  }

  lemma {:induction false} SplitLengths(orders: seq<Quote>)
    ensures |Of(Sell, orders)| + |ByPriceDescending(Of(Buy, orders))| == |orders|
  {
    SortSorts(Of(Buy, orders));
    assert |multiset(ByPriceDescending(Of(Buy, orders)))| == |multiset(Of(Buy, orders))|;
    if orders != [] {
      var init := orders[..|orders| - 1];
      SplitLengths(init);
      SortSorts(Of(Buy, init));
      assert |multiset(ByPriceDescending(Of(Buy, init)))| == |multiset(Of(Buy, init))|;
    }
  }

  lemma SortKeepsBuys(orders: seq<Quote>)
    requires WellFormed(orders)
    ensures var sorted := ByPriceDescending(Of(Buy, orders));
            WellFormed(sorted) && Descending(sorted) && forall i :: 0 <= i < |sorted| ==> sorted[i].side.Buy?
  {
    SortSorts(Of(Buy, orders));
    OfKeeps(Buy, orders);
    var sorted := ByPriceDescending(Of(Buy, orders));
    forall i | 0 <= i < |sorted| ensures sorted[i].side.Buy? && sorted[i].price > 0 && sorted[i].size >= 0 {
      assert sorted[i] in multiset(sorted);
      assert sorted[i] in Of(Buy, orders);
    }
  }

  lemma KeptAreBuys(kept: seq<Quote>, sorted: seq<Quote>, n: nat, available: real, minOrderSize: real)
    requires Trimmed(kept, sorted, n, available, minOrderSize) && forall i :: 0 <= i < |sorted| ==> sorted[i].side.Buy?
    ensures |kept| <= |sorted| && forall i :: 0 <= i < |kept| ==> kept[i].side.Buy?
  {
    forall i | 0 <= i < |kept| ensures kept[i].side.Buy? {
      assert i < n ==> kept[i] == kept[..n][i] == sorted[..n][i];
    }
  }

  lemma {:induction false} OnlySells(sells: seq<Quote>)
    requires forall o :: o in sells ==> o.side.Sell?
    ensures Of(Sell, sells) == sells
  {
    if sells != [] {
      OnlySells(sells[..|sells| - 1]);
    }
  }

  lemma {:induction false} SellsOfResult(sells: seq<Quote>, kept: seq<Quote>)
    requires forall o :: o in sells ==> o.side.Sell?
    requires forall i :: 0 <= i < |kept| ==> kept[i].side.Buy?
    ensures Of(Sell, sells + kept) == sells
    decreases |kept|
  {
    if kept == [] {
      assert sells + kept == sells;
      OnlySells(sells);
    } else {
      var init := kept[..|kept| - 1];
      assert (sells + kept)[..|sells + kept| - 1] == sells + init;
      SellsOfResult(sells, init);
    }
  }

  // ----- A payload ----------------------------------------------------------

  lemma NothingBought()
    ensures BuyNotional([]) == 0.0
  {
  }

  lemma PayloadFacts(exits: seq<Quote>, bids: seq<Quote>, g: Grid, e: Economics, bestAsk: int)
    requires g.Valid() && WellFormed(exits) && (forall o :: o in exits ==> o.side.Sell?) && GoodBids(bids, g, e, bestAsk)
    ensures WellFormed(exits + bids)
    ensures BuyNotional(exits + bids) == BuyNotional(bids)
    ensures Of(Sell, exits + bids) == exits
  {
    BidsAreBuys(bids, g, e, bestAsk);
    hide GoodBids, Of, BuyNotional, Notional;
    BuyNotionalConcat(exits, bids);
    OnlySells(exits);
    SplitNotional(exits);
    SellsOfResult(exits, bids);
  }

  lemma BidsAreBuys(bids: seq<Quote>, g: Grid, e: Economics, bestAsk: int)
    requires g.Valid() && GoodBids(bids, g, e, bestAsk)
    ensures WellFormed(bids) && forall i :: 0 <= i < |bids| ==> bids[i].side.Buy?
  {
    forall i | 0 <= i < |bids| ensures bids[i].side.Buy? && bids[i].price > 0 && bids[i].size >= 0 {
      assert GoodBid(bids[i], g, e, bestAsk);
    }
  }
}
