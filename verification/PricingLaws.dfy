/** Which way the fair value moves: what each weight, each book and each inventory does to it. */
module PricingLaws {
  import opened Common
  import opened Pricing

  // ----- Which levels count -------------------------------------------------

  /** The sizes quoted at one price, in the order in which they are listed. */
  function RawSizesAt(raw: seq<RawLevel>, price: real): seq<real>
    requires AllUsable(raw)
  {
    if raw == [] then []
    else
      assert Usable(raw[|raw| - 1]);
      RawSizesAt(raw[..|raw| - 1], price) + (if raw[|raw| - 1].price == price then [raw[|raw| - 1].size] else [])
  }

  function SizesAt(levels: seq<PriceLevel>, price: real): seq<real> {
    if levels == [] then []
    else SizesAt(levels[..|levels| - 1], price) + Kept(levels[|levels| - 1], price)
  }

  ghost predicate InOrder(levels: seq<PriceLevel>, reverse: bool) {
    forall i, j :: 0 <= i < j < |levels| ==> if reverse then levels[i].price >= levels[j].price else levels[i].price <= levels[j].price
  }

  lemma {:induction false} InsertInOrder(sorted: seq<PriceLevel>, l: PriceLevel, reverse: bool)
    requires InOrder(sorted, reverse)
    ensures InOrder(InsertLevel(sorted, l, reverse), reverse)
    ensures |InsertLevel(sorted, l, reverse)| == |sorted| + 1
    ensures forall i :: 0 <= i < |sorted| + 1 ==>
              var x := InsertLevel(sorted, l, reverse)[i]; x == l || x in sorted
    decreases |sorted|
  {
    if sorted != [] && !Ahead(sorted[|sorted| - 1], l, reverse) {
      InsertInOrder(sorted[..|sorted| - 1], l, reverse);
    }
  }

  lemma {:induction false} InsertSizes(sorted: seq<PriceLevel>, l: PriceLevel, reverse: bool, price: real)
    requires InOrder(sorted, reverse)
    ensures SizesAt(InsertLevel(sorted, l, reverse), price) == SizesAt(sorted, price) + Kept(l, price)
    decreases |sorted|
  {
    hide SizesAt;
    if sorted == [] || Ahead(sorted[|sorted| - 1], l, reverse) {
      SizesAppend(sorted, l, price);
    } else {
      var init, last := sorted[..|sorted| - 1], sorted[|sorted| - 1];
      InsertSizes(init, l, reverse, price);
      assert last.price != l.price;
      SizesAppend(InsertLevel(init, l, reverse), last, price);
      SizesAppend(init, last, price);
      assert sorted == init + [last];
      hide InOrder, InsertLevel, Ahead;
      KeptCommute(SizesAt(init, price), l, last, price);
    }
  }

  function Kept(l: PriceLevel, price: real): seq<real> {
    if l.price == price then [l.size] else []
  }

  lemma KeptCommute(sizes: seq<real>, l: PriceLevel, m: PriceLevel, price: real)
    requires l.price != m.price
    ensures sizes + Kept(l, price) + Kept(m, price) == sizes + Kept(m, price) + Kept(l, price)
  {
  }

  lemma SizesAppend(levels: seq<PriceLevel>, l: PriceLevel, price: real)
    ensures SizesAt(levels + [l], price) == SizesAt(levels, price) + Kept(l, price)
  {
    assert (levels + [l])[..|levels|] == levels;
  }

  /** Sorting a side is stable: best price first, and equal prices in their listed order. */
  lemma {:induction false} SortIsStable(raw: seq<RawLevel>, reverse: bool, price: real)
    requires AllUsable(raw)
    ensures InOrder(SortLevels(raw, reverse), reverse) && |SortLevels(raw, reverse)| == |raw|
    ensures SizesAt(SortLevels(raw, reverse), price) == RawSizesAt(raw, price)
  {
    if raw != [] {
      var init, last := raw[..|raw| - 1], raw[|raw| - 1];
      assert Usable(last);
      SortIsStable(init, reverse, price);
      InsertInOrder(SortLevels(init, reverse), PriceLevel(last.price, last.size), reverse);
      InsertSizes(SortLevels(init, reverse), PriceLevel(last.price, last.size), reverse, price);
    }
  }

  /** The levels that count are the first of such an arrangement of the whole side, as many as the
      depth allows; a side with an unusable level, or without any, counts for nothing. */
  lemma LevelsAreTheBest(raw: seq<RawLevel>, reverse: bool, depth: nat) returns (sorted: seq<PriceLevel>)
    ensures LevelsOf(raw, reverse, depth).Success? <==> AllUsable(raw) && raw != []
    ensures AllUsable(raw) ==> InOrder(sorted, reverse) && forall price :: SizesAt(sorted, price) == RawSizesAt(raw, price)
    ensures LevelsOf(raw, reverse, depth).Success? ==>
              LevelsOf(raw, reverse, depth).value == sorted[..if depth <= |sorted| then depth else |sorted|]
  {
    hide SizesAt, RawSizesAt, InOrder;
    sorted := [];
    if AllUsable(raw) {
      sorted := SortLevels(raw, reverse);
      hide SortLevels;
      forall price ensures SizesAt(sorted, price) == RawSizesAt(raw, price) {
        SortIsStable(raw, reverse, price);
      }
      SortIsStable(raw, reverse, 0.0);
      assert sorted[..|sorted|] == sorted;
    }
  }

  // ----- Depth --------------------------------------------------------------

  /** The size of the level k places behind the best, discounted k times. */
  function Discounted(levels: seq<PriceLevel>, decay: real): real {
    if levels == [] then 0.0 else levels[0].size + decay * Discounted(levels[1..], decay)
  }

  lemma {:induction false} DepthIsDiscounted(levels: seq<PriceLevel>, decay: real, weight: real)
    ensures WeightedDepth(levels, decay, weight) == weight * Discounted(levels, decay)
    decreases |levels|
  {
    if levels != [] {
      DepthIsDiscounted(levels[1..], decay, weight * decay);
      var rest := Discounted(levels[1..], decay);
      Associate(weight, decay, rest);
      assert weight * (levels[0].size + decay * rest) == weight * levels[0].size + weight * (decay * rest);
    }
  }

  lemma Associate(a: real, b: real, c: real)
    ensures a * b * c == a * (b * c)
  {
  }

  /** Same prices, and no level smaller. */
  ghost predicate Deepens(a: seq<PriceLevel>, b: seq<PriceLevel>) {
    |a| == |b| && forall i :: 0 <= i < |a| ==> a[i].price == b[i].price && a[i].size <= b[i].size
  }

  lemma {:induction false} DeeperIsMore(a: seq<PriceLevel>, b: seq<PriceLevel>, decay: real)
    requires Deepens(a, b) && decay >= 0.0
    ensures Discounted(a, decay) <= Discounted(b, decay)
    decreases |a|
  {
    hide Discounted, Times;
    DiscountedStep(a, decay);
    DiscountedStep(b, decay);
    if a != [] {
      DeeperIsMore(a[1..], b[1..], decay);
      TimesRises(Discounted(a[1..], decay), Discounted(b[1..], decay), decay);
    }
  }

  lemma DiscountedStep(levels: seq<PriceLevel>, decay: real)
    ensures levels == [] ==> Discounted(levels, decay) == 0.0
    ensures levels != [] ==> Discounted(levels, decay) == levels[0].size + Times(Discounted(levels[1..], decay), decay)
  {
  }

  // ----- One book -----------------------------------------------------------

  ghost predicate Pulled(s: BookSignal, bid: real, ask: real, b: real, a: real) {
    && s.microprice * (b + a) == ask * b + bid * a
    && s.imbalance * (b + a) == b - a
  }

  /** The signal of a book, each amount by its own equation: the bids' depth pulls the microprice
      towards the ask and the asks' depth towards the bid. */
  ghost predicate SignalOf(s: BookSignal, bids: seq<PriceLevel>, asks: seq<PriceLevel>, decay: real)
    requires bids != [] && asks != []
  {
    var b, a := Discounted(bids, decay), Discounted(asks, decay);
    && s.weightedDepth == b + a > 0.0
    && Pulled(s, bids[0].price, asks[0].price, b, a)
    && s.midpoint * 2.0 == bids[0].price + asks[0].price
    && s.spread == asks[0].price - bids[0].price
  }

  /** The best levels of both sides of a book that has a signal. */
  ghost predicate TwoSided(book: BookPair, bids: seq<PriceLevel>, asks: seq<PriceLevel>, depthLevels: int) {
    && depthLevels >= 0
    && LevelsOf(book.bids, true, depthLevels) == Success(bids) && LevelsOf(book.asks, false, depthLevels) == Success(asks)
    && bids != [] && asks != [] && bids[0].price < asks[0].price
  }

  lemma PositiveDepth(raw: seq<RawLevel>, reverse: bool, depthLevels: nat, decay: real)
    requires LevelsOf(raw, reverse, depthLevels).Success? && LevelsOf(raw, reverse, depthLevels).value != [] && decay > 0.0
    ensures var levels := LevelsOf(raw, reverse, depthLevels).value;
            WeightedDepth(levels, decay, 1.0) == Discounted(levels, decay) > 0.0
  {
    SortPutsBestFirst(raw, reverse);
    var levels := LevelsOf(raw, reverse, depthLevels).value;
    hide SortLevels, WeightedDepth;
    DepthIsPositive(levels, decay, 1.0);
    DepthIsDiscounted(levels, decay, 1.0);
  }

  /** When a book has a signal, and which. */
  lemma SignalInFull(book: BookPair, depthLevels: int, decay: real) returns (bids: seq<PriceLevel>, asks: seq<PriceLevel>)
    ensures CalculateBookSignal(book, depthLevels, decay).Success?
       <==> 1 <= depthLevels <= 20 && 0.0 < decay <= 1.0 && TwoSided(book, bids, asks, depthLevels)
    ensures CalculateBookSignal(book, depthLevels, decay).Success? ==>
              && bids != [] && asks != [] && Discounted(bids, decay) > 0.0 && Discounted(asks, decay) > 0.0
              && SignalOf(CalculateBookSignal(book, depthLevels, decay).value, bids, asks, decay)
  {
    bids, asks := [], [];
    if 1 <= depthLevels <= 20 && LevelsOf(book.bids, true, depthLevels).Success? && LevelsOf(book.asks, false, depthLevels).Success? {
      bids, asks := LevelsOf(book.bids, true, depthLevels).value, LevelsOf(book.asks, false, depthLevels).value;
      if 0.0 < decay <= 1.0 && TwoSided(book, bids, asks, depthLevels) {
        PositiveDepth(book.bids, true, depthLevels, decay);
        PositiveDepth(book.asks, false, depthLevels, decay);
        hide LevelsOf, WeightedDepth, Discounted, Weighted;
        SignalEquations(asks[0].price, Discounted(bids, decay), bids[0].price, Discounted(asks, decay));
      }
    }
  }

  lemma SignalEquations(ask: real, b: real, bid: real, a: real)
    requires b + a > 0.0
    ensures Weighted(ask, b, bid, a) * (b + a) == ask * b + bid * a
    ensures (b - a) / (b + a) * (b + a) == b - a
  {
  }

  /** More depth on the bids, at the same prices, never lowers the microprice. */
  lemma DeeperBidsRaise(s: BookSignal, t: BookSignal, bids: seq<PriceLevel>, deeper: seq<PriceLevel>, asks: seq<PriceLevel>, decay: real)
    requires bids != [] && asks != [] && Deepens(bids, deeper) && decay > 0.0
    requires SignalOf(s, bids, asks, decay) && SignalOf(t, deeper, asks, decay)
    requires bids[0].price < asks[0].price && Discounted(bids, decay) >= 0.0 && Discounted(asks, decay) >= 0.0
    ensures s.microprice <= t.microprice && s.imbalance <= t.imbalance
  {
    DeeperIsMore(bids, deeper, decay);
    hide Discounted, Pulled;
    HeavierPulls(s, t, bids[0].price, asks[0].price, Discounted(bids, decay), Discounted(deeper, decay), Discounted(asks, decay));
  }

  lemma HeavierPulls(s: BookSignal, t: BookSignal, bid: real, ask: real, b: real, c: real, a: real)
    requires bid < ask && 0.0 <= b <= c && a >= 0.0 && b + a > 0.0
    requires Pulled(s, bid, ask, b, a) && Pulled(t, bid, ask, c, a)
    ensures s.microprice <= t.microprice && s.imbalance <= t.imbalance
  {
    HeavierWeightPulls(s.microprice, t.microprice, ask, bid, b, c, a);
    HeavierWeightPulls(s.imbalance, t.imbalance, 1.0, -1.0, b, c, a);
  }

  lemma HeavierWeightPulls(x: real, y: real, high: real, low: real, b: real, c: real, a: real)
    requires low < high && 0.0 <= b <= c && a >= 0.0 && b + a > 0.0
    requires x * (b + a) == high * b + low * a && y * (c + a) == high * c + low * a
    ensures x <= y
  {
    AboveLow(x, high, low, b, a);
    AboveLow(y, high, low, c, a);
    SharesRise(x - low, y - low, high - low, b, c, a);
  }

  lemma AboveLow(x: real, high: real, low: real, b: real, a: real)
    requires x * (b + a) == high * b + low * a
    ensures Times(x - low, b + a) == Times(high - low, b)
  {
    Distributes(x, low, b + a);
    Distributes(high, low, b);
    Distributes(b, a, low);
  }

  /** A part v of d that belongs to the larger weight is the larger part. */
  lemma SharesRise(u: real, v: real, d: real, b: real, c: real, a: real)
    requires 0.0 <= b <= c && a >= 0.0 && b + a > 0.0 && d > 0.0
    requires Times(u, b + a) == Times(d, b) && Times(v, c + a) == Times(d, c)
    ensures u <= v
  {
    TimesRises(0.0, d, a);
    assert Times(0.0, a) == 0.0;
    hide Times;
    TimesAdds(d, b, a);
    TimesRises(d, u, b + a);
    assert u <= d;
    TimesAdds(u, b + a, c - b);
    TimesAdds(d, b, c - b);
    TimesRises(u, d, c - b);
    assert (b + a) + (c - b) == c + a && b + (c - b) == c;
    TimesRises(v, u, c + a);
  }

  /** The same for whole books: raise the size of any bid and the microprice does not fall. */
  lemma DeeperBookRaises(book: BookPair, deeper: BookPair, depthLevels: int, decay: real)
    requires CalculateBookSignal(book, depthLevels, decay).Success? && CalculateBookSignal(deeper, depthLevels, decay).Success?
    requires deeper.asks == book.asks && |deeper.bids| == |book.bids|
    requires forall i :: 0 <= i < |book.bids| ==>
               book.bids[i].RawLevel? && deeper.bids[i].RawLevel?
               && book.bids[i].price == deeper.bids[i].price && book.bids[i].size <= deeper.bids[i].size
    ensures var s, t := CalculateBookSignal(book, depthLevels, decay).value, CalculateBookSignal(deeper, depthLevels, decay).value;
            s.microprice <= t.microprice && s.imbalance <= t.imbalance
  {
    hide CalculateBookSignal, SignalOf, Discounted, SortLevels;
    var bids, asks := SignalInFull(book, depthLevels, decay);
    var more, same := SignalInFull(deeper, depthLevels, decay);
    SortDeepens(book.bids, deeper.bids, true);
    DeeperBidsRaise(CalculateBookSignal(book, depthLevels, decay).value, CalculateBookSignal(deeper, depthLevels, decay).value,
                    bids, more, asks, decay);
  }

  lemma {:induction false} InsertDeepens(a: seq<PriceLevel>, b: seq<PriceLevel>, l: PriceLevel, m: PriceLevel, reverse: bool)
    requires Deepens(a, b) && l.price == m.price && l.size <= m.size
    ensures Deepens(InsertLevel(a, l, reverse), InsertLevel(b, m, reverse))
    decreases |a|
  {
    if a != [] && !Ahead(a[|a| - 1], l, reverse) {
      InsertDeepens(a[..|a| - 1], b[..|b| - 1], l, m, reverse);
    }
  }

  lemma {:induction false} SortDeepens(a: seq<RawLevel>, b: seq<RawLevel>, reverse: bool)
    requires AllUsable(a) && AllUsable(b) && |a| == |b|
    requires forall i :: 0 <= i < |a| ==>
               a[i].RawLevel? && b[i].RawLevel? && a[i].price == b[i].price && a[i].size <= b[i].size
    ensures Deepens(SortLevels(a, reverse), SortLevels(b, reverse))
  {
    if a != [] {
      var n := |a| - 1;
      assert Usable(a[n]) && Usable(b[n]);
      SortDeepens(a[..n], b[..n], reverse);
      InsertDeepens(SortLevels(a[..n], reverse), SortLevels(b[..n], reverse),
                    PriceLevel(a[n].price, a[n].size), PriceLevel(b[n].price, b[n].size), reverse);
    }
  }

  // ----- Both books ---------------------------------------------------------

  /** The fused value by its equation: each book weighs by its own depth. */
  lemma RawByDepth(yes: BookSignal, no: BookSignal)
    requires yes.weightedDepth > 0.0 && no.weightedDepth > 0.0
    ensures RawYes(yes, no) * (yes.weightedDepth + no.weightedDepth)
            == yes.microprice * yes.weightedDepth + (1.0 - no.microprice) * no.weightedDepth
    ensures CombinedImbalance(yes, no) * (yes.weightedDepth + no.weightedDepth)
            == yes.imbalance * yes.weightedDepth - no.imbalance * no.weightedDepth
  {
  }

  /** The share of the cap by which YES outweighs NO, at most the whole of it either way. */
  ghost predicate ShareOfCap(share: real, yesValue: real, noValue: real, cap: real) {
    if yesValue - noValue >= cap then share == 1.0
    else if noValue - yesValue >= cap then share == -1.0
    else share * cap == yesValue - noValue
  }

  ghost predicate GoodParameters(p: Parameters) {
    && 0.0 < p.baseSpread < 1.0 && 0.0 <= p.maxParityError < 1.0
    && 0.0 <= p.maxInventorySkew < 0.5 && p.inventoryCap > 0.0
  }

  /** When there is a fair value, and which: each book weighs by its own depth, a YES inventory
      lowers the value and a NO inventory raises it, in proportion up to the cap. */
  lemma FairValueInFull(yesBook: BookPair, noBook: BookPair, p: Parameters, yesValue: real, noValue: real)
    returns (yes: BookSignal, no: BookSignal, share: real)
    ensures CalculateBookSignal(yesBook, p.depthLevels, p.depthDecay).Success? ==>
              CalculateBookSignal(yesBook, p.depthLevels, p.depthDecay).value == yes
    ensures CalculateBookSignal(noBook, p.depthLevels, p.depthDecay).Success? ==>
              CalculateBookSignal(noBook, p.depthLevels, p.depthDecay).value == no
    ensures CalculateBinaryFairValue(yesBook, noBook, p, yesValue, noValue).Success?
       <==> && CalculateBookSignal(yesBook, p.depthLevels, p.depthDecay).Success?
            && CalculateBookSignal(noBook, p.depthLevels, p.depthDecay).Success?
            && GoodParameters(p)
            && -p.maxParityError <= yes.microprice + no.microprice - 1.0 <= p.maxParityError
    ensures CalculateBinaryFairValue(yesBook, noBook, p, yesValue, noValue).Success? ==>
              && yes.weightedDepth > 0.0 && no.weightedDepth > 0.0
              && FusedAs(CalculateBinaryFairValue(yesBook, noBook, p, yesValue, noValue).value, yes, no, p, yesValue, noValue, share)
  {
    hide CalculateBookSignal, Fuse, FusedAs;
    var left := CalculateBookSignal(yesBook, p.depthLevels, p.depthDecay);
    var right := CalculateBookSignal(noBook, p.depthLevels, p.depthDecay);
    var none := BookSignal(0.0, 0.0, 0.0, 0.0, 0.0);
    yes := if left.Success? then left.value else none;
    no := if right.Success? then right.value else none;
    share := 0.0;
    if left.Success? && right.Success? {
      SignalFacts(yesBook, p);
      SignalFacts(noBook, p);
      share := FuseInFull(yes, no, p, yesValue, noValue);
    }
  }

  ghost predicate FusedAs(v: BinaryFairValue, yes: BookSignal, no: BookSignal, p: Parameters, yesValue: real, noValue: real, share: real)
    requires yes.weightedDepth > 0.0 && no.weightedDepth > 0.0
  {
    && ShareOfCap(share, yesValue, noValue, p.inventoryCap)
    && IsBounded(v.yesFairValue, RawYes(yes, no) - share * p.maxInventorySkew)
    && v.combinedImbalance == CombinedImbalance(yes, no)
    && SpreadIs(v.dynamicSpread, yes.spread, no.spread, p.baseSpread, CombinedImbalance(yes, no))
  }

  lemma FuseInFull(yes: BookSignal, no: BookSignal, p: Parameters, yesValue: real, noValue: real) returns (share: real)
    requires yes.weightedDepth > 0.0 && no.weightedDepth > 0.0
    ensures Fuse(yes, no, p, yesValue, noValue).Success?
       <==> GoodParameters(p) && -p.maxParityError <= yes.microprice + no.microprice - 1.0 <= p.maxParityError
    ensures Fuse(yes, no, p, yesValue, noValue).Success? ==>
              FusedAs(Fuse(yes, no, p, yesValue, noValue).value, yes, no, p, yesValue, noValue, share)
  {
    hide RawYes, CombinedImbalance;
    share := 0.0;
    if p.inventoryCap > 0.0 {
      share := InventoryRatio(yesValue, noValue, p.inventoryCap);
      RatioIsShare(yesValue, noValue, p.inventoryCap);
      hide InventoryRatio;
    }
  }

  /** x kept between one cent and 99 cents. */
  predicate IsBounded(y: real, x: real) {
    if x < 0.01 then y == 0.01 else if x > 0.99 then y == 0.99 else y == x
  }

  /** The base spread widened by the imbalance, but at least that of the wider book, of which at
      most 25 cents count. */
  predicate SpreadIs(spread: real, yesSpread: real, noSpread: real, base: real, imbalance: real) {
    var widened := base * (1.0 + (if imbalance >= 0.0 then imbalance else -imbalance));
    var wider := if yesSpread >= noSpread then yesSpread else noSpread;
    var floor := if wider <= 0.25 then wider else 0.25;
    spread == (if widened >= floor then widened else floor)
  }

  lemma RatioIsShare(yesValue: real, noValue: real, cap: real)
    requires cap > 0.0
    ensures ShareOfCap(InventoryRatio(yesValue, noValue, cap), yesValue, noValue, cap)
  {
    QuotientAgainst(yesValue - noValue, cap);
  }

  lemma QuotientAgainst(d: real, cap: real)
    requires cap > 0.0
    ensures d / cap * cap == d
    ensures d >= cap ==> d / cap >= 1.0
    ensures d <= -cap ==> d / cap <= -1.0
    ensures -cap < d < cap ==> -1.0 < d / cap < 1.0
  {
    QuotientOrder(d / cap, 1.0, cap);
    QuotientOrder(d / cap, -1.0, cap);
  }

  lemma QuotientOrder(x: real, y: real, w: real)
    requires w > 0.0
    ensures x < y <==> x * w < y * w
    ensures x > y <==> x * w > y * w
  {
    Distributes(x, y, w);
    SignOfProduct(x - y, w);
  }

  /** With the books fixed, more YES inventory never raises the YES fair value. */
  lemma InventoryNeverRaises(yesBook: BookPair, noBook: BookPair, p: Parameters, less: real, more: real, noValue: real)
    requires less <= more
    ensures var v := CalculateBinaryFairValue(yesBook, noBook, p, less, noValue);
            var w := CalculateBinaryFairValue(yesBook, noBook, p, more, noValue);
            v.Success? == w.Success? && (v.Success? ==> w.value.yesFairValue <= v.value.yesFairValue)
  {
    hide CalculateBinaryFairValue, CalculateBookSignal, FusedAs;
    var yes, no, a := FairValueInFull(yesBook, noBook, p, less, noValue);
    var yesAgain, noAgain, b := FairValueInFull(yesBook, noBook, p, more, noValue);
    var v := CalculateBinaryFairValue(yesBook, noBook, p, less, noValue);
    var w := CalculateBinaryFairValue(yesBook, noBook, p, more, noValue);
    if v.Success? && w.Success? {
      FusedFalls(v.value, w.value, yes, no, p, less, more, noValue, a, b);
    }
  }

  lemma FusedFalls(
    v: BinaryFairValue, w: BinaryFairValue, yes: BookSignal, no: BookSignal, p: Parameters,
    less: real, more: real, noValue: real, a: real, b: real)
    requires yes.weightedDepth > 0.0 && no.weightedDepth > 0.0 && GoodParameters(p) && less <= more
    requires FusedAs(v, yes, no, p, less, noValue, a) && FusedAs(w, yes, no, p, more, noValue, b)
    ensures w.yesFairValue <= v.yesFairValue
  {
    hide RawYes, CombinedImbalance, SpreadIs;
    ShareRises(a, b, less, more, noValue, p.inventoryCap);
    TimesRises(a, b, p.maxInventorySkew);
    hide ShareOfCap;
  }

  lemma ShareRises(a: real, b: real, less: real, more: real, noValue: real, cap: real)
    requires cap > 0.0 && less <= more
    requires ShareOfCap(a, less, noValue, cap) && ShareOfCap(b, more, noValue, cap)
    ensures a <= b
  {
    ShareInside(a, less, noValue, cap);
    ShareInside(b, more, noValue, cap);
    if less - noValue < cap && noValue - less < cap && more - noValue < cap && noValue - more < cap {
      assert (b - a) * cap == more - less;
      if b < a {
        SignOfProduct(b - a, cap);
      }
    }
  }

  lemma ShareInside(a: real, yesValue: real, noValue: real, cap: real)
    requires cap > 0.0 && ShareOfCap(a, yesValue, noValue, cap)
    ensures -1.0 <= a <= 1.0
  {
    if yesValue - noValue < cap && noValue - yesValue < cap {
      if a > 1.0 {
        SignOfProduct(a - 1.0, cap);
      }
      if a < -1.0 {
        SignOfProduct(a + 1.0, cap);
      }
    }
  }

  /** At the cap or beyond it, the whole skew is taken off. */
  lemma FullSkewAtTheCap(yesBook: BookPair, noBook: BookPair, p: Parameters, yesValue: real, noValue: real)
    returns (yes: BookSignal, no: BookSignal)
    requires CalculateBinaryFairValue(yesBook, noBook, p, yesValue, noValue).Success?
    requires yesValue - noValue >= p.inventoryCap
    ensures CalculateBookSignal(yesBook, p.depthLevels, p.depthDecay) == Success(yes)
    ensures CalculateBookSignal(noBook, p.depthLevels, p.depthDecay) == Success(no)
    ensures yes.weightedDepth + no.weightedDepth > 0.0
    ensures IsBounded(CalculateBinaryFairValue(yesBook, noBook, p, yesValue, noValue).value.yesFairValue,
                      RawYes(yes, no) - p.maxInventorySkew)
  {
    hide CalculateBinaryFairValue, CalculateBookSignal, RawYes, CombinedImbalance;
    var share;
    yes, no, share := FairValueInFull(yesBook, noBook, p, yesValue, noValue);
  }
}
