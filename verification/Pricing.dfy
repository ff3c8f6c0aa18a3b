/** The binary pricing model: one signal per book, and the fair value fused from the YES
    and the NO book. Prices are fractions of a dollar. */
module Pricing {
  import opened Common

  /** A level whose price or size is not a finite number is malformed. */
  datatype RawLevel = MalformedLevel | RawLevel(price: real, size: real)

  datatype PriceLevel = PriceLevel(price: real, size: real)

  datatype PricingError =
    | BadDepthLevels | BadDepthDecay | BadLevel | MissingSide | CrossedBook
    | BadBaseSpread | BadMaxParity | BadMaxSkew | BadInventory | ParityError

  datatype BookSignal = BookSignal(microprice: real, midpoint: real, spread: real, imbalance: real, weightedDepth: real)

  datatype BinaryFairValue = BinaryFairValue(yesFairValue: real, dynamicSpread: real, parityError: real, combinedImbalance: real)

  datatype BookPair = BookPair(bids: seq<RawLevel>, asks: seq<RawLevel>)

  datatype Parameters = Parameters(
    baseSpread: real, depthLevels: int, depthDecay: real, maxParityError: real, inventoryCap: real, maxInventorySkew: real)

  predicate Usable(l: RawLevel) {
    l.RawLevel? && 0.0 < l.price < 1.0 && l.size > 0.0
  }

  predicate AllUsable(raw: seq<RawLevel>) {
    forall i :: 0 <= i < |raw| ==> Usable(raw[i])
  }

  // ----- Levels -------------------------------------------------------------

  predicate Ahead(a: PriceLevel, b: PriceLevel, reverse: bool) {
    if reverse then a.price >= b.price else a.price <= b.price
  }

  function InsertLevel(sorted: seq<PriceLevel>, l: PriceLevel, reverse: bool): seq<PriceLevel> {
    if sorted == [] || Ahead(sorted[|sorted| - 1], l, reverse) then sorted + [l]
    else InsertLevel(sorted[..|sorted| - 1], l, reverse) + [sorted[|sorted| - 1]]
  }

  function SortLevels(raw: seq<RawLevel>, reverse: bool): seq<PriceLevel>
    requires AllUsable(raw)
  {
    if raw == [] then []
    else
      assert Usable(raw[|raw| - 1]);
      InsertLevel(SortLevels(raw[..|raw| - 1], reverse), PriceLevel(raw[|raw| - 1].price, raw[|raw| - 1].size), reverse)
  }

  function LevelsOf(raw: seq<RawLevel>, reverse: bool, depthLevels: nat): Result<seq<PriceLevel>, PricingError> {
    if !AllUsable(raw) then Failure(BadLevel)
    else if raw == [] then Failure(MissingSide)
    else
      var sorted := SortLevels(raw, reverse);
      Success(if |sorted| <= depthLevels then sorted else sorted[..depthLevels])
  }

  method BuildLevels(raw: seq<RawLevel>, reverse: bool, depthLevels: nat) returns (r: Result<seq<PriceLevel>, PricingError>)
    ensures r == LevelsOf(raw, reverse, depthLevels)
  {
    var output: seq<PriceLevel> := [];
    for i := 0 to |raw|
      invariant AllUsable(raw[..i]) && output == SortLevels(raw[..i], reverse)
    {
      if !Usable(raw[i]) {
        return Failure(BadLevel);
      }
      assert raw[..i + 1][..i] == raw[..i];
      output := InsertLevel(output, PriceLevel(raw[i].price, raw[i].size), reverse);
    }
    assert raw[..|raw|] == raw;
    if raw == [] {
      return Failure(MissingSide);
    }
    return Success(if |output| <= depthLevels then output else output[..depthLevels]);
  }

  /** The best price of a side. */
  ghost predicate IsBest(price: real, raw: seq<RawLevel>, reverse: bool)
    requires AllUsable(raw)
  {
    && (exists i :: 0 <= i < |raw| && raw[i].price == price)
    && (forall i :: 0 <= i < |raw| ==> if reverse then raw[i].price <= price else price <= raw[i].price)
  }

  ghost predicate GoodLevels(levels: seq<PriceLevel>) {
    forall i :: 0 <= i < |levels| ==> 0.0 < levels[i].price < 1.0 && levels[i].size > 0.0
  }

  lemma {:induction false} InsertKeepsFirst(sorted: seq<PriceLevel>, l: PriceLevel, reverse: bool)
    requires GoodLevels(sorted) && GoodLevels([l])
    requires forall i :: 0 <= i < |sorted| ==> Ahead(sorted[0], sorted[i], reverse)
    ensures var r := InsertLevel(sorted, l, reverse);
            && GoodLevels(r) && |r| == |sorted| + 1
            && (r[0] == l || (sorted != [] && r[0] == sorted[0]))
            && Ahead(r[0], l, reverse)
            && (forall i :: 0 <= i < |sorted| ==> Ahead(r[0], sorted[i], reverse))
            && (forall i :: 0 <= i < |r| ==> Ahead(r[0], r[i], reverse))
    decreases |sorted|
  {
    if sorted != [] && !Ahead(sorted[|sorted| - 1], l, reverse) {
      var init, last := sorted[..|sorted| - 1], sorted[|sorted| - 1];
      InsertKeepsFirst(init, l, reverse);
      assert GoodLevels([l]);
    } else {
      assert sorted != [] ==> Ahead(sorted[0], sorted[|sorted| - 1], reverse);
      assert [l][0] == l;
    }
  }

  lemma {:induction false} SortPutsBestFirst(raw: seq<RawLevel>, reverse: bool)
    requires AllUsable(raw)
    ensures var sorted := SortLevels(raw, reverse);
            && |sorted| == |raw| && GoodLevels(sorted)
            && (raw != [] ==> IsBest(sorted[0].price, raw, reverse))
            && (forall i :: 0 <= i < |sorted| ==> Ahead(sorted[0], sorted[i], reverse))
  {
    if raw != [] {
      var init, last := raw[..|raw| - 1], raw[|raw| - 1];
      assert Usable(last);
      SortPutsBestFirst(init, reverse);
      var l := PriceLevel(last.price, last.size);
      assert GoodLevels([l]);
      InsertKeepsFirst(SortLevels(init, reverse), l, reverse);
      var first := InsertLevel(SortLevels(init, reverse), l, reverse)[0];
      BestOfMore(init, last, reverse, if init == [] then 0.0 else SortLevels(init, reverse)[0].price, first.price);
    }
  }

  lemma BestOfMore(init: seq<RawLevel>, last: RawLevel, reverse: bool, best: real, first: real)
    requires AllUsable(init) && Usable(last)
    requires init != [] ==> IsBest(best, init, reverse)
    requires first == last.price || (init != [] && first == best)
    requires if reverse then first >= last.price else first <= last.price
    requires init != [] ==> if reverse then first >= best else first <= best
    ensures AllUsable(init + [last]) && IsBest(first, init + [last], reverse)
  {
    var raw := init + [last];
    if first == last.price {
      assert raw[|init|].price == first;
    } else {
      var i :| 0 <= i < |init| && init[i].price == best;
      assert raw[i].price == first;
    }
  }

  // ----- One book -----------------------------------------------------------

  /** Sum of size times decay to the index; weight is the power reached so far. */
  function WeightedDepth(levels: seq<PriceLevel>, decay: real, weight: real): real {
    if levels == [] then 0.0
    else levels[0].size * weight + WeightedDepth(levels[1..], decay, weight * decay)
  }

  lemma {:induction false} DepthIsPositive(levels: seq<PriceLevel>, decay: real, weight: real)
    requires GoodLevels(levels) && decay > 0.0 && weight > 0.0
    ensures WeightedDepth(levels, decay, weight) >= 0.0
    ensures levels != [] ==> WeightedDepth(levels, decay, weight) > 0.0
  {
    if levels != [] {
      assert levels[0].size * weight > 0.0;
      assert weight * decay > 0.0;
      DepthIsPositive(levels[1..], decay, weight * decay);
    }
  }

  /** The average of two prices, each weighted by the depth on the other side. */
  function Weighted(a: real, wa: real, b: real, wb: real): real
    requires wa + wb != 0.0
  {
    (a * wa + b * wb) / (wa + wb)
  }

  function CalculateBookSignal(book: BookPair, depthLevels: int, depthDecay: real): Result<BookSignal, PricingError> {
    if depthLevels < 1 || depthLevels > 20 then Failure(BadDepthLevels)
    else if depthDecay <= 0.0 || depthDecay > 1.0 then Failure(BadDepthDecay)
    else
      var bids :- LevelsOf(book.bids, true, depthLevels);
      var asks :- LevelsOf(book.asks, false, depthLevels);
      if bids == [] || asks == [] then Failure(MissingSide)
      else if bids[0].price >= asks[0].price then Failure(CrossedBook)
      else
        var bidDepth, askDepth := WeightedDepth(bids, depthDecay, 1.0), WeightedDepth(asks, depthDecay, 1.0);
        var total := bidDepth + askDepth;
        if total <= 0.0 then Failure(MissingSide)
        else
          Success(BookSignal(
            Weighted(asks[0].price, bidDepth, bids[0].price, askDepth),
            (bids[0].price + asks[0].price) / 2.0,
            asks[0].price - bids[0].price,
            (bidDepth - askDepth) / total,
            total))
  }

  lemma Distributes(a: real, b: real, w: real)
    ensures (a - b) * w == a * w - b * w
    ensures (a + b) * w == a * w + b * w
  {
  }

  lemma SignOfProduct(x: real, w: real)
    requires w > 0.0
    ensures x > 0.0 ==> x * w > 0.0
    ensures x < 0.0 ==> x * w < 0.0
    ensures x == 0.0 ==> x * w == 0.0
  {
  }

  lemma PositiveFactor(x: real, w: real)
    requires w > 0.0 && x * w > 0.0
    ensures x > 0.0
  {
    SignOfProduct(x, w);
  }

  lemma EqualFactor(x: real, y: real, w: real)
    requires w > 0.0 && x * w == y * w
    ensures x == y
  {
    Distributes(x, y, w);
    SignOfProduct(x - y, w);
  }

  lemma WeightedRises(a: real, wa: real, b: real, wb: real)
    requires wa > 0.0 && wb > 0.0 && a < b
    ensures a < Weighted(a, wa, b, wb) < b
  {
    var m, w := Weighted(a, wa, b, wb), wa + wb;
    assert m * w == a * wa + b * wb;
    hide Weighted;
    Distributes(m, a, w);
    Distributes(b, m, w);
    Distributes(b, a, wa);
    Distributes(b, a, wb);
    assert a * w == a * wa + a * wb && b * w == b * wa + b * wb;
    SignOfProduct(b - a, wa);
    SignOfProduct(b - a, wb);
    PositiveFactor(m - a, w);
    PositiveFactor(b - m, w);
  }

  /** A weighted average of two different values lies strictly between them. */
  lemma WeightedIsBetween(a: real, wa: real, b: real, wb: real)
    requires wa > 0.0 && wb > 0.0
    ensures a < b ==> a < Weighted(a, wa, b, wb) < b
    ensures b < a ==> b < Weighted(a, wa, b, wb) < a
    ensures a == b ==> Weighted(a, wa, b, wb) == a
  {
    if a < b {
      WeightedRises(a, wa, b, wb);
    } else if b < a {
      WeightedRises(b, wb, a, wa);
      assert Weighted(a, wa, b, wb) == Weighted(b, wb, a, wa);
    } else {
      assert a * wa + a * wb == a * (wa + wb);
      assert Weighted(a, wa, b, wb) * (wa + wb) == a * (wa + wb);
      EqualFactor(Weighted(a, wa, b, wb), a, wa + wb);
    }
  }

  lemma RatioInside(a: real, b: real)
    requires a > 0.0 && b > 0.0
    ensures -1.0 < (a - b) / (a + b) < 1.0
  {
    var r := (a - b) / (a + b);
    assert r * (a + b) == a - b;
    assert (1.0 - r) * (a + b) == 2.0 * b;
    assert (r + 1.0) * (a + b) == 2.0 * a;
    PositiveFactor(1.0 - r, a + b);
    PositiveFactor(r + 1.0, a + b);
  }

  /** The microprice lies strictly between the best bid and the best ask, and the imbalance
      strictly between minus one and one. */
  lemma MicropriceIsInsideTheSpread(book: BookPair, depthLevels: int, depthDecay: real)
    returns (bestBid: real, bestAsk: real)
    requires CalculateBookSignal(book, depthLevels, depthDecay).Success?
    ensures AllUsable(book.bids) && AllUsable(book.asks)
    ensures IsBest(bestBid, book.bids, true) && IsBest(bestAsk, book.asks, false)
    ensures var signal := CalculateBookSignal(book, depthLevels, depthDecay).value;
            && 0.0 < bestBid < signal.microprice < bestAsk < 1.0
            && signal.spread == bestAsk - bestBid && bestBid < signal.midpoint < bestAsk
            && -1.0 < signal.imbalance < 1.0 && signal.weightedDepth > 0.0
  {
    hide SortLevels, WeightedDepth, Weighted, IsBest;
    SortPutsBestFirst(book.bids, true);
    SortPutsBestFirst(book.asks, false);
    var bids, asks := LevelsOf(book.bids, true, depthLevels).value, LevelsOf(book.asks, false, depthLevels).value;
    bestBid, bestAsk := bids[0].price, asks[0].price;
    DepthIsPositive(bids, depthDecay, 1.0);
    DepthIsPositive(asks, depthDecay, 1.0);
    var bidDepth, askDepth := WeightedDepth(bids, depthDecay, 1.0), WeightedDepth(asks, depthDecay, 1.0);
    WeightedIsBetween(bestAsk, bidDepth, bestBid, askDepth);
    RatioInside(bidDepth, askDepth);
  }

  // ----- Both books ---------------------------------------------------------

  function Clamp(low: real, high: real, x: real): real {
    MaxReal(low, MinReal(high, x))
  }

  /** The fused value before inventory skews it. */
  function RawYes(yes: BookSignal, no: BookSignal): real
    requires yes.weightedDepth + no.weightedDepth != 0.0
  {
    Weighted(yes.microprice, yes.weightedDepth, 1.0 - no.microprice, no.weightedDepth)
  }

  function InventoryRatio(yesValue: real, noValue: real, cap: real): real
    requires cap > 0.0
  {
    Clamp(-1.0, 1.0, (yesValue - noValue) / cap)
  }

  function CombinedImbalance(yes: BookSignal, no: BookSignal): real
    requires yes.weightedDepth + no.weightedDepth != 0.0
  {
    (yes.imbalance * yes.weightedDepth - no.imbalance * no.weightedDepth) / (yes.weightedDepth + no.weightedDepth)
  }

  function CalculateBinaryFairValue(yesBook: BookPair, noBook: BookPair, p: Parameters, yesValue: real, noValue: real)
    : Result<BinaryFairValue, PricingError>
  {
    var yes :- CalculateBookSignal(yesBook, p.depthLevels, p.depthDecay);
    var no :- CalculateBookSignal(noBook, p.depthLevels, p.depthDecay);
    Fuse(yes, no, p, yesValue, noValue)
  }

  function Fuse(yes: BookSignal, no: BookSignal, p: Parameters, yesValue: real, noValue: real)
    : Result<BinaryFairValue, PricingError>
  {
    if !(0.0 < p.baseSpread < 1.0) then Failure(BadBaseSpread)
    else if !(0.0 <= p.maxParityError < 1.0) then Failure(BadMaxParity)
    else if !(0.0 <= p.maxInventorySkew < 0.5) then Failure(BadMaxSkew)
    else if p.inventoryCap <= 0.0 then Failure(BadInventory)
    else
      var parityError := AbsReal(yes.microprice - (1.0 - no.microprice));
      if parityError > p.maxParityError then Failure(ParityError)
      else if yes.weightedDepth + no.weightedDepth == 0.0 then Failure(MissingSide)
      else
        var adjusted := RawYes(yes, no) - InventoryRatio(yesValue, noValue, p.inventoryCap) * p.maxInventorySkew;
        var imbalance := CombinedImbalance(yes, no);
        Success(BinaryFairValue(
          Clamp(0.01, 0.99, adjusted),
          MaxReal(p.baseSpread * (1.0 + AbsReal(imbalance)), MinReal(0.25, MaxReal(yes.spread, no.spread))),
          parityError,
          imbalance))
  }

  lemma NumeratorsAddUp(p: real, y: real, q: real, n: real)
    ensures (p * y + (1.0 - q) * n) + (q * n + (1.0 - p) * y) == 1.0 * (y + n)
  {
    Distributes(1.0, q, n);
    Distributes(1.0, p, y);
  }

  lemma SwapSignals(yes: BookSignal, no: BookSignal)
    requires yes.weightedDepth > 0.0 && no.weightedDepth > 0.0
    ensures RawYes(no, yes) == 1.0 - RawYes(yes, no)
    ensures CombinedImbalance(no, yes) == -CombinedImbalance(yes, no)
  {
    var y, n := yes.weightedDepth, no.weightedDepth;
    var t := y + n;
    var a, b := RawYes(yes, no), RawYes(no, yes);
    assert a * t == yes.microprice * y + (1.0 - no.microprice) * n;
    assert b * t == no.microprice * n + (1.0 - yes.microprice) * y;
    NumeratorsAddUp(yes.microprice, y, no.microprice, n);
    Distributes(a, b, t);
    EqualFactor(a + b, 1.0, t);
    var c, d := CombinedImbalance(yes, no), CombinedImbalance(no, yes);
    assert c * t == yes.imbalance * y - no.imbalance * n;
    assert d * t == no.imbalance * n - yes.imbalance * y;
    Distributes(c, d, t);
    assert (c + d) * t == 0.0 * t;
    EqualFactor(c + d, 0.0, t);
  }

  lemma SwapInventory(yesValue: real, noValue: real, cap: real, skew: real)
    requires cap > 0.0
    ensures InventoryRatio(noValue, yesValue, cap) == -InventoryRatio(yesValue, noValue, cap)
    ensures InventoryRatio(noValue, yesValue, cap) * skew == -(InventoryRatio(yesValue, noValue, cap) * skew)
    ensures -1.0 <= InventoryRatio(yesValue, noValue, cap) <= 1.0
  {
    var x, y := (yesValue - noValue) / cap, (noValue - yesValue) / cap;
    assert x * cap == yesValue - noValue && y * cap == noValue - yesValue;
    assert (x + y) * cap == 0.0 * cap;
    EqualFactor(x + y, 0.0, cap);
  }

  lemma SignalFacts(book: BookPair, p: Parameters)
    requires CalculateBookSignal(book, p.depthLevels, p.depthDecay).Success?
    ensures CalculateBookSignal(book, p.depthLevels, p.depthDecay).value.weightedDepth > 0.0
  {
    var _, _ := MicropriceIsInsideTheSpread(book, p.depthLevels, p.depthDecay);
  }

  /** YES and NO are symmetric: exchanging the two books and the two inventories exchanges
      the fair value with one minus it, negates the imbalance, and keeps the spread, the
      parity error and whether there is a value at all. */
  lemma FairValueIsSymmetric(yesBook: BookPair, noBook: BookPair, p: Parameters, yesValue: real, noValue: real)
    ensures var v := CalculateBinaryFairValue(yesBook, noBook, p, yesValue, noValue);
            var w := CalculateBinaryFairValue(noBook, yesBook, p, noValue, yesValue);
            && v.Success? == w.Success?
            && (v.Success? ==>
                  && w.value.yesFairValue == 1.0 - v.value.yesFairValue
                  && w.value.dynamicSpread == v.value.dynamicSpread
                  && w.value.parityError == v.value.parityError
                  && w.value.combinedImbalance == -v.value.combinedImbalance)
  {
    hide CalculateBookSignal, RawYes, CombinedImbalance, InventoryRatio;
    var yes := CalculateBookSignal(yesBook, p.depthLevels, p.depthDecay);
    var no := CalculateBookSignal(noBook, p.depthLevels, p.depthDecay);
    if yes.Success? && no.Success? && p.inventoryCap > 0.0 {
      SignalFacts(yesBook, p);
      SignalFacts(noBook, p);
      SwapSignals(yes.value, no.value);
      SwapInventory(yesValue, noValue, p.inventoryCap, p.maxInventorySkew);
    }
  }

  /** Without inventory the fair value, before the outer bounds, lies between what the YES
      book says and what the NO book says; the parity check keeps these close, and the
      inventory moves the value by at most the configured skew. */
  lemma FairValueIsFused(yesBook: BookPair, noBook: BookPair, p: Parameters, yesValue: real, noValue: real)
    returns (yes: BookSignal, no: BookSignal)
    requires CalculateBinaryFairValue(yesBook, noBook, p, yesValue, noValue).Success?
    ensures CalculateBookSignal(yesBook, p.depthLevels, p.depthDecay) == Success(yes)
    ensures CalculateBookSignal(noBook, p.depthLevels, p.depthDecay) == Success(no)
    ensures yes.weightedDepth > 0.0 && no.weightedDepth > 0.0
    ensures MinReal(yes.microprice, 1.0 - no.microprice) <= RawYes(yes, no) <= MaxReal(yes.microprice, 1.0 - no.microprice)
    ensures var v := CalculateBinaryFairValue(yesBook, noBook, p, yesValue, noValue).value;
            && 0.01 <= v.yesFairValue <= 0.99
            && v.parityError == AbsReal(yes.microprice + no.microprice - 1.0) <= p.maxParityError
            && Clamp(0.01, 0.99, RawYes(yes, no) - p.maxInventorySkew) <= v.yesFairValue
               <= Clamp(0.01, 0.99, RawYes(yes, no) + p.maxInventorySkew)
            && (yesValue == noValue ==> v.yesFairValue == Clamp(0.01, 0.99, RawYes(yes, no)))
            && p.baseSpread <= v.dynamicSpread
  {
    hide CalculateBookSignal, Fuse, RawYes;
    yes := CalculateBookSignal(yesBook, p.depthLevels, p.depthDecay).value;
    no := CalculateBookSignal(noBook, p.depthLevels, p.depthDecay).value;
    SignalFacts(yesBook, p);
    SignalFacts(noBook, p);
    RawIsBetween(yes, no);
    FuseFacts(yes, no, p, yesValue, noValue);
  }

  lemma RawIsBetween(yes: BookSignal, no: BookSignal)
    requires yes.weightedDepth > 0.0 && no.weightedDepth > 0.0
    ensures MinReal(yes.microprice, 1.0 - no.microprice) <= RawYes(yes, no) <= MaxReal(yes.microprice, 1.0 - no.microprice)
  {
    WeightedIsBetween(yes.microprice, yes.weightedDepth, 1.0 - no.microprice, no.weightedDepth);
    hide Weighted;
  }

  lemma FuseFacts(yes: BookSignal, no: BookSignal, p: Parameters, yesValue: real, noValue: real)
    requires yes.weightedDepth > 0.0 && no.weightedDepth > 0.0 && Fuse(yes, no, p, yesValue, noValue).Success?
    ensures var v := Fuse(yes, no, p, yesValue, noValue).value;
            && 0.01 <= v.yesFairValue <= 0.99
            && v.parityError == AbsReal(yes.microprice + no.microprice - 1.0) <= p.maxParityError
            && Clamp(0.01, 0.99, RawYes(yes, no) - p.maxInventorySkew) <= v.yesFairValue
               <= Clamp(0.01, 0.99, RawYes(yes, no) + p.maxInventorySkew)
            && (yesValue == noValue ==> v.yesFairValue == Clamp(0.01, 0.99, RawYes(yes, no)))
            && p.baseSpread <= v.dynamicSpread
  {
    hide RawYes, CombinedImbalance, InventoryRatio;
    SwapInventory(yesValue, noValue, p.inventoryCap, p.maxInventorySkew);
    AdjustedBounds(RawYes(yes, no), InventoryRatio(yesValue, noValue, p.inventoryCap), p.maxInventorySkew);
    SpreadGrows(p.baseSpread, AbsReal(CombinedImbalance(yes, no)));
    NoSkewWhenBalanced(yesValue, p.inventoryCap, p.maxInventorySkew);
  }

  lemma ClampIsMonotone(x: real, y: real)
    requires x <= y
    ensures Clamp(0.01, 0.99, x) <= Clamp(0.01, 0.99, y)
  {
  }

  lemma AdjustedBounds(raw: real, ratio: real, skew: real)
    requires -1.0 <= ratio <= 1.0 && skew >= 0.0
    ensures Clamp(0.01, 0.99, raw - skew) <= Clamp(0.01, 0.99, raw - ratio * skew) <= Clamp(0.01, 0.99, raw + skew)
  {
    ProductAtMost(ratio, skew);
    ClampIsMonotone(raw - skew, raw - ratio * skew);
    ClampIsMonotone(raw - ratio * skew, raw + skew);
  }

  lemma ProductAtMost(ratio: real, skew: real)
    requires -1.0 <= ratio <= 1.0 && skew >= 0.0
    ensures -skew <= ratio * skew <= skew
  {
    if skew > 0.0 {
      Distributes(1.0, ratio, skew);
      Distributes(ratio, 1.0, skew);
      SignOfProduct(1.0 - ratio, skew);
      SignOfProduct(ratio + 1.0, skew);
    }
  }

  lemma SpreadGrows(spread: real, imbalance: real)
    requires spread > 0.0 && imbalance >= 0.0
    ensures spread * (1.0 + imbalance) >= spread
  {
    SignOfProduct(imbalance, spread);
  }

  lemma NoSkewWhenBalanced(value: real, cap: real, skew: real)
    requires cap > 0.0
    ensures InventoryRatio(value, value, cap) * skew == 0.0
  {
    assert (value - value) / cap == 0.0;
  }
}
