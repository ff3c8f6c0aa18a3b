/** A tick of the quoting engine from its debounce on: whether it is dropped, what the market may
    still spend, when new risk must stop, the orders that follow, and the synchronisation that
    brings the resting orders there. */
module Requoting {
  import opened Common
  import opened Quoting
  import opened QuoteBudget

  /** The cached inventory of a market; exposures in 1e-8 shares. */
  datatype Snapshot = Snapshot(
    yesExposure: real, noExposure: real, yesCapital: real, noCapital: real, pendingYes: real, pendingNo: real)
  {
    function MyCapital(outcome: Outcome): real { if outcome.Yes? then yesCapital else noCapital }

    function OppositeCapital(outcome: Outcome): real { if outcome.Yes? then noCapital else yesCapital }

    function MyPending(outcome: Outcome): real { if outcome.Yes? then pendingYes else pendingNo }

    /** Marked inventory plus every pending BUY, at a YES value kept off the ends. */
    function StrictUsed(fairYes: real): real {
      var anchor := MaxReal(100.0, MinReal(9_900.0, fairYes));
      yesExposure * anchor + noExposure * (ONE_DOLLAR as real - anchor) + pendingYes + pendingNo
    }

    /** The same without the pending BUYs of the token that is about to be requoted. */
    function UsedByOthers(fairYes: real, outcome: Outcome): real { StrictUsed(fairYes) - MyPending(outcome) }
  }

  /** The strict use of a market: each share at its own value, a YES at the fair value kept between
      one cent and 99 cents and a NO at the rest of the dollar, plus the pending BUYs; what others
      use leaves out those of the token itself. */
  lemma StrictUsedIs(s: Snapshot, fairYes: real, outcome: Outcome) returns (value: real)
    ensures value == if fairYes < 100.0 then 100.0 else if fairYes > 9_900.0 then 9_900.0 else fairYes
    ensures s.StrictUsed(fairYes)
            == s.yesExposure * value + s.noExposure * (10_000.0 - value) + s.pendingYes + s.pendingNo
    ensures s.UsedByOthers(fairYes, outcome)
            == s.yesExposure * value + s.noExposure * (10_000.0 - value) + (if outcome.Yes? then s.pendingNo else s.pendingYes)
  {
    value := MaxReal(100.0, MinReal(9_900.0, fairYes));
  }

  /** The tick's own view of a market. */
  datatype Tick = Tick(
    snapshot: Snapshot, outcome: Outcome, fairYes: real, bid1: real, bestBid: int, bestAsk: int,
    exitMode: bool, alphaValidated: bool)

  const STRICT_TOLERANCE: real := 1_000_000.0 // 1e-6 dollars

  predicate ExtremeLong(t: Tick, cap: real) { t.snapshot.MyCapital(t.outcome) >= cap * 0.9 }

  predicate StrictBlock(t: Tick, cap: real) { t.snapshot.StrictUsed(t.fairYes) >= cap - STRICT_TOLERANCE }

  predicate CrossTokenLock(t: Tick, cap: real) { t.snapshot.OppositeCapital(t.outcome) >= cap * 0.9 * 0.5 }

  /** The five reasons to stop buying. */
  predicate Contracts(t: Tick, cap: real) {
    || !t.alphaValidated
    || StrictBlock(t, cap)
    || t.exitMode
    || ExtremeLong(t, cap)
    || CrossTokenLock(t, cap)
  }

  /** Buying stops exactly when the edge is not validated, the token is being exited, the strict use
      is within 1e-6 dollars of the cap, the token's own capital has reached nine tenths of the cap,
      or that of the other token half of nine tenths. */
  lemma ContractsIff(t: Tick, cap: real)
    ensures Contracts(t, cap)
       <==> || !t.alphaValidated || t.exitMode
            || t.snapshot.StrictUsed(t.fairYes) + 1_000_000.0 >= cap
            || 10.0 * (if t.outcome.Yes? then t.snapshot.yesCapital else t.snapshot.noCapital) >= 9.0 * cap
            || 20.0 * (if t.outcome.Yes? then t.snapshot.noCapital else t.snapshot.yesCapital) >= 9.0 * cap
  {
    hide Snapshot.StrictUsed;
  }

  /** The grid of a tick, on what the other tokens of the market leave. */
  function FrameOf(g: Grid, e: Economics, t: Tick): Frame {
    Frame(g, e, t.bid1, t.bestBid, t.bestAsk, MaxReal(0.0, g.maxExposure - t.snapshot.UsedByOthers(t.fairYes, t.outcome)))
  }

  /** One tick's payload: exits first, then the BUY grid unless new risk must stop, then the
      precheck. Its BUY orders stay within the strict market budget, the local and the global
      availability, and half the market cap; every exit is kept; a contraction leaves exits only. */
  method PlanOrders(exits: seq<Quote>, g: Grid, e: Economics, t: Tick, globalBudget: real, globalOther: real)
    returns (payload: seq<Quote>, ghost bids: seq<Quote>)
    requires g.Valid() && WellFormed(exits) && forall o :: o in exits ==> o.side.Sell?
    ensures |payload| <= |exits| + g.levels
    ensures BuyNotional(payload) <= MaxReal(0.0, g.maxExposure - t.snapshot.UsedByOthers(t.fairYes, t.outcome))
    ensures BuyNotional(payload) <= MaxReal(0.0, globalBudget - (globalOther + t.snapshot.UsedByOthers(t.fairYes, t.outcome)))
    ensures BuyNotional(payload) * 2.0 <= g.maxExposure
    ensures Of(Sell, payload) == exits
    ensures Contracts(t, g.maxExposure) ==> payload == exits
    ensures !Contracts(t, g.maxExposure) ==>
              && IsGrid(bids, FrameOf(g, e, t), g.levels)
              && Prechecked(payload, exits + bids,
                            Available(g.maxExposure, globalBudget, t.snapshot.UsedByOthers(t.fairYes, t.outcome), globalOther),
                            g.minOrderSize)
  {
    hide Notional, EdgeAllows, GoodBids, BuyNotional, Of, WellFormed, Grid.BudgetPerOrder, Snapshot.StrictUsed, IsGrid, Prechecked;
    var used := t.snapshot.StrictUsed(t.fairYes) - t.snapshot.MyPending(t.outcome);
    var extreme := t.snapshot.MyCapital(t.outcome) >= g.maxExposure * 0.9;
    var locked := t.snapshot.OppositeCapital(t.outcome) >= g.maxExposure * 0.9 * 0.5;
    var blocked := !t.alphaValidated;
    var strict := t.snapshot.StrictUsed(t.fairYes) >= g.maxExposure - STRICT_TOLERANCE;
    var quotes: seq<Quote> := [];
    NoBids(g, e, t.bestAsk);
    NothingBought();
    if !extreme && !t.exitMode && !strict && !blocked {
      if !locked {
        quotes := BuildBids(g, e, t.bid1, t.bestBid, t.bestAsk, used);
      }
    }
    bids := quotes;
    GridCostsAtMostHalf(bids, g, e, t.bestAsk);
    PayloadFacts(exits, bids, g, e, t.bestAsk);
    assert GoodBids(bids, g, e, t.bestAsk) ==> |bids| <= g.levels by { GridIsShort(bids, g, e, t.bestAsk); }
    payload := ApplyBalancePrecheck(exits + quotes, g.maxExposure, globalBudget, used, globalOther, g.minOrderSize);
    assert Contracts(t, g.maxExposure) ==> exits + quotes == exits;
    if exits + quotes == [] {
      assert payload == [];
    }
    if quotes == [] {
      AvailableIsUntouched(payload, exits + quotes, Available(g.maxExposure, globalBudget, used, globalOther), g.minOrderSize);
    }
  }

  lemma NoBids(g: Grid, e: Economics, bestAsk: int)
    requires g.Valid()
    ensures GoodBids([], g, e, bestAsk)
  {
  }

  lemma GridIsShort(bids: seq<Quote>, g: Grid, e: Economics, bestAsk: int)
    requires g.Valid()
    ensures GoodBids(bids, g, e, bestAsk) ==> |bids| <= g.levels
  {
  }

  predicate NoBuyRests(active: map<OrderRef, Resting>) {
    forall id :: id in active ==> active[id].side.Sell?
  }

  /** Planning followed by the synchronisation, forced under the same five conditions. When new
      risk must stop and every cancel is confirmed, no BUY order of the token rests any more,
      whatever rested before and whatever the exchange answers to the new orders; if a cancel is
      not confirmed, nothing is placed and trading halts. */
  method Requote(
    engine: QuotingEngine, exits: seq<Quote>, g: Grid, e: Economics, t: Tick, globalBudget: real, globalOther: real,
    fairValue: Option<real>, now: real, settings: QuoteSettings, confirmed: set<OrderRef>, replies: seq<Option<OrderRef>>
  ) returns (payload: seq<Quote>, toCancel: set<OrderRef>)
    requires g.Valid() && WellFormed(exits) && forall o :: o in exits ==> o.side.Sell?
    requires |exits| + g.levels <= |replies|
    requires forall i :: 0 <= i < |replies| && replies[i].Some? ==> replies[i].value !in engine.activeOrders
    requires forall i, j :: 0 <= i < j < |replies| && replies[i].Some? ==> replies[i] != replies[j]
    modifies engine
    ensures engine.anchor == old(engine.anchor)
    ensures Contracts(t, g.maxExposure) && toCancel <= confirmed ==>
              NoBuyRests(engine.activeOrders) && engine.pendingBuyNotional == 0.0
    ensures !Contracts(t, g.maxExposure) && toCancel <= confirmed && (forall i :: 0 <= i < |replies| ==> replies[i].Some?) ==>
              forall s: Signature :: s.side.Buy? ==> |Carriers(engine.activeOrders, s)| == Desired(payload, s)
    ensures !(toCancel <= confirmed) ==> engine.halted && engine.activeOrders.Keys <= old(engine.activeOrders).Keys
  {
    hide Carriers, Desired, Sum, StrictBlock, ExtremeLong, CrossTokenLock;
    ghost var bids;
    payload, bids := PlanOrders(exits, g, e, t, globalBudget, globalOther);
    var force := Contracts(t, g.maxExposure);
    toCancel := engine.SyncOrdersDiff(payload, fairValue, now, settings, force, confirmed, replies);
    if force && toCancel <= confirmed {
      assert forall i :: 0 <= i < |payload| ==> payload[i] in exits;
      SumOfZeros(PendingTable(engine.activeOrders));
    }
  }

  /** The tick. It is requoted exactly when it is not dropped; a dropped tick touches nothing, so
      under a contraction condition old BUY orders are gone afterwards if and only if the tick
      was requoted or none rested before. In exit mode no tick is dropped. */
  method OnTick(
    engine: QuotingEngine, exits: seq<Quote>, g: Grid, e: Economics, t: Tick, globalBudget: real, globalOther: real,
    fairValue: real, now: real, settings: QuoteSettings, confirmed: set<OrderRef>, replies: seq<Option<OrderRef>>
  ) returns (requoted: bool, payload: seq<Quote>, toCancel: set<OrderRef>)
    requires g.Valid() && WellFormed(exits) && forall o :: o in exits ==> o.side.Sell?
    requires |exits| + g.levels <= |replies|
    requires forall i :: 0 <= i < |replies| && replies[i].Some? ==> replies[i].value !in engine.activeOrders
    requires forall i, j :: 0 <= i < j < |replies| && replies[i].Some? ==> replies[i] != replies[j]
    modifies engine
    // a tick is dropped, outside exit mode, while orders rest and the fair value is close to that of
    // the last tick that was not
    ensures !requoted <==>
              && !t.exitMode && old(engine.anchor).Some? && old(engine.activeOrders) != map[]
              && -settings.priceOffset <= fairValue - old(engine.anchor).value <= settings.priceOffset
    ensures t.exitMode ==> requoted
    ensures !requoted ==> unchanged(engine) && payload == [] && toCancel == {}
    ensures requoted ==> engine.anchor == Some(fairValue)
    ensures Contracts(t, g.maxExposure) && toCancel <= confirmed ==>
              (NoBuyRests(engine.activeOrders) <==> requoted || NoBuyRests(old(engine.activeOrders)))
    ensures requoted && !Contracts(t, g.maxExposure) && toCancel <= confirmed
            && (forall i :: 0 <= i < |replies| ==> replies[i].Some?) ==>
              forall s: Signature :: s.side.Buy? ==> |Carriers(engine.activeOrders, s)| == Desired(payload, s)
    ensures !(toCancel <= confirmed) ==> engine.halted && engine.activeOrders.Keys <= old(engine.activeOrders).Keys
  {
    hide Carriers, Desired, StrictBlock, ExtremeLong, CrossTokenLock;
    if !t.exitMode && engine.anchor.Some? {
      if AbsReal(fairValue - engine.anchor.value) <= settings.priceOffset {
        if engine.activeOrders.Keys != {} {
          return false, [], {};
        }
      }
    }
    engine.anchor := Some(fairValue);
    payload, toCancel :=
      Requote(engine, exits, g, e, t, globalBudget, globalOther, Some(fairValue), now, settings, confirmed, replies);
    requoted := true;
  }
}
