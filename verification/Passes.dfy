/** Reconciliation passes and position overwrites keep rows and exchange in agreement,
    whatever happened between loading the facts and applying the report. */
module Passes {
  import opened Common
  import opened Accounting
  import opened Rows
  import opened Transactions
  import opened Reconciliation
  import opened Applying
  import opened World
  import opened Safety

  lemma SetPass(w: World, pass: Pass)
    requires Consistent(w) && GoodPass(w.(pass := pass))
    ensures Consistent(w.(pass := pass))
  {
    hide GoodReservation, GoodPass, GoodInventory;
    var w' := w.(pass := pass);
    forall id | id in w.db.orders ensures GoodOrder(w', id) {
      assert GoodOrder(w, id);
    }
    forall id | id in w.remote ensures GoodRemote(w', id) {
      assert GoodRemote(w, id);
    }
    forall e | e in w.trades ensures GoodTrade(w', e) {
      assert GoodTrade(w, e);
    }
    forall e | e in w.db.events ensures GoodEvent(w', e) {
      assert GoodEvent(w, e);
    }
  }

  lemma SetPassKeepsInv(w: World, pass: Pass)
    requires Inv(w) && GoodPass(w.(pass := pass))
    ensures Inv(w.(pass := pass)) && RiskFrame(w, w.(pass := pass))
  {
    SetPass(w, pass);
    PositiveLimits(w);
    KeysAgree(w);
    hide Consistent, GoodPass, Sum;
    var w' := w.(pass := pass);
    assert Complete(w') by {
      forall id | id in w.remote ensures Accounted(w', id) && Covered(w', id) {
        assert Accounted(w, id) && Covered(w, id);
      }
    }
    forall id | id in w.db.reservations ensures RowRiskFrame(w, w', id) {
    }
  }

  lemma BeginIsGood(w: World)
    requires Consistent(w)
    ensures GoodPass(w.(pass := Pass(LoadFacts(w.db), map[])))
  {
  }

  lemma FetchIsGood(w: World, id: OrderId, group: StatusGroup)
    requires Consistent(w) && Enabled(w, Fetch(id, group))
    ensures var fact := FetchedFact(w, id, group);
            GoodPass(w.(pass := w.pass.(facts := w.pass.facts[fact.exchangeId := fact])))
  {
    var fact := FetchedFact(w, id, group);
    var w' := w.(pass := w.pass.(facts := w.pass.facts[fact.exchangeId := fact]));
    assert GoodRemote(w, id);
    assert DistinctExchangeIds(w.remote);
    hide GoodReservations, GoodOrders, GoodRemotes, GoodTrades, GoodEvents, GoodInventory;
    forall l | l in w'.pass.locals ensures GoodLocal(w', l) {
      assert GoodLocal(w, l);
    }
    forall other | IsFetched(w', other) ensures GoodFact(w', other) {
      if w'.remote[other].exchangeId == fact.exchangeId {
        assert other == id;
      } else {
        assert IsFetched(w, other) && GoodFact(w, other);
      }
    }
  }

  // ----- Applying the report ------------------------------------------------

  /** A verdict that is not a blocker rests on a fact about this very order that was
      true when it was fetched. */
  lemma VerdictRestsOnFact(w: World, id: OrderId, unsettled: map<ExchangeId, int>)
    requires Consistent(w) && id in w.pass.locals
    requires !Verdicts(w.pass, unsettled)[id].Blocker()
    ensures IsFetched(w, id) && GoodFact(w, id) && GoodLocal(w, id)
    ensures GoodOrder(w, id) && GoodReservation(w.db, w.db.reservations[id])
    ensures var fact := w.pass.facts[w.remote[id].exchangeId];
            exists u :: Verdicts(w.pass, unsettled)[id] == Classify(w.pass.locals[id], Some(fact), u)
  {
    assert GoodLocal(w, id);
    assert GoodOrder(w, id);
    var local := w.pass.locals[id];
    var e := Evidence(map[], w.pass.facts, unsettled);
    assert e.FactFor(local).Some?;
    assert IsFetched(w, id);
    assert Verdicts(w.pass, unsettled)[id] == Classify(local, Some(w.pass.facts[w.remote[id].exchangeId]), e.UnsettledFor(local));
  }

  /** Applying a verdict keeps enough reserved for all the order may still be matched
      for, even if fills were booked after the facts were loaded. */
  lemma AppliedRowIsCovered(w: World, id: OrderId, unsettled: map<ExchangeId, int>)
    requires Consistent(w) && Complete(w) && id in w.pass.locals && id in w.db.reservations
    ensures var r' := ApplyToReservation(w.db.reservations[id], Verdicts(w.pass, unsettled)[id]);
            && SameTerms(w.db.reservations[id], r') && GoodReservation(w.db, r')
            && Unaccounted(w, id) <= r'.remaining + SIZE_TOLERANCE
  {
    var r := w.db.reservations[id];
    var verdict := Verdicts(w.pass, unsettled)[id];
    assert GoodReservation(w.db, r) && GoodLocal(w, id) && GoodOrder(w, id) && Covered(w, id) && GoodRemote(w, id);
    if !verdict.Blocker() {
      VerdictRestsOnFact(w, id, unsettled);
      hide Consistent, Complete, Verdicts, Notional, GoodOrder;
      var fact, local := w.pass.facts[w.remote[id].exchangeId], w.pass.locals[id];
      var u :| verdict == Classify(local, Some(fact), u);
      FactBoundsUnaccounted(w, id, u);
    }
  }

  lemma FactBoundsUnaccounted(w: World, id: OrderId, u: int)
    requires IsFetched(w, id) && GoodFact(w, id) && id in w.pass.locals && GoodLocal(w, id)
    requires GoodRemote(w, id) && GoodReservation(w.db, w.db.reservations[id])
    requires w.db.orders[id].size == w.db.reservations[id].original
    requires !Classify(w.pass.locals[id], Some(w.pass.facts[w.remote[id].exchangeId]), u).Blocker()
    ensures var verdict := Classify(w.pass.locals[id], Some(w.pass.facts[w.remote[id].exchangeId]), u);
            var r' := ApplyToReservation(w.db.reservations[id], verdict);
            && SameTerms(w.db.reservations[id], r') && GoodReservation(w.db, r')
            && Unaccounted(w, id) <= r'.remaining + SIZE_TOLERANCE
  {
    NotionalOfNothing(w.db.reservations[id].limit);
    hide Notional;
  }

  ghost function Applied(w: World, unsettled: map<ExchangeId, int>): World {
    w.(db := ApplyReport(w.db, Verdicts(w.pass, unsettled)))
  }

  lemma AppliedReservation(w: World, unsettled: map<ExchangeId, int>, id: OrderId)
    requires Consistent(w) && Complete(w) && id in w.db.reservations
    ensures var r' := Applied(w, unsettled).db.reservations[id];
            && SameTerms(w.db.reservations[id], r') && GoodReservation(w.db, r')
            && Unaccounted(w, id) <= r'.remaining + SIZE_TOLERANCE
  {
    assert GoodReservation(w.db, w.db.reservations[id]) && Covered(w, id);
    hide Consistent, Complete, Verdicts, ActiveReserved, ApplyToReservation, ApplyToOrder;
    if id in w.pass.locals {
      AppliedRowIsCovered(w, id, unsettled);
    }
    assert Verdicts(w.pass, unsettled).Keys == w.pass.locals.Keys by {
      VerdictKeys(w.pass, unsettled);
    }
  }

  lemma VerdictKeys(pass: Pass, unsettled: map<ExchangeId, int>)
    ensures Verdicts(pass, unsettled).Keys == pass.locals.Keys
  {
  }

  lemma AppliedReservations(w: World, unsettled: map<ExchangeId, int>)
    requires Consistent(w) && Complete(w)
    ensures ReservationsEvolve(w, Applied(w, unsettled)) && GoodReservations(Applied(w, unsettled))
    ensures Applied(w, unsettled).db.reservations.Keys == w.db.reservations.Keys
  {
    hide Verdicts, ApplyToReservation, ApplyToOrder, ActiveReserved;
    var w' := Applied(w, unsettled);
    KeysAgree(w);
    assert w'.db.reservations.Keys == w.db.reservations.Keys;
    forall id | id in w'.db.reservations
      ensures SameTerms(w.db.reservations[id], w'.db.reservations[id]) && GoodReservation(w'.db, w'.db.reservations[id])
    {
      AppliedReservation(w, unsettled, id);
      SameMarketsSameGood(w.db, w'.db, w'.db.reservations[id]);
    }
    hide GoodReservation, SameTerms, Consistent, Complete;
  }

  lemma AppliedOrders(w: World, unsettled: map<ExchangeId, int>)
    ensures OrdersEvolve(w, Applied(w, unsettled)) && NewMappingsAreTrue(w, Applied(w, unsettled))
    ensures Applied(w, unsettled).db.orders.Keys == w.db.orders.Keys
    ensures forall id :: FilledSize(Applied(w, unsettled).db, id) == FilledSize(w.db, id)
  {
    hide Verdicts, ApplyToReservation, ActiveReserved;
    var w' := Applied(w, unsettled);
    assert w'.db.orders.Keys == w.db.orders.Keys;
  }

  lemma ApplyKeepsConsistent(w: World, unsettled: map<ExchangeId, int>)
    requires Consistent(w) && Complete(w)
    ensures Consistent(Applied(w, unsettled))
    ensures ReservationsEvolve(w, Applied(w, unsettled))
    ensures forall id :: FilledSize(Applied(w, unsettled).db, id) == FilledSize(w.db, id)
  {
    var w' := Applied(w, unsettled);
    KeysAgree(w);
    AppliedReservations(w, unsettled);
    AppliedOrders(w, unsettled);
    assert RemotesEvolve(w, w') && TradesEvolve(w, w') && FetchedWereAccepted(w, w');
    hide GoodReservation, GoodOrder, GoodRemote, GoodTrade, GoodOrders, GoodTrades, GoodPass, Verdicts, ApplyReport,
      ReservationsEvolve, OrdersEvolve, NewMappingsAreTrue, RemotesEvolve, TradesEvolve, FetchedWereAccepted;
    KeepRemotes(w, w');
    assert GoodInventory(w'.db) by {
      assert w'.db.inventory == w.db.inventory && w'.db.markets == w.db.markets by { AppliedFrame(w, unsettled); }
    }
    KeepConsistent(w, w');
  }

  lemma AppliedFrame(w: World, unsettled: map<ExchangeId, int>)
    ensures var w' := Applied(w, unsettled);
            && w'.remote == w.remote && w'.trades == w.trades && w'.pass == w.pass
            && w'.db.inventory == w.db.inventory && w'.db.markets == w.db.markets
            && w'.db.events == w.db.events && w'.db.cash == w.db.cash
  {
  }

  lemma SameMarketsSameGood(db: Db, db': Db, r: Reservation)
    requires db'.markets == db.markets && GoodReservation(db, r)
    ensures GoodReservation(db', r)
  {
  }

  lemma ApplyKeepsComplete(w: World, unsettled: map<ExchangeId, int>)
    requires Consistent(w) && Complete(w)
    ensures Complete(Applied(w, unsettled))
  {
    var w' := Applied(w, unsettled);
    ApplyKeepsConsistent(w, unsettled);
    KeysAgree(w);
    KeysAgree(w');
    forall id | id in w.remote ensures Accounted(w', id) && Covered(w', id) {
      assert Accounted(w, id);
      AppliedReservation(w, unsettled, id);
      hide Consistent, Complete, Verdicts, GoodReservation, ApplyToReservation, ApplyToOrder;
      SamePending(w.db, w'.db, w.trades, id);
    }
  }

  lemma ApplyKeepsInv(w: World, unsettled: map<ExchangeId, int>)
    requires Inv(w)
    ensures Inv(Applied(w, unsettled).(pass := IDLE)) && RiskFrame(w, Applied(w, unsettled).(pass := IDLE))
  {
    hide Consistent, Complete, Verdicts, GoodPass;
    var w1 := Applied(w, unsettled);
    ApplyKeepsConsistent(w, unsettled);
    ApplyKeepsComplete(w, unsettled);
    assert Inv(w1);
    assert GoodPass(w1.(pass := IDLE)) by { IdleIsGood(w1); }
    SetPassKeepsInv(w1, IDLE);
    KeysAgree(w);
    KeysAgree(w1);
    PositiveLimits(w);
    hide Inv, ApplyReport;
    forall id | id in w.db.reservations ensures RowRiskFrame(w, w1.(pass := IDLE), id) {
    }
  }

  lemma IdleIsGood(w: World)
    ensures GoodPass(w.(pass := IDLE))
  {
  }

  // ----- Overwriting a position ---------------------------------------------

  lemma OverwriteKeepsInv(w: World, market: MarketId, actual: Position)
    requires Inv(w) && actual.yes >= 0 && actual.no >= 0
    ensures Inv(w.(db := Overwrite(w.db, market, actual)))
  {
    var w' := w.(db := Overwrite(w.db, market, actual));
    assert GoodInventory(w'.db) by {
      if market in w.db.inventory {
        var b := w.db.inventory[market].book;
        CapitalIsNotNegative(actual.yes, actual.yesCost, b.yesExposure, b.yesCapital);
        CapitalIsNotNegative(actual.no, actual.noCost, b.noExposure, b.noCapital);
        hide ReconcileCapital;
      }
    }
    OverwriteKeepsConsistent(w, market, actual);
    hide Consistent, Sum, Overwrite;
    OverwriteKeepsComplete(w, market, actual);
    assert w'.db.cash == w.db.cash && w'.db.reservations == w.db.reservations && w'.db.reservedTotal == w.db.reservedTotal by {
      OverwriteFrame(w.db, market, actual);
    }
  }

  lemma OverwriteFrame(db: Db, market: MarketId, actual: Position)
    ensures Overwrite(db, market, actual) == db.(inventory := Overwrite(db, market, actual).inventory)
  {
  }

  lemma OverwriteKeepsConsistent(w: World, market: MarketId, actual: Position)
    requires Consistent(w) && GoodInventory(Overwrite(w.db, market, actual))
    ensures Consistent(w.(db := Overwrite(w.db, market, actual)))
  {
    hide GoodReservation, GoodOrder, GoodRemote, GoodTrade, GoodOrders, GoodTrades, GoodPass, GoodInventory, Overwrite;
    var w' := w.(db := Overwrite(w.db, market, actual));
    OverwriteFrame(w.db, market, actual);
    SameReservationsStayGood(w, w');
    assert RemotesEvolve(w, w') && ReservationsEvolve(w, w') && OrdersEvolve(w, w');
    KeepRemotes(w, w');
    KeepConsistent(w, w');
  }

  lemma OverwriteKeepsComplete(w: World, market: MarketId, actual: Position)
    requires Complete(w)
    ensures Complete(w.(db := Overwrite(w.db, market, actual)))
  {
    hide Overwrite, Sum;
    var w' := w.(db := Overwrite(w.db, market, actual));
    OverwriteFrame(w.db, market, actual);
    forall id | id in w.remote ensures Accounted(w', id) && Covered(w', id) {
      assert Accounted(w, id) && Covered(w, id);
      SamePending(w.db, w'.db, w.trades, id);
    }
  }

  lemma CapitalIsNotNegative(actual: int, cost: real, previous: int, capital: real)
    requires actual >= 0
    ensures ReconcileCapital(actual, cost, previous, capital) >= 0.0
    ensures actual == 0 ==> ReconcileCapital(actual, cost, previous, capital) == 0.0
  {
    if actual > DUST {
      if previous > 0 && actual <= previous {
        ShareIsNotNegative(MaxReal(0.0, capital), actual, previous);
      } else if previous > 0 {
        NotionalMonotone(ONE_DOLLAR, ONE_DOLLAR, 0, actual - previous);
      }
      NotionalMonotone(ONE_DOLLAR, ONE_DOLLAR, 0, actual);
    }
  }

  lemma ShareIsNotNegative(capital: real, part: int, whole: int)
    requires capital >= 0.0 && part >= 0 && whole > 0
    ensures capital * (part as real / whole as real) >= 0.0
  {
    var f := part as real / whole as real;
    assert f >= 0.0;
  }
}
