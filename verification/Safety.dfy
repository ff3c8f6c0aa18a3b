/** Every step keeps the rows, the exchange and the reservations in agreement, and
    money at risk inside the budget, over whole runs. */
module Safety {
  import opened Common
  import opened Accounting
  import opened Fees
  import opened Rows
  import opened Transactions
  import opened Reconciliation
  import opened Applying
  import opened World

  // ----- How rows may evolve ------------------------------------------------

  predicate SameTerms(r: Reservation, r': Reservation) {
    && r'.market == r.market && r'.token == r.token && r'.side == r.side
    && r'.limit == r.limit && r'.original == r.original
  }

  predicate OrderEvolves(o: Order, o': Order) {
    && o' == o.(status := o'.status, filled := o'.filled, exchangeId := o'.exchangeId)
    && o.filled <= o'.filled
    && (o.exchangeId.Some? ==> o'.exchangeId == o.exchangeId)
  }

  predicate RemoteEvolves(r: Remote, r': Remote) {
    r.Accepted? ==>
      && r'.Accepted? && r'.exchangeId == r.exchangeId
      && r.matched <= r'.matched && r'.matched + r'.open <= r.matched + r.open
      && (r.open == 0 ==> r' == r)
  }

  ghost predicate ReservationsEvolve(w: World, w': World) {
    && w'.db.markets == w.db.markets
    && forall id :: id in w.db.reservations ==>
         id in w'.db.reservations && SameTerms(w.db.reservations[id], w'.db.reservations[id])
  }

  ghost predicate OrdersEvolve(w: World, w': World) {
    forall id :: id in w.db.orders ==> id in w'.db.orders && OrderEvolves(w.db.orders[id], w'.db.orders[id])
  }

  ghost predicate RemotesEvolve(w: World, w': World) {
    forall id :: id in w.remote ==> id in w'.remote && RemoteEvolves(w.remote[id], w'.remote[id])
  }

  /** An order newly mapped to an exchange id carries the id the exchange gave it. */
  ghost predicate NewMappingsAreTrue(w: World, w': World) {
    forall id :: id in w.db.orders && id in w'.db.orders && w.db.orders[id].exchangeId.None?
                 && w'.db.orders[id].exchangeId.Some?
      ==> id in w'.remote && w'.remote[id].Accepted? && w'.remote[id].exchangeId == w'.db.orders[id].exchangeId.value
  }

  lemma KeepOrders(w: World, w': World)
    requires GoodOrders(w) && ReservationsEvolve(w, w') && OrdersEvolve(w, w') && RemotesEvolve(w, w')
    requires NewMappingsAreTrue(w, w')
    requires forall id :: id in w'.db.orders && id !in w.db.orders ==> GoodOrder(w', id)
    ensures GoodOrders(w')
  {
    forall id | id in w'.db.orders ensures GoodOrder(w', id) {
      if id in w.db.orders {
        assert GoodOrder(w, id);
        assert OrderEvolves(w.db.orders[id], w'.db.orders[id]);
        assert RemoteEvolves(w.remote[id], w'.remote[id]);
        assert SameTerms(w.db.reservations[id], w'.db.reservations[id]);
      }
    }
  }

  lemma KeepTrades(w: World, w': World)
    requires GoodTrades(w) && ReservationsEvolve(w, w') && RemotesEvolve(w, w')
    requires forall e :: e in w.trades ==> e in w'.trades && w'.trades[e] == w.trades[e]
    requires forall e :: e in w'.trades && e !in w.trades ==> GoodTrade(w', e)
    ensures GoodTrades(w')
  {
    forall e | e in w'.trades ensures GoodTrade(w', e) {
      if e in w.trades {
        assert GoodTrade(w, e);
        assert RemoteEvolves(w.remote[w.trades[e].order], w'.remote[w.trades[e].order]);
        assert SameTerms(w.db.reservations[w.trades[e].order], w'.db.reservations[w.trades[e].order]);
      }
    }
  }

  lemma KeepPass(w: World, w': World)
    requires GoodPass(w) && ReservationsEvolve(w, w') && OrdersEvolve(w, w') && RemotesEvolve(w, w')
    requires w'.pass == w.pass && w.remote.Keys <= w.db.reservations.Keys
    requires forall id :: IsFetched(w', id) ==> id in w.remote && w.remote[id].Accepted?
    ensures GoodPass(w')
  {
    forall id | id in w.pass.locals ensures GoodLocal(w', id) {
      assert GoodLocal(w, id);
      assert OrderEvolves(w.db.orders[id], w'.db.orders[id]);
    }
    forall id | IsFetched(w', id) ensures GoodFact(w', id) {
      assert RemoteEvolves(w.remote[id], w'.remote[id]);
      assert SameTerms(w.db.reservations[id], w'.db.reservations[id]);
      assert IsFetched(w, id);
      assert GoodFact(w, id);
    }
  }

  lemma KeepRemotes(w: World, w': World)
    requires GoodRemotes(w) && w'.remote == w.remote && w'.remote.Keys == w'.db.reservations.Keys
    requires ReservationsEvolve(w, w') && w.db.orders.Keys <= w'.db.orders.Keys
    ensures GoodRemotes(w')
  {
    forall id | id in w.remote ensures GoodRemote(w', id) {
      assert GoodRemote(w, id);
      assert SameTerms(w.db.reservations[id], w'.db.reservations[id]);
    }
  }

  lemma KeepEvents(w: World, w': World)
    requires GoodEvents(w)
    requires forall e :: e in w.trades ==> e in w'.trades && w'.trades[e] == w.trades[e]
    requires forall e :: e in w'.db.events ==> (e in w.db.events && w'.db.events[e].execution == w.db.events[e].execution)
                                               || GoodEvent(w', e)
    ensures GoodEvents(w')
  {
    forall e | e in w'.db.events ensures GoodEvent(w', e) {
      if e in w.db.events && w'.db.events[e].execution == w.db.events[e].execution {
        assert GoodEvent(w, e);
      }
    }
  }

  ghost predicate Evolves(w: World, w': World) {
    ReservationsEvolve(w, w') && OrdersEvolve(w, w') && RemotesEvolve(w, w') && NewMappingsAreTrue(w, w')
  }

  /** Trades stay, and new trades and inbox rows are true. */
  ghost predicate TradesEvolve(w: World, w': World) {
    && (forall e :: e in w.trades ==> e in w'.trades && w'.trades[e] == w.trades[e])
    && (forall e :: e in w'.trades && e !in w.trades ==> GoodTrade(w', e))
    && (forall e :: e in w'.db.events ==> (e in w.db.events && w'.db.events[e].execution == w.db.events[e].execution)
                                          || GoodEvent(w', e))
  }

  /** No order became newly accepted under an exchange id a running pass already saw. */
  ghost predicate FetchedWereAccepted(w: World, w': World) {
    forall id :: IsFetched(w', id) ==> id in w.remote && w.remote[id].Accepted?
  }

  lemma KeepConsistent(w: World, w': World)
    requires Consistent(w) && Evolves(w, w') && TradesEvolve(w, w')
    requires GoodReservations(w') && GoodInventory(w'.db) && GoodRemotes(w')
    requires forall id :: id in w'.db.orders && id !in w.db.orders ==> GoodOrder(w', id)
    requires w'.pass == w.pass && FetchedWereAccepted(w, w')
    ensures Consistent(w')
  {
    hide GoodReservation, GoodOrder, GoodRemote, RemoteEvolves, GoodTrade, GoodEvent, GoodInventory;
    KeepOrders(w, w');
    KeepTrades(w, w');
    KeepEvents(w, w');
    KeepPass(w, w');
  }

  // ----- Money at risk that has not grown -----------------------------------

  /** Nothing that money at risk is computed from has grown. */
  ghost predicate RiskFrame(w: World, w': World) {
    && w.remote.Keys == w.db.reservations.Keys == w'.remote.Keys == w'.db.reservations.Keys
    && w'.db.markets == w.db.markets && w'.db.inventory == w.db.inventory && w'.db.cash == w.db.cash
    && forall id :: id in w.db.reservations ==> RowRiskFrame(w, w', id)
  }

  lemma FramesCompose(a: World, b: World, c: World)
    requires RiskFrame(a, b) && RiskFrame(b, c)
    ensures RiskFrame(a, c)
  {
    forall id | id in a.db.reservations ensures RowRiskFrame(a, c, id) {
      assert RowRiskFrame(a, b, id) && RowRiskFrame(b, c, id);
    }
  }

  lemma FrameOfNothing(w: World)
    requires Inv(w)
    ensures RiskFrame(w, w)
  {
    PositiveLimits(w);
    KeysAgree(w);
    hide Inv;
  }

  ghost predicate RowRiskFrame(w: World, w': World, id: OrderId)
    requires id in w.db.reservations && id in w'.db.reservations && id in w.remote && id in w'.remote
  {
    && SameTerms(w.db.reservations[id], w'.db.reservations[id])
    && 0 < w.db.reservations[id].limit
    && Unaccounted(w', id) <= Unaccounted(w, id)
  }

  lemma RiskFrameKeepsBudget(w: World, w': World, settings: Settings, scope: Scope)
    requires RiskFrame(w, w') && WithinBudget(w, settings, scope)
    ensures WithinBudget(w', settings, scope)
  {
    hide Sum, Notional;
    assert SlackTable(w'.db.reservations, scope) == SlackTable(w.db.reservations, scope) by {
      forall id | id in w.db.reservations
        ensures SlackTable(w'.db.reservations, scope)[id] == SlackTable(w.db.reservations, scope)[id] {
        assert RowRiskFrame(w, w', id);
      }
    }
    forall id | id in w.db.reservations ensures ExposureTable(w', scope)[id] <= ExposureTable(w, scope)[id] {
      assert RowRiskFrame(w, w', id);
      NotionalGrows(w.db.reservations[id].limit, Unaccounted(w', id), Unaccounted(w, id));
    }
    SumMonotone(ExposureTable(w', scope), ExposureTable(w, scope));
  }

  lemma NotionalGrows(price: int, a: int, b: int)
    requires price >= 0 && a <= b
    ensures Notional(price, a) <= Notional(price, b)
  {
    assert price * a <= price * b;
  }

  lemma UnchangedRisk(w: World, w': World)
    requires GoodReservations(w) && ReservationsEvolve(w, w') && w'.remote == w.remote
    requires w'.db.reservations.Keys == w.db.reservations.Keys
    requires w'.db.inventory == w.db.inventory && w'.db.cash == w.db.cash
    requires forall id :: id in w.remote ==> FilledSize(w'.db, id) >= FilledSize(w.db, id)
    ensures RiskFrame(w, w')
  {
    forall id | id in w.db.reservations ensures RowRiskFrame(w, w', id) {
      assert GoodReservation(w.db, w.db.reservations[id]);
    }
  }

  // ----- Rows that differ in nothing but statuses and exchange ids ----------

  ghost predicate SameRisk(w: World, db: Db) {
    && db.markets == w.db.markets && db.events == w.db.events && db.cash == w.db.cash
    && db.inventory == w.db.inventory && db.reservedTotal == w.db.reservedTotal
    && db.orders.Keys == w.db.orders.Keys && db.reservations.Keys == w.db.reservations.Keys
    && (forall id :: id in w.db.reservations ==> SameReservation(w.db.reservations[id], db.reservations[id]))
    && (forall id :: id in w.db.orders ==> SameOrder(w, id, db.orders[id]))
  }

  predicate SameReservation(r: Reservation, r': Reservation) {
    r' == r.(status := r'.status, exchangeId := r'.exchangeId) && r'.Active() == r.Active()
  }

  predicate SameOrder(w: World, id: OrderId, o': Order)
    requires id in w.db.orders
  {
    var o := w.db.orders[id];
    && OrderEvolves(o, o') && o'.filled == o.filled
    && (o'.exchangeId.Some? ==> id in w.remote && w.remote[id].Accepted? && w.remote[id].exchangeId == o'.exchangeId.value)
  }

  lemma SameRiskKeepsConsistent(w: World, db: Db)
    requires Consistent(w) && SameRisk(w, db)
    ensures Consistent(w.(db := db))
    ensures ReservationsEvolve(w, w.(db := db)) && OrdersEvolve(w, w.(db := db))
  {
    hide GoodPass, GoodTrade, GoodEvent, Notional, GoodReservation, GoodOrder, SameReservation, SameOrder, GoodRemote;
    var w' := w.(db := db);
    forall id | id in db.reservations
      ensures SameTerms(w.db.reservations[id], db.reservations[id]) && GoodReservation(db, db.reservations[id])
    {
      SameReservationStaysGood(w, db, id);
    }
    forall id | id in db.orders
      ensures OrderEvolves(w.db.orders[id], db.orders[id])
      ensures db.orders[id].exchangeId.Some? ==>
                id in w.remote && w.remote[id].Accepted? && w.remote[id].exchangeId == db.orders[id].exchangeId.value
    {
      SameOrderEvolves(w, db, id);
    }
    assert ReservationsEvolve(w, w') && GoodReservations(w') && OrdersEvolve(w, w') && NewMappingsAreTrue(w, w');
    assert RemotesEvolve(w, w');
    KeepOrders(w, w');
    KeepRemotes(w, w');
    KeepTrades(w, w');
    KeepEvents(w, w');
    KeepPass(w, w');
  }

  lemma SameReservationStaysGood(w: World, db: Db, id: OrderId)
    requires GoodReservations(w) && SameRisk(w, db) && id in db.reservations
    ensures id in w.db.reservations
    ensures SameTerms(w.db.reservations[id], db.reservations[id]) && GoodReservation(db, db.reservations[id])
  {
    hide Notional;
    assert GoodReservation(w.db, w.db.reservations[id]);
    assert SameReservation(w.db.reservations[id], db.reservations[id]);
  }

  lemma SameOrderEvolves(w: World, db: Db, id: OrderId)
    requires SameRisk(w, db) && id in db.orders
    ensures id in w.db.orders && OrderEvolves(w.db.orders[id], db.orders[id])
    ensures db.orders[id].exchangeId.Some? ==>
              id in w.remote && w.remote[id].Accepted? && w.remote[id].exchangeId == db.orders[id].exchangeId.value
  {
    assert SameOrder(w, id, db.orders[id]);
  }

  lemma SameRiskKeepsInv(w: World, db: Db)
    requires Inv(w) && SameRisk(w, db)
    ensures Inv(w.(db := db)) && RiskFrame(w, w.(db := db))
  {
    hide GoodOrders, GoodRemotes, GoodTrades, GoodEvents, GoodPass, GoodInventory, Sum, Notional;
    var w' := w.(db := db);
    SameRiskKeepsConsistent(w, db);
    assert forall id :: id in w.db.orders ==> SameOrder(w, id, db.orders[id]);
    UnchangedRisk(w, w');
    SameRiskKeepsComplete(w, db);
    assert ReservedTable(db.reservations, None) == ReservedTable(w.db.reservations, None) by {
      forall id | id in w.db.reservations ensures SameReservation(w.db.reservations[id], db.reservations[id]) {
      }
    }
    hide Consistent, Complete, RiskFrame, SameRisk;
  }

  lemma SameRiskKeepsComplete(w: World, db: Db)
    requires Complete(w) && SameRisk(w, db)
    ensures Complete(w.(db := db))
  {
    var w' := w.(db := db);
    forall id | id in w.remote ensures Accounted(w', id) && Covered(w', id) {
      assert Accounted(w, id) && Covered(w, id);
      assert SameReservation(w.db.reservations[id], db.reservations[id]);
      assert FilledSize(db, id) == FilledSize(w.db, id) by {
        assert id in w.db.orders ==> SameOrder(w, id, db.orders[id]);
      }
      hide SameRisk, Complete, OrderEvolves, SameOrder;
      SamePending(w.db, db, w.trades, id);
    }
  }

  lemma SamePending(db: Db, db': Db, trades: map<EventId, Trade>, id: OrderId)
    requires forall e :: e in trades ==> IsBooked(db', e) == IsBooked(db, e)
    ensures PendingShares(db', trades, id) == PendingShares(db, trades, id)
  {
    assert PendingTable(db', trades, id) == PendingTable(db, trades, id);
  }

  // ----- Steps that change only statuses and exchange ids -------------------

  lemma SameOrders(w: World)
    requires GoodOrders(w)
    ensures forall id :: id in w.db.orders ==> SameOrder(w, id, w.db.orders[id])
  {
    forall id | id in w.db.orders ensures SameOrder(w, id, w.db.orders[id]) {
      assert GoodOrder(w, id);
    }
  }

  lemma PersistIsSameRisk(w: World, id: OrderId, mapped: Option<ExchangeId>, outcome: OrderStatus)
    requires GoodOrders(w) && Enabled(w, Persist(id, mapped, outcome))
    ensures SameRisk(w, PersistSubmit(w.db, id, mapped, outcome))
  {
    SameOrders(w);
    assert GoodOrder(w, id);
  }

  lemma MarkIsSameRisk(w: World, id: OrderId, hold: ReservationStatus)
    requires GoodOrders(w) && hold in {Unresolved, CancelPending}
    ensures SameRisk(w, MarkActive(w.db, id, hold))
  {
    SameOrders(w);
  }

  lemma MarkOpenIsSameRisk(w: World, id: OrderId, x: ExchangeId)
    requires GoodOrders(w)
    ensures SameRisk(w, MarkOpen(w.db, id, x))
  {
    SameOrders(w);
  }

  lemma CancelIsSameRisk(w: World, id: OrderId, outcome: OrderStatus)
    requires GoodOrders(w)
    ensures SameRisk(w, CancelResponse(w.db, id, outcome))
  {
    SameOrders(w);
  }

  lemma CancelEventIsSameRisk(w: World, x: ExchangeId)
    requires GoodOrders(w)
    ensures SameRisk(w, CancelEvent(w.db, x))
  {
    SameOrders(w);
  }

  // ----- The exchange moves -------------------------------------------------

  /** One order's fate at the exchange moves on without a new match. */
  ghost predicate CalmMove(w: World, id: OrderId, r': Remote) {
    && id in w.remote && id in w.db.reservations
    && RemoteEvolves(w.remote[id], r')
    && r'.Matched() == w.remote[id].Matched()
    && r'.Quantity(w.db.reservations[id].original) <= w.remote[id].Quantity(w.db.reservations[id].original)
    && (r'.InFlight? ==> id in w.db.orders)
    && (r'.Accepted? ==>
          && id in w.db.orders && 0 <= r'.matched && 0 <= r'.open
          && r'.matched + r'.open <= w.db.reservations[id].original
          && (w.remote[id].Accepted? || r'.exchangeId !in w.pass.facts)
          && forall other :: other in w.remote && other != id && w.remote[other].Accepted?
                             ==> w.remote[other].exchangeId != r'.exchangeId)
  }

  lemma CalmMoveKeepsRemotes(w: World, id: OrderId, r': Remote)
    requires GoodRemotes(w) && CalmMove(w, id, r')
    ensures GoodRemotes(w.(remote := w.remote[id := r']))
  {
    var w' := w.(remote := w.remote[id := r']);
    assert w'.remote.Keys == w.remote.Keys;
    forall other | other in w'.remote ensures GoodRemote(w', other) {
      assert GoodRemote(w, other);
    }
  }

  lemma CalmMoveKeepsConsistent(w: World, id: OrderId, r': Remote)
    requires Consistent(w) && CalmMove(w, id, r')
    ensures Consistent(w.(remote := w.remote[id := r']))
  {
    hide GoodReservation, GoodOrder, GoodRemote, GoodRemotes, GoodTrade, GoodEvent, GoodOrders, GoodTrades, GoodPass, GoodInventory;
    var w' := w.(remote := w.remote[id := r']);
    assert w'.remote.Keys == w.remote.Keys;
    CalmMoveKeepsRemotes(w, id, r');
    assert GoodReservations(w') by {
      SameReservationsStayGood(w, w');
    }
    KeepConsistent(w, w');
  }

  lemma SameReservationsStayGood(w: World, w': World)
    requires GoodReservations(w) && w'.db.reservations == w.db.reservations && w'.db.markets == w.db.markets
    requires w'.remote.Keys == w.remote.Keys
    ensures GoodReservations(w')
  {
    forall id | id in w.db.reservations ensures GoodReservation(w'.db, w'.db.reservations[id]) {
      assert GoodReservation(w.db, w.db.reservations[id]);
    }
  }

  lemma CalmMoveKeepsComplete(w: World, id: OrderId, r': Remote)
    requires Complete(w) && CalmMove(w, id, r')
    ensures Complete(w.(remote := w.remote[id := r']))
  {
    hide Sum;
    var w' := w.(remote := w.remote[id := r']);
    assert w'.remote.Keys == w.remote.Keys;
    forall other | other in w'.remote ensures Accounted(w', other) && Covered(w', other) {
      assert Accounted(w, other) && Covered(w, other);
    }
  }

  lemma CalmMoveKeepsInv(w: World, id: OrderId, r': Remote)
    requires Inv(w) && CalmMove(w, id, r')
    ensures Inv(w.(remote := w.remote[id := r'])) && RiskFrame(w, w.(remote := w.remote[id := r']))
  {
    hide Consistent, Complete, Sum, Notional, TotalIsCached, CashIsGood;
    var w' := w.(remote := w.remote[id := r']);
    CalmMoveKeepsConsistent(w, id, r');
    CalmMoveKeepsComplete(w, id, r');
    PositiveLimits(w);
    KeysAgree(w);
    KeysAgree(w');
    assert RiskFrame(w, w') by {
      forall other | other in w.db.reservations ensures RowRiskFrame(w, w', other) {
      }
    }
    hide CalmMove, RiskFrame;
    assert TotalIsCached(w'.db) && CashIsGood(w'.db);
  }

  /** The move a Send, Withhold, Accept, Refuse or CancelAtExchange makes is calm. */
  lemma ExchangeMovesAreCalm(w: World, s: Step)
    requires Consistent(w) && Enabled(w, s) && (s.Send? || s.Withhold? || s.Accept? || s.Refuse? || s.CancelAtExchange?)
    ensures s.id in w.remote && s.id in w.db.reservations
    ensures CalmMove(w, s.id,
              match s
              case Send(_) => InFlight
              case Accept(id, x) => Accepted(x, 0, w.db.reservations[id].original)
              case CancelAtExchange(id, q) =>
                Accepted(w.remote[id].exchangeId, w.remote[id].matched, w.remote[id].open - q)
              case _ => Absent)
  {
    hide GoodOrders, GoodTrades, GoodEvents, GoodPass, GoodInventory;
    assert GoodRemote(w, s.id);
    assert GoodReservation(w.db, w.db.reservations[s.id]);
  }

  // ----- A new match --------------------------------------------------------

  ghost function Matched'(w: World, e: EventId, id: OrderId, x: Execution): World
    requires id in w.remote && w.remote[id].Accepted?
  {
    var r := w.remote[id];
    w.(remote := w.remote[id := Accepted(r.exchangeId, r.matched + x.size, r.open - x.size)],
       trades := w.trades[e := Trade(id, x)])
  }

  lemma MatchKeepsRemotes(w: World, e: EventId, id: OrderId, x: Execution)
    requires GoodRemotes(w) && CanMatch(w, e, id, x)
    ensures GoodRemotes(Matched'(w, e, id, x))
  {
    var w' := Matched'(w, e, id, x);
    assert w'.remote.Keys == w.remote.Keys;
    forall other | other in w'.remote ensures GoodRemote(w', other) {
      assert GoodRemote(w, other);
    }
  }

  lemma MatchEvolves(w: World, e: EventId, id: OrderId, x: Execution)
    requires CanMatch(w, e, id, x)
    ensures Evolves(w, Matched'(w, e, id, x)) && TradesEvolve(w, Matched'(w, e, id, x))
    ensures FetchedWereAccepted(w, Matched'(w, e, id, x))
    ensures Matched'(w, e, id, x).remote.Keys == w.remote.Keys
  {
    assert GoodTrade(Matched'(w, e, id, x), e);
  }

  lemma MatchKeepsConsistent(w: World, e: EventId, id: OrderId, x: Execution)
    requires Consistent(w) && CanMatch(w, e, id, x)
    ensures Consistent(Matched'(w, e, id, x))
  {
    hide GoodReservation, GoodOrder, GoodRemote, GoodRemotes, GoodTrade, GoodEvent, GoodOrders, GoodTrades, GoodPass,
      GoodInventory, Evolves, TradesEvolve, FetchedWereAccepted;
    var w' := Matched'(w, e, id, x);
    MatchEvolves(w, e, id, x);
    MatchKeepsRemotes(w, e, id, x);
    SameReservationsStayGood(w, w');
    KeepConsistent(w, w');
  }

  lemma MatchKeepsComplete(w: World, e: EventId, id: OrderId, x: Execution)
    requires Complete(w) && CanMatch(w, e, id, x) && e !in w.db.events
    ensures Complete(Matched'(w, e, id, x))
  {
    hide Sum;
    var w' := Matched'(w, e, id, x);
    assert w'.remote.Keys == w.remote.Keys;
    forall other | other in w'.remote ensures Accounted(w', other) && Covered(w', other) {
      assert Accounted(w, other) && Covered(w, other);
      PendingGrows(w.db, w.trades, e, Trade(id, x), other);
    }
  }

  lemma MatchKeepsInv(w: World, e: EventId, id: OrderId, x: Execution)
    requires Inv(w) && CanMatch(w, e, id, x)
    ensures Inv(Matched'(w, e, id, x)) && RiskFrame(w, Matched'(w, e, id, x))
  {
    hide Consistent, Complete, Sum, Notional, TotalIsCached, CashIsGood;
    var w' := Matched'(w, e, id, x);
    assert CanMatch(w, e, id, x);
    KeysAgree(w);
    NotRecordedBeforeTraded(w, e);
    MatchKeepsConsistent(w, e, id, x);
    MatchKeepsComplete(w, e, id, x);
    PositiveLimits(w);
    assert w'.remote.Keys == w.remote.Keys;
    assert RiskFrame(w, w') by {
      forall other | other in w.db.reservations ensures RowRiskFrame(w, w', other) {
      }
    }
    hide CanMatch, RiskFrame;
    assert TotalIsCached(w'.db) && CashIsGood(w'.db);
  }

  lemma PositiveLimits(w: World)
    requires Consistent(w)
    ensures forall id :: id in w.db.reservations ==> 0 < w.db.reservations[id].limit
  {
    forall id | id in w.db.reservations ensures 0 < w.db.reservations[id].limit {
      assert GoodReservation(w.db, w.db.reservations[id]);
    }
  }

  lemma NotRecordedBeforeTraded(w: World, e: EventId)
    requires Consistent(w) && e !in w.trades
    ensures e !in w.db.events
  {
    assert e in w.db.events ==> GoodEvent(w, e);
  }

  lemma PendingGrows(db: Db, trades: map<EventId, Trade>, e: EventId, t: Trade, id: OrderId)
    requires e !in trades && e !in db.events
    ensures PendingShares(db, trades[e := t], id)
            == PendingShares(db, trades, id) + (if t.order == id then t.execution.size as real else 0.0)
  {
    hide Sum;
    var v := if t.order == id then t.execution.size as real else 0.0;
    assert PendingTable(db, trades[e := t], id) == PendingTable(db, trades, id)[e := v];
    SumWrite(PendingTable(db, trades, id), e, v);
  }

  // ----- Steps that change only the fill inbox ------------------------------

  /** Inbox rows change, but not which of them are booked. */
  ghost predicate SameBooked(w: World, db: Db) {
    && db == w.db.(events := db.events)
    && (forall e :: e in db.events ==> e in w.trades && db.events[e].execution == w.trades[e].execution)
    && (forall e :: e in w.trades ==> IsBooked(db, e) == IsBooked(w.db, e))
  }

  lemma SameBookedKeepsConsistent(w: World, db: Db)
    requires Consistent(w) && SameBooked(w, db)
    ensures Consistent(w.(db := db))
  {
    hide GoodReservation, GoodOrder, GoodRemote, GoodTrade, GoodOrders, GoodTrades, GoodPass;
    var w' := w.(db := db);
    SameReservationsStayGood(w, w');
    assert RemotesEvolve(w, w') && ReservationsEvolve(w, w') && OrdersEvolve(w, w');
    KeepRemotes(w, w');
    KeepConsistent(w, w');
  }

  lemma SameBookedKeepsInv(w: World, db: Db)
    requires Inv(w) && SameBooked(w, db)
    ensures Inv(w.(db := db)) && RiskFrame(w, w.(db := db))
  {
    hide Consistent, Complete, Sum, Notional;
    var w' := w.(db := db);
    SameBookedKeepsConsistent(w, db);
    SameBookedKeepsComplete(w, db);
    PositiveLimits(w);
    KeysAgree(w);
    assert RiskFrame(w, w') by {
      forall id | id in w.db.reservations ensures RowRiskFrame(w, w', id) {
      }
    }
    hide SameBooked, RiskFrame;
  }

  lemma KeysAgree(w: World)
    requires Consistent(w)
    ensures w.remote.Keys == w.db.reservations.Keys
  {
  }

  lemma SameBookedKeepsComplete(w: World, db: Db)
    requires Complete(w) && SameBooked(w, db)
    ensures Complete(w.(db := db))
  {
    var w' := w.(db := db);
    forall id | id in w.remote ensures Accounted(w', id) && Covered(w', id) {
      assert Accounted(w, id) && Covered(w, id);
      SamePending(w.db, db, w.trades, id);
    }
  }

  lemma DeliveryIsSameBooked(w: World, e: EventId)
    requires GoodEvents(w) && e in w.trades
    ensures SameBooked(w, Record(w.db, e, w.trades[e].execution))
  {
    forall other | other in w.db.events ensures GoodEvent(w, other) {
    }
  }

  lemma FailClosedIsSameBooked(w: World, e: EventId)
    requires GoodEvents(w)
    ensures SameBooked(w, MarkFailed(w.db, e))
  {
    forall other | other in w.db.events ensures GoodEvent(w, other) {
    }
  }

  // ----- Releasing a reservation whose order was never accepted -------------

  function ReservedWeight(r: Reservation, scope: Scope): real {
    if r.Active() && InScope(scope, r.market) then r.notional else 0.0
  }

  lemma ReservedWrite(rs: map<OrderId, Reservation>, id: OrderId, r: Reservation, scope: Scope)
    ensures ActiveReserved(rs[id := r], scope)
            == ActiveReserved(rs, scope) - (if id in rs then ReservedWeight(rs[id], scope) else 0.0)
               + ReservedWeight(r, scope)
  {
    hide Sum;
    assert ReservedTable(rs[id := r], scope) == ReservedTable(rs, scope)[id := ReservedWeight(r, scope)];
    SumWrite(ReservedTable(rs, scope), id, ReservedWeight(r, scope));
  }

  /** One active reservation holds no more than the cached total. */
  lemma ReservedAtMostTotal(w: World, id: OrderId, scope: Scope)
    requires Consistent(w) && id in w.db.reservations
    ensures 0.0 <= ReservedWeight(w.db.reservations[id], scope) <= ActiveReserved(w.db.reservations, scope)
  {
    hide Sum;
    forall other | other in w.db.reservations ensures ReservedTable(w.db.reservations, scope)[other] >= 0.0 {
      assert GoodReservation(w.db, w.db.reservations[other]);
      NotionalMonotone(0, w.db.reservations[other].limit, 0, w.db.reservations[other].remaining);
    }
    RowAtMostSum(ReservedTable(w.db.reservations, scope), id);
  }

  lemma RewriteReservationKeepsConsistent(w: World, db: Db, id: OrderId)
    requires Consistent(w) && id in w.db.reservations && id in db.reservations
    requires db == w.db.(reservations := w.db.reservations[id := db.reservations[id]], reservedTotal := db.reservedTotal)
    requires SameTerms(w.db.reservations[id], db.reservations[id]) && GoodReservation(db, db.reservations[id])
    ensures Consistent(w.(db := db))
  {
    hide GoodOrder, GoodRemote, GoodTrade, GoodOrders, GoodTrades, GoodPass, GoodEvents, Notional;
    var w' := w.(db := db);
    assert db.reservations.Keys == w.db.reservations.Keys;
    assert GoodReservations(w') by {
      forall other | other in db.reservations ensures GoodReservation(db, db.reservations[other]) {
        assert other != id ==> GoodReservation(w.db, w.db.reservations[other]);
      }
    }
    assert ReservationsEvolve(w, w') && OrdersEvolve(w, w') && RemotesEvolve(w, w');
    hide GoodReservation;
    KeepRemotes(w, w');
    KeepConsistent(w, w');
  }

  lemma RewriteReservationRisk(w: World, db: Db, id: OrderId)
    requires Consistent(w) && id in w.db.reservations && id in db.reservations
    requires db == w.db.(reservations := w.db.reservations[id := db.reservations[id]], reservedTotal := db.reservedTotal)
    requires SameTerms(w.db.reservations[id], db.reservations[id])
    ensures RiskFrame(w, w.(db := db))
  {
    PositiveLimits(w);
    KeysAgree(w);
    hide Consistent;
    var w' := w.(db := db);
    assert db.reservations.Keys == w.db.reservations.Keys;
    forall other | other in w.db.reservations ensures RowRiskFrame(w, w', other) {
    }
  }

  lemma ReleaseKeepsComplete(w: World, id: OrderId, terminal: ReservationStatus)
    requires Complete(w) && id in w.remote && w.remote[id].Absent? && FilledSize(w.db, id) >= 0
    ensures Complete(w.(db := Release(w.db, id, terminal)))
  {
    hide PendingShares, Sum;
    var db := Release(w.db, id, terminal);
    var w' := w.(db := db);
    assert db.reservations.Keys == w.db.reservations.Keys;
    forall other | other in w.remote ensures Accounted(w', other) && Covered(w', other) {
      assert Accounted(w, other) && Covered(w, other);
      SamePending(w.db, db, w.trades, other);
    }
  }

  lemma FilledIsNotNegative(w: World, id: OrderId)
    requires Consistent(w)
    ensures FilledSize(w.db, id) >= 0
  {
    assert id in w.db.orders ==> GoodOrder(w, id);
  }

  lemma ReleaseKeepsTotal(w: World, id: OrderId, terminal: ReservationStatus)
    requires Consistent(w) && TotalIsCached(w.db) && id in w.db.reservations
    requires terminal in {JournalFailed, OrderFailed}
    ensures TotalIsCached(Release(w.db, id, terminal))
  {
    ReservedAtMostTotal(w, id, None);
    ReservedWrite(w.db.reservations, id, w.db.reservations[id].Freed(terminal), None);
    hide Consistent, ActiveReserved;
  }

  lemma ReleasedIsGood(w: World, id: OrderId, terminal: ReservationStatus)
    requires Consistent(w) && id in w.db.reservations && terminal in {JournalFailed, OrderFailed}
    ensures var db := Release(w.db, id, terminal);
            && id in db.reservations
            && SameTerms(w.db.reservations[id], db.reservations[id]) && GoodReservation(db, db.reservations[id])
            && db == w.db.(reservations := w.db.reservations[id := db.reservations[id]], reservedTotal := db.reservedTotal)
  {
    assert GoodReservation(w.db, w.db.reservations[id]);
    hide Consistent;
    NotionalOfNothing(w.db.reservations[id].limit);
    if !w.db.reservations[id].Active() {
      assert w.db.reservations[id := w.db.reservations[id]] == w.db.reservations;
    }
  }

  lemma ReleaseKeepsInv(w: World, id: OrderId, terminal: ReservationStatus)
    requires Inv(w) && id in w.remote && w.remote[id].Absent? && terminal in {JournalFailed, OrderFailed}
    ensures Inv(w.(db := Release(w.db, id, terminal))) && RiskFrame(w, w.(db := Release(w.db, id, terminal)))
  {
    hide Consistent, Complete, RiskFrame, TotalIsCached, GoodReservation, SameTerms;
    KeysAgree(w);
    FilledIsNotNegative(w, id);
    ReleaseKeepsComplete(w, id, terminal);
    ReleaseKeepsTotal(w, id, terminal);
    ReleasedIsGood(w, id, terminal);
    RewriteReservationKeepsConsistent(w, Release(w.db, id, terminal), id);
    RewriteReservationRisk(w, Release(w.db, id, terminal), id);
  }

  lemma NotionalOfNothing(price: int)
    ensures Notional(price, 0) == 0.0
  {
  }

  // ----- Journaling an order ------------------------------------------------

  ghost function Journaled(w: World, id: OrderId): Db
    requires id in w.db.reservations
  {
    var r := w.db.reservations[id];
    Journal(w.db, id, r.market, r.token, r.side, r.limit, r.original)
  }

  lemma JournalKeepsConsistent(w: World, id: OrderId)
    requires Consistent(w) && id in w.remote && id in w.db.reservations && id !in w.db.orders
    ensures Consistent(w.(db := Journaled(w, id)))
  {
    hide GoodReservation, GoodRemote, GoodTrade, GoodOrders, GoodTrades, GoodPass;
    var w' := w.(db := Journaled(w, id));
    SameReservationsStayGood(w, w');
    assert ReservationsEvolve(w, w') && OrdersEvolve(w, w') && RemotesEvolve(w, w');
    KeepRemotes(w, w');
    assert GoodOrder(w', id);
    hide GoodOrder;
    KeepConsistent(w, w');
  }

  lemma JournalKeepsInv(w: World, id: OrderId)
    requires Inv(w) && id in w.remote && id in w.db.reservations && id !in w.db.orders
    ensures Inv(w.(db := Journaled(w, id))) && RiskFrame(w, w.(db := Journaled(w, id)))
  {
    hide Consistent, Sum;
    var w' := w.(db := Journaled(w, id));
    JournalKeepsConsistent(w, id);
    PositiveLimits(w);
    KeysAgree(w);
    assert forall other :: FilledSize(w'.db, other) == FilledSize(w.db, other);
    assert Complete(w') by {
      forall other | other in w.remote ensures Accounted(w', other) && Covered(w', other) {
        assert Accounted(w, other) && Covered(w, other);
        SamePending(w.db, w'.db, w.trades, other);
      }
    }
    assert RiskFrame(w, w') by {
      forall other | other in w.db.reservations ensures RowRiskFrame(w, w', other) {
      }
    }
    hide Complete, RiskFrame;
  }

  // ----- Admitting a new order ----------------------------------------------

  /** The money every BUY of a scope may still cost is reserved, up to the tolerance per order. */
  lemma ReservationsCoverExposure(w: World, scope: Scope)
    requires Inv(w)
    ensures Sum(ExposureTable(w, scope)) <= ActiveReserved(w.db.reservations, scope) + Slack(w.db.reservations, scope)
  {
    hide Sum;
    var rs := w.db.reservations;
    var both := map id | id in rs :: ReservedTable(rs, scope)[id] + SlackTable(rs, scope)[id];
    assert both.Keys == ReservedTable(rs, scope).Keys == SlackTable(rs, scope).Keys;
    SumAdds(ReservedTable(rs, scope), SlackTable(rs, scope), both);
    forall id | id in rs ensures ExposureTable(w, scope)[id] <= both[id] {
      RowIsCovered(w, scope, id);
    }
    assert ExposureTable(w, scope).Keys == both.Keys;
    SumMonotone(ExposureTable(w, scope), both);
  }

  lemma RowIsCovered(w: World, scope: Scope, id: OrderId)
    requires Inv(w) && id in w.db.reservations
    ensures ExposureTable(w, scope)[id]
            <= ReservedTable(w.db.reservations, scope)[id] + SlackTable(w.db.reservations, scope)[id]
  {
    hide Sum, Notional, GoodOrders, GoodRemotes, GoodTrades, GoodEvents, GoodPass, GoodInventory;
    var r := w.db.reservations[id];
    assert GoodReservation(w.db, r) && Covered(w, id);
    CoverPrice(r.limit, Unaccounted(w, id), r.remaining);
  }

  lemma CoverPrice(limit: int, unaccounted: int, remaining: int)
    requires limit >= 0 && remaining >= 0 && unaccounted <= remaining + SIZE_TOLERANCE
    ensures Notional(limit, unaccounted) <= Notional(limit, remaining) + Notional(limit, SIZE_TOLERANCE)
    ensures Notional(limit, remaining) >= 0.0 && Notional(limit, SIZE_TOLERANCE) >= 0.0 && Notional(limit, 0) == 0.0
  {
    NotionalGrows(limit, unaccounted, remaining + SIZE_TOLERANCE);
    NotionalAdds(limit, remaining, SIZE_TOLERANCE);
    NotionalMonotone(limit, limit, 0, remaining);
    NotionalMonotone(limit, limit, 0, SIZE_TOLERANCE);
    NotionalOfNothing(limit);
    hide Notional;
  }

  /** The tables after a new reservation is granted. */
  ghost predicate Granting(w: World, id: OrderId, r: Reservation, total: real, w': World) {
    && id !in w.db.reservations
    && w' == w.(db := w.db.(reservations := w.db.reservations[id := r], reservedTotal := total),
                remote := w.remote[id := Planned])
    && r.remaining == r.original && r.status == Reserved
    && GoodReservation(w.db, r)
  }

  lemma GrantKeepsConsistent(w: World, id: OrderId, r: Reservation, total: real, w': World)
    requires Consistent(w) && Granting(w, id, r, total, w')
    ensures Consistent(w')
  {
    hide GoodReservation, GoodRemote, GoodOrder, GoodTrade, GoodReservations, GoodRemotes, GoodOrders, GoodTrades, GoodEvents, GoodPass,
      GoodInventory, ReservationsEvolve, OrdersEvolve, RemotesEvolve, NewMappingsAreTrue, TradesEvolve, FetchedWereAccepted, Granting;
    KeysAgree(w);
    GrantedRows(w, id, r, total, w');
    GrantEvolves(w, id, r, total, w');
    KeepConsistent(w, w');
  }

  lemma GrantedRows(w: World, id: OrderId, r: Reservation, total: real, w': World)
    requires GoodReservations(w) && GoodRemotes(w) && Granting(w, id, r, total, w')
    ensures GoodReservations(w') && GoodRemotes(w')
  {
    hide Notional;
    assert w'.remote.Keys == w.remote.Keys + {id};
    assert w'.db.reservations.Keys == w.db.reservations.Keys + {id};
    forall other | other in w'.db.reservations ensures GoodReservation(w'.db, w'.db.reservations[other]) {
      assert other != id ==> GoodReservation(w.db, w.db.reservations[other]);
    }
    forall other | other in w'.remote ensures GoodRemote(w', other) {
      assert other != id ==> GoodRemote(w, other);
    }
  }

  lemma GrantEvolves(w: World, id: OrderId, r: Reservation, total: real, w': World)
    requires w.remote.Keys == w.db.reservations.Keys && Granting(w, id, r, total, w')
    ensures Evolves(w, w') && TradesEvolve(w, w') && FetchedWereAccepted(w, w')
    ensures w'.pass == w.pass && w'.db.orders == w.db.orders && (GoodInventory(w.db) ==> GoodInventory(w'.db))
  {
    hide GoodReservation;
  }

  lemma NoOrderNoTrades(w: World, id: OrderId)
    requires Consistent(w) && id !in w.db.reservations
    ensures id !in w.db.orders && id !in w.remote && PendingShares(w.db, w.trades, id) == 0.0
  {
    assert id in w.db.orders ==> GoodOrder(w, id);
    forall e | e in w.trades ensures w.trades[e].order != id {
      assert GoodTrade(w, e);
    }
    hide Sum, Consistent;
    SumOfZeros(PendingTable(w.db, w.trades, id));
  }

  lemma GrantKeepsComplete(w: World, id: OrderId, r: Reservation, total: real, w': World)
    requires Consistent(w) && Complete(w) && Granting(w, id, r, total, w')
    ensures Complete(w')
  {
    NoOrderNoTrades(w, id);
    hide Consistent, Sum;
    assert w'.remote.Keys == w.remote.Keys + {id};
    assert w'.db.reservations.Keys == w.db.reservations.Keys + {id};
    forall other | other in w'.remote ensures Accounted(w', other) && Covered(w', other) {
      if other != id {
        assert Accounted(w, other) && Covered(w, other);
      }
      SamePending(w.db, w'.db, w.trades, other);
    }
  }

  lemma GrantKeepsInv(w: World, id: OrderId, r: Reservation, total: real, w': World)
    requires Inv(w) && Granting(w, id, r, total, w')
    requires total == ActiveReserved(w.db.reservations, None) + r.notional
    ensures Inv(w')
  {
    GrantKeepsConsistent(w, id, r, total, w');
    GrantKeepsComplete(w, id, r, total, w');
    hide Consistent, Complete;
    ReservedWrite(w.db.reservations, id, r, None);
    hide ActiveReserved;
  }

  /** What a grant does to the money at risk of a scope. */
  lemma GrantRisk(w: World, id: OrderId, r: Reservation, total: real, w': World, scope: Scope)
    requires Inv(w) && Granting(w, id, r, total, w')
    ensures w'.remote.Keys == w'.db.reservations.Keys
    ensures TrueExposure(w', scope)
            == TrueExposure(w, scope)
               + (if r.side.Buy? && InScope(scope, r.market) then Notional(r.limit, r.original) else 0.0)
    ensures Slack(w'.db.reservations, scope) >= Slack(w.db.reservations, scope)
  {
    NoOrderNoTrades(w, id);
    KeysAgree(w);
    assert 0 < r.limit && r.remaining == r.original;
    hide Inv, Sum, Notional, GoodReservation;
    GrantedExposureTable(w, id, r, w', scope);
    SumWrite(ExposureTable(w, scope), id, NewExposure(r, scope));
    GrantSlack(w.db.reservations, id, r, scope);
    hide ExposureTable, SlackTable, CapitalTable;
  }

  function NewExposure(r: Reservation, scope: Scope): real {
    if r.side.Buy? && InScope(scope, r.market) then Notional(r.limit, r.original) else 0.0
  }

  lemma GrantedExposureTable(w: World, id: OrderId, r: Reservation, w': World, scope: Scope)
    requires w.remote.Keys == w.db.reservations.Keys && id !in w.db.reservations && id !in w.db.orders
    requires w'.db.reservations == w.db.reservations[id := r] && w'.remote == w.remote[id := Planned]
    requires w'.db.orders == w.db.orders
    ensures w'.remote.Keys == w'.db.reservations.Keys
    ensures id !in ExposureTable(w, scope)
    ensures ExposureTable(w', scope) == ExposureTable(w, scope)[id := NewExposure(r, scope)]
  {
    hide Sum, Notional;
    assert w'.remote.Keys == w.remote.Keys + {id};
    assert w'.db.reservations.Keys == w.db.reservations.Keys + {id};
    forall other | other in w.db.reservations ensures Unaccounted(w', other) == Unaccounted(w, other) {
    }
  }

  lemma GrantSlack(rs: map<OrderId, Reservation>, id: OrderId, r: Reservation, scope: Scope)
    requires id !in rs && r.limit >= 0
    ensures Slack(rs[id := r], scope) >= Slack(rs, scope)
  {
    hide Sum, Notional;
    CoverPrice(r.limit, 0, 0);
    var y := if r.side.Buy? && InScope(scope, r.market) then Notional(r.limit, SIZE_TOLERANCE) else 0.0;
    assert SlackTable(rs[id := r], scope) == SlackTable(rs, scope)[id := y];
    SumWrite(SlackTable(rs, scope), id, y);
  }

  lemma SellGrantKeepsInv(w: World, id: OrderId, market: MarketId, token: TokenId, limit: int, size: int, settings: Settings, scope: Scope)
    requires Inv(w) && id !in w.db.reservations && WithinBudget(w, settings, scope)
    ensures var w' := Planning(w, id, ReserveSell(w.db, id, market, token, limit, size));
            Inv(w') && WithinBudget(w', settings, scope)
  {
    hide Consistent, Complete, Sum, Notional, PromisedShares, ActiveReserved;
    var g := ReserveSell(w.db, id, market, token, limit, size);
    if g.Granted? {
      var r := NewReservation(market, token, Sell, limit, size);
      assert TotalIsCached(w.db);
      assert Granting(w, id, r, w.db.reservedTotal, Planning(w, id, g));
      hide GoodReservation, Granting, ReserveSell;
      GrantKeepsInv(w, id, r, w.db.reservedTotal, Planning(w, id, g));
      GrantRisk(w, id, r, w.db.reservedTotal, Planning(w, id, g), scope);
    }
  }

  /** A grant is only given when everything reserved so far and the new order fit both caps. */
  lemma AdmittedFits(w: World, id: OrderId, market: MarketId, token: TokenId, limit: int, size: int, settings: Settings)
    requires id !in w.db.reservations
    requires ReserveBuy(w.db, settings, id, market, token, limit, size).Granted?
    ensures CapitalUsed(w.db.inventory, None) + ActiveReserved(w.db.reservations, None) + Notional(limit, size)
            <= settings.globalCap + MONEY_TOLERANCE
    ensures CapitalUsed(w.db.inventory, Some(market)) + ActiveReserved(w.db.reservations, Some(market)) + Notional(limit, size)
            <= settings.marketCap + MONEY_TOLERANCE
    ensures 0 < limit < ONE_DOLLAR && 0 < size && market in w.db.markets && w.db.markets[market].Lists(token)
    ensures var g := ReserveBuy(w.db, settings, id, market, token, limit, size);
            Granting(w, id, NewReservation(market, token, Buy, limit, size),
                     ActiveReserved(w.db.reservations, None) + Notional(limit, size), Planning(w, id, g))
  {
    hide Sum, Notional, ActiveReserved, CapitalUsed;
  }

  lemma BuyGrantKeepsInv(w: World, id: OrderId, market: MarketId, token: TokenId, limit: int, size: int, settings: Settings, scope: Scope)
    requires Inv(w) && id !in w.db.reservations && WithinBudget(w, settings, scope)
    ensures var w' := Planning(w, id, ReserveBuy(w.db, settings, id, market, token, limit, size));
            Inv(w') && WithinBudget(w', settings, scope)
  {
    hide Consistent, Complete, Sum, Notional, CapitalUsed, ActiveReserved, Granting;
    var g := ReserveBuy(w.db, settings, id, market, token, limit, size);
    if g.Granted? {
      var r := NewReservation(market, token, Buy, limit, size);
      var total := ActiveReserved(w.db.reservations, None) + Notional(limit, size);
      AdmittedFits(w, id, market, token, limit, size, settings);
      hide ReserveBuy;
      GrantKeepsInv(w, id, r, total, Planning(w, id, g));
      GrantRisk(w, id, r, total, Planning(w, id, g), scope);
      ReservationsCoverExposure(w, scope);
      FeesAreNotNegative(w, scope);
      hide Planning, Slack, BuyFees, ExposureTable;
    }
  }

  lemma FeesAreNotNegative(w: World, scope: Scope)
    requires CashIsGood(w.db)
    ensures BuyFees(w.db.cash, scope) >= 0.0
  {
    SumNonNegative(FeeTable(w.db.cash, scope));
  }
}
