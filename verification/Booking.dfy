/** The fill transaction: what one successful booking changes, and why it keeps the
    invariant and the budget. */
module Booking {
  import opened Common
  import opened Accounting
  import opened Fees
  import opened Rows
  import opened Transactions
  import opened World
  import opened Safety

  /** The pieces of one booking. */
  datatype Parts = Parts(
    market: MarketId,
    token: TokenId,
    fill: Fill,
    fee: Option<real>,
    amounts: CashAmounts,
    consumed: Reservation,
    released: real,
    book: Ledger)

  /** db' is db after booking event e against order id. */
  ghost predicate BooksAs(db: Db, e: EventId, id: OrderId, p: Parts, db': Db) {
    && e in db.events && id in db.orders && id in db.reservations && p.market in db.inventory && p.market in db.markets
    && var order, x, inv := db.orders[id], db.events[e].execution, db.inventory[p.market];
    && e !in db.cash
    && p.market == order.market && p.fill.side == order.side
    && db.markets[p.market].Lists(p.token) && p.fill.outcome == db.markets[p.market].OutcomeOf(p.token)
    && p.token == (if x.token.Some? then x.token.value else order.token)
    && p.fill.size == x.size && p.fill.price == x.price
    && order.filled + x.size <= order.size + SIZE_TOLERANCE
    && BuildCashFact(order.side, x.price, x.size, p.fee) == Success(p.amounts)
    && p.fill.fee == (if p.fee.Some? then p.fee.value else 0.0)
    && ConsumeReservation(db.reservations[id], x.size, x.price, order.side) == Success((p.consumed, p.released))
    && inv.accounting == V2
    && ApplyToLedger(inv.book, p.fill) == Success(p.book)
    && db' == db.(
         reservations := db.reservations[id := p.consumed],
         reservedTotal := MaxReal(0.0, db.reservedTotal - p.released),
         inventory := db.inventory[p.market :=
           Inventory(p.book, if p.fee.Some? then V2 else FeeIncomplete, inv.stateVersion + 1)],
         cash := db.cash[e := CashFact(p.market, order.side, p.amounts)],
         orders := db.orders[id := order.(filled := order.filled + x.size,
                                          status := FilledStatus(order.filled + x.size, order.size))],
         events := db.events[e := FillEvent(x, Processed,
           Some(Booking(id, p.market, p.token, order.side, inv.stateVersion + 1)))])
  }

  lemma BookFillParts(db: Db, e: EventId, id: OrderId) returns (p: Parts)
    requires e in db.events && id in db.orders && db.orders[id].reservation == Some(id)
    requires BookFill(db, e, id).Success?
    ensures BooksAs(db, e, id, p, BookFill(db, e, id).value)
  {
    hide ResolveFee, BuildCashFact, ConsumeReservation, ApplyToLedger, Notional;
    var order, x := db.orders[id], db.events[e].execution;
    var token := if x.token.Some? then x.token.value else order.token;
    var fee := ResolveFee(x.fees, x.role, x.price, x.size, x.feeBps).value;
    var amounts := BuildCashFact(order.side, x.price, x.size, fee).value;
    var consumed := ConsumeReservation(db.reservations[id], x.size, x.price, order.side).value;
    var fill := Fill(db.markets[order.market].OutcomeOf(token), order.side, x.size, x.price,
                     if fee.Some? then fee.value else 0.0);
    var book := ApplyToLedger(db.inventory[order.market].book, fill).value;
    p := Parts(order.market, token, fill, fee, amounts, consumed.0, consumed.1, book);
  }

  /** Who an execution is booked against: the order it was traded for. */
  lemma MappedOrderIsTradedOrder(w: World, e: EventId, id: OrderId)
    requires Consistent(w) && e in w.db.events && id in w.db.orders
    requires w.db.orders[id].exchangeId == Some(w.db.events[e].execution.exchangeId)
    ensures e in w.trades && w.trades[e].order == id && w.trades[e].execution == w.db.events[e].execution
    ensures id in w.remote && w.remote[id].Accepted? && id in w.db.reservations && w.db.orders[id].reservation == Some(id)
    ensures GoodTrade(w, e)
  {
    assert GoodEvent(w, e);
    assert GoodTrade(w, e);
    assert GoodOrder(w, id);
    assert DistinctExchangeIds(w.remote);
  }

  /** What consuming a good reservation leaves, and what it frees. */
  lemma ConsumeIsGood(db: Db, r: Reservation, size: int, price: int, side: Side)
    requires GoodReservation(db, r) && ConsumeReservation(r, size, price, side).Success?
    ensures var (after, released) := ConsumeReservation(r, size, price, side).value;
            && r.Active() && r.side == side && 0 < size && 0 < price && (side.Buy? ==> price <= r.limit)
            && size <= r.remaining + SIZE_TOLERANCE
            && SameTerms(r, after) && GoodReservation(db, after)
            && after.remaining == MaxInt(0, r.remaining - size)
            && after.notional == r.notional - released
            && released == (if side.Buy? then Notional(r.limit, r.remaining - after.remaining) else 0.0)
            && (after.Active() || (after.notional == 0.0 && after.remaining == 0))
            && 0.0 <= released <= r.notional
  {
    var after := ConsumeReservation(r, size, price, side).value.0;
    if side.Buy? {
      NotionalAdds(r.limit, r.remaining - after.remaining, after.remaining);
      NotionalMonotone(r.limit, r.limit, 0, after.remaining);
      NotionalMonotone(r.limit, r.limit, 0, r.remaining - after.remaining);
      NotionalOfNothing(r.limit);
      if size <= r.remaining {
        NotionalMonotone(r.limit, r.limit, size, r.remaining);
      } else {
        NotionalMonotone(r.limit, r.limit, r.remaining, size);
      }
    }
    hide Notional;
  }

  /** A booking against the order the execution was traded for. */
  ghost predicate GoodBooking(w: World, e: EventId, id: OrderId, p: Parts, w': World) {
    && BooksAs(w.db, e, id, p, w'.db) && w' == w.(db := w'.db)
    && !IsBooked(w.db, e)
    && e in w.trades && w.trades[e].order == id && w.trades[e].execution == w.db.events[e].execution
    && id in w.remote && w.remote[id].Accepted?
  }

  lemma BookedReservations(w: World, e: EventId, id: OrderId, p: Parts, w': World)
    requires GoodReservations(w) && GoodBooking(w, e, id, p, w')
    ensures GoodReservations(w') && SameTerms(w.db.reservations[id], p.consumed)
    ensures w'.db.reservations == w.db.reservations[id := p.consumed]
  {
    assert GoodReservation(w.db, w.db.reservations[id]);
    var x := w.db.events[e].execution;
    ConsumeIsGood(w.db, w.db.reservations[id], x.size, x.price, w.db.orders[id].side);
    hide ConsumeReservation, ApplyToLedger, BuildCashFact, Notional;
    assert w'.db.reservations.Keys == w.db.reservations.Keys;
    forall other | other in w'.db.reservations ensures GoodReservation(w'.db, w'.db.reservations[other]) {
      assert other != id ==> GoodReservation(w.db, w.db.reservations[other]);
    }
  }

  lemma BookedInventory(w: World, e: EventId, id: OrderId, p: Parts, w': World)
    requires GoodInventory(w.db) && GoodBooking(w, e, id, p, w')
    ensures GoodInventory(w'.db)
  {
    assert w.db.inventory[p.market].book.Sound();
    LedgerConservesCash(w.db.inventory[p.market].book, p.fill);
    hide ConsumeReservation, ApplyToLedger, BuildCashFact, Notional, NetCash;
  }

  lemma BookedEvolves(w: World, e: EventId, id: OrderId, p: Parts, w': World)
    requires GoodBooking(w, e, id, p, w') && SameTerms(w.db.reservations[id], p.consumed)
    requires w.db.events[e].execution.size > 0
    ensures Evolves(w, w') && TradesEvolve(w, w') && FetchedWereAccepted(w, w')
    ensures w'.remote == w.remote && w'.pass == w.pass && w'.db.orders.Keys == w.db.orders.Keys
    ensures w'.db.reservations.Keys == w.db.reservations.Keys
  {
    hide ConsumeReservation, ApplyToLedger, BuildCashFact, Notional;
  }

  lemma BookKeepsConsistent(w: World, e: EventId, id: OrderId, p: Parts, w': World)
    requires Consistent(w) && GoodBooking(w, e, id, p, w')
    ensures Consistent(w')
  {
    assert GoodTrade(w, e);
    hide BooksAs, GoodReservation, GoodOrder, GoodRemote;
    KeysAgree(w);
    BookedReservations(w, e, id, p, w');
    BookedInventory(w, e, id, p, w');
    BookedEvolves(w, e, id, p, w');
    hide GoodBooking, GoodReservations, GoodOrders, GoodTrades, GoodEvents, GoodPass, GoodInventory, GoodTrade, TradesEvolve;
    KeepRemotes(w, w');
    KeepConsistent(w, w');
  }

  lemma PendingBooked(db: Db, db': Db, trades: map<EventId, Trade>, e: EventId, id: OrderId)
    requires e in trades && !IsBooked(db, e) && IsBooked(db', e)
    requires forall other :: other in trades && other != e ==> IsBooked(db', other) == IsBooked(db, other)
    ensures PendingShares(db', trades, id)
            == PendingShares(db, trades, id) - (if trades[e].order == id then trades[e].execution.size as real else 0.0)
  {
    hide Sum;
    assert PendingTable(db', trades, id) == PendingTable(db, trades, id)[e := 0.0];
    SumWrite(PendingTable(db, trades, id), e, 0.0);
  }

  /** The effect of a booking on what the completeness of rows depends on. */
  ghost predicate BookedRows(w: World, e: EventId, id: OrderId, w': World) {
    && id in w.db.orders && id in w.db.reservations && id in w'.db.orders && id in w'.db.reservations
    && e in w.trades && !IsBooked(w.db, e) && w.trades[e].order == id
    && w' == w.(db := w'.db)
    && w'.db.orders == w.db.orders[id := w'.db.orders[id]]
    && w'.db.reservations == w.db.reservations[id := w'.db.reservations[id]]
    && IsBooked(w'.db, e) && (forall other :: other in w.trades && other != e ==> IsBooked(w'.db, other) == IsBooked(w.db, other))
    && w'.db.orders[id].filled == w.db.orders[id].filled + w.trades[e].execution.size
    && w'.db.reservations[id].original == w.db.reservations[id].original
    && w'.db.reservations[id].remaining >= w.db.reservations[id].remaining - w.trades[e].execution.size
  }

  lemma GoodBookingRows(w: World, e: EventId, id: OrderId, p: Parts, w': World)
    requires GoodReservations(w) && GoodBooking(w, e, id, p, w')
    ensures BookedRows(w, e, id, w')
  {
    var x := w.db.events[e].execution;
    assert GoodReservation(w.db, w.db.reservations[id]);
    ConsumeIsGood(w.db, w.db.reservations[id], x.size, x.price, w.db.orders[id].side);
    hide ConsumeReservation, ApplyToLedger, BuildCashFact, Notional, GoodReservation, GoodReservations;
  }

  lemma BookedRowsStayComplete(w: World, e: EventId, id: OrderId, w': World)
    requires Complete(w) && BookedRows(w, e, id, w')
    ensures Complete(w')
  {
    hide Sum;
    assert w'.db.reservations.Keys == w.db.reservations.Keys;
    forall other | other in w.remote ensures Accounted(w', other) && Covered(w', other) {
      assert Accounted(w, other) && Covered(w, other);
      PendingBooked(w.db, w'.db, w.trades, e, other);
    }
  }

  lemma BookKeepsComplete(w: World, e: EventId, id: OrderId, p: Parts, w': World)
    requires Consistent(w) && Complete(w) && GoodBooking(w, e, id, p, w')
    ensures Complete(w')
  {
    hide GoodBooking, Complete, BookedRows;
    GoodBookingRows(w, e, id, p, w');
    BookedRowsStayComplete(w, e, id, w');
  }

  lemma BookKeepsTotal(w: World, e: EventId, id: OrderId, p: Parts, w': World)
    requires Consistent(w) && TotalIsCached(w.db) && GoodBooking(w, e, id, p, w')
    ensures TotalIsCached(w'.db)
    ensures forall scope ::
      ActiveReserved(w'.db.reservations, scope)
      == ActiveReserved(w.db.reservations, scope)
         - (if InScope(scope, w.db.reservations[id].market) then p.released else 0.0)
  {
    var x := w.db.events[e].execution;
    assert GoodReservation(w.db, w.db.reservations[id]);
    ConsumeIsGood(w.db, w.db.reservations[id], x.size, x.price, w.db.orders[id].side);
    ReservedAtMostTotal(w, id, None);
    hide Consistent, ConsumeReservation, ApplyToLedger, BuildCashFact, Notional, GoodReservation, ActiveReserved;
    forall scope
      ensures ActiveReserved(w'.db.reservations, scope)
              == ActiveReserved(w.db.reservations, scope)
                 - (if InScope(scope, w.db.reservations[id].market) then p.released else 0.0)
    {
      ReservedWrite(w.db.reservations, id, p.consumed, scope);
    }
  }

  lemma BookKeepsCash(w: World, e: EventId, id: OrderId, p: Parts, w': World)
    requires CashIsGood(w.db) && GoodBooking(w, e, id, p, w')
    ensures CashIsGood(w'.db)
  {
    hide ConsumeReservation, ApplyToLedger, Notional;
    CashFactMatchesFill(Yes, p.fill.side, p.fill.price, p.fill.size, p.fee);
    hide BuildCashFact, NetCash;
  }

  lemma BookKeepsInv(w: World, e: EventId, id: OrderId, p: Parts, w': World)
    requires Inv(w) && GoodBooking(w, e, id, p, w')
    ensures Inv(w')
  {
    hide GoodBooking, Consistent, Complete, TotalIsCached, CashIsGood;
    BookKeepsConsistent(w, e, id, p, w');
    BookKeepsComplete(w, e, id, p, w');
    BookKeepsTotal(w, e, id, p, w');
    BookKeepsCash(w, e, id, p, w');
  }

  // ----- Money at risk ------------------------------------------------------

  lemma CapitalWrite(inventory: map<MarketId, Inventory>, m: MarketId, inv: Inventory, scope: Scope)
    requires m in inventory
    ensures CapitalUsed(inventory[m := inv], scope)
            == CapitalUsed(inventory, scope)
               + (if InScope(scope, m) then inv.book.Capital() - inventory[m].book.Capital() else 0.0)
  {
    hide Sum;
    var v := if InScope(scope, m) then inv.book.Capital() else 0.0;
    assert CapitalTable(inventory[m := inv], scope) == CapitalTable(inventory, scope)[m := v];
    SumWrite(CapitalTable(inventory, scope), m, v);
  }

  lemma FeeWrite(cash: map<EventId, CashFact>, e: EventId, c: CashFact, scope: Scope)
    requires e !in cash
    ensures BuyFees(cash[e := c], scope)
            == BuyFees(cash, scope)
               + (if c.side.Buy? && InScope(scope, c.market) && c.amounts.fee.Some? then c.amounts.fee.value else 0.0)
  {
    hide Sum;
    var v := if c.side.Buy? && InScope(scope, c.market) && c.amounts.fee.Some? then c.amounts.fee.value else 0.0;
    assert FeeTable(cash[e := c], scope) == FeeTable(cash, scope)[e := v];
    SumWrite(FeeTable(cash, scope), e, v);
  }

  /** What a fill adds to the cost basis of its market. */
  lemma CapitalOfFill(l: Ledger, f: Fill)
    requires l.Sound() && ApplyToLedger(l, f).Success?
    ensures var added := ApplyToLedger(l, f).value.Capital() - l.Capital();
            if f.side.Buy? then added == Notional(f.price, f.size) + f.fee else added <= 0.0
  {
    if f.side.Sell? {
      var b := l.On(f.outcome);
      AverageCostShare(b.capital, f.size, b.exposure);
    }
    hide Notional;
  }

  lemma BookedExposure(w: World, e: EventId, id: OrderId, w': World, scope: Scope)
    requires w.remote.Keys == w.db.reservations.Keys && BookedRows(w, e, id, w')
    requires SameTerms(w.db.reservations[id], w'.db.reservations[id])
    ensures w'.remote.Keys == w'.db.reservations.Keys
    ensures var r := w.db.reservations[id];
            Sum(ExposureTable(w', scope))
            == Sum(ExposureTable(w, scope))
               - (if r.side.Buy? && InScope(scope, r.market)
                  then Notional(r.limit, w.trades[e].execution.size) else 0.0)
    ensures Slack(w'.db.reservations, scope) == Slack(w.db.reservations, scope)
  {
    var size, r := w.trades[e].execution.size, w.db.reservations[id];
    var left := Unaccounted(w, id) - size;
    BookedTables(w, e, id, w', scope);
    SumWrite(ExposureTable(w, scope), id, RowExposure(r, scope, left));
    NotionalAdds(r.limit, left, size);
    hide Sum, Notional, BookedRows, SlackTable;
  }

  function RowExposure(r: Reservation, scope: Scope, size: int): real {
    if r.side.Buy? && InScope(scope, r.market) then Notional(r.limit, size) else 0.0
  }

  lemma BookedTables(w: World, e: EventId, id: OrderId, w': World, scope: Scope)
    requires w.remote.Keys == w.db.reservations.Keys && BookedRows(w, e, id, w')
    requires SameTerms(w.db.reservations[id], w'.db.reservations[id])
    ensures w'.remote.Keys == w'.db.reservations.Keys
    ensures ExposureTable(w', scope)
            == ExposureTable(w, scope)[id :=
                 RowExposure(w.db.reservations[id], scope, Unaccounted(w, id) - w.trades[e].execution.size)]
    ensures SlackTable(w'.db.reservations, scope) == SlackTable(w.db.reservations, scope)
  {
    hide Sum, Notional;
    assert w'.db.reservations.Keys == w.db.reservations.Keys;
    forall other | other in w.db.reservations
      ensures Unaccounted(w', other) == Unaccounted(w, other) - (if other == id then w.trades[e].execution.size else 0)
      ensures SameTerms(w.db.reservations[other], w'.db.reservations[other])
    {
    }
    hide BookedRows, Unaccounted, RowExposure;
    SameTermsTables(w, w', id, Unaccounted(w, id) - w.trades[e].execution.size, scope);
  }

  lemma SameTermsTables(w: World, w': World, id: OrderId, left: int, scope: Scope)
    requires w.remote.Keys == w.db.reservations.Keys == w'.remote.Keys == w'.db.reservations.Keys
    requires id in w.db.reservations && Unaccounted(w', id) == left
    requires forall other :: other in w.db.reservations && other != id ==> Unaccounted(w', other) == Unaccounted(w, other)
    requires forall other :: other in w.db.reservations ==> SameTerms(w.db.reservations[other], w'.db.reservations[other])
    ensures ExposureTable(w', scope) == ExposureTable(w, scope)[id := RowExposure(w.db.reservations[id], scope, left)]
    ensures SlackTable(w'.db.reservations, scope) == SlackTable(w.db.reservations, scope)
  {
    hide Unaccounted, Notional;
  }

  /** A booked fill moves money from what may still be spent to what was spent, at no
      more than the limit price, and adds only its fee. */
  lemma BookKeepsBudget(w: World, e: EventId, id: OrderId, p: Parts, w': World, settings: Settings, scope: Scope)
    requires Inv(w) && GoodBooking(w, e, id, p, w') && WithinBudget(w, settings, scope)
    ensures w'.remote.Keys == w'.db.reservations.Keys && WithinBudget(w', settings, scope)
  {
    var x := w.db.events[e].execution;
    assert GoodTrade(w, e) && GoodOrder(w, id);
    KeysAgree(w);
    BookedReservations(w, e, id, p, w');
    assert w.db.inventory[p.market].book.Sound();
    CapitalOfFill(w.db.inventory[p.market].book, p.fill);
    hide Sum, Notional, ConsumeReservation, ApplyToLedger, Consistent, Complete, CapitalUsed, BuyFees, Slack, ActiveReserved;
    CashFactMatchesFill(Yes, p.fill.side, p.fill.price, p.fill.size, p.fee);
    hide BuildCashFact, NetCash;
    GoodBookingRows(w, e, id, p, w');
    hide BookedRows;
    BookedExposure(w, e, id, w', scope);
    CapitalWrite(w.db.inventory, p.market, w'.db.inventory[p.market], scope);
    FeeWrite(w.db.cash, e, w'.db.cash[e], scope);
    if p.fill.side.Buy? {
      PriceWithinLimit(x.price, p.consumed.limit, x.size);
    }
  }

  lemma PriceWithinLimit(price: int, limit: int, size: int)
    requires 0 <= price <= limit && 0 <= size
    ensures Notional(price, size) <= Notional(limit, size)
  {
    NotionalMonotone(price, limit, size, size);
  }
}
