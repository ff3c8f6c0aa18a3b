/** What booking one execution does to every table, in plain numbers, and the fee it is charged
    in every reachable world. */
module Executions {
  import opened Common
  import opened Accounting
  import opened Fees
  import opened Rows
  import opened Transactions
  import opened Applying
  import opened World
  import opened Safety
  import opened Booking
  import opened Runs
  import opened Book
  import opened History

  /** The execution was not booked before and is afterwards. */
  ghost predicate BooksNow(w: World, w': World, e: EventId) {
    !IsBooked(w.db, e) && IsBooked(w'.db, e)
  }

  /** The order row: booked shares are added, and it is filled exactly when at most 1e-6 shares
      are left. */
  predicate OrderBooked(o: Order, o': Order, size: int) {
    && o' == o.(filled := o.filled + size, status := o'.status)
    && (if o.size - (o.filled + size) <= 100 then o'.status.Filled? else o'.status.Open?)
  }

  /** The reservation: the booked shares leave it, with their limit price, but no more than it
      holds; it stays active exactly while something is left. */
  predicate ReservationBooked(r: Reservation, r': Reservation, size: int) {
    && r' == r.(remaining := if size <= r.remaining then r.remaining - size else 0, notional := r'.notional, status := r'.status)
    && r'.notional == (if r.side.Buy? then (r.limit * r'.remaining) as real else 0.0)
    && (if r'.remaining > 0 then r'.status.Partial? else r'.status.Consumed?)
  }

  /** The ledger: a purchase adds shares at their price and fee, a sale takes them out at average
      cost and realizes the rest; the other token is untouched. */
  ghost predicate LedgerBooked(l: Ledger, l': Ledger, yes: bool, side: Side, size: int, price: int, fee: real) {
    var outcome := if yes then Yes else No;
    var b, b', other := l.On(outcome), l'.On(outcome), if yes then No else Yes;
    && l'.On(other).exposure == l.On(other).exposure && l'.On(other).capital == l.On(other).capital
    && (if side.Buy? then
          && b'.exposure == b.exposure + size
          && b'.capital == b.capital + (price * size) as real + fee
          && l'.realized == l.realized
        else
          && 0 < size <= b.exposure
          && b'.exposure == b.exposure - size
          && b'.capital == b.capital - b.capital / b.exposure as real * size as real
          && l'.realized == l.realized + (price * size) as real - fee - b.capital / b.exposure as real * size as real)
  }

  /** The cash fact: what was paid or received, and net of the fee when that is known. */
  predicate CashBooked(c: CashFact, market: MarketId, side: Side, size: int, price: int) {
    && c.market == market && c.side == side
    && c.amounts.gross == (if side.Buy? then -((price * size) as real) else (price * size) as real)
    && c.amounts.net == (if c.amounts.fee.Some? then Some(c.amounts.gross - c.amounts.fee.value) else None)
  }

  /** All tables after booking execution e of order id. */
  ghost predicate Booked(w: World, w': World, e: EventId, id: OrderId) {
    && e in w.trades && e in w.db.events && e in w'.db.events && e in w'.db.cash
    && id in w.db.orders && id in w.db.reservations && id in w'.db.orders && id in w'.db.reservations
    && var o, r, x := w.db.orders[id], w.db.reservations[id], w.trades[e].execution;
    && o.market in w.db.markets && o.market in w.db.inventory && o.market in w'.db.inventory
    && var inv, inv', fact := w.db.inventory[o.market], w'.db.inventory[o.market], w'.db.cash[e];
    && OrderBooked(o, w'.db.orders[id], x.size) && w'.db.orders == w.db.orders[id := w'.db.orders[id]]
    && ReservationBooked(r, w'.db.reservations[id], x.size)
    && w'.db.reservations == w.db.reservations[id := w'.db.reservations[id]]
    && LedgerBooked(inv.book, inv'.book, o.token == w.db.markets[o.market].yesToken, o.side, x.size, x.price,
                    if fact.amounts.fee.Some? then fact.amounts.fee.value else 0.0)
    && inv.accounting.V2? && inv'.accounting == (if fact.amounts.fee.Some? then V2 else FeeIncomplete)
    && inv'.stateVersion == inv.stateVersion + 1 && w'.db.inventory == w.db.inventory[o.market := inv']
    && CashBooked(fact, o.market, o.side, x.size, x.price) && w'.db.cash == w.db.cash[e := fact]
    && ChargedAs(x.fees, x.role, x.price, x.size, x.feeBps, fact.amounts.fee)
    && w'.db.events == w.db.events[e := FillEvent(x, Processed, Some(Booking(id, o.market, o.token, o.side, inv'.stateVersion)))]
    && w'.db.markets == w.db.markets && w'.remote == w.remote && w'.trades == w.trades && w'.pass == w.pass
  }

  // ----- When an execution is booked ----------------------------------------

  /** Everything booking an execution against an order asks for, in plain numbers. */
  ghost predicate MayBeBooked(db: Db, e: EventId, id: OrderId)
    requires e in db.events && id in db.orders
  {
    var o, x := db.orders[id], db.events[e].execution;
    var token := if x.token.Some? then x.token.value else o.token;
    && o.market in db.markets && (token == db.markets[o.market].yesToken || token == db.markets[o.market].noToken)
    && !FeeUntold(x.fees, x.role, x.price, x.size, x.feeBps)
    && x.size > 0 && 0 < x.price <= 10_000
    && o.filled + x.size <= o.size + 100
    && o.reservation.Some? && o.reservation.value in db.reservations
    && (var r := db.reservations[o.reservation.value];
        && r.Active() && r.side == o.side && (o.side.Buy? ==> x.price <= r.limit) && x.size <= r.remaining + 100)
    && o.market in db.inventory && db.inventory[o.market].accounting.V2?
    && (o.side.Sell? ==>
          var book := db.inventory[o.market].book;
          x.size <= if token == db.markets[o.market].yesToken then book.yesExposure else book.noExposure)
    && e !in db.cash
  }

  /** An execution is booked exactly when all of that holds: the market lists its token, its fee can
      be told, it fits the order and an active reservation up to 1e-6 shares, the ledger is verified
      and holds what is sold, and it has no cash fact yet. */
  lemma BookingIff(db: Db, e: EventId, id: OrderId)
    requires e in db.events && id in db.orders
    requires db.orders[id].market in db.inventory ==> db.inventory[db.orders[id].market].book.Sound()
    ensures BookFill(db, e, id).Success? <==> MayBeBooked(db, e, id)
  {
    var x := db.events[e].execution;
    FeeIsCharged(x.fees, x.role, x.price, x.size, x.feeBps);
    if ResolveFee(x.fees, x.role, x.price, x.size, x.feeBps).Success? {
      FeesAreUsable(x.fees, x.role, x.price, x.size, x.feeBps);
    }
    hide ResolveFee, FeeUntold, Notional, ChargedAs;
  }

  // ----- The pieces ---------------------------------------------------------

  lemma BookedMeansBooked(db: Db, e: EventId)
    requires !IsBooked(db, e) && IsBooked(Process(db, e).db, e)
    ensures Process(db, e).outcome.Booked?
  {
    hide BookFill;
  }

  lemma OrderIsBooked(w: World, e: EventId, id: OrderId, p: Parts, w': World)
    requires GoodBooking(w, e, id, p, w')
    ensures id in w'.db.orders && OrderBooked(w.db.orders[id], w'.db.orders[id], w.trades[e].execution.size)
    ensures w'.db.orders == w.db.orders[id := w'.db.orders[id]]
  {
    hide ConsumeReservation, ApplyToLedger, BuildCashFact, Notional;
  }

  lemma ConsumedReservation(r: Reservation, size: int, price: int, side: Side)
    requires ConsumeReservation(r, size, price, side).Success?
    requires 0 <= r.limit && 0 <= r.remaining && r.notional == (if r.side.Buy? then Notional(r.limit, r.remaining) else 0.0)
    ensures ReservationBooked(r, ConsumeReservation(r, size, price, side).value.0, size)
  {
    if r.side.Buy? {
      if size <= r.remaining {
        NotionalAdds(r.limit, size, r.remaining - size);
        NotionalMonotone(r.limit, r.limit, 0, r.remaining - size);
        NotionalMonotone(r.limit, r.limit, 0, size);
      } else {
        NotionalMonotone(r.limit, r.limit, r.remaining, size);
        NotionalOfNothing(r.limit);
      }
    }
    assert forall n :: Notional(r.limit, n) == (r.limit * n) as real;
    hide Notional;
  }

  lemma ReservationIsBooked(w: World, e: EventId, id: OrderId, p: Parts, w': World)
    requires Inv(w) && GoodBooking(w, e, id, p, w')
    ensures id in w'.db.reservations && ReservationBooked(w.db.reservations[id], w'.db.reservations[id], w.trades[e].execution.size)
    ensures w'.db.reservations == w.db.reservations[id := w'.db.reservations[id]]
  {
    hide Inv, ApplyToLedger, BuildCashFact, Notional, ConsumeReservation, ReservationBooked;
    RowFacts(w, e, id);
    var x := w.trades[e].execution;
    GoodTerms(w.db, w.db.reservations[id]);
    ConsumedReservation(w.db.reservations[id], x.size, x.price, w.db.orders[id].side);
  }

  lemma GoodTerms(db: Db, r: Reservation)
    requires GoodReservation(db, r)
    ensures 0 <= r.limit && 0 <= r.remaining && r.notional == (if r.side.Buy? then Notional(r.limit, r.remaining) else 0.0)
  {
  }

  lemma FilledLedger(l: Ledger, f: Fill)
    requires l.Sound() && ApplyToLedger(l, f).Success?
    ensures LedgerBooked(l, ApplyToLedger(l, f).value, f.outcome.Yes?, f.side, f.size, f.price, f.fee)
  {
    var b := l.On(f.outcome);
    if f.side.Sell? {
      AverageCostShare(b.capital, f.size, b.exposure);
    }
    assert Notional(f.price, f.size) == (f.price * f.size) as real;
    hide Notional;
  }

  /** The market and token of a booking are those of its order. */
  lemma LedgerIsBooked(w: World, e: EventId, id: OrderId, p: Parts, w': World)
    requires Inv(w) && GoodBooking(w, e, id, p, w')
    ensures var o, x := w.db.orders[id], w.trades[e].execution;
            && o.market in w.db.markets && o.market in w.db.inventory && o.market in w'.db.inventory
            && LedgerBooked(w.db.inventory[o.market].book, w'.db.inventory[o.market].book,
                            o.token == w.db.markets[o.market].yesToken, o.side, x.size, x.price,
                            if p.fee.Some? then p.fee.value else 0.0)
            && w.db.inventory[o.market].accounting.V2?
            && w'.db.inventory[o.market].accounting == (if p.fee.Some? then V2 else FeeIncomplete)
            && w'.db.inventory[o.market].stateVersion == w.db.inventory[o.market].stateVersion + 1
            && w'.db.inventory == w.db.inventory[o.market := w'.db.inventory[o.market]]
            && p.token == o.token && p.market == o.market
  {
    hide Inv, ApplyToLedger, BuildCashFact, Notional, ConsumeReservation, LedgerBooked, GoodReservation;
    RowFacts(w, e, id);
    BookedLedgerIsSound(w, e, id, p, w');
    FilledLedger(w.db.inventory[p.market].book, p.fill);
  }

  lemma CashIsBooked(w: World, e: EventId, id: OrderId, p: Parts, w': World)
    requires GoodBooking(w, e, id, p, w')
    ensures e in w'.db.cash && w'.db.cash == w.db.cash[e := w'.db.cash[e]] && w'.db.cash[e].amounts.fee == p.fee
    ensures CashBooked(w'.db.cash[e], w.db.orders[id].market, w.db.orders[id].side, w.trades[e].execution.size, w.trades[e].execution.price)
  {
    hide ApplyToLedger, ConsumeReservation;
  }

  /** The fee a booking writes is the one its execution is charged. */
  lemma BookedFee(db: Db, e: EventId, id: OrderId)
    requires e in db.events && id in db.orders && BookFill(db, e, id).Success?
    ensures e in BookFill(db, e, id).value.cash
    ensures var x := db.events[e].execution;
            ChargedAs(x.fees, x.role, x.price, x.size, x.feeBps, BookFill(db, e, id).value.cash[e].amounts.fee)
  {
    var x := db.events[e].execution;
    FeeIsCharged(x.fees, x.role, x.price, x.size, x.feeBps);
    hide ResolveFee, ChargedAs, FeeUntold, ApplyToLedger, ConsumeReservation, Notional;
  }

  lemma RestIsKept(w: World, e: EventId, id: OrderId, p: Parts, w': World)
    requires GoodBooking(w, e, id, p, w')
    ensures w'.db.markets == w.db.markets && w'.remote == w.remote && w'.trades == w.trades && w'.pass == w.pass
    ensures w.db.orders[id].market in w.db.inventory
    ensures w'.db.events == w.db.events[e := FillEvent(w.trades[e].execution, Processed,
                Some(Booking(id, w.db.orders[id].market, p.token, w.db.orders[id].side,
                             w.db.inventory[w.db.orders[id].market].stateVersion + 1)))]
  {
    hide ApplyToLedger, ConsumeReservation, BuildCashFact, Notional;
  }

  /** Booking an execution, table by table. */
  lemma BookingInFull(w: World, settings: Settings, e: EventId, w': World) returns (id: OrderId)
    requires Inv(w) && w' == Next(w, settings, Attempt(e)) && BooksNow(w, w', e)
    ensures e in w.trades && id == w.trades[e].order
    ensures Booked(w, w', e, id)
  {
    hide Inv, Process, Consistent, GoodOrders, GoodEvents, GoodBooking, BookFill, OrderBooked, ReservationBooked, LedgerBooked,
      CashBooked, ChargedAs;
    InvKeys(w);
    BookedMeansBooked(w.db, e);
    var p;
    id, p := BookedAttempt(w, e);
    TradedTo(w, e, id, p, w');
    OrderIsBooked(w, e, id, p, w');
    ReservationIsBooked(w, e, id, p, w');
    LedgerIsBooked(w, e, id, p, w');
    CashIsBooked(w, e, id, p, w');
    RestIsKept(w, e, id, p, w');
    BookedFee(w.db, e, id);
  }

  lemma TradedTo(w: World, e: EventId, id: OrderId, p: Parts, w': World)
    requires GoodBooking(w, e, id, p, w')
    ensures e in w.trades && w.trades[e].order == id && e in w.db.events && w.db.events[e].execution == w.trades[e].execution
    ensures id in w.db.orders && id in w.db.reservations
  {
    hide ApplyToLedger, ConsumeReservation, BuildCashFact, Notional;
  }

  /** An order that is not yet filled is looked at by the next reconciliation pass. */
  lemma PartlyFilledIsReviewed(w: World, settings: Settings, e: EventId, w': World)
    requires Inv(w) && w' == Next(w, settings, Attempt(e)) && BooksNow(w, w', e)
    ensures e in w.trades && w.trades[e].order in w.db.orders
    ensures var o := w.db.orders[w.trades[e].order];
            o.size - o.filled - w.trades[e].execution.size > 100 ==> Reviewed(w', settings, w.trades[e].order)
  {
    hide Inv, Process, Next, LedgerBooked, ReservationBooked, CashBooked, ChargedAs;
    var id := BookingInFull(w, settings, e, w');
    if w'.db.orders[id].status.Open? {
      OpenIsReviewed(w', settings, id);
    }
  }

  /** A pass that begins now looks at the order. */
  ghost predicate Reviewed(w: World, settings: Settings, id: OrderId) {
    id in Next(w, settings, BeginPass).pass.locals
  }

  lemma OpenIsReviewed(w: World, settings: Settings, id: OrderId)
    requires id in w.db.orders && w.db.orders[id].status.Open?
    ensures Reviewed(w, settings, id)
  {
  }

  // ----- Every booked fee ---------------------------------------------------

  /** Every processed row was charged the fee of its execution. */
  ghost predicate FeesAreCharged(db: Db) {
    forall e :: IsBooked(db, e) ==>
      e in db.cash
      && var x := db.events[e].execution;
         ChargedAs(x.fees, x.role, x.price, x.size, x.feeBps, db.cash[e].amounts.fee)
  }

  lemma AttemptKeepsFees(w: World, e: EventId)
    requires Consistent(w) && FeesAreCharged(w.db)
    ensures FeesAreCharged(Process(w.db, e).db)
  {
    hide Consistent, BookFill, ChargedAs;
    if Process(w.db, e).outcome.Booked? {
      var id, p := BookedAttempt(w, e);
      BookedFee(w.db, e, id);
      CashIsBooked(w, e, id, p, w.(db := Process(w.db, e).db));
      RestIsKept(w, e, id, p, w.(db := Process(w.db, e).db));
      TradedTo(w, e, id, p, w.(db := Process(w.db, e).db));
      hide Process, GoodBooking;
    }
  }

  lemma SameHistoryKeepsFees(db: Db, db': Db)
    requires SameHistory(db, db') && FeesAreCharged(db)
    ensures FeesAreCharged(db')
  {
    hide ChargedAs;
  }

  lemma OverwriteKeepsFees(db: Db, market: MarketId, actual: Position)
    requires FeesAreCharged(db)
    ensures FeesAreCharged(Overwrite(db, market, actual))
  {
    hide ChargedAs, ReconcileCapital;
  }

  lemma StepKeepsFees(w: World, settings: Settings, s: Step)
    requires Inv(w) && Enabled(w, s) && FeesAreCharged(w.db)
    ensures FeesAreCharged(Next(w, settings, s).db)
  {
    hide Consistent, Complete, FeesAreCharged, Process, Overwrite, SameHistory;
    if s.Attempt? {
      AttemptKeepsFees(w, s.e);
    } else if s.OverwriteStep? {
      OverwriteKeepsFees(w.db, s.market, s.actual);
    } else {
      OtherStepSameHistory(w, settings, s);
      SameHistoryKeepsFees(w.db, Next(w, settings, s).db);
    }
  }

  /** In every reachable world every processed execution was charged its fee: an explicit one
      if there is one, nothing for a maker, the schedule's for a taker whose rate is known, and
      an unknown fee otherwise. */
  lemma {:induction false} RunKeepsFees(worlds: seq<World>, steps: seq<Step>, settings: Settings, n: nat)
    requires Run(worlds, steps, settings) && n <= |steps|
    ensures FeesAreCharged(worlds[n].db)
  {
    hide Inv, Enabled, Next, FeesAreCharged;
    if n == 0 {
      NothingCharged(worlds[0]);
    } else {
      RunKeepsFees(worlds, steps, settings, n - 1);
      hide Init;
      RunKeepsInv(worlds, steps, settings, n - 1);
      StepKeepsFees(worlds[n - 1], settings, steps[n - 1]);
    }
  }

  lemma NothingCharged(w: World)
    requires Init(w)
    ensures FeesAreCharged(w.db)
  {
  }
}
