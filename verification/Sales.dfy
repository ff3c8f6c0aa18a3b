/** Inventory is never promised twice: over every run without an external overwrite, racing
    reconciliation passes included, all that may still be sold of a token is held. */
module Sales {
  import opened Common
  import opened Accounting
  import opened Fees
  import opened Rows
  import opened Transactions
  import opened World
  import opened Safety
  import opened Booking
  import opened Runs
  import opened Book

  predicate SaleOf(r: Reservation, m: MarketId, t: TokenId) {
    r.side.Sell? && r.market == m && r.token == t
  }

  ghost function SalesTable(w: World, m: MarketId, t: TokenId): map<OrderId, real>
    requires w.remote.Keys == w.db.reservations.Keys
  {
    map id | id in w.db.reservations :: if SaleOf(w.db.reservations[id], m, t) then Unaccounted(w, id) as real else 0.0
  }

  /** Shares of a token that sales have been, or may still be, matched for without being booked. */
  ghost function OutstandingSales(w: World, m: MarketId, t: TokenId): real
    requires w.remote.Keys == w.db.reservations.Keys
  {
    Sum(SalesTable(w, m, t))
  }

  ghost function SaleSlackTable(rs: map<OrderId, Reservation>, m: MarketId, t: TokenId): map<OrderId, real> {
    map id | id in rs :: if SaleOf(rs[id], m, t) then SIZE_TOLERANCE as real else 0.0
  }

  /** The matching tolerance of 1e-6 shares per SELL order of the token. */
  ghost function SaleSlack(rs: map<OrderId, Reservation>, m: MarketId, t: TokenId): real {
    Sum(SaleSlackTable(rs, m, t))
  }

  ghost predicate SalesHeld(w: World) {
    && w.remote.Keys == w.db.reservations.Keys
    && forall m, t :: m in w.db.markets && m in w.db.inventory && w.db.markets[m].Lists(t) ==> TokenHeld(w, m, t)
  }

  ghost predicate TokenHeld(w: World, m: MarketId, t: TokenId)
    requires w.remote.Keys == w.db.reservations.Keys && m in w.db.markets && m in w.db.inventory
  {
    OutstandingSales(w, m, t) <= ExposureOf(w.db, m, t) as real + SaleSlack(w.db.reservations, m, t)
  }

  // ----- Steps that grant, book and overwrite nothing -----------------------

  lemma FrameKeepsSales(w: World, w': World)
    requires RiskFrame(w, w') && SalesHeld(w)
    ensures SalesHeld(w')
  {
    hide Sum, Notional, TokenHeld, Unaccounted;
    forall m, t | m in w'.db.markets && m in w'.db.inventory && w'.db.markets[m].Lists(t) ensures TokenHeld(w', m, t) {
      assert TokenHeld(w, m, t);
      FrameKeepsToken(w, w', m, t);
    }
  }

  lemma FrameKeepsToken(w: World, w': World, m: MarketId, t: TokenId)
    requires RiskFrame(w, w') && m in w.db.markets && m in w.db.inventory && TokenHeld(w, m, t)
    ensures TokenHeld(w', m, t)
  {
    hide Sum, Unaccounted;
    forall id | id in w.db.reservations
      ensures SalesTable(w', m, t)[id] <= SalesTable(w, m, t)[id]
      ensures SaleSlackTable(w'.db.reservations, m, t)[id] == SaleSlackTable(w.db.reservations, m, t)[id]
    {
      assert RowRiskFrame(w, w', id);
    }
    assert SaleSlackTable(w'.db.reservations, m, t) == SaleSlackTable(w.db.reservations, m, t);
    SumMonotone(SalesTable(w', m, t), SalesTable(w, m, t));
  }

  // ----- New reservations ---------------------------------------------------

  /** All that may still be sold is promised, up to the tolerance per order. */
  lemma PromisesCoverSales(w: World, m: MarketId, t: TokenId)
    requires Inv(w)
    ensures w.remote.Keys == w.db.reservations.Keys
    ensures OutstandingSales(w, m, t) <= PromisedShares(w.db.reservations, m, t) + SaleSlack(w.db.reservations, m, t)
  {
    hide Inv, Sum;
    InvKeys(w);
    hide Consistent, GoodOrders, GoodEvents;
    var rs := w.db.reservations;
    var both := map id | id in rs :: PromisedTable(rs, m, t)[id] + SaleSlackTable(rs, m, t)[id];
    assert both.Keys == PromisedTable(rs, m, t).Keys == SaleSlackTable(rs, m, t).Keys;
    SumAdds(PromisedTable(rs, m, t), SaleSlackTable(rs, m, t), both);
    forall id | id in rs ensures SalesTable(w, m, t)[id] <= both[id] {
      RowCoverage(w, id);
    }
    assert SalesTable(w, m, t).Keys == both.Keys;
    SumMonotone(SalesTable(w, m, t), both);
  }

  lemma RowCoverage(w: World, id: OrderId)
    requires Inv(w) && id in w.db.reservations
    ensures id in w.remote && Unaccounted(w, id) <= w.db.reservations[id].remaining + SIZE_TOLERANCE
    ensures !w.db.reservations[id].Active() ==> w.db.reservations[id].remaining == 0
  {
    hide Notional;
    assert GoodReservation(w.db, w.db.reservations[id]) && Covered(w, id);
  }

  function NewSale(r: Reservation, m: MarketId, t: TokenId): int {
    if SaleOf(r, m, t) then r.original else 0
  }

  /** All rows but one keep their terms and quantities. */
  ghost predicate OneRowMoves(w: World, w': World, id: OrderId)
    requires w.remote.Keys == w.db.reservations.Keys && w'.remote.Keys == w'.db.reservations.Keys
  {
    && w'.db.reservations.Keys == w.db.reservations.Keys + {id}
    && (forall other :: other in w.db.reservations && other != id ==>
          Unaccounted(w', other) == Unaccounted(w, other)
          && SameTerms(w.db.reservations[other], w'.db.reservations[other]))
  }

  lemma SalesWrite(w: World, w': World, id: OrderId, m: MarketId, t: TokenId)
    requires w.remote.Keys == w.db.reservations.Keys && w'.remote.Keys == w'.db.reservations.Keys
    requires OneRowMoves(w, w', id)
    ensures OutstandingSales(w', m, t)
            == OutstandingSales(w, m, t)
               - (if id in w.db.reservations && SaleOf(w.db.reservations[id], m, t) then Unaccounted(w, id) as real else 0.0)
               + (if SaleOf(w'.db.reservations[id], m, t) then Unaccounted(w', id) as real else 0.0)
    ensures SaleSlack(w'.db.reservations, m, t)
            == SaleSlack(w.db.reservations, m, t)
               - (if id in w.db.reservations && SaleOf(w.db.reservations[id], m, t) then SIZE_TOLERANCE as real else 0.0)
               + (if SaleOf(w'.db.reservations[id], m, t) then SIZE_TOLERANCE as real else 0.0)
  {
    hide Sum, Unaccounted;
    var v := if SaleOf(w'.db.reservations[id], m, t) then Unaccounted(w', id) as real else 0.0;
    var slack := if SaleOf(w'.db.reservations[id], m, t) then SIZE_TOLERANCE as real else 0.0;
    assert SalesTable(w', m, t) == SalesTable(w, m, t)[id := v];
    assert SaleSlackTable(w'.db.reservations, m, t) == SaleSlackTable(w.db.reservations, m, t)[id := slack];
    SumWrite(SalesTable(w, m, t), id, v);
    SumWrite(SaleSlackTable(w.db.reservations, m, t), id, slack);
  }

  lemma GrantMovesOneRow(w: World, id: OrderId, r: Reservation, total: real, w': World)
    requires Inv(w) && Granting(w, id, r, total, w')
    ensures w.remote.Keys == w.db.reservations.Keys && w'.remote.Keys == w'.db.reservations.Keys
    ensures OneRowMoves(w, w', id) && Unaccounted(w', id) == r.original
    ensures id !in w.db.reservations && w'.db.reservations[id] == r
  {
    hide Inv, GoodReservation, Consistent, GoodOrders, GoodEvents;
    InvKeys(w);
    NoOrderNoTrades(w, id);
    assert w'.remote.Keys == w.remote.Keys + {id};
    assert w'.db.reservations.Keys == w.db.reservations.Keys + {id};
  }

  lemma GrantedSales(w: World, id: OrderId, r: Reservation, total: real, w': World, m: MarketId, t: TokenId)
    requires Inv(w) && Granting(w, id, r, total, w')
    ensures w.remote.Keys == w.db.reservations.Keys && w'.remote.Keys == w'.db.reservations.Keys
    ensures OutstandingSales(w', m, t) == OutstandingSales(w, m, t) + NewSale(r, m, t) as real
    ensures SaleSlack(w'.db.reservations, m, t) >= SaleSlack(w.db.reservations, m, t)
  {
    hide Inv, Granting, OneRowMoves, OutstandingSales, SaleSlack, Unaccounted;
    GrantMovesOneRow(w, id, r, total, w');
    SalesWrite(w, w', id, m, t);
  }

  lemma BuyGrantKeepsSales(w: World, settings: Settings, s: Step)
    requires Inv(w) && SalesHeld(w) && Enabled(w, s) && s.ReserveBuyStep?
    ensures SalesHeld(Next(w, settings, s))
  {
    hide Inv, SalesHeld, Granting, ActiveReserved, CapitalUsed, Notional;
    var w' := Next(w, settings, s);
    if ReserveBuy(w.db, settings, s.id, s.market, s.token, s.limit, s.size).Granted? {
      var r := NewReservation(s.market, s.token, Buy, s.limit, s.size);
      var total := ActiveReserved(w.db.reservations, None) + Notional(s.limit, s.size);
      AdmittedFits(w, s.id, s.market, s.token, s.limit, s.size, settings);
      GrantKeepsSales(w, s.id, r, total, w');
    }
  }

  lemma SellGrantKeepsSales(w: World, settings: Settings, s: Step)
    requires Inv(w) && SalesHeld(w) && Enabled(w, s) && s.ReserveSellStep?
    ensures SalesHeld(Next(w, settings, s))
  {
    hide Inv, SalesHeld, PromisedShares, Notional;
    var w' := Next(w, settings, s);
    if ReserveSell(w.db, s.id, s.market, s.token, s.limit, s.size).Granted? {
      var r := NewReservation(s.market, s.token, Sell, s.limit, s.size);
      assert Granting(w, s.id, r, w.db.reservedTotal, w');
      assert PromisedShares(w.db.reservations, s.market, s.token) + s.size as real <= ExposureOf(w.db, s.market, s.token) as real;
      hide Granting, ReserveSell, Next, Enabled;
      GrantKeepsSales(w, s.id, r, w.db.reservedTotal, w');
    }
  }

  /** A grant keeps sales held if what it sells is not promised yet. */
  lemma GrantKeepsSales(w: World, id: OrderId, r: Reservation, total: real, w': World)
    requires Inv(w) && SalesHeld(w) && Granting(w, id, r, total, w')
    requires r.side.Sell? ==> r.market in w.db.markets && r.market in w.db.inventory
    requires r.side.Sell? ==> PromisedShares(w.db.reservations, r.market, r.token) + r.original as real
                              <= ExposureOf(w.db, r.market, r.token) as real
    ensures SalesHeld(w')
  {
    hide Inv, PromisedShares, OutstandingSales, SaleSlack, GoodReservation;
    forall m, t | m in w'.db.markets && m in w'.db.inventory && w'.db.markets[m].Lists(t)
      ensures w'.remote.Keys == w'.db.reservations.Keys && TokenHeld(w', m, t)
    {
      assert TokenHeld(w, m, t);
      GrantedSales(w, id, r, total, w', m, t);
      PromisesCoverSales(w, m, t);
    }
    GrantedSales(w, id, r, total, w', 0, 0);
  }

  // ----- Booked fills -------------------------------------------------------

  lemma BookingMovesOneRow(w: World, e: EventId, id: OrderId, w': World)
    requires w.remote.Keys == w.db.reservations.Keys && BookedRows(w, e, id, w')
    requires SameTerms(w.db.reservations[id], w'.db.reservations[id])
    ensures w'.remote.Keys == w'.db.reservations.Keys == w.db.reservations.Keys
    ensures OneRowMoves(w, w', id) && Unaccounted(w', id) == Unaccounted(w, id) - w.trades[e].execution.size
  {
    assert w'.db.reservations.Keys == w.db.reservations.Keys;
  }

  lemma BookedSales(w: World, e: EventId, id: OrderId, w': World, m: MarketId, t: TokenId)
    requires w.remote.Keys == w.db.reservations.Keys && BookedRows(w, e, id, w')
    requires SameTerms(w.db.reservations[id], w'.db.reservations[id])
    ensures w'.remote.Keys == w'.db.reservations.Keys
    ensures OutstandingSales(w', m, t)
            == OutstandingSales(w, m, t) - (if SaleOf(w.db.reservations[id], m, t) then w.trades[e].execution.size as real else 0.0)
    ensures SaleSlack(w'.db.reservations, m, t) == SaleSlack(w.db.reservations, m, t)
  {
    hide BookedRows, OneRowMoves, OutstandingSales, SaleSlack, Unaccounted;
    BookingMovesOneRow(w, e, id, w');
    SalesWrite(w, w', id, m, t);
  }

  /** A booking takes from the position exactly what it takes from the outstanding sales. */
  lemma BookingKeepsSales(w: World, e: EventId, id: OrderId, p: Parts, w': World)
    requires Inv(w) && SalesHeld(w) && GoodBooking(w, e, id, p, w')
    ensures SalesHeld(w')
  {
    hide Inv, BookedRows, OutstandingSales, SaleSlack, GoodBooking, Consistent, GoodOrders, GoodEvents, TokenHeld;
    InvKeys(w);
    SoldTerms(w, e, id, p, w');
    BookedSales(w, e, id, w', 0, 0);
    forall m, t | m in w'.db.markets && m in w'.db.inventory && w'.db.markets[m].Lists(t) ensures TokenHeld(w', m, t) {
      PositionAfterBooking(w, e, id, p, w', m, t);
      assert TokenHeld(w, m, t);
      BookedSales(w, e, id, w', m, t);
      BookingKeepsToken(w, e, id, w', m, t);
    }
  }

  lemma BookingKeepsToken(w: World, e: EventId, id: OrderId, w': World, m: MarketId, t: TokenId)
    requires w.remote.Keys == w.db.reservations.Keys && w'.remote.Keys == w'.db.reservations.Keys
    requires m in w.db.markets && m in w.db.inventory && m in w'.db.markets && m in w'.db.inventory
    requires TokenHeld(w, m, t) && id in w.db.reservations && e in w.trades
    requires var sold := if SaleOf(w.db.reservations[id], m, t) then w.trades[e].execution.size else 0;
             && ExposureOf(w'.db, m, t) >= ExposureOf(w.db, m, t) - sold
             && OutstandingSales(w', m, t) == OutstandingSales(w, m, t) - sold as real
    requires SaleSlack(w'.db.reservations, m, t) == SaleSlack(w.db.reservations, m, t)
    ensures TokenHeld(w', m, t)
  {
    hide OutstandingSales, SaleSlack, ExposureOf;
  }

  /** A position loses at most what the booked order sells of this very token. */
  lemma PositionAfterBooking(w: World, e: EventId, id: OrderId, p: Parts, w': World, m: MarketId, t: TokenId)
    requires Inv(w) && GoodBooking(w, e, id, p, w')
    requires m in w'.db.markets && m in w'.db.inventory && w'.db.markets[m].Lists(t)
    ensures m in w.db.markets && m in w.db.inventory && w.db.markets[m].Lists(t) && id in w.db.reservations && e in w.trades
    ensures ExposureOf(w'.db, m, t)
            >= ExposureOf(w.db, m, t) - (if SaleOf(w.db.reservations[id], m, t) then w.trades[e].execution.size else 0)
  {
    hide Inv, GoodBooking, ApplyToLedger;
    SoldTerms(w, e, id, p, w');
    TablesInNumbers(w, e, id, p, w');
    ExposureAfterFill(w.db.inventory[p.market].book, p.fill);
  }

  /** The fill is a fill of the order's own token and side. */
  lemma SoldTerms(w: World, e: EventId, id: OrderId, p: Parts, w': World)
    requires Inv(w) && GoodBooking(w, e, id, p, w')
    ensures BookedRows(w, e, id, w') && SameTerms(w.db.reservations[id], w'.db.reservations[id])
    ensures p.market in w.db.markets && w.db.markets[p.market].Lists(p.token)
    ensures var r := w.db.reservations[id];
            && p.market == r.market && p.token == r.token && p.fill.side == r.side && p.fill.size == w.trades[e].execution.size > 0
            && p.fill.outcome == w.db.markets[p.market].OutcomeOf(p.token)
            && w.db.markets[p.market].yesToken != w.db.markets[p.market].noToken
  {
    hide Inv, ConsumeReservation, ApplyToLedger, BuildCashFact, Notional, GoodReservation;
    RowFacts(w, e, id);
    DistinctTokens(w, p.market);
    InvKeys(w);
    ReservationsAreGood(w);
    GoodBookingRows(w, e, id, p, w');
    BookedReservations(w, e, id, p, w');
  }

  lemma ReservationsAreGood(w: World)
    requires Consistent(w)
    ensures GoodReservations(w)
  {
  }

  lemma DistinctTokens(w: World, m: MarketId)
    requires Inv(w)
    ensures m in w.db.markets ==> w.db.markets[m].yesToken != w.db.markets[m].noToken
  {
  }

  // ----- Runs ---------------------------------------------------------------

  lemma StepKeepsSales(w: World, settings: Settings, s: Step)
    requires Inv(w) && SalesHeld(w) && Enabled(w, s) && !s.OverwriteStep?
    ensures SalesHeld(Next(w, settings, s))
  {
    hide Inv, SalesHeld, RiskFrame, Keeps, ReserveBuy, ReserveSell, Process;
    if s.ReserveBuyStep? {
      BuyGrantKeepsSales(w, settings, s);
    } else if s.ReserveSellStep? {
      SellGrantKeepsSales(w, settings, s);
    } else if s.Attempt? {
      AttemptKeepsSales(w, s.e);
    } else {
      StepKeeps(w, settings, None, s);
      FrameKeepsSales(w, Next(w, settings, s));
    }
  }

  lemma AttemptKeepsSales(w: World, e: EventId)
    requires Inv(w) && SalesHeld(w)
    ensures SalesHeld(w.(db := Process(w.db, e).db))
  {
    hide Inv, SalesHeld, RiskFrame, Keeps, Process, GoodBooking, Consistent, GoodOrders, GoodEvents, BookFill;
    InvKeys(w);
    var w' := w.(db := Process(w.db, e).db);
    if Process(w.db, e).outcome.Booked? {
      var id, p := BookedAttempt(w, e);
      BookingKeepsSales(w, e, id, p, w');
    } else {
      AttemptKeeps(w, Settings(0.0, 0.0), None, e);
      FrameKeepsSales(w, w');
    }
  }

  lemma InitSales(w: World)
    requires Init(w)
    ensures SalesHeld(w)
  {
    forall m, t | m in w.db.markets && m in w.db.inventory && w.db.markets[m].Lists(t) ensures TokenHeld(w, m, t) {
      SumOfZeros(SalesTable(w, m, t));
      SumOfZeros(SaleSlackTable(w.db.reservations, m, t));
    }
  }

  lemma {:induction false} RunKeepsSales(worlds: seq<World>, steps: seq<Step>, settings: Settings, n: nat)
    requires Run(worlds, steps, settings) && n <= |steps|
    requires forall i :: 0 <= i < n ==> !steps[i].OverwriteStep?
    ensures SalesHeld(worlds[n])
  {
    hide Inv, Enabled, Next, Init, SalesHeld;
    if n == 0 {
      InitSales(worlds[0]);
    } else {
      RunKeepsSales(worlds, steps, settings, n - 1);
      RunKeepsInv(worlds, steps, settings, n - 1);
      StepKeepsSales(worlds[n - 1], settings, steps[n - 1]);
    }
  }

  /** Inventory is never promised twice. In every world of every run without an external
      overwrite, all shares of a token that sales were, or may still be, matched for without
      being booked are held, up to 1e-6 shares per SELL order of the token. */
  lemma InventoryIsNeverSoldTwice(
    worlds: seq<World>, steps: seq<Step>, settings: Settings, n: nat, m: MarketId, t: TokenId)
    requires Run(worlds, steps, settings) && n <= |steps|
    requires forall i :: 0 <= i < n ==> !steps[i].OverwriteStep?
    requires m in worlds[n].db.markets && m in worlds[n].db.inventory && worlds[n].db.markets[m].Lists(t)
    ensures worlds[n].remote.Keys == worlds[n].db.reservations.Keys
    ensures OutstandingSales(worlds[n], m, t)
            <= ExposureOf(worlds[n].db, m, t) as real + SaleSlack(worlds[n].db.reservations, m, t)
  {
    hide Enabled, Next, Init, OutstandingSales, SaleSlack, ExposureOf;
    RunKeepsSales(worlds, steps, settings, n);
    assert TokenHeld(worlds[n], m, t);
  }

  // ----- Runs with overwrites -----------------------------------------------

  /** The position an overwrite reports for a token. */
  function Reported(m: Market, actual: Position, t: TokenId): int {
    if m.OutcomeOf(t).Yes? then actual.yes else actual.no
  }

  /** An overwrite that leaves every outstanding sale of its market held. */
  ghost predicate OverwriteCovers(w: World, s: Step) {
    s.OverwriteStep? && s.market in w.db.markets && s.market in w.db.inventory && w.remote.Keys == w.db.reservations.Keys ==>
      forall t :: w.db.markets[s.market].Lists(t) ==>
        OutstandingSales(w, s.market, t)
        <= Reported(w.db.markets[s.market], s.actual, t) as real + SaleSlack(w.db.reservations, s.market, t)
  }

  /** An overwrite changes positions of its own market and nothing a sale depends on. */
  lemma OverwrittenToken(w: World, settings: Settings, s: Step, m: MarketId, t: TokenId)
    requires w.remote.Keys == w.db.reservations.Keys && Enabled(w, s) && s.OverwriteStep?
    requires m in w.db.markets && m in w.db.inventory
    ensures var w' := Next(w, settings, s);
            && w'.remote.Keys == w'.db.reservations.Keys && w'.db.markets == w.db.markets
            && w'.db.inventory.Keys == w.db.inventory.Keys
            && OutstandingSales(w', m, t) == OutstandingSales(w, m, t)
            && SaleSlack(w'.db.reservations, m, t) == SaleSlack(w.db.reservations, m, t)
            && ExposureOf(w'.db, m, t) == (if m == s.market then Reported(w.db.markets[m], s.actual, t) else ExposureOf(w.db, m, t))
  {
    hide Sum, Overwrite, OverwrittenCapital, Next, Enabled;
    OverwriteForm(w, settings, s);
    var w' := Next(w, settings, s);
    assert SalesTable(w', m, t) == SalesTable(w, m, t);
    if s.market in w.db.inventory {
      OverwrittenInventory(w.db, s.market, s.actual);
    } else {
      NoOverwrite(w.db, s.market, s.actual);
    }
  }

  /** One step keeps all outstanding sales held if and only if it is not an overwrite that takes
      away shares some sale still needs. */
  lemma StepKeepsSalesIff(w: World, settings: Settings, s: Step)
    requires Inv(w) && SalesHeld(w) && Enabled(w, s)
    ensures SalesHeld(Next(w, settings, s)) <==> OverwriteCovers(w, s)
  {
    hide Inv, Enabled, Next, OutstandingSales, SaleSlack, ExposureOf, Reported;
    if s.OverwriteStep? {
      OverwriteTables(w, settings, s);
      forall m, t | m in w.db.markets && m in w.db.inventory
        ensures TokenHeld(Next(w, settings, s), m, t)
           <==> OutstandingSales(w, m, t)
                <= (if m == s.market then Reported(w.db.markets[m], s.actual, t) else ExposureOf(w.db, m, t)) as real
                   + SaleSlack(w.db.reservations, m, t)
      {
        OverwrittenToken(w, settings, s, m, t);
      }
      SalesHeldAfterOverwrite(w, Next(w, settings, s), s);
    } else {
      StepKeepsSales(w, settings, s);
    }
  }

  lemma OverwriteTables(w: World, settings: Settings, s: Step)
    requires Enabled(w, s) && s.OverwriteStep?
    ensures var w' := Next(w, settings, s);
            && w'.remote == w.remote && w'.db.reservations == w.db.reservations && w'.db.markets == w.db.markets
            && w'.db.inventory.Keys == w.db.inventory.Keys
  {
    hide ReconcileCapital;
  }

  lemma SalesHeldAfterOverwrite(w: World, w': World, s: Step)
    requires SalesHeld(w) && s.OverwriteStep?
    requires w'.remote == w.remote && w'.db.reservations == w.db.reservations && w'.db.markets == w.db.markets
    requires w'.db.inventory.Keys == w.db.inventory.Keys
    requires forall m, t :: m in w.db.markets && m in w.db.inventory ==>
               (TokenHeld(w', m, t)
                <==> OutstandingSales(w, m, t)
                     <= (if m == s.market then Reported(w.db.markets[m], s.actual, t) else ExposureOf(w.db, m, t)) as real
                        + SaleSlack(w.db.reservations, m, t))
    ensures SalesHeld(w') <==> OverwriteCovers(w, s)
  {
    hide OutstandingSales, SaleSlack, ExposureOf, Reported;
    if OverwriteCovers(w, s) {
      forall m, t | m in w'.db.markets && m in w'.db.inventory && w'.db.markets[m].Lists(t) ensures TokenHeld(w', m, t) {
        assert TokenHeld(w, m, t);
      }
    }
    if SalesHeld(w') && s.market in w.db.markets && s.market in w.db.inventory {
      forall t | w.db.markets[s.market].Lists(t)
        ensures OutstandingSales(w, s.market, t)
                <= Reported(w.db.markets[s.market], s.actual, t) as real + SaleSlack(w.db.reservations, s.market, t) {
        assert TokenHeld(w', s.market, t);
      }
    }
  }

  /** Over every run, overwrites included: all outstanding sales are held in every world if and
      only if every overwrite reports at least the shares that sales still need. */
  lemma SalesHoldIff(worlds: seq<World>, steps: seq<Step>, settings: Settings)
    requires Run(worlds, steps, settings)
    ensures (forall i :: 0 <= i < |worlds| ==> SalesHeld(worlds[i]))
       <==> (forall i :: 0 <= i < |steps| ==> OverwriteCovers(worlds[i], steps[i]))
  {
    hide Inv, Enabled, Next, Init, SalesHeld, OverwriteCovers;
    if forall i :: 0 <= i < |worlds| ==> SalesHeld(worlds[i]) {
      forall i | 0 <= i < |steps| ensures OverwriteCovers(worlds[i], steps[i]) {
        RunKeepsInv(worlds, steps, settings, i);
        assert SalesHeld(worlds[i]) && SalesHeld(worlds[i + 1]);
        StepKeepsSalesIff(worlds[i], settings, steps[i]);
      }
    }
    if forall i :: 0 <= i < |steps| ==> OverwriteCovers(worlds[i], steps[i]) {
      forall i | 0 <= i < |worlds| ensures SalesHeld(worlds[i]) {
        CoveringOverwritesKeepSales(worlds, steps, settings, i);
      }
    }
  }

  lemma {:induction false} CoveringOverwritesKeepSales(worlds: seq<World>, steps: seq<Step>, settings: Settings, n: nat)
    requires Run(worlds, steps, settings) && n <= |steps|
    requires forall i :: 0 <= i < n ==> OverwriteCovers(worlds[i], steps[i])
    ensures SalesHeld(worlds[n])
  {
    hide Inv, Enabled, Next, Init, SalesHeld, OverwriteCovers;
    if n == 0 {
      InitSales(worlds[0]);
    } else {
      CoveringOverwritesKeepSales(worlds, steps, settings, n - 1);
      RunKeepsInv(worlds, steps, settings, n - 1);
      StepKeepsSalesIff(worlds[n - 1], settings, steps[n - 1]);
    }
  }
}
