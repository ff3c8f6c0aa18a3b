/** What the rows promise by themselves: reserved money stays under the caps, shares are
    never promised twice, and a delivered fill is never refused without a reason.

    A reconciliation pass that races a fill can re-reserve shares that were already
    booked, so these promises are made over runs whose passes find the reservations they
    confirm as they left them. Races says what a racing pass costs, and Sales what holds
    over every run. */
module Book {
  import opened Common
  import opened Accounting
  import opened Fees
  import opened Rows
  import opened Transactions
  import opened Reconciliation
  import opened Applying
  import opened World
  import opened Safety
  import opened Booking
  import opened Passes
  import opened Runs

  /** An active reservation is exactly the part of its order that is not booked. */
  ghost predicate Exact(w: World) {
    forall id :: id in w.db.reservations && w.db.reservations[id].Active() ==>
      FilledSize(w.db, id) + w.db.reservations[id].remaining == w.db.reservations[id].original
  }

  /** Money spent and money reserved together fit the cap, fees aside. */
  ghost predicate BookFits(w: World, settings: Settings, scope: Scope) {
    CapitalUsed(w.db.inventory, scope) + ActiveReserved(w.db.reservations, scope)
    <= Cap(settings, scope) + MONEY_TOLERANCE + BuyFees(w.db.cash, scope)
  }

  /** No share of a token is promised to two sales. */
  ghost predicate PromisesHeld(w: World) {
    forall m, t :: m in w.db.markets && m in w.db.inventory && w.db.markets[m].Lists(t) ==>
      PromisedShares(w.db.reservations, m, t) <= ExposureOf(w.db, m, t) as real
  }

  ghost predicate BookInv(w: World, settings: Settings, scope: Scope) {
    Exact(w) && BookFits(w, settings, scope) && PromisesHeld(w)
  }

  /** What is booked of the order is exactly what the exchange reported as matched: nothing was
      booked since it was asked, and nothing it had matched was still unbooked. A confirmed-open
      order may fail this by a booking in between, or by up to 1e-6 matched but unbooked shares. */
  predicate BookedAsReported(w: World, id: OrderId) {
    IsFetched(w, id) && FilledSize(w.db, id) == w.pass.facts[w.remote[id].exchangeId].matched
  }

  /** Every order the pass confirms open is booked as reported and still holds its reservation. */
  ghost predicate QuietPass(w: World, unsettled: map<ExchangeId, int>) {
    forall id :: id in w.pass.locals && id in w.db.reservations ==> QuietVerdict(w, id, Verdicts(w.pass, unsettled)[id])
  }

  predicate QuietVerdict(w: World, id: OrderId, a: Action)
    requires id in w.db.reservations
  {
    a.kind.OpenConfirmed? ==> w.db.reservations[id].Active() && BookedAsReported(w, id)
  }

  ghost predicate Quiet(w: World, s: Step) {
    !s.OverwriteStep? && (s.ApplyPass? ==> QuietPass(w, s.unsettled))
  }

  // ----- Steps that free reservations or leave them alone -------------------

  ghost predicate Shrinks(w: World, w': World) {
    && w'.db.markets == w.db.markets && w'.db.inventory == w.db.inventory && w'.db.cash == w.db.cash
    && w'.db.reservations.Keys == w.db.reservations.Keys
    && forall id :: id in w.db.reservations ==> RowShrinks(w, w', id)
  }

  predicate RowShrinks(w: World, w': World, id: OrderId)
    requires id in w.db.reservations && id in w'.db.reservations
  {
    var r, r' := w.db.reservations[id], w'.db.reservations[id];
    && FilledSize(w'.db, id) == FilledSize(w.db, id)
    && SameTerms(r, r')
    && r.notional >= 0.0 && r.remaining >= 0
    && (r'.Active() ==> r.Active() && r'.remaining == r.remaining && r'.notional == r.notional)
  }

  lemma ShrinkKeepsBook(w: World, w': World, settings: Settings, scope: Scope)
    requires BookInv(w, settings, scope) && Shrinks(w, w')
    ensures BookInv(w', settings, scope)
  {
    hide Sum;
    assert Exact(w') by {
      forall id | id in w'.db.reservations && w'.db.reservations[id].Active()
        ensures FilledSize(w'.db, id) + w'.db.reservations[id].remaining == w'.db.reservations[id].original
      {
        assert RowShrinks(w, w', id);
      }
    }
    ShrinkReserved(w, w', scope);
    forall m, t | m in w.db.markets && m in w.db.inventory && w.db.markets[m].Lists(t)
      ensures PromisedShares(w'.db.reservations, m, t) <= ExposureOf(w'.db, m, t) as real
    {
      ShrinkPromised(w, w', m, t);
    }
  }

  lemma ShrinkReserved(w: World, w': World, scope: Scope)
    requires Shrinks(w, w')
    ensures ActiveReserved(w'.db.reservations, scope) <= ActiveReserved(w.db.reservations, scope)
  {
    hide Sum;
    forall id | id in w.db.reservations
      ensures ReservedTable(w'.db.reservations, scope)[id] <= ReservedTable(w.db.reservations, scope)[id] {
      assert RowShrinks(w, w', id);
    }
    SumMonotone(ReservedTable(w'.db.reservations, scope), ReservedTable(w.db.reservations, scope));
  }

  lemma ShrinkPromised(w: World, w': World, m: MarketId, t: TokenId)
    requires Shrinks(w, w')
    ensures PromisedShares(w'.db.reservations, m, t) <= PromisedShares(w.db.reservations, m, t)
  {
    hide Sum;
    forall id | id in w.db.reservations
      ensures PromisedTable(w'.db.reservations, m, t)[id] <= PromisedTable(w.db.reservations, m, t)[id] {
      assert RowShrinks(w, w', id);
    }
    SumMonotone(PromisedTable(w'.db.reservations, m, t), PromisedTable(w.db.reservations, m, t));
  }

  lemma GoodAmounts(w: World)
    requires Consistent(w)
    ensures forall id :: id in w.db.reservations ==>
              w.db.reservations[id].notional >= 0.0 && w.db.reservations[id].remaining >= 0
  {
    forall id | id in w.db.reservations
      ensures w.db.reservations[id].notional >= 0.0 && w.db.reservations[id].remaining >= 0 {
      assert GoodReservation(w.db, w.db.reservations[id]);
      hide Consistent;
      NotionalMonotone(0, w.db.reservations[id].limit, 0, w.db.reservations[id].remaining);
    }
  }

  /** Steps whose only effect on reservations is to leave, mark or free them. */
  ghost predicate IsShrinkStep(s: Step) {
    !s.ReserveBuyStep? && !s.ReserveSellStep? && !s.Attempt? && !s.ApplyPass? && !s.OverwriteStep? && !s.Rebuild?
  }

  lemma StatusStepShrinks(w: World, settings: Settings, s: Step)
    requires Inv(w) && Enabled(w, s)
    requires s.Persist? || s.MarkOpenStep? || s.MarkStep? || s.CancelSeen? || s.CancelAnswered?
    ensures Shrinks(w, Next(w, settings, s))
  {
    hide Inv, Consistent, GoodOrders, GoodEvents, PersistSubmit, MarkOpen, MarkActive, CancelEvent, CancelResponse, SameRisk, Shrinks;
    InvKeys(w);
    GoodAmounts(w);
    match s {
      case Persist(id, x, outcome) => PersistIsSameRisk(w, id, x, outcome);
      case MarkOpenStep(id, x) => MarkOpenIsSameRisk(w, id, x);
      case MarkStep(id, hold) => MarkIsSameRisk(w, id, hold);
      case CancelSeen(x) => CancelEventIsSameRisk(w, x);
      case CancelAnswered(id, outcome) => CancelIsSameRisk(w, id, outcome);
    }
    SameRiskShrinks(w, Next(w, settings, s));
  }

  /** Reservations, positions and cash are untouched. */
  ghost predicate LeavesRows(w: World, w': World) {
    && w'.db.markets == w.db.markets && w'.db.inventory == w.db.inventory && w'.db.cash == w.db.cash
    && w'.db.reservations == w.db.reservations
    && forall id :: FilledSize(w'.db, id) == FilledSize(w.db, id)
  }

  lemma OtherStepLeavesRows(w: World, settings: Settings, s: Step)
    requires Enabled(w, s) && IsShrinkStep(s)
    requires !(s.Persist? || s.MarkOpenStep? || s.MarkStep? || s.CancelSeen? || s.CancelAnswered?)
    requires !(s.JournalFails? || s.ReleaseRefused?)
    ensures LeavesRows(w, Next(w, settings, s))
  {
    hide LoadFacts, FetchedFact, CanMatch;
    match s {
      case JournalStep(id) =>
      case Send(id) =>
      case Withhold(id) =>
      case Accept(id, x) =>
      case Refuse(id) =>
      case MatchStep(e, id, x) =>
      case CancelAtExchange(id, q) =>
      case Deliver(e) =>
      case FailClosed(e) =>
      case BeginPass =>
      case Fetch(id, group) =>
    }
  }

  lemma StepShrinks(w: World, settings: Settings, s: Step)
    requires Inv(w) && Enabled(w, s) && IsShrinkStep(s)
    ensures Shrinks(w, Next(w, settings, s))
  {
    hide Inv, Consistent, GoodOrders, GoodEvents, Release, Shrinks, LoadFacts, FetchedFact, CanMatch;
    InvKeys(w);
    GoodAmounts(w);
    if s.Persist? || s.MarkOpenStep? || s.MarkStep? || s.CancelSeen? || s.CancelAnswered? {
      StatusStepShrinks(w, settings, s);
    } else if s.JournalFails? || s.ReleaseRefused? {
      ReleaseShrinks(w, Next(w, settings, s), s.id, if s.JournalFails? then JournalFailed else OrderFailed);
    } else {
      OtherStepLeavesRows(w, settings, s);
      hide Next, Enabled;
      LeftRowsShrink(w, Next(w, settings, s));
    }
  }

  lemma LeftRowsShrink(w: World, w': World)
    requires LeavesRows(w, w')
    requires forall id :: id in w.db.reservations ==> w.db.reservations[id].notional >= 0.0 && w.db.reservations[id].remaining >= 0
    ensures Shrinks(w, w')
  {
  }

  lemma ReleaseShrinks(w: World, w': World, id: OrderId, terminal: ReservationStatus)
    requires w'.db == Release(w.db, id, terminal) && terminal in {JournalFailed, OrderFailed}
    requires forall id :: id in w.db.reservations ==>
               w.db.reservations[id].notional >= 0.0 && w.db.reservations[id].remaining >= 0
    ensures Shrinks(w, w')
  {
    assert w'.db.reservations.Keys == w.db.reservations.Keys;
  }

  lemma SameRiskShrinks(w: World, w': World)
    requires SameRisk(w, w'.db)
    requires forall id :: id in w.db.reservations ==>
               w.db.reservations[id].notional >= 0.0 && w.db.reservations[id].remaining >= 0
    ensures Shrinks(w, w')
  {
    forall id | id in w.db.reservations ensures RowShrinks(w, w', id) {
      assert SameReservation(w.db.reservations[id], w'.db.reservations[id]);
      assert id in w.db.orders ==> SameOrder(w, id, w'.db.orders[id]);
    }
  }

  lemma AppliedRow(r: Reservation, a: Action)
    requires r.notional == (if r.side.Buy? then Notional(r.limit, r.remaining) else 0.0) && r.remaining >= 0
    requires a.kind.OpenConfirmed? ==> r.Active() && a.remaining == Some(r.remaining)
    ensures var r' := ApplyToReservation(r, a);
            r'.Active() ==> r.Active() && r'.remaining == r.remaining && r'.notional == r.notional
  {
    hide Notional;
  }

  /** An order confirmed open is reserved for what the exchange had not matched. */
  lemma ConfirmedRemaining(w: World, unsettled: map<ExchangeId, int>, id: OrderId)
    requires Inv(w) && id in w.pass.locals && Verdicts(w.pass, unsettled)[id].kind.OpenConfirmed?
    ensures id in w.db.reservations && id in w.db.orders && IsFetched(w, id) && w.db.orders[id].reservation.Some?
    ensures Verdicts(w.pass, unsettled)[id].remaining
            == Some(w.db.reservations[id].original - w.pass.facts[w.remote[id].exchangeId].matched)
  {
    hide Inv, Consistent, Complete, Verdicts, Notional, GoodOrders, GoodEvents;
    InvKeys(w);
    VerdictKeys(w.pass, unsettled);
    VerdictRestsOnFact(w, id, unsettled);
    RemoteRow(w, id);
    var local, fact := w.pass.locals[id], w.pass.facts[w.remote[id].exchangeId];
    var u :| Verdicts(w.pass, unsettled)[id] == Classify(local, Some(fact), u);
  }

  /** One row of an applied report. */
  lemma AppliedRowForm(w: World, unsettled: map<ExchangeId, int>, id: OrderId)
    requires Inv(w) && id in w.db.reservations
    ensures id in Applied(w, unsettled).db.reservations && Verdicts(w.pass, unsettled).Keys == w.pass.locals.Keys
    ensures Applied(w, unsettled).db.reservations[id]
            == if id in w.pass.locals && id in w.db.orders && w.db.orders[id].reservation.Some?
               then ApplyToReservation(w.db.reservations[id], Verdicts(w.pass, unsettled)[id]) else w.db.reservations[id]
  {
    hide Inv, Verdicts, ApplyToReservation, ApplyToOrder, ActiveReserved;
    VerdictKeys(w.pass, unsettled);
  }

  lemma RemoteRow(w: World, id: OrderId)
    requires Consistent(w) && id in w.remote
    ensures id in w.db.reservations && GoodRemote(w, id)
  {
  }

  lemma RowNotional(w: World, id: OrderId)
    requires Inv(w) && id in w.db.reservations
    ensures var r := w.db.reservations[id];
            r.remaining >= 0 && r.notional == (if r.side.Buy? then Notional(r.limit, r.remaining) else 0.0)
  {
    assert GoodReservation(w.db, w.db.reservations[id]);
  }

  lemma QuietRow(w: World, unsettled: map<ExchangeId, int>, id: OrderId)
    requires Inv(w) && Exact(w) && QuietPass(w, unsettled) && id in w.db.reservations
    ensures id in Applied(w, unsettled).db.reservations
    ensures var r, r' := w.db.reservations[id], Applied(w, unsettled).db.reservations[id];
            r'.Active() ==> r.Active() && r'.remaining == r.remaining && r'.notional == r.notional
  {
    hide Inv, Applied, Verdicts, Notional, ApplyToReservation;
    AppliedRowForm(w, unsettled, id);
    RowNotional(w, id);
    if id in w.pass.locals {
      assert QuietVerdict(w, id, Verdicts(w.pass, unsettled)[id]);
      if Verdicts(w.pass, unsettled)[id].kind.OpenConfirmed? {
        ConfirmedRemaining(w, unsettled, id);
      }
      AppliedRow(w.db.reservations[id], Verdicts(w.pass, unsettled)[id]);
    }
  }

  lemma QuietPassShrinks(w: World, unsettled: map<ExchangeId, int>)
    requires Inv(w) && Exact(w) && QuietPass(w, unsettled)
    ensures Shrinks(w, Applied(w, unsettled).(pass := IDLE))
  {
    GoodAmounts(w);
    AppliedReservations(w, unsettled);
    AppliedOrders(w, unsettled);
    AppliedFrame(w, unsettled);
    hide Inv, Consistent, QuietPass, Applied, GoodReservations, OrdersEvolve, Exact;
    forall id | id in w.db.reservations ensures RowShrinks(w, Applied(w, unsettled).(pass := IDLE), id) {
      QuietRow(w, unsettled, id);
    }
  }

  // ----- New reservations ---------------------------------------------------

  function PromisedWeight(r: Reservation, m: MarketId, t: TokenId): real {
    if r.Active() && r.side.Sell? && r.market == m && r.token == t then r.remaining as real else 0.0
  }

  lemma PromisedWrite(rs: map<OrderId, Reservation>, id: OrderId, r: Reservation, m: MarketId, t: TokenId)
    ensures PromisedShares(rs[id := r], m, t)
            == PromisedShares(rs, m, t) - (if id in rs then PromisedWeight(rs[id], m, t) else 0.0) + PromisedWeight(r, m, t)
  {
    hide Sum;
    assert PromisedTable(rs[id := r], m, t) == PromisedTable(rs, m, t)[id := PromisedWeight(r, m, t)];
    SumWrite(PromisedTable(rs, m, t), id, PromisedWeight(r, m, t));
  }

  lemma GrantKeepsExact(w: World, id: OrderId, r: Reservation, total: real, w': World)
    requires Consistent(w) && Exact(w) && Granting(w, id, r, total, w')
    ensures Exact(w')
  {
    NoOrderNoTrades(w, id);
    hide Consistent, GoodReservation;
  }

  lemma BuyGrantKeepsBook(w: World, s: Step, settings: Settings, scope: Scope)
    requires Inv(w) && BookInv(w, settings, scope) && s.ReserveBuyStep? && Enabled(w, s)
    requires ReserveBuy(w.db, settings, s.id, s.market, s.token, s.limit, s.size).Granted?
    ensures BookInv(Next(w, settings, s), settings, scope)
  {
    hide Consistent, Complete, ActiveReserved, PromisedShares, CapitalUsed, Notional, Sum;
    var w' := Next(w, settings, s);
    var r := NewReservation(s.market, s.token, Buy, s.limit, s.size);
    var total := ActiveReserved(w.db.reservations, None) + Notional(s.limit, s.size);
    AdmittedFits(w, s.id, s.market, s.token, s.limit, s.size, settings);
    GrantKeepsExact(w, s.id, r, total, w');
    hide Next, Enabled, ReserveBuy, Exact, GoodReservation;
    ReservedWrite(w.db.reservations, s.id, r, scope);
    FeesAreNotNegative(w, scope);
    hide BuyFees;
    assert PromisesHeld(w') by {
      forall m, t | m in w'.db.markets && m in w'.db.inventory && w'.db.markets[m].Lists(t)
        ensures PromisedShares(w'.db.reservations, m, t) <= ExposureOf(w'.db, m, t) as real {
        PromisedWrite(w.db.reservations, s.id, r, m, t);
      }
    }
  }

  lemma SellGrantKeepsBook(w: World, s: Step, settings: Settings, scope: Scope)
    requires Inv(w) && BookInv(w, settings, scope) && s.ReserveSellStep? && Enabled(w, s)
    requires ReserveSell(w.db, s.id, s.market, s.token, s.limit, s.size).Granted?
    ensures BookInv(Next(w, settings, s), settings, scope)
  {
    hide Consistent, Complete, ActiveReserved, PromisedShares, CapitalUsed, BuyFees, Notional, Sum;
    var w' := Next(w, settings, s);
    var r := NewReservation(s.market, s.token, Sell, s.limit, s.size);
    assert Granting(w, s.id, r, w.db.reservedTotal, w');
    GrantKeepsExact(w, s.id, r, w.db.reservedTotal, w');
    assert ExposureOf(w.db, s.market, s.token) as real - PromisedShares(w.db.reservations, s.market, s.token) - s.size as real >= 0.0;
    hide Next, Enabled, ReserveSell, Exact, GoodReservation;
    ReservedWrite(w.db.reservations, s.id, r, scope);
    assert PromisesHeld(w') by {
      forall m, t | m in w'.db.markets && m in w'.db.inventory && w'.db.markets[m].Lists(t)
        ensures PromisedShares(w'.db.reservations, m, t) <= ExposureOf(w'.db, m, t) as real {
        PromisedWrite(w.db.reservations, s.id, r, m, t);
      }
    }
  }

  // ----- Booked fills -------------------------------------------------------

  /** A pending execution fits in the reservation of its order. */
  lemma PendingFits(w: World, e: EventId)
    requires Inv(w) && Exact(w) && e in w.trades && !IsBooked(w.db, e)
    ensures var id := w.trades[e].order;
            && id in w.db.reservations
            && FilledSize(w.db, id) + w.trades[e].execution.size <= w.db.reservations[id].original
            && (w.db.reservations[id].Active() ==> w.trades[e].execution.size <= w.db.reservations[id].remaining)
  {
    hide Inv, Consistent, Complete, Sum, Notional, GoodTrades;
    var id := w.trades[e].order;
    TradeFacts(w, e);
    forall other | other in w.trades ensures PendingTable(w.db, w.trades, id)[other] >= 0.0 {
      assert GoodTrade(w, other);
    }
    RowAtMostSum(PendingTable(w.db, w.trades, id), e);
  }

  lemma TradeFacts(w: World, e: EventId)
    requires Inv(w) && e in w.trades
    ensures forall other :: other in w.trades ==> GoodTrade(w, other)
    ensures var id := w.trades[e].order;
            && GoodTrade(w, e) && GoodRemote(w, id) && Accounted(w, id)
            && w.db.reservations.Keys == w.remote.Keys
  {
    hide GoodRemote, GoodReservation, PendingShares;
    assert GoodTrade(w, e);
    assert GoodRemote(w, w.trades[e].order);
  }

  /** What a booking inside its reservation does to that reservation, in numbers. */
  ghost predicate ReservationNumbers(w: World, id: OrderId, p: Parts) {
    && id in w.db.reservations && p.market in w.db.markets
    && var r, f := w.db.reservations[id], p.fill;
    && r.Active() && SameTerms(r, p.consumed)
    && p.market == r.market && p.token == r.token && f.side == r.side
    && w.db.markets[p.market].Lists(p.token) && f.outcome == w.db.markets[p.market].OutcomeOf(p.token)
    && 0 < f.size <= r.remaining && 0 <= f.price && (f.side.Buy? ==> f.price <= r.limit)
    && p.consumed.remaining == r.remaining - f.size
    && p.released == (if f.side.Buy? then Notional(r.limit, f.size) else 0.0)
    && (p.consumed.Active() || p.consumed.remaining == 0)
  }

  /** What it does to the tables. */
  ghost predicate TableNumbers(w: World, e: EventId, id: OrderId, p: Parts, w': World) {
    && p.market in w.db.inventory && e !in w.db.cash
    && w'.db.markets == w.db.markets
    && w'.db.reservations == w.db.reservations[id := p.consumed]
    && p.market in w'.db.inventory
    && w'.db.inventory == w.db.inventory[p.market := w'.db.inventory[p.market]] && w'.db.inventory[p.market].book == p.book
    && w'.db.cash == w.db.cash[e := CashFact(p.market, p.fill.side, p.amounts)]
    && p.amounts.fee == p.fee && p.fill.fee == (if p.fee.Some? then p.fee.value else 0.0)
    && w.db.inventory[p.market].book.Sound()
    && ApplyToLedger(w.db.inventory[p.market].book, p.fill) == Success(p.book)
  }

  ghost predicate BookingNumbers(w: World, e: EventId, id: OrderId, p: Parts, w': World) {
    ReservationNumbers(w, id, p) && TableNumbers(w, e, id, p, w')
  }

  lemma BookingInNumbers(w: World, e: EventId, id: OrderId, p: Parts, w': World)
    requires Inv(w) && Exact(w) && GoodBooking(w, e, id, p, w')
    ensures BookingNumbers(w, e, id, p, w')
  {
    hide Inv, Exact, ReservationNumbers, TableNumbers, GoodBooking;
    ReservationInNumbers(w, e, id, p, w');
    TablesInNumbers(w, e, id, p, w');
  }

  lemma ReservationInNumbers(w: World, e: EventId, id: OrderId, p: Parts, w': World)
    requires Inv(w) && Exact(w) && GoodBooking(w, e, id, p, w')
    ensures ReservationNumbers(w, id, p)
  {
    hide Inv, Exact, ApplyToLedger, BuildCashFact, ConsumeReservation, Notional, GoodReservation;
    PendingFits(w, e);
    RowFacts(w, e, id);
    ConsumeIsGood(w.db, w.db.reservations[id], p.fill.size, p.fill.price, p.fill.side);
  }

  lemma RowFacts(w: World, e: EventId, id: OrderId)
    requires Inv(w) && e in w.trades && id in w.db.orders
    ensures GoodTrade(w, e) && GoodOrder(w, id) && GoodReservation(w.db, w.db.reservations[id])
  {
    assert GoodOrder(w, id);
  }

  lemma TablesInNumbers(w: World, e: EventId, id: OrderId, p: Parts, w': World)
    requires Inv(w) && GoodBooking(w, e, id, p, w')
    ensures TableNumbers(w, e, id, p, w')
  {
    hide Inv, Notional, ConsumeReservation, ApplyToLedger, BuildCashFact, NetCash;
    BookedLedgerIsSound(w, e, id, p, w');
    CashFactMatchesFill(Yes, p.fill.side, p.fill.price, p.fill.size, p.fee);
  }

  lemma BookedLedgerIsSound(w: World, e: EventId, id: OrderId, p: Parts, w': World)
    requires Inv(w) && GoodBooking(w, e, id, p, w')
    ensures p.market in w.db.inventory && w.db.inventory[p.market].book.Sound()
  {
    hide Notional, ConsumeReservation, ApplyToLedger, BuildCashFact, GoodOrders, GoodEvents, GoodTrades, GoodPass, GoodRemotes,
      GoodReservations, Complete, CashIsGood, TotalIsCached;
  }

  lemma BookingKeepsExact(w: World, e: EventId, id: OrderId, p: Parts, w': World)
    requires Exact(w) && ReservationNumbers(w, id, p) && GoodBooking(w, e, id, p, w')
    ensures Exact(w')
  {
    hide ConsumeReservation, ApplyToLedger, BuildCashFact, Notional;
    assert w'.db.reservations == w.db.reservations[id := p.consumed];
    assert FilledSize(w'.db, id) == FilledSize(w.db, id) + p.fill.size;
    assert forall other :: other != id ==> FilledSize(w'.db, other) == FilledSize(w.db, other);
    hide GoodBooking;
  }

  lemma BookingKeepsFits(w: World, e: EventId, id: OrderId, p: Parts, w': World, settings: Settings, scope: Scope)
    requires Inv(w) && BookFits(w, settings, scope) && GoodBooking(w, e, id, p, w') && BookingNumbers(w, e, id, p, w')
    ensures BookFits(w', settings, scope)
  {
    BookKeepsTotal(w, e, id, p, w');
    CapitalOfFill(w.db.inventory[p.market].book, p.fill);
    hide Inv, GoodBooking, Notional, ApplyToLedger, CapitalUsed, ActiveReserved, BuyFees;
    CapitalWrite(w.db.inventory, p.market, w'.db.inventory[p.market], scope);
    FeeWrite(w.db.cash, e, w'.db.cash[e], scope);
    if p.fill.side.Buy? {
      PriceWithinLimit(p.fill.price, p.consumed.limit, p.fill.size);
    }
  }

  lemma ExposureAfterFill(l: Ledger, f: Fill)
    requires l.Sound() && ApplyToLedger(l, f).Success?
    ensures var after := ApplyToLedger(l, f).value;
            && after.On(f.outcome).exposure
               == l.On(f.outcome).exposure + (if f.side.Buy? then f.size else -f.size)
            && forall other :: other != f.outcome ==> after.On(other).exposure == l.On(other).exposure
  {
    FillConservesCash(l.On(f.outcome), f.side, f.size, f.price, f.fee);
    hide Notional;
  }

  lemma BookingKeepsPromises(w: World, e: EventId, id: OrderId, p: Parts, w': World)
    requires PromisesHeld(w) && BookingNumbers(w, e, id, p, w')
    ensures PromisesHeld(w')
  {
    ExposureAfterFill(w.db.inventory[p.market].book, p.fill);
    hide Notional, ApplyToLedger, PromisedShares;
    forall m, t | m in w'.db.markets && m in w'.db.inventory && w'.db.markets[m].Lists(t)
      ensures PromisedShares(w'.db.reservations, m, t) <= ExposureOf(w'.db, m, t) as real {
      PromisedWrite(w.db.reservations, id, p.consumed, m, t);
      assert PromisedShares(w.db.reservations, m, t) <= ExposureOf(w.db, m, t) as real;
    }
  }

  // ----- Every quiet step ---------------------------------------------------

  lemma AttemptKeepsBook(w: World, settings: Settings, scope: Scope, e: EventId)
    requires Inv(w) && BookInv(w, settings, scope)
    ensures BookInv(w.(db := Process(w.db, e).db), settings, scope)
  {
    hide Inv, BookFits, Exact, PromisesHeld, Process, Consistent, GoodOrders, GoodEvents, GoodBooking, TableNumbers, ReservationNumbers,
      BookFill, SameBooked, Shrinks;
    InvKeys(w);
    GoodAmounts(w);
    var w' := w.(db := Process(w.db, e).db);
    if Process(w.db, e).outcome.Booked? {
      var id, p := BookedAttempt(w, e);
      BookingInNumbers(w, e, id, p, w');
      BookingKeepsExact(w, e, id, p, w');
      BookingKeepsFits(w, e, id, p, w', settings, scope);
      BookingKeepsPromises(w, e, id, p, w');
    } else {
      UnbookedAttempt(w, e);
      SameBookedShrinks(w, w');
      ShrinkKeepsBook(w, w', settings, scope);
    }
  }

  lemma SameBookedShrinks(w: World, w': World)
    requires SameBooked(w, w'.db)
    requires forall id :: id in w.db.reservations ==> w.db.reservations[id].notional >= 0.0 && w.db.reservations[id].remaining >= 0
    ensures Shrinks(w, w')
  {
    hide GoodEvent;
  }

  lemma QuietStepKeepsBook(w: World, settings: Settings, scope: Scope, s: Step)
    requires Inv(w) && BookInv(w, settings, scope) && Enabled(w, s) && Quiet(w, s)
    ensures BookInv(Next(w, settings, s), settings, scope)
  {
    hide Inv, BookInv, ReserveBuy, ReserveSell, Process, Applied, ApplyReport, Verdicts, QuietPass, Shrinks, Consistent, Complete;
    var w' := Next(w, settings, s);
    if IsShrinkStep(s) {
      hide Next, Enabled;
      StepShrinks(w, settings, s);
      ShrinkKeepsBook(w, w', settings, scope);
    } else {
      match s {
        case ReserveBuyStep(id, market, token, limit, size) =>
          if ReserveBuy(w.db, settings, id, market, token, limit, size).Granted? {
            BuyGrantKeepsBook(w, s, settings, scope);
          }
        case ReserveSellStep(id, market, token, limit, size) =>
          if ReserveSell(w.db, id, market, token, limit, size).Granted? {
            SellGrantKeepsBook(w, s, settings, scope);
          }
        case Attempt(e) => AttemptKeepsBook(w, settings, scope, e);
        case ApplyPass(unsettled) =>
          BookIsExact(w, settings, scope);
          QuietPassShrinks(w, unsettled);
          assert w' == Applied(w, unsettled).(pass := IDLE) by { AppliedForm(w, settings, unsettled); }
          ShrinkKeepsBook(w, w', settings, scope);
        case Rebuild =>
          assert w' == w by { RebuildForm(w, settings); }
      }
    }
  }

  lemma BookIsExact(w: World, settings: Settings, scope: Scope)
    requires BookInv(w, settings, scope)
    ensures Exact(w)
  {
  }

  /** When exactly a pass keeps reservations exact: if and only if every order it confirms open
      is booked, when the report is applied, for exactly what the exchange had reported. */
  lemma PassStaysExactIff(w: World, unsettled: map<ExchangeId, int>)
    requires Inv(w) && Exact(w)
    ensures Exact(Applied(w, unsettled))
       <==> forall id :: id in w.pass.locals && Verdicts(w.pass, unsettled)[id].kind.OpenConfirmed? ==> BookedAsReported(w, id)
  {
    hide Inv, Exact, Applied, Verdicts, BookedAsReported;
    var w' := Applied(w, unsettled);
    AppliedOrders(w, unsettled);
    AppliedKeys(w, unsettled);
    forall id | id in w.db.reservations
      ensures RowIsExact(w', id) <==>
              (id in w.pass.locals && Verdicts(w.pass, unsettled)[id].kind.OpenConfirmed? ==> BookedAsReported(w, id)) {
      AppliedRowIsExactIff(w, unsettled, id);
    }
    forall id | id in w.pass.locals && Verdicts(w.pass, unsettled)[id].kind.OpenConfirmed? ensures id in w.db.reservations {
      ConfirmedRemaining(w, unsettled, id);
    }
    ExactByRow(w');
  }

  ghost predicate RowIsExact(w: World, id: OrderId)
    requires id in w.db.reservations
  {
    w.db.reservations[id].Active() ==> FilledSize(w.db, id) + w.db.reservations[id].remaining == w.db.reservations[id].original
  }

  lemma ExactByRow(w: World)
    ensures Exact(w) <==> forall id :: id in w.db.reservations ==> RowIsExact(w, id)
  {
  }

  lemma AppliedKeys(w: World, unsettled: map<ExchangeId, int>)
    requires Inv(w)
    ensures Applied(w, unsettled).db.reservations.Keys == w.db.reservations.Keys
    ensures Verdicts(w.pass, unsettled).Keys == w.pass.locals.Keys
  {
    hide Verdicts, ApplyToReservation, ApplyToOrder, ActiveReserved;
    VerdictKeys(w.pass, unsettled);
  }

  lemma AppliedActive(r: Reservation, a: Action)
    ensures var r' := ApplyToReservation(r, a);
            && r'.original == r.original
            && (a.kind.OpenConfirmed? ==> r'.Active() && (a.remaining.Some? ==> r'.remaining == a.remaining.value))
            && (!a.kind.OpenConfirmed? && r'.Active() ==> r.Active() && r'.remaining == r.remaining)
  {
    hide Notional;
  }

  lemma AppliedRowIsExactIff(w: World, unsettled: map<ExchangeId, int>, id: OrderId)
    requires Inv(w) && Exact(w) && id in w.db.reservations
    ensures id in Applied(w, unsettled).db.reservations && Verdicts(w.pass, unsettled).Keys == w.pass.locals.Keys
    ensures RowIsExact(Applied(w, unsettled), id) <==>
            (id in w.pass.locals && Verdicts(w.pass, unsettled)[id].kind.OpenConfirmed? ==> BookedAsReported(w, id))
  {
    hide Inv, Applied, Verdicts, Notional, ApplyToReservation, FilledSize;
    AppliedRowForm(w, unsettled, id);
    AppliedOrders(w, unsettled);
    if id in w.pass.locals {
      AppliedActive(w.db.reservations[id], Verdicts(w.pass, unsettled)[id]);
      if Verdicts(w.pass, unsettled)[id].kind.OpenConfirmed? {
        ConfirmedRemaining(w, unsettled, id);
      }
    }
  }

  lemma AppliedForm(w: World, settings: Settings, unsettled: map<ExchangeId, int>)
    ensures Next(w, settings, ApplyPass(unsettled)) == Applied(w, unsettled).(pass := IDLE)
  {
  }

  lemma RebuildForm(w: World, settings: Settings)
    requires Inv(w)
    ensures Next(w, settings, Rebuild) == w
  {
  }

  /** Over runs of quiet steps: what is spent plus what is reserved stays within the cap
      and the fees, active reservations are exactly the unbooked rest of their orders, and
      no share is promised to two sales. */
  lemma {:induction false} QuietRunsKeepBook(
    worlds: seq<World>, steps: seq<Step>, settings: Settings, scope: Scope, n: nat)
    requires Run(worlds, steps, settings) && n <= |steps|
    requires settings.globalCap >= 0.0 && settings.marketCap >= 0.0
    requires forall i :: 0 <= i < n ==> Quiet(worlds[i], steps[i])
    ensures BookInv(worlds[n], settings, scope)
  {
    hide Inv, Enabled, Next, BookInv, Quiet, Init;
    if n == 0 {
      InitBook(worlds[0], settings, scope);
    } else {
      QuietRunsKeepBook(worlds, steps, settings, scope, n - 1);
      RunKeepsInv(worlds, steps, settings, n - 1);
      QuietStepKeepsBook(worlds[n - 1], settings, scope, steps[n - 1]);
    }
  }

  lemma InitBook(w: World, settings: Settings, scope: Scope)
    requires Init(w) && Cap(settings, scope) >= 0.0
    ensures BookInv(w, settings, scope)
  {
    SumOfZeros(CapitalTable(w.db.inventory, scope));
    SumOfZeros(ReservedTable(w.db.reservations, scope));
    SumOfZeros(FeeTable(w.db.cash, scope));
    forall m, t | m in w.db.markets && m in w.db.inventory && w.db.markets[m].Lists(t)
      ensures PromisedShares(w.db.reservations, m, t) <= ExposureOf(w.db, m, t) as real {
      SumOfZeros(PromisedTable(w.db.reservations, m, t));
    }
  }
}
