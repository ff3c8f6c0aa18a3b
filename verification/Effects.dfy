/** What the small transactions do to the rows: marking, freeing, journaling, writing an outcome,
    canceling, recording and failing. Each step names its row, and nothing else changes. */
module Effects {
  import opened Common
  import opened Rows
  import opened Transactions
  import opened Applying
  import opened World

  /** Only one reservation row may differ. */
  ghost predicate ReservationSet(w: World, w': World, id: OrderId, r: Reservation, total: real) {
    w' == w.(db := w.db.(reservations := w.db.reservations[id := r], reservedTotal := total))
  }

  ghost predicate OrderSet(w: World, w': World, id: OrderId, o: Order) {
    w' == w.(db := w.db.(orders := w.db.orders[id := o]))
  }

  ghost predicate EventSet(w: World, w': World, e: EventId, x: FillEvent) {
    w' == w.(db := w.db.(events := w.db.events[e := x]))
  }

  /** The statuses that hold risk. */
  predicate HoldsRisk(r: Reservation) {
    r.status.Reserved? || r.status.Opened? || r.status.Partial? || r.status.Unresolved? || r.status.CancelPending?
  }

  /** A freed row holds nothing, and the cached total loses what it held, but not more than there is. */
  ghost predicate Frees(w: World, w': World, id: OrderId, terminal: ReservationStatus) {
    if id in w.db.reservations && HoldsRisk(w.db.reservations[id]) then
      var r := w.db.reservations[id];
      ReservationSet(w, w', id, r.(remaining := 0, notional := 0.0, status := terminal),
                     if w.db.reservedTotal >= r.notional then w.db.reservedTotal - r.notional else 0.0)
    else w' == w
  }

  ghost predicate CarriedByAnother(orders: map<OrderId, Order>, id: OrderId, x: ExchangeId) {
    exists other :: other in orders && other != id && orders[other].exchangeId == Some(x)
  }

  /** The order that an exchange id is mapped to, if there is one. */
  ghost predicate MappedTo(orders: map<OrderId, Order>, id: OrderId, x: ExchangeId) {
    id in orders && orders[id].exchangeId == Some(x)
  }

  ghost predicate Unclaimed(orders: map<OrderId, Order>, x: ExchangeId) {
    forall id: OrderId :: !MappedTo(orders, id, x)
  }

  ghost predicate Waits(w: World, e: EventId) {
    e in w.db.events && (w.db.events[e].status.Received? || w.db.events[e].status.Unmapped?)
  }

  /** The rows a step leaves behind. */
  ghost predicate Effect(w: World, s: Step, w': World) {
    match s
    case JournalStep(id) =>
      if id in w.db.reservations then
        var r := w.db.reservations[id];
        OrderSet(w, w', id, Order(Some(id), None, r.market, r.token, r.side, r.limit, r.original, OrderStatus.Pending, 0))
      else w' == w
    case JournalFails(id) =>
      w'.remote == w.remote[id := Absent] && Frees(w, w'.(remote := w.remote), id, JournalFailed)
    case ReleaseRefused(id) => Frees(w, w', id, OrderFailed)
    case MarkOpenStep(id, x) =>
      if id in w.db.reservations && (w.db.reservations[id].status.Reserved? || w.db.reservations[id].status.Opened?)
      then ReservationSet(w, w', id, w.db.reservations[id].(status := Opened, exchangeId := Some(x)), w.db.reservedTotal)
      else w' == w
    case MarkStep(id, hold) =>
      if id in w.db.orders && w.db.orders[id].reservation.Some?
         && w.db.orders[id].reservation.value in w.db.reservations
         && HoldsRisk(w.db.reservations[w.db.orders[id].reservation.value])
      then
        var rid := w.db.orders[id].reservation.value;
        ReservationSet(w, w', rid, w.db.reservations[rid].(status := hold), w.db.reservedTotal)
      else w' == w
    case Persist(id, x, outcome) =>
      if id !in w.db.orders || (x.Some? && CarriedByAnother(w.db.orders, id, x.value)) then w' == w
      else
        var o := w.db.orders[id];
        OrderSet(w, w', id, if x.Some? then o.(exchangeId := x, status := outcome) else o.(status := outcome))
    case CancelSeen(x) =>
      && (Unclaimed(w.db.orders, x) ==> w' == w)
      && forall id: OrderId :: MappedTo(w.db.orders, id, x) ==>
           if w.db.orders[id].status.Canceled? || w.db.orders[id].status.Filled? then w' == w
           else OrderSet(w, w', id, w.db.orders[id].(status := OrderStatus.Canceled))
    case CancelAnswered(id, outcome) =>
      if id in w.db.orders then OrderSet(w, w', id, w.db.orders[id].(status := outcome)) else w' == w
    case Deliver(e) =>
      if e in w.db.events || e !in w.trades then w' == w
      else EventSet(w, w', e, FillEvent(w.trades[e].execution, Received, None))
    case FailClosed(e) =>
      if e in w.db.events && !w.db.events[e].status.Processed? then EventSet(w, w', e, w.db.events[e].(status := Rejected))
      else w' == w
    case Attempt(e) =>
      // an execution that is not waiting is left alone, one without an order is unmapped
      && (!Waits(w, e) ==> w' == w)
      && (Waits(w, e) && Unclaimed(w.db.orders, w.db.events[e].execution.exchangeId) ==>
            EventSet(w, w', e, w.db.events[e].(status := Unmapped)))
    case Rebuild => w' == w.(db := w.db.(reservedTotal := ActiveReserved(w.db.reservations, None)))
    case _ => true
  }

  lemma LookUpFinds(orders: map<OrderId, Order>, x: ExchangeId)
    requires UniqueExchangeIds(orders)
    ensures forall id: OrderId :: MappedTo(orders, id, x) ==> LookUp(orders, x) == Some(id)
    ensures LookUp(orders, x).None? <==> Unclaimed(orders, x)
  {
    forall id: OrderId | MappedTo(orders, id, x) ensures LookUp(orders, x) == Some(id) {
    }
    if LookUp(orders, x).Some? {
      assert MappedTo(orders, LookUp(orders, x).value, x);
    }
  }

  lemma ReservationEffect(w: World, settings: Settings, s: Step, w': World)
    requires Enabled(w, s) && w' == Next(w, settings, s)
    requires s.JournalFails? || s.ReleaseRefused? || s.MarkOpenStep? || s.MarkStep? || s.Rebuild?
    ensures Effect(w, s, w')
  {
    hide ActiveReserved;
  }

  lemma OrderEffect(w: World, settings: Settings, s: Step, w': World)
    requires Enabled(w, s) && w' == Next(w, settings, s) && (s.JournalStep? || s.Persist? || s.CancelAnswered?)
    ensures Effect(w, s, w')
  {
  }

  lemma CanceledEffect(w: World, settings: Settings, x: ExchangeId, w': World)
    requires w' == Next(w, settings, CancelSeen(x)) && UniqueExchangeIds(w.db.orders)
    ensures Effect(w, CancelSeen(x), w')
  {
    LookUpFinds(w.db.orders, x);
    hide LookUp, MappedTo, UniqueExchangeIds, Unclaimed;
  }

  lemma EventEffect(w: World, settings: Settings, s: Step, w': World)
    requires Enabled(w, s) && w' == Next(w, settings, s) && (s.Deliver? || s.FailClosed?)
    ensures Effect(w, s, w')
  {
  }

  lemma AttemptEffect(w: World, settings: Settings, e: EventId, w': World)
    requires w' == Next(w, settings, Attempt(e)) && UniqueExchangeIds(w.db.orders)
    ensures Effect(w, Attempt(e), w')
  {
    hide BookFill;
    if e in w.db.events {
      LookUpFinds(w.db.orders, w.db.events[e].execution.exchangeId);
    }
    hide LookUp, MappedTo, UniqueExchangeIds, Unclaimed;
  }

  /** Every small transaction has exactly the effect stated. */
  lemma StepHasEffect(w: World, settings: Settings, s: Step)
    requires Enabled(w, s) && UniqueExchangeIds(w.db.orders)
    ensures Effect(w, s, Next(w, settings, s))
  {
    var w' := Next(w, settings, s);
    hide Enabled, Next, UniqueExchangeIds;
    match s
    case JournalFails(_) => ReservationEffect(w, settings, s, w');
    case ReleaseRefused(_) => ReservationEffect(w, settings, s, w');
    case MarkOpenStep(_, _) => ReservationEffect(w, settings, s, w');
    case MarkStep(_, _) => ReservationEffect(w, settings, s, w');
    case Rebuild => ReservationEffect(w, settings, s, w');
    case JournalStep(_) => OrderEffect(w, settings, s, w');
    case Persist(_, _, _) => OrderEffect(w, settings, s, w');
    case CancelAnswered(_, _) => OrderEffect(w, settings, s, w');
    case CancelSeen(x) => CanceledEffect(w, settings, x, w');
    case Deliver(_) => EventEffect(w, settings, s, w');
    case FailClosed(_) => EventEffect(w, settings, s, w');
    case Attempt(e) => AttemptEffect(w, settings, e, w');
    case _ =>
  }

  // ----- Consuming a reservation --------------------------------------------

  /** A reservation takes an execution exactly if it holds risk for the same side, size and price are
      positive, a purchase is no dearer than the limit, and the size fits up to 1e-6 shares. */
  lemma ConsumptionIff(r: Reservation, size: int, price: int, side: Side)
    ensures ConsumeReservation(r, size, price, side).Success?
       <==> HoldsRisk(r) && r.side == side && size > 0 && price > 0 && (side.Buy? ==> price <= r.limit) && size <= r.remaining + 100
    ensures ConsumeReservation(r, size, price, side) == Failure(TerminalReservation) <==> !HoldsRisk(r)
    ensures ConsumeReservation(r, size, price, side) == Failure(SideMismatch) <==> HoldsRisk(r) && r.side != side
    ensures ConsumeReservation(r, size, price, side) == Failure(NonPositiveFill)
       <==> HoldsRisk(r) && r.side == side && (size <= 0 || price <= 0)
    ensures ConsumeReservation(r, size, price, side) == Failure(PriceAboveLimit)
       <==> HoldsRisk(r) && r.side.Buy? && side.Buy? && size > 0 && price > 0 && price > r.limit
  {
    hide Notional;
  }
}
