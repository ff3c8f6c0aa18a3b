/** The tables together with the exchange they talk to, as one transition system.

    Every database transaction is one atomic step. The exchange is an adversary
    limited by four rules: a refused submission was never accepted, matched size
    never shrinks, what it reports about an order is true when it is reported, and
    every delivery of an execution carries the same deterministic event id. */
module World {
  import opened Common
  import opened Accounting
  import opened Fees
  import opened Rows
  import opened Transactions
  import opened Reconciliation
  import opened Applying

  /** The fate of a submission at the exchange. */
  datatype Remote =
    | Planned                                                  // not sent yet
    | InFlight                                                 // sent; may still be accepted
    | Absent                                                   // never accepted, never will be
    | Accepted(exchangeId: ExchangeId, matched: int, open: int)
  {
    /** The exchange holds the order, or may come to hold it. */
    predicate MayLive() { InFlight? || Accepted? }

    function Matched(): int { if Accepted? then matched else 0 }

    /** Shares that are matched or may still be matched. */
    function Quantity(original: int): int {
      match this
      case Planned => original
      case InFlight => original
      case Absent => 0
      case Accepted(_, m, o) => m + o
    }
  }

  datatype Trade = Trade(order: OrderId, execution: Execution)

  /** A reconciliation pass between loading and applying. */
  datatype Pass = Pass(locals: map<OrderId, LocalFact>, facts: map<ExchangeId, ExchangeFact>)

  const IDLE := Pass(map[], map[])

  datatype World = World(
    db: Db,
    remote: map<OrderId, Remote>,
    trades: map<EventId, Trade>,
    pass: Pass)

  datatype Step =
    // order submission
    | ReserveBuyStep(id: OrderId, market: MarketId, token: TokenId, limit: int, size: int)
    | ReserveSellStep(id: OrderId, market: MarketId, token: TokenId, limit: int, size: int)
    | JournalStep(id: OrderId)
    | JournalFails(id: OrderId)
    | Send(id: OrderId)
    | Withhold(id: OrderId)                      // the lease expired: never sent
    | Persist(id: OrderId, mapped: Option<ExchangeId>, outcome: OrderStatus)
    | MarkOpenStep(id: OrderId, exchangeId: ExchangeId)
    | MarkStep(id: OrderId, hold: ReservationStatus)
    | ReleaseRefused(id: OrderId)
    // the exchange
    | Accept(id: OrderId, exchangeId: ExchangeId)
    | Refuse(id: OrderId)
    | MatchStep(e: EventId, id: OrderId, execution: Execution)
    | CancelAtExchange(id: OrderId, quantity: int)
    // what the exchange tells us
    | CancelSeen(exchangeId: ExchangeId)
    | CancelAnswered(id: OrderId, outcome: OrderStatus)
    | Deliver(e: EventId)
    | Attempt(e: EventId)
    | FailClosed(e: EventId)
    // reconciliation and repair
    | BeginPass
    | Fetch(id: OrderId, group: StatusGroup)
    | ApplyPass(unsettled: map<ExchangeId, int>)
    | Rebuild
    | OverwriteStep(market: MarketId, actual: Position)

  /** What the adversary and the scheduler may do next. A program step that would need
      more than this (a process that only releases after a refusal, say) is a special
      case of the step given here. */
  ghost predicate Enabled(w: World, s: Step) {
    match s
    case ReserveBuyStep(id, _, _, _, _) => id !in w.db.reservations
    case ReserveSellStep(id, _, _, _, _) => id !in w.db.reservations
    case JournalStep(id) => id in w.remote && w.remote[id].Planned? && id !in w.db.orders
    case JournalFails(id) => id in w.remote && w.remote[id].Planned? && id !in w.db.orders
    case Send(id) => id in w.remote && w.remote[id].Planned? && id in w.db.orders
    case Withhold(id) => id in w.remote && w.remote[id].Planned? && id in w.db.orders
    case Persist(id, x, _) =>
      id in w.db.orders && id in w.remote
      && (x.Some? ==> w.remote[id].Accepted? && w.remote[id].exchangeId == x.value)
    case MarkOpenStep(_, _) => true
    case MarkStep(_, status) => status in {Unresolved, CancelPending}
    case ReleaseRefused(id) => id in w.remote && w.remote[id].Absent?
    case Accept(id, x) =>
      && id in w.remote && w.remote[id].InFlight?
      && x !in w.pass.facts   // exchange ids are never reused
      && forall other :: other in w.remote && w.remote[other].Accepted? ==> w.remote[other].exchangeId != x
    case Refuse(id) => id in w.remote && w.remote[id].InFlight?
    case MatchStep(e, id, x) => CanMatch(w, e, id, x)
    case CancelAtExchange(id, q) =>
      id in w.remote && w.remote[id].Accepted? && 0 <= q <= w.remote[id].open
    case CancelSeen(_) => true
    case CancelAnswered(_, _) => true
    case Deliver(e) => e in w.trades
    case Attempt(_) => true
    case FailClosed(_) => true
    case BeginPass => true
    case Fetch(id, status) =>
      && id in w.remote && id in w.db.reservations && w.remote[id].Accepted?
      && (status.CanceledGroup? || status.FilledGroup? ==> w.remote[id].open == 0)
    case ApplyPass(_) => true
    case Rebuild => true
    case OverwriteStep(_, actual) => actual.yes >= 0 && actual.no >= 0
  }

  /** The exchange matches no more than is open, at a price no worse than the limit. */
  ghost predicate CanMatch(w: World, e: EventId, id: OrderId, x: Execution) {
    && e !in w.trades && id in w.remote && id in w.db.reservations
    && w.remote[id].Accepted? && w.remote[id].exchangeId == x.exchangeId
    && 0 < x.size <= w.remote[id].open
    && 0 < x.price < ONE_DOLLAR
    && (w.db.reservations[id].side.Buy? ==> x.price <= w.db.reservations[id].limit)
    && (x.token.Some? ==> x.token.value == w.db.reservations[id].token)
  }

  function FetchedFact(w: World, id: OrderId, status: StatusGroup): ExchangeFact
    requires id in w.remote && id in w.db.reservations && w.remote[id].Accepted?
  {
    var r := w.db.reservations[id];
    ExchangeFact(w.remote[id].exchangeId, r.market, r.token, r.side, r.limit, r.original,
                 w.remote[id].matched, status)
  }

  function Verdicts(pass: Pass, unsettled: map<ExchangeId, int>): map<OrderId, Action> {
    map id | id in pass.locals :: Evidence(map[], pass.facts, unsettled).Judge(pass.locals[id])
  }

  ghost function Next(w: World, settings: Settings, s: Step): World
    requires Enabled(w, s)
  {
    match s
    case ReserveBuyStep(id, market, token, limit, size) =>
      Planning(w, id, ReserveBuy(w.db, settings, id, market, token, limit, size))
    case ReserveSellStep(id, market, token, limit, size) =>
      Planning(w, id, ReserveSell(w.db, id, market, token, limit, size))
    case JournalStep(id) =>
      if id !in w.db.reservations then w
      else
        var r := w.db.reservations[id];
        w.(db := Journal(w.db, id, r.market, r.token, r.side, r.limit, r.original))
    case JournalFails(id) => w.(db := Release(w.db, id, JournalFailed), remote := w.remote[id := Absent])
    case Send(id) => w.(remote := w.remote[id := InFlight])
    case Withhold(id) => w.(remote := w.remote[id := Absent])
    case Persist(id, x, status) => w.(db := PersistSubmit(w.db, id, x, status))
    case MarkOpenStep(id, x) => w.(db := MarkOpen(w.db, id, x))
    case MarkStep(id, status) => w.(db := MarkActive(w.db, id, status))
    case ReleaseRefused(id) => w.(db := Release(w.db, id, OrderFailed))
    case Accept(id, x) =>
      if id !in w.db.reservations then w
      else w.(remote := w.remote[id := Accepted(x, 0, w.db.reservations[id].original)])
    case Refuse(id) => w.(remote := w.remote[id := Absent])
    case MatchStep(e, id, x) =>
      var r := w.remote[id];
      w.(remote := w.remote[id := Accepted(r.exchangeId, r.matched + x.size, r.open - x.size)],
         trades := w.trades[e := Trade(id, x)])
    case CancelAtExchange(id, q) =>
      var r := w.remote[id];
      w.(remote := w.remote[id := Accepted(r.exchangeId, r.matched, r.open - q)])
    case CancelSeen(x) => w.(db := CancelEvent(w.db, x))
    case CancelAnswered(id, status) => w.(db := CancelResponse(w.db, id, status))
    case Deliver(e) => w.(db := Record(w.db, e, w.trades[e].execution))
    case Attempt(e) => w.(db := Process(w.db, e).db)
    case FailClosed(e) => w.(db := MarkFailed(w.db, e))
    case BeginPass => w.(pass := Pass(LoadFacts(w.db), map[]))
    case Fetch(id, status) =>
      var fact := FetchedFact(w, id, status);
      w.(pass := w.pass.(facts := w.pass.facts[fact.exchangeId := fact]))
    case ApplyPass(unsettled) =>
      w.(db := ApplyReport(w.db, Verdicts(w.pass, unsettled)), pass := IDLE)
    case Rebuild => w.(db := RebuildTotal(w.db))
    case OverwriteStep(market, actual) => w.(db := Overwrite(w.db, market, actual))
  }

  ghost function Planning(w: World, id: OrderId, g: Grant): World {
    if g.Granted? then w.(db := g.db, remote := w.remote[id := Planned]) else w
  }

  ghost predicate Init(w: World) {
    && (forall m :: m in w.db.markets ==> w.db.markets[m].yesToken != w.db.markets[m].noToken)
    && w.db.inventory.Keys <= w.db.markets.Keys
    && (forall m :: m in w.db.inventory ==> w.db.inventory[m] == Inventory(EMPTY_LEDGER, V2, 0))
    && w.db.orders == map[] && w.db.reservations == map[] && w.db.reservedTotal == 0.0
    && w.db.events == map[] && w.db.cash == map[]
    && w.remote == map[] && w.trades == map[] && w.pass == IDLE
  }

  /** A run: worlds[i + 1] follows worlds[i] by steps[i]. */
  ghost predicate Run(worlds: seq<World>, steps: seq<Step>, settings: Settings) {
    && |worlds| == |steps| + 1
    && Init(worlds[0])
    && forall i :: 0 <= i < |steps| ==>
         Enabled(worlds[i], steps[i]) && worlds[i + 1] == Next(worlds[i], settings, steps[i])
  }

  // ----- What is measured ---------------------------------------------------

  function FilledSize(db: Db, id: OrderId): int {
    if id in db.orders then db.orders[id].filled else 0
  }

  predicate IsBooked(db: Db, e: EventId) {
    e in db.events && db.events[e].status.Processed?
  }

  ghost function PendingTable(db: Db, trades: map<EventId, Trade>, id: OrderId): map<EventId, real> {
    map e | e in trades ::
      if trades[e].order == id && !IsBooked(db, e) then trades[e].execution.size as real else 0.0
  }

  /** Matched shares of an order that accounting has not booked. */
  ghost function PendingShares(db: Db, trades: map<EventId, Trade>, id: OrderId): real {
    Sum(PendingTable(db, trades, id))
  }

  /** Shares of an order that are, or may still be, matched but are not booked. */
  function Unaccounted(w: World, id: OrderId): int
    requires id in w.remote && id in w.db.reservations
  {
    w.remote[id].Quantity(w.db.reservations[id].original) - FilledSize(w.db, id)
  }

  ghost function ExposureTable(w: World, scope: Scope): map<OrderId, real>
    requires w.remote.Keys == w.db.reservations.Keys
  {
    map id | id in w.db.reservations ::
      var r := w.db.reservations[id];
      if r.side.Buy? && InScope(scope, r.market) then Notional(r.limit, Unaccounted(w, id)) else 0.0
  }

  /** The money at risk: what positions cost, plus everything every BUY may still cost. */
  ghost function TrueExposure(w: World, scope: Scope): real
    requires w.remote.Keys == w.db.reservations.Keys
  {
    CapitalUsed(w.db.inventory, scope) + Sum(ExposureTable(w, scope))
  }

  ghost function FeeTable(cash: map<EventId, CashFact>, scope: Scope): map<EventId, real> {
    map e | e in cash ::
      if cash[e].side.Buy? && InScope(scope, cash[e].market) && cash[e].amounts.fee.Some?
      then cash[e].amounts.fee.value else 0.0
  }

  /** Known fees paid on purchases. */
  ghost function BuyFees(cash: map<EventId, CashFact>, scope: Scope): real {
    Sum(FeeTable(cash, scope))
  }

  ghost function SlackTable(reservations: map<OrderId, Reservation>, scope: Scope): map<OrderId, real> {
    map id | id in reservations ::
      var r := reservations[id];
      if r.side.Buy? && InScope(scope, r.market) then Notional(r.limit, SIZE_TOLERANCE) else 0.0
  }

  /** The matching tolerance of 1e-6 shares per BUY order, at its limit price. */
  ghost function Slack(reservations: map<OrderId, Reservation>, scope: Scope): real {
    Sum(SlackTable(reservations, scope))
  }

  function Cap(settings: Settings, scope: Scope): real {
    if scope.None? then settings.globalCap else settings.marketCap
  }

  // ----- The invariant ------------------------------------------------------

  ghost predicate GoodReservation(db: Db, r: Reservation) {
    && r.market in db.markets && db.markets[r.market].Lists(r.token)
    && 0 < r.limit < ONE_DOLLAR && 0 <= r.remaining <= r.original && 0 < r.original
    && r.notional == (if r.side.Buy? then Notional(r.limit, r.remaining) else 0.0)
    && (!r.Active() ==> r.remaining == 0)
  }

  ghost predicate GoodOrder(w: World, id: OrderId)
    requires id in w.db.orders
  {
    && id in w.db.reservations && id in w.remote
    && var o, r := w.db.orders[id], w.db.reservations[id];
    && o.reservation == Some(id)
    && o.market == r.market && o.token == r.token && o.side == r.side
    && o.price == r.limit && o.size == r.original
    && o.filled >= 0
    && (o.exchangeId.Some? ==> w.remote[id].Accepted? && w.remote[id].exchangeId == o.exchangeId.value)
  }

  ghost predicate GoodRemote(w: World, id: OrderId)
    requires id in w.remote && id in w.db.reservations
  {
    match w.remote[id]
    case Accepted(_, matched, open) =>
      id in w.db.orders && 0 <= matched && 0 <= open && matched + open <= w.db.reservations[id].original
    case InFlight => id in w.db.orders
    case _ => true
  }

  ghost predicate DistinctExchangeIds(remote: map<OrderId, Remote>) {
    forall a, b ::
      (a in remote && b in remote && remote[a].Accepted? && remote[b].Accepted?
       && remote[a].exchangeId == remote[b].exchangeId) ==> a == b
  }

  ghost predicate GoodTrade(w: World, e: EventId)
    requires e in w.trades
  {
    var t := w.trades[e];
    && t.order in w.remote && t.order in w.db.reservations
    && w.remote[t.order].Accepted? && w.remote[t.order].exchangeId == t.execution.exchangeId
    && t.execution.size > 0
    && 0 < t.execution.price < ONE_DOLLAR
    && (w.db.reservations[t.order].side.Buy? ==> t.execution.price <= w.db.reservations[t.order].limit)
    && (t.execution.token.Some? ==> t.execution.token.value == w.db.reservations[t.order].token)
  }

  ghost predicate GoodEvent(w: World, e: EventId)
    requires e in w.db.events
  {
    e in w.trades && w.db.events[e].execution == w.trades[e].execution
  }

  /** Matched minus booked is exactly what is pending. */
  ghost predicate Accounted(w: World, id: OrderId)
    requires id in w.remote
  {
    (w.remote[id].Matched() - FilledSize(w.db, id)) as real == PendingShares(w.db, w.trades, id)
  }

  /** A reservation covers all its order may still cost, up to 1e-6 shares. */
  ghost predicate Covered(w: World, id: OrderId)
    requires id in w.remote && id in w.db.reservations
  {
    Unaccounted(w, id) <= w.db.reservations[id].remaining + SIZE_TOLERANCE
  }

  ghost predicate GoodLocal(w: World, id: OrderId)
    requires id in w.pass.locals
  {
    && id in w.db.orders
    && var l, o := w.pass.locals[id], w.db.orders[id];
    && l.size == o.size && l.filled <= o.filled
    && (l.exchangeId.Some? ==> o.exchangeId == l.exchangeId)
  }

  predicate IsFetched(w: World, id: OrderId) {
    id in w.remote && id in w.db.reservations && w.remote[id].Accepted? && w.remote[id].exchangeId in w.pass.facts
  }

  ghost predicate GoodFact(w: World, id: OrderId)
    requires IsFetched(w, id)
  {
    var fact, r := w.pass.facts[w.remote[id].exchangeId], w.remote[id];
    && fact.original == w.db.reservations[id].original
    && 0 <= fact.matched <= r.matched
    && (fact.status.CanceledGroup? || fact.status.FilledGroup? ==> r.open == 0 && r.matched == fact.matched)
  }

  ghost predicate GoodPass(w: World) {
    && (forall id :: id in w.pass.locals ==> GoodLocal(w, id))
    && (forall id :: IsFetched(w, id) ==> GoodFact(w, id))
  }

  ghost predicate GoodInventory(db: Db) {
    && db.inventory.Keys <= db.markets.Keys
    && (forall m :: m in db.markets ==> db.markets[m].yesToken != db.markets[m].noToken)
    && (forall m :: m in db.inventory ==> db.inventory[m].book.Sound())
  }

  ghost predicate GoodReservations(w: World) {
    && w.remote.Keys == w.db.reservations.Keys
    && forall id :: id in w.db.reservations ==> GoodReservation(w.db, w.db.reservations[id])
  }

  ghost predicate GoodOrders(w: World) {
    forall id :: id in w.db.orders ==> GoodOrder(w, id)
  }

  ghost predicate GoodRemotes(w: World) {
    && w.remote.Keys == w.db.reservations.Keys
    && DistinctExchangeIds(w.remote)
    && forall id :: id in w.remote ==> GoodRemote(w, id)
  }

  ghost predicate GoodTrades(w: World) {
    forall e :: e in w.trades ==> GoodTrade(w, e)
  }

  ghost predicate GoodEvents(w: World) {
    forall e :: e in w.db.events ==> GoodEvent(w, e)
  }

  /** Rows agree with each other and with the exchange. */
  ghost predicate Consistent(w: World) {
    && GoodReservations(w)
    && GoodInventory(w.db)
    && GoodOrders(w)
    && GoodRemotes(w)
    && GoodTrades(w)
    && GoodEvents(w)
    && GoodPass(w)
  }

  /** Every share the exchange matched, or may match, is booked, pending or reserved. */
  ghost predicate Complete(w: World) {
    && w.remote.Keys == w.db.reservations.Keys
    && (forall id :: id in w.remote ==> Accounted(w, id))
    && (forall id :: id in w.remote ==> Covered(w, id))
  }

  ghost predicate TotalIsCached(db: Db) {
    db.reservedTotal == ActiveReserved(db.reservations, None)
  }

  ghost predicate CashIsGood(db: Db) {
    forall e :: e in db.cash && db.cash[e].amounts.fee.Some? ==> db.cash[e].amounts.fee.value >= 0.0
  }

  /** The budget promise for one scope. */
  ghost predicate WithinBudget(w: World, settings: Settings, scope: Scope)
    requires w.remote.Keys == w.db.reservations.Keys
  {
    TrueExposure(w, scope)
    <= Cap(settings, scope) + MONEY_TOLERANCE + BuyFees(w.db.cash, scope) + Slack(w.db.reservations, scope)
  }

  /** What holds after every step, whatever the exchange and the watchdog do. */
  ghost predicate Inv(w: World) {
    Consistent(w) && Complete(w) && TotalIsCached(w.db) && CashIsGood(w.db)
  }
}
