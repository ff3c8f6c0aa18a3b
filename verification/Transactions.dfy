/** What each database transaction commits, as a function of the tables it reads.

    A transaction that raises is rolled back and leaves the tables as they were;
    its error is then the result. The methods of class Database carry these
    transactions out row by row. */
module Transactions {
  import opened Common
  import opened Accounting
  import opened Fees
  import opened Rows

  datatype Settings = Settings(globalCap: real, marketCap: real)

  // ----- Admission ----------------------------------------------------------

  datatype Refusal =
    | InvalidPriceOrSize
    | TokenNotMapped
    | TerminalClientOrderId
    | NotPositive
    | NegativeRiskState
    | CapsNotPositive
    | GlobalBudget
    | MarketBudget
    | NoInventoryLedger
    | InvalidSellInputs
    | ExceedsUnreservedInventory

  datatype Decision = Admitted | Refused(reason: Refusal)

  function EvaluateReservation(
    requested: real, globalCapital: real, globalReserved: real,
    marketCapital: real, marketReserved: real, settings: Settings
  ): Decision
  {
    if requested <= 0.0 then Refused(NotPositive)
    else if globalCapital < 0.0 || globalReserved < 0.0 || marketCapital < 0.0 || marketReserved < 0.0 then
      Refused(NegativeRiskState)
    else if settings.globalCap <= 0.0 || settings.marketCap <= 0.0 then Refused(CapsNotPositive)
    else if globalCapital + globalReserved + requested > settings.globalCap + MONEY_TOLERANCE then
      Refused(GlobalBudget)
    else if marketCapital + marketReserved + requested > settings.marketCap + MONEY_TOLERANCE then
      Refused(MarketBudget)
    else Admitted
  }

  /** On whole units of 1e-8 shares the 1e-9 share tolerance is an exact comparison. */
  function EvaluateSellReservation(requested: int, exposure: int, promised: real): Decision {
    if requested <= 0 || exposure < 0 || promised < 0.0 then Refused(InvalidSellInputs)
    else if exposure as real - promised - requested as real < 0.0 then Refused(ExceedsUnreservedInventory)
    else Admitted
  }

  predicate ValidIntent(limit: int, size: int) {
    0 < limit < ONE_DOLLAR && size > 0
  }

  function NewReservation(market: MarketId, token: TokenId, side: Side, limit: int, size: int): Reservation {
    Reservation(market, token, side, limit, size, size,
                if side.Buy? then Notional(limit, size) else 0.0, None, Reserved)
  }

  datatype Grant = Granted(db: Db, notional: real) | NotGranted(reason: Refusal)

  ghost function ReserveBuy(
    db: Db, settings: Settings, id: OrderId, market: MarketId, token: TokenId, limit: int, size: int
  ): Grant
  {
    if !ValidIntent(limit, size) then NotGranted(InvalidPriceOrSize)
    else if market !in db.markets || !db.markets[market].Lists(token) then NotGranted(TokenNotMapped)
    else if id in db.reservations then
      if db.reservations[id].Active() then Granted(db, db.reservations[id].notional)
      else NotGranted(TerminalClientOrderId)
    else
      var requested := Notional(limit, size);
      var globalReserved := ActiveReserved(db.reservations, None);
      var decision := EvaluateReservation(
        requested, CapitalUsed(db.inventory, None), globalReserved,
        CapitalUsed(db.inventory, Some(market)), ActiveReserved(db.reservations, Some(market)), settings);
      if decision.Refused? then NotGranted(decision.reason)
      else
        Granted(db.(reservations := db.reservations[id := NewReservation(market, token, Buy, limit, size)],
                    reservedTotal := globalReserved + requested),
                requested)
  }

  function ExposureOf(db: Db, market: MarketId, token: TokenId): int
    requires market in db.markets && market in db.inventory
  {
    db.inventory[market].book.On(db.markets[market].OutcomeOf(token)).exposure
  }

  ghost function ReserveSell(
    db: Db, id: OrderId, market: MarketId, token: TokenId, limit: int, size: int
  ): Grant
  {
    if !ValidIntent(limit, size) then NotGranted(InvalidPriceOrSize)
    else if id in db.reservations then
      if db.reservations[id].Active() then Granted(db, db.reservations[id].notional)
      else NotGranted(TerminalClientOrderId)
    else if market !in db.markets || !db.markets[market].Lists(token) then NotGranted(TokenNotMapped)
    else if market !in db.inventory then NotGranted(NoInventoryLedger)
    else
      var decision := EvaluateSellReservation(
        size, ExposureOf(db, market, token), PromisedShares(db.reservations, market, token));
      if decision.Refused? then NotGranted(decision.reason)
      else
        Granted(db.(reservations := db.reservations[id := NewReservation(market, token, Sell, limit, size)]), 0.0)
  }

  // ----- Reservation bookkeeping --------------------------------------------

  function MarkOpen(db: Db, id: OrderId, exchangeId: ExchangeId): Db {
    if id in db.reservations && db.reservations[id].status in {Reserved, Opened} then
      db.(reservations := db.reservations[id := db.reservations[id].(status := Opened, exchangeId := Some(exchangeId))])
    else db
  }

  function MarkActive(db: Db, id: OrderId, status: ReservationStatus): Db {
    if id in db.orders && db.orders[id].reservation.Some? then
      var rid := db.orders[id].reservation.value;
      if rid in db.reservations && db.reservations[rid].Active() then
        db.(reservations := db.reservations[rid := db.reservations[rid].(status := status)])
      else db
    else db
  }

  function Release(db: Db, id: OrderId, terminal: ReservationStatus): Db {
    if id in db.reservations && db.reservations[id].Active() then
      db.(reservations := db.reservations[id := db.reservations[id].Freed(terminal)],
          reservedTotal := MaxReal(0.0, db.reservedTotal - db.reservations[id].notional))
    else db
  }

  ghost function RebuildTotal(db: Db): Db {
    db.(reservedTotal := ActiveReserved(db.reservations, None))
  }

  // ----- Order journal ------------------------------------------------------

  function Journal(db: Db, id: OrderId, market: MarketId, token: TokenId, side: Side, price: int, size: int): Db {
    db.(orders := db.orders[id := Order(Some(id), None, market, token, side, price, size, Pending, 0)])
  }

  /** Writing back a submit outcome. The unique column refuses an exchange id that
      another order already carries, which rolls the transaction back. */
  ghost function PersistSubmit(db: Db, id: OrderId, exchangeId: Option<ExchangeId>, status: OrderStatus): Db {
    if id !in db.orders then db
    else if exchangeId.Some? && exists other :: other in db.orders && other != id && db.orders[other].exchangeId == exchangeId
    then db
    else
      var order := db.orders[id];
      db.(orders := db.orders[id := order.(
            exchangeId := if exchangeId.Some? then exchangeId else order.exchangeId, status := status)])
  }

  /** A cancel event of the user stream: an order already canceled or filled is left alone. */
  ghost function CancelEvent(db: Db, exchangeId: ExchangeId): Db {
    var found := LookUp(db.orders, exchangeId);
    if found.Some? && db.orders[found.value].status !in {Canceled, Filled} then
      db.(orders := db.orders[found.value := db.orders[found.value].(status := Canceled)])
    else db
  }

  /** A classified cancel response: the order row takes the status, whatever it was. */
  function CancelResponse(db: Db, id: OrderId, status: OrderStatus): Db {
    if id in db.orders then db.(orders := db.orders[id := db.orders[id].(status := status)]) else db
  }

  // ----- Fill inbox ---------------------------------------------------------

  datatype FillError =
    | NoMarketOrToken
    | ForeignToken
    | CumulativeExceedsOrder
    | NoReservationLink
    | NoReservation
    | TerminalReservation
    | SideMismatch
    | NonPositiveFill
    | PriceAboveLimit
    | SizeAboveReservation
    | NoInventory
    | LegacyLedger
    | CashAlreadyBooked
    | FeeRejected(fee: FeeError)
    | AccountingRejected(accounting: AccountingError)

  function Record(db: Db, e: EventId, execution: Execution): Db {
    if e in db.events then db
    else db.(events := db.events[e := FillEvent(execution, Received, None)])
  }

  function ConsumeReservation(
    r: Reservation, size: int, price: int, side: Side
  ): Result<(Reservation, real), FillError>
  {
    if !r.Active() then Failure(TerminalReservation)
    else if r.side != side then Failure(SideMismatch)
    else if size <= 0 || price <= 0 then Failure(NonPositiveFill)
    else if side.Buy? && price > r.limit then Failure(PriceAboveLimit)
    else if size > r.remaining + SIZE_TOLERANCE then Failure(SizeAboveReservation)
    else
      var released := if side.Buy? then MinReal(r.notional, Notional(r.limit, size)) else 0.0;
      var remaining := MaxInt(0, r.remaining - size);
      Success((r.(remaining := remaining,
                  notional := MaxReal(0.0, r.notional - released),
                  status := if remaining <= 0 then Consumed else Partial),
               released))
  }

  function MapFee<T>(r: Result<T, FeeError>): Result<T, FillError> {
    if r.Success? then Success(r.value) else Failure(FeeRejected(r.error))
  }

  function MapAccounting<T>(r: Result<T, AccountingError>): Result<T, FillError> {
    if r.Success? then Success(r.value) else Failure(AccountingRejected(r.error))
  }

  function FilledStatus(filled: int, size: int): OrderStatus {
    if filled >= size - SIZE_TOLERANCE then Filled else Open
  }

  /** The single transaction that books one execution against its order: reservation,
      inventory, cash fact, order and inbox row together, or none of them. */
  function BookFill(db: Db, e: EventId, id: OrderId): Result<Db, FillError>
    requires e in db.events && id in db.orders
  {
    var order, x := db.orders[id], db.events[e].execution;
    var token := if x.token.Some? then x.token.value else order.token;
    if order.market !in db.markets then Failure(NoMarketOrToken)
    else if !db.markets[order.market].Lists(token) then Failure(ForeignToken)
    else
      var fee :- MapFee(ResolveFee(x.fees, x.role, x.price, x.size, x.feeBps));
      var amounts :- MapFee(BuildCashFact(order.side, x.price, x.size, fee));
      if order.filled + x.size > order.size + SIZE_TOLERANCE then Failure(CumulativeExceedsOrder)
      else if order.reservation.None? then Failure(NoReservationLink)
      else if order.reservation.value !in db.reservations then Failure(NoReservation)
      else
        var consumed :- ConsumeReservation(db.reservations[order.reservation.value], x.size, x.price, order.side);
        if order.market !in db.inventory then Failure(NoInventory)
        else if db.inventory[order.market].accounting != V2 then Failure(LegacyLedger)
        else
          var inv := db.inventory[order.market];
          var fill := Fill(db.markets[order.market].OutcomeOf(token), order.side, x.size, x.price,
                           if fee.Some? then fee.value else 0.0);
          var book :- MapAccounting(ApplyToLedger(inv.book, fill));
          if e in db.cash then Failure(CashAlreadyBooked)
          else
            var version := inv.stateVersion + 1;
            Success(db.(
              reservations := db.reservations[order.reservation.value := consumed.0],
              reservedTotal := MaxReal(0.0, db.reservedTotal - consumed.1),
              inventory := db.inventory[order.market :=
                Inventory(book, if fee.Some? then V2 else FeeIncomplete, version)],
              cash := db.cash[e := CashFact(order.market, order.side, amounts)],
              orders := db.orders[id := order.(filled := order.filled + x.size,
                                               status := FilledStatus(order.filled + x.size, order.size))],
              events := db.events[e := FillEvent(x, Processed,
                Some(Booking(id, order.market, token, order.side, version)))]))
  }

  datatype Verdict =
    | Missing
    | Duplicate(status: EventStatus)
    | LeftUnmapped
    | Booked
    | RolledBack(error: FillError)

  datatype Processing = Processing(db: Db, outcome: Verdict)

  /** One processing attempt of an inbox row. */
  ghost function Process(db: Db, e: EventId): Processing {
    if e !in db.events then Processing(db, Missing)
    else if db.events[e].status in {Processed, Rejected} then Processing(db, Duplicate(db.events[e].status))
    else
      var found := LookUp(db.orders, db.events[e].execution.exchangeId);
      if found.None? then
        Processing(db.(events := db.events[e := db.events[e].(status := Unmapped)]), LeftUnmapped)
      else
        match BookFill(db, e, found.value)
        case Success(after) => Processing(after, Booked)
        case Failure(error) => Processing(db, RolledBack(error))
  }

  /** The separate transaction that fails a row closed; a processed row is never touched. */
  function MarkFailed(db: Db, e: EventId): Db {
    if e in db.events && db.events[e].status != Processed then
      db.(events := db.events[e := db.events[e].(status := Rejected)])
    else db
  }

  // ----- Position overwrite -------------------------------------------------

  const DUST: int := 100_000                 // 0.001 shares

  datatype Position = Position(yes: int, no: int, yesCost: real, noCost: real)

  function ReconcileCapital(actualSize: int, reportedCost: real, previousSize: int, previousCapital: real): real {
    var actual, previous := MaxInt(0, actualSize), MaxInt(0, previousSize);
    var capital, reported := MaxReal(0.0, previousCapital), MaxReal(0.0, reportedCost);
    if actual <= DUST then 0.0
    else if previous > 0 && capital > MONEY_TOLERANCE then
      if actual <= previous then capital * (actual as real / previous as real)
      else MaxReal(capital + Notional(ONE_DOLLAR, actual - previous), reported)
    else MaxReal(Notional(ONE_DOLLAR, actual), reported)
  }

  /** The watchdog replaces a ledger row by the authoritative position. */
  function Overwrite(db: Db, market: MarketId, actual: Position): Db {
    if market !in db.inventory then db
    else
      var inv := db.inventory[market];
      var book := Ledger(
        actual.yes, ReconcileCapital(actual.yes, actual.yesCost, inv.book.yesExposure, inv.book.yesCapital),
        actual.no, ReconcileCapital(actual.no, actual.noCost, inv.book.noExposure, inv.book.noCapital),
        inv.book.realized);
      db.(inventory := db.inventory[market := Inventory(book, UnverifiedExternal, inv.stateVersion + 1)])
  }
}
