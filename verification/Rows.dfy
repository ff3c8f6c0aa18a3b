/** The tables the trading core keeps, as values.

    Reservations and journal entries share the client order id as their key: the
    journal entry of an order names its reservation, and the reservation's unique
    client id names the order. */
module Rows {
  import opened Common
  import opened Accounting
  import opened Fees

  type OrderId = nat
  type ExchangeId = nat
  type EventId = nat
  type MarketId = nat
  type TokenId = nat

  datatype Market = Market(yesToken: TokenId, noToken: TokenId) {
    predicate Lists(token: TokenId) { token == yesToken || token == noToken }

    function OutcomeOf(token: TokenId): Outcome { if token == yesToken then Yes else No }
  }

  datatype OrderStatus = Pending | Open | Filled | Canceled | Failed | Unknown

  datatype Order = Order(
    reservation: Option<OrderId>,
    exchangeId: Option<ExchangeId>,
    market: MarketId,
    token: TokenId,
    side: Side,
    price: int,
    size: int,
    status: OrderStatus,
    filled: int)

  datatype ReservationStatus =
    // statuses that hold risk
    | Reserved | Opened | Partial | Unresolved | CancelPending
    // terminal statuses
    | Consumed | ReconciledCanceled | OrderFailed | JournalFailed

  datatype Reservation = Reservation(
    market: MarketId,
    token: TokenId,
    side: Side,
    limit: int,
    original: int,
    remaining: int,
    notional: real,
    exchangeId: Option<ExchangeId>,
    status: ReservationStatus)
  {
    predicate Active() {
      status in {Reserved, Opened, Partial, Unresolved, CancelPending}
    }

    function Freed(terminal: ReservationStatus): Reservation {
      this.(remaining := 0, notional := 0.0, status := terminal)
    }
  }

  /** What the exchange says about one execution against one order. */
  datatype Execution = Execution(
    exchangeId: ExchangeId,
    token: Option<TokenId>,
    price: int,
    size: int,
    fees: seq<FeeField>,
    role: Option<Role>,
    feeBps: Option<real>)

  datatype EventStatus = Received | Unmapped | Processed | Rejected

  /** What processing adds to an inbox row. */
  datatype Booking = Booking(order: OrderId, market: MarketId, token: TokenId, side: Side, version: nat)

  datatype FillEvent = FillEvent(execution: Execution, status: EventStatus, booking: Option<Booking>)

  datatype CashFact = CashFact(market: MarketId, side: Side, amounts: CashAmounts)

  datatype AccountingVersion = V1 | V2 | FeeIncomplete | UnverifiedExternal

  datatype Inventory = Inventory(book: Ledger, accounting: AccountingVersion, stateVersion: nat)

  datatype Db = Db(
    markets: map<MarketId, Market>,
    orders: map<OrderId, Order>,
    reservations: map<OrderId, Reservation>,
    reservedTotal: real,
    events: map<EventId, FillEvent>,
    cash: map<EventId, CashFact>,
    inventory: map<MarketId, Inventory>)

  /** All markets, or one of them. */
  type Scope = Option<MarketId>

  predicate InScope(scope: Scope, market: MarketId) {
    scope.None? || scope.value == market
  }

  ghost function ReservedTable(reservations: map<OrderId, Reservation>, scope: Scope): map<OrderId, real> {
    map id | id in reservations ::
      if reservations[id].Active() && InScope(scope, reservations[id].market) then reservations[id].notional else 0.0
  }

  /** BUY notional held by the active reservations of a scope. */
  ghost function ActiveReserved(reservations: map<OrderId, Reservation>, scope: Scope): real {
    Sum(ReservedTable(reservations, scope))
  }

  ghost function CapitalTable(inventory: map<MarketId, Inventory>, scope: Scope): map<MarketId, real> {
    map m | m in inventory :: if InScope(scope, m) then inventory[m].book.Capital() else 0.0
  }

  /** Cost basis of the positions of a scope. */
  ghost function CapitalUsed(inventory: map<MarketId, Inventory>, scope: Scope): real {
    Sum(CapitalTable(inventory, scope))
  }

  ghost function PromisedTable(
    reservations: map<OrderId, Reservation>, market: MarketId, token: TokenId
  ): map<OrderId, real>
  {
    map id | id in reservations ::
      var r := reservations[id];
      if r.Active() && r.side.Sell? && r.market == market && r.token == token then r.remaining as real else 0.0
  }

  /** Shares of one token promised to active SELL reservations. */
  ghost function PromisedShares(reservations: map<OrderId, Reservation>, market: MarketId, token: TokenId): real {
    Sum(PromisedTable(reservations, market, token))
  }

  /** The unique column orders_journal.exchange_order_id. */
  ghost predicate UniqueExchangeIds(orders: map<OrderId, Order>) {
    forall a, b :: a in orders && b in orders && orders[a].exchangeId.Some? && orders[a].exchangeId == orders[b].exchangeId
      ==> a == b
  }

  /** The journal entry an exchange id is mapped to. */
  ghost function LookUp(orders: map<OrderId, Order>, exchangeId: ExchangeId): (r: Option<OrderId>)
    ensures r.Some? ==> r.value in orders && orders[r.value].exchangeId == Some(exchangeId)
    ensures r.None? ==> forall id :: id in orders ==> orders[id].exchangeId != Some(exchangeId)
  {
    if id :| id in orders && orders[id].exchangeId == Some(exchangeId) then Some(id) else None
  }
}
