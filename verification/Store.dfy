/** The tables as the services change them: one method per service operation, each
    reading and writing rows step by step, proved to commit exactly what the
    transaction functions say.

    A transaction runs without interference (its rows are locked), so a method is
    one transaction or a sequence of them by one caller. */
module Store {
  import opened Common
  import opened Accounting
  import opened Fees
  import opened Rows
  import opened Transactions
  import opened Reconciliation
  import opened Applying
  import World

  // ----- Sums by scanning rows ----------------------------------------------

  ghost function Restrict(table: map<nat, real>, keys: set<nat>): map<nat, real> {
    map k | k in table && k in keys :: table[k]
  }

  lemma RestrictPick(table: map<nat, real>, keys: set<nat>, k: nat)
    requires keys <= table.Keys && k in keys
    ensures Sum(Restrict(table, keys)) == table[k] + Sum(Restrict(table, keys - {k}))
  {
    SumWithout(Restrict(table, keys), k);
    assert Restrict(table, keys) - {k} == Restrict(table, keys - {k});
  }

  lemma RestrictAll(table: map<nat, real>)
    ensures Restrict(table, table.Keys) == table
    ensures Sum(Restrict(table, {})) == 0.0
  {
    assert Restrict(table, {}) == map[];
  }

  /** What one inbox row goes through: a processing attempt and, when that is rolled back,
      the separate transaction that fails the row closed. */
  ghost function Handle(db: Db, e: EventId): Processing {
    var p := Process(db, e);
    if p.outcome.RolledBack? then Processing(MarkFailed(p.db, e), p.outcome) else p
  }

  ghost function HandleAll(db: Db, ids: seq<EventId>): Db {
    if ids == [] then db else Handle(HandleAll(db, ids[..|ids| - 1]), ids[|ids| - 1]).db
  }

  ghost predicate Linked(db: Db) {
    && UniqueExchangeIds(db.orders)
    && forall id :: id in db.orders && db.orders[id].reservation.Some? ==> db.orders[id].reservation == Some(id)
  }

  lemma UniqueLookUp(orders: map<OrderId, Order>, x: ExchangeId, id: OrderId)
    requires UniqueExchangeIds(orders) && id in orders && orders[id].exchangeId == Some(x)
    ensures LookUp(orders, x) == Some(id)
  {
  }

  /** A live order names its reservation. */
  predicate Reserves(o: Order) {
    o.status in {Pending, Open, OrderStatus.Unknown} ==> o.reservation.Some?
  }

  /** An exchange id is free for an order exactly when no other order carries it. */
  lemma HolderDecides(orders: map<OrderId, Order>, x: ExchangeId, id: OrderId)
    requires UniqueExchangeIds(orders) && id in orders
    ensures LookUp(orders, x).None? || LookUp(orders, x).value == id
       <==> forall other :: other in orders && other != id ==> orders[other].exchangeId != Some(x)
  {
  }

  lemma RemappedStaysUnique(orders: map<OrderId, Order>, id: OrderId, row: Order)
    requires UniqueExchangeIds(orders) && id in orders
    requires row.exchangeId == orders[id].exchangeId
             || forall other :: other in orders && other != id ==> orders[other].exchangeId != row.exchangeId
    ensures UniqueExchangeIds(orders[id := row])
  {
  }

  // ----- Submission ---------------------------------------------------------

  datatype AcceptedStatus = Live | Delayed | Matched | OtherStatus

  /** How a submission ended, as its caller sees it. */
  datatype Reply =
    | LeaseExpired                             // never sent
    | AcceptedAs(exchangeId: ExchangeId, status: AcceptedStatus)
    | ExplicitlyRefused                        // success is false
    | RequestRejected                          // refused before it was taken
    | Ambiguous
    | Raised                                   // timeout, transport, open circuit breaker
  {
    /** The fates of the order at the exchange that the reply leaves open. A planned order was
        not sent; one in flight was sent and may still be accepted. */
    predicate Allows(fate: World.Remote) {
      match this
      case LeaseExpired => fate.Planned?
      case ExplicitlyRefused => fate.Absent?
      case RequestRejected => fate.Absent?
      case AcceptedAs(x, Live) => fate.Accepted? && fate.exchangeId == x
      case AcceptedAs(x, Delayed) => fate.Accepted? && fate.exchangeId == x
      case AcceptedAs(x, Matched) => fate.Accepted? && fate.exchangeId == x
      case AcceptedAs(_, OtherStatus) => !fate.Planned?
      case Ambiguous => !fate.Planned?
      case Raised => !fate.Planned?
    }

    /** No fate the reply leaves open is live or may become it. */
    ghost predicate ProvesDead() {
      forall fate: World.Remote :: Allows(fate) ==> !fate.MayLive()
    }

    /** The exchange can not have accepted the order. */
    predicate NeverAccepted() { LeaseExpired? || ExplicitlyRefused? || RequestRejected? }

    function ExchangeIdKnown(): Option<ExchangeId> {
      if AcceptedAs? && !status.OtherStatus? then Some(exchangeId) else None
    }

    function OrderOutcome(): OrderStatus {
      if NeverAccepted() then OrderStatus.Failed
      else if AcceptedAs? && (status.Live? || status.Delayed?) then Open
      else OrderStatus.Unknown
    }
  }

  lemma NeverAcceptedIsDead(reply: Reply)
    ensures reply.NeverAccepted() <==> reply.ProvesDead()
  {
    assert reply.Ambiguous? || reply.Raised? ==> reply.Allows(World.InFlight);
    assert reply.AcceptedAs? ==> reply.Allows(World.Accepted(reply.exchangeId, 0, 0));
  }

  /** What a stored reply makes of the order row and its reservation, reply by reply. */
  predicate Settles(reply: Reply, o: Order, r: Reservation) {
    match reply
    case LeaseExpired => o.status.Failed? && o.exchangeId.None? && r.status.OrderFailed?
    case ExplicitlyRefused => o.status.Failed? && o.exchangeId.None? && r.status.OrderFailed?
    case RequestRejected => o.status.Failed? && o.exchangeId.None? && r.status.OrderFailed?
    case AcceptedAs(x, Live) => o.status.Open? && o.exchangeId == Some(x) && r.status.Opened? && r.exchangeId == Some(x)
    case AcceptedAs(x, Delayed) => o.status.Open? && o.exchangeId == Some(x) && r.status.Opened? && r.exchangeId == Some(x)
    case AcceptedAs(x, Matched) => o.status.Unknown? && o.exchangeId == Some(x) && r.status.Unresolved?
    case AcceptedAs(_, OtherStatus) => o.status.Unknown? && o.exchangeId.None? && r.status.Unresolved?
    case Ambiguous => o.status.Unknown? && o.exchangeId.None? && r.status.Unresolved?
    case Raised => o.status.Unknown? && o.exchangeId.None? && r.status.Unresolved?
  }

  /** The exchange id a reply names is carried by another order, so the outcome cannot be stored. */
  ghost predicate Taken(orders: map<OrderId, Order>, id: OrderId, reply: Reply) {
    && reply.AcceptedAs? && !reply.status.OtherStatus?
    && exists other :: other in orders && other != id && orders[other].exchangeId == Some(reply.exchangeId)
  }

  lemma NewRowTakesNothing(before: map<OrderId, Order>, after: map<OrderId, Order>, id: OrderId, reply: Reply)
    requires id in after && after == before[id := after[id]]
    ensures Taken(after, id, reply) == Taken(before, id, reply)
  {
    if Taken(before, id, reply) {
      var other :| other in before && other != id && before[other].exchangeId == Some(reply.exchangeId);
      assert after[other].exchangeId == Some(reply.exchangeId);
    }
  }

  /** The end of a submission, as the transactions it consists of. */
  ghost function Settled(db: Db, id: OrderId, reply: Reply, stored: bool): Db {
    if !stored || Taken(db.orders, id, reply) then MarkActive(db, id, Unresolved)
    else
      var p := PersistSubmit(db, id, reply.ExchangeIdKnown(), reply.OrderOutcome());
      if reply.OrderOutcome().Open? then MarkOpen(p, id, reply.exchangeId)
      else if reply.OrderOutcome().Failed? then Release(p, id, OrderFailed)
      else MarkActive(p, id, Unresolved)
  }

  /** A whole submission. */
  ghost function Submitted(
    db: Db, settings: Settings, id: OrderId, market: MarketId, token: TokenId, side: Side, price: int, size: int,
    journaled: bool, reply: Reply, stored: bool): Db
  {
    var grant := if side.Buy? then ReserveBuy(db, settings, id, market, token, price, size)
                 else ReserveSell(db, id, market, token, price, size);
    if grant.NotGranted? then db
    else if !journaled then Release(grant.db, id, JournalFailed)
    else Settled(Journal(grant.db, id, market, token, side, price, size), id, reply, stored)
  }

  /** The liquidity role as a payload states it. */
  datatype RoleField = NoRole | Recognised(role: Role) | Unrecognised {
    function Role(): Option<Role> { if Recognised? then Some(role) else None }
  }

  /** The fee rate as a payload states it; anything that is not a finite number is NotANumber. */
  datatype RateField = NoRate | Stated(value: real) | NotANumber {
    function Rate(): Option<real> { if Stated? then Some(value) else None }
  }

  /** What a caller may ask to cancel. */
  datatype CancelTarget = ByOrder(id: OrderId) | ByExchange(exchangeId: ExchangeId)

  /** The row a cancel request is about. */
  ghost function RowFor(orders: map<OrderId, Order>, target: CancelTarget): Option<OrderId> {
    match target
    case ByOrder(id) => if id in orders then Some(id) else None
    case ByExchange(x) => LookUp(orders, x)
  }

  /** A request reaches the exchange exactly when an exchange id is known for it. */
  ghost predicate Sendable(orders: map<OrderId, Order>, target: CancelTarget) {
    target.ByExchange? || (target.id in orders && orders[target.id].exchangeId.Some?)
  }

  datatype CancelReply = CancelConfirmed | AlreadyClosed | MatchedUnknown | CancelFailed

  /** The rows after a cancel request and its answer. */
  ghost function AfterCancel(db: Db, target: CancelTarget, reply: CancelReply): Db {
    var found := RowFor(db.orders, target);
    if found.None? || !Sendable(db.orders, target) then db
    else match reply
      case MatchedUnknown => MarkActive(CancelResponse(db, found.value, OrderStatus.Unknown), found.value, Unresolved)
      case CancelFailed => db
      case _ => MarkActive(CancelResponse(db, found.value, Canceled), found.value, CancelPending)
  }

  /** The order a cancel request names. */
  ghost predicate Names(orders: map<OrderId, Order>, target: CancelTarget, id: OrderId) {
    id in orders && match target case ByOrder(it) => it == id case ByExchange(x) => orders[id].exchangeId == Some(x)
  }

  /** The order row after an answer. */
  function Answered(o: Order, reply: CancelReply): Order {
    if o.exchangeId.None? then o
    else match reply
      case CancelConfirmed => o.(status := OrderStatus.Canceled)
      case AlreadyClosed => o.(status := OrderStatus.Canceled)
      case MatchedUnknown => o.(status := OrderStatus.Unknown)
      case CancelFailed => o
  }

  /** And its reservation. */
  function StillHeld(o: Order, r: Reservation, reply: CancelReply): Reservation {
    if o.exchangeId.None? || !r.Active() then r
    else match reply
      case CancelConfirmed => r.(status := CancelPending)
      case AlreadyClosed => r.(status := CancelPending)
      case MatchedUnknown => r.(status := Unresolved)
      case CancelFailed => r
  }

  /** What an answer makes of an order that carries an exchange id, and of its active reservation: an
      answer that it is canceled or closed closes the row and leaves the reservation pending, an answer
      that it was matched leaves both open, and a failure changes nothing. */
  lemma CancelAnswerIs(db: Db, target: CancelTarget, reply: CancelReply, id: OrderId)
    requires Linked(db) && Names(db.orders, target, id) && db.orders[id].reservation == Some(id) && id in db.reservations
    ensures AfterCancel(db, target, reply)
            == db.(orders := db.orders[id := Answered(db.orders[id], reply)],
                   reservations := db.reservations[id := StillHeld(db.orders[id], db.reservations[id], reply)])
  {
    if target.ByExchange? {
      UniqueLookUp(db.orders, target.exchangeId, id);
      hide LookUp;
    }
    assert Sendable(db.orders, target) <==> db.orders[id].exchangeId.Some?;
    var same := db.(orders := db.orders[id := db.orders[id]], reservations := db.reservations[id := db.reservations[id]]);
    assert same == db;
    AnswerOnRow(db, id, OrderStatus.Unknown, Unresolved);
    AnswerOnRow(db, id, OrderStatus.Canceled, CancelPending);
    hide MarkActive, CancelResponse;
  }

  lemma AnswerOnRow(db: Db, id: OrderId, status: OrderStatus, hold: ReservationStatus)
    requires id in db.orders && db.orders[id].reservation == Some(id) && id in db.reservations
    ensures MarkActive(CancelResponse(db, id, status), id, hold)
            == db.(orders := db.orders[id := db.orders[id].(status := status)],
                   reservations := db.reservations[id := if db.reservations[id].Active() then db.reservations[id].(status := hold)
                                                         else db.reservations[id]])
  {
    assert db.reservations == db.reservations[id := db.reservations[id]];
  }

  /** A request that names no row changes none. */
  lemma CancelOfNothing(db: Db, target: CancelTarget, reply: CancelReply)
    requires forall id: OrderId :: !Names(db.orders, target, id)
    ensures AfterCancel(db, target, reply) == db
  {
    match target
    case ByOrder(id) => assert !Names(db.orders, target, id);
    case ByExchange(x) =>
      if LookUp(db.orders, x).Some? {
        assert Names(db.orders, target, LookUp(db.orders, x).value);
      }
  }

  /** Methods of a single write - MarkOpen, MarkActiveForOrder, FailClosed, OverwritePosition - say
      no more than which transaction function they carry out: that ties them to the steps of
      World, about which it is proved what they keep. */
  class Database {
    var markets: map<MarketId, Market>
    var orders: map<OrderId, Order>
    var reservations: map<OrderId, Reservation>
    var reservedTotal: real
    var events: map<EventId, FillEvent>
    var cash: map<EventId, CashFact>
    var inventory: map<MarketId, Inventory>

    function Rows(): Db
      reads this
    {
      Db(markets, orders, reservations, reservedTotal, events, cash, inventory)
    }

    ghost predicate Valid()
      reads this
    {
      Linked(Rows())
    }

    constructor (markets: map<MarketId, Market>, inventory: map<MarketId, Inventory>)
      ensures Valid() && Rows() == Db(markets, map[], map[], 0.0, map[], map[], inventory)
    {
      this.markets, this.inventory := markets, inventory;
      orders, reservations, reservedTotal, events, cash := map[], map[], 0.0, map[], map[];
    }

    // ----- Sums -------------------------------------------------------------

    method ActiveReservedSum(scope: Scope) returns (total: real)
      ensures total == ActiveReserved(reservations, scope)
    {
      hide Sum, Restrict;
      ghost var table := ReservedTable(reservations, scope);
      RestrictAll(table);
      var rest := reservations.Keys;
      total := 0.0;
      while rest != {}
        invariant rest <= reservations.Keys == table.Keys
        invariant Sum(table) == total + Sum(Restrict(table, rest))
        decreases rest
      {
        var id :| id in rest;
        RestrictPick(table, rest, id);
        rest := rest - {id};
        if reservations[id].Active() && InScope(scope, reservations[id].market) {
          total := total + reservations[id].notional;
        }
      }
    }

    method CapitalUsedSum(scope: Scope) returns (total: real)
      ensures total == CapitalUsed(inventory, scope)
    {
      hide Sum, Restrict;
      ghost var table := CapitalTable(inventory, scope);
      RestrictAll(table);
      var rest := inventory.Keys;
      total := 0.0;
      while rest != {}
        invariant rest <= inventory.Keys == table.Keys
        invariant Sum(table) == total + Sum(Restrict(table, rest))
        decreases rest
      {
        var m :| m in rest;
        RestrictPick(table, rest, m);
        rest := rest - {m};
        if InScope(scope, m) {
          total := total + (inventory[m].book.yesCapital + inventory[m].book.noCapital);
        }
      }
    }

    method PromisedSharesSum(market: MarketId, token: TokenId) returns (total: real)
      ensures total == PromisedShares(reservations, market, token)
    {
      hide Sum, Restrict;
      ghost var table := PromisedTable(reservations, market, token);
      RestrictAll(table);
      var rest := reservations.Keys;
      total := 0.0;
      while rest != {}
        invariant rest <= reservations.Keys == table.Keys
        invariant Sum(table) == total + Sum(Restrict(table, rest))
        decreases rest
      {
        var id :| id in rest;
        RestrictPick(table, rest, id);
        rest := rest - {id};
        var r := reservations[id];
        if r.Active() && r.side.Sell? && r.market == market && r.token == token {
          total := total + r.remaining as real;
        }
      }
    }

    method FindOrder(x: ExchangeId) returns (found: Option<OrderId>)
      requires Valid()
      ensures found == LookUp(orders, x)
    {
      var rest := orders.Keys;
      while rest != {}
        invariant rest <= orders.Keys
        invariant forall id :: id in orders && id !in rest ==> orders[id].exchangeId != Some(x)
        decreases rest
      {
        var id :| id in rest;
        if orders[id].exchangeId == Some(x) {
          UniqueLookUp(orders, x, id);
          return Some(id);
        }
        rest := rest - {id};
      }
      return None;
    }

    // ----- Reservations -----------------------------------------------------

    method ReserveBuy(settings: Settings, id: OrderId, market: MarketId, token: TokenId, limit: int, size: int)
      returns (r: Result<real, Refusal>)
      requires Valid()
      modifies this
      ensures Valid()
      ensures match Transactions.ReserveBuy(old(Rows()), settings, id, market, token, limit, size)
              case Granted(after, notional) => r == Success(notional) && Rows() == after
              case NotGranted(reason) => r == Failure(reason) && Rows() == old(Rows())
    {
      if !ValidIntent(limit, size) {
        return Failure(InvalidPriceOrSize);
      }
      var requested := Notional(limit, size);
      if market !in markets || (token != markets[market].yesToken && token != markets[market].noToken) {
        return Failure(TokenNotMapped);
      }
      if id in reservations {
        if reservations[id].Active() {
          return Success(reservations[id].notional);
        }
        return Failure(TerminalClientOrderId);
      }
      var globalReserved := ActiveReservedSum(None);
      var marketReserved := ActiveReservedSum(Some(market));
      var globalCapital := CapitalUsedSum(None);
      var marketCapital := CapitalUsedSum(Some(market));
      hide ActiveReserved, CapitalUsed, EvaluateReservation;
      var decision := EvaluateReservation(
        requested, globalCapital, globalReserved, marketCapital, marketReserved, settings);
      if decision.Refused? {
        return Failure(decision.reason);
      }
      reservations := reservations[id :=
        Reservation(market, token, Buy, limit, size, size, requested, None, Reserved)];
      reservedTotal := globalReserved + requested;
      return Success(requested);
    }

    method ReserveSell(id: OrderId, market: MarketId, token: TokenId, limit: int, size: int)
      returns (r: Result<real, Refusal>)
      requires Valid()
      modifies this
      ensures Valid()
      ensures match Transactions.ReserveSell(old(Rows()), id, market, token, limit, size)
              case Granted(after, notional) => r == Success(notional) && Rows() == after
              case NotGranted(reason) => r == Failure(reason) && Rows() == old(Rows())
    {
      if !ValidIntent(limit, size) {
        return Failure(InvalidPriceOrSize);
      }
      if id in reservations {
        if reservations[id].Active() {
          return Success(reservations[id].notional);
        }
        return Failure(TerminalClientOrderId);
      }
      if market !in markets || (token != markets[market].yesToken && token != markets[market].noToken) {
        return Failure(TokenNotMapped);
      }
      if market !in inventory {
        return Failure(NoInventoryLedger);
      }
      var exposure := if token == markets[market].yesToken then inventory[market].book.yesExposure
                      else inventory[market].book.noExposure;
      var alreadyReserved := PromisedSharesSum(market, token);
      hide PromisedShares, EvaluateSellReservation;
      var decision := EvaluateSellReservation(size, exposure, alreadyReserved);
      if decision.Refused? {
        return Failure(decision.reason);
      }
      reservations := reservations[id := Reservation(market, token, Sell, limit, size, size, 0.0, None, Reserved)];
      return Success(0.0);
    }

    method MarkOpen(id: OrderId, x: ExchangeId)
      requires Valid()
      modifies this
      ensures Valid() && Rows() == Transactions.MarkOpen(old(Rows()), id, x)
    {
      if id in reservations && (reservations[id].status.Reserved? || reservations[id].status.Opened?) {
        reservations := reservations[id := reservations[id].(status := Opened, exchangeId := Some(x))];
      }
    }

    method MarkActiveForOrder(id: OrderId, status: ReservationStatus)
      requires Valid()
      modifies this
      ensures Valid() && Rows() == MarkActive(old(Rows()), id, status)
    {
      if id !in orders || orders[id].reservation.None? {
        return;
      }
      var rid := orders[id].reservation.value;
      if rid in reservations && reservations[rid].Active() {
        reservations := reservations[rid := reservations[rid].(status := status)];
      }
    }

    method Release(id: OrderId, terminal: ReservationStatus) returns (released: real)
      requires Valid()
      modifies this
      ensures Valid() && Rows() == Transactions.Release(old(Rows()), id, terminal)
      ensures released == if id in old(reservations) && old(reservations)[id].Active() then old(reservations)[id].notional else 0.0
    {
      if id !in reservations || !reservations[id].Active() {
        return 0.0;
      }
      released := reservations[id].notional;
      reservations := reservations[id := reservations[id].(notional := 0.0)];
      reservations := reservations[id := reservations[id].(remaining := 0)];
      reservations := reservations[id := reservations[id].(status := terminal)];
      reservedTotal := MaxReal(0.0, reservedTotal - released);
    }

    /** Recomputes the cached total; the wallet is consistent when every active reservation
        has a journal entry, every live order a reservation, and no cancel is pending. */
    method RebuildAndValidate() returns (safe: bool)
      requires Valid()
      modifies this
      ensures Valid() && Rows() == RebuildTotal(old(Rows()))
      ensures safe <==>
              && (forall id :: id in reservations && reservations[id].Active() ==>
                    id in orders && reservations[id].status != CancelPending)
              && (forall id :: id in orders && (orders[id].status.Pending? || orders[id].status.Open? || orders[id].status.Unknown?) ==>
                    orders[id].reservation.Some?)
    {
      var total := ActiveReservedSum(None);
      hide ActiveReserved;
      reservedTotal := total;
      safe := true;
      var rest := reservations.Keys;
      while rest != {}
        invariant rest <= reservations.Keys
        invariant safe <==> forall id :: id in reservations && id !in rest && reservations[id].Active() ==>
                    id in orders && reservations[id].status != CancelPending
        decreases rest
      {
        var id :| id in rest;
        rest := rest - {id};
        if reservations[id].Active() && (id !in orders || reservations[id].status.CancelPending?) {
          safe := false;
        }
      }
      ghost var linked := safe;
      var others := orders.Keys;
      while others != {}
        invariant others <= orders.Keys
        invariant safe <==> linked && forall id :: id in orders && id !in others ==> Reserves(orders[id])
        decreases others
      {
        var id :| id in others;
        others := others - {id};
        if orders[id].status in {Pending, Open, OrderStatus.Unknown} && orders[id].reservation.None? {
          safe := false;
        }
      }
    }

    // ----- Orders -----------------------------------------------------------

    method JournalOrder(id: OrderId, market: MarketId, token: TokenId, side: Side, price: int, size: int)
      requires Valid() && id !in orders
      modifies this
      ensures Valid() && Rows() == Journal(old(Rows()), id, market, token, side, price, size)
    {
      orders := orders[id := Order(Some(id), None, market, token, side, price, size, Pending, 0)];
    }

    /** False when the journal entry is missing or the exchange id is already taken. */
    method PersistSubmit(id: OrderId, x: Option<ExchangeId>, status: OrderStatus) returns (committed: bool)
      requires Valid()
      modifies this
      ensures Valid() && Rows() == Transactions.PersistSubmit(old(Rows()), id, x, status)
      ensures committed <==>
              && id in old(orders)
              && (x.Some? ==> forall other :: other in old(orders) && other != id ==> old(orders)[other].exchangeId != x)
      ensures reservations == old(reservations) && orders.Keys == old(orders).Keys
      ensures committed ==>
                orders[id] == old(orders)[id].(exchangeId := if x.Some? then x else old(orders)[id].exchangeId, status := status)
      ensures !committed ==> orders == old(orders)
    {
      hide LookUp, UniqueExchangeIds;
      if id !in orders {
        return false;
      }
      var row := orders[id];
      if x.Some? {
        var holder := FindOrder(x.value);
        HolderDecides(orders, x.value, id);
        if holder.Some? && holder.value != id {
          return false;
        }
        row := row.(exchangeId := x);
      }
      row := row.(status := status);
      RemappedStaysUnique(orders, id, row);
      orders := orders[id := row];
      return true;
    }

    /** The end of a submission: persist the outcome, then settle the reservation. Only a
        reply after which the order can not be live, once stored, frees it. */
    method SettleSubmission(id: OrderId, reply: Reply, stored: bool) returns (placed: Option<ExchangeId>)
      requires Valid() && id in orders && orders[id].reservation == Some(id) && orders[id].exchangeId.None?
      requires id in reservations && reservations[id].status == Reserved
      modifies this
      ensures Valid() && id in orders && id in reservations
      ensures Rows() == Settled(old(Rows()), id, reply, stored)
      ensures reservations.Keys == old(reservations).Keys
      ensures !reservations[id].Active() <==> reply.ProvesDead() && stored
      ensures stored && !Taken(old(orders), id, reply) ==> Settles(reply, orders[id], reservations[id])
      ensures !stored || Taken(old(orders), id, reply) ==> orders == old(orders) && reservations[id].status == Unresolved
      ensures reservations[id].Active() ==>
                reservations[id].remaining == old(reservations)[id].remaining && reservations[id].notional == old(reservations)[id].notional
      ensures placed.Some? <==> orders[id].status == Open && orders[id].exchangeId.Some? && stored && !Taken(old(orders), id, reply)
      ensures placed.Some? ==> orders[id].exchangeId == placed
      ensures forall other :: other in reservations && other != id ==> reservations[other] == old(reservations)[other]
    {
      hide UniqueExchangeIds, Linked;
      NeverAcceptedIsDead(reply);
      hide Reply.ProvesDead;
      var x, status := reply.ExchangeIdKnown(), reply.OrderOutcome();
      var committed := false;
      if stored {
        committed := PersistSubmit(id, x, status);
      }
      if !committed {
        MarkActiveForOrder(id, Unresolved);
        return None;
      }
      if x.Some? && (status.Open? || status.Unknown?) {
        if status.Open? {
          MarkOpen(id, x.value);
        } else {
          MarkActiveForOrder(id, Unresolved);
        }
      } else if status.Failed? {
        var _ := Release(id, OrderFailed);
      } else if status.Unknown? {
        MarkActiveForOrder(id, Unresolved);
      }
      return if status.Open? then x else None;
    }

    method JournalAndSettle(
      id: OrderId, market: MarketId, token: TokenId, side: Side, price: int, size: int, reply: Reply, stored: bool
    ) returns (placed: Option<ExchangeId>)
      requires Valid() && id !in orders && id in reservations && reservations[id].status == Reserved
      modifies this
      ensures Valid() && id in orders && id in reservations
      ensures Rows() == Settled(Journal(old(Rows()), id, market, token, side, price, size), id, reply, stored)
      ensures reservations.Keys == old(reservations).Keys
      ensures !reservations[id].Active() <==> reply.ProvesDead() && stored
      ensures stored && !Taken(old(orders), id, reply) ==> Settles(reply, orders[id], reservations[id])
      ensures !stored || Taken(old(orders), id, reply) ==>
                orders[id].status.Pending? && orders[id].exchangeId.None? && reservations[id].status == Unresolved
      ensures reservations[id].Active() ==>
                reservations[id].remaining == old(reservations)[id].remaining && reservations[id].notional == old(reservations)[id].notional
      ensures placed.Some? ==> stored && !Taken(old(orders), id, reply) && orders[id].status == Open && orders[id].exchangeId == placed
      ensures forall other :: other in reservations && other != id ==> reservations[other] == old(reservations)[other]
    {
      hide UniqueExchangeIds, Reply.ProvesDead, Settled, Settles, Taken;
      JournalOrder(id, market, token, side, price, size);
      NewRowTakesNothing(old(orders), orders, id, reply);
      placed := SettleSubmission(id, reply, stored);
    }

    /** The state machine of a submission: reserve, journal, send, persist, settle. The flags
        say whether the journal entry and the outcome could be written. */
    method CreateOrder(
      settings: Settings, id: OrderId, market: MarketId, token: TokenId, side: Side, price: int, size: int,
      journaled: bool, reply: Reply, stored: bool
    ) returns (placed: Option<ExchangeId>)
      requires Valid() && id !in orders && id !in reservations
      modifies this
      ensures Valid()
      ensures Rows() == Submitted(old(Rows()), settings, id, market, token, side, price, size, journaled, reply, stored)
      ensures id !in reservations ==> Rows() == old(Rows()) && placed.None?
      ensures id in reservations && !journaled ==> !reservations[id].Active() && id !in orders && placed.None?
      ensures id in reservations && journaled ==>
                && id in orders
                && (!reservations[id].Active() <==> reply.ProvesDead() && stored)
                && (stored && !Taken(old(orders), id, reply) ==> Settles(reply, orders[id], reservations[id]))
                && (!stored || Taken(old(orders), id, reply) ==>
                      orders[id].status.Pending? && orders[id].exchangeId.None? && reservations[id].status == Unresolved)
                && (reservations[id].Active() ==>
                      && reservations[id].remaining == size
                      && (side.Buy? ==> reservations[id].notional == Notional(price, size)))
      ensures placed.Some? ==> id in orders && orders[id].exchangeId == placed && orders[id].status == Open && reservations[id].status == Opened
      ensures forall other :: other != id ==>
                (other in reservations) == (other in old(reservations))
                && (other in reservations ==> reservations[other] == old(reservations)[other])
    {
      hide ActiveReserved, CapitalUsed, PromisedShares, EvaluateReservation, EvaluateSellReservation, Notional, UniqueExchangeIds,
        Reply.ProvesDead, Settled, Taken;
      var grant: Result<real, Refusal>;
      if side.Buy? {
        grant := ReserveBuy(settings, id, market, token, price, size);
      } else {
        grant := ReserveSell(id, market, token, price, size);
      }
      if grant.Failure? {
        return None;
      }
      if !journaled {
        var _ := Release(id, JournalFailed);
        return None;
      }
      placed := JournalAndSettle(id, market, token, side, price, size, reply, stored);
    }

    /** A cancel event of the user stream keeps the reservation until reconciliation. */
    method HandleCancellation(x: ExchangeId)
      requires Valid()
      modifies this
      ensures Valid()
      ensures var canceled := CancelEvent(old(Rows()), x);
              var found := LookUp(old(orders), x);
              Rows() == if found.Some? && old(orders)[found.value].status !in {Canceled, OrderStatus.Filled}
                        then MarkActive(canceled, found.value, CancelPending) else canceled
    {
      var found := FindOrder(x);
      if found.Some? && !orders[found.value].status.Canceled? && !orders[found.value].status.Filled? {
        orders := orders[found.value := orders[found.value].(status := Canceled)];
        MarkActiveForOrder(found.value, CancelPending);
      }
    }

    /** Writes the answer to a cancel request back to the row it was about. */
    method NoteCancelReply(id: OrderId, reply: CancelReply)
      requires Valid() && id in orders
      modifies this
      ensures Valid()
      ensures Rows() == match reply
                        case MatchedUnknown => MarkActive(CancelResponse(old(Rows()), id, OrderStatus.Unknown), id, Unresolved)
                        case CancelFailed => old(Rows())
                        case _ => MarkActive(CancelResponse(old(Rows()), id, Canceled), id, CancelPending)
      ensures forall r :: r in old(reservations) && old(reservations)[r].Active() ==>
                r in reservations && reservations[r].Active()
                && reservations[r].remaining == old(reservations)[r].remaining
                && reservations[r].notional == old(reservations)[r].notional
    {
      match reply {
        case MatchedUnknown =>
          orders := orders[id := orders[id].(status := OrderStatus.Unknown)];
          MarkActiveForOrder(id, Unresolved);
        case CancelFailed =>
        case _ =>
          orders := orders[id := orders[id].(status := Canceled)];
          MarkActiveForOrder(id, CancelPending);
      }
    }

    /** A cancel request, by local id or by exchange id, and the answer to it: nothing it says
        frees a reservation. An exchange id without a row is canceled at the exchange all the
        same; a local id is not, while no exchange id is known for it. */
    method CancelOrder(target: CancelTarget, reply: CancelReply) returns (done: bool)
      requires Valid()
      modifies this
      ensures Valid()
      ensures done <==>
                && (target.ByExchange? || (target.id in old(orders) && old(orders)[target.id].exchangeId.Some?))
                && (reply.CancelConfirmed? || reply.AlreadyClosed?)
      ensures Rows() == AfterCancel(old(Rows()), target, reply)
      ensures forall r :: r in old(reservations) && old(reservations)[r].Active() ==>
                r in reservations && reservations[r].Active()
                && reservations[r].remaining == old(reservations)[r].remaining
                && reservations[r].notional == old(reservations)[r].notional
    {
      var found: Option<OrderId>;
      var exchangeId: Option<ExchangeId>;
      match target {
        case ByOrder(id) =>
          found := if id in orders then Some(id) else None;
          exchangeId := None;
        case ByExchange(x) =>
          found := FindOrder(x);
          exchangeId := Some(x);
      }
      if found.Some? {
        exchangeId := orders[found.value].exchangeId;
      }
      if exchangeId.None? {
        return false;
      }
      if found.Some? {
        NoteCancelReply(found.value, reply);
      }
      done := reply.CancelConfirmed? || reply.AlreadyClosed?;
    }

    // ----- Fills ------------------------------------------------------------

    /** Releases the filled part of a reservation, inside the caller's transaction. */
    method ApplyFillInSession(rid: Option<OrderId>, size: int, price: int, side: Side) returns (failure: Option<FillError>)
      modifies this
      ensures orders == old(orders) && events == old(events) && cash == old(cash) && inventory == old(inventory)
      ensures markets == old(markets)
      ensures failure == (
        if rid.None? then Some(NoReservationLink)
        else if rid.value !in old(reservations) then Some(NoReservation)
        else
          match ConsumeReservation(old(reservations)[rid.value], size, price, side)
          case Failure(error) => Some(error)
          case Success(_) => None)
      ensures failure.None? ==>
                var consumed := ConsumeReservation(old(reservations)[rid.value], size, price, side).value;
                && reservations == old(reservations)[rid.value := consumed.0]
                && reservedTotal == MaxReal(0.0, old(reservedTotal) - consumed.1)
    {
      if rid.None? {
        return Some(NoReservationLink);
      }
      if rid.value !in reservations {
        return Some(NoReservation);
      }
      var row := reservations[rid.value];
      if !row.Active() {
        return Some(TerminalReservation);
      }
      if row.side != side {
        return Some(SideMismatch);
      }
      if size <= 0 || price <= 0 {
        return Some(NonPositiveFill);
      }
      if side.Buy? && price > row.limit {
        return Some(PriceAboveLimit);
      }
      if size > row.remaining + SIZE_TOLERANCE {
        return Some(SizeAboveReservation);
      }
      var released := 0.0;
      if side.Buy? {
        released := MinReal(row.notional, Notional(row.limit, size));
      }
      hide Notional;
      row := row.(remaining := MaxInt(0, row.remaining - size));
      row := row.(notional := MaxReal(0.0, row.notional - released));
      row := row.(status := if row.remaining <= 0 then Consumed else Partial);
      reservations := reservations[rid.value := row];
      reservedTotal := MaxReal(0.0, reservedTotal - released);
      return None;
    }

    /** The body of the booking transaction; on failure its writes are still uncommitted. */
    method BookExecution(e: EventId, id: OrderId) returns (failure: Option<FillError>)
      requires Valid() && e in events && id in orders
      modifies this
      ensures match BookFill(old(Rows()), e, id)
              case Failure(error) => failure == Some(error)
              case Success(after) => failure == None && Rows() == after
    {
      hide Notional, ResolveFee, BuildCashFact, ConsumeReservation, ApplyFill;
      var order, x := orders[id], events[e].execution;
      var token := if x.token.Some? then x.token.value else order.token;
      if order.market !in markets {
        return Some(NoMarketOrToken);
      }
      var market := markets[order.market];
      if token != market.yesToken && token != market.noToken {
        return Some(ForeignToken);
      }
      var isYes := token == market.yesToken;
      var fee := ResolveFee(x.fees, x.role, x.price, x.size, x.feeBps);
      if fee.Failure? {
        return Some(FeeRejected(fee.error));
      }
      var cashFact := BuildCashFact(order.side, x.price, x.size, fee.value);
      if cashFact.Failure? {
        return Some(FeeRejected(cashFact.error));
      }
      var totalFilled := order.filled + x.size;
      if totalFilled > order.size + SIZE_TOLERANCE {
        return Some(CumulativeExceedsOrder);
      }
      var refused := ApplyFillInSession(order.reservation, x.size, x.price, order.side);
      if refused.Some? {
        return refused;
      }
      if order.market !in inventory {
        return Some(NoInventory);
      }
      var row := inventory[order.market];
      if row.accounting != V2 {
        return Some(LegacyLedger);
      }
      var feeAmount := if fee.value.Some? then fee.value.value else 0.0;
      if isYes {
        var after := ApplyFill(Balances(row.book.yesExposure, row.book.yesCapital, row.book.realized),
                               order.side, x.size, x.price, feeAmount);
        if after.Failure? {
          return Some(AccountingRejected(after.error));
        }
        row := row.(book := row.book.(yesExposure := after.value.exposure, yesCapital := after.value.capital,
                                      realized := after.value.realized));
      } else {
        var after := ApplyFill(Balances(row.book.noExposure, row.book.noCapital, row.book.realized),
                               order.side, x.size, x.price, feeAmount);
        if after.Failure? {
          return Some(AccountingRejected(after.error));
        }
        row := row.(book := row.book.(noExposure := after.value.exposure, noCapital := after.value.capital,
                                      realized := after.value.realized));
      }
      row := row.(stateVersion := row.stateVersion + 1);
      if e in cash {
        return Some(CashAlreadyBooked);
      }
      cash := cash[e := CashFact(order.market, order.side, cashFact.value)];
      if fee.value.None? {
        row := row.(accounting := FeeIncomplete);
      }
      inventory := inventory[order.market := row];
      orders := orders[id := order.(filled := totalFilled,
                                    status := if totalFilled >= order.size - SIZE_TOLERANCE then OrderStatus.Filled else Open)];
      events := events[e := FillEvent(x, Processed, Some(Booking(id, order.market, token, order.side, row.stateVersion)))];
      return None;
    }

    method Rollback(before: Db)
      modifies this
      ensures Rows() == before
    {
      markets, orders, reservations, reservedTotal := before.markets, before.orders, before.reservations, before.reservedTotal;
      events, cash, inventory := before.events, before.cash, before.inventory;
    }

    method FailClosed(e: EventId)
      requires Valid()
      modifies this
      ensures Valid() && Rows() == MarkFailed(old(Rows()), e)
    {
      if e in events && events[e].status != Processed {
        events := events[e := events[e].(status := Rejected)];
      }
    }

    method ProcessEvent(e: EventId) returns (verdict: Verdict)
      requires Valid()
      modifies this
      ensures Valid()
      ensures Rows() == Handle(old(Rows()), e).db && verdict == Handle(old(Rows()), e).outcome
    {
      if e !in events {
        return Missing;
      }
      if events[e].status.Processed? || events[e].status.Rejected? {
        return Duplicate(events[e].status);
      }
      var found := FindOrder(events[e].execution.exchangeId);
      if found.None? {
        events := events[e := events[e].(status := Unmapped)];
        return LeftUnmapped;
      }
      var before := Rows();
      BookingKeepsLinks(before, e, found.value);
      hide BookFill;
      var failure := BookExecution(e, found.value);
      if failure.Some? {
        Rollback(before);
        FailClosed(e);
        return RolledBack(failure.value);
      }
      return Booked;
    }

    /** An unusable role or fee rate is refused before anything is written. Otherwise persist
        first, then process: a second delivery of the same event id adds nothing. */
    method RecordAndProcess(e: EventId, x: Execution, role: RoleField, rate: RateField) returns (verdict: Option<Verdict>)
      requires Valid()
      modifies this
      ensures Valid()
      ensures verdict.Some? <==> !role.Unrecognised? && !rate.NotANumber? && (rate.Stated? ==> 0.0 <= rate.value <= 10_000.0)
      ensures verdict.None? ==> Rows() == old(Rows())
      ensures verdict.Some? ==>
                var stated := x.(role := if role.Recognised? then Some(role.role) else None,
                                 feeBps := if rate.Stated? then Some(rate.value) else None);
                var handled := Handle(Record(old(Rows()), e, stated), e);
                Rows() == handled.db && verdict.value == handled.outcome
    {
      hide Handle;
      if role.Unrecognised? {
        return None;
      }
      if rate.NotANumber? || (rate.Stated? && (rate.value < 0.0 || rate.value > 10_000.0)) {
        return None;
      }
      if e !in events {
        events := events[e := FillEvent(x.(role := role.Role(), feeBps := rate.Rate()), Received, None)];
      }
      var handled := ProcessEvent(e);
      verdict := Some(handled);
    }

    /** Retries the executions that arrived before their order was mapped. */
    method RetryUnmapped(x: ExchangeId) returns (handled: seq<EventId>)
      requires Valid()
      modifies this
      ensures Valid()
      ensures forall e :: e in handled <==>
                e in old(events) && old(events)[e].status.Unmapped? && old(events)[e].execution.exchangeId == x
      ensures forall i, j :: 0 <= i < j < |handled| ==> handled[i] != handled[j]
      ensures Rows() == HandleAll(old(Rows()), handled)
    {
      hide Handle;
      handled := [];
      ghost var before := Rows();
      var waiting := set e | e in events && events[e].status.Unmapped? && events[e].execution.exchangeId == x;
      while waiting != {}
        invariant Valid()
        invariant forall e :: e in handled || e in waiting <==> WaitsFor(before, e, x)
        invariant forall e :: e in handled ==> e !in waiting
        invariant forall i, j :: 0 <= i < j < |handled| ==> handled[i] != handled[j]
        invariant Rows() == HandleAll(before, handled)
        decreases waiting
      {
        var e :| e in waiting;
        waiting := waiting - {e};
        var _ := ProcessEvent(e);
        assert (handled + [e])[..|handled + [e]| - 1] == handled;
        handled := handled + [e];
      }
    }

    // ----- Reconciliation and repair ----------------------------------------

    method ApplyVerdict(a: Action) returns (applied: bool)
      requires Valid() && a.local.Some?
      modifies this
      ensures Valid()
      ensures applied <==> Applicable(old(Rows()), a)
      ensures Rows() == if applied then WithVerdict(old(Rows()), a) else old(Rows())
    {
      hide ApplyToOrder, ApplyToReservation;
      var id := a.local.value;
      if !Applicable(Rows(), a) {
        return false;
      }
      AppliedOrderKeepsLinks(orders, id, a);
      if orders[id].reservation.Some? && orders[id].reservation.value in reservations {
        reservations := reservations[id := ApplyToReservation(reservations[id], a)];
      }
      orders := orders[id := ApplyToOrder(orders[id], a)];
      return true;
    }

    /** Applies the verdicts on local orders in one transaction. */
    method ApplyVerdicts(actions: seq<Action>) returns (committed: bool)
      requires Valid()
      requires forall i :: 0 <= i < |actions| ==> actions[i].local.Some?
      requires forall i, j :: 0 <= i < j < |actions| ==> actions[i].local != actions[j].local
      modifies this
      ensures Valid()
      ensures committed <==> forall i :: 0 <= i < |actions| ==> Applicable(old(Rows()), actions[i])
      ensures Rows() == if committed then Applying.ApplyReport(old(Rows()), VerdictTable(actions)) else old(Rows())
    {
      hide ActiveReserved, ApplyToOrder, ApplyToReservation, WithVerdict, Applicable, Linked, PartlyApplied, VerdictTable;
      var before := Rows();
      NothingApplied(before);
      assert actions[..0] == [];
      for i := 0 to |actions|
        invariant Valid()
        invariant forall k :: 0 <= k < i ==> Applicable(before, actions[k])
        invariant Rows() == PartlyApplied(before, VerdictTable(actions[..i]))
      {
        VerdictTableGrows(actions, i);
        OneMoreApplied(before, VerdictTable(actions[..i]), actions[i]);
        var applied := ApplyVerdict(actions[i]);
        if !applied {
          Rollback(before);
          return false;
        }
      }
      assert actions[..|actions|] == actions;
      var total := ActiveReservedSum(None);
      TotalCompletes(before, VerdictTable(actions), total);
      SameOrdersSameLinks(Rows(), Rows().(reservedTotal := total));
      reservedTotal := total;
      return true;
    }

    /** Replaces a ledger row by the authoritative position. */
    method OverwritePosition(market: MarketId, actual: Position)
      requires Valid()
      modifies this
      ensures Valid() && Rows() == Overwrite(old(Rows()), market, actual)
    {
      if market !in inventory {
        return;
      }
      var row := inventory[market];
      var yes, no := row.book.yesExposure, row.book.noExposure;
      row := row.(book := row.book.(yesExposure := actual.yes, noExposure := actual.no), stateVersion := row.stateVersion + 1);
      row := row.(book := row.book.(yesCapital := ReconcileCapital(actual.yes, actual.yesCost, yes, row.book.yesCapital)));
      row := row.(book := row.book.(noCapital := ReconcileCapital(actual.no, actual.noCost, no, row.book.noCapital)));
      row := row.(accounting := UnverifiedExternal);
      inventory := inventory[market := row];
    }
  }

  ghost predicate WaitsFor(db: Db, e: EventId, x: ExchangeId) {
    e in db.events && db.events[e].status.Unmapped? && db.events[e].execution.exchangeId == x
  }

  lemma BookingKeepsLinks(db: Db, e: EventId, id: OrderId)
    requires Linked(db) && e in db.events && id in db.orders
    ensures BookFill(db, e, id).Success? ==> Linked(BookFill(db, e, id).value)
  {
    hide ResolveFee, BuildCashFact, ConsumeReservation, ApplyToLedger;
  }

  lemma AppliedOrderKeepsLinks(orders: map<OrderId, Order>, id: OrderId, a: Action)
    requires id in orders && UniqueExchangeIds(orders)
    ensures UniqueExchangeIds(orders[id := ApplyToOrder(orders[id], a)])
    ensures ApplyToOrder(orders[id], a).reservation == orders[id].reservation
  {
    var after := orders[id := ApplyToOrder(orders[id], a)];
    assert forall other :: other in orders ==> after[other].exchangeId == orders[other].exchangeId;
  }

  /** A verdict can be applied while its order exists and a confirmed-open order still
      has its reservation. */
  predicate Applicable(db: Db, a: Action)
    requires a.local.Some?
  {
    && a.local.value in db.orders
    && (a.kind.OpenConfirmed? ==> db.orders[a.local.value].reservation.Some? && a.local.value in db.reservations)
  }

  /** The verdicts on local orders, by order. */
  function VerdictTable(actions: seq<Action>): map<OrderId, Action> {
    if actions == [] then map[]
    else
      var earlier, last := VerdictTable(actions[..|actions| - 1]), actions[|actions| - 1];
      if last.local.Some? then earlier[last.local.value := last] else earlier
  }

  lemma {:induction false} VerdictTableKeys(actions: seq<Action>)
    requires forall i :: 0 <= i < |actions| ==> actions[i].local.Some?
    ensures forall id :: id in VerdictTable(actions) ==> exists i :: 0 <= i < |actions| && actions[i].local == Some(id)
  {
    if actions != [] {
      VerdictTableKeys(actions[..|actions| - 1]);
    }
  }

  lemma VerdictTableGrows(actions: seq<Action>, i: nat)
    requires i < |actions| && forall k :: 0 <= k < |actions| ==> actions[k].local.Some?
    requires forall a, b :: 0 <= a < b < |actions| ==> actions[a].local != actions[b].local
    ensures VerdictTable(actions[..i + 1]) == VerdictTable(actions[..i])[actions[i].local.value := actions[i]]
    ensures actions[i].local.value !in VerdictTable(actions[..i])
  {
    assert actions[..i + 1][..i] == actions[..i];
    VerdictTableKeys(actions[..i]);
  }

  /** The rows while a report is being applied, before the total is recomputed. */
  ghost function PartlyApplied(db: Db, verdicts: map<OrderId, Action>): Db {
    ApplyReport(db, verdicts).(reservedTotal := db.reservedTotal)
  }

  ghost function WithVerdict(db: Db, a: Action): Db
    requires a.local.Some? && a.local.value in db.orders
  {
    var id := a.local.value;
    db.(orders := db.orders[id := ApplyToOrder(db.orders[id], a)],
        reservations := if db.orders[id].reservation.Some? && id in db.reservations
                        then db.reservations[id := ApplyToReservation(db.reservations[id], a)] else db.reservations)
  }

  lemma SameOrdersSameLinks(a: Db, b: Db)
    requires a.orders == b.orders
    ensures Linked(a) == Linked(b)
  {
  }

  lemma NothingApplied(db: Db)
    ensures VerdictTable([]) == map[]
    ensures PartlyApplied(db, map[]) == db
  {
    var none: map<OrderId, Action> := map[];
    assert (map id | id in db.orders :: if id in none then ApplyToOrder(db.orders[id], none[id]) else db.orders[id]) == db.orders;
    assert PartlyApplied(db, none).reservations == db.reservations;
  }

  /** One row of a partly applied report. */
  lemma PartlyAppliedRow(db: Db, verdicts: map<OrderId, Action>, id: OrderId)
    ensures var p := PartlyApplied(db, verdicts);
            && (id in p.orders <==> id in db.orders)
            && (id in p.reservations <==> id in db.reservations)
            && (id in db.orders ==>
                  p.orders[id] == if id in verdicts then ApplyToOrder(db.orders[id], verdicts[id]) else db.orders[id])
            && (id in db.reservations ==>
                  p.reservations[id] == if id in verdicts && id in db.orders && db.orders[id].reservation.Some?
                                        then ApplyToReservation(db.reservations[id], verdicts[id]) else db.reservations[id])
  {
    hide ApplyToReservation, ApplyToOrder, ActiveReserved;
  }

  lemma PartlyAppliedRest(db: Db, verdicts: map<OrderId, Action>)
    ensures var p := PartlyApplied(db, verdicts);
            p == db.(orders := p.orders, reservations := p.reservations)
  {
    hide ApplyToReservation, ApplyToOrder, ActiveReserved;
  }

  lemma OneMoreApplied(db: Db, verdicts: map<OrderId, Action>, a: Action)
    requires a.local.Some? && a.local.value !in verdicts
    ensures Applicable(PartlyApplied(db, verdicts), a) == Applicable(db, a)
    ensures Applicable(db, a) ==>
              a.local.value in PartlyApplied(db, verdicts).orders
              && PartlyApplied(db, verdicts[a.local.value := a]) == WithVerdict(PartlyApplied(db, verdicts), a)
  {
    hide ApplyToReservation, ApplyToOrder, ActiveReserved, PartlyApplied;
    var id := a.local.value;
    var before, after := PartlyApplied(db, verdicts), PartlyApplied(db, verdicts[id := a]);
    PartlyAppliedRow(db, verdicts, id);
    if Applicable(db, a) {
      var expected := WithVerdict(before, a);
      forall k ensures (k in after.orders) == (k in expected.orders) && (k in after.orders ==> after.orders[k] == expected.orders[k]) {
        PartlyAppliedRow(db, verdicts, k);
        PartlyAppliedRow(db, verdicts[id := a], k);
      }
      forall k ensures (k in after.reservations) == (k in expected.reservations)
                       && (k in after.reservations ==> after.reservations[k] == expected.reservations[k]) {
        PartlyAppliedRow(db, verdicts, k);
        PartlyAppliedRow(db, verdicts[id := a], k);
      }
      assert after.orders == expected.orders && after.reservations == expected.reservations;
      PartlyAppliedRest(db, verdicts);
      PartlyAppliedRest(db, verdicts[id := a]);
    }
  }

  lemma TotalCompletes(db: Db, verdicts: map<OrderId, Action>, total: real)
    requires total == ActiveReserved(PartlyApplied(db, verdicts).reservations, None)
    ensures PartlyApplied(db, verdicts).(reservedTotal := total) == ApplyReport(db, verdicts)
  {
    hide ActiveReserved, ApplyToOrder, ApplyToReservation;
  }

  // ----- What retrying settles ----------------------------------------------

  lemma HandleSettles(db: Db, e: EventId, id: OrderId)
    requires Linked(db) && e in db.events && !db.events[e].status.Processed? && !db.events[e].status.Rejected?
    requires id in db.orders && db.orders[id].exchangeId == Some(db.events[e].execution.exchangeId)
    ensures var db' := Handle(db, e).db;
            && Linked(db') && db'.events.Keys == db.events.Keys
            && db'.events[e].status in {Processed, EventStatus.Rejected}
            && (forall other :: other in db.events && other != e ==> db'.events[other] == db.events[other])
            && id in db'.orders && db'.orders[id].exchangeId == db.orders[id].exchangeId
  {
    hide ResolveFee, BuildCashFact, ConsumeReservation, ApplyToLedger;
    UniqueLookUp(db.orders, db.events[e].execution.exchangeId, id);
    BookingKeepsLinks(db, e, id);
  }

  /** Once the order is mapped, a retry settles every execution that waited for it, and
      touches no other inbox row. */
  lemma {:induction false} RetrySettlesAll(db: Db, x: ExchangeId, id: OrderId, handled: seq<EventId>)
    requires Linked(db) && id in db.orders && db.orders[id].exchangeId == Some(x)
    requires forall e :: e in handled ==> WaitsFor(db, e, x)
    requires forall i, j :: 0 <= i < j < |handled| ==> handled[i] != handled[j]
    ensures var db' := HandleAll(db, handled);
            && Linked(db') && db'.events.Keys == db.events.Keys
            && id in db'.orders && db'.orders[id].exchangeId == Some(x)
            && (forall e :: e in handled ==> e in db'.events && db'.events[e].status in {Processed, EventStatus.Rejected})
            && (forall e :: e in db.events && e !in handled ==> e in db'.events && db'.events[e] == db.events[e])
    decreases |handled|
  {
    hide Handle, Linked;
    if handled != [] {
      var init, e := handled[..|handled| - 1], handled[|handled| - 1];
      RetrySettlesAll(db, x, id, init);
      assert e !in init && e in handled && WaitsFor(db, e, x);
      assert forall other :: other in init ==> other in handled;
      HandleSettles(HandleAll(db, init), e, id);
    }
  }
}
