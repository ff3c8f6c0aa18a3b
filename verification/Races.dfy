/** What a reconciliation pass that races a fill costs: the exact amounts it re-reserves and
    re-promises, when the promises of Book survive it, and runs in which they do not. */
module Races {
  import opened Common
  import opened Accounting
  import opened Fees
  import opened Rows
  import opened Transactions
  import opened Reconciliation
  import opened Applying
  import opened World
  import opened Safety
  import opened Booking
  import opened Passes
  import opened Runs
  import opened Book

  /** What is being counted: money reserved in a scope, or shares of a token promised. */
  datatype Measure = Money(scope: Scope) | Shares(market: MarketId, token: TokenId)

  /** What n shares of a reservation weigh: their limit price, or their number. */
  function Weigh(k: Measure, r: Reservation, n: int): real {
    match k
    case Money(scope) => if r.side.Buy? && InScope(scope, r.market) then Notional(r.limit, n) else 0.0
    case Shares(m, t) => if r.side.Sell? && r.market == m && r.token == t then n as real else 0.0
  }

  ghost function HeldTable(rs: map<OrderId, Reservation>, k: Measure): map<OrderId, real> {
    map id | id in rs :: Weigh(k, rs[id], Holding(rs[id]))
  }

  function Holding(r: Reservation): int { if r.Active() then r.remaining else 0 }

  /** The shares a pass adds to the reservation of an order it confirms open: all the
      exchange had not matched, less what the reservation holds when the report is applied. */
  function Drift(w: World, id: OrderId): int {
    if IsFetched(w, id) then
      w.db.reservations[id].original - w.pass.facts[w.remote[id].exchangeId].matched - Holding(w.db.reservations[id])
    else 0
  }

  /** What the orders confirmed open gain, order by order. */
  ghost function DriftTable(w: World, unsettled: map<ExchangeId, int>, k: Measure): map<OrderId, real> {
    map id | id in w.db.reservations ::
      if id in w.pass.locals && Verdicts(w.pass, unsettled)[id].kind.OpenConfirmed?
      then Weigh(k, w.db.reservations[id], Drift(w, id)) else 0.0
  }

  predicate ClosingKind(k: Kind) { k in {CanceledConfirmed, FilledConfirmed} }

  /** What the orders confirmed canceled or filled give back. */
  ghost function ClosedTable(w: World, unsettled: map<ExchangeId, int>, k: Measure): map<OrderId, real> {
    map id | id in w.db.reservations ::
      if id in w.pass.locals && ClosingKind(Verdicts(w.pass, unsettled)[id].kind)
      then Weigh(k, w.db.reservations[id], Holding(w.db.reservations[id])) else 0.0
  }

  /** The change a pass makes. */
  ghost function PassChange(w: World, unsettled: map<ExchangeId, int>, k: Measure): real {
    Sum(DriftTable(w, unsettled, k)) - Sum(ClosedTable(w, unsettled, k))
  }

  // ----- The law ------------------------------------------------------------

  lemma WeighAdds(k: Measure, r: Reservation, a: int, b: int)
    ensures Weigh(k, r, a + b) == Weigh(k, r, a) + Weigh(k, r, b)
    ensures Weigh(k, r, 0) == 0.0
  {
    NotionalAdds(r.limit, a, b);
    NotionalOfNothing(r.limit);
    hide Notional;
  }

  lemma WeighTerms(k: Measure, r: Reservation, r': Reservation, n: int)
    requires SameTerms(r, r')
    ensures Weigh(k, r', n) == Weigh(k, r, n)
  {
  }

  /** Both sums the promises speak of are sums of weights. */
  lemma HeldIsReserved(w: World, scope: Scope)
    requires Inv(w)
    ensures ActiveReserved(w.db.reservations, scope) == Sum(HeldTable(w.db.reservations, Money(scope)))
  {
    hide Inv, Sum;
    forall id | id in w.db.reservations
      ensures ReservedTable(w.db.reservations, scope)[id] == HeldTable(w.db.reservations, Money(scope))[id]
    {
      RowNotional(w, id);
      WeighAdds(Money(scope), w.db.reservations[id], 0, 0);
    }
    assert ReservedTable(w.db.reservations, scope) == HeldTable(w.db.reservations, Money(scope));
  }

  lemma HeldIsPromised(w: World, m: MarketId, t: TokenId)
    ensures PromisedShares(w.db.reservations, m, t) == Sum(HeldTable(w.db.reservations, Shares(m, t)))
  {
    hide Sum;
    assert PromisedTable(w.db.reservations, m, t) == HeldTable(w.db.reservations, Shares(m, t));
  }

  lemma AppliedHolding(r: Reservation, a: Action)
    ensures var r' := ApplyToReservation(r, a);
            Holding(r') == if a.kind.OpenConfirmed? then (if a.remaining.Some? then a.remaining.value else 0)
                           else if ClosingKind(a.kind) then 0 else Holding(r)
  {
    hide Notional;
  }

  lemma MappedRow(w: World, id: OrderId)
    requires Inv(w) && id in w.pass.locals
    ensures id in w.db.orders && w.db.orders[id].reservation.Some?
  {
    assert GoodLocal(w, id);
    assert GoodOrder(w, id);
  }

  lemma AppliedRowChange(w: World, unsettled: map<ExchangeId, int>, k: Measure, id: OrderId)
    requires Inv(w) && id in w.db.reservations
    ensures id in Applied(w, unsettled).db.reservations && Verdicts(w.pass, unsettled).Keys == w.pass.locals.Keys
    ensures HeldTable(Applied(w, unsettled).db.reservations, k)[id] + ClosedTable(w, unsettled, k)[id]
            == HeldTable(w.db.reservations, k)[id] + DriftTable(w, unsettled, k)[id]
  {
    hide Inv, Applied, Verdicts, ApplyToReservation, Weigh, Holding, SameTerms;
    AppliedRowForm(w, unsettled, id);
    AppliedTerms(w, unsettled, id);
    var r, r' := w.db.reservations[id], Applied(w, unsettled).db.reservations[id];
    WeighTerms(k, r, r', Holding(r'));
    WeighAdds(k, r, 0, 0);
    if id in w.pass.locals {
      MappedRow(w, id);
      var a := Verdicts(w.pass, unsettled)[id];
      AppliedHolding(r, a);
      if a.kind.OpenConfirmed? {
        ConfirmedRemaining(w, unsettled, id);
        WeighAdds(k, r, Holding(r), Drift(w, id));
      }
    }
  }

  lemma AppliedTerms(w: World, unsettled: map<ExchangeId, int>, id: OrderId)
    requires Inv(w) && id in w.db.reservations
    ensures id in Applied(w, unsettled).db.reservations
    ensures SameTerms(w.db.reservations[id], Applied(w, unsettled).db.reservations[id])
  {
    hide Consistent, Complete, Verdicts, ApplyToReservation, ApplyToOrder, ActiveReserved;
    AppliedReservation(w, unsettled, id);
    AppliedKeys(w, unsettled);
  }

  lemma AppliedChange(w: World, unsettled: map<ExchangeId, int>, k: Measure)
    requires Inv(w)
    ensures Sum(HeldTable(Applied(w, unsettled).db.reservations, k))
            == Sum(HeldTable(w.db.reservations, k)) + PassChange(w, unsettled, k)
  {
    hide Inv, Sum, Applied, Verdicts, Weigh, Drift;
    AppliedKeys(w, unsettled);
    var before, after := HeldTable(w.db.reservations, k), HeldTable(Applied(w, unsettled).db.reservations, k);
    var drift, closed := DriftTable(w, unsettled, k), ClosedTable(w, unsettled, k);
    forall id | id in w.db.reservations ensures after[id] + closed[id] == before[id] + drift[id] {
      AppliedRowChange(w, unsettled, k, id);
    }
    assert before.Keys == after.Keys == drift.Keys == closed.Keys;
    var both := map id | id in w.db.reservations :: before[id] + drift[id];
    assert both.Keys == before.Keys;
    hide HeldTable, DriftTable, ClosedTable;
    SumAdds(after, closed, both);
    SumAdds(before, drift, both);
  }

  /** The law of a pass. Whatever was booked between loading, asking and applying, reserved
      money and promised shares change by exactly what the orders confirmed open gain, less
      what the closed ones give back. In an exact world an order gains what was booked of it
      beyond the reported match, or, if its reservation was closed meanwhile, all the exchange
      had not matched. */
  lemma PassMovesExactly(w: World, unsettled: map<ExchangeId, int>, scope: Scope, m: MarketId, t: TokenId)
    requires Inv(w)
    ensures ActiveReserved(Applied(w, unsettled).db.reservations, scope)
            == ActiveReserved(w.db.reservations, scope) + PassChange(w, unsettled, Money(scope))
    ensures PromisedShares(Applied(w, unsettled).db.reservations, m, t)
            == PromisedShares(w.db.reservations, m, t) + PassChange(w, unsettled, Shares(m, t))
    ensures Exact(w) ==> forall id :: IsFetched(w, id) ==>
              Drift(w, id) == (if w.db.reservations[id].Active() then FilledSize(w.db, id) else w.db.reservations[id].original)
                              - w.pass.facts[w.remote[id].exchangeId].matched
  {
    hide Inv, Applied, ActiveReserved, PromisedShares, PassChange;
    ReservedMoves(w, unsettled, scope);
    PromisedMoves(w, unsettled, m, t);
  }

  lemma ReservedMoves(w: World, unsettled: map<ExchangeId, int>, scope: Scope)
    requires Inv(w)
    ensures ActiveReserved(Applied(w, unsettled).db.reservations, scope)
            == ActiveReserved(w.db.reservations, scope) + PassChange(w, unsettled, Money(scope))
  {
    AppliedInv(w, unsettled);
    hide Inv, Applied, ActiveReserved, PassChange, HeldTable, Sum;
    HeldIsReserved(w, scope);
    HeldIsReserved(Applied(w, unsettled), scope);
    AppliedChange(w, unsettled, Money(scope));
  }

  lemma PromisedMoves(w: World, unsettled: map<ExchangeId, int>, m: MarketId, t: TokenId)
    requires Inv(w)
    ensures PromisedShares(Applied(w, unsettled).db.reservations, m, t)
            == PromisedShares(w.db.reservations, m, t) + PassChange(w, unsettled, Shares(m, t))
  {
    hide Inv, Applied, PromisedShares, PassChange, HeldTable, Sum;
    HeldIsPromised(w, m, t);
    HeldIsPromised(Applied(w, unsettled), m, t);
    AppliedChange(w, unsettled, Shares(m, t));
  }

  lemma AppliedInv(w: World, unsettled: map<ExchangeId, int>)
    requires Inv(w)
    ensures Inv(Applied(w, unsettled))
  {
    hide Consistent, Complete, Verdicts;
    ApplyKeepsConsistent(w, unsettled);
    ApplyKeepsComplete(w, unsettled);
  }

  // ----- When the promises survive a pass -----------------------------------

  /** Money spent and reserved fits the cap after a pass if and only if the change the pass
      makes fits the room left before it. */
  lemma PassKeepsBookFitsIff(w: World, unsettled: map<ExchangeId, int>, settings: Settings, scope: Scope)
    requires Inv(w)
    ensures BookFits(Applied(w, unsettled), settings, scope)
       <==> PassChange(w, unsettled, Money(scope))
            <= Cap(settings, scope) + MONEY_TOLERANCE + BuyFees(w.db.cash, scope)
               - CapitalUsed(w.db.inventory, scope) - ActiveReserved(w.db.reservations, scope)
  {
    hide Inv, ActiveReserved, CapitalUsed, BuyFees, PassChange, Applied;
    ReservedMoves(w, unsettled, scope);
    AppliedFrame(w, unsettled);
  }

  /** No share is promised twice after a pass if and only if, token by token, the shares it
      promises anew were unpromised before it. */
  lemma PassKeepsPromisesIff(w: World, unsettled: map<ExchangeId, int>)
    requires Inv(w)
    ensures PromisesHeld(Applied(w, unsettled))
       <==> forall m, t :: m in w.db.markets && m in w.db.inventory && w.db.markets[m].Lists(t) ==>
              PassChange(w, unsettled, Shares(m, t))
              <= ExposureOf(w.db, m, t) as real - PromisedShares(w.db.reservations, m, t)
  {
    hide Inv, PromisedShares, PassChange, Applied;
    AppliedFrame(w, unsettled);
    forall m, t
      ensures PromisedShares(Applied(w, unsettled).db.reservations, m, t)
              == PromisedShares(w.db.reservations, m, t) + PassChange(w, unsettled, Shares(m, t))
    {
      PromisedMoves(w, unsettled, m, t);
    }
  }

  // ----- Building runs ------------------------------------------------------

  /** The steps are a run that ends in world w. */
  ghost predicate Reaches(settings: Settings, steps: seq<Step>, w: World) {
    exists worlds :: Run(worlds, steps, settings) && worlds[|steps|] == w
  }

  lemma ReachInit(settings: Settings, w: World)
    requires Init(w)
    ensures Reaches(settings, [], w)
  {
    assert Run([w], [], settings);
  }

  lemma Reach(settings: Settings, steps: seq<Step>, w: World, s: Step)
    requires Reaches(settings, steps, w) && Enabled(w, s)
    ensures Reaches(settings, steps + [s], Next(w, settings, s))
  {
    hide Next, Enabled, Init;
    var worlds :| Run(worlds, steps, settings) && worlds[|steps|] == w;
    var longer := worlds + [Next(w, settings, s)];
    assert Run(longer, steps + [s], settings);
    assert longer[|steps + [s]|] == Next(w, settings, s);
  }

  lemma ReachedIsGood(settings: Settings, steps: seq<Step>, w: World)
    requires Reaches(settings, steps, w)
    ensures Inv(w)
  {
    hide Inv, Enabled, Next, Init;
    var worlds :| Run(worlds, steps, settings) && worlds[|steps|] == w;
    RunKeepsInv(worlds, steps, settings, |steps|);
  }

  /** A world with one more order, resting untouched at the exchange under the id x. */
  ghost function Resting(b: World, id: OrderId, r: Reservation, total: real, x: ExchangeId): World {
    b.(db := b.db.(reservations := b.db.reservations[id := r], reservedTotal := total,
                   orders := b.db.orders[id :=
                     Order(Some(id), Some(x), r.market, r.token, r.side, r.limit, r.original, Open, 0)]),
       remote := b.remote[id := Accepted(x, 0, r.original)])
  }

  /** Neither the order id nor the exchange id has been used. */
  ghost predicate Fresh(b: World, id: OrderId, x: ExchangeId) {
    && id !in b.db.reservations && id !in b.db.orders && x !in b.pass.facts
    && (forall other :: other in b.remote && b.remote[other].Accepted? ==> b.remote[other].exchangeId != x)
    && (forall other :: other in b.db.orders ==> b.db.orders[other].exchangeId != Some(x))
  }

  /** What a submission without trouble does after the reservation is granted. */
  function Submission(id: OrderId, x: ExchangeId): seq<Step> {
    [JournalStep(id), Send(id), Accept(id, x), Persist(id, Some(x), Open)]
  }

  /** A world with one more order that was journaled and sent. */
  ghost function InTransit(b: World, id: OrderId, r: Reservation, total: real): World {
    b.(db := b.db.(reservations := b.db.reservations[id := r], reservedTotal := total,
                   orders := b.db.orders[id :=
                     Order(Some(id), None, r.market, r.token, r.side, r.limit, r.original, Pending, 0)]),
       remote := b.remote[id := InFlight])
  }

  lemma SendOrder(settings: Settings, steps: seq<Step>, b: World, id: OrderId, r: Reservation, total: real, w: World)
    requires id !in b.db.orders && Granting(b, id, r, total, w) && Reaches(settings, steps, w)
    ensures Reaches(settings, steps + [JournalStep(id)] + [Send(id)], InTransit(b, id, r, total))
  {
    hide Reaches, GoodReservation;
    var w2 := w.(db := Journal(w.db, id, r.market, r.token, r.side, r.limit, r.original));
    Reach(settings, steps, w, JournalStep(id));
    Reach(settings, steps + [JournalStep(id)], w2, Send(id));
    assert w2.(remote := w2.remote[id := InFlight]) == InTransit(b, id, r, total);
  }

  lemma AcceptOrder(settings: Settings, steps: seq<Step>, b: World, id: OrderId, r: Reservation, total: real, x: ExchangeId)
    requires Fresh(b, id, x) && Reaches(settings, steps, InTransit(b, id, r, total))
    ensures Reaches(settings, steps + [Accept(id, x)] + [Persist(id, Some(x), Open)], Resting(b, id, r, total, x))
  {
    hide Reaches;
    var w3 := InTransit(b, id, r, total);
    var w4 := w3.(remote := w3.remote[id := Accepted(x, 0, r.original)]);
    Reach(settings, steps, w3, Accept(id, x));
    Reach(settings, steps + [Accept(id, x)], w4, Persist(id, Some(x), Open));
    assert w4.(db := PersistSubmit(w4.db, id, Some(x), Open)) == Resting(b, id, r, total, x);
  }

  /** A granted reservation becomes a resting order. */
  lemma SubmitOrder(settings: Settings, steps: seq<Step>, b: World, id: OrderId, r: Reservation, total: real, w: World, x: ExchangeId)
    requires Fresh(b, id, x) && Granting(b, id, r, total, w) && Reaches(settings, steps, w)
    ensures Reaches(settings, steps + Submission(id, x), Resting(b, id, r, total, x))
  {
    assert id !in b.db.orders;
    hide Fresh, Granting, Reaches, Resting, InTransit, GoodReservation;
    SendOrder(settings, steps, b, id, r, total, w);
    var sent := steps + [JournalStep(id)] + [Send(id)];
    AcceptOrder(settings, sent, b, id, r, total, x);
    assert steps + Submission(id, x) == sent + [Accept(id, x)] + [Persist(id, Some(x), Open)];
  }

  /** A world in which an execution was matched, delivered and booked. */
  ghost function Traded(b: World, e: EventId, id: OrderId, x: Execution): World
    requires id in b.remote && b.remote[id].Accepted? && id in b.db.orders && Bookable(b, e, id, x)
  {
    var r := b.remote[id];
    b.(db := BookFill(Record(b.db, e, x), e, id).value,
       remote := b.remote[id := Accepted(r.exchangeId, r.matched + x.size, r.open - x.size)],
       trades := b.trades[e := Trade(id, x)])
  }

  ghost predicate Bookable(b: World, e: EventId, id: OrderId, x: Execution) {
    && e !in b.db.events && id in b.db.orders && b.db.orders[id].exchangeId == Some(x.exchangeId)
    && (forall other :: other in b.db.orders && b.db.orders[other].exchangeId == Some(x.exchangeId) ==> other == id)
    && BookFill(Record(b.db, e, x), e, id).Success?
  }

  function Trading(e: EventId, id: OrderId, x: Execution): seq<Step> {
    [MatchStep(e, id, x), Deliver(e), Attempt(e)]
  }

  lemma TradeOrder(settings: Settings, steps: seq<Step>, b: World, e: EventId, id: OrderId, x: Execution)
    requires Reaches(settings, steps, b) && CanMatch(b, e, id, x) && Bookable(b, e, id, x)
    ensures Reaches(settings, steps + Trading(e, id, x), Traded(b, e, id, x))
  {
    hide Reaches, BookFill;
    var w1 := Next(b, settings, MatchStep(e, id, x));
    var w2 := w1.(db := Record(w1.db, e, x));
    assert LookUp(w2.db.orders, x.exchangeId) == Some(id);
    Reach(settings, steps, b, MatchStep(e, id, x));
    Reach(settings, steps + [MatchStep(e, id, x)], w1, Deliver(e));
    Reach(settings, steps + [MatchStep(e, id, x)] + [Deliver(e)], w2, Attempt(e));
    assert steps + Trading(e, id, x) == steps + [MatchStep(e, id, x)] + [Deliver(e)] + [Attempt(e)];
  }

  // ----- A race -------------------------------------------------------------

  /** An order that rests untouched. */
  ghost predicate Untouched(b: World, id: OrderId) {
    && id in b.db.orders && id in b.db.reservations && id in b.remote && b.remote[id].Accepted? && b.remote[id].matched == 0
    && var r := b.db.reservations[id];
    && r.Active()
    && b.db.orders[id] == Order(Some(id), Some(b.remote[id].exchangeId), r.market, r.token, r.side, r.limit, r.original, Open, 0)
  }

  /** The facts are loaded, the exchange is asked, and the order is found open. */
  ghost function Asked(b: World, id: OrderId): World
    requires Untouched(b, id)
  {
    var fact := FetchedFact(b, id, OpenGroup);
    b.(pass := Pass(LoadFacts(b.db), map[fact.exchangeId := fact]))
  }

  lemma AskExchange(settings: Settings, steps: seq<Step>, b: World, id: OrderId)
    requires Reaches(settings, steps, b) && Untouched(b, id)
    ensures Reaches(settings, steps + [BeginPass, Fetch(id, OpenGroup)], Asked(b, id))
  {
    hide Reaches, LoadFacts;
    Reach(settings, steps, b, BeginPass);
    var w1 := b.(pass := Pass(LoadFacts(b.db), map[]));
    Reach(settings, steps + [BeginPass], w1, Fetch(id, OpenGroup));
    assert steps + [BeginPass, Fetch(id, OpenGroup)] == steps + [BeginPass] + [Fetch(id, OpenGroup)];
  }

  lemma AskedVerdict(b: World, id: OrderId, w: World)
    requires Untouched(b, id) && w.pass == Asked(b, id).pass
    ensures id in w.pass.locals && Verdicts(w.pass, map[]).Keys == w.pass.locals.Keys
    ensures Verdicts(w.pass, map[])[id].kind.OpenConfirmed?
    ensures Verdicts(w.pass, map[])[id].remaining == Some(MaxInt(0, b.db.reservations[id].original))
  {
    hide Notional;
    VerdictKeys(w.pass, map[]);
    assert UnderReview(b.db, id);
    assert w.pass.locals[id] == LocalFactOf(b.db, id);
  }

  lemma BookingKeepsTerms(db: Db, e: EventId, id: OrderId)
    requires e in db.events && id in db.orders && db.orders[id].reservation == Some(id) && BookFill(db, e, id).Success?
    ensures id in db.reservations && id in BookFill(db, e, id).value.reservations && id in BookFill(db, e, id).value.orders
    ensures SameTerms(db.reservations[id], BookFill(db, e, id).value.reservations[id])
    ensures BookFill(db, e, id).value.orders[id].filled == db.orders[id].filled + db.events[e].execution.size
    ensures BookFill(db, e, id).value.orders[id].reservation == Some(id)
  {
    hide ResolveFee, BuildCashFact, ApplyToLedger, Notional;
  }

  function Race(e: EventId, id: OrderId, x: Execution): seq<Step> {
    [BeginPass, Fetch(id, OpenGroup)] + Trading(e, id, x) + [ApplyPass(map[])]
  }

  /** However much of an untouched order is booked between asking and applying, the pass
      confirms the order open and reserves the whole of it again. */
  lemma RaceOrder(settings: Settings, steps: seq<Step>, b: World, e: EventId, id: OrderId, x: Execution) returns (w: World)
    requires Reaches(settings, steps, b) && Untouched(b, id)
    requires CanMatch(b, e, id, x) && Bookable(b, e, id, x)
    ensures Reaches(settings, steps + Race(e, id, x), w)
    ensures id in w.db.reservations
    ensures var booked, r := Traded(b, e, id, x).db, b.db.reservations[id];
            && w.db.markets == booked.markets && w.db.inventory == booked.inventory && w.db.cash == booked.cash
            && FilledSize(w.db, id) == FilledSize(booked, id)
            && SameTerms(r, w.db.reservations[id])
            && w.db.reservations[id].Active() && w.db.reservations[id].remaining == r.original
  {
    hide Reaches, BookFill, LoadFacts, Inv, ApplyReport, Verdicts;
    ReachedIsGood(settings, steps, b);
    OriginalIsPositive(b, id);
    AskExchange(settings, steps, b, id);
    var asked := Asked(b, id);
    TradeOrder(settings, steps + [BeginPass, Fetch(id, OpenGroup)], asked, e, id, x);
    var booked := Traded(asked, e, id, x);
    var before := steps + [BeginPass, Fetch(id, OpenGroup)] + Trading(e, id, x);
    Reach(settings, before, booked, ApplyPass(map[]));
    w := Next(booked, settings, ApplyPass(map[]));
    assert steps + Race(e, id, x) == before + [ApplyPass(map[])];
    ReachedIsGood(settings, before, booked);
    BookingKeepsTerms(Record(b.db, e, x), e, id);
    AskedVerdict(b, id, booked);
    RacedRow(settings, b, booked, id);
  }

  lemma OriginalIsPositive(w: World, id: OrderId)
    requires Inv(w) && id in w.db.reservations
    ensures w.db.reservations[id].original > 0
  {
    hide Consistent;
    InvKeys(w);
    PositiveOriginal(w, id);
  }

  lemma RacedRow(settings: Settings, b: World, w: World, id: OrderId)
    requires Inv(w) && Untouched(b, id) && w.pass == Asked(b, id).pass
    requires id in w.db.reservations && SameTerms(b.db.reservations[id], w.db.reservations[id]) && b.db.reservations[id].original > 0
    ensures var w' := Next(w, settings, ApplyPass(map[]));
            && w'.db.markets == w.db.markets && w'.db.inventory == w.db.inventory && w'.db.cash == w.db.cash
            && FilledSize(w'.db, id) == FilledSize(w.db, id)
            && id in w'.db.reservations && SameTerms(w.db.reservations[id], w'.db.reservations[id])
            && w'.db.reservations[id].Active() && w'.db.reservations[id].remaining == b.db.reservations[id].original
  {
    hide Inv, Untouched, Asked, ApplyReport, Verdicts, ApplyToReservation, Applied, Next, FilledSize;
    AskedVerdict(b, id, w);
    AppliedForm(w, settings, map[]);
    AppliedFrame(w, map[]);
    AppliedOrders(w, map[]);
    AppliedRowForm(w, map[], id);
    AppliedTerms(w, map[], id);
    MappedRow(w, id);
    AppliedActive(w.db.reservations[id], Verdicts(w.pass, map[])[id]);
  }

  // ----- Two runs -----------------------------------------------------------

  const HALF_DOLLAR: int := 5_000

  /** Caps for 1000 units at half a dollar. */
  const CAPS := Settings(5_000_000.0, 5_000_000.0)

  function EmptyMarket(): World {
    World(Db(map[0 := Market(1, 2)], map[], map[], 0.0, map[], map[], map[0 := Inventory(EMPTY_LEDGER, V2, 0)]),
          map[], map[], IDLE)
  }

  /** An execution of n units of token 1 at half a dollar, without a fee. */
  function At(x: ExchangeId, n: int): Execution {
    Execution(x, Some(1), HALF_DOLLAR, n, [], Some(Maker), None)
  }

  function Purchase(): Reservation { NewReservation(0, 1, Buy, HALF_DOLLAR, 1000) }

  function Sale(): Reservation { NewReservation(0, 1, Sell, HALF_DOLLAR, 1000) }

  /** A BUY of 1000 units that takes the whole budget rests untouched. */
  ghost function Bought(): World { Resting(EmptyMarket(), 0, Purchase(), 5_000_000.0, 70) }

  function BuySteps(): seq<Step> { [ReserveBuyStep(0, 0, 1, HALF_DOLLAR, 1000)] + Submission(0, 70) }

  lemma NothingSpent()
    ensures var db := EmptyMarket().db;
            && CapitalUsed(db.inventory, None) == CapitalUsed(db.inventory, Some(0)) == 0.0
            && ActiveReserved(db.reservations, None) == ActiveReserved(db.reservations, Some(0)) == 0.0
  {
    var b := EmptyMarket();
    SumOfZeros(CapitalTable(b.db.inventory, None));
    SumOfZeros(CapitalTable(b.db.inventory, Some(0)));
    SumOfZeros(ReservedTable(b.db.reservations, None));
    SumOfZeros(ReservedTable(b.db.reservations, Some(0)));
    hide Sum;
  }

  lemma BuyIsGranted()
    ensures var b, s := EmptyMarket(), ReserveBuyStep(0, 0, 1, HALF_DOLLAR, 1000);
            Init(b) && Enabled(b, s) && Granting(b, 0, Purchase(), 5_000_000.0, Next(b, CAPS, s))
  {
    hide CapitalUsed, ActiveReserved;
    NothingSpent();
    ConcreteAmounts();
    hide Notional;
    var b := EmptyMarket();
    assert ReserveBuy(b.db, CAPS, 0, 0, 1, HALF_DOLLAR, 1000)
        == Granted(b.db.(reservations := map[0 := Purchase()], reservedTotal := 5_000_000.0), 5_000_000.0);
  }

  lemma BuyRests()
    ensures Reaches(CAPS, BuySteps(), Bought())
  {
    hide Reaches, Granting, Next, Enabled, Init;
    var b, s := EmptyMarket(), ReserveBuyStep(0, 0, 1, HALF_DOLLAR, 1000);
    BuyIsGranted();
    ReachInit(CAPS, b);
    Reach(CAPS, [], b, s);
    assert [] + [s] == [s];
    SubmitOrder(CAPS, [s], b, 0, Purchase(), 5_000_000.0, Next(b, CAPS, s), 70);
  }

  lemma PurchaseCanMatch(n: int)
    requires 0 < n <= 1000
    ensures CanMatch(Bought(), 0, 0, At(70, n))
  {
    hide Notional;
  }

  /** Consuming n of the 1000 reserved units. */
  lemma PurchaseConsumes(n: int)
    requires 0 < n <= 1000
    ensures ConsumeReservation(Purchase(), n, HALF_DOLLAR, Buy)
            == Success((Purchase().(remaining := 1000 - n, notional := Notional(HALF_DOLLAR, 1000 - n),
                                    status := if n == 1000 then Consumed else Partial),
                        Notional(HALF_DOLLAR, n)))
  {
    NotionalAdds(HALF_DOLLAR, n, 1000 - n);
    NotionalMonotone(HALF_DOLLAR, HALF_DOLLAR, 0, 1000 - n);
    NotionalMonotone(HALF_DOLLAR, HALF_DOLLAR, 0, n);
    hide Notional;
  }

  lemma PurchaseLedger(n: int)
    requires 0 < n <= 1000
    ensures ApplyToLedger(EMPTY_LEDGER, Fill(Yes, Buy, n, HALF_DOLLAR, 0.0))
            == Success(Ledger(n, Notional(HALF_DOLLAR, n), 0, 0.0, 0.0))
    ensures ResolveFee([], Some(Maker), HALF_DOLLAR, n, None) == Success(Some(0.0))
  {
    hide Notional;
  }

  /** The tables after n of the 1000 units were booked. */
  ghost predicate PurchasedNumbers(db: Db, n: int) {
    PurchasedLedger(db, n) && PurchasedOrder(db, n)
  }

  ghost predicate PurchasedLedger(db: Db, n: int) {
    && db.markets == EmptyMarket().db.markets && db.inventory.Keys == {0} && db.cash.Keys == {0} && db.events.Keys == {0}
    && db.inventory[0] == Inventory(Ledger(n, Notional(HALF_DOLLAR, n), 0, 0.0, 0.0), V2, 1)
    && db.cash[0].amounts.fee == Some(0.0)
  }

  ghost predicate PurchasedOrder(db: Db, n: int) {
    && db.orders.Keys == {0} && db.reservations.Keys == {0}
    && FilledSize(db, 0) == n && db.orders[0].exchangeId == Some(70)
    && var r := db.reservations[0];
    && r.side.Buy? && r.remaining == 1000 - n && r.Active() == (n < 1000) && r.notional == Notional(HALF_DOLLAR, 1000 - n)
  }

  lemma PurchaseIsFilled(n: int)
    requires 0 < n <= 1000
    ensures var db := Record(Bought().db, 0, At(70, n));
            0 in db.events && BookFill(db, 0, 0).Success? && PurchasedLedger(BookFill(db, 0, 0).value, n)
  {
    PurchaseConsumes(n);
    PurchaseLedger(n);
    hide Notional, ResolveFee, ConsumeReservation, ApplyToLedger;
    assert Record(Bought().db, 0, At(70, n)).events[0].execution == At(70, n);
  }

  lemma PurchaseIsConsumed(n: int)
    requires 0 < n <= 1000
    ensures var db := Record(Bought().db, 0, At(70, n));
            0 in db.events && (BookFill(db, 0, 0).Success? ==> PurchasedOrder(BookFill(db, 0, 0).value, n))
  {
    PurchaseConsumes(n);
    hide Notional, ResolveFee, ConsumeReservation, ApplyToLedger, BuildCashFact;
    assert Record(Bought().db, 0, At(70, n)).events[0].execution == At(70, n);
  }

  /** What booking n of the 1000 units leaves. */
  lemma PurchaseBooks(n: int)
    requires 0 < n <= 1000
    ensures CanMatch(Bought(), 0, 0, At(70, n)) && Bookable(Bought(), 0, 0, At(70, n))
    ensures PurchasedNumbers(Traded(Bought(), 0, 0, At(70, n)).db, n)
  {
    PurchaseCanMatch(n);
    PurchaseIsFilled(n);
    PurchaseIsConsumed(n);
    hide Notional, BookFill, CanMatch, PurchasedLedger, PurchasedOrder;
  }

  /** Lower bounds on what a scope holds and on what it paid in fees. */
  lemma BookedAtLeast(w: World, id: OrderId, m: MarketId)
    requires Inv(w) && id in w.db.reservations && w.db.reservations[id].Active() && m in w.db.inventory
    ensures ActiveReserved(w.db.reservations, None) >= w.db.reservations[id].notional
    ensures CapitalUsed(w.db.inventory, None) >= w.db.inventory[m].book.Capital()
  {
    hide Inv, Sum;
    InvKeys(w);
    GoodAmounts(w);
    SoundBooks(w);
    hide Consistent;
    RowAtMostSum(ReservedTable(w.db.reservations, None), id);
    RowAtMostSum(CapitalTable(w.db.inventory, None), m);
  }

  lemma SoundBooks(w: World)
    requires Inv(w)
    ensures forall m :: m in w.db.inventory ==> w.db.inventory[m].book.Sound()
  {
  }

  /** A racing pass over-reserves. A BUY of 1000 units takes the whole budget and rests; the
      exchange is asked; 400 units are matched and booked; the pass is applied and reserves
      1000 units again. Spent and reserved together are then 40 percent over the cap. */
  lemma RacingPassOverReserves() returns (worlds: seq<World>, steps: seq<Step>)
    ensures steps == BuySteps() + Race(0, 0, At(70, 400)) && Run(worlds, steps, CAPS)
    ensures var w := worlds[|steps|];
            && 0 in w.db.reservations && w.db.reservations[0].Active()
            && FilledSize(w.db, 0) == 400 && w.db.reservations[0].remaining == w.db.reservations[0].original == 1000
            && !Exact(w)
            && CapitalUsed(w.db.inventory, None) + ActiveReserved(w.db.reservations, None)
               >= Cap(CAPS, None) + 2_000_000.0 + BuyFees(w.db.cash, None)
            && !BookFits(w, CAPS, None)
  {
    hide Reaches, Inv, CapitalUsed, ActiveReserved, Bookable, Notional;
    BuyRests();
    PurchaseBooks(400);
    var w := RaceOrder(CAPS, BuySteps(), Bought(), 0, 0, At(70, 400));
    steps := BuySteps() + Race(0, 0, At(70, 400));
    ReachedIsGood(CAPS, steps, w);
    RowNotional(w, 0);
    BookedAtLeast(w, 0, 0);
    NoFees(w.db.cash);
    ConcreteAmounts();
    worlds := Worlds(CAPS, steps, w);
  }

  lemma ConcreteAmounts()
    ensures Notional(HALF_DOLLAR, 400) == 2_000_000.0 && Notional(HALF_DOLLAR, 1000) == 5_000_000.0
  {
  }

  lemma NoFees(cash: map<EventId, CashFact>)
    requires forall e :: e in cash ==> cash[e].amounts.fee == Some(0.0)
    ensures BuyFees(cash, None) == 0.0
  {
    SumOfZeros(FeeTable(cash, None));
  }

  lemma Worlds(settings: Settings, steps: seq<Step>, w: World) returns (worlds: seq<World>)
    requires Reaches(settings, steps, w)
    ensures Run(worlds, steps, settings) && worlds[|steps|] == w
  {
    hide Enabled, Next, Init;
    worlds :| Run(worlds, steps, settings) && worlds[|steps|] == w;
  }

  // ----- A share promised twice

  /** All 1000 units are bought, and a SELL of all of them rests untouched. */
  ghost function Offered(): World
    requires Bookable(Bought(), 0, 0, At(70, 1000))
  {
    var b := Traded(Bought(), 0, 0, At(70, 1000));
    Resting(b, 1, Sale(), b.db.reservedTotal, 71)
  }

  function SellSteps(): seq<Step> {
    BuySteps() + Trading(0, 0, At(70, 1000)) + [ReserveSellStep(1, 0, 1, HALF_DOLLAR, 1000)] + Submission(1, 71)
  }

  /** 1000 units are held and nothing else happened to the market. */
  ghost predicate HoldsAll(db: Db) {
    && db.markets == EmptyMarket().db.markets && db.inventory.Keys == {0} && 1 !in db.cash && 1 !in db.events
    && db.inventory[0] == Inventory(Ledger(1000, 5_000_000.0, 0, 0.0, 0.0), V2, 1)
    && db.orders.Keys == {0} && db.orders[0].exchangeId == Some(70)
  }

  lemma SaleIsGranted(b: World)
    requires HoldsAll(b.db) && 1 !in b.db.reservations && forall id :: id in b.db.reservations ==> b.db.reservations[id].side.Buy?
    ensures var s := ReserveSellStep(1, 0, 1, HALF_DOLLAR, 1000);
            Enabled(b, s) && Granting(b, 1, Sale(), b.db.reservedTotal, Next(b, CAPS, s))
  {
    NotionalOfNothing(HALF_DOLLAR);
    NothingPromised(b.db.reservations, 0, 1);
    hide Notional, PromisedShares;
    assert ReserveSell(b.db, 1, 0, 1, HALF_DOLLAR, 1000)
        == Granted(b.db.(reservations := b.db.reservations[1 := Sale()]), 0.0);
    hide ReserveSell;
  }

  lemma AllIsHeld()
    ensures Bookable(Bought(), 0, 0, At(70, 1000))
    ensures var b := Traded(Bought(), 0, 0, At(70, 1000));
            && HoldsAll(b.db) && b.db.reservations.Keys == {0} && b.db.reservations[0].side.Buy?
            && b.trades.Keys == {0} && b.pass == IDLE && b.remote == map[0 := Accepted(70, 1000, 0)]
  {
    PurchaseBooks(1000);
    ConcreteAmounts();
    hide Bookable, BookFill, Notional;
  }

  lemma SellIsGranted()
    ensures Bookable(Bought(), 0, 0, At(70, 1000))
    ensures var b, s := Traded(Bought(), 0, 0, At(70, 1000)), ReserveSellStep(1, 0, 1, HALF_DOLLAR, 1000);
            Enabled(b, s) && Granting(b, 1, Sale(), b.db.reservedTotal, Next(b, CAPS, s)) && Fresh(b, 1, 71)
  {
    hide Bookable, Traded, Granting, Next, Enabled;
    AllIsHeld();
    SaleIsGranted(Traded(Bought(), 0, 0, At(70, 1000)));
  }

  lemma NothingPromised(rs: map<OrderId, Reservation>, m: MarketId, t: TokenId)
    requires forall id :: id in rs ==> rs[id].side.Buy?
    ensures PromisedShares(rs, m, t) == 0.0
  {
    SumOfZeros(PromisedTable(rs, m, t));
  }

  lemma SellRests()
    ensures Bookable(Bought(), 0, 0, At(70, 1000)) && Reaches(CAPS, SellSteps(), Offered())
  {
    hide Reaches, Granting, Next, Enabled, Init, Bookable, BookFill, Fresh;
    BuyRests();
    PurchaseBooks(1000);
    SellIsGranted();
    var b, s := Traded(Bought(), 0, 0, At(70, 1000)), ReserveSellStep(1, 0, 1, HALF_DOLLAR, 1000);
    var before := BuySteps() + Trading(0, 0, At(70, 1000));
    TradeOrder(CAPS, BuySteps(), Bought(), 0, 0, At(70, 1000));
    Reach(CAPS, before, b, s);
    SubmitOrder(CAPS, before + [s], b, 1, Sale(), b.db.reservedTotal, Next(b, CAPS, s), 71);
  }

  /** What booking 400 of the offered units leaves. */
  lemma OfferedSaleBooks(b: World, total: real)
    requires HoldsAll(b.db) && 1 !in b.trades
    ensures var w := Resting(b, 1, Sale(), total, 71);
            && Untouched(w, 1) && CanMatch(w, 1, 1, At(71, 400)) && Bookable(w, 1, 1, At(71, 400))
            && var db := Traded(w, 1, 1, At(71, 400)).db;
               && db.markets == b.db.markets && db.inventory.Keys == {0} && ExposureOf(db, 0, 1) == 600
               && FilledSize(db, 1) == 400
  {
    var w := Resting(b, 1, Sale(), total, 71);
    assert ResolveFee([], Some(Maker), HALF_DOLLAR, 400, None) == Success(Some(0.0));
    assert ApplyToLedger(Ledger(1000, 5_000_000.0, 0, 0.0, 0.0), Fill(Yes, Sell, 400, HALF_DOLLAR, 0.0)).Success?;
    SoldLedger();
    hide Notional, ResolveFee, ApplyToLedger;
    var db := Record(w.db, 1, At(71, 400));
    assert db.events[1].execution == At(71, 400);
    assert BookFill(db, 1, 1).Success?;
  }

  lemma SoldLedger()
    ensures var l := ApplyToLedger(Ledger(1000, 5_000_000.0, 0, 0.0, 0.0), Fill(Yes, Sell, 400, HALF_DOLLAR, 0.0));
            l.Success? && l.value.yesExposure == 600
  {
  }

  lemma SaleBooks()
    ensures Bookable(Bought(), 0, 0, At(70, 1000))
    ensures Untouched(Offered(), 1) && CanMatch(Offered(), 1, 1, At(71, 400)) && Bookable(Offered(), 1, 1, At(71, 400))
    ensures var db := Traded(Offered(), 1, 1, At(71, 400)).db;
            && db.markets == EmptyMarket().db.markets && db.inventory.Keys == {0} && ExposureOf(db, 0, 1) == 600
            && FilledSize(db, 1) == 400
  {
    hide Notional, Bookable, BookFill, Untouched, CanMatch, Traded;
    AllIsHeld();
    var b := Traded(Bought(), 0, 0, At(70, 1000));
    OfferedSaleBooks(b, b.db.reservedTotal);
  }

  /** A racing pass promises shares twice. 1000 units are bought and offered; the exchange is
      asked; 400 units are sold and booked; the pass is applied and promises 1000 units again,
      of which only 600 are held. */
  lemma RacingPassPromisesTwice() returns (worlds: seq<World>, steps: seq<Step>)
    ensures steps == SellSteps() + Race(1, 1, At(71, 400)) && Run(worlds, steps, CAPS)
    ensures var w := worlds[|steps|];
            && 0 in w.db.markets && 0 in w.db.inventory && w.db.markets[0].Lists(1)
            && ExposureOf(w.db, 0, 1) == 600 && PromisedShares(w.db.reservations, 0, 1) >= 1000.0
            && !Exact(w) && !PromisesHeld(w)
  {
    hide Reaches, Inv, PromisedShares, Bookable, Notional, Traded, CanMatch, Offered, Untouched;
    SellRests();
    SaleBooks();
    var w := RaceOrder(CAPS, SellSteps(), Offered(), 1, 1, At(71, 400));
    steps := SellSteps() + Race(1, 1, At(71, 400));
    ReachedIsGood(CAPS, steps, w);
    SaleOffered();
    worlds := Worlds(CAPS, steps, w);
    PromisedAtLeast(w, 1);
  }

  lemma SaleOffered()
    requires Bookable(Bought(), 0, 0, At(70, 1000))
    ensures 1 in Offered().db.reservations && Offered().db.reservations[1] == Sale()
  {
    hide Traded, Bookable;
  }

  lemma PromisedAtLeast(w: World, id: OrderId)
    requires Inv(w) && id in w.db.reservations && w.db.reservations[id].Active() && w.db.reservations[id].side.Sell?
    ensures var r := w.db.reservations[id];
            PromisedShares(w.db.reservations, r.market, r.token) >= r.remaining as real
  {
    hide Inv, Sum;
    InvKeys(w);
    GoodAmounts(w);
    hide Consistent;
    RowAtMostSum(PromisedTable(w.db.reservations, w.db.reservations[id].market, w.db.reservations[id].token), id);
  }
}
