/** What a reconciliation pass looks at and what it makes of every order, in terms of the rows
    and of what the exchange reported. */
module Settling {
  import opened Common
  import opened Rows
  import opened Transactions
  import opened Reconciliation
  import opened Applying
  import opened World
  import opened Safety
  import opened Passes
  import opened Runs
  import opened Book

  /** An order whose fate is not settled: pending, open or unknown, or canceled with its
      reservation still held. */
  predicate Unsettled(db: Db, id: OrderId) {
    && id in db.orders
    && (|| db.orders[id].status.Pending? || db.orders[id].status.Open? || db.orders[id].status.Unknown?
        || (id in db.reservations && db.reservations[id].status.CancelPending?))
  }

  /** What the exchange reported about an order in this pass. */
  function ReportOn(w: World, o: Order): Option<ExchangeFact> {
    if o.exchangeId.Some? && o.exchangeId.value in w.pass.facts then Some(w.pass.facts[o.exchangeId.value]) else None
  }

  /** Executions of the order the exchange has matched but not settled. */
  function Settling(unsettled: map<ExchangeId, int>, fact: ExchangeFact): int {
    if fact.exchangeId in unsettled then unsettled[fact.exchangeId] else 0
  }

  /** The report is about this order. */
  predicate SameOrderReported(o: Order, fact: ExchangeFact) {
    && fact.market == o.market && fact.token == o.token && fact.side == o.side && fact.price == o.price
    && -100 <= fact.original - o.size <= 100
  }

  /** Booked and matched shares agree to 1e-6. */
  predicate FillsAgree(o: Order, fact: ExchangeFact) { -100 <= fact.matched - o.filled <= 100 }

  /** Rows and report agree on a fate. */
  predicate Agreed(o: Order, r: Reservation, report: Option<ExchangeFact>) {
    && report.Some? && SameOrderReported(o, report.value) && FillsAgree(o, report.value)
    && match report.value.status
       case OpenGroup => true
       case CanceledGroup => true
       case FilledGroup => report.value.original - report.value.matched <= 100 && r.remaining <= 100
       case Unsupported => false
  }

  /** Fills are missing, but the exchange is still settling at least as many. */
  predicate StillSettling(o: Order, report: Option<ExchangeFact>, unsettled: map<ExchangeId, int>) {
    && report.Some? && SameOrderReported(o, report.value)
    && report.value.matched - o.filled > 100
    && Settling(unsettled, report.value) + 100 >= report.value.matched - o.filled
  }

  /** What the pass makes of an order it looks at. */
  predicate Outcome(o: Order, r: Reservation, report: Option<ExchangeFact>, unsettled: map<ExchangeId, int>, o': Order, r': Reservation) {
    if Agreed(o, r, report) then
      match report.value.status
      case OpenGroup =>
        && o' == o.(status := OrderStatus.Open)
        && var left := if report.value.original >= report.value.matched then report.value.original - report.value.matched else 0;
           r' == r.(remaining := left, notional := if r.side.Buy? then (r.limit * left) as real else 0.0,
                    status := Opened, exchangeId := Some(report.value.exchangeId))
      case CanceledGroup =>
        o' == o.(status := OrderStatus.Canceled) && r' == r.(remaining := 0, notional := 0.0, status := ReconciledCanceled)
      case _ =>
        o' == o.(status := OrderStatus.Filled) && r' == r.(remaining := 0, notional := 0.0, status := Consumed)
    else if StillSettling(o, report, unsettled) then o' == o && r' == r
    else o' == o.(status := OrderStatus.Unknown) && r' == (if r.Active() then r.(status := Unresolved) else r)
  }

  // ----- What a pass looks at -----------------------------------------------

  /** A pass looks at exactly the orders whose fate is not settled, as their rows are. */
  lemma PassLooksAt(w: World, settings: Settings, id: OrderId)
    requires Inv(w)
    ensures id in Next(w, settings, BeginPass).pass.locals <==> Unsettled(w.db, id)
  {
    hide Inv;
    InvKeys(w);
    hide Consistent, GoodEvents;
    assert id in w.db.orders ==> GoodOrder(w, id);
  }

  // ----- What a pass makes of it --------------------------------------------

  /** Loading again would load the same facts: no row moved since they were loaded. */
  ghost predicate Current(w: World) {
    w.pass.locals == LoadFacts(w.db)
  }

  lemma LoadedAgain(w: World, settings: Settings)
    ensures Current(w) <==> w.pass.locals == Next(w, settings, BeginPass).pass.locals
  {
    hide LoadFacts;
  }

  lemma CurrentVerdict(w: World, unsettled: map<ExchangeId, int>, id: OrderId)
    requires Inv(w) && Current(w) && Unsettled(w.db, id)
    ensures id in w.pass.locals && id in w.db.reservations && w.db.orders[id].reservation == Some(id)
    ensures id in Verdicts(w.pass, unsettled) && Verdicts(w.pass, unsettled).Keys == w.pass.locals.Keys
    ensures var report := ReportOn(w, w.db.orders[id]);
            Verdicts(w.pass, unsettled)[id]
            == Classify(LocalFactOf(w.db, id), report, if report.Some? then Settling(unsettled, report.value) else 0)
  {
    hide Inv, Classify;
    InvKeys(w);
    hide Consistent, GoodEvents;
    assert GoodOrder(w, id);
    VerdictKeys(w.pass, unsettled);
  }

  /** The verdict on an order whose row and reservation carry the same terms. */
  lemma VerdictOutcome(db: Db, id: OrderId, report: Option<ExchangeFact>, unsettled: map<ExchangeId, int>)
    requires id in db.orders && id in db.reservations && db.orders[id].reservation == Some(id)
    requires var o, r := db.orders[id], db.reservations[id];
             r.side == o.side && r.market == o.market && r.token == o.token && r.limit == o.price && r.original == o.size
    requires report.Some? ==> db.orders[id].exchangeId.Some?
    ensures var a := Classify(LocalFactOf(db, id), report, if report.Some? then Settling(unsettled, report.value) else 0);
            && Outcome(db.orders[id], db.reservations[id], report, unsettled,
                       ApplyToOrder(db.orders[id], a), ApplyToReservation(db.reservations[id], a))
            && (!a.Blocker() <==> Agreed(db.orders[id], db.reservations[id], report))
  {
    assert forall n :: Notional(db.reservations[id].limit, n) == (db.reservations[id].limit * n) as real;
    hide Notional;
  }

  lemma SameTermsRow(w: World, id: OrderId)
    requires Inv(w) && id in w.db.orders
    ensures id in w.db.reservations && w.db.orders[id].reservation == Some(id)
    ensures var o, r := w.db.orders[id], w.db.reservations[id];
            r.side == o.side && r.market == o.market && r.token == o.token && r.limit == o.price && r.original == o.size
  {
    assert GoodOrder(w, id);
  }

  lemma AppliedOrderForm(w: World, unsettled: map<ExchangeId, int>, id: OrderId)
    requires id in w.db.orders
    ensures id in Applied(w, unsettled).db.orders
    ensures Applied(w, unsettled).db.orders[id]
            == (if id in Verdicts(w.pass, unsettled) then ApplyToOrder(w.db.orders[id], Verdicts(w.pass, unsettled)[id])
                else w.db.orders[id])
  {
    hide Verdicts, ApplyToOrder, ApplyToReservation, ActiveReserved;
  }

  /** A pass whose facts are current settles every order it looks at as its outcome says, and
      leaves every other order and its reservation as they were. */
  lemma PassInFull(w: World, settings: Settings, unsettled: map<ExchangeId, int>, w': World, id: OrderId)
    requires Inv(w) && Current(w) && w' == Next(w, settings, ApplyPass(unsettled)) && id in w.db.orders
    ensures id in w.db.reservations && id in w'.db.orders && id in w'.db.reservations
    ensures if Unsettled(w.db, id)
            then Outcome(w.db.orders[id], w.db.reservations[id], ReportOn(w, w.db.orders[id]), unsettled,
                         w'.db.orders[id], w'.db.reservations[id])
            else w'.db.orders[id] == w.db.orders[id] && w'.db.reservations[id] == w.db.reservations[id]
  {
    hide Inv, Verdicts, Classify, ApplyToOrder, ApplyToReservation, Outcome, Unsettled, Current, LoadFacts, Applied, Next;
    AppliedForm(w, settings, unsettled);
    SameTermsRow(w, id);
    AppliedOrderForm(w, unsettled, id);
    AppliedRowForm(w, unsettled, id);
    if Unsettled(w.db, id) {
      CurrentVerdict(w, unsettled, id);
      VerdictOutcome(w.db, id, ReportOn(w, w.db.orders[id]), unsettled);
    } else {
      NotLookedAt(w, id);
    }
  }

  lemma NotLookedAt(w: World, id: OrderId)
    requires Inv(w) && Current(w) && id in w.db.orders && !Unsettled(w.db, id)
    ensures id !in w.pass.locals
  {
    PassLooksAt(w, Settings(0.0, 0.0), id);
    hide Inv;
  }

  /** No verdict of the pass is a blocker. */
  ghost predicate ReportsSafe(w: World, unsettled: map<ExchangeId, int>) {
    forall id :: id in Verdicts(w.pass, unsettled) ==> !Verdicts(w.pass, unsettled)[id].Blocker()
  }

  /** A pass whose facts are current reports safe if and only if rows and exchange agree on every
      order whose fate is not settled; then no order is pending or unknown any more. */
  lemma SafePassIff(w: World, settings: Settings, unsettled: map<ExchangeId, int>, w': World)
    requires Inv(w) && Current(w) && w' == Next(w, settings, ApplyPass(unsettled))
    ensures ReportsSafe(w, unsettled)
       <==> forall id :: Unsettled(w.db, id) ==>
              id in w.db.reservations && Agreed(w.db.orders[id], w.db.reservations[id], ReportOn(w, w.db.orders[id]))
    ensures ReportsSafe(w, unsettled) ==>
              forall id :: id in w'.db.orders ==> w'.db.orders[id].status in {Open, Canceled, OrderStatus.Filled, OrderStatus.Failed}
  {
    hide Inv, Verdicts, Classify, Outcome, Unsettled, Current, Next, Agreed, ReportOn;
    forall id ensures Unsettled(w.db, id) ==>
        && id in w.db.orders && id in w.db.reservations && id in Verdicts(w.pass, unsettled)
        && (!Verdicts(w.pass, unsettled)[id].Blocker()
            <==> Agreed(w.db.orders[id], w.db.reservations[id], ReportOn(w, w.db.orders[id])))
    {
      if Unsettled(w.db, id) {
        UnsettledRow(w, unsettled, id);
      }
    }
    forall id ensures id in Verdicts(w.pass, unsettled) ==> Unsettled(w.db, id) {
      VerdictsAreOnUnsettled(w, unsettled, id);
    }
    SameOrders(w, settings, unsettled);
    if ReportsSafe(w, unsettled) {
      forall id | id in w'.db.orders
        ensures w'.db.orders[id].status in {Open, Canceled, OrderStatus.Filled, OrderStatus.Failed} {
        PassInFull(w, settings, unsettled, w', id);
        SettledStatus(w, unsettled, id, w'.db.orders[id], w'.db.reservations[id]);
      }
    }
  }

  lemma UnsettledRow(w: World, unsettled: map<ExchangeId, int>, id: OrderId)
    requires Inv(w) && Current(w) && Unsettled(w.db, id)
    ensures id in w.db.orders && id in w.db.reservations && id in Verdicts(w.pass, unsettled)
    ensures !Verdicts(w.pass, unsettled)[id].Blocker()
       <==> Agreed(w.db.orders[id], w.db.reservations[id], ReportOn(w, w.db.orders[id]))
  {
    hide Inv, Verdicts, Classify, Outcome, Current, Agreed, LoadFacts;
    SameTermsRow(w, id);
    CurrentVerdict(w, unsettled, id);
    VerdictOutcome(w.db, id, ReportOn(w, w.db.orders[id]), unsettled);
  }

  lemma VerdictsAreOnUnsettled(w: World, unsettled: map<ExchangeId, int>, id: OrderId)
    requires Inv(w) && Current(w)
    ensures id in Verdicts(w.pass, unsettled) ==> Unsettled(w.db, id)
  {
    VerdictKeys(w.pass, unsettled);
    PassLooksAt(w, Settings(0.0, 0.0), id);
    hide Inv, Verdicts;
  }

  lemma SameOrders(w: World, settings: Settings, unsettled: map<ExchangeId, int>)
    ensures Next(w, settings, ApplyPass(unsettled)).db.orders.Keys == w.db.orders.Keys
  {
    AppliedForm(w, settings, unsettled);
    AppliedOrders(w, unsettled);
    hide Next, Applied;
  }

  lemma SettledStatus(w: World, unsettled: map<ExchangeId, int>, id: OrderId, o': Order, r': Reservation)
    requires id in w.db.orders && id in w.db.reservations
    requires Unsettled(w.db, id) ==>
               && Agreed(w.db.orders[id], w.db.reservations[id], ReportOn(w, w.db.orders[id]))
               && Outcome(w.db.orders[id], w.db.reservations[id], ReportOn(w, w.db.orders[id]), unsettled, o', r')
    requires !Unsettled(w.db, id) ==> o' == w.db.orders[id]
    ensures o'.status in {Open, Canceled, OrderStatus.Filled, OrderStatus.Failed}
  {
    hide FillsAgree, SameOrderReported;
  }

  /** And if what was reported is still true, every order that was not settled is accepted by the
      exchange and booked for what it matched, to 1e-6 shares. */
  lemma SafePassIsTrue(w: World, unsettled: map<ExchangeId, int>, id: OrderId)
    requires Inv(w) && Current(w) && ReportsSafe(w, unsettled) && Unsettled(w.db, id)
    requires IsFetched(w, id) ==> w.pass.facts[w.remote[id].exchangeId].matched == w.remote[id].matched
    ensures id in w.remote && w.remote[id].Accepted? && w.db.orders[id].exchangeId == Some(w.remote[id].exchangeId)
    ensures -100 <= w.remote[id].matched - w.db.orders[id].filled <= 100
  {
    UnsettledRow(w, unsettled, id);
    MappedToRemote(w, id);
    hide Inv, Verdicts, Current;
  }

  lemma MappedToRemote(w: World, id: OrderId)
    requires Inv(w) && id in w.db.orders
    ensures id in w.remote && id in w.db.reservations
    ensures w.db.orders[id].exchangeId.Some? ==>
              w.remote[id].Accepted? && w.remote[id].exchangeId == w.db.orders[id].exchangeId.value
  {
    assert GoodOrder(w, id);
  }
}
