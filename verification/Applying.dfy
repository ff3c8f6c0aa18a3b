/** Loading the facts a reconciliation pass judges and applying its report.

    Fills may commit between the two, so the rows a report is applied to need not
    be the rows it was computed from. */
module Applying {
  import opened Common
  import opened Rows
  import opened Reconciliation

  /** The orders a pass looks at. */
  predicate UnderReview(db: Db, id: OrderId)
    requires id in db.orders
  {
    var o := db.orders[id];
    || o.status in {Pending, Open, Unknown}
    || (o.reservation.Some? && o.reservation.value in db.reservations
        && db.reservations[o.reservation.value].status == CancelPending)
  }

  function LocalFactOf(db: Db, id: OrderId): LocalFact
    requires id in db.orders
  {
    var o := db.orders[id];
    LocalFact(id, o.exchangeId, o.market, o.token, o.side, o.price, o.size, o.filled, o.reservation,
              if o.reservation.Some? && o.reservation.value in db.reservations
              then Some(db.reservations[o.reservation.value]) else None)
  }

  function LoadFacts(db: Db): map<OrderId, LocalFact> {
    map id | id in db.orders && UnderReview(db, id) :: LocalFactOf(db, id)
  }

  function ApplyToOrder(o: Order, a: Action): Order {
    if a.Blocker() then (if a.Sticky() then o.(status := Unknown) else o)
    else match a.kind
      case OpenConfirmed => o.(status := Open)
      case CanceledConfirmed => o.(status := Canceled)
      case _ => o.(status := Filled)
  }

  function ApplyToReservation(r: Reservation, a: Action): Reservation {
    if a.Blocker() then (if a.Sticky() && r.Active() then r.(status := Unresolved) else r)
    else match a.kind
      case OpenConfirmed =>
        var remaining := if a.remaining.Some? then a.remaining.value else 0;
        r.(exchangeId := a.exchangeId,
           remaining := remaining,
           notional := if r.side.Buy? then Notional(r.limit, remaining) else 0.0,
           status := Opened)
      case CanceledConfirmed => r.Freed(ReconciledCanceled)
      case _ => r.Freed(Consumed)
  }

  /** The single transaction that applies the verdicts on local orders and recomputes
      the cached total from the reservation rows. */
  ghost function ApplyReport(db: Db, verdicts: map<OrderId, Action>): Db {
    var reservations := map id | id in db.reservations ::
      if id in verdicts && id in db.orders && db.orders[id].reservation.Some?
      then ApplyToReservation(db.reservations[id], verdicts[id]) else db.reservations[id];
    db.(orders := map id | id in db.orders ::
          if id in verdicts then ApplyToOrder(db.orders[id], verdicts[id]) else db.orders[id],
        reservations := reservations,
        reservedTotal := ActiveReserved(reservations, None))
  }

  // ----- What applying a verdict guarantees ---------------------------------

  /** Whatever fills were booked after the facts were loaded, an order confirmed open
      keeps a reservation for at least what it can still be matched for, up to the
      matching and identity tolerances. */
  lemma ConfirmedOpenKeepsEnough(local: LocalFact, fact: ExchangeFact, unsettled: int, r: Reservation, filledNow: int)
    requires Classify(local, Some(fact), unsettled).kind.OpenConfirmed?
    requires filledNow >= local.filled
    ensures var after := ApplyToReservation(r, Classify(local, Some(fact), unsettled));
            && after.Active()
            && after.remaining >= local.size - filledNow - 2 * SIZE_TOLERANCE
            && after.remaining >= fact.original - filledNow - SIZE_TOLERANCE
  {
  }

  /** A verdict closes a reservation only when matched and accounted sizes agree to
      1e-6 shares, and a full fill leaves no more than that unmatched. */
  lemma ClosingNeedsAgreement(local: LocalFact, fact: ExchangeFact, unsettled: int, r: Reservation)
    requires r.Active() && !ApplyToReservation(r, Classify(local, Some(fact), unsettled)).Active()
    ensures Distance(fact.matched, local.filled) <= SIZE_TOLERANCE
    ensures fact.status.CanceledGroup? || (fact.status.FilledGroup? && fact.original - fact.matched <= SIZE_TOLERANCE)
  {
  }

  /** Exactness: a confirmed-open reservation is exactly the unfilled rest of the order if and
      only if what is booked when the verdict is applied is what the exchange had reported. */
  lemma ConfirmedOpenIsExactIff(local: LocalFact, fact: ExchangeFact, unsettled: int, r: Reservation, filledNow: int)
    requires Classify(local, Some(fact), unsettled).kind.OpenConfirmed?
    requires fact.matched <= fact.original == local.size
    ensures ApplyToReservation(r, Classify(local, Some(fact), unsettled)).remaining + filledNow == local.size
        <==> filledNow == fact.matched
  {
  }
}
