/** A submission as a run of the transition system: whatever becomes of the order, the rows the
    service commits are those of enabled steps, and an order whose reservation it frees is dead. */
module Submission {
  import opened Common
  import opened Rows
  import opened Transactions
  import opened Applying
  import opened World
  import opened Safety
  import opened Runs
  import opened Races
  import opened Store

  /** How the order came by its fate. */
  function FateSteps(id: OrderId, fate: Remote): seq<Step> {
    match fate
    case Planned => [Withhold(id)]
    case InFlight => [Send(id)]
    case Absent => [Send(id), Refuse(id)]
    case Accepted(x, _, _) => [Send(id), Accept(id, x)]
  }

  /** The transactions that settle a reply. */
  function SettleSteps(id: OrderId, reply: Reply, stored: bool): seq<Step> {
    if !stored then [MarkStep(id, Unresolved)]
    else [Persist(id, reply.ExchangeIdKnown(), reply.OrderOutcome()), SettleStep(id, reply)]
  }

  function SettleStep(id: OrderId, reply: Reply): Step {
    if reply.OrderOutcome().Open? then MarkOpenStep(id, reply.exchangeId)
    else if reply.OrderOutcome().Failed? then ReleaseRefused(id)
    else MarkStep(id, Unresolved)
  }

  /** Where a fate ends once the reply is known: what was not sent never will be. */
  function Ended(fate: Remote): Remote { if fate.Planned? then Absent else fate }

  /** The fate is one the reply leaves open and the exchange may give. */
  ghost predicate Possible(b: World, id: OrderId, r: Reservation, reply: Reply, fate: Remote) {
    && id !in b.db.orders && id !in b.db.reservations
    && reply.Allows(fate)
    && (fate.Accepted? ==> Fresh(b, id, fate.exchangeId) && fate == Accepted(fate.exchangeId, 0, r.original))
  }

  ghost function JournaledWorld(w: World, id: OrderId, r: Reservation): World {
    w.(db := Journal(w.db, id, r.market, r.token, r.side, r.limit, r.original))
  }

  lemma JournalOrderStep(settings: Settings, steps: seq<Step>, b: World, id: OrderId, r: Reservation, total: real, w: World)
    requires Granting(b, id, r, total, w) && id !in b.db.orders && Reaches(settings, steps, w)
    ensures Reaches(settings, steps + [JournalStep(id)], JournaledWorld(w, id, r))
  {
    hide Reaches, GoodReservation;
    Reach(settings, steps, w, JournalStep(id));
  }

  /** The order reaches its fate. */
  lemma MeetFate(
    settings: Settings, steps: seq<Step>, b: World, id: OrderId, r: Reservation, total: real, w: World, reply: Reply, fate: Remote)
    requires Granting(b, id, r, total, w) && Possible(b, id, r, reply, fate)
    requires Reaches(settings, steps, JournaledWorld(w, id, r))
    ensures Reaches(settings, steps + FateSteps(id, fate),
                    JournaledWorld(w, id, r).(remote := w.remote[id := Ended(fate)]))
  {
    hide Reaches, GoodReservation;
    var w2 := JournaledWorld(w, id, r);
    if fate.Planned? {
      Reach(settings, steps, w2, Withhold(id));
    } else {
      Reach(settings, steps, w2, Send(id));
      var w3 := w2.(remote := w2.remote[id := InFlight]);
      if fate.Absent? {
        Reach(settings, steps + [Send(id)], w3, Refuse(id));
        assert steps + [Send(id)] + [Refuse(id)] == steps + FateSteps(id, fate);
        assert w3.remote[id := Absent] == w.remote[id := Absent];
      } else if fate.Accepted? {
        Reach(settings, steps + [Send(id)], w3, Accept(id, fate.exchangeId));
        assert steps + [Send(id)] + [Accept(id, fate.exchangeId)] == steps + FateSteps(id, fate);
        assert w3.remote[id := fate] == w.remote[id := fate];
      }
    }
  }

  /** What the settlement of a reply needs of the world. */
  ghost predicate Settleable(w: World, id: OrderId, reply: Reply) {
    && id in w.db.orders && id in w.remote && w.db.orders[id].exchangeId.None?
    && !Taken(w.db.orders, id, reply)
    && (reply.ExchangeIdKnown().Some? ==> w.remote[id].Accepted? && Some(w.remote[id].exchangeId) == reply.ExchangeIdKnown())
    && (reply.OrderOutcome().Failed? ==> w.remote[id].Absent?)
  }

  lemma SettleReply(settings: Settings, steps: seq<Step>, w: World, id: OrderId, reply: Reply, stored: bool)
    requires Reaches(settings, steps, w) && Settleable(w, id, reply)
    ensures Reaches(settings, steps + SettleSteps(id, reply, stored), w.(db := Settled(w.db, id, reply, stored)))
  {
    hide Reaches, Taken, MarkActive, MarkOpen, Release;
    if !stored {
      Reach(settings, steps, w, MarkStep(id, Unresolved));
    } else {
      var first := Persist(id, reply.ExchangeIdKnown(), reply.OrderOutcome());
      Reach(settings, steps, w, first);
      PersistedRow(w.db, id, reply);
      Reach(settings, steps + [first], Next(w, settings, first), SettleStep(id, reply));
      assert steps + [first] + [SettleStep(id, reply)] == steps + SettleSteps(id, reply, stored);
    }
  }

  lemma PersistedRow(db: Db, id: OrderId, reply: Reply)
    requires id in db.orders
    ensures id in PersistSubmit(db, id, reply.ExchangeIdKnown(), reply.OrderOutcome()).orders
  {
  }

  lemma FateIsSettleable(
    b: World, id: OrderId, r: Reservation, total: real, w: World, reply: Reply, fate: Remote)
    requires Granting(b, id, r, total, w) && Possible(b, id, r, reply, fate)
    ensures Settleable(JournaledWorld(w, id, r).(remote := w.remote[id := Ended(fate)]), id, reply)
  {
    hide GoodReservation;
  }

  /** From the journal entry on. */
  lemma SettledRun(
    settings: Settings, steps: seq<Step>, b: World, id: OrderId, r: Reservation, total: real, w: World,
    reply: Reply, fate: Remote, stored: bool)
    requires Granting(b, id, r, total, w) && Possible(b, id, r, reply, fate) && Reaches(settings, steps, w)
    ensures var met := JournaledWorld(w, id, r).(remote := w.remote[id := Ended(fate)]);
            Reaches(settings, steps + [JournalStep(id)] + FateSteps(id, fate) + SettleSteps(id, reply, stored),
                    met.(db := Settled(met.db, id, reply, stored)))
  {
    assert id !in b.db.orders;
    hide Reaches, Granting, Possible, Settled, Settleable, JournaledWorld, Ended, FateSteps, SettleSteps;
    JournalOrderStep(settings, steps, b, id, r, total, w);
    MeetFate(settings, steps + [JournalStep(id)], b, id, r, total, w, reply, fate);
    FateIsSettleable(b, id, r, total, w, reply, fate);
    var met := JournaledWorld(w, id, r).(remote := w.remote[id := Ended(fate)]);
    SettleReply(settings, steps + [JournalStep(id)] + FateSteps(id, fate), met, id, reply, stored);
  }

  lemma PersistKeepsReservations(db: Db, id: OrderId, x: Option<ExchangeId>, status: OrderStatus)
    requires id in db.orders
    ensures var after := PersistSubmit(db, id, x, status);
            after.reservations == db.reservations && id in after.orders && after.orders[id].reservation == db.orders[id].reservation
  {
  }

  /** Settling keeps the reservation, and frees it only after a reply that proves the order dead. */
  lemma SettledRow(db: Db, id: OrderId, reply: Reply, stored: bool)
    requires id in db.orders && db.orders[id].reservation == Some(id) && id in db.reservations && db.reservations[id].status.Reserved?
    ensures var after := Settled(db, id, reply, stored);
            id in after.reservations && (!after.reservations[id].Active() ==> reply.ProvesDead())
  {
    NeverAcceptedIsDead(reply);
    PersistKeepsReservations(db, id, reply.ExchangeIdKnown(), reply.OrderOutcome());
    hide Reply.ProvesDead, Taken, PersistSubmit;
  }

  lemma FreedIsDead(
    b: World, id: OrderId, r: Reservation, total: real, w: World, reply: Reply, fate: Remote, stored: bool)
    requires Granting(b, id, r, total, w) && Possible(b, id, r, reply, fate)
    ensures var db := Settled(JournaledWorld(w, id, r).db, id, reply, stored);
            id in db.reservations && (!db.reservations[id].Active() ==> !fate.MayLive())
  {
    hide GoodReservation, Settled, Reply.Allows, Fresh;
    SettledRow(JournaledWorld(w, id, r).db, id, reply, stored);
  }

  lemma Appended(a: seq<Step>, b: seq<Step>, c: seq<Step>, d: seq<Step>, e: seq<Step>)
    ensures a + (b + c + d + e) == a + b + c + d + e
  {
  }

  /** Every submission is a run. From any reachable world, and for every fate the reply leaves
      open, the rows the service commits are those a sequence of enabled steps ends with, and
      that run ends with the order at its fate. A freed reservation then means that the exchange
      never held the order and never will. */
  lemma SubmissionIsARun(
    settings: Settings, before: seq<Step>, b: World, reserve: Step, r: Reservation, total: real,
    reply: Reply, fate: Remote, stored: bool) returns (steps: seq<Step>, w: World)
    requires Reaches(settings, before, b) && Enabled(b, reserve) && (reserve.ReserveBuyStep? || reserve.ReserveSellStep?)
    requires Granting(b, reserve.id, r, total, Next(b, settings, reserve)) && Possible(b, reserve.id, r, reply, fate)
    ensures Reaches(settings, before + steps, w)
    ensures w.db == Settled(Journal(Next(b, settings, reserve).db, reserve.id, r.market, r.token, r.side, r.limit, r.original),
                            reserve.id, reply, stored)
    ensures reserve.id in w.db.reservations && reserve.id in w.remote && w.remote[reserve.id] == Ended(fate)
    ensures !w.db.reservations[reserve.id].Active() ==> w.remote[reserve.id].Absent? && !fate.MayLive()
  {
    var id, granted := reserve.id, Next(b, settings, reserve);
    hide Reaches, Granting, Possible, Enabled, Next, Settled, Reply.Allows, FateSteps, SettleSteps, Journal;
    Reach(settings, before, b, reserve);
    SettledRun(settings, before + [reserve], b, id, r, total, granted, reply, fate, stored);
    FreedIsDead(b, id, r, total, granted, reply, fate, stored);
    steps := [reserve] + [JournalStep(id)] + FateSteps(id, fate) + SettleSteps(id, reply, stored);
    Appended(before, [reserve], [JournalStep(id)], FateSteps(id, fate), SettleSteps(id, reply, stored));
    var met := JournaledWorld(granted, id, r).(remote := granted.remote[id := Ended(fate)]);
    w := met.(db := Settled(met.db, id, reply, stored));
  }

  /** An order the exchange never held is never held. */
  lemma AbsentForEver(w: World, settings: Settings, s: Step, id: OrderId)
    requires Inv(w) && Enabled(w, s) && id in w.remote && w.remote[id].Absent?
    ensures id in Next(w, settings, s).remote && Next(w, settings, s).remote[id].Absent?
  {
    hide Inv, Process, ReserveBuy, ReserveSell, ApplyReport, LoadFacts, FetchedFact, Overwrite, PersistSubmit, CancelEvent, CanMatch;
    InvKeys(w);
    hide Consistent, GoodOrders, GoodEvents;
    if s.ReserveBuyStep? || s.ReserveSellStep? {
      assert s.id !in w.remote.Keys;
    } else if s.MatchStep? {
      assert CanMatch(w, s.e, s.id, s.execution);
      MatchesLiveOrder(w, s);
    }
  }

  lemma MatchesLiveOrder(w: World, s: Step)
    requires s.MatchStep? && CanMatch(w, s.e, s.id, s.execution)
    ensures s.id in w.remote && w.remote[s.id].Accepted?
  {
  }
}
