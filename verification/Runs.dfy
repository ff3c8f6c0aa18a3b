/** The invariant and the budget over whole runs. */
module Runs {
  import opened Common
  import opened Accounting
  import opened Fees
  import opened Rows
  import opened Transactions
  import opened Reconciliation
  import opened Applying
  import opened World
  import opened Safety
  import opened Booking
  import opened Passes

  /** The step keeps the invariant and, unless it overwrites a position, the budget. */
  ghost predicate Keeps(w: World, settings: Settings, scope: Scope, w': World, overwrites: bool) {
    && Inv(w')
    && w.remote.Keys == w.db.reservations.Keys && w'.remote.Keys == w'.db.reservations.Keys
    && (!overwrites && WithinBudget(w, settings, scope) ==> WithinBudget(w', settings, scope))
  }

  lemma FrameKeeps(w: World, settings: Settings, scope: Scope, w': World)
    requires Inv(w') && RiskFrame(w, w')
    ensures Keeps(w, settings, scope, w', false)
  {
    hide Inv;
    if WithinBudget(w, settings, scope) {
      RiskFrameKeepsBudget(w, w', settings, scope);
    }
  }

  lemma InvKeys(w: World)
    requires Inv(w)
    ensures w.remote.Keys == w.db.reservations.Keys
    ensures Consistent(w) && GoodOrders(w) && GoodEvents(w)
  {
    KeysAgree(w);
  }

  /** Steps that grant nothing, book nothing and overwrite nothing. */
  predicate Framed(s: Step) {
    !s.ReserveBuyStep? && !s.ReserveSellStep? && !s.Attempt? && !s.OverwriteStep?
  }

  // ----- One processing attempt ---------------------------------------------

  lemma AttemptKeeps(w: World, settings: Settings, scope: Scope, e: EventId)
    requires Inv(w)
    ensures Keeps(w, settings, scope, w.(db := Process(w.db, e).db), false)
    ensures !Process(w.db, e).outcome.Booked? ==> RiskFrame(w, w.(db := Process(w.db, e).db))
  {
    hide Inv, Process, WithinBudget, Consistent, SameBooked, RiskFrame;
    InvKeys(w);
    var p := Process(w.db, e);
    if p.outcome.Booked? {
      BookingKeeps(w, settings, scope, e);
    } else {
      UnbookedAttempt(w, e);
      SameBookedKeepsInv(w, p.db);
      FrameKeeps(w, settings, scope, w.(db := p.db));
    }
  }

  lemma UnbookedAttempt(w: World, e: EventId)
    requires GoodEvents(w) && !Process(w.db, e).outcome.Booked?
    ensures SameBooked(w, Process(w.db, e).db)
  {
    hide BookFill;
    forall other | other in w.db.events ensures GoodEvent(w, other) {
    }
  }

  /** A booked attempt is a good booking against the order the execution was traded for. */
  lemma BookedAttempt(w: World, e: EventId) returns (id: OrderId, parts: Parts)
    requires Consistent(w) && Process(w.db, e).outcome.Booked?
    ensures GoodBooking(w, e, id, parts, w.(db := Process(w.db, e).db))
    ensures e in w.db.events && id in w.db.orders && BookFill(w.db, e, id) == Success(Process(w.db, e).db)
    ensures w.db.orders[id].exchangeId == Some(w.db.events[e].execution.exchangeId)
  {
    hide BookFill, Consistent, BooksAs;
    id := LookUp(w.db.orders, w.db.events[e].execution.exchangeId).value;
    MappedOrderIsTradedOrder(w, e, id);
    parts := BookFillParts(w.db, e, id);
  }

  lemma BookingKeeps(w: World, settings: Settings, scope: Scope, e: EventId)
    requires Inv(w) && Process(w.db, e).outcome.Booked?
    ensures Keeps(w, settings, scope, w.(db := Process(w.db, e).db), false)
  {
    InvKeys(w);
    hide Inv, Process, WithinBudget, Consistent, GoodOrders, GoodEvents, GoodBooking;
    var w' := w.(db := Process(w.db, e).db);
    var id, parts := BookedAttempt(w, e);
    BookKeepsInv(w, e, id, parts, w');
    InvKeys(w');
    if WithinBudget(w, settings, scope) {
      BookKeepsBudget(w, e, id, parts, w', settings, scope);
    }
  }

  // ----- Every step ---------------------------------------------------------

  lemma SubmissionKeeps(w: World, settings: Settings, scope: Scope, s: Step)
    requires Inv(w) && Enabled(w, s)
    requires s.ReserveBuyStep? || s.ReserveSellStep? || s.JournalStep? || s.JournalFails? || s.ReleaseRefused?
    ensures Keeps(w, settings, scope, Next(w, settings, s), false)
    ensures Framed(s) ==> RiskFrame(w, Next(w, settings, s))
  {
    hide Inv, ReserveBuy, ReserveSell, Release, Planning, Consistent, GoodOrders, GoodEvents, Journal, WithinBudget, RiskFrame, Keeps;
    InvKeys(w);
    var w' := Next(w, settings, s);
    if s.ReserveBuyStep? {
      ReserveKeeps(w, settings, scope, s);
    } else if s.ReserveSellStep? {
      ReserveKeeps(w, settings, scope, s);
    } else if s.JournalStep? {
      assert s.id in w.remote.Keys;
      JournalKeepsInv(w, s.id);
      FrameKeeps(w, settings, scope, w');
    } else if s.JournalFails? {
      JournalFailureKeeps(w, settings, scope, s.id);
    } else {
      ReleaseKeepsInv(w, s.id, OrderFailed);
      FrameKeeps(w, settings, scope, w');
    }
  }

  lemma ReserveKeeps(w: World, settings: Settings, scope: Scope, s: Step)
    requires Inv(w) && Enabled(w, s) && (s.ReserveBuyStep? || s.ReserveSellStep?)
    ensures Keeps(w, settings, scope, Next(w, settings, s), false)
  {
    InvKeys(w);
    hide Inv, ReserveBuy, ReserveSell, Consistent, GoodOrders, GoodEvents;
    var w' := Next(w, settings, s);
    if WithinBudget(w, settings, scope) {
      if s.ReserveBuyStep? {
        BuyGrantKeepsInv(w, s.id, s.market, s.token, s.limit, s.size, settings, scope);
      } else {
        SellGrantKeepsInv(w, s.id, s.market, s.token, s.limit, s.size, settings, scope);
      }
      InvKeys(w');
    } else {
      ReserveKeepsInv(w, settings, s);
      InvKeys(w');
    }
  }

  lemma ReserveKeepsInv(w: World, settings: Settings, s: Step)
    requires Inv(w) && Enabled(w, s) && (s.ReserveBuyStep? || s.ReserveSellStep?)
    ensures Inv(Next(w, settings, s))
  {
    hide Consistent, Complete, Sum, Notional, CapitalUsed, ActiveReserved, PromisedShares;
    var w' := Next(w, settings, s);
    if w' != w {
      var side := if s.ReserveBuyStep? then Buy else Sell;
      var r := NewReservation(s.market, s.token, side, s.limit, s.size);
      var total := ActiveReserved(w.db.reservations, None) + r.notional;
      assert Granting(w, s.id, r, total, w');
      hide GoodReservation, Granting, ReserveSell, ReserveBuy, Inv;
      GrantKeepsInv(w, s.id, r, total, w');
    }
  }

  lemma JournalFailureKeeps(w: World, settings: Settings, scope: Scope, id: OrderId)
    requires Inv(w) && id in w.remote && w.remote[id].Planned? && id !in w.db.orders
    ensures Keeps(w, settings, scope, w.(db := Release(w.db, id, JournalFailed), remote := w.remote[id := Absent]), false)
    ensures RiskFrame(w, w.(db := Release(w.db, id, JournalFailed), remote := w.remote[id := Absent]))
  {
    InvKeys(w);
    PositiveOriginal(w, id);
    var w1 := w.(remote := w.remote[id := Absent]);
    assert CalmMove(w, id, Absent);
    hide Inv, Release, Consistent, GoodOrders, GoodEvents, WithinBudget, CalmMove, RiskFrame;
    CalmMoveKeepsInv(w, id, Absent);
    FrameKeeps(w, settings, scope, w1);
    ReleaseKeepsInv(w1, id, JournalFailed);
    FrameKeeps(w1, settings, scope, w1.(db := Release(w1.db, id, JournalFailed)));
    FramesCompose(w, w1, w1.(db := Release(w1.db, id, JournalFailed)));
  }

  lemma PositiveOriginal(w: World, id: OrderId)
    requires Consistent(w) && id in w.db.reservations
    ensures w.db.reservations[id].original > 0
  {
    assert GoodReservation(w.db, w.db.reservations[id]);
  }

  lemma StatusKeeps(w: World, settings: Settings, scope: Scope, s: Step)
    requires Inv(w) && Enabled(w, s)
    requires s.Persist? || s.MarkOpenStep? || s.MarkStep? || s.CancelSeen? || s.CancelAnswered?
    ensures Keeps(w, settings, scope, Next(w, settings, s), false)
    ensures RiskFrame(w, Next(w, settings, s))
  {
    hide Inv, PersistSubmit, MarkOpen, MarkActive, CancelEvent, CancelResponse, Consistent, GoodOrders, GoodEvents, SameRisk,
      RiskFrame, Keeps, WithinBudget;
    InvKeys(w);
    var w' := Next(w, settings, s);
    match s {
      case Persist(id, x, outcome) => PersistIsSameRisk(w, id, x, outcome);
      case MarkOpenStep(id, x) => MarkOpenIsSameRisk(w, id, x);
      case MarkStep(id, hold) => MarkIsSameRisk(w, id, hold);
      case CancelSeen(x) => CancelEventIsSameRisk(w, x);
      case CancelAnswered(id, outcome) => CancelIsSameRisk(w, id, outcome);
    }
    SameRiskKeepsInv(w, w'.db);
    FrameKeeps(w, settings, scope, w');
  }

  lemma ExchangeKeeps(w: World, settings: Settings, scope: Scope, s: Step)
    requires Inv(w) && Enabled(w, s)
    requires s.Send? || s.Withhold? || s.Accept? || s.Refuse? || s.CancelAtExchange? || s.MatchStep?
    ensures Keeps(w, settings, scope, Next(w, settings, s), false)
    ensures RiskFrame(w, Next(w, settings, s))
  {
    hide Inv, Consistent, GoodOrders, GoodEvents, CalmMove, CanMatch, RiskFrame, Keeps, WithinBudget, FetchedFact, LoadFacts;
    InvKeys(w);
    var w' := Next(w, settings, s);
    if s.MatchStep? {
      assert CanMatch(w, s.e, s.id, s.execution);
      assert w' == Matched'(w, s.e, s.id, s.execution) by { MatchedForm(w, settings, s); }
      MatchKeepsInv(w, s.e, s.id, s.execution);
    } else {
      ExchangeMovesAreCalm(w, s);
      var r' := w'.remote[s.id];
      assert s.id in w.remote.Keys;
      CalmMoveKeepsInv(w, s.id, r');
      assert w' == w.(remote := w.remote[s.id := r']);
    }
    FrameKeeps(w, settings, scope, w');
  }

  lemma MatchedForm(w: World, settings: Settings, s: Step)
    requires Enabled(w, s) && s.MatchStep?
    ensures CanMatch(w, s.e, s.id, s.execution) && Next(w, settings, s) == Matched'(w, s.e, s.id, s.execution)
  {
  }

  lemma FillStepKeeps(w: World, settings: Settings, scope: Scope, s: Step)
    requires Inv(w) && Enabled(w, s) && (s.Deliver? || s.Attempt? || s.FailClosed?)
    ensures Keeps(w, settings, scope, Next(w, settings, s), false)
    ensures Framed(s) ==> RiskFrame(w, Next(w, settings, s))
  {
    hide Inv, Consistent, GoodOrders, GoodEvents, SameBooked, Record, MarkFailed, Process, RiskFrame, Keeps, WithinBudget;
    InvKeys(w);
    var w' := Next(w, settings, s);
    if s.Attempt? {
      AttemptKeeps(w, settings, scope, s.e);
    } else {
      if s.Deliver? {
        DeliveryIsSameBooked(w, s.e);
      } else {
        FailClosedIsSameBooked(w, s.e);
      }
      SameBookedKeepsInv(w, w'.db);
      FrameKeeps(w, settings, scope, w');
    }
  }

  lemma PassKeeps(w: World, settings: Settings, scope: Scope, s: Step)
    requires Inv(w) && Enabled(w, s)
    requires s.BeginPass? || s.Fetch? || s.ApplyPass? || s.Rebuild? || s.OverwriteStep?
    ensures Keeps(w, settings, scope, Next(w, settings, s), s.OverwriteStep?)
    ensures Framed(s) ==> RiskFrame(w, Next(w, settings, s))
  {
    hide Inv, Consistent, GoodOrders, GoodEvents, GoodPass, ApplyReport, LoadFacts, Overwrite, Verdicts, FetchedFact, ActiveReserved,
      RiskFrame, Keeps, WithinBudget, CanMatch, RebuildTotal;
    InvKeys(w);
    var w' := Next(w, settings, s);
    match s {
      case BeginPass =>
        BeginIsGood(w);
        SetPassKeepsInv(w, w'.pass);
        FrameKeeps(w, settings, scope, w');
      case Fetch(id, group) =>
        FetchIsGood(w, id, group);
        SetPassKeepsInv(w, w'.pass);
        FrameKeeps(w, settings, scope, w');
      case ApplyPass(unsettled) =>
        ApplyKeepsInv(w, unsettled);
        FrameKeeps(w, settings, scope, w');
      case Rebuild =>
        RebuildChangesNothing(w);
        SameKeeps(w, settings, scope);
        FrameOfNothing(w);
      case OverwriteStep(market, actual) =>
        OverwriteKeepsInv(w, market, actual);
        OverwriteKeeps(w, settings, scope, w');
    }
  }

  /** The cached total is always right, so recomputing it changes nothing. */
  lemma RebuildChangesNothing(w: World)
    requires Inv(w)
    ensures w.(db := RebuildTotal(w.db)) == w
  {
  }

  lemma SameKeeps(w: World, settings: Settings, scope: Scope)
    requires Inv(w)
    ensures Keeps(w, settings, scope, w, false)
  {
    hide Inv;
    InvKeys(w);
  }

  lemma OverwriteKeeps(w: World, settings: Settings, scope: Scope, w': World)
    requires Inv(w) && Inv(w')
    ensures Keeps(w, settings, scope, w', true)
  {
    hide Inv, WithinBudget;
    InvKeys(w);
    InvKeys(w');
  }

  lemma StepKeeps(w: World, settings: Settings, scope: Scope, s: Step)
    requires Inv(w) && Enabled(w, s)
    ensures Keeps(w, settings, scope, Next(w, settings, s), s.OverwriteStep?)
    ensures Framed(s) ==> RiskFrame(w, Next(w, settings, s))
  {
    hide *;
    if s.ReserveBuyStep? || s.ReserveSellStep? || s.JournalStep? || s.JournalFails? || s.ReleaseRefused? {
      SubmissionKeeps(w, settings, scope, s);
    } else if s.Persist? || s.MarkOpenStep? || s.MarkStep? || s.CancelSeen? || s.CancelAnswered? {
      StatusKeeps(w, settings, scope, s);
    } else if s.Send? || s.Withhold? || s.Accept? || s.Refuse? || s.CancelAtExchange? || s.MatchStep? {
      ExchangeKeeps(w, settings, scope, s);
    } else if s.Deliver? || s.Attempt? || s.FailClosed? {
      FillStepKeeps(w, settings, scope, s);
    } else {
      PassKeeps(w, settings, scope, s);
    }
  }

  // ----- Whole runs ---------------------------------------------------------

  lemma InitIsGood(w: World, settings: Settings, scope: Scope)
    requires Init(w) && Cap(settings, scope) >= 0.0
    ensures Inv(w) && w.remote.Keys == w.db.reservations.Keys && WithinBudget(w, settings, scope)
  {
    SumOfZeros(CapitalTable(w.db.inventory, scope));
    SumOfZeros(ReservedTable(w.db.reservations, None));
    SumOfZeros(ExposureTable(w, scope));
    SumOfZeros(FeeTable(w.db.cash, scope));
    SumOfZeros(SlackTable(w.db.reservations, scope));
  }

  /** Every reachable world satisfies the invariant, overwrites included. */
  lemma {:induction false} RunKeepsInv(worlds: seq<World>, steps: seq<Step>, settings: Settings, n: nat)
    requires Run(worlds, steps, settings) && n <= |steps|
    ensures Inv(worlds[n])
  {
    hide Inv, Enabled, Next, Init;
    if n == 0 {
      InitIsGood(worlds[0], Settings(0.0, 0.0), None);
    } else {
      RunKeepsInv(worlds, steps, settings, n - 1);
      StepKeeps(worlds[n - 1], settings, None, steps[n - 1]);
    }
  }

  /** True exposure never exceeds the budget. In every world of every run without an
      external overwrite, and for the wallet as for each market, the cost of what is
      held plus the limit price of every share a BUY may still be matched for, or has
      been matched for without being booked, is at most the cap plus 1e-9 dollars, the
      BUY fees paid and 1e-6 shares per BUY order. */
  lemma {:induction false} TrueExposureNeverExceedsBudget(
    worlds: seq<World>, steps: seq<Step>, settings: Settings, scope: Scope, n: nat)
    requires Run(worlds, steps, settings) && n <= |steps|
    requires settings.globalCap >= 0.0 && settings.marketCap >= 0.0
    requires forall i :: 0 <= i < n ==> !steps[i].OverwriteStep?
    ensures worlds[n].remote.Keys == worlds[n].db.reservations.Keys
    ensures TrueExposure(worlds[n], scope)
            <= Cap(settings, scope) + MONEY_TOLERANCE
               + BuyFees(worlds[n].db.cash, scope) + Slack(worlds[n].db.reservations, scope)
  {
    BudgetHolds(worlds, steps, settings, scope, n);
  }

  lemma {:induction false} BudgetHolds(
    worlds: seq<World>, steps: seq<Step>, settings: Settings, scope: Scope, n: nat)
    requires Run(worlds, steps, settings) && n <= |steps|
    requires settings.globalCap >= 0.0 && settings.marketCap >= 0.0
    requires forall i :: 0 <= i < n ==> !steps[i].OverwriteStep?
    ensures worlds[n].remote.Keys == worlds[n].db.reservations.Keys
    ensures WithinBudget(worlds[n], settings, scope)
  {
    if n == 0 {
      InitIsGood(worlds[0], settings, scope);
    } else {
      BudgetHolds(worlds, steps, settings, scope, n - 1);
      RunKeepsInv(worlds, steps, settings, n - 1);
      hide Inv, Enabled, Next, Init, WithinBudget;
      StepKeeps(worlds[n - 1], settings, scope, steps[n - 1]);
    }
  }

  // ----- Runs with overwrites -----------------------------------------------

  ghost predicate BudgetHeld(w: World, settings: Settings, scope: Scope) {
    w.remote.Keys == w.db.reservations.Keys && WithinBudget(w, settings, scope)
  }

  /** The cost basis an overwrite would write. */
  function OverwrittenCapital(book: Ledger, actual: Position): real {
    ReconcileCapital(actual.yes, actual.yesCost, book.yesExposure, book.yesCapital)
    + ReconcileCapital(actual.no, actual.noCost, book.noExposure, book.noCapital)
  }

  /** An overwrite whose new cost basis fits what the budget leaves to its market. */
  ghost predicate OverwriteFits(w: World, settings: Settings, scope: Scope, s: Step) {
    s.OverwriteStep? && s.market in w.db.inventory && InScope(scope, s.market) && w.remote.Keys == w.db.reservations.Keys ==>
      var book := w.db.inventory[s.market].book;
      OverwrittenCapital(book, s.actual) - book.Capital()
      <= Cap(settings, scope) + MONEY_TOLERANCE + BuyFees(w.db.cash, scope) + Slack(w.db.reservations, scope) - TrueExposure(w, scope)
  }

  /** What an overwrite writes. */
  lemma OverwriteForm(w: World, settings: Settings, s: Step)
    requires Enabled(w, s) && s.OverwriteStep?
    ensures Next(w, settings, s) == w.(db := w.db.(inventory := Overwrite(w.db, s.market, s.actual).inventory))
  {
    OverwriteFrame(w.db, s.market, s.actual);
  }

  lemma OverwrittenInventory(db: Db, market: MarketId, actual: Position)
    requires market in db.inventory
    ensures var inventory := Overwrite(db, market, actual).inventory;
            && market in inventory && inventory == db.inventory[market := inventory[market]]
            && inventory[market].book.yesExposure == actual.yes && inventory[market].book.noExposure == actual.no
            && inventory[market].book.Capital() == OverwrittenCapital(db.inventory[market].book, actual)
  {
    hide ReconcileCapital;
  }

  lemma NoOverwrite(db: Db, market: MarketId, actual: Position)
    requires market !in db.inventory
    ensures Overwrite(db, market, actual) == db
  {
  }

  /** What an overwrite does to the money at risk. */
  lemma OverwriteMovesExposure(w: World, settings: Settings, scope: Scope, s: Step)
    requires w.remote.Keys == w.db.reservations.Keys && Enabled(w, s) && s.OverwriteStep?
    ensures var w' := Next(w, settings, s);
            && w'.remote.Keys == w'.db.reservations.Keys && w'.db.cash == w.db.cash && w'.db.reservations == w.db.reservations
            && TrueExposure(w', scope)
               == TrueExposure(w, scope)
                  + (if s.market in w.db.inventory && InScope(scope, s.market)
                     then OverwrittenCapital(w.db.inventory[s.market].book, s.actual) - w.db.inventory[s.market].book.Capital()
                     else 0.0)
  {
    hide Sum, CapitalUsed, OverwrittenCapital, Overwrite, Next, Enabled, Notional;
    OverwriteForm(w, settings, s);
    var w' := Next(w, settings, s);
    assert ExposureTable(w', scope) == ExposureTable(w, scope);
    if s.market in w.db.inventory {
      OverwrittenInventory(w.db, s.market, s.actual);
      CapitalWrite(w.db.inventory, s.market, w'.db.inventory[s.market], scope);
    } else {
      NoOverwrite(w.db, s.market, s.actual);
    }
  }

  /** One step keeps the budget if and only if it is not an overwrite that exceeds what is left. */
  lemma StepKeepsBudgetIff(w: World, settings: Settings, scope: Scope, s: Step)
    requires Inv(w) && Enabled(w, s) && BudgetHeld(w, settings, scope)
    ensures BudgetHeld(Next(w, settings, s), settings, scope) <==> OverwriteFits(w, settings, scope, s)
  {
    hide Inv, Enabled, Next, RiskFrame, TrueExposure, BuyFees, Slack, OverwrittenCapital;
    StepKeeps(w, settings, scope, s);
    if s.OverwriteStep? {
      OverwriteMovesExposure(w, settings, scope, s);
    }
  }

  /** Over every run, overwrites included: the budget holds in every world if and only if every
      overwrite writes a cost basis that fits what is left when it is made. */
  lemma BudgetHoldsIff(worlds: seq<World>, steps: seq<Step>, settings: Settings, scope: Scope)
    requires Run(worlds, steps, settings)
    requires settings.globalCap >= 0.0 && settings.marketCap >= 0.0
    ensures (forall i :: 0 <= i < |worlds| ==> BudgetHeld(worlds[i], settings, scope))
       <==> (forall i :: 0 <= i < |steps| ==> OverwriteFits(worlds[i], settings, scope, steps[i]))
  {
    hide Inv, Enabled, Next, Init, BudgetHeld, OverwriteFits;
    if forall i :: 0 <= i < |worlds| ==> BudgetHeld(worlds[i], settings, scope) {
      forall i | 0 <= i < |steps| ensures OverwriteFits(worlds[i], settings, scope, steps[i]) {
        RunKeepsInv(worlds, steps, settings, i);
        assert BudgetHeld(worlds[i], settings, scope) && BudgetHeld(worlds[i + 1], settings, scope);
        StepKeepsBudgetIff(worlds[i], settings, scope, steps[i]);
      }
    }
    if forall i :: 0 <= i < |steps| ==> OverwriteFits(worlds[i], settings, scope, steps[i]) {
      forall i | 0 <= i < |worlds| ensures BudgetHeld(worlds[i], settings, scope) {
        FittingOverwritesKeepBudget(worlds, steps, settings, scope, i);
      }
    }
  }

  lemma {:induction false} FittingOverwritesKeepBudget(
    worlds: seq<World>, steps: seq<Step>, settings: Settings, scope: Scope, n: nat)
    requires Run(worlds, steps, settings) && n <= |steps|
    requires settings.globalCap >= 0.0 && settings.marketCap >= 0.0
    requires forall i :: 0 <= i < n ==> OverwriteFits(worlds[i], settings, scope, steps[i])
    ensures BudgetHeld(worlds[n], settings, scope)
  {
    hide Inv, Enabled, Next, Init, OverwriteFits, WithinBudget;
    if n == 0 {
      InitIsGood(worlds[0], settings, scope);
    } else {
      FittingOverwritesKeepBudget(worlds, steps, settings, scope, n - 1);
      RunKeepsInv(worlds, steps, settings, n - 1);
      hide BudgetHeld;
      StepKeepsBudgetIff(worlds[n - 1], settings, scope, steps[n - 1]);
    }
  }
}
