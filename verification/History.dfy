/** Exactly-once accounting: the ledger is the replay of the executions booked so far,
    each once, in the order in which they first succeeded. */
module History {
  import opened Common
  import opened Accounting
  import opened Fees
  import opened Rows
  import opened Transactions
  import opened Applying
  import opened World
  import opened Safety
  import opened Booking
  import opened Runs
  import opened Book
  import opened Sales

  predicate BookedIn(db: Db, e: EventId, m: MarketId) {
    IsBooked(db, e) && db.events[e].booking.Some? && db.events[e].booking.value.market == m
  }

  function VersionOf(db: Db, e: EventId): nat {
    if e in db.events && db.events[e].booking.Some? then db.events[e].booking.value.version else 0
  }

  /** The fill a booked event stands for, with the fee its cash fact knows. */
  function FillOf(db: Db, e: EventId): Fill {
    if e in db.events && db.events[e].booking.Some? && db.events[e].booking.value.market in db.markets && e in db.cash then
      var b, x := db.events[e].booking.value, db.events[e].execution;
      Fill(db.markets[b.market].OutcomeOf(b.token), b.side, x.size, x.price,
           if db.cash[e].amounts.fee.Some? then db.cash[e].amounts.fee.value else 0.0)
    else Fill(Yes, Buy, 0, 0, 0.0)
  }

  function FillsOf(db: Db, log: seq<EventId>): (fills: seq<Fill>)
    ensures |fills| == |log|
  {
    seq(|log|, i requires 0 <= i < |log| => FillOf(db, log[i]))
  }

  /** A booked row carries its booking and one matching cash fact. */
  ghost predicate GoodBooked(db: Db, e: EventId)
    requires IsBooked(db, e)
  {
    && db.events[e].booking.Some? && e in db.cash
    && var b, x := db.events[e].booking.value, db.events[e].execution;
    && b.market in db.markets && b.market in db.inventory && db.markets[b.market].Lists(b.token)
    && db.cash[e].market == b.market && db.cash[e].side == b.side
    && BuildCashFact(b.side, x.price, x.size, db.cash[e].amounts.fee) == Success(db.cash[e].amounts)
    && b.version > 0
  }

  /** Cash facts and booked rows are one to one. */
  ghost predicate CashIsPaired(db: Db) {
    && (forall e :: IsBooked(db, e) ==> GoodBooked(db, e))
    && (forall e :: e in db.cash ==> IsBooked(db, e))
  }

  /** The log of a market lists its booked rows, each once, by rising state version. */
  ghost predicate Logged(db: Db, m: MarketId, log: seq<EventId>) {
    && (forall i, j :: 0 <= i < j < |log| ==> log[i] != log[j] && VersionOf(db, log[i]) < VersionOf(db, log[j]))
    && (forall e :: e in log <==> BookedIn(db, e, m))
    && (m in db.inventory ==> forall i :: 0 <= i < |log| ==> VersionOf(db, log[i]) <= db.inventory[m].stateVersion)
  }

  predicate FeeKnown(db: Db, e: EventId) {
    e in db.cash && db.cash[e].amounts.fee.Some?
  }

  /** A ledger nobody overwrote is the replay of its log, and a verified one knows every fee. */
  ghost predicate Replayed(db: Db, m: MarketId, log: seq<EventId>) {
    m in db.inventory && db.inventory[m].accounting in {V2, FeeIncomplete} ==>
      && db.inventory[m].stateVersion == |log|
      && (forall i :: 0 <= i < |log| ==> VersionOf(db, log[i]) == i + 1)
      && Replay(FillsOf(db, log)) == Success(db.inventory[m].book)
      && (db.inventory[m].accounting.V2? <==> forall i :: 0 <= i < |log| ==> FeeKnown(db, log[i]))
  }

  ghost predicate HistoryInv(db: Db, m: MarketId, log: seq<EventId>) {
    CashIsPaired(db) && Logged(db, m, log) && Replayed(db, m, log)
  }

  // ----- Steps that book nothing --------------------------------------------

  ghost predicate SameHistory(db: Db, db': Db) {
    && db'.markets == db.markets && db'.inventory == db.inventory && db'.cash == db.cash
    && forall e :: IsBooked(db, e) == IsBooked(db', e) && (IsBooked(db, e) ==> db'.events[e] == db.events[e])
  }

  lemma SameHistoryKeeps(db: Db, db': Db, m: MarketId, log: seq<EventId>)
    requires HistoryInv(db, m, log) && SameHistory(db, db')
    ensures HistoryInv(db', m, log)
  {
    hide Replay, BuildCashFact;
    forall e | IsBooked(db', e) ensures GoodBooked(db', e) {
      assert GoodBooked(db, e);
    }
    forall e ensures BookedIn(db', e, m) == BookedIn(db, e, m) {
    }
    forall i | 0 <= i < |log|
      ensures VersionOf(db', log[i]) == VersionOf(db, log[i]) && FillOf(db', log[i]) == FillOf(db, log[i])
    {
      assert log[i] in log;
      assert BookedIn(db, log[i], m);
    }
    assert FillsOf(db', log) == FillsOf(db, log);
  }

  // ----- One booked fill ----------------------------------------------------

  lemma BookingKeepsCash(w: World, e: EventId, id: OrderId, p: Parts, w': World)
    requires CashIsPaired(w.db) && GoodBooking(w, e, id, p, w')
    ensures CashIsPaired(w'.db) && IsBooked(w'.db, e) && w'.db.cash[e].amounts.fee == p.fee
  {
    hide ConsumeReservation, ApplyToLedger, Notional;
    CashFactMatchesFill(Yes, p.fill.side, p.fill.price, p.fill.size, p.fee);
    hide BuildCashFact, NetCash;
    forall other | IsBooked(w'.db, other) ensures GoodBooked(w'.db, other) {
      assert other != e ==> GoodBooked(w.db, other);
    }
  }

  /** Where a booking shows in the history of its market. */
  ghost predicate BookedNow(db: Db, e: EventId, m: MarketId, f: Fill, known: bool, db': Db) {
    && !IsBooked(db, e) && BookedIn(db', e, m) && m in db.inventory && m in db'.inventory
    && db'.markets == db.markets
    && (forall other :: other != e ==> (IsBooked(db', other) == IsBooked(db, other))
                                       && (IsBooked(db, other) ==> db'.events[other] == db.events[other]))
    && (forall other :: other != e ==> (other in db'.cash) == (other in db.cash)
                                       && (other in db.cash ==> db'.cash[other] == db.cash[other]))
    && (forall other :: other != m ==> (other in db'.inventory) == (other in db.inventory)
                                       && (other in db.inventory ==> db'.inventory[other] == db.inventory[other]))
    && db.inventory[m].accounting == V2
    && db'.inventory[m].accounting == (if known then V2 else FeeIncomplete)
    && db'.inventory[m].stateVersion == db.inventory[m].stateVersion + 1
    && VersionOf(db', e) == db'.inventory[m].stateVersion
    && FillOf(db', e) == f && FeeKnown(db', e) == known
    && ApplyToLedger(db.inventory[m].book, f) == Success(db'.inventory[m].book)
  }

  lemma BookingIsBookedNow(w: World, e: EventId, id: OrderId, p: Parts, w': World)
    requires GoodBooking(w, e, id, p, w') && BuildCashFact(p.fill.side, p.fill.price, p.fill.size, p.fee).Success?
    requires p.amounts.fee == p.fee
    ensures BookedNow(w.db, e, p.market, p.fill, p.fee.Some?, w'.db)
  {
    hide ConsumeReservation, ApplyToLedger, BuildCashFact, Notional;
  }

  lemma BookedNowKeepsOther(db: Db, e: EventId, b: MarketId, f: Fill, known: bool, db': Db, m: MarketId, log: seq<EventId>)
    requires BookedNow(db, e, b, f, known, db') && b != m && HistoryInv(db, m, log) && CashIsPaired(db')
    ensures HistoryInv(db', m, log)
  {
    hide Replay, ApplyToLedger, BuildCashFact;
    forall other ensures BookedIn(db', other, m) == BookedIn(db, other, m) {
    }
    forall i | 0 <= i < |log|
      ensures VersionOf(db', log[i]) == VersionOf(db, log[i]) && FillOf(db', log[i]) == FillOf(db, log[i])
              && FeeKnown(db', log[i]) == FeeKnown(db, log[i])
    {
      assert log[i] in log;
      assert BookedIn(db, log[i], m);
    }
    assert FillsOf(db', log) == FillsOf(db, log);
  }

  lemma BookedNowExtends(db: Db, e: EventId, m: MarketId, f: Fill, known: bool, db': Db, log: seq<EventId>)
    requires BookedNow(db, e, m, f, known, db') && HistoryInv(db, m, log) && CashIsPaired(db')
    ensures HistoryInv(db', m, log + [e])
  {
    hide Replay, ApplyToLedger, BuildCashFact;
    var longer := log + [e];
    assert e !in log by {
      assert !BookedIn(db, e, m);
    }
    forall other ensures (other in longer) == BookedIn(db', other, m) {
      assert (other in log) == BookedIn(db, other, m);
    }
    forall i | 0 <= i < |log|
      ensures longer[i] == log[i] && VersionOf(db', log[i]) == VersionOf(db, log[i]) && FillOf(db', log[i]) == FillOf(db, log[i])
              && FeeKnown(db', log[i]) == FeeKnown(db, log[i])
    {
      assert log[i] in log;
      assert BookedIn(db, log[i], m);
    }
    assert FillsOf(db', longer) == FillsOf(db, log) + [f];
    ReplayAppend(FillsOf(db, log), f);
    assert longer[|log|] == e;
  }

  // ----- Runs ---------------------------------------------------------------

  /** The event a step books, if it books one in market m. */
  ghost predicate Books(w: World, s: Step, m: MarketId) {
    s.Attempt? && Process(w.db, s.e).outcome.Booked? && BookedIn(Process(w.db, s.e).db, s.e, m)
  }

  /** The executions booked in market m during the first n steps, in order. */
  ghost function BookedLog(worlds: seq<World>, steps: seq<Step>, m: MarketId, n: nat): seq<EventId>
    requires n <= |steps| <= |worlds|
  {
    if n == 0 then []
    else
      BookedLog(worlds, steps, m, n - 1)
      + (if Books(worlds[n - 1], steps[n - 1], m) then [steps[n - 1].e] else [])
  }

  lemma AttemptKeepsHistory(w: World, e: EventId, m: MarketId, log: seq<EventId>)
    requires Consistent(w) && HistoryInv(w.db, m, log)
    ensures HistoryInv(Process(w.db, e).db, m, if Books(w, Attempt(e), m) then log + [e] else log)
  {
    hide Consistent, BookFill, Replayed, Logged;
    var db' := Process(w.db, e).db;
    if Process(w.db, e).outcome.Booked? {
      BookedAttemptKeepsHistory(w, e, m, log);
    } else {
      assert SameHistory(w.db, db');
      SameHistoryKeeps(w.db, db', m, log);
    }
  }

  lemma BookedAttemptKeepsHistory(w: World, e: EventId, m: MarketId, log: seq<EventId>)
    requires Consistent(w) && HistoryInv(w.db, m, log) && Process(w.db, e).outcome.Booked?
    ensures HistoryInv(Process(w.db, e).db, m, if Books(w, Attempt(e), m) then log + [e] else log)
  {
    hide Consistent, BookFill, Process, Replayed, Logged, GoodBooking;
    var w' := w.(db := Process(w.db, e).db);
    var id, p := BookedAttempt(w, e);
    BookingKeepsCash(w, e, id, p, w');
    BookingHasCashFact(w, e, id, p, w');
    BookingIsBookedNow(w, e, id, p, w');
    assert BookedIn(w'.db, e, p.market) by { hide ApplyToLedger; }
    if p.market == m {
      BookedNowExtends(w.db, e, m, p.fill, p.fee.Some?, w'.db, log);
    } else {
      BookedNowKeepsOther(w.db, e, p.market, p.fill, p.fee.Some?, w'.db, m, log);
    }
  }

  lemma BookingHasCashFact(w: World, e: EventId, id: OrderId, p: Parts, w': World)
    requires GoodBooking(w, e, id, p, w')
    ensures BuildCashFact(p.fill.side, p.fill.price, p.fill.size, p.fee).Success? && p.amounts.fee == p.fee
  {
    hide ConsumeReservation, ApplyToLedger, Notional;
    CashFactMatchesFill(Yes, p.fill.side, p.fill.price, p.fill.size, p.fee);
  }

  lemma OverwriteKeepsHistory(db: Db, market: MarketId, actual: Position, m: MarketId, log: seq<EventId>)
    requires HistoryInv(db, m, log)
    ensures HistoryInv(Overwrite(db, market, actual), m, log)
  {
    hide Replay, BuildCashFact, ReconcileCapital;
    var db' := Overwrite(db, market, actual);
    forall e | IsBooked(db', e) ensures GoodBooked(db', e) {
      assert GoodBooked(db, e);
    }
    forall e ensures BookedIn(db', e, m) == BookedIn(db, e, m) {
    }
    forall i | 0 <= i < |log|
      ensures VersionOf(db', log[i]) == VersionOf(db, log[i]) && FillOf(db', log[i]) == FillOf(db, log[i]) {
    }
    assert FillsOf(db', log) == FillsOf(db, log);
  }

  /** Every step other than a processing attempt or an overwrite books nothing. */
  lemma OtherStepSameHistory(w: World, settings: Settings, s: Step)
    requires Inv(w) && Enabled(w, s) && !s.Attempt? && !s.OverwriteStep?
    ensures SameHistory(w.db, Next(w, settings, s).db)
  {
    hide Inv, SameHistory, LoadFacts, FetchedFact, CanMatch, ReserveBuy, ReserveSell, Verdicts, ApplyReport, Record, MarkFailed;
    if s.ReserveBuyStep? || s.ReserveSellStep? {
      GrantSameHistory(w, settings, s);
    } else if s.Deliver? {
      DeliverySameHistory(w, s.e);
    } else if s.FailClosed? {
      FailureSameHistory(w.db, s.e);
    } else {
      QuietStepSameTables(w, settings, s);
      SameTablesSameHistory(w.db, Next(w, settings, s).db);
    }
  }

  lemma GrantSameHistory(w: World, settings: Settings, s: Step)
    requires Enabled(w, s) && (s.ReserveBuyStep? || s.ReserveSellStep?)
    ensures SameHistory(w.db, Next(w, settings, s).db)
  {
    hide EvaluateReservation, EvaluateSellReservation, ActiveReserved, CapitalUsed, PromisedShares, Notional;
  }

  lemma DeliverySameHistory(w: World, e: EventId)
    requires e in w.trades
    ensures SameHistory(w.db, Record(w.db, e, w.trades[e].execution))
  {
  }

  lemma FailureSameHistory(db: Db, e: EventId)
    ensures SameHistory(db, MarkFailed(db, e))
  {
  }

  /** The tables of positions, cash and executions. */
  ghost predicate SameTables(db: Db, db': Db) {
    db'.markets == db.markets && db'.inventory == db.inventory && db'.cash == db.cash && db'.events == db.events
  }

  lemma QuietStepSameTables(w: World, settings: Settings, s: Step)
    requires Enabled(w, s) && !s.Attempt? && !s.OverwriteStep? && !s.ReserveBuyStep? && !s.ReserveSellStep?
    requires !s.Deliver? && !s.FailClosed?
    ensures SameTables(w.db, Next(w, settings, s).db)
  {
    hide LoadFacts, FetchedFact, CanMatch, ActiveReserved, Verdicts, LookUp, ApplyToOrder, ApplyToReservation;
  }

  lemma SameTablesSameHistory(db: Db, db': Db)
    requires SameTables(db, db')
    ensures SameHistory(db, db')
  {
  }

  lemma StepKeepsHistory(w: World, settings: Settings, s: Step, m: MarketId, log: seq<EventId>)
    requires Inv(w) && Enabled(w, s) && HistoryInv(w.db, m, log)
    ensures HistoryInv(Next(w, settings, s).db, m, if Books(w, s, m) then log + [s.e] else log)
  {
    hide Consistent, Complete, HistoryInv, Process, Overwrite, SameHistory;
    if s.Attempt? {
      AttemptKeepsHistory(w, s.e, m, log);
    } else if s.OverwriteStep? {
      OverwriteKeepsHistory(w.db, s.market, s.actual, m, log);
    } else {
      OtherStepSameHistory(w, settings, s);
      SameHistoryKeeps(w.db, Next(w, settings, s).db, m, log);
    }
  }

  lemma InitHistory(w: World, m: MarketId)
    requires Init(w)
    ensures HistoryInv(w.db, m, [])
  {
    assert FillsOf(w.db, []) == [];
  }

  lemma {:induction false} RunKeepsHistory(worlds: seq<World>, steps: seq<Step>, settings: Settings, m: MarketId, n: nat)
    requires Run(worlds, steps, settings) && n <= |steps|
    ensures HistoryInv(worlds[n].db, m, BookedLog(worlds, steps, m, n))
  {
    hide Inv, Enabled, Next, HistoryInv, Books, Init;
    if n == 0 {
      InitHistory(worlds[0], m);
    } else {
      RunKeepsHistory(worlds, steps, settings, m, n - 1);
      RunKeepsInv(worlds, steps, settings, n - 1);
      var log := BookedLog(worlds, steps, m, n - 1);
      assert log + [] == log;
      StepKeepsHistory(worlds[n - 1], settings, steps[n - 1], m, log);
    }
  }

  predicate Overwrites(s: Step, m: MarketId) {
    s.OverwriteStep? && s.market == m
  }

  /** A ledger that is not overwritten stays verified or fee-incomplete. */
  lemma StepKeepsUnoverwritten(w: World, settings: Settings, s: Step, m: MarketId)
    requires Enabled(w, s) && !Overwrites(s, m) && Inv(w)
    requires m in w.db.inventory && w.db.inventory[m].accounting in {V2, FeeIncomplete}
    ensures var db := Next(w, settings, s).db;
            m in db.inventory && db.inventory[m].accounting in {V2, FeeIncomplete}
  {
    hide Inv, SameHistory, Process;
    if s.Attempt? {
      AttemptKeepsReplayable(w.db, s.e, m);
    } else if s.OverwriteStep? {
      hide ReconcileCapital;
    } else {
      OtherStepSameHistory(w, settings, s);
      SameHistoryInventory(w.db, Next(w, settings, s).db);
      hide Next, Enabled;
    }
  }

  lemma AttemptKeepsReplayable(db: Db, e: EventId, m: MarketId)
    requires m in db.inventory && db.inventory[m].accounting in {V2, FeeIncomplete}
    ensures var after := Process(db, e).db; m in after.inventory && after.inventory[m].accounting in {V2, FeeIncomplete}
  {
    hide ResolveFee, BuildCashFact, ConsumeReservation, ApplyToLedger, LookUp;
  }

  lemma SameHistoryInventory(db: Db, db': Db)
    requires SameHistory(db, db')
    ensures db'.inventory == db.inventory
  {
  }

  lemma {:induction false} UnoverwrittenStaysReplayable(
    worlds: seq<World>, steps: seq<Step>, settings: Settings, m: MarketId, n: nat)
    requires Run(worlds, steps, settings) && n <= |steps|
    requires m in worlds[0].db.inventory
    requires forall i :: 0 <= i < n ==> !Overwrites(steps[i], m)
    ensures m in worlds[n].db.inventory && worlds[n].db.inventory[m].accounting in {V2, FeeIncomplete}
  {
    hide Inv, Enabled, Next;
    if n > 0 {
      UnoverwrittenStaysReplayable(worlds, steps, settings, m, n - 1);
      RunKeepsInv(worlds, steps, settings, n - 1);
      StepKeepsUnoverwritten(worlds[n - 1], settings, steps[n - 1], m);
    }
  }

  /** Exactly once. However executions are delivered - duplicated, late, before their
      order is mapped, retried or recovered - the ledger of a market nobody overwrote is
      the replay of the executions marked processed, each exactly once, in the order in
      which they first succeeded; the i-th of them carries state version i. */
  lemma ExactlyOnce(worlds: seq<World>, steps: seq<Step>, settings: Settings, m: MarketId, n: nat)
    requires Run(worlds, steps, settings) && n <= |steps|
    requires m in worlds[0].db.inventory
    requires forall i :: 0 <= i < n ==> !Overwrites(steps[i], m)
    ensures var db, log := worlds[n].db, BookedLog(worlds, steps, m, n);
            && m in db.inventory
            && Replay(FillsOf(db, log)) == Success(db.inventory[m].book)
            && db.inventory[m].stateVersion == |log|
            && (forall e :: e in log <==> BookedIn(db, e, m))
            && (forall i, j :: 0 <= i < j < |log| ==> log[i] != log[j])
            && (forall i :: 0 <= i < |log| ==> VersionOf(db, log[i]) == i + 1)
            && (forall e :: BookedIn(db, e, m) ==> e in db.cash)
  {
    hide Init, Enabled, Next, Replay, GoodBooked;
    UnoverwrittenStaysReplayable(worlds, steps, settings, m, n);
    RunKeepsHistory(worlds, steps, settings, m, n);
    forall e | BookedIn(worlds[n].db, e, m) ensures e in worlds[n].db.cash {
      BookedHasCash(worlds[n].db, e);
    }
  }

  lemma BookedHasCash(db: Db, e: EventId)
    requires CashIsPaired(db) && IsBooked(db, e)
    ensures GoodBooked(db, e) && e in db.cash
  {
  }

  // ----- Double entry -------------------------------------------------------

  /** The cash a fact knows to have moved: net of the fee, or gross while the fee is unknown. */
  function CashMoved(c: CashFact): real {
    if c.amounts.net.Some? then c.amounts.net.value else c.amounts.gross
  }

  ghost function CashTable(cash: map<EventId, CashFact>, m: MarketId): map<EventId, real> {
    map e | e in cash :: if cash[e].market == m then CashMoved(cash[e]) else 0.0
  }

  /** The part of it that a log accounts for. */
  ghost function LoggedCash(cash: map<EventId, CashFact>, log: seq<EventId>): map<EventId, real> {
    map e | e in cash :: if e in log then CashMoved(cash[e]) else 0.0
  }

  lemma CashOfBooked(db: Db, e: EventId)
    requires CashIsPaired(db) && IsBooked(db, e)
    ensures e in db.cash && db.events[e].booking.Some? && CashMoved(db.cash[e]) == NetCash(FillOf(db, e))
    ensures db.cash[e].market == db.events[e].booking.value.market
    ensures db.cash[e].amounts.net.Some? <==> FeeKnown(db, e)
  {
    assert GoodBooked(db, e);
    hide CashIsPaired, Notional;
    var b, x := db.events[e].booking.value, db.events[e].execution;
    CashFactMatchesFill(db.markets[b.market].OutcomeOf(b.token), b.side, x.price, x.size, db.cash[e].amounts.fee);
  }

  lemma {:induction false} LoggedCashIsReplayed(db: Db, log: seq<EventId>)
    requires CashIsPaired(db)
    requires forall i :: 0 <= i < |log| ==> IsBooked(db, log[i])
    requires forall i, j :: 0 <= i < j < |log| ==> log[i] != log[j]
    ensures Sum(LoggedCash(db.cash, log)) == TotalNetCash(FillsOf(db, log))
  {
    hide CashIsPaired, Sum, NetCash, FillOf, CashMoved, IsBooked;
    if log == [] {
      SumOfZeros(LoggedCash(db.cash, log));
    } else {
      var init, e := log[..|log| - 1], log[|log| - 1];
      LoggedCashIsReplayed(db, init);
      CashOfBooked(db, e);
      assert FillsOf(db, log)[..|log| - 1] == FillsOf(db, init);
      assert LoggedCash(db.cash, log) == LoggedCash(db.cash, init)[e := CashMoved(db.cash[e])];
      SumWrite(LoggedCash(db.cash, init), e, CashMoved(db.cash[e]));
    }
  }

  lemma LoggedCashIsTheMarkets(db: Db, m: MarketId, log: seq<EventId>)
    requires CashIsPaired(db) && Logged(db, m, log)
    ensures LoggedCash(db.cash, log) == CashTable(db.cash, m)
    ensures forall i :: 0 <= i < |log| ==> IsBooked(db, log[i])
  {
    hide CashMoved;
    forall i | 0 <= i < |log| ensures IsBooked(db, log[i]) {
      assert log[i] in log;
    }
    forall e | e in db.cash ensures e in log <==> db.cash[e].market == m {
      assert IsBooked(db, e) && GoodBooked(db, e);
    }
  }

  /** Double entry in every reachable state: as long as nobody overwrote the ledger of a market,
      realized profit less cost basis is the cash its facts say has moved; and while the ledger is
      verified every one of these facts knows its net amount. */
  lemma LedgerIsDoubleEntry(worlds: seq<World>, steps: seq<Step>, settings: Settings, m: MarketId, n: nat)
    requires Run(worlds, steps, settings) && n <= |steps|
    requires m in worlds[n].db.inventory && worlds[n].db.inventory[m].accounting in {V2, FeeIncomplete}
    ensures var db := worlds[n].db;
            && Sum(CashTable(db.cash, m)) == db.inventory[m].book.realized - db.inventory[m].book.Capital()
            && (db.inventory[m].accounting.V2? ==>
                  forall e :: e in db.cash && db.cash[e].market == m ==> db.cash[e].amounts.net.Some?)
  {
    hide Init, Enabled, Next, Sum, Replay, CashMoved, GoodBooked, BookedLog, TotalNetCash;
    var db, log := worlds[n].db, BookedLog(worlds, steps, m, n);
    RunKeepsHistory(worlds, steps, settings, m, n);
    LoggedCashIsTheMarkets(db, m, log);
    LoggedCashIsReplayed(db, log);
    ReplayConservesCash(FillsOf(db, log));
    forall e | e in db.cash && db.cash[e].market == m && db.inventory[m].accounting.V2? ensures db.cash[e].amounts.net.Some? {
      CashOfBooked(db, e);
      assert BookedIn(db, e, m);
      assert e in log;
    }
  }

  /** Processed and failed rows never change again, whatever step is taken. */
  lemma TerminalRowsAreAbsorbing(w: World, settings: Settings, s: Step, e: EventId)
    requires Enabled(w, s)
    requires e in w.db.events && w.db.events[e].status in {Processed, EventStatus.Rejected}
    ensures var db := Next(w, settings, s).db;
            e in db.events && db.events[e] == w.db.events[e]
  {
    hide Process, Overwrite, ReserveBuy, ReserveSell, LoadFacts, FetchedFact, CanMatch, Verdicts, ApplyReport, SameTables;
    if s.Attempt? {
      AttemptKeepsTerminal(w.db, s.e, e);
    } else if s.OverwriteStep? {
      OverwriteKeepsEvents(w.db, s.market, s.actual);
    } else if s.ReserveBuyStep? || s.ReserveSellStep? {
      GrantKeepsEvents(w, settings, s);
    } else if s.Deliver? || s.FailClosed? {
      InboxKeepsTerminal(w, settings, s, e);
    } else {
      QuietStepSameTables(w, settings, s);
      SameTablesSameEvents(w.db, Next(w, settings, s).db);
      hide Next, Enabled;
    }
  }

  lemma InboxKeepsTerminal(w: World, settings: Settings, s: Step, e: EventId)
    requires Enabled(w, s) && (s.Deliver? || s.FailClosed?)
    requires e in w.db.events && w.db.events[e].status in {Processed, EventStatus.Rejected}
    ensures var db := Next(w, settings, s).db;
            e in db.events && db.events[e] == w.db.events[e]
  {
  }

  lemma AttemptKeepsTerminal(db: Db, attempted: EventId, e: EventId)
    requires e in db.events && db.events[e].status in {Processed, EventStatus.Rejected}
    ensures var after := Process(db, attempted).db; e in after.events && after.events[e] == db.events[e]
  {
    hide ResolveFee, BuildCashFact, ConsumeReservation, ApplyToLedger, LookUp;
  }

  lemma OverwriteKeepsEvents(db: Db, market: MarketId, actual: Position)
    ensures Overwrite(db, market, actual).events == db.events
  {
    hide ReconcileCapital;
  }

  lemma GrantKeepsEvents(w: World, settings: Settings, s: Step)
    requires Enabled(w, s) && (s.ReserveBuyStep? || s.ReserveSellStep?)
    ensures Next(w, settings, s).db.events == w.db.events
  {
    hide EvaluateReservation, EvaluateSellReservation, ActiveReserved, CapitalUsed, PromisedShares, Notional;
  }

  lemma SameTablesSameEvents(db: Db, db': Db)
    requires SameTables(db, db')
    ensures db'.events == db.events
  {
  }

  // ----- No fill is refused without a reason --------------------------------

  /** Why a mapped execution may be refused: its fee cannot be established, its
      reservation was closed, or its ledger is not verified. */
  ghost predicate RefusalReason(db: Db, e: EventId, id: OrderId)
    requires e in db.events && id in db.orders && id in db.reservations
  {
    var x, order := db.events[e].execution, db.orders[id];
    || FeeUntold(x.fees, x.role, x.price, x.size, x.feeBps)
    || !db.reservations[id].Active()
    || order.market !in db.inventory
    || db.inventory[order.market].accounting != V2
  }

  /** A sale of more shares than the ledger holds. */
  predicate Oversells(db: Db, e: EventId, id: OrderId)
    requires e in db.events && id in db.orders
  {
    var x, o := db.events[e].execution, db.orders[id];
    && o.side.Sell? && o.market in db.markets && o.market in db.inventory
    && x.size > ExposureOf(db, o.market, o.token)
  }

  /** A true execution mapped to its order is refused if and only if there is one of these
      reasons or it sells more than the ledger holds: whatever reconciliation raced, it never
      overfills its order, exceeds its reservation, misses a row or trips another check. And
      a reservation is closed under a pending execution only if that is 1e-6 shares or less. */
  lemma FillFailsOnlyForReason(w: World, e: EventId, id: OrderId)
    requires Inv(w) && CashIsPaired(w.db)
    requires e in w.db.events && !IsBooked(w.db, e)
    requires id in w.db.orders && w.db.orders[id].exchangeId == Some(w.db.events[e].execution.exchangeId)
    ensures id in w.db.reservations
    ensures BookFill(w.db, e, id).Failure? <==> RefusalReason(w.db, e, id) || Oversells(w.db, e, id)
    ensures !w.db.reservations[id].Active() ==> w.db.events[e].execution.size <= SIZE_TOLERANCE
  {
    hide Inv, Consistent, CashIsPaired, BookFill, RefusalReason, Oversells, Notional, Fillable;
    InvKeys(w);
    MappedOrderIsTradedOrder(w, e, id);
    RowFacts(w, e, id);
    PendingWithinTolerance(w, e);
    ClosedIsEmpty(w, id);
    if RefusalReason(w.db, e, id) {
      ReasonRefuses(w.db, e, id);
    } else if Oversells(w.db, e, id) {
      OversellRefuses(w, e, id);
    } else {
      TrueExecutionIsFillable(w, e, id);
      FillSucceeds(w.db, e, id);
    }
  }

  lemma ClosedIsEmpty(w: World, id: OrderId)
    requires id in w.db.reservations && GoodReservation(w.db, w.db.reservations[id])
    ensures !w.db.reservations[id].Active() ==> w.db.reservations[id].remaining == 0
  {
  }

  /** A pending execution fits its order, and its reservation up to the tolerance. */
  lemma PendingWithinTolerance(w: World, e: EventId)
    requires Inv(w) && e in w.trades && !IsBooked(w.db, e)
    ensures var id, size := w.trades[e].order, w.trades[e].execution.size;
            && id in w.db.reservations && id in w.remote
            && FilledSize(w.db, id) + size <= w.db.reservations[id].original
            && size <= Unaccounted(w, id)
            && size <= w.db.reservations[id].remaining + SIZE_TOLERANCE
  {
    hide Inv, Consistent, Complete, Sum, Notional, GoodTrades;
    var id := w.trades[e].order;
    TradeFacts(w, e);
    CoveredRow(w, id);
    forall other | other in w.trades ensures PendingTable(w.db, w.trades, id)[other] >= 0.0 {
      assert GoodTrade(w, other);
    }
    RowAtMostSum(PendingTable(w.db, w.trades, id), e);
  }

  lemma CoveredRow(w: World, id: OrderId)
    requires Inv(w) && id in w.remote
    ensures id in w.db.reservations && Covered(w, id)
  {
    hide Consistent;
  }

  lemma OversellRefuses(w: World, e: EventId, id: OrderId)
    requires Inv(w) && e in w.db.events && id in w.db.orders && id in w.db.reservations
    requires GoodTrade(w, e) && w.trades[e].execution == w.db.events[e].execution && w.trades[e].order == id
    requires GoodOrder(w, id) && Oversells(w.db, e, id)
    ensures BookFill(w.db, e, id).Failure?
  {
    hide Inv, BookFill, Oversells;
    OversoldFails(w.db, e, id);
  }

  lemma OversoldFails(db: Db, e: EventId, id: OrderId)
    requires e in db.events && id in db.orders && Oversells(db, e, id)
    requires var t := db.events[e].execution.token; t.Some? ==> t.value == db.orders[id].token
    ensures BookFill(db, e, id).Failure?
  {
    hide ResolveFee, BuildCashFact, ConsumeReservation, Notional;
  }

  /** Racing passes can promise a share twice, but an oversell stays within 1e-6 shares per
      SELL order of the token while nobody overwrites the position. */
  lemma OversellWithinSlack(w: World, e: EventId, id: OrderId)
    requires Inv(w) && SalesHeld(w)
    requires e in w.db.events && !IsBooked(w.db, e)
    requires id in w.db.orders && w.db.orders[id].exchangeId == Some(w.db.events[e].execution.exchangeId)
    requires Oversells(w.db, e, id)
    ensures var o := w.db.orders[id];
            w.db.events[e].execution.size as real
            <= ExposureOf(w.db, o.market, o.token) as real + SaleSlack(w.db.reservations, o.market, o.token)
  {
    hide Inv, Consistent, SalesHeld, OutstandingSales, SaleSlack, ExposureOf, Notional;
    InvKeys(w);
    MappedOrderIsTradedOrder(w, e, id);
    RowFacts(w, e, id);
    PendingWithinTolerance(w, e);
    var o := w.db.orders[id];
    OrderAtMostOutstanding(w, id);
    assert TokenHeld(w, o.market, o.token) by { HeldToken(w, o.market, o.token); }
  }

  lemma HeldToken(w: World, m: MarketId, t: TokenId)
    requires SalesHeld(w) && m in w.db.markets && m in w.db.inventory && w.db.markets[m].Lists(t)
    ensures TokenHeld(w, m, t)
  {
    hide TokenHeld;
  }

  lemma OrderAtMostOutstanding(w: World, id: OrderId)
    requires Inv(w) && id in w.db.reservations && w.db.reservations[id].side.Sell?
    ensures id in w.remote && w.remote.Keys == w.db.reservations.Keys
    ensures var r := w.db.reservations[id];
            Unaccounted(w, id) as real <= OutstandingSales(w, r.market, r.token)
  {
    hide Inv, Sum, Unaccounted;
    InvKeys(w);
    hide Consistent;
    var r := w.db.reservations[id];
    forall other | other in w.db.reservations ensures SalesTable(w, r.market, r.token)[other] >= 0.0 {
      NothingOverbooked(w, other);
    }
    RowAtMostSum(SalesTable(w, r.market, r.token), id);
  }

  /** Booked shares were matched. */
  lemma NothingOverbooked(w: World, id: OrderId)
    requires Inv(w) && id in w.remote
    ensures id in w.db.reservations && Unaccounted(w, id) >= 0
  {
    hide Inv, Consistent, Complete, Sum, Notional, GoodTrades;
    RemoteFacts(w, id);
    forall e | e in w.trades ensures PendingTable(w.db, w.trades, id)[e] >= 0.0 {
      assert GoodTrade(w, e);
    }
    SumNonNegative(PendingTable(w.db, w.trades, id));
  }

  lemma RemoteFacts(w: World, id: OrderId)
    requires Inv(w) && id in w.remote
    ensures id in w.db.reservations && GoodRemote(w, id) && Accounted(w, id) && w.db.reservations[id].original > 0
    ensures forall e :: e in w.trades ==> GoodTrade(w, e)
  {
    assert GoodReservation(w.db, w.db.reservations[id]);
    hide GoodReservation, GoodTrade, PendingShares;
  }

  /** Over every run: an execution the inbox holds against its mapped order is refused if and
      only if it has one of the reasons or oversells; and before any overwrite an oversell is
      within 1e-6 shares per SELL order of the token. */
  lemma DeliveredFillsAreBooked(worlds: seq<World>, steps: seq<Step>, settings: Settings, n: nat, e: EventId, id: OrderId)
    requires Run(worlds, steps, settings) && n <= |steps|
    requires e in worlds[n].db.events && !IsBooked(worlds[n].db, e)
    requires id in worlds[n].db.orders
    requires worlds[n].db.orders[id].exchangeId == Some(worlds[n].db.events[e].execution.exchangeId)
    ensures id in worlds[n].db.reservations
    ensures var db := worlds[n].db;
            && (BookFill(db, e, id).Failure? <==> RefusalReason(db, e, id) || Oversells(db, e, id))
            && (!db.reservations[id].Active() ==> db.events[e].execution.size <= SIZE_TOLERANCE)
            && (Oversells(db, e, id) && (forall i :: 0 <= i < n ==> !steps[i].OverwriteStep?) ==>
                  var o := db.orders[id];
                  db.events[e].execution.size as real
                  <= ExposureOf(db, o.market, o.token) as real + SaleSlack(db.reservations, o.market, o.token))
  {
    hide Inv, Enabled, Next, Init, BookFill, RefusalReason, CashIsPaired, Logged, Replayed, SalesHeld, SaleSlack, ExposureOf;
    RunKeepsInv(worlds, steps, settings, n);
    RunKeepsHistory(worlds, steps, settings, 0, n);
    FillFailsOnlyForReason(worlds[n], e, id);
    if Oversells(worlds[n].db, e, id) && forall i :: 0 <= i < n ==> !steps[i].OverwriteStep? {
      RunKeepsSales(worlds, steps, settings, n);
      OversellWithinSlack(worlds[n], e, id);
    }
  }

  /** While reservations are exact and promises held there is no oversell at all. */
  lemma KeptPromisesNeverOversell(w: World, e: EventId, id: OrderId)
    requires Inv(w) && Exact(w) && PromisesHeld(w)
    requires e in w.db.events && !IsBooked(w.db, e)
    requires id in w.db.orders && w.db.orders[id].exchangeId == Some(w.db.events[e].execution.exchangeId)
    requires id in w.db.reservations && w.db.reservations[id].Active()
    ensures !Oversells(w.db, e, id)
  {
    hide Inv, Consistent, Exact, PromisesHeld, Notional, ExposureOf;
    InvKeys(w);
    MappedOrderIsTradedOrder(w, e, id);
    RowFacts(w, e, id);
    SoldSharesAreHeld(w, e, id);
  }

  lemma ReasonRefuses(db: Db, e: EventId, id: OrderId)
    requires e in db.events && id in db.orders && id in db.reservations && db.orders[id].reservation == Some(id)
    requires RefusalReason(db, e, id)
    ensures BookFill(db, e, id).Failure?
  {
    var x := db.events[e].execution;
    FeeIsCharged(x.fees, x.role, x.price, x.size, x.feeBps);
    hide ResolveFee, BuildCashFact, ApplyToLedger, Notional, FeeUntold;
  }

  /** All a booking checks. */
  ghost predicate Fillable(db: Db, e: EventId, id: OrderId) {
    && e in db.events && id in db.orders && id in db.reservations && db.orders[id].reservation == Some(id)
    && e !in db.cash
    && var x, o, r := db.events[e].execution, db.orders[id], db.reservations[id];
    && GoodReservation(db, r) && r.Active()
    && o.market == r.market && o.token == r.token && o.side == r.side && o.size == r.original
    && 0 < x.size <= r.remaining + SIZE_TOLERANCE && 0 < x.price < ONE_DOLLAR && (o.side.Buy? ==> x.price <= r.limit)
    && (x.token.Some? ==> x.token.value == r.token)
    && o.filled + x.size <= r.original
    && r.market in db.inventory && db.inventory[r.market].accounting == V2 && db.inventory[r.market].book.Sound()
    && (o.side.Sell? ==> x.size <= ExposureOf(db, r.market, r.token))
    && ResolveFee(x.fees, x.role, x.price, x.size, x.feeBps).Success?
    && (var fee := ResolveFee(x.fees, x.role, x.price, x.size, x.feeBps).value;
        fee.Some? ==> fee.value >= 0.0)
  }

  lemma TrueExecutionIsFillable(w: World, e: EventId, id: OrderId)
    requires Inv(w) && CashIsPaired(w.db)
    requires e in w.db.events && !IsBooked(w.db, e)
    requires e in w.trades && w.trades[e].order == id && w.trades[e].execution == w.db.events[e].execution
    requires id in w.db.orders && id in w.db.reservations
    requires GoodTrade(w, e) && GoodOrder(w, id) && GoodReservation(w.db, w.db.reservations[id])
    requires !RefusalReason(w.db, e, id) && !Oversells(w.db, e, id)
    ensures Fillable(w.db, e, id)
  {
    hide Inv, Consistent, CashIsPaired, Notional, ResolveFee, FeeUntold;
    FeeIsCharged(w.db.events[e].execution.fees, w.db.events[e].execution.role, w.db.events[e].execution.price,
                 w.db.events[e].execution.size, w.db.events[e].execution.feeBps);
    PendingWithinTolerance(w, e);
    InventorySound(w, w.db.orders[id].market);
    NotBookedNoCash(w.db, e);
    var x := w.db.events[e].execution;
    FeesAreUsable(x.fees, x.role, x.price, x.size, x.feeBps);
  }

  lemma NotBookedNoCash(db: Db, e: EventId)
    requires CashIsPaired(db) && !IsBooked(db, e)
    ensures e !in db.cash
  {
  }

  lemma InventorySound(w: World, m: MarketId)
    requires Inv(w)
    ensures m in w.db.inventory ==> w.db.inventory[m].book.Sound()
    ensures m in w.db.markets ==> w.db.markets[m].yesToken != w.db.markets[m].noToken
  {
  }

  lemma FeesAreUsable(fields: seq<FeeField>, role: Option<Role>, price: int, size: int, bps: Option<real>)
    requires ResolveFee(fields, role, price, size, bps).Success?
    ensures var fee := ResolveFee(fields, role, price, size, bps).value;
            fee.Some? ==> fee.value >= 0.0
  {
    if ExplicitFee(fields).value.None? && role == Some(Taker) && bps.Some? {
      TakerFeeIsDocumentedFee(price, size, bps.value);
    } else if fields != [] {
      assert UsableField(fields[0]);
    }
    hide TakerFee;
  }

  /** A pending sale inside its reservation sells shares the ledger holds. */
  lemma SoldSharesAreHeld(w: World, e: EventId, id: OrderId)
    requires Inv(w) && Exact(w) && PromisesHeld(w)
    requires e in w.trades && w.trades[e].order == id && !IsBooked(w.db, e) && id in w.db.reservations
    ensures var r := w.db.reservations[id];
            r.side.Sell? && r.Active() && r.market in w.db.inventory && r.market in w.db.markets ==>
              w.trades[e].execution.size <= ExposureOf(w.db, r.market, r.token)
  {
    hide Inv, Exact, Sum, Notional, ExposureOf;
    InvKeys(w);
    hide Consistent;
    PendingFits(w, e);
    PromiseAtLeast(w, id);
  }

  lemma PromiseAtLeast(w: World, id: OrderId)
    requires Consistent(w) && id in w.db.reservations
    ensures var r := w.db.reservations[id];
            && (r.side.Sell? && r.Active() ==> r.remaining as real <= PromisedShares(w.db.reservations, r.market, r.token))
            && r.market in w.db.markets && w.db.markets[r.market].Lists(r.token)
  {
    GoodAmounts(w);
    assert GoodReservation(w.db, w.db.reservations[id]);
    hide Consistent, Sum;
    RowAtMostSum(PromisedTable(w.db.reservations, w.db.reservations[id].market, w.db.reservations[id].token), id);
  }

  lemma FillSucceeds(db: Db, e: EventId, id: OrderId)
    requires Fillable(db, e, id)
    ensures BookFill(db, e, id).Success?
  {
    hide ResolveFee, Notional;
  }
}
