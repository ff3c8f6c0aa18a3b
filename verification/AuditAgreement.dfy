/** The batch audit agrees with the incremental ledger: it is safe exactly when every inbox
    row is processed and every ledger is still verified. */
module AuditAgreement {
  import opened Common
  import opened Accounting
  import opened Fees
  import opened Rounding
  import opened Rows
  import opened Transactions
  import opened World
  import opened Safety
  import opened Booking
  import opened Runs
  import opened History
  import opened Audit

  // ----- The rows the audit loads -------------------------------------------

  function InventoryFactOf(db: Db, m: MarketId): InventoryFact
    requires m in db.inventory
  {
    InventoryFact(m, db.inventory[m].accounting, db.inventory[m].stateVersion, db.inventory[m].book)
  }

  /** The outcome comes from the market's tokens; an unmapped row has none. */
  function FillFactOf(db: Db, e: EventId): FillFact
    requires e in db.events
  {
    var x, b := db.events[e].execution, db.events[e].booking;
    if b.None? then FillFact(e, IsBooked(db, e), None, None, None, x.price, x.size, None)
    else
      FillFact(e, IsBooked(db, e), Some(b.value.market),
               if b.value.market in db.markets && db.markets[b.value.market].Lists(b.value.token)
               then Some(db.markets[b.value.market].OutcomeOf(b.value.token)) else None,
               Some(b.value.side), x.price, x.size, Some(b.value.version))
  }

  function CashRowOf(db: Db, e: EventId): CashRow
    requires e in db.cash
  {
    var c := db.cash[e];
    CashRow(e, c.market, c.side, c.amounts.gross, c.amounts.fee, c.amounts.net,
            if c.amounts.fee.Some? then Known else FeeStatus.Unknown)
  }

  /** The audit reads each row of each table once, in any order. */
  ghost predicate Tabulates(
    inventories: multiset<InventoryFact>, fills: multiset<FillFact>, cash: multiset<CashRow>, db: Db)
  {
    && (forall r :: inventories[r] == if r.market in db.inventory && r == InventoryFactOf(db, r.market) then 1 else 0)
    && (forall f :: fills[f] == if f.event in db.events && f == FillFactOf(db, f.event) then 1 else 0)
    && (forall c :: cash[c] == if c.event in db.cash && c == CashRowOf(db, c.event) then 1 else 0)
  }

  ghost predicate AllProcessed(db: Db) {
    forall e :: e in db.events ==> IsBooked(db, e)
  }

  ghost predicate AllVerified(db: Db) {
    forall m :: m in db.inventory ==> db.inventory[m].accounting == V2
  }

  // ----- What the audit relies on -------------------------------------------

  /** The cash table by event. */
  function CashIndex(db: Db): map<EventId, CashRow> {
    map e | e in db.cash :: CashRowOf(db, e)
  }

  /** A booked row can be placed in its market's history and its cash fact matches it. */
  ghost predicate RowReady(db: Db, e: EventId) {
    && e in db.events && e in db.cash
    && var f := FillFactOf(db, e);
    && Mapped(f) && f.market.value in db.inventory
    && Version(f) == VersionOf(db, e) && BookedIn(db, e, f.market.value)
    && (FeeKnown(db, e) ==> CashMatches(f, CashRowOf(db, e), true))
    && AsFill(f, CashIndex(db)) == FillOf(db, e)
  }

  ghost predicate RowsReady(db: Db) {
    && (forall e :: IsBooked(db, e) ==> RowReady(db, e))
    && (forall e :: e in db.cash ==> IsBooked(db, e))
  }

  /** A verified ledger has one version per row of its log, which can be replayed, with every fee known. */
  ghost predicate LedgerReady(db: Db, m: MarketId, log: seq<EventId>)
    requires m in db.inventory
  {
    db.inventory[m].accounting == V2 ==>
      && db.inventory[m].stateVersion == |log|
      && (forall i :: 0 <= i < |log| ==> VersionOf(db, log[i]) == i + 1 && FeeKnown(db, log[i]))
      && Replay(FillsOf(db, log)).Success?
  }

  /** The ledger is the replay of its log to within the tolerance. */
  ghost predicate LedgerAgrees(db: Db, m: MarketId, log: seq<EventId>)
    requires m in db.inventory
  {
    && Replay(FillsOf(db, log)).Success?
    && WithinAuditTolerance(db.inventory[m].book, Replay(FillsOf(db, log)).value)
  }

  ghost predicate AllAgree(db: Db, logs: map<MarketId, seq<EventId>>) {
    forall m :: m in db.inventory ==> m in logs && LedgerAgrees(db, m, logs[m])
  }

  ghost predicate AuditReady(db: Db, logs: map<MarketId, seq<EventId>>) {
    && RowsReady(db)
    && forall m :: m in db.inventory ==> m in logs && Logged(db, m, logs[m]) && LedgerReady(db, m, logs[m])
  }

  // ----- The booked rows of a market, in order ------------------------------

  function FactsOf(db: Db, log: seq<EventId>): (rows: seq<FillFact>)
    requires forall i :: 0 <= i < |log| ==> log[i] in db.events
    ensures |rows| == |log|
  {
    seq(|log|, i requires 0 <= i < |log| => FillFactOf(db, log[i]))
  }

  lemma LoggedRow(db: Db, m: MarketId, log: seq<EventId>, i: nat)
    requires Logged(db, m, log) && i < |log|
    ensures log[i] in db.events && IsBooked(db, log[i]) && BookedIn(db, log[i], m)
  {
    assert log[i] in log;
  }

  lemma LoggedRowsAreDistinct(db: Db, m: MarketId, log: seq<EventId>)
    requires Logged(db, m, log)
    ensures forall i :: 0 <= i < |log| ==> log[i] in db.events && FillFactOf(db, log[i]).market == Some(m)
    ensures Audit.Distinct(FactsOf(db, log))
  {
    forall i | 0 <= i < |log| ensures log[i] in db.events && FillFactOf(db, log[i]).market == Some(m) {
      LoggedRow(db, m, log, i);
    }
    var rows := FactsOf(db, log);
    forall i, j | 0 <= i < j < |rows| ensures rows[i] != rows[j] {
      assert rows[i].event == log[i] && rows[j].event == log[j];
    }
  }

  lemma BookedRowIsLogged(db: Db, m: MarketId, log: seq<EventId>, f: FillFact)
    requires Logged(db, m, log) && AllProcessed(db)
    requires forall i :: 0 <= i < |log| ==> log[i] in db.events
    requires f.event in db.events && f == FillFactOf(db, f.event) && f.market == Some(m)
    ensures f in FactsOf(db, log)
  {
    assert IsBooked(db, f.event) && BookedIn(db, f.event, m);
    assert f.event in log;
    var i :| 0 <= i < |log| && log[i] == f.event;
    assert FactsOf(db, log)[i] == f;
  }

  lemma LoggedRowsAreTheMarkets(
    db: Db, m: MarketId, log: seq<EventId>, fills: multiset<FillFact>)
    requires Logged(db, m, log) && AllProcessed(db)
    requires forall f :: fills[f] == if f.event in db.events && f == FillFactOf(db, f.event) then 1 else 0
    ensures forall i :: 0 <= i < |log| ==> log[i] in db.events
    ensures OfMarket(multiset(FactsOf(db, log)), fills, m)
  {
    hide Logged, AllProcessed, Audit.Distinct;
    LoggedRowsAreDistinct(db, m, log);
    var rows := FactsOf(db, log);
    forall f: FillFact ensures multiset(rows)[f] == (if f.market == Some(m) then fills[f] else 0) {
      DistinctCounts(rows, f);
      if f in rows {
        var i :| 0 <= i < |rows| && rows[i] == f;
        assert f == FillFactOf(db, log[i]) && f.event == log[i];
      } else if f.market == Some(m) && fills[f] == 1 {
        BookedRowIsLogged(db, m, log, f);
      }
    }
  }

  lemma CashIndexIndexes(db: Db, cash: multiset<CashRow>)
    requires forall c :: cash[c] == if c.event in db.cash && c == CashRowOf(db, c.event) then 1 else 0
    ensures Indexes(CashIndex(db), cash) && OneRowPerEvent(cash)
  {
    forall e | e in CashIndex(db) ensures CashIndex(db)[e] in cash && CashIndex(db)[e].event == e {
      assert cash[CashRowOf(db, e)] == 1;
    }
  }

  /** A verified ledger is rebuilt from its log exactly when it agrees with the replay. */
  lemma VerifiedLedgerIsRebuiltIff(db: Db, m: MarketId, log: seq<EventId>)
    requires RowsReady(db) && m in db.inventory && db.inventory[m].accounting == V2
    requires Logged(db, m, log) && LedgerReady(db, m, log)
    ensures forall i :: 0 <= i < |log| ==> log[i] in db.events
    ensures Contiguous(FactsOf(db, log))
    ensures Rebuilds(FactsOf(db, log), CashIndex(db), InventoryFactOf(db, m)) <==> LedgerAgrees(db, m, log)
  {
    hide Replay, Mapped, Logged, AsFill, WithinAuditTolerance, CashMatches;
    forall i | 0 <= i < |log| ensures log[i] in db.events && RowReady(db, log[i]) {
      LoggedRow(db, m, log, i);
    }
    var rows := FactsOf(db, log);
    forall i | 0 <= i < |log| ensures Mapped(rows[i]) && Version(rows[i]) == i + 1 && AsFill(rows[i], CashIndex(db)) == FillOf(db, log[i]) {
      assert RowReady(db, log[i]);
    }
    assert AsFills(rows, CashIndex(db)) == FillsOf(db, log);
  }

  /** Only one arrangement of a market's rows can rebuild its ledger. */
  lemma OneArrangement(
    a: seq<FillFact>, b: seq<FillFact>, i: map<EventId, CashRow>, j: map<EventId, CashRow>,
    fills: multiset<FillFact>, cash: multiset<CashRow>, m: MarketId)
    requires OfMarket(multiset(a), fills, m) && OfMarket(multiset(b), fills, m) && Contiguous(a) && Contiguous(b)
    requires Indexes(i, cash) && Indexes(j, cash) && OneRowPerEvent(cash)
    ensures a == b && i == j
  {
    assert multiset(a) == multiset(b) by {
      forall f ensures multiset(a)[f] == multiset(b)[f] {
      }
    }
    hide Contiguous, Indexes, OneRowPerEvent;
    ContiguousIsUnique(a, b);
    IndexIsUnique(i, j, cash);
  }

  // ----- The agreement ------------------------------------------------------

  lemma SafeNeedsBoth(
    inventories: multiset<InventoryFact>, fills: multiset<FillFact>, cash: multiset<CashRow>, db: Db, known: bool)
    requires Tabulates(inventories, fills, cash, db) && AuditSafe(inventories, fills, cash, known)
    ensures AllProcessed(db) && AllVerified(db)
  {
    hide OneRowPerMarket, OneRowPerEvent, CashClaimed, LedgerClear, CashMatches;
    forall m | m in db.inventory ensures db.inventory[m].accounting == V2 {
      assert inventories[InventoryFactOf(db, m)] == 1;
    }
    forall e | e in db.events ensures IsBooked(db, e) {
      assert fills[FillFactOf(db, e)] == 1;
      assert FillClear(FillFactOf(db, e), inventories, cash, known);
    }
  }

  lemma FillRowIsClear(
    inventories: multiset<InventoryFact>, fills: multiset<FillFact>, cash: multiset<CashRow>, db: Db,
    logs: map<MarketId, seq<EventId>>, f: FillFact)
    requires Tabulates(inventories, fills, cash, db) && AuditReady(db, logs) && AllProcessed(db) && AllVerified(db)
    requires f in fills
    ensures FillClear(f, inventories, cash, true)
  {
    hide CashMatches, Mapped, Logged, LedgerReady, AsFill;
    var e := f.event;
    assert RowReady(db, e);
    var m := f.market.value;
    LoggedFeeIsKnown(db, m, logs[m], e);
    assert inventories[InventoryFactOf(db, m)] == 1;
    assert cash[CashRowOf(db, e)] == 1;
  }

  lemma LoggedFeeIsKnown(db: Db, m: MarketId, log: seq<EventId>, e: EventId)
    requires Logged(db, m, log) && m in db.inventory && LedgerReady(db, m, log)
    requires db.inventory[m].accounting == V2 && BookedIn(db, e, m)
    ensures FeeKnown(db, e)
  {
    hide Replay;
    assert e in log;
  }

  lemma BothMakeSafe(
    inventories: multiset<InventoryFact>, fills: multiset<FillFact>, cash: multiset<CashRow>, db: Db,
    logs: map<MarketId, seq<EventId>>)
    requires Tabulates(inventories, fills, cash, db) && AuditReady(db, logs) && AllProcessed(db) && AllVerified(db)
    requires AllAgree(db, logs)
    ensures AuditSafe(inventories, fills, cash, true)
  {
    hide FillClear, LedgerClear, Logged, LedgerReady, LedgerAgrees, RowReady;
    CashIndexIndexes(db, cash);
    hide OneRowPerEvent, Indexes;
    forall f | f in fills ensures FillClear(f, inventories, cash, true) {
      FillRowIsClear(inventories, fills, cash, db, logs, f);
    }
    forall c | c in cash ensures CashClaimed(c, fills) {
      assert IsBooked(db, c.event);
      assert fills[FillFactOf(db, c.event)] == 1;
    }
    forall r | r in inventories ensures LedgerClear(r, fills, cash) {
      LedgerRowIsClearIff(db, r.market, logs[r.market], fills, cash);
    }
  }

  lemma LedgerRowIsClearIff(db: Db, m: MarketId, log: seq<EventId>, fills: multiset<FillFact>, cash: multiset<CashRow>)
    requires RowsReady(db) && m in db.inventory && Logged(db, m, log) && LedgerReady(db, m, log)
    requires db.inventory[m].accounting == V2 && AllProcessed(db)
    requires forall f :: fills[f] == if f.event in db.events && f == FillFactOf(db, f.event) then 1 else 0
    requires Indexes(CashIndex(db), cash) && OneRowPerEvent(cash)
    ensures LedgerClear(InventoryFactOf(db, m), fills, cash) <==> LedgerAgrees(db, m, log)
  {
    hide RowsReady, LedgerReady, LedgerAgrees, Logged, Rebuilds, Indexes, OneRowPerEvent, OfMarket, Contiguous;
    LoggedRowsAreTheMarkets(db, m, log, fills);
    VerifiedLedgerIsRebuiltIff(db, m, log);
    var r := InventoryFactOf(db, m);
    if LedgerClear(r, fills, cash) {
      var order, index :|
        OfMarket(multiset(order), fills, r.market) && Indexes(index, cash) && Rebuilds(order, index, r);
      RebuildsIsContiguous(order, index, r);
      OneArrangement(order, FactsOf(db, log), index, CashIndex(db), fills, cash, m);
    }
  }

  lemma RebuildsIsContiguous(order: seq<FillFact>, index: map<EventId, CashRow>, r: InventoryFact)
    requires Rebuilds(order, index, r)
    ensures Contiguous(order)
  {
  }

  lemma SafeNeedsAgreement(
    inventories: multiset<InventoryFact>, fills: multiset<FillFact>, cash: multiset<CashRow>, db: Db,
    logs: map<MarketId, seq<EventId>>)
    requires Tabulates(inventories, fills, cash, db) && AuditReady(db, logs) && AllProcessed(db) && AllVerified(db)
    requires AuditSafe(inventories, fills, cash, true)
    ensures AllAgree(db, logs)
  {
    hide FillClear, LedgerClear, Logged, LedgerReady, LedgerAgrees, RowReady, CashClaimed, RowsReady;
    CashIndexIndexes(db, cash);
    hide OneRowPerEvent, Indexes;
    forall m | m in db.inventory ensures LedgerAgrees(db, m, logs[m]) {
      assert inventories[InventoryFactOf(db, m)] == 1;
      LedgerRowIsClearIff(db, m, logs[m], fills, cash);
    }
  }

  lemma ReadyAuditAgrees(
    inventories: multiset<InventoryFact>, fills: multiset<FillFact>, cash: multiset<CashRow>, db: Db,
    logs: map<MarketId, seq<EventId>>)
    requires Tabulates(inventories, fills, cash, db) && AuditReady(db, logs)
    ensures AuditSafe(inventories, fills, cash, true) <==> AllProcessed(db) && AllVerified(db) && AllAgree(db, logs)
  {
    hide AuditSafe, Tabulates, AuditReady, AllProcessed, AllVerified, AllAgree;
    if AuditSafe(inventories, fills, cash, true) {
      SafeNeedsBoth(inventories, fills, cash, db, true);
      SafeNeedsAgreement(inventories, fills, cash, db, logs);
    }
    if AllProcessed(db) && AllVerified(db) && AllAgree(db, logs) {
      BothMakeSafe(inventories, fills, cash, db, logs);
    }
  }

  // ----- Reachable tables ---------------------------------------------------

  ghost predicate HasHistory(db: Db, logs: map<MarketId, seq<EventId>>) {
    && CashIsPaired(db)
    && forall m :: m in db.inventory ==> m in logs && HistoryInv(db, m, logs[m])
  }

  lemma BookedRowIsReady(db: Db, e: EventId)
    requires CashIsPaired(db) && IsBooked(db, e)
    ensures RowReady(db, e)
  {
    assert GoodBooked(db, e);
    hide Notional;
    var b, x := db.events[e].booking.value, db.events[e].execution;
    CashFactMatchesFill(Yes, b.side, x.price, x.size, db.cash[e].amounts.fee);
    CloseToItself(db.cash[e].amounts.gross);
  }

  lemma CloseToItself(x: real)
    ensures Close(x, x)
  {
  }

  lemma HistoryIsReady(db: Db, logs: map<MarketId, seq<EventId>>)
    requires HasHistory(db, logs)
    ensures AuditReady(db, logs)
  {
    hide CashIsPaired, RowReady, Logged, Replayed, LedgerReady;
    assert RowsReady(db) by {
      forall e | IsBooked(db, e) ensures RowReady(db, e) {
        BookedRowIsReady(db, e);
      }
      forall e | e in db.cash ensures IsBooked(db, e) {
        CashHasEvent(db, e);
      }
    }
    forall m | m in db.inventory ensures LedgerReady(db, m, logs[m]) {
      ReplayedIsReady(db, m, logs[m]);
    }
  }

  lemma CashHasEvent(db: Db, e: EventId)
    requires CashIsPaired(db) && e in db.cash
    ensures IsBooked(db, e)
  {
  }

  /** A ledger kept without rounding is the replay. */
  lemma ExactLedgersAgree(db: Db, logs: map<MarketId, seq<EventId>>)
    requires HasHistory(db, logs) && AllVerified(db)
    ensures AllAgree(db, logs)
  {
    hide CashIsPaired, Logged, Replay;
    forall m | m in db.inventory ensures LedgerAgrees(db, m, logs[m]) {
      assert HistoryInv(db, m, logs[m]);
      AgreesWithItself(db.inventory[m].book);
    }
  }

  lemma AgreesWithItself(l: Ledger)
    ensures WithinAuditTolerance(l, l)
  {
  }

  lemma ReplayedIsReady(db: Db, m: MarketId, log: seq<EventId>)
    requires m in db.inventory && Replayed(db, m, log)
    ensures LedgerReady(db, m, log)
  {
    hide Replay;
  }

  /** In every reachable state, the audit over the tables is safe exactly when every inbox
      row is processed and every ledger is still verified. */
  lemma AuditAgrees(
    worlds: seq<World>, steps: seq<Step>, settings: Settings, n: nat,
    inventories: multiset<InventoryFact>, fills: multiset<FillFact>, cash: multiset<CashRow>)
    requires Run(worlds, steps, settings) && n <= |steps|
    requires Tabulates(inventories, fills, cash, worlds[n].db)
    ensures AuditSafe(inventories, fills, cash, true) <==> AllProcessed(worlds[n].db) && AllVerified(worlds[n].db)
  {
    hide Init, Enabled, Next, AuditSafe, Tabulates, HasHistory, AuditReady, AllProcessed, AllVerified, AllAgree;
    RunHistory(worlds, steps, settings, n);
    var logs := LogsOf(worlds, steps, n);
    HistoryIsReady(worlds[n].db, logs);
    if AllVerified(worlds[n].db) {
      ExactLedgersAgree(worlds[n].db, logs);
    }
    ReadyAuditAgrees(inventories, fills, cash, worlds[n].db, logs);
  }

  // ----- The same tables as the columns hold them ---------------------------

  function RoundOption(x: Option<real>): Option<real> {
    if x.Some? then Some(Round8(x.value)) else None
  }

  /** Every money column of a cash fact keeps eight decimals. */
  function StoredCash(c: CashFact): CashFact {
    c.(amounts := CashAmounts(Round8(c.amounts.gross), RoundOption(c.amounts.fee), RoundOption(c.amounts.net)))
  }

  /** A ledger nobody overwrote holds what its fills stored one by one, rounded each time. */
  function StoredInventory(db: Db, inv: Inventory, log: seq<EventId>): Inventory {
    if inv.accounting in {V2, FeeIncomplete} && StoreFills(FillsOf(db, log)).Success?
    then inv.(book := StoreFills(FillsOf(db, log)).value) else inv
  }

  ghost function StoredDb(db: Db, logs: map<MarketId, seq<EventId>>): Db {
    db.(cash := map e | e in db.cash :: StoredCash(db.cash[e]),
        inventory := map m | m in db.inventory ::
          if m in logs then StoredInventory(db, db.inventory[m], logs[m]) else db.inventory[m])
  }

  lemma StoredCloseEnough(gross: real, fee: real)
    requires fee >= 0.0
    ensures Close(Round8(gross), gross)
    ensures Round8(fee) >= 0.0 && Close(Round8(gross - fee), Round8(gross) - Round8(fee))
  {
    Round8Error(gross);
    Round8Error(fee);
    Round8Error(gross - fee);
    hide Round8;
  }

  /** The amounts of a booked row. */
  lemma BookedAmounts(db: Db, e: EventId)
    requires CashIsPaired(db) && IsBooked(db, e)
    ensures GoodBooked(db, e)
    ensures var b, x, a := db.events[e].booking.value, db.events[e].execution, db.cash[e].amounts;
            && a.gross == (if b.side.Buy? then -Notional(x.price, x.size) else Notional(x.price, x.size))
            && (a.net.Some? <==> a.fee.Some?)
            && (a.fee.Some? ==> a.fee.value >= 0.0 && a.net.value == a.gross - a.fee.value)
  {
    assert GoodBooked(db, e);
    hide Notional;
  }

  /** Rounding a cash fact that fits its fill exactly leaves it fitting within the tolerance. */
  lemma StoredCashMatches(f: FillFact, e: EventId, c: CashFact)
    requires f.market == Some(c.market) && f.side == Some(c.side) && c.amounts.gross == SignedNotional(f)
    requires c.amounts.fee.Some? && c.amounts.net.Some? && c.amounts.fee.value >= 0.0
    requires c.amounts.net.value == c.amounts.gross - c.amounts.fee.value
    ensures var a := StoredCash(c).amounts;
            CashMatches(f, CashRow(e, c.market, c.side, a.gross, a.fee, a.net, Known), true)
  {
    hide Round8, Close, SignedNotional;
    StoredCloseEnough(c.amounts.gross, c.amounts.fee.value);
  }

  /** The audit reads a fill with the fee its column holds. */
  lemma StoredFillOf(db: Db, logs: map<MarketId, seq<EventId>>, e: EventId)
    requires CashIsPaired(db) && IsBooked(db, e)
    ensures FillOf(StoredDb(db, logs), e) == FillOf(db, e).(fee := Round8(FillOf(db, e).fee))
    ensures FeeKnown(StoredDb(db, logs), e) == FeeKnown(db, e)
  {
    BookedAmounts(db, e);
    Round8Error(0.0);
    hide CashIsPaired, Round8, BuildCashFact, StoredInventory;
  }

  lemma StoredAsFill(db: Db, logs: map<MarketId, seq<EventId>>, e: EventId)
    requires RowReady(db, e)
    ensures FillFactOf(StoredDb(db, logs), e) == FillFactOf(db, e)
    ensures var f := AsFill(FillFactOf(db, e), CashIndex(db));
            AsFill(FillFactOf(db, e), CashIndex(StoredDb(db, logs))) == f.(fee := Round8(f.fee))
  {
    Round8Error(0.0);
    hide Round8, CashMatches, StoredInventory, FillOf;
  }

  lemma BookedSigned(db: Db, e: EventId)
    requires CashIsPaired(db) && IsBooked(db, e)
    ensures e in db.cash && FillFactOf(db, e).market == Some(db.cash[e].market) && FillFactOf(db, e).side == Some(db.cash[e].side)
    ensures db.cash[e].amounts.gross == SignedNotional(FillFactOf(db, e))
  {
    BookedAmounts(db, e);
    hide CashIsPaired, BuildCashFact, Notional;
  }

  lemma StoredRowIsReady(db: Db, logs: map<MarketId, seq<EventId>>, e: EventId)
    requires CashIsPaired(db) && IsBooked(db, e)
    ensures RowReady(StoredDb(db, logs), e)
    ensures FillOf(StoredDb(db, logs), e) == FillOf(db, e).(fee := Round8(FillOf(db, e).fee))
    ensures FeeKnown(StoredDb(db, logs), e) == FeeKnown(db, e)
  {
    BookedRowIsReady(db, e);
    StoredFillOf(db, logs, e);
    StoredAsFill(db, logs, e);
    BookedSigned(db, e);
    BookedAmounts(db, e);
    hide CashIsPaired, GoodBooked, CashMatches, AsFill, FillOf, StoredInventory, SignedNotional, Mapped;
    if FeeKnown(db, e) {
      StoredCashMatches(FillFactOf(db, e), e, db.cash[e]);
    }
  }

  lemma StoredLogged(db: Db, logs: map<MarketId, seq<EventId>>, m: MarketId, log: seq<EventId>)
    requires Logged(db, m, log)
    ensures Logged(StoredDb(db, logs), m, log)
  {
    hide StoredCash, StoreFills;
    var stored := StoredDb(db, logs);
    assert forall e :: VersionOf(stored, e) == VersionOf(db, e) && BookedIn(stored, e, m) == BookedIn(db, e, m);
    assert m in db.inventory ==> stored.inventory[m].stateVersion == db.inventory[m].stateVersion;
    hide StoredDb;
  }

  /** The stored fills of a market, as the audit reads them back. */
  lemma StoredFills(db: Db, logs: map<MarketId, seq<EventId>>, m: MarketId, log: seq<EventId>)
    requires CashIsPaired(db) && Logged(db, m, log)
    ensures FillsOf(StoredDb(db, logs), log) == AsRecorded(FillsOf(db, log))
    ensures forall i :: 0 <= i < |log| ==> FeeKnown(StoredDb(db, logs), log[i]) == FeeKnown(db, log[i])
  {
    hide CashIsPaired, FillOf, StoredDb, Logged, Round8;
    forall i | 0 <= i < |log|
      ensures FillOf(StoredDb(db, logs), log[i]) == FillOf(db, log[i]).(fee := Round8(FillOf(db, log[i]).fee))
      ensures FeeKnown(StoredDb(db, logs), log[i]) == FeeKnown(db, log[i])
    {
      LoggedRow(db, m, log, i);
      StoredFillOf(db, logs, log[i]);
    }
  }

  lemma StoredLedgerIsReady(db: Db, logs: map<MarketId, seq<EventId>>, m: MarketId)
    requires m in db.inventory && m in logs && HistoryInv(db, m, logs[m])
    ensures m in StoredDb(db, logs).inventory && LedgerReady(StoredDb(db, logs), m, logs[m])
    ensures db.inventory[m].accounting == V2 ==>
              && StoreFills(FillsOf(db, logs[m])).Success? && Replay(AsRecorded(FillsOf(db, logs[m]))).Success?
              && (LedgerAgrees(StoredDb(db, logs), m, logs[m]) <==> RoundingFits(FillsOf(db, logs[m])))
  {
    hide Replay, StoreFills, CashIsPaired, WithinAuditTolerance, FillOf, StoredCash, AsRecorded, FillsOf;
    var stored, log := StoredDb(db, logs), logs[m];
    if stored.inventory[m].accounting == V2 {
      StoredFills(db, logs, m, log);
      RoundingErrorPerFill(FillsOf(db, log));
      RecordedReplayIsClose(FillsOf(db, log));
      assert forall e :: VersionOf(stored, e) == VersionOf(db, e);
    }
  }

  lemma StoredIsReady(db: Db, logs: map<MarketId, seq<EventId>>)
    requires HasHistory(db, logs)
    ensures AuditReady(StoredDb(db, logs), logs)
  {
    hide CashIsPaired, RowReady, Logged, Replayed, LedgerReady, StoredInventory, StoredCash, LedgerAgrees;
    var stored := StoredDb(db, logs);
    assert RowsReady(stored) by {
      forall e | IsBooked(stored, e) ensures RowReady(stored, e) {
        StoredRowIsReady(db, logs, e);
      }
      forall e | e in stored.cash ensures IsBooked(stored, e) {
        CashHasEvent(db, e);
      }
    }
    forall m | m in stored.inventory ensures m in logs && Logged(stored, m, logs[m]) && LedgerReady(stored, m, logs[m]) {
      StoredLogged(db, logs, m, logs[m]);
      StoredLedgerIsReady(db, logs, m);
    }
  }

  /** The columns a run of fills leaves agree with the replay of what the cash ledger recorded. */
  ghost predicate RoundingFits(fills: seq<Fill>) {
    && StoreFills(fills).Success? && Replay(AsRecorded(fills)).Success?
    && WithinAuditTolerance(StoreFills(fills).value, Replay(AsRecorded(fills)).value)
  }

  ghost predicate AllRoundingFits(db: Db, logs: map<MarketId, seq<EventId>>) {
    forall m :: m in db.inventory ==> m in logs && RoundingFits(FillsOf(db, logs[m]))
  }

  /** Stored ledgers agree exactly when the rounding of their own fills fits. */
  lemma StoredAgreeIff(db: Db, logs: map<MarketId, seq<EventId>>)
    requires HasHistory(db, logs) && AllVerified(db)
    ensures AllAgree(StoredDb(db, logs), logs) <==> AllRoundingFits(db, logs)
  {
    hide CashIsPaired, Logged, Replayed, LedgerReady, StoredInventory, StoredCash, LedgerAgrees, RoundingFits, FillsOf;
    forall m | m in db.inventory
      ensures m in logs && (LedgerAgrees(StoredDb(db, logs), m, logs[m]) <==> RoundingFits(FillsOf(db, logs[m]))) {
      StoredLedgerIsReady(db, logs, m);
    }
    assert StoredDb(db, logs).inventory.Keys == db.inventory.Keys;
  }

  /** The executions booked so far, market by market. */
  ghost function LogsOf(worlds: seq<World>, steps: seq<Step>, n: nat): map<MarketId, seq<EventId>>
    requires n <= |steps| < |worlds|
  {
    map m | m in worlds[n].db.inventory :: BookedLog(worlds, steps, m, n)
  }

  /** The agreement on the tables as their columns hold them: balances rounded after every fill,
      cash facts rounded once. In every reachable state the audit is safe exactly when every row
      is processed, every ledger verified, and what rounding added up to in each market is within
      the tolerance. */
  lemma StoredAuditAgreesIff(
    worlds: seq<World>, steps: seq<Step>, settings: Settings, n: nat,
    inventories: multiset<InventoryFact>, fills: multiset<FillFact>, cash: multiset<CashRow>)
    requires Run(worlds, steps, settings) && n <= |steps| < |worlds|
    requires Tabulates(inventories, fills, cash, StoredDb(worlds[n].db, LogsOf(worlds, steps, n)))
    ensures var db := worlds[n].db;
            AuditSafe(inventories, fills, cash, true)
            <==> AllProcessed(db) && AllVerified(db) && AllRoundingFits(db, LogsOf(worlds, steps, n))
  {
    hide Run, AuditSafe, Tabulates, HasHistory, AuditReady, StoredCash, StoreFills, BookedLog, AllAgree, AllRoundingFits;
    var db, logs := worlds[n].db, LogsOf(worlds, steps, n);
    RunHistory(worlds, steps, settings, n);
    StoredIsReady(db, logs);
    ReadyAuditAgrees(inventories, fills, cash, StoredDb(db, logs), logs);
    StoredStatus(db, logs);
    hide AllProcessed, AllVerified, StoredDb;
    if AllVerified(db) {
      StoredAgreeIff(db, logs);
    }
  }

  /** So rounding neither hides nor invents a blocker while, in every market, twice the number of
      booked fills plus the number of fees with more than eight decimals is at most two hundred. */
  lemma StoredAuditAgrees(
    worlds: seq<World>, steps: seq<Step>, settings: Settings, n: nat,
    inventories: multiset<InventoryFact>, fills: multiset<FillFact>, cash: multiset<CashRow>)
    requires Run(worlds, steps, settings) && n <= |steps| < |worlds|
    requires forall m :: m in worlds[n].db.inventory ==>
               var booked := FillsOf(worlds[n].db, BookedLog(worlds, steps, m, n)); 2 * |booked| + OddFees(booked) <= 200
    requires Tabulates(inventories, fills, cash, StoredDb(worlds[n].db, LogsOf(worlds, steps, n)))
    ensures AuditSafe(inventories, fills, cash, true) <==> AllProcessed(worlds[n].db) && AllVerified(worlds[n].db)
  {
    hide Run, AuditSafe, Tabulates, StoredDb, StoreFills, BookedLog, AllProcessed, WithinAuditTolerance, OddFees, Replay, FillsOf;
    var db, logs := worlds[n].db, LogsOf(worlds, steps, n);
    StoredAuditAgreesIff(worlds, steps, settings, n, inventories, fills, cash);
    RunHistory(worlds, steps, settings, n);
    if AllVerified(db) {
      forall m | m in db.inventory ensures RoundingFits(FillsOf(db, logs[m])) {
        VerifiedFillsAreStored(db, logs, m);
        HundredFillsPassAudit(FillsOf(db, logs[m]));
      }
    }
  }

  lemma VerifiedFillsAreStored(db: Db, logs: map<MarketId, seq<EventId>>, m: MarketId)
    requires HasHistory(db, logs) && AllVerified(db) && m in db.inventory
    ensures m in logs && StoreFills(FillsOf(db, logs[m])).Success?
  {
    hide CashIsPaired, Logged, Replay, StoreFills;
    assert HistoryInv(db, m, logs[m]);
    RoundingErrorPerFill(FillsOf(db, logs[m]));
  }

  lemma StoredStatus(db: Db, logs: map<MarketId, seq<EventId>>)
    ensures AllProcessed(StoredDb(db, logs)) == AllProcessed(db) && AllVerified(StoredDb(db, logs)) == AllVerified(db)
  {
    hide StoredCash, StoreFills;
    var stored := StoredDb(db, logs);
    assert forall m :: m in db.inventory ==> stored.inventory[m].accounting == db.inventory[m].accounting;
    assert forall e :: IsBooked(stored, e) == IsBooked(db, e);
    assert stored.inventory.Keys == db.inventory.Keys;
  }

  lemma RunHistory(worlds: seq<World>, steps: seq<Step>, settings: Settings, n: nat)
    requires Run(worlds, steps, settings) && n <= |steps| < |worlds|
    ensures HasHistory(worlds[n].db, LogsOf(worlds, steps, n))
  {
    hide Init, Enabled, Next, Logged, Replayed, CashIsPaired, Books;
    var db := worlds[n].db;
    RunKeepsHistory(worlds, steps, settings, 0, n);
    forall m | m in db.inventory ensures HistoryInv(db, m, BookedLog(worlds, steps, m, n)) {
      RunKeepsHistory(worlds, steps, settings, m, n);
    }
  }

  // ----- Once unverified, never safe again ----------------------------------

  ghost predicate Unverified(db: Db, m: MarketId) {
    m in db.inventory && db.inventory[m].accounting != V2
  }

  lemma StepKeepsUnverified(w: World, settings: Settings, s: Step, m: MarketId)
    requires Inv(w) && Enabled(w, s) && Unverified(w.db, m)
    ensures Unverified(Next(w, settings, s).db, m)
  {
    hide Inv, SameHistory, Process;
    if s.Attempt? {
      AttemptKeepsUnverified(w.db, s.e, m);
    } else if s.OverwriteStep? {
      hide ReconcileCapital;
    } else {
      OtherStepSameHistory(w, settings, s);
      SameHistoryInventory(w.db, Next(w, settings, s).db);
      hide Next, Enabled;
    }
  }

  lemma AttemptKeepsUnverified(db: Db, e: EventId, m: MarketId)
    requires Unverified(db, m)
    ensures Unverified(Process(db, e).db, m)
  {
    hide ResolveFee, BuildCashFact, ConsumeReservation, ApplyToLedger, LookUp;
  }

  /** A step after which a ledger is no longer verified: an external overwrite, or a
      booked fill whose fee nobody knows. */
  ghost predicate Taints(w: World, s: Step, m: MarketId) {
    || (Overwrites(s, m) && m in w.db.inventory)
    || (Books(w, s, m) && !FeeKnown(Process(w.db, s.e).db, s.e))
  }

  lemma VerifiedFeeIsKnown(db: Db, m: MarketId, log: seq<EventId>, e: EventId)
    requires HistoryInv(db, m, log) && m in db.inventory && db.inventory[m].accounting == V2 && BookedIn(db, e, m)
    ensures FeeKnown(db, e)
  {
    hide Replay, CashIsPaired;
    assert e in log;
  }

  lemma TaintUnverifies(w: World, settings: Settings, s: Step, m: MarketId, log: seq<EventId>)
    requires Inv(w) && Enabled(w, s) && Taints(w, s, m) && HistoryInv(w.db, m, log)
    ensures Unverified(Next(w, settings, s).db, m)
  {
    if s.OverwriteStep? {
      hide Inv, HistoryInv, ReconcileCapital;
    } else {
      hide Inv, HistoryInv, Process, Enabled;
      StepKeepsHistory(w, settings, s, m, log);
      BookedMarketHasLedger(Next(w, settings, s).db, s.e, m, log + [s.e]);
      if Next(w, settings, s).db.inventory[m].accounting == V2 {
        VerifiedFeeIsKnown(Next(w, settings, s).db, m, log + [s.e], s.e);
      }
    }
  }

  lemma BookedMarketHasLedger(db: Db, e: EventId, m: MarketId, log: seq<EventId>)
    requires HistoryInv(db, m, log) && BookedIn(db, e, m)
    ensures m in db.inventory
  {
    hide Replay, Logged, BuildCashFact;
    assert GoodBooked(db, e);
  }

  lemma {:induction false} UnverifiedPersists(
    worlds: seq<World>, steps: seq<Step>, settings: Settings, m: MarketId, i: nat, n: nat)
    requires Run(worlds, steps, settings) && i <= n <= |steps| && Unverified(worlds[i].db, m)
    ensures Unverified(worlds[n].db, m)
  {
    hide Inv, Enabled, Next, Unverified, Init;
    if i < n {
      UnverifiedPersists(worlds, steps, settings, m, i, n - 1);
      RunKeepsInv(worlds, steps, settings, n - 1);
      StepKeepsUnverified(worlds[n - 1], settings, steps[n - 1], m);
    }
  }

  /** After one external overwrite or one fill with an unknown fee, no later audit in the
      run is safe, whether or not known fees are required. */
  lemma NeverSafeAgain(
    worlds: seq<World>, steps: seq<Step>, settings: Settings, m: MarketId, i: nat, n: nat, known: bool,
    inventories: multiset<InventoryFact>, fills: multiset<FillFact>, cash: multiset<CashRow>)
    requires Run(worlds, steps, settings) && i < n <= |steps| && Taints(worlds[i], steps[i], m)
    requires Tabulates(inventories, fills, cash, worlds[n].db)
    ensures !AuditSafe(inventories, fills, cash, known)
  {
    hide Inv, Enabled, Next, HistoryInv, Init, AuditSafe, Tabulates, Taints, BookedLog;
    RunKeepsInv(worlds, steps, settings, i);
    RunKeepsHistory(worlds, steps, settings, m, i);
    TaintUnverifies(worlds[i], settings, steps[i], m, BookedLog(worlds, steps, m, i));
    UnverifiedPersists(worlds, steps, settings, m, i + 1, n);
    if AuditSafe(inventories, fills, cash, known) {
      SafeNeedsBoth(inventories, fills, cash, worlds[n].db, known);
    }
  }

  // ----- Exactly when it is safe --------------------------------------------

  lemma StepKeepsLedgers(w: World, settings: Settings, s: Step)
    requires Inv(w) && Enabled(w, s)
    ensures Next(w, settings, s).db.inventory.Keys == w.db.inventory.Keys
  {
    hide Inv, SameHistory, Process;
    if s.Attempt? {
      AttemptKeepsLedgers(w.db, s.e);
    } else if s.OverwriteStep? {
      hide ReconcileCapital;
    } else {
      OtherStepSameHistory(w, settings, s);
      SameHistoryInventory(w.db, Next(w, settings, s).db);
      hide Next, Enabled;
    }
  }

  lemma AttemptKeepsLedgers(db: Db, e: EventId)
    ensures Process(db, e).db.inventory.Keys == db.inventory.Keys
  {
    hide ResolveFee, BuildCashFact, ConsumeReservation, ApplyToLedger, LookUp;
  }

  /** A booking with a known fee leaves its ledger verified. */
  lemma AttemptKeepsVerified(w: World, e: EventId, m: MarketId)
    requires m in w.db.inventory && w.db.inventory[m].accounting == V2 && !Taints(w, Attempt(e), m)
    ensures m in Process(w.db, e).db.inventory && Process(w.db, e).db.inventory[m].accounting == V2
  {
    hide ResolveFee, ConsumeReservation, ApplyToLedger, LookUp, Notional;
  }

  lemma StepKeepsVerifiedIff(w: World, settings: Settings, s: Step, m: MarketId, log: seq<EventId>)
    requires Inv(w) && Enabled(w, s) && HistoryInv(w.db, m, log)
    requires m in w.db.inventory && w.db.inventory[m].accounting == V2
    ensures m in Next(w, settings, s).db.inventory
    ensures Next(w, settings, s).db.inventory[m].accounting == V2 <==> !Taints(w, s, m)
  {
    hide Inv, HistoryInv, Process, SameHistory, Taints;
    StepKeepsLedgers(w, settings, s);
    if Taints(w, s, m) {
      TaintUnverifies(w, settings, s, m, log);
    } else if s.Attempt? {
      AttemptKeepsVerified(w, s.e, m);
    } else if s.OverwriteStep? {
      OverwriteElsewhere(w, s, m);
    } else {
      OtherStepSameHistory(w, settings, s);
      SameHistoryInventory(w.db, Next(w, settings, s).db);
      hide Next, Enabled;
    }
  }

  lemma OverwriteElsewhere(w: World, s: Step, m: MarketId)
    requires s.OverwriteStep? && !Taints(w, s, m) && m in w.db.inventory
    ensures var inventory := Overwrite(w.db, s.market, s.actual).inventory;
            m in inventory && inventory[m] == w.db.inventory[m]
  {
    hide ReconcileCapital;
  }

  /** A ledger is verified if and only if no step so far overwrote it or booked a fill of its
      market with an unknown fee. */
  lemma {:induction false} VerifiedIff(worlds: seq<World>, steps: seq<Step>, settings: Settings, m: MarketId, n: nat)
    requires Run(worlds, steps, settings) && n <= |steps| && m in worlds[0].db.inventory
    ensures m in worlds[n].db.inventory
    ensures worlds[n].db.inventory[m].accounting == V2 <==> forall i :: 0 <= i < n ==> !Taints(worlds[i], steps[i], m)
  {
    hide Inv, Enabled, Next, HistoryInv, Taints, BookedLog, Unverified;
    if n > 0 {
      VerifiedIff(worlds, steps, settings, m, n - 1);
      hide Init;
      RunKeepsInv(worlds, steps, settings, n - 1);
      RunKeepsHistory(worlds, steps, settings, m, n - 1);
      StepKeepsLedgers(worlds[n - 1], settings, steps[n - 1]);
      if worlds[n - 1].db.inventory[m].accounting == V2 {
        StepKeepsVerifiedIff(worlds[n - 1], settings, steps[n - 1], m, BookedLog(worlds, steps, m, n - 1));
      } else {
        StillUnverified(worlds[n - 1], settings, steps[n - 1], m);
      }
    }
  }

  lemma StillUnverified(w: World, settings: Settings, s: Step, m: MarketId)
    requires Inv(w) && Enabled(w, s) && m in w.db.inventory && w.db.inventory[m].accounting != V2
    ensures m in Next(w, settings, s).db.inventory && Next(w, settings, s).db.inventory[m].accounting != V2
  {
    hide Inv, Next, Enabled;
    StepKeepsUnverified(w, settings, s, m);
  }

  lemma {:induction false} SameLedgers(worlds: seq<World>, steps: seq<Step>, settings: Settings, n: nat)
    requires Run(worlds, steps, settings) && n <= |steps|
    ensures worlds[n].db.inventory.Keys == worlds[0].db.inventory.Keys
  {
    hide Inv, Enabled, Next, Init;
    if n > 0 {
      SameLedgers(worlds, steps, settings, n - 1);
      RunKeepsInv(worlds, steps, settings, n - 1);
      StepKeepsLedgers(worlds[n - 1], settings, steps[n - 1]);
    }
  }

  /** In every reachable state the audit is safe if and only if every inbox row is processed and
      nothing that happened so far overwrote a ledger or booked a fill with an unknown fee. */
  lemma AuditSafeIffUntainted(
    worlds: seq<World>, steps: seq<Step>, settings: Settings, n: nat,
    inventories: multiset<InventoryFact>, fills: multiset<FillFact>, cash: multiset<CashRow>)
    requires Run(worlds, steps, settings) && n <= |steps|
    requires Tabulates(inventories, fills, cash, worlds[n].db)
    ensures AuditSafe(inventories, fills, cash, true)
       <==> (&& AllProcessed(worlds[n].db)
             && forall m, i :: m in worlds[0].db.inventory && 0 <= i < n ==> !Taints(worlds[i], steps[i], m))
  {
    hide Init, Enabled, Next, AuditSafe, Tabulates, AllProcessed, Taints;
    AuditAgrees(worlds, steps, settings, n, inventories, fills, cash);
    SameLedgers(worlds, steps, settings, n);
    forall m | m in worlds[0].db.inventory
      ensures m in worlds[n].db.inventory
      ensures worlds[n].db.inventory[m].accounting == V2 <==> forall i :: 0 <= i < n ==> !Taints(worlds[i], steps[i], m)
    {
      VerifiedIff(worlds, steps, settings, m, n);
    }
  }
}
