/** What a safe audit is worth: the positions are the sum of the fills, and the profit less the
    cost basis is the cash that the market's cash facts say has moved. */
module AuditedCash {
  import opened Common
  import opened Accounting
  import opened Rounding
  import opened Rows
  import opened Audit

  // ----- One fill and its cash fact -----------------------------------------

  /** Is a within 1e-6 dollars of b? */
  predicate Near(a: real, b: real) {
    -1_000_000.0 <= a - b <= 1_000_000.0
  }

  /** A purchase pays price times size, a sale collects it. */
  predicate GrossIs(gross: real, side: Side, price: int, size: int) {
    Near(gross, if side.Buy? then -((price * size) as real) else (price * size) as real)
  }

  /** The fee is known, and the net amount is what is left after it, or neither is. */
  predicate FeeIs(c: CashRow, known: bool) {
    || (c.status.Known? && c.fee.Some? && c.net.Some? && c.fee.value >= 0.0 && Near(c.net.value + c.fee.value, c.gross))
    || (c.status.Unknown? && c.fee.None? && c.net.None? && !known)
  }

  /** When a cash fact matches its fill. */
  lemma CashMatchesIff(f: FillFact, c: CashRow, known: bool)
    requires f.side.Some?
    ensures CashMatches(f, c, known)
       <==> && f.market == Some(c.market) && f.side == Some(c.side)
            && GrossIs(c.gross, c.side, f.price, f.size) && FeeIs(c, known)
  {
  }

  /** The row that is number i of its market, with its cash fact. */
  ghost predicate Paired(f: FillFact, c: CashRow, i: nat, m: MarketId, known: bool) {
    && f.processed && f.version == Some(i + 1) && f.market == Some(m) && f.outcome.Some?
    && c.event == f.event && c.market == m && f.side == Some(c.side)
    && GrossIs(c.gross, c.side, f.price, f.size) && FeeIs(c, known)
  }

  /** What a cash fact moved; an unknown fee counts as none. */
  function Moved(c: CashRow): real {
    if c.net.Some? then c.net.value else c.gross
  }

  function AllMoved(facts: seq<CashRow>): real {
    if facts == [] then 0.0 else AllMoved(facts[..|facts| - 1]) + Moved(facts[|facts| - 1])
  }

  /** Shares of an outcome bought less shares sold. */
  function Bought(rows: seq<FillFact>, outcome: Outcome): int {
    if rows == [] then 0
    else
      var f := rows[|rows| - 1];
      Bought(rows[..|rows| - 1], outcome)
      + (if f.outcome != Some(outcome) then 0 else if f.side == Some(Buy) then f.size else -f.size)
  }

  // ----- Totals -------------------------------------------------------------

  lemma PairMoves(f: FillFact, c: CashRow, i: nat, m: MarketId, known: bool, index: map<EventId, CashRow>)
    requires Mapped(f) && Paired(f, c, i, m, known) && f.event in index && index[f.event] == c
    ensures -2_000_000.0 <= Moved(c) - NetCash(AsFill(f, index)) <= 2_000_000.0
  {
  }

  lemma {:induction false} MovedIsNetCash(
    rows: seq<FillFact>, facts: seq<CashRow>, m: MarketId, known: bool, index: map<EventId, CashRow>)
    requires |rows| == |facts|
    requires forall i :: 0 <= i < |rows| ==>
               Mapped(rows[i]) && Paired(rows[i], facts[i], i, m, known) && rows[i].event in index && index[rows[i].event] == facts[i]
    ensures var d := AllMoved(facts) - TotalNetCash(AsFills(rows, index));
            -2_000_000.0 * |rows| as real <= d <= 2_000_000.0 * |rows| as real
    decreases |rows|
  {
    hide Mapped, Paired, Moved, NetCash, AsFill;
    if rows != [] {
      var n := |rows| - 1;
      MovedIsNetCash(rows[..n], facts[..n], m, known, index);
      PairMoves(rows[n], facts[n], n, m, known, index);
      assert AsFills(rows, index)[..n] == AsFills(rows[..n], index);
    }
  }

  lemma FillHolds(l: Ledger, f: Fill, outcome: Outcome)
    requires l.Sound() && ApplyToLedger(l, f).Success?
    ensures ApplyToLedger(l, f).value.On(outcome).exposure
            == l.On(outcome).exposure + (if f.outcome != outcome then 0 else if f.side.Buy? then f.size else -f.size)
  {
    FillConservesCash(l.On(f.outcome), f.side, f.size, f.price, f.fee);
    hide ApplyFill, Notional;
  }

  lemma {:induction false} ReplayHolds(rows: seq<FillFact>, index: map<EventId, CashRow>, outcome: Outcome)
    requires forall i :: 0 <= i < |rows| ==> Mapped(rows[i])
    requires Replay(AsFills(rows, index)).Success?
    ensures Replay(AsFills(rows, index)).value.On(outcome).exposure == Bought(rows, outcome)
    decreases |rows|
  {
    hide ApplyToLedger;
    if rows != [] {
      var n := |rows| - 1;
      var fills := AsFills(rows, index);
      assert fills[..n] == AsFills(rows[..n], index);
      ReplayHolds(rows[..n], index, outcome);
      ReplayIsSound(fills[..n]);
      FillHolds(Replay(fills[..n]).value, fills[n], outcome);
    }
  }

  // ----- The cash facts of a market -----------------------------------------

  /** The cash facts of a table that belong to one market. */
  ghost predicate CashOfMarket(facts: multiset<CashRow>, cash: multiset<CashRow>, m: MarketId) {
    forall c :: facts[c] == (if c.market == m then cash[c] else 0)
  }

  /** An event id is the key of the inbox. */
  ghost predicate OneFillPerEvent(fills: multiset<FillFact>) {
    forall f, g :: f in fills && g in fills && f.event == g.event ==> f == g && fills[f] == 1
  }

  function FactsFor(rows: seq<FillFact>, index: map<EventId, CashRow>): (facts: seq<CashRow>)
    requires forall i :: 0 <= i < |rows| ==> rows[i].event in index
    ensures |facts| == |rows|
  {
    seq(|rows|, i requires 0 <= i < |rows| => index[rows[i].event])
  }

  lemma RowIsPaired(
    inventories: multiset<InventoryFact>, fills: multiset<FillFact>, cash: multiset<CashRow>, known: bool,
    f: FillFact, index: map<EventId, CashRow>)
    requires f in fills && FillClear(f, inventories, cash, known) && Indexes(index, cash) && OneRowPerEvent(cash)
    ensures Mapped(f) && f.event in index && index[f.event] in cash && index[f.event].event == f.event
    ensures f.market == Some(index[f.event].market) && f.side == Some(index[f.event].side)
    ensures GrossIs(index[f.event].gross, index[f.event].side, f.price, f.size) && FeeIs(index[f.event], known)
  {
    var c :| c in cash && c.event == f.event && CashMatches(f, c, known);
    assert index[f.event] == c;
    CashMatchesIff(f, c, known);
  }

  lemma FactsAreDistinct(rows: seq<FillFact>, fills: multiset<FillFact>, index: map<EventId, CashRow>, m: MarketId)
    requires OfMarket(multiset(rows), fills, m) && OneFillPerEvent(fills)
    requires forall i :: 0 <= i < |rows| ==> rows[i].event in index && index[rows[i].event].event == rows[i].event
    ensures Audit.Distinct(FactsFor(rows, index))
  {
    var facts := FactsFor(rows, index);
    forall i, j | 0 <= i < j < |facts| ensures facts[i] != facts[j] {
      if facts[i] == facts[j] {
        assert rows[i] in multiset(rows) && rows[j] in multiset(rows);
        assert rows[i].event == rows[j].event;
        TwiceCounts(rows, i, j);
        assert false;
      }
    }
  }

  ghost predicate Facts(rows: seq<FillFact>, index: map<EventId, CashRow>, cash: multiset<CashRow>, m: MarketId) {
    forall i :: 0 <= i < |rows| ==>
      && rows[i].event in index && index[rows[i].event] in cash && index[rows[i].event].event == rows[i].event
      && index[rows[i].event].market == m
  }

  lemma FactsAreTheMarkets(
    inventories: multiset<InventoryFact>, fills: multiset<FillFact>, cash: multiset<CashRow>, known: bool,
    rows: seq<FillFact>, index: map<EventId, CashRow>, m: MarketId)
    requires AuditSafe(inventories, fills, cash, known) && OneFillPerEvent(fills)
    requires OfMarket(multiset(rows), fills, m) && Indexes(index, cash) && Facts(rows, index, cash, m)
    ensures CashOfMarket(multiset(FactsFor(rows, index)), cash, m)
  {
    var facts := FactsFor(rows, index);
    FactsAreDistinct(rows, fills, index, m);
    SafeCash(inventories, fills, cash, known);
    hide Audit.Distinct, Audit.AuditSafe, OfMarket, Indexes, OneFillPerEvent, OneRowPerEvent;
    forall c: CashRow ensures multiset(facts)[c] == (if c.market == m then cash[c] else 0) {
      DistinctCounts(facts, c);
      if c in facts {
        ListedFact(rows, index, cash, m, c);
      }
      if c.market == m && c in cash {
        ClaimedIsListed(inventories, fills, cash, known, rows, index, m, c);
      }
    }
  }

  lemma ListedFact(rows: seq<FillFact>, index: map<EventId, CashRow>, cash: multiset<CashRow>, m: MarketId, c: CashRow)
    requires Facts(rows, index, cash, m) && c in FactsFor(rows, index) && OneRowPerEvent(cash)
    ensures c.market == m && cash[c] == 1
  {
    var facts := FactsFor(rows, index);
    var i :| 0 <= i < |facts| && facts[i] == c;
    assert c == index[rows[i].event];
  }

  lemma ClaimedIsListed(
    inventories: multiset<InventoryFact>, fills: multiset<FillFact>, cash: multiset<CashRow>, known: bool,
    rows: seq<FillFact>, index: map<EventId, CashRow>, m: MarketId, c: CashRow)
    requires AuditSafe(inventories, fills, cash, known) && c in cash && c.market == m
    requires OfMarket(multiset(rows), fills, m) && Indexes(index, cash) && Facts(rows, index, cash, m)
    ensures c in FactsFor(rows, index)
  {
    var f := ClaimOf(inventories, fills, cash, known, c, index);
    hide AuditSafe, Indexes;
    assert f in multiset(rows);
    var i :| 0 <= i < |rows| && rows[i] == f;
    assert FactsFor(rows, index)[i] == c;
  }

  lemma SafeCash(inventories: multiset<InventoryFact>, fills: multiset<FillFact>, cash: multiset<CashRow>, known: bool)
    requires AuditSafe(inventories, fills, cash, known)
    ensures OneRowPerEvent(cash)
    ensures forall c :: c in cash ==> CashClaimed(c, fills)
    ensures forall f :: f in fills ==> FillClear(f, inventories, cash, known)
  {
  }

  lemma SafeLedger(
    inventories: multiset<InventoryFact>, fills: multiset<FillFact>, cash: multiset<CashRow>, known: bool, r: InventoryFact)
    requires AuditSafe(inventories, fills, cash, known) && r in inventories
    ensures r.accounting.V2? && LedgerClear(r, fills, cash)
  {
  }

  /** The fill that claims a cash fact is of the same market. */
  lemma ClaimOf(
    inventories: multiset<InventoryFact>, fills: multiset<FillFact>, cash: multiset<CashRow>, known: bool,
    c: CashRow, index: map<EventId, CashRow>) returns (f: FillFact)
    requires AuditSafe(inventories, fills, cash, known) && c in cash && Indexes(index, cash)
    ensures f in fills && f.event == c.event && f.market == Some(c.market) && index[f.event] == c
  {
    SafeCash(inventories, fills, cash, known);
    hide FillClear, AuditSafe;
    assert CashClaimed(c, fills);
    f :| f in fills && f.event == c.event;
    RowIsPaired(inventories, fills, cash, known, f, index);
    assert index[f.event] == c;
  }

  // ----- The worth of a safe audit ------------------------------------------

  lemma SafeRowIsPaired(
    inventories: multiset<InventoryFact>, fills: multiset<FillFact>, cash: multiset<CashRow>, known: bool,
    m: MarketId, rows: seq<FillFact>, index: map<EventId, CashRow>, i: nat)
    requires AuditSafe(inventories, fills, cash, known) && i < |rows|
    requires OfMarket(multiset(rows), fills, m) && Indexes(index, cash) && Contiguous(rows)
    ensures rows[i].event in index && index[rows[i].event] in cash && Paired(rows[i], index[rows[i].event], i, m, known)
  {
    SafeCash(inventories, fills, cash, known);
    hide AuditSafe, FillClear, GrossIs, FeeIs, Indexes, OneRowPerEvent;
    assert rows[i] in multiset(rows);
    assert rows[i] in fills && rows[i].market == Some(m);
    RowIsPaired(inventories, fills, cash, known, rows[i], index);
    hide OfMarket;
  }

  /** The rows of a safe market in version order, with the cash facts of that market. */
  lemma RowsOfSafeLedger(
    inventories: multiset<InventoryFact>, fills: multiset<FillFact>, cash: multiset<CashRow>, known: bool, r: InventoryFact)
    returns (rows: seq<FillFact>, index: map<EventId, CashRow>)
    requires AuditSafe(inventories, fills, cash, known) && r in inventories && OneFillPerEvent(fills)
    ensures OfMarket(multiset(rows), fills, r.market) && Rebuilds(rows, index, r)
    ensures forall i :: 0 <= i < |rows| ==>
              rows[i].event in index && Paired(rows[i], index[rows[i].event], i, r.market, known)
    ensures CashOfMarket(multiset(FactsFor(rows, index)), cash, r.market)
  {
    hide FillClear, OneRowPerMarket, Replay, OfMarket, Indexes, OneRowPerEvent, CashOfMarket, OneFillPerEvent, Contiguous, AuditSafe,
      Rebuilds;
    SafeLedger(inventories, fills, cash, known, r);
    rows, index :| OfMarket(multiset(rows), fills, r.market) && Indexes(index, cash) && Rebuilds(rows, index, r);
    RebuiltRows(rows, index, r);
    forall i | 0 <= i < |rows|
      ensures rows[i].event in index && index[rows[i].event] in cash && Paired(rows[i], index[rows[i].event], i, r.market, known)
    {
      SafeRowIsPaired(inventories, fills, cash, known, r.market, rows, index, i);
    }
    FactsAreTheMarkets(inventories, fills, cash, known, rows, index, r.market);
  }

  lemma RebuiltRows(rows: seq<FillFact>, index: map<EventId, CashRow>, r: InventoryFact)
    requires Rebuilds(rows, index, r)
    ensures Contiguous(rows) && |rows| == r.stateVersion && forall i :: 0 <= i < |rows| ==> Mapped(rows[i])
  {
  }

  /** In a safe audit every ledger ties out. Its rows are numbered without a gap up to its version;
      each has the one cash fact of its event, for the same market and side; these are all cash
      facts of the market; the shares are those bought less those sold, to 1e-6; and realized
      profit less cost basis is the cash that moved, to 1e-6 dollars for each of the three money
      columns and for each of the two amounts of every cash fact. */
  lemma SafeAuditTiesOut(
    inventories: multiset<InventoryFact>, fills: multiset<FillFact>, cash: multiset<CashRow>, known: bool, r: InventoryFact)
    returns (rows: seq<FillFact>, facts: seq<CashRow>)
    requires AuditSafe(inventories, fills, cash, known) && r in inventories && OneFillPerEvent(fills)
    ensures r.accounting.V2? && |rows| == |facts| == r.stateVersion
    ensures OfMarket(multiset(rows), fills, r.market) && CashOfMarket(multiset(facts), cash, r.market)
    ensures forall i :: 0 <= i < |rows| ==> Paired(rows[i], facts[i], i, r.market, known)
    ensures -100 <= r.book.yesExposure - Bought(rows, Yes) <= 100 && -100 <= r.book.noExposure - Bought(rows, No) <= 100
    ensures var d := r.book.realized - r.book.yesCapital - r.book.noCapital - AllMoved(facts);
            var bound := 1_000_000.0 * (2 * |facts| + 3) as real;
            -bound <= d <= bound
  {
    hide OfMarket, CashOfMarket, Paired, AuditSafe, Mapped, Rebuilds, OneFillPerEvent, Bought, TotalNetCash, AllMoved;
    SafeLedger(inventories, fills, cash, known, r);
    hide LedgerClear;
    var index;
    rows, index := RowsOfSafeLedger(inventories, fills, cash, known, r);
    facts := FactsFor(rows, index);
    RebuiltRows(rows, index, r);
    MovedIsNetCash(rows, facts, r.market, known, index);
    BooksTieOut(rows, index, r);
  }

  /** A rebuilt ledger is the sum of its fills to within the tolerance of each column. */
  lemma BooksTieOut(rows: seq<FillFact>, index: map<EventId, CashRow>, r: InventoryFact)
    requires Rebuilds(rows, index, r)
    ensures forall i :: 0 <= i < |rows| ==> Mapped(rows[i])
    ensures -100 <= r.book.yesExposure - Bought(rows, Yes) <= 100 && -100 <= r.book.noExposure - Bought(rows, No) <= 100
    ensures var d := r.book.realized - r.book.yesCapital - r.book.noCapital - TotalNetCash(AsFills(rows, index));
            -3_000_000.0 <= d <= 3_000_000.0
  {
    var fills := AsFills(rows, index);
    ReplayHolds(rows, index, Yes);
    ReplayHolds(rows, index, No);
    ReplayConservesCash(fills);
    hide Replay, Mapped, TotalNetCash, Bought;
  }
}
