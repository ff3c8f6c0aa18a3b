/** The batch audit: it rebuilds every verified ledger from the stored fills and checks
    the cash facts, independently of how the ledgers were maintained. */
module Audit {
  import opened Common
  import opened Accounting
  import opened Rounding
  import opened Rows

  datatype InventoryFact = InventoryFact(market: MarketId, accounting: AccountingVersion, stateVersion: nat, book: Ledger)

  datatype FillFact = FillFact(
    event: EventId,
    processed: bool,
    market: Option<MarketId>,
    outcome: Option<Outcome>,
    side: Option<Side>,
    price: int,
    size: int,
    version: Option<int>)

  datatype FeeStatus = Known | Unknown | Unsupported

  datatype CashRow = CashRow(
    event: EventId,
    market: MarketId,
    side: Side,
    gross: real,
    fee: Option<real>,
    net: Option<real>,
    status: FeeStatus)

  datatype Code =
    | DuplicateInventory | UnverifiedVersion | DuplicateCash
    | UnprocessedFill | FillWithoutInventory | InvalidMapping | MissingStateVersion
    | MissingCash | CashIdentity | CashNotional
    | IncompleteKnownFee | InvalidNetCash | AmbiguousUnknownFee | UnknownFee | InvalidFeeStatus
    | OrphanCash | VersionGap | ReplayFailed | ReplayMismatch

  datatype Blocker = Blocker(code: Code, market: Option<MarketId>, event: Option<EventId>)

  predicate Close(actual: real, expected: real) {
    AbsReal(actual - expected) <= AUDIT_TOLERANCE
  }

  // ----- What a safe audit means --------------------------------------------

  /** A processed fill that can be placed in the history of a market. */
  predicate Mapped(f: FillFact) {
    f.processed && f.market.Some? && f.outcome.Some? && f.side.Some? && f.version.Some? && f.version.value > 0
  }

  predicate FeeIsSound(c: CashRow, requireKnownFees: bool) {
    match c.status
    case Known => c.fee.Some? && c.net.Some? && c.fee.value >= 0.0 && Close(c.net.value, c.gross - c.fee.value)
    case Unknown => c.fee.None? && c.net.None? && !requireKnownFees
    case Unsupported => false
  }

  function SignedNotional(f: FillFact): real {
    if f.side == Some(Buy) then -Notional(f.price, f.size) else Notional(f.price, f.size)
  }

  predicate CashMatches(f: FillFact, c: CashRow, requireKnownFees: bool) {
    && Some(c.market) == f.market && Some(c.side) == f.side
    && Close(c.gross, SignedNotional(f))
    && FeeIsSound(c, requireKnownFees)
  }

  /** The fill a row stands for; the fee is the one its cash fact knows. */
  function AsFill(f: FillFact, cash: map<EventId, CashRow>): Fill
    requires Mapped(f)
  {
    Fill(f.outcome.value, f.side.value, f.size, f.price,
         if f.event in cash && cash[f.event].status.Known? && cash[f.event].fee.Some? then cash[f.event].fee.value else 0.0)
  }

  function AsFills(rows: seq<FillFact>, cash: map<EventId, CashRow>): (r: seq<Fill>)
    requires forall i :: 0 <= i < |rows| ==> Mapped(rows[i])
    ensures |r| == |rows|
  {
    seq(|rows|, i requires 0 <= i < |rows| => AsFill(rows[i], cash))
  }

  function Version(f: FillFact): int {
    if f.version.Some? then f.version.value else 0
  }

  predicate Contiguous(order: seq<FillFact>) {
    forall i :: 0 <= i < |order| ==> Mapped(order[i]) && Version(order[i]) == i + 1
  }

  /** The rows, in version order, rebuild the ledger to within the tolerance. */
  predicate Rebuilds(order: seq<FillFact>, cash: map<EventId, CashRow>, r: InventoryFact) {
    && Contiguous(order) && |order| == r.stateVersion
    && Replay(AsFills(order, cash)).Success?
    && WithinAuditTolerance(r.book, Replay(AsFills(order, cash)).value)
  }

  /** The rows of a table that belong to one market. */
  ghost predicate OfMarket(rows: multiset<FillFact>, fills: multiset<FillFact>, market: MarketId) {
    forall f :: rows[f] == (if f.market == Some(market) then fills[f] else 0)
  }

  ghost predicate OneRowPerMarket(rows: multiset<InventoryFact>) {
    forall r, r' :: r in rows && r' in rows && r.market == r'.market ==> r == r' && rows[r] == 1
  }

  ghost predicate OneRowPerEvent(rows: multiset<CashRow>) {
    forall c, c' :: c in rows && c' in rows && c.event == c'.event ==> c == c' && rows[c] == 1
  }

  /** The cash facts by event. */
  ghost predicate Indexes(cash: map<EventId, CashRow>, rows: multiset<CashRow>) {
    && (forall e :: e in cash ==> cash[e] in rows && cash[e].event == e)
    && (forall c :: c in rows ==> c.event in cash)
  }

  ghost predicate LedgerClear(r: InventoryFact, fills: multiset<FillFact>, cash: multiset<CashRow>) {
    exists order, index :: OfMarket(multiset(order), fills, r.market) && Indexes(index, cash) && Rebuilds(order, index, r)
  }

  ghost predicate FillClear(
    f: FillFact, inventories: multiset<InventoryFact>, cash: multiset<CashRow>, requireKnownFees: bool)
  {
    && Mapped(f)
    && (exists r :: r in inventories && Some(r.market) == f.market)
    && (exists c :: c in cash && c.event == f.event && CashMatches(f, c, requireKnownFees))
  }

  ghost predicate CashClaimed(c: CashRow, fills: multiset<FillFact>) {
    exists f :: f in fills && f.event == c.event
  }

  /** A safe audit, in terms of the tables alone: one verified ledger per market, one cash
      fact per event, every fill processed, mapped and paired with a matching cash fact
      whose fee is known, no cash fact without a fill, and every ledger the replay of its
      fills in version order. */
  ghost predicate AuditSafe(
    inventories: multiset<InventoryFact>, fills: multiset<FillFact>, cash: multiset<CashRow>, requireKnownFees: bool)
  {
    && OneRowPerMarket(inventories)
    && (forall r :: r in inventories ==> r.accounting.V2?)
    && OneRowPerEvent(cash)
    && (forall f :: f in fills ==> FillClear(f, inventories, cash, requireKnownFees))
    && (forall c :: c in cash ==> CashClaimed(c, fills))
    && (forall r :: r in inventories ==> LedgerClear(r, fills, cash))
  }

  // ----- Rows under a key, once each ----------------------------------------

  ghost predicate DistinctMarkets(rows: seq<InventoryFact>) {
    forall i, j :: 0 <= i < j < |rows| ==> rows[i].market != rows[j].market
  }

  ghost predicate DistinctEvents(rows: seq<CashRow>) {
    forall i, j :: 0 <= i < j < |rows| ==> rows[i].event != rows[j].event
  }

  ghost predicate Distinct<T(!new)>(s: seq<T>) {
    forall i, j :: 0 <= i < j < |s| ==> s[i] != s[j]
  }

  lemma {:induction false} DistinctCounts<T(!new)>(s: seq<T>, x: T)
    requires Distinct(s)
    ensures multiset(s)[x] == if x in s then 1 else 0
    decreases |s|
  {
    if s != [] {
      DistinctCounts(s[1..], x);
      assert s == [s[0]] + s[1..];
      assert s[0] !in s[1..];
    }
  }

  lemma TwiceCounts<T>(s: seq<T>, i: nat, j: nat)
    requires i < j < |s| && s[i] == s[j]
    ensures multiset(s)[s[i]] >= 2
  {
    assert s == s[..j] + [s[j]] + s[j + 1..];
    assert s[..j][i] == s[i];
    assert s[i] in multiset(s[..j]);
  }

  lemma NoMarkets()
    ensures DistinctMarkets([])
  {
  }

  lemma NoEvents()
    ensures DistinctEvents([])
  {
  }

  lemma OneMoreMarket(rows: seq<InventoryFact>, row: InventoryFact)
    ensures DistinctMarkets(rows + [row]) <==> DistinctMarkets(rows) && forall r :: r in rows ==> r.market != row.market
  {
    var all := rows + [row];
    if DistinctMarkets(all) {
      forall i, j | 0 <= i < j < |rows| ensures rows[i].market != rows[j].market {
        assert all[i] == rows[i] && all[j] == rows[j];
      }
      forall i | 0 <= i < |rows| ensures rows[i].market != row.market {
        assert all[i] == rows[i] && all[|rows|] == row;
      }
    }
  }

  lemma OneMoreEvent(rows: seq<CashRow>, row: CashRow)
    ensures DistinctEvents(rows + [row]) <==> DistinctEvents(rows) && forall r :: r in rows ==> r.event != row.event
  {
    var all := rows + [row];
    if DistinctEvents(all) {
      forall i, j | 0 <= i < j < |rows| ensures rows[i].event != rows[j].event {
        assert all[i] == rows[i] && all[j] == rows[j];
      }
      forall i | 0 <= i < |rows| ensures rows[i].event != row.event {
        assert all[i] == rows[i] && all[|rows|] == row;
      }
    }
  }

  lemma DistinctMarketsAsMultiset(rows: seq<InventoryFact>)
    ensures DistinctMarkets(rows) <==> OneRowPerMarket(multiset(rows))
  {
    if DistinctMarkets(rows) {
      forall r, r' | r in multiset(rows) && r' in multiset(rows) && r.market == r'.market
        ensures r == r' && multiset(rows)[r] == 1
      {
        DistinctCounts(rows, r);
      }
    }
    if OneRowPerMarket(multiset(rows)) {
      forall i, j | 0 <= i < j < |rows| ensures rows[i].market != rows[j].market {
        assert rows[i] in multiset(rows) && rows[j] in multiset(rows);
        if rows[i] == rows[j] {
          TwiceCounts(rows, i, j);
        }
      }
    }
  }

  lemma DistinctEventsAsMultiset(rows: seq<CashRow>)
    ensures DistinctEvents(rows) <==> OneRowPerEvent(multiset(rows))
  {
    if DistinctEvents(rows) {
      forall r, r' | r in multiset(rows) && r' in multiset(rows) && r.event == r'.event
        ensures r == r' && multiset(rows)[r] == 1
      {
        DistinctCounts(rows, r);
      }
    }
    if OneRowPerEvent(multiset(rows)) {
      forall i, j | 0 <= i < j < |rows| ensures rows[i].event != rows[j].event {
        assert rows[i] in multiset(rows) && rows[j] in multiset(rows);
        if rows[i] == rows[j] {
          TwiceCounts(rows, i, j);
        }
      }
    }
  }

  // ----- The passes of the audit --------------------------------------------

  method IndexInventories(rows: seq<InventoryFact>)
    returns (byMarket: map<MarketId, InventoryFact>, blockers: seq<Blocker>)
    ensures forall r :: r in rows ==> r.market in byMarket
    ensures forall m :: m in byMarket ==> byMarket[m] in rows && byMarket[m].market == m
    ensures blockers == [] <==> OneRowPerMarket(multiset(rows)) && forall r :: r in rows ==> r.accounting.V2?
  {
    hide DistinctMarkets;
    byMarket, blockers := map[], [];
    NoMarkets();
    for i := 0 to |rows|
      invariant forall k :: 0 <= k < i ==> rows[k].market in byMarket
      invariant forall m :: m in byMarket ==> byMarket[m] in rows[..i] && byMarket[m].market == m
      invariant blockers == [] <==> DistinctMarkets(rows[..i]) && forall k :: 0 <= k < i ==> rows[k].accounting.V2?
    {
      var row := rows[i];
      assert rows[..i + 1] == rows[..i] + [row];
      OneMoreMarket(rows[..i], row);
      if row.market in byMarket {
        blockers := blockers + [Blocker(DuplicateInventory, Some(row.market), None)];
      }
      byMarket := byMarket[row.market := row];
      if row.accounting != V2 {
        blockers := blockers + [Blocker(UnverifiedVersion, Some(row.market), None)];
      }
    }
    assert rows[..|rows|] == rows;
    DistinctMarketsAsMultiset(rows);
  }

  method IndexCash(rows: seq<CashRow>) returns (byEvent: map<EventId, CashRow>, blockers: seq<Blocker>)
    ensures Indexes(byEvent, multiset(rows))
    ensures blockers == [] <==> OneRowPerEvent(multiset(rows))
  {
    hide DistinctEvents;
    byEvent, blockers := map[], [];
    NoEvents();
    for i := 0 to |rows|
      invariant forall k :: 0 <= k < i ==> rows[k].event in byEvent
      invariant forall e :: e in byEvent ==> byEvent[e] in rows[..i] && byEvent[e].event == e
      invariant blockers == [] <==> DistinctEvents(rows[..i])
    {
      var row := rows[i];
      assert rows[..i + 1] == rows[..i] + [row];
      OneMoreEvent(rows[..i], row);
      if row.event in byEvent {
        blockers := blockers + [Blocker(DuplicateCash, Some(row.market), Some(row.event))];
      }
      byEvent := byEvent[row.event := row];
    }
    assert rows[..|rows|] == rows;
    DistinctEventsAsMultiset(rows);
  }

  /** A blocker about a fill. */
  function About(code: Code, f: FillFact): Blocker {
    Blocker(code, f.market, Some(f.event))
  }

  /** The checks of one fill against its cash fact. */
  method CheckCash(f: FillFact, byEvent: map<EventId, CashRow>, requireKnownFees: bool) returns (blockers: seq<Blocker>)
    ensures blockers == [] <==> f.event in byEvent && CashMatches(f, byEvent[f.event], requireKnownFees)
    ensures f.event !in byEvent ==> blockers == [About(MissingCash, f)]
    ensures f.event in byEvent ==>
              var c := byEvent[f.event];
              if Some(c.market) != f.market || Some(c.side) != f.side then blockers == [About(CashIdentity, f)]
              else
                && (About(CashNotional, f) in blockers <==> !Close(c.gross, SignedNotional(f)))
                && (About(IncompleteKnownFee, f) in blockers <==> c.status.Known? && (c.fee.None? || c.net.None?))
                && (About(InvalidNetCash, f) in blockers
                    <==> c.status.Known? && c.fee.Some? && c.net.Some?
                         && (c.fee.value < 0.0 || !Close(c.net.value, c.gross - c.fee.value)))
                && (About(AmbiguousUnknownFee, f) in blockers <==> c.status.Unknown? && (c.fee.Some? || c.net.Some?))
                && (About(UnknownFee, f) in blockers <==> c.status.Unknown? && requireKnownFees)
                && (About(InvalidFeeStatus, f) in blockers <==> c.status.Unsupported?)
  {
    hide Close, SignedNotional;
    if f.event !in byEvent {
      return [Blocker(MissingCash, f.market, Some(f.event))];
    }
    var cash := byEvent[f.event];
    if Some(cash.market) != f.market || Some(cash.side) != f.side {
      return [Blocker(CashIdentity, f.market, Some(f.event))];
    }
    blockers := [];
    if !Close(cash.gross, SignedNotional(f)) {
      blockers := blockers + [Blocker(CashNotional, f.market, Some(f.event))];
    }
    if cash.status.Known? {
      if cash.fee.None? || cash.net.None? {
        blockers := blockers + [Blocker(IncompleteKnownFee, f.market, Some(f.event))];
      } else if cash.fee.value < 0.0 || !Close(cash.net.value, cash.gross - cash.fee.value) {
        blockers := blockers + [Blocker(InvalidNetCash, f.market, Some(f.event))];
      }
    } else if cash.status.Unknown? {
      if cash.fee.Some? || cash.net.Some? {
        blockers := blockers + [Blocker(AmbiguousUnknownFee, f.market, Some(f.event))];
      }
      if requireKnownFees {
        blockers := blockers + [Blocker(UnknownFee, f.market, Some(f.event))];
      }
    } else {
      blockers := blockers + [Blocker(InvalidFeeStatus, f.market, Some(f.event))];
    }
  }

  /** The rows of a market that the first pass keeps for the replay. */
  function RowsOf(fills: seq<FillFact>, market: MarketId): (rows: seq<FillFact>)
    ensures forall i :: 0 <= i < |rows| ==> Mapped(rows[i])
  {
    if fills == [] then []
    else
      var f := fills[|fills| - 1];
      RowsOf(fills[..|fills| - 1], market) + (if Mapped(f) && f.market == Some(market) then [f] else [])
  }

  predicate FillPasses(
    f: FillFact, markets: set<MarketId>, byEvent: map<EventId, CashRow>, requireKnownFees: bool)
  {
    && Mapped(f) && f.market.value in markets
    && f.event in byEvent && CashMatches(f, byEvent[f.event], requireKnownFees)
  }

  /** One row of the first pass: is it kept for the replay, and what is wrong with it? */
  method CheckFill(
    fill: FillFact, markets: set<MarketId>, byEvent: map<EventId, CashRow>, requireKnownFees: bool
  ) returns (kept: bool, blockers: seq<Blocker>)
    ensures kept <==> Mapped(fill) && fill.market.value in markets
    ensures blockers == [] <==> FillPasses(fill, markets, byEvent, requireKnownFees)
    ensures !fill.processed ==> blockers == [About(UnprocessedFill, fill)]
    ensures fill.processed && (fill.market.None? || fill.market.value !in markets) ==>
              blockers == [About(FillWithoutInventory, fill)]
    ensures fill.processed && fill.market.Some? && fill.market.value in markets ==>
              && (fill.outcome.None? || fill.side.None? ==> blockers == [About(InvalidMapping, fill)])
              && (fill.outcome.Some? && fill.side.Some? && (fill.version.None? || fill.version.value <= 0) ==>
                    blockers == [About(MissingStateVersion, fill)])
  {
    if !fill.processed {
      return false, [Blocker(UnprocessedFill, fill.market, Some(fill.event))];
    }
    if fill.market.None? || fill.market.value !in markets {
      return false, [Blocker(FillWithoutInventory, fill.market, Some(fill.event))];
    }
    if fill.outcome.None? || fill.side.None? {
      return false, [Blocker(InvalidMapping, fill.market, Some(fill.event))];
    }
    if fill.version.None? || fill.version.value <= 0 {
      return false, [Blocker(MissingStateVersion, fill.market, Some(fill.event))];
    }
    kept := true;
    blockers := CheckCash(fill, byEvent, requireKnownFees);
  }

  function Under(processed: map<MarketId, seq<FillFact>>, market: MarketId): seq<FillFact> {
    if market in processed then processed[market] else []
  }

  lemma RowsOfStep(fills: seq<FillFact>, i: nat, market: MarketId)
    requires i < |fills|
    ensures RowsOf(fills[..i + 1], market)
            == RowsOf(fills[..i], market) + (if Mapped(fills[i]) && fills[i].market == Some(market) then [fills[i]] else [])
  {
    assert fills[..i + 1][..i] == fills[..i];
  }

  lemma NoRowsOfNothing()
    ensures forall m :: RowsOf([], m) == []
  {
  }

  method CheckFills(
    fills: seq<FillFact>, markets: set<MarketId>, byEvent: map<EventId, CashRow>, requireKnownFees: bool
  ) returns (processed: map<MarketId, seq<FillFact>>, ids: set<EventId>, blockers: seq<Blocker>)
    ensures forall m :: m in markets ==> Under(processed, m) == RowsOf(fills, m)
    ensures forall e :: e in ids <==> exists i :: 0 <= i < |fills| && fills[i].event == e
    ensures blockers == [] <==> forall i :: 0 <= i < |fills| ==> FillPasses(fills[i], markets, byEvent, requireKnownFees)
  {
    hide FillPasses, RowsOf;
    processed, ids, blockers := map[], {}, [];
    NoRowsOfNothing();
    assert fills[..0] == [];
    for i := 0 to |fills|
      invariant forall m :: m in markets ==> Under(processed, m) == RowsOf(fills[..i], m)
      invariant forall e :: e in ids <==> exists k :: 0 <= k < i && fills[k].event == e
      invariant blockers == [] <==> forall k :: 0 <= k < i ==> FillPasses(fills[k], markets, byEvent, requireKnownFees)
    {
      var fill := fills[i];
      ids := ids + {fill.event};
      var kept, found := CheckFill(fill, markets, byEvent, requireKnownFees);
      forall m: MarketId ensures RowsOf(fills[..i + 1], m)
              == RowsOf(fills[..i], m) + (if Mapped(fill) && fill.market == Some(m) then [fill] else []) {
        RowsOfStep(fills, i, m);
      }
      if kept {
        processed := processed[fill.market.value := Under(processed, fill.market.value) + [fill]];
      }
      blockers := blockers + found;
    }
    assert fills[..|fills|] == fills;
  }

  method FindOrphans(rows: seq<CashRow>, ids: set<EventId>) returns (blockers: seq<Blocker>)
    ensures blockers == [] <==> forall c :: c in rows ==> c.event in ids
  {
    blockers := [];
    for i := 0 to |rows|
      invariant blockers == [] <==> forall k :: 0 <= k < i ==> rows[k].event in ids
    {
      if rows[i].event !in ids {
        blockers := blockers + [Blocker(OrphanCash, Some(rows[i].market), Some(rows[i].event))];
      }
    }
  }

  // ----- Version order ------------------------------------------------------

  predicate Before(a: FillFact, b: FillFact) {
    Version(a) < Version(b) || (Version(a) == Version(b) && a.event <= b.event)
  }

  ghost predicate Sorted(rows: seq<FillFact>) {
    forall i, j :: 0 <= i < j < |rows| ==> Before(rows[i], rows[j])
  }

  method SortByVersion(rows: seq<FillFact>) returns (sorted: seq<FillFact>)
    ensures multiset(sorted) == multiset(rows) && Sorted(sorted)
  {
    sorted := [];
    for n := 0 to |rows|
      invariant multiset(sorted) == multiset(rows[..n])
      invariant Sorted(sorted)
    {
      sorted := InsertByVersion(sorted, rows[n]);
      assert rows[..n + 1] == rows[..n] + [rows[n]];
    }
    assert rows[..|rows|] == rows;
  }

  method InsertByVersion(rows: seq<FillFact>, f: FillFact) returns (longer: seq<FillFact>)
    requires Sorted(rows)
    ensures multiset(longer) == multiset(rows) + multiset{f} && Sorted(longer)
  {
    var k := |rows|;
    while k > 0 && !Before(rows[k - 1], f)
      invariant 0 <= k <= |rows|
      invariant forall j :: k <= j < |rows| ==> Before(f, rows[j])
    {
      k := k - 1;
    }
    assert rows == rows[..k] + rows[k..];
    hide Before;
    longer := rows[..k] + [f] + rows[k..];
    InsertedIsSorted(rows, f, k);
  }

  lemma InsertedIsSorted(rows: seq<FillFact>, f: FillFact, k: nat)
    requires Sorted(rows) && k <= |rows|
    requires k > 0 ==> Before(rows[k - 1], f)
    requires forall j :: k <= j < |rows| ==> Before(f, rows[j])
    ensures Sorted(rows[..k] + [f] + rows[k..])
  {
    var longer := rows[..k] + [f] + rows[k..];
    forall j | 0 <= j < k ensures Before(rows[j], f) {
      assert j < k - 1 ==> Before(rows[j], rows[k - 1]);
    }
    hide Before;
    forall i, j | 0 <= i < j < |longer| ensures Before(longer[i], longer[j]) {
      assert j > k ==> longer[j] == rows[j - 1];
      assert i > k ==> longer[i] == rows[i - 1];
    }
  }

  /** Rows can be numbered 1, 2, 3, ... in at most one way. */
  lemma ContiguousIsUnique(a: seq<FillFact>, b: seq<FillFact>)
    requires Contiguous(a) && Contiguous(b) && multiset(a) == multiset(b)
    ensures a == b
  {
    assert |multiset(a)| == |a| && |multiset(b)| == |b|;
    forall i | 0 <= i < |a| ensures a[i] == b[i] {
      assert a[i] in multiset(b);
      var j :| 0 <= j < |b| && b[j] == a[i];
      assert j + 1 == i + 1;
    }
  }

  /** If the rows can be numbered at all, sorting them does it. */
  lemma SortedIsContiguous(sorted: seq<FillFact>, order: seq<FillFact>)
    requires forall i :: 0 <= i < |sorted| ==> Mapped(sorted[i])
    requires Sorted(sorted) && Contiguous(order) && multiset(sorted) == multiset(order)
    ensures Contiguous(sorted)
  {
    assert |multiset(sorted)| == |sorted| && |multiset(order)| == |order|;
    assert Distinct(order);
    forall i | 0 <= i < |sorted| ensures 1 <= Version(sorted[i]) <= |sorted| {
      assert sorted[i] in multiset(order);
      var k :| 0 <= k < |order| && order[k] == sorted[i];
    }
    forall i, j | 0 <= i < j < |sorted| ensures Version(sorted[i]) < Version(sorted[j]) {
      assert Before(sorted[i], sorted[j]);
      if Version(sorted[i]) == Version(sorted[j]) {
        assert sorted[i] in multiset(order) && sorted[j] in multiset(order);
        var k :| 0 <= k < |order| && order[k] == sorted[i];
        var l :| 0 <= l < |order| && order[l] == sorted[j];
        TwiceCounts(sorted, i, j);
        DistinctCounts(order, sorted[i]);
      }
    }
    forall i | 0 <= i < |sorted| ensures Version(sorted[i]) == i + 1 {
      RisingRanks(sorted, i);
    }
  }

  lemma {:induction false} RisingRanks(sorted: seq<FillFact>, i: nat)
    requires i < |sorted|
    requires forall k :: 0 <= k < |sorted| ==> 1 <= Version(sorted[k]) <= |sorted|
    requires forall a, b :: 0 <= a < b < |sorted| ==> Version(sorted[a]) < Version(sorted[b])
    ensures Version(sorted[i]) == i + 1
  {
    var k := 0;
    while k < i
      invariant k <= i && Version(sorted[k]) >= k + 1
    {
      assert Version(sorted[k]) < Version(sorted[k + 1]);
      k := k + 1;
    }
    var m := |sorted| - 1;
    while m > i
      invariant i <= m < |sorted| && Version(sorted[m]) <= m + 1
    {
      assert Version(sorted[m - 1]) < Version(sorted[m]);
      m := m - 1;
    }
  }

  method ReplayRows(rows: seq<FillFact>, byEvent: map<EventId, CashRow>) returns (r: Result<Ledger, AccountingError>)
    requires forall i :: 0 <= i < |rows| ==> Mapped(rows[i])
    ensures r == Replay(AsFills(rows, byEvent))
  {
    hide ApplyFill;
    ghost var fills := AsFills(rows, byEvent);
    var ledger := EMPTY_LEDGER;
    for i := 0 to |rows|
      invariant Replay(fills[..i]) == Success(ledger)
    {
      assert fills[..i + 1] == fills[..i] + [fills[i]];
      ReplayAppend(fills[..i], fills[i]);
      var f := AsFill(rows[i], byEvent);
      var after := ApplyFill(ledger.On(f.outcome), f.side, f.size, f.price, f.fee);
      if after.Failure? {
        FailurePersists(fills, i + 1);
        return Failure(after.error);
      }
      ledger := ledger.With(f.outcome, after.value);
    }
    assert fills[..|rows|] == fills;
    return Success(ledger);
  }

  lemma {:induction false} FailurePersists(fills: seq<Fill>, n: nat)
    requires n <= |fills| && Replay(fills[..n]).Failure?
    ensures Replay(fills) == Replay(fills[..n])
    decreases |fills| - n
  {
    if n == |fills| {
      assert fills[..n] == fills;
    } else {
      assert fills[..n + 1][..n] == fills[..n];
      FailurePersists(fills, n + 1);
    }
  }

  method CheckLedger(inventory: InventoryFact, rows: seq<FillFact>, byEvent: map<EventId, CashRow>)
    returns (blockers: seq<Blocker>)
    requires forall i :: 0 <= i < |rows| ==> Mapped(rows[i])
    ensures blockers == [] <==> exists order :: multiset(order) == multiset(rows) && Rebuilds(order, byEvent, inventory)
  {
    hide Replay, WithinAuditTolerance;
    var sorted := SortByVersion(rows);
    forall i | 0 <= i < |sorted| ensures Mapped(sorted[i]) {
      assert sorted[i] in multiset(rows);
    }
    forall order | multiset(order) == multiset(rows) && Contiguous(order) ensures order == sorted {
      SortedIsContiguous(sorted, order);
      ContiguousIsUnique(sorted, order);
    }
    if |sorted| != inventory.stateVersion || exists i | 0 <= i < |sorted| :: Version(sorted[i]) != i + 1 {
      return [Blocker(VersionGap, Some(inventory.market), None)];
    }
    var replayed := ReplayRows(sorted, byEvent);
    if replayed.Failure? {
      return [Blocker(ReplayFailed, Some(inventory.market), None)];
    }
    blockers := CompareLedgers(inventory, replayed.value);
    assert multiset(sorted) == multiset(rows) && (blockers == [] <==> Rebuilds(sorted, byEvent, inventory));
  }

  method CompareLedgers(inventory: InventoryFact, expected: Ledger) returns (blockers: seq<Blocker>)
    ensures blockers == [] <==> WithinAuditTolerance(inventory.book, expected)
  {
    var mismatch := Blocker(ReplayMismatch, Some(inventory.market), None);
    blockers := [];
    if AbsInt(inventory.book.yesExposure - expected.yesExposure) > SIZE_TOLERANCE {
      blockers := blockers + [mismatch];
    }
    if AbsInt(inventory.book.noExposure - expected.noExposure) > SIZE_TOLERANCE {
      blockers := blockers + [mismatch];
    }
    if !Close(inventory.book.yesCapital, expected.yesCapital) {
      blockers := blockers + [mismatch];
    }
    if !Close(inventory.book.noCapital, expected.noCapital) {
      blockers := blockers + [mismatch];
    }
    if !Close(inventory.book.realized, expected.realized) {
      blockers := blockers + [mismatch];
    }
  }

  ghost predicate LedgerPasses(r: InventoryFact, fills: seq<FillFact>, byEvent: map<EventId, CashRow>) {
    exists order :: multiset(order) == multiset(RowsOf(fills, r.market)) && Rebuilds(order, byEvent, r)
  }

  method CheckLedgers(
    byMarket: map<MarketId, InventoryFact>, processed: map<MarketId, seq<FillFact>>,
    byEvent: map<EventId, CashRow>, ghost fills: seq<FillFact>
  ) returns (blockers: seq<Blocker>)
    requires forall m :: m in byMarket ==> byMarket[m].market == m
    requires forall m :: m in byMarket ==> Under(processed, m) == RowsOf(fills, m)
    ensures blockers == [] <==> LedgersPass(byMarket, fills, byEvent)
  {
    hide Rebuilds, RowsOf;
    blockers := [];
    var rest := byMarket.Keys;
    while rest != {}
      invariant rest <= byMarket.Keys
      invariant blockers == [] <==>
        forall m :: m in byMarket && m !in rest && byMarket[m].accounting.V2? ==> LedgerPasses(byMarket[m], fills, byEvent)
      decreases rest
    {
      var m :| m in rest;
      rest := rest - {m};
      if byMarket[m].accounting.V2? {
        var found := CheckLedger(byMarket[m], Under(processed, m), byEvent);
        assert found == [] <==> LedgerPasses(byMarket[m], fills, byEvent);
        blockers := blockers + found;
      }
    }
  }

  // ----- The audit ----------------------------------------------------------

  /** The audit is safe exactly when the tables are consistent. The condition is on the
      tables as multisets of rows, so the order in which rows are listed never matters. */
  method AuditAccountingFacts(
    inventories: seq<InventoryFact>, fills: seq<FillFact>, cash: seq<CashRow>, requireKnownFees: bool
  ) returns (blockers: seq<Blocker>)
    ensures blockers == [] <==> AuditSafe(multiset(inventories), multiset(fills), multiset(cash), requireKnownFees)
  {
    hide Rebuilds, RowsOf, CashMatches, Mapped;
    var byMarket, first := IndexInventories(inventories);
    var byEvent, second := IndexCash(cash);
    var processed, ids, third := CheckFills(fills, byMarket.Keys, byEvent, requireKnownFees);
    var fourth := FindOrphans(cash, ids);
    var fifth := CheckLedgers(byMarket, processed, byEvent, fills);
    blockers := first + second + third + fourth + fifth;
    PassesMeanSafe(inventories, fills, cash, requireKnownFees, byMarket, byEvent);
    assert (fourth == []) <==> OrphansClear(fills, cash);
  }

  ghost predicate OrphansClear(fills: seq<FillFact>, cash: seq<CashRow>) {
    forall c :: c in cash ==> exists i :: 0 <= i < |fills| && fills[i].event == c.event
  }

  lemma {:induction false} RowsOfCounts(fills: seq<FillFact>, market: MarketId)
    requires forall i :: 0 <= i < |fills| ==> Mapped(fills[i])
    ensures OfMarket(multiset(RowsOf(fills, market)), multiset(fills), market)
    decreases |fills|
  {
    hide Mapped, OfMarket;
    if fills == [] {
      NothingOfMarket(market);
    } else {
      var init, f := fills[..|fills| - 1], fills[|fills| - 1];
      RowsOfCounts(init, market);
      assert RowsOf(fills, market) == RowsOf(init, market) + (if f.market == Some(market) then [f] else []);
      assert RowsOf(init, market) + [] == RowsOf(init, market);
      OneMoreOfMarket(multiset(RowsOf(init, market)), multiset(init), f, market);
      assert fills == init + [f];
    }
  }

  lemma NothingOfMarket(market: MarketId)
    ensures OfMarket(multiset{}, multiset{}, market)
  {
  }

  lemma OneMoreOfMarket(rows: multiset<FillFact>, fills: multiset<FillFact>, f: FillFact, market: MarketId)
    requires OfMarket(rows, fills, market)
    ensures OfMarket(if f.market == Some(market) then rows + multiset{f} else rows, fills + multiset{f}, market)
  {
  }

  lemma IndexIsUnique(a: map<EventId, CashRow>, b: map<EventId, CashRow>, cash: multiset<CashRow>)
    requires Indexes(a, cash) && Indexes(b, cash) && OneRowPerEvent(cash)
    ensures a == b
  {
    forall e ensures (e in a) == (e in b) && (e in a ==> a[e] == b[e]) {
      if e in a {
        assert a[e] in cash && a[e].event == e;
      }
      if e in b {
        assert b[e] in cash && b[e].event == e;
      }
    }
  }

  lemma FillPassesWhenClear(
    f: FillFact, inventories: seq<InventoryFact>, cash: multiset<CashRow>, requireKnownFees: bool,
    byMarket: map<MarketId, InventoryFact>, byEvent: map<EventId, CashRow>)
    requires forall r :: r in inventories ==> r.market in byMarket
    requires forall m :: m in byMarket ==> byMarket[m] in inventories && byMarket[m].market == m
    requires Indexes(byEvent, cash) && OneRowPerEvent(cash)
    ensures FillPasses(f, byMarket.Keys, byEvent, requireKnownFees)
       <==> FillClear(f, multiset(inventories), cash, requireKnownFees)
  {
    hide CashMatches;
    if FillPasses(f, byMarket.Keys, byEvent, requireKnownFees) {
      assert byMarket[f.market.value] in multiset(inventories);
      assert byEvent[f.event] in cash;
    }
    if FillClear(f, multiset(inventories), cash, requireKnownFees) {
      var c :| c in cash && c.event == f.event && CashMatches(f, c, requireKnownFees);
      assert byEvent[f.event] in cash && byEvent[f.event] == c;
      var r :| r in multiset(inventories) && Some(r.market) == f.market;
      assert r in inventories;
    }
  }

  lemma LedgerPassesWhenClear(
    r: InventoryFact, fills: seq<FillFact>, cash: multiset<CashRow>, byEvent: map<EventId, CashRow>)
    requires forall i :: 0 <= i < |fills| ==> Mapped(fills[i])
    requires Indexes(byEvent, cash) && OneRowPerEvent(cash)
    ensures LedgerPasses(r, fills, byEvent) <==> LedgerClear(r, multiset(fills), cash)
  {
    hide Rebuilds, Mapped, Indexes, OneRowPerEvent, RowsOf;
    RowsOfCounts(fills, r.market);
    var rows := multiset(RowsOf(fills, r.market));
    if LedgerPasses(r, fills, byEvent) {
      var order :| multiset(order) == rows && Rebuilds(order, byEvent, r);
      assert OfMarket(multiset(order), multiset(fills), r.market);
    }
    if LedgerClear(r, multiset(fills), cash) {
      var order, index :|
        OfMarket(multiset(order), multiset(fills), r.market) && Indexes(index, cash) && Rebuilds(order, index, r);
      IndexIsUnique(index, byEvent, cash);
      assert multiset(order) == rows;
    }
  }

  lemma PassesMeanSafe(
    inventories: seq<InventoryFact>, fills: seq<FillFact>, cash: seq<CashRow>, requireKnownFees: bool,
    byMarket: map<MarketId, InventoryFact>, byEvent: map<EventId, CashRow>)
    requires forall r :: r in inventories ==> r.market in byMarket
    requires forall m :: m in byMarket ==> byMarket[m] in inventories && byMarket[m].market == m
    requires Indexes(byEvent, multiset(cash))
    ensures AuditSafe(multiset(inventories), multiset(fills), multiset(cash), requireKnownFees)
       <==> (&& OneRowPerMarket(multiset(inventories)) && (forall r :: r in inventories ==> r.accounting.V2?)
             && OneRowPerEvent(multiset(cash))
             && (forall i :: 0 <= i < |fills| ==> FillPasses(fills[i], byMarket.Keys, byEvent, requireKnownFees))
             && OrphansClear(fills, cash)
             && LedgersPass(byMarket, fills, byEvent))
  {
    hide Rebuilds, RowsOf, CashMatches, Indexes, LedgerClear, LedgerPasses, OrphansClear, CashClaimed, OneRowPerEvent, OneRowPerMarket,
      FillPasses, FillClear, Mapped, LedgersPass;
    OrphansClaimed(fills, cash);
    if OneRowPerEvent(multiset(cash)) && OneRowPerMarket(multiset(inventories)) {
      FillsPassWhenClear(fills, inventories, multiset(cash), requireKnownFees, byMarket, byEvent);
      if forall i :: 0 <= i < |fills| ==> FillPasses(fills[i], byMarket.Keys, byEvent, requireKnownFees) {
        LedgersPassWhenClear(inventories, fills, multiset(cash), byMarket, byEvent, requireKnownFees);
      }
    }
    assert forall r :: r in inventories <==> r in multiset(inventories);
  }

  lemma FillsPassWhenClear(
    fills: seq<FillFact>, inventories: seq<InventoryFact>, cash: multiset<CashRow>, requireKnownFees: bool,
    byMarket: map<MarketId, InventoryFact>, byEvent: map<EventId, CashRow>)
    requires forall r :: r in inventories ==> r.market in byMarket
    requires forall m :: m in byMarket ==> byMarket[m] in inventories && byMarket[m].market == m
    requires Indexes(byEvent, cash) && OneRowPerEvent(cash)
    ensures (forall i :: 0 <= i < |fills| ==> FillPasses(fills[i], byMarket.Keys, byEvent, requireKnownFees))
       <==> (forall f :: f in multiset(fills) ==> FillClear(f, multiset(inventories), cash, requireKnownFees))
  {
    hide FillPasses, FillClear, Indexes, OneRowPerEvent;
    forall f: FillFact
      ensures FillPasses(f, byMarket.Keys, byEvent, requireKnownFees) <==> FillClear(f, multiset(inventories), cash, requireKnownFees)
    {
      FillPassesWhenClear(f, inventories, cash, requireKnownFees, byMarket, byEvent);
    }
    forall f | f in multiset(fills) ensures exists i :: 0 <= i < |fills| && fills[i] == f {
    }
    forall i | 0 <= i < |fills| ensures fills[i] in multiset(fills) {
    }
  }

  ghost predicate LedgersPass(
    byMarket: map<MarketId, InventoryFact>, fills: seq<FillFact>, byEvent: map<EventId, CashRow>)
  {
    forall m :: m in byMarket && byMarket[m].accounting.V2? ==> LedgerPasses(byMarket[m], fills, byEvent)
  }

  lemma OrphansClaimed(fills: seq<FillFact>, cash: seq<CashRow>)
    ensures OrphansClear(fills, cash) <==> forall c :: c in multiset(cash) ==> CashClaimed(c, multiset(fills))
  {
    forall c: CashRow ensures CashClaimed(c, multiset(fills)) <==> exists i :: 0 <= i < |fills| && fills[i].event == c.event {
      if CashClaimed(c, multiset(fills)) {
        var f :| f in multiset(fills) && f.event == c.event;
        var i :| 0 <= i < |fills| && fills[i] == f;
      }
      if i :| 0 <= i < |fills| && fills[i].event == c.event {
        assert fills[i] in multiset(fills);
      }
    }
    hide CashClaimed;
    assert forall c :: c in cash <==> c in multiset(cash);
  }

  lemma LedgersPassWhenClear(
    inventories: seq<InventoryFact>, fills: seq<FillFact>, cash: multiset<CashRow>,
    byMarket: map<MarketId, InventoryFact>, byEvent: map<EventId, CashRow>, requireKnownFees: bool)
    requires forall r :: r in inventories ==> r.market in byMarket
    requires forall m :: m in byMarket ==> byMarket[m] in inventories && byMarket[m].market == m
    requires Indexes(byEvent, cash) && OneRowPerEvent(cash) && OneRowPerMarket(multiset(inventories))
    requires forall i :: 0 <= i < |fills| ==> FillPasses(fills[i], byMarket.Keys, byEvent, requireKnownFees)
    ensures (forall r :: r in inventories ==> r.accounting.V2?) ==>
              (LedgersPass(byMarket, fills, byEvent)
               <==> forall r :: r in multiset(inventories) ==> LedgerClear(r, multiset(fills), cash))
  {
    hide Indexes, OneRowPerEvent, LedgerPasses, LedgerClear, CashMatches;
    forall i | 0 <= i < |fills| ensures Mapped(fills[i]) {
      assert FillPasses(fills[i], byMarket.Keys, byEvent, requireKnownFees);
    }
    hide Mapped, FillPasses;
    forall r: InventoryFact ensures LedgerPasses(r, fills, byEvent) <==> LedgerClear(r, multiset(fills), cash) {
      LedgerPassesWhenClear(r, fills, cash, byEvent);
    }
    forall r | r in multiset(inventories) ensures r.market in byMarket && byMarket[r.market] == r {
      assert r in inventories;
      assert byMarket[r.market] in multiset(inventories);
    }
    forall m | m in byMarket ensures byMarket[m] in multiset(inventories) {
    }
  }
}
