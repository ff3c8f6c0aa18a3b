/** Profit of a strategy from its cash flow and terminal marks, against the average-cost
    books of the same fills. */
module Evaluator {
  import opened Common
  import opened Accounting

  datatype Key = Key(market: nat, token: nat)

  datatype EvaluatedFill = EvaluatedFill(
    key: Key, executedAt: int, side: Side, price: int, size: int, fee: real)
  {
    /** What parsing a fill guarantees. */
    predicate Parsed() {
      0 < price < ONE_DOLLAR && size > 0 && fee >= 0.0
    }
  }

  /** A terminal mid price, in units of 1e-4 dollars. */
  datatype Mark = Mark(markedAt: int, mid: real)

  datatype EvaluationError = SellExceedsInventory(key: Key) | MissingMark(key: Key) | StaleMark(key: Key)

  type Books = map<Key, Balances>

  // ----- The reference: average-cost books per token ------------------------

  function BalancesOf(books: Books, key: Key): Balances {
    if key in books then books[key] else Balances(0, 0.0, 0.0)
  }

  function BookFills(fills: seq<EvaluatedFill>): Result<Books, AccountingError> {
    if fills == [] then Success(map[])
    else
      var f := fills[|fills| - 1];
      var books :- BookFills(fills[..|fills| - 1]);
      var after :- ApplyFill(BalancesOf(books, f.key), f.side, f.size, f.price, f.fee);
      Success(books[f.key := after])
  }

  function LastFillAt(fills: seq<EvaluatedFill>, key: Key): int {
    if fills == [] then 0
    else if fills[|fills| - 1].key == key then fills[|fills| - 1].executedAt
    else LastFillAt(fills[..|fills| - 1], key)
  }

  function MidOf(marks: map<Key, Mark>, key: Key): real {
    if key in marks then marks[key].mid else 0.0
  }

  function MarketValue(exposure: int, mid: real): real {
    if exposure <= 0 then 0.0 else exposure as real * mid
  }

  /** Realized profit less cost basis, token by token. */
  ghost function BookTable(books: Books, market: nat): map<nat, real> {
    map key | key in books && key.market == market :: key.token := books[key].realized - books[key].capital
  }

  /** Realized profit plus unrealized profit at the terminal mark, token by token. */
  ghost function ProfitTable(books: Books, marks: map<Key, Mark>, market: nat): map<nat, real> {
    map key | key in books && key.market == market ::
      key.token := books[key].realized + (MarketValue(books[key].exposure, MidOf(marks, key)) - books[key].capital)
  }

  ghost function ValueTable(held: map<Key, int>, marks: map<Key, Mark>, market: nat): map<nat, real> {
    map key | key in held && key.market == market :: key.token := MarketValue(held[key], MidOf(marks, key))
  }

  ghost predicate Marked(books: Books, fills: seq<EvaluatedFill>, marks: map<Key, Mark>) {
    forall key :: key in books && books[key].exposure > 0 ==>
      key in marks && marks[key].markedAt >= LastFillAt(fills, key)
  }

  // ----- The evaluator's own pass -------------------------------------------

  datatype Tally = Tally(inventory: map<Key, int>, lastFillAt: map<Key, int>, cash: map<nat, real>)

  function CashOf(cash: map<nat, real>, market: nat): real {
    if market in cash then cash[market] else 0.0
  }

  /** The tally carries the shares of the books, and each market's cash is the realized
      profit of its books less their cost basis. */
  ghost predicate Tallies(t: Tally, books: Books, fills: seq<EvaluatedFill>) {
    SharesTally(t, books, fills) && CashTallies(t.cash, books)
  }

  ghost predicate SharesTally(t: Tally, books: Books, fills: seq<EvaluatedFill>) {
    && t.inventory.Keys == t.lastFillAt.Keys == books.Keys
    && (forall key :: key in books ==>
          && t.inventory[key] == books[key].exposure && t.lastFillAt[key] == LastFillAt(fills, key)
          && books[key].exposure >= 0 && books[key].capital >= 0.0
          && (books[key].exposure == 0 ==> books[key].capital == 0.0))
  }

  ghost predicate CashTallies(cash: map<nat, real>, books: Books) {
    && (forall m :: m in cash <==> exists key :: key in books && key.market == m)
    && (forall m :: CashOf(cash, m) == Sum(BookTable(books, m)))
  }

  method TallyFills(fills: seq<EvaluatedFill>) returns (r: Result<Tally, EvaluationError>)
    requires forall i :: 0 <= i < |fills| ==> fills[i].Parsed()
    ensures r.Success? <==> BookFills(fills).Success?
    ensures r.Success? ==> Tallies(r.value, BookFills(fills).value, fills)
  {
    hide Sum, BookTable, ApplyFill, Tallies, LastFillAt;
    var inventory: map<Key, int>, lastFillAt: map<Key, int>, cash: map<nat, real> := map[], map[], map[];
    NothingTallied();
    for i := 0 to |fills|
      invariant BookFills(fills[..i]).Success?
      invariant Tallies(Tally(inventory, lastFillAt, cash), BookFills(fills[..i]).value, fills[..i])
    {
      var fill := fills[i];
      ghost var books := BookFills(fills[..i]).value;
      assert fills[..i + 1][..i] == fills[..i];
      var held := if fill.key in inventory then inventory[fill.key] else 0;
      var cashDelta;
      FillSucceedsWhenHeld(Tally(inventory, lastFillAt, cash), books, fills[..i], fill);
      if fill.side.Buy? {
        held := held + fill.size;
        cashDelta := -Notional(fill.price, fill.size) - fill.fee;
      } else {
        if fill.size > held {
          BookingFailurePersists(fills, i + 1);
          return Failure(SellExceedsInventory(fill.key));
        }
        held := MaxInt(0, held - fill.size);
        cashDelta := Notional(fill.price, fill.size) - fill.fee;
      }
      OneMoreTallied(Tally(inventory, lastFillAt, cash), fills[..i + 1], held, cashDelta);
      inventory := inventory[fill.key := held];
      lastFillAt := lastFillAt[fill.key := fill.executedAt];
      cash := cash[fill.key.market := CashOf(cash, fill.key.market) + cashDelta];
    }
    assert fills[..|fills|] == fills;
    return Success(Tally(inventory, lastFillAt, cash));
  }

  lemma NothingTallied()
    ensures Tallies(Tally(map[], map[], map[]), map[], [])
    ensures BookFills([]) == Success(map[])
  {
    forall m ensures BookTable(map[], m) == map[] {
    }
  }

  lemma {:induction false} BookingFailurePersists(fills: seq<EvaluatedFill>, n: nat)
    requires n <= |fills| && BookFills(fills[..n]).Failure?
    ensures BookFills(fills).Failure?
    decreases |fills| - n
  {
    if n == |fills| {
      assert fills[..n] == fills;
    } else {
      assert fills[..n + 1][..n] == fills[..n];
      BookingFailurePersists(fills, n + 1);
    }
  }

  /** The evaluator's only guard is the accounting's only failure. */
  lemma FillSucceedsWhenHeld(t: Tally, books: Books, fills: seq<EvaluatedFill>, f: EvaluatedFill)
    requires Tallies(t, books, fills) && f.Parsed()
    ensures var held := if f.key in t.inventory then t.inventory[f.key] else 0;
            && held == BalancesOf(books, f.key).exposure >= 0 && BalancesOf(books, f.key).capital >= 0.0
            && (ApplyFill(BalancesOf(books, f.key), f.side, f.size, f.price, f.fee).Success?
                <==> f.side.Buy? || f.size <= held)
  {
    hide Sum, BookTable, Notional, LastFillAt;
  }

  lemma OneMoreTallied(t: Tally, fills: seq<EvaluatedFill>, held: int, cashDelta: real)
    requires fills != [] && BookFills(fills).Success? && BookFills(fills[..|fills| - 1]).Success?
    requires var books, f := BookFills(fills[..|fills| - 1]).value, fills[|fills| - 1];
             && Tallies(t, books, fills[..|fills| - 1]) && f.Parsed()
             && held == (if f.side.Buy? then BalancesOf(books, f.key).exposure + f.size
                         else BalancesOf(books, f.key).exposure - f.size)
             && cashDelta == NetCash(Fill(Yes, f.side, f.size, f.price, f.fee))
    ensures var f := fills[|fills| - 1];
            Tallies(Tally(t.inventory[f.key := held], t.lastFillAt[f.key := f.executedAt],
                          t.cash[f.key.market := CashOf(t.cash, f.key.market) + cashDelta]),
                    BookFills(fills).value, fills)
  {
    hide ApplyFill, NetCash, SharesTally, CashTallies, BalancesOf;
    var init, f := fills[..|fills| - 1], fills[|fills| - 1];
    var books := BookFills(init).value;
    FillSucceedsWhenHeld(t, books, init, f);
    FillOutcome(BalancesOf(books, f.key), f);
    var after := ApplyFill(BalancesOf(books, f.key), f.side, f.size, f.price, f.fee).value;
    OneMoreShare(t, books, fills, after, t.cash[f.key.market := CashOf(t.cash, f.key.market) + cashDelta]);
    OneMoreCash(t.cash, books, f.key, after, cashDelta);
  }

  lemma FillOutcome(b: Balances, f: EvaluatedFill)
    requires b.exposure >= 0 && b.capital >= 0.0 && f.Parsed()
    requires ApplyFill(b, f.side, f.size, f.price, f.fee).Success?
    ensures var after := ApplyFill(b, f.side, f.size, f.price, f.fee).value;
            && after.exposure == (if f.side.Buy? then b.exposure + f.size else b.exposure - f.size)
            && after.exposure >= 0 && after.capital >= 0.0 && (after.exposure == 0 ==> after.capital == 0.0)
            && NetCash(Fill(Yes, f.side, f.size, f.price, f.fee))
               == (after.realized - after.capital) - (b.realized - b.capital)
  {
    hide ApplyFill, NetCash;
    FillConservesCash(b, f.side, f.size, f.price, f.fee);
  }

  lemma OneMoreShare(t: Tally, books: Books, fills: seq<EvaluatedFill>, after: Balances, cash: map<nat, real>)
    requires fills != [] && SharesTally(t, books, fills[..|fills| - 1])
    requires after.exposure >= 0 && after.capital >= 0.0 && (after.exposure == 0 ==> after.capital == 0.0)
    ensures var f := fills[|fills| - 1];
            SharesTally(Tally(t.inventory[f.key := after.exposure], t.lastFillAt[f.key := f.executedAt], cash),
                        books[f.key := after], fills)
  {
  }

  lemma OneMoreCash(cash: map<nat, real>, books: Books, key: Key, after: Balances, delta: real)
    requires CashTallies(cash, books)
    requires delta == (after.realized - after.capital) - (BalancesOf(books, key).realized - BalancesOf(books, key).capital)
    ensures CashTallies(cash[key.market := CashOf(cash, key.market) + delta], books[key := after])
  {
    hide Sum, BookTable;
    var cash', books' := cash[key.market := CashOf(cash, key.market) + delta], books[key := after];
    forall m ensures CashOf(cash', m) == Sum(BookTable(books', m)) {
      BookTableWrite(books, key, after, m);
      assert CashOf(cash', m) == CashOf(cash, m) + (if m == key.market then delta else 0.0);
    }
    forall m ensures m in cash' <==> exists k :: k in books' && k.market == m {
      if k :| k in books && k.market == m {
        assert k in books';
      }
      assert key in books';
    }
  }

  lemma BookTableWrite(books: Books, key: Key, after: Balances, m: nat)
    ensures var b := BalancesOf(books, key);
            Sum(BookTable(books[key := after], m))
            == Sum(BookTable(books, m))
               + (if m == key.market then (after.realized - after.capital) - (b.realized - b.capital) else 0.0)
  {
    if m == key.market {
      assert BookTable(books[key := after], m) == BookTable(books, m)[key.token := after.realized - after.capital];
      SumWrite(BookTable(books, m), key.token, after.realized - after.capital);
      assert (key.token in BookTable(books, m)) == (key in books) by {
        if key.token in BookTable(books, m) {
          var other :| other in books && other.market == m && other.token == key.token;
          assert other == key;
        }
      }
    } else {
      assert BookTable(books[key := after], m) == BookTable(books, m);
    }
  }

  // ----- Terminal marks -----------------------------------------------------

  method ValueInventory(inventory: map<Key, int>, lastFillAt: map<Key, int>, marks: map<Key, Mark>)
    returns (r: Result<map<nat, real>, EvaluationError>)
    requires inventory.Keys == lastFillAt.Keys
    ensures r.Success? <==> forall key :: key in inventory && inventory[key] > 0 ==>
                              key in marks && marks[key].markedAt >= lastFillAt[key]
    ensures r.Success? ==> forall m :: CashOf(r.value, m) == Sum(ValueTable(inventory, marks, m))
  {
    hide Sum, ValueTable;
    var value: map<nat, real> := map[];
    var rest := inventory.Keys;
    ghost var done: map<Key, int> := map[];
    NothingValued(marks);
    while rest != {}
      invariant rest <= inventory.Keys && done.Keys == inventory.Keys - rest
      invariant forall key :: key in done ==>
        && done[key] == inventory[key]
        && (inventory[key] > 0 ==> key in marks && marks[key].markedAt >= lastFillAt[key])
      invariant forall m :: CashOf(value, m) == Sum(ValueTable(done, marks, m))
      decreases rest
    {
      var key :| key in rest;
      rest := rest - {key};
      var held := inventory[key];
      forall m ensures Sum(ValueTable(done[key := held], marks, m))
          == Sum(ValueTable(done, marks, m)) + (if m == key.market then MarketValue(held, MidOf(marks, key)) else 0.0) {
        ValueTableWrite(done, key, held, marks, m);
      }
      done := done[key := held];
      if held <= 0 {
        assert forall m :: Sum(ValueTable(done, marks, m)) == CashOf(value, m);
        continue;
      }
      if key !in marks {
        return Failure(MissingMark(key));
      }
      if marks[key].markedAt < lastFillAt[key] {
        return Failure(StaleMark(key));
      }
      var worth := held as real * marks[key].mid;
      assert MarketValue(held, MidOf(marks, key)) == worth;
      AddedToMarket(value, key.market, worth);
      assert forall m :: Sum(ValueTable(done, marks, m)) == CashOf(value, m) + (if m == key.market then worth else 0.0);
      value := value[key.market := CashOf(value, key.market) + worth];
    }
    assert done == inventory;
    return Success(value);
  }

  lemma AddedToMarket(value: map<nat, real>, market: nat, amount: real)
    ensures forall m :: CashOf(value[market := CashOf(value, market) + amount], m)
                        == CashOf(value, m) + (if m == market then amount else 0.0)
  {
  }

  lemma NothingValued(marks: map<Key, Mark>)
    ensures forall m :: Sum(ValueTable(map[], marks, m)) == 0.0
  {
    forall m ensures ValueTable(map[], marks, m) == map[] {
    }
  }

  lemma ValueTableWrite(held: map<Key, int>, key: Key, shares: int, marks: map<Key, Mark>, m: nat)
    requires key !in held
    ensures shares <= 0 ==> MarketValue(shares, MidOf(marks, key)) == 0.0
    ensures Sum(ValueTable(held[key := shares], marks, m))
            == Sum(ValueTable(held, marks, m)) + (if m == key.market then MarketValue(shares, MidOf(marks, key)) else 0.0)
  {
    if m == key.market {
      var v := MarketValue(shares, MidOf(marks, key));
      assert ValueTable(held[key := shares], marks, m) == ValueTable(held, marks, m)[key.token := v];
      SumWrite(ValueTable(held, marks, m), key.token, v);
      assert key.token !in ValueTable(held, marks, m) by {
        forall other | other in held && other.market == m ensures other.token != key.token {
          assert other == Key(m, other.token) && key == Key(m, key.token);
        }
      }
    } else {
      assert ValueTable(held[key := shares], marks, m) == ValueTable(held, marks, m);
    }
  }

  // ----- The evaluation -----------------------------------------------------

  /** Cash plus terminal value, market by market. The evaluation succeeds exactly when the
      average-cost books of the fills exist and every open position has a mark no older
      than its last fill; each market's profit is then the realized profit of its books
      plus their unrealized profit at the terminal marks. */
  method EvaluateMarkets(fills: seq<EvaluatedFill>, marks: map<Key, Mark>)
    returns (r: Result<map<nat, real>, EvaluationError>)
    requires forall i :: 0 <= i < |fills| ==> fills[i].Parsed()
    ensures r.Success? <==> BookFills(fills).Success? && Marked(BookFills(fills).value, fills, marks)
    ensures r.Success? ==>
              forall m :: m in r.value ==> r.value[m] == Sum(ProfitTable(BookFills(fills).value, marks, m))
    ensures r.Success? ==>
              forall m :: m in r.value <==> exists key :: key in BookFills(fills).value && key.market == m
  {
    hide Sum, BookTable, ProfitTable, ValueTable, BookFills, LastFillAt, MarketValue;
    var tally :- TallyFills(fills);
    ghost var books := BookFills(fills).value;
    var valued := ValueInventory(tally.inventory, tally.lastFillAt, marks);
    if valued.Failure? {
      return Failure(valued.error);
    }
    var value := valued.value;
    forall m ensures Sum(BookTable(books, m)) + Sum(ValueTable(tally.inventory, marks, m)) == Sum(ProfitTable(books, marks, m)) {
      CashPlusValueIsProfit(books, tally.inventory, marks, m);
    }
    var profit := map m | m in tally.cash :: tally.cash[m] + CashOf(value, m);
    forall m | m in profit ensures profit[m] == Sum(ProfitTable(books, marks, m)) {
      assert profit[m] == CashOf(tally.cash, m) + CashOf(value, m);
    }
    return Success(profit);
  }

  /** Cash plus marked value is realized plus unrealized profit, for every market. */
  lemma CashPlusValueIsProfit(books: Books, inventory: map<Key, int>, marks: map<Key, Mark>, m: nat)
    requires inventory.Keys == books.Keys && forall key :: key in books ==> inventory[key] == books[key].exposure
    ensures Sum(BookTable(books, m)) + Sum(ValueTable(inventory, marks, m)) == Sum(ProfitTable(books, marks, m))
  {
    hide MarketValue;
    var a, b, c := BookTable(books, m), ValueTable(inventory, marks, m), ProfitTable(books, marks, m);
    forall token ensures (token in a) == (Key(m, token) in books) == (token in b) == (token in c) {
      if token in a {
        var key :| key in books && key.market == m && key.token == token;
        assert key == Key(m, token);
      }
      if token in b {
        var key :| key in inventory && key.market == m && key.token == token;
        assert key == Key(m, token);
      }
      if token in c {
        var key :| key in books && key.market == m && key.token == token;
        assert key == Key(m, token);
      }
      if Key(m, token) in books {
        assert Key(m, token).market == m && Key(m, token).token == token;
      }
    }
    forall token | token in a ensures c[token] == a[token] + b[token] {
      var key := Key(m, token);
      assert a[token] == books[key].realized - books[key].capital;
      assert b[token] == MarketValue(inventory[key], MidOf(marks, key));
    }
    SumAdds(a, b, c);
  }

  // ----- Drawdown -----------------------------------------------------------

  /** The largest fall of the equity curve from an earlier (or the same) point to a later one. */
  method MaximumDrawdown(equity: seq<real>) returns (worst: real)
    requires |equity| >= 2
    ensures forall i, j :: 0 <= i <= j < |equity| ==> equity[i] - equity[j] <= worst
    ensures exists i, j :: 0 <= i <= j < |equity| && equity[i] - equity[j] == worst
  {
    var peak := equity[0];
    worst := 0.0;
    ghost var peakAt, from, to := 0, 0, 0;
    for k := 0 to |equity|
      invariant 0 <= peakAt < |equity| && peakAt <= MaxInt(0, k - 1) && peak == equity[peakAt]
      invariant forall i :: 0 <= i < k ==> equity[i] <= peak
      invariant 0 <= from <= to < |equity| && equity[from] - equity[to] == worst
      invariant worst >= 0.0
      invariant forall i, j :: 0 <= i <= j < k ==> equity[i] - equity[j] <= worst
    {
      if equity[k] > peak {
        peak := equity[k];
        peakAt := k;
      }
      if peak - equity[k] > worst {
        worst := peak - equity[k];
        from, to := peakAt, k;
      }
    }
  }
}
