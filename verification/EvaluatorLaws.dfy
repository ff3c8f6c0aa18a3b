/** The profit of an evaluation from the fills and the marks alone: what was paid and collected, and
    what is left at its terminal mark. */
module EvaluatorLaws {
  import opened Common
  import opened Accounting
  import opened Evaluator

  /** Shares of a token bought less shares sold. */
  function Held(fills: seq<EvaluatedFill>, key: Key): int {
    if fills == [] then 0
    else
      var f := fills[|fills| - 1];
      Held(fills[..|fills| - 1], key) + (if f.key != key then 0 else if f.side.Buy? then f.size else -f.size)
  }

  /** Dollars collected in a market less dollars paid, fees included. */
  function CashFlow(fills: seq<EvaluatedFill>, market: nat): real {
    if fills == [] then 0.0
    else
      var f := fills[|fills| - 1];
      CashFlow(fills[..|fills| - 1], market)
      + (if f.key.market != market then 0.0
         else (if f.side.Buy? then -((f.price * f.size) as real) else (f.price * f.size) as real) - f.fee)
  }

  ghost predicate AllParsed(fills: seq<EvaluatedFill>) {
    forall i :: 0 <= i < |fills| ==> fills[i].Parsed()
  }

  /** No sale exceeds what its token holds at that moment. */
  ghost predicate NothingSoldShort(fills: seq<EvaluatedFill>) {
    forall i :: 0 <= i < |fills| && fills[i].side.Sell? ==> fills[i].size <= Held(fills[..i], fills[i].key)
  }

  ghost predicate Traded(fills: seq<EvaluatedFill>, key: Key) {
    exists i :: 0 <= i < |fills| && fills[i].key == key
  }

  /** The books of fills: who is in them, what each holds, and what each market's books owe to cash. */
  ghost predicate BooksOf(books: Books, fills: seq<EvaluatedFill>) {
    && (forall key :: key in books <==> Traded(fills, key))
    && (forall key :: BalancesOf(books, key).exposure == Held(fills, key) >= 0 && BalancesOf(books, key).capital >= 0.0)
    && (forall m :: Sum(BookTable(books, m)) == CashFlow(fills, m))
  }

  lemma NoBooks()
    ensures BooksOf(map[], [])
  {
    forall m ensures BookTable(map[], m) == map[] {
    }
  }

  lemma OneMoreFill(books: Books, fills: seq<EvaluatedFill>, f: EvaluatedFill)
    requires BooksOf(books, fills) && f.Parsed()
    requires ApplyFill(BalancesOf(books, f.key), f.side, f.size, f.price, f.fee).Success?
    ensures BooksOf(books[f.key := ApplyFill(BalancesOf(books, f.key), f.side, f.size, f.price, f.fee).value], fills + [f])
  {
    var b := BalancesOf(books, f.key);
    var after := ApplyFill(b, f.side, f.size, f.price, f.fee).value;
    FillOutcome(b, f);
    NetCashIs(f);
    hide ApplyFill, Sum, BookTable, NetCash;
    var all, books' := fills + [f], books[f.key := after];
    assert all[..|fills|] == fills;
    forall key ensures key in books' <==> Traded(all, key) {
      TradedOneMore(fills, f, key);
    }
    hide Traded;
    forall key ensures BalancesOf(books', key).exposure == Held(all, key) >= 0 && BalancesOf(books', key).capital >= 0.0 {
      assert BalancesOf(books, key).exposure == Held(fills, key);
    }
    forall m ensures Sum(BookTable(books', m)) == CashFlow(all, m) {
      BookTableWrite(books, f.key, after, m);
      assert Sum(BookTable(books, m)) == CashFlow(fills, m);
    }
  }

  lemma NetCashIs(f: EvaluatedFill)
    ensures NetCash(Fill(Yes, f.side, f.size, f.price, f.fee))
            == (if f.side.Buy? then -((f.price * f.size) as real) else (f.price * f.size) as real) - f.fee
  {
  }

  lemma TradedOneMore(fills: seq<EvaluatedFill>, f: EvaluatedFill, key: Key)
    ensures Traded(fills + [f], key) <==> f.key == key || Traded(fills, key)
  {
    var all := fills + [f];
    if f.key == key {
      assert all[|fills|].key == key;
    }
    if i :| 0 <= i < |fills| && fills[i].key == key {
      assert all[i].key == key;
    }
  }

  /** The average-cost books of fills exist exactly if nothing is sold short; then they hold what was
      bought less what was sold, and realized profit less cost basis is the cash of each market. */
  lemma {:induction false} BookFillsIff(fills: seq<EvaluatedFill>)
    requires AllParsed(fills)
    ensures BookFills(fills).Success? <==> NothingSoldShort(fills)
    ensures BookFills(fills).Success? ==> BooksOf(BookFills(fills).value, fills)
    decreases |fills|
  {
    hide BooksOf, ApplyFill;
    if fills == [] {
      NoBooks();
    } else {
      var n := |fills| - 1;
      var init, f := fills[..n], fills[n];
      BookFillsIff(init);
      ShortOneMore(init, f);
      assert init + [f] == fills;
      if BookFills(init).Success? {
        var books := BookFills(init).value;
        SucceedsIfHeld(books, init, f);
        if ApplyFill(BalancesOf(books, f.key), f.side, f.size, f.price, f.fee).Success? {
          OneMoreFill(books, init, f);
        }
      }
    }
  }

  lemma SucceedsIfHeld(books: Books, fills: seq<EvaluatedFill>, f: EvaluatedFill)
    requires BooksOf(books, fills) && f.Parsed()
    ensures ApplyFill(BalancesOf(books, f.key), f.side, f.size, f.price, f.fee).Success?
       <==> f.side.Buy? || f.size <= Held(fills, f.key)
  {
    hide Held, CashFlow, BookTable, Sum, Notional;
    assert BalancesOf(books, f.key).exposure == Held(fills, f.key);
  }

  lemma ShortOneMore(fills: seq<EvaluatedFill>, f: EvaluatedFill)
    ensures NothingSoldShort(fills + [f])
       <==> NothingSoldShort(fills) && (f.side.Sell? ==> f.size <= Held(fills, f.key))
  {
    var all := fills + [f];
    assert all[..|fills|] == fills;
    forall i | 0 <= i < |fills| ensures all[i] == fills[i] && all[..i] == fills[..i] {
    }
    hide Held;
    if NothingSoldShort(all) {
      assert all[|fills|] == f;
      forall i | 0 <= i < |fills| && fills[i].side.Sell? ensures fills[i].size <= Held(fills[..i], fills[i].key) {
        assert all[i] == fills[i];
      }
    }
  }

  // ----- Marks --------------------------------------------------------------

  /** A mark taken no earlier than the last fill of its token. */
  ghost predicate FreshFor(mark: Mark, fills: seq<EvaluatedFill>, key: Key) {
    exists i :: 0 <= i < |fills| && fills[i].key == key && fills[i].executedAt <= mark.markedAt
                && forall j :: i < j < |fills| ==> fills[j].key != key
  }

  lemma FreshOneMore(mark: Mark, fills: seq<EvaluatedFill>, key: Key)
    requires fills != [] && fills[|fills| - 1].key != key
    ensures FreshFor(mark, fills, key) <==> FreshFor(mark, fills[..|fills| - 1], key)
  {
    var n := |fills| - 1;
    var init := fills[..n];
    if FreshFor(mark, fills, key) {
      var k :| 0 <= k < |fills| && fills[k].key == key && fills[k].executedAt <= mark.markedAt
               && forall j :: k < j < |fills| ==> fills[j].key != key;
      assert init[k] == fills[k];
    }
    if FreshFor(mark, init, key) {
      var k :| 0 <= k < n && init[k].key == key && init[k].executedAt <= mark.markedAt
               && forall j :: k < j < n ==> init[j].key != key;
      assert fills[k] == init[k];
      forall j | k < j < |fills| ensures fills[j].key != key {
        assert j < n ==> fills[j] == init[j];
      }
    }
  }

  lemma {:induction false} FreshIff(mark: Mark, fills: seq<EvaluatedFill>, key: Key)
    requires Traded(fills, key)
    ensures FreshFor(mark, fills, key) <==> LastFillAt(fills, key) <= mark.markedAt
    decreases |fills|
  {
    if fills != [] {
      var n := |fills| - 1;
      var init := fills[..n];
      if fills[n].key != key {
        var i :| 0 <= i < |fills| && fills[i].key == key;
        assert init[i].key == key;
        FreshIff(mark, init, key);
        FreshOneMore(mark, fills, key);
      } else if FreshFor(mark, fills, key) {
        var k :| 0 <= k < |fills| && fills[k].key == key && fills[k].executedAt <= mark.markedAt
                 && forall j :: k < j < |fills| ==> fills[j].key != key;
        assert k == n;
      }
    }
  }

  // ----- Profit -------------------------------------------------------------

  /** What is left of each token of a market, at its mark. */
  ghost function WorthTable(fills: seq<EvaluatedFill>, marks: map<Key, Mark>, books: Books, market: nat): map<nat, real> {
    map key | key in books && key.market == market ::
      key.token := if Held(fills, key) > 0 && key in marks then Held(fills, key) as real * marks[key].mid else 0.0
  }

  /** An evaluation succeeds exactly when nothing is sold short and every token that is left has a mark
      no older than its last fill; the profit of a market is then the cash that it moved plus what is
      left of its tokens at their marks. */
  lemma ProfitIsCashPlusWorth(fills: seq<EvaluatedFill>, marks: map<Key, Mark>)
    requires AllParsed(fills)
    ensures BookFills(fills).Success? && Marked(BookFills(fills).value, fills, marks)
       <==> && NothingSoldShort(fills)
            && forall key :: Held(fills, key) > 0 ==> key in marks && FreshFor(marks[key], fills, key)
    ensures BookFills(fills).Success? && Marked(BookFills(fills).value, fills, marks) ==>
              var books := BookFills(fills).value;
              && (forall key :: key in books <==> Traded(fills, key))
              && forall m :: Sum(ProfitTable(books, marks, m)) == CashFlow(fills, m) + Sum(WorthTable(fills, marks, books, m))
  {
    hide Sum, BookTable, ProfitTable, WorthTable, BooksOf, NothingSoldShort, CashFlow, Held, FreshFor, Marked, BookFills, Traded;
    BookFillsIff(fills);
    if BookFills(fills).Success? {
      var books := BookFills(fills).value;
      MarkedIff(books, fills, marks);
      MembersAre(books, fills);
      if Marked(books, fills, marks) {
        forall m ensures Sum(ProfitTable(books, marks, m)) == CashFlow(fills, m) + Sum(WorthTable(fills, marks, books, m)) {
          OneMarket(books, fills, marks, m);
        }
      }
    }
  }

  lemma MembersAre(books: Books, fills: seq<EvaluatedFill>)
    requires BooksOf(books, fills)
    ensures forall key :: key in books <==> Traded(fills, key)
  {
  }

  lemma MarkedIff(books: Books, fills: seq<EvaluatedFill>, marks: map<Key, Mark>)
    requires BooksOf(books, fills)
    ensures Marked(books, fills, marks)
       <==> forall key :: Held(fills, key) > 0 ==> key in marks && FreshFor(marks[key], fills, key)
  {
    hide Sum, BookTable, CashFlow, Held, FreshFor, Traded, LastFillAt;
    forall key | Held(fills, key) > 0
      ensures key in books && books[key].exposure == Held(fills, key)
      ensures key in marks ==> (FreshFor(marks[key], fills, key) <==> LastFillAt(fills, key) <= marks[key].markedAt)
    {
      assert BalancesOf(books, key).exposure == Held(fills, key);
      if key in marks {
        FreshIff(marks[key], fills, key);
      }
    }
    forall key | key in books ensures books[key].exposure == Held(fills, key) {
      assert BalancesOf(books, key).exposure == Held(fills, key);
    }
  }

  lemma OneMarket(books: Books, fills: seq<EvaluatedFill>, marks: map<Key, Mark>, m: nat)
    requires BooksOf(books, fills) && Marked(books, fills, marks)
    ensures Sum(ProfitTable(books, marks, m)) == CashFlow(fills, m) + Sum(WorthTable(fills, marks, books, m))
  {
    hide Sum, BookTable, CashFlow, ProfitTable, Held;
    var inventory := map key | key in books :: books[key].exposure;
    CashPlusValueIsProfit(books, inventory, marks, m);
    forall key | key in books ensures inventory[key] == Held(fills, key) {
      assert BalancesOf(books, key).exposure == Held(fills, key);
    }
    SameWorth(books, inventory, fills, marks, m);
  }

  lemma SameWorth(books: Books, inventory: map<Key, int>, fills: seq<EvaluatedFill>, marks: map<Key, Mark>, m: nat)
    requires inventory.Keys == books.Keys && forall key :: key in books ==> inventory[key] == Held(fills, key)
    requires forall key :: key in books && books[key].exposure > 0 ==> key in marks
    requires forall key :: key in books ==> inventory[key] == books[key].exposure
    ensures ValueTable(inventory, marks, m) == WorthTable(fills, marks, books, m)
  {
    hide Held;
    var a, b := ValueTable(inventory, marks, m), WorthTable(fills, marks, books, m);
    forall token ensures (token in a) == (Key(m, token) in books) == (token in b) {
      if token in a {
        var key :| key in inventory && key.market == m && key.token == token;
        assert key == Key(m, token);
      }
      if token in b {
        var key :| key in books && key.market == m && key.token == token;
        assert key == Key(m, token);
      }
      if Key(m, token) in books {
        assert Key(m, token).market == m && Key(m, token).token == token;
      }
    }
    forall token | token in a ensures a[token] == b[token] {
      assert Key(m, token) in books;
    }
  }
}
