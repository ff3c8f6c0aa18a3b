/** Which orders are admitted, in terms of the tables alone. */
module Admission {
  import opened Common
  import opened Accounting
  import opened Rows
  import opened Transactions
  import opened World
  import opened Safety
  import opened Runs
  import opened Book

  /** A token of a market. */
  predicate ListedToken(db: Db, market: MarketId, token: TokenId) {
    market in db.markets && (token == db.markets[market].yesToken || token == db.markets[market].noToken)
  }

  /** What is invested and reserved in a scope leaves room for an order. */
  ghost predicate RoomFor(db: Db, cap: real, scope: Scope, limit: int, size: int) {
    CapitalUsed(db.inventory, scope) + ActiveReserved(db.reservations, scope) + (limit * size) as real <= cap + 1_000.0
  }

  lemma NothingIsNegative(w: World, scope: Scope)
    requires Inv(w)
    ensures CapitalUsed(w.db.inventory, scope) >= 0.0 && ActiveReserved(w.db.reservations, scope) >= 0.0
  {
    hide Inv, Sum, Notional;
    InvKeys(w);
    GoodAmounts(w);
    SoundCapital(w);
    hide Consistent;
    SumNonNegative(CapitalTable(w.db.inventory, scope));
    SumNonNegative(ReservedTable(w.db.reservations, scope));
  }

  lemma SoundCapital(w: World)
    requires Inv(w)
    ensures forall m :: m in w.db.inventory ==> w.db.inventory[m].book.Capital() >= 0.0
  {
    forall m | m in w.db.inventory ensures w.db.inventory[m].book.Capital() >= 0.0 {
      assert w.db.inventory[m].book.Sound();
    }
  }

  /** In every reachable world a BUY is admitted if and only if its price and size are in range,
      its token is listed, the caps are positive, and the money it may cost fits what is left of
      both caps. An admitted order holds its whole size at its limit price; a refusal changes
      nothing. */
  lemma BuyIsGrantedIff(w: World, settings: Settings, s: Step)
    requires Inv(w) && s.ReserveBuyStep? && s.id !in w.db.reservations
    ensures var w' := Next(w, settings, s);
            && (s.id in w'.db.reservations
                <==> && 0 < s.limit < 10_000 && s.size > 0 && ListedToken(w.db, s.market, s.token)
                     && settings.globalCap > 0.0 && settings.marketCap > 0.0
                     && RoomFor(w.db, settings.globalCap, None, s.limit, s.size)
                     && RoomFor(w.db, settings.marketCap, Some(s.market), s.limit, s.size))
            && (s.id !in w'.db.reservations ==> w' == w)
            && (s.id in w'.db.reservations ==> ReservedRow(w, w', s, Buy, (s.limit * s.size) as real))
  {
    hide Inv, CapitalUsed, ActiveReserved;
    NothingIsNegative(w, None);
    NothingIsNegative(w, Some(s.market));
    CachedTotal(w);
    if s.size > 0 && 0 < s.limit {
      PositiveNotional(s.limit, s.size);
    }
    assert Notional(s.limit, s.size) == (s.limit * s.size) as real;
    hide Notional;
  }

  /** A purchase in range is refused for the cap it exceeds, the global one first. */
  lemma RefusalNamesTheCap(w: World, settings: Settings, s: Step)
    requires Inv(w) && s.ReserveBuyStep? && s.id !in w.db.reservations
    requires 0 < s.limit < 10_000 && s.size > 0 && ListedToken(w.db, s.market, s.token)
    requires settings.globalCap > 0.0 && settings.marketCap > 0.0
    ensures var answer := ReserveBuy(w.db, settings, s.id, s.market, s.token, s.limit, s.size);
            && (answer == NotGranted(GlobalBudget) <==> !RoomFor(w.db, settings.globalCap, None, s.limit, s.size))
            && (answer == NotGranted(MarketBudget)
                <==> && RoomFor(w.db, settings.globalCap, None, s.limit, s.size)
                     && !RoomFor(w.db, settings.marketCap, Some(s.market), s.limit, s.size))
  {
    hide Inv, CapitalUsed, ActiveReserved;
    NothingIsNegative(w, None);
    NothingIsNegative(w, Some(s.market));
    PositiveNotional(s.limit, s.size);
    assert Notional(s.limit, s.size) == (s.limit * s.size) as real;
    hide Notional;
  }

  /** Asking again under the same id reserves nothing twice: while the reservation holds risk the
      answer is the same grant on the same tables, and afterwards it is a refusal. */
  lemma AskingAgain(
    db: Db, settings: Settings, id: OrderId, market: MarketId, token: TokenId, limit: int, size: int)
    requires id in db.reservations && 0 < limit < 10_000 && size > 0
    ensures var r := db.reservations[id];
            var answer := if r.status.Reserved? || r.status.Opened? || r.status.Partial? || r.status.Unresolved? || r.status.CancelPending?
                          then Granted(db, r.notional) else NotGranted(TerminalClientOrderId);
            && ReserveSell(db, id, market, token, limit, size) == answer
            && (ListedToken(db, market, token) ==> ReserveBuy(db, settings, id, market, token, limit, size) == answer)
  {
    hide ActiveReserved, CapitalUsed, PromisedShares;
  }

  lemma CachedTotal(w: World)
    requires Inv(w)
    ensures w.db.reservedTotal == ActiveReserved(w.db.reservations, None)
  {
  }

  lemma PositiveNotional(price: int, size: int)
    requires price > 0 && size > 0
    ensures Notional(price, size) > 0.0
  {
    assert price * size > 0;
  }

  /** The new row, and that nothing else changes. */
  ghost predicate ReservedRow(w: World, w': World, s: Step, side: Side, money: real)
    requires s.ReserveBuyStep? || s.ReserveSellStep?
  {
    && s.id in w'.db.reservations && w'.db.reservations == w.db.reservations[s.id := w'.db.reservations[s.id]]
    && (var r := w'.db.reservations[s.id];
        && r.market == s.market && r.token == s.token && r.side == side && r.limit == s.limit
        && r.original == r.remaining == s.size && r.notional == money && r.status.Reserved? && r.exchangeId.None?)
    && w'.db == w.db.(reservations := w'.db.reservations, reservedTotal := w.db.reservedTotal + money)
    && w'.remote == w.remote[s.id := Planned] && w'.trades == w.trades && w'.pass == w.pass
  }

  /** In every reachable world a SELL is admitted if and only if its price and size are in range,
      its token is listed in a market with a ledger, and the shares that no active sale was
      promised cover it. */
  lemma SellIsGrantedIff(w: World, settings: Settings, s: Step)
    requires Inv(w) && s.ReserveSellStep? && s.id !in w.db.reservations
    ensures var w' := Next(w, settings, s);
            && (s.id in w'.db.reservations
                <==> && 0 < s.limit < 10_000 && s.size > 0 && ListedToken(w.db, s.market, s.token) && s.market in w.db.inventory
                     && (PromisedShares(w.db.reservations, s.market, s.token) + s.size as real
                         <= SharesHeld(w.db, s.market, s.token) as real))
            && (s.id !in w'.db.reservations ==> w' == w)
            && (s.id in w'.db.reservations ==> ReservedRow(w, w', s, Sell, 0.0))
  {
    hide Inv, PromisedShares, Notional, SharesHeld, ReserveSell, ListedToken;
    PositionIsHeld(w, s.market, s.token);
    PromisesNotNegative(w, s.market, s.token);
    SellAdmittedIff(w.db, s.id, s.market, s.token, s.limit, s.size);
  }

  lemma SellAdmittedIff(db: Db, id: OrderId, market: MarketId, token: TokenId, limit: int, size: int)
    requires id !in db.reservations && PromisedShares(db.reservations, market, token) >= 0.0
    requires market in db.markets && market in db.inventory ==> SharesHeld(db, market, token) >= 0
    ensures ReserveSell(db, id, market, token, limit, size).Granted?
       <==> && 0 < limit < 10_000 && size > 0 && ListedToken(db, market, token) && market in db.inventory
            && PromisedShares(db.reservations, market, token) + size as real <= SharesHeld(db, market, token) as real
    ensures ReserveSell(db, id, market, token, limit, size).Granted? ==>
              ReserveSell(db, id, market, token, limit, size).db
              == db.(reservations := db.reservations[id := NewReservation(market, token, Sell, limit, size)])
  {
    hide PromisedShares, Notional;
  }

  /** The shares of a token its market's ledger holds. */
  function SharesHeld(db: Db, market: MarketId, token: TokenId): int
    requires market in db.markets && market in db.inventory
  {
    if token == db.markets[market].yesToken then db.inventory[market].book.yesExposure else db.inventory[market].book.noExposure
  }

  lemma PositionIsHeld(w: World, m: MarketId, t: TokenId)
    requires Inv(w)
    ensures m in w.db.inventory && m in w.db.markets ==> SharesHeld(w.db, m, t) >= 0
  {
    if m in w.db.inventory {
      assert w.db.inventory[m].book.Sound();
    }
  }

  lemma PromisesNotNegative(w: World, m: MarketId, t: TokenId)
    requires Inv(w)
    ensures PromisedShares(w.db.reservations, m, t) >= 0.0
  {
    hide Inv, Sum;
    InvKeys(w);
    GoodAmounts(w);
    hide Consistent;
    SumNonNegative(PromisedTable(w.db.reservations, m, t));
  }
}
