/** Average-cost accounting of one fill, the market ledger built from it, and
    the double-entry law that ties the ledger to the cash that moved. */
module Accounting {
  import opened Common

  datatype AccountingError =
    | NegativeBalances
    | NonPositiveSize
    | PriceOutOfRange
    | NegativeFee
    | Oversell
    | ZeroExposure

  /** One token of one market: shares held, their cost basis, and the market's realized profit. */
  datatype Balances = Balances(exposure: int, capital: real, realized: real)

  /** The balance columns of one inventory row. */
  datatype Ledger = Ledger(
    yesExposure: int, yesCapital: real,
    noExposure: int, noCapital: real,
    realized: real)
  {
    function On(outcome: Outcome): Balances {
      match outcome
      case Yes => Balances(yesExposure, yesCapital, realized)
      case No => Balances(noExposure, noCapital, realized)
    }

    function With(outcome: Outcome, b: Balances): Ledger {
      match outcome
      case Yes => this.(yesExposure := b.exposure, yesCapital := b.capital, realized := b.realized)
      case No => this.(noExposure := b.exposure, noCapital := b.capital, realized := b.realized)
    }

    function Capital(): real { yesCapital + noCapital }

    ghost predicate Sound() {
      && yesExposure >= 0 && noExposure >= 0
      && yesCapital >= 0.0 && noCapital >= 0.0
      && (yesExposure == 0 ==> yesCapital == 0.0)
      && (noExposure == 0 ==> noCapital == 0.0)
    }
  }

  const EMPTY_LEDGER := Ledger(0, 0.0, 0, 0.0, 0.0)

  datatype Fill = Fill(outcome: Outcome, side: Side, size: int, price: int, fee: real)

  /** Signed cash the fill moves: out for a purchase, in for a sale, less the fee. */
  function NetCash(f: Fill): real {
    (if f.side.Buy? then -Notional(f.price, f.size) else Notional(f.price, f.size)) - f.fee
  }

  /** On whole units of 1e-8 shares the 1e-9 share tolerance is an exact comparison. */
  function ApplyFill(b: Balances, side: Side, size: int, price: int, fee: real): Result<Balances, AccountingError> {
    if b.exposure < 0 || b.capital < -MONEY_TOLERANCE then Failure(NegativeBalances)
    else if size <= 0 then Failure(NonPositiveSize)
    else if price < 0 || price > ONE_DOLLAR then Failure(PriceOutOfRange)
    else if fee < 0.0 then Failure(NegativeFee)
    else if side.Buy? then
      Success(Balances(b.exposure + size, b.capital + Notional(price, size) + fee, b.realized))
    else if size > b.exposure then Failure(Oversell)
    else if b.exposure <= 0 then Failure(ZeroExposure)
    else
      var averageCost := b.capital / b.exposure as real;
      var removedCost := averageCost * size as real;
      var remaining := MaxInt(0, b.exposure - size);
      var capital := if remaining <= 0 then 0.0 else MaxReal(0.0, b.capital - removedCost);
      Success(Balances(remaining, capital, b.realized + (Notional(price, size) - fee - removedCost)))
  }

  function ApplyToLedger(l: Ledger, f: Fill): Result<Ledger, AccountingError> {
    var b :- ApplyFill(l.On(f.outcome), f.side, f.size, f.price, f.fee);
    Success(l.With(f.outcome, b))
  }

  /** The ledger rebuilt from scratch by applying fills in order. */
  function Replay(fills: seq<Fill>): Result<Ledger, AccountingError> {
    if fills == [] then Success(EMPTY_LEDGER)
    else
      var before :- Replay(fills[..|fills| - 1]);
      ApplyToLedger(before, fills[|fills| - 1])
  }

  function TotalNetCash(fills: seq<Fill>): real {
    if fills == [] then 0.0
    else TotalNetCash(fills[..|fills| - 1]) + NetCash(fills[|fills| - 1])
  }

  // ----- What one fill does -------------------------------------------------

  /** A part of a whole, taken at average cost, costs no more than the whole. */
  lemma AverageCostShare(capital: real, part: int, whole: int)
    requires capital >= 0.0 && 0 < part <= whole
    ensures 0.0 <= capital / whole as real * part as real <= capital
    ensures part == whole ==> capital / whole as real * part as real == capital
  {
    var average := capital / whole as real;
    assert average * whole as real == capital;
    assert average >= 0.0;
    assert average * part as real <= average * whole as real;
  }

  /** Double entry: what realized profit gains over the cost basis is exactly the cash that moved. */
  lemma FillConservesCash(b: Balances, side: Side, size: int, price: int, fee: real)
    requires b.exposure >= 0 && b.capital >= 0.0
    requires ApplyFill(b, side, size, price, fee).Success?
    ensures var after := ApplyFill(b, side, size, price, fee).value;
            && after.realized - after.capital
               == b.realized - b.capital + NetCash(Fill(Yes, side, size, price, fee))
            && after.exposure == (if side.Buy? then b.exposure + size else b.exposure - size)
            && after.exposure >= 0 && after.capital >= 0.0
            && (side.Sell? && after.exposure == 0 ==> after.capital == 0.0)
  {
    if side.Sell? {
      AverageCostShare(b.capital, size, b.exposure);
    } else {
      NotionalMonotone(price, price, 0, size);
    }
  }

  /** A sale leaves the average cost of what is still held unchanged. */
  lemma SaleKeepsAverageCost(b: Balances, size: int, price: int, fee: real)
    requires b.exposure >= 0 && b.capital >= 0.0
    requires ApplyFill(b, Sell, size, price, fee).Success?
    requires size < b.exposure
    ensures var after := ApplyFill(b, Sell, size, price, fee).value;
            after.capital * b.exposure as real == b.capital * after.exposure as real
  {
    AverageCostShare(b.capital, size, b.exposure);
    var average := b.capital / b.exposure as real;
    var after := ApplyFill(b, Sell, size, price, fee).value;
    assert after.capital == b.capital - average * size as real;
    assert b.capital == average * b.exposure as real;
    assert after.exposure as real == b.exposure as real - size as real;
    assert after.capital == average * after.exposure as real;
  }

  // ----- What a whole run of fills does -------------------------------------

  /** The same law for a market row: the other token is untouched, soundness is kept. */
  lemma LedgerConservesCash(l: Ledger, f: Fill)
    requires l.Sound() && ApplyToLedger(l, f).Success?
    ensures var after := ApplyToLedger(l, f).value;
            && after.Sound()
            && after.realized - after.Capital() == l.realized - l.Capital() + NetCash(f)
            && (f.outcome.Yes? ==> after.noExposure == l.noExposure && after.noCapital == l.noCapital)
            && (f.outcome.No? ==> after.yesExposure == l.yesExposure && after.yesCapital == l.yesCapital)
  {
    FillConservesCash(l.On(f.outcome), f.side, f.size, f.price, f.fee);
    FillSizeIsPositive(l.On(f.outcome), f.side, f.size, f.price, f.fee);
    hide ApplyFill, Notional;
  }

  lemma FillSizeIsPositive(b: Balances, side: Side, size: int, price: int, fee: real)
    requires ApplyFill(b, side, size, price, fee).Success?
    ensures size > 0 && 0 <= price <= ONE_DOLLAR && fee >= 0.0
    ensures side.Sell? ==> size <= b.exposure
  {
  }

  lemma {:induction false} ReplayIsSound(fills: seq<Fill>)
    requires Replay(fills).Success?
    ensures Replay(fills).value.Sound()
  {
    if fills != [] {
      ReplayIsSound(fills[..|fills| - 1]);
      LedgerConservesCash(Replay(fills[..|fills| - 1]).value, fills[|fills| - 1]);
      hide ApplyToLedger;
    }
  }

  /** Conservation over a run: realized profit minus cost basis is the sum of all net cash deltas. */
  lemma {:induction false} ReplayConservesCash(fills: seq<Fill>)
    requires Replay(fills).Success?
    ensures Replay(fills).value.realized - Replay(fills).value.Capital() == TotalNetCash(fills)
  {
    if fills != [] {
      var init, f := fills[..|fills| - 1], fills[|fills| - 1];
      ReplayConservesCash(init);
      ReplayIsSound(init);
      LedgerConservesCash(Replay(init).value, f);
      hide ApplyToLedger, NetCash;
    }
  }

  lemma ReplayAppend(fills: seq<Fill>, f: Fill)
    ensures Replay(fills + [f])
            == if Replay(fills).Success? then ApplyToLedger(Replay(fills).value, f)
               else Replay(fills)
  {
    assert (fills + [f])[..|fills + [f]| - 1] == fills;
  }
}
