/** Execution fees and the immutable cash fact written beside every processed fill. */
module Fees {
  import opened Common
  import opened Accounting
  import opened Rounding

  datatype Role = Maker | Taker

  /** One explicit fee field of an exchange payload. */
  datatype FeeField = Amount(value: real) | Malformed

  datatype FeeError =
    | InvalidFeeField
    | ConflictingFeeFields
    | TakerPriceOutOfRange
    | TakerSizeNotPositive
    | FeeRateOutOfRange
    | InvalidCashPrice
    | InvalidCashSize
    | NegativeCashFee

  predicate UsableField(f: FeeField) {
    f.Amount? && f.value >= 0.0
  }

  /** The explicit fee a payload states: nothing when no field is present, an error
      when a field is unusable or two fields disagree. */
  function ExplicitFee(fields: seq<FeeField>): Result<Option<real>, FeeError> {
    if exists i | 0 <= i < |fields| :: !UsableField(fields[i]) then Failure(InvalidFeeField)
    else if fields == [] then Success(None)
    else if exists i | 0 <= i < |fields| :: AbsReal(fields[i].value - fields[0].value) > MONEY_TOLERANCE then
      Failure(ConflictingFeeFields)
    else Success(Some(fields[0].value))
  }

  method ExtractExplicitFee(fields: seq<FeeField>) returns (r: Result<Option<real>, FeeError>)
    ensures r == ExplicitFee(fields)
  {
    var values: seq<real> := [];
    for i := 0 to |fields|
      invariant |values| == i
      invariant forall j :: 0 <= j < i ==> UsableField(fields[j]) && values[j] == fields[j].value
    {
      if !UsableField(fields[i]) {
        return Failure(InvalidFeeField);
      }
      values := values + [fields[i].value];
    }
    if values == [] {
      return Success(None);
    }
    for i := 1 to |values|
      invariant forall j :: 1 <= j < i ==> AbsReal(fields[j].value - fields[0].value) <= MONEY_TOLERANCE
    {
      if AbsReal(values[i] - values[0]) > MONEY_TOLERANCE {
        return Failure(ConflictingFeeFields);
      }
    }
    return Success(Some(values[0]));
  }

  const FEE_QUANTUM: real := 10_000_000.0    // 1e-5 dollars

  /** shares * rate * price * (1 - price), before rounding. */
  function ExactTakerFee(price: int, size: int, bps: real): real {
    Part(Part(Notional(price, size), (ONE_DOLLAR - price) as real / 10_000.0), bps / 10_000.0)
  }

  function Part(x: real, fraction: real): real {
    x * fraction
  }

  function RoundHalfUp(x: real): real {
    (x / FEE_QUANTUM + 0.5).Floor as real * FEE_QUANTUM
  }

  function TakerFee(price: int, size: int, bps: real): Result<real, FeeError> {
    if price <= 0 || price >= ONE_DOLLAR then Failure(TakerPriceOutOfRange)
    else if size <= 0 then Failure(TakerSizeNotPositive)
    else if bps < 0.0 || bps > 10_000.0 then Failure(FeeRateOutOfRange)
    else Success(RoundHalfUp(ExactTakerFee(price, size, bps)))
  }

  function ResolveFee(
    fields: seq<FeeField>, role: Option<Role>, price: int, size: int, bps: Option<real>
  ): Result<Option<real>, FeeError>
  {
    var explicit :- ExplicitFee(fields);
    if explicit.Some? then Success(explicit)
    else match role
      case None => Success(None)
      case Some(Maker) => Success(Some(0.0))
      case Some(Taker) =>
        if bps.None? then Success(None)
        else
          var fee :- TakerFee(price, size, bps.value);
          Success(Some(fee))
  }

  datatype CashAmounts = CashAmounts(gross: real, fee: Option<real>, net: Option<real>)

  function BuildCashFact(side: Side, price: int, size: int, fee: Option<real>): Result<CashAmounts, FeeError> {
    if price < 0 || price > ONE_DOLLAR then Failure(InvalidCashPrice)
    else if size <= 0 then Failure(InvalidCashSize)
    else
      var notional := Notional(price, size);
      var gross := if side.Buy? then -notional else notional;
      if fee.None? then Success(CashAmounts(gross, None, None))
      else if fee.value < 0.0 then Failure(NegativeCashFee)
      else Success(CashAmounts(gross, fee, Some(gross - fee.value)))
  }

  // ----- Properties ---------------------------------------------------------

  /** A taker fee is within half a quantum of the documented formula, is never
      negative, never exceeds the notional by more than rounding, and always fits
      an eight-decimal column. */
  lemma TakerFeeIsDocumentedFee(price: int, size: int, bps: real)
    requires TakerFee(price, size, bps).Success?
    ensures var fee := TakerFee(price, size, bps).value;
            && 0.0 <= fee <= Notional(price, size) + FEE_QUANTUM / 2.0
            && AbsReal(fee - ExactTakerFee(price, size, bps)) <= FEE_QUANTUM / 2.0
            && HasEightDecimals(fee)
  {
    var exact := ExactTakerFee(price, size, bps);
    ExactTakerFeeBounds(price, size, bps);
    hide Notional, ExactTakerFee;
    RoundHalfUpError(exact);
    WholeCents8((exact / FEE_QUANTUM + 0.5).Floor);
    hide Round8, AbsReal;
  }

  lemma ExactTakerFeeBounds(price: int, size: int, bps: real)
    requires 0 <= price <= ONE_DOLLAR && 0 <= size && 0.0 <= bps <= 10_000.0
    ensures 0.0 <= ExactTakerFee(price, size, bps) <= Notional(price, size)
  {
    NotionalMonotone(price, price, 0, size);
    PartShrinks(Notional(price, size), (ONE_DOLLAR - price) as real / 10_000.0);
    PartShrinks(Part(Notional(price, size), (ONE_DOLLAR - price) as real / 10_000.0), bps / 10_000.0);
    hide Part, Notional;
  }

  lemma PartShrinks(x: real, fraction: real)
    requires x >= 0.0 && 0.0 <= fraction <= 1.0
    ensures 0.0 <= Part(x, fraction) <= x
  {
    assert x * (1.0 - fraction) >= 0.0;
  }

  lemma RoundHalfUpError(x: real)
    requires x >= 0.0
    ensures AbsReal(RoundHalfUp(x) - x) <= FEE_QUANTUM / 2.0
    ensures (x / FEE_QUANTUM + 0.5).Floor >= 0 && RoundHalfUp(x) >= 0.0
  {
    var n := (x / FEE_QUANTUM + 0.5).Floor as real;
    assert n <= x / FEE_QUANTUM + 0.5 < n + 1.0;
    assert x / FEE_QUANTUM * FEE_QUANTUM == x;
    assert (n - 0.5) * FEE_QUANTUM <= x < (n + 0.5) * FEE_QUANTUM;
  }

  lemma WholeCents8(n: int)
    requires n >= 0
    ensures HasEightDecimals(n as real * FEE_QUANTUM)
  {
    var x := n as real * FEE_QUANTUM;
    assert x / CENT8 == (n * 1000) as real;
    assert (x / CENT8 + 0.5).Floor == n * 1000;
  }

  /** The fee of a trade at price p on one token is the fee of the same size at 1 - p on the other. */
  lemma TakerFeeIsSymmetric(price: int, size: int, bps: real)
    ensures TakerFee(price, size, bps).Success? == TakerFee(ONE_DOLLAR - price, size, bps).Success?
    ensures TakerFee(price, size, bps).Success? ==>
              TakerFee(price, size, bps) == TakerFee(ONE_DOLLAR - price, size, bps)
  {
    var q := ONE_DOLLAR - price;
    NotionalAsReals(price, size);
    NotionalAsReals(q, size);
    SwapFactors(price as real, q as real, size as real);
    assert ExactTakerFee(price, size, bps) == ExactTakerFee(q, size, bps);
    hide RoundHalfUp, Notional, ExactTakerFee;
  }

  lemma NotionalAsReals(price: int, size: int)
    ensures Notional(price, size) == price as real * size as real
  {
  }

  lemma SwapFactors(p: real, q: real, s: real)
    ensures p * s * (q / 10_000.0) == q * s * (p / 10_000.0)
  {
    assert p * s * q == q * s * p;
  }

  /** A fee is known exactly when net cash is stated, and net cash is then the double-entry
      delta of the fill; an unknown fee invents neither. */
  lemma CashFactMatchesFill(outcome: Outcome, side: Side, price: int, size: int, fee: Option<real>)
    requires BuildCashFact(side, price, size, fee).Success?
    ensures var c := BuildCashFact(side, price, size, fee).value;
            && c.fee == fee
            && (c.net.Some? <==> fee.Some?)
            && (fee.Some? ==> fee.value >= 0.0
                              && c.net.value == NetCash(Fill(outcome, side, size, price, fee.value)))
            && c.gross == NetCash(Fill(outcome, side, size, price, 0.0))
  {
  }

  // ----- Which fee an execution is charged ----------------------------------

  /** No fee can be told: a field is unusable, two fields disagree, or a taker trade without a
      field has a price, size or rate no fee is defined for. */
  ghost predicate FeeUntold(fields: seq<FeeField>, role: Option<Role>, price: int, size: int, bps: Option<real>) {
    if fields != [] then
      || (exists i :: 0 <= i < |fields| && (fields[i].Malformed? || fields[i].value < 0.0))
      || (exists i :: 0 <= i < |fields| && fields[i].Amount? && fields[0].Amount?
                      && (fields[i].value - fields[0].value > 1_000.0 || fields[0].value - fields[i].value > 1_000.0))
    else
      role == Some(Taker) && bps.Some? && !(0 < price < 10_000 && size > 0 && 0.0 <= bps.value <= 10_000.0)
  }

  /** The fee of an execution: an explicit field always wins; without one a maker pays nothing, a
      taker with a rate pays size x rate x price x (1 - price) to the nearest 1e-5 dollars, and
      without a rate, or without a role, the fee is unknown. */
  ghost predicate ChargedAs(
    fields: seq<FeeField>, role: Option<Role>, price: int, size: int, bps: Option<real>, fee: Option<real>)
  {
    if fields != [] then fields[0].Amount? && fee == Some(fields[0].value)
    else match role
      case None => fee.None?
      case Some(Maker) => fee == Some(0.0)
      case Some(Taker) =>
        if bps.None? then fee.None? else fee.Some? && TakerPays(price, size, bps.value, fee.value)
  }

  /** n times 1e-5 dollars. */
  function Cents5(n: int): real { n as real * 10_000_000.0 }

  /** A whole number of 1e-5 dollars, within half of that of the formula. */
  ghost predicate TakerPays(price: int, size: int, bps: real, fee: real) {
    && fee >= 0.0
    && (exists n :: fee == Cents5(n))
    && -5_000_000.0 <= fee - (price * size) as real * ((10_000 - price) as real / 10_000.0) * (bps / 10_000.0) <= 5_000_000.0
  }

  /** Resolving a fee fails exactly when none can be told, and otherwise charges it. */
  lemma FeeIsCharged(fields: seq<FeeField>, role: Option<Role>, price: int, size: int, bps: Option<real>)
    ensures ResolveFee(fields, role, price, size, bps).Failure? <==> FeeUntold(fields, role, price, size, bps)
    ensures ResolveFee(fields, role, price, size, bps).Success? ==>
              ChargedAs(fields, role, price, size, bps, ResolveFee(fields, role, price, size, bps).value)
  {
    if fields != [] {
      ExplicitFeeWins(fields);
      hide ExplicitFee, TakerFee;
    } else if role == Some(Taker) && bps.Some? && TakerFee(price, size, bps.value).Success? {
      TakerFeeIsPaid(price, size, bps.value);
      hide TakerPays, RoundHalfUp, ExactTakerFee;
    }
  }

  lemma ExplicitFeeWins(fields: seq<FeeField>)
    requires fields != []
    ensures ExplicitFee(fields).Failure? <==> FeeUntold(fields, None, 0, 0, None)
    ensures ExplicitFee(fields).Success? ==> fields[0].Amount? && ExplicitFee(fields) == Success(Some(fields[0].value))
  {
    if ExplicitFee(fields).Success? {
      assert UsableField(fields[0]);
    }
  }

  lemma TakerFeeIsPaid(price: int, size: int, bps: real)
    requires TakerFee(price, size, bps).Success?
    ensures TakerPays(price, size, bps, TakerFee(price, size, bps).value)
  {
    TakerFeeIsDocumentedFee(price, size, bps);
    var n := (ExactTakerFee(price, size, bps) / FEE_QUANTUM + 0.5).Floor;
    assert TakerFee(price, size, bps).value == Cents5(n);
  }
}
