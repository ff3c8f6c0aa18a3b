/** The stored ledger against the unrounded one.

    Balance columns keep eight decimals, so every transaction rounds the cost
    bases and the realized profit it writes, while the audit replays the same
    fills without rounding. The error between the two must stay inside the
    audit's tolerance. */
module Rounding {
  import opened Common
  import opened Accounting

  const CENT8: real := 10_000.0              // 1e-8 dollars
  const AUDIT_TOLERANCE: real := 1_000_000.0 // 1e-6 dollars

  /** Round half away from zero to eight decimals, as a numeric column does. */
  function Round8(x: real): real {
    if x >= 0.0 then (x / CENT8 + 0.5).Floor as real * CENT8
    else -((-x / CENT8 + 0.5).Floor as real * CENT8)
  }

  lemma Round8Error(x: real)
    ensures AbsReal(Round8(x) - x) <= 5_000.0
    ensures x >= 0.0 ==> Round8(x) >= 0.0
    ensures x == 0.0 ==> Round8(x) == 0.0
  {
    var y := AbsReal(x);
    var n := (y / CENT8 + 0.5).Floor as real;
    assert n <= y / CENT8 + 0.5 < n + 1.0;
    assert y / CENT8 * CENT8 == y;
    assert (n - 0.5) * CENT8 <= y;
    assert y < (n + 0.5) * CENT8;
  }

  /** A multiple of 1e-8 dollars survives the trip through a column. */
  ghost predicate HasEightDecimals(x: real) {
    Round8(x) == x
  }

  function RoundColumns(l: Ledger): Ledger {
    l.(yesCapital := Round8(l.yesCapital), noCapital := Round8(l.noCapital), realized := Round8(l.realized))
  }

  /** What one fill transaction commits. */
  function StoreFill(l: Ledger, f: Fill): Result<Ledger, AccountingError> {
    var after :- ApplyToLedger(l, f);
    Success(RoundColumns(after))
  }

  function StoreFills(fills: seq<Fill>): Result<Ledger, AccountingError> {
    if fills == [] then Success(EMPTY_LEDGER)
    else
      var before :- StoreFills(fills[..|fills| - 1]);
      StoreFill(before, fills[|fills| - 1])
  }

  /** The fills as the cash ledger kept them: the fee column is rounded too. */
  function AsRecorded(fills: seq<Fill>): (r: seq<Fill>)
    ensures |r| == |fills|
  {
    seq(|fills|, i requires 0 <= i < |fills| => fills[i].(fee := Round8(fills[i].fee)))
  }

  function LedgerError(stored: Ledger, exact: Ledger): real {
    AbsReal(stored.yesCapital - exact.yesCapital)
    + AbsReal(stored.noCapital - exact.noCapital)
    + AbsReal(stored.realized - exact.realized)
  }

  ghost predicate SameShares(a: Ledger, b: Ledger) {
    a.yesExposure == b.yesExposure && a.noExposure == b.noExposure
  }

  /** Balances as a column holds them. */
  ghost predicate Columns(l: Ledger) {
    HasEightDecimals(l.yesCapital) && HasEightDecimals(l.noCapital) && HasEightDecimals(l.realized)
  }

  /** Selling a fraction of a position moves that fraction of the cost error into
      realized profit; it does not enlarge the sum of the two. */
  lemma SaleRedistributesError(e: real, p: real, fraction: real)
    requires 0.0 <= fraction <= 1.0
    ensures AbsReal(e - e * fraction) + AbsReal(p - e * fraction) <= AbsReal(e) + AbsReal(p)
  {
    var kept, moved := e - e * fraction, e * fraction;
    assert kept == e * (1.0 - fraction);
    if e >= 0.0 {
      assert kept >= 0.0 && moved >= 0.0;
    } else {
      assert kept <= 0.0 && moved <= 0.0;
    }
  }

  /** A sale as a fraction of the position: that fraction of the cost basis leaves. */
  lemma SaleTakesFraction(b: Balances, size: int, price: int, fee: real)
    requires b.exposure >= 0 && b.capital >= 0.0
    requires ApplyFill(b, Sell, size, price, fee).Success?
    ensures 0 < size <= b.exposure
    ensures var after := ApplyFill(b, Sell, size, price, fee).value;
            var fraction := size as real / b.exposure as real;
            && 0.0 <= fraction <= 1.0
            && after.exposure == b.exposure - size
            && after.capital == b.capital - b.capital * fraction
            && after.realized == b.realized + Notional(price, size) - fee - b.capital * fraction
  {
    AverageCostShare(b.capital, size, b.exposure);
    FractionAtMostOne(size, b.exposure);
    ShareIsFraction(b.capital, size, b.exposure);
    hide Notional;
  }

  lemma FractionAtMostOne(part: int, whole: int)
    requires 0 < part <= whole
    ensures 0.0 <= part as real / whole as real <= 1.0
  {
  }

  lemma ShareIsFraction(capital: real, part: int, whole: int)
    requires 0 < part <= whole
    ensures capital / whole as real * part as real == capital * (part as real / whole as real)
  {
  }

  /** One unrounded fill, applied to two positions that hold the same shares, does not
      enlarge the error between them, and succeeds on both or on neither. */
  lemma FillDoesNotEnlargeError(a: Balances, b: Balances, f: Fill)
    requires a.exposure == b.exposure >= 0 && a.capital >= 0.0 && b.capital >= 0.0
    ensures var x := ApplyFill(a, f.side, f.size, f.price, f.fee);
            var y := ApplyFill(b, f.side, f.size, f.price, f.fee);
            && x.Success? == y.Success?
            && (x.Success? ==>
                  && x.value.exposure == y.value.exposure
                  && AbsReal(x.value.capital - y.value.capital) + AbsReal(x.value.realized - y.value.realized)
                     <= AbsReal(a.capital - b.capital) + AbsReal(a.realized - b.realized))
  {
    hide ApplyFill;
    SameShapeSameVerdict(a, b, f);
    if ApplyFill(a, f.side, f.size, f.price, f.fee).Success? {
      if f.side.Sell? {
        SaleDoesNotEnlargeError(a, b, f);
      } else {
        PurchaseDoesNotEnlargeError(a, b, f);
      }
    }
  }

  lemma PurchaseDoesNotEnlargeError(a: Balances, b: Balances, f: Fill)
    requires a.exposure == b.exposure && f.side.Buy?
    requires ApplyFill(a, f.side, f.size, f.price, f.fee).Success? && ApplyFill(b, f.side, f.size, f.price, f.fee).Success?
    ensures var x, y := ApplyFill(a, f.side, f.size, f.price, f.fee).value, ApplyFill(b, f.side, f.size, f.price, f.fee).value;
            && x.exposure == y.exposure
            && x.capital - y.capital == a.capital - b.capital && x.realized - y.realized == a.realized - b.realized
  {
    hide Notional;
  }

  lemma SaleDoesNotEnlargeError(a: Balances, b: Balances, f: Fill)
    requires a.exposure == b.exposure >= 0 && a.capital >= 0.0 && b.capital >= 0.0 && f.side.Sell?
    requires ApplyFill(a, f.side, f.size, f.price, f.fee).Success? && ApplyFill(b, f.side, f.size, f.price, f.fee).Success?
    ensures var x, y := ApplyFill(a, f.side, f.size, f.price, f.fee).value, ApplyFill(b, f.side, f.size, f.price, f.fee).value;
            && x.exposure == y.exposure
            && AbsReal(x.capital - y.capital) + AbsReal(x.realized - y.realized)
               <= AbsReal(a.capital - b.capital) + AbsReal(a.realized - b.realized)
  {
    hide ApplyFill, Notional, AbsReal;
    SaleTakesFraction(a, f.size, f.price, f.fee);
    SaleTakesFraction(b, f.size, f.price, f.fee);
    var fraction := f.size as real / a.exposure as real;
    var proceeds := Notional(f.price, f.size) - f.fee;
    var x, y := ApplyFill(a, f.side, f.size, f.price, f.fee).value, ApplyFill(b, f.side, f.size, f.price, f.fee).value;
    assert x.realized == a.realized + proceeds - a.capital * fraction;
    assert y.realized == b.realized + proceeds - b.capital * fraction;
    SaleMovesDifference(a, b, fraction, proceeds);
  }

  /** The arithmetic of one sale on two positions. */
  lemma SaleMovesDifference(a: Balances, b: Balances, fraction: real, proceeds: real)
    requires 0.0 <= fraction <= 1.0
    ensures AbsReal((a.capital - a.capital * fraction) - (b.capital - b.capital * fraction))
            + AbsReal((a.realized + proceeds - a.capital * fraction) - (b.realized + proceeds - b.capital * fraction))
            <= AbsReal(a.capital - b.capital) + AbsReal(a.realized - b.realized)
  {
    Distribute(a.capital, b.capital, fraction);
    SaleRedistributesError(a.capital - b.capital, a.realized - b.realized, fraction);
    var p, q := a.capital * fraction, b.capital * fraction;
    assert (a.capital - p) - (b.capital - q) == (a.capital - b.capital) - (p - q);
    assert (a.realized + proceeds - p) - (b.realized + proceeds - q) == (a.realized - b.realized) - (p - q);
    hide AbsReal;
  }

  lemma SameShapeSameVerdict(a: Balances, b: Balances, f: Fill)
    requires a.exposure == b.exposure >= 0 && a.capital >= 0.0 && b.capital >= 0.0
    ensures ApplyFill(a, f.side, f.size, f.price, f.fee).Success?
        <==> ApplyFill(b, f.side, f.size, f.price, f.fee).Success?
  {
  }

  lemma Distribute(a: real, b: real, fraction: real)
    ensures (a - b) * fraction == a * fraction - b * fraction
  {
  }

  /** The unrounded step: the same verdict on both rows, and the whole-row error does not grow. */
  lemma StepDoesNotEnlargeError(stored: Ledger, exact: Ledger, f: Fill)
    requires stored.Sound() && exact.Sound() && SameShares(stored, exact)
    ensures ApplyToLedger(stored, f).Success? <==> ApplyToLedger(exact, f).Success?
    ensures ApplyToLedger(exact, f).Success? ==>
              var s, x := ApplyToLedger(stored, f).value, ApplyToLedger(exact, f).value;
              SameShares(s, x) && LedgerError(s, x) <= LedgerError(stored, exact)
  {
    FillDoesNotEnlargeError(stored.On(f.outcome), exact.On(f.outcome), f);
    hide ApplyFill;
  }

  /** Rounding a row two of whose money columns were touched moves it by at most 1e-8 dollars. */
  lemma RoundingOneFill(raw: Ledger, exact: Ledger)
    requires raw.Sound()
    requires HasEightDecimals(raw.yesCapital) || HasEightDecimals(raw.noCapital)
    ensures RoundColumns(raw).Sound() && Columns(RoundColumns(raw))
    ensures LedgerError(RoundColumns(raw), exact) <= LedgerError(raw, exact) + CENT8
  {
    RoundOneColumn(raw.yesCapital, exact.yesCapital);
    RoundOneColumn(raw.noCapital, exact.noCapital);
    RoundOneColumn(raw.realized, exact.realized);
    hide Round8, AbsReal;
  }

  lemma RoundOneColumn(x: real, exact: real)
    ensures HasEightDecimals(Round8(x))
    ensures x >= 0.0 ==> Round8(x) >= 0.0
    ensures x == 0.0 ==> Round8(x) == 0.0
    ensures AbsReal(Round8(x) - exact) <= AbsReal(x - exact) + 5_000.0
  {
    Round8Error(x);
    Round8Idempotent(x);
    hide Round8;
  }

  /** Storing a fill adds at most 1e-8 dollars of error: the token the fill did not
      touch already holds a column value. */
  lemma StoreAddsAtMostOneCent8(stored: Ledger, exact: Ledger, f: Fill)
    requires stored.Sound() && exact.Sound() && SameShares(stored, exact) && Columns(stored)
    ensures StoreFill(stored, f).Success? <==> ApplyToLedger(exact, f).Success?
    ensures ApplyToLedger(exact, f).Success? ==>
              var s, x := StoreFill(stored, f).value, ApplyToLedger(exact, f).value;
              && s.Sound() && SameShares(s, x) && Columns(s)
              && LedgerError(s, x) <= LedgerError(stored, exact) + CENT8
  {
    StepDoesNotEnlargeError(stored, exact, f);
    if ApplyToLedger(exact, f).Success? {
      LedgerConservesCash(stored, f);
      RoundingOneFill(ApplyToLedger(stored, f).value, ApplyToLedger(exact, f).value);
      hide Round8, ApplyToLedger, NetCash, AbsReal;
    }
  }

  lemma Round8Idempotent(x: real)
    ensures HasEightDecimals(Round8(x))
  {
    var n := (AbsReal(x) / CENT8 + 0.5).Floor;
    assert n >= 0;
    var m := n as real * CENT8;
    assert m / CENT8 == n as real;
    assert (m / CENT8 + 0.5).Floor == n;
    assert Round8(m) == m;
    if x < 0.0 && n > 0 {
      assert m > 0.0;
      assert Round8(-m) == -m;
    }
  }

  /** Over any run of fills, the rounded columns accept the same fills as the unrounded
      replay, hold the same shares, and their money differs in total by at most 1e-8
      dollars per fill. */
  lemma {:induction false} RoundingErrorPerFill(fills: seq<Fill>)
    ensures StoreFills(fills).Success? <==> Replay(fills).Success?
    ensures StoreFills(fills).Success? ==>
              var s, x := StoreFills(fills).value, Replay(fills).value;
              && s.Sound() && SameShares(s, x) && Columns(s)
              && LedgerError(s, x) <= CENT8 * |fills| as real
  {
    if fills == [] {
      Round8Error(0.0);
    } else {
      var init, f := fills[..|fills| - 1], fills[|fills| - 1];
      RoundingErrorPerFill(init);
      if StoreFills(init).Success? {
        ReplayIsSound(init);
        StoreAddsAtMostOneCent8(StoreFills(init).value, Replay(init).value, f);
      }
    }
  }

  // ----- Fees with more than eight decimals ---------------------------------

  /** The fills whose fee does not survive its column unchanged. */
  ghost function OddFees(fills: seq<Fill>): nat {
    if fills == [] then 0
    else OddFees(fills[..|fills| - 1]) + (if HasEightDecimals(fills[|fills| - 1].fee) then 0 else 1)
  }

  lemma {:induction false} NoOddFees(fills: seq<Fill>)
    requires forall i :: 0 <= i < |fills| ==> HasEightDecimals(fills[i].fee)
    ensures OddFees(fills) == 0 && AsRecorded(fills) == fills
  {
    if fills != [] {
      NoOddFees(fills[..|fills| - 1]);
    }
  }

  /** What rounding the fee of one fill can change. */
  ghost function FeeRounding(f: Fill): real { if HasEightDecimals(f.fee) then 0.0 else 5_000.0 }

  /** A fill whose fee went through its column is accepted where the fill itself is, and the
      two positions move apart by at most the rounding of the fee. */
  lemma RecordedFeeAddsHalfCent8(a: Ledger, b: Ledger, f: Fill)
    requires a.Sound() && b.Sound() && SameShares(a, b) && ApplyToLedger(a, f).Success?
    ensures ApplyToLedger(b, f.(fee := Round8(f.fee))).Success?
    ensures var x, y := ApplyToLedger(a, f).value, ApplyToLedger(b, f.(fee := Round8(f.fee))).value;
            SameShares(x, y) && LedgerError(x, y) <= LedgerError(a, b) + FeeRounding(f)
  {
    hide ApplyFill, Round8, LedgerError;
    StepDoesNotEnlargeError(a, b, f);
    FillSizeIsPositive(a.On(f.outcome), f.side, f.size, f.price, f.fee);
    RecordedFee(f.fee);
    OtherFee(b, f, Round8(f.fee));
    hide ApplyToLedger;
    MovedError(ApplyToLedger(a, f).value, ApplyToLedger(b, f).value,
               ApplyToLedger(b, f.(fee := Round8(f.fee))).value, Round8(f.fee) - f.fee);
  }

  lemma RecordedFee(fee: real)
    requires fee >= 0.0
    ensures Round8(fee) >= 0.0
    ensures AbsReal(Round8(fee) - fee) <= (if HasEightDecimals(fee) then 0.0 else 5_000.0)
  {
    Round8Error(fee);
    hide Round8;
  }

  /** One of the amounts of y moved by d. */
  predicate MovedBy(y: Ledger, z: Ledger, d: real) {
    z == y.(realized := y.realized - d) || z == y.(yesCapital := y.yesCapital + d) || z == y.(noCapital := y.noCapital + d)
  }

  lemma MovedError(x: Ledger, y: Ledger, z: Ledger, d: real)
    requires MovedBy(y, z, d)
    ensures LedgerError(x, z) <= LedgerError(x, y) + AbsReal(d)
    ensures SameShares(x, y) ==> SameShares(x, z)
  {
  }

  /** Changing the fee of an accepted fill changes one amount by the difference. */
  lemma OtherFee(l: Ledger, f: Fill, fee: real)
    requires ApplyToLedger(l, f).Success? && fee >= 0.0
    ensures ApplyToLedger(l, f.(fee := fee)).Success?
    ensures var x, y := ApplyToLedger(l, f).value, ApplyToLedger(l, f.(fee := fee)).value;
            MovedBy(x, y, fee - f.fee)
  {
    hide Notional;
  }

  /** The replay of what the cash ledger recorded succeeds where the replay of the fills does,
      and differs from it by at most half a cent8 per odd fee. */
  lemma {:induction false} RecordedReplayIsClose(fills: seq<Fill>)
    requires Replay(fills).Success?
    ensures Replay(AsRecorded(fills)).Success?
    ensures var x, y := Replay(fills).value, Replay(AsRecorded(fills)).value;
            SameShares(x, y) && LedgerError(x, y) <= 5_000.0 * OddFees(fills) as real
  {
    hide Round8, ApplyToLedger;
    if fills == [] {
      assert AsRecorded(fills) == [];
    } else {
      var init, f := fills[..|fills| - 1], fills[|fills| - 1];
      RecordedReplayIsClose(init);
      ReplayIsSound(init);
      ReplayIsSound(AsRecorded(init));
      RecordedFeeAddsHalfCent8(Replay(init).value, Replay(AsRecorded(init)).value, f);
      assert AsRecorded(fills) == AsRecorded(init) + [f.(fee := Round8(f.fee))];
      ReplayAppend(AsRecorded(init), f.(fee := Round8(f.fee)));
    }
  }

  // ----- The audit's tolerance ----------------------------------------------

  /** What the audit compares for one market. */
  predicate WithinAuditTolerance(stored: Ledger, replayed: Ledger) {
    && AbsInt(stored.yesExposure - replayed.yesExposure) <= SIZE_TOLERANCE
    && AbsInt(stored.noExposure - replayed.noExposure) <= SIZE_TOLERANCE
    && AbsReal(stored.yesCapital - replayed.yesCapital) <= AUDIT_TOLERANCE
    && AbsReal(stored.noCapital - replayed.noCapital) <= AUDIT_TOLERANCE
    && AbsReal(stored.realized - replayed.realized) <= AUDIT_TOLERANCE
  }

  function AbsInt(x: int): int { if x >= 0 then x else -x }

  /** A sum of errors inside the audit's tolerance. */
  lemma SmallErrorPasses(s: Ledger, x: Ledger, y: Ledger)
    requires SameShares(s, x) && SameShares(x, y) && LedgerError(s, x) + LedgerError(x, y) <= AUDIT_TOLERANCE
    ensures WithinAuditTolerance(s, y)
  {
  }

  /** The replay of what was recorded succeeds and agrees with the stored ledger within the
      audit's tolerance, whenever twice the number of fills and the number of fees with more
      than eight decimals add up to at most two hundred - so for any hundred fills whose fees
      follow the schedule. */
  lemma HundredFillsPassAudit(fills: seq<Fill>)
    requires StoreFills(fills).Success?
    requires 2 * |fills| + OddFees(fills) <= 200
    ensures Replay(AsRecorded(fills)).Success?
    ensures WithinAuditTolerance(StoreFills(fills).value, Replay(AsRecorded(fills)).value)
  {
    hide Round8, ApplyToLedger, WithinAuditTolerance, LedgerError;
    RoundingErrorPerFill(fills);
    RecordedReplayIsClose(fills);
    SmallErrorPasses(StoreFills(fills).value, Replay(fills).value, Replay(AsRecorded(fills)).value);
  }

  /** n purchases of half a cent8 each. */
  function HalfCents(n: nat): seq<Fill> {
    seq(n, i requires 0 <= i < n => Fill(Yes, Buy, 5_000, 1, 0.0))
  }

  lemma {:induction false} HalfCentsDrift(n: nat)
    ensures AsRecorded(HalfCents(n)) == HalfCents(n)
    ensures StoreFills(HalfCents(n)) == Success(Ledger(5_000 * n, (10_000 * n) as real, 0, 0.0, 0.0))
    ensures Replay(HalfCents(n)) == Success(Ledger(5_000 * n, (5_000 * n) as real, 0, 0.0, 0.0))
  {
    hide Round8, ApplyToLedger, AsRecorded;
    RecordedZeros(n);
    if n == 0 {
      assert HalfCents(0) == [];
    } else {
      HalfCentsDrift(n - 1);
      assert HalfCents(n)[..n - 1] == HalfCents(n - 1);
      assert HalfCents(n)[n - 1] == Fill(Yes, Buy, 5_000, 1, 0.0);
      BuyHalfCent(n, (10_000 * (n - 1)) as real);
      BuyHalfCent(n, (5_000 * (n - 1)) as real);
      StoreHalfCent(n);
      hide StoreFill;
    }
  }

  lemma StoreHalfCent(n: nat)
    requires n > 0
    ensures StoreFill(Ledger(5_000 * (n - 1), (10_000 * (n - 1)) as real, 0, 0.0, 0.0), Fill(Yes, Buy, 5_000, 1, 0.0))
            == Success(Ledger(5_000 * n, (10_000 * n) as real, 0, 0.0, 0.0))
  {
    BuyHalfCent(n, (10_000 * (n - 1)) as real);
    RoundsUp(n);
    Round8Error(0.0);
    hide Round8, ApplyToLedger;
  }

  lemma RecordedZeros(n: nat)
    ensures AsRecorded(HalfCents(n)) == HalfCents(n)
  {
    Round8Error(0.0);
    hide Round8;
  }

  lemma BuyHalfCent(n: nat, capital: real)
    requires n > 0 && capital >= 0.0
    ensures ApplyToLedger(Ledger(5_000 * (n - 1), capital, 0, 0.0, 0.0), Fill(Yes, Buy, 5_000, 1, 0.0))
            == Success(Ledger(5_000 * n, capital + 5_000.0, 0, 0.0, 0.0))
  {
  }

  lemma RoundsUp(n: nat)
    requires n > 0
    ensures Round8((10_000 * (n - 1)) as real + 5_000.0) == (10_000 * n) as real
  {
    var x, y := (10_000 * (n - 1)) as real + 5_000.0, n as real - 0.5;
    assert y * CENT8 == x;
    assert x / CENT8 == y;
    assert (x / CENT8 + 0.5).Floor == n;
  }

  /** There is such a limit: two hundred and one purchases of half a cent8 each fail the audit,
      though every one of them was stored and the fees are exact. */
  lemma ManySmallFillsFailAudit()
    ensures var fills := HalfCents(201);
            && StoreFills(fills).Success? && Replay(AsRecorded(fills)).Success?
            && !WithinAuditTolerance(StoreFills(fills).value, Replay(AsRecorded(fills)).value)
  {
    HalfCentsDrift(201);
  }
}
