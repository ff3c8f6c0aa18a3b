/** What an external overwrite writes: positions as reported, and a cost basis that never
    understates what they may have cost. */
module Overwrites {
  import opened Common
  import opened Accounting
  import opened Rows
  import opened Transactions
  import opened World
  import opened Passes
  import opened Runs

  /** The larger of two amounts. */
  predicate IsLarger(x: real, a: real, b: real) { x >= a && x >= b && (x == a || x == b) }

  /** The cost basis of a position that is reported anew. Up to 0.001 shares cost nothing. A
      position whose basis is known keeps its average cost while it shrinks; when it grows, each
      added share costs a dollar and the whole at least what is reported. Without a known basis
      every share costs a dollar, and the whole at least what is reported. */
  ghost predicate CostWritten(actual: int, reported: real, before: int, basis: real, cost: real) {
    if actual <= 100_000 then cost == 0.0
    else if before > 0 && basis > 1_000.0 then
      if actual <= before then cost * before as real == basis * actual as real
      else IsLarger(cost, basis + (10_000 * (actual - before)) as real, reported)
    else IsLarger(cost, (10_000 * actual) as real, reported)
  }

  lemma CapitalIsWritten(actual: int, reported: real, before: int, basis: real)
    requires actual >= 0 && before >= 0 && basis >= 0.0
    ensures CostWritten(actual, reported, before, basis, ReconcileCapital(actual, reported, before, basis))
  {
    assert Notional(ONE_DOLLAR, actual) == (10_000 * actual) as real;
    assert Notional(ONE_DOLLAR, actual - before) == (10_000 * (actual - before)) as real;
    hide Notional;
    if actual > 100_000 && before > 0 && basis > 1_000.0 && actual <= before {
      ShareOfBasis(basis, actual, before);
      assert ReconcileCapital(actual, reported, before, basis) == basis * (actual as real / before as real);
    }
  }

  lemma ShareOfBasis(basis: real, part: int, whole: int)
    requires whole > 0
    ensures basis * (part as real / whole as real) * whole as real == basis * part as real
  {
    var f := part as real / whole as real;
    assert f * whole as real == part as real;
    assert basis * f * whole as real == basis * (f * whole as real);
  }

  /** One ledger row before and after. */
  ghost predicate RowOverwritten(inv: Inventory, inv': Inventory, actual: Position) {
    && inv'.book.yesExposure == actual.yes && inv'.book.noExposure == actual.no
    && inv'.book.realized == inv.book.realized
    && inv'.accounting.UnverifiedExternal? && inv'.stateVersion == inv.stateVersion + 1
    && CostWritten(actual.yes, actual.yesCost, inv.book.yesExposure, inv.book.yesCapital, inv'.book.yesCapital)
    && CostWritten(actual.no, actual.noCost, inv.book.noExposure, inv.book.noCapital, inv'.book.noCapital)
  }

  /** In every reachable world an overwrite replaces the reported row and touches nothing else. */
  lemma OverwriteInFull(w: World, settings: Settings, s: Step, w': World)
    requires Inv(w) && s.OverwriteStep? && Enabled(w, s) && w' == Next(w, settings, s)
    ensures s.market !in w.db.inventory ==> w' == w
    ensures s.market in w.db.inventory ==>
              && s.market in w'.db.inventory
              && RowOverwritten(w.db.inventory[s.market], w'.db.inventory[s.market], s.actual)
              && w' == w.(db := w.db.(inventory := w.db.inventory[s.market := w'.db.inventory[s.market]]))
  {
    SoundLedger(w, s.market);
    hide Inv, CostWritten;
    if s.market in w.db.inventory {
      var b := w.db.inventory[s.market].book;
      CapitalIsWritten(s.actual.yes, s.actual.yesCost, b.yesExposure, b.yesCapital);
      CapitalIsWritten(s.actual.no, s.actual.noCost, b.noExposure, b.noCapital);
      hide ReconcileCapital;
    }
  }

  lemma SoundLedger(w: World, m: MarketId)
    requires Inv(w)
    ensures m in w.db.inventory ==> w.db.inventory[m].book.Sound()
  {
  }
}
