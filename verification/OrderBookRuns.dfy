/** What a local order book is after any run of seeds, stream events and invalidations. */
module OrderBookRuns {
  import opened Common
  import opened OrderBook

  datatype Input =
    | SeedInput(bids: seq<Level>, asks: seq<Level>, sequence: Option<nat>, timely: bool)
    | StreamInput(event: Event, timely: bool)
    | MarkInput(resync: bool)

  /** One input, as it concerns one asset; the methods of LocalOrderbook do exactly this. */
  ghost function Take(row: Row, input: Input, a: AssetId): Row {
    match input
    case SeedInput(bids, asks, sequence, timely) =>
      if timely && UsableSnapshot(bids, asks) then Row(Some(Sides(Table(bids), Table(asks))), Some(Meta(true, false, sequence)))
      else row
    case StreamInput(event, timely) => Advance(row, event, timely, a).0
    case MarkInput(resync) => row.Invalid(resync)
  }

  ghost predicate Run(rows: seq<Row>, inputs: seq<Input>, a: AssetId) {
    && |rows| == |inputs| + 1 && rows[0] == Row(None, None)
    && forall i :: 0 <= i < |inputs| ==> rows[i + 1] == Take(rows[i], inputs[i], a)
  }

  // ----- Which inputs are accepted ------------------------------------------

  datatype Entry = Full(sides: Sides) | Delta(changes: seq<Change>)

  /** The levels an input contributes: a usable snapshot that is not behind the cursor, or
      the changes of a well-formed delta that directly follows it. */
  ghost function Contribution(row: Row, input: Input, a: AssetId): Option<Entry> {
    match input
    case SeedInput(bids, asks, _, timely) =>
      if timely && UsableSnapshot(bids, asks) then Some(Full(Sides(Table(bids), Table(asks)))) else None
    case MarkInput(_) => None
    case StreamInput(event, timely) =>
      if !timely then None
      else
        match event
        case Book(asset, sequence, bids, asks) =>
          if asset == Some(a) && UsableSnapshot(bids, asks) && Fresh(row, sequence)
          then Some(Full(Sides(Table(bids), Table(asks)))) else None
        case PriceChange(_, sequence, changes) =>
          var mine := ChangesOf(changes, a);
          if mine != [] && row.book.Some? && !row.Known().resyncRequired && Follows(row, sequence)
             && forall i :: 0 <= i < |mine| ==> UsableChange(mine[i])
          then Some(Delta(mine)) else None
        case _ => None
  }

  predicate Fresh(row: Row, sequence: Option<nat>) {
    sequence.Some? && row.Known().sequence.Some? ==> sequence.value > row.Known().sequence.value
  }

  predicate Follows(row: Row, sequence: Option<nat>) {
    sequence.Some? && row.Known().sequence.Some? ==> sequence.value == row.Known().sequence.value + 1
  }

  ghost function Log(rows: seq<Row>, inputs: seq<Input>, a: AssetId, n: nat): seq<Entry>
    requires n <= |inputs| <= |rows|
  {
    if n == 0 then []
    else
      var c := Contribution(rows[n - 1], inputs[n - 1], a);
      Log(rows, inputs, a, n - 1) + (if c.Some? then [c.value] else [])
  }

  // ----- The book, price by price -------------------------------------------

  /** The last word on one price: the last change of a delta that names it. */
  function LastChange(changes: seq<Change>, side: Side, p: real): Option<real> {
    if changes == [] then None
    else
      var c := changes[|changes| - 1];
      if c.side == Some(side) && c.price == Some(p) && c.size.Some? then c.size
      else LastChange(changes[..|changes| - 1], side, p)
  }

  function SizeIn(s: Sides, side: Side, p: real): Option<real> {
    if p in s.On(side) then Some(s.On(side)[p]) else None
  }

  /** The size at a price after everything that was accepted: the newest delta that names
      the price since the newest snapshot decides, and a size of zero removes the level. */
  function SizeAfter(log: seq<Entry>, side: Side, p: real): Option<real> {
    if log == [] then None
    else
      match log[|log| - 1]
      case Full(sides) => SizeIn(sides, side, p)
      case Delta(changes) =>
        var last := LastChange(changes, side, p);
        if last.None? then SizeAfter(log[..|log| - 1], side, p)
        else if last.value <= 0.000000001 then None
        else last
  }

  lemma {:induction false} ApplyChangesAt(s: Sides, changes: seq<Change>, side: Side, p: real)
    requires forall i :: 0 <= i < |changes| ==> UsableChange(changes[i])
    ensures var last := LastChange(changes, side, p);
            SizeIn(ApplyChanges(s, changes), side, p)
            == if last.None? then SizeIn(s, side, p) else if last.value <= 0.000000001 then None else last
  {
    if changes != [] {
      ApplyChangesAt(s, changes[..|changes| - 1], side, p);
    }
  }

  ghost predicate Folds(row: Row, log: seq<Entry>) {
    && (row.book.Some? <==> log != [])
    && (row.book.Some? ==> forall side, p :: SizeIn(row.book.value, side, p) == SizeAfter(log, side, p))
  }

  /** What an accepted input makes of the book. */
  lemma ContributedBook(row: Row, input: Input, a: AssetId)
    requires Contribution(row, input, a).Some?
    ensures match Contribution(row, input, a).value
            case Full(sides) => Take(row, input, a).book == Some(sides)
            case Delta(changes) =>
              && row.book.Some? && (forall i :: 0 <= i < |changes| ==> UsableChange(changes[i]))
              && Take(row, input, a).book == Some(ApplyChanges(row.book.value, changes))
  {
    hide UsableSnapshot, Healthy, UsableChange, Table, ApplyChanges;
  }

  lemma StepFolds(row: Row, input: Input, a: AssetId, log: seq<Entry>)
    requires Folds(row, log)
    ensures var c := Contribution(row, input, a);
            Folds(Take(row, input, a), if c.Some? then log + [c.value] else log)
  {
    hide Take, Contribution, UsableChange, ApplyChanges;
    var c := Contribution(row, input, a);
    if c.None? {
      NothingContributed(row, input, a);
    } else {
      ContributedBook(row, input, a);
      var longer := log + [c.value];
      assert longer[..|longer| - 1] == log && longer[|longer| - 1] == c.value;
      if c.value.Delta? {
        forall side, p ensures SizeIn(ApplyChanges(row.book.value, c.value.changes), side, p) == SizeAfter(longer, side, p) {
          ApplyChangesAt(row.book.value, c.value.changes, side, p);
        }
      }
    }
  }

  /** An input that contributes nothing changes no level. */
  lemma NothingContributed(row: Row, input: Input, a: AssetId)
    requires Contribution(row, input, a).None?
    ensures Take(row, input, a).book == row.book
  {
    hide UsableSnapshot, Healthy, UsableChange, Table, ApplyChanges;
  }

  /** The book is the last full snapshot with all later accepted changes folded in, in order. */
  lemma {:induction false} BookIsFold(rows: seq<Row>, inputs: seq<Input>, a: AssetId, n: nat)
    requires Run(rows, inputs, a) && n <= |inputs|
    ensures Folds(rows[n], Log(rows, inputs, a, n))
  {
    if n > 0 {
      BookIsFold(rows, inputs, a, n - 1);
      StepFolds(rows[n - 1], inputs[n - 1], a, Log(rows, inputs, a, n - 1));
      hide Take, Contribution, Folds;
      assert Log(rows, inputs, a, n - 1) + [] == Log(rows, inputs, a, n - 1);
    }
  }

  /** A batch with one malformed change alters no level, and stops the asset until a full
      snapshot if the batch would otherwise have been merged. */
  lemma MalformedBatchChangesNothing(row: Row, sequence: Option<nat>, changes: seq<Change>, a: AssetId)
    requires exists i :: 0 <= i < |ChangesOf(changes, a)| && !UsableChange(ChangesOf(changes, a)[i])
    ensures var after := Take(row, StreamInput(PriceChange(None, sequence, changes), true), a);
            && after.book == row.book
            && (row.book.Some? && !row.Known().resyncRequired && EvaluateCursor(row.Known().sequence, sequence).Accepted? ==>
                  !after.Known().valid && after.Known().resyncRequired)
  {
    hide Healthy, ApplyChanges;
  }

  // ----- Validity -----------------------------------------------------------

  ghost predicate GoodRow(row: Row) {
    && (row.Known().valid ==> row.book.Some? && Healthy(row.book.value) && !row.Known().resyncRequired)
    && (row.book.Some? ==> GoodLevels(row.book.value.bids) && GoodLevels(row.book.value.asks))
  }

  /** An accepted tick-size change that finds the asset invalid. */
  predicate Revalidates(row: Row, input: Input, a: AssetId) {
    && input.StreamInput? && input.timely && input.event == TickSizeChange(Some(a), true)
    && row.book.Some? && !row.Known().valid
  }

  lemma {:induction false} ApplyChangesKeepsGood(s: Sides, changes: seq<Change>)
    requires GoodLevels(s.bids) && GoodLevels(s.asks)
    requires forall i :: 0 <= i < |changes| ==> UsableChange(changes[i])
    ensures GoodLevels(ApplyChanges(s, changes).bids) && GoodLevels(ApplyChanges(s, changes).asks)
  {
    if changes != [] {
      ApplyChangesKeepsGood(s, changes[..|changes| - 1]);
    }
  }

  lemma StepKeepsGood(row: Row, input: Input, a: AssetId)
    requires GoodRow(row) && !Revalidates(row, input, a)
    ensures GoodRow(Take(row, input, a))
  {
    hide UsableChange, Table, ApplyChanges;
    if input.StreamInput? && input.timely && input.event.PriceChange? && row.book.Some? {
      var mine := ChangesOf(input.event.changes, a);
      if forall i :: 0 <= i < |mine| ==> UsableChange(mine[i]) {
        ApplyChangesKeepsGood(row.book.value, mine);
      }
    }
  }

  /** As long as no tick-size change revives an invalid asset, a valid asset always has two
      nonempty sides, positive sizes, prices inside (0, 1) and an uncrossed book. */
  lemma {:induction false} ValidMeansHealthy(rows: seq<Row>, inputs: seq<Input>, a: AssetId, n: nat)
    requires Run(rows, inputs, a) && n <= |inputs|
    requires forall i :: 0 <= i < n ==> !Revalidates(rows[i], inputs[i], a)
    ensures GoodRow(rows[n])
  {
    if n > 0 {
      ValidMeansHealthy(rows, inputs, a, n - 1);
      StepKeepsGood(rows[n - 1], inputs[n - 1], a);
      hide Take, GoodRow, Revalidates;
    }
  }

  /** After a gap or a bad update nothing is accepted until a full snapshot arrives: the
      levels stay as they were and the asset stays invalid. */
  lemma {:induction false} NothingUntilSnapshot(rows: seq<Row>, inputs: seq<Input>, a: AssetId, m: nat, n: nat)
    requires Run(rows, inputs, a) && m <= n <= |inputs|
    requires !rows[m].Known().valid && rows[m].Known().resyncRequired
    requires forall i :: m <= i < n ==> !Revalidates(rows[i], inputs[i], a)
    requires forall i :: m <= i < n ==> var c := Contribution(rows[i], inputs[i], a); c.None? || c.value.Delta?
    ensures rows[n].book == rows[m].book && !rows[n].Known().valid && rows[n].Known().resyncRequired
  {
    if m < n {
      NothingUntilSnapshot(rows, inputs, a, m, n - 1);
      WaitingStays(rows[n - 1], inputs[n - 1], a);
      hide Take, Contribution, Revalidates;
    }
  }

  lemma WaitingStays(row: Row, input: Input, a: AssetId)
    requires !row.Known().valid && row.Known().resyncRequired && !Revalidates(row, input, a)
    requires var c := Contribution(row, input, a); c.None? || c.value.Delta?
    ensures var after := Take(row, input, a);
            after.book == row.book && !after.Known().valid && after.Known().resyncRequired
  {
    hide UsableSnapshot, Healthy, UsableChange, Table, ApplyChanges;
  }

  /** A gap in the sequence does require that snapshot. */
  lemma GapStops(row: Row, sequence: nat, changes: seq<Change>, a: AssetId)
    requires ChangesOf(changes, a) != [] && row.Known().sequence.Some? && sequence > row.Known().sequence.value + 1
    ensures var after := Take(row, StreamInput(PriceChange(None, Some(sequence), changes), true), a);
            after.book == row.book
            && (!row.Known().resyncRequired ==> !after.Known().valid && after.Known().resyncRequired)
  {
    hide UsableSnapshot, Healthy, UsableChange, Table, ApplyChanges;
  }

  /** A tick-size change keeps the promise exactly when the asset was valid or its book is
      healthy anyway and no snapshot is awaited: it sets validity without looking. */
  lemma TickSizeKeepsPromiseIff(row: Row, a: AssetId)
    requires GoodRow(row) && row.book.Some?
    ensures GoodRow(Take(row, StreamInput(TickSizeChange(Some(a), true), true), a))
       <==> row.Known().valid || (Healthy(row.book.value) && !row.Known().resyncRequired)
  {
  }

  /** Four events that end in a valid, crossed book: a snapshot, a delta that crosses it and
      is refused, and a tick-size change that declares it valid. */
  lemma TickSizeRevivesCrossedBook(a: AssetId) returns (rows: seq<Row>, inputs: seq<Input>)
    ensures Run(rows, inputs, a) && |inputs| == 3
    ensures rows[1].Known().valid && !rows[2].Known().valid
    ensures rows[3].Known().valid && rows[3].book.Some? && !Healthy(rows[3].book.value)
  {
    var bid, ask := Level(Some(0.4), Some(10.0)), Level(Some(0.5), Some(10.0));
    var crossing := Change(Some(a), Some(Buy), Some(0.6), Some(1.0));
    var seed := SeedInput([bid], [ask], None, true);
    var delta := StreamInput(PriceChange(None, None, [crossing]), true);
    var tick := StreamInput(TickSizeChange(Some(a), true), true);
    inputs := [seed, delta, tick];
    TableOfOne(bid);
    TableOfOne(ask);
    ChangesOfOne(crossing, a);
    var first := Sides(map[0.4 := 10.0], map[0.5 := 10.0]);
    var second := Sides(map[0.4 := 10.0, 0.6 := 1.0], map[0.5 := 10.0]);
    FirstIsHealthy(first);
    SecondIsCrossed(second);
    ApplyOne(first, crossing);
    var r0 := Row(None, None);
    var r1 := Row(Some(first), Some(Meta(true, false, None)));
    var r2 := Row(Some(second), Some(Meta(false, true, None)));
    var r3 := Row(Some(second), Some(Meta(true, true, None)));
    assert Take(r0, seed, a) == r1;
    assert Take(r1, delta, a) == r2;
    assert Take(r2, tick, a) == r3;
    rows := [r0, r1, r2, r3];
  }

  lemma TableOfOne(l: Level)
    requires UsableLevel(l)
    ensures Table([l]) == map[l.price.value := l.size.value]
  {
    assert [l][..0] == [];
  }

  lemma ChangesOfOne(c: Change, a: AssetId)
    requires c.asset == Some(a)
    ensures ChangesOf([c], a) == [c]
  {
    assert [c][..0] == [];
  }

  lemma ApplyOne(s: Sides, c: Change)
    requires UsableChange(c)
    ensures ApplyChanges(s, [c]) == ApplyChange(s, c)
  {
    assert [c][..0] == [];
  }

  lemma FirstIsHealthy(s: Sides)
    requires s == Sides(map[0.4 := 10.0], map[0.5 := 10.0])
    ensures Healthy(s)
  {
    assert 0.4 in s.bids.Keys && 0.5 in s.asks.Keys;
  }

  lemma SecondIsCrossed(s: Sides)
    requires s == Sides(map[0.4 := 10.0, 0.6 := 1.0], map[0.5 := 10.0])
    ensures !Healthy(s)
  {
    assert 0.6 in s.bids && 0.5 in s.asks;
  }
}
