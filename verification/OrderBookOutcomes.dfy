/** What one stream event does to one asset, in terms of the event's own fields. */
module OrderBookOutcomes {
  import opened Common
  import opened OrderBook
  import opened OrderBookRuns

  // ----- Lists of levels and of changes -------------------------------------

  predicate Quoted(l: Level, p: real) {
    l.Level? && l.price == Some(p)
  }

  /** A snapshot lists a price with the last size it gives for it. */
  lemma {:induction false} TableKeepsLast(levels: seq<Level>, p: real)
    requires forall i :: 0 <= i < |levels| ==> UsableLevel(levels[i])
    ensures p in Table(levels) <==> exists i :: 0 <= i < |levels| && Quoted(levels[i], p)
    ensures p in Table(levels) ==>
              exists i :: 0 <= i < |levels| && Quoted(levels[i], p) && levels[i].size == Some(Table(levels)[p])
                          && forall j :: i < j < |levels| ==> !Quoted(levels[j], p)
  {
    if levels != [] {
      var n := |levels| - 1;
      assert UsableLevel(levels[n]);
      TableKeepsLast(levels[..n], p);
      if p in Table(levels) {
        if Quoted(levels[n], p) {
          assert levels[n].size == Some(Table(levels)[p]);
        } else {
          var i :| 0 <= i < n && Quoted(levels[..n][i], p) && levels[..n][i].size == Some(Table(levels[..n])[p])
                   && forall j :: i < j < n ==> !Quoted(levels[..n][j], p);
          assert levels[i] == levels[..n][i];
          forall j | i < j < |levels| ensures !Quoted(levels[j], p) {
            assert j < n ==> levels[j] == levels[..n][j];
          }
        }
      } else {
        forall i | 0 <= i < |levels| ensures !Quoted(levels[i], p) {
          assert i < n ==> levels[i] == levels[..n][i];
        }
      }
    }
  }

  /** The changes of a batch that concern an asset are those that name it, in their order. */
  lemma {:induction false} ChangesOfIs(changes: seq<Change>, a: AssetId)
    ensures ChangesOf(changes, a) != [] <==> exists i :: 0 <= i < |changes| && changes[i].asset == Some(a)
    ensures forall c :: c in ChangesOf(changes, a) <==> c in changes && c.asset == Some(a)
  {
    if changes != [] {
      var n := |changes| - 1;
      ChangesOfIs(changes[..n], a);
      assert changes == changes[..n] + [changes[n]];
    }
  }

  predicate Moves(c: Change, a: AssetId, side: Side, p: real) {
    c.asset == Some(a) && c.side == Some(side) && c.price == Some(p) && c.size.Some?
  }

  /** What a batch says last about one price of one asset. */
  lemma {:induction false} LastChangeIs(changes: seq<Change>, a: AssetId, side: Side, p: real)
    ensures var last := LastChange(ChangesOf(changes, a), side, p);
            if last.None? then forall i :: 0 <= i < |changes| ==> !Moves(changes[i], a, side, p)
            else exists i :: 0 <= i < |changes| && Moves(changes[i], a, side, p) && changes[i].size == last
                             && forall j :: i < j < |changes| ==> !Moves(changes[j], a, side, p)
  {
    if changes != [] {
      var n := |changes| - 1;
      var init, c := changes[..n], changes[n];
      LastChangeIs(init, a, side, p);
      LastOfMore(ChangesOf(init, a), c, side, p);
      assert ChangesOf(init, a) + [] == ChangesOf(init, a);
      var last := LastChange(ChangesOf(changes, a), side, p);
      hide ChangesOf, LastChange;
      if Moves(c, a, side, p) {
        assert last == changes[n].size;
      } else if last.None? {
        forall i | 0 <= i < |changes| ensures !Moves(changes[i], a, side, p) {
          assert i < n ==> changes[i] == init[i];
        }
      } else {
        var i :| 0 <= i < n && Moves(init[i], a, side, p) && init[i].size == last
                 && forall j :: i < j < n ==> !Moves(init[j], a, side, p);
        assert changes[i] == init[i];
        forall j | i < j < |changes| ensures !Moves(changes[j], a, side, p) {
          assert j < n ==> changes[j] == init[j];
        }
      }
    }
  }

  lemma LastOfMore(changes: seq<Change>, c: Change, side: Side, p: real)
    ensures LastChange(changes + [c], side, p)
            == if c.side == Some(side) && c.price == Some(p) && c.size.Some? then c.size else LastChange(changes, side, p)
  {
    assert (changes + [c])[..|changes|] == changes;
  }

  // ----- One event ----------------------------------------------------------

  /** Does an event with a good header concern the asset? */
  ghost predicate Addresses(e: Event, a: AssetId) {
    match e
    case Book(asset, _, _, _) => asset == Some(a)
    case PriceChange(_, _, changes) => exists i :: 0 <= i < |changes| && changes[i].asset == Some(a)
    case TickSizeChange(asset, _) => asset == Some(a)
    case LastTradePrice(asset, _) => asset == Some(a)
    case OtherEvent(_) => false
  }

  /** A snapshot, or a delta that could be merged, at or behind the last sequence. */
  ghost predicate Behind(row: Row, e: Event) {
    var known := row.Known().sequence;
    match e
    case Book(_, sequence, _, _) => sequence.Some? && known.Some? && sequence.value <= known.value
    case PriceChange(_, sequence, _) =>
      row.book.Some? && !row.Known().resyncRequired && sequence.Some? && known.Some? && sequence.value <= known.value
    case _ => false
  }

  ghost predicate PlainLevels(levels: seq<Level>) {
    forall i :: 0 <= i < |levels| ==>
      && levels[i].Level? && levels[i].price.Some? && levels[i].size.Some?
      && 0.0 < levels[i].price.value < 1.0 && levels[i].size.value > 0.0
  }

  lemma PlainLevelsIff(levels: seq<Level>)
    ensures PlainLevels(levels) <==> forall i :: 0 <= i < |levels| ==> UsableLevel(levels[i])
  {
  }

  ghost predicate PlainChange(c: Change) {
    && c.side.Some? && c.price.Some? && c.size.Some?
    && 0.0 < c.price.value < 1.0 && c.size.value >= 0.0
  }

  /** Can the event be used? A snapshot needs readable levels and must be healthy; a delta needs a
      book that waits for no snapshot, the very next sequence, and readable changes. */
  ghost predicate Usable(row: Row, e: Event, a: AssetId) {
    var known := row.Known().sequence;
    match e
    case Book(_, _, bids, asks) =>
      PlainLevels(bids) && PlainLevels(asks) && UsableSnapshot(bids, asks)
    case PriceChange(_, sequence, changes) =>
      && row.book.Some? && !row.Known().resyncRequired
      && (sequence.Some? && known.Some? ==> sequence.value == known.value + 1)
      && forall i :: 0 <= i < |changes| && changes[i].asset == Some(a) ==> PlainChange(changes[i])
    case TickSizeChange(_, usable) => usable && row.book.Some?
    case LastTradePrice(_, usable) => usable && row.book.Some?
    case OtherEvent(_) => false
  }

  /** The levels as they were, not valid, and a snapshot required. */
  ghost predicate Halted(row: Row, after: Row) {
    && after.book == row.book && after.meta.Some?
    && !after.Known().valid && after.Known().resyncRequired && after.Known().sequence == row.Known().sequence
  }

  /** What an event with a good header does: nothing to an asset it does not concern or that is ahead
      of it; a trade changes nothing; what cannot be used stops the asset, unless a delta finds it
      stopped; a snapshot replaces the levels and a tick-size change declares them valid; a merged
      delta leaves a valid asset exactly if the result is healthy, and a stopped one otherwise. */
  lemma OutcomeIs(row: Row, e: Event, a: AssetId)
    ensures var (after, notice) := Advance(row, e, true, a);
            if !Addresses(e, a) || Behind(row, e) then after == row && notice == Silent
            else if e.LastTradePrice? then after == row && notice == (if Usable(row, e, a) then Updated else Silent)
            else if !Usable(row, e, a) then
              && notice == Stop
              && (Halted(row, after) || (after == row && e.PriceChange? && row.Known().resyncRequired))
            else
              match e
              case Book(_, sequence, bids, asks) =>
                && notice == Updated && after.meta == Some(Meta(true, false, sequence))
                && PlainLevels(bids) && PlainLevels(asks)
                && after.book == Some(Sides(Table(bids), Table(asks)))
              case TickSizeChange(_, _) =>
                notice == Updated && after == row.(meta := Some(row.Known().(valid := true)))
              case PriceChange(_, sequence, changes) =>
                && after.book.Some? && after.meta == Some(Meta(Healthy(after.book.value), !Healthy(after.book.value), sequence))
                && notice == (if Healthy(after.book.value) then Updated else Stop)
              case _ => false
  {
    hide Healthy, Table, ApplyChanges, ChangesOf;
    match e
    case PriceChange(_, sequence, changes) =>
      ChangesOfIs(changes, a);
      PlainIff(changes, a);
    case Book(_, _, bids, asks) =>
      PlainLevelsIff(bids);
      PlainLevelsIff(asks);
    case _ =>
  }

  lemma PlainIff(changes: seq<Change>, a: AssetId)
    ensures (forall i :: 0 <= i < |changes| && changes[i].asset == Some(a) ==> PlainChange(changes[i]))
       <==> (forall i :: 0 <= i < |ChangesOf(changes, a)| ==> UsableChange(ChangesOf(changes, a)[i]))
  {
    ChangesOfIs(changes, a);
    var mine := ChangesOf(changes, a);
    hide ChangesOf;
    forall c: Change ensures PlainChange(c) <==> UsableChange(c) {
    }
    hide PlainChange, UsableChange;
    if forall i :: 0 <= i < |mine| ==> UsableChange(mine[i]) {
      forall i | 0 <= i < |changes| && changes[i].asset == Some(a) ensures PlainChange(changes[i]) {
        assert changes[i] in mine;
      }
    }
    if forall i :: 0 <= i < |changes| && changes[i].asset == Some(a) ==> PlainChange(changes[i]) {
      forall i | 0 <= i < |mine| ensures UsableChange(mine[i]) {
        assert mine[i] in mine;
        assert mine[i] in changes;
      }
    }
  }

  ghost predicate HeaderNames(e: Event, a: AssetId) {
    (e.PriceChange? && e.named == Some(a)) || (e.OtherEvent? && e.asset == Some(a))
  }

  /** An event with a bad header stops the assets it names, in any of its changes too, and no
      other; a trade stops none. */
  lemma BadHeaderStops(row: Row, e: Event, a: AssetId)
    ensures var (after, notice) := Advance(row, e, false, a);
            if e.LastTradePrice? || !(HeaderNames(e, a) || Addresses(e, a)) then after == row && notice == Silent
            else Halted(row, after) && notice == Stop
  {
  }
}
