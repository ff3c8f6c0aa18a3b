/** The local order book: full snapshots, deltas and trades merged per asset, with a cursor
    that refuses to guess across a gap. Prices are fractions of a dollar, sizes shares. */
module OrderBook {
  import opened Common

  type AssetId = nat

  type Levels = map<real, real>

  datatype Sides = Sides(bids: Levels, asks: Levels) {
    function On(side: Side): Levels { if side.Buy? then bids else asks }

    function With(side: Side, levels: Levels): Sides {
      if side.Buy? then this.(bids := levels) else this.(asks := levels)
    }
  }

  /** A field that is not a finite number is None. */
  datatype Level = NotAnObject | Level(price: Option<real>, size: Option<real>)

  datatype Change = Change(asset: Option<AssetId>, side: Option<Side>, price: Option<real>, size: Option<real>)

  datatype Meta = Meta(valid: bool, resyncRequired: bool, sequence: Option<nat>)

  const BLANK := Meta(false, false, None)

  datatype Event =
    | Book(asset: Option<AssetId>, sequence: Option<nat>, bids: seq<Level>, asks: seq<Level>)
    | PriceChange(named: Option<AssetId>, sequence: Option<nat>, changes: seq<Change>)
    | TickSizeChange(asset: Option<AssetId>, usable: bool)
    | LastTradePrice(asset: Option<AssetId>, usable: bool)
    | OtherEvent(asset: Option<AssetId>)

  /** What the book knows about one asset. */
  datatype Row = Row(book: Option<Sides>, meta: Option<Meta>) {
    function Known(): Meta { if meta.Some? then meta.value else BLANK }

    function Invalid(resync: bool): Row {
      this.(meta := Some(Known().(valid := false, resyncRequired := resync || Known().resyncRequired)))
    }
  }

  datatype Notice = Silent | Updated | Stop

  const DUST: real := 0.000000001

  // ----- Healthy books ------------------------------------------------------

  /** Two nonempty sides, positive sizes, prices inside (0, 1), best bid below best ask. */
  ghost predicate Healthy(s: Sides) {
    && s.bids.Keys != {} && s.asks.Keys != {}
    && GoodLevels(s.bids) && GoodLevels(s.asks)
    && forall b, a :: b in s.bids && a in s.asks ==> b < a
  }

  ghost predicate GoodLevels(l: Levels) {
    forall p :: p in l ==> 0.0 < p < 1.0 && l[p] > 0.0
  }

  predicate UsableLevel(l: Level) {
    l.Level? && l.price.Some? && l.size.Some? && 0.0 < l.price.value < 1.0 && l.size.value > 0.0
  }

  /** The dictionary of a list of levels: a repeated price keeps its last size. */
  function Table(levels: seq<Level>): Levels
    requires forall i :: 0 <= i < |levels| ==> UsableLevel(levels[i])
  {
    if levels == [] then map[]
    else
      var last := levels[|levels| - 1];
      assert UsableLevel(last);
      Table(levels[..|levels| - 1])[last.price.value := last.size.value]
  }

  ghost predicate UsableSnapshot(bids: seq<Level>, asks: seq<Level>) {
    && (forall i :: 0 <= i < |bids| ==> UsableLevel(bids[i]))
    && (forall i :: 0 <= i < |asks| ==> UsableLevel(asks[i]))
    && Healthy(Sides(Table(bids), Table(asks)))
  }

  method NormalizeLevels(levels: seq<Level>) returns (table: Option<Levels>)
    ensures table.Some? <==> forall i :: 0 <= i < |levels| ==> UsableLevel(levels[i])
    ensures table.Some? ==> table.value == Table(levels) && GoodLevels(table.value)
  {
    var normalized: Levels := map[];
    for i := 0 to |levels|
      invariant forall k :: 0 <= k < i ==> UsableLevel(levels[k])
      invariant normalized == Table(levels[..i]) && GoodLevels(normalized)
    {
      if !UsableLevel(levels[i]) {
        return None;
      }
      assert levels[..i + 1][..i] == levels[..i];
      normalized := normalized[levels[i].price.value := levels[i].size.value];
    }
    assert levels[..|levels|] == levels;
    return Some(normalized);
  }

  lemma NoPrices(prices: set<real>)
    requires forall p :: p !in prices
    ensures prices == {}
  {
    assert forall p :: p in prices ==> p in {};
  }

  lemma SomePrice(prices: set<real>)
    requires prices != {}
    ensures exists p :: p in prices
  {
    if forall p :: p !in prices {
      NoPrices(prices);
      assert false;
    }
  }

  method Extreme(l: Levels, highest: bool) returns (best: real)
    requires l.Keys != {}
    ensures best in l && forall p :: p in l ==> if highest then p <= best else best <= p
  {
    SomePrice(l.Keys);
    best :| best in l.Keys;
    var rest := l.Keys - {best};
    while rest != {}
      invariant best in l && rest <= l.Keys
      invariant forall p :: p in l && p !in rest ==> if highest then p <= best else best <= p
      decreases rest
    {
      SomePrice(rest);
      var p :| p in rest;
      rest := rest - {p};
      if (highest && p > best) || (!highest && p < best) {
        best := p;
      }
    }
  }

  method AllGood(l: Levels) returns (ok: bool)
    ensures ok <==> GoodLevels(l)
  {
    var rest := l.Keys;
    while rest != {}
      invariant rest <= l.Keys
      invariant forall p :: p in l && p !in rest ==> 0.0 < p < 1.0 && l[p] > 0.0
      decreases rest
    {
      SomePrice(rest);
      var p :| p in rest;
      rest := rest - {p};
      if !(0.0 < p < 1.0) || l[p] <= 0.0 {
        return false;
      }
    }
    return true;
  }

  method ValidateBook(s: Sides) returns (ok: bool)
    ensures ok <==> Healthy(s)
  {
    var bidsGood := AllGood(s.bids);
    var asksGood := AllGood(s.asks);
    if !bidsGood || !asksGood || s.bids == map[] || s.asks == map[] {
      return false;
    }
    assert s.bids.Keys != {} && s.asks.Keys != {};
    var bestBid := Extreme(s.bids, true);
    var bestAsk := Extreme(s.asks, false);
    return bestBid < bestAsk;
  }

  // ----- Deltas -------------------------------------------------------------

  predicate UsableChange(c: Change) {
    && c.side.Some? && c.price.Some? && c.size.Some?
    && 0.0 < c.price.value < 1.0 && c.size.value >= 0.0
  }

  function ApplyChange(s: Sides, c: Change): Sides
    requires UsableChange(c)
  {
    var levels := s.On(c.side.value);
    s.With(c.side.value,
           if c.size.value <= DUST then levels - {c.price.value} else levels[c.price.value := c.size.value])
  }

  function ApplyChanges(s: Sides, changes: seq<Change>): Sides
    requires forall i :: 0 <= i < |changes| ==> UsableChange(changes[i])
  {
    if changes == [] then s
    else ApplyChange(ApplyChanges(s, changes[..|changes| - 1]), changes[|changes| - 1])
  }

  function ChangesOf(changes: seq<Change>, a: AssetId): seq<Change> {
    if changes == [] then []
    else ChangesOf(changes[..|changes| - 1], a)
         + (if changes[|changes| - 1].asset == Some(a) then [changes[|changes| - 1]] else [])
  }

  datatype Cursor = Accepted | Ignored | Gap

  function EvaluateCursor(previous: Option<nat>, current: Option<nat>): Cursor {
    if current.None? || previous.None? then Accepted
    else if current.value <= previous.value then Ignored
    else if current.value != previous.value + 1 then Gap
    else Accepted
  }

  method MergeChanges(s: Sides, changes: seq<Change>) returns (candidate: Option<Sides>)
    ensures candidate.Some? <==> forall i :: 0 <= i < |changes| ==> UsableChange(changes[i])
    ensures candidate.Some? ==> candidate.value == ApplyChanges(s, changes)
  {
    var bids, asks := s.bids, s.asks;
    for i := 0 to |changes|
      invariant forall k :: 0 <= k < i ==> UsableChange(changes[k])
      invariant Sides(bids, asks) == ApplyChanges(s, changes[..i])
    {
      var c := changes[i];
      if c.price.None? || c.size.None? {
        return None;
      }
      if !(0.0 < c.price.value < 1.0) || c.size.value < 0.0 {
        return None;
      }
      if c.side.None? {
        return None;
      }
      assert changes[..i + 1][..i] == changes[..i];
      if c.side.value.Buy? {
        bids := if c.size.value <= DUST then bids - {c.price.value} else bids[c.price.value := c.size.value];
      } else {
        asks := if c.size.value <= DUST then asks - {c.price.value} else asks[c.price.value := c.size.value];
      }
    }
    assert changes[..|changes|] == changes;
    return Some(Sides(bids, asks));
  }

  // ----- One asset, one event -----------------------------------------------

  ghost function AdvanceDelta(row: Row, sequence: Option<nat>, changes: seq<Change>): (Row, Notice) {
    if changes == [] then (row, Silent)
    else if row.book.None? then (row.Invalid(true), Stop)
    else if row.Known().resyncRequired then (row, Stop)
    else match EvaluateCursor(row.Known().sequence, sequence)
      case Ignored => (row, Silent)
      case Gap => (row.Invalid(true), Stop)
      case Accepted =>
        if exists i :: 0 <= i < |changes| && !UsableChange(changes[i]) then (row.Invalid(true), Stop)
        else
          var candidate := ApplyChanges(row.book.value, changes);
          if Healthy(candidate) then (Row(Some(candidate), Some(Meta(true, false, sequence))), Updated)
          else (Row(Some(candidate), Some(Meta(false, true, sequence))), Stop)
  }

  ghost function AdvanceBook(row: Row, sequence: Option<nat>, bids: seq<Level>, asks: seq<Level>): (Row, Notice) {
    if sequence.Some? && row.Known().sequence.Some? && sequence.value <= row.Known().sequence.value then (row, Silent)
    else if !UsableSnapshot(bids, asks) then (row.Invalid(true), Stop)
    else (Row(Some(Sides(Table(bids), Table(asks))), Some(Meta(true, false, sequence))), Updated)
  }

  function AdvanceTick(row: Row, usable: bool): (Row, Notice) {
    if row.book.None? || !usable then (row.Invalid(true), Stop)
    else (row.(meta := Some(row.Known().(valid := true))), Updated)
  }

  /** Does an event that arrives with a bad header name this asset? */
  predicate Names(e: Event, a: AssetId) {
    match e
    case Book(asset, _, _, _) => asset == Some(a)
    case PriceChange(named, _, changes) => named == Some(a) || exists i | 0 <= i < |changes| :: changes[i].asset == Some(a)
    case TickSizeChange(asset, _) => asset == Some(a)
    case LastTradePrice(asset, _) => asset == Some(a)
    case OtherEvent(asset) => asset == Some(a)
  }

  /** A trade changes neither levels nor validity, and one without a price inside (0, 1) and a
      positive size is not usable; timely says the event's sequence and
      time stamp passed the header checks. */
  ghost function Advance(row: Row, e: Event, timely: bool, a: AssetId): (Row, Notice) {
    if !timely then
      if Names(e, a) && !e.LastTradePrice? then (row.Invalid(true), Stop) else (row, Silent)
    else
      match e
      case Book(asset, sequence, bids, asks) => if asset == Some(a) then AdvanceBook(row, sequence, bids, asks) else (row, Silent)
      case PriceChange(_, sequence, changes) => AdvanceDelta(row, sequence, ChangesOf(changes, a))
      case TickSizeChange(asset, usable) => if asset == Some(a) then AdvanceTick(row, usable) else (row, Silent)
      case LastTradePrice(asset, usable) => (row, if asset == Some(a) && row.book.Some? && usable then Updated else Silent)
      case OtherEvent(_) => (row, Silent)
  }

  class LocalOrderbook {
    var books: map<AssetId, Sides>
    var metadata: map<AssetId, Meta>

    constructor ()
      ensures forall a :: RowOf(a) == Row(None, None)
    {
      books, metadata := map[], map[];
    }

    function RowOf(a: AssetId): Row
      reads this
    {
      Row(if a in books then Some(books[a]) else None, if a in metadata then Some(metadata[a]) else None)
    }

    /** A full snapshot from the query interface; a snapshot that is not usable or not
        timely is refused and changes nothing. */
    method Seed(a: AssetId, bids: seq<Level>, asks: seq<Level>, sequence: Option<nat>, timely: bool) returns (seeded: bool)
      modifies this
      ensures seeded <==> timely && UsableSnapshot(bids, asks)
      ensures RowOf(a) == if seeded then Row(Some(Sides(Table(bids), Table(asks))), Some(Meta(true, false, sequence)))
                          else old(RowOf(a))
      ensures forall other :: other != a ==> RowOf(other) == old(RowOf(other))
    {
      var bidTable := NormalizeLevels(bids);
      if bidTable.None? {
        return false;
      }
      var askTable := NormalizeLevels(asks);
      if askTable.None? {
        return false;
      }
      var ok := ValidateBook(Sides(bidTable.value, askTable.value));
      if !ok || !timely {
        return false;
      }
      books := books[a := Sides(bidTable.value, askTable.value)];
      metadata := metadata[a := Meta(true, false, sequence)];
      return true;
    }

    method MarkInvalid(a: AssetId, resync: bool)
      modifies this`metadata
      ensures RowOf(a) == old(RowOf(a)).Invalid(resync)
      ensures forall other :: other != a ==> RowOf(other) == old(RowOf(other))
    {
      var current := if a in metadata then metadata[a] else BLANK;
      metadata := metadata[a := current.(valid := false, resyncRequired := resync || current.resyncRequired)];
    }

    method ApplyBook(a: AssetId, sequence: Option<nat>, bids: seq<Level>, asks: seq<Level>) returns (notice: Notice)
      modifies this
      ensures (RowOf(a), notice) == AdvanceBook(old(RowOf(a)), sequence, bids, asks)
      ensures forall other :: other != a ==> RowOf(other) == old(RowOf(other))
    {
      var previous := if a in metadata then metadata[a].sequence else None;
      if sequence.Some? && previous.Some? && sequence.value <= previous.value {
        return Silent;
      }
      var seeded := Seed(a, bids, asks, sequence, true);
      if !seeded {
        MarkInvalid(a, true);
        return Stop;
      }
      return Updated;
    }

    method ApplyDelta(a: AssetId, sequence: Option<nat>, changes: seq<Change>) returns (notice: Notice)
      requires changes != []
      modifies this
      ensures (RowOf(a), notice) == AdvanceDelta(old(RowOf(a)), sequence, changes)
      ensures forall other :: other != a ==> RowOf(other) == old(RowOf(other))
    {
      var meta := if a in metadata then metadata[a] else BLANK;
      if a !in books {
        MarkInvalid(a, true);
        return Stop;
      }
      if meta.resyncRequired {
        return Stop;
      }
      match EvaluateCursor(meta.sequence, sequence) {
        case Ignored => return Silent;
        case Gap =>
          MarkInvalid(a, true);
          return Stop;
        case Accepted =>
      }
      var candidate := MergeChanges(books[a], changes);
      if candidate.None? {
        MarkInvalid(a, true);
        return Stop;
      }
      books := books[a := candidate.value];
      var ok := ValidateBook(candidate.value);
      metadata := metadata[a := Meta(ok, !ok, sequence)];
      return if ok then Updated else Stop;
    }

    method ApplyTick(a: AssetId, usable: bool) returns (notice: Notice)
      modifies this`metadata
      ensures (RowOf(a), notice) == AdvanceTick(old(RowOf(a)), usable)
      ensures forall other :: other != a ==> RowOf(other) == old(RowOf(other))
    {
      if a !in books || !usable {
        MarkInvalid(a, true);
        return Stop;
      }
      var meta := if a in metadata then metadata[a] else BLANK;
      metadata := metadata[a := meta.(valid := true)];
      return Updated;
    }

    /** Applies one stream event; every asset advances on its own. */
    method ApplyEvent(e: Event, timely: bool) returns (updated: set<AssetId>, invalid: set<AssetId>)
      modifies this
      ensures forall a :: RowOf(a) == Advance(old(RowOf(a)), e, timely, a).0
      ensures forall a :: a in updated <==> Advance(old(RowOf(a)), e, timely, a).1 == Updated
      ensures forall a :: a in invalid <==> Advance(old(RowOf(a)), e, timely, a).1 == Stop
    {
      updated, invalid := {}, {};
      if !timely {
        if !e.LastTradePrice? {
          invalid := MarkNamed(e);
        }
        return;
      }
      var notice := Silent;
      match e {
        case Book(asset, sequence, bids, asks) =>
          if asset.Some? {
            notice := ApplyBook(asset.value, sequence, bids, asks);
            updated := if notice.Updated? then {asset.value} else {};
            invalid := if notice.Stop? then {asset.value} else {};
          }
        case PriceChange(_, sequence, changes) =>
          updated, invalid := ApplyDeltas(sequence, changes);
        case TickSizeChange(asset, usable) =>
          if asset.Some? {
            notice := ApplyTick(asset.value, usable);
            updated := if notice.Updated? then {asset.value} else {};
            invalid := if notice.Stop? then {asset.value} else {};
          }
        case LastTradePrice(asset, usable) =>
          if asset.Some? && asset.value in books && usable {
            updated := {asset.value};
          }
        case OtherEvent(_) =>
      }
    }

    method MarkNamed(e: Event) returns (invalid: set<AssetId>)
      modifies this
      ensures forall a :: a in invalid <==> Names(e, a)
      ensures forall a :: RowOf(a) == if Names(e, a) then old(RowOf(a)).Invalid(true) else old(RowOf(a))
    {
      invalid := NamedBy(e);
      var rest := invalid;
      while rest != {}
        invariant rest <= invalid
        invariant forall a :: RowOf(a) == if a in invalid && a !in rest then old(RowOf(a)).Invalid(true) else old(RowOf(a))
        decreases rest
      {
        var a :| a in rest;
        rest := rest - {a};
        MarkInvalid(a, true);
      }
    }

    method ApplyDeltas(sequence: Option<nat>, changes: seq<Change>) returns (updated: set<AssetId>, invalid: set<AssetId>)
      modifies this
      ensures forall a :: RowOf(a) == AdvanceDelta(old(RowOf(a)), sequence, ChangesOf(changes, a)).0
      ensures forall a :: a in updated <==> AdvanceDelta(old(RowOf(a)), sequence, ChangesOf(changes, a)).1 == Updated
      ensures forall a :: a in invalid <==> AdvanceDelta(old(RowOf(a)), sequence, ChangesOf(changes, a)).1 == Stop
    {
      hide AdvanceDelta;
      updated, invalid := {}, {};
      var byAsset := GroupChanges(changes);
      var rest := byAsset.Keys;
      forall a | ChangesOf(changes, a) == [] ensures AdvanceDelta(RowOf(a), sequence, ChangesOf(changes, a)) == (RowOf(a), Silent) {
        EmptyDelta(RowOf(a), sequence);
      }
      while rest != {}
        invariant rest <= byAsset.Keys
        invariant forall a :: RowOf(a) == if a in rest then old(RowOf(a)) else AdvanceDelta(old(RowOf(a)), sequence, ChangesOf(changes, a)).0
        invariant forall a :: a in updated <==> a !in rest && AdvanceDelta(old(RowOf(a)), sequence, ChangesOf(changes, a)).1 == Updated
        invariant forall a :: a in invalid <==> a !in rest && AdvanceDelta(old(RowOf(a)), sequence, ChangesOf(changes, a)).1 == Stop
        decreases rest
      {
        var a :| a in rest;
        rest := rest - {a};
        var notice := ApplyDelta(a, sequence, byAsset[a]);
        if notice.Updated? {
          updated := updated + {a};
        }
        if notice.Stop? {
          invalid := invalid + {a};
        }
      }
    }

    /** The best levels of both sides, offered only for a valid book with two sides; of a healthy
        book the best bid offered is below the best ask. */
    method Snapshot(a: AssetId, depth: nat) returns (s: Option<TopOfBook>)
      ensures s.Some? <==> a in books && a in metadata && metadata[a].valid
                           && depth > 0 && books[a].bids.Keys != {} && books[a].asks.Keys != {}
      ensures s.Some? ==> IsTop(s.value.bids, books[a].bids, depth, Buy) && IsTop(s.value.asks, books[a].asks, depth, Sell)
      ensures s.Some? && Healthy(books[a]) ==> s.value.bids[0].price < s.value.asks[0].price
    {
      if a !in books {
        return None;
      }
      if a !in metadata || !metadata[a].valid {
        return None;
      }
      var book := books[a];
      if book.bids.Keys == {} && book.asks.Keys == {} {
        return None;
      }
      var bids := TopLevels(book.bids, depth, Buy);
      var asks := TopLevels(book.asks, depth, Sell);
      assert book.bids.Keys == {} <==> |book.bids| == 0;
      assert book.asks.Keys == {} <==> |book.asks| == 0;
      if bids == [] || asks == [] {
        return None;
      }
      assert bids[0].price in book.bids && asks[0].price in book.asks;
      return Some(TopOfBook(bids, asks));
    }
  }

  // ----- The best levels of a side ------------------------------------------

  datatype PricedLevel = PricedLevel(price: real, size: real)

  datatype TopOfBook = TopOfBook(bids: seq<PricedLevel>, asks: seq<PricedLevel>)

  predicate Better(side: Side, p: real, q: real) {
    if side.Buy? then p > q else p < q
  }

  /** The best levels, best first: at most depth of them, each with its size, and every level
      left out is worse than all that are kept. */
  ghost predicate IsTop(top: seq<PricedLevel>, levels: Levels, depth: nat, side: Side) {
    && |top| == (if depth <= |levels| then depth else |levels|)
    && (forall i :: 0 <= i < |top| ==> top[i].price in levels && top[i].size == levels[top[i].price])
    && (forall i, j :: 0 <= i < j < |top| ==> Better(side, top[i].price, top[j].price))
    && (forall p, i :: p in levels && 0 <= i < |top| && (forall k :: 0 <= k < |top| ==> top[k].price != p) ==>
          Better(side, top[i].price, p))
  }

  method BestOf(prices: set<real>, side: Side) returns (best: real)
    requires prices != {}
    ensures best in prices && forall p :: p in prices && p != best ==> Better(side, best, p)
  {
    SomePrice(prices);
    best :| best in prices;
    var rest := prices - {best};
    while rest != {}
      invariant best in prices && rest <= prices
      invariant forall p :: p in prices && p !in rest && p != best ==> Better(side, best, p)
      decreases rest
    {
      SomePrice(rest);
      var p :| p in rest;
      if Better(side, p, best) {
        best := p;
      }
      rest := rest - {p};
    }
  }

  ghost predicate Lists(top: seq<PricedLevel>, p: real) {
    exists i :: 0 <= i < |top| && top[i].price == p
  }

  lemma ListsMore(top: seq<PricedLevel>, l: PricedLevel)
    ensures Lists(top + [l], l.price) && forall p :: Lists(top, p) ==> Lists(top + [l], p)
  {
    var more := top + [l];
    assert more[|top|] == l;
    forall p | Lists(top, p) ensures Lists(more, p) {
      var i :| 0 <= i < |top| && top[i].price == p;
      assert more[i] == top[i];
    }
  }

  method TopLevels(levels: Levels, depth: nat, side: Side) returns (top: seq<PricedLevel>)
    ensures IsTop(top, levels, depth, side)
  {
    top := [];
    var rest := levels.Keys;
    while |top| < depth && rest != {}
      invariant |top| <= depth && rest <= levels.Keys && |rest| + |top| == |levels.Keys|
      invariant forall i :: 0 <= i < |top| ==> top[i].price in levels && top[i].size == levels[top[i].price] && top[i].price !in rest
      invariant forall p :: p in levels && p !in rest ==> Lists(top, p)
      invariant forall i, j :: 0 <= i < j < |top| ==> Better(side, top[i].price, top[j].price)
      invariant forall p, i :: p in rest && 0 <= i < |top| ==> Better(side, top[i].price, p)
      decreases rest
    {
      var best := BestOf(rest, side);
      ghost var before := top;
      top := top + [PricedLevel(best, levels[best])];
      rest := rest - {best};
      ListsMore(before, top[|before|]);
    }
    assert |levels| == |levels.Keys|;
  }

  lemma EmptyDelta(row: Row, sequence: Option<nat>)
    ensures AdvanceDelta(row, sequence, []) == (row, Silent)
  {
  }

  method NamedBy(e: Event) returns (ids: set<AssetId>)
    ensures forall a :: a in ids <==> Names(e, a)
  {
    match e {
      case PriceChange(named, _, changes) =>
        ids := if named.Some? then {named.value} else {};
        for i := 0 to |changes|
          invariant forall a :: a in ids <==> named == Some(a) || exists k | 0 <= k < i :: changes[k].asset == Some(a)
        {
          if changes[i].asset.Some? {
            ids := ids + {changes[i].asset.value};
          }
        }
      case _ =>
        ids := if e.asset.Some? then {e.asset.value} else {};
    }
  }

  method GroupChanges(changes: seq<Change>) returns (byAsset: map<AssetId, seq<Change>>)
    ensures forall a :: a in byAsset <==> ChangesOf(changes, a) != []
    ensures forall a :: a in byAsset ==> byAsset[a] == ChangesOf(changes, a)
  {
    byAsset := map[];
    for i := 0 to |changes|
      invariant forall a :: a in byAsset <==> ChangesOf(changes[..i], a) != []
      invariant forall a :: a in byAsset ==> byAsset[a] == ChangesOf(changes[..i], a)
    {
      assert changes[..i + 1][..i] == changes[..i];
      if changes[i].asset.Some? {
        var a := changes[i].asset.value;
        byAsset := byAsset[a := (if a in byAsset then byAsset[a] else []) + [changes[i]]];
      }
    }
    assert changes[..|changes|] == changes;
  }
}
