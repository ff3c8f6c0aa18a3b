/** Comparing the local journal with what the exchange reports, and applying the result. */
module Reconciliation {
  import opened Common
  import opened Accounting
  import opened Rows

  /** The exchange's status names, grouped as the reconciler groups them. */
  datatype StatusGroup = OpenGroup | CanceledGroup | FilledGroup | Unsupported

  datatype LocalFact = LocalFact(
    id: OrderId,
    exchangeId: Option<ExchangeId>,
    market: MarketId,
    token: TokenId,
    side: Side,
    price: int,
    size: int,
    filled: int,
    reservationId: Option<OrderId>,
    reservation: Option<Reservation>)

  datatype ExchangeFact = ExchangeFact(
    exchangeId: ExchangeId,
    market: MarketId,
    token: TokenId,
    side: Side,
    price: int,
    original: int,
    matched: int,
    status: StatusGroup)
  {
    function Remaining(): int { MaxInt(0, original - matched) }
  }

  datatype Kind =
    | OpenConfirmed | CanceledConfirmed | FilledConfirmed
    | SettlementPending | MissingFills | MissingReservation | ReservationMismatch
    | Conflict | UnknownOrder | ExternalOrphan

  datatype Action = Action(
    local: Option<OrderId>,
    exchangeId: Option<ExchangeId>,
    kind: Kind,
    remaining: Option<int>)
  {
    predicate Blocker() {
      kind !in {OpenConfirmed, CanceledConfirmed, FilledConfirmed}
    }

    predicate Sticky() {
      kind != SettlementPending
    }
  }

  function Distance(a: int, b: int): int { if a >= b then a - b else b - a }

  /** Prices are compared to 1e-6, which on the four-decimal grid is equality. */
  predicate IdentityAgrees(local: LocalFact, exchange: ExchangeFact) {
    && local.market == exchange.market
    && local.token == exchange.token
    && local.side == exchange.side
    && local.price == exchange.price
    && Distance(local.size, exchange.original) <= SIZE_TOLERANCE
    && (local.reservation.Some? ==>
          var r := local.reservation.value;
          && r.side == local.side
          && r.market == local.market
          && r.token == local.token
          && r.limit == local.price
          && Distance(r.original, local.size) <= SIZE_TOLERANCE)
  }

  /** The verdict on one local order. */
  function Classify(local: LocalFact, found: Option<ExchangeFact>, unsettled: int): Action {
    if local.exchangeId.None? then Action(Some(local.id), None, UnknownOrder, None)
    else if found.None? then Action(Some(local.id), local.exchangeId, UnknownOrder, None)
    else
      var exchange := found.value;
      var about := Action(Some(local.id), Some(exchange.exchangeId), Conflict, None);
      var delta := exchange.matched - local.filled;
      if !IdentityAgrees(local, exchange) then about
      else if delta > SIZE_TOLERANCE then
        if unsettled + SIZE_TOLERANCE >= delta then
          about.(kind := SettlementPending, remaining := Some(exchange.Remaining()))
        else about.(kind := MissingFills)
      else if delta < -SIZE_TOLERANCE then about
      else
        match exchange.status
        case OpenGroup =>
          if local.reservationId.None? || local.reservation.None? then about.(kind := MissingReservation)
          else about.(kind := OpenConfirmed, remaining := Some(exchange.Remaining()))
        case CanceledGroup =>
          about.(kind := CanceledConfirmed, remaining := Some(0))
        case FilledGroup =>
          if exchange.Remaining() > SIZE_TOLERANCE then about
          else if local.reservationId.None? || local.reservation.None?
                  || local.reservation.value.remaining > SIZE_TOLERANCE then
            about.(kind := ReservationMismatch)
          else about.(kind := FilledConfirmed, remaining := Some(0))
        case Unsupported => about.(kind := UnknownOrder)
  }

  /** Open orders by exchange id; a repeated id keeps its last row. */
  function OpenTable(open: seq<ExchangeFact>): (t: map<ExchangeId, ExchangeFact>)
    ensures forall x :: x in t <==> exists i :: 0 <= i < |open| && open[i].exchangeId == x
  {
    if open == [] then map[]
    else OpenTable(open[..|open| - 1])[open[|open| - 1].exchangeId := open[|open| - 1]]
  }

  datatype Evidence = Evidence(
    open: map<ExchangeId, ExchangeFact>,
    details: map<ExchangeId, ExchangeFact>,
    unsettled: map<ExchangeId, int>)
  {
    function FactFor(local: LocalFact): Option<ExchangeFact> {
      if local.exchangeId.None? then None
      else if local.exchangeId.value in open then Some(open[local.exchangeId.value])
      else if local.exchangeId.value in details then Some(details[local.exchangeId.value])
      else None
    }

    function UnsettledFor(local: LocalFact): int {
      var found := FactFor(local);
      if found.Some? && found.value.exchangeId in unsettled then unsettled[found.value.exchangeId] else 0
    }

    function Judge(local: LocalFact): Action {
      Classify(local, FactFor(local), UnsettledFor(local))
    }
  }

  function MappedIds(locals: seq<LocalFact>): set<ExchangeId> {
    set i | 0 <= i < |locals| && locals[i].exchangeId.Some? :: locals[i].exchangeId.value
  }

  function Orphan(fact: ExchangeFact, id: ExchangeId): Action {
    Action(None, Some(id), ExternalOrphan, Some(fact.Remaining()))
  }

  ghost function Elements(ids: seq<ExchangeId>): set<ExchangeId> {
    set x | x in ids
  }

  /** A list of exchange ids in ascending order, without repetition. */
  ghost predicate Ascending(ids: seq<ExchangeId>) {
    forall i, j :: 0 <= i < j < |ids| ==> ids[i] < ids[j]
  }

  ghost predicate ReportWith(
    actions: seq<Action>, locals: seq<LocalFact>, e: Evidence, orphans: seq<ExchangeId>)
  {
    && Ascending(orphans)
    && Elements(orphans) == e.open.Keys - MappedIds(locals)
    && |actions| == |locals| + |orphans|
    && (forall i :: 0 <= i < |locals| ==> actions[i] == e.Judge(locals[i]))
    && (forall i :: 0 <= i < |orphans| ==>
          orphans[i] in e.open && actions[|locals| + i] == Orphan(e.open[orphans[i]], orphans[i]))
  }

  /** The report: one verdict per local order in order, then one orphan per open
      exchange order nobody claims, by ascending exchange id. */
  ghost predicate IsReport(actions: seq<Action>, locals: seq<LocalFact>, e: Evidence) {
    exists orphans: seq<ExchangeId> :: ReportWith(actions, locals, e, orphans)
  }

  predicate Safe(actions: seq<Action>) {
    forall i :: 0 <= i < |actions| ==> !actions[i].Blocker()
  }

  method SmallestOf(s: set<ExchangeId>) returns (least: ExchangeId)
    requires s != {}
    ensures least in s && forall x :: x in s ==> least <= x
  {
    least :| least in s;
    var rest := s - {least};
    while rest != {}
      invariant least in s && rest <= s
      invariant forall x :: x in s ==> x in rest || least <= x
      decreases rest
    {
      var x :| x in rest;
      if x < least {
        least := x;
      }
      rest := rest - {x};
    }
  }

  method IndexOpen(open: seq<ExchangeFact>) returns (openById: map<ExchangeId, ExchangeFact>)
    ensures openById == OpenTable(open)
  {
    openById := map[];
    for i := 0 to |open|
      invariant openById == OpenTable(open[..i])
    {
      assert open[..i + 1][..i] == open[..i];
      openById := openById[open[i].exchangeId := open[i]];
    }
    assert open[..|open|] == open;
  }

  method CollectMapped(locals: seq<LocalFact>) returns (ids: set<ExchangeId>)
    ensures ids == MappedIds(locals)
  {
    ids := {};
    for i := 0 to |locals|
      invariant ids == MappedIds(locals[..i])
    {
      assert locals[..i + 1] == locals[..i] + [locals[i]];
      MappedAppend(locals[..i], locals[i]);
      if locals[i].exchangeId.Some? {
        ids := ids + {locals[i].exchangeId.value};
      }
    }
    assert locals[..|locals|] == locals;
  }

  method ReconcileOrderFacts(
    locals: seq<LocalFact>, open: seq<ExchangeFact>,
    details: map<ExchangeId, ExchangeFact>, unsettled: map<ExchangeId, int>
  ) returns (actions: seq<Action>)
    ensures IsReport(actions, locals, Evidence(OpenTable(open), details, unsettled))
  {
    var openById := IndexOpen(open);
    var localIds := CollectMapped(locals);
    var e := Evidence(openById, details, unsettled);
    hide Evidence.Judge, MappedIds, OpenTable;
    actions := [];
    for i := 0 to |locals|
      invariant |actions| == i
      invariant forall j :: 0 <= j < i ==> actions[j] == e.Judge(locals[j])
    {
      actions := actions + [e.Judge(locals[i])];
    }
    var pending := openById.Keys - localIds;
    ghost var orphans: seq<ExchangeId> := [];
    while pending != {}
      invariant pending <= openById.Keys
      invariant Ascending(orphans)
      invariant forall x, i :: x in pending && 0 <= i < |orphans| ==> orphans[i] < x
      invariant Elements(orphans) + pending == openById.Keys - localIds
      invariant |actions| == |locals| + |orphans|
      invariant forall i :: 0 <= i < |locals| ==> actions[i] == e.Judge(locals[i])
      invariant forall i :: 0 <= i < |orphans| ==>
                  orphans[i] in openById && actions[|locals| + i] == Orphan(openById[orphans[i]], orphans[i])
      decreases pending
    {
      var id := SmallestOf(pending);
      actions := actions + [Orphan(openById[id], id)];
      assert Elements(orphans + [id]) == Elements(orphans) + {id};
      orphans := orphans + [id];
      pending := pending - {id};
    }
    assert ReportWith(actions, locals, e, orphans);
  }

  lemma MappedAppend(locals: seq<LocalFact>, l: LocalFact)
    ensures MappedIds(locals + [l])
            == MappedIds(locals) + (if l.exchangeId.Some? then {l.exchangeId.value} else {})
  {
    var all := locals + [l];
    forall x | x in MappedIds(locals) ensures x in MappedIds(all) {
      var i :| 0 <= i < |locals| && locals[i].exchangeId == Some(x);
      assert all[i].exchangeId == Some(x);
    }
    if l.exchangeId.Some? {
      assert all[|locals|].exchangeId == Some(l.exchangeId.value);
    }
  }

  // ----- What the report says -----------------------------------------------

  /** A local order the exchange agrees with. */
  ghost predicate Agrees(local: LocalFact, e: Evidence) {
    e.FactFor(local).Some? &&
    var exchange := e.FactFor(local).value;
    && IdentityAgrees(local, exchange)
    && Distance(exchange.matched, local.filled) <= SIZE_TOLERANCE
    && (exchange.status.CanceledGroup?
        || (local.reservationId.Some? && local.reservation.Some?
            && (exchange.status.OpenGroup?
                || (exchange.status.FilledGroup?
                    && exchange.Remaining() <= SIZE_TOLERANCE
                    && local.reservation.value.remaining <= SIZE_TOLERANCE))))
  }

  /** The pass is safe exactly when every local order agrees with an exchange fact and
      no open exchange order is unclaimed. */
  lemma SafeMeansAgreement(actions: seq<Action>, locals: seq<LocalFact>, e: Evidence)
    requires IsReport(actions, locals, e)
    ensures Safe(actions) <==> ((forall i :: 0 <= i < |locals| ==> Agrees(locals[i], e))
                                && e.open.Keys <= MappedIds(locals))
  {
    var orphans :| ReportWith(actions, locals, e, orphans);
    forall i | 0 <= i < |locals| ensures !actions[i].Blocker() <==> Agrees(locals[i], e) {
      JudgedClear(locals[i], e);
    }
    hide Agrees, Evidence.Judge, MappedIds;
    if orphans == [] {
      assert Elements(orphans) == {};
      assert Safe(actions) <==> forall i :: 0 <= i < |locals| ==> !actions[i].Blocker();
      assert e.open.Keys - MappedIds(locals) == {};
      assert forall k :: k in e.open.Keys ==> k in MappedIds(locals) || k in e.open.Keys - MappedIds(locals);
    } else {
      assert orphans[0] in Elements(orphans);
      assert !(e.open.Keys <= MappedIds(locals));
      assert actions[|locals| + 0] == Orphan(e.open[orphans[0]], orphans[0]);
      assert actions[|locals|].Blocker();
    }
  }

  lemma JudgedClear(local: LocalFact, e: Evidence)
    ensures !e.Judge(local).Blocker() <==> Agrees(local, e)
  {
  }

  /** Which dictionary row answers for an id does not depend on the order of the list,
      as long as ids are not repeated. */
  lemma {:induction false} OpenTableRow(open: seq<ExchangeFact>, i: int)
    requires 0 <= i < |open|
    requires forall a, b :: 0 <= a < b < |open| ==> open[a].exchangeId != open[b].exchangeId
    ensures open[i].exchangeId in OpenTable(open) && OpenTable(open)[open[i].exchangeId] == open[i]
  {
    if i < |open| - 1 {
      OpenTableRow(open[..|open| - 1], i);
    }
  }

  /** A repeated id is answered by its last row. */
  lemma {:induction false} OpenTableKeepsLast(open: seq<ExchangeFact>, x: ExchangeId)
    requires x in OpenTable(open)
    ensures exists i :: 0 <= i < |open| && open[i].exchangeId == x && OpenTable(open)[x] == open[i]
                        && forall j :: i < j < |open| ==> open[j].exchangeId != x
  {
    var n := |open| - 1;
    if open[n].exchangeId != x {
      OpenTableKeepsLast(open[..n], x);
      var i :| 0 <= i < n && open[..n][i].exchangeId == x && OpenTable(open[..n])[x] == open[..n][i]
               && forall j :: i < j < n ==> open[..n][j].exchangeId != x;
      assert open[i] == open[..n][i];
      forall j | i < j < |open| ensures open[j].exchangeId != x {
        assert j < n ==> open[j] == open[..n][j];
      }
    } else {
      assert OpenTable(open)[x] == open[n];
    }
  }

  /** An open exchange order that no local order claims is reported, with what is left of it. */
  lemma UnclaimedIsReported(actions: seq<Action>, locals: seq<LocalFact>, e: Evidence, x: ExchangeId)
    requires IsReport(actions, locals, e) && x in e.open
    requires forall i :: 0 <= i < |locals| ==> locals[i].exchangeId != Some(x)
    ensures var left := if e.open[x].original >= e.open[x].matched then e.open[x].original - e.open[x].matched else 0;
            Action(None, Some(x), ExternalOrphan, Some(left)) in actions
  {
    var orphans :| ReportWith(actions, locals, e, orphans);
    hide Evidence.Judge;
    assert x in Elements(orphans);
    var i :| 0 <= i < |orphans| && orphans[i] == x;
    assert actions[|locals| + i] == Orphan(e.open[x], x);
  }

  lemma OpenTableIsOrderFree(a: seq<ExchangeFact>, b: seq<ExchangeFact>)
    requires multiset(a) == multiset(b)
    requires forall i, j :: 0 <= i < j < |a| ==> a[i].exchangeId != a[j].exchangeId
    requires forall i, j :: 0 <= i < j < |b| ==> b[i].exchangeId != b[j].exchangeId
    ensures OpenTable(a) == OpenTable(b)
  {
    hide OpenTable;
    forall x | x in OpenTable(a) ensures x in OpenTable(b) && OpenTable(b)[x] == OpenTable(a)[x] {
      var i :| 0 <= i < |a| && a[i].exchangeId == x;
      OpenTableRow(a, i);
      assert a[i] in multiset(a);
      var j :| 0 <= j < |b| && b[j] == a[i];
      OpenTableRow(b, j);
    }
    forall x | x in OpenTable(b) ensures x in OpenTable(a) {
      var j :| 0 <= j < |b| && b[j].exchangeId == x;
      assert b[j] in multiset(b);
      var i :| 0 <= i < |a| && a[i] == b[j];
      OpenTableRow(a, i);
    }
  }

  lemma RemoveAt<T>(s: seq<T>, k: nat)
    requires k < |s|
    ensures multiset(s) == multiset(s[..k] + s[k + 1..]) + multiset{s[k]}
    ensures multiset(s[..k] + s[k + 1..]) == multiset(s) - multiset{s[k]}
  {
    assert s == s[..k] + [s[k]] + s[k + 1..];
  }

  /** Judging a permuted list of orders permutes the verdicts. */
  lemma {:induction false} JudgePermuted(a: seq<LocalFact>, b: seq<LocalFact>, x: seq<Action>, y: seq<Action>, e: Evidence)
    requires multiset(a) == multiset(b) && |x| == |a| && |y| == |b|
    requires forall i :: 0 <= i < |a| ==> x[i] == e.Judge(a[i])
    requires forall i :: 0 <= i < |b| ==> y[i] == e.Judge(b[i])
    ensures |a| == |b| && multiset(x) == multiset(y)
    decreases |a|
  {
    assert |multiset(a)| == |a| && |multiset(b)| == |b|;
    hide Evidence.Judge;
    if a != [] {
      assert a[0] in multiset(a);
      var k :| 0 <= k < |b| && b[k] == a[0];
      var b', y' := b[..k] + b[k + 1..], y[..k] + y[k + 1..];
      assert forall i :: 0 <= i < |b'| ==> y'[i] == e.Judge(b'[i]);
      TailsPermute(a, b, k, b');
      JudgePermuted(a[1..], b', x[1..], y', e);
      HeadsPermute(x, y, k, y');
    }
  }

  lemma TailsPermute<T>(a: seq<T>, b: seq<T>, k: nat, b': seq<T>)
    requires multiset(a) == multiset(b) && a != [] && k < |b| && a[0] == b[k] && b' == b[..k] + b[k + 1..]
    ensures multiset(a[1..]) == multiset(b')
  {
    RemoveAt(a, 0);
    RemoveAt(b, k);
    assert a[..0] + a[1..] == a[1..];
  }

  lemma HeadsPermute<T>(x: seq<T>, y: seq<T>, k: nat, y': seq<T>)
    requires x != [] && k < |y| && x[0] == y[k] && y' == y[..k] + y[k + 1..] && multiset(x[1..]) == multiset(y')
    ensures multiset(x) == multiset(y)
  {
    RemoveAt(x, 0);
    RemoveAt(y, k);
    assert x[..0] + x[1..] == x[1..];
  }

  lemma {:induction false} AscendingIsUnique(a: seq<ExchangeId>, b: seq<ExchangeId>)
    requires Ascending(a) && Ascending(b)
    requires Elements(a) == Elements(b)
    ensures a == b
    decreases |a|
  {
    OnlyEmptyHasNoElements(a);
    OnlyEmptyHasNoElements(b);
    if a != [] {
      assert a[0] in Elements(b) && b[0] in Elements(a);
      assert a[0] == b[0];
      TailElements(a);
      TailElements(b);
      AscendingIsUnique(a[1..], b[1..]);
      assert a == [a[0]] + a[1..] && b == [b[0]] + b[1..];
    }
  }

  lemma OnlyEmptyHasNoElements(a: seq<ExchangeId>)
    ensures a == [] <==> Elements(a) == {}
  {
    if a != [] {
      assert a[0] in Elements(a);
    }
  }

  lemma TailElements(a: seq<ExchangeId>)
    requires Ascending(a) && a != []
    ensures Elements(a[1..]) == Elements(a) - {a[0]} && Ascending(a[1..])
  {
    forall x | x in Elements(a) - {a[0]} ensures x in Elements(a[1..]) {
      var k :| 0 <= k < |a| && a[k] == x;
      assert a[1..][k - 1] == x;
    }
  }

  lemma MappedIdsOrderFree(a: seq<LocalFact>, b: seq<LocalFact>)
    requires multiset(a) == multiset(b)
    ensures MappedIds(a) <= MappedIds(b)
  {
    forall x | x in MappedIds(a) ensures x in MappedIds(b) {
      var i :| 0 <= i < |a| && a[i].exchangeId == Some(x);
      assert a[i] in multiset(a);
      var j :| 0 <= j < |b| && b[j] == a[i];
    }
  }

  /** Reordering the local orders and the open list reorders the report and keeps its verdict. */
  lemma ReportIsOrderFree(
    x: seq<Action>, locals: seq<LocalFact>, open: seq<ExchangeFact>,
    y: seq<Action>, locals': seq<LocalFact>, open': seq<ExchangeFact>,
    details: map<ExchangeId, ExchangeFact>, unsettled: map<ExchangeId, int>)
    requires multiset(locals) == multiset(locals') && multiset(open) == multiset(open')
    requires forall i, j :: 0 <= i < j < |open| ==> open[i].exchangeId != open[j].exchangeId
    requires forall i, j :: 0 <= i < j < |open'| ==> open'[i].exchangeId != open'[j].exchangeId
    requires IsReport(x, locals, Evidence(OpenTable(open), details, unsettled))
    requires IsReport(y, locals', Evidence(OpenTable(open'), details, unsettled))
    ensures multiset(x) == multiset(y)
    ensures Safe(x) <==> Safe(y)
  {
    OpenTableIsOrderFree(open, open');
    var e := Evidence(OpenTable(open), details, unsettled);
    MappedIdsOrderFree(locals, locals');
    MappedIdsOrderFree(locals', locals);
    var a := OrphansOf(x, locals, e);
    var b := OrphansOf(y, locals', e);
    hide *;
    AscendingIsUnique(a, b);
    SameOrphansPermute(x, locals, y, locals', e, a);
    if Safe(x) {
      SameMultisetSameSafety(x, y);
    }
    if Safe(y) {
      SameMultisetSameSafety(y, x);
    }
  }

  lemma OrphansOf(x: seq<Action>, locals: seq<LocalFact>, e: Evidence) returns (orphans: seq<ExchangeId>)
    requires IsReport(x, locals, e)
    ensures ReportWith(x, locals, e, orphans)
    ensures Ascending(orphans) && Elements(orphans) == e.open.Keys - MappedIds(locals)
  {
    orphans :| ReportWith(x, locals, e, orphans);
  }

  lemma SameOrphansPermute(
    x: seq<Action>, locals: seq<LocalFact>, y: seq<Action>, locals': seq<LocalFact>, e: Evidence, orphans: seq<ExchangeId>)
    requires multiset(locals) == multiset(locals')
    requires ReportWith(x, locals, e, orphans) && ReportWith(y, locals', e, orphans)
    ensures multiset(x) == multiset(y)
  {
    hide Evidence.Judge, MappedIds, Orphan, Ascending, Elements;
    var m, n := |locals|, |locals'|;
    assert x[m..] == y[n..] by {
      forall i | 0 <= i < |orphans| ensures x[m..][i] == y[n..][i] {
        assert orphans[i] in e.open;
        assert x[m..][i] == x[m + i] == Orphan(e.open[orphans[i]], orphans[i]);
        assert y[n..][i] == y[n + i] == Orphan(e.open[orphans[i]], orphans[i]);
      }
    }
    JudgePermuted(locals, locals', x[..m], y[..n], e);
    assert x == x[..m] + x[m..];
    assert y == y[..n] + y[n..];
  }

  lemma SameMultisetSameSafety(x: seq<Action>, y: seq<Action>)
    requires multiset(x) == multiset(y) && Safe(x)
    ensures Safe(y)
  {
    forall i | 0 <= i < |y| ensures !y[i].Blocker() {
      assert y[i] in multiset(y);
      var j :| 0 <= j < |x| && x[j] == y[i];
    }
  }
}
