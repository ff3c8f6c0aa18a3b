/** The in-memory inventory cache: a guarded copy of the committed ledger row of a market,
    kept by messages that may arrive late and out of order. */
module Cache {
  import opened Common

  type MarketId = nat

  /** The balance columns of a committed ledger row. */
  datatype LedgerRow = LedgerRow(yes: int, no: int, yesCapital: real, noCapital: real, realized: real)

  datatype Snapshot = Snapshot(
    yes: int, no: int, yesCapital: real, noCapital: real, realized: real, version: nat,
    pendingYes: real, pendingNo: real, lastFillAt: real)

  /** What a writer announces; fields it leaves out are None. */
  datatype Publish = Publish(
    yes: int, no: int, yesCapital: Option<real>, noCapital: Option<real>,
    realized: Option<real>, lastFillAt: Option<real>, version: Option<nat>)

  function SnapshotOf(row: LedgerRow, version: nat): Snapshot {
    Snapshot(row.yes, row.no, row.yesCapital, row.noCapital, row.realized, version, 0.0, 0.0, 0.0)
  }

  /** A capital that is not announced follows the exposure in proportion. */
  function FollowCapital(announced: Option<real>, capital: real, oldShares: int, newShares: int): real {
    if announced.Some? then announced.value
    else if oldShares > 0 then capital * (newShares as real / oldShares as real)
    else 0.0
  }

  function OrElse<T>(o: Option<T>, fallback: T): T { if o.Some? then o.value else fallback }

  /** The version guard: an announcement older than the cache is ignored. */
  function Accept(s: Snapshot, p: Publish): Snapshot {
    if p.version.Some? && p.version.value < s.version then s
    else
      Snapshot(p.yes, p.no,
               FollowCapital(p.yesCapital, s.yesCapital, s.yes, p.yes),
               FollowCapital(p.noCapital, s.noCapital, s.no, p.no),
               OrElse(p.realized, s.realized), OrElse(p.version, s.version),
               s.pendingYes, s.pendingNo, OrElse(p.lastFillAt, s.lastFillAt))
  }

  /** A capital after an announcement: the announced one, or one that keeps the average cost. */
  predicate CapitalFollows(announced: Option<real>, before: real, after: real, oldShares: int, newShares: int) {
    match announced
    case Some(capital) => after == capital
    case None =>
      if oldShares > 0 then Times(after, oldShares as real) == Times(before, newShares as real) else after == 0.0
  }

  lemma FollowedCapital(announced: Option<real>, capital: real, oldShares: int, newShares: int)
    ensures CapitalFollows(announced, capital, FollowCapital(announced, capital, oldShares, newShares), oldShares, newShares)
  {
    if announced.None? && oldShares > 0 {
      var ratio := newShares as real / oldShares as real;
      assert ratio * oldShares as real == newShares as real;
      assert capital * ratio * oldShares as real == capital * (ratio * oldShares as real);
    }
  }

  /** What an announcement does to the cache, field by field: nothing if it is older; otherwise the
      shares are replaced, each capital is replaced or follows its shares at the average cost, the
      rest is replaced where announced, and what is pending stays. */
  lemma AcceptIs(s: Snapshot, p: Publish)
    ensures var c := Accept(s, p);
            if p.version.Some? && p.version.value < s.version then c == s
            else
              && c.yes == p.yes && c.no == p.no
              && CapitalFollows(p.yesCapital, s.yesCapital, c.yesCapital, s.yes, p.yes)
              && CapitalFollows(p.noCapital, s.noCapital, c.noCapital, s.no, p.no)
              && c.realized == (match p.realized case Some(x) => x case None => s.realized)
              && c.version == (match p.version case Some(x) => x case None => s.version)
              && c.lastFillAt == (match p.lastFillAt case Some(x) => x case None => s.lastFillAt)
              && c.pendingYes == s.pendingYes && c.pendingNo == s.pendingNo
  {
    FollowedCapital(p.yesCapital, s.yesCapital, s.yes, p.yes);
    FollowedCapital(p.noCapital, s.noCapital, s.no, p.no);
    hide FollowCapital, CapitalFollows;
  }

  class InventoryStateManager {
    var state: map<MarketId, Snapshot>

    constructor ()
      ensures state == map[]
    {
      state := map[];
    }

    /** The second half of loading: a row read earlier is used only if nothing is cached yet. */
    method FinishLoad(market: MarketId, loaded: Snapshot) returns (current: Snapshot)
      modifies this
      ensures state == if market in old(state) then old(state) else old(state)[market := loaded]
      ensures market in state && current == state[market]
    {
      if market !in state {
        state := state[market := loaded];
      }
      return state[market];
    }

    method ApplyReconciliationSnapshot(market: MarketId, p: Publish) returns (current: Snapshot)
      requires market in state
      modifies this
      ensures state == old(state)[market := Accept(old(state)[market], p)] && current == state[market]
    {
      var snap := state[market];
      if p.version.Some? && p.version.value < snap.version {
        assert state[market := snap] == state;
        return snap;
      }
      ghost var before := snap;
      var oldYes, oldNo := snap.yes, snap.no;
      snap := snap.(yes := p.yes, no := p.no);
      if p.yesCapital.Some? {
        snap := snap.(yesCapital := p.yesCapital.value);
      } else if oldYes > 0 {
        snap := snap.(yesCapital := snap.yesCapital * (p.yes as real / oldYes as real));
      } else {
        snap := snap.(yesCapital := 0.0);
      }
      if p.noCapital.Some? {
        snap := snap.(noCapital := p.noCapital.value);
      } else if oldNo > 0 {
        snap := snap.(noCapital := snap.noCapital * (p.no as real / oldNo as real));
      } else {
        snap := snap.(noCapital := 0.0);
      }
      assert snap.yesCapital == FollowCapital(p.yesCapital, before.yesCapital, oldYes, p.yes);
      assert snap.noCapital == FollowCapital(p.noCapital, before.noCapital, oldNo, p.no);
      hide FollowCapital;
      if p.realized.Some? {
        snap := snap.(realized := p.realized.value);
      }
      if p.lastFillAt.Some? {
        snap := snap.(lastFillAt := p.lastFillAt.value);
      }
      if p.version.Some? {
        snap := snap.(version := p.version.value);
      }
      state := state[market := snap];
      return snap;
    }

    method UpdatePendingBuyNotional(market: MarketId, isYes: bool, notional: real)
      requires market in state
      modifies this
      ensures state.Keys == old(state).Keys
      ensures forall m :: m in state && m != market ==> state[m] == old(state)[m]
      ensures state[market] == if isYes then old(state)[market].(pendingYes := MaxReal(0.0, notional))
                               else old(state)[market].(pendingNo := MaxReal(0.0, notional))
    {
      if isYes {
        state := state[market := state[market].(pendingYes := MaxReal(0.0, notional))];
      } else {
        state := state[market := state[market].(pendingNo := MaxReal(0.0, notional))];
      }
    }

    /** The bulk load replaces entries without looking at their version. */
    method LoadAll(rows: map<MarketId, Snapshot>)
      modifies this
      ensures state == old(state) + rows
    {
      state := state + rows;
    }
  }

  // ----- One market over a whole run ----------------------------------------

  /** committed[v] is the row at state version v. An overwrite announces its row while it
      still holds the row lock, before it commits. */
  datatype System = System(
    committed: seq<LedgerRow>,
    overwriting: Option<LedgerRow>,
    announced: map<nat, Publish>,
    loading: set<Snapshot>,
    cache: Option<Snapshot>)

  datatype Step =
    | CommitFill(row: LedgerRow, at: real)
    | BeginOverwrite(row: LedgerRow)
    | CommitOverwrite
    | AbortOverwrite
    | ReadForLoad
    | FinishLoadStep(loaded: Snapshot)
    | BulkLoad(loaded: Snapshot)
    | Deliver(version: nat)
    | TrackPending(isYes: bool, notional: real)

  function Latest(s: System): nat
    requires s.committed != []
  {
    |s.committed| - 1
  }

  ghost predicate Enabled(s: System, step: Step) {
    && s.committed != []
    && match step
       case CommitFill(_, _) => s.overwriting.None?
       case BeginOverwrite(row) => s.overwriting.None? && row.realized == s.committed[Latest(s)].realized
       case CommitOverwrite => s.overwriting.Some?
       // the row is announced, and the cache has taken it, before the commit is tried
       case AbortOverwrite => s.overwriting.Some? && |s.committed| !in s.announced
       case ReadForLoad => true
       case FinishLoadStep(loaded) => loaded in s.loading
       case BulkLoad(loaded) => loaded in s.loading
       case Deliver(version) => version in s.announced && s.cache.Some?
       case TrackPending(_, _) => s.cache.Some?
  }

  function Next(s: System, step: Step): System
    requires Enabled(s, step)
  {
    match step
    case CommitFill(row, at) =>
      s.(committed := s.committed + [row],
         announced := s.announced[|s.committed| :=
           Publish(row.yes, row.no, Some(row.yesCapital), Some(row.noCapital), Some(row.realized), Some(at), Some(|s.committed|))])
    case BeginOverwrite(row) =>
      s.(overwriting := Some(row),
         announced := s.announced[|s.committed| :=
           Publish(row.yes, row.no, Some(row.yesCapital), Some(row.noCapital), None, None, Some(|s.committed|))])
    case CommitOverwrite => s.(committed := s.committed + [s.overwriting.value], overwriting := None)
    case AbortOverwrite => s.(overwriting := None)
    case ReadForLoad => s.(loading := s.loading + {SnapshotOf(s.committed[Latest(s)], Latest(s))})
    case FinishLoadStep(loaded) => if s.cache.Some? then s else s.(cache := Some(loaded))
    case BulkLoad(loaded) => s.(cache := Some(loaded))
    case Deliver(version) =>
      s.(cache := Some(Accept(s.cache.value, s.announced[version])), announced := s.announced - {version})
    case TrackPending(isYes, notional) =>
      s.(cache := Some(if isYes then s.cache.value.(pendingYes := MaxReal(0.0, notional))
                       else s.cache.value.(pendingNo := MaxReal(0.0, notional))))
  }

  ghost predicate Init(s: System) {
    |s.committed| == 1 && s.overwriting.None? && s.announced == map[] && s.loading == {} && s.cache.None?
  }

  /** A bulk load that would replace a newer entry. */
  predicate StaleBulkLoad(s: System, step: Step) {
    step.BulkLoad? && s.cache.Some? && step.loaded.version < s.cache.value.version
  }

  ghost predicate FreeRun(systems: seq<System>, steps: seq<Step>) {
    && |systems| == |steps| + 1 && Init(systems[0])
    && forall i :: 0 <= i < |steps| ==> Enabled(systems[i], steps[i]) && systems[i + 1] == Next(systems[i], steps[i])
  }

  /** A run whose bulk loads replace no newer entry. */
  ghost predicate Run(systems: seq<System>, steps: seq<Step>) {
    FreeRun(systems, steps) && forall i :: 0 <= i < |steps| ==> !StaleBulkLoad(systems[i], steps[i])
  }

  /** Who writes: fills only, overwrites that always commit, or overwrites that may fail to. */
  datatype Writers = FillsOnly | Committing | Failing

  predicate Allowed(w: Writers, step: Step) {
    match w
    case FillsOnly => !step.BeginOverwrite?
    case Committing => !step.AbortOverwrite?
    case Failing => true
  }

  // ----- What the cache shows -----------------------------------------------

  /** How far versions have been given out: an open overwrite already uses the next one. */
  function Top(s: System): int {
    if s.overwriting.Some? then |s.committed| else |s.committed| - 1
  }

  function RowAt(s: System, v: nat): LedgerRow
    requires v <= Top(s)
  {
    if v < |s.committed| then s.committed[v] else s.overwriting.value
  }

  /** Exposure and capital of a row. */
  predicate Shows(c: Snapshot, row: LedgerRow) {
    c.yes == row.yes && c.no == row.no && c.yesCapital == row.yesCapital && c.noCapital == row.noCapital
  }

  predicate Carries(p: Publish, row: LedgerRow, v: nat, fillsOnly: bool) {
    && p.version == Some(v) && p.yes == row.yes && p.no == row.no
    && p.yesCapital == Some(row.yesCapital) && p.noCapital == Some(row.noCapital)
    && (fillsOnly ==> p.realized.Some?)
    && (p.realized.Some? ==> p.realized.value == row.realized)
  }

  ghost predicate GoodSnapshot(s: System, c: Snapshot, withProfit: bool) {
    c.version <= Top(s) && Shows(c, RowAt(s, c.version)) && (withProfit ==> c.realized == RowAt(s, c.version).realized)
  }

  /** The cache shows the committed row of its version. */
  predicate ShowsCommitted(s: System) {
    s.cache.Some? && s.cache.value.version < |s.committed| && Shows(s.cache.value, s.committed[s.cache.value.version])
  }

  /** The cache took the row of an overwrite that then failed to commit; its version will be
      given out again, or has been and is on its way. */
  predicate Phantom(s: System) {
    s.cache.Some? && (s.cache.value.version in s.announced || (s.overwriting.None? && s.cache.value.version == |s.committed|))
  }

  ghost predicate Content(s: System, w: Writers) {
    && s.committed != []
    && (w.FillsOnly? ==> s.overwriting.None?)
    && (forall v :: v in s.announced ==> v <= Top(s) && Carries(s.announced[v], RowAt(s, v), v, w.FillsOnly?))
    && (forall v :: v in s.announced && s.announced[v].realized.Some? ==> v < |s.committed|)
    && (forall l :: l in s.loading ==> l.version < |s.committed| && GoodSnapshot(s, l, true))
    && (s.cache.Some? ==> GoodSnapshot(s, s.cache.value, w.FillsOnly?) || (w.Failing? && Phantom(s)))
  }

  /** A version is still on its way or the cache is at least that new. */
  ghost predicate Reached(s: System, v: nat) {
    v in s.announced || (s.cache.Some? && s.cache.value.version >= v)
  }

  ghost predicate AllReached(s: System) {
    forall v: nat :: 1 <= v <= Top(s) ==> Reached(s, v)
  }

  lemma AcceptShows(c: Snapshot, p: Publish, row: LedgerRow, v: nat, fillsOnly: bool)
    requires Carries(p, row, v, fillsOnly)
    ensures var after := Accept(c, p);
            && after.version == (if v < c.version then c.version else v)
            && (v < c.version ==> after == c)
            && (v >= c.version ==> Shows(after, row) && after.realized == (if p.realized.Some? then row.realized else c.realized))
            && (fillsOnly ==> p.realized.Some?)
  {
  }

  lemma DeliverKeepsContent(s: System, v: nat, w: Writers)
    requires Content(s, w) && Enabled(s, Deliver(v))
    ensures Content(Next(s, Deliver(v)), w)
  {
    AcceptShows(s.cache.value, s.announced[v], RowAt(s, v), v, w.FillsOnly?);
    hide Accept, Shows, Carries;
  }

  lemma AnnounceKeepsContent(s: System, step: Step, w: Writers)
    requires Content(s, w) && Enabled(s, step) && Allowed(w, step) && (step.CommitFill? || step.BeginOverwrite?)
    ensures Content(Next(s, step), w)
  {
    var s' := Next(s, step);
    assert Carries(s'.announced[|s.committed|], step.row, |s.committed|, w.FillsOnly?);
    hide Shows, Carries;
  }

  lemma EndOverwriteKeepsContent(s: System, step: Step, w: Writers)
    requires Content(s, w) && Enabled(s, step) && Allowed(w, step) && (step.CommitOverwrite? || step.AbortOverwrite?)
    ensures Content(Next(s, step), w)
  {
    hide Shows, Carries;
  }

  lemma LoadKeepsContent(s: System, step: Step, w: Writers)
    requires Content(s, w) && Enabled(s, step)
    requires step.ReadForLoad? || step.FinishLoadStep? || step.BulkLoad? || step.TrackPending?
    ensures Content(Next(s, step), w)
  {
    hide Carries;
  }

  lemma StepKeepsContent(s: System, step: Step, w: Writers)
    requires Content(s, w) && Enabled(s, step) && Allowed(w, step)
    ensures Content(Next(s, step), w)
  {
    hide Content, Next, Enabled, Allowed;
    match step {
      case CommitFill(_, _) => AnnounceKeepsContent(s, step, w);
      case BeginOverwrite(_) => AnnounceKeepsContent(s, step, w);
      case CommitOverwrite => EndOverwriteKeepsContent(s, step, w);
      case AbortOverwrite => EndOverwriteKeepsContent(s, step, w);
      case Deliver(v) => DeliverKeepsContent(s, v, w);
      case _ => LoadKeepsContent(s, step, w);
    }
  }

  lemma {:induction false} RunKeepsContent(systems: seq<System>, steps: seq<Step>, n: nat, w: Writers)
    requires FreeRun(systems, steps) && n <= |steps|
    requires forall i :: 0 <= i < n ==> Allowed(w, steps[i])
    ensures Content(systems[n], w)
  {
    if n > 0 {
      RunKeepsContent(systems, steps, n - 1, w);
      StepKeepsContent(systems[n - 1], steps[n - 1], w);
      hide Content, Next, Enabled, Init;
    }
  }

  lemma StepKeepsReached(s: System, step: Step)
    requires Content(s, Failing) && AllReached(s) && Enabled(s, step) && !StaleBulkLoad(s, step)
    ensures AllReached(Next(s, step))
  {
    var s' := Next(s, step);
    if s.cache.Some? {
      StepKeepsVersionIff(s, step);
    }
    if step.Deliver? {
      AcceptShows(s.cache.value, s.announced[step.version], RowAt(s, step.version), step.version, false);
    }
    hide Content, Accept;
    forall k: nat | 1 <= k <= Top(s') ensures Reached(s', k) {
      assert k <= Top(s) ==> Reached(s, k);
    }
  }

  lemma {:induction false} RunKeepsReached(systems: seq<System>, steps: seq<Step>, n: nat)
    requires Run(systems, steps) && n <= |steps|
    ensures Content(systems[n], Failing) && AllReached(systems[n])
  {
    if n > 0 {
      RunKeepsReached(systems, steps, n - 1);
      StepKeepsContent(systems[n - 1], steps[n - 1], Failing);
      StepKeepsReached(systems[n - 1], steps[n - 1]);
      hide Content, Next, Enabled, Init;
    }
  }

  /** The cache is always the committed row of its own version (or of the overwrite that is
      about to commit), whatever the order in which announcements and loads arrive; while only
      fills happen that includes realized profit. */
  lemma CacheIsACommittedRow(systems: seq<System>, steps: seq<Step>, n: nat, w: Writers)
    requires FreeRun(systems, steps) && n <= |steps| && systems[n].cache.Some?
    requires !w.Failing? && forall i :: 0 <= i < n ==> Allowed(w, steps[i])
    ensures var s, c := systems[n], systems[n].cache.value;
            && c.version <= Top(s) && Shows(c, RowAt(s, c.version))
            && (w.FillsOnly? ==> c.version < |s.committed| && c.realized == s.committed[c.version].realized)
  {
    hide Enabled, Next, Init;
    RunKeepsContent(systems, steps, n, w);
  }

  /** If overwrites may fail to commit, the cache shows the committed row of its version exactly
      when that version was committed - unless a row for it is still on its way. */
  lemma CacheIsACommittedRowIff(systems: seq<System>, steps: seq<Step>, n: nat)
    requires FreeRun(systems, steps) && n <= |steps| && systems[n].cache.Some?
    requires systems[n].overwriting.None? && systems[n].cache.value.version !in systems[n].announced
    ensures ShowsCommitted(systems[n]) <==> systems[n].cache.value.version < |systems[n].committed|
    ensures systems[n].cache.value.version <= |systems[n].committed|
  {
    hide Enabled, Next, Init;
    RunKeepsContent(systems, steps, n, Failing);
  }

  /** One step moves the cached version back if and only if it is a stale bulk load. */
  lemma StepKeepsVersionIff(s: System, step: Step)
    requires Enabled(s, step) && s.cache.Some?
    ensures Next(s, step).cache.Some?
    ensures s.cache.value.version <= Next(s, step).cache.value.version <==> !StaleBulkLoad(s, step)
  {
    hide FollowCapital;
  }

  ghost predicate VersionsRise(systems: seq<System>) {
    forall i, j :: 0 <= i <= j < |systems| && systems[i].cache.Some? ==>
      systems[j].cache.Some? && systems[i].cache.value.version <= systems[j].cache.value.version
  }

  /** Over any run the cached version never goes back if and only if no bulk load is stale. */
  lemma VersionNeverGoesBackIff(systems: seq<System>, steps: seq<Step>)
    requires FreeRun(systems, steps)
    ensures VersionsRise(systems) <==> Run(systems, steps)
  {
    hide Enabled, Next, Init;
    if Run(systems, steps) {
      forall i, j | 0 <= i <= j < |systems| && systems[i].cache.Some?
        ensures systems[j].cache.Some? && systems[i].cache.value.version <= systems[j].cache.value.version {
        VersionNeverGoesBack(systems, steps, i, j);
      }
    }
    if VersionsRise(systems) {
      forall i | 0 <= i < |steps| ensures !StaleBulkLoad(systems[i], steps[i]) {
        if systems[i].cache.Some? {
          StepKeepsVersionIff(systems[i], steps[i]);
          assert systems[i + 1].cache.Some? && systems[i].cache.value.version <= systems[i + 1].cache.value.version;
        }
      }
    }
  }

  lemma {:induction false} VersionNeverGoesBack(systems: seq<System>, steps: seq<Step>, m: nat, n: nat)
    requires Run(systems, steps) && m <= n <= |steps| && systems[m].cache.Some?
    ensures systems[n].cache.Some? && systems[m].cache.value.version <= systems[n].cache.value.version
  {
    hide Next, Enabled, Init;
    if m < n {
      VersionNeverGoesBack(systems, steps, m, n - 1);
      StepKeepsVersionIff(systems[n - 1], steps[n - 1]);
    }
  }

  /** Once every announcement has arrived and no overwrite is open, the cache is the latest
      committed row if and only if its version was committed - always, unless the last row
      announced was that of an overwrite that failed to commit; the next commit heals it. */
  lemma DrainedCacheIsLatestIff(systems: seq<System>, steps: seq<Step>, n: nat)
    requires Run(systems, steps) && n <= |steps| && systems[n].cache.Some?
    requires systems[n].announced == map[] && systems[n].overwriting.None?
    ensures systems[n].committed != []
    ensures var s, c := systems[n], systems[n].cache.value;
            && (ShowsCommitted(s) && c.version == Latest(s) <==> c.version < |s.committed|)
            && c.version in {Latest(s), |s.committed|}
  {
    hide Enabled, Next, Init;
    RunKeepsReached(systems, steps, n);
    var s := systems[n];
    assert Top(s) >= 1 ==> Reached(s, Top(s));
  }

  /** While every overwrite commits, the drained cache is the latest committed row; while only
      fills happen, with its realized profit. */
  lemma DrainedCacheIsLatest(systems: seq<System>, steps: seq<Step>, n: nat, w: Writers)
    requires Run(systems, steps) && n <= |steps| && systems[n].cache.Some?
    requires systems[n].announced == map[] && systems[n].overwriting.None?
    requires !w.Failing? && forall i :: 0 <= i < n ==> Allowed(w, steps[i])
    ensures var s := systems[n];
            && s.committed != [] && s.cache.value.version == Latest(s) && Shows(s.cache.value, s.committed[Latest(s)])
            && (w.FillsOnly? ==> s.cache.value.realized == s.committed[Latest(s)].realized)
  {
    hide Enabled, Next, Init;
    RunKeepsContent(systems, steps, n, w);
    DrainedCacheIsLatestIff(systems, steps, n);
  }

  /** An overwrite that fails to commit leaves its row in the cache: everything was delivered,
      and the cache shows shares that no committed row ever held. */
  lemma FailedOverwriteStaysCached() returns (systems: seq<System>, steps: seq<Step>)
    ensures Run(systems, steps) && |systems| == 6
    ensures var s := systems[5];
            && s.announced == map[] && s.overwriting.None? && s.cache.Some?
            && s.cache.value.version == |s.committed|
            && forall v :: 0 <= v < |s.committed| ==> !Shows(s.cache.value, s.committed[v])
  {
    var row0, row1 := LedgerRow(10, 0, 5.0, 0.0, 0.0), LedgerRow(7, 0, 3.5, 0.0, 0.0);
    var s0 := System([row0], None, map[], {}, None);
    var t0, t1, t2, t3 := ReadForLoad, FinishLoadStep(SnapshotOf(row0, 0)), BeginOverwrite(row1), Deliver(1);
    var s1 := Next(s0, t0);
    var s2 := Next(s1, t1);
    var s3 := Next(s2, t2);
    var s4 := Next(s3, t3);
    var s5 := Next(s4, AbortOverwrite);
    assert s5.announced == map[];
    systems, steps := [s0, s1, s2, s3, s4, s5], [t0, t1, t2, t3, AbortOverwrite];
  }

  // ----- Realized profit ----------------------------------------------------

  /** The cache shows the realized profit of the row of its version. */
  predicate ProfitIsRight(s: System) {
    s.cache.Some? ==> s.cache.value.version <= Top(s) && s.cache.value.realized == RowAt(s, s.cache.value.version).realized
  }

  /** An overwrite announcement, which leaves realized profit out, is taken by a cache that has
      not yet seen a fill that changed it. */
  predicate Overtakes(s: System, step: Step) {
    && step.Deliver? && step.version in s.announced && s.cache.Some?
    && s.announced[step.version].realized.None?
    && s.cache.value.version <= step.version <= Top(s)
    && RowAt(s, step.version).realized != RowAt(s, s.cache.value.version).realized
  }

  /** One step keeps the cached profit right if and only if it is not such a delivery. */
  lemma StepKeepsProfitIff(s: System, step: Step)
    requires Content(s, Committing) && Enabled(s, step) && Allowed(Committing, step) && ProfitIsRight(s)
    ensures ProfitIsRight(Next(s, step)) <==> !Overtakes(s, step)
  {
    hide Accept, Carries, Shows;
    if step.Deliver? {
      AcceptShows(s.cache.value, s.announced[step.version], RowAt(s, step.version), step.version, false);
    }
  }

  /** While every overwrite commits, the cached profit is right in every state of a run if and
      only if no step of it is such a delivery. */
  lemma ProfitIsRightIff(systems: seq<System>, steps: seq<Step>)
    requires FreeRun(systems, steps) && forall i :: 0 <= i < |steps| ==> Allowed(Committing, steps[i])
    ensures (forall i :: 0 <= i < |systems| ==> ProfitIsRight(systems[i]))
       <==> (forall i :: 0 <= i < |steps| ==> !Overtakes(systems[i], steps[i]))
  {
    hide Enabled, Next, Init, Content, ProfitIsRight, Overtakes, Allowed;
    if forall i :: 0 <= i < |systems| ==> ProfitIsRight(systems[i]) {
      forall i | 0 <= i < |steps| ensures !Overtakes(systems[i], steps[i]) {
        RunKeepsContent(systems, steps, i, Committing);
        assert ProfitIsRight(systems[i]) && ProfitIsRight(systems[i + 1]);
        StepKeepsProfitIff(systems[i], steps[i]);
      }
    }
    if forall i :: 0 <= i < |steps| ==> !Overtakes(systems[i], steps[i]) {
      forall i | 0 <= i < |systems| ensures ProfitIsRight(systems[i]) {
        NothingOvertakes(systems, steps, i);
      }
    }
  }

  lemma {:induction false} NothingOvertakes(systems: seq<System>, steps: seq<Step>, n: nat)
    requires FreeRun(systems, steps) && n <= |steps|
    requires forall i :: 0 <= i < n ==> Allowed(Committing, steps[i]) && !Overtakes(systems[i], steps[i])
    ensures ProfitIsRight(systems[n])
  {
    hide Enabled, Next, Content, Overtakes, Allowed;
    if n > 0 {
      NothingOvertakes(systems, steps, n - 1);
      RunKeepsContent(systems, steps, n - 1, Committing);
      StepKeepsProfitIff(systems[n - 1], steps[n - 1]);
      hide Init, ProfitIsRight;
    }
  }

  /** Then the drained cache is the latest committed row, realized profit included. */
  lemma DrainedProfitIsRight(systems: seq<System>, steps: seq<Step>, n: nat)
    requires Run(systems, steps) && n <= |steps| && systems[n].cache.Some?
    requires systems[n].announced == map[] && systems[n].overwriting.None?
    requires forall i :: 0 <= i < n ==> Allowed(Committing, steps[i]) && !Overtakes(systems[i], steps[i])
    ensures var s := systems[n];
            && s.committed != [] && s.cache.value.version == Latest(s) && Shows(s.cache.value, s.committed[Latest(s)])
            && s.cache.value.realized == s.committed[Latest(s)].realized
  {
    hide Enabled, Next, Init, Overtakes;
    DrainedCacheIsLatest(systems, steps, n, Committing);
    NothingOvertakes(systems, steps, n);
  }

  /** The version whose profit the cache carries: that of the last load it took or of the last
      fill announcement it took. */
  function ProfitVersion(systems: seq<System>, steps: seq<Step>, n: nat): nat
    requires n <= |steps| < |systems|
  {
    if n == 0 then 0
    else
      var s, before := systems[n - 1], ProfitVersion(systems, steps, n - 1);
      match steps[n - 1]
      case FinishLoadStep(loaded) => if s.cache.Some? then before else loaded.version
      case BulkLoad(loaded) => loaded.version
      case Deliver(v) =>
        if s.cache.Some? && v in s.announced && s.cache.value.version <= v && s.announced[v].realized.Some? then v else before
      case _ => before
  }

  ghost predicate CarriesProfitOf(s: System, p: nat) {
    s.cache.Some? ==> p <= s.cache.value.version && p < |s.committed| && s.cache.value.realized == s.committed[p].realized
  }

  lemma StepCarriesProfit(s: System, step: Step, p: nat, p': nat)
    requires Content(s, Failing) && Enabled(s, step) && CarriesProfitOf(s, p)
    requires p' == match step
                   case FinishLoadStep(loaded) => if s.cache.Some? then p else loaded.version
                   case BulkLoad(loaded) => loaded.version
                   case Deliver(v) => if s.cache.value.version <= v && s.announced[v].realized.Some? then v else p
                   case _ => p
    ensures CarriesProfitOf(Next(s, step), p')
  {
    hide Accept, Carries, Shows;
    if step.Deliver? {
      AcceptShows(s.cache.value, s.announced[step.version], RowAt(s, step.version), step.version, false);
    }
  }

  /** Over every run, stale bulk loads and failed overwrites included, the cached profit is that
      of a committed row, the one whose profit the cache took last. */
  lemma {:induction false} CachedProfitWasCommitted(systems: seq<System>, steps: seq<Step>, n: nat)
    requires FreeRun(systems, steps) && n <= |steps| < |systems|
    ensures CarriesProfitOf(systems[n], ProfitVersion(systems, steps, n))
  {
    hide Content, CarriesProfitOf;
    if n == 0 {
      NothingCached(systems[0], 0);
    } else {
      CachedProfitWasCommitted(systems, steps, n - 1);
      RunKeepsContent(systems, steps, n - 1, Failing);
      hide Next, Init;
      StepCarriesProfit(systems[n - 1], steps[n - 1], ProfitVersion(systems, steps, n - 1), ProfitVersion(systems, steps, n));
    }
  }

  lemma NothingCached(s: System, p: nat)
    requires s.cache.None?
    ensures CarriesProfitOf(s, p)
  {
  }

  /** A cache without a row for its version on the way shows the whole committed row, realized
      profit included, if and only if that version was committed and the profit did not change
      since the one it took last. */
  lemma CacheIsTheWholeRowIff(systems: seq<System>, steps: seq<Step>, n: nat)
    requires FreeRun(systems, steps) && n <= |steps| < |systems| && systems[n].cache.Some?
    requires systems[n].overwriting.None? && systems[n].cache.value.version !in systems[n].announced
    ensures var s, p := systems[n], ProfitVersion(systems, steps, n);
            && p < |s.committed| && p <= s.cache.value.version
            && (ShowsCommitted(s) && s.cache.value.realized == s.committed[s.cache.value.version].realized
                <==> s.cache.value.version < |s.committed| && s.committed[p].realized == s.committed[s.cache.value.version].realized)
  {
    hide Enabled, Next, Init, Shows;
    CacheIsACommittedRowIff(systems, steps, n);
    CachedProfitWasCommitted(systems, steps, n);
  }

  /** Once every announcement has arrived and no overwrite is open, the cache is the latest row,
      realized profit included, if and only if its version was committed and the profit did not
      change since the one it took last. */
  lemma DrainedCacheIsTheLatestRowIff(systems: seq<System>, steps: seq<Step>, n: nat)
    requires Run(systems, steps) && n <= |steps| < |systems| && systems[n].cache.Some?
    requires systems[n].announced == map[] && systems[n].overwriting.None?
    ensures systems[n].committed != [] && ProfitVersion(systems, steps, n) < |systems[n].committed|
    ensures var s, c, p := systems[n], systems[n].cache.value, ProfitVersion(systems, steps, n);
            ShowsCommitted(s) && c.version == Latest(s) && c.realized == s.committed[Latest(s)].realized
            <==> c.version < |s.committed| && s.committed[p].realized == s.committed[Latest(s)].realized
  {
    hide Enabled, Next, Init, Shows, ProfitVersion;
    DrainedCacheIsLatestIff(systems, steps, n);
    CacheIsTheWholeRowIff(systems, steps, n);
  }

  /** Overwrite announcements leave realized profit out: when one overtakes the
      announcement of the fill before it, the drained cache shows the latest version with
      a realized profit that was never booked at that version. */
  lemma OverwriteLosesProfit() returns (systems: seq<System>, steps: seq<Step>)
    ensures Run(systems, steps) && |systems| == 8
    ensures var s := systems[7];
            && s.announced == map[] && s.overwriting.None? && s.cache.Some? && s.committed != []
            && s.cache.value.version == Latest(s) && Shows(s.cache.value, s.committed[Latest(s)])
            && s.cache.value.realized != s.committed[Latest(s)].realized
  {
    var row0 := LedgerRow(10, 0, 5.0, 0.0, 0.0);
    var row1 := LedgerRow(5, 0, 2.5, 0.0, 1.0);
    var row2 := LedgerRow(4, 0, 2.0, 0.0, 1.0);
    var s0 := System([row0], None, map[], {}, None);
    var t0, t1, t2, t3 := ReadForLoad, FinishLoadStep(SnapshotOf(row0, 0)), CommitFill(row1, 1.0), BeginOverwrite(row2);
    var t4, t5, t6 := Deliver(2), CommitOverwrite, Deliver(1);
    var s1 := Next(s0, t0);
    var s2 := Next(s1, t1);
    var s3 := Next(s2, t2);
    var s4 := Next(s3, t3);
    var s5 := Next(s4, t4);
    var s6 := Next(s5, t5);
    var s7 := Next(s6, t6);
    assert s7.announced == map[];
    systems, steps := [s0, s1, s2, s3, s4, s5, s6, s7], [t0, t1, t2, t3, t4, t5, t6];
  }
}
