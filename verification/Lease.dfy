/** The wallet lease with fencing tokens: processes that share one table row per wallet
    and one clock that never goes back. */
module Lease {
  import opened Common

  type WalletId = nat
  type OwnerId = nat

  /** Clock readings and durations share one unit; a lease lasts at least six seconds. */
  const SECOND: int := 1_000_000

  datatype LeaseRow = LeaseRow(owner: OwnerId, fence: nat, expiresAt: int)

  /** The fields of one process's lease object; its time to live is configuration. */
  datatype Process = Process(ttl: int, wallet: Option<WalletId>, token: Option<nat>)

  datatype Outcome = Outcome(rows: map<WalletId, LeaseRow>, process: Process, ok: bool)

  // ----- One operation ------------------------------------------------------

  function AcquireResult(
    rows: map<WalletId, LeaseRow>, owner: OwnerId, p: Process, wallet: Option<WalletId>, now: int
  ): Outcome
  {
    var asking := p.(wallet := wallet);
    if wallet.None? then Outcome(rows, asking, false)
    else
      var w := wallet.value;
      if w in rows && rows[w].owner != owner && rows[w].expiresAt > now then Outcome(rows, asking, false)
      else
        var fence := if w !in rows then 1 else if rows[w].owner == owner then rows[w].fence else rows[w].fence + 1;
        Outcome(rows[w := LeaseRow(owner, fence, now + p.ttl)], asking.(token := Some(fence)), true)
  }

  predicate Holds(rows: map<WalletId, LeaseRow>, owner: OwnerId, p: Process) {
    && p.wallet.Some? && p.token.Some? && p.wallet.value in rows
    && rows[p.wallet.value].owner == owner && rows[p.wallet.value].fence == p.token.value
  }

  function RenewResult(rows: map<WalletId, LeaseRow>, owner: OwnerId, p: Process, checkedAt: int, now: int): Outcome {
    if Holds(rows, owner, p) && rows[p.wallet.value].expiresAt > checkedAt then
      Outcome(rows[p.wallet.value := rows[p.wallet.value].(expiresAt := now + p.ttl)], p, true)
    else Outcome(rows, p, false)
  }

  function ReleaseResult(rows: map<WalletId, LeaseRow>, owner: OwnerId, p: Process, now: int): Outcome {
    if p.wallet.None? || p.token.None? then Outcome(rows, p, false)
    else if Holds(rows, owner, p) then
      Outcome(rows[p.wallet.value := rows[p.wallet.value].(expiresAt := now)], p.(token := None), true)
    else Outcome(rows, p.(token := None), false)
  }

  class LeaseTable {
    var rows: map<WalletId, LeaseRow>

    constructor ()
      ensures rows == map[]
    {
      rows := map[];
    }
  }

  class LiveExecutionLease {
    const ownerId: OwnerId
    const ttl: int
    const table: LeaseTable
    var walletId: Option<WalletId>
    var fencingToken: Option<nat>

    constructor (ownerId: OwnerId, configuredTtl: int, table: LeaseTable)
      ensures this.ownerId == ownerId && this.table == table
      ensures AsProcess() == Process(if configuredTtl >= 6 * SECOND then configuredTtl else 6 * SECOND, None, None)
    {
      this.ownerId, this.table := ownerId, table;
      ttl := MaxInt(6 * SECOND, configuredTtl);
      walletId, fencingToken := None, None;
    }

    function AsProcess(): Process
      reads this
    {
      Process(ttl, walletId, fencingToken)
    }

    method Acquire(wallet: Option<WalletId>, now: int) returns (ok: bool)
      modifies this, table
      ensures Outcome(table.rows, AsProcess(), ok)
           == AcquireResult(old(table.rows), ownerId, old(AsProcess()), wallet, now)
    {
      walletId := wallet;
      if walletId.None? {
        return false;
      }
      var w := walletId.value;
      var expiresAt := now + ttl;
      var row;
      if w !in table.rows {
        row := LeaseRow(ownerId, 1, expiresAt);
      } else {
        row := table.rows[w];
        if row.owner == ownerId || row.expiresAt <= now {
          if row.owner != ownerId {
            row := row.(fence := row.fence + 1);
          }
          row := row.(owner := ownerId, expiresAt := expiresAt);
        } else {
          return false;
        }
      }
      table.rows := table.rows[w := row];
      fencingToken := Some(row.fence);
      return true;
    }

    method Renew(checkedAt: int, now: int) returns (ok: bool)
      modifies table
      ensures Outcome(table.rows, AsProcess(), ok)
           == RenewResult(old(table.rows), ownerId, old(AsProcess()), checkedAt, now)
    {
      if walletId.None? || fencingToken.None? || walletId.value !in table.rows {
        return false;
      }
      var row := table.rows[walletId.value];
      if row.owner != ownerId || row.fence != fencingToken.value || row.expiresAt <= checkedAt {
        return false;
      }
      table.rows := table.rows[walletId.value := row.(expiresAt := now + ttl)];
      return true;
    }

    method Release(now: int) returns (cut: bool)
      modifies this, table
      ensures Outcome(table.rows, AsProcess(), cut)
           == ReleaseResult(old(table.rows), ownerId, old(AsProcess()), now)
    {
      cut := false;
      if walletId.None? || fencingToken.None? {
        return;
      }
      if walletId.value in table.rows {
        var row := table.rows[walletId.value];
        if row.owner == ownerId && row.fence == fencingToken.value {
          table.rows := table.rows[walletId.value := row.(expiresAt := now)];
          cut := true;
        }
      }
      fencingToken := None;
    }
  }

  // ----- Whole runs ---------------------------------------------------------

  /** A period in which its owner may trade the wallet. */
  datatype Grant = Grant(wallet: WalletId, owner: OwnerId, fence: nat, start: int, end: int)

  datatype System = System(
    rows: map<WalletId, LeaseRow>,
    processes: map<OwnerId, Process>,
    clock: int,
    issued: seq<Grant>)

  datatype Step =
    | AcquireStep(owner: OwnerId, wallet: Option<WalletId>, now: int)
    | RenewStep(owner: OwnerId, checkedAt: int, now: int)
    | ReleaseStep(owner: OwnerId, now: int)

  predicate Enabled(s: System, step: Step) {
    && step.owner in s.processes
    && s.clock <= step.now
    && (step.RenewStep? ==> s.clock <= step.checkedAt <= step.now)
  }

  /** A released period ends when it is released. */
  function Cut(issued: seq<Grant>, wallet: WalletId, owner: OwnerId, now: int): (r: seq<Grant>)
    ensures |r| == |issued|
  {
    seq(|issued|, i requires 0 <= i < |issued| =>
      if issued[i].wallet == wallet && issued[i].owner == owner && issued[i].end > now then issued[i].(end := now)
      else issued[i])
  }

  function Next(s: System, step: Step): System
    requires Enabled(s, step)
  {
    var p := s.processes[step.owner];
    match step
    case AcquireStep(owner, wallet, now) =>
      var o := AcquireResult(s.rows, owner, p, wallet, now);
      System(o.rows, s.processes[owner := o.process], now,
             if o.ok then s.issued + [Grant(wallet.value, owner, o.process.token.value, now, now + p.ttl)] else s.issued)
    case RenewStep(owner, checkedAt, now) =>
      var o := RenewResult(s.rows, owner, p, checkedAt, now);
      System(o.rows, s.processes[owner := o.process], now,
             if o.ok then s.issued + [Grant(p.wallet.value, owner, p.token.value, checkedAt, now + p.ttl)] else s.issued)
    case ReleaseStep(owner, now) =>
      var o := ReleaseResult(s.rows, owner, p, now);
      System(o.rows, s.processes[owner := o.process], now,
             if o.ok then Cut(s.issued, p.wallet.value, owner, now) else s.issued)
  }

  ghost predicate Init(s: System) {
    && s.rows == map[] && s.issued == []
    && forall o :: o in s.processes ==>
         s.processes[o].ttl >= 6 * SECOND && s.processes[o].wallet.None? && s.processes[o].token.None?
  }

  ghost predicate Run(systems: seq<System>, steps: seq<Step>) {
    && |systems| == |steps| + 1
    && Init(systems[0])
    && forall i :: 0 <= i < |steps| ==> Enabled(systems[i], steps[i]) && systems[i + 1] == Next(systems[i], steps[i])
  }

  /** What is known of one period while the system runs. */
  ghost predicate GoodGrant(s: System, g: Grant) {
    && g.wallet in s.rows && g.owner in s.processes
    && g.start <= s.clock && g.start <= g.end && g.end <= s.clock + s.processes[g.owner].ttl
    && var row := s.rows[g.wallet];
    && g.fence <= row.fence
    && (g.fence == row.fence ==> g.owner == row.owner)
    && (if g.owner == row.owner then g.end <= row.expiresAt else g.end <= s.clock)
  }

  predicate Disjoint(g: Grant, h: Grant) {
    g.end <= h.start || h.end <= g.start
  }

  /** Two periods of one wallet: one owner per fence, no overlap between owners. */
  ghost predicate Exclusive(g: Grant, h: Grant) {
    g.wallet == h.wallet ==>
      (g.fence == h.fence ==> g.owner == h.owner) && (g.owner != h.owner ==> Disjoint(g, h))
  }

  ghost predicate Inv(s: System) {
    && (forall o :: o in s.processes ==> s.processes[o].ttl > 0)
    && (forall w :: w in s.rows ==> s.rows[w].owner in s.processes
                                    && s.rows[w].expiresAt <= s.clock + s.processes[s.rows[w].owner].ttl)
    && (forall i :: 0 <= i < |s.issued| ==> GoodGrant(s, s.issued[i]))
    && (forall i, j :: 0 <= i < |s.issued| && 0 <= j < |s.issued| ==> Exclusive(s.issued[i], s.issued[j]))
  }

  // ----- Every step keeps exclusion -----------------------------------------

  /** How a row may change: time passes, its owner extends or ends it, or a new owner
      takes it over once it has expired. */
  ghost predicate RowMoves(s: System, step: Step, s': System, w: WalletId)
    requires Enabled(s, step)
  {
    if w !in s.rows then true
    else
      && w in s'.rows
      && (s'.rows[w].owner == s.rows[w].owner ==> s'.rows[w].fence == s.rows[w].fence)
      && (s'.rows[w].owner != s.rows[w].owner ==>
            s'.rows[w].fence == s.rows[w].fence + 1 && s.rows[w].expiresAt <= step.now)
  }

  lemma RowsMove(s: System, step: Step, w: WalletId)
    requires Enabled(s, step)
    ensures RowMoves(s, step, Next(s, step), w)
    ensures var s' := Next(s, step);
            && s'.clock == step.now && s'.processes.Keys == s.processes.Keys
            && (forall o :: o in s.processes ==> s'.processes[o].ttl == s.processes[o].ttl)
  {
  }

  /** Steps that issue nothing new leave old periods good. */
  lemma OldGrantStaysGood(s: System, step: Step, g: Grant)
    requires Inv(s) && Enabled(s, step) && GoodGrant(s, g)
    requires !(step.ReleaseStep? && Next(s, step).rows != s.rows)
    ensures GoodGrant(Next(s, step), g)
  {
    RowsMove(s, step, g.wallet);
    assert g.wallet in s.rows;
    assert s.rows[g.wallet].expiresAt <= s.clock + s.processes[s.rows[g.wallet].owner].ttl;
  }

  lemma NewGrantIsGood(s: System, step: Step)
    requires Inv(s) && Enabled(s, step) && |Next(s, step).issued| == |s.issued| + 1
    ensures var s' := Next(s, step);
            var g := s'.issued[|s.issued|];
            && GoodGrant(s', g) && s'.issued == s.issued + [g]
            && g.wallet in s'.rows && s'.rows[g.wallet].owner == g.owner && s'.rows[g.wallet].fence == g.fence
            && s.clock <= g.start
            && (g.wallet in s.rows && s.rows[g.wallet].owner != g.owner ==> s.rows[g.wallet].expiresAt <= g.start)
  {
  }

  /** A new period never collides with an old one. */
  lemma NewGrantIsExclusive(s: System, step: Step, h: Grant)
    requires Inv(s) && Enabled(s, step) && |Next(s, step).issued| == |s.issued| + 1 && GoodGrant(s, h)
    ensures Exclusive(Next(s, step).issued[|s.issued|], h) && Exclusive(h, Next(s, step).issued[|s.issued|])
  {
    NewGrantIsGood(s, step);
    RowsMove(s, step, h.wallet);
    hide Inv;
  }

  lemma IssuingKeepsInv(s: System, step: Step)
    requires Inv(s) && Enabled(s, step) && |Next(s, step).issued| == |s.issued| + 1
    ensures Inv(Next(s, step))
  {
    var s' := Next(s, step);
    NewGrantIsGood(s, step);
    forall i | 0 <= i < |s.issued|
      ensures GoodGrant(s', s.issued[i])
      ensures Exclusive(s'.issued[|s.issued|], s.issued[i]) && Exclusive(s.issued[i], s'.issued[|s.issued|])
    {
      OldGrantStaysGood(s, step, s.issued[i]);
      NewGrantIsExclusive(s, step, s.issued[i]);
    }
    hide GoodGrant, Exclusive;
    forall i, j | 0 <= i < |s'.issued| && 0 <= j < |s'.issued| ensures Exclusive(s'.issued[i], s'.issued[j]) {
      if i == |s.issued| && j == |s.issued| {
        SelfExclusive(s'.issued[i]);
      }
    }
  }

  lemma SelfExclusive(g: Grant)
    ensures Exclusive(g, g)
  {
  }

  lemma CutKeepsInv(s: System, step: Step)
    requires Inv(s) && Enabled(s, step) && step.ReleaseStep? && Next(s, step).rows != s.rows
    ensures Inv(Next(s, step))
  {
    var s', w := Next(s, step), s.processes[step.owner].wallet.value;
    forall i | 0 <= i < |s.issued|
      ensures GoodGrant(s', s'.issued[i])
      ensures var g, g' := s.issued[i], s'.issued[i];
              g' == g.(end := g'.end) && g'.end <= g.end
    {
      assert GoodGrant(s, s.issued[i]);
      RowsMove(s, step, s.issued[i].wallet);
    }
    forall i, j | 0 <= i < |s'.issued| && 0 <= j < |s'.issued| ensures Exclusive(s'.issued[i], s'.issued[j]) {
      assert Exclusive(s.issued[i], s.issued[j]);
    }
  }

  lemma StepKeepsInv(s: System, step: Step)
    requires Inv(s) && Enabled(s, step)
    ensures Inv(Next(s, step))
  {
    hide Inv, GoodGrant, Exclusive;
    var s' := Next(s, step);
    if step.ReleaseStep? && s'.rows != s.rows {
      CutKeepsInv(s, step);
    } else if |s'.issued| == |s.issued| + 1 {
      IssuingKeepsInv(s, step);
    } else {
      IdleKeepsInv(s, step);
    }
  }

  lemma IdleKeepsInv(s: System, step: Step)
    requires Inv(s) && Enabled(s, step) && |Next(s, step).issued| == |s.issued|
    requires !(step.ReleaseStep? && Next(s, step).rows != s.rows)
    ensures Inv(Next(s, step))
  {
    var s' := Next(s, step);
    if step.ReleaseStep? {
      ReleaseWithoutEffect(s, step);
    }
    forall i | 0 <= i < |s.issued| ensures GoodGrant(s', s.issued[i]) {
      OldGrantStaysGood(s, step, s.issued[i]);
    }
  }

  /** Releasing a row that already ended at this instant cuts nothing. */
  lemma ReleaseWithoutEffect(s: System, step: Step)
    requires Inv(s) && Enabled(s, step) && step.ReleaseStep? && Next(s, step).rows == s.rows
    ensures Next(s, step).issued == s.issued
  {
    forall i | 0 <= i < |s.issued| ensures Next(s, step).issued[i] == s.issued[i] {
      assert GoodGrant(s, s.issued[i]);
    }
  }

  lemma {:induction false} RunKeepsInv(systems: seq<System>, steps: seq<Step>, n: nat)
    requires Run(systems, steps) && n <= |steps|
    ensures Inv(systems[n])
  {
    hide Inv, Enabled, Next, Init;
    if n == 0 {
      InitIsGood(systems[0]);
    } else {
      RunKeepsInv(systems, steps, n - 1);
      StepKeepsInv(systems[n - 1], steps[n - 1]);
    }
  }

  lemma InitIsGood(s: System)
    requires Init(s)
    ensures Inv(s)
  {
  }

  // ----- The promises -------------------------------------------------------

  /** Exclusion over whole runs: every fence ever issued belongs to one owner, and the
      periods of different owners of one wallet never overlap. */
  lemma LeasesExclude(systems: seq<System>, steps: seq<Step>, n: nat, i: nat, j: nat)
    requires Run(systems, steps) && n <= |steps|
    requires i < |systems[n].issued| && j < |systems[n].issued|
    requires systems[n].issued[i].wallet == systems[n].issued[j].wallet
    ensures var g, h := systems[n].issued[i], systems[n].issued[j];
            && (g.fence == h.fence ==> g.owner == h.owner)
            && (g.owner != h.owner ==> g.end <= h.start || h.end <= g.start)
  {
    hide Enabled, Next, Init, GoodGrant;
    RunKeepsInv(systems, steps, n);
    assert Exclusive(systems[n].issued[i], systems[n].issued[j]);
  }

  /** At any instant at most one owner may trade a wallet. */
  lemma OneHolderAtATime(systems: seq<System>, steps: seq<Step>, n: nat, g: Grant, h: Grant, t: int)
    requires Run(systems, steps) && n <= |steps| && g in systems[n].issued && h in systems[n].issued
    requires g.wallet == h.wallet && g.start <= t < g.end && h.start <= t < h.end
    ensures g.owner == h.owner
  {
    hide Init, Enabled, Next;
    var i :| 0 <= i < |systems[n].issued| && systems[n].issued[i] == g;
    var j :| 0 <= j < |systems[n].issued| && systems[n].issued[j] == h;
    LeasesExclude(systems, steps, n, i, j);
  }

  /** The fence of a wallet never decreases, and a new owner always raises it. */
  lemma {:induction false} FenceNeverDecreases(systems: seq<System>, steps: seq<Step>, m: nat, n: nat, w: WalletId)
    requires Run(systems, steps) && m <= n <= |steps| && w in systems[m].rows
    ensures w in systems[n].rows && systems[m].rows[w].fence <= systems[n].rows[w].fence
    ensures systems[m].rows[w].owner != systems[n].rows[w].owner ==> systems[m].rows[w].fence < systems[n].rows[w].fence
  {
    hide Enabled, Next, Init;
    if m < n {
      FenceNeverDecreases(systems, steps, m, n - 1, w);
      RowsMove(systems[n - 1], steps[n - 1], w);
    }
  }

  /** A renewal that succeeds proves nobody else held the wallet since the renewing process
      was granted it. */
  lemma RenewalProvesTenure(systems: seq<System>, steps: seq<Step>, m: nat, n: nat, w: WalletId)
    requires Run(systems, steps) && m <= n < |steps| && w in systems[m].rows
    requires steps[n].RenewStep? && steps[n].owner in systems[n].processes
    requires var p := systems[n].processes[steps[n].owner];
             RenewResult(systems[n].rows, steps[n].owner, p, steps[n].checkedAt, steps[n].now).ok
             && p.wallet == Some(w) && systems[m].rows[w] == LeaseRow(steps[n].owner, p.token.value, systems[m].rows[w].expiresAt)
    ensures forall k :: m <= k <= n ==> w in systems[k].rows && systems[k].rows[w].owner == steps[n].owner
  {
    hide Enabled, Next, Init;
    forall k | m <= k <= n ensures w in systems[k].rows && systems[k].rows[w].owner == steps[n].owner {
      FenceNeverDecreases(systems, steps, m, k, w);
      FenceNeverDecreases(systems, steps, k, n, w);
    }
  }
}
