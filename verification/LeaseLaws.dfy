/** When a lease is granted, renewed and given back: each answer in terms of the periods handed
    out so far, not of the row that decides it. */
module LeaseLaws {
  import opened Common
  import opened Lease

  // ----- Rows and periods ---------------------------------------------------

  ghost predicate Reaches(g: Grant, wallet: WalletId, row: LeaseRow) {
    g == Grant(wallet, row.owner, row.fence, g.start, row.expiresAt)
  }

  /** A row that has not expired carries the end of a period of its owner. */
  ghost predicate Backed(s: System, w: WalletId)
    requires w in s.rows
  {
    s.rows[w].expiresAt <= s.clock || exists i :: 0 <= i < |s.issued| && Reaches(s.issued[i], w, s.rows[w])
  }

  /** A period that is not over is one of the row's owner, under the row's fence. */
  ghost predicate Current(s: System, g: Grant) {
    g.end > s.clock ==> g.wallet in s.rows && s.rows[g.wallet].owner == g.owner && s.rows[g.wallet].fence == g.fence
  }

  ghost predicate Periods(s: System) {
    && (forall w :: w in s.rows ==> Backed(s, w))
    && (forall i :: 0 <= i < |s.issued| ==> Current(s, s.issued[i]))
  }

  lemma OldPeriodStaysCurrent(s: System, step: Step, g: Grant)
    requires Enabled(s, step) && GoodGrant(s, g) && Current(s, g)
    requires g.end > step.now
    ensures Current(Next(s, step), g)
  {
    RowsMove(s, step, g.wallet);
  }

  lemma PeriodsStayCurrent(s: System, step: Step, i: nat)
    requires Inv(s) && Periods(s) && Enabled(s, step) && i < |Next(s, step).issued|
    ensures Current(Next(s, step), Next(s, step).issued[i])
  {
    IssuedGrows(s, step);
    hide Inv, GoodGrant, Current, Backed, Exclusive, Next;
    if i < |s.issued| {
      GoodOf(s, i);
      if s.issued[i].end > step.now {
        OldPeriodStaysCurrent(s, step, s.issued[i]);
      }
      OldPeriodOrCut(s, step, i);
      if s.issued[i].end <= step.now {
        OverIsCurrent(Next(s, step), s.issued[i]);
      }
    } else {
      NewPeriodIsCurrent(s, step);
    }
  }

  lemma IssuedGrows(s: System, step: Step)
    requires Enabled(s, step)
    ensures |s.issued| <= |Next(s, step).issued| <= |s.issued| + 1 && Next(s, step).clock == step.now
  {
  }

  lemma GoodOf(s: System, i: nat)
    requires Inv(s) && i < |s.issued|
    ensures GoodGrant(s, s.issued[i])
  {
  }

  lemma OverIsCurrent(s: System, g: Grant)
    requires g.end <= s.clock
    ensures Current(s, g)
  {
  }

  lemma OldPeriodOrCut(s: System, step: Step, i: nat)
    requires Enabled(s, step) && i < |s.issued| <= |Next(s, step).issued|
    ensures var g := Next(s, step).issued[i];
            g == s.issued[i] || (g.end == step.now && Current(Next(s, step), g))
  {
  }

  lemma NewPeriodIsCurrent(s: System, step: Step)
    requires Enabled(s, step) && |Next(s, step).issued| == |s.issued| + 1
    ensures Current(Next(s, step), Next(s, step).issued[|s.issued|])
  {
  }

  lemma RowStaysBacked(s: System, step: Step, w: WalletId)
    requires Enabled(s, step) && w in Next(s, step).rows && (w in s.rows ==> Backed(s, w))
    ensures Backed(Next(s, step), w)
  {
    var s' := Next(s, step);
    if w in s.rows && s'.rows[w] == s.rows[w] && s'.rows[w].expiresAt > s'.clock {
      var i :| 0 <= i < |s.issued| && Reaches(s.issued[i], w, s.rows[w]);
      assert Reaches(s'.issued[i], w, s'.rows[w]);
    } else if s'.rows[w].expiresAt > s'.clock {
      assert Reaches(s'.issued[|s.issued|], w, s'.rows[w]);
    }
  }

  lemma {:induction false} RunKeepsPeriods(systems: seq<System>, steps: seq<Step>, n: nat)
    requires Run(systems, steps) && n <= |steps|
    ensures Inv(systems[n]) && Periods(systems[n])
  {
    hide Inv, Enabled, Next, Backed, Current;
    RunKeepsInv(systems, steps, n);
    if n > 0 {
      RunKeepsPeriods(systems, steps, n - 1);
      var s, step, s' := systems[n - 1], steps[n - 1], systems[n];
      forall w | w in s'.rows ensures Backed(s', w) {
        RowStaysBacked(s, step, w);
      }
      forall i | 0 <= i < |s'.issued| ensures Current(s', s'.issued[i]) {
        PeriodsStayCurrent(s, step, i);
      }
    }
  }

  // ----- The answers --------------------------------------------------------

  ghost predicate Reachable(s: System) {
    exists systems, steps, n :: Run(systems, steps) && 0 <= n <= |steps| && s == systems[n]
  }

  lemma ReachableIsGood(s: System)
    requires Reachable(s)
    ensures Inv(s) && Periods(s)
  {
    hide Inv, Periods, Init, Enabled, Next;
    var systems, steps, n :| Run(systems, steps) && 0 <= n <= |steps| && s == systems[n];
    RunKeepsPeriods(systems, steps, n);
  }

  ghost predicate NobodyElse(s: System, w: WalletId, owner: OwnerId, at: int) {
    forall i :: 0 <= i < |s.issued| && s.issued[i].wallet == w && s.issued[i].owner != owner ==> s.issued[i].end <= at
  }

  ghost predicate HoldsPeriod(s: System, w: WalletId, owner: OwnerId, fence: nat, at: int) {
    exists i :: 0 <= i < |s.issued| && s.issued[i].wallet == w && s.issued[i].owner == owner
                && s.issued[i].fence == fence && s.issued[i].end > at
  }

  lemma FreeRowIff(s: System, w: WalletId, owner: OwnerId, now: int)
    requires Inv(s) && Periods(s) && s.clock <= now
    ensures NobodyElse(s, w, owner, now) <==> w !in s.rows || s.rows[w].owner == owner || s.rows[w].expiresAt <= now
  {
    hide Exclusive;
    if w in s.rows && s.rows[w].owner != owner && s.rows[w].expiresAt > now {
      assert Backed(s, w);
      var i :| 0 <= i < |s.issued| && Reaches(s.issued[i], w, s.rows[w]);
      assert s.issued[i].end > now;
    } else {
      forall i | 0 <= i < |s.issued| && s.issued[i].wallet == w && s.issued[i].owner != owner ensures s.issued[i].end <= now {
        assert GoodGrant(s, s.issued[i]) && Current(s, s.issued[i]);
      }
    }
  }

  lemma HeldRowIff(s: System, w: WalletId, owner: OwnerId, fence: nat, at: int)
    requires Inv(s) && Periods(s) && s.clock <= at
    ensures HoldsPeriod(s, w, owner, fence, at)
       <==> w in s.rows && s.rows[w].owner == owner && s.rows[w].fence == fence && s.rows[w].expiresAt > at
  {
    hide Exclusive;
    if w in s.rows && s.rows[w].owner == owner && s.rows[w].fence == fence && s.rows[w].expiresAt > at {
      assert Backed(s, w);
      var i :| 0 <= i < |s.issued| && Reaches(s.issued[i], w, s.rows[w]);
      assert s.issued[i].end > at;
    }
    if HoldsPeriod(s, w, owner, fence, at) {
      var i :| 0 <= i < |s.issued| && s.issued[i].wallet == w && s.issued[i].owner == owner
               && s.issued[i].fence == fence && s.issued[i].end > at;
      assert GoodGrant(s, s.issued[i]) && Current(s, s.issued[i]);
    }
  }

  /** A lease is granted exactly when no other owner has a period that lasts past now. It then
      lasts its time to live, under a fence that is the last one of the wallet if its last owner
      asks again, the next one if the owner changes, and one for a new wallet; a refusal changes
      no row and hands out nothing. */
  lemma AcquireIff(s: System, owner: OwnerId, w: WalletId, now: int)
    requires Reachable(s) && Enabled(s, AcquireStep(owner, Some(w), now))
    ensures var s', p := Next(s, AcquireStep(owner, Some(w), now)), s.processes[owner];
            if NobodyElse(s, w, owner, now) then
              var fence := if w !in s.rows then 1 else if s.rows[w].owner == owner then s.rows[w].fence else s.rows[w].fence + 1;
              && s'.rows == s.rows[w := LeaseRow(owner, fence, now + p.ttl)]
              && s'.issued == s.issued + [Grant(w, owner, fence, now, now + p.ttl)]
              && s'.processes == s.processes[owner := Process(p.ttl, Some(w), Some(fence))]
            else
              && s'.rows == s.rows && s'.issued == s.issued
              && s'.processes == s.processes[owner := Process(p.ttl, Some(w), p.token)]
  {
    hide Inv, Periods;
    ReachableIsGood(s);
    FreeRowIff(s, w, owner, now);
    hide NobodyElse;
  }

  /** A renewal succeeds exactly when the process still has, under its token, a period that lasts
      past the moment at which it checked; the period then lasts its time to live from now on. */
  lemma RenewIff(s: System, owner: OwnerId, checkedAt: int, now: int)
    requires Reachable(s) && Enabled(s, RenewStep(owner, checkedAt, now))
    ensures var s', p := Next(s, RenewStep(owner, checkedAt, now)), s.processes[owner];
            && s'.processes == s.processes
            && if p.wallet.Some? && p.token.Some? && HoldsPeriod(s, p.wallet.value, owner, p.token.value, checkedAt) then
                 var w, fence := p.wallet.value, p.token.value;
                 && s'.rows == s.rows[w := LeaseRow(owner, fence, now + p.ttl)]
                 && s'.issued == s.issued + [Grant(w, owner, fence, checkedAt, now + p.ttl)]
               else s'.rows == s.rows && s'.issued == s.issued
  {
    hide Inv, Periods;
    ReachableIsGood(s);
    var p := s.processes[owner];
    if p.wallet.Some? && p.token.Some? {
      HeldRowIff(s, p.wallet.value, owner, p.token.value, checkedAt);
      hide HoldsPeriod;
    }
  }

  /** A release drops the token; if the process has a period under it that lasts past now, no
      period of the wallet does any more and everybody may acquire it, otherwise no period ends. */
  lemma ReleaseFrees(s: System, owner: OwnerId, now: int)
    requires Reachable(s) && Enabled(s, ReleaseStep(owner, now))
    requires s.processes[owner].wallet.Some? && s.processes[owner].token.Some?
    ensures var s', p := Next(s, ReleaseStep(owner, now)), s.processes[owner];
            && s'.processes == s.processes[owner := p.(token := None)]
            && (s'.rows == s.rows
                || (p.wallet.value in s.rows && s'.rows == s.rows[p.wallet.value := s.rows[p.wallet.value].(expiresAt := now)]))
            && if HoldsPeriod(s, p.wallet.value, owner, p.token.value, now)
               then forall anyone, i :: 0 <= i < |s'.issued| && s'.issued[i].wallet == p.wallet.value ==>
                      s'.issued[i].end <= now && NobodyElse(s', p.wallet.value, anyone, now)
               else s'.issued == s.issued
  {
    hide Inv, Periods, GoodGrant, Exclusive;
    ReachableIsGood(s);
    var p, s' := s.processes[owner], Next(s, ReleaseStep(owner, now));
    var w := p.wallet.value;
    HeldRowIff(s, w, owner, p.token.value, now);
    if HoldsPeriod(s, w, owner, p.token.value, now) {
      forall i | 0 <= i < |s'.issued| && s'.issued[i].wallet == w ensures s'.issued[i].end <= now {
        CurrentOf(s, i);
      }
    } else {
      forall i | 0 <= i < |s.issued| ensures s'.issued[i] == s.issued[i] {
        GoodOf(s, i);
        if s.issued[i].wallet == w && s.issued[i].owner == owner && Holds(s.rows, owner, p) {
          OwnEndsWithRow(s, s.issued[i]);
        }
      }
    }
  }

  lemma CurrentOf(s: System, i: nat)
    requires Periods(s) && i < |s.issued|
    ensures Current(s, s.issued[i])
  {
  }

  lemma OwnEndsWithRow(s: System, g: Grant)
    requires GoodGrant(s, g) && s.rows[g.wallet].owner == g.owner
    ensures g.end <= s.rows[g.wallet].expiresAt
  {
  }
}
