/** Diff quoting: bring the resting orders of one token to a desired grid with the fewest
    changes, and never place anything while a cancel is unconfirmed. */
module Quoting {
  import opened Common

  type OrderRef = nat

  datatype Quote = Quote(side: Side, price: int, size: int, postOnly: bool)

  /** A cached order; old cache entries have no creation time. */
  datatype Resting = Resting(side: Side, price: int, size: int, postOnly: bool, createdAt: Option<real>)

  /** Sides, prices and sizes to four decimals, and the post-only flag. */
  datatype Signature = Signature(side: Side, price: int, size: int, postOnly: bool)

  type Buckets = map<Signature, seq<Quote>>

  datatype QuoteSettings = QuoteSettings(bufferSeconds: real, priceOffset: real)

  /** A size of 1e-8 shares rounded half to even to 1e-4 shares. */
  function RoundSize(size: int): int {
    var q, r := size / 10_000, size % 10_000;
    if r < 5_000 then q else if r > 5_000 then q + 1 else q + q % 2
  }

  function SignatureOf(side: Side, price: int, size: int, postOnly: bool): Signature {
    Signature(side, price, RoundSize(size), postOnly)
  }

  function QuoteSignature(q: Quote): Signature { SignatureOf(q.side, q.price, q.size, q.postOnly) }

  function RestingSignature(r: Resting): Signature { SignatureOf(r.side, r.price, r.size, r.postOnly) }

  /** A whole number of 1e-4 shares next to a size; of two equally near ones the even one. */
  predicate IsNearest(n: int, size: int) {
    && -5_000 <= n * 10_000 - size <= 5_000
    && (n * 10_000 - size == 5_000 || n * 10_000 - size == -5_000 ==> n % 2 == 0)
  }

  lemma RoundsToNearest(size: int, n: int)
    ensures IsNearest(n, size) <==> n == RoundSize(size)
  {
  }

  /** A resting order is what is desired exactly when side, price and post-only flag are the same
      and both sizes are nearest to the same number of 1e-4 shares. */
  lemma SameSignatureIff(r: Resting, q: Quote)
    ensures RestingSignature(r) == QuoteSignature(q)
       <==> r.side == q.side && r.price == q.price && r.postOnly == q.postOnly
            && exists n :: IsNearest(n, r.size) && IsNearest(n, q.size)
  {
    RoundsToNearest(r.size, RoundSize(r.size));
    RoundsToNearest(q.size, RoundSize(q.size));
    if n :| IsNearest(n, r.size) && IsNearest(n, q.size) {
      RoundsToNearest(r.size, n);
      RoundsToNearest(q.size, n);
    }
    hide RoundSize;
  }

  function Signatures(quotes: seq<Quote>): (s: seq<Signature>)
    ensures |s| == |quotes|
  {
    seq(|quotes|, i requires 0 <= i < |quotes| => QuoteSignature(quotes[i]))
  }

  /** How often a signature is desired. */
  ghost function Desired(quotes: seq<Quote>, s: Signature): nat {
    multiset(Signatures(quotes))[s]
  }

  /** The resting orders with a signature. */
  ghost function Carriers(active: map<OrderRef, Resting>, s: Signature): set<OrderRef> {
    set id | id in active && RestingSignature(active[id]) == s
  }

  ghost function Waiting(b: Buckets, s: Signature): nat {
    if s in b then |b[s]| else 0
  }

  ghost predicate GoodBuckets(b: Buckets) {
    forall s :: s in b ==> b[s] != [] && forall i :: 0 <= i < |b[s]| ==> QuoteSignature(b[s][i]) == s
  }

  function Gap(a: real, b: real): real { AbsReal(a - b) }

  lemma DesiredGrows(quotes: seq<Quote>, i: nat, s: Signature)
    requires i < |quotes|
    ensures Desired(quotes[..i + 1], s) == Desired(quotes[..i], s) + (if s == QuoteSignature(quotes[i]) then 1 else 0)
  {
    assert Signatures(quotes[..i + 1]) == Signatures(quotes[..i]) + [QuoteSignature(quotes[i])];
  }

  ghost function PendingTable(active: map<OrderRef, Resting>): map<OrderRef, real> {
    map id | id in active :: if active[id].side.Buy? then Notional(active[id].price, active[id].size) else 0.0
  }

  /** A cached SELL that anti-churn may keep although no desired order matches it. */
  predicate Sheltered(r: Resting, now: real, fairValue: Option<real>, settings: QuoteSettings) {
    || MaxReal(0.0, now - (if r.createdAt.Some? then r.createdAt.value else now)) < settings.bufferSeconds
    || (fairValue.Some? && Gap(r.price as real, fairValue.value) <= settings.priceOffset)
  }

  /** An order is sheltered while it is younger than the buffer, an unknown age being none, or
      while its price is within the offset of the fair value. */
  lemma ShelteredIff(r: Resting, now: real, fairValue: Option<real>, settings: QuoteSettings)
    ensures Sheltered(r, now, fairValue, settings)
       <==> || (settings.bufferSeconds > 0.0 && (r.createdAt.Some? ==> now < r.createdAt.value + settings.bufferSeconds))
            || (fairValue.Some? && -settings.priceOffset <= fairValue.value - r.price as real <= settings.priceOffset)
  {
  }

  /** A desired order that a kept SELL stands for. */
  predicate Compatible(s: Signature, side: Side, price: int, offset: real) {
    s.side == side && Gap(s.price as real, price as real) <= offset
  }

  /** One desired order of a signature is used up. */
  ghost predicate Popped(b: Buckets, b': Buckets, sig: Signature) {
    forall s :: Waiting(b', s) == Waiting(b, s) - (if s == sig then 1 else 0)
  }

  // ----- Buckets ------------------------------------------------------------

  method GroupDesired(quotes: seq<Quote>) returns (b: Buckets)
    ensures GoodBuckets(b) && forall s :: Waiting(b, s) == Desired(quotes, s)
  {
    hide Desired;
    b := map[];
    NothingDesired();
    assert quotes[..0] == [];
    for i := 0 to |quotes|
      invariant GoodBuckets(b) && forall s :: Waiting(b, s) == Desired(quotes[..i], s)
    {
      var sig := QuoteSignature(quotes[i]);
      forall s ensures Desired(quotes[..i + 1], s) == Desired(quotes[..i], s) + (if s == sig then 1 else 0) {
        DesiredGrows(quotes, i, s);
      }
      ghost var before := b;
      b := b[sig := (if sig in b then b[sig] else []) + [quotes[i]]];
      assert forall s :: Waiting(b, s) == Waiting(before, s) + (if s == sig then 1 else 0);
    }
    assert quotes[..|quotes|] == quotes;
  }

  /** Takes one order out of a bucket and drops the bucket when it empties. */
  method PopBucket(b: Buckets, sig: Signature) returns (b': Buckets)
    requires GoodBuckets(b) && sig in b
    ensures GoodBuckets(b') && Popped(b, b', sig)
  {
    var bucket := b[sig][..|b[sig]| - 1];
    if bucket == [] {
      b' := b - {sig};
    } else {
      b' := b[sig := bucket];
    }
  }

  /** A kept stale order uses up one desired order of its side within the price offset. */
  method ConsumeCompatible(b: Buckets, side: Side, price: int, offset: real) returns (b': Buckets)
    requires GoodBuckets(b)
    ensures GoodBuckets(b')
    ensures if exists s :: s in b && Compatible(s, side, price, offset)
            then exists s :: s in b && Compatible(s, side, price, offset) && Popped(b, b', s)
            else b' == b
  {
    b' := b;
    var keys := b.Keys;
    while keys != {}
      invariant keys <= b.Keys && b' == b
      invariant forall s :: s in b && s !in keys ==> !Compatible(s, side, price, offset)
      decreases keys
    {
      var sig :| sig in keys;
      keys := keys - {sig};
      if sig.side != side {
        continue;
      }
      if Gap(sig.price as real, price as real) <= offset {
        b' := PopBucket(b, sig);
        assert Compatible(sig, side, price, offset) && Popped(b, b', sig);
        return;
      }
    }
  }

  method Flatten(b: Buckets) returns (quotes: seq<Quote>)
    requires GoodBuckets(b)
    ensures forall s :: Desired(quotes, s) == Waiting(b, s)
  {
    quotes := [];
    var keys := b.Keys;
    while keys != {}
      invariant keys <= b.Keys
      invariant forall s :: Desired(quotes, s) == if s in keys then 0 else Waiting(b, s)
      decreases keys
    {
      var sig :| sig in keys;
      keys := keys - {sig};
      forall s ensures Desired(quotes + b[sig], s) == Desired(quotes, s) + (if s == sig then |b[sig]| else 0) {
        DesiredOfBucket(quotes, b[sig], sig, s);
      }
      quotes := quotes + b[sig];
    }
  }

  lemma {:induction false} DesiredOfBucket(quotes: seq<Quote>, bucket: seq<Quote>, sig: Signature, s: Signature)
    requires forall i :: 0 <= i < |bucket| ==> QuoteSignature(bucket[i]) == sig
    ensures Desired(quotes + bucket, s) == Desired(quotes, s) + (if s == sig then |bucket| else 0)
    decreases |bucket|
  {
    if bucket == [] {
      assert quotes + bucket == quotes;
    } else {
      var n, init := |bucket| - 1, bucket[..|bucket| - 1];
      DesiredOfBucket(quotes, init, sig, s);
      var all := quotes + bucket;
      assert all[..|quotes| + n] == quotes + init && all[..|quotes| + n + 1] == all;
      DesiredGrows(all, |quotes| + n, s);
    }
  }

  // ----- Which orders stay --------------------------------------------------

  /** The book-keeping of the pass over the resting orders: what stays plus what is still
      wanted is what was desired, and nothing wanted is canceled. */
  ghost predicate Balanced(
    active: map<OrderRef, Resting>, seen: set<OrderRef>, toCancel: set<OrderRef>, b: Buckets, quotes: seq<Quote>, s: Signature)
  {
    && |Carriers(active, s) * (seen - toCancel)| + Waiting(b, s) == Desired(quotes, s)
    && (Waiting(b, s) > 0 ==> Carriers(active, s) * toCancel == {})
  }

  lemma SeenKept(active: map<OrderRef, Resting>, seen: set<OrderRef>, toCancel: set<OrderRef>, b: Buckets, b': Buckets,
                 quotes: seq<Quote>, s: Signature, id: OrderRef)
    requires Balanced(active, seen, toCancel, b, quotes, s)
    requires id in active && id !in seen && id !in toCancel
    requires Waiting(b', s) == Waiting(b, s) - (if RestingSignature(active[id]) == s then 1 else 0)
    ensures Balanced(active, seen + {id}, toCancel, b', quotes, s)
  {
    var kept, kept' := Carriers(active, s) * (seen - toCancel), Carriers(active, s) * (seen + {id} - toCancel);
    if RestingSignature(active[id]) == s {
      assert kept' == kept + {id};
    } else {
      assert kept' == kept;
    }
  }

  lemma SeenCanceled(active: map<OrderRef, Resting>, seen: set<OrderRef>, toCancel: set<OrderRef>, b: Buckets,
                     quotes: seq<Quote>, s: Signature, id: OrderRef)
    requires Balanced(active, seen, toCancel, b, quotes, s)
    requires id in active && id !in seen && id !in toCancel
    requires RestingSignature(active[id]) == s ==> Waiting(b, s) == 0
    ensures Balanced(active, seen + {id}, toCancel + {id}, b, quotes, s)
  {
    assert Carriers(active, s) * (seen + {id} - (toCancel + {id})) == Carriers(active, s) * (seen - toCancel);
    if Waiting(b, s) > 0 {
      assert Carriers(active, s) * (toCancel + {id}) == Carriers(active, s) * toCancel;
    }
  }

  lemma SeenSettled(active: map<OrderRef, Resting>, toCancel: set<OrderRef>, b: Buckets, quotes: seq<Quote>, s: Signature)
    requires Balanced(active, active.Keys, toCancel, b, quotes, s)
    ensures Settled(active, toCancel, b, quotes, s)
  {
    var all, kept := Carriers(active, s), Carriers(active, s) - toCancel;
    assert Carriers(active, s) * (active.Keys - toCancel) == kept;
    if Waiting(b, s) > 0 {
      forall id | id in all ensures id in kept {
        assert id in toCancel ==> id in all * toCancel;
      }
      assert kept == all;
    } else {
      CardinalityMonotone(kept, all);
    }
  }

  lemma {:induction false} CardinalityMonotone(a: set<OrderRef>, b: set<OrderRef>)
    requires a <= b
    ensures |a| <= |b|
    decreases |a|
  {
    if a != {} {
      var x :| x in a;
      CardinalityMonotone(a - {x}, b - {x});
    }
  }

  class QuotingEngine {
    var activeOrders: map<OrderRef, Resting>
    var pendingBuyNotional: real
    var ordersReconciled: bool
    var halted: bool
    // the fair value of the last tick that was not dropped
    var anchor: Option<real>

    constructor ()
      ensures activeOrders == map[] && pendingBuyNotional == 0.0 && ordersReconciled && !halted && anchor.None?
    {
      activeOrders, pendingBuyNotional, ordersReconciled, halted := map[], 0.0, true, false;
      anchor := None;
    }

    /** Decides about one resting order; a missing creation time is stamped. */
    method ConsiderOrder(
      id: OrderRef, b: Buckets, fairValue: Option<real>, now: real, settings: QuoteSettings, force: bool
    ) returns (cancel: bool, b': Buckets)
      requires id in activeOrders && GoodBuckets(b)
      modifies this`activeOrders
      ensures activeOrders == old(activeOrders)
              || (activeOrders == old(activeOrders)[id := old(activeOrders)[id].(createdAt := Some(now))]
                  && old(activeOrders)[id].createdAt.None? && old(activeOrders)[id].side.Sell?)
      ensures GoodBuckets(b')
      ensures Considered(old(activeOrders)[id], cancel, b, b', force,
                         Sheltered(old(activeOrders)[id], now, fairValue, settings), settings.priceOffset)
    {
      hide RoundSize;
      var meta := activeOrders[id];
      b' := b;
      if force && meta.side.Buy? {
        return true, b;
      }
      var sig := RestingSignature(meta);
      if sig in b {
        b' := PopBucket(b, sig);
        return false, b';
      }
      if meta.side.Buy? {
        return true, b;
      }
      if meta.createdAt.None? {
        activeOrders := activeOrders[id := meta.(createdAt := Some(now))];
        meta := activeOrders[id];
      }
      var age := MaxReal(0.0, now - meta.createdAt.value);
      if age < settings.bufferSeconds {
        b' := ConsumeCompatible(b, meta.side, meta.price, settings.priceOffset);
        return false, b';
      }
      if fairValue.Some? && Gap(meta.price as real, fairValue.value) <= settings.priceOffset {
        b' := ConsumeCompatible(b, meta.side, meta.price, settings.priceOffset);
        return false, b';
      }
      return true, b;
    }

    /** Decides which resting orders to cancel and which desired orders remain to be placed. */
    method ChooseCancels(
      quotes: seq<Quote>, grouped: Buckets, fairValue: Option<real>, now: real, settings: QuoteSettings, force: bool
    ) returns (toCancel: set<OrderRef>, b: Buckets, ghost pool: multiset<Signature>)
      requires GoodBuckets(grouped) && forall s :: Waiting(grouped, s) == Desired(quotes, s)
      modifies this`activeOrders
      ensures toCancel <= old(activeOrders).Keys && SameOrders(old(activeOrders), activeOrders)
      ensures GoodBuckets(b) && Within(b, quotes)
      ensures !force ==> forall s: Signature :: s.side.Buy? ==> Settled(old(activeOrders), toCancel, b, quotes, s)
      ensures force ==> forall id :: id in old(activeOrders) && old(activeOrders)[id].side.Buy? ==> id in toCancel
      ensures forall id :: id in toCancel && old(activeOrders)[id].side.Sell? ==>
                !Sheltered(old(activeOrders)[id], now, fairValue, settings)
      ensures SellsBounded(old(activeOrders), Stale(old(activeOrders), now, fairValue, settings), toCancel, quotes)
      ensures FarWanted(old(activeOrders), b, quotes, settings.priceOffset)
      ensures forall s :: pool[s] == Waiting(b, s)
      ensures |pool| + |old(activeOrders)| - |toCancel| >= |quotes|
    {
      hide Balanced, Carriers, Desired, GoodBuckets, Sheltered, Considered, Within, BuysBalanced, Settled, SignatureOf,
        SellsFit, SellsBounded, Waiting, Chosen, FarWanted;
      hide Stale, Untouched, SameOrders;
      b, toCancel := grouped, {};
      ghost var before := activeOrders;
      ghost var stale := Stale(before, now, fairValue, settings);
      var rest := activeOrders.Keys;
      NothingTouched(before);
      pool := NothingChosen(before, stale, b, quotes, force);
      assert FarWanted(before, b, quotes, settings.priceOffset) by { AllFarWanted(before, b, quotes, settings.priceOffset); }
      assert before.Keys - rest == {};
      while rest != {}
        invariant rest <= before.Keys && Untouched(before, activeOrders, rest)
        invariant GoodBuckets(b) && Chosen(before, stale, before.Keys - rest, toCancel, b, quotes, force, pool)
        invariant FarWanted(before, b, quotes, settings.priceOffset)
        decreases rest
      {
        var id :| id in rest;
        ghost var wanted, active, seen := b, activeOrders, before.Keys - rest;
        RestIsUntouched(before, active, rest, id);
        var cancel;
        cancel, b := ConsiderOrder(id, b, fairValue, now, settings, force);
        StampOne(before, active, activeOrders, rest, id, now);
        IsStale(before, now, fairValue, settings, id);
        FarStaysWanted(before, id, cancel, wanted, b, quotes, force, Sheltered(before[id], now, fairValue, settings), settings.priceOffset);
        pool := OneMoreChosen(before, stale, seen, toCancel, wanted, b, quotes, force, pool, id, cancel,
                              Sheltered(before[id], now, fairValue, settings), settings.priceOffset);
        rest := rest - {id};
        assert before.Keys - rest == seen + {id};
        if cancel {
          toCancel := toCancel + {id};
        }
      }
      assert before.Keys - {} == before.Keys;
      NothingElseTouched(before, activeOrders, rest);
      AllChosen(before, stale, toCancel, b, quotes, force, pool);
      StaleAreNotSheltered(before, now, fairValue, settings, toCancel);
    }

    /** Sends the cancels; orders whose cancel is confirmed leave the cache. */
    method CancelStale(toCancel: set<OrderRef>, confirmed: set<OrderRef>) returns (allConfirmed: bool)
      requires toCancel <= activeOrders.Keys
      modifies this`activeOrders, this`ordersReconciled, this`halted
      ensures allConfirmed <==> toCancel <= confirmed
      ensures activeOrders == old(activeOrders) - (toCancel * confirmed)
      ensures allConfirmed ==> halted == old(halted) && ordersReconciled == old(ordersReconciled)
      ensures !allConfirmed ==> halted && !ordersReconciled
    {
      allConfirmed := true;
      ghost var before := activeOrders;
      var rest := toCancel;
      while rest != {}
        invariant rest <= toCancel
        invariant activeOrders == before - ((toCancel - rest) * confirmed)
        invariant allConfirmed <==> toCancel - rest <= confirmed
        invariant halted == old(halted) && ordersReconciled == old(ordersReconciled)
        decreases rest
      {
        var id :| id in rest;
        rest := rest - {id};
        if id in confirmed {
          activeOrders := activeOrders - {id};
        } else {
          allConfirmed := false;
        }
      }
      if !allConfirmed {
        ordersReconciled := false;
        halted := true;
      }
    }

    /** Places orders; the exchange names the ones it accepts. */
    method PlaceOrders(quotes: seq<Quote>, replies: seq<Option<OrderRef>>, now: real)
      requires |quotes| <= |replies|
      requires forall i :: 0 <= i < |quotes| && replies[i].Some? ==> replies[i].value !in activeOrders
      requires forall i, j :: 0 <= i < j < |quotes| && replies[i].Some? ==> replies[i] != replies[j]
      modifies this`activeOrders
      ensures Joined(old(activeOrders), activeOrders, quotes, replies, |quotes|, now)
      ensures AllJoined(old(activeOrders), activeOrders, quotes, replies, |quotes|)
    {
      hide Joined, AllJoined;
      ghost var before := activeOrders;
      NothingJoined(before, quotes, replies, now);
      for i := 0 to |quotes|
        invariant Joined(before, activeOrders, quotes, replies, i, now)
        invariant AllJoined(before, activeOrders, quotes, replies, i)
      {
        JoinOne(before, activeOrders, quotes, replies, i, now);
        CountOne(before, activeOrders, quotes, replies, i, now);
        if replies[i].Some? {
          var q := quotes[i];
          activeOrders := activeOrders[replies[i].value := Resting(q.side, q.price, q.size, q.postOnly, Some(now))];
        }
      }
    }

    method UpdatePendingBuyNotional()
      modifies this`pendingBuyNotional
      ensures pendingBuyNotional == Sum(PendingTable(activeOrders))
    {
      hide Sum, Notional;
      var total := 0.0;
      var rest := activeOrders.Keys;
      ghost var table := PendingTable(activeOrders);
      assert table - (activeOrders.Keys - rest) == table;
      while rest != {}
        invariant rest <= activeOrders.Keys == table.Keys
        invariant Sum(table) == total + Sum(table - (activeOrders.Keys - rest))
        decreases rest
      {
        var id :| id in rest;
        SumWithout(table - (activeOrders.Keys - rest), id);
        assert table - (activeOrders.Keys - rest) - {id} == table - (activeOrders.Keys - (rest - {id}));
        rest := rest - {id};
        if activeOrders[id].side.Buy? {
          total := total + Notional(activeOrders[id].price, activeOrders[id].size);
        }
      }
      assert table - (activeOrders.Keys - {}) == map[];
      EmptySum();
      pendingBuyNotional := total;
    }

    /** Places what is still wanted. */
    method PlaceMissing(b: Buckets, ghost quotes: seq<Quote>, replies: seq<Option<OrderRef>>, now: real) returns (ghost missing: seq<Quote>)
      requires GoodBuckets(b) && Within(b, quotes) && |quotes| <= |replies|
      requires forall i :: 0 <= i < |replies| && replies[i].Some? ==> replies[i].value !in activeOrders
      requires forall i, j :: 0 <= i < j < |replies| && replies[i].Some? ==> replies[i] != replies[j]
      modifies this`activeOrders
      ensures (forall s :: Desired(missing, s) == Waiting(b, s)) && |missing| <= |replies|
      ensures AllJoined(old(activeOrders), activeOrders, missing, replies, |missing|)
      ensures forall id :: id in old(activeOrders) ==> id in activeOrders && activeOrders[id] == old(activeOrders)[id]
      ensures forall id :: id in activeOrders && id !in old(activeOrders) ==>
                && Some(id) in replies
                && Desired(quotes, RestingSignature(activeOrders[id])) > 0 && activeOrders[id].createdAt == Some(now)
      ensures (forall i :: 0 <= i < |quotes| ==> quotes[i].side.Sell?) ==>
                forall id :: id in activeOrders && id !in old(activeOrders) ==> activeOrders[id].side.Sell?
    {
      hide Desired, GoodBuckets, SignatureOf, Within, Joined, AllJoined, Waiting;
      var orders := Flatten(b);
      missing := orders;
      MissingFits(missing, quotes, b);
      PlaceOrders(orders, replies, now);
      KeptAndPlaced(old(activeOrders), activeOrders, missing, quotes, b, replies, now);
    }

    /** The first half of a synchronisation: everything that must go is canceled. */
    method CancelExcess(
      quotes: seq<Quote>, fairValue: Option<real>, now: real, settings: QuoteSettings, force: bool, confirmed: set<OrderRef>
    ) returns (toCancel: set<OrderRef>, allConfirmed: bool, b: Buckets, ghost pool: multiset<Signature>)
      modifies this`activeOrders, this`ordersReconciled, this`halted
      ensures toCancel <= old(activeOrders).Keys && (allConfirmed <==> toCancel <= confirmed)
      ensures allConfirmed ==> halted == old(halted) && ordersReconciled == old(ordersReconciled)
      ensures !allConfirmed ==> halted && !ordersReconciled
      ensures activeOrders.Keys <= old(activeOrders).Keys
      ensures forall id :: id in old(activeOrders) ==> (id in activeOrders <==> id !in toCancel || id !in confirmed)
      ensures forall id :: id in activeOrders ==>
                SameButStamp(old(activeOrders)[id], activeOrders[id]) && activeOrders[id].side == old(activeOrders)[id].side
      ensures allConfirmed ==> activeOrders.Keys == old(activeOrders).Keys - toCancel
      ensures GoodBuckets(b) && Within(b, quotes)
      ensures !force ==> forall s: Signature :: s.side.Buy? ==> Settled(old(activeOrders), toCancel, b, quotes, s)
      ensures force ==> forall id :: id in old(activeOrders) && old(activeOrders)[id].side.Buy? ==> id in toCancel
      ensures forall id :: id in toCancel && old(activeOrders)[id].side.Sell? ==>
                !Sheltered(old(activeOrders)[id], now, fairValue, settings)
      ensures SellsBounded(old(activeOrders), Stale(old(activeOrders), now, fairValue, settings), toCancel, quotes)
      ensures FarWanted(old(activeOrders), b, quotes, settings.priceOffset)
      ensures forall s :: pool[s] == Waiting(b, s)
      ensures |pool| + |old(activeOrders)| - |toCancel| >= |quotes|
    {
      hide Desired, GoodBuckets, Sheltered, Within, Settled, Stale, SellsBounded, Waiting, SameOrders, SameButStamp, FarWanted;
      var grouped := GroupDesired(quotes);
      toCancel, b, pool := ChooseCancels(quotes, grouped, fairValue, now, settings, force);
      ghost var chosen := activeOrders;
      SameKeys(old(activeOrders), chosen);
      allConfirmed := CancelStale(toCancel, confirmed);
      CancelsDone(old(activeOrders), chosen, activeOrders, toCancel, confirmed);
    }

    /** One synchronisation. */
    method SyncOrdersDiff(
      quotes: seq<Quote>, fairValue: Option<real>, now: real, settings: QuoteSettings, force: bool,
      confirmed: set<OrderRef>, replies: seq<Option<OrderRef>>
    ) returns (toCancel: set<OrderRef>)
      requires |quotes| <= |replies|
      requires forall i :: 0 <= i < |replies| && replies[i].Some? ==> replies[i].value !in activeOrders
      requires forall i, j :: 0 <= i < j < |replies| && replies[i].Some? ==> replies[i] != replies[j]
      modifies this
      ensures toCancel <= old(activeOrders).Keys && anchor == old(anchor)
      ensures pendingBuyNotional == Sum(PendingTable(activeOrders))
      // orders that are not canceled stay, canceled orders leave once that is confirmed
      ensures forall id :: id in old(activeOrders) ==> (id in activeOrders <==> id !in toCancel || id !in confirmed)
      ensures forall id :: id in old(activeOrders) && id in activeOrders ==> SameButStamp(old(activeOrders)[id], activeOrders[id])
      // an unconfirmed cancel halts trading and nothing is placed
      ensures !(toCancel <= confirmed) ==> halted && !ordersReconciled && activeOrders.Keys <= old(activeOrders).Keys
      ensures toCancel <= confirmed ==> halted == old(halted) && ordersReconciled == old(ordersReconciled)
      // exactly the common part of the resting and the desired BUY orders is untouched
      ensures !force ==> forall s: Signature :: s.side.Buy? ==>
                |Carriers(old(activeOrders), s) - toCancel| == Least(|Carriers(old(activeOrders), s)|, Desired(quotes, s))
      // and the resting BUY orders end up being the desired ones
      ensures !force && toCancel <= confirmed && (forall i :: 0 <= i < |replies| ==> replies[i].Some?) ==>
                forall s: Signature :: s.side.Buy? ==> |Carriers(activeOrders, s)| == Desired(quotes, s)
      // under a forced contraction no old BUY survives, and none is left if none is desired
      ensures force && toCancel <= confirmed ==>
                forall id :: id in old(activeOrders) && old(activeOrders)[id].side.Buy? ==> id !in activeOrders
      ensures force && toCancel <= confirmed && (forall i :: 0 <= i < |quotes| ==> quotes[i].side.Sell?) ==>
                forall id :: id in activeOrders ==> activeOrders[id].side.Sell?
      // an unmatched SELL is canceled only when it is old and far from fair value
      ensures forall id :: id in toCancel && old(activeOrders)[id].side.Sell? ==>
                !Sheltered(old(activeOrders)[id], now, fairValue, settings)
      // and then it is: no more such SELLs stay than are desired
      ensures SellsBounded(old(activeOrders), Stale(old(activeOrders), now, fairValue, settings), toCancel, quotes)
      // what is new was desired, and what was desired is placed or stands for an order that was kept
      ensures forall id :: id in activeOrders && id !in old(activeOrders) ==>
                Desired(quotes, RestingSignature(activeOrders[id])) > 0 && activeOrders[id].createdAt == Some(now)
      ensures toCancel <= confirmed && (forall i :: 0 <= i < |replies| ==> replies[i].Some?) ==>
                && |activeOrders| >= |quotes|
                // exactly so if no SELL rested near its price
                && forall s: Signature :: s.side.Sell? && Far(old(activeOrders), s, settings.priceOffset) ==>
                     |Carriers(activeOrders, s)| == Desired(quotes, s)
    {
      hide Balanced, Carriers, Desired, GoodBuckets, SignatureOf, Sheltered, Sum, PendingTable, Within, Settled, Stale, SellsBounded,
        Joined, AllJoined, Waiting, Signatures, SameOrders, Far, FarWanted, SameButStamp, Least, RestingSignature;
      var b, allConfirmed;
      ghost var pool;
      toCancel, allConfirmed, b, pool := CancelExcess(quotes, fairValue, now, settings, force, confirmed);
      ghost var kept := activeOrders;
      if allConfirmed {
        ghost var missing := PlaceMissing(b, quotes, replies, now);
        if forall i :: 0 <= i < |replies| ==> replies[i].Some? {
          EverythingRests(old(activeOrders), kept, activeOrders, toCancel, b, quotes, missing, replies, pool, force,
                         settings.priceOffset);
        }
      }
      SettledKeepsLeast(old(activeOrders), toCancel, b, quotes, force);
      UpdatePendingBuyNotional();
    }
  }

  lemma SameKeys(a: map<OrderRef, Resting>, b: map<OrderRef, Resting>)
    requires SameOrders(a, b)
    ensures a.Keys == b.Keys
  {
  }

  lemma CancelsDone(
    before: map<OrderRef, Resting>, chosen: map<OrderRef, Resting>, kept: map<OrderRef, Resting>,
    toCancel: set<OrderRef>, confirmed: set<OrderRef>)
    requires SameOrders(before, chosen) && kept == chosen - (toCancel * confirmed)
    ensures kept.Keys <= before.Keys
    ensures forall id :: id in before ==> (id in kept <==> id !in toCancel || id !in confirmed)
    ensures forall id :: id in kept ==> SameButStamp(before[id], kept[id]) && kept[id].side == before[id].side
    ensures toCancel <= confirmed ==> kept.Keys == before.Keys - toCancel
  {
  }

  /** What the answers make of the cache once the cancels are done. */
  lemma KeptAndPlaced(
    kept: map<OrderRef, Resting>, after: map<OrderRef, Resting>, missing: seq<Quote>, quotes: seq<Quote>, b: Buckets,
    replies: seq<Option<OrderRef>>, now: real)
    requires |missing| <= |replies| && Joined(kept, after, missing, replies, |missing|, now)
    requires Within(b, quotes) && forall s :: Desired(missing, s) == Waiting(b, s)
    ensures forall id :: id in kept ==> id in after && after[id] == kept[id]
    ensures forall id :: id in after && id !in kept ==>
              && Some(id) in replies && (exists i :: 0 <= i < |missing| && after[id].side == missing[i].side)
              && Desired(quotes, RestingSignature(after[id])) > 0 && after[id].createdAt == Some(now)
  {
    hide Desired, Waiting, RoundSize, Within;
    forall id | id in after && id !in kept
      ensures Some(id) in replies && exists i :: 0 <= i < |missing| && after[id].side == missing[i].side
      ensures Desired(quotes, RestingSignature(after[id])) > 0 && after[id].createdAt == Some(now)
    {
      var i :| 0 <= i < |missing| && replies[i] == Some(id) && after[id] == Placed(missing[i], now);
      MissingIsDesired(missing, quotes, b, i, now);
      assert after[id].side == missing[i].side;
    }
  }

  lemma NothingNear(before: map<OrderRef, Resting>, kept: map<OrderRef, Resting>, s: Signature, offset: real)
    requires s.side.Sell? && Far(before, s, offset)
    requires kept.Keys <= before.Keys && forall id :: id in kept ==> SameButStamp(before[id], kept[id])
    ensures Carriers(kept, s) == {}
  {
    hide RoundSize;
  }

  lemma EverythingRests(
    before: map<OrderRef, Resting>, kept: map<OrderRef, Resting>, after: map<OrderRef, Resting>, toCancel: set<OrderRef>,
    b: Buckets, quotes: seq<Quote>, missing: seq<Quote>, replies: seq<Option<OrderRef>>, pool: multiset<Signature>, force: bool,
    offset: real)
    requires FarWanted(before, b, quotes, offset)
    requires |missing| <= |replies| && (forall i :: 0 <= i < |replies| ==> replies[i].Some?)
    requires AllJoined(kept, after, missing, replies, |missing|)
    requires toCancel <= before.Keys && kept.Keys == before.Keys - toCancel && forall id :: id in kept ==> SameButStamp(before[id], kept[id])
    requires forall s :: Desired(missing, s) == Waiting(b, s)
    requires (forall s :: pool[s] == Waiting(b, s)) && |pool| + |before| - |toCancel| >= |quotes|
    requires !force ==> forall s: Signature :: s.side.Buy? ==> Settled(before, toCancel, b, quotes, s)
    ensures |after| >= |quotes|
    ensures forall s: Signature :: s.side.Sell? && Far(before, s, offset) ==> |Carriers(after, s)| == Desired(quotes, s)
    ensures !force ==> forall s: Signature :: s.side.Buy? ==> |Carriers(after, s)| == Desired(quotes, s)
  {
    hide Desired, Carriers, Waiting, Settled;
    assert missing[..|missing|] == missing;
    AllMissing(missing, b, pool);
    KeptCount(before, kept, toCancel);
    forall s: Signature | s.side.Sell? && Far(before, s, offset) ensures |Carriers(after, s)| == Desired(quotes, s) {
      NothingNear(before, kept, s, offset);
    }
    hide Far;
    if !force {
      DesiredIsReached(before, kept, toCancel, b, quotes, missing, after);
    }
  }

  /** The cache entry of an accepted order. */
  function Placed(q: Quote, now: real): Resting {
    Resting(q.side, q.price, q.size, q.postOnly, Some(now))
  }

  lemma MissingIsDesired(missing: seq<Quote>, quotes: seq<Quote>, b: Buckets, i: nat, now: real)
    requires Within(b, quotes) && (forall s :: Desired(missing, s) == Waiting(b, s)) && i < |missing|
    ensures Desired(quotes, RestingSignature(Placed(missing[i], now))) > 0
  {
    hide RoundSize;
    var s := QuoteSignature(missing[i]);
    assert Signatures(missing)[i] == s;
    assert s in multiset(Signatures(missing));
  }

  lemma AllMissing(missing: seq<Quote>, b: Buckets, pool: multiset<Signature>)
    requires forall s :: Desired(missing, s) == Waiting(b, s)
    requires forall s :: pool[s] == Waiting(b, s)
    ensures |missing| == |pool|
  {
    assert forall s :: multiset(Signatures(missing))[s] == Desired(missing, s) == pool[s];
    assert multiset(Signatures(missing)) == pool;
  }

  lemma AllWanted(quotes: seq<Quote>, b: Buckets) returns (pool: multiset<Signature>)
    requires forall s :: Waiting(b, s) == Desired(quotes, s)
    ensures (forall s :: pool[s] == Waiting(b, s)) && |pool| == |quotes|
  {
    pool := multiset(Signatures(quotes));
  }

  lemma KeptCount(before: map<OrderRef, Resting>, kept: map<OrderRef, Resting>, toCancel: set<OrderRef>)
    requires kept.Keys == before.Keys - toCancel && toCancel <= before.Keys
    ensures |kept| == |before| - |toCancel|
  {
    assert |kept.Keys| == |before.Keys| - |toCancel|;
    assert |kept| == |kept.Keys| && |before| == |before.Keys|;
  }

  /** The orders that anti-churn does not shelter. */
  ghost function Stale(active: map<OrderRef, Resting>, now: real, fairValue: Option<real>, settings: QuoteSettings): set<OrderRef> {
    set id | id in active && !Sheltered(active[id], now, fairValue, settings)
  }

  ghost predicate SellsFit(active: map<OrderRef, Resting>, stale: set<OrderRef>, kept: set<OrderRef>, b: Buckets, quotes: seq<Quote>) {
    forall s: Signature :: s.side.Sell? ==> |Carriers(active, s) * stale * kept| + Waiting(b, s) <= Desired(quotes, s)
  }

  /** Of the SELLs that nothing shelters, no more stay than are desired. */
  ghost predicate SellsBounded(active: map<OrderRef, Resting>, stale: set<OrderRef>, toCancel: set<OrderRef>, quotes: seq<Quote>) {
    forall s: Signature :: s.side.Sell? ==> |Carriers(active, s) * stale - toCancel| <= Desired(quotes, s)
  }

  lemma NothingKept(active: map<OrderRef, Resting>, stale: set<OrderRef>, b: Buckets, quotes: seq<Quote>)
    requires forall s :: Waiting(b, s) == Desired(quotes, s)
    ensures SellsFit(active, stale, {} - {}, b, quotes)
  {
    forall s: Signature ensures Carriers(active, s) * stale * ({} - {}) == {} {
    }
  }

  lemma StillFit(active: map<OrderRef, Resting>, stale: set<OrderRef>, kept: set<OrderRef>, b: Buckets, b': Buckets,
                 quotes: seq<Quote>, id: OrderRef, cancel: bool)
    requires SellsFit(active, stale, kept, b, quotes) && id in active && id !in kept
    requires forall s :: Waiting(b', s) <= Waiting(b, s)
    requires !cancel && id in stale ==> Popped(b, b', RestingSignature(active[id]))
    ensures SellsFit(active, stale, if cancel then kept else kept + {id}, b', quotes)
  {
    hide Desired, RoundSize;
    if !cancel {
      forall s: Signature | s.side.Sell?
        ensures |Carriers(active, s) * stale * (kept + {id})| + Waiting(b', s) <= Desired(quotes, s)
      {
        OneMoreKept(Carriers(active, s) * stale, kept, id);
      }
    }
  }

  lemma OneMoreKept(a: set<OrderRef>, kept: set<OrderRef>, id: OrderRef)
    requires id !in kept
    ensures |a * (kept + {id})| == |a * kept| + (if id in a then 1 else 0)
  {
    assert a * (kept + {id}) == a * kept + (if id in a then {id} else {});
  }

  lemma AllFit(active: map<OrderRef, Resting>, stale: set<OrderRef>, toCancel: set<OrderRef>, b: Buckets, quotes: seq<Quote>)
    requires SellsFit(active, stale, active.Keys - toCancel, b, quotes)
    ensures SellsBounded(active, stale, toCancel, quotes)
  {
    hide Desired;
    forall s: Signature | s.side.Sell? ensures |Carriers(active, s) * stale - toCancel| <= Desired(quotes, s) {
      assert Carriers(active, s) * stale * (active.Keys - toCancel) == Carriers(active, s) * stale - toCancel;
    }
  }

  /** No resting SELL is near a price. */
  ghost predicate Far(active: map<OrderRef, Resting>, s: Signature, offset: real) {
    forall id :: id in active && active[id].side.Sell? ==>
      active[id].price != s.price && !(-offset <= (s.price - active[id].price) as real <= offset)
  }

  /** A desired SELL that is near no resting one is still wanted. */
  ghost predicate FarWanted(active: map<OrderRef, Resting>, b: Buckets, quotes: seq<Quote>, offset: real) {
    forall s: Signature :: s.side.Sell? && Far(active, s, offset) ==> Waiting(b, s) == Desired(quotes, s)
  }

  lemma AllFarWanted(active: map<OrderRef, Resting>, b: Buckets, quotes: seq<Quote>, offset: real)
    requires forall s :: Waiting(b, s) == Desired(quotes, s)
    ensures FarWanted(active, b, quotes, offset)
  {
  }

  lemma FarStaysWanted(
    active: map<OrderRef, Resting>, id: OrderRef, cancel: bool, b: Buckets, b': Buckets, quotes: seq<Quote>,
    force: bool, sheltered: bool, offset: real)
    requires FarWanted(active, b, quotes, offset) && id in active
    requires Considered(active[id], cancel, b, b', force, sheltered, offset)
    ensures FarWanted(active, b', quotes, offset)
  {
    hide Desired, RoundSize;
    forall s: Signature | s.side.Sell? && Far(active, s, offset) ensures Waiting(b', s) == Desired(quotes, s) {
      if b' != b {
        var taken := TakenFor(active[id], cancel, b, b', force, sheltered, offset);
        assert Popped(b, b', taken);
        NearIsNotFar(active, id, s, taken, offset);
      }
      assert Waiting(b, s) == Desired(quotes, s);
    }
  }

  /** The desired order a resting one stands for. */
  lemma TakenFor(r: Resting, cancel: bool, b: Buckets, b': Buckets, force: bool, sheltered: bool, offset: real)
    returns (taken: Signature)
    requires Considered(r, cancel, b, b', force, sheltered, offset) && b' != b
    ensures Popped(b, b', taken)
    ensures taken == RestingSignature(r) || (r.side.Sell? && Compatible(taken, r.side, r.price, offset))
  {
    hide RoundSize, Popped, Compatible;
    if Popped(b, b', RestingSignature(r)) {
      taken := RestingSignature(r);
    } else {
      taken :| taken in b && Compatible(taken, r.side, r.price, offset) && Popped(b, b', taken);
    }
  }

  lemma NearIsNotFar(active: map<OrderRef, Resting>, id: OrderRef, s: Signature, taken: Signature, offset: real)
    requires id in active && s.side.Sell? && Far(active, s, offset)
    requires taken == RestingSignature(active[id]) || (active[id].side.Sell? && Compatible(taken, active[id].side, active[id].price, offset))
    ensures taken != s
  {
    hide RoundSize;
  }

  ghost predicate Untouched(before: map<OrderRef, Resting>, active: map<OrderRef, Resting>, rest: set<OrderRef>) {
    SameOrders(before, active) && forall id :: id in rest && id in before ==> active[id] == before[id]
  }

  lemma NothingTouched(active: map<OrderRef, Resting>)
    ensures Untouched(active, active, active.Keys)
  {
  }

  lemma RestIsUntouched(before: map<OrderRef, Resting>, active: map<OrderRef, Resting>, rest: set<OrderRef>, id: OrderRef)
    requires Untouched(before, active, rest) && id in rest && id in before
    ensures id in active && active[id] == before[id]
  {
  }

  lemma StampOne(
    before: map<OrderRef, Resting>, active: map<OrderRef, Resting>, after: map<OrderRef, Resting>, rest: set<OrderRef>,
    id: OrderRef, now: real)
    requires Untouched(before, active, rest) && id in active
    requires after == active || after == active[id := active[id].(createdAt := Some(now))]
    ensures Untouched(before, after, rest - {id})
  {
  }

  lemma NothingElseTouched(before: map<OrderRef, Resting>, active: map<OrderRef, Resting>, rest: set<OrderRef>)
    requires Untouched(before, active, rest)
    ensures SameOrders(before, active)
  {
  }

  lemma IsStale(active: map<OrderRef, Resting>, now: real, fairValue: Option<real>, settings: QuoteSettings, id: OrderRef)
    requires id in active
    ensures id in Stale(active, now, fairValue, settings) <==> !Sheltered(active[id], now, fairValue, settings)
  {
  }

  lemma StaleAreNotSheltered(
    active: map<OrderRef, Resting>, now: real, fairValue: Option<real>, settings: QuoteSettings, toCancel: set<OrderRef>)
    requires toCancel <= active.Keys
    requires forall id :: id in toCancel && active[id].side.Sell? ==> id in Stale(active, now, fairValue, settings)
    ensures forall id :: id in toCancel && active[id].side.Sell? ==> !Sheltered(active[id], now, fairValue, settings)
  {
    hide Sheltered;
  }

  /** What the pass over the resting orders has established for those it has seen. */
  ghost predicate Chosen(
    active: map<OrderRef, Resting>, stale: set<OrderRef>, seen: set<OrderRef>, toCancel: set<OrderRef>, b: Buckets,
    quotes: seq<Quote>, force: bool, pool: multiset<Signature>)
  {
    && seen <= active.Keys && toCancel <= seen && Within(b, quotes)
    && (!force ==> BuysBalanced(active, seen, toCancel, b, quotes))
    && (force ==> forall id :: id in seen && active[id].side.Buy? ==> id in toCancel)
    && (forall id :: id in toCancel && active[id].side.Sell? ==> id in stale)
    && SellsFit(active, stale, seen - toCancel, b, quotes)
    && (forall s :: pool[s] == Waiting(b, s))
    && |pool| + |seen| - |toCancel| >= |quotes|
  }

  lemma NothingChosen(active: map<OrderRef, Resting>, stale: set<OrderRef>, b: Buckets, quotes: seq<Quote>, force: bool)
    returns (pool: multiset<Signature>)
    requires forall s :: Waiting(b, s) == Desired(quotes, s)
    ensures Chosen(active, stale, {}, {}, b, quotes, force, pool)
  {
    hide Waiting, Desired, BuysBalanced, SellsFit, Within;
    NothingSeen(active, b, quotes);
    NothingKept(active, stale, b, quotes);
    pool := AllWanted(quotes, b);
  }

  lemma OneMoreChosen(
    active: map<OrderRef, Resting>, stale: set<OrderRef>, seen: set<OrderRef>, toCancel: set<OrderRef>, b: Buckets, b': Buckets,
    quotes: seq<Quote>, force: bool, pool: multiset<Signature>, id: OrderRef, cancel: bool, sheltered: bool, offset: real)
    returns (pool': multiset<Signature>)
    requires Chosen(active, stale, seen, toCancel, b, quotes, force, pool) && id in active && id !in seen
    requires Considered(active[id], cancel, b, b', force, sheltered, offset) && (id in stale <==> !sheltered)
    ensures Chosen(active, stale, seen + {id}, if cancel then toCancel + {id} else toCancel, b', quotes, force, pool')
  {
    hide BuysBalanced, SellsFit, Within, Considered, Waiting, RoundSize, Desired, Popped, RestingSignature;
    ConsideredFacts(active[id], cancel, b, b', force, sheltered, offset);
    ConsideredKeeps(active, seen, toCancel, b, b', quotes, id, cancel, force, sheltered, offset);
    pool' := OneLessWanted(active[id], cancel, b, b', force, sheltered, offset, pool);
    StillFit(active, stale, seen - toCancel, b, b', quotes, id, cancel);
    OneMoreSeen(seen, toCancel, id);
  }

  lemma OneMoreSeen(seen: set<OrderRef>, toCancel: set<OrderRef>, id: OrderRef)
    requires id !in seen && toCancel <= seen
    ensures (seen + {id}) - (toCancel + {id}) == seen - toCancel && (seen + {id}) - toCancel == seen - toCancel + {id}
    ensures |seen + {id}| == |seen| + 1 && |toCancel + {id}| == |toCancel| + 1
  {
  }

  lemma AllChosen(
    active: map<OrderRef, Resting>, stale: set<OrderRef>, toCancel: set<OrderRef>, b: Buckets, quotes: seq<Quote>,
    force: bool, pool: multiset<Signature>)
    requires Chosen(active, stale, active.Keys, toCancel, b, quotes, force, pool)
    ensures toCancel <= active.Keys && Within(b, quotes)
    ensures !force ==> forall s: Signature :: s.side.Buy? ==> Settled(active, toCancel, b, quotes, s)
    ensures force ==> forall id :: id in active && active[id].side.Buy? ==> id in toCancel
    ensures forall id :: id in toCancel && active[id].side.Sell? ==> id in stale
    ensures SellsBounded(active, stale, toCancel, quotes)
    ensures (forall s :: pool[s] == Waiting(b, s)) && |pool| + |active| - |toCancel| >= |quotes|
  {
    hide BuysBalanced, SellsFit, Within, Settled, Waiting;
    if !force {
      AllSettled(active, toCancel, b, quotes);
    }
    AllFit(active, stale, toCancel, b, quotes);
    assert |active| == |active.Keys|;
  }

  /** The cache after n answers: nothing old is touched, every accepted order is in it as it was
      sent, and nothing else is new. */
  ghost predicate Joined(
    before: map<OrderRef, Resting>, after: map<OrderRef, Resting>, quotes: seq<Quote>, replies: seq<Option<OrderRef>>, n: nat, now: real)
    requires n <= |quotes| <= |replies|
  {
    && (forall id :: id in before ==> id in after && after[id] == before[id])
    && (forall id :: id in after && id !in before ==>
          exists i :: 0 <= i < n && replies[i] == Some(id) && after[id] == Placed(quotes[i], now))
    && (forall i :: 0 <= i < n && replies[i].Some? ==> replies[i].value in after && replies[i].value !in before)
  }

  /** If all n orders were accepted, each signature has gained as many orders as were sent. */
  ghost predicate AllJoined(
    before: map<OrderRef, Resting>, after: map<OrderRef, Resting>, quotes: seq<Quote>, replies: seq<Option<OrderRef>>, n: nat)
    requires n <= |quotes| <= |replies|
  {
    (forall i :: 0 <= i < n ==> replies[i].Some?) ==>
      && |after| == |before| + n
      && forall s :: |Carriers(after, s)| == |Carriers(before, s)| + Desired(quotes[..n], s)
  }

  lemma NothingJoined(before: map<OrderRef, Resting>, quotes: seq<Quote>, replies: seq<Option<OrderRef>>, now: real)
    requires |quotes| <= |replies|
    ensures Joined(before, before, quotes, replies, 0, now) && AllJoined(before, before, quotes, replies, 0)
  {
    assert quotes[..0] == [];
    NothingDesired();
  }

  lemma JoinOne(
    before: map<OrderRef, Resting>, active: map<OrderRef, Resting>, quotes: seq<Quote>, replies: seq<Option<OrderRef>>, i: nat, now: real)
    requires i < |quotes| <= |replies| && Joined(before, active, quotes, replies, i, now)
    requires replies[i].Some? ==> replies[i].value !in before
    requires forall k :: 0 <= k < i && replies[k].Some? ==> replies[k] != replies[i]
    ensures replies[i].Some? ==> replies[i].value !in active
    ensures Joined(before, if replies[i].Some? then active[replies[i].value := Placed(quotes[i], now)] else active,
                   quotes, replies, i + 1, now)
  {
  }

  lemma CountOne(
    before: map<OrderRef, Resting>, active: map<OrderRef, Resting>, quotes: seq<Quote>, replies: seq<Option<OrderRef>>, i: nat, now: real)
    requires i < |quotes| <= |replies| && AllJoined(before, active, quotes, replies, i)
    requires replies[i].Some? ==> replies[i].value !in active
    ensures AllJoined(before, if replies[i].Some? then active[replies[i].value := Placed(quotes[i], now)] else active,
                      quotes, replies, i + 1)
  {
    hide Carriers, Desired, RoundSize;
    if replies[i].Some? {
      var id, order := replies[i].value, Placed(quotes[i], now);
      assert active[id := order].Keys == active.Keys + {id};
      assert |active[id := order]| == |active[id := order].Keys| && |active| == |active.Keys|;
      forall s ensures |Carriers(active[id := order], s)| + Desired(quotes[..i], s)
                       == |Carriers(active, s)| + Desired(quotes[..i + 1], s) {
        FreshCarrier(active, id, order, s);
        DesiredGrows(quotes, i, s);
      }
    }
  }

  /** Only the creation time may differ. */
  predicate SameButStamp(a: Resting, b: Resting) {
    b == a.(createdAt := b.createdAt)
  }

  ghost predicate SameOrders(a: map<OrderRef, Resting>, b: map<OrderRef, Resting>) {
    a.Keys == b.Keys && forall id :: id in a ==> SameButStamp(a[id], b[id])
  }

  ghost predicate Within(b: Buckets, quotes: seq<Quote>) {
    forall s :: Waiting(b, s) <= Desired(quotes, s)
  }

  function Least(a: nat, b: nat): nat { if a <= b then a else b }

  /** How many orders of a signature stay, and how many are still missing. */
  ghost predicate Settled(active: map<OrderRef, Resting>, toCancel: set<OrderRef>, b: Buckets, quotes: seq<Quote>, s: Signature) {
    var kept := |Carriers(active, s) - toCancel|;
    kept == Least(|Carriers(active, s)|, Desired(quotes, s)) && kept + Waiting(b, s) == Desired(quotes, s)
  }

  ghost predicate BuysBalanced(
    active: map<OrderRef, Resting>, seen: set<OrderRef>, toCancel: set<OrderRef>, b: Buckets, quotes: seq<Quote>)
  {
    forall s: Signature :: s.side.Buy? ==> Balanced(active, seen, toCancel, b, quotes, s)
  }

  /** One decision. A forced pass cancels every BUY; otherwise a desired order with the same
      signature keeps the resting one and is used up, a sheltered SELL is kept and uses up a
      compatible desired order if there is one, and everything else is canceled. */
  ghost predicate Considered(r: Resting, cancel: bool, b: Buckets, b': Buckets, force: bool, sheltered: bool, offset: real) {
    if force && r.side.Buy? then cancel && b' == b
    else if Waiting(b, RestingSignature(r)) > 0 then !cancel && Popped(b, b', RestingSignature(r))
    else if r.side.Sell? && sheltered then
      && !cancel
      && if exists s :: s in b && Compatible(s, r.side, r.price, offset)
         then exists s :: s in b && Compatible(s, r.side, r.price, offset) && Popped(b, b', s)
         else b' == b
    else cancel && b' == b
  }

  lemma ConsideredFacts(r: Resting, cancel: bool, b: Buckets, b': Buckets, force: bool, sheltered: bool, offset: real)
    requires Considered(r, cancel, b, b', force, sheltered, offset)
    ensures forall s :: Waiting(b', s) <= Waiting(b, s)
    ensures cancel ==> b' == b && (!force && r.side.Buy? ==> Waiting(b, RestingSignature(r)) == 0)
    ensures cancel && r.side.Sell? ==> !sheltered
    ensures !cancel && r.side.Buy? ==> !force && Popped(b, b', RestingSignature(r))
    ensures !cancel && r.side.Sell? ==> forall s: Signature :: s.side.Buy? ==> Waiting(b', s) == Waiting(b, s)
    ensures !cancel && !sheltered ==> Popped(b, b', RestingSignature(r))
  {
    hide RoundSize;
  }

  lemma PoppedAt(b: Buckets, b': Buckets, s: Signature)
    requires Popped(b, b', s)
    ensures Waiting(b', s) + 1 == Waiting(b, s)
  {
  }

  /** What is still wanted, as a bag: a decision takes at most the one order it keeps. */
  lemma OneLessWanted(
    r: Resting, cancel: bool, b: Buckets, b': Buckets, force: bool, sheltered: bool, offset: real, pool: multiset<Signature>)
    returns (pool': multiset<Signature>)
    requires Considered(r, cancel, b, b', force, sheltered, offset)
    requires forall s :: pool[s] == Waiting(b, s)
    ensures forall s :: pool'[s] == Waiting(b', s)
    ensures |pool'| + (if cancel then 0 else 1) >= |pool|
  {
    hide RoundSize;
    pool' := pool;
    if b' != b {
      var taken :| Popped(b, b', taken);
      PoppedAt(b, b', taken);
      assert taken in pool;
      pool' := pool - multiset{taken};
    }
  }

  lemma ConsideredKeeps(active: map<OrderRef, Resting>, seen: set<OrderRef>, toCancel: set<OrderRef>, b: Buckets, b': Buckets,
                        quotes: seq<Quote>, id: OrderRef, cancel: bool, force: bool, sheltered: bool, offset: real)
    requires id in active && id !in seen && toCancel <= seen
    requires Considered(active[id], cancel, b, b', force, sheltered, offset) && Within(b, quotes)
    requires !force ==> BuysBalanced(active, seen, toCancel, b, quotes)
    ensures Within(b', quotes)
    ensures !force ==> BuysBalanced(active, seen + {id}, if cancel then toCancel + {id} else toCancel, b', quotes)
    ensures force && active[id].side.Buy? ==> cancel
  {
    ConsideredFacts(active[id], cancel, b, b', force, sheltered, offset);
    hide Desired, Carriers, Balanced, RoundSize, Considered;
    if !force {
      forall s: Signature | s.side.Buy?
        ensures Balanced(active, seen + {id}, if cancel then toCancel + {id} else toCancel, b', quotes, s)
      {
        if cancel {
          SeenCanceled(active, seen, toCancel, b, quotes, s, id);
        } else {
          SeenKept(active, seen, toCancel, b, b', quotes, s, id);
        }
      }
    }
  }

  lemma AllSettled(active: map<OrderRef, Resting>, toCancel: set<OrderRef>, b: Buckets, quotes: seq<Quote>)
    requires BuysBalanced(active, active.Keys, toCancel, b, quotes)
    ensures forall s: Signature :: s.side.Buy? ==> Settled(active, toCancel, b, quotes, s)
  {
    hide Desired, Carriers, Balanced;
    forall s: Signature | s.side.Buy? ensures Settled(active, toCancel, b, quotes, s) {
      SeenSettled(active, toCancel, b, quotes, s);
    }
  }

  lemma SettledKeepsLeast(active: map<OrderRef, Resting>, toCancel: set<OrderRef>, b: Buckets, quotes: seq<Quote>, force: bool)
    requires !force ==> forall s: Signature :: s.side.Buy? ==> Settled(active, toCancel, b, quotes, s)
    ensures !force ==> forall s: Signature :: s.side.Buy? ==>
              |Carriers(active, s) - toCancel| == Least(|Carriers(active, s)|, Desired(quotes, s))
  {
  }

  lemma DesiredIsReached(before: map<OrderRef, Resting>, kept: map<OrderRef, Resting>, toCancel: set<OrderRef>, b: Buckets,
                         quotes: seq<Quote>, missing: seq<Quote>, after: map<OrderRef, Resting>)
    requires kept.Keys == before.Keys - toCancel && forall id :: id in kept ==> SameButStamp(before[id], kept[id])
    requires forall s: Signature :: s.side.Buy? ==> Settled(before, toCancel, b, quotes, s)
    requires forall s :: Desired(missing, s) == Waiting(b, s)
    requires forall s :: |Carriers(after, s)| == |Carriers(kept, s)| + Desired(missing, s)
    ensures forall s: Signature :: s.side.Buy? ==> |Carriers(after, s)| == Desired(quotes, s)
  {
    hide Desired;
    forall s: Signature | s.side.Buy? ensures |Carriers(after, s)| == Desired(quotes, s) {
      assert Carriers(kept, s) == Carriers(before, s) - toCancel;
      assert Settled(before, toCancel, b, quotes, s);
    }
  }

  lemma NothingSeen(active: map<OrderRef, Resting>, b: Buckets, quotes: seq<Quote>)
    requires forall s :: Waiting(b, s) == Desired(quotes, s)
    ensures BuysBalanced(active, {}, {}, b, quotes) && Within(b, quotes)
  {
    forall s ensures Balanced(active, {}, {}, b, quotes, s) {
      assert Carriers(active, s) * ({} - {}) == {};
    }
  }

  lemma FreshCarrier(active: map<OrderRef, Resting>, id: OrderRef, order: Resting, s: Signature)
    requires id !in active
    ensures |Carriers(active[id := order], s)| == |Carriers(active, s)| + (if s == RestingSignature(order) then 1 else 0)
  {
    if s == RestingSignature(order) {
      assert Carriers(active[id := order], s) == Carriers(active, s) + {id};
    } else {
      assert Carriers(active[id := order], s) == Carriers(active, s);
    }
  }

  lemma EmptySum()
    ensures Sum(map[]) == 0.0
  {
  }

  lemma NothingDesired()
    ensures forall s :: Desired([], s) == 0
  {
  }

  /** No more orders are missing than were desired. */
  lemma MissingFits(missing: seq<Quote>, quotes: seq<Quote>, b: Buckets)
    requires Within(b, quotes) && forall s :: Desired(missing, s) == Waiting(b, s)
    ensures |missing| <= |quotes|
    ensures (forall i :: 0 <= i < |quotes| ==> quotes[i].side.Sell?) ==> forall i :: 0 <= i < |missing| ==> missing[i].side.Sell?
  {
    if forall i :: 0 <= i < |quotes| ==> quotes[i].side.Sell? {
      forall i | 0 <= i < |missing| ensures missing[i].side.Sell? {
        WantedSide(missing, quotes, b, i);
      }
    }
    var m, q := multiset(Signatures(missing)), multiset(Signatures(quotes));
    assert forall s :: m[s] == Desired(missing, s) <= Desired(quotes, s) == q[s];
    assert m <= q;
    MultisetMonotone(m, q);
  }

  /** A missing order has the side of some desired order. */
  lemma WantedSide(missing: seq<Quote>, quotes: seq<Quote>, b: Buckets, i: nat)
    requires Within(b, quotes) && (forall s :: Desired(missing, s) == Waiting(b, s)) && i < |missing|
    ensures exists k :: 0 <= k < |quotes| && quotes[k].side == missing[i].side
  {
    var s := QuoteSignature(missing[i]);
    assert Signatures(missing)[i] == s;
    assert s in multiset(Signatures(missing));
    assert Waiting(b, s) <= Desired(quotes, s);
    var k :| 0 <= k < |Signatures(quotes)| && Signatures(quotes)[k] == s;
    assert quotes[k].side == s.side;
  }

  lemma {:induction false} MultisetMonotone(a: multiset<Signature>, b: multiset<Signature>)
    requires a <= b
    ensures |a| <= |b|
  {
    assert b == a + (b - a);
  }

}
