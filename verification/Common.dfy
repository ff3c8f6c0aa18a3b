/** Shared vocabulary: failure-compatible results, options, and sums over tables.

    Units used by every module of the trading core:
    - a price is a whole number of 1e-4 dollars (the scale of the price columns),
    - a size is a whole number of 1e-8 shares (the scale of the size columns),
    - money is a real number of 1e-12 dollars, so price * size needs no conversion.
  */
module Common {

  datatype Option<+T> = None | Some(value: T)

  datatype Result<+T, +E> = Success(value: T) | Failure(error: E) {
    predicate IsFailure() { Failure? }

    function PropagateFailure<U>(): Result<U, E>
      requires Failure?
    {
      Failure(error)
    }

    function Extract(): T
      requires Success?
    {
      value
    }
  }

  datatype Side = Buy | Sell

  /** Which of the two tokens of a binary market. */
  datatype Outcome = Yes | No

  const ONE_DOLLAR: int := 10_000            // a price of 1.0000
  const SIZE_TOLERANCE: int := 100           // 1e-6 shares
  const MONEY_TOLERANCE: real := 1000.0      // 1e-9 dollars

  function Notional(price: int, size: int): real {
    (price * size) as real
  }

  lemma NotionalAdds(price: int, a: int, b: int)
    ensures Notional(price, a + b) == Notional(price, a) + Notional(price, b)
  {
    assert price * (a + b) == price * a + price * b;
  }

  lemma NotionalMonotone(p: int, q: int, a: int, b: int)
    requires 0 <= p <= q && 0 <= a <= b
    ensures 0.0 <= Notional(p, a) <= Notional(q, b)
  {
    assert 0 <= p * a <= q * a <= q * b;
  }

  function MinReal(a: real, b: real): real { if a <= b then a else b }

  function MaxReal(a: real, b: real): real { if a >= b then a else b }

  function MaxInt(a: int, b: int): int { if a >= b then a else b }

  /** A product that proofs can keep closed. */
  function Times(x: real, y: real): real { x * y }

  lemma TimesAdds(x: real, y: real, z: real)
    ensures Times(x, y + z) == Times(x, y) + Times(x, z)
  {
  }

  lemma TimesRises(x: real, y: real, z: real)
    ensures x <= y && z >= 0.0 ==> Times(x, z) <= Times(y, z)
    ensures x < y && z > 0.0 ==> Times(x, z) < Times(y, z)
  {
    if x < y && z > 0.0 {
      var d := y - x;
      assert d * z > 0.0;
      assert d * z == y * z - x * z;
    } else if z == 0.0 {
      assert Times(x, z) == 0.0 == Times(y, z);
    }
  }

  function AbsReal(a: real): real { if a >= 0.0 then a else -a }

  /** The total of a finite table of amounts. */
  ghost function Sum(m: map<nat, real>): real
    decreases |m|
  {
    if m == map[] then 0.0
    else
      var k :| k in m;
      assert (m - {k}).Keys == m.Keys - {k};
      m[k] + Sum(m - {k})
  }

  lemma {:induction false} SumWithout(m: map<nat, real>, k: nat)
    requires k in m
    ensures Sum(m) == m[k] + Sum(m - {k})
    decreases |m|
  {
    var j :| j in m && Sum(m) == m[j] + Sum(m - {j});
    if j != k {
      var rest := m - {j};
      assert rest.Keys == m.Keys - {j};
      SumWithout(rest, k);
      var other := m - {k};
      assert other.Keys == m.Keys - {k};
      SumWithout(other, j);
      assert rest - {k} == other - {j};
    }
  }

  /** Writing one row changes the total by the difference of that row. */
  lemma SumWrite(m: map<nat, real>, k: nat, v: real)
    ensures Sum(m[k := v]) == Sum(m) - (if k in m then m[k] else 0.0) + v
  {
    SumWithout(m[k := v], k);
    if k in m {
      SumWithout(m, k);
      assert m[k := v] - {k} == m - {k};
    } else {
      assert m[k := v] - {k} == m;
    }
  }

  /** A table that is row by row no larger has no larger total. */
  lemma {:induction false} SumMonotone(a: map<nat, real>, b: map<nat, real>)
    requires a.Keys == b.Keys
    requires forall k :: k in a ==> a[k] <= b[k]
    ensures Sum(a) <= Sum(b)
    decreases |a|
  {
    if a == map[] {
      assert b == map[];
    } else {
      var k :| k in a;
      SumWithout(a, k);
      SumWithout(b, k);
      assert (a - {k}).Keys == a.Keys - {k};
      SumMonotone(a - {k}, b - {k});
    }
  }

  lemma {:induction false} SumNonNegative(m: map<nat, real>)
    requires forall k :: k in m ==> m[k] >= 0.0
    ensures Sum(m) >= 0.0
  {
    var zero := map k | k in m :: 0.0;
    SumOfZeros(zero);
    SumMonotone(zero, m);
  }

  lemma {:induction false} SumOfZeros(m: map<nat, real>)
    requires forall k :: k in m ==> m[k] == 0.0
    ensures Sum(m) == 0.0
    decreases |m|
  {
    if m != map[] {
      var k :| k in m;
      SumWithout(m, k);
      assert (m - {k}).Keys == m.Keys - {k};
      SumOfZeros(m - {k});
    }
  }

  /** One row of a table of non-negative amounts is at most the total. */
  lemma RowAtMostSum(m: map<nat, real>, k: nat)
    requires k in m && forall j :: j in m ==> m[j] >= 0.0
    ensures m[k] <= Sum(m)
  {
    SumWithout(m, k);
    SumNonNegative(m - {k});
  }

  /** Totals of two tables over the same keys add up row by row. */
  lemma {:induction false} SumAdds(a: map<nat, real>, b: map<nat, real>, c: map<nat, real>)
    requires a.Keys == b.Keys == c.Keys
    requires forall k :: k in a ==> c[k] == a[k] + b[k]
    ensures Sum(c) == Sum(a) + Sum(b)
    decreases |a|
  {
    if a == map[] {
      assert b == map[] && c == map[];
    } else {
      var k :| k in a;
      SumWithout(a, k);
      SumWithout(b, k);
      SumWithout(c, k);
      assert (a - {k}).Keys == a.Keys - {k};
      SumAdds(a - {k}, b - {k}, c - {k});
    }
  }
}
