/**
 Tick counts wrap at an arbitrary modulus `m` (2^64 in this configuration).  These lemmas relate
 the wrapped value of an instant to the instant itself, given the start of its epoch: the last
 multiple of `m` that is not after it.
 */
module ModularTime {

  /** The wrapped tick of an instant, by taking off whole cycles. */
  function Tick(m: nat, x: nat): (r: nat)
    requires 0 < m
    ensures r < m
    decreases x
  {
    if x < m then x else Tick(m, x - m)
  }

  lemma {:induction false} TickIsMod(m: nat, x: nat)
    requires 0 < m
    ensures Tick(m, x) == x % m
  {
    if x < m {
      ModUnique(m, x, 0, x);
    } else {
      TickIsMod(m, x - m);
      ModUnique(m, x, (x - m) / m + 1, (x - m) % m);
    }
  }

  ghost predicate IsEpoch(m: nat, e: nat) {
    0 < m && Tick(m, e) == 0
  }

  lemma ModUnique(m: nat, x: int, q: int, r: int)
    requires 0 <= r < m && x == m * q + r
    ensures x % m == r
  {
    var q', r' := x / m, x % m;
    assert m * (q' - q) == r - r';
    assert q' - q >= 1 ==> m * (q' - q) >= m;
    assert q' - q <= -1 ==> m * (q' - q) + m <= 0;
  }

  /** Within an epoch the wrapped value is the distance from the start of the epoch. */
  lemma TickInEpoch(m: nat, e: nat, x: nat)
    requires IsEpoch(m, e) && e <= x < e + m
    ensures Tick(m, x) == x - e
  {
    TickIsMod(m, e);
    TickIsMod(m, x);
    ModUnique(m, x, e / m, x - e);
  }

  lemma NextEpoch(m: nat, e: nat)
    requires IsEpoch(m, e)
    ensures IsEpoch(m, e + m)
    ensures m <= e ==> IsEpoch(m, e - m)
    ensures e != 0 ==> m <= e
  {
  }

  /** Wrapped addition of a tick is the tick of the sum. */
  lemma WrappedSum(m: nat, x: nat, p: nat)
    requires 0 < m
    ensures (Tick(m, x) + p) % m == Tick(m, x + p)
  {
    hide Tick;
    TickIsMod(m, x);
    TickIsMod(m, x + p);
    var s := x % m + p;
    ModUnique(m, x + p, x / m + s / m, s % m);
  }

  /** Adding up to one cycle takes at most one reduction. */
  lemma TickAhead(m: nat, x: nat, d: nat)
    requires 0 < m && d <= m
    ensures Tick(m, x + d) == Tick(m, x) + if Tick(m, x) + d < m then d else d - m
  {
    var s := Tick(m, x) + d;
    WrappedSum(m, x, d);
    ModUnique(m, s, if s < m then 0 else 1, if s < m then s else s - m);
  }

  /** Instants less than a cycle apart have different ticks. */
  lemma TicksDiffer(m: nat, x: nat, y: nat)
    requires x < y < x + m
    ensures Tick(m, x) != Tick(m, y)
  {
    TickAhead(m, x, y - x);
  }

  lemma ModDifference(m: nat, x: nat, y: nat)
    requires 0 < m && y <= x < y + m
    ensures (x % m - y % m) % m == x - y
  {
    ModUnique(m, x % m - y % m, y / m - x / m, x - y);
  }

  /** Wrapped subtraction of the ticks of instants less than a cycle apart is their distance. */
  lemma WrappedDifference(m: nat, x: nat, y: nat)
    requires 0 < m && y <= x < y + m
    ensures (Tick(m, x) - Tick(m, y)) % m == x - y
  {
    TickIsMod(m, x);
    TickIsMod(m, y);
    ModDifference(m, x, y);
  }

  /** The instant at which epoch number `k` begins. */
  function Cycles(m: nat, k: nat): nat {
    if k == 0 then 0 else Cycles(m, k - 1) + m
  }

  lemma {:induction false} CyclesIsProduct(m: nat, k: nat)
    ensures Cycles(m, k) == k * m
  {
    if k != 0 {
      CyclesIsProduct(m, k - 1);
      MulStep(k - 1, m);
    }
  }

  lemma MulStep(k: nat, p: nat)
    ensures (k + 1) * p == k * p + p
  {
  }

  /** The k-th instant of a fixed rate that begins at `start`. */
  ghost function Expiry(start: nat, period: nat, k: nat): nat {
    if k == 0 then start else Expiry(start, period, k - 1) + period
  }

  lemma {:induction false} ExpiryIsMultiple(start: nat, period: nat, k: nat)
    ensures Expiry(start, period, k) == start + k * period
  {
    if k != 0 {
      ExpiryIsMultiple(start, period, k - 1);
      MulStep(k - 1, period);
    }
  }

  lemma QuotientUnique(x: nat, p: nat, k: nat)
    requires 0 < p && k * p <= x < (k + 1) * p
    ensures x / p == k
  {
    var q, r := x / p, x % p;
    assert x == p * q + r;
    assert q < k ==> p * (q + 1) <= p * k;
    assert k < q ==> p * (k + 1) <= p * q;
  }
}
