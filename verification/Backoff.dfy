/** Capped exponential back-off in 64-bit nanoseconds, shared by the reconnect loop and the
    retry handler. */
module Backoff {

  const MILLISECOND: int := 1_000_000
  const SECOND: int := 1000 * MILLISECOND
  const CAP: int := 30 * SECOND
  const RECONNECT_BACKOFF: int := 500 * MILLISECOND
  const TWO_62: int := 0x4000_0000_0000_0000
  const TWO_63: int := 0x8000_0000_0000_0000
  const TWO_64: int := 0x1_0000_0000_0000_0000

  /** Two's-complement wrap-around of a time.Duration. */
  function Wrap64(n: int): int {
    var m := n % TWO_64;
    if m < TWO_63 then m else m - TWO_64
  }

  /** One round of a back-off loop: double with wrap-around, then cap at thirty seconds. */
  function NextBackoff(b: int): int {
    var doubled := Wrap64(b * 2);
    if doubled > CAP then CAP else doubled
  }

  /** The k-th wait requested by a loop whose first wait is b. */
  function WaitAt(b: int, k: nat): int {
    if k == 0 then b else NextBackoff(WaitAt(b, k - 1))
  }

  /** The first n waits together. */
  function TotalWait(b: int, n: nat): int {
    if n == 0 then 0 else TotalWait(b, n - 1) + WaitAt(b, n - 1)
  }

  /** The waits a loop has requested so far. */
  ghost predicate FollowBackoff(b: int, waits: seq<int>) {
    forall k: nat :: k < |waits| ==> waits[k] == WaitAt(b, k)
  }

  function SumOf(xs: seq<int>): int {
    if xs == [] then 0 else SumOf(xs[..|xs| - 1]) + xs[|xs| - 1]
  }

  lemma {:induction false} WaitsTotal(b: int, waits: seq<int>)
    requires FollowBackoff(b, waits)
    ensures SumOf(waits) == TotalWait(b, |waits|)
  {
    if waits != [] {
      WaitsTotal(b, waits[..|waits| - 1]);
    }
  }

  function Pow2(k: nat): (p: nat)
    ensures p >= 1
  {
    if k == 0 then 1 else 2 * Pow2(k - 1)
  }

  function Min(x: int, y: int): int { if x <= y then x else y }

  /** What every wait after the first is meant to be: doubled k times, then capped. */
  ghost predicate DoublesToCap(b: int, k: nat) {
    WaitAt(b, k) == Min(b * Pow2(k), CAP)
  }

  lemma {:induction false} ClosedForm(b: int, k: nat)
    requires 0 < b < TWO_62 && k >= 1
    ensures DoublesToCap(b, k)
  {
    var p := Pow2(k - 1);
    assert b * (2 * p) == (b * p) * 2;
    if k == 1 {
      assert WaitAt(b, 0) == b;
      OneDoubling(b);
    } else {
      ClosedForm(b, k - 1);
      Positive(b, p);
      OneDoubling(Min(b * p, CAP));
    }
  }

  lemma OneDoubling(w: int)
    requires 0 < w < TWO_62
    ensures NextBackoff(w) == Min(w * 2, CAP)
  {
  }

  lemma Positive(b: int, p: nat)
    requires b > 0 && p >= 1
    ensures b * p >= b
  {
  }

  /** The closed form holds for every wait after the first exactly when the first is below 2^62. */
  lemma ClosedFormExactly(b: int)
    requires 0 < b < TWO_63
    ensures (forall k: nat :: k >= 1 ==> DoublesToCap(b, k)) <==> b < TWO_62
  {
    if b < TWO_62 {
      forall k: nat | k >= 1 ensures DoublesToCap(b, k) { ClosedForm(b, k); }
    } else {
      assert Pow2(1) == 2 * Pow2(0) == 2;
      assert WaitAt(b, 1) == NextBackoff(WaitAt(b, 0)) == b * 2 - TWO_64 < 0;
      assert !DoublesToCap(b, 1);
    }
  }

  /** No doubling step overflows, however often the loop goes round. */
  lemma NoOverflow(b: int, k: nat)
    requires 0 < b < TWO_62
    ensures 0 < WaitAt(b, k) && WaitAt(b, k) * 2 < TWO_63
    ensures Wrap64(WaitAt(b, k) * 2) == WaitAt(b, k) * 2
    ensures k >= 1 ==> WaitAt(b, k) <= CAP
  {
    if k >= 1 {
      ClosedForm(b, k);
      Positive(b, Pow2(k));
    }
  }

  /** No loop waits longer than its first wait plus the cap for each later one, whatever that first
      wait is and however the doubling wraps. */
  lemma {:induction false} TotalBound(b: int, n: nat)
    requires n >= 1
    ensures TotalWait(b, n) <= b + CAP * (n - 1)
  {
    if n == 1 {
      assert TotalWait(b, 1) == TotalWait(b, 0) + WaitAt(b, 0);
    } else {
      TotalBound(b, n - 1);
      assert WaitAt(b, n - 1) == NextBackoff(WaitAt(b, n - 2)) <= CAP;
    }
  }

  /** The reconnect waits: 0.5s, 1s, 2s, 4s, 8s, 16s, 30s, 30s, ... */
  lemma ReconnectWait(k: nat)
    ensures WaitAt(RECONNECT_BACKOFF, k) == Min(RECONNECT_BACKOFF * Pow2(k), CAP)
  {
    if k >= 1 {
      ClosedForm(RECONNECT_BACKOFF, k);
    }
  }

  /** The same in nanoseconds. */
  lemma ReconnectTable(k: nat)
    ensures WaitAt(RECONNECT_BACKOFF, k) ==
      if k >= 6 then 30_000_000_000
      else [500_000_000, 1_000_000_000, 2_000_000_000, 4_000_000_000, 8_000_000_000, 16_000_000_000][k]
  {
    ReconnectWait(k);
    SmallPowers();
    if k >= 6 {
      Grows(6, k);
    }
  }

  /** Total waiting time after n failed reconnects. */
  lemma {:induction false} ReconnectTotal(n: nat)
    ensures n <= 6 ==> TotalWait(RECONNECT_BACKOFF, n) == RECONNECT_BACKOFF * (Pow2(n) - 1)
    ensures n >= 6 ==> TotalWait(RECONNECT_BACKOFF, n) == 31_500 * MILLISECOND + CAP * (n - 6)
  {
    if n >= 1 {
      ReconnectTotal(n - 1);
      ReconnectWait(n - 1);
      SmallPowers();
      if n <= 6 {
        Grows(n - 1, 5);
        assert RECONNECT_BACKOFF * Pow2(n - 1) <= 16 * SECOND;
        AddOnePower(Pow2(n - 1));
      } else {
        Grows(6, n - 1);
        assert RECONNECT_BACKOFF * Pow2(n - 1) >= 32 * SECOND;
      }
    }
  }

  lemma AddOnePower(p: int)
    ensures RECONNECT_BACKOFF * (p - 1) + RECONNECT_BACKOFF * p == RECONNECT_BACKOFF * (2 * p - 1)
  {
  }

  lemma SmallPowers()
    ensures Pow2(0) == 1 && Pow2(1) == 2 && Pow2(2) == 4 && Pow2(3) == 8
    ensures Pow2(4) == 16 && Pow2(5) == 32 && Pow2(6) == 64
  {
    assert Pow2(3) == 8;
    assert Pow2(5) == 32;
  }

  lemma {:induction false} Grows(j: nat, k: nat)
    requires j <= k
    ensures Pow2(j) <= Pow2(k)
    decreases k - j
  {
    if j < k {
      Grows(j, k - 1);
    }
  }
}
