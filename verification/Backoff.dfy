/** The delay between attempts of a retried job (internal/workqueue/workqueue.go). */
module Backoff {

  const SECOND: int := 1_000_000_000

  /** maxBackoff, in nanoseconds. */
  const MAX_BACKOFF: int := 300 * SECOND

  /** The initial delay of a queue made without options. */
  const DEFAULT_INITIAL_DELAY: int := 1 * SECOND

  const TWO_63: int := 0x8000_0000_0000_0000

  /** int64 arithmetic. */
  function Wrap64(x: int): (r: int)
    ensures -TWO_63 <= r < TWO_63
    ensures -TWO_63 <= x < TWO_63 ==> r == x
  {
    (x + TWO_63) % (2 * TWO_63) - TWO_63
  }

  /** The update after a failed attempt. */
  function Raise(initial: int, backoff: int): int {
    if backoff == 0 then initial
    else if backoff < MAX_BACKOFF then Wrap64(backoff * 2)
    else backoff
  }

  /** The delay before the next attempt once k attempts have failed. */
  function DelayAfter(initial: int, k: nat): int {
    if k == 0 then 0 else Raise(initial, DelayAfter(initial, k - 1))
  }

  lemma DelayStart(initial: int)
    ensures DelayAfter(initial, 0) == 0
  {
  }

  lemma DelayStep(initial: int, k: nat)
    ensures DelayAfter(initial, k + 1) == Raise(initial, DelayAfter(initial, k))
  {
  }

  function Pow2(n: nat): (r: int)
    ensures r >= 1
  {
    if n == 0 then 1 else 2 * Pow2(n - 1)
  }

  /** d * 2^n without multiplication. */
  function Scaled(d: int, n: nat): int {
    if n == 0 then d else 2 * Scaled(d, n - 1)
  }

  lemma {:induction false} ScaledIsPower(d: int, n: nat)
    ensures Scaled(d, n) == d * Pow2(n)
  {
    if n > 0 {
      ScaledIsPower(d, n - 1);
      assert d * (2 * Pow2(n - 1)) == 2 * (d * Pow2(n - 1));
    }
  }

  lemma {:induction false} ScaledShift(d: int, n: nat)
    ensures Scaled(d, n + 1) == Scaled(2 * d, n)
  {
    if n > 0 {
      ScaledShift(d, n - 1);
    }
  }

  lemma {:induction false} ScaledGrows(d: int, i: nat, j: nat)
    requires d > 0 && i <= j
    ensures 0 < Scaled(d, i) <= Scaled(d, j)
    decreases j
  {
    if i < j {
      ScaledGrows(d, i, j - 1);
    } else if i > 0 {
      ScaledGrows(d, i - 1, i - 1);
    }
  }

  /** The number of doublings that take a delay to the maximum. */
  function Doublings(d: int): nat
    requires d > 0
    decreases MAX_BACKOFF - d
  {
    if d >= MAX_BACKOFF then 0 else 1 + Doublings(2 * d)
  }

  /** Doublings(d) is the least m with d * 2^m >= MAX_BACKOFF. */
  lemma {:induction false} DoublingsIsLeast(d: int)
    requires d > 0
    ensures Scaled(d, Doublings(d)) >= MAX_BACKOFF
    ensures forall j: nat :: j < Doublings(d) ==> Scaled(d, j) < MAX_BACKOFF
    decreases MAX_BACKOFF - d
  {
    if d < MAX_BACKOFF {
      DoublingsIsLeast(2 * d);
      ScaledShift(d, Doublings(2 * d));
      forall j: nat | j < Doublings(d) ensures Scaled(d, j) < MAX_BACKOFF {
        if j > 0 {
          ScaledShift(d, j - 1);
        }
      }
    }
  }

  function Min(a: nat, b: nat): nat {
    if a < b then a else b
  }

  lemma {:induction false} DelayIsScaled(d: int, k: nat)
    requires 0 < d < TWO_63 && k >= 1
    ensures DelayAfter(d, k) == Scaled(d, Min(k - 1, Doublings(d))) > 0
    decreases k
  {
    if k == 1 {
      assert DelayAfter(d, 0) == 0;
    } else {
      DelayIsScaled(d, k - 1);
      DoublingsIsLeast(d);
    }
  }

  /** After k >= 1 failures the delay is d * 2^min(k - 1, m), with m the least number of doublings to the maximum. */
  lemma DelayIsDoubledUpToMaximum(d: int, k: nat)
    requires 0 < d < TWO_63 && k >= 1
    ensures DelayAfter(d, k) == d * Pow2(Min(k - 1, Doublings(d)))
    ensures d * Pow2(Doublings(d)) >= MAX_BACKOFF
    ensures forall j: nat :: j < Doublings(d) ==> d * Pow2(j) < MAX_BACKOFF
  {
    DelayIsScaled(d, k);
    DoublingsIsLeast(d);
    ScaledIsPower(d, Min(k - 1, Doublings(d)));
    ScaledIsPower(d, Doublings(d));
    forall j: nat | j < Doublings(d) ensures d * Pow2(j) < MAX_BACKOFF {
      ScaledIsPower(d, j);
    }
  }

  /** The delay never decreases, never passes max(d, 2 * maxBackoff - 1), and the doubling never overflows. */
  lemma DelayBounds(d: int, k: nat)
    requires 0 < d < TWO_63 && k >= 1
    ensures 0 < DelayAfter(d, k) <= DelayAfter(d, k + 1)
    ensures DelayAfter(d, k) <= d || DelayAfter(d, k) <= 2 * MAX_BACKOFF - 1
    ensures DelayAfter(d, k) < MAX_BACKOFF ==> DelayAfter(d, k) * 2 < TWO_63
  {
    hide DelayAfter;
    DelayIsScaled(d, k);
    DelayIsScaled(d, k + 1);
    DoublingsIsLeast(d);
    ScaledGrows(d, Min(k - 1, Doublings(d)), Min(k, Doublings(d)));
  }

  /**
   The delay stays within maxBackoff exactly when maxBackoff is the initial delay times a power of two.
   */
  lemma MaximumHoldsExactly(d: int)
    requires 0 < d < TWO_63
    ensures (forall k: nat :: DelayAfter(d, k) <= MAX_BACKOFF) <==> (exists j: nat :: d * Pow2(j) == MAX_BACKOFF)
  {
    hide DelayAfter;
    var m := Doublings(d);
    DelayIsDoubledUpToMaximum(d, m + 1);
    if d * Pow2(m) == MAX_BACKOFF {
      forall k: nat ensures DelayAfter(d, k) <= MAX_BACKOFF {
        DelayWithin(d, k);
      }
    } else {
      assert DelayAfter(d, m + 1) > MAX_BACKOFF;
      forall j: nat ensures d * Pow2(j) != MAX_BACKOFF {
        ScaledIsPower(d, j);
        ScaledIsPower(d, m);
        if j >= m {
          ScaledGrows(d, m, j);
        }
      }
    }
  }

  /** No delay passes the one after the last doubling. */
  lemma DelayWithin(d: int, k: nat)
    requires 0 < d < TWO_63
    ensures DelayAfter(d, k) <= d * Pow2(Doublings(d))
  {
    var m := Doublings(d);
    ScaledIsPower(d, m);
    if k == 0 {
      DelayStart(d);
    } else {
      DelayIsScaled(d, k);
      ScaledGrows(d, Min(k - 1, m), m);
    }
  }

  /** The default initial delay of one second passes the maximum of 300 seconds: its tenth delay is 512 seconds. */
  lemma DefaultDelayPassesMaximum()
    ensures DelayAfter(DEFAULT_INITIAL_DELAY, 10) == 512 * SECOND > MAX_BACKOFF
  {
    var d := DEFAULT_INITIAL_DELAY;
    DelayStart(d);
    DelayStep(d, 0);
    DelayStep(d, 1);
    DelayStep(d, 2);
    DelayStep(d, 3);
    DelayStep(d, 4);
    DelayStep(d, 5);
    DelayStep(d, 6);
    DelayStep(d, 7);
    DelayStep(d, 8);
    DelayStep(d, 9);
  }
}
