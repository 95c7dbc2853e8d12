/** The delay before a failed job is tried again. */
module Backoff {
  function Power(n: nat): (p: nat)
    ensures p >= 1
  {
    if n == 0 then 1 else 2 * Power(n - 1)
  }

  function Min(a: nat, b: nat): nat { if a < b then a else b }

  /** The random part: a whole number from zero up to but not including `base`. */
  predicate Drawn(jitter: nat, base: nat) { if base == 0 then jitter == 0 else jitter < base }

  function Delay(attemptsMade: int, base: nat, cap: nat, jitter: nat): nat {
    Min(cap, base * Power(if attemptsMade > 1 then attemptsMade - 1 else 0) + jitter)
  }

  lemma {:induction false} PowerGrows(m: nat, n: nat)
    requires m < n
    ensures 2 * Power(m) <= Power(n)
  {
    if m + 1 < n { PowerGrows(m, n - 1); }
  }

  lemma ProductCovers(base: nat, p: nat, q: nat)
    requires p >= 1 && 2 * p <= q
    ensures base <= base * p && base * p + base <= base * q
  {
    assert base * q == base * p + base * (q - p);
    assert base * (q - p) == base + base * (q - p - 1);
    assert base * p == base + base * (p - 1);
  }

  /** Whatever is drawn, a later attempt never waits less than an earlier one. */
  lemma DelaysNeverShrink(m: nat, n: nat, base: nat, cap: nat, early: nat, late: nat)
    requires 1 <= m < n && Drawn(early, base) && Drawn(late, base)
    ensures Delay(m, base, cap, early) <= Delay(n, base, cap, late)
    ensures Min(base, cap) <= Delay(m, base, cap, early) <= cap
  {
    hide Power;
    PowerGrows(m - 1, n - 1);
    ProductCovers(base, Power(m - 1), Power(n - 1));
  }

  /** The first delay is the base and the random part, up to the cap. */
  lemma FirstDelay(attemptsMade: int, base: nat, cap: nat, jitter: nat)
    requires attemptsMade <= 1
    ensures Delay(attemptsMade, base, cap, jitter) == if base + jitter < cap then base + jitter else cap
  {
  }

  /** Each further attempt doubles the part that is not random, up to the cap. */
  lemma NextDelay(attemptsMade: int, base: nat, cap: nat, wide: nat, jitter: nat)
    requires attemptsMade >= 1 && jitter <= Delay(attemptsMade, base, wide, jitter) < wide
    ensures var next := 2 * (Delay(attemptsMade, base, wide, jitter) - jitter) + jitter;
      Delay(attemptsMade + 1, base, cap, jitter) == if next < cap then next else cap
  {
    var p := Power(attemptsMade - 1);
    assert Power(attemptsMade) == 2 * p;
    assert base * (2 * p) == 2 * (base * p);
  }
}
