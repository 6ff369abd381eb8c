/** Retry policies and the arithmetic of their delays. */
module Retry {

  /** `Custom` stands for a policy written by the caller: its delays are the environment's. */
  datatype Policy =
    | NoRetryPolicy
    | FixedDelayPolicy(delay: int, maxAttempts: int)
    | ExponentialBackoffPolicy(base: int, maxDelay: int, maxAttempts: int)
    | JitterPolicy(policy: Policy, fraction: real)
    | Custom(maxAttempts: int)

  function NoRetry(): (p: Policy)
    ensures MaxAttempts(p) == 1
    ensures forall n: nat, level: nat, draws: nat -> real, chosen: nat -> int :: Delay(p, n, level, draws, chosen) == 0
  {
    NoRetryPolicy
  }

  function FixedDelay(delay: int, maxAttempts: int): (p: Policy)
    ensures MaxAttempts(p) >= 1 && (maxAttempts >= 1 ==> MaxAttempts(p) == maxAttempts)
    ensures forall n: nat, level: nat, draws: nat -> real, chosen: nat -> int :: Delay(p, n, level, draws, chosen) == delay
  {
    FixedDelayPolicy(delay, if maxAttempts < 1 then 1 else maxAttempts)
  }

  function ExponentialBackoff(base: int, maxDelay: int, maxAttempts: int): (p: Policy)
    ensures MaxAttempts(p) >= 1 && (maxAttempts >= 1 ==> MaxAttempts(p) == maxAttempts)
    ensures forall n: nat, level: nat, draws: nat -> real, chosen: nat -> int ::
              Delay(p, n, level, draws, chosen) == Backoff(base, maxDelay, n)
  {
    ExponentialBackoffPolicy(base, maxDelay, if maxAttempts < 1 then 1 else maxAttempts)
  }

  function WithJitter(policy: Policy, fraction: real): (p: Policy)
    ensures Core(p) == Core(policy) && MaxAttempts(p) == MaxAttempts(policy)
    ensures Clamped(policy) ==> Clamped(p)
    ensures 0.0 <= fraction <= 1.0 ==> p == JitterPolicy(policy, fraction)
    ensures fraction < 0.0 ==> forall amount: real :: Stretched(p, amount) == Stretched(policy, amount)
    ensures fraction > 1.0 ==> forall amount: real :: Stretched(p, amount) == Stretched(policy, amount) * 2.0
  {
    JitterPolicy(policy, if fraction < 0.0 then 0.0 else if fraction > 1.0 then 1.0 else fraction)
  }

  /** The limit on attempts: a policy by the caller is asked, and jitter does not change it. */
  function MaxAttempts(p: Policy): (m: int)
    ensures p.Custom? ==> m == p.maxAttempts
  {
    match p
    case NoRetryPolicy => 1
    case JitterPolicy(inner, _) => MaxAttempts(inner)
    case _ => p.maxAttempts
  }

  // ---------- exponential backoff in 64-bit arithmetic ----------

  const TWO_62 := 0x4000_0000_0000_0000
  const TWO_63 := 0x8000_0000_0000_0000
  const TWO_64 := 0x1_0000_0000_0000_0000

  predicate Int64(x: int) {
    -TWO_63 <= x < TWO_63
  }

  /** Two's complement wrap-around of a value at most one bit too wide. */
  function Wrap64(x: int): (w: int)
    ensures Int64(w) && (x - w) % TWO_64 == 0
  {
    var low := x % TWO_64;
    if low < TWO_63 then low else low - TWO_64
  }

  /** `base * 2^n`, without any wrap-around. */
  function Scaled(base: int, n: nat): int {
    if n == 0 then base else 2 * Scaled(base, n - 1)
  }

  function Min(a: int, b: int): int {
    if a <= b then a else b
  }

  /** What the doubling loop holds after `n` rounds if it never stops early. */
  function Doubled(base: int, n: nat): int {
    if n == 0 then base else Wrap64(Doubled(base, n - 1) * 2)
  }

  /** The delay before attempt `n + 2`: the first doubling that reaches the cap ends the loop. */
  function Backoff(base: int, maxDelay: int, n: nat): int {
    if exists k: nat :: k < n && Doubled(base, k) >= maxDelay then maxDelay
    else Min(Doubled(base, n), maxDelay)
  }

  method BackoffDelay(base: int, maxDelay: int, attempt: int) returns (delay: int)
    ensures delay == Backoff(base, maxDelay, if attempt < 2 then 0 else attempt - 2)
    ensures delay <= maxDelay
  {
    delay := base;
    var i := 2;
    while i < attempt
      invariant 2 <= i && (attempt >= 2 ==> i <= attempt)
      invariant i > 2 ==> i <= attempt
      invariant delay == Doubled(base, i - 2)
      invariant forall k: nat :: k < i - 2 ==> Doubled(base, k) < maxDelay
    {
      if delay >= maxDelay {
        return maxDelay;
      }
      delay := Wrap64(delay * 2);
      i := i + 1;
    }
    if delay > maxDelay {
      return maxDelay;
    }
  }

  /** Some doubling below the cap leaves the 64-bit range. */
  ghost predicate Overflows(base: int, maxDelay: int) {
    exists k: nat :: TWO_62 <= Scaled(base, k) < maxDelay
  }

  /** Each of the first `n` doublings is exact. */
  ghost predicate Narrow(base: int, n: nat) {
    forall k: nat :: k < n ==> Scaled(base, k) < TWO_62
  }

  lemma {:induction false} DoubledIsExact(base: int, n: nat)
    requires 0 <= base && Int64(base)
    requires Narrow(base, n)
    ensures Doubled(base, n) == Scaled(base, n) >= 0
    ensures n > 0 ==> Scaled(base, n) < TWO_63
  {
    if n > 0 {
      DoubledIsExact(base, n - 1);
    }
  }

  lemma {:induction false} ScaledIsMonotone(base: int, m: nat, n: nat)
    requires 0 <= base && m <= n
    ensures 0 <= Scaled(base, m) <= Scaled(base, n)
    decreases n
  {
    if n == 0 {
    } else if m < n {
      ScaledIsMonotone(base, m, n - 1);
    } else {
      ScaledIsMonotone(base, m - 1, n - 1);
    }
  }

  ghost function FirstWide(base: int, n: nat): (m: nat)
    requires !Narrow(base, n)
    ensures m < n && Scaled(base, m) >= TWO_62 && Narrow(base, m)
  {
    if Narrow(base, n - 1) then n - 1 else FirstWide(base, n - 1)
  }

  /** Without overflow every delay is the doubled base, capped. */
  lemma BackoffWithoutOverflow(base: int, maxDelay: int, n: nat)
    requires 0 <= base && Int64(base) && Int64(maxDelay)
    requires !Overflows(base, maxDelay)
    ensures Backoff(base, maxDelay, n) == Min(Scaled(base, n), maxDelay)
  {
    if Narrow(base, n) {
      DoubledIsExact(base, n);
      if k: nat :| k < n && Doubled(base, k) >= maxDelay {
        DoubledIsExact(base, k);
        ScaledIsMonotone(base, k, n);
      }
    } else {
      var m := FirstWide(base, n);
      DoubledIsExact(base, m);
      ScaledIsMonotone(base, m, n);
    }
  }

  lemma OverflowGoesNegative(base: int, maxDelay: int) returns (n: nat)
    requires 0 <= base && Int64(base) && Int64(maxDelay)
    requires Overflows(base, maxDelay)
    ensures Backoff(base, maxDelay, n) < 0 < Min(Scaled(base, n), maxDelay)
  {
    var k: nat :| TWO_62 <= Scaled(base, k) < maxDelay;
    var m := FirstWide(base, k + 1);
    DoubledIsExact(base, m);
    ScaledIsMonotone(base, m, k);
    n := m + 1;
    assert Doubled(base, n) == Wrap64(Scaled(base, m) * 2) < 0;
    forall j: nat | j < n
      ensures Doubled(base, j) < maxDelay
    {
      DoubledIsExact(base, j);
      ScaledIsMonotone(base, j, m);
    }
  }

  /**
   * The delays are min(base * 2^(attempt-2), maxDelay) for every attempt exactly when no
   * doubling below the cap starts at 2^62 or more; otherwise some delay comes out negative.
   */
  lemma BackoffIsCappedDoublingIff(base: int, maxDelay: int)
    requires 0 <= base && Int64(base) && Int64(maxDelay)
    ensures (forall n: nat :: Backoff(base, maxDelay, n) == Min(Scaled(base, n), maxDelay))
            <==> !Overflows(base, maxDelay)
    ensures Overflows(base, maxDelay) ==> exists n: nat :: Backoff(base, maxDelay, n) < 0
  {
    if Overflows(base, maxDelay) {
      var n := OverflowGoesNegative(base, maxDelay);
    } else {
      forall n: nat
        ensures Backoff(base, maxDelay, n) == Min(Scaled(base, n), maxDelay)
      {
        BackoffWithoutOverflow(base, maxDelay, n);
      }
    }
  }

  /** A cap of at most 2^62 rules overflow out, and then delays never shrink. */
  lemma BackoffIsMonotone(base: int, maxDelay: int, m: nat, n: nat)
    requires 0 <= base && Int64(base) && -TWO_63 <= maxDelay <= TWO_62
    requires m <= n
    ensures Backoff(base, maxDelay, m) <= Backoff(base, maxDelay, n) <= maxDelay
  {
    BackoffWithoutOverflow(base, maxDelay, m);
    BackoffWithoutOverflow(base, maxDelay, n);
    ScaledIsMonotone(base, m, n);
  }

  // ---------- jitter over ideal reals ----------

  /** One jitter layer: the delay below it spread by a draw from [0, 1) and truncated. */
  function Jittered(below: int, fraction: real, draw: real): int {
    if below <= 0 then below
    else
      var spread := below as real * fraction;
      Truncated(below as real + (draw * 2.0 - 1.0) * spread)
  }

  function Truncated(x: real): (t: int)
    ensures 0 <= t && (x >= 0.0 ==> t as real <= x < t as real + 1.0)
  {
    if x < 0.0 then 0 else x.Floor
  }

  /**
   * The delay before attempt `n + 2`. The jitter layer at nesting level `l` uses `draws(l)`;
   * a custom policy reads its delay from `chosen`.
   */
  function Delay(p: Policy, n: nat, level: nat, draws: nat -> real, chosen: nat -> int): (delay: int)
    ensures p.Custom? ==> delay == chosen(n)
  {
    match p
    case NoRetryPolicy => 0
    case FixedDelayPolicy(fixed, _) => fixed
    case ExponentialBackoffPolicy(base, maxDelay, _) => Backoff(base, maxDelay, n)
    case Custom(_) => chosen(n)
    case JitterPolicy(inner, fraction) =>
      Jittered(Delay(inner, n, level + 1, draws, chosen), fraction, draws(level))
  }

  /** A policy's answer for one attempt; only the second and later ones are preceded by a wait. */
  method DelayBefore(p: Policy, attempt: nat, level: nat, draws: nat -> real, chosen: nat -> int) returns (delay: int)
    ensures delay == Delay(p, if attempt < 2 then 0 else attempt - 2, level, draws, chosen)
    decreases p
  {
    match p {
      case NoRetryPolicy =>
        delay := 0;
      case FixedDelayPolicy(d, _) =>
        delay := d;
      case ExponentialBackoffPolicy(base, maxDelay, _) =>
        delay := BackoffDelay(base, maxDelay, attempt);
      case Custom(_) =>
        delay := chosen(if attempt < 2 then 0 else attempt - 2);
      case JitterPolicy(inner, fraction) =>
        delay := DelayBefore(inner, attempt, level + 1, draws, chosen);
        delay := Jittered(delay, fraction, draws(level));
    }
  }

  /** The policy under all jitter layers. */
  function Core(p: Policy): Policy {
    if p.JitterPolicy? then Core(p.policy) else p
  }

  /** `amount` times (1 + fraction) for every jitter layer. */
  function Stretched(p: Policy, amount: real): real {
    if p.JitterPolicy? then Stretched(p.policy, amount) * (1.0 + p.fraction) else amount
  }

  predicate Clamped(p: Policy) {
    p.JitterPolicy? ==> 0.0 <= p.fraction <= 1.0 && Clamped(p.policy)
  }

  ghost predicate FairDraws(draws: nat -> real) {
    forall k: nat :: 0.0 <= draws(k) < 1.0
  }

  lemma Product(a: real, b: real, c: real)
    requires 0.0 <= a <= b && 0.0 <= c
    ensures 0.0 <= a * c <= b * c
  {
  }

  lemma SpreadBound(b: real, fraction: real, offset: real, bound: real)
    requires 0.0 <= b <= bound && 0.0 <= fraction && offset <= 1.0
    ensures b + offset * (b * fraction) <= bound * (1.0 + fraction)
  {
    var spread := b * fraction;
    assert spread >= 0.0;
    assert offset * spread <= spread;
    Product(b, bound, 1.0 + fraction);
    assert b * (1.0 + fraction) == b + spread;
  }

  lemma LayerBound(below: int, fraction: real, draw: real, bound: real)
    requires 0 < below && below as real <= bound
    requires 0.0 <= fraction && 0.0 <= draw < 1.0
    ensures 0 <= Jittered(below, fraction, draw)
    ensures Jittered(below, fraction, draw) as real <= bound * (1.0 + fraction)
  {
    SpreadBound(below as real, fraction, draw * 2.0 - 1.0, bound);
    Product(0.0, bound, 1.0 + fraction);
  }

  /** One layer moves a delay by a drawn share of it between -fraction and +fraction, and drops what is less than one. */
  lemma JitterSpreads(below: int, fraction: real, draw: real)
    requires 0 < below && 0.0 <= fraction <= 1.0 && 0.0 <= draw < 1.0
    ensures var share := draw * 2.0 - 1.0;
            var exact := below as real + share * (below as real * fraction);
            0.0 <= exact && Jittered(below, fraction, draw) as real <= exact < Jittered(below, fraction, draw) as real + 1.0
  {
    var b, share := below as real, draw * 2.0 - 1.0;
    var spread := b * fraction;
    Product(fraction, 1.0, b);
    assert 0.0 <= spread <= b;
    assert share * spread >= -1.0 * spread;
  }

  lemma {:induction false} StretchedIsMonotone(p: Policy, a: real, b: real)
    requires Clamped(p) && 0.0 <= a <= b
    ensures 0.0 <= Stretched(p, a) <= Stretched(p, b)
  {
    if p.JitterPolicy? {
      StretchedIsMonotone(p.policy, a, b);
      var below, above, layer := Stretched(p.policy, a), Stretched(p.policy, b), 1.0 + p.fraction;
      assert Stretched(p, a) == below * layer && Stretched(p, b) == above * layer;
      hide Stretched;
      Product(below, above, layer);
    }
  }

  lemma {:induction false} CoreIgnoresLevel(
      p: Policy, n: nat, level: nat, draws: nat -> real, chosen: nat -> int)
    ensures Delay(Core(p), n, level + 1, draws, chosen) == Delay(Core(p), n, level, draws, chosen)
  {
    if p.JitterPolicy? {
      CoreIgnoresLevel(p.policy, n, level, draws, chosen);
    }
  }

  predicate Bounded(d: int, core: int, cap: real) {
    if core <= 0 then d == core else 0 <= d && d as real <= cap
  }

  lemma LayerStep(below: int, core: int, bound: real, fraction: real, draw: real)
    requires Bounded(below, core, bound) && 0.0 <= bound
    requires 0.0 <= fraction && 0.0 <= draw < 1.0
    ensures Bounded(Jittered(below, fraction, draw), core, bound * (1.0 + fraction))
  {
    if below > 0 {
      LayerBound(below, fraction, draw, bound);
    } else {
      Product(0.0, bound, 1.0 + fraction);
    }
  }

  /** Jitter never turns a delay negative and stretches it at most by the product of its layers. */
  lemma {:induction false} JitterBound(
      p: Policy, n: nat, level: nat, draws: nat -> real, chosen: nat -> int)
    requires Clamped(p) && FairDraws(draws)
    ensures var core := Delay(Core(p), n, level, draws, chosen);
            Bounded(Delay(p, n, level, draws, chosen), core,
                    Stretched(p, if core > 0 then core as real else 0.0))
  {
    if p.JitterPolicy? {
      JitterBound(p.policy, n, level + 1, draws, chosen);
      CoreIgnoresLevel(p, n, level, draws, chosen);
      hide Bounded, Jittered, Backoff, Stretched, FairDraws;
      var core := Delay(Core(p), n, level, draws, chosen);
      JitterLayer(p, Delay(p.policy, n, level + 1, draws, chosen), core, if core > 0 then core as real else 0.0,
                  level, draws);
    }
  }

  lemma JitterLayer(p: Policy, below: int, core: int, positive: real, level: nat, draws: nat -> real)
    requires p.JitterPolicy? && Clamped(p) && FairDraws(draws) && positive >= 0.0
    requires Bounded(below, core, Stretched(p.policy, positive))
    ensures Bounded(Jittered(below, p.fraction, draws(level)), core, Stretched(p, positive))
  {
    hide Jittered;
    StretchedIsMonotone(p.policy, 0.0, positive);
    assert 0.0 <= draws(level) < 1.0;
    LayerStep(below, core, Stretched(p.policy, positive), p.fraction, draws(level));
    assert Stretched(p, positive) == Stretched(p.policy, positive) * (1.0 + p.fraction);
  }

  /** What `m` attempts wait in total; each delay has its own draws. */
  function TotalWait(p: Policy, m: nat, draws: nat -> nat -> real, chosen: nat -> int): int {
    if m <= 1 then 0
    else TotalWait(p, m - 1, draws, chosen) + Delay(p, m - 2, 0, draws(m), chosen)
  }

  lemma OneWaitBound(p: Policy, n: nat, draws: nat -> real, chosen: nat -> int)
    requires Clamped(p) && Core(p).ExponentialBackoffPolicy? && Core(p).maxDelay >= 0
    requires FairDraws(draws)
    ensures Delay(p, n, 0, draws, chosen) as real <= Stretched(p, Core(p).maxDelay as real)
  {
    JitterBound(p, n, 0, draws, chosen);
    var core := Delay(Core(p), n, 0, draws, chosen);
    if core > 0 {
      StretchedIsMonotone(p, core as real, Core(p).maxDelay as real);
    } else {
      StretchedIsMonotone(p, 0.0, Core(p).maxDelay as real);
    }
  }

  lemma {:induction false} TotalWaitBound(p: Policy, m: nat, draws: nat -> nat -> real, chosen: nat -> int)
    requires Clamped(p) && Core(p).ExponentialBackoffPolicy? && Core(p).maxDelay >= 0
    requires forall k: nat :: FairDraws(draws(k))
    ensures TotalWait(p, m, draws, chosen) as real
            <= Times(if m >= 1 then m - 1 else 0, Stretched(p, Core(p).maxDelay as real))
  {
    if m > 1 {
      TotalWaitBound(p, m - 1, draws, chosen);
      OneWaitBound(p, m - 2, draws(m), chosen);
    }
  }

  /** `n` times `amount`, by repeated addition. */
  function Times(n: nat, amount: real): real {
    if n == 0 then 0.0 else Times(n - 1, amount) + amount
  }
}
