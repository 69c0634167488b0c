/** The arithmetic of one Swift adjustment. The source computes with doubles in seconds; here the same
    quotients are exact rationals over nanoseconds, and a cast to an unsigned integer is a floor. */
module SwiftMath {
  import opened TcpTypes
  import opened Arithmetic

  const DEFAULT_TARGET: nat := 20 * MICROSECOND
  const HOP_ALLOWANCE: nat := 5 * MICROSECOND

  /** Hops estimated from the received time-to-live, with the source's two fallbacks. */
  function EstimatedHops(ttl: nat): nat {
    var hops := 64 - (if ttl == 0 then 64 else ttl);
    if hops < 1 || hops > 64 then 1 else hops
  }

  function TargetDelay(base: Time, ttl: nat): (target: nat)
    ensures 0 < target
  {
    if base >= SECOND || base <= 0 then DEFAULT_TARGET else base + EstimatedHops(ttl) * HOP_ALLOWANCE
  }

  /** Segments added when the delay is under the target: alpha scaled by delay over base, the scale capped at 5. */
  function IncreaseSegments(alpha: nat, delay: Time, base: Time): nat {
    var delayUs, baseUs := delay / MICROSECOND, Max(1, base / MICROSECOND);
    var scaled := if delayUs >= 5 * baseUs then 5 * alpha else alpha * delayUs / baseUs;
    Max(1, scaled)
  }

  /** Ten times the delay times the source's reduction factor max(0.1, 1 - beta/10 * (delay - target)/delay). */
  function ReductionNumerator(delay: int, target: int, beta: nat): int {
    Max(delay, 10 * delay - beta * (delay - target))
  }

  function DecreasedWindow(cWnd: nat, delay: nat, target: nat, beta: nat): nat
    requires 0 < target <= delay
  {
    ProductNonNegative(cWnd, ReductionNumerator(delay, target, beta));
    Max(1, cWnd * ReductionNumerator(delay, target, beta) / (10 * delay))
  }

  // Multiplicative decrease

  /** The factor lies between one tenth and one, and is at least 1 - beta/10. */
  lemma NumeratorBounds(delay: int, target: int, beta: nat)
    requires 0 < target <= delay
    ensures delay <= ReductionNumerator(delay, target, beta) <= 10 * delay
    ensures (10 - beta) * delay <= ReductionNumerator(delay, target, beta)
  {
    ProductNonNegative(beta, delay - target);
    assert beta * (delay - target) == beta * delay - beta * target;
    ProductNonNegative(beta, target);
    assert (10 - beta) * delay == 10 * delay - beta * delay;
  }

  /** The decrease loses at most the fraction beta/10 (never more than nine tenths), rounds down once, never
      reaches zero, never grows the window, and leaves it alone when the delay sits on the target. */
  lemma DecreaseBounds(cWnd: nat, delay: nat, target: nat, beta: nat)
    requires 0 < target <= delay
    requires 1 <= cWnd
    ensures 1 <= DecreasedWindow(cWnd, delay, target, beta) <= cWnd
    ensures cWnd * Max(1, 10 - beta) / 10 <= DecreasedWindow(cWnd, delay, target, beta)
    ensures delay == target ==> DecreasedWindow(cWnd, delay, target, beta) == cWnd
  {
    var n := ReductionNumerator(delay, target, beta);
    NumeratorBounds(delay, target, beta);
    FloorOfProductAtMost(cWnd, n, 10 * delay);
    FloorOfFraction(cWnd, n, delay, Max(1, 10 - beta));
    if delay == target {
      FloorIff(cWnd, cWnd * n, 10 * delay);
    }
  }

  lemma FloorOfFraction(c: nat, n: int, delay: int, f: int)
    requires 0 < delay && f * delay <= n
    ensures c * f / 10 <= c * n / (10 * delay)
  {
    assert f * (10 * delay) <= n * 10;
    FloorOfProductMonotone(c, n, 10 * delay, f, 10);
  }

  /** A longer delay never leaves a larger window: the factor falls as the delay grows. */
  lemma DecreaseAntitone(cWnd: nat, shorter: nat, longer: nat, target: nat, beta: nat)
    requires 0 < target <= shorter <= longer
    ensures DecreasedWindow(cWnd, longer, target, beta) <= DecreasedWindow(cWnd, shorter, target, beta)
  {
    hide ReductionNumerator;
    var n1, n2 := ReductionNumerator(shorter, target, beta), ReductionNumerator(longer, target, beta);
    FactorAntitone(shorter, longer, target, beta);
    TenfoldFactors(n2, shorter, n1, longer);
    FloorOfProductMonotone(cWnd, n1, 10 * shorter, n2, 10 * longer);
  }

  lemma TenfoldFactors(a: int, b: int, c: int, d: int)
    requires a * b <= c * d
    ensures a * (10 * b) <= c * (10 * d)
  {
  }

  /** n2/longer <= n1/shorter, multiplied out. */
  lemma FactorAntitone(shorter: nat, longer: nat, target: nat, beta: nat)
    requires 0 < target <= shorter <= longer
    ensures ReductionNumerator(longer, target, beta) * shorter <= ReductionNumerator(shorter, target, beta) * longer
  {
    var a1, a2 := 10 * shorter - beta * (shorter - target), 10 * longer - beta * (longer - target);
    assert a2 * shorter <= a1 * longer by {
      assert a2 * shorter == 10 * longer * shorter - beta * longer * shorter + beta * target * shorter;
      assert a1 * longer == 10 * shorter * longer - beta * shorter * longer + beta * target * longer;
      assert longer * shorter == shorter * longer;
      assert beta * longer * shorter == beta * shorter * longer;
      ProductNonNegative(beta, target);
      ProductMonotone(shorter, longer, beta * target);
    }
    if ReductionNumerator(longer, target, beta) == a2 {
      ProductMonotone(a1, ReductionNumerator(shorter, target, beta), longer);
    } else {
      ProductMonotone(shorter, ReductionNumerator(shorter, target, beta), longer);
    }
  }

  /** Every decrease the controller can make on a window of at least two segments leaves a whole segment: the delay has
      reached the target of some base RTT and some received time-to-live. */
  ghost predicate DecreaseKeepsSegment(segment: nat, beta: nat) {
    forall cWnd: nat, base: Time, ttl: nat, delay: Time ::
      2 * segment <= cWnd && base <= delay && TargetDelay(base, ttl) <= delay ==>
        segment <= DecreasedWindow(cWnd, delay, TargetDelay(base, ttl), beta)
  }

  /** That holds exactly when beta is at most 5 (or segments are single bytes, which the floor of one protects). */
  lemma DecreaseKeepsSegmentIff(segment: nat, beta: nat)
    requires 1 <= segment
    ensures DecreaseKeepsSegment(segment, beta) <==> beta <= 5 || segment == 1
  {
    if beta <= 5 || segment == 1 {
      forall cWnd: nat, base: Time, ttl: nat, delay: Time
        | 2 * segment <= cWnd && base <= delay && TargetDelay(base, ttl) <= delay
        ensures segment <= DecreasedWindow(cWnd, delay, TargetDelay(base, ttl), beta)
      {
        DecreaseKeepsOneSegment(cWnd, delay, TargetDelay(base, ttl), beta, segment);
      }
    } else {
      DecreaseLosesSegment(segment, beta, FAR_DELAY);
    }
  }

  lemma DecreaseKeepsOneSegment(cWnd: nat, delay: nat, target: nat, beta: nat, segment: nat)
    requires 1 <= segment && 2 * segment <= cWnd && 0 < target <= delay && (beta <= 5 || segment == 1)
    ensures segment <= DecreasedWindow(cWnd, delay, target, beta) <= cWnd
  {
    DecreaseBounds(cWnd, delay, target, beta);
    if beta <= 5 {
      ProductMonotone(5, 10 - beta, cWnd);
      FloorIff(segment, cWnd * Max(1, 10 - beta), 10);
    }
  }

  const CLOSE_BASE: Time := 1_000
  const FAR_DELAY: Time := 72_000

  /** With beta of 6 or more, a base RTT of one microsecond over one hop and a delay of 72 or more loses the segment. */
  lemma DecreaseLosesSegment(segment: nat, beta: nat, delay: Time)
    requires 2 <= segment && 6 <= beta && FAR_DELAY <= delay
    ensures TargetDelay(CLOSE_BASE, 64) == 6_000
    ensures DecreasedWindow(2 * segment, delay, 6_000, beta) < segment
  {
    DecreaseAntitone(2 * segment, FAR_DELAY, delay, 6_000, beta);
    var n := ReductionNumerator(FAR_DELAY, 6_000, beta);
    assert n <= 324_000;
    ProductMonotone(n, 324_000, 2 * segment);
    FloorIff(segment, 2 * segment * n, 10 * FAR_DELAY);
  }

  // Additive increase

  /** The increase is between 1 and max(1, 5 alpha) segments, at least alpha once the base is a microsecond,
      and grows with the delay: up to the cap, a slower path is given the larger step. */
  lemma IncreaseBounds(alpha: nat, delay: Time, base: Time)
    ensures 1 <= IncreaseSegments(alpha, delay, base) <= Max(1, 5 * alpha)
    ensures MICROSECOND <= base <= delay ==> alpha <= IncreaseSegments(alpha, delay, base)
  {
    var delayUs, baseUs := delay / MICROSECOND, Max(1, base / MICROSECOND);
    if delayUs < 5 * baseUs {
      ProductMonotone(delayUs, 5 * baseUs, alpha);
      assert 5 * baseUs * alpha == 5 * alpha * baseUs;
      FloorIff(5 * alpha + 1, alpha * delayUs, baseUs);
      assert (5 * alpha + 1) * baseUs == 5 * alpha * baseUs + baseUs;
      if MICROSECOND <= base <= delay {
        ProductMonotone(baseUs, delayUs, alpha);
        FloorIff(alpha, alpha * delayUs, baseUs);
      }
    }
  }

  lemma IncreaseMonotone(alpha: nat, shorter: Time, longer: Time, base: Time)
    requires shorter <= longer
    ensures IncreaseSegments(alpha, shorter, base) <= IncreaseSegments(alpha, longer, base)
  {
    var d1, d2, baseUs := shorter / MICROSECOND, longer / MICROSECOND, Max(1, base / MICROSECOND);
    IncreaseBounds(alpha, shorter, base);
    if d2 < 5 * baseUs {
      var q := alpha * d1 / baseUs;
      FloorIff(q, alpha * d1, baseUs);
      ProductMonotone(d1, d2, alpha);
      FloorIff(q, alpha * d2, baseUs);
    }
  }

  /** Below one second the target clears the base by 5 to 315 microseconds for every time-to-live, so a sample
      equal to the base is under target; a base of a second or more puts every such sample over it. */
  lemma BaseSampleUnderTargetIff(base: Time, ttl: nat)
    requires 0 < base && ttl < 256
    ensures base < TargetDelay(base, ttl) <==> base < SECOND
    ensures base < SECOND ==> base + 5 * MICROSECOND <= TargetDelay(base, ttl) <= base + 315 * MICROSECOND
  {
    assert 1 <= EstimatedHops(ttl) <= 63;
  }
}
