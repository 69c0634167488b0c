/** What one call of TcpSwift does to the window, the threshold and the cycle, case by case. */
module SwiftEffects {
  import opened TcpTypes
  import opened Arithmetic
  import opened SwiftMath
  import opened Swift

  /** The RTT edge recorded by the last cycle is acknowledged, and more than two samples came in. */
  predicate FullCycle(w: SwiftState, t: Tcb) {
    w.doingSwift && w.begSndNxt <= t.lastAcked && 3 <= w.cntRtt
  }

  /** n segments are alpha times the delay over the base, in whole microseconds, rounded down, the ratio capped at 5; at
      least one. */
  predicate ScaledStep(n: nat, alpha: nat, delayUs: nat, baseUs: Positive) {
    if 5 * baseUs <= delayUs then n == Max(1, 5 * alpha)
    else (n * baseUs <= alpha * delayUs < (n + 1) * baseUs && 1 <= n) || (n == 1 && alpha * delayUs < baseUs)
  }

  lemma IncreaseIsScaled(alpha: nat, delay: Time, base: Time)
    ensures ScaledStep(IncreaseSegments(alpha, delay, base), alpha, delay / MICROSECOND, Max(1, base / MICROSECOND))
  {
    var delayUs, baseUs := delay / MICROSECOND, Max(1, base / MICROSECOND);
    if delayUs < 5 * baseUs {
      var q := alpha * delayUs / baseUs;
      FloorIff(q, alpha * delayUs, baseUs);
      FloorIff(q + 1, alpha * delayUs, baseUs);
    }
  }

  /** A packet that set out with a TTL of 64 and crossed n hops is allowed n times 5 microseconds over the base; any other
      TTL counts as one hop, and without a usable base the target is 20 microseconds. */
  lemma TargetCountsHops(base: Time, ttl: nat)
    ensures 0 < base < SECOND ==>
              TargetDelay(base, ttl) == base + (if 1 <= ttl <= 63 then 64 - ttl else 1) * (5 * MICROSECOND)
    ensures base == 0 || SECOND <= base ==> TargetDelay(base, ttl) == 20 * MICROSECOND
  {
  }

  /** A full cycle at or past the threshold adjusts the window: under target by whole segments, as many as the scaled step
      says; at or over it by the factor max(1/10, 1 - beta/10 * (delay - target)/delay), rounded down and at least one
      byte. The threshold follows to three quarters of the new window. */
  lemma CycleAdjusts(p: Params, w: SwiftState, t: Tcb, growth: nat)
    requires FullCycle(w, t) && t.ssThresh <= t.cWnd
    ensures
      var r, target := IncreaseWindow(p, w, t, growth).1, TargetDelay(w.baseRtt, t.rcvTtl);
      && (w.lastRtt < target ==>
            exists n: nat :: ScaledStep(n, p.alpha, w.lastRtt / MICROSECOND, Max(1, w.baseRtt / MICROSECOND))
                             && r.cWnd == t.cWnd + n * t.segmentSize)
      && (target <= w.lastRtt ==>
            Shrunk(t.cWnd, r.cWnd, w.lastRtt, Max(w.lastRtt, 10 * w.lastRtt - p.beta * (w.lastRtt - target))))
      && r.ssThresh == Max(t.ssThresh, 3 * r.cWnd / 4)
  {
    var target := TargetDelay(w.baseRtt, t.rcvTtl);
    hide TargetDelay, IncreaseSegments, ScaledStep, DecreasedWindow;
    IncreaseIsScaled(p.alpha, w.lastRtt, w.baseRtt);
    if target <= w.lastRtt {
      DecreaseIsScaled(t.cWnd, w.lastRtt, target, p.beta);
    }
  }

  /** `shrunk` is the floor of `cWnd` times n tenths of `delay`, or 1 when that is less. */
  predicate Shrunk(cWnd: nat, shrunk: nat, delay: nat, n: int) {
    if cWnd * n < 10 * delay then shrunk == 1
    else shrunk * (10 * delay) <= cWnd * n < (shrunk + 1) * (10 * delay)
  }

  lemma DecreaseIsScaled(cWnd: nat, delay: nat, target: nat, beta: nat)
    requires 0 < target <= delay
    ensures
      var n := Max(delay, 10 * delay - beta * (delay - target));
      Shrunk(cWnd, DecreasedWindow(cWnd, delay, target, beta), delay, n)
  {
    var n := Max(delay, 10 * delay - beta * (delay - target));
    assert n == ReductionNumerator(delay, target, beta);
    ProductNonNegative(cWnd, n);
    var q := cWnd * n / (10 * delay);
    FloorIff(q, cWnd * n, 10 * delay);
    FloorIff(q + 1, cWnd * n, 10 * delay);
    FloorIff(1, cWnd * n, 10 * delay);
  }

  /** Every other call: NewReno grows the window while Swift is off, below the threshold, and after a cycle of two samples
      or fewer; at or past the threshold a cycle still open leaves it alone. The threshold moves only at the end of a full
      cycle, to three quarters of the window. */
  lemma OtherwiseNewReno(p: Params, w: SwiftState, t: Tcb, growth: nat)
    requires !(FullCycle(w, t) && t.ssThresh <= t.cWnd)
    ensures
      var r := IncreaseWindow(p, w, t, growth).1;
      var waits := w.doingSwift && t.lastAcked < w.begSndNxt && t.ssThresh <= t.cWnd;
      && r.cWnd == (if waits then t.cWnd else t.cWnd + growth)
      && r.ssThresh == if FullCycle(w, t) then Max(t.ssThresh, 3 * r.cWnd / 4) else t.ssThresh
  {
    hide AdjustedWindow;
  }

  /** A cycle ends exactly when Swift is on and the edge is acknowledged; the next edge is SND.NXT, and the samples are
      counted anew. The base RTT and the latest one stay. */
  lemma CycleEndsIff(p: Params, w: SwiftState, t: Tcb, growth: nat)
    ensures
      var r, ends := IncreaseWindow(p, w, t, growth).0, w.doingSwift && w.begSndNxt <= t.lastAcked;
      && r.begSndNxt == (if ends then t.nextTx else w.begSndNxt)
      && r.cntRtt == (if ends then 0 else w.cntRtt) && r.minRtt == (if ends then TIME_MAX else w.minRtt)
      && r.baseRtt == w.baseRtt && r.lastRtt == w.lastRtt && r.doingSwift == w.doingSwift
      && Cycles(r.log) == Cycles(w.log) + (if ends then 1 else 0)
      && Adjustments(r.log) == Adjustments(w.log) + if FullCycle(w, t) && t.ssThresh <= t.cWnd then 1 else 0
  {
    var adjusted, ended := Adjusted(w.lastRtt, w.baseRtt), Cycle(t.lastAcked, t.nextTx);
    Append(w.log, ended);
    Append(w.log, adjusted);
    Append(w.log + [adjusted], ended);
    hide AdjustedWindow;
  }

  /** Entering OPEN starts a cycle at SND.NXT without samples: until that number is acknowledged no cycle ends, and the
      first to end adjusts nothing unless three samples came in. */
  lemma EnablingStartsCycle(p: Params, w: SwiftState, nextTx: nat, t: Tcb, growth: nat)
    ensures
      var on := CongestionStateSet(w, nextTx, Open);
      && on.doingSwift && on.cntRtt == 0 && on.lastRtt == TIME_MAX && on.baseRtt == w.baseRtt
      && (IncreaseWindow(p, on, t, growth).0.begSndNxt != nextTx ==> nextTx <= t.lastAcked)
      && (t.lastAcked < nextTx ==> IncreaseWindow(p, on, t, growth).0 == on)
  {
    hide AdjustedWindow;
  }
}
