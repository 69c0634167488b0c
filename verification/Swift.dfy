/** TcpSwift: its state, its operations as functions, and what every sequence of those operations keeps. */
module Swift {
  import opened TcpTypes
  import opened Arithmetic
  import opened SwiftMath

  datatype Params = Params(alpha: nat, beta: nat)

  /** What the controller did, oldest first: a non-zero RTT sample arrived, the controller was enabled at an edge,
      a cycle ended on an acknowledged number and recorded the next edge, the window was adjusted by AIMD. */
  datatype SwiftEvent =
    | Sample(rtt: Time)
    | Enabled(edge: nat)
    | Cycle(acked: nat, edge: nat)
    | Adjusted(rtt: Time, base: Time)

  /** `log` is history only: no operation reads it. */
  datatype SwiftState = SwiftState(baseRtt: Time, minRtt: Time, lastRtt: Time, cntRtt: nat, doingSwift: bool,
                                   begSndNxt: nat, log: seq<SwiftEvent>)

  const INITIAL: SwiftState := SwiftState(TIME_MAX, TIME_MAX, TIME_MAX, 0, true, 0, [])

  function PktsAcked(w: SwiftState, rtt: Time): SwiftState {
    if rtt == 0 then w
    else w.(lastRtt := rtt, minRtt := Min(w.minRtt, rtt), baseRtt := Min(w.baseRtt, rtt), cntRtt := w.cntRtt + 1,
            log := w.log + [Sample(rtt)])
  }

  function Enable(w: SwiftState, nextTx: nat): SwiftState {
    w.(doingSwift := true, begSndNxt := nextTx, cntRtt := 0, minRtt := TIME_MAX, lastRtt := TIME_MAX,
       log := w.log + [Enabled(nextTx)])
  }

  function CongestionStateSet(w: SwiftState, nextTx: nat, state: CongState): SwiftState {
    if state == Open then Enable(w, nextTx) else w.(doingSwift := false)
  }

  /** The AIMD step on the window, for the latest delay and the least ever seen. */
  function AdjustedWindow(p: Params, delay: Time, base: Time, t: Tcb): nat {
    var target := TargetDelay(base, t.rcvTtl);
    if delay < target then t.cWnd + IncreaseSegments(p.alpha, delay, base) * t.segmentSize
    else DecreasedWindow(t.cWnd, delay, target, p.beta)
  }

  /** The window and threshold after a cycle that collected more than two samples. */
  function CycleTcb(p: Params, w: SwiftState, t: Tcb, growth: nat): Tcb {
    var cWnd := if t.cWnd < t.ssThresh then t.cWnd + growth else AdjustedWindow(p, w.lastRtt, w.baseRtt, t);
    t.(cWnd := cWnd, ssThresh := Max(t.ssThresh, 3 * cWnd / 4))
  }

  /** `growth` is what TcpNewReno adds to the window when it is called. */
  function IncreaseWindow(p: Params, w: SwiftState, t: Tcb, growth: nat): (SwiftState, Tcb) {
    var grown := t.(cWnd := t.cWnd + growth);
    if !w.doingSwift then (w, grown)
    else if t.lastAcked >= w.begSndNxt then
      var w' := w.(begSndNxt := t.nextTx, cntRtt := 0, minRtt := TIME_MAX);
      var ended := [Cycle(t.lastAcked, t.nextTx)];
      if w.cntRtt <= 2 then (w'.(log := w.log + ended), grown)
      else if t.cWnd < t.ssThresh then (w'.(log := w.log + ended), CycleTcb(p, w, t, growth))
      else (w'.(log := w.log + [Adjusted(w.lastRtt, w.baseRtt)] + ended), CycleTcb(p, w, t, growth))
    else if t.cWnd < t.ssThresh then (w, grown)
    else (w, t)
  }

  /** The unsigned difference cWnd - segmentSize, wrap-around included. */
  function WindowLessSegment(t: Tcb): int {
    if t.segmentSize <= t.cWnd then t.cWnd - t.segmentSize else t.cWnd - t.segmentSize + UINT32_SPAN
  }

  function GetSsThresh(t: Tcb): nat {
    Max(Min(t.ssThresh, WindowLessSegment(t)), 2 * t.segmentSize)
  }

  /** Without wrap-around the new threshold never exceeds the window minus a segment (floored at two segments);
      for a window under one segment the subtraction wraps, and that bound survives only when the old threshold
      was already at the floor. */
  lemma GetSsThreshIntendedIff(t: Tcb)
    requires t.ssThresh < UINT32_SPAN && 3 * t.segmentSize < UINT32_SPAN
    ensures GetSsThresh(t) == Max(Min(t.ssThresh, t.cWnd - t.segmentSize), 2 * t.segmentSize)
            <==> t.segmentSize <= t.cWnd || t.ssThresh <= 2 * t.segmentSize
  {
    if t.cWnd < t.segmentSize && 2 * t.segmentSize < t.ssThresh {
      assert 2 * t.segmentSize < WindowLessSegment(t);
    }
  }

  // What the log says

  /** Least sample so far. */
  function LeastSample(log: seq<SwiftEvent>): Time {
    if log == [] then TIME_MAX
    else
      var least := LeastSample(log[..|log| - 1]);
      match log[|log| - 1] case Sample(rtt) => Min(least, rtt) case _ => least
  }

  /** Samples since the last cycle or enabling. */
  function SamplesSince(log: seq<SwiftEvent>): nat {
    if log == [] then 0
    else
      match log[|log| - 1]
      case Sample(_) => SamplesSince(log[..|log| - 1]) + 1
      case Adjusted(_, _) => SamplesSince(log[..|log| - 1])
      case _ => 0
  }

  /** Most recent sample since enabling, or `Time::Max ()`. */
  function LatestSample(log: seq<SwiftEvent>): Time {
    if log == [] then TIME_MAX
    else
      match log[|log| - 1]
      case Sample(rtt) => rtt
      case Enabled(_) => TIME_MAX
      case _ => LatestSample(log[..|log| - 1])
  }

  /** Edge recorded by the last cycle or enabling. */
  function LatestEdge(log: seq<SwiftEvent>): nat {
    if log == [] then 0
    else
      match log[|log| - 1]
      case Enabled(edge) => edge
      case Cycle(_, edge) => edge
      case _ => LatestEdge(log[..|log| - 1])
  }

  /** What must hold of an event given those before it: a cycle ends only on an ACK that covers the edge recorded
      before it; an adjustment uses at least three samples since then, the latest of them and the least of all. */
  ghost predicate Justified(before: seq<SwiftEvent>, event: SwiftEvent) {
    match event
    case Sample(rtt) => 0 < rtt
    case Enabled(_) => true
    case Cycle(acked, _) => LatestEdge(before) <= acked
    case Adjusted(rtt, base) =>
      3 <= SamplesSince(before) && rtt == LatestSample(before) && base == LeastSample(before)
  }

  ghost predicate WellLogged(log: seq<SwiftEvent>) {
    log == [] || (WellLogged(log[..|log| - 1]) && Justified(log[..|log| - 1], log[|log| - 1]))
  }

  lemma {:induction false} WellLoggedAt(log: seq<SwiftEvent>, i: nat)
    requires WellLogged(log) && i < |log|
    ensures Justified(log[..i], log[i])
  {
    if i < |log| - 1 {
      WellLoggedAt(log[..|log| - 1], i);
      assert log[..|log| - 1][..i] == log[..i];
    }
  }

  /** An adjustment is the last thing a cycle does. */
  ghost predicate AdjustmentsEndCycles(log: seq<SwiftEvent>) {
    forall i :: 0 <= i < |log| && log[i].Adjusted? ==> i + 1 < |log| && log[i + 1].Cycle?
  }

  function Adjustments(log: seq<SwiftEvent>): nat {
    if log == [] then 0 else Adjustments(log[..|log| - 1]) + if log[|log| - 1].Adjusted? then 1 else 0
  }

  function Cycles(log: seq<SwiftEvent>): nat {
    if log == [] then 0 else Cycles(log[..|log| - 1]) + if log[|log| - 1].Cycle? then 1 else 0
  }

  lemma {:induction false} AdjustmentsAtMostCycles(log: seq<SwiftEvent>)
    requires AdjustmentsEndCycles(log)
    ensures Adjustments(log) <= Cycles(log)
  {
    if log != [] {
      var front, last := log[..|log| - 1], log[|log| - 1];
      if front != [] && front[|front| - 1].Adjusted? {
        assert log[|front| - 1 + 1].Cycle?;
        assert AdjustmentsEndCycles(front[..|front| - 1]) by {
          assert forall i :: 0 <= i < |front| - 1 && log[i].Adjusted? ==> log[i + 1].Cycle?;
        }
        AdjustmentsAtMostCycles(front[..|front| - 1]);
      } else {
        AdjustmentsAtMostCycles(front);
      }
    }
  }

  ghost predicate SwiftInv(w: SwiftState) {
    && WellLogged(w.log) && AdjustmentsEndCycles(w.log)
    && w.baseRtt == LeastSample(w.log)
    && w.cntRtt == SamplesSince(w.log)
    && w.lastRtt == LatestSample(w.log)
    && w.begSndNxt == LatestEdge(w.log)
    && 0 < w.baseRtt <= w.minRtt && w.baseRtt <= w.lastRtt
  }

  lemma Append(log: seq<SwiftEvent>, event: SwiftEvent)
    ensures (log + [event])[..|log + [event]| - 1] == log
    ensures (log + [event])[|log + [event]| - 1] == event
  {
  }

  lemma PktsAckedKeeps(w: SwiftState, rtt: Time)
    requires SwiftInv(w)
    ensures SwiftInv(PktsAcked(w, rtt))
  {
    Append(w.log, Sample(rtt));
  }

  lemma CongestionStateSetKeeps(w: SwiftState, nextTx: nat, state: CongState)
    requires SwiftInv(w)
    ensures SwiftInv(CongestionStateSet(w, nextTx, state))
  {
    Append(w.log, Enabled(nextTx));
  }

  lemma IncreaseWindowKeeps(p: Params, w: SwiftState, t: Tcb, growth: nat)
    requires SwiftInv(w)
    ensures SwiftInv(IncreaseWindow(p, w, t, growth).0)
  {
    var adjusted, ended := Adjusted(w.lastRtt, w.baseRtt), Cycle(t.lastAcked, t.nextTx);
    Append(w.log, ended);
    Append(w.log, adjusted);
    Append(w.log + [adjusted], ended);
  }

  // Consequences

  /** The base RTT is a lower bound of every sample ever taken and is one of them. */
  lemma {:induction false} LeastSampleIsMinimum(log: seq<SwiftEvent>)
    ensures forall i :: 0 <= i < |log| && log[i].Sample? ==> LeastSample(log) <= log[i].rtt
    ensures LeastSample(log) == TIME_MAX || exists i :: 0 <= i < |log| && log[i].Sample? && log[i].rtt == LeastSample(log)
  {
    if log != [] {
      var front, last := log[..|log| - 1], log[|log| - 1];
      LeastSampleIsMinimum(front);
      if LeastSample(log) == LeastSample(front) && LeastSample(front) != TIME_MAX {
        var i :| 0 <= i < |front| && front[i].Sample? && front[i].rtt == LeastSample(front);
        assert log[i].Sample? && log[i].rtt == LeastSample(log);
      } else if last.Sample? {
        assert log[|log| - 1].Sample?;
      }
    }
  }

  /** Three samples since the last reset make the latest RTT one that was really measured, and positive. */
  lemma {:induction false} LatestSampleIsMeasured(log: seq<SwiftEvent>)
    requires WellLogged(log) && 1 <= SamplesSince(log)
    ensures exists i :: 0 <= i < |log| && log[i] == Sample(LatestSample(log)) && 0 < LatestSample(log)
  {
    var front := log[..|log| - 1];
    if log[|log| - 1].Adjusted? {
      LatestSampleIsMeasured(front);
      var i :| 0 <= i < |front| && front[i] == Sample(LatestSample(front)) && 0 < LatestSample(front);
      assert log[i] == Sample(LatestSample(log));
    } else {
      assert log[|log| - 1] == Sample(LatestSample(log));
    }
  }

  /** Only the window and the threshold of the control block change. */
  lemma IncreaseWindowShape(p: Params, w: SwiftState, t: Tcb, growth: nat)
    ensures
      var r := IncreaseWindow(p, w, t, growth).1;
      r == t.(cWnd := r.cWnd, ssThresh := r.ssThresh)
  {
    hide AdjustedWindow;
  }

  /** A cycle never shrinks the threshold, and with beta at most 5 (or segments of one byte) it leaves a window of one
      segment or more. */
  lemma IncreaseWindowBounds(p: Params, w: SwiftState, t: Tcb, growth: nat)
    requires t.segmentSize <= t.cWnd && 2 * t.segmentSize <= t.ssThresh && (p.beta <= 5 || t.segmentSize == 1)
    ensures t.ssThresh <= IncreaseWindow(p, w, t, growth).1.ssThresh
    ensures t.segmentSize <= IncreaseWindow(p, w, t, growth).1.cWnd
  {
    var target := TargetDelay(w.baseRtt, t.rcvTtl);
    ProductNonNegative(IncreaseSegments(p.alpha, w.lastRtt, w.baseRtt), t.segmentSize);
    if t.ssThresh <= t.cWnd && target <= w.lastRtt {
      DecreaseKeepsOneSegment(t.cWnd, w.lastRtt, target, p.beta, t.segmentSize);
    }
  }
}
