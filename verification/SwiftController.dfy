/** The controller and the control block it shares with the socket, updated in place as in the source. */
module SwiftController {
  import opened TcpTypes
  import opened Arithmetic
  import opened SwiftMath
  import opened Swift

  class TcpSocketState {
    var cWnd: nat
    var ssThresh: nat
    var segmentSize: Positive
    var lastAckedSeq: nat
    var congState: CongState
    var ecnState: EcnState
    var highTxMark: nat
    var nextTxSequence: nat
    var lastRtt: Time
    var rcvTtl: nat

    ghost function View(): Tcb
      reads this
    {
      Tcb(cWnd, ssThresh, segmentSize, lastAckedSeq, congState, ecnState, highTxMark, nextTxSequence, lastRtt, rcvTtl)
    }

    constructor (cWnd: nat, ssThresh: nat, segmentSize: Positive, first: nat)
      ensures View() == Tcb(cWnd, ssThresh, segmentSize, first, Open, EcnDisabled, first, first, 0, 64)
    {
      this.cWnd, this.ssThresh, this.segmentSize := cWnd, ssThresh, segmentSize;
      lastAckedSeq, highTxMark, nextTxSequence := first, first, first;
      congState, ecnState, lastRtt, rcvTtl := Open, EcnDisabled, 0, 64;
    }
  }

  class TcpSwift {
    const params: Params
    var baseRtt: Time
    var minRtt: Time
    var lastRtt: Time
    var cntRtt: nat
    var doingSwiftNow: bool
    var begSndNxt: nat
    ghost var log: seq<SwiftEvent>

    ghost function View(): SwiftState
      reads this
    {
      SwiftState(baseRtt, minRtt, lastRtt, cntRtt, doingSwiftNow, begSndNxt, log)
    }

    ghost predicate Valid()
      reads this
    {
      SwiftInv(View())
    }

    constructor (alpha: nat, beta: nat)
      ensures Valid() && View() == INITIAL && params == Params(alpha, beta)
    {
      params := Params(alpha, beta);
      baseRtt, minRtt, lastRtt := TIME_MAX, TIME_MAX, TIME_MAX;
      cntRtt, doingSwiftNow, begSndNxt, log := 0, true, 0, [];
    }

    method PktsAcked(rtt: Time)
      requires Valid()
      modifies this
      ensures Valid()
      ensures View() == Swift.PktsAcked(old(View()), rtt)
    {
      ghost var before := View();
      PktsAckedKeeps(before, rtt);
      if rtt == 0 {
        return;
      }
      lastRtt := rtt;
      minRtt := Min(minRtt, rtt);
      baseRtt := Min(baseRtt, rtt);
      cntRtt := cntRtt + 1;
      log := log + [Sample(rtt)];
    }

    method EnableSwift(tcb: TcpSocketState)
      modifies this
      ensures View() == Enable(old(View()), tcb.nextTxSequence)
    {
      doingSwiftNow := true;
      begSndNxt := tcb.nextTxSequence;
      cntRtt := 0;
      minRtt := TIME_MAX;
      lastRtt := TIME_MAX;
      log := log + [Enabled(begSndNxt)];
    }

    method CongestionStateSet(tcb: TcpSocketState, state: CongState)
      requires Valid()
      modifies this
      ensures Valid()
      ensures View() == Swift.CongestionStateSet(old(View()), tcb.nextTxSequence, state)
    {
      CongestionStateSetKeeps(View(), tcb.nextTxSequence, state);
      if state == Open {
        EnableSwift(tcb);
      } else {
        doingSwiftNow := false;
      }
    }

    /** TcpNewReno is not in this repository: whatever it adds to the window is a parameter. */
    static method NewRenoIncrease(tcb: TcpSocketState, growth: nat)
      modifies tcb`cWnd
      ensures tcb.cWnd == old(tcb.cWnd) + growth
    {
      tcb.cWnd := tcb.cWnd + growth;
    }

    method IncreaseWindow(tcb: TcpSocketState, growth: nat)
      requires Valid()
      modifies this, tcb`cWnd, tcb`ssThresh
      ensures Valid()
      ensures (View(), tcb.View()) == Swift.IncreaseWindow(params, old(View()), old(tcb.View()), growth)
    {
      hide AdjustedWindow, SwiftInv;
      IncreaseWindowKeeps(params, View(), tcb.View(), growth);
      if !doingSwiftNow {
        NewRenoIncrease(tcb, growth);
        return;
      }
      if tcb.lastAckedSeq >= begSndNxt {
        begSndNxt := tcb.nextTxSequence;
        if cntRtt <= 2 {
          NewRenoIncrease(tcb, growth);
        } else {
          if tcb.cWnd < tcb.ssThresh {
            NewRenoIncrease(tcb, growth);
          } else {
            Adjust(tcb);
          }
          tcb.ssThresh := Max(tcb.ssThresh, 3 * tcb.cWnd / 4);
        }
        cntRtt := 0;
        minRtt := TIME_MAX;
        log := log + [Cycle(tcb.lastAckedSeq, begSndNxt)];
      } else if tcb.cWnd < tcb.ssThresh {
        NewRenoIncrease(tcb, growth);
      }
    }

    /** The AIMD engine in the middle of IncreaseWindow. */
    method Adjust(tcb: TcpSocketState)
      modifies this`log, tcb`cWnd
      ensures tcb.cWnd == AdjustedWindow(params, lastRtt, baseRtt, old(tcb.View()))
      ensures log == old(log) + [Adjusted(lastRtt, baseRtt)]
    {
      hide TargetDelay, IncreaseSegments;
      var target := TargetDelay(baseRtt, tcb.rcvTtl);
      if lastRtt < target {
        var segments := IncreaseSegments(params.alpha, lastRtt, baseRtt);
        ProductNonNegative(segments, tcb.segmentSize);
        tcb.cWnd := tcb.cWnd + segments * tcb.segmentSize;
      } else {
        tcb.cWnd := DecreasedWindow(tcb.cWnd, lastRtt, target, params.beta);
      }
      log := log + [Adjusted(lastRtt, baseRtt)];
    }

    method GetSsThresh(tcb: TcpSocketState) returns (threshold: nat)
      ensures threshold == Swift.GetSsThresh(tcb.View())
      ensures 2 * tcb.segmentSize <= threshold
    {
      var less := tcb.cWnd - tcb.segmentSize;
      if less < 0 {
        less := less + UINT32_SPAN;
      }
      threshold := Max(Min(tcb.ssThresh, less), 2 * tcb.segmentSize);
    }
  }
}
