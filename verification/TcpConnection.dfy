/** The fields of TcpSocketBase that make up the connection state, updated in place. The events are the entry points: each
    keeps the lifecycle invariant and its consequences. A failed assertion of the source stops the connection (`halted`). */
module TcpConnection {
  import opened TcpTypes
  import opened Lifecycle
  import opened LifecycleInvariants
  import opened LifecycleOrder
  import Connect

  /** What an event promises: one step, which keeps the invariant, changes the state only to a higher rank, leaves CLOSING
      and TIME_WAIT only to connections that sent their FIN, and keeps the order of a consistent peer's FIN. */
  ghost predicate Promised(before: Conn, e: Event, after: Conn) {
    && after == Step(before, e) && ConnInv(after)
    && (after.state == before.state || Rank(before.state) < Rank(after.state))
    && (after.state == Closing || after.state == TimeWait ==> after.finSent)
    && (Orderly(before) && ConsistentEvent(before, e) ==>
          Orderly(after) && after.halted != Some(NotPeerOpen) && (AfterFin(after.state) ==> after.peerFin))
  }

  lemma StepPromised(c: Conn, e: Event)
    requires ConnInv(c)
    ensures Promised(c, e, Step(c, e))
  {
    hide Step, LeadsTo;
    StepKeeps(c, e);
    StepClimbs(c, e);
    if Orderly(c) && ConsistentEvent(c, e) {
      StepOrderly(c, e);
    }
  }

  class Connection {
    var state: State
    var endPoint: bool
    var rx: Rx
    var syn: Connect.SynTimer
    var shutdownSend: bool
    var shutdownRecv: bool
    var closeOnEmpty: bool
    var closeNotified: bool
    var dataRetrCount: nat
    const dataRetries: nat
    var dataTimer: bool
    var halted: Option<Failure>
    ghost var trail: seq<State>
    ghost var fins: nat
    ghost var rstSent: bool
    ghost var peerFin: bool

    ghost function View(): Conn
      reads this
    {
      Conn(state, endPoint, rx, syn, shutdownSend, shutdownRecv, closeOnEmpty, closeNotified, dataRetrCount, dataRetries,
           dataTimer, halted, trail, fins, rstSent, peerFin)
    }

    ghost predicate Valid()
      reads this
    {
      ConnInv(View())
    }

    /** A socket about to listen, or with its SYN or SYN+ACK on the way; `next` is the number it expects first. */
    constructor (state: State, next: nat, max: nat, syn: Connect.SynTimer, dataRetries: nat)
      requires state == Listen || state == SynSent || state == SynRcvd
      ensures Valid() && Newborn(View()) && Orderly(View()) && this.state == state
    {
      this.state, this.syn := state, syn;
      rx := Rx(next, max, None, next, None);
      this.dataRetries, dataRetrCount := dataRetries, dataRetries;
      endPoint, shutdownSend, shutdownRecv, closeOnEmpty, closeNotified := true, false, false, false, false;
      dataTimer, halted, trail, fins, rstSent, peerFin := false, None, [state], 0, false, false;
    }

    method SetState(to: State)
      modifies this
      ensures View() == Lifecycle.Enter(old(View()), to) && rx == old(rx) && syn == old(syn)
    {
      if to != state {
        trail := trail + [to];
        state := to;
      }
    }

    // Sending

    method SendFin()
      modifies this
      ensures View() == Lifecycle.SendFin(old(View()))
    {
      if endPoint {
        fins := fins + 1;
      }
    }

    method SendSyn(now: nat)
      modifies this
      ensures View() == Lifecycle.SendSyn(old(View()), now)
    {
      if !endPoint {
        return;
      }
      var failed := syn.count == 0;
      syn := Connect.Send(syn, now);
      if failed {
        SetState(Closed);
        endPoint := false;
      }
    }

    method Drain(drained: bool)
      modifies this
      ensures View() == Lifecycle.Drain(old(View()), drained)
    {
      if !endPoint || Opening(state) {
        return;
      }
      dataTimer := true;
      if drained && closeOnEmpty {
        fins := fins + 1;
        if state == Established {
          SetState(FinWait1);
        } else if state == CloseWait {
          SetState(LastAck);
        }
      }
    }

    // Closing

    method CloseAndNotify()
      modifies this
      ensures View() == Lifecycle.CloseAndNotify(old(View()))
    {
      closeNotified := true;
      SetState(Closed);
      endPoint := false;
    }

    method SendRst()
      modifies this
      ensures View() == Lifecycle.SendRst(old(View()))
    {
      rstSent := rstSent || endPoint;
      endPoint := false;
    }

    method Abort()
      modifies this
      ensures View() == Lifecycle.CloseAndNotify(Lifecycle.SendRst(old(View())))
    {
      hide Lifecycle.SendRst, Lifecycle.CloseAndNotify;
      SendRst();
      CloseAndNotify();
    }

    method DoClose()
      modifies this
      ensures View() == Lifecycle.DoClose(old(View()))
    {
      hide Lifecycle.SendFin, Lifecycle.SendRst, Enter, Lifecycle.CloseAndNotify;
      match state {
        case SynRcvd | Established =>
          SendFin();
          SetState(FinWait1);
        case CloseWait =>
          SendFin();
          SetState(LastAck);
        case SynSent | Closing =>
          Abort();
        case Listen =>
          CloseAndNotify();
        case _ =>
      }
    }

    method Close(unread: bool, pending: bool)
      modifies this
      ensures View() == Lifecycle.Close(old(View()), unread, pending)
    {
      hide Lifecycle.DoClose, Lifecycle.SendRst;
      if unread {
        SendRst();
        return;
      }
      if pending {
        closeOnEmpty := true;
        return;
      }
      DoClose();
    }

    method ShutdownSend(empty: bool)
      modifies this
      ensures View() == Lifecycle.ShutdownSend(old(View()), empty)
    {
      hide Lifecycle.SendFin, Enter;
      shutdownSend, closeOnEmpty := true, true;
      if empty {
        if state == Established {
          SendFin();
          SetState(FinWait1);
        } else if state == CloseWait {
          SendFin();
          SetState(LastAck);
        }
      }
    }

    method React(call: Call)
      modifies this
      ensures View() == Lifecycle.React(old(View()), call)
    {
      hide Lifecycle.Close, Lifecycle.ShutdownSend;
      match call.reaction {
        case Ignores =>
        case Closes => Close(call.unread, call.pending);
        case ShutsDown => ShutdownSend(call.empty);
        case StopsReading => shutdownRecv := true;
      }
    }

    method TimeWaitState()
      modifies this
      ensures View() == EnterTimeWait(old(View()))
    {
      SetState(TimeWait);
      closeNotified := true;
    }

    method TellOfClose(a: Answers)
      modifies this
      ensures View() == Lifecycle.TellOfClose(old(View()), a)
    {
      hide Lifecycle.React;
      if !closeNotified {
        React(a.onClose);
        closeNotified := true;
      }
    }

    method NotifyPeerClose(a: Answers)
      modifies this
      ensures View() == Lifecycle.NotifyPeerClose(old(View()), a)
    {
      hide Lifecycle.Close, Lifecycle.TellOfClose;
      TellOfClose(a);
      if shutdownSend {
        Close(a.afterShutdown.unread, a.afterShutdown.pending);
      }
      if state == LastAck {
        dataRetrCount := dataRetries;
      }
    }

    method DoPeerClose(a: Answers)
      modifies this
      ensures View() == Lifecycle.DoPeerClose(old(View()), a)
    {
      hide Lifecycle.NotifyPeerClose, Enter;
      if !PeerOpen(state) {
        halted := Some(NotPeerOpen);
        return;
      }
      SetState(CloseWait);
      NotifyPeerClose(a);
    }

    // Receiving

    method SetRx(to: Rx)
      modifies this
      ensures View() == WithRx(old(View()), to)
    {
      rx := to;
      peerFin := peerFin || InSequence(to);
    }

    method ReceivedData(p: Packet, a: Answers)
      modifies this
      ensures View() == Lifecycle.ReceivedData(old(View()), p, a)
    {
      hide Lifecycle.React, Lifecycle.DoPeerClose, WithRx, Taken;
      var after := Taken(rx, p, a);
      if after.next <= rx.next {
        return;
      }
      SetRx(after);
      if !shutdownRecv {
        React(a.onData);
      }
      if Finished(after) && !p.flags.fin {
        DoPeerClose(a);
      }
    }

    method PeerClose(p: Packet, a: Answers)
      modifies this
      ensures View() == Lifecycle.PeerClose(old(View()), p, a)
    {
      hide Lifecycle.ReceivedData, Lifecycle.DoPeerClose, Enter, WithRx, SetFin;
      if p.seqNo < rx.next || p.seqNo > rx.max {
        return;
      }
      SetRx(SetFin(rx, p.seqNo + p.size, p.seqNo + p.size));
      if p.size > 0 {
        ReceivedData(p, a);
      }
      if halted.Some? || !Finished(rx) {
        return;
      }
      if state == FinWait1 {
        SetState(Closing);
      } else {
        DoPeerClose(a);
      }
    }

    method ReceivedAck(p: Packet, a: Answers)
      modifies this
      ensures View() == Lifecycle.ReceivedAck(old(View()), p, a)
    {
      hide Lifecycle.ReceivedData, Lifecycle.Drain;
      if !p.flags.ack {
        halted := Some(NoAckFlag);
        return;
      }
      Drain(a.drainedByAck);
      if p.size > 0 {
        ReceivedData(p, a);
      }
      if halted.None? {
        Drain(a.drained);
      }
    }

    method Refuse(p: Packet)
      modifies this
      ensures View() == Lifecycle.Refuse(old(View()), p)
    {
      hide Lifecycle.CloseAndNotify, Lifecycle.SendRst;
      if MaskEcn(p.flags) != RST {
        Abort();
      } else {
        CloseAndNotify();
      }
    }

    method ProcessEstablished(p: Packet, inWindow: bool, a: Answers)
      modifies this
      ensures View() == Lifecycle.ProcessEstablished(old(View()), p, inWindow, a)
    {
      hide Lifecycle.ReceivedAck, Lifecycle.ReceivedData, Lifecycle.PeerClose, Lifecycle.Refuse;
      var f := MaskEcn(p.flags);
      if f == ACK {
        if inWindow {
          ReceivedAck(p, a);
        }
      } else if f == SYN || f == SYN_ACK {
      } else if f == FIN || f == FIN_ACK {
        PeerClose(p, a);
      } else if f == NONE {
        ReceivedData(p, a);
        if halted.None? && Finished(rx) {
          PeerClose(p, a);
        }
      } else {
        Refuse(p);
      }
    }

    method ProcessSynSent(p: Packet, a: Answers)
      modifies this
      ensures View() == Lifecycle.ProcessSynSent(old(View()), p, a)
    {
      hide Lifecycle.ReceivedData, Lifecycle.SendSyn, Lifecycle.Drain, Lifecycle.CloseAndNotify, Enter, WithRx;
      var f := p.flags;
      if f == NONE {
        SetState(Established);
        ReceivedData(p, a);
      } else if f.ack && !f.syn {
      } else if f.syn && !f.ack {
        AnswerSyn(p, a);
      } else if f.syn && a.acksSyn {
        CompleteHandshake(p, a);
      } else if !f.rst {
        Abort();
      } else {
        CloseAndNotify();
      }
    }

    method AnswerSyn(p: Packet, a: Answers)
      modifies this
      ensures
        var c := old(View());
        var c1 := WithRx(Enter(c, SynRcvd), Restarted(c.rx, p.seqNo + 1));
        View() == Lifecycle.SendSyn(c1.(syn := c.syn.(count := c.syn.retries)), a.now)
    {
      hide Lifecycle.SendSyn, Connect.Send, Enter;
      SetState(SynRcvd);
      SetRx(Restarted(rx, p.seqNo + 1));
      syn := syn.(count := syn.retries);
      SendSyn(a.now);
    }

    method CompleteHandshake(p: Packet, a: Answers)
      modifies this
      ensures
        var c := old(View());
        View() == Lifecycle.Drain(WithRx(Enter(c, Established), Restarted(c.rx, p.seqNo + 1)), a.drained)
    {
      hide Lifecycle.Drain;
      SetState(Established);
      SetRx(Restarted(rx, p.seqNo + 1));
      Drain(a.drained);
    }

    method ProcessSynRcvd(p: Packet, a: Answers)
      modifies this
      ensures View() == Lifecycle.ProcessSynRcvd(old(View()), p, a)
    {
      hide Lifecycle.ReceivedAck, Lifecycle.SendSyn, Lifecycle.PeerClose, Lifecycle.Refuse, Enter, WithRx;
      var f := MaskEcn(p.flags);
      if f == NONE || (f == ACK && a.acksSyn) {
        SetState(Established);
        ReceivedAck(p, a);
      } else if f == SYN {
        SetRx(Restarted(rx, p.seqNo + 1));
        SendSyn(a.now);
      } else if f == FIN_ACK {
        if p.seqNo == rx.next {
          PeerClose(p, a);
        }
      } else {
        Refuse(p);
      }
    }

    method EndFinWait(a: Answers)
      requires state == FinWait1 || state == FinWait2
      modifies this
      ensures View() == Lifecycle.EndFinWait(old(View()), a)
    {
      hide Enter, EnterTimeWait;
      if state == FinWait1 {
        SetState(Closing);
        if a.empty && a.acksFin {
          TimeWaitState();
        }
      } else {
        TimeWaitState();
      }
    }

    /** The check at the end of ProcessWait. */
    method LeaveFinWait(a: Answers)
      modifies this
      ensures View() == LeaveFinWaitUnlessHalted(old(View()), a)
    {
      hide Lifecycle.EndFinWait, Lifecycle.React;
      if halted.None? && (state == FinWait1 || state == FinWait2) && Finished(rx) {
        EndFinWait(a);
        if !shutdownRecv {
          React(a.onEnd);
        }
      }
    }

    method ProcessWait(p: Packet, a: Answers)
      modifies this
      ensures View() == Lifecycle.ProcessWait(old(View()), p, a)
    {
      hide Lifecycle.ReceivedAck, Lifecycle.ReceivedData, LeaveFinWaitUnlessHalted, Lifecycle.Refuse, WithRx, Enter,
           SetFin;
      var f := MaskEcn(p.flags);
      if p.size > 0 && !f.ack {
        ReceivedData(p, a);
      } else if f == ACK {
        ReceivedAck(p, a);
        if state == FinWait1 && a.empty && a.acksFin {
          SetState(FinWait2);
        }
      } else if f == FIN || f == FIN_ACK {
        if f.ack {
          ReceivedAck(p, a);
        }
        if halted.None? {
          SetRx(SetFin(rx, p.seqNo, p.seqNo + p.size));
        }
      } else if f == SYN || f == SYN_ACK {
        return;
      } else {
        Refuse(p);
        return;
      }
      LeaveFinWait(a);
    }

    method ProcessClosing(p: Packet)
      modifies this
      ensures View() == Lifecycle.ProcessClosing(old(View()), p)
    {
      hide Lifecycle.CloseAndNotify, EnterTimeWait;
      if p.flags == ACK {
        if p.seqNo == rx.next {
          TimeWaitState();
        }
      } else if p.flags == FIN || p.flags == FIN_ACK || p.flags == RST {
        CloseAndNotify();
      } else {
        Abort();
      }
    }

    method ProcessLastAck(p: Packet, a: Answers)
      modifies this
      ensures View() == Lifecycle.ProcessLastAck(old(View()), p, a)
    {
      hide Lifecycle.ReceivedData, Lifecycle.CloseAndNotify, Lifecycle.SendFin;
      if p.flags == NONE {
        ReceivedData(p, a);
      } else if p.flags == ACK {
        if p.seqNo == rx.next {
          CloseAndNotify();
        }
      } else if p.flags == FIN {
        SendFin();
      } else if p.flags == FIN_ACK || p.flags == RST {
        CloseAndNotify();
      } else {
        Abort();
      }
    }

    method RetryFin()
      modifies this
      ensures View() == Lifecycle.LastAckTimeout(old(View()))
    {
      hide Lifecycle.SendFin;
      if state != LastAck {
        return;
      }
      if dataRetrCount == 0 {
        endPoint := false;
        return;
      }
      dataRetrCount := dataRetrCount - 1;
      SendFin();
    }

    method RetryData(a: Answers)
      modifies this
      ensures View() == Lifecycle.RetryData(old(View()), a)
    {
      hide Lifecycle.Drain;
      if dataRetrCount == 0 {
        endPoint := false;
        return;
      }
      dataRetrCount := dataRetrCount - 1;
      Drain(a.drained);
    }

    /** ForwardUp up to the state's own handler. */
    method Dispatch(p: Packet, inWindow: bool, a: Answers)
      modifies this
      ensures View() == Lifecycle.Receive(old(View()), p, inWindow, a)
    {
      hide Lifecycle.ProcessEstablished, Lifecycle.ProcessSynSent, Lifecycle.ProcessSynRcvd, Lifecycle.ProcessWait,
           Lifecycle.ProcessClosing, Lifecycle.ProcessLastAck;
      if !endPoint || (p.size > 0 && OutOfRange(state, rx, p.seqNo, p.seqNo + p.size)) {
        return;
      }
      match state {
        case Established => ProcessEstablished(p, inWindow, a);
        case SynSent => ProcessSynSent(p, a);
        case SynRcvd => ProcessSynRcvd(p, a);
        case FinWait1 | FinWait2 | CloseWait => ProcessWait(p, a);
        case Closing => ProcessClosing(p);
        case LastAck => ProcessLastAck(p, a);
        case _ =>
      }
    }

    method Retransmit(a: Answers)
      modifies this
      ensures View() == Lifecycle.ReTxTimeout(old(View()), a)
    {
      hide Lifecycle.SendFin, Lifecycle.SendSyn, Lifecycle.RetryData;
      if state == Closed || state == TimeWait {
        return;
      }
      if state == SynSent {
        SendSyn(a.now);
        return;
      }
      if a.empty {
        if state == FinWait1 || state == Closing {
          SendFin();
        }
        return;
      }
      RetryData(a);
    }

    // Events

    method ForwardUp(p: Packet, inWindow: bool, a: Answers)
      requires Valid() && halted.None?
      modifies this
      ensures Valid() && Promised(old(View()), Arrival(p, inWindow, a), View())
    {
      hide ConnInv, Lifecycle.Receive, Promised;
      StepPromised(View(), Arrival(p, inWindow, a));
      Dispatch(p, inWindow, a);
      assert Valid() by {
        PromisedValid(old(View()), Arrival(p, inWindow, a), View());
      }
    }

    method AppClose(unread: bool, pending: bool)
      requires Valid() && halted.None?
      modifies this
      ensures Valid() && Promised(old(View()), Event.AppClose(unread, pending), View())
    {
      hide ConnInv, Lifecycle.Close, Promised;
      StepPromised(View(), Event.AppClose(unread, pending));
      Close(unread, pending);
      PromisedValid(old(View()), Event.AppClose(unread, pending), View());
    }

    method AppShutdown(empty: bool)
      requires Valid() && halted.None?
      modifies this
      ensures Valid() && Promised(old(View()), Event.AppShutdown(empty), View())
    {
      hide ConnInv, Lifecycle.ShutdownSend, Promised;
      StepPromised(View(), Event.AppShutdown(empty));
      ShutdownSend(empty);
      PromisedValid(old(View()), Event.AppShutdown(empty), View());
    }

    method ShutdownRecv()
      requires Valid() && halted.None?
      modifies this
      ensures Valid() && Promised(old(View()), AppStopsReading, View())
    {
      hide ConnInv, Promised;
      StepPromised(View(), AppStopsReading);
      shutdownRecv := true;
      PromisedValid(old(View()), AppStopsReading, View());
    }

    /** Sending from the timer or the application reaches the end of the Tx buffer, or not. */
    method SendPendingData(drained: bool)
      requires Valid() && halted.None?
      modifies this
      ensures Valid() && Promised(old(View()), SendPending(drained), View())
    {
      hide ConnInv, Lifecycle.Drain, Promised;
      StepPromised(View(), SendPending(drained));
      Drain(drained);
      PromisedValid(old(View()), SendPending(drained), View());
    }

    method SynTimeout(now: nat)
      requires Valid() && halted.None?
      modifies this
      ensures Valid() && Promised(old(View()), SynTimer(now), View())
    {
      hide ConnInv, Lifecycle.SendSyn, Promised;
      StepPromised(View(), SynTimer(now));
      SendSyn(now);
      PromisedValid(old(View()), SynTimer(now), View());
    }

    method FinTimeout()
      requires Valid() && halted.None?
      modifies this
      ensures Valid() && Promised(old(View()), FinTimer, View())
    {
      hide ConnInv, Lifecycle.SendFin, Promised;
      StepPromised(View(), FinTimer);
      SendFin();
      PromisedValid(old(View()), FinTimer, View());
    }

    method ReTxTimeout(a: Answers)
      requires Valid() && halted.None?
      modifies this
      ensures Valid() && Promised(old(View()), DataTimer(a), View())
    {
      hide ConnInv, Lifecycle.ReTxTimeout, Promised;
      StepPromised(View(), DataTimer(a));
      if dataTimer {
        Retransmit(a);
      }
      PromisedValid(old(View()), DataTimer(a), View());
    }

    method LastAckTimeout()
      requires Valid() && halted.None?
      modifies this
      ensures Valid() && Promised(old(View()), LastAckTimer, View())
    {
      hide ConnInv, Lifecycle.LastAckTimeout, Promised;
      StepPromised(View(), LastAckTimer);
      RetryFin();
      PromisedValid(old(View()), LastAckTimer, View());
    }

    method TimeWaitTimeout()
      requires Valid() && halted.None?
      modifies this
      ensures Valid() && Promised(old(View()), TimeWaitTimer, View())
    {
      hide ConnInv, Lifecycle.CloseAndNotify, Promised;
      StepPromised(View(), TimeWaitTimer);
      if state == TimeWait {
        CloseAndNotify();
      }
      PromisedValid(old(View()), TimeWaitTimer, View());
    }
  }

  lemma PromisedValid(before: Conn, e: Event, after: Conn)
    requires Promised(before, e, after)
    ensures ConnInv(after)
  {
  }
}
