/** What a connection makes of a packet beyond its state: which packets it drops, when a FIN leaves again, and whom it
    tells. */
module LifecycleReplies {
  import opened TcpTypes
  import opened Lifecycle
  import opened LifecycleFrames
  import opened LifecycleInvariants
  import opened LifecycleTheorems
  import opened LifecycleOrder
  import opened LifecycleTransitions
  import Connect

  // Packets out of range

  predicate Receivable(rx: Rx, q: nat) {
    rx.next <= q < rx.max
  }

  /** Empty, or with a receivable number from its first byte to the one behind its last; the states that await nothing more
      ask for a packet that starts at RCV.NXT, the handshake for nothing. */
  ghost predicate Reaches(c: Conn, p: Packet) {
    match c.state
    case Listen | SynSent | SynRcvd => true
    case LastAck | Closing | CloseWait => p.size == 0 || p.seqNo == c.rx.next
    case _ => p.size == 0 || exists q: nat :: Receivable(c.rx, q) && p.seqNo <= q <= p.seqNo + p.size
  }

  /** A packet that does not reach the connection changes nothing; an illegal one that does closes it. */
  lemma DroppedIff(c: Conn, p: Packet, inWindow: bool, a: Answers)
    requires c.endPoint && c.halted.None? && c.state != Closed && c.rx.next < c.rx.max
    ensures
      var r := Step(c, Arrival(p, inWindow, a));
      (!Reaches(c, p) ==> r == c) && (Illegal(c.state, p, a) ==> (r.state == Closed <==> Reaches(c, p)))
  {
    hide ProcessEstablished, ProcessWait, ProcessSynSent, ProcessSynRcvd, ProcessClosing, ProcessLastAck, Illegal;
    ReachesIff(c, p);
    if Reaches(c, p) && Illegal(c.state, p, a) {
      IllegalCloses(c, p, inWindow, a);
    }
  }

  lemma ReachesIff(c: Conn, p: Packet)
    requires c.rx.next < c.rx.max
    ensures Reaches(c, p) <==> p.size == 0 || !OutOfRange(c.state, c.rx, p.seqNo, p.seqNo + p.size)
  {
    if p.seqNo < c.rx.max && c.rx.next <= p.seqNo + p.size {
      assert Receivable(c.rx, Max(c.rx.next, p.seqNo));
    }
  }

  lemma IllegalCloses(c: Conn, p: Packet, inWindow: bool, a: Answers)
    requires Arrives(c, p) && Illegal(c.state, p, a)
    ensures Step(c, Arrival(p, inWindow, a)).state == Closed
  {
    hide CloseAndNotify;
    assert c.state != Closed;
    Downed(c);
    Downed(SendRst(c));
  }

  // FINs that leave again

  /** When an event other than a packet sends a FIN. */
  predicate SendsFin(c: Conn, e: Event) {
    match e
    case AppClose(unread, pending) =>
      !unread && !pending && (c.state == SynRcvd || c.state == Established || c.state == CloseWait)
    case AppShutdown(empty) => empty && (c.state == Established || c.state == CloseWait)
    case SendPending(drained) => drained && c.closeOnEmpty && !Opening(c.state)
    case FinTimer => true
    case DataTimer(a) =>
      && c.dataTimer && c.state != TimeWait
      && if a.empty then c.state == FinWait1 || c.state == Closing
         else 0 < c.dataRetrCount && a.drained && c.closeOnEmpty && !Opening(c.state)
    case LastAckTimer => c.state == LastAck && 0 < c.dataRetrCount
    case _ => false
  }

  /** A FIN leaves exactly with a call that finishes the sending direction, with the last data when a close is pending, and
      again with each of its timers; always once. */
  lemma FinLeavesIff(c: Conn, e: Event)
    requires c.halted.None? && !e.Arrival?
    ensures Step(c, e).fins == c.fins + if c.endPoint && SendsFin(c, e) then 1 else 0
  {
    hide Step, SendsFin;
    if e.AppClose? || e.AppShutdown? || e.AppStopsReading? || e.SendPending? {
      CallFins(c, e);
    } else {
      TimerFins(c, e);
    }
  }

  lemma CallFins(c: Conn, e: Event)
    requires c.halted.None? && (e.AppClose? || e.AppShutdown? || e.AppStopsReading? || e.SendPending?)
    ensures Step(c, e).fins == c.fins + if c.endPoint && SendsFin(c, e) then 1 else 0
  {
    hide Close, ShutdownSend, Drain, Opening;
    match e
    case AppClose(unread, pending) => CloseFins(c, unread, pending);
    case AppShutdown(empty) => ShutdownFins(c, empty);
    case SendPending(drained) => DrainFins(c, drained);
    case _ =>
  }

  lemma TimerFins(c: Conn, e: Event)
    requires c.halted.None? && (e.SynTimer? || e.FinTimer? || e.DataTimer? || e.LastAckTimer? || e.TimeWaitTimer?)
    ensures Step(c, e).fins == c.fins + if c.endPoint && SendsFin(c, e) then 1 else 0
  {
    hide SendSyn, SendFin, CloseAndNotify, ReTxTimeout, LastAckTimeout, Opening;
    match e
    case SynTimer(now) => AnotherSyn(c, now);
    case FinTimer => SentFin(c);
    case DataTimer(a) => TimeoutFins(c, a);
    case LastAckTimer => LastAckFins(c);
    case TimeWaitTimer => ClosedDown(c);
  }

  /** A call that sends the FIN first. */
  lemma FinishFins(c: Conn, state: State)
    ensures Enter(SendFin(c), state).fins == if c.endPoint then c.fins + 1 else c.fins
  {
    hide SendFin;
    SentFin(c);
  }

  lemma AbortFins(c: Conn)
    ensures SendRst(c).fins == CloseAndNotify(SendRst(c)).fins == CloseAndNotify(c).fins == c.fins
  {
    hide CloseAndNotify;
    ClosedDown(c);
    ClosedDown(SendRst(c));
  }

  lemma CloseFins(c: Conn, unread: bool, pending: bool)
    ensures Close(c, unread, pending).fins == c.fins + if c.endPoint && SendsFin(c, AppClose(unread, pending)) then 1 else 0
  {
    hide CloseAndNotify, SendFin, SendRst, Enter;
    AbortFins(c);
    FinishFins(c, FinWait1);
    FinishFins(c, LastAck);
  }

  lemma TimeoutFins(c: Conn, a: Answers)
    ensures c.dataTimer ==> ReTxTimeout(c, a).fins == c.fins + if c.endPoint && SendsFin(c, DataTimer(a)) then 1 else 0
  {
    hide SendSyn, SendFin, RetryData;
    SentFin(c);
    AnotherSyn(c, a.now);
    RetryFins(c, a);
  }

  lemma LastAckFins(c: Conn)
    ensures LastAckTimeout(c).fins == c.fins + if c.endPoint && SendsFin(c, LastAckTimer) then 1 else 0
  {
    hide SendFin;
    if 0 < c.dataRetrCount {
      SentFin(c.(dataRetrCount := c.dataRetrCount - 1));
    }
  }

  lemma ShutdownFins(c: Conn, empty: bool)
    ensures ShutdownSend(c, empty).fins ==
            if c.endPoint && empty && (c.state == Established || c.state == CloseWait) then c.fins + 1 else c.fins
  {
    hide SendFin, Enter;
    var c1 := c.(shutdownSend := true, closeOnEmpty := true);
    SentFin(c1);
    if c.state == Established {
      Entered(SendFin(c1), FinWait1);
    } else if c.state == CloseWait {
      Entered(SendFin(c1), LastAck);
    }
  }

  lemma DrainFins(c: Conn, drained: bool)
    ensures Drain(c, drained).fins ==
            if c.endPoint && drained && c.closeOnEmpty && !Opening(c.state) then c.fins + 1 else c.fins
  {
    hide Enter;
    var c1 := c.(dataTimer := true, fins := c.fins + 1);
    if c.state == Established {
      Entered(c1, FinWait1);
    } else if c.state == CloseWait {
      Entered(c1, LastAck);
    }
  }

  lemma RetryFins(c: Conn, a: Answers)
    ensures RetryData(c, a).fins ==
            if c.endPoint && 0 < c.dataRetrCount && a.drained && c.closeOnEmpty && !Opening(c.state) then c.fins + 1
            else c.fins
  {
    hide Drain;
    if 0 < c.dataRetrCount {
      DrainFins(c.(dataRetrCount := c.dataRetrCount - 1), a.drained);
    }
  }

  /** In LAST_ACK the peer's FIN, come again without ACK, is answered with ours, and nothing else changes. */
  lemma LastAckAnswersFin(c: Conn, p: Packet, inWindow: bool, a: Answers)
    requires c.state == LastAck && Arrives(c, p) && p.flags == FIN
    ensures Step(c, Arrival(p, inWindow, a)) == c.(fins := c.fins + 1)
  {
    hide ReceivedData, CloseAndNotify;
    assert c.endPoint;
  }

  /** With a close pending a plain ACK that lets the last data leave, while it is processed or right after, finishes the
      sending direction; each time the end of the buffer leaves it carries the FIN. */
  lemma AckDrainsIff(c: Conn, p: Packet, inWindow: bool, a: Answers)
    requires (c.state == Established && inWindow) || c.state == CloseWait
    requires Arrives(c, p) && MaskEcn(p.flags) == ACK && p.size == 0
    ensures
      var r, drains := Step(c, Arrival(p, inWindow, a)), c.closeOnEmpty && (a.drainedByAck || a.drained);
      && (Goes(c, r, FinWait1) <==> drains && c.state == Established)
      && (Goes(c, r, LastAck) <==> drains && c.state == CloseWait)
      && r.fins == c.fins + if !c.closeOnEmpty then 0 else (if a.drainedByAck then 1 else 0) + if a.drained then 1 else 0
  {
    hide Drain, Acts;
    var c1 := Drain(c, a.drainedByAck);
    DrainMoves(c, a.drainedByAck);
    DrainMoves(c1, a.drained);
  }

  lemma DrainMoves(c: Conn, drained: bool)
    requires c.endPoint && !Opening(c.state)
    ensures
      var r, leaves := Drain(c, drained), drained && c.closeOnEmpty;
      var to := if c.state == Established then FinWait1 else if c.state == CloseWait then LastAck else c.state;
      && r.endPoint && r.closeOnEmpty == c.closeOnEmpty && r.halted == c.halted && r.rx == c.rx
      && r.fins == (if leaves then c.fins + 1 else c.fins) && r.state == (if leaves then to else c.state)
      && r.trail == if leaves && to != c.state then c.trail + [to] else c.trail
  {
    hide Enter;
    var c1 := c.(dataTimer := true, fins := c.fins + 1);
    if c.state == Established {
      Entered(c1, FinWait1);
    } else if c.state == CloseWait {
      Entered(c1, LastAck);
    }
  }

  // The active close

  /** A bare FIN in sequence ends FIN_WAIT_2 in TIME_WAIT and FIN_WAIT_1 in CLOSING, or in TIME_WAIT through it when our own
      FIN is acknowledged; from CLOSING an application that is still told of data, and closes, goes on to CLOSED. */
  lemma ActiveCloseIff(c: Conn, p: Packet, inWindow: bool, a: Answers)
    requires InFinWait(c.state) && Arrives(c, p) && p == Packet(FIN_ACK, c.rx.next, 0)
    ensures
      var r, acked := Step(c, Arrival(p, inWindow, a)), a.empty && a.acksFin;
      var ends := if c.state == FinWait2 then [TimeWait] else if acked then [Closing, TimeWait] else [Closing];
      var closes := ends == [Closing] && !c.shutdownRecv && ClosesAtOnce(a.onEnd);
      r.trail == c.trail + ends + if closes then [Closed] else []
  {
    hide ReceivedAck, LeaveFinWait;
    AckOfBareFin(c, p, a);
    var c1 := ReceivedAck(c, p, a);
    EndGoes(WithRx(c1, SetFin(c1.rx, p.seqNo, p.seqNo)), a);
  }

  lemma AckOfBareFin(c: Conn, p: Packet, a: Answers)
    requires InFinWait(c.state) && c.halted.None? && p.size == 0 && p.flags.ack
    ensures
      var r := ReceivedAck(c, p, a);
      && r.state == c.state && r.trail == c.trail && r.rx == c.rx && r.halted.None? && r.shutdownRecv == c.shutdownRecv
  {
    hide Drain, Acts;
    DrainStays(c, a.drainedByAck);
    DrainStays(Drain(c, a.drainedByAck), a.drained);
  }

  lemma DrainStays(c: Conn, drained: bool)
    requires InFinWait(c.state)
    ensures
      var r := Drain(c, drained);
      && r.state == c.state && r.trail == c.trail && r.rx == c.rx && r.halted == c.halted
      && r.shutdownRecv == c.shutdownRecv
  {
  }

  lemma EndGoes(c: Conn, a: Answers)
    requires InFinWait(c.state) && Finished(c.rx)
    ensures
      var r, acked := LeaveFinWait(c, a), a.empty && a.acksFin;
      var ends := if c.state == FinWait2 then [TimeWait] else if acked then [Closing, TimeWait] else [Closing];
      var closes := ends == [Closing] && !c.shutdownRecv && ClosesAtOnce(a.onEnd);
      r.trail == c.trail + ends + if closes then [Closed] else []
  {
    hide React, EnterTimeWait, Enter, Finished;
    Entered(c, Closing);
    TimeWaitEntered(c);
    TimeWaitEntered(Enter(c, Closing));
    assert c.trail + [Closing] + [TimeWait] == c.trail + [Closing, TimeWait];
    var c1 := EndFinWait(c, a);
    ReactInEnd(c1, a.onEnd);
    assert c1.trail + [] == c1.trail;
  }

  lemma ReactInEnd(c: Conn, call: Call)
    requires Ending(c.state)
    ensures
      var closes := c.state == Closing && ClosesAtOnce(call);
      React(c, call).trail == if closes then c.trail + [Closed] else c.trail
  {
    hide Close, ShutdownSend;
    CloseInEnd(c, call.unread, call.pending);
    ShutdownInEnd(c, call.empty);
  }

  lemma CloseInEnd(c: Conn, unread: bool, pending: bool)
    requires Ending(c.state)
    ensures Close(c, unread, pending).trail ==
            if c.state == Closing && !unread && !pending then c.trail + [Closed] else c.trail
  {
    hide DoClose, SendRst;
    Reset(c);
    EndCloses(c);
  }

  lemma ShutdownInEnd(c: Conn, empty: bool)
    requires Ending(c.state)
    ensures ShutdownSend(c, empty).trail == c.trail
  {
  }

  lemma EndCloses(c: Conn)
    requires Ending(c.state)
    ensures DoClose(c).trail == if c.state == Closing then c.trail + [Closed] else c.trail
  {
    hide CloseAndNotify, SendRst;
    Reset(c);
    ClosedDown(SendRst(c));
  }

  // Whom it tells

  /** Answers that differ at most in what the application does when told of data. */
  predicate Alike(a: Answers, b: Answers) {
    b == a.(onData := b.onData, onEnd := b.onEnd)
  }

  lemma SameAnswers(a: Answers, b: Answers)
    requires Alike(a, b)
    ensures a.drainedByAck == b.drainedByAck && a.drained == b.drained && a.empty == b.empty && a.acksFin == b.acksFin
  {
  }

  lemma DataUntold(c: Conn, p: Packet, a: Answers, b: Answers)
    requires c.shutdownRecv && Alike(a, b)
    ensures ReceivedData(c, p, a) == ReceivedData(c, p, b) && ReceivedData(c, p, a).shutdownRecv
  {
    hide NotifyPeerClose, Take, Finished, Acts;
    var c1 := WithRx(c, Taken(c.rx, p, a));
    PeerCloseUntold(c1, a, b);
  }

  lemma PeerCloseUntold(c: Conn, a: Answers, b: Answers)
    requires c.shutdownRecv && Alike(a, b)
    ensures DoPeerClose(c, a) == DoPeerClose(c, b) && DoPeerClose(c, a).shutdownRecv
  {
    hide Enter, React, Close;
    if PeerOpen(c.state) {
      Entered(c, CloseWait);
      NotifyActs(Enter(c, CloseWait), a);
    }
  }

  lemma HaltShut(c: Conn, f: Failure)
    ensures Halt(c, f).shutdownRecv == c.shutdownRecv
  {
  }

  lemma DrainShut(c: Conn, drained: bool)
    requires c.shutdownRecv
    ensures Drain(c, drained).shutdownRecv
  {
    hide Drain;
    DrainActs(c, drained);
  }

  lemma AckUntold(c: Conn, p: Packet, a: Answers, b: Answers)
    requires c.shutdownRecv && Alike(a, b)
    ensures ReceivedAck(c, p, a) == ReceivedAck(c, p, b) && ReceivedAck(c, p, a).shutdownRecv
  {
    hide ReceivedData, Drain, Alike, Halt;
    SameAnswers(a, b);
    HaltShut(c, NoAckFlag);
    DrainShut(c, a.drainedByAck);
    var c1 := Drain(c, a.drainedByAck);
    DataUntold(c1, p, a, b);
    DrainShut(if p.size > 0 then ReceivedData(c1, p, a) else c1, a.drained);
  }

  lemma FinUntold(c: Conn, p: Packet, a: Answers, b: Answers)
    requires c.shutdownRecv && Alike(a, b)
    ensures PeerClose(c, p, a) == PeerClose(c, p, b)
  {
    hide ReceivedData, DoPeerClose, SetFin, Finished, Enter;
    var c1 := WithRx(c, SetFin(c.rx, p.seqNo + p.size, p.seqNo + p.size));
    DataUntold(c1, p, a, b);
    var c2 := if p.size > 0 then ReceivedData(c1, p, a) else c1;
    PeerCloseUntold(c2, a, b);
  }

  lemma EndUntold(c: Conn, a: Answers, b: Answers)
    requires c.shutdownRecv && Alike(a, b)
    ensures LeaveFinWaitUnlessHalted(c, a) == LeaveFinWaitUnlessHalted(c, b)
  {
    hide React, Finished, EndFinWait;
    if InFinWait(c.state) {
      EndShut(c, a, b);
    }
  }

  lemma EndShut(c: Conn, a: Answers, b: Answers)
    requires InFinWait(c.state) && c.shutdownRecv && Alike(a, b)
    ensures EndFinWait(c, a) == EndFinWait(c, b) && EndFinWait(c, a).shutdownRecv
  {
    hide Enter, EnterTimeWait;
    Entered(c, Closing);
    TimeWaitEntered(c);
    TimeWaitEntered(Enter(c, Closing));
  }

  lemma EnteredShut(c: Conn, state: State, rx: Rx)
    ensures Enter(c, state).shutdownRecv == c.shutdownRecv && WithRx(c, rx).shutdownRecv == c.shutdownRecv
  {
  }

  lemma WaitUntold(c: Conn, p: Packet, a: Answers, b: Answers)
    requires c.shutdownRecv && Alike(a, b)
    ensures ProcessWait(c, p, a) == ProcessWait(c, p, b)
  {
    hide ReceivedAck, ReceivedData, LeaveFinWaitUnlessHalted, Enter, WithRx, SetFin, Refuse;
    DataUntold(c, p, a, b);
    AckUntold(c, p, a, b);
    EndUntold(ReceivedData(c, p, a), a, b);
    var c1 := if p.flags.ack then ReceivedAck(c, p, a) else c;
    var rx := SetFin(c1.rx, p.seqNo, p.seqNo + p.size);
    EnteredShut(c1, FinWait2, rx);
    EndUntold(c1, a, b);
    EndUntold(Enter(c1, FinWait2), a, b);
    EndUntold(WithRx(c1, rx), a, b);
  }

  lemma EstablishedUntold(c: Conn, p: Packet, inWindow: bool, a: Answers, b: Answers)
    requires c.shutdownRecv && Alike(a, b)
    ensures ProcessEstablished(c, p, inWindow, a) == ProcessEstablished(c, p, inWindow, b)
  {
    hide ReceivedAck, ReceivedData, PeerClose, Finished, Refuse;
    DataUntold(c, p, a, b);
    AckUntold(c, p, a, b);
    FinUntold(c, p, a, b);
    FinUntold(ReceivedData(c, p, a), p, a, b);
  }

  lemma OpeningUntold(c: Conn, p: Packet, a: Answers, b: Answers)
    requires c.shutdownRecv && Alike(a, b)
    ensures ProcessSynSent(c, p, a) == ProcessSynSent(c, p, b) && ProcessSynRcvd(c, p, a) == ProcessSynRcvd(c, p, b)
  {
    hide ReceivedAck, ReceivedData, PeerClose, Refuse, Enter, SendSyn, CloseAndNotify, SendRst, Drain, WithRx;
    EnteredShut(c, Established, c.rx);
    DataUntold(Enter(c, Established), p, a, b);
    AckUntold(Enter(c, Established), p, a, b);
    FinUntold(c, p, a, b);
  }

  /** After the application has stopped reading it is told of no data and of no end of data: over every packet, what it would
      do then makes no difference. */
  lemma NotToldOfData(c: Conn, p: Packet, inWindow: bool, a: Answers, b: Answers)
    requires Alike(a, b)
    ensures
      var r := Step(c, AppStopsReading);
      Step(r, Arrival(p, inWindow, a)) == Step(r, Arrival(p, inWindow, b))
  {
    hide ProcessEstablished, ProcessWait, ProcessSynSent, ProcessSynRcvd, ProcessClosing, ReceivedData, CloseAndNotify;
    var r := Step(c, AppStopsReading);
    if c.halted.None? {
      EstablishedUntold(r, p, inWindow, a, b);
      WaitUntold(r, p, a, b);
      OpeningUntold(r, p, a, b);
      DataUntold(r, p, a, b);
    }
  }
}
