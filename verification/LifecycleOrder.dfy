/** Runs whose peer numbers its FIN consistently: every state after the peer's FIN means that it arrived in sequence, and
    the assertion of DoPeerClose holds. For every other packet: exactly when that assertion fails. */
module LifecycleOrder {
  import opened TcpTypes
  import opened Lifecycle
  import opened LifecycleFrames
  import opened LifecycleInvariants
  import opened LifecycleTheorems
  import Connect

  predicate BeforeFin(state: State) {
    state == Listen || state == SynSent || PeerOpen(state)
  }

  predicate AfterFin(state: State) {
    PeerClosed(state) || Ending(state)
  }

  /** The Rx buffer while the peer's FIN is missing: NextRxSequence ends the data in order, and a FIN recorded ahead of a
      gap is recorded under its own number. */
  predicate Awaiting(rx: Rx) {
    !Finished(rx) && rx.next == rx.data && rx.fin == rx.own
  }

  ghost predicate Orderly(c: Conn) {
    && (BeforeFin(c.state) ==> Awaiting(c.rx)) && (c.state == Listen || c.state == SynSent ==> c.rx.fin.None?)
    && (AfterFin(c.state) ==> Finished(c.rx) && c.peerFin)
    && c.halted != Some(NotPeerOpen)
  }

  /** Whatever stays within the frame of the application's calls and of sending keeps the order. */
  lemma ActsOrderly(c: Conn, r: Conn)
    requires Acts(c, r) && Orderly(c)
    ensures Orderly(r)
  {
  }

  // Data before the FIN

  lemma TakenAwaiting(rx: Rx, p: Packet, a: Answers)
    requires Awaiting(rx)
    ensures
      var t := Taken(rx, p, a);
      if Completes(rx, p, a) then InSequence(t) && Finished(t) && p.seqNo < t.next else Awaiting(t)
  {
  }

  /** The peer closes an open direction. */
  lemma PeerCloses(c: Conn, a: Answers)
    requires PeerOpen(c.state)
    ensures
      var r := DoPeerClose(c, a);
      r.rx == c.rx && r.peerFin == c.peerFin && r.halted == c.halted && PeerClosed(r.state)
  {
    hide NotifyPeerClose, Enter;
    Entered(c, CloseWait);
    NotifyActs(Enter(c, CloseWait), a);
  }

  /** Data in a state open in the peer's direction. */
  lemma DataPeerOpen(c: Conn, p: Packet, a: Answers)
    requires PeerOpen(c.state) && c.halted.None?
    ensures
      var r := ReceivedData(c, p, a);
      && r.rx == Taken(c.rx, p, a) && Noted(c, r)
      && if Completes(c.rx, p, a) && !p.flags.fin then PeerClosed(r.state) else PeerOpen(r.state)
  {
    hide React, DoPeerClose, Finished, InSequence, Taken;
    TakenShape(c.rx, p, a);
    var rx := Taken(c.rx, p, a);
    if c.rx.next < rx.next {
      var c1 := WithRx(c, rx);
      ReactActs(c1, a.onData);
      PeerCloses(if c1.shutdownRecv then c1 else React(c1, a.onData), a);
    }
  }

  lemma AckPeerOpen(c: Conn, p: Packet, a: Answers)
    requires PeerOpen(c.state) && c.halted.None? && p.flags.ack
    ensures
      var r := ReceivedAck(c, p, a);
      && r.rx == Taken(c.rx, p, a) && Noted(c, r)
      && if Completes(c.rx, p, a) && !p.flags.fin then PeerClosed(r.state) else PeerOpen(r.state)
  {
    hide ReceivedData, Drain, Finished, InSequence;
    var c1 := Drain(c, a.drainedByAck);
    DrainActs(c, a.drainedByAck);
    DataPeerOpen(c1, p, a);
    var c2 := if p.size > 0 then ReceivedData(c1, p, a) else c1;
    DrainActs(c2, a.drained);
  }

  /** A FIN recorded under its own number. */
  lemma FinNumbered(rx: Rx, p: Packet)
    requires Awaiting(rx) && rx.next <= p.seqNo
    ensures
      var r := SetFin(rx, p.seqNo + p.size, p.seqNo + p.size);
      if p.size == 0 && p.seqNo == rx.next then Finished(r) && InSequence(r) else Awaiting(r)
  {
  }

  lemma BareFinRecorded(c: Conn, p: Packet)
    requires Awaiting(c.rx) && c.rx.next <= p.seqNo && p.size == 0
    ensures
      var r := WithRx(c, SetFin(c.rx, p.seqNo + p.size, p.seqNo + p.size));
      r.state == c.state && r.halted == c.halted && if Finished(r.rx) then r.peerFin else Awaiting(r.rx)
  {
    hide SetFin, InSequence, Finished;
    FinNumbered(c.rx, p);
  }

  lemma FinDataRecorded(c: Conn, p: Packet, a: Answers)
    requires PeerOpen(c.state) && c.halted.None? && Awaiting(c.rx) && p.flags.fin
    ensures
      var r := ReceivedData(c, p, a);
      PeerOpen(r.state) && r.halted.None? && if Finished(r.rx) then r.peerFin else Awaiting(r.rx)
  {
    hide ReceivedData, Taken, InSequence;
    TakenAwaiting(c.rx, p, a);
    TakenShape(c.rx, p, a);
    DataPeerOpen(c, p, a);
  }

  /** A FIN recorded under its own number, and the data that came with it. */
  lemma FinRecorded(c: Conn, p: Packet, a: Answers)
    requires PeerOpen(c.state) && c.halted.None? && Awaiting(c.rx) && p.flags.fin && c.rx.next <= p.seqNo
    ensures
      var c1 := WithRx(c, SetFin(c.rx, p.seqNo + p.size, p.seqNo + p.size));
      var c2 := if p.size > 0 then ReceivedData(c1, p, a) else c1;
      && PeerOpen(c2.state) && c2.halted.None?
      && (if Finished(c2.rx) then c2.peerFin else Awaiting(c2.rx))
  {
    hide ReceivedData, SetFin, InSequence, Finished, Awaiting, PeerOpen;
    if p.size > 0 {
      FinNumbered(c.rx, p);
      FinDataRecorded(WithRx(c, SetFin(c.rx, p.seqNo + p.size, p.seqNo + p.size)), p, a);
    } else {
      BareFinRecorded(c, p);
    }
  }

  lemma OpenAwaits(c: Conn)
    requires PeerOpen(c.state) && c.halted.None? && Awaiting(c.rx)
    ensures Orderly(c)
  {
  }

  /** A segment taken for a FIN by PeerClose is recorded under its own number, so all that follows is in order. */
  lemma PeerCloseOrderly(c: Conn, p: Packet, a: Answers)
    requires PeerOpen(c.state) && c.halted.None? && Awaiting(c.rx) && p.flags.fin
    ensures Orderly(PeerClose(c, p, a))
  {
    hide ReceivedData, DoPeerClose, Enter, SetFin, WithRx, PeerOpen, Awaiting, Finished, Orderly;
    OpenAwaits(c);
    if c.rx.next <= p.seqNo <= c.rx.max {
      FinRecorded(c, p, a);
      var c1 := WithRx(c, SetFin(c.rx, p.seqNo + p.size, p.seqNo + p.size));
      var c2 := if p.size > 0 then ReceivedData(c1, p, a) else c1;
      if Finished(c2.rx) {
        FinFound(c2, a);
      } else {
        OpenAwaits(c2);
      }
    }
  }

  lemma FinFound(c: Conn, a: Answers)
    requires PeerOpen(c.state) && Finished(c.rx) && c.peerFin && c.halted.None?
    ensures Orderly(Enter(c, Closing)) && Orderly(DoPeerClose(c, a))
  {
    hide DoPeerClose, Enter;
    Entered(c, Closing);
    PeerCloses(c, a);
  }

  lemma RefuseOrderly(c: Conn, p: Packet)
    requires c.halted.None?
    ensures Orderly(Refuse(c, p)) && Orderly(CloseAndNotify(c)) && Orderly(CloseAndNotify(SendRst(c)))
  {
    hide CloseAndNotify;
    ClosedDown(c);
    ClosedDown(SendRst(c));
  }

  lemma DataOrderly(c: Conn, p: Packet, a: Answers)
    requires PeerOpen(c.state) && c.halted.None? && Awaiting(c.rx) && !p.flags.fin
    ensures Orderly(ReceivedData(c, p, a)) && (p.flags.ack ==> Orderly(ReceivedAck(c, p, a)))
    ensures Finished(ReceivedData(c, p, a).rx) ==> p.seqNo < ReceivedData(c, p, a).rx.next
  {
    hide ReceivedData, ReceivedAck, Taken;
    TakenAwaiting(c.rx, p, a);
    TakenShape(c.rx, p, a);
    DataPeerOpen(c, p, a);
    if p.flags.ack {
      AckPeerOpen(c, p, a);
    }
  }

  lemma EstablishedOrderly(c: Conn, p: Packet, inWindow: bool, a: Answers)
    requires Orderly(c) && c.state == Established && c.halted.None?
    ensures Orderly(ProcessEstablished(c, p, inWindow, a))
  {
    hide ReceivedAck, PeerClose, ReceivedData, Refuse, Orderly;
    assert Awaiting(c.rx) by {
      AwaitsFin(c);
    }
    var f := MaskEcn(p.flags);
    if f == ACK || f == NONE {
      DataOrderly(c, p, a);
      if f == NONE {
        OldPeerClose(ReceivedData(c, p, a), p, a);
      }
    } else if f == FIN || f == FIN_ACK {
      PeerCloseOrderly(c, p, a);
    } else {
      RefuseOrderly(c, p);
    }
  }

  lemma AwaitsFin(c: Conn)
    requires Orderly(c) && BeforeFin(c.state)
    ensures Awaiting(c.rx)
  {
  }

  lemma OldPeerClose(c: Conn, p: Packet, a: Answers)
    ensures p.seqNo < c.rx.next ==> PeerClose(c, p, a) == c
  {
    hide ReceivedData, DoPeerClose;
  }

  // What a peer that numbers its FIN consistently sends

  /** The segments whose numbers matter: a SYN repeated in SYN_RCVD carries the number it had; a FIN taken in a FIN_WAIT
      state ends where the data in order ends, or stands alone when it comes ahead of a gap; a FIN repeated in CLOSE_WAIT
      is not numbered past NextRxSequence. */
  predicate Consistent(c: Conn, p: Packet, a: Answers) {
    if c.state == SynRcvd && MaskEcn(p.flags) == SYN then p.seqNo + 1 == c.rx.next
    else if InFinWait(c.state) && FinSegment(p) then
      (if p.seqNo <= c.rx.next then p.seqNo + p.size == Taken(c.rx, p, a).data else p.size == 0)
    else if c.state == CloseWait && FinSegment(p) then p.seqNo <= c.rx.next
    else true
  }

  /** Before any FIN, at whatever number the peer starts. */
  lemma StartOrderly(c: Conn, state: State, next: nat)
    requires Orderly(c) && c.rx.fin.None? && c.state == SynSent && (state == Established || state == SynRcvd)
    ensures
      var r := WithRx(Enter(c, state), Restarted(c.rx, next));
      Orderly(r) && Orderly(Enter(c, state)) && r.state == Enter(c, state).state == state && r.halted == c.halted
      && Enter(c, state).halted == c.halted && Enter(c, state).rx == c.rx
  {
    hide Enter;
    Entered(c, state);
  }

  lemma SynSentOrderly(c: Conn, p: Packet, a: Answers)
    requires Orderly(c) && c.state == SynSent && c.halted.None?
    ensures Orderly(ProcessSynSent(c, p, a))
  {
    hide ReceivedData, Drain, CloseAndNotify, Enter, SendSyn, WithRx;
    var rx := Restarted(c.rx, p.seqNo + 1);
    StartOrderly(c, Established, p.seqNo + 1);
    StartOrderly(c, SynRcvd, p.seqNo + 1);
    if p.flags == NONE {
      BareDataOrderly(Enter(c, Established), p, a);
    } else if p.flags.syn && !p.flags.ack {
      SendSynOrderly(WithRx(Enter(c, SynRcvd), rx), c.syn.(count := c.syn.retries), a.now);
    } else if p.flags.syn && a.acksSyn {
      DrainOrderly(WithRx(Enter(c, Established), rx), a.drained);
    } else {
      RefuseOrderly(c, p);
    }
  }

  lemma BareDataOrderly(c: Conn, p: Packet, a: Answers)
    requires Orderly(c) && c.state == Established && c.halted.None? && !p.flags.fin
    ensures Orderly(ReceivedData(c, p, a)) && (p.flags.ack ==> Orderly(ReceivedAck(c, p, a)))
  {
    hide ReceivedData, ReceivedAck;
    DataOrderly(c, p, a);
  }

  lemma DrainOrderly(c: Conn, drained: bool)
    requires Orderly(c)
    ensures Orderly(Drain(c, drained))
  {
    hide Orderly, Drain;
    DrainActs(c, drained);
    ActsOrderly(c, Drain(c, drained));
  }

  lemma SendSynOrderly(c: Conn, syn: Connect.SynTimer, now: nat)
    requires Orderly(c)
    ensures Orderly(SendSyn(c.(syn := syn), now))
  {
    hide SendSyn;
    AnotherSyn(c.(syn := syn), now);
  }

  lemma SynRcvdOrderly(c: Conn, p: Packet, a: Answers)
    requires Orderly(c) && c.state == SynRcvd && c.halted.None? && Consistent(c, p, a)
    ensures Orderly(ProcessSynRcvd(c, p, a))
  {
    hide ReceivedAck, SendSyn, PeerClose, Refuse, Enter, Orderly;
    AwaitsFin(c);
    OpenOrderly(c);
    var f := MaskEcn(p.flags);
    if f == NONE {
      BareDataHalts(Enter(c, Established), p, a);
      HaltOrderly(Enter(c, Established), NoAckFlag);
    } else if f == ACK && a.acksSyn {
      BareDataOrderly(Enter(c, Established), p, a);
    } else if f == SYN {
      RepeatedSyn(c, p, a);
    } else if f == FIN_ACK {
      PeerCloseOrderly(c, p, a);
    } else {
      RefuseOrderly(c, p);
    }
  }

  lemma OpenOrderly(c: Conn)
    requires Orderly(c) && c.state == SynRcvd
    ensures
      var r := Enter(c, Established);
      Orderly(r) && r.state == Established && r.halted == c.halted
  {
    hide Enter;
    Entered(c, Established);
  }

  lemma HaltOrderly(c: Conn, f: Failure)
    requires Orderly(c) && f != NotPeerOpen
    ensures Orderly(Halt(c, f))
  {
  }

  lemma RepeatedSyn(c: Conn, p: Packet, a: Answers)
    requires Orderly(c) && c.state == SynRcvd && p.seqNo + 1 == c.rx.next
    ensures Orderly(SendSyn(WithRx(c, Restarted(c.rx, p.seqNo + 1)), a.now))
  {
    hide SendSyn;
    AnotherSyn(WithRx(c, Restarted(c.rx, p.seqNo + 1)), a.now);
  }

  lemma BareDataHalts(c: Conn, p: Packet, a: Answers)
    requires !p.flags.ack
    ensures ReceivedAck(c, p, a) == Halt(c, NoAckFlag)
  {
  }

  lemma FinWaitOrderly(c: Conn, p: Packet, a: Answers)
    requires Orderly(c) && InFinWait(c.state) && c.halted.None? && Consistent(c, p, a)
    ensures Orderly(ProcessWait(c, p, a))
  {
    hide ProcessWait, Taken;
    TakenShape(c.rx, p, a);
    TakenAwaiting(c.rx, p, a);
    if p.size > 0 && !p.flags.ack {
      WaitDataShape(c, p, a);
    } else if MaskEcn(p.flags) == ACK {
      WaitAckShape(c, p, a);
    } else if FinSegment(p) {
      WaitFinShape(c, p, a);
    } else {
      WaitOtherShape(c, p, a);
    }
  }

  /** After the FIN nothing more is taken. */
  lemma NothingAfterFin(c: Conn, p: Packet, a: Answers)
    requires Finished(c.rx)
    ensures ReceivedData(c, p, a) == c
  {
    hide React, DoPeerClose;
    TakenShape(c.rx, p, a);
  }

  lemma AckAfterFin(c: Conn, p: Packet, a: Answers)
    requires PeerClosed(c.state) && Finished(c.rx) && p.flags.ack && c.halted.None?
    ensures Acts(c, ReceivedAck(c, p, a))
  {
    hide ReceivedData, Drain, Finished;
    var c1 := Drain(c, a.drainedByAck);
    DrainActs(c, a.drainedByAck);
    NothingAfterFin(c1, p, a);
    DrainActs(c1, a.drained);
    ActsTwice(c, c1, Drain(c1, a.drained));
  }

  lemma CloseWaitOrderly(c: Conn, p: Packet, a: Answers)
    requires Orderly(c) && c.state == CloseWait && c.halted.None? && Consistent(c, p, a)
    ensures Orderly(ProcessWait(c, p, a))
  {
    hide ReceivedAck, ReceivedData, LeaveFinWaitUnlessHalted, Refuse, SetFin, WithRx, Orderly;
    CloseWaitFinished(c);
    NothingAfterFin(c, p, a);
    RefuseOrderly(c, p);
    LeaveWithoutEnd(c, a);
    if p.flags.ack {
      CloseWaitAck(c, p, a);
    }
    if FinSegment(p) {
      SecondFinOrderly(c, p, a);
      if p.flags.ack {
        SecondFinOrderly(ReceivedAck(c, p, a), p, a);
      }
    }
  }

  lemma CloseWaitFinished(c: Conn)
    requires Orderly(c) && PeerClosed(c.state)
    ensures Finished(c.rx)
  {
  }

  lemma CloseWaitAck(c: Conn, p: Packet, a: Answers)
    requires Orderly(c) && c.state == CloseWait && c.halted.None? && p.flags.ack
    ensures
      var r := ReceivedAck(c, p, a);
      Orderly(r) && PeerClosed(r.state) && r.halted.None? && r.rx == c.rx && LeaveFinWaitUnlessHalted(r, a) == r
  {
    hide ReceivedAck, LeaveFinWaitUnlessHalted;
    AckAfterFin(c, p, a);
    LeaveWithoutEnd(ReceivedAck(c, p, a), a);
  }

  lemma SecondFinOrderly(c: Conn, p: Packet, a: Answers)
    requires Orderly(c) && PeerClosed(c.state) && c.halted.None? && p.seqNo <= c.rx.next
    ensures Orderly(LeaveFinWaitUnlessHalted(WithRx(c, SetFin(c.rx, p.seqNo, p.seqNo + p.size)), a))
  {
    hide LeaveFinWaitUnlessHalted;
    LeaveWithoutEnd(WithRx(c, SetFin(c.rx, p.seqNo, p.seqNo + p.size)), a);
  }

  lemma ClosingOrderly(c: Conn, p: Packet)
    requires Orderly(c) && c.halted.None? && c.state == Closing
    ensures Orderly(ProcessClosing(c, p))
  {
    hide EnterTimeWait, CloseAndNotify, SendRst, Orderly;
    RefuseOrderly(c, p);
    EndingOrderly(c);
  }

  lemma EndingOrderly(c: Conn)
    requires Orderly(c) && c.state == Closing
    ensures Orderly(EnterTimeWait(c))
  {
    hide Enter;
    Entered(c, TimeWait);
  }

  lemma FinishingOrderly(c: Conn, p: Packet, a: Answers)
    requires Orderly(c) && c.halted.None? && c.state == LastAck
    ensures Orderly(ProcessLastAck(c, p, a))
  {
    hide ReceivedData, CloseAndNotify, SendFin, SendRst, Orderly;
    RefuseOrderly(c, p);
    SendFinOrderly(c);
    CloseWaitFinished(c);
    NothingAfterFin(c, p, a);
  }

  lemma ArrivalOrderly(c: Conn, p: Packet, inWindow: bool, a: Answers)
    requires Orderly(c) && c.halted.None? && Consistent(c, p, a)
    ensures Orderly(Receive(c, p, inWindow, a))
  {
    hide Orderly, Consistent, ProcessEstablished, ProcessSynSent, ProcessSynRcvd, ProcessWait, ProcessClosing,
         ProcessLastAck;
    match c.state
    case Established => EstablishedOrderly(c, p, inWindow, a);
    case SynSent => SynSentOrderly(c, p, a);
    case SynRcvd => SynRcvdOrderly(c, p, a);
    case FinWait1 | FinWait2 => FinWaitOrderly(c, p, a);
    case CloseWait => CloseWaitOrderly(c, p, a);
    case Closing => ClosingOrderly(c, p);
    case LastAck => FinishingOrderly(c, p, a);
    case _ =>
  }

  lemma TimerOrderly(c: Conn, a: Answers)
    requires Orderly(c)
    ensures Orderly(ReTxTimeout(c, a))
  {
    hide Orderly, SendSyn, SendFin, RetryData, Halt;
    SendSynOrderly(c, c.syn, a.now);
    assert c.(syn := c.syn) == c;
    SendFinOrderly(c);
    RetryOrderly(c, a);
  }

  lemma SendFinOrderly(c: Conn)
    requires Orderly(c)
    ensures Orderly(SendFin(c))
  {
  }

  lemma RetryOrderly(c: Conn, a: Answers)
    requires Orderly(c)
    ensures Orderly(RetryData(c, a))
  {
    hide Drain;
    if 0 < c.dataRetrCount {
      DrainOrderly(c.(dataRetrCount := c.dataRetrCount - 1), a.drained);
    }
  }

  ghost predicate ConsistentEvent(c: Conn, e: Event) {
    e.Arrival? ==> Consistent(c, e.packet, e.answers)
  }

  lemma StepOrderly(c: Conn, e: Event)
    requires Orderly(c) && ConsistentEvent(c, e)
    ensures Orderly(Step(c, e))
  {
    hide Orderly, Receive, Close, ShutdownSend, Drain, SendSyn, SendFin, ReTxTimeout, LastAckTimeout, CloseAndNotify;
    if c.halted.None? {
      match e
      case Arrival(p, inWindow, a) => ArrivalOrderly(c, p, inWindow, a);
      case DataTimer(a) => TimerOrderly(c, a);
      case LastAckTimer => LastAckOrderly(c);
      case TimeWaitTimer => TimeWaitOrderly(c);
      case _ => SideStepOrderly(c, e);
    }
  }

  lemma LastAckOrderly(c: Conn)
    requires Orderly(c)
    ensures Orderly(LastAckTimeout(c))
  {
    hide SendFin;
    if 0 < c.dataRetrCount {
      SentFin(c.(dataRetrCount := c.dataRetrCount - 1));
    }
  }

  lemma TimeWaitOrderly(c: Conn)
    requires Orderly(c)
    ensures Orderly(CloseAndNotify(c))
  {
    hide CloseAndNotify;
    ClosedDown(c);
  }

  lemma SideStepOrderly(c: Conn, e: Event)
    requires Orderly(c) && c.halted.None?
    requires !e.Arrival? && !e.DataTimer? && !e.LastAckTimer? && !e.TimeWaitTimer?
    ensures Orderly(Step(c, e))
  {
    hide Close, ShutdownSend, ShutdownRecv, Drain, SendSyn, SendFin, Orderly, Acts;
    if e.SynTimer? {
      SendSynOrderly(c, c.syn, e.now);
      assert c.(syn := c.syn) == c;
    } else if e.FinTimer? {
      SendFinOrderly(c);
    } else {
      AppStepActs(c, e);
      ActsOrderly(c, Step(c, e));
    }
  }

  lemma AppStepActs(c: Conn, e: Event)
    requires c.halted.None? && (e.AppClose? || e.AppShutdown? || e.AppStopsReading? || e.SendPending?)
    ensures Acts(c, Step(c, e))
  {
    hide Close, ShutdownSend, ShutdownRecv, Drain, Acts;
    match e
    case AppClose(unread, pending) => CloseActs(c, unread, pending);
    case AppShutdown(empty) => ShutdownActs(c, empty);
    case SendPending(drained) => DrainActs(c, drained);
    case _ => ActsNot(c);
  }

  ghost predicate ConsistentRun(c: Conn, es: seq<Event>) {
    es == [] || (ConsistentRun(c, es[..|es| - 1]) && ConsistentEvent(Run(c, es[..|es| - 1]), es[|es| - 1]))
  }

  lemma {:induction false} RunOrderly(c: Conn, es: seq<Event>)
    requires Newborn(c) && ConsistentRun(c, es)
    ensures Orderly(Run(c, es))
  {
    if es != [] {
      RunOrderly(c, es[..|es| - 1]);
      StepOrderly(Run(c, es[..|es| - 1]), es[|es| - 1]);
    }
  }

  /** In every life whose peer numbers its FIN consistently, CLOSE_WAIT, LAST_ACK, CLOSING and TIME_WAIT mean that the
      peer's FIN arrived with all the data before it and none after it, and the assertion of DoPeerClose never fails. */
  lemma LateStatesSawFin(c: Conn, es: seq<Event>)
    requires Newborn(c) && ConsistentRun(c, es)
    ensures
      var r := Run(c, es);
      && (r.state == CloseWait || r.state == LastAck || r.state == Closing || r.state == TimeWait ==> r.peerFin)
      && r.halted != Some(NotPeerOpen)
  {
    hide Run, ConsistentRun;
    RunOrderly(c, es);
  }

  // When the assertion fails

  /** Bare data in ESTABLISHED is offered to PeerClose too when a FIN is already complete, which only a SYN repeated under
      another number brings about; it then closes the peer's direction twice. */
  predicate ClosesTwice(c: Conn, p: Packet, a: Answers) {
    && c.state == Established && MaskEcn(p.flags) == NONE && Finished(c.rx) && c.rx.next <= p.seqNo <= c.rx.max
    && Completes(SetFin(c.rx, p.seqNo + p.size, p.seqNo + p.size), p, a)
  }

  lemma EstablishedHaltIff(c: Conn, p: Packet, inWindow: bool, a: Answers)
    requires c.state == Established && c.halted.None?
    ensures
      var r := ProcessEstablished(c, p, inWindow, a);
      (r.halted == Some(NotPeerOpen) <==> ClosesTwice(c, p, a)) && r.halted != Some(NoAckFlag)
  {
    hide ReceivedAck, PeerClose, ReceivedData, Refuse, ClosesTwice;
    RefuseHolds(c, p);
    NotTwice(c, p, a);
    if p.flags.fin {
      PeerCloseHolds(c, p, a);
    }
    if p.flags.ack {
      AckPeerOpen(c, p, a);
    }
    if MaskEcn(p.flags) == NONE {
      BareDataIff(c, p, a);
    }
  }

  lemma NotTwice(c: Conn, p: Packet, a: Answers)
    ensures MaskEcn(p.flags) != NONE ==> !ClosesTwice(c, p, a)
  {
  }

  lemma BareDataIff(c: Conn, p: Packet, a: Answers)
    requires c.state == Established && c.halted.None? && MaskEcn(p.flags) == NONE
    ensures
      var c1 := ReceivedData(c, p, a);
      var r := if c1.halted.None? && Finished(c1.rx) then PeerClose(c1, p, a) else c1;
      (r.halted == Some(NotPeerOpen) <==> ClosesTwice(c, p, a)) && r.halted != Some(NoAckFlag)
  {
    hide PeerClose, ReceivedData, Taken;
    TakenShape(c.rx, p, a);
    CompletingIsBelow(c.rx, p, a);
    DataPeerOpen(c, p, a);
    OldPeerClose(ReceivedData(c, p, a), p, a);
    if Finished(c.rx) {
      NothingAfterFin(c, p, a);
      SecondCloseIff(c, p, a);
    }
  }

  lemma SecondCloseIff(c: Conn, p: Packet, a: Answers)
    requires c.state == Established && c.halted.None? && MaskEcn(p.flags) == NONE && Finished(c.rx)
    ensures
      var r := PeerClose(c, p, a);
      (r.halted == Some(NotPeerOpen) <==> ClosesTwice(c, p, a)) && r.halted != Some(NoAckFlag)
  {
    hide ReceivedData, NotifyPeerClose, Enter, Taken;
    var rx := SetFin(c.rx, p.seqNo + p.size, p.seqNo + p.size);
    var c1 := WithRx(c, rx);
    DataPeerOpen(c1, p, a);
    TakenShape(rx, p, a);
    if p.size == 0 {
      NothingTaken(rx, p, a);
    }
    var c2 := if p.size > 0 then ReceivedData(c1, p, a) else c1;
    if PeerOpen(c2.state) {
      OpenCloses(c2, a);
    }
  }

  lemma CompletingIsBelow(rx: Rx, p: Packet, a: Answers)
    ensures rx.next < Taken(rx, p, a).next ==> p.seqNo < Taken(rx, p, a).next
  {
  }

  lemma PeerCloseHolds(c: Conn, p: Packet, a: Answers)
    requires PeerOpen(c.state) && c.halted.None? && p.flags.fin
    ensures PeerClose(c, p, a).halted.None?
  {
    hide ReceivedData, DoPeerClose, Enter, Taken, Finished;
    if c.rx.next <= p.seqNo <= c.rx.max {
      var c1 := WithRx(c, SetFin(c.rx, p.seqNo + p.size, p.seqNo + p.size));
      DataPeerOpen(c1, p, a);
      OpenCloses(if p.size > 0 then ReceivedData(c1, p, a) else c1, a);
    }
  }

  lemma OpenCloses(c: Conn, a: Answers)
    requires PeerOpen(c.state) && c.halted.None?
    ensures DoPeerClose(c, a).halted.None? && Enter(c, Closing).halted.None?
  {
    hide DoPeerClose, Enter;
    Entered(c, Closing);
    PeerCloses(c, a);
  }

  lemma RefuseHolds(c: Conn, p: Packet)
    ensures Refuse(c, p).halted == c.halted
    ensures CloseAndNotify(c).halted == CloseAndNotify(SendRst(c)).halted == c.halted
  {
    hide CloseAndNotify;
    ClosedDown(c);
    ClosedDown(SendRst(c));
  }

  lemma SynSentHolds(c: Conn, p: Packet, a: Answers)
    requires c.halted.None? && c.state == SynSent
    ensures ProcessSynSent(c, p, a).halted.None?
  {
    hide ReceivedData, Drain, SendSyn, CloseAndNotify, Enter, WithRx;
    OpeningSides(c, p, a);
    OpenedHolds(c, p, a);
  }

  /** The packet that takes a connection to ESTABLISHED is handled there. */
  lemma OpenedHolds(c: Conn, p: Packet, a: Answers)
    requires c.halted.None? && (c.state == SynSent || c.state == SynRcvd)
    ensures
      var e := Enter(c, Established);
      ReceivedData(e, p, a).halted.None? && ReceivedAck(e, p, a).halted == if p.flags.ack then None else Some(NoAckFlag)
  {
    hide ReceivedData, ReceivedAck, Enter, Taken;
    Entered(c, Established);
    var e := Enter(c, Established);
    DataPeerOpen(e, p, a);
    if p.flags.ack {
      AckPeerOpen(e, p, a);
    } else {
      BareDataHalts(e, p, a);
    }
  }

  /** Bare data completes the handshake and is then processed as an ACK. */
  lemma SynRcvdHaltIff(c: Conn, p: Packet, a: Answers)
    requires c.halted.None? && c.state == SynRcvd
    ensures
      var r := ProcessSynRcvd(c, p, a);
      r.halted != Some(NotPeerOpen) && (r.halted == Some(NoAckFlag) <==> MaskEcn(p.flags) == NONE)
  {
    hide ReceivedAck, SendSyn, PeerClose, Refuse, Enter, WithRx;
    OpeningSides(c, p, a);
    OpenedHolds(c, p, a);
    RefuseHolds(c, p);
    if p.flags.fin {
      PeerCloseHolds(c, p, a);
    }
  }

  lemma OpeningSides(c: Conn, p: Packet, a: Answers)
    requires c.halted.None? && (c.state == SynSent || c.state == SynRcvd)
    ensures
      var rx := Restarted(c.rx, p.seqNo + 1);
      && SendSyn(WithRx(c, rx), a.now).halted.None?
      && SendSyn(WithRx(Enter(c, SynRcvd), rx).(syn := c.syn.(count := c.syn.retries)), a.now).halted.None?
      && Drain(WithRx(Enter(c, Established), rx), a.drained).halted.None?
      && CloseAndNotify(c).halted.None? && CloseAndNotify(SendRst(c)).halted.None?
  {
    hide SendSyn, Drain, CloseAndNotify, SendRst, WithRx, Enter;
    var rx := Restarted(c.rx, p.seqNo + 1);
    RxSide(c, rx);
    SendHolds(WithRx(c, rx), a);
    StartHolds(c, SynRcvd, rx);
    SendHolds(WithRx(Enter(c, SynRcvd), rx).(syn := c.syn.(count := c.syn.retries)), a);
    StartHolds(c, Established, rx);
    SendHolds(WithRx(Enter(c, Established), rx), a);
    RefuseHolds(c, p);
  }

  lemma StartHolds(c: Conn, state: State, rx: Rx)
    ensures WithRx(Enter(c, state), rx).halted == c.halted
  {
  }

  lemma SendHolds(c: Conn, a: Answers)
    ensures SendSyn(c, a.now).halted == Drain(c, a.drained).halted == c.halted
  {
    hide SendSyn, Drain;
    AnotherSyn(c, a.now);
    DrainActs(c, a.drained);
  }

  /** Data in CLOSE_WAIT or LAST_ACK. */
  lemma DataPeerClosed(c: Conn, p: Packet, a: Answers)
    requires PeerClosed(c.state) && c.halted.None?
    ensures
      var r := ReceivedData(c, p, a);
      && PeerClosed(r.state) && (r.halted.Some? ==> r.halted == Some(NotPeerOpen))
      && (r.halted.Some? <==> Completes(c.rx, p, a) && !p.flags.fin)
  {
    hide React, Taken, Finished, DoPeerClose, WithRx;
    ClosedReacts(c, Taken(c.rx, p, a), a);
  }

  /** The assertion fails when the peer closes a direction already closed. */
  lemma ClosedReacts(c: Conn, rx: Rx, a: Answers)
    requires PeerClosed(c.state)
    ensures
      var c1 := WithRx(c, rx);
      var c2 := if c1.shutdownRecv then c1 else React(c1, a.onData);
      && PeerClosed(c2.state) && c2.halted == c.halted
      && PeerClosed(DoPeerClose(c2, a).state) && DoPeerClose(c2, a).halted == Some(NotPeerOpen)
  {
    hide React, DoPeerClose, WithRx;
    RxSide(c, rx);
    var c1 := WithRx(c, rx);
    ReactClosed(c1, a.onData);
    ClosedAgain(c1, a);
    ClosedAgain(React(c1, a.onData), a);
  }

  lemma RxSide(c: Conn, rx: Rx)
    ensures WithRx(c, rx).state == c.state && WithRx(c, rx).halted == c.halted
  {
  }

  lemma ReactClosed(c: Conn, call: Call)
    requires PeerClosed(c.state)
    ensures PeerClosed(React(c, call).state) && React(c, call).halted == c.halted
  {
    hide React;
    ReactActs(c, call);
  }

  lemma ClosedAgain(c: Conn, a: Answers)
    requires PeerClosed(c.state)
    ensures DoPeerClose(c, a) == Halt(c, NotPeerOpen)
  {
  }

  lemma AckPeerClosed(c: Conn, p: Packet, a: Answers)
    requires PeerClosed(c.state) && c.halted.None? && p.flags.ack
    ensures
      var r := ReceivedAck(c, p, a);
      && PeerClosed(r.state) && (r.halted.Some? ==> r.halted == Some(NotPeerOpen))
      && (r.halted.Some? <==> Completes(c.rx, p, a) && !p.flags.fin)
  {
    hide ReceivedData, Drain, Taken, Finished;
    DrainActs(c, a.drainedByAck);
    var c1 := Drain(c, a.drainedByAck);
    DataPeerClosed(c1, p, a);
    if p.size == 0 {
      NothingTaken(c.rx, p, a);
    }
    DrainActs(if p.size > 0 then ReceivedData(c1, p, a) else c1, a.drained);
  }

  lemma CloseWaitHaltIff(c: Conn, p: Packet, a: Answers)
    requires c.state == CloseWait && c.halted.None?
    ensures
      var r := ProcessWait(c, p, a);
      && (r.halted == Some(NotPeerOpen) <==>
            Completes(c.rx, p, a) && !p.flags.fin && (!p.flags.ack || MaskEcn(p.flags) == ACK))
      && r.halted != Some(NoAckFlag)
  {
    if p.flags.ack {
      CloseWaitAckIff(c, p, a);
    } else {
      CloseWaitDataIff(c, p, a);
    }
  }

  lemma CloseWaitAckIff(c: Conn, p: Packet, a: Answers)
    requires c.state == CloseWait && c.halted.None? && p.flags.ack
    ensures
      var r := ProcessWait(c, p, a);
      && (r.halted == Some(NotPeerOpen) <==> Completes(c.rx, p, a) && MaskEcn(p.flags) == ACK)
      && r.halted != Some(NoAckFlag)
  {
    hide ReceivedAck, LeaveFinWaitUnlessHalted, Refuse, Completes, WithRx, SetFin;
    if MaskEcn(p.flags) == ACK {
      AckPeerClosed(c, p, a);
      LeaveWithoutEnd(ReceivedAck(c, p, a), a);
    } else if MaskEcn(p.flags) == FIN_ACK {
      AckPeerClosed(c, p, a);
      FinAfter(ReceivedAck(c, p, a), p, a);
    } else {
      RefuseHolds(c, p);
    }
  }

  lemma CloseWaitDataIff(c: Conn, p: Packet, a: Answers)
    requires c.state == CloseWait && c.halted.None? && !p.flags.ack
    ensures
      var r := ProcessWait(c, p, a);
      && (r.halted == Some(NotPeerOpen) <==> Completes(c.rx, p, a) && !p.flags.fin)
      && r.halted != Some(NoAckFlag)
  {
    hide ReceivedData, LeaveFinWaitUnlessHalted, Refuse, Completes;
    RefuseHolds(c, p);
    if p.size == 0 {
      NothingCompleted(c.rx, p, a);
    }
    DataPeerClosed(c, p, a);
    LeaveWithoutEnd(ReceivedData(c, p, a), a);
    FinAfter(c, p, a);
  }

  lemma NothingCompleted(rx: Rx, p: Packet, a: Answers)
    requires p.size == 0
    ensures !Completes(rx, p, a)
  {
  }

  lemma FinAfter(c: Conn, p: Packet, a: Answers)
    requires PeerClosed(c.state)
    ensures LeaveFinWaitUnlessHalted(WithRx(c, SetFin(c.rx, p.seqNo, p.seqNo + p.size)), a).halted == c.halted
  {
    hide LeaveFinWaitUnlessHalted;
    LeaveWithoutEnd(WithRx(c, SetFin(c.rx, p.seqNo, p.seqNo + p.size)), a);
  }

  lemma LateHaltIff(c: Conn, p: Packet, a: Answers)
    requires c.halted.None?
    ensures
      var r := ProcessLastAck(c, p, a);
      c.state == LastAck ==>
        (r.halted == Some(NotPeerOpen) <==> Completes(c.rx, p, a) && p.flags == NONE) && r.halted != Some(NoAckFlag)
    ensures ProcessClosing(c, p).halted.None?
  {
    hide ReceivedData, CloseAndNotify, SendFin, Enter, Completes;
    RefuseHolds(c, p);
    SentFin(c);
    if c.state != TimeWait {
      Entered(c, TimeWait);
    } else {
      EnteredAgain(c);
    }
    if c.state == LastAck {
      DataPeerClosed(c, p, a);
    }
  }

  /** The assertion of DoPeerClose fails exactly when, in CLOSE_WAIT or LAST_ACK, data without FIN completes everything up
      to a FIN recorded anew, past the one that led there (or when ESTABLISHED closes twice). */
  lemma PeerCloseAssertionIff(c: Conn, p: Packet, inWindow: bool, a: Answers)
    requires c.endPoint && c.halted.None?
    requires p.size == 0 || !OutOfRange(c.state, c.rx, p.seqNo, p.seqNo + p.size)
    ensures
      Step(c, Arrival(p, inWindow, a)).halted == Some(NotPeerOpen) <==>
        || ClosesTwice(c, p, a)
        || (Completes(c.rx, p, a) && !p.flags.fin
            && ((c.state == CloseWait && (!p.flags.ack || MaskEcn(p.flags) == ACK))
                || (c.state == LastAck && p.flags == NONE)))
  {
    hide ProcessEstablished, ProcessSynSent, ProcessSynRcvd, ProcessWait, ProcessClosing, ProcessLastAck, Completes,
         Finished;
    match c.state
    case Established => EstablishedHaltIff(c, p, inWindow, a);
    case SynSent => SynSentHolds(c, p, a);
    case SynRcvd => SynRcvdHaltIff(c, p, a);
    case FinWait1 | FinWait2 => FinWaitHolds(c, p, a);
    case CloseWait => CloseWaitHaltIff(c, p, a);
    case Closing => LateHaltIff(c, p, a);
    case LastAck => LateHaltIff(c, p, a);
    case _ =>
  }

  /** The assertion of ReceivedAck that the ACK flag is set fails exactly for bare data in SYN_RCVD. */
  lemma AckAssertionIff(c: Conn, p: Packet, inWindow: bool, a: Answers)
    requires c.endPoint && c.halted.None?
    ensures
      Step(c, Arrival(p, inWindow, a)).halted == Some(NoAckFlag) <==> c.state == SynRcvd && MaskEcn(p.flags) == NONE
  {
    hide ProcessEstablished, ProcessSynSent, ProcessSynRcvd, ProcessWait, ProcessClosing, ProcessLastAck;
    match c.state
    case Established => EstablishedHaltIff(c, p, inWindow, a);
    case SynSent => SynSentHolds(c, p, a);
    case SynRcvd => SynRcvdHaltIff(c, p, a);
    case FinWait1 | FinWait2 => FinWaitHolds(c, p, a);
    case CloseWait => CloseWaitHaltIff(c, p, a);
    case Closing => LateHaltIff(c, p, a);
    case LastAck => LateHaltIff(c, p, a);
    case _ =>
  }

  lemma FinWaitHolds(c: Conn, p: Packet, a: Answers)
    requires InFinWait(c.state) && c.halted.None?
    ensures ProcessWait(c, p, a).halted.None?
  {
    hide ProcessWait;
    if p.size > 0 && !p.flags.ack {
      WaitDataShape(c, p, a);
    } else if MaskEcn(p.flags) == ACK {
      WaitAckShape(c, p, a);
    } else if FinSegment(p) {
      WaitFinShape(c, p, a);
    } else {
      WaitOtherShape(c, p, a);
    }
  }

  /** Two FINs under different numbers: the second, ahead of a gap in CLOSE_WAIT, makes the data that fills the gap fail the
      assertion. */
  lemma RenumberedFinFails(c: Conn, fin: Packet, data: Packet, inWindow: bool, a: Answers)
    requires c.state == CloseWait && c.endPoint && c.halted.None? && c.rx.next < fin.seqNo
    requires fin.flags == FIN_ACK && fin.size == 0 && !a.drained && !a.drainedByAck
    requires data == Packet(ACK, c.rx.next, fin.seqNo - c.rx.next) && a.taken == Some(fin.seqNo)
    ensures Step(Step(c, Arrival(fin, inWindow, a)), Arrival(data, inWindow, a)).halted == Some(NotPeerOpen)
  {
    var rx := SetFin(c.rx, fin.seqNo, fin.seqNo);
    var c1 := WithRx(c.(dataTimer := true), rx);
    assert Step(c, Arrival(fin, inWindow, a)) == c1;
    assert Completes(rx, data, a);
    hide Step;
    PeerCloseAssertionIff(c1, data, inWindow, a);
  }
}
