/** What every step of a connection's life keeps, and hence the diagram its states follow. */
module LifecycleInvariants {
  import opened TcpTypes
  import opened Lifecycle
  import opened LifecycleFrames
  import Connect

  /** The states so far follow the arrows; CLOSING and TIME_WAIT mean that our FIN left, and so does any state after a
      close while the end point exists. */
  ghost predicate ConnInv(c: Conn) {
    && LeadsTo(c.trail, c.state)
    && (c.state == Closing || c.state == TimeWait ==> c.finSent)
    && (c.endPoint && (c.state == FinWait1 || c.state == FinWait2 || c.state == LastAck) ==> c.finSent)
    && (c.dataTimer ==> c.state == Closed || !Opening(c.state))
  }

  /** What every operation promises: the invariant is kept and the trail only grows. */
  ghost predicate Follows(c: Conn, r: Conn) {
    ConnInv(r) && c.trail <= r.trail
  }

  /** While a packet is processed, a FIN_WAIT state means that the FIN was really sent. */
  ghost predicate FinKnown(c: Conn) {
    c.state == FinWait1 || c.state == FinWait2 ==> c.finSent
  }

  lemma EnterTrail(c: Conn, state: State)
    requires LeadsTo(c.trail, c.state) && (state == c.state || Arrow(c.state, state))
    ensures LeadsTo(Enter(c, state).trail, state) && c.trail <= Enter(c, state).trail
  {
  }

  lemma LeadsFurther(trail: seq<State>, from: State, to: State)
    requires LeadsTo(trail, from) && Arrow(from, to)
    ensures LeadsTo(trail + [to], to)
  {
  }

  /** A FIN sent now would leave, or no FIN_WAIT state can be entered. */
  predicate CanFinish(c: Conn) {
    c.endPoint || (c.state != SynRcvd && c.state != Established)
  }

  /** Whatever stays within the frame of the application's calls and of sending. */
  lemma ActsKeeps(c: Conn, r: Conn)
    requires ConnInv(c) && Acts(c, r)
    ensures Follows(c, r) && (CanFinish(c) && FinKnown(c) ==> FinKnown(r))
  {
    hide LeadsTo;
    if r.state != c.state {
      LeadsFurther(c.trail, c.state, r.state);
    }
  }

  lemma DrainKeeps(c: Conn, drained: bool)
    requires ConnInv(c)
    ensures Follows(c, Drain(c, drained)) && (FinKnown(c) ==> FinKnown(Drain(c, drained)))
    ensures Drain(c, drained).rx == c.rx && Drain(c, drained).endPoint == c.endPoint
  {
    hide DrainWith, ConnInv;
    DrainActs(c, drained);
    ActsKeeps(c, Drain(c, drained));
  }

  lemma ReactKeeps(c: Conn, call: Call)
    requires ConnInv(c)
    ensures
      var r := React(c, call);
      Follows(c, r) && r.rx == c.rx && (CanFinish(c) && FinKnown(c) ==> FinKnown(r))
  {
    hide React, ConnInv, CanFinish, FinKnown;
    ReactActs(c, call);
    ActsKeeps(c, React(c, call));
  }

  lemma ClosedKeeps(c: Conn, r: Conn)
    requires ConnInv(c) && IsClosed(c, r)
    ensures Follows(c, r)
  {
    hide LeadsTo;
    if c.state != Closed {
      LeadsFurther(c.trail, c.state, Closed);
    }
  }

  lemma SendSynKeeps(c: Conn, now: nat)
    requires ConnInv(c)
    ensures Follows(c, SendSyn(c, now))
  {
    hide LeadsTo, SendSyn;
    AnotherSyn(c, now);
    if IsClosed(c, SendSyn(c, now)) {
      ClosedKeeps(c, SendSyn(c, now));
    }
  }

  lemma CloseAndNotifyKeeps(c: Conn)
    requires ConnInv(c)
    ensures Follows(c, CloseAndNotify(c)) && CloseAndNotify(c).rx == c.rx && CloseAndNotify(c).state == Closed
  {
    hide LeadsTo, CloseAndNotify;
    ClosedDown(c);
    ClosedKeeps(c, CloseAndNotify(c));
  }

  lemma SendFinKeeps(c: Conn)
    requires ConnInv(c)
    ensures Follows(c, SendFin(c))
  {
    hide LeadsTo;
  }

  lemma RefuseKeeps(c: Conn)
    requires ConnInv(c)
    ensures
      var r := CloseAndNotify(SendRst(c));
      Follows(c, r) && r.rx == c.rx && r.state == Closed
  {
    hide LeadsTo;
    CloseAndNotifyKeeps(SendRst(c));
  }

  lemma EnterCloseWaitKeeps(c: Conn)
    requires ConnInv(c) && PeerOpen(c.state)
    ensures Follows(c, Enter(c, CloseWait)) && Enter(c, CloseWait).state == CloseWait && Enter(c, CloseWait).rx == c.rx
  {
    hide LeadsTo;
    EnterTrail(c, CloseWait);
  }

  lemma NotifyKeeps(c: Conn, a: Answers)
    requires ConnInv(c) && c.state == CloseWait
    ensures
      var r := NotifyPeerClose(c, a);
      Follows(c, r) && r.rx == c.rx && (r.state == CloseWait || r.state == LastAck)
  {
    hide NotifyPeerClose, ConnInv;
    NotifyActs(c, a);
    ActsKeeps(c, NotifyPeerClose(c, a));
  }

  lemma DoPeerCloseKeeps(c: Conn, a: Answers)
    requires ConnInv(c)
    ensures
      var r := DoPeerClose(c, a);
      Follows(c, r) && r.rx == c.rx && (FinKnown(c) ==> FinKnown(r))
  {
    hide NotifyPeerClose, ConnInv, Enter;
    if PeerOpen(c.state) {
      EnterCloseWaitKeeps(c);
      NotifyKeeps(Enter(c, CloseWait), a);
    } else {
      HaltKeeps(c, NotPeerOpen);
    }
  }

  lemma HaltKeeps(c: Conn, f: Failure)
    requires ConnInv(c)
    ensures Follows(c, Halt(c, f)) && (FinKnown(c) ==> FinKnown(Halt(c, f)))
  {
    hide LeadsTo;
  }

  lemma WithRxKeeps(c: Conn, rx: Rx)
    requires ConnInv(c)
    ensures
      var r := WithRx(c, rx);
      Follows(c, r) && r.rx == rx && r.endPoint == c.endPoint && (FinKnown(c) ==> FinKnown(r))
  {
    hide LeadsTo;
  }

  lemma TakenAdvances(rx: Rx, p: Packet, a: Answers)
    ensures Taken(rx, p, a) == rx || (p.seqNo <= rx.next < Taken(rx, p, a).next)
  {
  }

  /** Data arriving while the end point exists. If that end point is gone afterwards, the data moved NextRxSequence. */
  lemma ReceivedDataKeeps(c: Conn, p: Packet, a: Answers)
    requires ConnInv(c) && FinKnown(c) && c.endPoint
    ensures
      var r := ReceivedData(c, p, a);
      Follows(c, r) && FinKnown(r) && (r.endPoint || p.seqNo < r.rx.next)
  {
    hide React, DoPeerClose, ConnInv, Taken;
    var rx := Taken(c.rx, p, a);
    TakenAdvances(c.rx, p, a);
    if c.rx.next < rx.next {
      var c1 := WithRx(c, rx);
      WithRxKeeps(c, rx);
      ReactKeeps(c1, a.onData);
      DoPeerCloseKeeps(if c1.shutdownRecv then c1 else React(c1, a.onData), a);
    }
  }

  lemma PeerCloseKeeps(c: Conn, p: Packet, a: Answers)
    requires ConnInv(c) && FinKnown(c) && (c.endPoint || p.seqNo < c.rx.next)
    ensures Follows(c, PeerClose(c, p, a)) && FinKnown(PeerClose(c, p, a))
  {
    hide ReceivedData, DoPeerClose, ConnInv, Enter, SetFin, WithRx;
    if c.rx.next <= p.seqNo <= c.rx.max {
      var rx := SetFin(c.rx, p.seqNo + p.size, p.seqNo + p.size);
      var c1 := WithRx(c, rx);
      WithRxKeeps(c, rx);
      ReceivedDataKeeps(c1, p, a);
      var c2 := if p.size > 0 then ReceivedData(c1, p, a) else c1;
      if c2.halted.None? && Finished(c2.rx) {
        if c2.state == FinWait1 {
          EnterClosingKeeps(c2);
        } else {
          DoPeerCloseKeeps(c2, a);
        }
      }
    }
  }

  lemma ReceivedAckKeeps(c: Conn, p: Packet, a: Answers)
    requires ConnInv(c) && FinKnown(c) && c.endPoint
    ensures Follows(c, ReceivedAck(c, p, a)) && FinKnown(ReceivedAck(c, p, a))
  {
    hide Drain, ReceivedData, ConnInv;
    HaltKeeps(c, NoAckFlag);
    DrainKeeps(c, a.drainedByAck);
    var c1 := Drain(c, a.drainedByAck);
    ReceivedDataKeeps(c1, p, a);
    var c2 := if p.size > 0 then ReceivedData(c1, p, a) else c1;
    DrainKeeps(c2, a.drained);
  }

  lemma RefuseAnyKeeps(c: Conn, p: Packet)
    requires ConnInv(c)
    ensures Follows(c, Refuse(c, p)) && FinKnown(Refuse(c, p))
  {
    hide ConnInv, CloseAndNotify;
    RefuseKeeps(c);
    CloseAndNotifyKeeps(c);
  }

  lemma ProcessEstablishedKeeps(c: Conn, p: Packet, inWindow: bool, a: Answers)
    requires ConnInv(c) && c.endPoint && c.state == Established
    ensures Follows(c, ProcessEstablished(c, p, inWindow, a))
  {
    hide ReceivedAck, PeerClose, ReceivedData, Refuse, ConnInv;
    var f := MaskEcn(p.flags);
    if f == ACK {
      ReceivedAckKeeps(c, p, a);
    } else if f == FIN || f == FIN_ACK {
      PeerCloseKeeps(c, p, a);
    } else if f == NONE {
      ReceivedDataKeeps(c, p, a);
      PeerCloseKeeps(ReceivedData(c, p, a), p, a);
    } else {
      RefuseAnyKeeps(c, p);
    }
  }

  lemma BecomeKeeps(c: Conn, state: State)
    requires ConnInv(c) && c.endPoint && (c.state == SynSent || c.state == SynRcvd)
    requires state == Established || state == SynRcvd
    ensures
      var r := Enter(c, state);
      Follows(c, r) && FinKnown(r) && r.endPoint
  {
    hide LeadsTo;
    EnterTrail(c, state);
  }

  lemma SynAnsweredKeeps(c: Conn, p: Packet, a: Answers)
    requires ConnInv(c) && c.endPoint && c.state == SynSent
    ensures
      var rx := Restarted(c.rx, p.seqNo + 1);
      && Follows(c, SendSyn(WithRx(Enter(c, SynRcvd), rx).(syn := c.syn.(count := c.syn.retries)), a.now))
      && Follows(c, Drain(WithRx(Enter(c, Established), rx), a.drained))
  {
    hide SendSyn, Drain, LeadsTo, Enter, WithRx;
    var rx := Restarted(c.rx, p.seqNo + 1);
    BecomeKeeps(c, Established);
    BecomeKeeps(c, SynRcvd);
    WithRxKeeps(Enter(c, SynRcvd), rx);
    SendSynKeeps(WithRx(Enter(c, SynRcvd), rx).(syn := c.syn.(count := c.syn.retries)), a.now);
    WithRxKeeps(Enter(c, Established), rx);
    DrainKeeps(WithRx(Enter(c, Established), rx), a.drained);
  }

  lemma SynSentKeeps(c: Conn, p: Packet, a: Answers)
    requires ConnInv(c) && c.endPoint && c.state == SynSent
    ensures Follows(c, ProcessSynSent(c, p, a))
  {
    hide ReceivedData, SendSyn, Drain, CloseAndNotify, ConnInv, Enter, WithRx;
    RefuseKeeps(c);
    CloseAndNotifyKeeps(c);
    BecomeKeeps(c, Established);
    ReceivedDataKeeps(Enter(c, Established), p, a);
    SynAnsweredKeeps(c, p, a);
  }

  lemma SynRcvdKeeps(c: Conn, p: Packet, a: Answers)
    requires ConnInv(c) && c.endPoint && c.state == SynRcvd
    ensures Follows(c, ProcessSynRcvd(c, p, a))
  {
    hide ReceivedAck, SendSyn, PeerClose, Refuse, ConnInv, Enter, WithRx;
    var f := MaskEcn(p.flags);
    if f == NONE || (f == ACK && a.acksSyn) {
      BecomeKeeps(c, Established);
      ReceivedAckKeeps(Enter(c, Established), p, a);
    } else if f == SYN {
      WithRxKeeps(c, Restarted(c.rx, p.seqNo + 1));
      SendSynKeeps(WithRx(c, Restarted(c.rx, p.seqNo + 1)), a.now);
    } else if f == FIN_ACK {
      PeerCloseKeeps(c, p, a);
    } else {
      RefuseAnyKeeps(c, p);
    }
  }

  lemma EnterTimeWaitKeeps(c: Conn)
    requires ConnInv(c) && c.finSent && (c.state == Closing || c.state == FinWait2)
    ensures Follows(c, EnterTimeWait(c))
  {
    hide LeadsTo;
    EnterTrail(c, TimeWait);
  }

  lemma EnterClosingKeeps(c: Conn)
    requires ConnInv(c) && c.finSent && c.state == FinWait1
    ensures Follows(c, Enter(c, Closing)) && Enter(c, Closing) == c.(state := Closing, trail := Enter(c, Closing).trail)
  {
    hide LeadsTo;
    EnterTrail(c, Closing);
  }

  lemma EnterFinWait2Keeps(c: Conn)
    requires ConnInv(c) && FinKnown(c) && c.state == FinWait1
    ensures Follows(c, Enter(c, FinWait2)) && FinKnown(Enter(c, FinWait2))
  {
    hide LeadsTo;
    EnterTrail(c, FinWait2);
  }

  /** CLOSING and TIME_WAIT are entered only with our FIN sent. */
  lemma EndFinWaitKeeps(c: Conn, a: Answers)
    requires ConnInv(c) && FinKnown(c) && (c.state == FinWait1 || c.state == FinWait2)
    ensures Follows(c, EndFinWait(c, a))
  {
    hide LeadsTo, Enter, EnterTimeWait;
    if c.state == FinWait1 {
      EnterClosingKeeps(c);
      EnterTimeWaitKeeps(Enter(c, Closing));
    } else {
      EnterTimeWaitKeeps(c);
    }
  }

  lemma LeaveFinWaitKeeps(c: Conn, a: Answers)
    requires ConnInv(c) && FinKnown(c)
    ensures Follows(c, LeaveFinWaitUnlessHalted(c, a))
  {
    hide ConnInv, EndFinWait, React;
    if (c.state == FinWait1 || c.state == FinWait2) && Finished(c.rx) {
      EndFinWaitKeeps(c, a);
      ReactKeeps(EndFinWait(c, a), a.onEnd);
    }
  }

  lemma WaitAckKeeps(c: Conn, p: Packet, a: Answers)
    requires ConnInv(c) && c.endPoint && FinKnown(c)
    ensures
      var c1 := ReceivedAck(c, p, a);
      var c2 := if c1.state == FinWait1 && a.empty && a.acksFin then Enter(c1, FinWait2) else c1;
      Follows(c, LeaveFinWaitUnlessHalted(c2, a))
  {
    hide ReceivedAck, ConnInv, LeaveFinWaitUnlessHalted, Enter, FinKnown;
    var c1 := ReceivedAck(c, p, a);
    ReceivedAckKeeps(c, p, a);
    if c1.state == FinWait1 && a.empty && a.acksFin {
      EnterFinWait2Keeps(c1);
      LeaveFinWaitKeeps(Enter(c1, FinWait2), a);
    } else {
      LeaveFinWaitKeeps(c1, a);
    }
  }

  lemma WaitFinKeeps(c: Conn, p: Packet, a: Answers)
    requires ConnInv(c) && c.endPoint && FinKnown(c)
    ensures
      var c1 := if p.flags.ack then ReceivedAck(c, p, a) else c;
      var c2 := if c1.halted.Some? then c1 else WithRx(c1, SetFin(c1.rx, p.seqNo, p.seqNo + p.size));
      Follows(c, LeaveFinWaitUnlessHalted(c2, a))
  {
    hide ReceivedAck, ConnInv, LeaveFinWaitUnlessHalted;
    ReceivedAckKeeps(c, p, a);
    var c1 := if p.flags.ack then ReceivedAck(c, p, a) else c;
    WithRxKeeps(c1, SetFin(c1.rx, p.seqNo, p.seqNo + p.size));
    LeaveFinWaitKeeps(if c1.halted.Some? then c1 else WithRx(c1, SetFin(c1.rx, p.seqNo, p.seqNo + p.size)), a);
  }

  lemma ProcessWaitKeeps(c: Conn, p: Packet, a: Answers)
    requires ConnInv(c) && c.endPoint
    ensures Follows(c, ProcessWait(c, p, a))
  {
    hide ReceivedAck, ReceivedData, LeaveFinWaitUnlessHalted, Refuse, LeadsTo, WithRx, Enter;
    var f := MaskEcn(p.flags);
    if p.size > 0 && !f.ack {
      ReceivedDataKeeps(c, p, a);
      LeaveFinWaitKeeps(ReceivedData(c, p, a), a);
    } else if f == ACK {
      WaitAckKeeps(c, p, a);
    } else if f == FIN || f == FIN_ACK {
      WaitFinKeeps(c, p, a);
    } else if f != SYN && f != SYN_ACK {
      RefuseAnyKeeps(c, p);
    }
  }

  lemma ProcessClosingKeeps(c: Conn, p: Packet)
    requires ConnInv(c) && c.state == Closing
    ensures Follows(c, ProcessClosing(c, p))
  {
    hide LeadsTo, EnterTimeWait, CloseAndNotify;
    EnterTimeWaitKeeps(c);
    RefuseKeeps(c);
    CloseAndNotifyKeeps(c);
  }

  lemma ProcessLastAckKeeps(c: Conn, p: Packet, a: Answers)
    requires ConnInv(c) && c.endPoint && c.state == LastAck
    ensures Follows(c, ProcessLastAck(c, p, a))
  {
    hide LeadsTo, ReceivedData, CloseAndNotify, SendFin;
    ReceivedDataKeeps(c, p, a);
    SendFinKeeps(c);
    RefuseKeeps(c);
    CloseAndNotifyKeeps(c);
  }

  lemma ReceiveKeeps(c: Conn, p: Packet, inWindow: bool, a: Answers)
    requires ConnInv(c)
    ensures Follows(c, Receive(c, p, inWindow, a))
  {
    hide ConnInv, ProcessEstablished, ProcessSynSent, ProcessSynRcvd, ProcessWait, ProcessClosing, ProcessLastAck;
    if c.endPoint {
      match c.state
      case Established => ProcessEstablishedKeeps(c, p, inWindow, a);
      case SynSent => SynSentKeeps(c, p, a);
      case SynRcvd => SynRcvdKeeps(c, p, a);
      case FinWait1 | FinWait2 | CloseWait => ProcessWaitKeeps(c, p, a);
      case Closing => ProcessClosingKeeps(c, p);
      case LastAck => ProcessLastAckKeeps(c, p, a);
      case _ =>
    }
  }

  lemma ReTxTimeoutKeeps(c: Conn, a: Answers)
    requires ConnInv(c)
    ensures Follows(c, ReTxTimeout(c, a))
  {
    hide ConnInv, SendSyn, SendFin, RetryData, Halt;
    SendSynKeeps(c, a.now);
    SendFinKeeps(c);
    RetryDataKeeps(c, a);
  }

  lemma RetryDataKeeps(c: Conn, a: Answers)
    requires ConnInv(c)
    ensures Follows(c, RetryData(c, a))
  {
    hide LeadsTo, Drain;
    if 0 < c.dataRetrCount {
      DrainKeeps(c.(dataRetrCount := c.dataRetrCount - 1), a.drained);
    }
  }

  lemma LastAckTimeoutKeeps(c: Conn)
    requires ConnInv(c)
    ensures Follows(c, LastAckTimeout(c))
  {
    hide LeadsTo, SendFin;
    if 0 < c.dataRetrCount {
      SendFinKeeps(c.(dataRetrCount := c.dataRetrCount - 1));
    }
  }

  /** Every packet, timer and application call keeps the invariant and only extends the trail. */
  lemma StepKeeps(c: Conn, e: Event)
    requires ConnInv(c)
    ensures Follows(c, Step(c, e))
  {
    hide ConnInv, Receive, Close, ShutdownSend, ShutdownRecv, Drain, SendSyn, SendFin, ReTxTimeout, LastAckTimeout,
         CloseAndNotify;
    match e
    case Arrival(p, inWindow, a) => ReceiveKeeps(c, p, inWindow, a);
    case AppClose(unread, pending) =>
      CloseActs(c, unread, pending);
      ActsKeeps(c, Close(c, unread, pending));
    case AppShutdown(empty) =>
      ShutdownActs(c, empty);
      ActsKeeps(c, ShutdownSend(c, empty));
    case AppStopsReading =>
      ActsNot(c);
      ActsKeeps(c, ShutdownRecv(c));
    case SendPending(drained) => DrainKeeps(c, drained);
    case SynTimer(now) => SendSynKeeps(c, now);
    case FinTimer => SendFinKeeps(c);
    case DataTimer(a) => ReTxTimeoutKeeps(c, a);
    case LastAckTimer => LastAckTimeoutKeeps(c);
    case TimeWaitTimer => CloseAndNotifyKeeps(c);
  }

  lemma {:induction false} RunKeeps(c: Conn, es: seq<Event>)
    requires ConnInv(c)
    ensures Follows(c, Run(c, es))
  {
    if es != [] {
      RunKeeps(c, es[..|es| - 1]);
      StepKeeps(Run(c, es[..|es| - 1]), es[|es| - 1]);
    }
  }

  // Consequences

  /** A life starts waiting for a connection, or with a SYN sent or answered. */
  predicate Newborn(c: Conn) {
    && (c.state == Listen || c.state == SynSent || c.state == SynRcvd) && c.trail == [c.state] && c.endPoint
    && c.rx.fin.None? && c.rx.own.None? && c.rx.next == c.rx.data
    && c.halted.None? && !c.dataTimer && !c.finSent && !c.rstSent && !c.peerFin
  }

  lemma {:induction false} TrailClimbs(trail: seq<State>, state: State, i: nat, j: nat)
    requires LeadsTo(trail, state) && i < j < |trail|
    ensures Rank(trail[i]) + (j - i) <= Rank(trail[j])
  {
    assert Arrow(trail[j - 1], trail[j]);
    if i < j - 1 {
      TrailClimbs(trail, state, i, j - 1);
    }
  }

  /** A step leaves the state or moves it along the arrows to a strictly higher rank. */
  lemma StepClimbs(c: Conn, e: Event)
    requires ConnInv(c)
    ensures Step(c, e).state == c.state || Rank(c.state) < Rank(Step(c, e).state)
  {
    hide Step, Arrow, Rank;
    StepKeeps(c, e);
    var r := Step(c, e);
    if |c.trail| < |r.trail| {
      TrailClimbs(r.trail, r.state, |c.trail| - 1, |r.trail| - 1);
    }
  }

  /** Whatever happens in a connection's life: its states follow the arrows, at most seven changes are ever made,
      CLOSING and TIME_WAIT mean that our FIN left, and TIME_WAIT was entered from FIN_WAIT_2 or CLOSING. */
  lemma LifeFollowsDiagram(c: Conn, es: seq<Event>)
    requires Newborn(c)
    ensures
      var r := Run(c, es);
      && (forall i :: 0 < i < |r.trail| ==> Arrow(r.trail[i - 1], r.trail[i]))
      && |r.trail| <= 8
      && (r.state == Closing || r.state == TimeWait ==> r.finSent)
      && forall i :: 0 < i < |r.trail| && r.trail[i] == TimeWait ==>
           r.trail[i - 1] == FinWait2 || r.trail[i - 1] == Closing
  {
    hide Run, Arrow, Rank;
    RunKeeps(c, es);
    var r := Run(c, es);
    if 1 < |r.trail| {
      TrailClimbs(r.trail, r.state, 0, |r.trail| - 1);
    }
    forall i | 0 < i < |r.trail| && r.trail[i] == TimeWait
      ensures r.trail[i - 1] == FinWait2 || r.trail[i - 1] == Closing
    {
      ArrowToTimeWait(r.trail[i - 1]);
    }
  }

  /** The timeout of the data timer finds no connection that still waits for its SYN to be answered, so its branch for
      SYN_SENT, with the assertion that SYNs are left, is dead. */
  lemma DataTimerAfterSyn(c: Conn, es: seq<Event>)
    requires Newborn(c)
    ensures Run(c, es).dataTimer ==> Run(c, es).state != SynSent
  {
    hide Run, LeadsTo;
    NewbornInv(c);
    RunKeeps(c, es);
  }

  lemma NewbornInv(c: Conn)
    requires Newborn(c)
    ensures ConnInv(c)
  {
  }

  lemma ArrowToTimeWait(from: State)
    ensures Arrow(from, TimeWait) <==> from == FinWait2 || from == Closing
  {
  }
}
