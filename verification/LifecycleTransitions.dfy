/** Which packet, call or timer moves a connection along which arrow. What the application does in a callback may move it
    further; the statements are about the first state given. */
module LifecycleTransitions {
  import opened TcpTypes
  import opened Lifecycle
  import opened LifecycleFrames
  import opened LifecycleInvariants
  import opened LifecycleTheorems
  import opened LifecycleOrder
  import Connect

  /** The first state a step gives. */
  ghost predicate Goes(c: Conn, r: Conn, to: State) {
    c.trail < r.trail && r.trail[|c.trail|] == to
  }

  /** A packet that reaches its state's handler. */
  predicate Arrives(c: Conn, p: Packet) {
    c.endPoint && c.halted.None? && (p.size == 0 || !OutOfRange(c.state, c.rx, p.seqNo, p.seqNo + p.size))
  }

  lemma ClosedGoes(c: Conn)
    requires c.state != Closed
    ensures Goes(c, CloseAndNotify(c), Closed) && Goes(c, CloseAndNotify(SendRst(c)), Closed)
  {
    hide CloseAndNotify, SendRst;
    Reset(c);
    ClosedDown(c);
    ClosedDown(SendRst(c));
  }

  // The last states

  /** CLOSING ends in TIME_WAIT exactly on a plain ACK numbered at RCV.NXT, and in CLOSED on any packet that is not a plain
      ACK. */
  lemma ClosingIff(c: Conn, p: Packet, inWindow: bool, a: Answers)
    requires c.state == Closing && Arrives(c, p)
    ensures
      var r := Step(c, Arrival(p, inWindow, a));
      && (Goes(c, r, TimeWait) <==> p.flags == ACK && p.seqNo == c.rx.next)
      && (Goes(c, r, Closed) <==> p.flags != ACK)
      && (r.trail == c.trail <==> p.flags == ACK && p.seqNo != c.rx.next)
  {
    hide CloseAndNotify, EnterTimeWait, SendRst, Taken;
    ClosedGoes(c);
    TimeWaitEntered(c);
  }

  /** LAST_ACK ends, in CLOSED, exactly on a plain ACK numbered at RCV.NXT or on a packet that is neither bare data, a bare
      FIN nor a plain ACK. */
  lemma LastAckIff(c: Conn, p: Packet, inWindow: bool, a: Answers)
    requires c.state == LastAck && Arrives(c, p)
    ensures
      var r, ends := Step(c, Arrival(p, inWindow, a)), if p.flags == ACK then p.seqNo == c.rx.next
                                                       else p.flags != NONE && p.flags != FIN;
      if ends then r.state == Closed && Goes(c, r, Closed) else r.state == LastAck && r.trail == c.trail
  {
    hide CloseAndNotify, SendRst, ReceivedData, SendFin;
    ClosedGoes(c);
    Reset(c);
    ClosedDown(c);
    ClosedDown(SendRst(c));
    SentFin(c);
    DataInLastAck(c, p, a);
  }

  lemma DataInLastAck(c: Conn, p: Packet, a: Answers)
    requires c.state == LastAck
    ensures ReceivedData(c, p, a).state == LastAck && ReceivedData(c, p, a).trail == c.trail
  {
    hide React, Taken;
    ReactActs(WithRx(c, Taken(c.rx, p, a)), a.onData);
  }

  // Opening

  /** SYN_SENT: bare data or a SYN+ACK of the SYN establishes the connection, a SYN without ACK answers it, an ACK without
      SYN is ignored, anything else closes it. */
  lemma SynSentIff(c: Conn, p: Packet, inWindow: bool, a: Answers)
    requires c.state == SynSent && Arrives(c, p)
    ensures
      var r, f := Step(c, Arrival(p, inWindow, a)), p.flags;
      && (Goes(c, r, Established) <==> f == NONE || (f.syn && f.ack && a.acksSyn))
      && (Goes(c, r, SynRcvd) <==> f.syn && !f.ack)
      && (r.trail == c.trail <==> f.ack && !f.syn)
      && (Goes(c, r, Closed) <==> (!f.ack && !f.syn && f != NONE) || (f.syn && f.ack && !a.acksSyn))
  {
    hide CloseAndNotify, SendRst, Enter, WithRx, SendSyn, Drain, ReceivedData, Restarted;
    ClosedGoes(c);
    OpenedGoes(c, p, a);
  }

  lemma OpenedGoes(c: Conn, p: Packet, a: Answers)
    requires c.state == SynSent || c.state == SynRcvd
    ensures
      var rx := Restarted(c.rx, p.seqNo + 1);
      && Goes(c, ReceivedData(Enter(c, Established), p, a), Established)
      && Goes(c, ReceivedAck(Enter(c, Established), p, a), Established)
      && Goes(c, Drain(WithRx(Enter(c, Established), rx), a.drained), Established)
      && (c.state == SynSent ==>
            Goes(c, SendSyn(WithRx(Enter(c, SynRcvd), rx).(syn := c.syn.(count := c.syn.retries)), a.now), SynRcvd))
  {
    hide ReceivedData, ReceivedAck, Drain, SendSyn, Enter, WithRx, Restarted;
    var rx := Restarted(c.rx, p.seqNo + 1);
    Entered(c, Established);
    DataGrows(Enter(c, Established), p, a);
    AckGrows(Enter(c, Established), p, a);
    RxGrows(Enter(c, Established), rx);
    DrainActs(WithRx(Enter(c, Established), rx), a.drained);
    if c.state == SynSent {
      Entered(c, SynRcvd);
    }
    RxGrows(Enter(c, SynRcvd), rx);
    AnotherSyn(WithRx(Enter(c, SynRcvd), rx).(syn := c.syn.(count := c.syn.retries)), a.now);
  }

  lemma RxGrows(c: Conn, rx: Rx)
    ensures WithRx(c, rx).trail == c.trail && WithRx(c, rx).state == c.state
  {
  }

  /** The trail only grows. */
  lemma DataGrows(c: Conn, p: Packet, a: Answers)
    ensures c.trail <= ReceivedData(c, p, a).trail
  {
    hide React, DoPeerClose, Taken, WithRx;
    var rx := Taken(c.rx, p, a);
    var c1 := WithRx(c, rx);
    RxGrows(c, rx);
    ReactActs(c1, a.onData);
    CloseGrows(c1, a);
    CloseGrows(React(c1, a.onData), a);
  }

  lemma CloseGrows(c: Conn, a: Answers)
    ensures c.trail <= DoPeerClose(c, a).trail
  {
    hide NotifyPeerClose, Enter;
    if PeerOpen(c.state) {
      Entered(c, CloseWait);
      NotifyActs(Enter(c, CloseWait), a);
    }
  }

  lemma AckGrows(c: Conn, p: Packet, a: Answers)
    ensures c.trail <= ReceivedAck(c, p, a).trail
  {
    hide ReceivedData, Drain;
    var c1 := Drain(c, a.drainedByAck);
    DrainActs(c, a.drainedByAck);
    DataGrows(c1, p, a);
    DrainActs(if p.size > 0 then ReceivedData(c1, p, a) else c1, a.drained);
  }

  // The peer's FIN while its direction is open

  /** The Rx buffer after a segment taken for a FIN: recorded behind the segment's data, which is then taken. */
  function FinTaken(rx: Rx, p: Packet, a: Answers): Rx {
    var r := SetFin(rx, p.seqNo + p.size, p.seqNo + p.size);
    if p.size > 0 then Taken(r, p, a) else r
  }

  /** A segment taken for a FIN leads past the peer's FIN exactly when it is numbered from RCV.NXT to MaxRxSequence and
      nothing is missing before the FIN. */
  lemma PeerCloseIff(c: Conn, p: Packet, a: Answers)
    requires PeerOpen(c.state) && c.halted.None? && Awaiting(c.rx) && p.flags.fin
    ensures
      var r, closes := PeerClose(c, p, a), c.rx.next <= p.seqNo <= c.rx.max && Finished(FinTaken(c.rx, p, a));
      (AfterFin(r.state) <==> closes) && (PeerOpen(r.state) <==> !closes)
  {
    hide ReceivedData, DoPeerClose, Enter, SetFin, Taken, Finished, Awaiting, InSequence;
    if c.rx.next <= p.seqNo <= c.rx.max {
      var c1 := WithRx(c, SetFin(c.rx, p.seqNo + p.size, p.seqNo + p.size));
      DataPeerOpen(c1, p, a);
      var c2 := if p.size > 0 then ReceivedData(c1, p, a) else c1;
      Entered(c2, Closing);
      PeerCloses(c2, a);
    }
  }

  /** ESTABLISHED while the FIN is missing: the peer's FIN is passed exactly by a FIN segment that completes the data, or by
      data that completes it up to a FIN recorded before; CLOSED is reached exactly on a reset or an illegal combination
      of flags. */
  lemma EstablishedIff(c: Conn, p: Packet, inWindow: bool, a: Answers)
    requires c.state == Established && Arrives(c, p) && Awaiting(c.rx)
    ensures
      var r, f := Step(c, Arrival(p, inWindow, a)), MaskEcn(p.flags);
      && (AfterFin(r.state) <==>
            if f == FIN || f == FIN_ACK then c.rx.next <= p.seqNo <= c.rx.max && Finished(FinTaken(c.rx, p, a))
            else (f == NONE || (f == ACK && inWindow)) && Completes(c.rx, p, a))
      && (r.state == Closed <==> !(f in {NONE, ACK, SYN, SYN_ACK, FIN, FIN_ACK}))
  {
    hide ReceivedAck, PeerClose, ReceivedData, Refuse, FinTaken, Completes, Awaiting, Finished;
    var f := MaskEcn(p.flags);
    if f == FIN || f == FIN_ACK {
      PeerCloseIff(c, p, a);
    } else if f == NONE {
      DataPeerOpen(c, p, a);
      BareDataPassed(c, p, a);
    } else if f == ACK {
      AckPeerOpen(c, p, a);
    } else {
      Refused(c, p);
    }
  }

  /** Bare data is offered as a FIN too once it completed one, to no effect. */
  lemma BareDataPassed(c: Conn, p: Packet, a: Answers)
    requires PeerOpen(c.state) && c.halted.None? && Awaiting(c.rx)
    ensures
      var r := ReceivedData(c, p, a);
      Finished(r.rx) ==> PeerClose(r, p, a) == r
  {
    hide ReceivedData, Taken;
    DataPeerOpen(c, p, a);
    TakenAwaiting(c.rx, p, a);
    OldPeerClose(ReceivedData(c, p, a), p, a);
  }

  /** SYN_RCVD is established exactly by bare data or an ACK of the SYN; a FIN+ACK counts only at RCV.NXT, and closes the
      peer's direction when it is complete; a repeated SYN is answered until the retries are used up; all else closes. */
  lemma SynRcvdIff(c: Conn, p: Packet, inWindow: bool, a: Answers)
    requires c.state == SynRcvd && Arrives(c, p) && Awaiting(c.rx)
    ensures
      var r, f := Step(c, Arrival(p, inWindow, a)), MaskEcn(p.flags);
      && (f == NONE || (f == ACK && a.acksSyn) ==> Goes(c, r, Established))
      && (f == FIN_ACK ==>
            (AfterFin(r.state) <==> p.seqNo == c.rx.next <= c.rx.max && Finished(FinTaken(c.rx, p, a)))
            && (p.seqNo != c.rx.next ==> r == c))
      && (f == SYN ==> if c.syn.count == 0 then Goes(c, r, Closed) else r.trail == c.trail)
      && (!(f in {NONE, SYN, FIN_ACK}) && !(f == ACK && a.acksSyn) ==> Goes(c, r, Closed))
  {
    hide ReceivedAck, PeerClose, SendSyn, Refuse, FinTaken, Awaiting, Finished, Enter, WithRx, Restarted;
    var f := MaskEcn(p.flags);
    if f == NONE || (f == ACK && a.acksSyn) {
      OpenedGoes(c, p, a);
    } else if f == FIN_ACK {
      PeerCloseIff(c, p, a);
    } else if f == SYN {
      SynRepeated(c, Restarted(c.rx, p.seqNo + 1), a);
    } else {
      Refused(c, p);
    }
  }

  lemma SynRepeated(c: Conn, rx: Rx, a: Answers)
    requires c.state == SynRcvd && c.endPoint
    ensures
      var r := SendSyn(WithRx(c, rx), a.now);
      if c.syn.count == 0 then Goes(c, r, Closed) else r.trail == c.trail
  {
    hide Enter, Connect.Send;
    var c1 := WithRx(c, rx);
    Entered(c1.(syn := Connect.Send(c1.syn, a.now)), Closed);
  }

  // The application and the timers

  /** Close with nothing unread and nothing left to send finishes at once, with our FIN from an open state and with a reset
      or nothing from the others; with data left it waits; with data unread it resets and stays. */
  lemma CloseIff(c: Conn, unread: bool, pending: bool)
    requires c.halted.None?
    ensures
      var r, now := Step(c, AppClose(unread, pending)), !unread && !pending;
      && (Goes(c, r, FinWait1) <==> now && (c.state == SynRcvd || c.state == Established))
      && (Goes(c, r, LastAck) <==> now && c.state == CloseWait)
      && (Goes(c, r, Closed) <==> now && (c.state == SynSent || c.state == Closing || c.state == Listen))
      && (!unread && pending ==> r == c.(closeOnEmpty := true))
      && (r.trail != c.trail && c.endPoint && r.state != Closed ==> r.finSent)
  {
    hide DoClose, SendRst;
    CloseActs(c, unread, pending);
    DoCloseGoes(c);
    Reset(c);
  }

  lemma DoCloseGoes(c: Conn)
    ensures
      var r := DoClose(c);
      match c.state
      case SynRcvd | Established => Goes(c, r, FinWait1) && (c.endPoint ==> r.finSent)
      case CloseWait => Goes(c, r, LastAck) && (c.endPoint ==> r.finSent)
      case SynSent | Closing | Listen => Goes(c, r, Closed) && r.state == Closed
      case _ => r == c
  {
    hide Enter, SendFin, CloseAndNotify, SendRst;
    SentFin(c);
    match c.state
    case SynRcvd => Entered(SendFin(c), FinWait1);
    case Established => Entered(SendFin(c), FinWait1);
    case CloseWait => Entered(SendFin(c), LastAck);
    case SynSent => ClosedGoesDown(c);
    case Closing => ClosedGoesDown(c);
    case Listen => ClosedGoesDown(c);
    case _ =>
  }

  lemma ClosedGoesDown(c: Conn)
    requires c.state != Closed
    ensures Goes(c, CloseAndNotify(c), Closed) && Goes(c, CloseAndNotify(SendRst(c)), Closed)
    ensures CloseAndNotify(c).state == CloseAndNotify(SendRst(c)).state == Closed
  {
    hide CloseAndNotify, SendRst;
    ClosedGoes(c);
    ClosedDown(c);
    ClosedDown(SendRst(c));
  }

  /** Shutting down the sending direction, and the last segment with a close pending, send our FIN from ESTABLISHED and
      CLOSE_WAIT alone, at once or when the buffer has drained. */
  lemma FinishIff(c: Conn, empty: bool, drained: bool)
    requires c.halted.None?
    ensures
      var r := Step(c, AppShutdown(empty));
      && (Goes(c, r, FinWait1) <==> empty && c.state == Established)
      && (Goes(c, r, LastAck) <==> empty && c.state == CloseWait)
    ensures
      var r, sends := Step(c, SendPending(drained)), c.endPoint && drained && c.closeOnEmpty;
      && (Goes(c, r, FinWait1) <==> sends && c.state == Established)
      && (Goes(c, r, LastAck) <==> sends && c.state == CloseWait)
  {
    hide ShutdownSend, Drain;
    ShutdownActs(c, empty);
    ShutdownGoes(c, empty);
    DrainActs(c, drained);
    DrainGoes(c, drained);
  }

  lemma ShutdownGoes(c: Conn, empty: bool)
    ensures
      var r := ShutdownSend(c, empty);
      r.state == (if !empty then c.state else if c.state == Established then FinWait1
                  else if c.state == CloseWait then LastAck else c.state)
  {
    hide SendFin, Enter;
    var c1 := c.(shutdownSend := true, closeOnEmpty := true);
    SentFin(c1);
    if c.state == Established {
      Entered(SendFin(c1), FinWait1);
    } else if c.state == CloseWait {
      Entered(SendFin(c1), LastAck);
    }
  }

  lemma DrainGoes(c: Conn, drained: bool)
    ensures
      var r := Drain(c, drained);
      r.state == (if !(c.endPoint && drained && c.closeOnEmpty) then c.state else if c.state == Established then FinWait1
                  else if c.state == CloseWait then LastAck else c.state)
  {
    hide Enter;
    var c1 := c.(dataTimer := true, fins := c.fins + 1);
    if c.state == Established {
      Entered(c1, FinWait1);
    } else if c.state == CloseWait {
      Entered(c1, LastAck);
    }
  }

  /** CLOSE_WAIT is closed by a packet exactly when that is no data and its flags are a reset or illegal; all others leave it
      there, or in LAST_ACK when our FIN leaves with them. */
  lemma CloseWaitIff(c: Conn, p: Packet, inWindow: bool, a: Answers)
    requires c.state == CloseWait && Arrives(c, p)
    ensures
      var r, f := Step(c, Arrival(p, inWindow, a)), MaskEcn(p.flags);
      var refused := (p.size == 0 || f.ack) && !(f in {ACK, SYN, SYN_ACK, FIN, FIN_ACK});
      if refused then r.state == Closed else PeerClosed(r.state)
  {
    hide ReceivedAck, ReceivedData, LeaveFinWaitUnlessHalted, Refuse, WithRx, SetFin;
    var f := MaskEcn(p.flags);
    if p.size > 0 && !f.ack {
      DataPeerClosed(c, p, a);
      LeaveWithoutEnd(ReceivedData(c, p, a), a);
    } else if f == ACK {
      AckPeerClosed(c, p, a);
      LeaveWithoutEnd(ReceivedAck(c, p, a), a);
    } else if f == FIN || f == FIN_ACK {
      if f == FIN_ACK {
        AckPeerClosed(c, p, a);
      }
      var c1 := if f.ack then ReceivedAck(c, p, a) else c;
      LeaveWithoutEnd(c1, a);
      RxGrows(c1, SetFin(c1.rx, p.seqNo, p.seqNo + p.size));
      LeaveWithoutEnd(WithRx(c1, SetFin(c1.rx, p.seqNo, p.seqNo + p.size)), a);
    } else if f != SYN && f != SYN_ACK {
      Refused(c, p);
    }
  }

  // What a refused packet and the peer's close lead to

  /** A packet its state has no use for. */
  predicate Illegal(state: State, p: Packet, a: Answers) {
    var f, m := p.flags, MaskEcn(p.flags);
    match state
    case SynSent => if f.syn then f.ack && !a.acksSyn else !f.ack && f != NONE
    case SynRcvd => !(m in {NONE, SYN, FIN_ACK}) && !(m == ACK && a.acksSyn)
    case Established => !(m in {NONE, ACK, SYN, SYN_ACK, FIN, FIN_ACK})
    case FinWait1 | FinWait2 | CloseWait => (p.size == 0 || f.ack) && !(m in {ACK, SYN, SYN_ACK, FIN, FIN_ACK})
    case Closing => f != ACK
    case LastAck => !(f in {NONE, ACK, FIN})
    case Listen | TimeWait | Closed => false
  }

  /** An illegal packet closes the connection. A reset answers it unless it is a reset itself, masked or not as the state
      has it, or a FIN in the last states; in SYN_SENT any packet with RST goes unanswered. */
  lemma ResetIff(c: Conn, p: Packet, inWindow: bool, a: Answers)
    requires Arrives(c, p) && Illegal(c.state, p, a) && !c.rstSent
    ensures
      var r, f := Step(c, Arrival(p, inWindow, a)), p.flags;
      && r.state == Closed && r.trail == c.trail + [Closed] && !r.endPoint
      && (r.rstSent <==>
            match c.state
            case SynSent => !f.rst
            case Closing | LastAck => !(f in {FIN, FIN_ACK, RST})
            case _ => MaskEcn(f) != RST)
  {
    hide CloseAndNotify;
    assert c.state != Closed;
    Downed(c);
    Downed(SendRst(c));
  }

  lemma Downed(c: Conn)
    requires c.state != Closed
    ensures CloseAndNotify(c) == c.(state := Closed, trail := c.trail + [Closed], closeNotified := true, endPoint := false)
  {
    hide Enter;
    Entered(c, Closed);
  }

  predicate ClosesAtOnce(call: Call) {
    call.reaction == Closes && !call.unread && !call.pending
  }

  /** A call that finishes the sending direction from CLOSE_WAIT. */
  predicate EndsSending(call: Call) {
    ClosesAtOnce(call) || (call.reaction == ShutsDown && call.empty)
  }

  /** A bare FIN in sequence takes ESTABLISHED to CLOSE_WAIT, and on to LAST_ACK exactly when the application, told for the
      first time, finishes at once, or has shut down and left nothing unread or unsent. */
  lemma PassiveCloseIff(c: Conn, p: Packet, inWindow: bool, a: Answers)
    requires c.state == Established && Arrives(c, p) && c.rx.next <= c.rx.max
    requires p == Packet(FIN_ACK, c.rx.next, 0)
    ensures
      var r, told := Step(c, Arrival(p, inWindow, a)), !c.closeNotified;
      var down := c.shutdownSend || (told && a.onClose.reaction == ShutsDown);
      && Goes(c, r, CloseWait) && r.closeNotified
      && (r.state == LastAck <==>
            (told && EndsSending(a.onClose)) || (down && !a.afterShutdown.unread && !a.afterShutdown.pending))
      && (r.state == LastAck ==> r.dataRetrCount == c.dataRetries)
      && (r.state != LastAck ==> r.state == CloseWait)
  {
    hide NotifyPeerClose, Enter;
    var c1 := WithRx(c, SetFin(c.rx, p.seqNo, p.seqNo));
    Entered(c1, CloseWait);
    NotifyActs(Enter(c1, CloseWait), a);
    NotifyGoes(Enter(c1, CloseWait), a);
  }

  lemma NotifyGoes(c: Conn, a: Answers)
    requires c.state == CloseWait
    ensures
      var r, told := NotifyPeerClose(c, a), !c.closeNotified;
      var down := c.shutdownSend || (told && a.onClose.reaction == ShutsDown);
      && r.closeNotified
      && (r.state == LastAck <==>
            (told && EndsSending(a.onClose)) || (down && !a.afterShutdown.unread && !a.afterShutdown.pending))
      && (r.state == LastAck ==> r.dataRetrCount == c.dataRetries)
      && (r.state != LastAck ==> r.state == CloseWait)
  {
    hide Close, React;
    if !c.closeNotified {
      ReactGoes(c, a.onClose);
    }
    var c1 := TellOfClose(c, a);
    CloseGoes(c1, a.afterShutdown.unread, a.afterShutdown.pending);
  }

  /** What a call of the application's leaves: the state, and the fields that tell of it. */
  ghost predicate Told(c: Conn, r: Conn, state: State, shut: bool) {
    && r.state == state && r.closeNotified == c.closeNotified && r.dataRetries == c.dataRetries
    && r.shutdownSend == (c.shutdownSend || shut)
  }

  lemma LastFinGoes(c: Conn)
    requires PeerClosed(c.state)
    ensures Told(c, DoClose(c), LastAck, false)
  {
    hide Enter, SendFin;
    if c.state == CloseWait {
      SentFin(c);
      Entered(SendFin(c), LastAck);
    }
  }

  lemma CloseGoes(c: Conn, unread: bool, pending: bool)
    requires PeerClosed(c.state)
    ensures Told(c, Close(c, unread, pending), if unread || pending then c.state else LastAck, false)
  {
    hide DoClose, SendRst;
    ResetTold(c);
    LastFinGoes(c);
  }

  lemma ResetTold(c: Conn)
    ensures Told(c, SendRst(c), c.state, false)
  {
  }

  lemma ReactGoes(c: Conn, call: Call)
    requires c.state == CloseWait
    ensures Told(c, React(c, call), if EndsSending(call) then LastAck else CloseWait, call.reaction == ShutsDown)
  {
    hide Close, ShutdownSend, Told;
    match call.reaction
    case Closes => CloseGoes(c, call.unread, call.pending);
    case ShutsDown => ShutdownTold(c, call.empty);
    case _ => Untold(c);
  }

  lemma Untold(c: Conn)
    ensures Told(c, c, c.state, false) && Told(c, ShutdownRecv(c), c.state, false)
  {
  }

  lemma ShutdownTold(c: Conn, empty: bool)
    requires c.state == CloseWait
    ensures Told(c, ShutdownSend(c, empty), if empty then LastAck else CloseWait, true)
  {
    hide Enter, SendFin;
    var c1 := c.(shutdownSend := true, closeOnEmpty := true);
    SentFin(c1);
    Entered(SendFin(c1), LastAck);
  }

  /** An unanswered SYN closes when the retries are used up, and TIME_WAIT when its time is over. */
  lemma ClosingTimersIff(c: Conn, now: nat)
    requires c.halted.None? && c.endPoint
    ensures Goes(c, Step(c, SynTimer(now)), Closed) <==> c.syn.count == 0 && c.state != Closed
    ensures Goes(c, Step(c, TimeWaitTimer), Closed) <==> c.state == TimeWait
  {
    hide SendSyn, CloseAndNotify;
    SynTimerGoes(c, now);
    if c.state == TimeWait {
      ClosedGoesDown(c);
    }
  }

  /** LAST_ACK gives the end point up exactly when the retries are used up. */
  lemma LastAckTimerIff(c: Conn)
    requires c.halted.None? && c.endPoint
    ensures !Step(c, LastAckTimer).endPoint <==> c.state == LastAck && c.dataRetrCount == 0
  {
    hide SendFin;
    if 0 < c.dataRetrCount {
      SentFin(c.(dataRetrCount := c.dataRetrCount - 1));
    }
  }

  /** So does the data timer, with data left. */
  lemma DataTimerIff(c: Conn, a: Answers)
    requires c.halted.None? && c.endPoint && c.state != SynSent
    ensures !Step(c, DataTimer(a)).endPoint <==>
            c.dataTimer && c.state != Closed && c.state != TimeWait && !a.empty && c.dataRetrCount == 0
  {
    hide SendFin, RetryData;
    SentFin(c);
    RetryGoes(c, a);
  }

  lemma RetryGoes(c: Conn, a: Answers)
    requires c.endPoint
    ensures RetryData(c, a).endPoint <==> 0 < c.dataRetrCount
  {
    hide Drain;
    if 0 < c.dataRetrCount {
      DrainActs(c.(dataRetrCount := c.dataRetrCount - 1), a.drained);
    }
  }

  lemma SynTimerGoes(c: Conn, now: nat)
    requires c.endPoint
    ensures Goes(c, SendSyn(c, now), Closed) <==> c.syn.count == 0 && c.state != Closed
  {
    hide Enter, Connect.Send;
    var c1 := c.(syn := Connect.Send(c.syn, now));
    if c.state != Closed {
      Entered(c1, Closed);
    } else {
      EnteredAgain(c1);
    }
  }
}
