/** What the states say about the peer's FIN: when a FIN_WAIT state ends, when it falls back to CLOSE_WAIT, and whether
    the FIN was in sequence; and when a connection is reset. */
module LifecycleTheorems {
  import opened TcpTypes
  import opened Lifecycle
  import opened LifecycleFrames
  import opened LifecycleInvariants
  import Connect

  predicate InFinWait(state: State) {
    state == FinWait1 || state == FinWait2
  }

  predicate PeerClosed(state: State) {
    state == CloseWait || state == LastAck
  }

  predicate Ending(state: State) {
    state == Closing || state == TimeWait
  }

  /** Nothing failed, and a FIN that came into sequence is on record. */
  ghost predicate Noted(c: Conn, r: Conn) {
    r.halted.None? && (c.peerFin ==> r.peerFin) && (r.rx.next != c.rx.next && InSequence(r.rx) ==> r.peerFin)
  }

  // Data in the FIN_WAIT states

  /** The packet's data completes everything up to a FIN recorded before. */
  predicate Completes(rx: Rx, p: Packet, a: Answers) {
    rx.next < Taken(rx, p, a).next && Finished(Taken(rx, p, a))
  }

  /** CLOSE_WAIT was entered, and perhaps LAST_ACK after it. */
  ghost predicate FellBack(c: Conn, r: Conn) {
    && ((r.state == CloseWait && r.trail == c.trail + [CloseWait])
        || (r.state == LastAck && r.trail == c.trail + [CloseWait, LastAck]))
  }

  lemma DataInFinWait(c: Conn, p: Packet, a: Answers)
    requires InFinWait(c.state) && c.halted.None?
    ensures
      var r := ReceivedData(c, p, a);
      && r.rx == Taken(c.rx, p, a) && r.halted.None?
      && r.peerFin == (c.peerFin || (c.rx.next < r.rx.next && InSequence(r.rx)))
      && if Completes(c.rx, p, a) && !p.flags.fin then FellBack(c, r) else r.state == c.state && r.trail == c.trail
  {
    hide React, NotifyPeerClose, Finished;
    var rx := Taken(c.rx, p, a);
    if c.rx.next < rx.next {
      var c1 := WithRx(c, rx);
      ReactActs(c1, a.onData);
      var c2 := if c1.shutdownRecv then c1 else React(c1, a.onData);
      assert c2.trail == c.trail && c2.state == c.state;
      var c3 := Enter(c2, CloseWait);
      assert c3.trail == c.trail + [CloseWait];
      NotifyActs(c3, a);
      assert c.trail + [CloseWait] + [LastAck] == c.trail + [CloseWait, LastAck];
    }
  }

  lemma AckInFinWait(c: Conn, p: Packet, a: Answers)
    requires InFinWait(c.state) && c.halted.None? && p.flags.ack
    ensures
      var r := ReceivedAck(c, p, a);
      && r.rx == Taken(c.rx, p, a) && r.halted.None?
      && r.peerFin == (c.peerFin || (c.rx.next < r.rx.next && InSequence(r.rx)))
      && if Completes(c.rx, p, a) && !p.flags.fin then FellBack(c, r) else r.state == c.state && r.trail == c.trail
  {
    hide ReceivedData, Drain, Finished, InSequence;
    var c1 := Drain(c, a.drainedByAck);
    DrainActs(c, a.drainedByAck);
    DataInFinWait(c1, p, a);
    var c2 := if p.size > 0 then ReceivedData(c1, p, a) else c1;
    DrainActs(c2, a.drained);
    assert c.trail + [CloseWait] + [LastAck] == c.trail + [CloseWait, LastAck];
  }

  // When a FIN_WAIT state falls back

  /** An acceptable packet in a FIN_WAIT state takes the connection back to CLOSE_WAIT (or through it, when the application
      is done) exactly when its data completes everything up to a FIN recorded before and it is bare data or a plain ACK
      without FIN. */
  predicate FallsBack(rx: Rx, p: Packet, a: Answers) {
    Completes(rx, p, a) && !p.flags.fin && (!p.flags.ack || MaskEcn(p.flags) == ACK)
  }

  /** A segment that ProcessWait takes for a FIN. */
  predicate FinSegment(p: Packet) {
    MaskEcn(p.flags) == FIN_ACK || (MaskEcn(p.flags) == FIN && p.size == 0)
  }

  /** It enters CLOSING or TIME_WAIT exactly for a FIN numbered at or below NextRxSequence, and for other packets that find
      or complete a recorded FIN. */
  predicate EndsFinWait(rx: Rx, p: Packet, a: Answers) {
    if FinSegment(p) then p.seqNo <= rx.next
    else if p.size > 0 && !p.flags.ack then Finished(Taken(rx, p, a)) && (p.flags.fin || Finished(rx))
    else MaskEcn(p.flags) == ACK && Finished(rx)
  }

  /** CLOSING or TIME_WAIT is among the states a step gave. */
  ghost predicate Ended(c: Conn, r: Conn) {
    exists i :: |c.trail| <= i < |r.trail| && Ending(r.trail[i])
  }

  lemma TakenShape(rx: Rx, p: Packet, a: Answers)
    ensures
      var t := Taken(rx, p, a);
      && rx.next <= t.next && (Finished(rx) || rx.next < p.seqNo ==> t == rx)
      && (rx.next == t.next ==> t == rx) && t.fin == rx.fin && t.own == rx.own && (Completes(rx, p, a) ==> !Finished(rx))
  {
  }

  lemma EndFinWaitShape(c: Conn, a: Answers)
    requires InFinWait(c.state)
    ensures
      var r := EndFinWait(c, a);
      && r.rx == c.rx && r.peerFin == c.peerFin && r.halted == c.halted
      && c.trail < r.trail && Ending(r.trail[|c.trail|]) && Ending(r.state)
  {
    hide Enter, EnterTimeWait;
    Entered(c, Closing);
    TimeWaitEntered(c);
    TimeWaitEntered(Enter(c, Closing));
  }

  lemma TimeWaitEntered(c: Conn)
    requires c.state != TimeWait
    ensures EnterTimeWait(c) == c.(state := TimeWait, trail := c.trail + [TimeWait], closeNotified := true)
  {
    hide Enter;
    Entered(c, TimeWait);
  }

  /** The check at the end of ProcessWait, in a FIN_WAIT state. */
  lemma LeaveFinWaitEnds(c: Conn, a: Answers)
    requires InFinWait(c.state) && c.halted.None?
    ensures
      var r := LeaveFinWaitUnlessHalted(c, a);
      && r.rx == c.rx && r.halted.None? && r.peerFin == c.peerFin
      && if Finished(c.rx) then
           c.trail < r.trail && Ending(r.trail[|c.trail|]) && (Ending(r.state) || r.state == Closed)
         else r == c
  {
    hide React, Finished, EndFinWait;
    if Finished(c.rx) {
      EndFinWaitShape(c, a);
      ReactActs(EndFinWait(c, a), a.onEnd);
    }
  }

  /** A step that changed nothing, or fell back, entered neither. */
  lemma NotEnded(c: Conn, r: Conn)
    requires r.trail == c.trail || r.trail == c.trail + [FinWait2] || FellBack(c, r)
    ensures !Ended(c, r)
  {
  }

  lemma EndedAfter(c: Conn, m: Conn, r: Conn)
    requires m.trail == c.trail || m.trail == c.trail + [FinWait2]
    requires m.trail < r.trail && Ending(r.trail[|m.trail|])
    ensures Ended(c, r)
  {
  }

  // ProcessWait, by the kind of packet

  lemma WaitAckShape(c: Conn, p: Packet, a: Answers)
    requires InFinWait(c.state) && c.halted.None? && MaskEcn(p.flags) == ACK
    ensures
      var r := ProcessWait(c, p, a);
      && r.rx == Taken(c.rx, p, a) && Noted(c, r)
      && if Completes(c.rx, p, a) then FellBack(c, r)
         else if Finished(c.rx) then Ended(c, r) && (Ending(r.state) || r.state == Closed)
         else !Ended(c, r) && InFinWait(r.state)
  {
    hide ReceivedAck, LeaveFinWaitUnlessHalted, Taken, Finished, Enter;
    TakenShape(c.rx, p, a);
    AckInFinWait(c, p, a);
    var c1 := ReceivedAck(c, p, a);
    if c1.state == FinWait1 {
      Entered(c1, FinWait2);
    }
    var c2 := if c1.state == FinWait1 && a.empty && a.acksFin then Enter(c1, FinWait2) else c1;
    if Completes(c.rx, p, a) {
      LeaveWithoutEnd(c2, a);
    } else {
      LeaveFinWaitEnds(c2, a);
      if Finished(c.rx) {
        EndedAfter(c, c2, ProcessWait(c, p, a));
      } else {
        NotEnded(c, c2);
      }
    }
  }

  lemma LeaveWithoutEnd(c: Conn, a: Answers)
    requires !InFinWait(c.state)
    ensures LeaveFinWaitUnlessHalted(c, a) == c
  {
  }

  lemma WaitDataShape(c: Conn, p: Packet, a: Answers)
    requires InFinWait(c.state) && c.halted.None? && p.size > 0 && !p.flags.ack
    ensures
      var r := ProcessWait(c, p, a);
      && r.rx == Taken(c.rx, p, a) && Noted(c, r)
      && if Completes(c.rx, p, a) && !p.flags.fin then FellBack(c, r)
         else if Finished(Taken(c.rx, p, a)) then Ended(c, r) && (Ending(r.state) || r.state == Closed)
         else !Ended(c, r) && InFinWait(r.state)
  {
    hide ReceivedData, LeaveFinWaitUnlessHalted, Taken, Finished;
    TakenShape(c.rx, p, a);
    DataInFinWait(c, p, a);
    var c1 := ReceivedData(c, p, a);
    if Completes(c.rx, p, a) && !p.flags.fin {
      LeaveWithoutEnd(c1, a);
    } else {
      LeaveFinWaitEnds(c1, a);
      if Finished(c1.rx) {
        EndedAfter(c, c1, ProcessWait(c, p, a));
      } else {
        NotEnded(c, c1);
      }
    }
  }

  lemma WaitFinShape(c: Conn, p: Packet, a: Answers)
    requires InFinWait(c.state) && c.halted.None? && FinSegment(p)
    ensures
      var r := ProcessWait(c, p, a);
      && r.rx == SetFin(Taken(c.rx, p, a), p.seqNo, p.seqNo + p.size) && r.halted.None? && (c.peerFin ==> r.peerFin)
      && (InSequence(r.rx) ==> r.peerFin)
      && (Ended(c, r) <==> p.seqNo <= c.rx.next)
      && if p.seqNo <= c.rx.next then Ending(r.state) || r.state == Closed else InFinWait(r.state)
  {
    hide ReceivedAck, LeaveFinWaitUnlessHalted, Taken;
    TakenShape(c.rx, p, a);
    var c1 := if p.flags.ack then ReceivedAck(c, p, a) else c;
    if p.flags.ack {
      AckInFinWait(c, p, a);
    } else {
      NothingTaken(c.rx, p, a);
    }
    var c2 := WithRx(c1, SetFin(c1.rx, p.seqNo, p.seqNo + p.size));
    LeaveFinWaitEnds(c2, a);
    if p.seqNo <= c.rx.next {
      EndedAfter(c, c2, ProcessWait(c, p, a));
    } else {
      NotEnded(c, c2);
    }
  }

  lemma NothingTaken(rx: Rx, p: Packet, a: Answers)
    requires p.size == 0
    ensures Taken(rx, p, a) == rx
  {
  }

  lemma WaitOtherShape(c: Conn, p: Packet, a: Answers)
    requires InFinWait(c.state) && !FinSegment(p) && (p.flags.ack || p.size == 0) && MaskEcn(p.flags) != ACK
    ensures
      var r := ProcessWait(c, p, a);
      !Ended(c, r) && r.rx == c.rx && r.halted == c.halted && (r.state == c.state || r.state == Closed)
  {
    hide Refuse;
    Refused(c, p);
  }

  lemma Refused(c: Conn, p: Packet)
    requires c.state != Closed
    ensures
      var r := Refuse(c, p);
      r.trail == c.trail + [Closed] && r.rx == c.rx && r.halted == c.halted && r.state == Closed
  {
    hide Enter;
    Entered(c, Closed);
    Entered(SendRst(c), Closed);
  }

  /** In a FIN_WAIT state: which packets take the connection back to CLOSE_WAIT, and which on to CLOSING or TIME_WAIT. */
  lemma FinWaitIff(c: Conn, p: Packet, inWindow: bool, a: Answers)
    requires InFinWait(c.state) && c.endPoint && c.halted.None?
    requires p.size == 0 || !OutOfRange(c.state, c.rx, p.seqNo, p.seqNo + p.size)
    ensures
      var r := Step(c, Arrival(p, inWindow, a));
      && (PeerClosed(r.state) <==> FallsBack(c.rx, p, a))
      && (Ended(c, r) <==> EndsFinWait(c.rx, p, a))
  {
    hide ProcessWait, Taken, Finished;
    TakenShape(c.rx, p, a);
    if p.size > 0 && !p.flags.ack {
      WaitDataShape(c, p, a);
      FellBackNotEnded(c, p, a);
    } else if MaskEcn(p.flags) == ACK {
      WaitAckShape(c, p, a);
      FellBackNotEnded(c, p, a);
    } else if FinSegment(p) {
      WaitFinShape(c, p, a);
    } else {
      WaitOtherShape(c, p, a);
      if p.size == 0 {
        NothingTaken(c.rx, p, a);
      }
    }
  }

  lemma FellBackNotEnded(c: Conn, p: Packet, a: Answers)
    ensures
      var r := ProcessWait(c, p, a);
      FellBack(c, r) ==> !Ended(c, r) && PeerClosed(r.state)
  {
    hide ProcessWait;
  }

  /** A FIN_WAIT state that ends does so with the peer's FIN in sequence, all of its data before it received and none after
      it, exactly when the segment carrying the FIN ends where the data in order does. ProcessWait records the number of
      that segment's first byte, so a FIN that carries data, or an old one, can end the state otherwise. */
  lemma FinInSequenceIff(c: Conn, p: Packet, inWindow: bool, a: Answers)
    requires InFinWait(c.state) && c.endPoint && c.halted.None?
    requires p.size == 0 || !OutOfRange(c.state, c.rx, p.seqNo, p.seqNo + p.size)
    requires EndsFinWait(c.rx, p, a)
    ensures
      var end := Taken(c.rx, p, a).data;
      InSequence(Step(c, Arrival(p, inWindow, a)).rx) <==>
        if FinSegment(p) then p.seqNo + p.size == end else c.rx.own == Some(end)
  {
    hide ProcessWait, Taken, Finished;
    TakenShape(c.rx, p, a);
    if p.size > 0 && !p.flags.ack {
      WaitDataShape(c, p, a);
    } else if MaskEcn(p.flags) == ACK {
      WaitAckShape(c, p, a);
    } else {
      WaitFinShape(c, p, a);
    }
  }

  /** A FIN with 100 bytes of which the buffer takes 50: the state ends with half of the data missing. */
  lemma FinWithMissingData(c: Conn, p: Packet, inWindow: bool, a: Answers)
    requires c.state == FinWait2 && c.endPoint && c.halted.None? && c.rx.fin.None? && c.rx.next < c.rx.max
    requires p == Packet(FIN_ACK, c.rx.next, 100) && a.taken == Some(c.rx.next + 50)
    ensures
      var r := Step(c, Arrival(p, inWindow, a));
      Ended(c, r) && !InSequence(r.rx) && r.rx.next == p.seqNo + 50
  {
    hide ProcessWait;
    FinWaitIff(c, p, inWindow, a);
    FinInSequenceIff(c, p, inWindow, a);
    WaitFinShape(c, p, a);
  }

  /** A bare FIN numbered below data already received ends the state as well, without moving the Rx buffer. */
  lemma OldFinEnds(c: Conn, p: Packet, inWindow: bool, a: Answers)
    requires c.state == FinWait2 && c.endPoint && c.halted.None? && c.rx.next == c.rx.data
    requires p.flags == FIN_ACK && p.seqNo < c.rx.next && p.size == 0
    ensures
      var r := Step(c, Arrival(p, inWindow, a));
      Ended(c, r) && !InSequence(r.rx) && r.rx.next == c.rx.next
  {
    hide ProcessWait;
    FinWaitIff(c, p, inWindow, a);
    FinInSequenceIff(c, p, inWindow, a);
    WaitFinShape(c, p, a);
  }

  // Resets

  /** In CLOSING and LAST_ACK the ECN flags are not masked: an ACK that is taken up resets the connection exactly when it
      carries one of them. */
  lemma EcnAckResetsIff(c: Conn, p: Packet, inWindow: bool, a: Answers)
    requires (c.state == Closing || c.state == LastAck) && c.endPoint && c.halted.None? && !c.rstSent
    requires MaskEcn(p.flags) == ACK && (p.size == 0 || p.seqNo == c.rx.next)
    ensures
      var r := Step(c, Arrival(p, inWindow, a));
      (r.rstSent <==> p.flags.ece || p.flags.cwr) && (r.rstSent ==> r.state == Closed)
  {
    hide Enter, Taken;
    if !p.flags.ece && !p.flags.cwr {
      assert p.flags == ACK;
    }
    if c.state == Closing {
      Entered(c, TimeWait);
    } else {
      Entered(c, Closed);
    }
    Entered(SendRst(c), Closed);
  }

  /** An application that closes resets the connection without changing its state exactly when it left data unread. */
  lemma UnreadCloseIff(c: Conn, unread: bool, pending: bool)
    requires c.endPoint && c.halted.None? && !c.rstSent
    ensures
      var r := Step(c, AppClose(unread, pending));
      r.rstSent && r.state == c.state <==> unread
  {
    hide DoClose;
    if c.state == SynSent || c.state == Closing {
      CloseResets(c);
    } else {
      CloseSendsNoRst(c);
    }
  }

  lemma CloseResets(c: Conn)
    requires c.state == SynSent || c.state == Closing
    ensures DoClose(c).state == Closed
  {
    hide Enter;
    Entered(SendRst(c), Closed);
  }

  lemma FinishSendsNoRst(c: Conn, state: State)
    requires state != c.state
    ensures Enter(SendFin(c), state).rstSent == c.rstSent
  {
    hide Enter, SendFin;
    SentFin(c);
    Entered(SendFin(c), state);
  }

  lemma CloseSendsNoRst(c: Conn)
    ensures c.state != SynSent && c.state != Closing ==> DoClose(c).rstSent == c.rstSent
  {
    hide Enter, SendFin;
    match c.state
    case SynRcvd => FinishSendsNoRst(c, FinWait1);
    case Established => FinishSendsNoRst(c, FinWait1);
    case CloseWait => FinishSendsNoRst(c, LastAck);
    case Listen => Entered(c, Closed);
    case _ =>
  }
}
