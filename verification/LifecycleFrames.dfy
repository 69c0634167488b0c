/** What each operation on a connection may touch: one frame for the application's calls and for sending, used by all that
    is proved about the states. */
module LifecycleFrames {
  import opened TcpTypes
  import opened Lifecycle
  import Connect

  lemma Entered(c: Conn, state: State)
    requires state != c.state
    ensures Enter(c, state) == c.(state := state, trail := c.trail + [state])
  {
  }

  lemma EnteredAgain(c: Conn)
    ensures Enter(c, c.state) == c
  {
  }

  lemma SentFin(c: Conn)
    ensures SendFin(c) == c.(fins := if c.endPoint then c.fins + 1 else c.fins)
  {
  }

  /** CLOSED, wherever it started. */
  ghost predicate IsClosed(c: Conn, r: Conn) {
    && r.rx == c.rx && r.peerFin == c.peerFin && r.halted == c.halted && r.dataTimer == c.dataTimer
    && r.fins == c.fins && r.shutdownRecv == c.shutdownRecv && r.state == Closed && !r.endPoint
    && r.trail == if c.state == Closed then c.trail else c.trail + [Closed]
  }

  lemma ClosedDown(c: Conn)
    ensures IsClosed(c, CloseAndNotify(c))
  {
    hide Enter;
    if c.state != Closed {
      Entered(c, Closed);
    } else {
      EnteredAgain(c);
    }
  }

  /** One more SYN, or the end. */
  lemma AnotherSyn(c: Conn, now: nat)
    ensures
      var r := SendSyn(c, now);
      r == c.(syn := r.syn) || IsClosed(c, r)
  {
    hide Enter, Connect.Send;
    var c1 := c.(syn := Connect.Send(c.syn, now));
    if c.endPoint && c.syn.count == 0 {
      SynFails(c, c1);
    }
  }

  lemma SynFails(c: Conn, c1: Conn)
    requires c1 == c.(syn := c1.syn)
    ensures IsClosed(c, Enter(c1, Closed).(endPoint := false))
  {
    hide Enter;
    if c.state != Closed {
      Entered(c1, Closed);
    } else {
      EnteredAgain(c1);
    }
  }

  lemma Reset(c: Conn)
    ensures SendRst(c) == c.(rstSent := SendRst(c).rstSent, endPoint := false)
  {
  }

  // Application calls and sending

  /** How the application, or the last segment with a close pending, may move the state. */
  predicate Finishes(from: State, to: State) {
    match to
    case FinWait1 => from == SynRcvd || from == Established
    case LastAck => from == CloseWait
    case Closed => from == SynSent || from == Closing || from == Listen
    case _ => false
  }

  /** The application's calls and SendPendingData: the Rx buffer and the peer's FIN stay, and the state stays or finishes,
      our FIN sent if the end point was there to send it (and, in LAST_ACK, still is). */
  ghost predicate Acts(c: Conn, r: Conn) {
    && r.rx == c.rx && r.peerFin == c.peerFin && r.halted == c.halted
    && (r.endPoint ==> c.endPoint) && c.fins <= r.fins && (c.shutdownRecv ==> r.shutdownRecv)
    && (r.dataTimer ==> c.dataTimer || !Opening(c.state))
    && if r.state == c.state then r.trail == c.trail
       else
         && Finishes(c.state, r.state) && r.trail == c.trail + [r.state]
         && ((if r.state == FinWait1 then c.endPoint else r.state == LastAck && r.endPoint) ==> r.finSent)
  }

  lemma ActsNot(c: Conn)
    ensures Acts(c, c) && Acts(c, ShutdownRecv(c))
  {
  }

  lemma FinishActs(c: Conn, c1: Conn, state: State)
    requires Acts(c, c1) && c1.state == c.state && c1.endPoint == c.endPoint && Finishes(c.state, state)
    ensures Acts(c, Enter(SendFin(c1), state))
  {
    hide SendFin, Enter;
    SentFin(c1);
    Entered(SendFin(c1), state);
  }

  lemma AbortActs(c: Conn)
    requires Finishes(c.state, Closed)
    ensures Acts(c, CloseAndNotify(c)) && Acts(c, CloseAndNotify(SendRst(c)))
  {
    hide CloseAndNotify, SendRst;
    Reset(c);
    ClosedDown(c);
    ClosedDown(SendRst(c));
  }

  lemma DoCloseActs(c: Conn)
    ensures Acts(c, DoClose(c))
  {
    hide Enter, SendFin, CloseAndNotify, SendRst, Acts;
    ActsNot(c);
    match c.state
    case SynRcvd => FinishActs(c, c, FinWait1);
    case Established => FinishActs(c, c, FinWait1);
    case CloseWait => FinishActs(c, c, LastAck);
    case SynSent => AbortActs(c);
    case Closing => AbortActs(c);
    case Listen => AbortActs(c);
    case _ =>
  }

  lemma DeferActs(c: Conn)
    ensures Acts(c, SendRst(c)) && Acts(c, c.(closeOnEmpty := true))
    ensures Acts(c, c.(shutdownSend := true, closeOnEmpty := true))
  {
  }

  lemma CloseActs(c: Conn, unread: bool, pending: bool)
    ensures Acts(c, Close(c, unread, pending))
  {
    hide DoClose, SendRst, Acts;
    DeferActs(c);
    DoCloseActs(c);
  }

  lemma ShutdownActs(c: Conn, empty: bool)
    ensures Acts(c, ShutdownSend(c, empty))
  {
    hide SendFin, Enter, Acts;
    DeferActs(c);
    var c1 := c.(shutdownSend := true, closeOnEmpty := true);
    if c.state == Established {
      FinishActs(c, c1, FinWait1);
    } else if c.state == CloseWait {
      FinishActs(c, c1, LastAck);
    }
  }

  lemma ReactActs(c: Conn, call: Call)
    ensures Acts(c, React(c, call))
  {
    hide Close, ShutdownSend, ShutdownRecv, Acts;
    match call.reaction
    case Ignores => ActsNot(c);
    case Closes => CloseActs(c, call.unread, call.pending);
    case ShutsDown => ShutdownActs(c, call.empty);
    case StopsReading => ActsNot(c);
  }

  lemma DrainActs(c: Conn, drained: bool)
    ensures Acts(c, Drain(c, drained)) && Drain(c, drained).endPoint == c.endPoint
  {
    hide DrainWith, Acts;
    ActsNot(c);
    if c.endPoint && !Opening(c.state) {
      DrainWithActs(c, drained);
    }
  }

  lemma DrainWithActs(c: Conn, drained: bool)
    requires !Opening(c.state) && c.endPoint
    ensures
      var r := DrainWith(c.(dataTimer := true), drained);
      Acts(c, r) && r.endPoint
  {
    hide Enter;
    var c1 := c.(dataTimer := true, fins := c.fins + 1);
    if c.state == Established {
      Entered(c1, FinWait1);
    } else if c.state == CloseWait {
      Entered(c1, LastAck);
    }
  }

  /** In CLOSE_WAIT one call after the other finishes at most once. */
  lemma ActsTwice(c: Conn, m: Conn, r: Conn)
    requires (c.state == CloseWait || c.state == LastAck) && Acts(c, m) && Acts(m, r)
    ensures Acts(c, r)
  {
  }

  lemma NotifyActs(c: Conn, a: Answers)
    requires c.state == CloseWait
    ensures Acts(c, NotifyPeerClose(c, a))
  {
    hide Close, TellOfClose, Acts;
    TellActs(c, a);
    var c1 := TellOfClose(c, a);
    ActsNot(c1);
    CloseActs(c1, a.afterShutdown.unread, a.afterShutdown.pending);
    var c2 := if c1.shutdownSend then Close(c1, a.afterShutdown.unread, a.afterShutdown.pending) else c1;
    ActsTwice(c, c1, c2);
    ActsRetries(c, c2);
  }

  lemma ActsRetries(c: Conn, r: Conn)
    requires Acts(c, r)
    ensures Acts(c, r.(dataRetrCount := r.dataRetries))
  {
  }

  lemma TellActs(c: Conn, a: Answers)
    ensures Acts(c, TellOfClose(c, a))
  {
    hide React;
    ReactActs(c, a.onClose);
  }
}
