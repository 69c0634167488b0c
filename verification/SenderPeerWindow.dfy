/** The assertion of SendDataPacket that new data stays inside the peer's window: when it holds, and who breaks it. */
module SenderPeerWindow {
  import opened TcpTypes
  import opened Sender
  import opened SenderInvariants
  import opened SenderTheorems
  import H = RttHistory

  /** The largest segment a turn of the send loop asks for. */
  function MaxSize(s: Socket, o: Offer): int {
    Min(Min(AvailableWindow(s), s.tcb.segmentSize), o.limit)
  }

  /** The source's assertion for that turn: a retransmission, or data within the window counted from the highest ACK
      received. */
  predicate InPeerWindow(c: Config, s: Socket, o: Offer) {
    var seg := Choose(c, s, o);
    seg.Some? ==> seg.value.lo < s.tcb.highTx || seg.value.lo + MaxSize(s, o) <= s.highRxAck + s.rWnd
  }

  /** The Tx buffer asks the socket for the peer's window: new data it names ends within that window, counted from
      SND.UNA. */
  predicate Bounded(s: Socket, o: Offer) {
    s.tcb.highTx + o.limit <= s.tx.head + s.rWnd
  }

  /** A turn that the pacing timer does not stop, and that names new data up to `limit`. */
  function NewData(limit: Positive): Offer {
    Offer(false, true, 0, limit, 1, 0)
  }

  /** In a given state some offer within the peer's window fails the assertion exactly when the turn can send new data,
      the highest ACK received is behind SND.UNA, and the segment asked for reaches past the window counted from it. */
  lemma PeerWindowAssertionIff(c: Config, s: Socket)
    requires SeqInv(s) && 0 < s.tx.head
    ensures (exists o: Offer :: Bounded(s, o) && !InPeerWindow(c, s, o)) <==>
            var window, left, room := AvailableWindow(s), s.tx.tail - s.tcb.highTx, s.tx.head + s.rWnd - s.tcb.highTx;
            && 0 < window && 0 < left && 0 < room && !(s.tx.retryHead && s.tx.head < s.tcb.highTx)
            && (s.tcb.segmentSize <= window || left <= window)
            && (c.noDelay || s.tx.head == s.tcb.highTx || s.tcb.segmentSize <= left)
            && s.highRxAck + s.rWnd < s.tcb.highTx + Min(Min(window, s.tcb.segmentSize), room)
  {
    var room := s.tx.head + s.rWnd - s.tcb.highTx;
    if 0 < room {
      var o := NewData(room);
      assert Bounded(s, o);
      assert s.tcb.highTx < s.tx.tail && !(s.tx.retryHead && s.tx.head < s.tcb.highTx) ==>
          NextSeg(s.tx, s.tcb.highTx, o.found, o.at) == Some(s.tcb.highTx);
    }
  }

  // Over runs

  /** Every turn of a send loop, for offers within the peer's window. */
  ghost predicate LoopInPeerWindow(c: Config, s: Socket, offers: nat -> Offer, turn: nat)
    decreases AvailableWindow(s)
  {
    var o := offers(turn);
    && (Bounded(s, o) ==> InPeerWindow(c, s, o))
    && match Choose(c, s, o)
       case None => true
       case Some(seg) => LoopInPeerWindow(c, SendChosen(s, seg, o.reduced), offers, turn + 1)
  }

  /** The ACK that moved SND.UNA was counted as the highest. */
  predicate Covered(s: Socket) {
    s.tx.head <= s.highRxAck
  }

  lemma {:induction false} CoveredLoop(c: Config, s: Socket, offers: nat -> Offer, turn: nat)
    requires Covered(s)
    ensures LoopInPeerWindow(c, s, offers, turn)
    decreases AvailableWindow(s)
  {
    var chosen := Choose(c, s, offers(turn));
    if chosen.Some? {
      SendChosenInFlight(c, s, offers(turn));
      CoveredLoop(c, SendChosen(s, chosen.value, offers(turn).reduced), offers, turn + 1);
    }
  }

  /** The events that try to send. */
  predicate TriesToSend(s: Socket, e: Event) {
    match e
    case Flush(_, _) => true
    case Segment(_, h, _) => s.connected && s.tx.head <= h.ack <= s.tcb.highTx
    case Timeout(_, _) => s.connected && s.tx.head < s.tx.tail && 0 < s.dataRetrCount
    case _ => false
  }

  function OffersOf(e: Event): nat -> Offer
    requires e.Flush? || e.Segment? || e.Timeout?
  {
    match e
    case Flush(_, offers) => offers
    case Segment(_, _, a) => a.offers
    case Timeout(_, t) => Unpaced(t.offers)
  }

  /** The state in which such an event starts to send. */
  function BeforeSending(c: Config, s: Socket, e: Event): Socket
    requires TriesToSend(s, e)
  {
    match e
    case Flush(now, _) => s.(now := now)
    case Segment(now, h, a) => TakeAck(c, Arrive(s, now, h, a), h, a)
    case Timeout(now, t) => Backoff(c, s.(now := now), t)
  }

  /** What such an event does is to send from there. */
  lemma ThenSends(c: Config, s: Socket, e: Event)
    requires TriesToSend(s, e)
    ensures Step(c, s, e) == SendPendingData(c, BeforeSending(c, s, e), OffersOf(e))
  {
    hide SendPendingData, TakeAck, Backoff;
    if e.Segment? {
      ArriveFrame(s, e.at, e.header, e.answers);
    }
  }

  /** An ACK in range is counted before it moves SND.UNA. */
  lemma AckCovers(c: Config, s: Socket, first: nat, now: nat, h: Header, a: AckAnswers)
    requires Inv(c, s, first) && s.tx.head <= h.ack <= s.tcb.highTx
    ensures Covered(TakeAck(c, Arrive(s, now, h, a), h, a))
  {
    hide Inv, MidInv, ProcessAck, EcnEcho, Trimmed, EpisodeOpen, AccountAt;
    var s1 := Arrive(s, now, h, a);
    ArriveFrame(s, now, h, a);
    ArriveKeeps(c, s, first, now, h, a);
    AckCounted(s, now, h, a);
    TakenKeeps(c, s1, first, h, a);
  }

  lemma AckCounted(s: Socket, now: nat, h: Header, a: AckAnswers)
    ensures Arrive(s, now, h, a).highRxAck == Max(s.highRxAck, h.ack)
  {
  }

  lemma TakenKeeps(c: Config, s: Socket, first: nat, h: Header, a: AckAnswers)
    requires Inv(c, s, first) && s.tx.head <= h.ack <= s.tcb.highTx && FrontPast(s.history, h.ack)
    ensures TakeAck(c, s, h, a).tx.head == h.ack && TakeAck(c, s, h, a).highRxAck == s.highRxAck
  {
    hide EcnInv, WireInv, CongInv, EntryInv, ProcessAck, Trimmed, AccountAt, Inv;
    var s1 := EcnEcho(Trimmed(c, s, h.ack, a), h.ack, s.tx.head, h.ece);
    DiscardKeeps(c, s, first, h, a);
    ProcessAckKeeps(c, s1, first, h.ack, s.tx.head, a);
    TrimmedCounted(c, s, h, a);
  }

  lemma TrimmedCounted(c: Config, s: Socket, h: Header, a: AckAnswers)
    ensures EcnEcho(Trimmed(c, s, h.ack, a), h.ack, s.tx.head, h.ece).highRxAck == s.highRxAck
  {
  }

  lemma BeforeCovered(c: Config, s: Socket, first: nat, e: Event)
    requires Inv(c, s, first) && Covered(s) && TriesToSend(s, e)
    ensures Covered(BeforeSending(c, s, e))
  {
    hide Inv, TakeAck;
    match e
    case Segment(now, h, a) =>
      InvOrdered(c, s, first);
      AckCovers(c, s, first, now, h, a);
    case _ =>
  }

  lemma InvOrdered(c: Config, s: Socket, first: nat)
    requires Inv(c, s, first)
    ensures SeqInv(s)
  {
  }

  lemma {:induction false} SendLoopCounted(c: Config, s: Socket, offers: nat -> Offer, turn: nat)
    ensures
      var r := SendLoop(c, s, offers, turn);
      r.tx.head == s.tx.head && r.highRxAck == s.highRxAck
    decreases AvailableWindow(s)
  {
    hide Choose;
    var chosen := Choose(c, s, offers(turn));
    if chosen.Some? {
      SendChosenInFlight(c, s, offers(turn));
      SendLoopCounted(c, SendChosen(s, chosen.value, offers(turn).reduced), offers, turn + 1);
    }
  }

  lemma StepCovered(c: Config, s: Socket, first: nat, e: Event)
    requires Inv(c, s, first) && Covered(s)
    ensures Covered(Step(c, s, e))
  {
    hide Inv, SendLoop, BeforeSending, Arrive, Backoff;
    if TriesToSend(s, e) {
      BeforeCovered(c, s, first, e);
      ThenSends(c, s, e);
      SendLoopCounted(c, BeforeSending(c, s, e), OffersOf(e), 0);
    } else if e.Segment? {
      ArriveFrame(s, e.at, e.header, e.answers);
      AckCounted(s, e.at, e.header, e.answers);
    }
  }

  lemma {:induction false} RunCovered(c: Config, b: Start, es: seq<Event>)
    requires b.first <= b.highRxAck
    ensures Covered(After(c, b, es))
  {
    hide Step, Inv;
    if es != [] {
      RunCovered(c, b, es[..|es| - 1]);
      AfterInv(c, b, es[..|es| - 1]);
      StepCovered(c, After(c, b, es[..|es| - 1]), b.first, es[|es| - 1]);
    }
  }

  /** No connection whose handshake left these numbers ever fails the assertion in a send loop. */
  ghost predicate StaysInPeerWindow(c: Config, first: Positive, highRxAck: nat) {
    forall b: Start, es: seq<Event>, e: Event ::
      b.first == first && b.highRxAck == highRxAck && TriesToSend(After(c, b, es), e) ==>
        LoopInPeerWindow(c, BeforeSending(c, After(c, b, es), e), OffersOf(e), 0)
  }

  /** That holds exactly when the handshake counted the ACK of the SYN: after an active open, not after a passive one,
      whose highest ACK is still 0 and whose first byte is 1. */
  lemma StaysInPeerWindowIff(c: Config, first: Positive, highRxAck: nat)
    ensures StaysInPeerWindow(c, first, highRxAck) <==> first <= highRxAck
  {
    hide LoopInPeerWindow, BeforeSending, Inv;
    if first <= highRxAck {
      forall b: Start, es: seq<Event>, e: Event
        | b.first == first && b.highRxAck == highRxAck && TriesToSend(After(c, b, es), e)
        ensures LoopInPeerWindow(c, BeforeSending(c, After(c, b, es), e), OffersOf(e), 0)
      {
        RunCovered(c, b, es);
        AfterInv(c, b, es);
        BeforeCovered(c, After(c, b, es), b.first, e);
        CoveredLoop(c, BeforeSending(c, After(c, b, es), e), OffersOf(e), 0);
      }
    } else {
      var b := Start(1, 1, 2, first, 1, SECOND, EcnDisabled, 0, 64, highRxAck);
      FirstFlightOverruns(c, b);
    }
  }

  function NewDataOnce(limit: Positive): nat -> Offer {
    (turn: nat) => NewData(limit)
  }

  /** A first flight that fills the peer's window, from a connection that did not count the ACK of its SYN. */
  lemma FirstFlightOverruns(c: Config, b: Start)
    requires b.highRxAck < b.first && 0 < b.rWnd <= Min(b.cWnd, b.segmentSize)
    ensures
      var s, e := After(c, b, [Write(b.rWnd)]), Flush(0, NewDataOnce(b.rWnd));
      TriesToSend(s, e) && !LoopInPeerWindow(c, BeforeSending(c, s, e), OffersOf(e), 0)
  {
    var s0 := Fresh(c, b);
    RunAppend(c, s0, [], Write(b.rWnd));
    var s, o := Step(c, s0, Write(b.rWnd)), NewData(b.rWnd);
    assert s.(now := 0) == s;
    assert Choose(c, s, o) == Some(H.Span(b.first, b.first + 1));
    assert Bounded(s, o) && !InPeerWindow(c, s, o);
  }
}
