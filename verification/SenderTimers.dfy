/** The retransmission timer and the retry count over runs in which the peer acknowledges nothing new. */
module SenderTimers {
  import opened TcpTypes
  import opened Arithmetic
  import opened Sender
  import opened SenderInvariants
  import opened SenderTheorems
  import Swift
  import H = RttHistory

  /** No new ACK and no empty segment sent: timeouts, writes, send attempts, congestion marks, and segments that
      acknowledge nothing past `una` and are not answered at once. A segment below SND.UNA is dropped unanswered. */
  predicate Silent(una: nat, e: Event) {
    match e
    case Segment(_, h, a) => h.ack <= una && (h.ack == una ==> a.dataAck.None?)
    case EmptyAck(_) => false
    case _ => true
  }

  predicate AllSilent(una: nat, es: seq<Event>) {
    forall i :: 0 <= i < |es| ==> Silent(una, es[i])
  }

  function Timeouts(es: seq<Event>): nat {
    if es == [] then 0 else Timeouts(es[..|es| - 1]) + if es[|es| - 1].Timeout? then 1 else 0
  }

  /** The timer, the retries, and where the outstanding data lies. */
  ghost predicate SameTimers(s: Socket, r: Socket) {
    && r.rto == s.rto && r.dataRetrCount == s.dataRetrCount && r.connected == s.connected
    && r.tx.head == s.tx.head && r.tx.tail == s.tx.tail
  }

  lemma {:induction false} SendLoopTimers(c: Config, s: Socket, offers: nat -> Offer, turn: nat)
    ensures SameTimers(s, SendLoop(c, s, offers, turn))
    decreases AvailableWindow(s)
  {
    hide Choose;
    var chosen := Choose(c, s, offers(turn));
    if chosen.Some? {
      SendChosenInFlight(c, s, offers(turn));
      SendLoopTimers(c, SendChosen(s, chosen.value, offers(turn).reduced), offers, turn + 1);
    }
  }

  lemma SendPendingDataTimers(c: Config, s: Socket, offers: nat -> Offer)
    ensures SameTimers(s, SendPendingData(c, s, offers))
  {
    SendLoopTimers(c, s, offers, 0);
  }

  lemma DoRetransmitTimers(s: Socket, r: Retry)
    ensures SameTimers(s, DoRetransmit(s, r))
  {
  }

  lemma DisorderAckTimers(c: Config, s: Socket, a: AckAnswers)
    ensures SameTimers(s, DisorderAck(c, s, a))
  {
    hide DoRetransmit;
    DoRetransmitTimers(Entering(c, s, a), a.entryRetry);
  }

  lemma DupAckTimers(c: Config, s: Socket, a: AckAnswers)
    ensures SameTimers(s, DupAck(c, s, a))
  {
    hide DisorderAck;
    DisorderAckTimers(c, CountDuplicate(s), a);
  }

  /** An ACK of nothing new, duplicate or not. */
  lemma OldAckTimers(c: Config, s: Socket, ack: nat, a: AckAnswers)
    ensures SameTimers(s, ProcessAck(c, s, ack, ack, a))
  {
    hide DupAck;
    DupAckTimers(c, s.(tcb := s.tcb.(lastAcked := ack)), a);
  }

  lemma DupSegmentTimers(c: Config, s: Socket, h: Header, a: AckAnswers)
    requires h.ack == s.tx.head && a.dataAck.None?
    ensures SameTimers(s, ReceivedAck(c, s, h, a))
  {
    hide ProcessAck, SendPendingData;
    var s1 := EcnEcho(Trimmed(c, s, h.ack, a), h.ack, s.tx.head, h.ece);
    OldAckTimers(c, s1, h.ack, a);
    SendPendingDataTimers(c, ProcessAck(c, s1, h.ack, s.tx.head, a), a.offers);
  }

  /** Nothing is measured by an ACK of nothing new: the front of the RTT history is past SND.UNA. */
  lemma ArriveTimers(s: Socket, now: nat, h: Header, a: AckAnswers)
    requires FrontPast(s.history, s.tx.head) && h.ack <= s.tx.head
    ensures SameTimers(s, Arrive(s, now, h, a))
  {
    RemainingFront(s.history, h.ack, s.tx.head);
  }

  lemma OldSegmentTimers(c: Config, s: Socket, now: nat, h: Header, a: AckAnswers)
    requires SeqInv(s) && FrontPast(s.history, s.tx.head)
    requires h.ack <= s.tx.head && (h.ack == s.tx.head ==> a.dataAck.None?)
    ensures SameTimers(s, Receive(c, s, now, h, a))
  {
    hide ReceivedAck, Arrive;
    ArriveTimers(s, now, h, a);
    ArriveFrame(s, now, h, a);
    if h.ack == s.tx.head {
      DupSegmentTimers(c, Arrive(s, now, h, a), h, a);
    }
  }

  /** A timeout doubles the timer and takes a retry, or gives the connection up; nothing else silent touches them. */
  lemma SilentStepTimers(c: Config, s: Socket, e: Event)
    requires SeqInv(s) && FrontPast(s.history, s.tx.head) && s.tx.head < s.tx.tail && Silent(s.tx.head, e)
    ensures
      var r := Step(c, s, e);
      && r.tx.head == s.tx.head < r.tx.tail
      && (!e.Timeout? || !s.connected ==>
            r.rto == s.rto && r.dataRetrCount == s.dataRetrCount && r.connected == s.connected)
      && (e.Timeout? && s.connected ==>
            if s.dataRetrCount == 0 then !r.connected && r.rto == s.rto && r.dataRetrCount == 0
            else r.connected && r.rto == Min(2 * s.rto, MAX_RTO) && r.dataRetrCount == s.dataRetrCount - 1)
  {
    hide SendPendingData, Receive;
    match e
    case Flush(now, offers) => SendPendingDataTimers(c, s.(now := now), offers);
    case Segment(now, h, a) => OldSegmentTimers(c, s, now, h, a);
    case Timeout(now, t) =>
      if s.connected {
        TimeoutTimers(c, s.(now := now), t);
      }
    case _ =>
  }

  lemma TimeoutTimers(c: Config, s: Socket, t: TimeoutAnswers)
    requires s.tx.head < s.tx.tail && s.connected
    ensures
      var r := ReTxTimeout(c, s, t);
      && r.tx.head == s.tx.head && r.tx.tail == s.tx.tail
      && if s.dataRetrCount == 0 then !r.connected && r.rto == s.rto && r.dataRetrCount == 0
         else r.connected && r.rto == Min(2 * s.rto, MAX_RTO) && r.dataRetrCount == s.dataRetrCount - 1
  {
    hide SendPendingData, Swift.CongestionStateSet;
    if s.dataRetrCount > 0 {
      SendPendingDataTimers(c, Backoff(c, s, t), Unpaced(t.offers));
    }
  }

  /** One more doubling under the cap. */
  lemma DoubleUnderCap(n: nat, rto0: nat, rto: nat)
    requires rto == Min(Power2(n) * rto0, MAX_RTO)
    ensures Min(2 * rto, MAX_RTO) == Min(Power2(n + 1) * rto0, MAX_RTO)
  {
    assert Power2(n + 1) * rto0 == 2 * (Power2(n) * rto0);
  }

  /** The timers after n timeouts that began with timer `rto0` and `m` retries. */
  ghost predicate BackedOff(r: Socket, n: nat, rto0: nat, m: nat) {
    && r.tx.head < r.tx.tail
    && (r.connected <==> n <= m)
    && r.rto == Min(Power2(Min(n, m)) * rto0, MAX_RTO)
    && r.dataRetrCount == m - Min(n, m)
  }

  lemma BackedOffStep(c: Config, s: Socket, e: Event, n: nat, rto0: nat, m: nat)
    requires SeqInv(s) && FrontPast(s.history, s.tx.head) && Silent(s.tx.head, e)
    requires BackedOff(s, n, rto0, m)
    ensures BackedOff(Step(c, s, e), if e.Timeout? then n + 1 else n, rto0, m) && Step(c, s, e).tx.head == s.tx.head
  {
    hide Step, SeqInv;
    SilentStepTimers(c, s, e);
    DoubleUnderCap(Min(n, m), rto0, s.rto);
  }

  lemma NoTimeoutsYet(s: Socket)
    requires s.tx.head < s.tx.tail && s.connected && s.rto <= MAX_RTO
    ensures BackedOff(s, 0, s.rto, s.dataRetrCount)
  {
  }

  lemma InvFront(c: Config, s: Socket, first: nat)
    requires Inv(c, s, first)
    ensures SeqInv(s) && FrontPast(s.history, s.tx.head)
  {
  }

  /** RFC 6298, rule 5.5, from any state a run can reach with data outstanding: while no new ACK arrives and no empty
      segment is sent, old and duplicate ACKs included, n timeouts double the timer n times up to 60 seconds; the first
      `dataRetrCount` of them take a retry each and the one after gives the connection up. */
  lemma {:induction false} TimeoutsBackOff(c: Config, s: Socket, first: nat, es: seq<Event>)
    requires Inv(c, s, first) && s.tx.head < s.tx.tail && s.connected && s.rto <= MAX_RTO && AllSilent(s.tx.head, es)
    ensures BackedOff(Run(c, s, es), Timeouts(es), s.rto, s.dataRetrCount) && Run(c, s, es).tx.head == s.tx.head
  {
    hide Inv, Step, BackedOff, SeqInv;
    if es == [] {
      NoTimeoutsYet(s);
    } else {
      var front, e := es[..|es| - 1], es[|es| - 1];
      TimeoutsBackOff(c, s, first, front);
      RunKeeps(c, s, first, front);
      InvFront(c, Run(c, s, front), first);
      BackedOffStep(c, Run(c, s, front), e, Timeouts(front), s.rto, s.dataRetrCount);
    }
  }

  // What a timeout sends

  /** With data outstanding a timeout that finds a retry sends exactly when the peer's window has room for a segment, or
      for all that is left, and Nagle does not hold back what is left; the first segment then starts at SND.UNA, as rule
      5.4 of RFC 6298 has it. The window and Nagle are asked about data already sent as if it were new. */
  lemma TimeoutResendsIff(c: Config, s: Socket, now: nat, t: TimeoutAnswers)
    requires s.connected && 0 < s.dataRetrCount && s.tx.head < s.tcb.highTx <= s.tx.tail
    ensures
      var r, left, segment := Step(c, s, Timeout(now, t)), s.tx.tail - s.tx.head, s.tcb.segmentSize;
      if 0 < s.rWnd && (segment <= s.rWnd || left <= s.rWnd) && (c.noDelay || segment <= left) then
        s.sends < r.sends && r.sends[|s.sends|].lo == s.tx.head
      else r.sends == s.sends
  {
    hide Swift.GetSsThresh, SendChosen;
    var s0, offers := s.(now := now), Unpaced(t.offers);
    var s1 := Backoff(c, s0, t);
    assert s1.sends == s.sends && s1.tx.head == s.tx.head && s1.connected;
    var chosen := Choose(c, s1, offers(0));
    if chosen.Some? {
      SendChosenAdds(s1, chosen.value, offers(0).reduced);
      SendLoopOnlyAdds(c, SendChosen(s1, chosen.value, offers(0).reduced), offers, 1);
    }
  }

  // Nagle and a lost tail

  /** After a timeout, with less than a segment left of which something was sent, and Nagle on. */
  predicate Stalled(c: Config, s: Socket) {
    && !c.noDelay && s.tcb.cong == Loss
    && s.tx.head < s.tcb.highTx <= s.tx.tail && s.tx.tail - s.tx.head < s.tcb.segmentSize
  }

  /** Nothing arrives that acknowledges any of the bytes outstanding. */
  predicate NothingNew(una: nat, high: nat, e: Event) {
    e.Segment? ==> e.header.ack <= una || high < e.header.ack
  }

  function BytesWritten(es: seq<Event>): nat {
    if es == [] then 0
    else BytesWritten(es[..|es| - 1]) + if es[|es| - 1].Write? then es[|es| - 1].size else 0
  }

  lemma NagleHolds(c: Config, s: Socket, offers: nat -> Offer)
    requires Stalled(c, s)
    ensures SendPendingData(c, s, offers) == s
  {
    assert Choose(c, s, offers(0)) == None;
  }

  /** What a stalled sender keeps. */
  ghost predicate StillStalled(s: Socket, r: Socket, written: nat) {
    && r.sends == s.sends && r.tx.head == s.tx.head && r.tx.tail == s.tx.tail + written
    && r.tcb.highTx == s.tcb.highTx && r.tcb.cong == s.tcb.cong && r.tcb.segmentSize == s.tcb.segmentSize
  }

  lemma StalledStep(c: Config, s: Socket, e: Event)
    requires Stalled(c, s) && NothingNew(s.tx.head, s.tcb.highTx, e)
    ensures StillStalled(s, Step(c, s, e), if e.Write? then e.size else 0)
  {
    hide SendPendingData, Receive, Backoff;
    match e
    case Flush(now, offers) => NagleHolds(c, s.(now := now), offers);
    case Segment(now, h, a) => StalledSegment(c, s, now, h, a);
    case Timeout(now, t) =>
      if s.connected && 0 < s.dataRetrCount {
        StalledBackoff(c, s.(now := now), t);
        NagleHolds(c, Backoff(c, s.(now := now), t), Unpaced(t.offers));
      }
    case _ =>
  }

  lemma StalledBackoff(c: Config, s: Socket, t: TimeoutAnswers)
    requires Stalled(c, s) && 0 < s.dataRetrCount
    ensures StillStalled(s, Backoff(c, s, t), 0)
  {
  }

  lemma StalledSegment(c: Config, s: Socket, now: nat, h: Header, a: AckAnswers)
    requires Stalled(c, s) && (h.ack <= s.tx.head || s.tcb.highTx < h.ack)
    ensures StillStalled(s, Receive(c, s, now, h, a), 0)
  {
    hide Arrive, ReceivedAck;
    ArriveFrame(s, now, h, a);
    if h.ack == s.tx.head {
      StalledAck(c, Arrive(s, now, h, a), h, a);
    }
  }

  lemma StalledAck(c: Config, s: Socket, h: Header, a: AckAnswers)
    requires Stalled(c, s) && h.ack == s.tx.head
    ensures StillStalled(s, ReceivedAck(c, s, h, a), 0)
  {
    hide ProcessAck, SendPendingData, EcnEcho, Trimmed;
    var s1 := EcnEcho(Trimmed(c, s, h.ack, a), h.ack, s.tx.head, h.ece);
    StalledTrimmed(c, s, h, a);
    StalledProcess(c, s1, h.ack, a);
    var s2 := ProcessAck(c, s1, h.ack, s.tx.head, a);
    NagleHolds(c, if a.dataAck.Some? then SendAck(s2, a.dataAck.value) else s2, a.offers);
  }

  lemma StalledTrimmed(c: Config, s: Socket, h: Header, a: AckAnswers)
    requires Stalled(c, s) && h.ack == s.tx.head
    ensures StillStalled(s, EcnEcho(Trimmed(c, s, h.ack, a), h.ack, s.tx.head, h.ece), 0)
  {
  }

  lemma StalledProcess(c: Config, s: Socket, ack: nat, a: AckAnswers)
    requires Stalled(c, s) && ack == s.tx.head
    ensures StillStalled(s, ProcessAck(c, s, ack, ack, a), 0)
  {
    hide PktsAcked;
    PktsAckedQuiet(NoteAck(c, s, ack, IsDupack(c, s, ack, ack, a.sackUpdated), a));
  }

  /** With Nagle on, a sender that timed out with less than a segment left never sends those bytes again, whatever timers
      run out and whatever arrives short of an ACK of them, unless the application fills the segment. */
  lemma {:induction false} NagleStalls(c: Config, s: Socket, es: seq<Event>)
    requires Stalled(c, s) && s.tx.tail + BytesWritten(es) - s.tx.head < s.tcb.segmentSize
    requires forall i :: 0 <= i < |es| ==> NothingNew(s.tx.head, s.tcb.highTx, es[i])
    ensures StillStalled(s, Run(c, s, es), BytesWritten(es))
  {
    hide Step;
    if es != [] {
      NagleStalls(c, s, es[..|es| - 1]);
      StalledStep(c, Run(c, s, es[..|es| - 1]), es[|es| - 1]);
    }
  }

  /** All that is left in one segment, then the pacing timer runs. */
  function OneWrite(size: Positive): nat -> Offer {
    (turn: nat) => Offer(turn > 0, true, 0, size, size, 0)
  }

  /** A connection that writes less than a segment and loses it: sent once, and never again. */
  lemma LostTailIsNeverResent(c: Config, b: Start, size: Positive, at: nat, t: TimeoutAnswers, es: seq<Event>)
    requires !c.noDelay && 0 < c.dataRetries
    requires size + BytesWritten(es) < b.segmentSize <= Min(b.rWnd, b.cWnd)
    requires forall i :: 0 <= i < |es| ==> NothingNew(b.first, b.first + size, es[i])
    ensures
      var s := After(c, b, [Write(size)] + [Flush(0, OneWrite(size))] + [Timeout(at, t)]);
      s.sends == [H.Span(b.first, b.first + size)] && Run(c, s, es).sends == s.sends
  {
    var s0, flush, late := Fresh(c, b), Flush(0, OneWrite(size)), Timeout(at, t);
    RunAppend(c, s0, [], Write(size));
    RunAppend(c, s0, [Write(size)], flush);
    RunAppend(c, s0, [Write(size)] + [flush], late);
    var s2 := Step(c, Step(c, s0, Write(size)), flush);
    TailSent(c, b, size);
    TimeoutResendsIff(c, s2, at, t);
    hide Step;
    TimeoutStalls(c, s2, at, t);
    NagleStalls(c, Step(c, s2, late), es);
  }

  lemma TailSent(c: Config, b: Start, size: Positive)
    requires size <= b.segmentSize <= Min(b.rWnd, b.cWnd)
    ensures
      var s := Step(c, Step(c, Fresh(c, b), Write(size)), Flush(0, OneWrite(size)));
      && s.sends == [H.Span(b.first, b.first + size)] && s.tx.head == b.first && s.tx.tail == b.first + size
      && s.tcb.highTx == b.first + size && s.connected && s.dataRetrCount == c.dataRetries
      && s.tcb.segmentSize == b.segmentSize
  {
    var s, o := Step(c, Fresh(c, b), Write(size)), OneWrite(size);
    assert s.(now := 0) == s;
    assert Choose(c, s, o(0)) == Some(H.Span(b.first, b.first + size));
    var s1 := SendChosen(s, H.Span(b.first, b.first + size), 0);
    assert Choose(c, s1, o(1)) == None;
    assert SendLoop(c, s1, o, 1) == s1;
    assert SendLoop(c, s, o, 0) == s1;
  }

  lemma TimeoutStalls(c: Config, s: Socket, at: nat, t: TimeoutAnswers)
    requires !c.noDelay && s.connected && 0 < s.dataRetrCount
    requires s.tx.head < s.tcb.highTx <= s.tx.tail && s.tx.tail - s.tx.head < s.tcb.segmentSize
    ensures
      var r := Step(c, s, Timeout(at, t));
      Stalled(c, r) && r.tx.head == s.tx.head && r.tx.tail == s.tx.tail && r.tcb.highTx == s.tcb.highTx
      && r.tcb.segmentSize == s.tcb.segmentSize
  {
    hide Swift.GetSsThresh;
    NagleHolds(c, Backoff(c, s.(now := at), t), Unpaced(t.offers));
  }
}
