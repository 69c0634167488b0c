/** ECN event by event: which echoes are recorded, what clears them, and exactly when the window is cut for one. */
module SenderEcn {
  import opened TcpTypes
  import opened Sender
  import opened SenderInvariants
  import opened SenderTheorems
  import opened SenderMachine
  import Swift
  import H = RttHistory

  /** An echo that counts: it comes with an ACK of new data while ECN is on. */
  predicate Echoes(s: Socket, h: Header) {
    s.tx.head < h.ack && s.tcb.ecn != EcnDisabled && h.ece
  }

  /** The ECN state once an ACK in range has been looked at: such an echo is pending, any other ACK without ECE clears a
      pending one. */
  function Heard(s: Socket, h: Header): EcnState {
    if Echoes(s, h) then EceReceived
    else if s.tcb.ecn == EceReceived && !h.ece then EcnIdle
    else s.tcb.ecn
  }

  /** An empty ACK passes a congestion mark on to the peer. */
  function PassedOn(ecn: EcnState): EcnState {
    if ecn == CeReceived then SendingEce else ecn
  }

  /** What an event does once the echo is known: the first new data sent while an echo newer than the last reduction is
      pending records one reduction at the high mark, and nothing else records any. */
  ghost predicate Reaction(s: Socket, r: Socket, ecn: EcnState, echo: nat, una: nat, answered: bool) {
    var cut := ecn == EceReceived && s.ecnCwrSeq < echo && s.tcb.highTx < r.tcb.highTx;
    && r.ecnEchoSeq == echo
    && r.cuts == s.cuts + (if cut then [Cut(una, s.tcb.highTx)] else [])
    && r.ecnCwrSeq == (if cut then s.tcb.highTx else s.ecnCwrSeq)
    && r.tcb.ecn == if cut then CwrSent else if answered then PassedOn(ecn) else ecn
  }

  lemma InvEcn(c: Config, s: Socket, first: nat)
    requires Inv(c, s, first)
    ensures s.ecnEchoSeq <= s.tx.head && SeqInv(s) && EcnInv(s) && WireInv(s)
  {
  }

  lemma HeardEcho(c: Config, s: Socket, h: Header, a: AckAnswers)
    requires s.ecnEchoSeq <= s.tx.head <= h.ack
    ensures
      var r := EcnEcho(Trimmed(c, s, h.ack, a), h.ack, s.tx.head, h.ece);
      && r.tcb == s.tcb.(ecn := Heard(s, h)) && r.ecnEchoSeq == (if Echoes(s, h) then h.ack else s.ecnEchoSeq)
      && r.cuts == s.cuts && r.ecnCwrSeq == s.ecnCwrSeq && r.tx.head == h.ack && r.tx.tail == s.tx.tail
  {
  }

  /** The processing of the ACK, up to the send loop. */
  lemma ProcessReacts(c: Config, s: Socket, first: nat, h: Header, a: AckAnswers)
    requires Inv(c, s, first) && s.tx.head <= h.ack <= s.tcb.highTx && FrontPast(s.history, h.ack)
    ensures
      var echo := if Echoes(s, h) then h.ack else s.ecnEchoSeq;
      var r := TakeAck(c, s, h, a);
      Reaction(s, r, Heard(s, h), echo, h.ack, a.dataAck.Some?) && r.tx.head == h.ack
  {
    hide TxInv, ControlInv, ProcessAck, Trimmed, AccountAt, Inv, EcnEcho;
    InvEcn(c, s, first);
    var s1 := EcnEcho(Trimmed(c, s, h.ack, a), h.ack, s.tx.head, h.ece);
    HeardEcho(c, s, h, a);
    DiscardKeeps(c, s, first, h, a);
    ProcessAckKeeps(c, s1, first, h.ack, s.tx.head, a);
  }

  /** Sending afterwards reacts to whatever is still pending. */
  lemma ThenReacts(s: Socket, m: Socket, r: Socket, ecn: EcnState, echo: nat, answered: bool)
    requires Reaction(s, m, ecn, echo, m.tx.head, answered) && EcnReacts(m, r) && s.tcb.highTx <= m.tcb.highTx
    ensures Reaction(s, r, ecn, echo, m.tx.head, answered)
  {
  }

  lemma SendingReacts(c: Config, s: Socket, first: nat, offers: nat -> Offer)
    requires Inv(c, s, first)
    ensures EcnReacts(s, SendPendingData(c, s, offers))
  {
    InvEcn(c, s, first);
    SendPendingDataKeeps(c, s, offers);
  }

  /** An ACK in range with ECE that moves SND.UNA while ECN is on is recorded as the pending echo; without ECE it clears a
      pending one. If new data leaves with it while an echo newer than the last reduction is pending, the window is cut,
      once, and the state is CWR_SENT; otherwise no reduction is recorded. */
  lemma AckReaction(c: Config, s: Socket, first: nat, now: nat, h: Header, a: AckAnswers)
    requires Inv(c, s, first) && InRange(s, h)
    ensures
      var echo := if Echoes(s, h) then h.ack else s.ecnEchoSeq;
      Reaction(s, Step(c, s, Segment(now, h, a)), Heard(s, h), echo, h.ack, a.dataAck.Some?)
  {
    hide Inv, TakeAck, SendPendingData, Arrive, Reaction, EcnReacts;
    var s1 := Arrive(s, now, h, a);
    ArriveFrame(s, now, h, a);
    ArriveKeeps(c, s, first, now, h, a);
    ProcessReacts(c, s1, first, h, a);
    TakeAckKeeps(c, s1, first, h, a);
    var s2 := TakeAck(c, s1, h, a);
    SendingReacts(c, s2, first, a.offers);
    ThenReacts(s1, s2, SendPendingData(c, s2, a.offers), Heard(s, h), if Echoes(s, h) then h.ack else s.ecnEchoSeq,
               a.dataAck.Some?);
    SameEcn(s, s1, Step(c, s, Segment(now, h, a)), h, a);
  }

  /** The header's other fields have no part in it. */
  lemma SameEcn(s: Socket, s1: Socket, r: Socket, h: Header, a: AckAnswers)
    requires s1.tcb.ecn == s.tcb.ecn && s1.tx == s.tx && s1.tcb.highTx == s.tcb.highTx && s1.cuts == s.cuts
    requires s1.ecnEchoSeq == s.ecnEchoSeq && s1.ecnCwrSeq == s.ecnCwrSeq
    ensures Heard(s1, h) == Heard(s, h) && (Echoes(s1, h) <==> Echoes(s, h))
    ensures forall ecn, echo, una, answered ::
      Reaction(s1, r, ecn, echo, una, answered) ==> Reaction(s, r, ecn, echo, una, answered)
  {
  }

  /** The ECN state an event other than an ACK in range brings about by itself. */
  function Marked(s: Socket, e: Event): EcnState {
    match e
    case CeMark => CeReceived
    case CwrFlag => if s.tcb.ecn == CeReceived then CeReceived else EcnIdle
    case _ => s.tcb.ecn
  }

  /** Every other event: congestion marks and CWR flags set the state, an empty ACK passes a mark on, and only the first new
      data sent while a newer echo is pending cuts the window. */
  lemma OtherReaction(c: Config, s: Socket, first: nat, e: Event)
    requires Inv(c, s, first) && (!e.Segment? || !InRange(s, e.header))
    ensures
      var answered := s.connected && (e.EmptyAck? || (e.Segment? && s.tcb.highTx < e.header.ack));
      Reaction(s, Step(c, s, e), Marked(s, e), s.ecnEchoSeq, s.tx.head, answered)
  {
    hide Inv, SendPendingData, ReceivedAck, Arrive, Backoff;
    InvEcn(c, s, first);
    match e
    case Flush(now, offers) =>
      ClockKeeps(c, s, first, now);
      SendingReacts(c, s.(now := now), first, offers);
    case Segment(now, h, a) => DroppedReaction(c, s, now, h, a);
    case Timeout(now, t) => TimeoutReaction(c, s, first, now, t);
    case _ =>
  }

  /** An ACK out of range is dropped, and answered when it is of data never sent. */
  lemma DroppedReaction(c: Config, s: Socket, now: nat, h: Header, a: AckAnswers)
    requires !InRange(s, h) && s.tx.head <= s.tcb.highTx
    ensures
      Reaction(s, Step(c, s, Segment(now, h, a)), s.tcb.ecn, s.ecnEchoSeq, s.tx.head, s.connected && s.tcb.highTx < h.ack)
  {
    hide ReceivedAck, Arrive;
    var s1 := Arrive(s, now, h, a);
    ArriveFrame(s, now, h, a);
    assert s1.tcb.ecn == s.tcb.ecn && s1.tx == s.tx && s1.tcb.highTx == s.tcb.highTx;
    if s.connected {
      if h.ack < s.tx.head {
        assert Step(c, s, Segment(now, h, a)) == s1;
      } else {
        assert Step(c, s, Segment(now, h, a)) == SendAck(s1, a.rangeRto);
      }
    }
  }

  lemma TimeoutReaction(c: Config, s: Socket, first: nat, now: nat, t: TimeoutAnswers)
    requires Inv(c, s, first)
    ensures Reaction(s, Step(c, s, Timeout(now, t)), s.tcb.ecn, s.ecnEchoSeq, s.tx.head, false)
  {
    hide Inv, SendPendingData, Backoff;
    if s.connected && s.tx.head < s.tx.tail && 0 < s.dataRetrCount {
      var s1 := s.(now := now);
      ClockKeeps(c, s, first, now);
      BackoffKeeps(c, s1, first, t);
      BackoffEcn(c, s1, t);
      SendingReacts(c, Backoff(c, s1, t), first, Unpaced(t.offers));
    }
  }

  lemma BackoffEcn(c: Config, s: Socket, t: TimeoutAnswers)
    requires 0 < s.dataRetrCount
    ensures
      var r := Backoff(c, s, t);
      r.tcb.ecn == s.tcb.ecn && r.ecnEchoSeq == s.ecnEchoSeq && r.ecnCwrSeq == s.ecnCwrSeq && r.cuts == s.cuts
      && r.tcb.highTx == s.tcb.highTx && r.tx.head == s.tx.head
  {
  }

  /** An echo of data newer than the last reduction, and the new data after it: the ACK alone leaves the echo pending, the
      first new data sent cuts the window, and then nothing is pending. */
  lemma EchoThenCut(c: Config, s: Socket, first: nat, now: nat, h: Header, a: AckAnswers, later: nat, offers: nat -> Offer)
    requires Inv(c, s, first) && InRange(s, h) && Echoes(s, h) && s.ecnCwrSeq < h.ack
    ensures
      var r := Step(c, s, Segment(now, h, a));
      var t := Step(c, r, Flush(later, offers));
      && r.ecnEchoSeq == h.ack
      && (r.tcb.highTx == s.tcb.highTx ==> r.tcb.ecn == EceReceived && r.cuts == s.cuts)
      && (s.tcb.highTx < r.tcb.highTx ==> r.tcb.ecn == CwrSent && r.cuts == s.cuts + [Cut(h.ack, s.tcb.highTx)])
      && (s.tcb.highTx < t.tcb.highTx ==> t.tcb.ecn == CwrSent && t.cuts == s.cuts + [Cut(h.ack, s.tcb.highTx)])
  {
    hide Inv, Step;
    AckReaction(c, s, first, now, h, a);
    var r := Step(c, s, Segment(now, h, a));
    StepKeeps(c, s, first, Segment(now, h, a));
    StepHead(c, s, first, Segment(now, h, a));
    OtherReaction(c, r, first, Flush(later, offers));
    StepKeeps(c, r, first, Flush(later, offers));
  }
}
