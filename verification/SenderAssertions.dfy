/** An assertion of the sender that can fail: SendPendingData expects to send nothing in DISORDER. */
module SenderAssertions {
  import opened TcpTypes
  import opened Sender
  import opened SenderInvariants
  import opened SenderTheorems
  import Swift
  import H = RttHistory

  /** The source asserts that nothing is sent in Disorder without SACK or limited transmit. */
  predicate DisorderAssertion(c: Config, before: Socket, after: Socket) {
    |after.sends| > |before.sends| && !c.sack && !c.limitedTx ==> after.tcb.cong != Disorder
  }

  /** What the first turn of the loop would send from: a lost head, a segment the scoreboard names, or new data. */
  predicate Offered(s: Socket, o: Offer, next: nat) {
    if s.tx.retryHead && s.tx.head < s.tcb.highTx then next == s.tx.head
    else o.found && if s.tx.head <= o.at < s.tcb.highTx then next == o.at else next == s.tcb.highTx < s.tx.tail
  }

  /** The window has room, and neither silly-window avoidance nor Nagle holds `available` bytes back. */
  predicate NotHeldBack(c: Config, s: Socket, available: int) {
    var room := Min(s.rWnd, s.tcb.cWnd) - s.tx.inFlight;
    && 0 < room && (s.tcb.segmentSize <= room || available <= room)
    && (c.noDelay || s.tcb.highTx <= s.tx.head || s.tcb.segmentSize <= available)
  }

  /** It holds exactly when the first turn of the loop is kept from sending in such a state: by the pacing timer, by
      having nothing to send, by the window, by silly-window avoidance or by Nagle. */
  lemma DisorderAssertionIff(c: Config, s: Socket, offers: nat -> Offer)
    ensures !DisorderAssertion(c, s, SendPendingData(c, s, offers)) <==>
            && !c.sack && !c.limitedTx && s.tcb.cong == Disorder && s.connected && s.tx.head < s.tx.tail
            && !offers(0).paced
            && exists next: nat :: Offered(s, offers(0), next) && NotHeldBack(c, s, Max(0, s.tx.tail - next))
  {
    hide SendChosen;
    ChosenIff(c, s, offers(0));
    SendLoopOnlyAdds(c, s, offers, 0);
    var chosen := Choose(c, s, offers(0));
    if chosen.Some? {
      SendChosenAdds(s, chosen.value, offers(0).reduced);
      SendLoopOnlyAdds(c, SendChosen(s, chosen.value, offers(0).reduced), offers, 1);
    }
  }

  lemma ChosenIff(c: Config, s: Socket, o: Offer)
    ensures Choose(c, s, o).Some? <==>
            !o.paced && exists next: nat :: Offered(s, o, next) && NotHeldBack(c, s, Max(0, s.tx.tail - next))
  {
    var next := NextSeg(s.tx, s.tcb.highTx, o.found, o.at);
    assert forall n: nat :: Offered(s, o, n) <==> next == Some(n);
    if next.Some? {
      assert Offered(s, o, next.value);
    }
  }

  const NO_LIMITED_TRANSMIT := Config(false, 3, false, true, 3, Swift.Params(2, 4))
  const ONE_BYTE_SEGMENTS := Start(1, 10, 4, 1, 10, SECOND, EcnDisabled, 0, 64, 1)

  /** One segment on the first turn, then the pacing timer runs. */
  function OneSegment(turn: nat): Offer {
    Offer(turn > 0, true, 0, 1, 1, 0)
  }

  /** Nothing but a duplicate ACK in answer to the first byte, then one more byte to send. */
  function DuplicateRun(a: AckAnswers): seq<Event> {
    [Write(1)] + [Flush(0, OneSegment)] + [Segment(0, Header(1, 1, 10, false, 64, None), a)] + [Write(1)]
  }

  /** A reachable state in which it fails: one byte sent, one duplicate ACK received, one more byte written. */
  lemma DisorderAssertionFires(a: AckAnswers)
    requires !a.isLost && !a.discardRetry && a.dataAck.None? && a.offers == NoSegment
    ensures
      var s := After(NO_LIMITED_TRANSMIT, ONE_BYTE_SEGMENTS, DuplicateRun(a));
      !DisorderAssertion(NO_LIMITED_TRANSMIT, s, SendPendingData(NO_LIMITED_TRANSMIT, s, OneSegment))
  {
    var c, b := NO_LIMITED_TRANSMIT, ONE_BYTE_SEGMENTS;
    var h := Header(1, 1, 10, false, 64, None);
    var e0, e1, e2 := Write(1), Flush(0, OneSegment), Segment(0, h, a);
    var s0 := Fresh(c, b);
    RunAppend(c, s0, [], e0);
    RunAppend(c, s0, [e0], e1);
    RunAppend(c, s0, [e0] + [e1], e2);
    RunAppend(c, s0, [e0] + [e1] + [e2], Write(1));
    var s2 := SendChosen(Step(c, s0, e0), H.Span(1, 2), 0);
    FirstByteSent();
    hide SendPendingData, DisorderAssertion, Receive;
    DuplicateEntersDisorder(c, s2, h, a);
    SendsInDisorder(c, Step(c, Step(c, s2, e2), Write(1)), OneSegment);
  }

  /** New data, room for a segment and nothing to hold it back. */
  lemma SendsInDisorder(c: Config, s: Socket, offers: nat -> Offer)
    requires !c.sack && !c.limitedTx && c.noDelay && s.tcb.cong == Disorder && s.connected && !s.tx.retryHead
    requires !offers(0).paced && offers(0).found && offers(0).at < s.tx.head <= s.tcb.highTx < s.tx.tail
    requires s.tx.inFlight + s.tcb.segmentSize <= Min(s.rWnd, s.tcb.cWnd)
    ensures !DisorderAssertion(c, s, SendPendingData(c, s, offers))
  {
    hide SendPendingData;
    DisorderAssertionIff(c, s, offers);
    assert Offered(s, offers(0), s.tcb.highTx) && NotHeldBack(c, s, Max(0, s.tx.tail - s.tcb.highTx));
  }

  lemma FirstByteSent()
    ensures
      var c := NO_LIMITED_TRANSMIT;
      var s := Step(c, Fresh(c, ONE_BYTE_SEGMENTS), Write(1));
      Step(c, s, Flush(0, OneSegment)) == SendChosen(s, H.Span(1, 2), 0)
  {
    var c, b := NO_LIMITED_TRANSMIT, ONE_BYTE_SEGMENTS;
    hide SendChosen;
    var s1 := Step(c, Fresh(c, b), Write(1));
    assert s1.now == 0;
    assert Choose(c, s1, OneSegment(0)) == Some(H.Span(1, 2));
    assert Choose(c, SendChosen(s1, H.Span(1, 2), 0), OneSegment(1)) == None;
  }

  /** What the choice of the next segment looks at, besides the congestion state. */
  ghost predicate SameChoice(s: Socket, r: Socket) {
    && r.connected == s.connected && r.tx.head == s.tx.head && r.tx.tail == s.tx.tail && r.tx.inFlight <= s.tx.inFlight
    && (r.tx.retryHead ==> s.tx.retryHead)
    && r.tcb.highTx == s.tcb.highTx && r.tcb.segmentSize == s.tcb.segmentSize && r.tcb.cWnd == s.tcb.cWnd
  }

  lemma FirstDuplicate(c: Config, s: Socket, ack: nat, a: AckAnswers)
    requires !c.sack && !c.limitedTx && 1 < c.threshold && !a.isLost
    requires s.tcb.cong == Open && s.dupAckCount == 0 && ack == s.tx.head < s.tcb.highTx
    ensures
      var r := ProcessAck(c, s, ack, ack, a);
      SameChoice(s, r) && r.tcb.cong == Disorder && r.rWnd == s.rWnd
  {
    var s1 := NoteAck(c, s, ack, true, a);
    assert SameChoice(s, s1) && s1.tcb.cong == Disorder && s1.rWnd == s.rWnd by {
      hide EnterRecovery;
    }
    assert ProcessAck(c, s, ack, ack, a) == PktsAcked(s1);
  }

  lemma DuplicateTrimmed(c: Config, s: Socket, ack: nat, ece: bool, a: AckAnswers)
    requires ack == s.tx.head && !a.discardRetry
    ensures
      var r := EcnEcho(Trimmed(c, s, ack, a), ack, s.tx.head, ece);
      SameChoice(s, r) && r.tcb.cong == s.tcb.cong && r.rWnd == s.rWnd && r.dupAckCount == s.dupAckCount
  {
  }

  /** Outside an episode a first duplicate ACK that neither the threshold nor the scoreboard acts on changes the state to
      Disorder and sends nothing by itself. */
  lemma DuplicateEntersDisorder(c: Config, s: Socket, h: Header, a: AckAnswers)
    requires !c.sack && !c.limitedTx && 1 < c.threshold
    requires !a.isLost && !a.discardRetry && a.dataAck.None? && a.offers == NoSegment
    requires s.connected && s.tcb.cong == Open && s.dupAckCount == 0 && h.ack == s.tx.head < s.tcb.highTx
    ensures
      var r := Step(c, s, Segment(0, h, a));
      SameChoice(s, r) && r.tcb.cong == Disorder && r.rWnd == UpdateWindowSize(s, h).rWnd
  {
    hide ProcessAck, Trimmed, EcnEcho, Arrive, SameChoice;
    var s1 := Arrive(s, 0, h, a);
    DuplicateArrives(s, h, a);
    DuplicateTrimmed(c, s1, h.ack, h.ece, a);
    var s2 := EcnEcho(Trimmed(c, s1, h.ack, a), h.ack, s1.tx.head, h.ece);
    DuplicateProcessed(c, s, s1, s2, h, a);
  }

  lemma DuplicateArrives(s: Socket, h: Header, a: AckAnswers)
    ensures
      var r := Arrive(s, 0, h, a);
      SameChoice(s, r) && r.tcb.cong == s.tcb.cong && r.dupAckCount == s.dupAckCount
      && r.rWnd == UpdateWindowSize(s, h).rWnd
  {
  }

  lemma DuplicateProcessed(c: Config, s: Socket, s1: Socket, s2: Socket, h: Header, a: AckAnswers)
    requires !c.sack && !c.limitedTx && 1 < c.threshold
    requires !a.isLost && !a.discardRetry && a.dataAck.None? && a.offers == NoSegment
    requires s.tcb.cong == Open && s.dupAckCount == 0 && h.ack == s.tx.head < s.tcb.highTx
    requires SameChoice(s, s1) && SameChoice(s1, s2) && s2.tcb.cong == Open && s2.dupAckCount == 0
    requires s2 == EcnEcho(Trimmed(c, s1, h.ack, a), h.ack, s1.tx.head, h.ece)
    ensures
      var r := ReceivedAck(c, s1, h, a);
      SameChoice(s, r) && r.tcb.cong == Disorder && r.rWnd == s2.rWnd
  {
    hide ProcessAck, Trimmed, EcnEcho;
    FirstDuplicate(c, s2, h.ack, a);
    var s3 := ProcessAck(c, s2, h.ack, h.ack, a);
    assert Choose(c, s3, NoSegment(0)) == None;
  }
}
