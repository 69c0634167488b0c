/** Congestion window and threshold over whole runs: Swift, NewReno and the loss handling together. */
module SenderWindows {
  import opened TcpTypes
  import opened Sender
  import opened SenderInvariants
  import opened SenderTheorems
  import Swift
  import opened SwiftMath
  import H = RttHistory

  /** A window of a segment and a threshold of two. */
  ghost predicate Sized(t: Tcb) {
    t.segmentSize <= t.cWnd && 2 * t.segmentSize <= t.ssThresh
  }

  /** Swift's decreases leave a segment (`DecreaseKeepsSegmentIff`). */
  predicate Gentle(c: Config, t: Tcb) {
    c.swift.beta <= 5 || t.segmentSize == 1
  }

  /** The windows stay sized, and the ECN state does not move. */
  ghost predicate Kept(c: Config, t: Tcb, r: Tcb) {
    r.ecn == t.ecn && r.segmentSize == t.segmentSize && (Gentle(c, t) && Sized(t) ==> Sized(r))
  }

  /** Anything that leaves the windows and the ECN state alone. */
  ghost predicate SameWindows(t: Tcb, r: Tcb) {
    r == t.(highTx := r.highTx, nextTx := r.nextTx, cong := r.cong, lastAcked := r.lastAcked)
  }

  lemma SendDataWindows(s: Socket, lo: nat, size: nat, raised: nat, reduced: nat)
    requires s.tcb.ecn != EceReceived
    ensures SameWindows(s.tcb, SendData(s, lo, size, raised, reduced).tcb)
  {
  }

  lemma {:induction false} SendLoopWindows(c: Config, s: Socket, offers: nat -> Offer, turn: nat)
    requires s.tcb.ecn != EceReceived
    ensures SameWindows(s.tcb, SendLoop(c, s, offers, turn).tcb)
    decreases AvailableWindow(s)
  {
    hide Choose, SendData;
    var chosen := Choose(c, s, offers(turn));
    if chosen.Some? {
      var seg := chosen.value;
      SendChosenInFlight(c, s, offers(turn));
      SendDataWindows(s, seg.lo, seg.hi - seg.lo, seg.hi - seg.lo, offers(turn).reduced);
      SendLoopWindows(c, SendChosen(s, seg, offers(turn).reduced), offers, turn + 1);
    }
  }

  lemma DoRetransmitWindows(s: Socket, r: Retry)
    requires s.tcb.ecn != EceReceived
    ensures SameWindows(s.tcb, DoRetransmit(s, r).tcb)
  {
    hide SendData;
    var from := RetryFrom(s, r);
    var size := CopySize(s.tx, s.tcb.highTx, from, s.tcb.segmentSize, r.size);
    var raised := if r.raises || from >= s.tcb.highTx then size else 0;
    SendDataWindows(s.(tcb := s.tcb.(nextTx := from)), from, size, raised, r.reduced);
  }

  lemma EnterRecoveryWindows(c: Config, s: Socket, a: AckAnswers)
    requires s.tcb.ecn != EceReceived
    ensures Kept(c, s.tcb, EnterRecovery(c, s, a).tcb)
  {
    hide DoRetransmit;
    DoRetransmitWindows(Entering(c, s, a), a.entryRetry);
  }

  lemma DupAckWindows(c: Config, s: Socket, a: AckAnswers)
    requires s.tcb.ecn != EceReceived
    ensures Kept(c, s.tcb, DupAck(c, s, a).tcb)
  {
    hide EnterRecovery;
    if s.tcb.cong == Open || s.tcb.cong == Disorder {
      EnterRecoveryWindows(c, CountDuplicate(s), a);
    }
  }

  lemma IncreaseWindowWindows(c: Config, s: Socket, growth: nat)
    ensures Kept(c, s.tcb, IncreaseWindow(c, s, growth).tcb)
  {
    hide Swift.IncreaseWindow;
    Swift.IncreaseWindowShape(c.swift, s.swift, s.tcb, growth);
    if Gentle(c, s.tcb) && Sized(s.tcb) {
      Swift.IncreaseWindowBounds(c.swift, s.swift, s.tcb, growth);
    }
  }

  lemma LeaveCongestionWindows(s: Socket, segments: nat, isDupack: bool, oldDupAcks: nat)
    ensures SameWindows(s.tcb, LeaveCongestion(s, segments, isDupack, oldDupAcks).tcb)
  {
    hide Swift.PktsAcked, Swift.CongestionStateSet;
  }

  lemma PartialAckWindows(c: Config, s: Socket, ack: nat, segments: nat, a: AckAnswers)
    requires s.tcb.ecn != EceReceived
    ensures Kept(c, s.tcb, PartialAck(c, s, ack, segments, a).tcb)
  {
    hide DoRetransmit;
    DoRetransmitWindows(s.(tx := PartialHead(c, s.tx, a)), a.partialRetry);
  }

  lemma LossAckWindows(c: Config, s: Socket, ack: nat, a: AckAnswers)
    ensures Kept(c, s.tcb, LossAck(c, s, ack, a).tcb)
  {
    hide IncreaseWindow;
    IncreaseWindowWindows(c, PktsAcked(s), a.growth);
  }

  lemma FullAckWindows(c: Config, s: Socket, ack: nat, segments: nat, isDupack: bool, oldDupAcks: nat, a: AckAnswers)
    ensures Kept(c, s.tcb, FullAck(c, s, ack, segments, isDupack, oldDupAcks, a).tcb)
  {
    hide LeaveCongestion, IncreaseWindow;
    LeaveCongestionWindows(s, segments, isDupack, oldDupAcks);
    var s1 := LeaveCongestion(s, segments, isDupack, oldDupAcks);
    IncreaseWindowWindows(c, s1.(recoverActive := s1.recoverActive && ack < s1.recover), a.growth);
  }

  lemma AdvanceUnaWindows(c: Config, s: Socket, ack: nat, bytes: nat, isDupack: bool, oldDupAcks: nat, a: AckAnswers)
    requires s.tcb.ecn != EceReceived
    ensures Kept(c, s.tcb, AdvanceUna(c, s, ack, bytes, isDupack, oldDupAcks, a).tcb)
  {
    hide PartialAck, LossAck, FullAck;
    var segments, s1 := SegmentsAcked(s, bytes), Credited(s, bytes, isDupack);
    PartialAckWindows(c, s1, ack, segments, a);
    LossAckWindows(c, s1, ack, a);
    FullAckWindows(c, s1, ack, segments, isDupack, oldDupAcks, a);
  }

  lemma ProcessAckWindows(c: Config, s: Socket, ack: nat, oldHead: nat, a: AckAnswers)
    requires s.tcb.ecn != EceReceived
    ensures Kept(c, s.tcb, ProcessAck(c, s, ack, oldHead, a).tcb)
  {
    hide DupAck, AdvanceUna, IsDupack;
    var isDupack := IsDupack(c, s, ack, oldHead, a.sackUpdated);
    DupAckWindows(c, s.(tcb := s.tcb.(lastAcked := ack)), a);
    var s1 := NoteAck(c, s, ack, isDupack, a);
    if ack > oldHead {
      AdvanceUnaWindows(c, s1, ack, ack - oldHead, isDupack, s.dupAckCount, a);
    }
  }

  lemma SendPendingDataWindows(c: Config, s: Socket, offers: nat -> Offer)
    requires s.tcb.ecn != EceReceived
    ensures SameWindows(s.tcb, SendPendingData(c, s, offers).tcb)
  {
    SendLoopWindows(c, s, offers, 0);
  }

  /** An ACK that echoes nothing, or finds ECN off, leaves no echo pending and does not turn ECN on. */
  ghost predicate KeptByAck(c: Config, t: Tcb, r: Tcb) {
    && r.ecn != EceReceived && (r.ecn == EcnDisabled <==> t.ecn == EcnDisabled) && r.segmentSize == t.segmentSize
    && (Gentle(c, t) && Sized(t) ==> Sized(r))
  }

  lemma ReceivedAckWindows(c: Config, s: Socket, h: Header, a: AckAnswers)
    requires s.tcb.ecn != EceReceived && (h.ece ==> s.tcb.ecn == EcnDisabled)
    ensures KeptByAck(c, s.tcb, ReceivedAck(c, s, h, a).tcb)
  {
    hide ProcessAck, SendPendingData;
    var s1 := EcnEcho(Trimmed(c, s, h.ack, a), h.ack, s.tx.head, h.ece);
    ProcessAckWindows(c, s1, h.ack, s.tx.head, a);
    var s2 := ProcessAck(c, s1, h.ack, s.tx.head, a);
    SendPendingDataWindows(c, if a.dataAck.Some? then SendAck(s2, a.dataAck.value) else s2, a.offers);
  }

  lemma ReceiveWindows(c: Config, s: Socket, now: nat, h: Header, a: AckAnswers)
    requires s.tcb.ecn != EceReceived && (h.ece ==> s.tcb.ecn == EcnDisabled)
    ensures KeptByAck(c, s.tcb, Receive(c, s, now, h, a).tcb)
  {
    hide ReceivedAck, Arrive;
    ArriveFrame(s, now, h, a);
    ReceivedAckWindows(c, Arrive(s, now, h, a), h, a);
  }

  lemma TimeoutWindows(c: Config, s: Socket, t: TimeoutAnswers)
    requires s.tcb.ecn != EceReceived
    ensures Kept(c, s.tcb, ReTxTimeout(c, s, t).tcb)
  {
    hide SendPendingData, Swift.CongestionStateSet;
    if 0 < s.dataRetrCount {
      SendPendingDataWindows(c, Backoff(c, s, t), Unpaced(t.offers));
    }
  }

  /** No echo arrives while ECN is on. */
  predicate Unechoed(s: Socket, e: Event) {
    e.Segment? && e.header.ece ==> s.tcb.ecn == EcnDisabled
  }

  /** Every event without an echo, a congestion mark or CWR flag of the peer included, keeps the windows sized. */
  lemma StepWindows(c: Config, s: Socket, e: Event)
    requires s.tcb.ecn != EceReceived && Unechoed(s, e)
    ensures
      var r := Step(c, s, e).tcb;
      r.ecn != EceReceived && r.segmentSize == s.tcb.segmentSize && (Gentle(c, s.tcb) && Sized(s.tcb) ==> Sized(r))
  {
    hide SendPendingData, Receive, ReTxTimeout;
    match e
    case Flush(now, offers) => SendPendingDataWindows(c, s.(now := now), offers);
    case Segment(now, h, a) => ReceiveWindows(c, s, now, h, a);
    case Timeout(now, t) => TimeoutWindows(c, s.(now := now), t);
    case _ =>
  }

  /** ECN that is off stays off, whatever the peer echoes, until a congestion mark or a CWR flag arrives: either turns
      it on without negotiation. */
  lemma EcnStaysOffIff(c: Config, s: Socket, e: Event)
    requires s.tcb.ecn == EcnDisabled
    ensures Step(c, s, e).tcb.ecn == EcnDisabled <==> e != CeMark && e != CwrFlag
  {
    hide SendPendingData, Receive, ReTxTimeout;
    match e
    case Flush(now, offers) => SendPendingDataWindows(c, s.(now := now), offers);
    case Segment(now, h, a) => ReceiveWindows(c, s, now, h, a);
    case Timeout(now, t) => TimeoutWindows(c, s.(now := now), t);
    case _ =>
  }

  ghost predicate NoEcho(c: Config, s: Socket, es: seq<Event>) {
    es == [] || (NoEcho(c, s, es[..|es| - 1]) && Unechoed(Run(c, s, es[..|es| - 1]), es[|es| - 1]))
  }

  /** A connection as the handshake leaves it, with a usable window. */
  ghost predicate OpensSized(b: Start) {
    b.ecn != EceReceived && b.segmentSize <= b.cWnd && 2 * b.segmentSize <= b.ssThresh
  }

  /** With beta at most 5 (or segments of one byte), Swift and the loss handling together never take the window under
      one segment or the threshold under two while no ECN echo arrives, so the unsigned subtraction in GetSsThresh never
      wraps. */
  lemma {:induction false} WindowsStayUsable(c: Config, b: Start, es: seq<Event>)
    requires Gentle(c, Fresh(c, b).tcb) && OpensSized(b) && NoEcho(c, Fresh(c, b), es)
    ensures
      var t := After(c, b, es).tcb;
      && t.ecn != EceReceived && t.segmentSize == b.segmentSize && Sized(t)
      && Swift.WindowLessSegment(t) == t.cWnd - t.segmentSize
  {
    if es != [] {
      WindowsStayUsable(c, b, es[..|es| - 1]);
      StepWindows(c, After(c, b, es[..|es| - 1]), es[|es| - 1]);
    }
  }

  /** Something that could be sent, new or presumed lost, and is not held back by pacing or Nagle. */
  predicate Eligible(c: Config, s: Socket, o: Offer) {
    var next := NextSeg(s.tx, s.tcb.highTx, o.found, o.at);
    && s.connected && !o.paced && next.Some?
    && (c.noDelay || s.tx.head == s.tcb.highTx || s.tcb.segmentSize <= s.tx.tail - next.value)
  }

  /** Hence silly-window avoidance never stalls an idle sender whose peer offers a segment: it sends. */
  lemma IdleSenderSends(c: Config, b: Start, es: seq<Event>, offers: nat -> Offer)
    requires Gentle(c, Fresh(c, b).tcb) && OpensSized(b) && NoEcho(c, Fresh(c, b), es)
    requires
      var s := After(c, b, es);
      s.tx.inFlight == 0 && s.tcb.segmentSize <= s.rWnd && Eligible(c, s, offers(0))
    ensures
      var s := After(c, b, es);
      |SendPendingData(c, s, offers).sends| > |s.sends|
  {
    WindowsStayUsable(c, b, es);
    AfterInv(c, b, es);
    var s := After(c, b, es);
    assert Choose(c, s, offers(0)).Some?;
    SendChosenAdds(s, Choose(c, s, offers(0)).value, offers(0).reduced);
    SendLoopOnlyAdds(c, SendChosen(s, Choose(c, s, offers(0)).value, offers(0).reduced), offers, 1);
  }

  // A run that loses the window

  /** Two full segments, then the pacing timer runs. */
  function FullSegments(segment: Positive): nat -> Offer {
    turn => Offer(turn > 1, true, 0, segment, segment, 0)
  }

  const NO_RETRY := Retry(false, 0, 1, false, 0)

  /** The average an estimator with weight 1/8 keeps. */
  function Smoothed(estimate: Time, sample: Time): Time {
    (7 * estimate + sample) / 8
  }

  /** Both segments take 569 microseconds, which brings the average of 1 microsecond to 72 and then to 134. */
  const SAMPLE: Time := 569_000
  const LATER_DELAY: Time := 134_125

  lemma Averages()
    ensures Smoothed(CLOSE_BASE, SAMPLE) == FAR_DELAY && Smoothed(FAR_DELAY, SAMPLE) == LATER_DELAY
  {
  }

  /** The estimator answers with that average; nothing is sent and NewReno adds nothing. */
  function Slow(estimate: Time): AckAnswers {
    AckAnswers(estimate, SECOND, SECOND, false, 0, 0, 0, false, false, false, 0, 0, 0, 0, 0, NO_RETRY,
               0, false, NO_RETRY, 0, 0, 0, SECOND, None, NoSegment)
  }

  function SlowAck(segment: Positive, ack: nat, estimate: Time): Event {
    Segment(SAMPLE, Header(ack, 1, 2 * segment, false, 64, None), Slow(Smoothed(estimate, SAMPLE)))
  }

  /** A connection whose handshake measured one microsecond, with a window and a threshold of two segments. */
  function CloseStart(segment: Positive): Start {
    Start(segment, 2 * segment, 2 * segment, 1, 2 * segment, SECOND, EcnDisabled, CLOSE_BASE, 64, 1)
  }

  /** Two segments acknowledged in four steps: the first ACK ends the cycle opened by the handshake, the last one ends
      a cycle of three samples and triggers the decrease. */
  function SlowRun(segment: Positive): seq<Event> {
    [Write(2 * segment)] + [Flush(0, FullSegments(segment))]
    + [SlowAck(segment, 2, CLOSE_BASE)] + [SlowAck(segment, 1 + segment, CLOSE_BASE)]
    + [SlowAck(segment, 2 + segment, FAR_DELAY)] + [SlowAck(segment, 1 + 2 * segment, FAR_DELAY)]
  }

  /** An ACK of new data in OPEN, with nothing to send: the sample, the window and the timer. */
  lemma OpenAck(c: Config, s: Socket, now: nat, h: Header, a: AckAnswers)
    requires s.connected && s.tcb.cong == Open && s.tx.head < h.ack <= s.tcb.highTx && s.tcb.ecn != EceReceived && !h.ece
    requires !a.sackUpdated && a.dataAck.None? && a.offers == NoSegment
    ensures
      var measured := H.Measured(s.history, h.ack, now, h.echoed).Some?;
      var t := s.tcb.(rcvTtl := h.ttl, lastRtt := if measured then a.estimate else s.tcb.lastRtt, lastAcked := h.ack);
      var (w, grown) := Swift.IncreaseWindow(c.swift, Swift.PktsAcked(s.swift, t.lastRtt), t, a.growth);
      var r := Step(c, s, Segment(now, h, a));
      && r.swift == w && r.tcb == grown.(nextTx := Max(s.tcb.nextTx, h.ack)) && r.connected
      && r.tx.head == h.ack && r.tx.tail == s.tx.tail && r.history == H.Remaining(s.history, h.ack)
  {
    hide Swift.IncreaseWindow, Swift.PktsAcked, ProcessAck, Arrive, EcnEcho, Trimmed;
    var s1 := Arrive(s, now, h, a);
    OpenArrives(s, now, h, a);
    var s2 := EcnEcho(Trimmed(c, s1, h.ack, a), h.ack, s1.tx.head, h.ece);
    OpenTrimmed(c, s1, h, a);
    var s3 := ProcessAck(c, s2, h.ack, s1.tx.head, a);
    OpenProcessed(c, s2, h.ack, s1.tx.head, a);
    assert Choose(c, s3, NoSegment(0)) == None;
  }

  lemma OpenArrives(s: Socket, now: nat, h: Header, a: AckAnswers)
    ensures
      var measured := H.Measured(s.history, h.ack, now, h.echoed).Some?;
      var r := Arrive(s, now, h, a);
      && r.tcb == s.tcb.(rcvTtl := h.ttl, lastRtt := if measured then a.estimate else s.tcb.lastRtt)
      && r.tx == s.tx && r.swift == s.swift && r.history == H.Remaining(s.history, h.ack) && r.connected == s.connected
  {
  }

  lemma OpenTrimmed(c: Config, s: Socket, h: Header, a: AckAnswers)
    requires s.tcb.ecn != EceReceived && !h.ece
    ensures
      var r := EcnEcho(Trimmed(c, s, h.ack, a), h.ack, s.tx.head, h.ece);
      && r.tcb == s.tcb && r.tx.head == h.ack && r.tx.tail == s.tx.tail && r.swift == s.swift
      && r.history == s.history && r.connected == s.connected
  {
  }

  lemma OpenProcessed(c: Config, s: Socket, ack: nat, oldHead: nat, a: AckAnswers)
    requires s.tcb.cong == Open && oldHead < ack && !a.sackUpdated
    ensures
      var t := s.tcb.(lastAcked := ack);
      var (w, grown) := Swift.IncreaseWindow(c.swift, Swift.PktsAcked(s.swift, t.lastRtt), t, a.growth);
      var r := ProcessAck(c, s, ack, oldHead, a);
      && r.swift == w && r.tcb == grown.(nextTx := Max(s.tcb.nextTx, ack)) && r.connected == s.connected
      && r.tx.head == s.tx.head && r.tx.tail == s.tx.tail && r.history == s.history
  {
    hide Swift.IncreaseWindow, Swift.PktsAcked, DupAck, PartialAck, LossAck;
    Swift.IncreaseWindowShape(c.swift, Swift.PktsAcked(s.swift, s.tcb.lastRtt), s.tcb.(lastAcked := ack), a.growth);
  }

  /** Both segments are out and `ack` is acknowledged; `cnt` samples since the edge, the last and the least of them. */
  ghost predicate Waiting(s: Socket, segment: Positive, ack: nat, cnt: nat, last: Time, base: Time, edge: nat) {
    && s.connected && s.tx.head == ack && s.tx.tail == 1 + 2 * segment
    && s.tcb == Tcb(2 * segment, 2 * segment, segment, s.tcb.lastAcked, Open, EcnDisabled, 1 + 2 * segment,
                    1 + 2 * segment, last, 64)
    && s.swift.doingSwift && s.swift.cntRtt == cnt && s.swift.baseRtt == base && s.swift.begSndNxt == edge
  }

  lemma FirstFlight(c: Config, segment: Positive)
    ensures
      var b := CloseStart(segment);
      var r := Step(c, Step(c, Fresh(c, b), Write(2 * segment)), Flush(0, FullSegments(segment)));
      && Waiting(r, segment, 1, 0, CLOSE_BASE, TIME_MAX, 0)
      && r.history == [H.Entry(1, segment, 0, false), H.Entry(1 + segment, segment, 0, false)]
  {
    hide SendChosen;
    var s := Step(c, Fresh(c, CloseStart(segment)), Write(2 * segment));
    var offers := FullSegments(segment);
    assert s.(now := 0) == s;
    FullSegmentSent(c, s, segment, offers(0));
    var s1 := SendChosen(s, H.Span(1, 1 + segment), 0);
    FullSegmentSent(c, s1, segment, offers(1));
    TwoTurns(c, s, offers, H.Span(1, 1 + segment), H.Span(1 + segment, 1 + 2 * segment));
    assert Step(c, s, Flush(0, offers)) == SendLoop(c, s, offers, 0);
  }

  lemma TwoTurns(c: Config, s: Socket, offers: nat -> Offer, first: H.Span, second: H.Span)
    requires Choose(c, s, offers(0)) == Some(first)
    requires Choose(c, SendChosen(s, first, offers(0).reduced), offers(1)) == Some(second) && offers(2).paced
    ensures SendLoop(c, s, offers, 0) ==
            SendChosen(SendChosen(s, first, offers(0).reduced), second, offers(1).reduced)
  {
    hide SendChosen;
    var s1 := SendChosen(s, first, offers(0).reduced);
    var s2 := SendChosen(s1, second, offers(1).reduced);
    assert SendLoop(c, s2, offers, 2) == s2;
    assert SendLoop(c, s1, offers, 1) == s2;
  }

  lemma FullSegmentSent(c: Config, s: Socket, segment: Positive, o: Offer)
    requires o == Offer(false, true, 0, segment, segment, 0) && 0 < s.tx.head && !s.tx.retryHead
    requires s.tcb.segmentSize == segment && s.tcb.highTx + segment <= s.tx.tail && segment <= AvailableWindow(s)
    requires s.tx.tail - s.tcb.highTx <= AvailableWindow(s)
    requires s.tcb.ecn == EcnDisabled
    ensures Choose(c, s, o) == Some(H.Span(s.tcb.highTx, s.tcb.highTx + segment))
    ensures
      var end := s.tcb.highTx + segment;
      var r := SendChosen(s, H.Span(s.tcb.highTx, end), 0);
      && r.tcb == s.tcb.(highTx := end, nextTx := end)
      && r.tx == s.tx.(inFlight := s.tx.inFlight + segment)
      && r.history == s.history + [H.Entry(s.tcb.highTx, segment, s.now, false)]
      && r.swift == s.swift && r.rWnd == s.rWnd && r.connected == s.connected && r.now == s.now
  {
  }

  /** The first ACK ends the cycle the handshake opened, with one sample. */
  lemma FirstSample(c: Config, s: Socket, segment: Positive)
    requires 2 <= segment && Waiting(s, segment, 1, 0, CLOSE_BASE, TIME_MAX, 0)
    requires s.history == [H.Entry(1, segment, 0, false), H.Entry(1 + segment, segment, 0, false)]
    ensures
      var r := Step(c, s, SlowAck(segment, 2, CLOSE_BASE));
      Waiting(r, segment, 2, 0, CLOSE_BASE, CLOSE_BASE, 1 + 2 * segment) && r.history == s.history
  {
    hide Swift.AdjustedWindow;
    var e := SlowAck(segment, 2, CLOSE_BASE);
    OpenAck(c, s, SAMPLE, e.header, e.answers);
  }

  /** An ACK short of the edge adds a sample and leaves the window alone. */
  lemma NextSample(c: Config, s: Socket, segment: Positive, una: nat, ack: nat, cnt: nat, last: Time)
    requires 2 <= segment && una < ack <= 2 * segment
    requires Waiting(s, segment, una, cnt, last, CLOSE_BASE, 1 + 2 * segment) && CLOSE_BASE <= last
    ensures
      var next: Time := if H.Measured(s.history, ack, SAMPLE, None).Some? then Smoothed(last, SAMPLE) else last;
      var r := Step(c, s, SlowAck(segment, ack, last));
      Waiting(r, segment, ack, cnt + 1, next, CLOSE_BASE, 1 + 2 * segment) && r.history == H.Remaining(s.history, ack)
  {
    hide Swift.AdjustedWindow;
    var e := SlowAck(segment, ack, last);
    OpenAck(c, s, SAMPLE, e.header, e.answers);
  }

  /** The ACK that covers the edge brings the third sample and the decrease. */
  lemma LastSample(c: Config, s: Socket, segment: Positive)
    requires 2 <= segment && 6 <= c.swift.beta
    requires Waiting(s, segment, 2 + segment, 2, FAR_DELAY, CLOSE_BASE, 1 + 2 * segment)
    ensures
      var t := Step(c, s, SlowAck(segment, 1 + 2 * segment, FAR_DELAY)).tcb;
      t.cWnd < t.segmentSize == segment
  {
    hide TargetDelay, DecreasedWindow, H.Measured, H.Remaining;
    var e := SlowAck(segment, 1 + 2 * segment, FAR_DELAY);
    OpenAck(c, s, SAMPLE, e.header, e.answers);
    Averages();
    DecreaseLosesSegment(segment, c.swift.beta, FAR_DELAY);
    DecreaseLosesSegment(segment, c.swift.beta, LATER_DELAY);
  }

  /** With beta of 6 or more and segments of more than a byte this run leaves less than a segment, and the subtraction in
      GetSsThresh wraps around. */
  lemma SlowRunLosesWindow(c: Config, segment: Positive)
    requires 2 <= segment && 6 <= c.swift.beta
    ensures OpensSized(CloseStart(segment)) && NoEcho(c, Fresh(c, CloseStart(segment)), SlowRun(segment))
    ensures
      var t := After(c, CloseStart(segment), SlowRun(segment)).tcb;
      t.cWnd < t.segmentSize && Swift.WindowLessSegment(t) == t.cWnd - t.segmentSize + UINT32_SPAN
  {
    hide Run, SlowRun, Fresh;
    SlowRunDecreases(c, segment);
    SlowRunUnechoed(c, Fresh(c, CloseStart(segment)), segment);
  }

  lemma SlowRunDecreases(c: Config, segment: Positive)
    requires 2 <= segment && 6 <= c.swift.beta
    ensures
      var t := Run(c, Fresh(c, CloseStart(segment)), SlowRun(segment)).tcb;
      t.cWnd < t.segmentSize
  {
    hide Step, Waiting, Fresh, Run, SlowRun, SlowAck;
    var s0 := Fresh(c, CloseStart(segment));
    SlowRunSteps(c, segment, s0);
    var s2 := Step(c, Step(c, s0, Write(2 * segment)), Flush(0, FullSegments(segment)));
    FirstFlight(c, segment);
    var s3 := Step(c, s2, SlowAck(segment, 2, CLOSE_BASE));
    FirstSample(c, s2, segment);
    assert H.Measured(s3.history, 1 + segment, SAMPLE, None).Some?;
    var s4 := Step(c, s3, SlowAck(segment, 1 + segment, CLOSE_BASE));
    NextSample(c, s3, segment, 2, 1 + segment, 0, CLOSE_BASE);
    Averages();
    assert H.Measured(s4.history, 2 + segment, SAMPLE, None).None?;
    NextSample(c, s4, segment, 1 + segment, 2 + segment, 1, FAR_DELAY);
    LastSample(c, Step(c, s4, SlowAck(segment, 2 + segment, FAR_DELAY)), segment);
  }

  lemma SlowRunUnechoed(c: Config, s: Socket, segment: Positive)
    ensures NoEcho(c, s, SlowRun(segment))
  {
    WithoutEcho(c, s, SlowRun(segment));
  }

  lemma SlowRunSteps(c: Config, segment: Positive, s: Socket)
    ensures
      var s2 := Step(c, Step(c, s, Write(2 * segment)), Flush(0, FullSegments(segment)));
      var s4 := Step(c, Step(c, s2, SlowAck(segment, 2, CLOSE_BASE)), SlowAck(segment, 1 + segment, CLOSE_BASE));
      var s5 := Step(c, s4, SlowAck(segment, 2 + segment, FAR_DELAY));
      Run(c, s, SlowRun(segment)) == Step(c, s5, SlowAck(segment, 1 + 2 * segment, FAR_DELAY))
  {
    hide Step, SlowAck;
    var e0, e1 := Write(2 * segment), Flush(0, FullSegments(segment));
    var e2, e3 := SlowAck(segment, 2, CLOSE_BASE), SlowAck(segment, 1 + segment, CLOSE_BASE);
    var e4, e5 := SlowAck(segment, 2 + segment, FAR_DELAY), SlowAck(segment, 1 + 2 * segment, FAR_DELAY);
    RunAppend(c, s, [], e0);
    RunAppend(c, s, [e0], e1);
    RunAppend(c, s, [e0] + [e1], e2);
    RunAppend(c, s, [e0] + [e1] + [e2], e3);
    RunAppend(c, s, [e0] + [e1] + [e2] + [e3], e4);
    RunAppend(c, s, [e0] + [e1] + [e2] + [e3] + [e4], e5);
  }

  lemma {:induction false} WithoutEcho(c: Config, s: Socket, es: seq<Event>)
    requires forall i :: 0 <= i < |es| && es[i].Segment? ==> !es[i].header.ece
    ensures NoEcho(c, s, es)
  {
    if es != [] {
      WithoutEcho(c, s, es[..|es| - 1]);
    }
  }

  /** Every run without an echo, from any connection opened with a usable window, keeps it usable. */
  ghost predicate AlwaysUsable(c: Config, segment: Positive) {
    forall b: Start, es: seq<Event> :: b.segmentSize == segment && OpensSized(b) && NoEcho(c, Fresh(c, b), es) ==>
      Sized(After(c, b, es).tcb)
  }

  /** That holds exactly when beta is at most 5 or segments are single bytes. */
  lemma AlwaysUsableIff(c: Config, segment: Positive)
    ensures AlwaysUsable(c, segment) <==> c.swift.beta <= 5 || segment == 1
  {
    if c.swift.beta <= 5 || segment == 1 {
      forall b: Start, es: seq<Event> | b.segmentSize == segment && OpensSized(b) && NoEcho(c, Fresh(c, b), es)
        ensures Sized(After(c, b, es).tcb)
      {
        WindowsStayUsable(c, b, es);
      }
    } else {
      SlowRunLosesWindow(c, segment);
    }
  }
}
