/** What an arriving ACK and a timeout do to the timer, the peer's window, the congestion window and Swift's samples. */
module SenderEffects {
  import opened TcpTypes
  import opened Sender
  import opened SenderInvariants
  import opened SenderTheorems
  import opened SenderMachine
  import Swift
  import H = RttHistory

  // The header

  /** The header of an arriving segment, before and whatever the ACK number: the peer's window is taken unless the header
      is older than what was seen, the highest numbers are kept, and the RTT of a timed segment is estimated. */
  lemma HeaderTaken(c: Config, s: Socket, first: nat, now: nat, h: Header, a: AckAnswers)
    requires Inv(c, s, first) && s.connected
    ensures
      var r := Step(c, s, Segment(now, h, a));
      var measured := H.Measured(s.history, h.ack, now, h.echoed).Some?;
      && r.rWnd == (if s.highRxAck < h.ack || s.highRxMark < h.seqNo || (h.ack == s.highRxAck && s.rWnd < h.window)
                    then h.window else s.rWnd)
      && r.highRxAck == Max(s.highRxAck, h.ack) && r.highRxMark == Max(s.highRxMark, h.seqNo)
      && r.tcb.rcvTtl == h.ttl && r.tcb.lastRtt == if measured then a.estimate else s.tcb.lastRtt
  {
    hide Inv, ReceivedAck, Arrive;
    var s1 := Arrive(s, now, h, a);
    ArriveTakes(s, now, h, a);
    ArriveFrame(s, now, h, a);
    ArriveKeeps(c, s, first, now, h, a);
    if s.tx.head <= h.ack <= s.tcb.highTx {
      HeaderStays(c, s1, first, h, a);
    }
  }

  lemma ArriveTakes(s: Socket, now: nat, h: Header, a: AckAnswers)
    ensures
      var r := Arrive(s, now, h, a);
      var measured := H.Measured(s.history, h.ack, now, h.echoed).Some?;
      && r.rWnd == (if s.highRxAck < h.ack || s.highRxMark < h.seqNo || (h.ack == s.highRxAck && s.rWnd < h.window)
                    then h.window else s.rWnd)
      && r.highRxAck == Max(s.highRxAck, h.ack) && r.highRxMark == Max(s.highRxMark, h.seqNo)
      && r.tcb.rcvTtl == h.ttl && r.tcb.lastRtt == (if measured then a.estimate else s.tcb.lastRtt)
      && r.rto == if measured then a.estimateRto else s.rto
  {
  }

  /** The fields the ACK's processing and sending leave alone. */
  ghost predicate SameHeader(s: Socket, r: Socket) {
    && r.rWnd == s.rWnd && r.highRxAck == s.highRxAck && r.highRxMark == s.highRxMark
    && r.tcb.rcvTtl == s.tcb.rcvTtl && r.tcb.lastRtt == s.tcb.lastRtt
  }

  lemma TakeAckHeader(c: Config, s: Socket, first: nat, h: Header, a: AckAnswers)
    requires Inv(c, s, first) && s.tx.head <= h.ack <= s.tcb.highTx && FrontPast(s.history, h.ack)
    ensures SameHeader(s, TakeAck(c, s, h, a))
  {
    hide TxInv, ControlInv, ProcessAck, Trimmed, AccountAt, Inv;
    var s1 := EcnEcho(Trimmed(c, s, h.ack, a), h.ack, s.tx.head, h.ece);
    TrimmedHeader(c, s, h, a);
    DiscardKeeps(c, s, first, h, a);
    ProcessAckKeeps(c, s1, first, h.ack, s.tx.head, a);
  }

  lemma TrimmedHeader(c: Config, s: Socket, h: Header, a: AckAnswers)
    ensures SameHeader(s, EcnEcho(Trimmed(c, s, h.ack, a), h.ack, s.tx.head, h.ece))
  {
  }

  lemma HeaderStays(c: Config, s: Socket, first: nat, h: Header, a: AckAnswers)
    requires Inv(c, s, first) && s.tx.head <= h.ack <= s.tcb.highTx && FrontPast(s.history, h.ack)
    ensures SameHeader(s, ReceivedAck(c, s, h, a))
  {
    hide Inv, TakeAck, SendPendingData;
    TakeAckHeader(c, s, first, h, a);
    TakeAckKeeps(c, s, first, h, a);
    SendingHeader(c, TakeAck(c, s, h, a), first, a.offers);
  }

  lemma SendingHeader(c: Config, s: Socket, first: nat, offers: nat -> Offer)
    requires Inv(c, s, first)
    ensures SameHeader(s, SendPendingData(c, s, offers))
  {
    hide SendPendingData;
    SendPendingDataKeeps(c, s, offers);
  }

  // The timer, the retries and Swift's samples

  /** The retransmission timeout, the retries left, whether the next partial ACK is the first, and Swift's base RTT. */
  datatype Rest = Rest(rto: nat, retries: nat, firstPartial: bool, base: Time)

  function RestOf(s: Socket): Rest {
    Rest(s.rto, s.dataRetrCount, s.firstPartialAck, s.swift.baseRtt)
  }

  /** The base RTT once Swift has been told of a sample; a zero is none. */
  function Lowered(base: Time, rtt: Time): Time {
    if rtt == 0 then base else Min(base, rtt)
  }

  lemma {:induction false} SendLoopRest(c: Config, s: Socket, offers: nat -> Offer, turn: nat)
    ensures RestOf(SendLoop(c, s, offers, turn)) == RestOf(s)
    decreases AvailableWindow(s)
  {
    hide Choose;
    var chosen := Choose(c, s, offers(turn));
    if chosen.Some? {
      SendChosenInFlight(c, s, offers(turn));
      SendLoopRest(c, SendChosen(s, chosen.value, offers(turn).reduced), offers, turn + 1);
    }
  }

  lemma RetransmitRest(s: Socket, r: Retry)
    ensures RestOf(DoRetransmit(s, r)) == RestOf(s) && DoRetransmit(s, r).tcb.lastRtt == s.tcb.lastRtt
  {
  }

  lemma EnterRest(c: Config, s: Socket, a: AckAnswers)
    ensures RestOf(EnterRecovery(c, s, a)) == RestOf(s) && EnterRecovery(c, s, a).tcb.lastRtt == s.tcb.lastRtt
  {
    hide DoRetransmit, Swift.GetSsThresh;
    RetransmitRest(Entering(c, s, a), a.entryRetry);
  }

  lemma DisorderRest(c: Config, s: Socket, a: AckAnswers)
    ensures RestOf(DisorderAck(c, s, a)) == RestOf(s) && DisorderAck(c, s, a).tcb.lastRtt == s.tcb.lastRtt
  {
    hide EnterRecovery;
    EnterRest(c, s, a);
  }

  lemma NoteRest(c: Config, s: Socket, ack: nat, isDupack: bool, a: AckAnswers)
    ensures
      var r := NoteAck(c, s, ack, isDupack, a);
      RestOf(r) == RestOf(s) && r.tcb.lastRtt == s.tcb.lastRtt
  {
    hide DisorderAck;
    DisorderRest(c, CountDuplicate(s.(tcb := s.tcb.(lastAcked := ack))), a);
  }

  lemma PktsAckedRest(s: Socket)
    ensures RestOf(PktsAcked(s)) == RestOf(s).(base := Lowered(s.swift.baseRtt, s.tcb.lastRtt))
    ensures PktsAcked(s).tcb == s.tcb
  {
  }

  lemma IncreaseRest(c: Config, s: Socket, growth: nat)
    ensures RestOf(IncreaseWindow(c, s, growth)) == RestOf(s)
  {
    hide Swift.AdjustedWindow, Swift.CycleTcb;
  }

  lemma PartialRest(c: Config, s: Socket, ack: nat, segments: nat, a: AckAnswers)
    ensures RestOf(PartialAck(c, s, ack, segments, a)) ==
            Rest(if s.firstPartialAck then a.ackRto else s.rto, c.dataRetries, false,
                 Lowered(s.swift.baseRtt, s.tcb.lastRtt))
  {
    hide DoRetransmit;
    RetransmitRest(s.(tx := PartialHead(c, s.tx, a)), a.partialRetry);
  }

  lemma LossRest(c: Config, s: Socket, ack: nat, a: AckAnswers)
    ensures RestOf(LossAck(c, s, ack, a)) ==
            Rest(a.ackRto, c.dataRetries, s.firstPartialAck, Lowered(s.swift.baseRtt, s.tcb.lastRtt))
  {
    hide PktsAcked, IncreaseWindow;
    PktsAckedRest(s);
    IncreaseRest(c, PktsAcked(s), a.growth);
  }

  /** Leaving DISORDER with fewer segments acknowledged than duplicates counted is no sample. */
  lemma LeaveRest(s: Socket, segments: nat, isDupack: bool, oldDupAcks: nat)
    ensures
      var base := s.swift.baseRtt;
      RestOf(LeaveCongestion(s, segments, isDupack, oldDupAcks)) ==
        RestOf(s).(firstPartial := s.firstPartialAck || InEpisode(s),
                   base := if s.tcb.cong == Disorder && segments < oldDupAcks then base else Lowered(base, s.tcb.lastRtt))
  {
    hide Swift.PktsAcked;
    PktsAckedRest(s);
    PktsAckedRest(s.(firstPartialAck := true));
  }

  lemma FullRest(c: Config, s: Socket, ack: nat, segments: nat, isDupack: bool, oldDupAcks: nat, a: AckAnswers)
    ensures
      var base := s.swift.baseRtt;
      RestOf(FullAck(c, s, ack, segments, isDupack, oldDupAcks, a)) ==
        Rest(a.ackRto, c.dataRetries, s.firstPartialAck || InEpisode(s),
             if s.tcb.cong == Disorder && segments < oldDupAcks then base else Lowered(base, s.tcb.lastRtt))
  {
    hide LeaveCongestion, IncreaseWindow;
    LeaveRest(s, segments, isDupack, oldDupAcks);
    var s1 := LeaveCongestion(s, segments, isDupack, oldDupAcks);
    IncreaseRest(c, s1.(recoverActive := s1.recoverActive && ack < s1.recover), a.growth);
  }

  /** What the second half of ProcessAck does, `m` the machine after the first. */
  function AfterAck(c: Config, m: Machine, rest: Rest, rtt: Time, ack: nat, oldHead: nat, high: nat, segments: nat,
                    oldDupAcks: nat, ackRto: nat): Rest {
    var heard := rest.(base := Lowered(rest.base, rtt));
    if ack <= oldHead then (if ack == high then rest else heard)
    else if m.cong == Recovery && ack < m.recover then
      heard.(rto := if rest.firstPartial then ackRto else rest.rto, retries := c.dataRetries, firstPartial := false)
    else if m.cong == Loss && ack < m.recover then heard.(rto := ackRto, retries := c.dataRetries)
    else
      Rest(ackRto, c.dataRetries, rest.firstPartial || m.cong == Recovery || m.cong == Loss,
           if m.cong == Disorder && segments < oldDupAcks then rest.base else heard.base)
  }

  lemma AdvanceRest(c: Config, s: Socket, ack: nat, bytes: nat, isDupack: bool, oldDupAcks: nat, a: AckAnswers, high: nat)
    requires 0 < bytes <= ack
    ensures RestOf(AdvanceUna(c, s, ack, bytes, isDupack, oldDupAcks, a)) ==
            AfterAck(c, MachineOf(s), RestOf(s), s.tcb.lastRtt, ack, ack - bytes, high, SegmentsAcked(s, bytes), oldDupAcks,
                     a.ackRto)
  {
    hide PartialAck, LossAck, FullAck, Lowered;
    var segments, s1 := SegmentsAcked(s, bytes), Credited(s, bytes, isDupack);
    if ack < s1.recover && s1.tcb.cong == Recovery {
      PartialRest(c, s1, ack, segments, a);
    } else if ack < s1.recover && s1.tcb.cong == Loss {
      LossRest(c, s1, ack, a);
    } else {
      FullRest(c, s1, ack, segments, isDupack, oldDupAcks, a);
    }
  }

  lemma FinishRest(c: Config, s: Socket, ack: nat, oldHead: nat, isDupack: bool, oldDupAcks: nat, a: AckAnswers)
    requires oldHead <= ack <= s.tcb.highTx
    ensures RestOf(FinishAck(c, s, ack, oldHead, isDupack, oldDupAcks, a)) ==
            AfterAck(c, MachineOf(s), RestOf(s), s.tcb.lastRtt, ack, oldHead, s.tcb.highTx, SegmentsAcked(s, ack - oldHead),
                     oldDupAcks, a.ackRto)
  {
    hide AdvanceUna, PktsAcked, Lowered;
    PktsAckedRest(s);
    if oldHead < ack {
      AdvanceRest(c, s, ack, ack - oldHead, isDupack, oldDupAcks, a, s.tcb.highTx);
    }
  }

  /** The high mark and the segment accounting, as the duplicate half leaves them. */
  ghost predicate SameCount(s: Socket, r: Socket) {
    && s.tcb.highTx <= r.tcb.highTx && r.unprocessed == s.unprocessed && r.tcb.segmentSize == s.tcb.segmentSize
  }

  lemma RetransmitCount(s: Socket, r: Retry)
    ensures SameCount(s, DoRetransmit(s, r))
  {
  }

  lemma DisorderCount(c: Config, s: Socket, a: AckAnswers)
    ensures SameCount(s, DisorderAck(c, s, a))
  {
    hide DoRetransmit, Swift.GetSsThresh;
    RetransmitCount(Entering(c, s, a), a.entryRetry);
  }

  lemma NoteCount(c: Config, s: Socket, ack: nat, isDupack: bool, a: AckAnswers)
    ensures
      var r := NoteAck(c, s, ack, isDupack, a);
      SameCount(s, r) && (!isDupack ==> r.tcb.highTx == s.tcb.highTx)
  {
    hide DisorderAck;
    DisorderCount(c, CountDuplicate(s.(tcb := s.tcb.(lastAcked := ack))), a);
  }

  lemma ProcessRest(c: Config, s: Socket, ack: nat, oldHead: nat, a: AckAnswers)
    requires (s.recoverActive <==> InEpisode(s)) && SeqInv(s) && oldHead <= ack == s.tx.head
    ensures
      var m, isDupack := MachineOf(s), IsDupack(c, s, ack, oldHead, a.sackUpdated);
      var m1 := if isDupack then AfterDuplicate(c, m, s.tx.head, s.tcb.highTx, a.isLost) else m;
      RestOf(ProcessAck(c, s, ack, oldHead, a)) ==
        AfterAck(c, m1, RestOf(s), s.tcb.lastRtt, ack, oldHead, s.tcb.highTx, SegmentsAcked(s, ack - oldHead), s.dupAckCount,
                 a.ackRto)
  {
    hide NoteAck, FinishAck, AfterDuplicate;
    var isDupack := IsDupack(c, s, ack, oldHead, a.sackUpdated);
    NoteMachine(c, s, ack, isDupack, a);
    NoteRest(c, s, ack, isDupack, a);
    NoteCount(c, s, ack, isDupack, a);
    FinishRest(c, NoteAck(c, s, ack, isDupack, a), ack, oldHead, isDupack, s.dupAckCount, a);
  }

  lemma TakeAckRest(c: Config, s: Socket, h: Header, a: AckAnswers)
    requires (s.recoverActive <==> InEpisode(s)) && SeqInv(s) && s.tx.head <= h.ack <= s.tcb.highTx
    ensures
      var m := MachineOf(s);
      var m1 := if Duplicates(c, s, h, a) then AfterDuplicate(c, m, h.ack, s.tcb.highTx, a.isLost) else m;
      var rest := AfterAck(c, m1, RestOf(s), s.tcb.lastRtt, h.ack, s.tx.head, s.tcb.highTx,
                           SegmentsAcked(s, h.ack - s.tx.head), s.dupAckCount, a.ackRto);
      RestOf(TakeAck(c, s, h, a)) == if a.dataAck.Some? then rest.(rto := a.dataAck.value) else rest
  {
    hide ProcessAck, AfterAck, AfterDuplicate;
    var s1 := EcnEcho(Trimmed(c, s, h.ack, a), h.ack, s.tx.head, h.ece);
    EcnEchoShape(Trimmed(c, s, h.ack, a), h.ack, s.tx.head, h.ece);
    assert MachineOf(s1) == MachineOf(s) && RestOf(s1) == RestOf(s) && s1.tcb.lastRtt == s.tcb.lastRtt;
    ProcessRest(c, s1, h.ack, s.tx.head, a);
  }

  lemma SegmentRest(c: Config, s: Socket, now: nat, h: Header, a: AckAnswers)
    requires (s.recoverActive <==> InEpisode(s)) && SeqInv(s) && InRange(s, h)
    ensures
      var measured := H.Measured(s.history, h.ack, now, h.echoed).Some?;
      var m := MachineOf(s);
      var m1 := if Duplicates(c, s, h, a) then AfterDuplicate(c, m, h.ack, s.tcb.highTx, a.isLost) else m;
      var rest := AfterAck(c, m1, RestOf(s).(rto := if measured then a.estimateRto else s.rto),
                           if measured then a.estimate else s.tcb.lastRtt, h.ack, s.tx.head, s.tcb.highTx,
                           SegmentsAcked(s, h.ack - s.tx.head), s.dupAckCount, a.ackRto);
      RestOf(Step(c, s, Segment(now, h, a))) == if a.dataAck.Some? then rest.(rto := a.dataAck.value) else rest
  {
    hide TakeAck, SendPendingData, AfterAck, AfterDuplicate, Arrive;
    ArriveFrame(s, now, h, a);
    ArriveTakes(s, now, h, a);
    var s1 := Arrive(s, now, h, a);
    TakeAckRest(c, s1, h, a);
    SendingRest(c, TakeAck(c, s1, h, a), a.offers);
  }

  lemma SendingRest(c: Config, s: Socket, offers: nat -> Offer)
    ensures RestOf(SendPendingData(c, s, offers)) == RestOf(s)
  {
    SendLoopRest(c, s, offers, 0);
  }

  /** An ACK that moves SND.UNA gives all retries back and sets the timer anew, unless it leaves the sender in RECOVERY and
      is not the first to do so; the ACK of data it came with sets the timer in any case. */
  lemma NewAckRestarts(c: Config, s: Socket, first: nat, now: nat, h: Header, a: AckAnswers)
    requires Inv(c, s, first) && InRange(s, h) && s.tx.head < h.ack
    ensures
      var r := Step(c, s, Segment(now, h, a));
      && r.dataRetrCount == c.dataRetries
      && (a.dataAck.Some? ==> r.rto == a.dataAck.value)
      && (a.dataAck.None? && (r.tcb.cong != Recovery || s.firstPartialAck) ==> r.rto == a.ackRto)
      && (a.dataAck.None? && r.tcb.cong == Recovery && !s.firstPartialAck ==>
            r.rto == if H.Measured(s.history, h.ack, now, h.echoed).Some? then a.estimateRto else s.rto)
      && r.firstPartialAck == (r.tcb.cong != Recovery && (s.firstPartialAck || (InEpisode(s) && r.tcb.cong == Open)))
  {
    hide Step, Inv;
    InvMachine(c, s, first);
    SegmentMachine(c, s, now, h, a);
    SegmentRest(c, s, now, h, a);
  }

  /** Any other ACK in range leaves the retries, and the timer unless a segment was timed or data is answered. */
  lemma OldAckLeavesTimer(c: Config, s: Socket, first: nat, now: nat, h: Header, a: AckAnswers)
    requires Inv(c, s, first) && InRange(s, h) && s.tx.head == h.ack
    ensures
      var r := Step(c, s, Segment(now, h, a));
      r.dataRetrCount == s.dataRetrCount && r.firstPartialAck == s.firstPartialAck
      && r.rto == if a.dataAck.Some? then a.dataAck.value
                  else if H.Measured(s.history, h.ack, now, h.echoed).Some? then a.estimateRto else s.rto
  {
    hide Step, Inv, AfterDuplicate;
    InvMachine(c, s, first);
    SegmentRest(c, s, now, h, a);
  }

  /** Swift is told of the latest RTT by every ACK in range except one that finds nothing outstanding and one that ends
      DISORDER, or meets it, with fewer segments than duplicates were counted: the base RTT is then the least of both. */
  lemma SwiftHears(c: Config, s: Socket, first: nat, now: nat, h: Header, a: AckAnswers)
    requires Inv(c, s, first) && InRange(s, h)
    ensures
      var r, repeats := Step(c, s, Segment(now, h, a)), s.tx.head == h.ack;
      var enters := r.tcb.cong == Recovery;
      var disorder := !enters && (s.tcb.cong == Disorder || (s.tcb.cong == Open && Duplicates(c, s, h, a)));
      var told := if repeats then h.ack < s.tcb.highTx
                  else !disorder || s.dupAckCount <= SegmentsAcked(s, h.ack - s.tx.head);
      r.swift.baseRtt == if told && 0 < r.tcb.lastRtt then Min(s.swift.baseRtt, r.tcb.lastRtt) else s.swift.baseRtt
  {
    hide Step, Inv, SegmentsAcked;
    InvMachine(c, s, first);
    HeaderTaken(c, s, first, now, h, a);
    SegmentMachine(c, s, now, h, a);
    SegmentRest(c, s, now, h, a);
  }

  /** Every other event: a timeout that takes a retry doubles the timer up to 60 seconds, an empty ACK sets it anew, also the
      answer to an ACK of data never sent; a segment out of range may still have timed one. */
  lemma OtherEventsRest(c: Config, s: Socket, e: Event)
    requires s.tx.head <= s.tcb.highTx && (!e.Segment? || !InRange(s, e.header))
    ensures
      var r, fires := Step(c, s, e), e.Timeout? && s.connected && s.tx.head < s.tx.tail && 0 < s.dataRetrCount;
      && r.dataRetrCount == (if fires then s.dataRetrCount - 1 else s.dataRetrCount)
      && r.firstPartialAck == s.firstPartialAck && r.swift.baseRtt == s.swift.baseRtt
      && r.rto == if fires then Min(2 * s.rto, MAX_RTO)
                  else if e.EmptyAck? && s.connected then e.ackRto
                  else if e.Segment? && s.connected && s.tcb.highTx < e.header.ack then e.answers.rangeRto
                  else if e.Segment? && s.connected && H.Measured(s.history, e.header.ack, e.at, e.header.echoed).Some? then
                    e.answers.estimateRto
                  else s.rto
  {
    hide SendPendingData, ReceivedAck, Arrive, Swift.GetSsThresh;
    match e
    case Flush(now, offers) => SendingRest(c, s.(now := now), offers);
    case Segment(now, h, a) =>
      ArriveFrame(s, now, h, a);
      ArriveTakes(s, now, h, a);
    case Timeout(now, t) =>
      if s.connected && 0 < s.dataRetrCount {
        SendingRest(c, Backoff(c, s.(now := now), t), Unpaced(t.offers));
      }
    case _ =>
  }

  // Guessed SACK bytes

  lemma RetransmitSacked(s: Socket, r: Retry)
    ensures DoRetransmit(s, r).tx.sacked == s.tx.sacked
  {
  }

  /** Bytes presumed received out of order, after the duplicate half without SACK. */
  lemma DisorderSacked(c: Config, s: Socket, a: AckAnswers)
    requires !c.sack && !s.recoverActive
    ensures
      DisorderAck(c, s, a).tx.sacked ==
        s.tx.sacked + if s.dupAckCount == c.threshold || a.isLost || c.limitedTx then a.renoBytes else 0
  {
    hide DoRetransmit, Swift.GetSsThresh;
    RetransmitSacked(Entering(c, s, a), a.entryRetry);
  }

  lemma CountSacked(s: Socket)
    ensures
      var r := CountDuplicate(s);
      r.tx == s.tx && r.dupAckCount == s.dupAckCount + 1 && r.recoverActive == s.recoverActive
  {
  }

  lemma NoteSacked(c: Config, s: Socket, ack: nat, a: AckAnswers)
    requires !c.sack && (s.recoverActive <==> InEpisode(s))
    ensures
      var counted := match s.tcb.cong
                     case Loss => false
                     case Recovery => true
                     case _ => s.dupAckCount + 1 == c.threshold || a.isLost || c.limitedTx;
      NoteAck(c, s, ack, true, a).tx.sacked == s.tx.sacked + if counted then a.renoBytes else 0
  {
    hide DisorderAck, CountDuplicate;
    var s1 := s.(tcb := s.tcb.(lastAcked := ack));
    if !InEpisode(s) {
      CountSacked(s1);
      DisorderSacked(c, CountDuplicate(s1), a);
    }
  }

  lemma {:induction false} SendLoopSacked(c: Config, s: Socket, offers: nat -> Offer, turn: nat)
    ensures SendLoop(c, s, offers, turn).tx.sacked == s.tx.sacked
    decreases AvailableWindow(s)
  {
    hide Choose;
    var chosen := Choose(c, s, offers(turn));
    if chosen.Some? {
      SendChosenInFlight(c, s, offers(turn));
      SendLoopSacked(c, SendChosen(s, chosen.value, offers(turn).reduced), offers, turn + 1);
    }
  }

  /** Without SACK a duplicate ACK stands for a SACK block: its bytes are added in RECOVERY, into RECOVERY, and in DISORDER
      with limited transmit; in LOSS it is ignored. */
  lemma DuplicateStandsForSack(c: Config, s: Socket, first: nat, now: nat, h: Header, a: AckAnswers)
    requires Inv(c, s, first) && InRange(s, h) && !c.sack && h.ack == s.tx.head < s.tcb.highTx
    ensures
      var r := Step(c, s, Segment(now, h, a));
      var counted := r.tcb.cong == Recovery || (r.tcb.cong == Disorder && c.limitedTx);
      r.tx.sacked == Min(s.tx.sacked, a.discardSacked) + if counted then a.renoBytes else 0
  {
    hide Inv, Arrive, SendLoop;
    InvMachine(c, s, first);
    var s1 := Arrive(s, now, h, a);
    ArriveFrame(s, now, h, a);
    SegmentMachine(c, s, now, h, a);
    TakeAckSacked(c, s1, h, a);
    SendLoopSacked(c, TakeAck(c, s1, h, a), a.offers, 0);
  }

  lemma TakeAckSacked(c: Config, s: Socket, h: Header, a: AckAnswers)
    requires !c.sack && (s.recoverActive <==> InEpisode(s)) && h.ack == s.tx.head < s.tcb.highTx
    ensures
      var counted := match s.tcb.cong
                     case Loss => false
                     case Recovery => true
                     case _ => s.dupAckCount + 1 == c.threshold || a.isLost || c.limitedTx;
      TakeAck(c, s, h, a).tx.sacked == Min(s.tx.sacked, a.discardSacked) + if counted then a.renoBytes else 0
  {
    hide NoteAck, PktsAcked, EcnEcho;
    var s0 := Trimmed(c, s, h.ack, a);
    EcnEchoShape(s0, h.ack, s.tx.head, h.ece);
    var s1 := EcnEcho(s0, h.ack, s.tx.head, h.ece);
    NoteSacked(c, s1, h.ack, a);
    NoteCount(c, s1, h.ack, true, a);
    PktsAckedTx(NoteAck(c, s1, h.ack, true, a));
  }

  lemma PktsAckedTx(s: Socket)
    ensures PktsAcked(s).tx == s.tx
  {
  }
}
