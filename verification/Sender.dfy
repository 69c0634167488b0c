/** The sending half of an established TcpSocketBase as a function of its state, the event, and the answers of code not
    in this repository (the Tx buffer's scoreboard, TcpNewReno, the recovery ops, the RTT estimator). Every
    answer is first fitted to the contract of the code it stands for, so any answer is allowed and every behaviour
    the contract allows is some answer. */
module Sender {
  import opened TcpTypes
  import Swift
  import H = RttHistory

  datatype Config = Config(sack: bool, threshold: Positive, limitedTx: bool, noDelay: bool, dataRetries: nat,
                           swift: Swift.Params)

  /** SND.UNA, the end of the buffered data, the bytes presumed in the network, the bytes presumed received out of
      order (guessed from duplicate ACKs when there is no SACK), and whether the head is marked lost and was not
      retransmitted since. */
  datatype TxBuffer = TxBuffer(head: nat, tail: nat, inFlight: nat, sacked: nat, retryHead: bool)

  /** A fast-recovery entry: SND.UNA at that moment and the recovery point chosen. */
  datatype Entry = Entry(una: nat, point: nat)

  /** A reduction for ECN: SND.UNA at that moment and the number the reduction is recorded at. */
  datatype Cut = Cut(una: nat, point: nat)

  /** `sends`, `straddled`, `totalSegments`, `entries` and `cuts` are history only: nothing reads them to decide
      anything. `connected` is false once the end point has been given up. */
  datatype Socket = Socket(
    tcb: Tcb, tx: TxBuffer, swift: Swift.SwiftState,
    dupAckCount: nat, recover: nat, recoverActive: bool, firstPartialAck: bool,
    rWnd: nat, highRxAck: nat, highRxMark: nat, ecnEchoSeq: nat, ecnCwrSeq: nat,
    rto: nat, dataRetrCount: nat, connected: bool, unprocessed: nat,
    history: seq<H.Entry>, now: nat,
    sends: seq<H.Span>, straddled: bool, totalSegments: nat, entries: seq<Entry>, cuts: seq<Cut>)

  const MAX_RTO: nat := 60 * SECOND

  /** What the handshake leaves: the first data byte, the peer's window, the RTT of the SYN if it was measured, the
      time-to-live last received, and the highest ACK received (0 after a passive open). */
  datatype Start = Start(segmentSize: Positive, cWnd: nat, ssThresh: nat, first: Positive, rWnd: nat, rto: nat,
                         ecn: EcnState, lastRtt: Time, rcvTtl: nat, highRxAck: nat)

  function Initial(retries: nat, b: Start): Socket {
    Socket(Tcb(b.cWnd, b.ssThresh, b.segmentSize, 0, Open, b.ecn, b.first, b.first, b.lastRtt, b.rcvTtl),
           TxBuffer(b.first, b.first, 0, 0, false), Swift.Enable(Swift.INITIAL, b.first - 1), 0, 0, false, true,
           b.rWnd, b.highRxAck, 0, 0, 0, b.rto, retries, true, 0, [], 0, [], false, 0, [], [])
  }

  // Windows

  function UnAcked(s: Socket): nat {
    Max(0, s.tcb.highTx - s.tx.head)
  }

  function Window(s: Socket): nat {
    Min(s.rWnd, s.tcb.cWnd)
  }

  function AvailableWindow(s: Socket): nat {
    if s.tx.inFlight > Window(s) then 0 else Window(s) - s.tx.inFlight
  }

  // The Tx buffer's contract

  /** Scoreboard updates only take bytes out of the network. */
  function Shrink(tx: TxBuffer, inFlight: nat): TxBuffer {
    tx.(inFlight := Min(tx.inFlight, inFlight))
  }

  /** MarkHeadAsLost: the head also counts as not retransmitted. */
  function MarkHead(tx: TxBuffer, inFlight: nat): TxBuffer {
    tx.(inFlight := Min(tx.inFlight, inFlight), retryHead := true)
  }

  function DiscardUpTo(tx: TxBuffer, ack: nat, inFlight: nat, sacked: nat, retryHead: bool): TxBuffer {
    TxBuffer(ack, tx.tail, Min(tx.inFlight, inFlight), Min(tx.sacked, sacked), retryHead)
  }

  function AddRenoSack(tx: TxBuffer, bytes: nat, inFlight: nat): TxBuffer {
    tx.(sacked := tx.sacked + bytes, inFlight := Min(tx.inFlight, inFlight))
  }

  /** A head that was sent, is marked lost and was not retransmitted comes first; otherwise a segment already sent and
      presumed lost, or new data at the high mark, or nothing. */
  function NextSeg(tx: TxBuffer, highTx: nat, found: bool, at: nat): Option<nat> {
    if tx.retryHead && tx.head < highTx then Some(tx.head)
    else if !found then None
    else if tx.head <= at < highTx then Some(at)
    else if highTx < tx.tail then Some(highTx)
    else None
  }

  /** CopyFromSequence: the copy may count as in flight, and a copy of the head is its retransmission. */
  function Copied(tx: TxBuffer, from: nat, raised: nat): TxBuffer {
    tx.(inFlight := tx.inFlight + raised, retryHead := tx.retryHead && from != tx.head)
  }

  /** Size of the segment copied at `from`: never empty, at most `limit`, and never mixing sent and unsent data. */
  function CopySize(tx: TxBuffer, highTx: nat, from: nat, limit: int, size: nat): nat {
    var room := if from < highTx then highTx - from else tx.tail - from;
    Max(1, Min(size, Min(limit, room)))
  }

  // Sending

  /** New data leaves while an echo newer than the last reduction is pending. */
  predicate MustCut(s: Socket, seqNo: nat) {
    s.tcb.ecn == EceReceived && s.ecnEchoSeq > s.ecnCwrSeq && seqNo >= s.tcb.highTx
  }

  function CutIfDue(s: Socket, seqNo: nat, reduced: nat): Socket {
    var cWnd := Min(s.tcb.cWnd, reduced);
    if MustCut(s, seqNo) then
      s.(tcb := s.tcb.(cWnd := cWnd, ssThresh := cWnd, ecn := CwrSent), ecnCwrSeq := seqNo,
         cuts := s.cuts + [Cut(s.tx.head, seqNo)])
    else s
  }

  /** The segment goes into the RTT history (UpdateRttHistory) and may raise the high mark. */
  function RecordSent(s: Socket, seqNo: nat, size: nat): Socket {
    var retx := seqNo < s.tcb.highTx;
    s.(history := if retx then H.Mark(s.history, seqNo, size) else s.history + [H.Entry(seqNo, size, s.now, false)],
       sends := s.sends + [H.Span(seqNo, seqNo + size)],
       straddled := s.straddled || (retx && !H.Spares(s.history, seqNo, seqNo + size)),
       tcb := s.tcb.(highTx := Max(seqNo + size, s.tcb.highTx)))
  }

  /** SendDataPacket: `reduced` is the window TcpNewReno's ReduceCwnd would leave. */
  function SendData(s: Socket, seqNo: nat, size: nat, raised: nat, reduced: nat): Socket {
    var s1 := s.(tx := Copied(s.tx, seqNo, raised));
    RecordSent(CutIfDue(s1, seqNo, reduced), seqNo, size)
  }

  /** One turn of the send loop: is the pacing timer running, what NextSeg answers, the size copied, and the window
      an ECN reduction would leave. */
  datatype Offer = Offer(paced: bool, found: bool, at: nat, limit: Positive, size: nat, reduced: nat)

  /** The segment one turn of the loop decides to send, or the decision to stop. */
  function Choose(c: Config, s: Socket, o: Offer): (seg: Option<H.Span>)
    ensures seg.Some? ==> seg.value.lo < seg.value.hi
  {
    var window := AvailableWindow(s);
    if window == 0 || o.paced then None
    else
      match NextSeg(s.tx, s.tcb.highTx, o.found, o.at)
      case None => None
      case Some(next) =>
        var available := Max(0, s.tx.tail - next);
        if window < s.tcb.segmentSize && available > window then None
        else if !c.noDelay && UnAcked(s) > 0 && available < s.tcb.segmentSize then None
        else
          var size := CopySize(s.tx, s.tcb.highTx, next, Min(Min(window, s.tcb.segmentSize), o.limit), o.size);
          Some(H.Span(next, next + size))
  }

  function SendChosen(s: Socket, seg: H.Span, reduced: nat): Socket
    requires seg.lo < seg.hi
  {
    var sent := SendData(s, seg.lo, seg.hi - seg.lo, seg.hi - seg.lo, reduced);
    sent.(tcb := sent.tcb.(nextTx := seg.hi))
  }

  function SendLoop(c: Config, s: Socket, offers: nat -> Offer, turn: nat): Socket
    decreases AvailableWindow(s)
  {
    match Choose(c, s, offers(turn))
    case None => s
    case Some(seg) => SendLoop(c, SendChosen(s, seg, offers(turn).reduced), offers, turn + 1)
  }

  function SendPendingData(c: Config, s: Socket, offers: nat -> Offer): Socket {
    if s.tx.tail <= s.tx.head || !s.connected then s else SendLoop(c, s, offers, 0)
  }

  /** What NextSeg and CopyFromSequence answer a retransmission; `raises` is false when the segment was already
      counted as retransmitted. */
  datatype Retry = Retry(found: bool, at: nat, size: nat, raises: bool, reduced: nat)

  /** DoRetransmit sends NextSeg's segment, or the head again when there is none. */
  function RetryFrom(s: Socket, r: Retry): nat {
    match NextSeg(s.tx, s.tcb.highTx, r.found, r.at) case Some(next) => next case None => s.tx.head
  }

  function DoRetransmit(s: Socket, r: Retry): Socket {
    var from := RetryFrom(s, r);
    var size := CopySize(s.tx, s.tcb.highTx, from, s.tcb.segmentSize, r.size);
    var raised := if r.raises || from >= s.tcb.highTx then size else 0;
    SendData(s.(tcb := s.tcb.(nextTx := from)), from, size, raised, r.reduced)
  }

  /** SendEmptyPacket with the ACK flag: the retransmission timeout is recomputed (`rto`), whatever it had backed off
      to, and a pending congestion mark is echoed. */
  function SendAck(s: Socket, rto: nat): Socket {
    s.(rto := rto,
       tcb := s.tcb.(ecn := if s.tcb.ecn == CeReceived || s.tcb.ecn == SendingEce then SendingEce else s.tcb.ecn))
  }

  // ACK processing

  datatype Header = Header(ack: nat, seqNo: nat, window: nat, ece: bool, ttl: nat, echoed: Option<nat>)

  datatype AckAnswers = AckAnswers(
    estimate: Time, estimateRto: nat, rangeRto: nat,
    sackUpdated: bool, sackFlight: nat, discardFlight: nat, discardSacked: nat, discardRetry: bool,
    isLost: bool, headLost: bool, renoBytes: nat, renoFlight: nat, headFlight: nat,
    entryCwnd: nat, dupCwnd: nat, entryRetry: Retry,
    partialFlight: nat, partialHead: bool, partialRetry: Retry, partialCwnd: nat, growth: nat, exitCwnd: nat, ackRto: nat,
    dataAck: Option<nat>, offers: nat -> Offer)

  function SetCongState(s: Socket, state: CongState): Socket {
    s.(swift := Swift.CongestionStateSet(s.swift, s.tcb.nextTx, state), tcb := s.tcb.(cong := state))
  }

  function PktsAcked(s: Socket): Socket {
    s.(swift := Swift.PktsAcked(s.swift, s.tcb.lastRtt))
  }

  function IncreaseWindow(c: Config, s: Socket, growth: nat): Socket {
    var (w, t) := Swift.IncreaseWindow(c.swift, s.swift, s.tcb, growth);
    s.(swift := w, tcb := t)
  }

  /** The recovery ops and TcpNewReno never leave less than a segment. */
  function SetCwnd(s: Socket, cWnd: nat): Socket {
    s.(tcb := s.tcb.(cWnd := Max(s.tcb.segmentSize, cWnd)))
  }

  /** A fast-recovery entry up to its retransmission. */
  function Entering(c: Config, s: Socket, a: AckAnswers): Socket {
    var tx := if !c.sack then MarkHead(AddRenoSack(s.tx, a.renoBytes, a.renoFlight), a.headFlight)
              else if !a.headLost then MarkHead(s.tx, a.headFlight)
              else s.tx;
    var s1 := SetCongState(s.(tx := tx, recover := s.tcb.highTx, recoverActive := true,
                              entries := s.entries + [Entry(s.tx.head, s.tcb.highTx)]), Recovery);
    SetCwnd(s1.(tcb := s1.tcb.(ssThresh := Swift.GetSsThresh(s1.tcb))), a.entryCwnd)
  }

  function EnterRecovery(c: Config, s: Socket, a: AckAnswers): Socket {
    DoRetransmit(Entering(c, s, a), a.entryRetry)
  }

  /** One more duplicate, outside an episode; from Open the state becomes Disorder. */
  function CountDuplicate(s: Socket): Socket {
    var s1 := s.(dupAckCount := s.dupAckCount + 1);
    if s.tcb.cong == Open then SetCongState(s1, Disorder) else s1
  }

  /** In Disorder: the duplicate-ACK threshold or the scoreboard (`isLost`) starts a fast recovery. */
  function DisorderAck(c: Config, s: Socket, a: AckAnswers): Socket {
    if (s.dupAckCount == c.threshold && (s.highRxAck >= s.recover || !s.recoverActive)) || a.isLost then
      EnterRecovery(c, s, a)
    else if !c.sack && c.limitedTx then s.(tx := AddRenoSack(s.tx, a.renoBytes, a.renoFlight))
    else s
  }

  function DupAck(c: Config, s: Socket, a: AckAnswers): Socket {
    match s.tcb.cong
    case Loss => s
    case Recovery =>
      SetCwnd(if !c.sack then s.(tx := AddRenoSack(s.tx, a.renoBytes, a.renoFlight)) else s, a.dupCwnd)
    case _ => DisorderAck(c, CountDuplicate(s), a)
  }

  function NewAck(c: Config, s: Socket, ack: nat, resetRto: bool, rto: nat): Socket {
    s.(dataRetrCount := c.dataRetries, rto := if resetRto then rto else s.rto,
       tcb := s.tcb.(nextTx := Max(s.tcb.nextTx, ack)))
  }

  /** Whole segments covered by an advance of `bytes`, carrying the remainder over from earlier ACKs. */
  function SegmentsAcked(s: Socket, bytes: nat): nat {
    bytes / s.tcb.segmentSize
    + if s.unprocessed + bytes % s.tcb.segmentSize >= s.tcb.segmentSize then 1 else 0
  }

  function CountAcked(s: Socket, bytes: nat): Socket {
    var rest := s.unprocessed + bytes % s.tcb.segmentSize;
    s.(unprocessed := if rest >= s.tcb.segmentSize then rest - s.tcb.segmentSize else rest,
       totalSegments := s.totalSegments + SegmentsAcked(s, bytes))
  }

  /** The state in which an advancing ACK picks its branch. */
  function Credited(s: Socket, bytes: nat, isDupack: bool): Socket {
    CountAcked(s, bytes).(dupAckCount := if isDupack then s.dupAckCount else 0)
  }

  /** A partial ACK marks the new head lost; with SACK it only clears the head's retransmitted flag. */
  function PartialHead(c: Config, tx: TxBuffer, a: AckAnswers): TxBuffer {
    if !c.sack then MarkHead(tx, a.partialFlight)
    else Shrink(tx, a.partialFlight).(retryHead := a.partialHead)
  }

  function PartialAck(c: Config, s: Socket, ack: nat, segments: nat, a: AckAnswers): Socket {
    var s1 := DoRetransmit(s.(tx := PartialHead(c, s.tx, a)), a.partialRetry);
    var s2 := if segments >= 1 then SetCwnd(s1, a.partialCwnd) else s1;
    NewAck(c, PktsAcked(s2), ack, s2.firstPartialAck, a.ackRto).(firstPartialAck := false)
  }

  function LossAck(c: Config, s: Socket, ack: nat, a: AckAnswers): Socket {
    NewAck(c, IncreaseWindow(c, PktsAcked(s), a.growth), ack, true, a.ackRto)
  }

  /** The state change of an ACK that is not held back by a recovery point. */
  function LeaveCongestion(s: Socket, segments: nat, isDupack: bool, oldDupAcks: nat): Socket {
    match s.tcb.cong
    case Open => PktsAcked(s)
    case Disorder =>
      var s1 := if segments >= oldDupAcks then PktsAcked(s) else s;
      if !isDupack then SetCongState(s1, Open) else s1
    case Recovery => SetCongState(PktsAcked(s.(firstPartialAck := true)), Open).(dupAckCount := 0)
    case Loss => SetCongState(PktsAcked(s.(firstPartialAck := true)), Open)
  }

  function FullAck(c: Config, s: Socket, ack: nat, segments: nat, isDupack: bool, oldDupAcks: nat, a: AckAnswers): Socket {
    var s1 := LeaveCongestion(s, segments, isDupack, oldDupAcks);
    var s2 := s1.(recoverActive := s1.recoverActive && ack < s1.recover);
    if s.tcb.cong == Recovery then SetCwnd(NewAck(c, s2, ack, true, a.ackRto), a.exitCwnd)
    else NewAck(c, IncreaseWindow(c, s2, a.growth), ack, true, a.ackRto)
  }

  function AdvanceUna(c: Config, s: Socket, ack: nat, bytes: nat, isDupack: bool, oldDupAcks: nat, a: AckAnswers): Socket {
    var segments := SegmentsAcked(s, bytes);
    var s1 := Credited(s, bytes, isDupack);
    if ack < s1.recover && s1.tcb.cong == Recovery then PartialAck(c, s1, ack, segments, a)
    else if ack < s1.recover && s1.tcb.cong == Loss then LossAck(c, s1, ack, a)
    else FullAck(c, s1, ack, segments, isDupack, oldDupAcks, a)
  }

  /** With SACK a duplicate is an ACK whose SACK blocks say something new about data between HighACK and HighData. */
  function IsDupack(c: Config, s: Socket, ack: nat, oldHead: nat, sackUpdated: bool): bool {
    if c.sack then sackUpdated && ack < s.tcb.highTx else ack == oldHead && ack < s.tcb.highTx
  }

  /** The duplicate-ACK half of ProcessAck. */
  function NoteAck(c: Config, s: Socket, ack: nat, isDupack: bool, a: AckAnswers): Socket {
    var s1 := s.(tcb := s.tcb.(lastAcked := ack));
    if isDupack then DupAck(c, s1, a) else s1
  }

  /** The other half: what the ACK says about new data. */
  function FinishAck(c: Config, s: Socket, ack: nat, oldHead: nat, isDupack: bool, oldDupAcks: nat, a: AckAnswers): Socket {
    if ack > oldHead then AdvanceUna(c, s, ack, ack - oldHead, isDupack, oldDupAcks, a)
    else if ack < oldHead || ack == s.tcb.highTx then s
    else if ack > s.tcb.highTx then s.(tcb := s.tcb.(nextTx := ack))
    else PktsAcked(s)
  }

  function ProcessAck(c: Config, s: Socket, ack: nat, oldHead: nat, a: AckAnswers): Socket {
    var isDupack := IsDupack(c, s, ack, oldHead, a.sackUpdated);
    FinishAck(c, NoteAck(c, s, ack, isDupack, a), ack, oldHead, isDupack, s.dupAckCount, a)
  }

  function EcnEcho(s: Socket, ack: nat, oldHead: nat, ece: bool): Socket {
    if ack > oldHead && s.tcb.ecn != EcnDisabled && ece then
      if s.ecnEchoSeq < ack then s.(ecnEchoSeq := ack, tcb := s.tcb.(ecn := EceReceived)) else s
    else if s.tcb.ecn == EceReceived && !ece then s.(tcb := s.tcb.(ecn := EcnIdle))
    else s
  }

  /** The Tx buffer after an ACK and its SACK blocks. */
  function Trimmed(c: Config, s: Socket, ack: nat, a: AckAnswers): Socket {
    s.(tx := DiscardUpTo(if c.sack then Shrink(s.tx, a.sackFlight) else s.tx, ack, a.discardFlight,
                       a.discardSacked, a.discardRetry))
  }

  /** An ACK taken up, the data it came with acknowledged in turn. */
  function TakeAck(c: Config, s: Socket, h: Header, a: AckAnswers): Socket {
    var s1 := EcnEcho(Trimmed(c, s, h.ack, a), h.ack, s.tx.head, h.ece);
    var s2 := ProcessAck(c, s1, h.ack, s.tx.head, a);
    if a.dataAck.Some? then SendAck(s2, a.dataAck.value) else s2
  }

  function ReceivedAck(c: Config, s: Socket, h: Header, a: AckAnswers): Socket {
    SendPendingData(c, TakeAck(c, s, h, a), a.offers)
  }

  /** EstimateRtt, with the estimator's answers. */
  function EstimateRtt(s: Socket, h: Header, a: AckAnswers): Socket {
    var s1 := s.(history := H.Remaining(s.history, h.ack));
    if H.Measured(s.history, h.ack, s.now, h.echoed).Some? then
      s1.(rto := a.estimateRto, tcb := s.tcb.(lastRtt := a.estimate))
    else s1
  }

  function UpdateWindowSize(s: Socket, h: Header): Socket {
    var update := (h.ack == s.highRxAck && h.window > s.rWnd) || h.ack > s.highRxAck || h.seqNo > s.highRxMark;
    s.(highRxAck := Max(s.highRxAck, h.ack), highRxMark := Max(s.highRxMark, h.seqNo),
       rWnd := if update then h.window else s.rWnd)
  }

  /** What DoForwardUp does with an ACK before looking at the connection state. */
  function Arrive(s: Socket, now: nat, h: Header, a: AckAnswers): Socket {
    UpdateWindowSize(EstimateRtt(s.(now := now, tcb := s.tcb.(rcvTtl := h.ttl)), h, a), h)
  }

  /** ProcessEstablished for a segment with only the ACK flag: old ACKs are dropped, ACKs of data never sent are
      answered and dropped. */
  function ProcessEstablished(c: Config, s: Socket, h: Header, a: AckAnswers): Socket {
    if h.ack < s.tx.head then s
    else if h.ack > s.tcb.highTx then SendAck(s, a.rangeRto)
    else ReceivedAck(c, s, h, a)
  }

  function Receive(c: Config, s: Socket, now: nat, h: Header, a: AckAnswers): Socket {
    ProcessEstablished(c, Arrive(s, now, h, a), h, a)
  }

  // Retransmission timeout

  /** `headRetransmitted` is IsHeadRetransmitted. */
  datatype TimeoutAnswers = TimeoutAnswers(headRetransmitted: bool, sacked: nat, offers: nat -> Offer)

  /** Flight, duplicates, RTT history and one retry given up; the recovery point moved to the high mark; the timer
      doubled. */
  function Forgotten(c: Config, s: Socket, t: TimeoutAnswers): Socket
    requires 0 < s.dataRetrCount
  {
    s.(dataRetrCount := s.dataRetrCount - 1, dupAckCount := 0,
       tx := s.tx.(inFlight := 0, sacked := if c.sack then t.sacked else 0, retryHead := true),
       recover := s.tcb.highTx, recoverActive := true, rto := Min(s.rto + s.rto, MAX_RTO),
       history := [], straddled := false)
  }

  /** The state in which the timeout restarts sending. */
  function Backoff(c: Config, s: Socket, t: TimeoutAnswers): Socket
    requires 0 < s.dataRetrCount
  {
    var s1 := Forgotten(c, s, t);
    var s2 := if s.tcb.cong != Loss || !t.headRetransmitted then
                s1.(tcb := s1.tcb.(ssThresh := Swift.GetSsThresh(s1.tcb)))
              else s1;
    var s3 := SetCongState(s2, Loss);
    s3.(tcb := s3.tcb.(cWnd := s3.tcb.segmentSize))
  }

  /** The timeout has just cancelled the pacing timer, so it cannot hold back the first turn. */
  function Unpaced(offers: nat -> Offer): nat -> Offer {
    (turn: nat) => if turn == 0 then offers(0).(paced := false) else offers(turn)
  }

  function ReTxTimeout(c: Config, s: Socket, t: TimeoutAnswers): Socket {
    if s.tx.tail <= s.tx.head then s
    else if s.dataRetrCount == 0 then s.(connected := false)
    else SendPendingData(c, Backoff(c, s, t), Unpaced(t.offers))
  }

  // Events

  datatype Event =
    | Write(size: nat)
    | Flush(flushAt: nat, offers: nat -> Offer)
    | Segment(at: nat, header: Header, answers: AckAnswers)
    | EmptyAck(ackRto: nat)
    | Timeout(firedAt: nat, timeout: TimeoutAnswers)
    | CeMark
    | CwrFlag

  function Step(c: Config, s: Socket, e: Event): Socket {
    match e
    case Write(size) => s.(tx := s.tx.(tail := s.tx.tail + size))
    case Flush(now, offers) => SendPendingData(c, s.(now := now), offers)
    case Segment(now, h, a) => if s.connected then Receive(c, s, now, h, a) else s
    case EmptyAck(rto) => if s.connected then SendAck(s, rto) else s
    case Timeout(now, t) => if s.connected then ReTxTimeout(c, s.(now := now), t) else s
    case CeMark => s.(tcb := s.tcb.(ecn := CeReceived))
    case CwrFlag => if s.tcb.ecn != CeReceived then s.(tcb := s.tcb.(ecn := EcnIdle)) else s
  }

  function Run(c: Config, s: Socket, es: seq<Event>): Socket {
    if es == [] then s else Step(c, Run(c, s, es[..|es| - 1]), es[|es| - 1])
  }
}
