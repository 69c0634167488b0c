/** The sending half of TcpSocketBase updated in place, each method tied to its function in `Sender`. The source's
    assertions stand where the source has them. Answers of code not in this repository are parameters. */
module TcpSocketBase {
  import opened TcpTypes
  import opened Sender
  import opened SenderInvariants
  import T = SenderTheorems
  import Swift
  import H = RttHistory
  import opened SwiftController

  /** The Tx buffer reduced to its contract. */
  class TcpTxBuffer {
    var head: nat
    var tail: nat
    var inFlight: nat
    var sacked: nat
    var retryHead: bool

    ghost function View(): TxBuffer
      reads this
    {
      TxBuffer(head, tail, inFlight, sacked, retryHead)
    }

    constructor (first: nat)
      ensures View() == TxBuffer(first, first, 0, 0, false)
    {
      head, tail, inFlight, sacked, retryHead := first, first, 0, 0, false;
    }

    method Shrink(flight: nat)
      modifies this
      ensures View() == Sender.Shrink(old(View()), flight)
    {
      inFlight := Min(inFlight, flight);
    }

    method MarkHeadAsLost(flight: nat)
      modifies this
      ensures View() == MarkHead(old(View()), flight)
    {
      inFlight, retryHead := Min(inFlight, flight), true;
    }

    method DiscardUpTo(ack: nat, flight: nat, sack: nat, retry: bool)
      modifies this
      ensures View() == Sender.DiscardUpTo(old(View()), ack, flight, sack, retry)
    {
      head, inFlight, sacked, retryHead := ack, Min(inFlight, flight), Min(sacked, sack), retry;
    }

    method AddRenoSack(bytes: nat, flight: nat)
      modifies this
      ensures View() == Sender.AddRenoSack(old(View()), bytes, flight)
    {
      sacked, inFlight := sacked + bytes, Min(inFlight, flight);
    }

    /** A lost head not yet retransmitted is named first. */
    method NextSeg(highTx: nat, found: bool, at: nat) returns (next: Option<nat>)
      ensures next == Sender.NextSeg(View(), highTx, found, at)
      ensures retryHead && head < highTx ==> next == Some(head)
    {
      next := if retryHead && head < highTx then Some(head)
      else if !found then None
      else if head <= at < highTx then Some(at)
      else if highTx < tail then Some(highTx)
      else None;
    }

    /** `counts` says whether the copy adds to the bytes in flight. */
    method CopyFromSequence(highTx: nat, from: nat, limit: nat, size: nat, counts: bool) returns (sz: nat)
      modifies this
      ensures sz == CopySize(old(View()), highTx, from, limit, size)
      ensures View() == Copied(old(View()), from, if counts then sz else 0)
    {
      var room := if from < highTx then highTx - from else tail - from;
      sz := Max(1, Min(size, Min(limit, room)));
      if counts {
        inFlight := inFlight + sz;
      }
      retryHead := retryHead && from != head;
    }
  }

  class TcpSocketBase {
    const config: Config
    const tcb: TcpSocketState
    const txBuffer: TcpTxBuffer
    const congestionControl: TcpSwift
    const rtt: H.RttLog

    var dupAckCount: nat
    var recover: nat
    var recoverActive: bool
    var isFirstPartialAck: bool
    var rWnd: nat
    var highRxAckMark: nat
    var highRxMark: nat
    var ecnEchoSeq: nat
    var ecnCWRSeq: nat
    var rto: nat
    var dataRetrCount: nat
    var connected: bool
    var bytesAckedNotProcessed: nat
    var now: nat
    ghost var sends: seq<H.Span>
    ghost var straddled: bool
    ghost var totalSegments: nat
    ghost var entries: seq<Entry>
    ghost var cuts: seq<Cut>
    ghost const first: nat

    ghost function View(): Socket
      reads this, tcb, txBuffer, congestionControl, rtt
    {
      Socket(tcb.View(), txBuffer.View(), congestionControl.View(), dupAckCount, recover, recoverActive,
             isFirstPartialAck, rWnd, highRxAckMark, highRxMark, ecnEchoSeq, ecnCWRSeq, rto, dataRetrCount, connected,
             bytesAckedNotProcessed, rtt.history, now, sends, straddled, totalSegments, entries, cuts)
    }

    ghost predicate Valid()
      reads this, tcb, txBuffer, congestionControl, rtt
    {
      Inv(config, View(), first) && congestionControl.params == config.swift
    }

    /** An ESTABLISHED socket, as the handshake leaves it: `tcb` and `cc` are what the handshake prepared. */
    constructor (config: Config, b: Start, tcb: TcpSocketState, cc: TcpSwift)
      requires tcb.View() == T.Fresh(config, b).tcb && cc.View() == T.Fresh(config, b).swift && cc.params == config.swift
      ensures Valid() && this.config == config && first == b.first
      ensures View() == T.Fresh(config, b)
    {
      hide Inv;
      this.config, this.first := config, b.first;
      this.tcb, this.congestionControl := tcb, cc;
      txBuffer := new TcpTxBuffer(b.first);
      rtt := new H.RttLog();
      dupAckCount, recover, recoverActive, isFirstPartialAck := 0, 0, false, true;
      rWnd, highRxAckMark, highRxMark, ecnEchoSeq, ecnCWRSeq := b.rWnd, b.highRxAck, 0, 0, 0;
      rto, dataRetrCount, connected, bytesAckedNotProcessed, now := b.rto, config.dataRetries, true, 0, 0;
      sends, straddled, totalSegments, entries, cuts := [], false, 0, [], [];
      new;
      InitialInv(config, b);
    }

    // Sending

    method AvailableWindow() returns (window: nat)
      ensures window == Sender.AvailableWindow(View())
    {
      var win := Min(rWnd, tcb.cWnd);
      window := if txBuffer.inFlight > win then 0 else win - txBuffer.inFlight;
    }

    method RecordSent(seqNo: nat, size: nat)
      modifies rtt, this, tcb
      ensures View() == Sender.RecordSent(old(View()), seqNo, size)
    {
      var isRetransmission := seqNo < tcb.highTxMark;
      straddled := straddled || (isRetransmission && !H.Spares(rtt.history, seqNo, seqNo + size));
      sends := sends + [H.Span(seqNo, seqNo + size)];
      rtt.UpdateRttHistory(seqNo, size, isRetransmission, now);
      tcb.highTxMark := Max(seqNo + size, tcb.highTxMark);
    }

    method CutIfDue(seqNo: nat, reduced: nat)
      modifies this, tcb
      ensures View() == Sender.CutIfDue(old(View()), seqNo, reduced)
    {
      if tcb.ecnState == EceReceived && ecnEchoSeq > ecnCWRSeq && seqNo >= tcb.highTxMark {
        ReduceForEcn(seqNo, reduced);
      }
    }

    method ReduceForEcn(seqNo: nat, reduced: nat)
      requires MustCut(View(), seqNo)
      modifies this, tcb
      ensures View() == Sender.CutIfDue(old(View()), seqNo, reduced)
    {
      tcb.cWnd := Min(tcb.cWnd, reduced);
      tcb.ssThresh := tcb.cWnd;
      ecnCWRSeq := seqNo;
      tcb.ecnState := CwrSent;
      cuts := cuts + [Cut(txBuffer.head, seqNo)];
    }

    method SendDataPacket(seqNo: nat, limit: nat, size: nat, raises: bool, reduced: nat) returns (sz: nat)
      modifies this, tcb, txBuffer, rtt
      ensures sz == CopySize(old(txBuffer.View()), old(tcb.highTxMark), seqNo, limit, size)
      ensures View() == SendData(old(View()), seqNo, sz, if raises || seqNo >= old(tcb.highTxMark) then sz else 0, reduced)
    {
      hide Sender.CutIfDue, Sender.RecordSent;
      var isRetransmission := seqNo < tcb.highTxMark;
      sz := txBuffer.CopyFromSequence(tcb.highTxMark, seqNo, limit, size, raises || !isRetransmission);
      CutIfDue(seqNo, reduced);
      RecordSent(seqNo, sz);
    }

    /** One query of the scoreboard, with the silly-window and Nagle checks. */
    method ChooseSegment(window: nat, o: Offer) returns (seg: Option<H.Span>)
      requires 0 < window == Sender.AvailableWindow(View())
      ensures seg == Choose(config, View(), o)
    {
      if o.paced {
        return None;
      }
      var next := txBuffer.NextSeg(tcb.highTxMark, o.found, o.at);
      if next.None? {
        return None;
      }
      var available := Max(0, txBuffer.tail - next.value);
      if window < tcb.segmentSize && available > window {
        return None;
      }
      if !config.noDelay && tcb.highTxMark > txBuffer.head && available < tcb.segmentSize {
        return None;
      }
      var s := Min(Min(window, tcb.segmentSize), o.limit);
      var room := if next.value < tcb.highTxMark then tcb.highTxMark - next.value else txBuffer.tail - next.value;
      return Some(H.Span(next.value, next.value + Max(1, Min(o.size, Min(s, room)))));
    }

    method SendSegment(seg: H.Span, o: Offer)
      requires Choose(config, View(), o) == Some(seg)
      modifies this, tcb, txBuffer, rtt
      ensures View() == SendChosen(old(View()), seg, o.reduced)
    {
      hide SendData;
      var sz := SendDataPacket(seg.lo, seg.hi - seg.lo, seg.hi - seg.lo, true, o.reduced);
      tcb.nextTxSequence := seg.lo + sz;
    }

    /** The loop's measure is the available window: every segment sent shrinks it. */
    method SendPendingData(offers: nat -> Offer) returns (packets: nat)
      modifies this, tcb, txBuffer, rtt
      ensures View() == Sender.SendPendingData(config, old(View()), offers)
      ensures packets == |sends| - |old(sends)|
    {
      packets := 0;
      if txBuffer.tail <= txBuffer.head || !connected {
        return;
      }
      var window := AvailableWindow();
      while window > 0
        invariant window == Sender.AvailableWindow(View())
        invariant packets == |sends| - |old(sends)|
        invariant SendLoop(config, View(), offers, packets) == SendLoop(config, old(View()), offers, 0)
        decreases window
      {
        var seg := ChooseSegment(window, offers(packets));
        if seg.None? {
          break;
        }
        SendChosenInFlight(config, View(), offers(packets));
        SendSegment(seg.value, offers(packets));
        packets := packets + 1;
        window := AvailableWindow();
      }
    }

    /** NextSeg's segment, or the head again. Without SACK the callers have just marked the head lost, so it is the head:
        the source's assertion follows from NextSeg's contract. */
    method DoRetransmit(r: Retry)
      requires txBuffer.head < tcb.highTxMark <= txBuffer.tail && (config.sack || txBuffer.retryHead)
      modifies this, tcb, txBuffer, rtt
      ensures View() == Sender.DoRetransmit(old(View()), r)
    {
      var next := txBuffer.NextSeg(tcb.highTxMark, r.found, r.at);
      var seqNo := if next.Some? then next.value else txBuffer.head;
      assert config.sack || seqNo == txBuffer.head;
      tcb.nextTxSequence := seqNo;
      var sz := SendDataPacket(seqNo, tcb.segmentSize, r.size, r.raises, r.reduced);
      assert sz > 0;
    }

    method SendAck(newRto: nat)
      modifies this, tcb
      ensures View() == Sender.SendAck(old(View()), newRto)
    {
      rto := newRto;
      if tcb.ecnState == CeReceived || tcb.ecnState == SendingEce {
        tcb.ecnState := SendingEce;
      }
    }

    // ACK processing

    method SetCongState(state: CongState)
      requires congestionControl.Valid()
      modifies tcb, congestionControl
      ensures congestionControl.Valid()
      ensures View() == Sender.SetCongState(old(View()), state)
    {
      hide Swift.SwiftInv, Swift.CongestionStateSet;
      congestionControl.CongestionStateSet(tcb, state);
      tcb.congState := state;
    }

    /** The scoreboard's part of entering recovery: a segment has left the network and the head is lost. */
    method MarkHeadLost(a: AckAnswers)
      modifies txBuffer
      ensures txBuffer.View() == if !config.sack then
                                   MarkHead(Sender.AddRenoSack(old(txBuffer.View()), a.renoBytes, a.renoFlight), a.headFlight)
                                 else if !a.headLost then MarkHead(old(txBuffer.View()), a.headFlight)
                                 else old(txBuffer.View())
    {
      if !config.sack {
        txBuffer.AddRenoSack(a.renoBytes, a.renoFlight);
        txBuffer.MarkHeadAsLost(a.headFlight);
      } else if !a.headLost {
        txBuffer.MarkHeadAsLost(a.headFlight);
      }
    }

    method ReduceWindow(entryCwnd: nat)
      modifies tcb
      ensures
        var t := old(tcb.View());
        View() == SetCwnd(old(View()).(tcb := t.(ssThresh := Swift.GetSsThresh(t))), entryCwnd)
    {
      var threshold := congestionControl.GetSsThresh(tcb);
      tcb.ssThresh := threshold;
      tcb.cWnd := Max(tcb.segmentSize, entryCwnd);
    }

    method MoveRecoveryPoint()
      modifies this
      ensures View() == old(View()).(recover := tcb.highTxMark, recoverActive := true)
    {
      recover := tcb.highTxMark;
      recoverActive := true;
    }

    method Enter(a: AckAnswers)
      requires congestionControl.Valid()
      modifies this, tcb, txBuffer, congestionControl
      ensures congestionControl.Valid()
      ensures tcb.highTxMark == old(tcb.highTxMark)
      ensures txBuffer.head == old(txBuffer.head) && txBuffer.tail == old(txBuffer.tail)
      ensures config.sack || txBuffer.retryHead
      ensures View() == Sender.Entering(config, old(View()), a)
    {
      hide Swift.CongestionStateSet, Swift.GetSsThresh, Swift.SwiftInv;
      entries := entries + [Entry(txBuffer.head, tcb.highTxMark)];
      MoveRecoveryPoint();
      MarkHeadLost(a);
      SetCongState(Recovery);
      ReduceWindow(a.entryCwnd);
    }

    method EnterRecovery(a: AckAnswers)
      requires congestionControl.Valid() && txBuffer.head < tcb.highTxMark <= txBuffer.tail
      requires tcb.congState != Recovery
      modifies this, tcb, txBuffer, congestionControl, rtt
      ensures congestionControl.Valid()
      ensures View() == Sender.EnterRecovery(config, old(View()), a)
    {
      hide Sender.Entering, Sender.DoRetransmit, Swift.SwiftInv;
      assert tcb.congState != Recovery;
      Enter(a);
      DoRetransmit(a.entryRetry);
    }

    method CountDuplicate()
      requires congestionControl.Valid() && tcb.congState != Recovery && tcb.congState != Loss
      requires tcb.congState == Open ==> dupAckCount == 0
      modifies this, tcb, congestionControl
      ensures congestionControl.Valid()
      ensures View() == Sender.CountDuplicate(old(View()))
    {
      hide Swift.SwiftInv, Swift.CongestionStateSet;
      dupAckCount := dupAckCount + 1;
      if tcb.congState == Open {
        assert dupAckCount == 1;
        SetCongState(Disorder);
      }
    }

    method DisorderAck(a: AckAnswers)
      requires congestionControl.Valid() && txBuffer.head < tcb.highTxMark <= txBuffer.tail
      requires tcb.congState == Disorder && dupAckCount <= config.threshold
      modifies this, tcb, txBuffer, congestionControl, rtt
      ensures congestionControl.Valid()
      ensures View() == Sender.DisorderAck(config, old(View()), a)
    {
      hide Swift.SwiftInv, Sender.EnterRecovery;
      assert dupAckCount <= config.threshold || recoverActive;
      if dupAckCount == config.threshold && (highRxAckMark >= recover || !recoverActive) {
        EnterRecovery(a);
      } else if a.isLost {
        EnterRecovery(a);
      } else if !config.sack && config.limitedTx {
        txBuffer.AddRenoSack(a.renoBytes, a.renoFlight);
      }
    }

    method DupAck(a: AckAnswers)
      requires congestionControl.Valid() && txBuffer.head < tcb.highTxMark <= txBuffer.tail
      requires CongInv(config, View())
      modifies this, tcb, txBuffer, congestionControl, rtt
      ensures congestionControl.Valid()
      ensures View() == Sender.DupAck(config, old(View()), a)
    {
      hide Swift.SwiftInv, Sender.DisorderAck;
      if tcb.congState == Loss {
        return;
      }
      if tcb.congState == Recovery {
        if !config.sack {
          txBuffer.AddRenoSack(a.renoBytes, a.renoFlight);
        }
        tcb.cWnd := Max(tcb.segmentSize, a.dupCwnd);
      } else {
        CountDuplicate();
        DisorderAck(a);
      }
    }

    method NewAck(ack: nat, resetRto: bool, newRto: nat)
      modifies this, tcb
      ensures View() == Sender.NewAck(config, old(View()), ack, resetRto, newRto)
    {
      dataRetrCount := config.dataRetries;
      if resetRto {
        rto := newRto;
      }
      if ack > tcb.nextTxSequence {
        tcb.nextTxSequence := ack;
      }
    }

    /** The sample and timer of an ACK that leaves recovery under way. */
    method SampleAndAck(ack: nat, resetRto: bool, newRto: nat)
      requires congestionControl.Valid()
      modifies this, tcb, congestionControl
      ensures congestionControl.Valid()
      ensures View() == Sender.NewAck(config, Sender.PktsAcked(old(View())), ack, resetRto, newRto)
    {
      hide Swift.SwiftInv, Swift.PktsAcked;
      congestionControl.PktsAcked(tcb.lastRtt);
      NewAck(ack, resetRto, newRto);
    }

    /** The scoreboard's part of a partial ACK. */
    method MarkPartial(a: AckAnswers)
      modifies txBuffer
      ensures txBuffer.View() == PartialHead(config, old(txBuffer.View()), a)
    {
      if !config.sack {
        txBuffer.MarkHeadAsLost(a.partialFlight);
      } else {
        txBuffer.Shrink(a.partialFlight);
        txBuffer.retryHead := a.partialHead;
      }
    }

    method PartialAck(ack: nat, segments: nat, a: AckAnswers)
      requires congestionControl.Valid() && txBuffer.head < tcb.highTxMark <= txBuffer.tail
      modifies this, tcb, txBuffer, congestionControl, rtt
      ensures congestionControl.Valid()
      ensures View() == Sender.PartialAck(config, old(View()), ack, segments, a)
    {
      hide Sender.DoRetransmit, Sender.PktsAcked, Sender.NewAck, Sender.SetCwnd, Swift.SwiftInv;
      MarkPartial(a);
      DoRetransmit(a.partialRetry);
      if segments >= 1 {
        SetWindow(a.partialCwnd);
      }
      SampleAndAck(ack, isFirstPartialAck, a.ackRto);
      isFirstPartialAck := false;
    }

    /** The window growth and timer shared by the ACKs outside fast recovery. */
    method GrowAndAck(ack: nat, a: AckAnswers)
      requires congestionControl.Valid() && congestionControl.params == config.swift
      modifies this, tcb, congestionControl
      ensures congestionControl.Valid()
      ensures View() == Sender.NewAck(config, Sender.IncreaseWindow(config, old(View()), a.growth), ack, true, a.ackRto)
    {
      hide Swift.SwiftInv, Swift.IncreaseWindow;
      congestionControl.IncreaseWindow(tcb, a.growth);
      NewAck(ack, true, a.ackRto);
    }

    method LossAck(ack: nat, a: AckAnswers)
      requires congestionControl.Valid() && congestionControl.params == config.swift
      requires tcb.congState == Loss && CongInv(config, View())
      modifies this, tcb, congestionControl
      ensures congestionControl.Valid()
      ensures View() == Sender.LossAck(config, old(View()), ack, a)
    {
      hide Swift.SwiftInv, Swift.PktsAcked, Swift.IncreaseWindow;
      congestionControl.PktsAcked(tcb.lastRtt);
      if !config.sack {
        assert txBuffer.sacked == 0;
      }
      GrowAndAck(ack, a);
    }

    method LeaveEpisode()
      requires congestionControl.Valid()
      modifies this, tcb, congestionControl
      ensures congestionControl.Valid()
      ensures View() == Sender.SetCongState(Sender.PktsAcked(old(View()).(firstPartialAck := true)), Open)
    {
      hide Swift.SwiftInv, Swift.PktsAcked, Swift.CongestionStateSet;
      isFirstPartialAck := true;
      congestionControl.PktsAcked(tcb.lastRtt);
      SetCongState(Open);
    }

    method LeaveCongestion(segments: nat, isDupack: bool, oldDupAcks: nat)
      requires congestionControl.Valid()
      modifies this, tcb, congestionControl
      ensures congestionControl.Valid()
      ensures View() == Sender.LeaveCongestion(old(View()), segments, isDupack, oldDupAcks)
    {
      hide Swift.SwiftInv, Swift.PktsAcked, Swift.CongestionStateSet;
      match tcb.congState {
        case Open =>
          congestionControl.PktsAcked(tcb.lastRtt);
        case Disorder =>
          if segments >= oldDupAcks {
            congestionControl.PktsAcked(tcb.lastRtt);
          }
          if !isDupack {
            SetCongState(Open);
          }
        case Recovery =>
          LeaveEpisode();
          dupAckCount := 0;
        case Loss =>
          LeaveEpisode();
      }
    }

    method FullAck(ack: nat, segments: nat, isDupack: bool, oldDupAcks: nat, a: AckAnswers)
      requires congestionControl.Valid() && congestionControl.params == config.swift
      modifies this, tcb, congestionControl
      ensures congestionControl.Valid()
      ensures View() == Sender.FullAck(config, old(View()), ack, segments, isDupack, oldDupAcks, a)
    {
      hide Sender.LeaveCongestion, Sender.IncreaseWindow, Sender.NewAck, Sender.SetCwnd, Swift.SwiftInv;
      var exitedFastRecovery := tcb.congState == Recovery;
      LeaveCongestion(segments, isDupack, oldDupAcks);
      CloseEpisode(ack);
      if exitedFastRecovery {
        NewAck(ack, true, a.ackRto);
        SetWindow(a.exitCwnd);
      } else {
        GrowAndAck(ack, a);
      }
    }

    method CloseEpisode(ack: nat)
      modifies this
      ensures View() == old(View()).(recoverActive := old(recoverActive) && ack < recover)
    {
      if ack >= recover {
        recoverActive := false;
      }
    }

    /** The recovery ops set the window. */
    method SetWindow(cWnd: nat)
      modifies tcb
      ensures View() == SetCwnd(old(View()), cWnd)
    {
      tcb.cWnd := Max(tcb.segmentSize, cWnd);
    }

    /** Segment accounting; returns the whole segments this ACK covers. */
    method CreditAcked(bytes: nat, isDupack: bool) returns (segments: nat)
      requires bytesAckedNotProcessed < tcb.segmentSize
      modifies this
      ensures segments == SegmentsAcked(old(View()), bytes)
      ensures View() == Credited(old(View()), bytes, isDupack)
    {
      segments := bytes / tcb.segmentSize;
      bytesAckedNotProcessed := bytesAckedNotProcessed + bytes % tcb.segmentSize;
      if bytesAckedNotProcessed >= tcb.segmentSize {
        segments := segments + 1;
        bytesAckedNotProcessed := bytesAckedNotProcessed - tcb.segmentSize;
      }
      totalSegments := totalSegments + segments;
      if !isDupack {
        dupAckCount := 0;
      }
    }

    /** What the ACK path relies on between its steps. */
    ghost predicate Ready()
      reads this, tcb, txBuffer, congestionControl, rtt
    {
      congestionControl.Valid() && congestionControl.params == config.swift && AckReady(config, View())
    }

    method AdvanceUna(ack: nat, bytes: nat, isDupack: bool, oldDupAcks: nat, a: AckAnswers)
      requires Ready() && txBuffer.head == ack
      modifies this, tcb, txBuffer, congestionControl, rtt
      ensures View() == Sender.AdvanceUna(config, old(View()), ack, bytes, isDupack, oldDupAcks, a)
    {
      hide Swift.SwiftInv, Sender.PartialAck, Sender.LossAck, Sender.FullAck;
      var segments := CreditAcked(bytes, isDupack);
      if ack < recover && tcb.congState == Recovery {
        PartialAck(ack, segments, a);
      } else if ack < recover && tcb.congState == Loss {
        LossAck(ack, a);
      } else {
        FullAck(ack, segments, isDupack, oldDupAcks, a);
      }
    }

    method NoteAck(ack: nat, isDupack: bool, a: AckAnswers)
      requires Ready() && (isDupack ==> txBuffer.head < tcb.highTxMark)
      modifies this, tcb, txBuffer, congestionControl, rtt
      ensures Ready() && txBuffer.head == old(txBuffer.head)
      ensures View() == Sender.NoteAck(config, old(View()), ack, isDupack, a)
    {
      hide Swift.SwiftInv, Sender.DupAck, EcnInv, WireInv, EntryInv;
      NoteAckReady(config, View(), ack, isDupack, a);
      tcb.lastAckedSeq := ack;
      if isDupack {
        DupAck(a);
      }
    }

    method ProcessAck(ack: nat, oldHead: nat, a: AckAnswers)
      requires Ready() && txBuffer.head == ack && oldHead <= ack
      modifies this, tcb, txBuffer, congestionControl, rtt
      ensures View() == Sender.ProcessAck(config, old(View()), ack, oldHead, a)
    {
      hide Swift.SwiftInv, Swift.PktsAcked, Sender.AdvanceUna, Sender.NoteAck;
      var oldDupAckCount := dupAckCount;
      var isDupack := (if config.sack then a.sackUpdated else ack == oldHead) && ack < tcb.highTxMark;
      NoteAck(ack, isDupack, a);
      if ack == oldHead && ack == tcb.highTxMark {
        return;
      } else if ack == oldHead {
        assert ack <= tcb.highTxMark;
        congestionControl.PktsAcked(tcb.lastRtt);
      } else if ack > oldHead {
        AdvanceUna(ack, ack - oldHead, isDupack, oldDupAckCount, a);
      }
    }

    method Trim(ack: nat, a: AckAnswers)
      modifies txBuffer
      ensures View() == Trimmed(config, old(View()), ack, a)
    {
      if config.sack {
        txBuffer.Shrink(a.sackFlight);
      }
      txBuffer.DiscardUpTo(ack, a.discardFlight, a.discardSacked, a.discardRetry);
    }

    method NoteEcnEcho(ack: nat, oldHead: nat, ece: bool)
      modifies this, tcb
      ensures View() == EcnEcho(old(View()), ack, oldHead, ece)
    {
      if ack > oldHead && tcb.ecnState != EcnDisabled && ece {
        if ecnEchoSeq < ack {
          ecnEchoSeq := ack;
          tcb.ecnState := EceReceived;
        }
      } else if tcb.ecnState == EceReceived && !ece {
        tcb.ecnState := EcnIdle;
      }
    }

    method ReceivedAck(h: Header, a: AckAnswers)
      requires Valid() && txBuffer.head <= h.ack <= tcb.highTxMark && FrontPast(rtt.history, h.ack)
      modifies this, tcb, txBuffer, congestionControl, rtt
      ensures View() == Sender.ReceivedAck(config, old(View()), h, a)
    {
      hide Sender.ProcessAck, Sender.SendPendingData, Sender.SendAck, Sender.EcnEcho, Trimmed, Swift.SwiftInv,
           AckReady, Inv;
      var oldHead := txBuffer.head;
      InvReady(config, View(), first);
      TakenUp(config, View(), first, h, a);
      Trim(h.ack, a);
      NoteEcnEcho(h.ack, oldHead, h.ece);
      ProcessAck(h.ack, oldHead, a);
      if a.dataAck.Some? {
        SendAck(a.dataAck.value);
      }
      var packets := SendPendingData(a.offers);
    }

    // Events

    method EstimateRtt(h: Header, a: AckAnswers)
      modifies this, tcb, rtt
      ensures View() == Sender.EstimateRtt(old(View()), h, a)
    {
      var m := rtt.EstimateRtt(h.ack, now, h.echoed);
      if m.Some? {
        rto := a.estimateRto;
        tcb.lastRtt := a.estimate;
      }
    }

    method UpdateWindowSize(h: Header)
      modifies this
      ensures View() == Sender.UpdateWindowSize(old(View()), h)
    {
      var update := false;
      if h.ack == highRxAckMark && h.window > rWnd {
        update := true;
      }
      if h.ack > highRxAckMark {
        highRxAckMark := h.ack;
        update := true;
      }
      if h.seqNo > highRxMark {
        highRxMark := h.seqNo;
        update := true;
      }
      if update {
        rWnd := h.window;
      }
    }

    /** DoForwardUp up to the state dispatch. */
    method ReadHeader(time: nat, h: Header, a: AckAnswers)
      modifies this, tcb, rtt
      ensures View() == Arrive(old(View()), time, h, a)
    {
      hide Sender.EstimateRtt, Sender.UpdateWindowSize;
      Tag(time, h.ttl);
      EstimateRtt(h, a);
      UpdateWindowSize(h);
    }

    method Tag(time: nat, ttl: nat)
      modifies this, tcb
      ensures View() == old(View()).(now := time, tcb := old(tcb.View()).(rcvTtl := ttl))
    {
      now := time;
      tcb.rcvTtl := ttl;
    }

    method ProcessEstablished(h: Header, a: AckAnswers)
      requires Valid() && FrontPast(rtt.history, h.ack)
      modifies this, tcb, txBuffer, congestionControl, rtt
      ensures View() == Sender.ProcessEstablished(config, old(View()), h, a)
    {
      if h.ack < txBuffer.head {
        return;
      } else if h.ack > tcb.highTxMark {
        SendAck(a.rangeRto);
      } else {
        ReceivedAck(h, a);
      }
    }

    method ForwardUp(time: nat, h: Header, a: AckAnswers)
      requires Valid() && connected
      modifies this, tcb, txBuffer, congestionControl, rtt
      ensures Valid()
      ensures View() == Step(config, old(View()), Segment(time, h, a))
    {
      hide Inv, Sender.ProcessEstablished, Swift.SwiftInv;
      StepKeeps(config, View(), first, Segment(time, h, a));
      ArriveKeeps(config, View(), first, time, h, a);
      InvReady(config, Arrive(View(), time, h, a), first);
      ReadHeader(time, h, a);
      ProcessEstablished(h, a);
    }

    /** What a timeout takes back: the bytes in flight, the duplicates, the RTT history, half of the rate. */
    method ForgetFlight(t: TimeoutAnswers)
      requires 0 < dataRetrCount
      modifies this, txBuffer, rtt
      ensures View() == Forgotten(config, old(View()), t)
    {
      ForgetSegments(t);
      DoubleTimer();
      MoveRecoveryPoint();
    }

    method DoubleTimer()
      requires 0 < dataRetrCount
      modifies this
      ensures View() == old(View()).(dataRetrCount := old(dataRetrCount) - 1, dupAckCount := 0,
                                     rto := Min(old(rto) + old(rto), MAX_RTO))
    {
      dataRetrCount := dataRetrCount - 1;
      dupAckCount := 0;
      rto := Min(rto + rto, MAX_RTO);
    }

    method ForgetSegments(t: TimeoutAnswers)
      modifies this, txBuffer, rtt
      ensures
        var tx := old(txBuffer.View()).(inFlight := 0, sacked := if config.sack then t.sacked else 0, retryHead := true);
        View() == old(View()).(tx := tx, history := [], straddled := false)
    {
      txBuffer.sacked := if config.sack then t.sacked else 0;
      txBuffer.inFlight, txBuffer.retryHead := 0, true;
      rtt.Clear();
      straddled := false;
    }

    /** Everything ReTxTimeout does between the retry check and SendPendingData. */
    method Restart(t: TimeoutAnswers)
      requires congestionControl.Valid() && 0 < dataRetrCount
      modifies this, tcb, txBuffer, congestionControl, rtt
      ensures congestionControl.Valid()
      ensures View() == Backoff(config, old(View()), t)
    {
      hide Swift.SwiftInv, Swift.GetSsThresh, Swift.CongestionStateSet;
      ForgetFlight(t);
      if tcb.congState != Loss || !t.headRetransmitted {
        var threshold := congestionControl.GetSsThresh(tcb);
        tcb.ssThresh := threshold;
      }
      SetCongState(Loss);
      tcb.cWnd := tcb.segmentSize;
    }

    method Retransmit(t: TimeoutAnswers)
      requires congestionControl.Valid() && txBuffer.head < txBuffer.tail && 0 < dataRetrCount
      modifies this, tcb, txBuffer, congestionControl, rtt
      ensures View() == Sender.ReTxTimeout(config, old(View()), t)
    {
      hide Swift.SwiftInv;
      ghost var before := View();
      Restart(t);
      assert txBuffer.inFlight == 0;
      var packets := SendPendingData(Unpaced(t.offers));
      T.TimeoutLeavesOneSegment(config, before, t);
      T.SendLoopSegmentSize(config, Backoff(config, before, t), Unpaced(t.offers), 0);
      assert txBuffer.inFlight <= tcb.segmentSize;
    }

    method ReTxTimeout(time: nat, t: TimeoutAnswers)
      requires Valid() && connected
      modifies this, tcb, txBuffer, congestionControl, rtt
      ensures Valid()
      ensures View() == Step(config, old(View()), Timeout(time, t))
    {
      hide Inv, Sender.SendPendingData, Backoff, Swift.SwiftInv;
      InvReady(config, View(), first);
      StepKeeps(config, View(), first, Timeout(time, t));
      now := time;
      if txBuffer.tail <= txBuffer.head {
        return;
      }
      if dataRetrCount == 0 {
        connected := false;
        return;
      }
      Retransmit(t);
    }

    /** The application writes; sending follows as an event of its own. */
    method Send(size: nat)
      requires Valid()
      modifies txBuffer
      ensures Valid()
      ensures View() == Step(config, old(View()), Write(size))
    {
      hide Inv;
      InvReady(config, View(), first);
      StepKeeps(config, View(), first, Write(size));
      txBuffer.tail := txBuffer.tail + size;
    }

    /** SendEmptyPacket from the delayed-ACK timer. */
    method DelAckTimeout(newRto: nat)
      requires Valid() && connected
      modifies this, tcb
      ensures Valid()
      ensures View() == Step(config, old(View()), EmptyAck(newRto))
    {
      hide Inv, Sender.SendAck;
      InvReady(config, View(), first);
      StepKeeps(config, View(), first, EmptyAck(newRto));
      SendAck(newRto);
    }

    /** The ECN marks of an arriving segment: congestion experienced on the way, or CWR from the peer. */
    method ReceivedEcnMark(cwr: bool)
      requires Valid()
      modifies tcb
      ensures Valid()
      ensures View() == Step(config, old(View()), if cwr then CwrFlag else CeMark)
    {
      hide Inv;
      InvReady(config, View(), first);
      StepKeeps(config, View(), first, if cwr then CwrFlag else CeMark);
      if !cwr {
        tcb.ecnState := CeReceived;
      } else if tcb.ecnState != CeReceived {
        tcb.ecnState := EcnIdle;
      }
    }

    method SendPendingDataEvent(time: nat, offers: nat -> Offer)
      requires Valid()
      modifies this, tcb, txBuffer, rtt
      ensures Valid()
      ensures View() == Step(config, old(View()), Flush(time, offers))
    {
      hide Inv, Sender.SendPendingData;
      InvReady(config, View(), first);
      StepKeeps(config, View(), first, Flush(time, offers));
      now := time;
      var packets := SendPendingData(offers);
    }
  }

  /** The control block before SND.NXT passes the SYN. */
  method ControlBlock(b: Start) returns (tcb: TcpSocketState)
    ensures fresh(tcb)
    ensures tcb.View() == Tcb(b.cWnd, b.ssThresh, b.segmentSize, 0, Open, b.ecn, b.first, b.first - 1, b.lastRtt, b.rcvTtl)
  {
    tcb := new TcpSocketState(b.cWnd, b.ssThresh, b.segmentSize, b.first);
    tcb.ecnState, tcb.lastAckedSeq, tcb.nextTxSequence := b.ecn, 0, b.first - 1;
    tcb.lastRtt, tcb.rcvTtl := b.lastRtt, b.rcvTtl;
  }

  /** The last steps of the handshake: Swift is told the state is Open before SND.NXT passes the SYN. */
  method Establish(config: Config, b: Start) returns (socket: TcpSocketBase)
    ensures fresh(socket) && socket.Valid() && socket.config == config && socket.View() == T.Fresh(config, b)
  {
    hide Swift.SwiftInv, Inv, Swift.Enable;
    var tcb := ControlBlock(b);
    var cc := new TcpSwift(config.swift.alpha, config.swift.beta);
    cc.CongestionStateSet(tcb, Open);
    tcb.nextTxSequence := b.first;
    socket := new TcpSocketBase(config, b, tcb, cc);
  }
}
