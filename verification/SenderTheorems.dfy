/** The sender's guarantees over whole runs, from the state the handshake leaves. */
module SenderTheorems {
  import opened TcpTypes
  import opened Sender
  import opened SenderInvariants
  import Swift
  import opened Arithmetic
  import H = RttHistory

  function Fresh(c: Config, b: Start): Socket {
    Initial(c.dataRetries, b)
  }

  function After(c: Config, b: Start, es: seq<Event>): Socket {
    Run(c, Fresh(c, b), es)
  }

  function NoSegment(turn: nat): Offer {
    Offer(true, false, 0, 1, 1, 0)
  }

  lemma RunAppend(c: Config, s: Socket, es: seq<Event>, e: Event)
    ensures Run(c, s, es + [e]) == Step(c, Run(c, s, es), e)
  {
    assert (es + [e])[..|es + [e]| - 1] == es;
  }

  lemma AfterInv(c: Config, b: Start, es: seq<Event>)
    ensures Inv(c, After(c, b, es), b.first)
  {
    InitialInv(c, b);
    RunKeeps(c, Fresh(c, b), b.first, es);
  }

  /** SND.UNA <= SND.NXT <= the high mark <= the end of the data, after every run. */
  lemma SequenceNumbersOrdered(c: Config, b: Start, es: seq<Event>)
    ensures
      var s := After(c, b, es);
      b.first <= s.tx.head <= s.tcb.nextTx <= s.tcb.highTx <= s.tx.tail
  {
    AfterInv(c, b, es);
  }

  /** The congestion machine after every run: the recovery point is active, and lies in the outstanding data, exactly
      during Recovery and Loss; the duplicate counter and the guessed SACK bytes agree with the state. */
  lemma CongestionMachineConsistent(c: Config, b: Start, es: seq<Event>)
    ensures
      var s := After(c, b, es);
      && (s.recoverActive <==> s.tcb.cong == Recovery || s.tcb.cong == Loss)
      && (s.recoverActive ==> s.tx.head <= s.recover <= s.tcb.highTx)
      && (s.tcb.cong == Recovery ==> s.tx.head < s.recover)
      && (s.tcb.cong == Open || s.tcb.cong == Loss ==> s.dupAckCount == 0)
      && (s.tcb.cong == Disorder ==> 1 <= s.dupAckCount < c.threshold)
      && (s.tcb.cong == Loss && !c.sack ==> s.tx.sacked == 0)
  {
    AfterInv(c, b, es);
  }

  /** Between two fast-recovery entries, whichever route they took and whatever timeouts came between, SND.UNA reached
      the first one's recovery point. */
  lemma RecoveriesSeparated(c: Config, b: Start, es: seq<Event>)
    ensures
      var s := After(c, b, es);
      && (forall i, j :: 0 <= i < j < |s.entries| ==> s.entries[i].point <= s.entries[j].una)
      && (s.tcb.cong == Recovery ==> s.entries != [] && s.entries[|s.entries| - 1].point == s.recover)
  {
    AfterInv(c, b, es);
  }

  /** Between two window reductions for ECN, everything outstanding at the first was acknowledged. */
  lemma EcnCutsOncePerWindow(c: Config, b: Start, es: seq<Event>)
    ensures
      var s := After(c, b, es);
      && (forall i, j :: 0 <= i < j < |s.cuts| ==> s.cuts[i].point < s.cuts[j].una)
      && s.ecnCwrSeq == if s.cuts == [] then 0 else s.cuts[|s.cuts| - 1].point
  {
    AfterInv(c, b, es);
  }

  /** A reduction is recorded at the high mark of that moment, so `point` above bounds all that was outstanding. */
  lemma CutRecordedAtHighMark(s: Socket, lo: nat, size: nat, raised: nat, reduced: nat)
    requires SeqInv(s) && 0 < size && Sendable(s, lo, lo + size)
    ensures
      var r := SendData(s, lo, size, raised, reduced);
      r.cuts != s.cuts ==> r.cuts == s.cuts + [Cut(s.tx.head, s.tcb.highTx)] && r.tcb.ecn == CwrSent
                           && r.tcb.ssThresh == r.tcb.cWnd <= s.tcb.cWnd
  {
  }

  /** Counting whole segments ACK by ACK gives plain division of all bytes acknowledged. */
  lemma SegmentsAreDivision(c: Config, b: Start, es: seq<Event>)
    ensures
      var s := After(c, b, es);
      && s.totalSegments == (s.tx.head - b.first) / s.tcb.segmentSize
      && s.unprocessed == (s.tx.head - b.first) % s.tcb.segmentSize
  {
    AfterInv(c, b, es);
    var s := After(c, b, es);
    DivModUnique(s.tx.head - b.first, s.tcb.segmentSize, s.totalSegments, s.unprocessed);
  }

  /** Karn's rule inside the running sender: unless a retransmission since the last timeout touched an entry that could
      still be timed, other than the one it marks, an RTT sample is only ever taken on bytes sent exactly once. */
  lemma SenderObeysKarn(c: Config, b: Start, es: seq<Event>, ack: nat, now: nat, echoed: Option<nat>)
    ensures
      var s := After(c, b, es);
      !s.straddled && H.Measured(s.history, ack, now, echoed).Some? ==>
        s.history[0].End() <= ack && forall byte: nat :: s.history[0].Holds(byte) ==> H.TimesSent(s.sends, byte) == 1
  {
    AfterInv(c, b, es);
  }

  /** Every Swift adjustment made by a running connection used at least three samples since the previous cycle or
      re-enable; the RTT it acted on was really measured, and the base is the least sample of the connection. */
  lemma SwiftActsOnSamples(c: Config, b: Start, es: seq<Event>, i: nat)
    requires i < |After(c, b, es).swift.log| && After(c, b, es).swift.log[i].Adjusted?
    ensures
      var log := After(c, b, es).swift.log;
      && 3 <= Swift.SamplesSince(log[..i])
      && (exists j :: 0 <= j < i && log[j] == Swift.Sample(log[i].rtt) && 0 < log[i].rtt)
      && (forall j :: 0 <= j < i && log[j].Sample? ==> log[i].base <= log[j].rtt)
  {
    AfterInv(c, b, es);
    var log := After(c, b, es).swift.log;
    Swift.WellLoggedAt(log, i);
    WellLoggedPrefix(log, i);
    Swift.LatestSampleIsMeasured(log[..i]);
    Swift.LeastSampleIsMinimum(log[..i]);
    assert forall j :: 0 <= j < i ==> log[..i][j] == log[j];
  }

  /** The base RTT is the least non-zero sample of the connection, and bounds the two other RTTs Swift keeps. */
  lemma BaseRttIsLeastSample(c: Config, b: Start, es: seq<Event>)
    ensures
      var w := After(c, b, es).swift;
      && (forall i :: 0 <= i < |w.log| && w.log[i].Sample? ==> 0 < w.baseRtt <= w.log[i].rtt)
      && (w.baseRtt == TIME_MAX || exists i :: 0 <= i < |w.log| && w.log[i].Sample? && w.log[i].rtt == w.baseRtt)
      && w.baseRtt <= w.minRtt && w.baseRtt <= w.lastRtt
  {
    AfterInv(c, b, es);
    Swift.LeastSampleIsMinimum(After(c, b, es).swift.log);
  }

  /** The window is adjusted at most once a cycle. */
  lemma AdjustmentsOncePerCycle(c: Config, b: Start, es: seq<Event>)
    ensures
      var log := After(c, b, es).swift.log;
      && Swift.Adjustments(log) <= Swift.Cycles(log)
      && forall i :: 0 <= i < |log| && log[i].Adjusted? ==> i + 1 < |log| && log[i + 1].Cycle?
  {
    AfterInv(c, b, es);
    Swift.AdjustmentsAtMostCycles(After(c, b, es).swift.log);
  }

  lemma {:induction false} WellLoggedPrefix(log: seq<Swift.SwiftEvent>, i: nat)
    requires Swift.WellLogged(log) && i <= |log|
    ensures Swift.WellLogged(log[..i])
  {
    if i == |log| {
      assert log[..i] == log;
    } else {
      WellLoggedPrefix(log[..|log| - 1], i);
      assert log[..|log| - 1][..i] == log[..i];
    }
  }

  /** A Swift cycle ends only on an ACK that covers the SND.NXT recorded when the previous one ended, or when Swift was
      last enabled. */
  lemma SwiftCyclesSpanRoundTrips(c: Config, b: Start, es: seq<Event>, i: nat, j: nat)
    requires i < j < |After(c, b, es).swift.log|
    requires After(c, b, es).swift.log[i].Cycle? && After(c, b, es).swift.log[j].Cycle?
    requires forall k :: i < k < j ==> !After(c, b, es).swift.log[k].Enabled? && !After(c, b, es).swift.log[k].Cycle?
    ensures After(c, b, es).swift.log[i].edge <= After(c, b, es).swift.log[j].acked
  {
    AfterInv(c, b, es);
    var log := After(c, b, es).swift.log;
    Swift.WellLoggedAt(log, j);
    EdgeSurvives(log, i, j);
  }

  lemma {:induction false} EdgeSurvives(log: seq<Swift.SwiftEvent>, i: nat, j: nat)
    requires i < j <= |log| && log[i].Cycle?
    requires forall k :: i < k < j ==> !log[k].Enabled? && !log[k].Cycle?
    ensures Swift.LatestEdge(log[..j]) == log[i].edge
  {
    assert log[..j][..j - 1] == log[..j - 1];
    if i < j - 1 {
      EdgeSurvives(log, i, j - 1);
    }
  }

  // Sending adds to the record

  lemma SendChosenAdds(s: Socket, seg: H.Span, reduced: nat)
    requires seg.lo < seg.hi
    ensures SendChosen(s, seg, reduced).sends == s.sends + [seg] && SendChosen(s, seg, reduced).tcb.cong == s.tcb.cong
  {
  }

  lemma {:induction false} SendLoopOnlyAdds(c: Config, s: Socket, offers: nat -> Offer, turn: nat)
    ensures s.sends <= SendLoop(c, s, offers, turn).sends
    ensures SendLoop(c, s, offers, turn).tcb.cong == s.tcb.cong
    decreases AvailableWindow(s)
  {
    hide Choose, SendChosen;
    var chosen := Choose(c, s, offers(turn));
    if chosen.Some? {
      SendChosenInFlight(c, s, offers(turn));
      SendChosenAdds(s, chosen.value, offers(turn).reduced);
      SendLoopOnlyAdds(c, SendChosen(s, chosen.value, offers(turn).reduced), offers, turn + 1);
    }
  }

  // Fast recovery

  /** Entering fast recovery takes bytes out of the network, makes the head the next segment to send again unless the
      scoreboard already held it lost, and leaves at least a segment of window and two of threshold, the threshold at
      least a segment under a window that had one. */
  lemma EntryReduces(c: Config, s: Socket, a: AckAnswers)
    ensures
      var r := Entering(c, s, a);
      && r.tx.inFlight <= s.tx.inFlight && (c.sack ==> r.tx.sacked == s.tx.sacked) && r.tx.head == s.tx.head
      && (!c.sack || !a.headLost ==> r.tx.retryHead)
      && r.tcb.segmentSize <= r.tcb.cWnd && 2 * r.tcb.segmentSize <= r.tcb.ssThresh
      && (s.tcb.segmentSize <= s.tcb.cWnd ==>
            r.tcb.ssThresh <= Max(s.tcb.cWnd - s.tcb.segmentSize, 2 * s.tcb.segmentSize))
  {
  }

  /** What a retransmission of a lost head puts on the wire. */
  lemma RetryHeadResendsHead(s: Socket, r: Retry)
    requires s.tx.retryHead && s.tx.head < s.tcb.highTx
    ensures
      var s' := DoRetransmit(s, r);
      && |s'.sends| == |s.sends| + 1 && s'.sends[|s.sends|].lo == s.tx.head < s'.sends[|s.sends|].hi <= s.tcb.highTx
      && !s'.tx.retryHead
  {
  }

  lemma EntryResends(c: Config, s: Socket, a: AckAnswers)
    requires !c.sack && s.tx.head < s.tcb.highTx
    ensures
      var e := Entering(c, s, a);
      EnterRecovery(c, s, a) == DoRetransmit(e, a.entryRetry) && e.tx.retryHead && e.tx.head == s.tx.head
      && e.tcb.highTx == s.tcb.highTx && e.sends == s.sends
  {
    hide DoRetransmit;
  }

  lemma PartialResends(c: Config, s: Socket, ack: nat, segments: nat, a: AckAnswers)
    requires !c.sack
    ensures
      var tx := PartialHead(c, s.tx, a);
      && PartialAck(c, s, ack, segments, a).sends == DoRetransmit(s.(tx := tx), a.partialRetry).sends
      && tx.retryHead && tx.head == s.tx.head
  {
    hide DoRetransmit;
  }

  /** Without SACK both the entry to fast recovery and every partial ACK send the first unacknowledged byte again. */
  lemma RenoResendsHead(c: Config, s: Socket, ack: nat, segments: nat, a: AckAnswers)
    requires !c.sack && s.tx.head < s.tcb.highTx
    ensures
      var r := EnterRecovery(c, s, a);
      |s.sends| < |r.sends| && r.sends[|s.sends|].lo == s.tx.head
    ensures
      var r := PartialAck(c, s, ack, segments, a);
      |s.sends| < |r.sends| && r.sends[|s.sends|].lo == s.tx.head
  {
    hide DoRetransmit, EnterRecovery, PartialAck, Entering, PartialHead;
    EntryResends(c, s, a);
    RetryHeadResendsHead(Entering(c, s, a), a.entryRetry);
    PartialResends(c, s, ack, segments, a);
    RetryHeadResendsHead(s.(tx := PartialHead(c, s.tx, a)), a.partialRetry);
  }

  // Bytes in flight

  /** The send loop never raises the bytes in flight past the window it started with, even when ECN closes the window
      between two segments. */
  lemma {:induction false} SendLoopInFlight(c: Config, s: Socket, offers: nat -> Offer, turn: nat)
    ensures SendLoop(c, s, offers, turn).tx.inFlight <= Max(s.tx.inFlight, Window(s))
    decreases AvailableWindow(s)
  {
    var chosen := Choose(c, s, offers(turn));
    hide Choose, SendChosen;
    if chosen.Some? {
      SendChosenInFlight(c, s, offers(turn));
      SendLoopInFlight(c, SendChosen(s, chosen.value, offers(turn).reduced), offers, turn + 1);
    }
  }

  lemma SendPendingDataInFlight(c: Config, s: Socket, offers: nat -> Offer)
    ensures SendPendingData(c, s, offers).tx.inFlight <= Max(s.tx.inFlight, Min(s.rWnd, s.tcb.cWnd))
  {
    SendLoopInFlight(c, s, offers, 0);
  }

  lemma {:induction false} SendLoopSegmentSize(c: Config, s: Socket, offers: nat -> Offer, turn: nat)
    ensures SendLoop(c, s, offers, turn).tcb.segmentSize == s.tcb.segmentSize
    decreases AvailableWindow(s)
  {
    var chosen := Choose(c, s, offers(turn));
    if chosen.Some? {
      SendLoopSegmentSize(c, SendChosen(s, chosen.value, offers(turn).reduced), offers, turn + 1);
    }
  }

  /** After a timeout that retransmits, at most one segment is in flight. */
  lemma TimeoutLeavesOneSegment(c: Config, s: Socket, t: TimeoutAnswers)
    requires s.tx.head < s.tx.tail && 0 < s.dataRetrCount
    ensures ReTxTimeout(c, s, t).tx.inFlight <= s.tcb.segmentSize
  {
    SendPendingDataInFlight(c, Backoff(c, s, t), Unpaced(t.offers));
  }
}
