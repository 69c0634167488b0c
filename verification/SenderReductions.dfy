/** The congestion window and the threshold in an episode, event by event. */
module SenderReductions {
  import opened TcpTypes
  import opened Sender
  import opened SenderInvariants
  import opened SenderTheorems
  import opened SenderMachine
  import opened SenderEffects
  import Swift
  import H = RttHistory

  /** Window and threshold. */
  function Sizes(t: Tcb): (nat, nat) {
    (t.cWnd, t.ssThresh)
  }

  /** No reduction for ECN came on top. */
  predicate Uncut(s: Socket, r: Socket) {
    r.cuts == s.cuts
  }

  /** The threshold RFC 5681 asks for as Swift gives it: the window less a segment, no more than before and no less than
      two segments. */
  predicate Reduced(t: Tcb, ssThresh: nat) {
    t.segmentSize <= t.cWnd ==> ssThresh == Max(Min(t.ssThresh, t.cWnd - t.segmentSize), 2 * t.segmentSize)
  }

  lemma ThresholdReduced(t: Tcb)
    ensures Reduced(t, Swift.GetSsThresh(t))
  {
  }

  lemma SendingSizes(c: Config, s: Socket, first: nat, offers: nat -> Offer)
    requires Inv(c, s, first)
    ensures
      var r := SendPendingData(c, s, offers);
      s.cuts <= r.cuts && (Uncut(s, r) ==> Sizes(r.tcb) == Sizes(s.tcb))
  {
    hide SendPendingData;
    SendPendingDataKeeps(c, s, offers);
  }

  /** A timeout that takes a retry: the threshold is reduced, unless the sender was in LOSS already and had sent the head
      again, and the window is one segment. */
  lemma TimeoutSizes(c: Config, s: Socket, first: nat, now: nat, t: TimeoutAnswers)
    requires Inv(c, s, first) && s.connected && s.tx.head < s.tx.tail && 0 < s.dataRetrCount
    ensures
      var r := Step(c, s, Timeout(now, t));
      Uncut(s, r) ==> r.tcb.cWnd == s.tcb.segmentSize
                      && if s.tcb.cong == Loss && t.headRetransmitted then r.tcb.ssThresh == s.tcb.ssThresh
                         else Reduced(s.tcb, r.tcb.ssThresh)
  {
    hide Inv, SendPendingData, Backoff;
    var s1 := s.(now := now);
    ClockKeeps(c, s, first, now);
    BackoffKeeps(c, s1, first, t);
    BackoffSizes(c, s1, t);
    SendingSizes(c, Backoff(c, s1, t), first, Unpaced(t.offers));
  }

  lemma BackoffSizes(c: Config, s: Socket, t: TimeoutAnswers)
    requires 0 < s.dataRetrCount
    ensures
      var r := Backoff(c, s, t);
      && r.cuts == s.cuts && r.tcb.cWnd == s.tcb.segmentSize
      && if s.tcb.cong == Loss && t.headRetransmitted then r.tcb.ssThresh == s.tcb.ssThresh
         else Reduced(s.tcb, r.tcb.ssThresh)
  {
    ThresholdReduced(s.tcb);
  }

  // ACKs

  lemma RetransmitSizes(s: Socket, r: Retry)
    ensures
      var t := DoRetransmit(s, r);
      s.cuts <= t.cuts && (Uncut(s, t) ==> Sizes(t.tcb) == Sizes(s.tcb)) && t.tcb.segmentSize == s.tcb.segmentSize
  {
  }

  lemma EnterSizes(c: Config, s: Socket, a: AckAnswers)
    ensures
      var r := EnterRecovery(c, s, a);
      && s.cuts <= r.cuts && r.tcb.segmentSize == s.tcb.segmentSize
      && (Uncut(s, r) ==> r.tcb.cWnd == Max(s.tcb.segmentSize, a.entryCwnd) && Reduced(s.tcb, r.tcb.ssThresh))
  {
    hide DoRetransmit;
    EnteringSizes(c, s, a);
    RetransmitSizes(Entering(c, s, a), a.entryRetry);
  }

  lemma EnteringSizes(c: Config, s: Socket, a: AckAnswers)
    ensures
      var r := Entering(c, s, a);
      r.cuts == s.cuts && r.tcb.segmentSize == s.tcb.segmentSize
      && r.tcb.cWnd == Max(s.tcb.segmentSize, a.entryCwnd) && Reduced(s.tcb, r.tcb.ssThresh)
  {
    ThresholdReduced(s.tcb);
  }

  /** What the duplicate half of an ACK does to the sizes. */
  ghost predicate NotedSizes(c: Config, s: Socket, r: Socket, isDupack: bool, a: AckAnswers) {
    && s.cuts <= r.cuts && r.tcb.segmentSize == s.tcb.segmentSize
    && (Uncut(s, r) ==>
          if isDupack && s.tcb.cong == Recovery then
            r.tcb.cWnd == Max(s.tcb.segmentSize, a.dupCwnd) && r.tcb.ssThresh == s.tcb.ssThresh
          else if s.tcb.cong != Recovery && r.tcb.cong == Recovery then
            r.tcb.cWnd == Max(s.tcb.segmentSize, a.entryCwnd) && Reduced(s.tcb, r.tcb.ssThresh)
          else Sizes(r.tcb) == Sizes(s.tcb))
  }

  lemma DisorderSizes(c: Config, s: Socket, a: AckAnswers)
    requires s.tcb.cong == Disorder
    ensures NotedSizes(c, s, DisorderAck(c, s, a), true, a)
  {
    hide EnterRecovery, Reduced;
    EnterSizes(c, s, a);
    EnterMachine(c, s, a);
  }

  lemma CountSizes(s: Socket)
    ensures
      var r := CountDuplicate(s);
      && r.cuts == s.cuts && r.tcb == s.tcb.(cong := r.tcb.cong) && (!InEpisode(s) ==> r.tcb.cong == Disorder)
  {
  }

  lemma NoteSizes(c: Config, s: Socket, ack: nat, isDupack: bool, a: AckAnswers)
    ensures NotedSizes(c, s, NoteAck(c, s, ack, isDupack, a), isDupack, a)
  {
    hide DisorderAck, CountDuplicate;
    var s1 := s.(tcb := s.tcb.(lastAcked := ack));
    if isDupack && !InEpisode(s) {
      CountSizes(s1);
      DisorderSizes(c, CountDuplicate(s1), a);
    }
  }

  lemma BetweenSame(a: seq<Cut>, b: seq<Cut>, c: seq<Cut>)
    requires a <= b <= c && a == c
    ensures b == a
  {
  }

  /** What the rest of an ACK that moves SND.UNA does in an episode. */
  lemma AdvanceSizes(c: Config, s: Socket, ack: nat, bytes: nat, isDupack: bool, oldDupAcks: nat, a: AckAnswers)
    requires InEpisode(s) && !s.swift.doingSwift
    ensures
      var r, segment := AdvanceUna(c, s, ack, bytes, isDupack, oldDupAcks, a), s.tcb.segmentSize;
      && s.cuts <= r.cuts
      && (Uncut(s, r) && ack < s.recover && s.tcb.cong == Loss ==> Sizes(r.tcb) == (s.tcb.cWnd + a.growth, s.tcb.ssThresh))
      && (Uncut(s, r) && ack < s.recover && s.tcb.cong == Recovery ==>
            Sizes(r.tcb) ==
              (if 1 <= SegmentsAcked(s, bytes) then Max(segment, a.partialCwnd) else s.tcb.cWnd, s.tcb.ssThresh))
      && (s.recover <= ack && s.tcb.cong == Recovery ==> Sizes(r.tcb) == (Max(segment, a.exitCwnd), s.tcb.ssThresh))
  {
    hide PartialAck, LossAck, FullAck;
    var segments, s1 := SegmentsAcked(s, bytes), Credited(s, bytes, isDupack);
    if ack < s.recover && s.tcb.cong == Recovery {
      PartialSizes(c, s1, ack, segments, a);
    } else if ack < s.recover {
      LossSizes(c, s1, ack, a);
    } else {
      FullSizes(c, s1, ack, segments, isDupack, oldDupAcks, a);
    }
  }

  lemma PartialSizes(c: Config, s: Socket, ack: nat, segments: nat, a: AckAnswers)
    ensures
      var r := PartialAck(c, s, ack, segments, a);
      && s.cuts <= r.cuts
      && (Uncut(s, r) ==>
            Sizes(r.tcb) == (if 1 <= segments then Max(s.tcb.segmentSize, a.partialCwnd) else s.tcb.cWnd, s.tcb.ssThresh))
  {
    hide DoRetransmit;
    RetransmitSizes(s.(tx := PartialHead(c, s.tx, a)), a.partialRetry);
  }

  lemma LossSizes(c: Config, s: Socket, ack: nat, a: AckAnswers)
    requires !s.swift.doingSwift
    ensures
      var r := LossAck(c, s, ack, a);
      Sizes(r.tcb) == (s.tcb.cWnd + a.growth, s.tcb.ssThresh) && r.cuts == s.cuts
  {
  }

  lemma LeaveSizes(s: Socket, segments: nat, isDupack: bool, oldDupAcks: nat)
    ensures
      var r := LeaveCongestion(s, segments, isDupack, oldDupAcks);
      r.cuts == s.cuts && r.tcb == s.tcb.(cong := r.tcb.cong)
  {
    hide Swift.PktsAcked, Swift.CongestionStateSet;
  }

  lemma FullSizes(c: Config, s: Socket, ack: nat, segments: nat, isDupack: bool, oldDupAcks: nat, a: AckAnswers)
    ensures
      var r := FullAck(c, s, ack, segments, isDupack, oldDupAcks, a);
      r.cuts == s.cuts && (s.tcb.cong == Recovery ==> Sizes(r.tcb) == (Max(s.tcb.segmentSize, a.exitCwnd), s.tcb.ssThresh))
  {
    hide LeaveCongestion, Swift.IncreaseWindow;
    LeaveSizes(s, segments, isDupack, oldDupAcks);
  }

  // Whole ACKs

  /** What an ACK that repeats SND.UNA does to window and threshold: in RECOVERY the recovery ops set the window, into
      RECOVERY they set it with the threshold reduced, and otherwise nothing moves. */
  lemma RepeatedAckSizes(c: Config, s: Socket, first: nat, now: nat, h: Header, a: AckAnswers)
    requires Inv(c, s, first) && InRange(s, h) && h.ack == s.tx.head
    ensures
      var r, segment := Step(c, s, Segment(now, h, a)), s.tcb.segmentSize;
      Uncut(s, r) ==>
        if s.tcb.cong == Recovery && Duplicates(c, s, h, a) then Sizes(r.tcb) == (Max(segment, a.dupCwnd), s.tcb.ssThresh)
        else if s.tcb.cong != Recovery && r.tcb.cong == Recovery then
          r.tcb.cWnd == Max(segment, a.entryCwnd) && Reduced(s.tcb, r.tcb.ssThresh)
        else Sizes(r.tcb) == Sizes(s.tcb)
  {
    hide Inv, TakeAck, SendPendingData, Arrive, Reduced;
    var s1 := Arrive(s, now, h, a);
    ArriveFrame(s, now, h, a);
    ArriveKeeps(c, s, first, now, h, a);
    TakeAckKeeps(c, s1, first, h, a);
    var s2 := TakeAck(c, s1, h, a);
    RepeatSizes(c, s1, h, a);
    SendingSizes(c, s2, first, a.offers);
    SendPendingMachine(c, s2, a.offers);
    var r := Step(c, s, Segment(now, h, a));
    if Uncut(s, r) {
      BetweenSame(s.cuts, s2.cuts, r.cuts);
    }
    SameReduced(s.tcb, s1.tcb);
  }

  lemma SameReduced(t: Tcb, u: Tcb)
    requires u.cWnd == t.cWnd && u.ssThresh == t.ssThresh && u.segmentSize == t.segmentSize
    ensures forall n :: Reduced(t, n) <==> Reduced(u, n)
  {
  }

  /** Taking up the number and the ECN flag leaves all that matters here. */
  ghost predicate SameEpisode(s: Socket, t: Socket) {
    && t.tcb == s.tcb.(ecn := t.tcb.ecn) && t.cuts == s.cuts && t.recover == s.recover && t.swift == s.swift
    && t.unprocessed == s.unprocessed && t.dupAckCount == s.dupAckCount
  }

  lemma TrimmedSizes(c: Config, s: Socket, h: Header, a: AckAnswers)
    ensures
      var r := EcnEcho(Trimmed(c, s, h.ack, a), h.ack, s.tx.head, h.ece);
      SameEpisode(s, r) && r.tx.head == h.ack
  {
  }

  lemma RepeatSizes(c: Config, s: Socket, h: Header, a: AckAnswers)
    requires h.ack == s.tx.head <= s.tcb.highTx
    ensures NotedSizes(c, s, TakeAck(c, s, h, a), Duplicates(c, s, h, a), a)
  {
    hide ProcessAck, EcnEcho, Trimmed, Reduced;
    var s1 := EcnEcho(Trimmed(c, s, h.ack, a), h.ack, s.tx.head, h.ece);
    TrimmedSizes(c, s, h, a);
    ProcessRepeat(c, s1, h.ack, a);
    SameReduced(s.tcb, s1.tcb);
  }

  lemma ProcessRepeat(c: Config, s: Socket, ack: nat, a: AckAnswers)
    requires ack <= s.tcb.highTx
    ensures NotedSizes(c, s, ProcessAck(c, s, ack, ack, a), IsDupack(c, s, ack, ack, a.sackUpdated), a)
  {
    hide NoteAck, Reduced, PktsAcked;
    var isDupack := IsDupack(c, s, ack, ack, a.sackUpdated);
    NoteSizes(c, s, ack, isDupack, a);
    NoteCount(c, s, ack, isDupack, a);
    PktsAckedSizes(NoteAck(c, s, ack, isDupack, a));
  }

  lemma PktsAckedSizes(s: Socket)
    ensures PktsAcked(s).tcb == s.tcb && PktsAcked(s).cuts == s.cuts
  {
  }

  /** What an ACK that moves SND.UNA does in an episode: in LOSS NewReno's growth is added, in RECOVERY the recovery ops set
      the window, when a whole segment was acknowledged or at the end; the threshold stays. */
  lemma EpisodeAckSizes(c: Config, s: Socket, first: nat, now: nat, h: Header, a: AckAnswers)
    requires Inv(c, s, first) && InRange(s, h) && s.tx.head < h.ack && InEpisode(s) && OnInOpen(MachineOf(s))
    ensures
      var r, segment := Step(c, s, Segment(now, h, a)), s.tcb.segmentSize;
      && (Uncut(s, r) && r.tcb.cong == Loss ==> Sizes(r.tcb) == (s.tcb.cWnd + a.growth, s.tcb.ssThresh))
      && (Uncut(s, r) && s.tcb.cong == Recovery && r.tcb.cong == Open ==>
            Sizes(r.tcb) == (Max(segment, a.exitCwnd), s.tcb.ssThresh))
      && (Uncut(s, r) && r.tcb.cong == Recovery && 1 <= SegmentsAcked(s, h.ack - s.tx.head) ==>
            Sizes(r.tcb) == (Max(segment, a.partialCwnd), s.tcb.ssThresh))
  {
    hide Inv, TakeAck, SendPendingData, Arrive, SegmentsAcked;
    InvMachine(c, s, first);
    EpisodeEndsIff(c, s, first, now, h, a);
    var s1 := Arrive(s, now, h, a);
    ArriveFrame(s, now, h, a);
    ArriveKeeps(c, s, first, now, h, a);
    TakeAckKeeps(c, s1, first, h, a);
    var s2 := TakeAck(c, s1, h, a);
    EpisodeSizes(c, s1, h, a);
    SendingSizes(c, s2, first, a.offers);
    SameSegments(s, s1, h.ack - s.tx.head);
    var r := Step(c, s, Segment(now, h, a));
    if Uncut(s, r) {
      BetweenSame(s.cuts, s2.cuts, r.cuts);
    }
  }

  lemma SameSegments(s: Socket, t: Socket, bytes: nat)
    requires t.unprocessed == s.unprocessed && t.tcb.segmentSize == s.tcb.segmentSize
    ensures SegmentsAcked(t, bytes) == SegmentsAcked(s, bytes)
  {
  }

  /** The sizes an ACK of `bytes` new bytes leaves in an episode. */
  ghost predicate EpisodeMoved(s: Socket, r: Socket, ack: nat, bytes: nat, a: AckAnswers) {
    var segment := s.tcb.segmentSize;
    && s.cuts <= r.cuts
    && (Uncut(s, r) && ack < s.recover && s.tcb.cong == Loss ==> Sizes(r.tcb) == (s.tcb.cWnd + a.growth, s.tcb.ssThresh))
    && (Uncut(s, r) && ack < s.recover && s.tcb.cong == Recovery && 1 <= SegmentsAcked(s, bytes) ==>
          Sizes(r.tcb) == (Max(segment, a.partialCwnd), s.tcb.ssThresh))
    && (Uncut(s, r) && s.recover <= ack && s.tcb.cong == Recovery ==>
          Sizes(r.tcb) == (Max(segment, a.exitCwnd), s.tcb.ssThresh))
  }

  lemma EpisodeSizes(c: Config, s: Socket, h: Header, a: AckAnswers)
    requires s.tx.head < h.ack && InEpisode(s) && !s.swift.doingSwift
    ensures EpisodeMoved(s, TakeAck(c, s, h, a), h.ack, h.ack - s.tx.head, a)
  {
    hide ProcessAck, EcnEcho, Trimmed, SegmentsAcked;
    var s1 := EcnEcho(Trimmed(c, s, h.ack, a), h.ack, s.tx.head, h.ece);
    TrimmedSizes(c, s, h, a);
    ProcessEpisode(c, s1, h.ack, s.tx.head, a);
    SameSegments(s, s1, h.ack - s.tx.head);
  }

  /** In an episode the duplicate half at most sets the window. */
  lemma NoteEpisode(c: Config, s: Socket, ack: nat, isDupack: bool, a: AckAnswers)
    requires InEpisode(s)
    ensures
      var r := NoteAck(c, s, ack, isDupack, a);
      && r.tcb == s.tcb.(lastAcked := ack, cWnd := r.tcb.cWnd) && r.cuts == s.cuts && r.recover == s.recover
      && r.swift == s.swift && r.unprocessed == s.unprocessed && (s.tcb.cong == Loss ==> r.tcb.cWnd == s.tcb.cWnd)
  {
    hide DisorderAck, CountDuplicate;
  }

  lemma ProcessEpisode(c: Config, s: Socket, ack: nat, oldHead: nat, a: AckAnswers)
    requires oldHead < ack && InEpisode(s) && !s.swift.doingSwift
    ensures EpisodeMoved(s, ProcessAck(c, s, ack, oldHead, a), ack, ack - oldHead, a)
  {
    hide NoteAck, AdvanceUna, SegmentsAcked;
    var isDupack := IsDupack(c, s, ack, oldHead, a.sackUpdated);
    NoteEpisode(c, s, ack, isDupack, a);
    var s1 := NoteAck(c, s, ack, isDupack, a);
    SameSegments(s, s1, ack - oldHead);
    AdvanceSizes(c, s1, ack, ack - oldHead, isDupack, s.dupAckCount, a);
  }
}
