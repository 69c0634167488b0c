/** What every event keeps, and hence what holds in every run of the sender. */
module SenderInvariants {
  import opened TcpTypes
  import opened Sender
  import Swift
  import H = RttHistory

  function WireOf(s: Socket): H.Wire {
    H.Wire(s.history, s.sends, s.tcb.highTx)
  }

  // The invariants

  /** SND.UNA and SND.NXT never pass the high mark, which never passes the data written. */
  ghost predicate SeqInv(s: Socket) {
    s.tx.head <= s.tcb.highTx <= s.tx.tail && s.tcb.nextTx <= s.tcb.highTx
  }

  /** Every reduction for ECN was recorded at or below the last CWR number, and between two of them SND.UNA passed the
      number the first was recorded at. */
  ghost predicate EcnInv(s: Socket) {
    && s.ecnEchoSeq <= s.tx.head
    && s.ecnCwrSeq == (if s.cuts == [] then 0 else s.cuts[|s.cuts| - 1].point)
    && (forall i :: 0 <= i < |s.cuts| ==> s.cuts[i].point <= s.ecnCwrSeq)
    && forall i, j :: 0 <= i < j < |s.cuts| ==> s.cuts[i].point < s.cuts[j].una
  }

  /** The front of the RTT history is not acknowledged yet. */
  ghost predicate FrontPast(h: seq<H.Entry>, una: nat) {
    h != [] ==> una < h[0].End()
  }

  ghost predicate WireInv(s: Socket) {
    && H.NothingAbove(WireOf(s)) && (!s.straddled ==> H.KarnInv(WireOf(s)))
    && FrontPast(s.history, s.tx.head)
  }

  predicate InEpisode(s: Socket) {
    s.tcb.cong == Recovery || s.tcb.cong == Loss
  }

  /** The congestion machine: the recovery point is active exactly during an episode; Open and Loss carry no duplicate
      ACKs, Disorder fewer than the threshold; without SACK nothing is presumed received out of order in Loss. */
  ghost predicate CongInv(c: Config, s: Socket) {
    && (s.recoverActive <==> InEpisode(s))
    && (InEpisode(s) ==> s.recover <= s.tcb.highTx)
    && (s.tcb.cong == Open || s.tcb.cong == Loss ==> s.dupAckCount == 0)
    && (s.tcb.cong == Disorder ==> 1 <= s.dupAckCount < c.threshold)
    && (s.tcb.cong == Loss && !c.sack ==> s.tx.sacked == 0)
  }

  /** An episode lasts only while SND.UNA has not reached its recovery point. */
  ghost predicate EpisodeOpen(s: Socket) {
    && (s.tcb.cong == Loss ==> s.tx.head <= s.recover)
    && (s.tcb.cong == Recovery ==> s.tx.head < s.recover)
  }

  /** How far SND.UNA is certain to be before the next fast recovery can start. */
  function Barrier(s: Socket): nat {
    if InEpisode(s) then s.recover else s.tx.head
  }

  /** The recovery points of all fast recoveries so far are behind the barrier; the one under way is the last. */
  ghost predicate EntryInv(s: Socket) {
    && (s.tcb.cong == Recovery ==> s.entries != [] && s.entries[|s.entries| - 1].point == s.recover)
    && (forall i :: 0 <= i < |s.entries| ==> s.entries[i].point <= Barrier(s))
    && forall i, j :: 0 <= i < j < |s.entries| ==> s.entries[i].point <= s.entries[j].una
  }

  /** Whole segments counted so far and the remainder account for every byte between `first` and `una`. */
  ghost predicate AccountAt(s: Socket, first: nat, una: nat) {
    && first <= una
    && una - first == s.totalSegments * s.tcb.segmentSize + s.unprocessed
    && s.unprocessed < s.tcb.segmentSize
  }

  ghost predicate Inv(c: Config, s: Socket, first: nat) {
    && SeqInv(s) && s.tx.head <= s.tcb.nextTx
    && EcnInv(s) && WireInv(s) && CongInv(c, s) && EpisodeOpen(s) && EntryInv(s) && AccountAt(s, first, s.tx.head)
    && Swift.SwiftInv(s.swift)
  }

  // Sending

  /** An echo newer than the last reduction is pending. */
  predicate CutDue(s: Socket) {
    s.tcb.ecn == EceReceived && s.ecnEchoSeq > s.ecnCwrSeq
  }

  /** The reaction to a pending echo: the first new data sent, and nothing else, records one reduction. */
  ghost predicate EcnReacts(s: Socket, r: Socket) {
    && r.ecnEchoSeq == s.ecnEchoSeq && s.tcb.highTx <= r.tcb.highTx
    && if CutDue(s) && s.tcb.highTx < r.tcb.highTx then
         && r.cuts == s.cuts + [Cut(s.tx.head, s.tcb.highTx)] && r.ecnCwrSeq == s.tcb.highTx && r.tcb.ecn == CwrSent
       else r.cuts == s.cuts && r.ecnCwrSeq == s.ecnCwrSeq && r.tcb.ecn == s.tcb.ecn
  }

  /** Sending touches only the windows, the marks, the history and the bytes in flight; it never opens the window, and
      closes it only for ECN. */
  ghost predicate SendFrame(s: Socket, r: Socket) {
    && r == s.(tcb := s.tcb.(cWnd := r.tcb.cWnd, ssThresh := r.tcb.ssThresh, ecn := r.tcb.ecn,
                             highTx := r.tcb.highTx, nextTx := r.tcb.nextTx),
               tx := s.tx.(inFlight := r.tx.inFlight, retryHead := r.tx.retryHead), history := r.history, sends := r.sends,
               straddled := r.straddled, ecnCwrSeq := r.ecnCwrSeq, cuts := r.cuts)
    && s.tcb.highTx <= r.tcb.highTx
    && r.tcb.cWnd <= s.tcb.cWnd
    && EcnReacts(s, r)
    && (r.cuts == s.cuts ==> r.tcb.cWnd == s.tcb.cWnd && r.tcb.ssThresh == s.tcb.ssThresh)
    && s.sends <= r.sends
    && forall i :: |s.sends| <= i < |r.sends| ==> s.tx.head <= r.sends[i].lo < r.sends[i].hi <= r.tcb.highTx
  }

  lemma SendFrameTransitive(a: Socket, b: Socket, c: Socket)
    requires SendFrame(a, b) && SendFrame(b, c)
    ensures SendFrame(a, c)
  {
    assert forall i :: |a.sends| <= i < |b.sends| ==> c.sends[i] == b.sends[i];
  }

  /** A segment the Tx buffer can supply: inside the bytes already sent, or new data starting at the high mark. */
  ghost predicate Sendable(s: Socket, lo: nat, hi: nat) {
    && s.tx.head <= lo <= s.tcb.highTx && lo < hi
    && hi <= if lo < s.tcb.highTx then s.tcb.highTx else s.tx.tail
  }

  function WireEventOf(s: Socket, lo: nat, size: nat): H.WireEvent {
    if lo < s.tcb.highTx then H.Resend(lo, size) else H.SendNew(size, s.now)
  }

  lemma SendDataWire(s: Socket, lo: nat, size: nat, raised: nat, reduced: nat)
    requires WireInv(s) && SeqInv(s) && 0 < size && Sendable(s, lo, lo + size)
    ensures WireInv(SendData(s, lo, size, raised, reduced))
  {
    var w, e := WireOf(s), WireEventOf(s, lo, size);
    var r := SendData(s, lo, size, raised, reduced);
    assert WireOf(r) == H.Next(w, e);
    H.TimesSentAppend(s.sends, H.Span(lo, lo + size));
    MarkedFront(s.history, lo, size, s.tx.head);
    if !r.straddled {
      H.KarnStepIff(w, e);
    }
  }

  /** Sending at or past SND.UNA leaves the front of the history past it. */
  lemma MarkedFront(h: seq<H.Entry>, lo: nat, size: nat, una: nat)
    requires FrontPast(h, una) && una <= lo && 0 < size
    ensures FrontPast(H.Mark(h, lo, size), una)
  {
  }

  /** Popping acknowledged entries leaves a front past the ACK and past SND.UNA. */
  lemma RemainingFront(h: seq<H.Entry>, ack: nat, una: nat)
    requires FrontPast(h, una)
    ensures FrontPast(H.Remaining(h, ack), ack) && FrontPast(H.Remaining(h, ack), una)
    ensures ack <= una ==> H.Remaining(h, ack) == h
  {
    var k := H.RemainingIsSuffix(h, ack);
  }

  lemma SendDataFrame(s: Socket, lo: nat, size: nat, raised: nat, reduced: nat)
    requires SeqInv(s) && 0 < size && Sendable(s, lo, lo + size)
    ensures
      var r := SendData(s, lo, size, raised, reduced);
      SeqInv(r) && SendFrame(s, r) && lo + size <= r.tcb.highTx && r.tcb.nextTx == s.tcb.nextTx
  {
    hide H.Mark, H.Fits;
  }

  lemma SendDataEcn(s: Socket, lo: nat, size: nat, raised: nat, reduced: nat)
    requires SeqInv(s) && EcnInv(s) && Sendable(s, lo, lo + size)
    ensures EcnInv(SendData(s, lo, size, raised, reduced))
  {
    hide H.Mark, H.Fits;
  }

  lemma SendDataKeeps(s: Socket, lo: nat, size: nat, raised: nat, reduced: nat)
    requires SeqInv(s) && EcnInv(s) && WireInv(s) && 0 < size && Sendable(s, lo, lo + size)
    ensures
      var r := SendData(s, lo, size, raised, reduced);
      SeqInv(r) && EcnInv(r) && WireInv(r) && SendFrame(s, r) && lo + size <= r.tcb.highTx && r.tcb.nextTx == s.tcb.nextTx
  {
    hide EcnInv, WireInv, SendData, SendFrame;
    SendDataFrame(s, lo, size, raised, reduced);
    SendDataEcn(s, lo, size, raised, reduced);
    SendDataWire(s, lo, size, raised, reduced);
  }

  lemma ChooseSendable(c: Config, s: Socket, o: Offer)
    requires SeqInv(s) && Choose(c, s, o).Some?
    ensures
      var seg := Choose(c, s, o).value;
      Sendable(s, seg.lo, seg.hi) && seg.hi - seg.lo <= Min(AvailableWindow(s), s.tcb.segmentSize)
  {
  }

  /** A segment fits the window it was chosen for, and sending it opens no window. */
  lemma SendChosenInFlight(c: Config, s: Socket, o: Offer)
    requires Choose(c, s, o).Some?
    ensures
      var r := SendChosen(s, Choose(c, s, o).value, o.reduced);
      s.tx.inFlight < r.tx.inFlight <= Window(s) && Window(r) <= Window(s) && r.rWnd == s.rWnd && r.tx.head == s.tx.head
  {
  }

  lemma SendChosenKeeps(c: Config, s: Socket, o: Offer)
    requires SeqInv(s) && EcnInv(s) && WireInv(s) && Choose(c, s, o).Some?
    ensures
      var r := SendChosen(s, Choose(c, s, o).value, o.reduced);
      SeqInv(r) && EcnInv(r) && WireInv(r) && SendFrame(s, r) && s.tx.head <= r.tcb.nextTx
  {
    hide SendData, Choose, EcnInv, WireInv, SendFrame;
    var seg := Choose(c, s, o).value;
    ChooseSendable(c, s, o);
    SendDataKeeps(s, seg.lo, seg.hi - seg.lo, seg.hi - seg.lo, o.reduced);
    MovedKeeps(s, SendData(s, seg.lo, seg.hi - seg.lo, seg.hi - seg.lo, o.reduced), seg.hi);
  }

  /** SND.NXT plays no part in the ECN record and the history. */
  lemma MovedKeeps(s: Socket, m: Socket, next: nat)
    requires EcnInv(m) && WireInv(m) && SendFrame(s, m)
    ensures
      var r := m.(tcb := m.tcb.(nextTx := next));
      EcnInv(r) && WireInv(r) && SendFrame(s, r) && r.tx.head == s.tx.head
  {
  }

  lemma {:induction false} SendLoopKeeps(c: Config, s: Socket, offers: nat -> Offer, turn: nat)
    requires SeqInv(s) && EcnInv(s) && WireInv(s)
    ensures
      var r := SendLoop(c, s, offers, turn);
      SeqInv(r) && EcnInv(r) && WireInv(r) && SendFrame(s, r) && (s.tx.head <= s.tcb.nextTx ==> s.tx.head <= r.tcb.nextTx)
    decreases AvailableWindow(s)
  {
    hide EcnInv, WireInv, Choose, SendChosen;
    var chosen := Choose(c, s, offers(turn));
    if chosen.Some? {
      SendChosenInFlight(c, s, offers(turn));
      SendChosenKeeps(c, s, offers(turn));
      var mid := SendChosen(s, chosen.value, offers(turn).reduced);
      SendLoopKeeps(c, mid, offers, turn + 1);
      SendFrameTransitive(s, mid, SendLoop(c, mid, offers, turn + 1));
    }
  }

  lemma SendPendingDataKeeps(c: Config, s: Socket, offers: nat -> Offer)
    requires SeqInv(s) && EcnInv(s) && WireInv(s)
    ensures
      var r := SendPendingData(c, s, offers);
      SeqInv(r) && EcnInv(r) && WireInv(r) && SendFrame(s, r) && (s.tx.head <= s.tcb.nextTx ==> s.tx.head <= r.tcb.nextTx)
  {
    if s.tx.tail > s.tx.head && s.connected {
      SendLoopKeeps(c, s, offers, 0);
    }
  }

  lemma RetrySendable(s: Socket, r: Retry)
    requires SeqInv(s) && s.tx.head < s.tcb.highTx
    ensures
      var from := RetryFrom(s, r);
      Sendable(s, from, from + CopySize(s.tx, s.tcb.highTx, from, s.tcb.segmentSize, r.size))
  {
  }

  lemma MoveNextTxKeeps(s: Socket, from: nat)
    requires SeqInv(s) && EcnInv(s) && WireInv(s) && s.tx.head <= from <= s.tcb.highTx
    ensures
      var r := s.(tcb := s.tcb.(nextTx := from));
      SeqInv(r) && EcnInv(r) && WireInv(r) && SendFrame(s, r)
  {
    assert WireOf(s.(tcb := s.tcb.(nextTx := from))) == WireOf(s);
  }

  lemma DoRetransmitKeeps(s: Socket, r: Retry)
    requires SeqInv(s) && EcnInv(s) && WireInv(s) && s.tx.head < s.tcb.highTx
    ensures
      var s' := DoRetransmit(s, r);
      SeqInv(s') && EcnInv(s') && WireInv(s') && SendFrame(s, s') && s.tx.head <= s'.tcb.nextTx
  {
    hide EcnInv, WireInv, SendFrame, SendData;
    var from := RetryFrom(s, r);
    var size := CopySize(s.tx, s.tcb.highTx, from, s.tcb.segmentSize, r.size);
    var s1 := s.(tcb := s.tcb.(nextTx := from));
    RetrySendable(s, r);
    MoveNextTxKeeps(s, from);
    RetransmitFrom(s, s1, from, size, if r.raises || from >= s.tcb.highTx then size else 0, r.reduced);
  }

  lemma RetransmitFrom(s: Socket, s1: Socket, from: nat, size: nat, raised: nat, reduced: nat)
    requires SendFrame(s, s1) && SeqInv(s1) && EcnInv(s1) && WireInv(s1)
    requires 0 < size && Sendable(s1, from, from + size)
    ensures
      var r := SendData(s1, from, size, raised, reduced);
      SeqInv(r) && EcnInv(r) && WireInv(r) && SendFrame(s, r) && r.tcb.nextTx == s1.tcb.nextTx
  {
    hide EcnInv, WireInv, SendFrame, SendData, Sendable;
    SendDataKeeps(s1, from, size, raised, reduced);
    SendFrameTransitive(s, s1, SendData(s1, from, size, raised, reduced));
  }

  /** The part of the invariant that is about what was sent. */
  ghost predicate TxInv(s: Socket) {
    SeqInv(s) && EcnInv(s) && WireInv(s)
  }

  /** The part that does not look at what was sent. */
  ghost predicate ControlInv(c: Config, s: Socket) {
    CongInv(c, s) && EntryInv(s) && Swift.SwiftInv(s.swift)
  }

  lemma FrameKeepsControl(c: Config, s: Socket, r: Socket)
    requires SendFrame(s, r) && ControlInv(c, s)
    ensures ControlInv(c, r) && (EpisodeOpen(s) ==> EpisodeOpen(r))
  {
  }

  /** States that differ only in fields the sending invariants do not mention. */
  ghost predicate SameTx(s: Socket, r: Socket) {
    && s.tx.head == r.tx.head && s.tx.tail == r.tx.tail && s.tcb.highTx == r.tcb.highTx && s.tcb.nextTx == r.tcb.nextTx
    && s.ecnEchoSeq == r.ecnEchoSeq && s.ecnCwrSeq == r.ecnCwrSeq && s.cuts == r.cuts
    && s.history == r.history && s.sends == r.sends && s.straddled == r.straddled
  }

  lemma SameTxKeeps(s: Socket, r: Socket)
    requires SameTx(s, r) && TxInv(s)
    ensures TxInv(r)
  {
    assert WireOf(r) == WireOf(s);
  }

  // ACK processing

  /** What an ACK of something new leaves untouched: the position of SND.UNA, the totals, the configuration. */
  ghost predicate Accounted(s: Socket, r: Socket) {
    && r.tx.head == s.tx.head && r.tx.tail == s.tx.tail && r.tcb.segmentSize == s.tcb.segmentSize
    && r.totalSegments == s.totalSegments && r.unprocessed == s.unprocessed && r.connected == s.connected
    && r.rWnd == s.rWnd && r.highRxAck == s.highRxAck && r.highRxMark == s.highRxMark && EcnReacts(s, r)
    && r.tcb.lastRtt == s.tcb.lastRtt && r.tcb.rcvTtl == s.tcb.rcvTtl
    && s.sends <= r.sends && s.tcb.highTx <= r.tcb.highTx
    && forall i :: |s.sends| <= i < |r.sends| ==> s.tx.head <= r.sends[i].lo < r.sends[i].hi <= r.tcb.highTx
  }

  /** Between processing steps SND.NXT may still trail SND.UNA; `ready` says it does not. */
  ghost predicate MidInv(c: Config, s: Socket, ready: bool) {
    TxInv(s) && ControlInv(c, s) && (ready ==> s.tx.head <= s.tcb.nextTx)
  }

  lemma SetCongStateSwift(s: Socket, state: CongState)
    requires Swift.SwiftInv(s.swift)
    ensures Swift.SwiftInv(SetCongState(s, state).swift)
  {
    Swift.CongestionStateSetKeeps(s.swift, s.tcb.nextTx, state);
  }

  /** A fast recovery starts outside any episode, with data outstanding. */
  lemma EnterRecoveryKeeps(c: Config, s: Socket, a: AckAnswers)
    requires TxInv(s) && EntryInv(s) && Swift.SwiftInv(s.swift)
    requires !InEpisode(s) && s.tx.head < s.tcb.highTx
    ensures
      var r := EnterRecovery(c, s, a);
      MidInv(c, r, true) && EpisodeOpen(r) && Accounted(s, r) && r.tcb.cong == Recovery && r.dupAckCount == s.dupAckCount
  {
    var s2 := Entering(c, s, a);
    EnteringKeeps(c, s, a);
    DoRetransmitKeeps(s2, a.entryRetry);
    FrameKeepsControl(c, s2, DoRetransmit(s2, a.entryRetry));
  }

  /** Everything of a fast-recovery entry but the retransmission. */
  lemma EnteringKeeps(c: Config, s: Socket, a: AckAnswers)
    requires TxInv(s) && EntryInv(s) && Swift.SwiftInv(s.swift)
    requires !InEpisode(s) && s.tx.head < s.tcb.highTx
    ensures
      var r := Entering(c, s, a);
      TxInv(r) && ControlInv(c, r) && EpisodeOpen(r) && Accounted(s, r) && r.tcb.cong == Recovery
      && r.dupAckCount == s.dupAckCount && r.tx.head == s.tx.head && r.tcb.highTx == s.tcb.highTx && r.sends == s.sends
  {
    hide EcnInv, WireInv;
    SetCongStateSwift(s, Recovery);
    SameTxKeeps(s, Entering(c, s, a));
  }

  lemma CountDuplicateKeeps(c: Config, s: Socket)
    requires TxInv(s) && ControlInv(c, s) && !InEpisode(s)
    ensures
      var r := CountDuplicate(s);
      TxInv(r) && EntryInv(r) && Swift.SwiftInv(r.swift) && Accounted(s, r)
      && r.tcb.cong == Disorder && !r.recoverActive && 1 <= r.dupAckCount <= c.threshold
      && r.tx == s.tx && r.tcb.highTx == s.tcb.highTx && r.tcb.nextTx == s.tcb.nextTx
  {
    hide EcnInv, WireInv;
    SetCongStateSwift(s.(dupAckCount := s.dupAckCount + 1), Disorder);
    SameTxKeeps(s, CountDuplicate(s));
  }

  lemma DisorderAckKeeps(c: Config, s: Socket, a: AckAnswers, ready: bool)
    requires TxInv(s) && EntryInv(s) && Swift.SwiftInv(s.swift) && s.tx.head < s.tcb.highTx
    requires s.tcb.cong == Disorder && !s.recoverActive && 1 <= s.dupAckCount <= c.threshold
    requires ready ==> s.tx.head <= s.tcb.nextTx
    ensures
      var r := DisorderAck(c, s, a);
      MidInv(c, r, ready) && Accounted(s, r) && EpisodeOpen(r) && r.tcb.cong != Open
  {
    hide EcnInv, WireInv, EnterRecovery;
    if s.dupAckCount == c.threshold || a.isLost {
      EnterRecoveryKeeps(c, s, a);
    } else {
      SameTxKeeps(s, DisorderAck(c, s, a));
    }
  }

  /** Every duplicate ACK that finds data outstanding keeps the congestion machine consistent. */
  lemma DupAckKeeps(c: Config, s: Socket, a: AckAnswers, ready: bool)
    requires MidInv(c, s, ready) && s.tx.head < s.tcb.highTx
    ensures
      var r := DupAck(c, s, a);
      MidInv(c, r, ready) && Accounted(s, r) && (EpisodeOpen(s) ==> EpisodeOpen(r)) && r.tcb.cong != Open
  {
    hide EcnInv, WireInv, DisorderAck, CountDuplicate;
    if s.tcb.cong == Recovery {
      InflateKeeps(c, s, a, ready);
    } else if s.tcb.cong != Loss {
      CountDuplicateKeeps(c, s);
      DisorderAckKeeps(c, CountDuplicate(s), a, ready);
    }
  }

  lemma InflateKeeps(c: Config, s: Socket, a: AckAnswers, ready: bool)
    requires MidInv(c, s, ready) && s.tx.head < s.tcb.highTx && s.tcb.cong == Recovery
    ensures
      var r := DupAck(c, s, a);
      MidInv(c, r, ready) && Accounted(s, r) && (EpisodeOpen(s) ==> EpisodeOpen(r)) && r.tcb.cong != Open
  {
    hide EcnInv, WireInv;
    SameTxKeeps(s, DupAck(c, s, a));
  }

  /** What the ACK path relies on between its steps. */
  ghost predicate AckReady(c: Config, s: Socket) {
    MidInv(c, s, false) && s.unprocessed < s.tcb.segmentSize
  }

  lemma InvReady(c: Config, s: Socket, first: nat)
    requires Inv(c, s, first)
    ensures AckReady(c, s) && Swift.SwiftInv(s.swift)
  {
  }

  lemma NoteAckReady(c: Config, s: Socket, ack: nat, isDupack: bool, a: AckAnswers)
    requires AckReady(c, s) && (isDupack ==> s.tx.head < s.tcb.highTx)
    ensures AckReady(c, NoteAck(c, s, ack, isDupack, a)) && NoteAck(c, s, ack, isDupack, a).tx.head == s.tx.head
  {
    hide MidInv, NoteAck;
    NoteAckKeeps(c, s, ack, isDupack, a, false);
  }

  /** Only the windows, Swift's own state and the retransmission timer differ. */
  ghost predicate Quiet(s: Socket, r: Socket) {
    && r == s.(swift := r.swift, rto := r.rto, dataRetrCount := r.dataRetrCount, firstPartialAck := r.firstPartialAck,
               tcb := s.tcb.(cWnd := r.tcb.cWnd, ssThresh := r.tcb.ssThresh))
    && (Swift.SwiftInv(s.swift) ==> Swift.SwiftInv(r.swift))
  }

  lemma QuietKeeps(c: Config, s: Socket, r: Socket, ready: bool)
    requires Quiet(s, r) && MidInv(c, s, ready)
    ensures MidInv(c, r, ready) && Accounted(s, r) && (EpisodeOpen(s) ==> EpisodeOpen(r))
  {
    SameTxKeeps(s, r);
  }

  lemma PktsAckedQuiet(s: Socket)
    ensures Quiet(s, PktsAcked(s))
  {
    if Swift.SwiftInv(s.swift) {
      Swift.PktsAckedKeeps(s.swift, s.tcb.lastRtt);
    }
  }

  lemma IncreaseWindowQuiet(c: Config, s: Socket, growth: nat)
    ensures Quiet(s, IncreaseWindow(c, s, growth))
  {
    if Swift.SwiftInv(s.swift) {
      Swift.IncreaseWindowKeeps(c.swift, s.swift, s.tcb, growth);
    }
  }

  /** NewAck brings SND.NXT up to an ACK that passed it. */
  lemma NewAckKeeps(c: Config, s: Socket, ack: nat, resetRto: bool, rto: nat)
    requires MidInv(c, s, false) && s.tx.head == ack
    ensures MidInv(c, NewAck(c, s, ack, resetRto, rto), true) && Accounted(s, NewAck(c, s, ack, resetRto, rto))
    ensures EpisodeOpen(s) ==> EpisodeOpen(NewAck(c, s, ack, resetRto, rto))
  {
    assert WireOf(NewAck(c, s, ack, resetRto, rto)) == WireOf(s);
  }

  lemma PartialRetransmitKeeps(c: Config, s: Socket, a: AckAnswers)
    requires MidInv(c, s, false) && EpisodeOpen(s) && s.tcb.cong == Recovery
    ensures
      var r := DoRetransmit(s.(tx := PartialHead(c, s.tx, a)), a.partialRetry);
      MidInv(c, r, false) && EpisodeOpen(r) && Accounted(s, r)
  {
    var s0 := s.(tx := PartialHead(c, s.tx, a));
    SameTxKeeps(s, s0);
    DoRetransmitKeeps(s0, a.partialRetry);
    FrameKeepsControl(c, s0, DoRetransmit(s0, a.partialRetry));
  }

  /** Window, sample, timer: the rest of a partial ACK. */
  lemma PartialFinishKeeps(c: Config, s1: Socket, ack: nat, segments: nat, a: AckAnswers)
    requires MidInv(c, s1, false) && EpisodeOpen(s1) && s1.tx.head == ack
    ensures
      var s2 := if segments >= 1 then SetCwnd(s1, a.partialCwnd) else s1;
      var r := NewAck(c, PktsAcked(s2), ack, s2.firstPartialAck, a.ackRto).(firstPartialAck := false);
      MidInv(c, r, true) && EpisodeOpen(r) && Accounted(s1, r)
  {
    var s2 := if segments >= 1 then SetCwnd(s1, a.partialCwnd) else s1;
    QuietKeeps(c, s1, s2, false);
    PktsAckedQuiet(s2);
    QuietKeeps(c, s2, PktsAcked(s2), false);
    NewAckKeeps(c, PktsAcked(s2), ack, s2.firstPartialAck, a.ackRto);
    var s3 := NewAck(c, PktsAcked(s2), ack, s2.firstPartialAck, a.ackRto);
    QuietKeeps(c, s3, s3.(firstPartialAck := false), true);
  }

  lemma AccountedTransitive(s: Socket, m: Socket, r: Socket)
    requires Accounted(s, m) && Accounted(m, r)
    ensures Accounted(s, r)
  {
    assert forall i :: |s.sends| <= i < |m.sends| ==> r.sends[i] == m.sends[i];
  }

  lemma PartialAckKeeps(c: Config, s: Socket, ack: nat, segments: nat, a: AckAnswers)
    requires MidInv(c, s, false) && s.tx.head == ack && ack < s.recover && s.tcb.cong == Recovery
    ensures
      var r := PartialAck(c, s, ack, segments, a);
      MidInv(c, r, true) && EpisodeOpen(r) && Accounted(s, r)
  {
    PartialRetransmitKeeps(c, s, a);
    var s1 := DoRetransmit(s.(tx := PartialHead(c, s.tx, a)), a.partialRetry);
    PartialFinishKeeps(c, s1, ack, segments, a);
    AccountedTransitive(s, s1, PartialAck(c, s, ack, segments, a));
  }

  lemma LossAckKeeps(c: Config, s: Socket, ack: nat, a: AckAnswers)
    requires MidInv(c, s, false) && s.tx.head == ack
    ensures
      var r := LossAck(c, s, ack, a);
      MidInv(c, r, true) && Accounted(s, r) && (EpisodeOpen(s) ==> EpisodeOpen(r))
  {
    PktsAckedQuiet(s);
    QuietKeeps(c, s, PktsAcked(s), false);
    IncreaseWindowQuiet(c, PktsAcked(s), a.growth);
    QuietKeeps(c, PktsAcked(s), IncreaseWindow(c, PktsAcked(s), a.growth), false);
    NewAckKeeps(c, IncreaseWindow(c, PktsAcked(s), a.growth), ack, true, a.ackRto);
  }

  /** Leaving an episode or Disorder touches only the congestion state, its counters and Swift. */
  ghost predicate LeftShape(s: Socket, r: Socket, isDupack: bool) {
    && r == s.(swift := r.swift, firstPartialAck := r.firstPartialAck, dupAckCount := r.dupAckCount,
               tcb := s.tcb.(cong := r.tcb.cong))
    && Swift.SwiftInv(r.swift)
    && r.tcb.cong == (if s.tcb.cong == Disorder && isDupack then Disorder else Open)
    && r.dupAckCount == (if s.tcb.cong == Recovery then 0 else s.dupAckCount)
  }

  lemma LeaveCongestionShape(s: Socket, segments: nat, isDupack: bool, oldDupAcks: nat)
    requires Swift.SwiftInv(s.swift)
    ensures LeftShape(s, LeaveCongestion(s, segments, isDupack, oldDupAcks), isDupack)
  {
    hide Swift.PktsAcked, Swift.CongestionStateSet, Swift.SwiftInv;
    match s.tcb.cong
    case Open =>
      PktsAckedQuiet(s);
    case Disorder =>
      PktsAckedQuiet(s);
      SetCongStateSwift(if segments >= oldDupAcks then PktsAcked(s) else s, Open);
    case _ =>
      var s0 := s.(firstPartialAck := true);
      PktsAckedQuiet(s0);
      SetCongStateSwift(PktsAcked(s0), Open);
  }

  /** What an ACK past any recovery point finds: the counter already reset unless the ACK is also a duplicate. */
  ghost predicate Leaving(c: Config, s: Socket, ack: nat, isDupack: bool) {
    && TxInv(s) && EntryInv(s) && Swift.SwiftInv(s.swift) && s.tx.head == ack
    && (InEpisode(s) ==> s.recover <= ack)
    && (s.recoverActive <==> InEpisode(s))
    && (if isDupack then CongInv(c, s) && s.tcb.cong != Open else s.dupAckCount == 0)
  }

  lemma LeftKeeps(c: Config, s: Socket, s1: Socket, ack: nat, isDupack: bool)
    requires Leaving(c, s, ack, isDupack) && LeftShape(s, s1, isDupack)
    ensures
      var r := s1.(recoverActive := s1.recoverActive && ack < s1.recover);
      MidInv(c, r, false) && EpisodeOpen(r) && Accounted(s, r) && !InEpisode(r)
  {
    SameTxKeeps(s, s1.(recoverActive := s1.recoverActive && ack < s1.recover));
  }

  lemma FullAckKeeps(c: Config, s: Socket, ack: nat, segments: nat, isDupack: bool, oldDupAcks: nat, a: AckAnswers)
    requires Leaving(c, s, ack, isDupack)
    ensures
      var r := FullAck(c, s, ack, segments, isDupack, oldDupAcks, a);
      MidInv(c, r, true) && EpisodeOpen(r) && Accounted(s, r)
  {
    var s1 := LeaveCongestion(s, segments, isDupack, oldDupAcks);
    var s2 := s1.(recoverActive := s1.recoverActive && ack < s1.recover);
    LeaveCongestionShape(s, segments, isDupack, oldDupAcks);
    LeftKeeps(c, s, s1, ack, isDupack);
    if s.tcb.cong == Recovery {
      NewAckKeeps(c, s2, ack, true, a.ackRto);
      var s3 := NewAck(c, s2, ack, true, a.ackRto);
      QuietKeeps(c, s3, SetCwnd(s3, a.exitCwnd), true);
    } else {
      IncreaseWindowQuiet(c, s2, a.growth);
      QuietKeeps(c, s2, IncreaseWindow(c, s2, a.growth), false);
      NewAckKeeps(c, IncreaseWindow(c, s2, a.growth), ack, true, a.ackRto);
    }
  }

  /** Segment accounting is division with the remainder carried over. */
  lemma CountAckedKeeps(s: Socket, first: nat, una: nat, bytes: nat)
    requires AccountAt(s, first, una)
    ensures AccountAt(CountAcked(s, bytes), first, una + bytes)
  {
    var seg := s.tcb.segmentSize;
    var n := SegmentsAcked(s, bytes);
    assert bytes == (bytes / seg) * seg + bytes % seg;
    assert (s.totalSegments + n) * seg == s.totalSegments * seg + n * seg;
    if s.unprocessed + bytes % seg >= seg {
      assert n * seg == (bytes / seg) * seg + seg;
    }
  }

  lemma CreditedKeeps(c: Config, s: Socket, bytes: nat, isDupack: bool)
    requires MidInv(c, s, false)
    ensures
      var r := Credited(s, bytes, isDupack);
      TxInv(r) && EntryInv(r) && Swift.SwiftInv(r.swift) && SameTx(s, r) && r.tcb == s.tcb && r.tx == s.tx
      && (isDupack || s.tcb.cong != Disorder ==> CongInv(c, r))
      && (r.recoverActive <==> InEpisode(r)) && r.recover == s.recover && r.connected == s.connected
      && (!isDupack ==> r.dupAckCount == 0)
  {
    SameTxKeeps(s, Credited(s, bytes, isDupack));
  }

  /** Every branch taken by an ACK that advances SND.UNA restores the whole invariant. */
  lemma AdvanceUnaKeeps(c: Config, s: Socket, first: nat, ack: nat, bytes: nat, isDupack: bool, oldDupAcks: nat,
                        a: AckAnswers)
    requires MidInv(c, s, false) && s.tx.head == ack && bytes <= ack && AccountAt(s, first, ack - bytes)
    requires isDupack ==> s.tcb.cong != Open
    ensures
      var r := AdvanceUna(c, s, ack, bytes, isDupack, oldDupAcks, a);
      MidInv(c, r, true) && EpisodeOpen(r) && AccountAt(r, first, ack) && Accounted(Credited(s, bytes, isDupack), r)
  {
    var segments, s1 := SegmentsAcked(s, bytes), Credited(s, bytes, isDupack);
    CountAckedKeeps(s, first, ack - bytes, bytes);
    CreditedKeeps(c, s, bytes, isDupack);
    assert AccountAt(s1, first, ack);
    BranchKeeps(c, s1, first, ack, segments, isDupack, oldDupAcks, a);
  }

  lemma BranchKeeps(c: Config, s1: Socket, first: nat, ack: nat, segments: nat, isDupack: bool, oldDupAcks: nat,
                    a: AckAnswers)
    requires TxInv(s1) && EntryInv(s1) && Swift.SwiftInv(s1.swift) && s1.tx.head == ack && AccountAt(s1, first, ack)
    requires isDupack || s1.tcb.cong != Disorder ==> CongInv(c, s1)
    requires (s1.recoverActive <==> InEpisode(s1))
    requires if isDupack then s1.tcb.cong != Open else s1.dupAckCount == 0
    ensures
      var r := if ack < s1.recover && s1.tcb.cong == Recovery then PartialAck(c, s1, ack, segments, a)
               else if ack < s1.recover && s1.tcb.cong == Loss then LossAck(c, s1, ack, a)
               else FullAck(c, s1, ack, segments, isDupack, oldDupAcks, a);
      MidInv(c, r, true) && EpisodeOpen(r) && AccountAt(r, first, ack) && Accounted(s1, r)
  {
    hide PartialAck, LossAck, FullAck;
    if ack < s1.recover && s1.tcb.cong == Recovery {
      PartialAckKeeps(c, s1, ack, segments, a);
    } else if ack < s1.recover && s1.tcb.cong == Loss {
      LossAckKeeps(c, s1, ack, a);
    } else {
      FullAckKeeps(c, s1, ack, segments, isDupack, oldDupAcks, a);
    }
  }

  lemma NoteAckKeeps(c: Config, s: Socket, ack: nat, isDupack: bool, a: AckAnswers, ready: bool)
    requires MidInv(c, s, ready) && (isDupack ==> s.tx.head < s.tcb.highTx)
    ensures
      var r := NoteAck(c, s, ack, isDupack, a);
      MidInv(c, r, ready) && Accounted(s, r) && (EpisodeOpen(s) ==> EpisodeOpen(r)) && (isDupack ==> r.tcb.cong != Open)
  {
    hide EcnInv, WireInv, DupAck;
    var s1 := s.(tcb := s.tcb.(lastAcked := ack));
    SameTxKeeps(s, s1);
    if isDupack {
      DupAckKeeps(c, s1, a, ready);
    }
  }

  /** ProcessAck, entered with the Tx buffer already trimmed to the ACK. */
  lemma ProcessAckKeeps(c: Config, s: Socket, first: nat, ack: nat, oldHead: nat, a: AckAnswers)
    requires MidInv(c, s, oldHead == ack) && s.tx.head == ack && oldHead <= ack && AccountAt(s, first, oldHead)
    requires oldHead == ack ==> EpisodeOpen(s)
    ensures
      var r := ProcessAck(c, s, ack, oldHead, a);
      MidInv(c, r, true) && EpisodeOpen(r) && AccountAt(r, first, ack) && Stream(s, r)
  {
    hide EcnInv, WireInv, CongInv, EntryInv, FinishAck, NoteAck;
    var isDupack := IsDupack(c, s, ack, oldHead, a.sackUpdated);
    NoteAckKeeps(c, s, ack, isDupack, a, oldHead == ack);
    FinishAckKeeps(c, s, NoteAck(c, s, ack, isDupack, a), first, ack, oldHead, isDupack, a);
  }

  /** What ProcessAck promises about the byte stream. */
  ghost predicate Stream(s: Socket, r: Socket) {
    && r.tx.head == s.tx.head && r.tx.tail == s.tx.tail && r.connected == s.connected
    && r.rWnd == s.rWnd && r.highRxAck == s.highRxAck && r.highRxMark == s.highRxMark && EcnReacts(s, r)
    && r.tcb.lastRtt == s.tcb.lastRtt && r.tcb.rcvTtl == s.tcb.rcvTtl
    && s.sends <= r.sends && s.tcb.highTx <= r.tcb.highTx
    && forall i :: |s.sends| <= i < |r.sends| ==> s.tx.head <= r.sends[i].lo < r.sends[i].hi <= r.tcb.highTx
  }

  lemma StreamTransitive(s: Socket, m: Socket, r: Socket)
    requires Stream(s, m) && Stream(m, r)
    ensures Stream(s, r)
  {
    assert forall i :: |s.sends| <= i < |m.sends| ==> r.sends[i] == m.sends[i];
  }

  lemma FinishAckKeeps(c: Config, s: Socket, s2: Socket, first: nat, ack: nat, oldHead: nat, isDupack: bool, a: AckAnswers)
    requires MidInv(c, s2, oldHead == ack) && Accounted(s, s2) && s.tx.head == ack && oldHead <= ack
    requires AccountAt(s, first, oldHead) && (oldHead == ack ==> EpisodeOpen(s2)) && (isDupack ==> s2.tcb.cong != Open)
    ensures
      var r := FinishAck(c, s2, ack, oldHead, isDupack, s.dupAckCount, a);
      MidInv(c, r, true) && EpisodeOpen(r) && AccountAt(r, first, ack) && Stream(s, r)
  {
    hide EcnInv, WireInv, CongInv, EntryInv, AdvanceUna;
    if ack > oldHead {
      AdvanceUnaKeeps(c, s2, first, ack, ack - oldHead, isDupack, s.dupAckCount, a);
      StreamTransitive(s, s2, AdvanceUna(c, s2, ack, ack - oldHead, isDupack, s.dupAckCount, a));
    } else if ack != s2.tcb.highTx {
      PktsAckedQuiet(s2);
      QuietKeeps(c, s2, PktsAcked(s2), true);
    }
  }

  lemma TrimmedKeeps(c: Config, s: Socket, first: nat, ack: nat, a: AckAnswers)
    requires Inv(c, s, first) && s.tx.head <= ack <= s.tcb.highTx && FrontPast(s.history, ack)
    ensures
      var r := Trimmed(c, s, ack, a);
      MidInv(c, r, s.tx.head == ack) && AccountAt(r, first, s.tx.head) && (s.tx.head == ack ==> EpisodeOpen(r))
  {
    assert WireOf(Trimmed(c, s, ack, a)) == WireOf(s);
  }

  /** The ECN echo and the ECN state may change freely as long as the echo does not pass SND.UNA. */
  lemma EcnFieldsKeep(c: Config, s: Socket, r: Socket, ready: bool)
    requires MidInv(c, s, ready) && r.ecnEchoSeq <= s.tx.head
    requires r == s.(ecnEchoSeq := r.ecnEchoSeq, rto := r.rto, tcb := s.tcb.(ecn := r.tcb.ecn))
    ensures MidInv(c, r, ready) && (EpisodeOpen(s) ==> EpisodeOpen(r))
  {
    assert WireOf(r) == WireOf(s);
  }

  lemma EcnEchoShape(s: Socket, ack: nat, oldHead: nat, ece: bool)
    ensures
      var r := EcnEcho(s, ack, oldHead, ece);
      r == s.(ecnEchoSeq := r.ecnEchoSeq, tcb := s.tcb.(ecn := r.tcb.ecn)) && r.ecnEchoSeq <= Max(s.ecnEchoSeq, ack)
  {
  }

  /** Trimming the Tx buffer to an ACK in range. */
  lemma DiscardKeeps(c: Config, s: Socket, first: nat, h: Header, a: AckAnswers)
    requires Inv(c, s, first) && s.tx.head <= h.ack <= s.tcb.highTx && FrontPast(s.history, h.ack)
    ensures
      var s1 := EcnEcho(Trimmed(c, s, h.ack, a), h.ack, s.tx.head, h.ece);
      MidInv(c, s1, s.tx.head == h.ack) && s1.tx.head == h.ack && s1.tx.tail == s.tx.tail && AccountAt(s1, first, s.tx.head)
      && (s.tx.head == h.ack ==> EpisodeOpen(s1)) && s1.sends == s.sends && s1.tcb.highTx == s.tcb.highTx
      && s1.connected == s.connected
  {
    TrimmedKeeps(c, s, first, h.ack, a);
    var s0 := Trimmed(c, s, h.ack, a);
    EcnEchoShape(s0, h.ack, s.tx.head, h.ece);
    EcnFieldsKeep(c, s0, EcnEcho(s0, h.ack, s.tx.head, h.ece), s.tx.head == h.ack);
  }

  /** An ACK in range, its number and ECN flag taken up. */
  lemma TakenUp(c: Config, s: Socket, first: nat, h: Header, a: AckAnswers)
    requires Inv(c, s, first) && s.tx.head <= h.ack <= s.tcb.highTx && FrontPast(s.history, h.ack)
    ensures
      var r := EcnEcho(Trimmed(c, s, h.ack, a), h.ack, s.tx.head, h.ece);
      AckReady(c, r) && r.tx.head == h.ack && r.swift == s.swift
  {
    hide TxInv, ControlInv, Inv;
    DiscardKeeps(c, s, first, h, a);
  }

  /** What an event other than a write may do to the data stream: nothing moves back, no data appears, and
      everything newly sent lies between the new SND.UNA and the new high mark. */
  ghost predicate Progress(s: Socket, r: Socket) {
    && s.tx.head <= r.tx.head && s.tcb.highTx <= r.tcb.highTx && s.tx.tail == r.tx.tail
    && s.sends <= r.sends
    && forall i :: |s.sends| <= i < |r.sends| ==> r.tx.head <= r.sends[i].lo < r.sends[i].hi <= r.tcb.highTx
  }

  lemma ProgressTransitive(s: Socket, m: Socket, r: Socket)
    requires Progress(s, m) && Progress(m, r) && m.tx.head == r.tx.head
    ensures Progress(s, r)
  {
    assert forall i :: |s.sends| <= i < |m.sends| ==> r.sends[i] == m.sends[i];
  }

  lemma FlushKeeps(c: Config, s: Socket, first: nat, offers: nat -> Offer)
    requires Inv(c, s, first)
    ensures
      var r := SendPendingData(c, s, offers);
      Inv(c, r, first) && Progress(s, r) && r.tx.head == s.tx.head
  {
    SendPendingDataKeeps(c, s, offers);
    FrameKeepsControl(c, s, SendPendingData(c, s, offers));
  }

  lemma MarkKeeps(c: Config, s: Socket, r: Socket, first: nat)
    requires Inv(c, s, first) && r == s.(rto := r.rto, tcb := s.tcb.(ecn := r.tcb.ecn))
    ensures Inv(c, r, first) && Progress(s, r) && r.tx.head == s.tx.head
  {
    EcnFieldsKeep(c, s, r, true);
  }

  lemma SendAckKeeps(c: Config, s: Socket, first: nat, rto: nat)
    requires Inv(c, s, first)
    ensures Inv(c, SendAck(s, rto), first) && Progress(s, SendAck(s, rto)) && SendAck(s, rto).tx.head == s.tx.head
  {
    MarkKeeps(c, s, SendAck(s, rto), first);
  }

  lemma TakeAckKeeps(c: Config, s: Socket, first: nat, h: Header, a: AckAnswers)
    requires Inv(c, s, first) && s.tx.head <= h.ack <= s.tcb.highTx && FrontPast(s.history, h.ack)
    ensures
      var r := TakeAck(c, s, h, a);
      Inv(c, r, first) && Progress(s, r) && r.tx.head == h.ack
  {
    hide EcnInv, WireInv, CongInv, EntryInv, EcnReacts, ProcessAck, EcnEcho, Trimmed, AccountAt;
    var s1 := EcnEcho(Trimmed(c, s, h.ack, a), h.ack, s.tx.head, h.ece);
    DiscardKeeps(c, s, first, h, a);
    ProcessAckKeeps(c, s1, first, h.ack, s.tx.head, a);
    var s2 := ProcessAck(c, s1, h.ack, s.tx.head, a);
    assert Inv(c, s2, first) && Progress(s, s2);
    if a.dataAck.Some? {
      SendAckKeeps(c, s2, first, a.dataAck.value);
      ProgressTransitive(s, s2, SendAck(s2, a.dataAck.value));
    }
  }

  lemma ReceivedAckKeeps(c: Config, s: Socket, first: nat, h: Header, a: AckAnswers)
    requires Inv(c, s, first) && s.tx.head <= h.ack <= s.tcb.highTx && FrontPast(s.history, h.ack)
    ensures
      var r := ReceivedAck(c, s, h, a);
      Inv(c, r, first) && Progress(s, r) && r.tx.head == h.ack
  {
    hide Inv, TakeAck, SendPendingData;
    var s1 := TakeAck(c, s, h, a);
    TakeAckKeeps(c, s, first, h, a);
    FlushKeeps(c, s1, first, a.offers);
    ProgressTransitive(s, s1, SendPendingData(c, s1, a.offers));
  }

  // Whole events

  lemma AckedWire(s: Socket, r: Socket, ack: nat)
    requires WireInv(s) && WireOf(r) == H.Next(WireOf(s), H.Acked(ack)) && r.straddled == s.straddled
    requires r.tx.head == s.tx.head
    ensures WireInv(r) && FrontPast(r.history, ack)
  {
    RemainingFront(s.history, ack, s.tx.head);
    if !s.straddled {
      H.KarnStepIff(WireOf(s), H.Acked(ack));
    }
  }

  /** An arriving header only feeds the estimator, the peer's window and the RTT history. */
  lemma ArriveFrame(s: Socket, now: nat, h: Header, a: AckAnswers)
    ensures
      var r := Arrive(s, now, h, a);
      r == s.(now := now, rto := r.rto, history := H.Remaining(s.history, h.ack), rWnd := r.rWnd,
              highRxAck := r.highRxAck, highRxMark := r.highRxMark, tcb := s.tcb.(rcvTtl := h.ttl, lastRtt := r.tcb.lastRtt))
  {
  }

  lemma ArriveKeeps(c: Config, s: Socket, first: nat, now: nat, h: Header, a: AckAnswers)
    requires Inv(c, s, first)
    ensures
      var r := Arrive(s, now, h, a);
      Inv(c, r, first) && Progress(s, r) && r.tx == s.tx && r.sends == s.sends && FrontPast(r.history, h.ack)
  {
    var r := Arrive(s, now, h, a);
    ArriveFrame(s, now, h, a);
    AckedWire(s, r, h.ack);
  }

  lemma ProcessEstablishedKeeps(c: Config, s: Socket, first: nat, h: Header, a: AckAnswers)
    requires Inv(c, s, first) && FrontPast(s.history, h.ack)
    ensures
      var r := ProcessEstablished(c, s, h, a);
      Inv(c, r, first) && Progress(s, r) && (r.tx.head == s.tx.head || r.tx.head == h.ack)
  {
    if h.ack > s.tcb.highTx {
      SendAckKeeps(c, s, first, a.rangeRto);
    } else if h.ack >= s.tx.head {
      ReceivedAckKeeps(c, s, first, h, a);
    }
  }

  lemma ReceiveKeeps(c: Config, s: Socket, first: nat, now: nat, h: Header, a: AckAnswers)
    requires Inv(c, s, first)
    ensures
      var r := Receive(c, s, now, h, a);
      Inv(c, r, first) && Progress(s, r) && (r.tx.head == s.tx.head || r.tx.head == h.ack)
  {
    ArriveKeeps(c, s, first, now, h, a);
    ProcessEstablishedKeeps(c, Arrive(s, now, h, a), first, h, a);
    ProgressCompose(s, Arrive(s, now, h, a), Receive(c, s, now, h, a));
  }

  lemma ProgressCompose(s: Socket, m: Socket, r: Socket)
    requires Progress(s, m) && Progress(m, r) && s.sends == m.sends
    ensures Progress(s, r)
  {
  }

  lemma BackoffKeeps(c: Config, s: Socket, first: nat, t: TimeoutAnswers)
    requires Inv(c, s, first) && 0 < s.dataRetrCount
    ensures
      var r := Backoff(c, s, t);
      Inv(c, r, first) && Progress(s, r) && r.tx.head == s.tx.head && r.tx.inFlight == 0
      && r.tcb.cWnd == r.tcb.segmentSize == s.tcb.segmentSize
  {
    hide Swift.CongestionStateSet, Swift.GetSsThresh, Swift.SwiftInv, EcnInv, WireInv;
    SetCongStateSwift(s, Loss);
    BackoffTx(c, s, t);
  }

  lemma BackoffTx(c: Config, s: Socket, t: TimeoutAnswers)
    requires TxInv(s) && 0 < s.dataRetrCount
    ensures TxInv(Backoff(c, s, t))
  {
    assert WireOf(Backoff(c, s, t)) == H.Next(WireOf(s), H.TimedOut);
  }

  lemma DisconnectKeeps(c: Config, s: Socket, first: nat)
    requires Inv(c, s, first)
    ensures Inv(c, s.(connected := false), first)
  {
    assert WireOf(s.(connected := false)) == WireOf(s);
  }

  lemma ReTxTimeoutKeeps(c: Config, s: Socket, first: nat, t: TimeoutAnswers)
    requires Inv(c, s, first)
    ensures
      var r := ReTxTimeout(c, s, t);
      Inv(c, r, first) && Progress(s, r) && r.tx.head == s.tx.head
  {
    hide EcnInv, WireInv, CongInv, EntryInv, AccountAt, SendPendingData, Backoff;
    if s.tx.tail > s.tx.head {
      if s.dataRetrCount == 0 {
        DisconnectKeeps(c, s, first);
      } else {
        BackoffKeeps(c, s, first, t);
        FlushKeeps(c, Backoff(c, s, t), first, Unpaced(t.offers));
        ProgressTransitive(s, Backoff(c, s, t), ReTxTimeout(c, s, t));
      }
    }
  }

  lemma ClockKeeps(c: Config, s: Socket, first: nat, now: nat)
    requires Inv(c, s, first)
    ensures Inv(c, s.(now := now), first)
  {
    assert WireOf(s.(now := now)) == WireOf(s);
  }

  lemma WriteKeeps(c: Config, s: Socket, first: nat, size: nat)
    requires Inv(c, s, first)
    ensures
      Inv(c, s.(tx := s.tx.(tail := s.tx.tail + size)), first)
  {
    assert WireOf(s.(tx := s.tx.(tail := s.tx.tail + size))) == WireOf(s);
  }

  lemma FlushAtKeeps(c: Config, s: Socket, first: nat, now: nat, offers: nat -> Offer)
    requires Inv(c, s, first)
    ensures
      var r := SendPendingData(c, s.(now := now), offers);
      Inv(c, r, first) && Progress(s, r) && r.tx.head == s.tx.head
  {
    ClockKeeps(c, s, first, now);
    FlushKeeps(c, s.(now := now), first, offers);
  }

  lemma TimeoutAtKeeps(c: Config, s: Socket, first: nat, now: nat, t: TimeoutAnswers)
    requires Inv(c, s, first)
    ensures
      var r := ReTxTimeout(c, s.(now := now), t);
      Inv(c, r, first) && Progress(s, r) && r.tx.head == s.tx.head
  {
    ClockKeeps(c, s, first, now);
    ReTxTimeoutKeeps(c, s.(now := now), first, t);
  }

  /** The data an event brings along. */
  function Written(s: Socket, e: Event): Socket {
    if e.Write? then s.(tx := s.tx.(tail := s.tx.tail + e.size)) else s
  }

  /** Every event keeps the invariant, and moves SND.UNA only to an acknowledgment that arrived. */
  lemma StepKeeps(c: Config, s: Socket, first: nat, e: Event)
    requires Inv(c, s, first)
    ensures
      var r := Step(c, s, e);
      Inv(c, r, first) && Progress(Written(s, e), r) && (r.tx.head == s.tx.head || (e.Segment? && r.tx.head == e.header.ack))
  {
    hide Inv, SendPendingData, Receive, ReTxTimeout, SendAck;
    match e
    case Write(size) => WriteKeeps(c, s, first, size);
    case Flush(now, offers) => FlushAtKeeps(c, s, first, now, offers);
    case Segment(now, h, a) => ReceiveKeeps(c, s, first, now, h, a);
    case EmptyAck(rto) => SendAckKeeps(c, s, first, rto);
    case Timeout(now, t) => TimeoutAtKeeps(c, s, first, now, t);
    case CeMark => MarkKeeps(c, s, Step(c, s, e), first);
    case CwrFlag => MarkKeeps(c, s, Step(c, s, e), first);
  }

  lemma {:induction false} RunKeeps(c: Config, s: Socket, first: nat, es: seq<Event>)
    requires Inv(c, s, first)
    ensures Inv(c, Run(c, s, es), first)
  {
    if es != [] {
      RunKeeps(c, s, first, es[..|es| - 1]);
      StepKeeps(c, Run(c, s, es[..|es| - 1]), first, es[|es| - 1]);
    }
  }

  /** The state the handshake leaves satisfies the invariant. */
  lemma InitialInv(c: Config, b: Start)
    ensures Inv(c, Initial(c.dataRetries, b), b.first)
  {
    Swift.CongestionStateSetKeeps(Swift.INITIAL, b.first - 1, Open);
  }
}
